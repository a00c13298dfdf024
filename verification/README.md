# Verification of the SFU's protocols

The repository is a selective forwarding unit: publishers send simulcast layers of their tracks,
routers and forwarders fan the packets out to downtracks, and every subscriber connection is
renegotiated as tracks come and go. This project models the state machines in `pkg/sfu` and proves
what they guarantee over whole runs, for any number of goroutines in any order.

`dafny verify dfyconfig.toml` checks everything.

| file | what it models |
|---|---|
| `Negotiation.dfy` | the renegotiation protocol of one subscriber, one event for each critical section and each call into the peer connection |
| `Fabric.dfy`, `Coverage.dfy`, `Offers.dfy`, `GivenUp.dfy`, `Jobs.dfy`, `Changes.dfy` | which subscriber has which downtrack, while routers publish and subscribers join and leave |
| `EndToEnd.dfy`, `Progress.dfy` | the fabric with one negotiation for each subscriber: what finally reaches a client, and that it does |
| `Rtp.dfy` | the sequencer with its 16-bit and 32-bit wrap-around, against an ideal stream of unbounded numbers |
| `Layers.dfy`, `Selector.dfy`, `Switching.dfy`, `Packets.dfy` | which layer a downtrack forwards, packet by packet |
| `Tracks.dfy`, `Subscribers.dfy`, `Routing.dfy` | the objects: layers, tracks, downtracks, subscribers, forwarders; their methods are tied to the state machines above |
| `Announce.dfy`, `Departures.dfy` | who is told of which track, and what becomes of a publisher that leaves |
| `Bandwidth.dfy`, `Estimator.dfy` | the bandwidth allocator and the estimator with its reordered callbacks |
| `Locks.dfy`, `Nesting.dfy` | the mutexes of all entry points: which are held while which are taken, mutual exclusion, and freedom from deadlock |
| `Values.dfy` | an option type and a maximum |

## What holds, and what does not

The main theorems are `Negotiation.SingleNegotiation`, `Negotiation.EveryRequestIsDelivered`,
`Coverage.EveryPairCoveredOrOwed`, `Offers.CoveredExactlyWhenOffered`, `Changes.OnlySubscribersReceive`,
`EndToEnd.Delivered`, `EndToEnd.ReceivesExactlyWhenOffered`, `Progress.EverythingIsDelivered`,
`Progress.NewTrackIsReceived`, `Progress.NewSubscriberReceives`, `Rtp.RewriteRefinesIdeal`, `Rtp.ReceiverRecoversIdeal`,
`Packets.RequestIsReached`, `Switching.SeamlessSplice`, `Switching.GapsExactly`, `Switching.FallbackOutOfReachExactly`,
`Announce.ToldUnlessMissed`, `Departures.DepartedRegisteredExactly`, `Bandwidth.TargetExactly`,
`Bandwidth.NeverOversubscribes`, `Estimator.AvailableBitrateStaysInRange`, `Nesting.RunsNestExactly` and
`Locks.NoDeadlock`.

Some things one would expect of the code are not so. Each has a run that shows it and, where there
is one, the exact condition:

* A failed `CreateOffer` or `SetLocalDescription` drops the requests that queued behind it
  (`Negotiation.FailedOfferDropsRequests`). At rest, a request is lost exactly when the last reset
  after an error ran with a request not covered by an applied offer (`Negotiation.LostExactlyWhenDropped`).
* A failed `SendOffer` can leave the negotiation owned by an offer nobody received, so that nothing but an
  answer to it starts another one (`Negotiation.FailedSendBlocksRenegotiation`): exactly when the connection
  still waits for that answer and no other offer is on its way (`Negotiation.FailedSendBlocksExactly`).
* An answer that arrives between `SetLocalDescription` and `SendOffer` lets a newer offer overtake the
  older one (`Negotiation.UnsolicitedAnswerReordersOffers`); only such an answer does
  (`Negotiation.OneInFlightStep`). A goroutine with only `SendOffer` left owns no negotiation.
* A track that gets its first usable layer after the last `AddDownTrack` for it is never attached
  (`Coverage.LateLayerIsMissed`); `Offers.CoveredExactlyWhenOffered` has the condition.
* A `Subscribe` that cannot make one of its downtracks does not negotiate for those it has made, and they stay
  attached without an offer (`GivenUp.GivingUpStrandsAttachment`), until some later call of `Negotiate` is
  accepted; `GivenUp.UnknownExactly` has the condition.
* A peer that joins between the broadcast of a publisher's first track and the registration of its
  router is never told of that track (`Announce.FirstTrackCanBeMissed`); `Announce.ToldUnlessMissed` has the condition.
* A publisher that leaves while one of its tracks is being added stays in the session: `onTrack` registers its closed
  router again, and peers that join later are told of its tracks (`Departures.DepartedCanStayRegistered`);
  `Departures.DepartedRegisteredExactly` has the condition.
* `DownTrack.SetTargetLayer` does not take the downtrack's lock. A target set between two calls of `WriteRTP`
  into the selector can overtake the switch: `WriteRTP` carries on with the layer it wanted, and the selector is on
  another. `Switching.TriedLayerIsCurrent` says exactly when. Then a layer can start without a keyframe
  (`Switching.RaceStartsLayerWithoutKeyframe`), the downtrack can end up on a layer that does not exist and forward
  two layers side by side (`Switching.RaceReachesFallback`), and a client that returns to a layer can see a gap
  (`Switching.RaceLeavesGap`), although layers are only added and none loses a packet. The theorems on keyframes
  and splicing are for all runs in which no switch is overtaken, and it is exactly an overtaken switch that lets a
  layer start from the middle (`Switching.OvertakenExactly`, over runs `Switching.NeverMidwayExactly`). The theorem
  on fallback is for all runs in which every overtaken switch lands on a layer the track has, and it is exactly one
  that lands elsewhere that opens the way to fallback (`Switching.FallbackExactly`, over runs
  `Switching.FallbackOutOfReachExactly`).
* A layer that is found inactive and comes back while it is still the current layer leaves a gap in the
  outgoing numbers (`Switching.ComebackLeavesGap`); `Switching.GapsExactly` has the condition for every run.
  Nothing in `pkg/sfu` deactivates or removes a layer so far, so this waits for the first caller of `SetActive`.
* A maximum layer with an unknown name is overrun by the next recalculation
  (`Bandwidth.UnknownMaxIsOverrun`); `Bandwidth.RecalculationKeepsMax` has the condition.
* A loss-based estimate of zero counts as none, and the old estimate stays in force: below one bit a second,
  or below two with more than 2% loss (`Estimator.NoLossBasedExactly`). So less traffic can leave a higher
  estimate than more (`Estimator.SilenceKeepsEstimate`); `Estimator.UpdateIsMonotoneExactly` has the condition.
* Estimate callbacks that overtake each other leave an old estimate in force (`Estimator.OlderEstimateCanWin`);
  the order makes no difference exactly when all of them carry the newest estimate (`Estimator.EndsOnNewestExactly`).

The repository's README says that the receiver forwards packets to downtracks; in the code they go
through the router and the track's forwarder, and the model follows the code.

## Assumptions

* Track IDs are unique across publishers and not reused; peer IDs are not reused within a session.
* A peer connection that only offers is `Stable` or `HaveLocalOffer`, and `SetRemoteDescription` of an answer succeeds
  only in the latter (section 3.2 of RFC 8829). Other calls into pion are reduced to success or failure and
  lock nothing of the repository's.
* Clock readings are integers in nanoseconds that never run backwards; the zero time is further back than any cooldown.
* `WriteRTP` excludes itself on one downtrack, by the downtrack's lock; `SetTargetLayer` may come at any moment.
* Floating-point numbers are reals and conversions round down.

## Model

| member | source | states |
|---|---|---|
| Negotiation.SingleOwnerStep | pkg/sfu/subscriber.go:164-238 | whatever one goroutine does next, `negotiating` stays true exactly when one token exists |
| Negotiation.SingleNegotiation | pkg/sfu/subscriber.go:176-187 | in every reachable state `negotiating` holds iff there is exactly one owner; a goroutine about to reset it is the only owner, so a late reset never clears a newer negotiation, and offers are applied only in the stable state |
| Negotiation.RememberedStep | pkg/sfu/subscriber.go:164-238 | a request not covered by an applied offer stays remembered by a flag, a goroutine or a record of its loss |
| Negotiation.OffersTravelStep | pkg/sfu/subscriber.go:190-206 | an applied offer is about to be sent, sent, or lost to an error; versions only grow |
| Negotiation.InvRun | pkg/sfu/subscriber.go:164-238 | every run keeps ownership, memory, offers and the bound on negotiations |
| Negotiation.QuiescentHasSentAll | pkg/sfu/subscriber.go:165-232 | without failed calls, a quiescent open subscriber has sent an offer for everything that was asked for |
| Negotiation.LostExactlyWhenDropped | pkg/sfu/subscriber.go:190-202 | with failed calls, a quiescent subscriber has lost a request iff the last reset dropped one |
| Negotiation.NegotiationsBoundedByCalls | pkg/sfu/subscriber.go:176-187 | negotiations started, spawned or queued never outnumber the calls of Negotiate |
| Negotiation.WorkDecreases | pkg/sfu/subscriber.go:216-229 | every step the server takes by itself, and every answer, uses up work |
| Negotiation.RunsByItselfOnlySoLong | pkg/sfu/subscriber.go:216-229 | renegotiation cannot run forever without new calls |
| Negotiation.Move | pkg/sfu/subscriber.go:164-238 | a state that is not quiescent always has a next step that needs no failure |
| Negotiation.CanSettle | pkg/sfu/subscriber.go:164-238 | from any state a quiescent one is reached within the work at hand |
| Negotiation.EveryRequestIsDelivered | pkg/sfu/subscriber.go:165-232 | after any run without failures, any continuation by the server and an answering client is bounded and can be completed without a failure; once quiescent, and at that completion, all that was requested has been sent |
| Negotiation.OneInFlightStep | pkg/sfu/subscriber.go:199-220 | at most the newest offer is unsent, and this is broken by exactly one event: an answer to an offer not sent yet |
| Negotiation.OffersLeaveInOrder | pkg/sfu/subscriber.go:199-205 | with a client that answers only what it was sent, offers leave in order of their versions |
| Negotiation.EarlyAnswerRound | pkg/sfu/subscriber.go:199-220 | a complete round whose answer comes before SendOffer leaves that offer unsent and the subscriber free |
| Negotiation.UnsolicitedAnswerReordersOffers | pkg/sfu/subscriber.go:199-220 | a run in which version 1 is about to be sent after version 2 |
| Negotiation.FailedOfferDropsRequests | pkg/sfu/subscriber.go:193-197 | from every open subscriber at rest a run with one failed CreateOffer ends at rest with `needsOffer` set and a request nobody will serve |
| Negotiation.NextRoundMakesUp | pkg/sfu/subscriber.go:164-232 | from every open subscriber at rest, whatever failed before, one undisturbed round ends at rest with nothing queued and an offer sent for all its tracks |
| Negotiation.ClosedStartsNothing | pkg/sfu/subscriber.go:167-172 | once closed, no negotiation starts and no request is accepted in any run |
| Negotiation.ErrorsAreFailures | pkg/sfu/subscriber.go:190-206 | a run has exactly as many errors as failed calls, so that runs without errors are those in which no call fails |
| Negotiation.FailedSendBlocksExactly | pkg/sfu/subscriber.go:199-220 | in every run a failed SendOffer leaves a subscriber that only an answer can move iff the connection waits for the answer to this offer and no other offer is on its way |
| Negotiation.FailedSendBlocks | pkg/sfu/subscriber.go:199-220 | with a client that answers no offer on its way it always does |
| Negotiation.FailedSendBlocksRenegotiation | pkg/sfu/subscriber.go:204-205 | then tracks and calls start no negotiation and create no offer; only an answer can |
| Subscribers.Subscriber.constructor | pkg/sfu/subscriber.go:32-37 | a new subscriber is the initial state of the protocol |
| Subscribers.Subscriber.AddDownTrack | pkg/sfu/subscriber.go:92-124 | attaches one new downtrack with the codec of the best layer, in the map and in the track's list, iff open, not attached before and a best layer exists; otherwise nothing changes |
| Subscribers.Subscriber.Attach | pkg/sfu/subscriber.go:112-120 | the new downtrack has the given codec and SSRC and starts in the state the track's layers call for |
| Subscribers.Subscriber.EnterNegotiate | pkg/sfu/subscriber.go:165-185 | the critical section of Negotiate is the protocol's entry step |
| Subscribers.Subscriber.ResetNegotiationState | pkg/sfu/subscriber.go:234-238 | clears `negotiating` and nothing else |
| Subscribers.Subscriber.ResetAfterAnswer | pkg/sfu/subscriber.go:216-220 | clears both flags and hands over the request that was queued |
| Subscribers.Subscriber.DoNegotiate | pkg/sfu/subscriber.go:190-206 | undisturbed, it is a legal run of the protocol, for every outcome of the three calls |
| Subscribers.Subscriber.Negotiate | pkg/sfu/subscriber.go:165-188 | undisturbed, called or spawned, it enters and, if it starts a negotiation, runs it |
| Subscribers.Subscriber.HandleAnswer | pkg/sfu/subscriber.go:209-232 | a rejected answer changes nothing; an accepted one resets and spawns one goroutine iff a request was queued |
| Subscribers.Subscriber.Close | pkg/sfu/subscriber.go:258-276 | closes once; the downtracks to close are those in the map, which stay there |
| Fabric.RegisteredStep | pkg/sfu/subscriber.go:92-124 | the subscribers' maps and the set of downtracks stay inverse to each other |
| Fabric.ForwardsOwnStep | pkg/sfu/forwarder.go:29-46 | a forwarder only ever holds downtracks of its own track |
| Fabric.Grows | pkg/sfu/subscriber.go:92-124 | entries, downtracks and closed flags never go away |
| Fabric.RouterStep | pkg/sfu/router.go:38-81 | a router keeps its tracks, and while a Subscribe holds its lock also its subscribers and its holder |
| Fabric.SoundStep | pkg/sfu/router.go:38-144 | what every goroutine in AddTrack or Subscribe relies on survives the steps of all others |
| Fabric.DoneKeeps | pkg/sfu/forwarder.go:41-63 | a pair that has been dealt with stays so; a downtrack leaves a forwarder only by a failed write |
| Fabric.ForwardDeals | pkg/sfu/router.go:65-67 | after Forwarder.AddDownTrack nothing is left to do for the pair |
| Changes.ForwarderStep | pkg/sfu/forwarder.go:28-63 | after any event a downtrack is in a forwarder iff it was and this is not its failed write, or a goroutine puts it there and the forwarder is open |
| Changes.RouterFactsStep | pkg/sfu/router.go:38-155 | after any event: a subscriber is registered from SubscribeLock to Unsubscribe, routers and forwarders are closed from their Close on, a track is there iff it was published on an open router |
| Changes.SubscriberFactsStep | pkg/sfu/subscriber.go:92-124 | after any event: only Close closes a subscriber, only failing calls go on record as failed, only missing layers as passed over |
| Changes.AnythingMayFailOrClose | pkg/sfu/router.go:38-155 | writes and pion calls may fail and objects may close at any time, short of a locked router |
| Changes.PublishOnClosedRouter | pkg/sfu/router.go:38-43 | AddTrack on a closed router changes no router and starts nothing |
| Changes.ClosedIsSealed | pkg/sfu/forwarder.go:28-38 | in every run a closed router gains no track and a closed forwarder no downtrack |
| Changes.OnlySubscribersReceive | pkg/sfu/router.go:51-68 | in every run a downtrack belongs to a Subscribe of its subscriber to the router that has the track |
| Coverage.DebtIsPaid | pkg/sfu/router.go:58-72 | a goroutine that owes a pair still owes it after its step or has dealt with it |
| Coverage.NewPairIsOwed | pkg/sfu/router.go:51-55 | a pair a router comes to know, by AddTrack or by Subscribe, is owed by that very goroutine |
| Coverage.CoverageStep | pkg/sfu/router.go:38-137 | every known pair is dealt with or owed, after every step |
| Coverage.SkippedUnreadyStep | pkg/sfu/subscriber.go:105-110 | only tracks without a usable layer at publication are passed over |
| Coverage.AllAskedStep | pkg/sfu/router.go:69-71 | every attachment is known to Negotiate, or a goroutine in flight will call it, or a Subscribe gave up at or after it |
| Coverage.InvRun | pkg/sfu/router.go:38-144 | all of these in every run |
| Coverage.EveryPairCoveredOrOwed | pkg/sfu/router.go:38-137 | in every interleaving each pair of an open router and an open subscriber is covered, owed by a job in flight, or on record; tracks published with a usable layer are never passed over |
| Coverage.OneDowntrackPerPair | pkg/sfu/subscriber.go:100-103 | no pair has two downtracks, and a downtrack is in forwarders of its own track only |
| Jobs.StepsShrinkJobs | pkg/sfu/router.go:58-72 | a step shrinks its own job and touches no other |
| Jobs.JobsEnd | pkg/sfu/router.go:58-137 | AddTrack and Subscribe end within the work at hand, however many others run |
| Jobs.JobsNeverWait | pkg/sfu/router.go:38-137 | a job in flight always has a next step |
| Coverage.LateLayerIsMissed | pkg/sfu/subscriber.go:106-110 | a run without failures that ends with a usable track, a registered open subscriber, and no downtrack |
| Coverage.CoveredWhenIdle | pkg/sfu/router.go:38-137 | with nothing in flight a pair not on record has exactly one downtrack, forwarded, and known to Negotiate |
| Offers.EntryRun | pkg/sfu/subscriber.go:92-124 | a subscriber has a downtrack iff some AddDownTrack found it open and the track with a usable layer |
| Offers.OneRouterStep | pkg/sfu/router.go:45-49 | a track stays with one router |
| Offers.OfferIsForwarded | pkg/sfu/router.go:60-67 | whoever attaches a downtrack still owes it to the forwarder of the router in question |
| Offers.EntryHandledStep | pkg/sfu/router.go:58-137 | a downtrack of a registered subscriber is in its forwarder or on the way there |
| Offers.CoveredExactlyWhenOffered | pkg/sfu/router.go:38-137 | with nothing in flight and no failure, a pair is covered iff some AddDownTrack for it came while a layer was usable |
| GivenUp.KnownRun | pkg/sfu/router.go:69-71 | Negotiate knows of an attachment iff it did before or a call has been accepted since |
| GivenUp.UnknownExactly | pkg/sfu/subscriber.go:83-88 | with nothing in flight, an attachment not known at some moment is not known now iff a Subscribe gave up at or after it and no call of Negotiate has been accepted since |
| GivenUp.GivingUpStrandsAttachment | pkg/sfu/router.go:123-126 | a run that ends with nothing in flight and a covered downtrack that Negotiate was never told of |
| EndToEnd.EffectMatches | pkg/sfu/router.go:58-72 | every step of the fabric moves exactly the negotiation it should |
| EndToEnd.InvRun | pkg/sfu/router.go:38-144 | fabric and negotiations agree on versions, requests and closed flags in every run |
| EndToEnd.Delivered | pkg/sfu/router.go:38-137 | with nothing in flight, an open registered subscriber has, for every track published with a usable layer, exactly one downtrack, in the track's forwarder, covered by an offer that was sent |
| EndToEnd.CoveredIsSent | pkg/sfu/subscriber.go:164-206 | with nothing in flight and Negotiate told of every attachment before a given-up Subscribe, what is covered has been sent in an offer |
| EndToEnd.ReceivesExactlyWhenOffered | pkg/sfu/subscriber.go:76-124 | the same as an equivalence: a track is received iff some AddDownTrack for the pair came while a layer was usable |
| Progress.WorkShrinks | pkg/sfu/router.go:58-72 | every step of a job, of a negotiation or of an answering client uses up work, although jobs call Negotiate |
| Progress.InternalRunsEnd | pkg/sfu/router.go:58-137 | without new joins, tracks and subscriptions every run is over within the work at hand |
| Progress.JobGoesOn | pkg/sfu/router.go:38-137 | a job in flight can always take a step that fails nothing and closes nothing |
| Progress.CanSettle | pkg/sfu/subscriber.go:76-232 | from every reachable world a run without failures leads to one with nothing in flight |
| Progress.EverythingIsDelivered | pkg/sfu/subscriber.go:76-232 | after any run, what goes on by itself is bounded and can be carried to an end at which every open subscriber without a failure receives every track it is registered for that was published with a usable layer; a Subscribe that gave up counts as a failure until a later call of Negotiate |
| Progress.NewTrackIsReceived | pkg/sfu/router.go:38-72 | after any run, a usable track can be added to an open router that is not locked, and left to itself the server comes to rest with every subscriber of that moment receiving it |
| Progress.NewSubscriberReceives | pkg/sfu/subscriber.go:75-89 | after any run, an open subscriber can subscribe to an open router that is not locked, and left to itself the server comes to rest with the subscriber receiving every track published with a usable layer |
| Routing.Connect | pkg/sfu/router.go:58-67 | one turn of the loops in AddTrack and Subscribe: an error iff a new downtrack was due and failed; the open forwarder gains exactly the subscriber's downtrack and stays valid |
| Routing.Forwarder.constructor | pkg/sfu/forwarder.go:20-26 | empty and open |
| Routing.Forwarder.AddDownTrack | pkg/sfu/forwarder.go:29-38 | adds unless closed, and stays valid for a downtrack of its track with a selector and sequencer of its own |
| Routing.Forwarder.RemoveDownTrack | pkg/sfu/forwarder.go:41-46 | removes that downtrack only |
| Routing.Write | pkg/sfu/downtrack.go:121-139 | WriteRTP, with any interference, is one step of the downtrack and fails iff it sends what the local track refuses |
| Routing.Forwarder.Deliver | pkg/sfu/forwarder.go:57-62 | one downtrack takes the packet, the others do not notice; it is removed iff its write failed |
| Routing.OneMoreTakes | pkg/sfu/forwarder.go:57-62 | what has been taken so far gains the outcome of one downtrack, whichever comes next |
| Routing.Forwarder.Forward | pkg/sfu/forwarder.go:49-63 | every downtrack takes the packet once, at its own moment and with its own interference, and exactly those are removed that were sent it and refused |
| Routing.Forwarder.CloseNext | pkg/sfu/forwarder.go:76-80 | one turn of the loop in Close |
| Routing.Forwarder.Close | pkg/sfu/forwarder.go:66-81 | closes once, and every downtrack with it; the track's list loses each that was open once and nothing else |
| Rtp.RtpSequencer.constructor | pkg/sfu/rtp.go:17-19 | the zero state |
| Rtp.RtpSequencer.Rewrite | pkg/sfu/rtp.go:22-46 | the packet and the state the specification gives, with 16-bit and 32-bit wrap-around |
| Rtp.RefinesStep | pkg/sfu/rtp.go:22-46 | one Rewrite is one step of the ideal stream, modulo 2^16 and 2^32 |
| Rtp.RewriteRefinesIdeal | pkg/sfu/rtp.go:22-46 | whatever is rewritten, the output is the ideal stream cut to 16 and 32 bits, payloads untouched |
| Rtp.UnwrapRecovers | pkg/sfu/rtp.go:37-43 | a receiver that extends numbers by nearest difference (section 5.1 of RFC 3550) recovers any numbers that move by less than half the range |
| Rtp.ReceiverRecoversIdeal | pkg/sfu/rtp.go:22-46 | from the rewritten packets a receiver recovers the ideal numbers |
| Rtp.IdealGoesForward | pkg/sfu/rtp.go:30-43 | if each run of one SSRC goes forward, so does the whole stream |
| Rtp.NoDuplicateNumbers | pkg/sfu/rtp.go:30-43 | two outgoing numbers agree iff they are a multiple of 2^16 apart, however the SSRCs interleave |
| Rtp.DistanceIsKept | pkg/sfu/rtp.go:37-43 | neighbours of one SSRC keep the distance they came with |
| Rtp.ConsecutiveExactly | pkg/sfu/rtp.go:30-43 | neighbours in the output are consecutive iff the SSRC changed or they were consecutive on the way in |
| Rtp.FirstPacket | pkg/sfu/rtp.go:23-40 | the first packet keeps number and time under its own SSRC and moves by one under another |
| Rtp.TimestampsMove | pkg/sfu/rtp.go:30-43 | times keep their distance within an SSRC and move by one tick at each change, modulo 2^32 |
| Rtp.KeyframeBits | pkg/sfu/rtp.go:48-92 | keyframes in the bits of the first byte, codec by codec, and none without a payload or for other codecs |
| Rtp.GaplessRunsGiveGaplessStream | pkg/sfu/rtp.go:30-43 | gapless runs are spliced into one gapless stream under one SSRC |
| Selector.LayerSelector.constructor | pkg/sfu/bandwidth.go:250-260 | starts on the given layer, or on "high" for the empty name |
| Selector.LayerSelector.SetTargetLayer | pkg/sfu/bandwidth.go:263-271 | a new target becomes pending |
| Selector.LayerSelector.SwitchToTarget | pkg/sfu/bandwidth.go:309-336 | switches iff another layer is pending and the cooldown is over |
| Selector.LayerSelector.ForceSwitch | pkg/sfu/bandwidth.go:339-353 | switches at once |
| Selector.NeedsSwitchIsComparison | pkg/sfu/bandwidth.go:288-292 | in every reachable state NeedsSwitch is `current != target` |
| Selector.CanSwitchStaysGood | pkg/sfu/bandwidth.go:295-319 | after a passing CanSwitch, and whatever targets are set in between, SwitchToTarget switches iff another layer is wanted |
| Selector.ChangesInOrder | pkg/sfu/bandwidth.go:309-353 | every voluntary change comes a cooldown after the change before it, forced ones included |
| Selector.SwitchRate | pkg/sfu/bandwidth.go:295-336 | a window that spans T holds at most T / cooldown + 1 voluntary changes |
| Switching.TriedLayerIsCurrent | pkg/sfu/downtrack.go:143-173 | for every interference by SetTargetLayer, WriteRTP goes on with the layer its selector is on iff its switch was not overtaken; that layer only ever changes to that of a keyframe |
| Switching.OvertakenExactly | pkg/sfu/downtrack.go:143-194 | after a packet that finds its layer active, another layer can start from the middle iff the switch at that packet was overtaken |
| Switching.NeverMidwayExactly | pkg/sfu/downtrack.go:143-194 | over runs: with the current layer always active, no layer can start from the middle iff no switch is overtaken |
| Switching.CurrentStaysActiveExactly | pkg/sfu/downtrack.go:143-194 | after such a packet the selector is on an active layer iff the switch was not overtaken or landed on an active layer |
| Switching.FallbackExactly | pkg/sfu/downtrack.go:143-208 | after such a packet the next one may have to fall back iff the switch was overtaken and landed on a layer that is missing or inactive |
| Switching.FallbackOutOfReachExactly | pkg/sfu/downtrack.go:143-208 | over runs: while layers are only added, no packet leaves the next one to fall back iff every overtaken switch lands on a layer the track has |
| Switching.AtomicTargetsOvertakeNothing | pkg/sfu/downtrack.go:98-104 | if SetTargetLayer never comes during WriteRTP, no switch is overtaken |
| Switching.OvertakenSwitchRun | pkg/sfu/downtrack.go:143-164 | the run of a new downtrack whose first switch is overtaken, and where it leaves the selector |
| Switching.RaceStartsLayerWithoutKeyframe | pkg/sfu/downtrack.go:143-164 | such a run forwards a packet of a new layer that is no keyframe, with the current layer always active |
| Switching.RaceReachesFallback | pkg/sfu/downtrack.go:143-187 | such a run ends on a layer that does not exist and forwards two layers side by side, although layers are only added |
| Switching.RaceLeavesGap | pkg/sfu/downtrack.go:143-187 | such a run leaves a gap after a return, although every layer is gapless and always active |
| Switching.OutputIsRewriteRun | pkg/sfu/downtrack.go:121-139 | the outgoing packets are the forwarded ones, rewritten in order |
| Switching.GrowingLayersStayActive | pkg/sfu/track.go:51-102 | while layers are only added and every overtaken switch lands on one of them, the current layer stays active |
| Switching.FallbackUnreachable | pkg/sfu/downtrack.go:44-49 | then fallback is unreachable, even if clients ask for layers that do not exist |
| Switching.UnknownCodecNeverSwitches | pkg/sfu/rtp.go:54-63 | for other codecs than VP8, VP9 and H264 the layer never changes, whatever the interference |
| Switching.SendsCurrentLayer | pkg/sfu/downtrack.go:177-187 | unless its switch is overtaken, a packet is forwarded iff it is from the layer the selector is on afterwards |
| Switching.KeyframeStartsEveryLayerRun | pkg/sfu/downtrack.go:143-187 | in every run without an overtaken switch, while the current layer is active, every stretch of one layer in the output after the first starts with a keyframe |
| Switching.SpliceRun | pkg/sfu/downtrack.go:121-187 | without an overtaken switch, forwarded neighbours of one SSRC were consecutive upstream |
| Switching.GapsExactly | pkg/sfu/downtrack.go:121-187 | for every run, with any interference and any layers coming and going: a gap in the output is exactly a gap between two forwarded neighbours of one layer |
| Switching.SeamlessSplice | pkg/sfu/downtrack.go:121-187 | for gapless layers, any packets, targets and times without an overtaken switch give consecutive numbers under one SSRC across all switches and returns, unless a layer comes back from inactive while current |
| Switching.AlwaysActiveNeverComesBack | pkg/sfu/downtrack.go:190-194 | an always active current layer is a special case of that |
| Switching.NeighboursKeepDistance | pkg/sfu/rtp.go:37-43 | two packets of one layer forwarded in a row keep their distance |
| Switching.ComebackLeavesGap | pkg/sfu/downtrack.go:177-187 | a run with a gap after a layer was deactivated, as SetActive can, and came back |
| Switching.GrowingPublisherIsSeamless | pkg/sfu/downtrack.go:121-187 | for a publisher that only adds layers, and without an overtaken switch: consecutive numbers and a keyframe at every change of layer |
| Packets.BestIsHighestActive | pkg/sfu/track.go:84-102 | the best layer is "default" if present, else the active layer of the highest priority, and none iff there is neither |
| Packets.StartsOnMidOrBest | pkg/sfu/downtrack.go:42-49 | a downtrack starts on "mid" if the track has it, else on the best layer, and wants no other |
| Packets.PacketExactly | pkg/sfu/downtrack.go:121-208 | any packet, whatever layers there are and whatever others do meanwhile: what becomes of current, target and time of the last change, and whether it is sent, in terms of the targets set, the keyframe and the two seconds |
| Packets.SwitchesExactly | pkg/sfu/downtrack.go:143-164 | undisturbed, the layer changes iff a keyframe of the wanted layer comes two seconds after the last change, and that keyframe is sent |
| Packets.InactiveFollowsKeyframes | pkg/sfu/downtrack.go:177-208 | undisturbed, without an active current layer everything is sent, and a keyframe takes current and target to its layer |
| Packets.RequestIsReached | pkg/sfu/downtrack.go:97-173 | from every reachable state: a layer that is asked for is reached by the first keyframe of it two seconds after the last change, as long as both layers are active and nobody asks for another |
| Packets.OnlyRequestsChangeLayer | pkg/sfu/downtrack.go:143-173 | without requests the layer never changes while it is active |
| Tracks.Layer.constructor | pkg/sfu/layer.go:29-36 | a new layer is active |
| Tracks.Layer.SetActive | pkg/sfu/layer.go:61-65 | sets the flag |
| Tracks.WithoutFirst | pkg/sfu/track.go:117-122 | one occurrence fewer of the downtrack, of the others as many as before |
| Tracks.TrackReceiver.constructor | pkg/sfu/track.go:25-33 | no layers, no downtracks, open |
| Tracks.TrackReceiver.AddLayer | pkg/sfu/track.go:51-63 | adds an active layer unless closed |
| Tracks.TrackReceiver.GetLayer | pkg/sfu/track.go:66-71 | the layer of that name, if there is one |
| Tracks.TrackReceiver.GetBestLayer | pkg/sfu/track.go:85-102 | "default" if present, else the highest active layer, else none |
| Tracks.TrackReceiver.AddDownTrack | pkg/sfu/track.go:105-110 | appends |
| Tracks.TrackReceiver.RemoveDownTrack | pkg/sfu/track.go:113-123 | removes the first occurrence and keeps the order |
| Tracks.TrackReceiver.Close | pkg/sfu/track.go:126-132 | sets the flag |
| Tracks.DownTrack.constructor | pkg/sfu/downtrack.go:42-59 | starts on "mid" if the track has it, else on the best layer |
| Tracks.DownTrack.SetTargetLayer | pkg/sfu/downtrack.go:98-104 | one step of the downtrack |
| Tracks.DownTrack.TryLayerSwitch | pkg/sfu/downtrack.go:143-173 | the layer and the selector that the specification gives for every interference |
| Tracks.DownTrack.ShouldForwardPacket | pkg/sfu/downtrack.go:177-208 | forwards the current layer, or anything while that is inactive, and then falls back on a keyframe |
| Tracks.DownTrack.WriteRTP | pkg/sfu/downtrack.go:121-139 | for every interference it is one step of the downtrack: new selector and sequencer, what is sent, and when it fails |
| Tracks.DownTrack.Close | pkg/sfu/downtrack.go:234-250 | closes once and leaves the track's list |
| Announce.AllBroadcastStep | pkg/sfu/router.go:74-80 | a track that has not been broadcast is about to be |
| Announce.AllAccountedStep | pkg/sfu/session.go:112-146 | every joined peer was told of every track, will be, or is on record |
| Announce.HopelessStays | pkg/sfu/session.go:112-132 | what a peer could not see when it asked it is never told |
| Announce.InvRun | pkg/sfu/session.go:32-146 | in every run |
| Announce.ToldUnlessMissed | pkg/sfu/publisher.go:114-118 | with nothing in flight, a peer was told of a track iff it did not ask in the window between the track's broadcast and its router's registration |
| Announce.LaterTracksReachEveryone | pkg/sfu/router.go:45-80 | every track added to a registered router reaches every joined peer |
| Announce.AddedTrackReachesEveryone | pkg/sfu/router.go:38-80 | after any run a registered publisher can add a track, and in every continuation with nothing left in flight every peer present has been told of it, unless the publisher left |
| Departures.DepartedRegisteredExactly | pkg/sfu/session.go:57-82 | with nothing in flight, the router of a publisher that left is in the session iff one of its onTrack goroutines was in AddTrack when it left or reached it later |
| Departures.DepartedIsUnheard | pkg/sfu/session.go:69-74 | with none in flight, the router stays out in every run, and whoever has not begun to ask before is told of none of its tracks any more |
| Departures.GoneIsNotTold | pkg/sfu/session.go:61-67 | a peer that has left is told of nothing any more |
| Departures.ToldTruthfully | pkg/sfu/session.go:116-119 | nobody is told of its own tracks or of one that was not added |
| Departures.DepartedCanStayRegistered | pkg/sfu/publisher.go:114-118 | a run in which a peer is told of the track of a publisher that has left |
| Announce.FirstTrackCanBeMissed | pkg/sfu/publisher.go:114-118 | a run in which a joined peer is never told of a first track |
| Bandwidth.ChoiceIsHighestFit | pkg/sfu/bandwidth.go:191-216 | the chosen layer is the one highest layer within budget and maximum, or "low" if none fits |
| Layers.PriorityIsOrder | pkg/sfu/layer.go:67-81 | "high" above "mid" above "low" and "default" above any other name |
| Bandwidth.SelectLayerForBudget | pkg/sfu/bandwidth.go:191-216 | the loop finds it |
| Bandwidth.BandwidthController.constructor | pkg/sfu/bandwidth.go:31-46 | no tracks, and the initial bitrate |
| Bandwidth.BandwidthController.AddTrack | pkg/sfu/bandwidth.go:76-87 | a step of the controller |
| Bandwidth.BandwidthController.RemoveTrack | pkg/sfu/bandwidth.go:90-94 | a step of the controller |
| Bandwidth.BandwidthController.SetMaxLayer | pkg/sfu/bandwidth.go:97-108 | the target is lowered to the new maximum where it exceeds it |
| Bandwidth.BandwidthController.RequestLayer | pkg/sfu/bandwidth.go:111-122 | the target is the request, cut to the maximum |
| Bandwidth.BandwidthController.Reallocate | pkg/sfu/bandwidth.go:167-187 | one track of the loop |
| Bandwidth.BandwidthController.RecalculateAllocations | pkg/sfu/bandwidth.go:150-188 | in whatever order the map is walked, all tracks get their choice, and exactly the changes are called back |
| Bandwidth.BandwidthController.OnBitrateUpdate | pkg/sfu/bandwidth.go:141-147 | stores the bitrate and recalculates, with exactly the callbacks of that recalculation |
| Bandwidth.BandwidthController.Close | pkg/sfu/bandwidth.go:226-235 | a step of the controller |
| Bandwidth.NeverOversubscribes | pkg/sfu/bandwidth.go:150-216 | the tracks that are not paused add up to at most the available bitrate, or n times the lowest layer |
| Bandwidth.TargetExactly | pkg/sfu/bandwidth.go:141-216 | at an update of the bitrate each track that is not paused gets the highest layer that all tracks together could be sent at and its maximum allows, "low" at the least, and nothing else changes |
| Bandwidth.ShareIsSpent | pkg/sfu/bandwidth.go:163-187 | a layer that equal shares pay for and the maximum allows is reached |
| Bandwidth.CallbacksAreChanges | pkg/sfu/bandwidth.go:172-186 | the tracks called back are those whose target changes, with the new target |
| Bandwidth.OthersAreLeftAlone | pkg/sfu/bandwidth.go:76-122 | what is done to one track leaves all others and the bitrate as they are |
| Bandwidth.RequestsAreHonoured | pkg/sfu/bandwidth.go:76-122 | a new track can be sent any layer until a maximum is set, and then the target is the request iff that is no higher |
| Bandwidth.MaximumHolds | pkg/sfu/bandwidth.go:111-122 | a request beyond the maximum becomes the maximum, and no other does |
| Bandwidth.RemovedIsGone | pkg/sfu/bandwidth.go:90-122 | a removed track is gone, and requests for it do nothing |
| Bandwidth.ClosedIsFrozen | pkg/sfu/bandwidth.go:150-156 | after Close no recalculation and no estimate changes a target, in any run |
| Bandwidth.AllocationIsMonotone | pkg/sfu/bandwidth.go:163-187 | more bitrate never lowers a track, and another track never raises one |
| Bandwidth.RecalculationIsStable | pkg/sfu/bandwidth.go:172-186 | recalculating again changes nothing and calls nobody |
| Bandwidth.RecalculationKeepsMax | pkg/sfu/bandwidth.go:199-216 | a recalculation keeps a track within its maximum iff the maximum is the name of a layer |
| Bandwidth.TargetsStayWithinMax | pkg/sfu/bandwidth.go:97-188 | as long as maxima are layers, no target ever exceeds its maximum |
| Bandwidth.UnknownMaxIsOverrun | pkg/sfu/bandwidth.go:97-216 | a maximum that is no layer is overrun at the next recalculation |
| Estimator.BandwidthEstimator.constructor | pkg/sfu/twcc.go:295-302 | the initial bitrate and an empty history |
| Estimator.BandwidthEstimator.Update | pkg/sfu/twcc.go:312-350 | loss-based estimate, combination, clamp and history; the callback gets the estimate |
| Estimator.BandwidthEstimator.CombineEstimates | pkg/sfu/twcc.go:365-379 | the smaller of the two estimates there are |
| Estimator.BandwidthEstimator.SetDelayBasedEstimate | pkg/sfu/twcc.go:389-393 | sets that estimate only |
| Estimator.LossBasedIsMonotone | pkg/sfu/twcc.go:353-362 | more loss or less traffic never gives a higher loss-based estimate; over 2% loss never raises, under 1% never lowers |
| Estimator.LossBasedInIntegers | pkg/sfu/twcc.go:353-362 | the loss-based estimate in integer arithmetic: 1/2, 17/20 and 21/20, rounded down |
| Estimator.CombinedIsLeast | pkg/sfu/twcc.go:365-379 | the least of the estimates there are; without a loss-based one the old estimate |
| Estimator.ClampIsNearest | pkg/sfu/twcc.go:396-404 | the nearest value within the limits |
| Estimator.InstantIsBitsPerSecond | pkg/sfu/twcc.go:319-320 | the number of bits a second, rounded down |
| Estimator.UpdateExactly | pkg/sfu/twcc.go:312-345 | an update stores its loss-based estimate, leaves what the estimates give within the limits, and appends itself to a history of at most a hundred; without time gone by nothing changes |
| Estimator.NewestHundred | pkg/sfu/twcc.go:338-341 | the window has the newest hundred, in order |
| Estimator.NoLossBasedExactly | pkg/sfu/twcc.go:320-362 | there is no loss-based estimate iff less than one bit a second came in, or less than two with more than 2% loss |
| Estimator.UpdateIsMonotoneExactly | pkg/sfu/twcc.go:312-404 | for two measurements, one with no more bytes, no less time and no less loss: the better never leaves the lower estimate, whatever the estimate was, iff the worse has a loss-based estimate, or neither has, or the better leaves the maximum |
| Estimator.SilenceKeepsEstimate | pkg/sfu/twcc.go:374-378 | one byte in ten seconds keeps the old estimate, where one byte in one second takes it to the minimum |
| Estimator.SlidingWindow | pkg/sfu/twcc.go:338-341 | cutting the history at each update keeps the last hundred of all updates |
| Estimator.InvRun | pkg/sfu/twcc.go:312-350 | estimates, pending callbacks and the available bitrate stay in range in every run |
| Estimator.UpdateIsCalledBack | pkg/sfu/twcc.go:347-350 | every update, even without time gone by, spawns a callback that makes its estimate the available bitrate |
| Estimator.DelayCaps | pkg/sfu/twcc.go:365-393 | a delay-based estimate caps the next update that has a loss-based one, down to the minimum |
| Estimator.AvailableBitrateStaysInRange | pkg/sfu/bandwidth.go:141-147 | in whatever order callbacks run, the available bitrate is the initial one or a produced estimate within the limits, the history is the last hundred updates, and the tracks share no more than the maximum |
| Estimator.EndsOnNewestExactly | pkg/sfu/twcc.go:347-349 | every order of the pending callbacks ends on the newest estimate iff all of them carry it |
| Estimator.OlderEstimateCanWin | pkg/sfu/twcc.go:347-349 | a run from the start, two updates and their callbacks in the wrong order, that ends on the older estimate |
| Locks.ProgramOf | pkg/sfu/session.go:32-75 | every request, pion callback and goroutine of the package takes its mutexes in rising rank, error paths included |
| Nesting.NestsExactly | pkg/sfu/session.go:32-184 | for every entry point, exactly the locks it takes and the pairs of locks of which it takes one while it holds the other, in which mode |
| Nesting.RunsNestExactly | pkg/sfu/session.go:32-184 | a goroutine that runs an entry point takes one lock while it holds another exactly for these pairs |
| Nesting.WriteRTPNests | pkg/sfu/downtrack.go:126-198 | a downtrack's lock is held while those of selector, track and layer are taken, and no other pair is nested |
| Nesting.RouterSubscribeNests | pkg/sfu/router.go:117-137 | a router's lock is held while those of the subscriber, the tracks, their layers and forwarders and the selector are taken, and a subscriber's while those for its new downtrack are |
| Nesting.NegotiateNests | pkg/sfu/subscriber.go:165-188 | negMu is held while the subscriber's lock is taken, and the peer's and the connection's are taken with neither |
| Nesting.PublisherCloseNests | pkg/sfu/publisher.go:171-191 | a publisher's lock is held while its tracks and receivers close, and not while its router does |
| Locks.PathsAreOrdered | pkg/sfu/session.go:58-75 | every path through such code takes locks in rising rank too |
| Locks.OrderedProgramsAreDisciplined | pkg/sfu/session.go:58-75 | a goroutine that runs one takes locks above all it holds and ends with none |
| Locks.StepKeepsExclusion | pkg/sfu/session.go:58-75 | a goroutine may take a lock iff that leaves writers alone: readers share, writers exclude |
| Locks.MutualExclusion | pkg/sfu/session.go:58-75 | in every schedule, while one goroutine holds a lock exclusively no other holds it |
| Locks.SomebodyCanStep | pkg/sfu/router.go:117-137 | disciplined goroutines never block each other all at once, even if waiting writers hold back readers |
| Locks.RunsAreBounded | pkg/sfu/router.go:117-137 | every schedule uses up the work |
| Locks.NoDeadlock | pkg/sfu/session.go:58-75 | any number of goroutines, on any objects, along any paths of any entry points, in any schedule, whether or not waiting writers hold back readers: somebody can go on until all are done |

## Left out

- Router, Session and Publisher as objects: what matters in them is how their critical sections interleave, so Fabric and Announce have one event for each, on values, for any number of routers at once. Not captured: their maps updated in place, aliasing between routers, and the order of the maps. The body of the loops in AddTrack and Subscribe is `Routing.Connect`, on the objects.
- Routing.Forwarder.Forward: no other goroutine adds or removes downtracks or layers between two deliveries; in Fabric they do. That no two downtracks share a selector or a sequencer is required of the forwarder; each constructor makes its own, and `Routing.Connect` keeps it.
- Tracks.DownTrack.WriteRTP: the read of the closed flag and the rest are one step, so that "nothing is sent after Close returns" is neither claimed nor given by the code; nor is it that closed downtracks leave their forwarder.
- Tracks.TrackReceiver.Close: does not model the closing of the layer receivers.
- Subscribers.Subscriber.Close: does not model the calls of Router.Unsubscribe and of the peer connection; unsubscribing is an event of Fabric.
- EndToEnd.Delivered: asks for a usable layer when the track is published, as the publisher's order of AddLayer and AddTrack gives for the four known layer names; the exact condition is in `EndToEnd.ReceivesExactlyWhenOffered`. A goroutine in AddTrack is not held up while its Negotiate runs, which allows more interleavings than the code.
- Negotiation: SendOffer to a closed peer returns success without sending; it counts as sent here, for a subscriber that is about to be closed with its peer.
- Announce: AddTrack for a publisher that has left stands for an `onTrack` that passed its check before; a broadcast is one event, the session's shared and exclusive locks are not modelled, which allows more interleavings; errors of single notifications and a join whose HandleOffer fails are not modelled.
- Estimator.BandwidthEstimator.Update: floats are reals; the product of bytes and eight wraps at 64 bits, conversions of floats beyond 64 bits are not modelled.
- Estimator.UpdateIsMonotoneExactly: is stated for measurements whose bits fit 64 bits; beyond that the wrapped product is no measure of the traffic.
- Locks: calls into pion and callbacks it makes while it holds its own locks; the mutexes of the bandwidth controller, the estimator and the TWCC sender and receiver, which nothing in the server uses yet.
- Layers are never deactivated by the code as it stands; the downtrack's fallback is modelled all the same.
- Keyframe detection looks at the first payload byte only; its agreement with the payload formats is not examined.
- TWCC feedback packets, the cleanup of the TWCC receiver, and CongestionController: foreign formats and easy members.
- PLI requests and their timing, data channels, ICE, SDP contents, JSON-RPC, HTTP and the web client: plumbing around the protocols.
