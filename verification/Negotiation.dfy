/** The renegotiation protocol of a subscriber connection (pkg/sfu/subscriber.go).

    Any number of goroutines call Negotiate and HandleAnswer. Every critical section under negMu,
    and every call into the peer connection, is one event below; a goroutine between two events is
    counted by the program point it has reached, together with the offer it holds. */
module Negotiation {
  import opened Values

  /** The two signaling states a connection that only ever offers can be in
      (section 3.2 of RFC 8829). */
  datatype Signaling = Stable | HaveLocalOffer

  /** The fields of Subscriber that the protocol reads and writes under negMu and mu. */
  datatype Fields = Fields(negotiating: bool, needsOffer: bool, closed: bool)

  /** What the critical section of Negotiate decides. */
  datatype Entry = Refused | Queued | Started

  function Decide(f: Fields): Entry {
    if f.closed then Refused else if f.negotiating then Queued else Started
  }

  /** The critical section of Negotiate. */
  function Enter(f: Fields): Fields {
    match Decide(f)
    case Refused => f
    case Queued => f.(needsOffer := true)
    case Started => f.(negotiating := true, needsOffer := false)
  }

  /** The critical section of HandleAnswer; the old value of needsOffer decides on a spawn. */
  function AfterAnswer(f: Fields): Fields {
    f.(negotiating := false, needsOffer := false)
  }

  /** resetNegotiationState: needsOffer survives and nobody is left to replay it. */
  function AfterError(f: Fields): Fields {
    f.(negotiating := false)
  }

  /** One subscriber with all the goroutines at work on it.

      A media version counts the tracks attached to the connection so far; an offer describes the
      version that was current when it was created. The fields from `calls` on are history: no
      event depends on them. */
  datatype State = State(
    fields: Fields,
    signaling: Signaling,
    media: nat,
    creators: nat,            // in doNegotiate, before CreateOffer
    setters: multiset<nat>,   // holding an offer, before SetLocalDescription
    senders: multiset<nat>,   // holding an offer, before SendOffer
    failers: nat,             // after a failed call, before resetNegotiationState
    clearers: nat,            // in HandleAnswer, between SetRemoteDescription and the reset
    spawned: nat,             // renegotiation goroutines that have not entered Negotiate yet
    calls: nat,               // external calls of Negotiate
    started: nat,             // negotiations started
    requested: nat,           // media version at the last accepted entry into Negotiate
    created: nat,             // media version of the last offer created
    applied: nat,             // media version of the last offer made the local description
    sent: nat,                // highest media version sent to the client
    dropped: nat,             // `requested` at the last resetNegotiationState
    errors: nat)              // failed calls of CreateOffer, SetLocalDescription, SendOffer

  const INITIAL :=
    State(Fields(false, false, false), Stable, 0, 0, multiset{}, multiset{}, 0, 0, 0, 0, 0, 0, 0, 0, 0, 0, 0)

  datatype Event =
    | Attach                            // a track is added to the connection
    | Call                              // a caller enters Negotiate
    | RunSpawned                        // a spawned goroutine enters Negotiate
    | CreateOffer(ok: bool)
    | SetLocal(offer: nat, ok: bool)
    | SendOffer(offer: nat, ok: bool)
    | ResetAfterError
    | SetRemote(ok: bool)               // HandleAnswer applies an answer, or has it rejected
    | ResetAfterAnswer
    | Close                             // Subscriber.Close sets the flag

  predicate Enabled(s: State, e: Event) {
    match e
    case Attach | Call | Close => true
    case RunSpawned => s.spawned > 0
    case CreateOffer(_) => s.creators > 0
    case SetLocal(v, _) => v in s.setters
    case SendOffer(v, _) => v in s.senders
    case ResetAfterError => s.failers > 0
    case SetRemote(ok) => ok ==> s.signaling == HaveLocalOffer
    case ResetAfterAnswer => s.clearers > 0
  }

  /** The state in which one more goroutine has run the critical section of Negotiate. */
  function Entered(s: State): State {
    match Decide(s.fields)
    case Refused => s
    case Queued => s.(fields := Enter(s.fields), requested := s.media)
    case Started =>
      s.(fields := Enter(s.fields), requested := s.media, creators := s.creators + 1, started := s.started + 1)
  }

  function Next(s: State, e: Event): State
    requires Enabled(s, e)
  {
    match e
    case Attach => s.(media := s.media + 1)
    case Call => Entered(s.(calls := s.calls + 1))
    case RunSpawned => Entered(s.(spawned := s.spawned - 1))
    case CreateOffer(ok) =>
      if ok then s.(creators := s.creators - 1, setters := s.setters + multiset{s.media}, created := s.media)
      else s.(creators := s.creators - 1, failers := s.failers + 1, errors := s.errors + 1)
    case SetLocal(v, ok) =>
      if ok then s.(setters := s.setters - multiset{v}, senders := s.senders + multiset{v}, signaling := HaveLocalOffer,
                   applied := v)
      else s.(setters := s.setters - multiset{v}, failers := s.failers + 1, errors := s.errors + 1)
    case SendOffer(v, ok) =>
      if ok then s.(senders := s.senders - multiset{v}, sent := Max(s.sent, v))
      else s.(senders := s.senders - multiset{v}, errors := s.errors + 1)
    case ResetAfterError =>
      s.(failers := s.failers - 1, fields := AfterError(s.fields), dropped := s.requested)
    case SetRemote(ok) =>
      if ok then s.(signaling := Stable, clearers := s.clearers + 1) else s
    case ResetAfterAnswer =>
      s.(clearers := s.clearers - 1, fields := AfterAnswer(s.fields),
         spawned := s.spawned + if s.fields.needsOffer then 1 else 0)
    case Close => s.(fields := s.fields.(closed := true))
  }

  // ---------------------------------------------------------------- runs

  predicate Legal(s: State, es: seq<Event>)
    decreases es
  {
    es == [] || (Enabled(s, es[0]) && Legal(Next(s, es[0]), es[1..]))
  }

  function Exec(s: State, es: seq<Event>): State
    requires Legal(s, es)
    decreases es
  {
    if es == [] then s else Exec(Next(s, es[0]), es[1..])
  }

  // ---------------------------------------------------------------- single ownership

  /** Everything that keeps a negotiation in hand. A goroutine that only has SendOffer left holds
      nothing: from SetLocalDescription on, the signaling state owns the negotiation. */
  function Tokens(s: State): nat {
    s.creators + |s.setters| + s.failers + s.clearers + if s.signaling == HaveLocalOffer then 1 else 0
  }

  predicate SingleOwner(s: State) {
    Tokens(s) == if s.fields.negotiating then 1 else 0
  }

  lemma SingleOwnerStep(s: State, e: Event)
    requires SingleOwner(s) && Enabled(s, e)
    ensures SingleOwner(Next(s, e))
  {
    match e
    case SetLocal(v, _) =>
      assert s.setters == (s.setters - multiset{v}) + multiset{v};
    case _ =>
  }

  /** No request for an offer is forgotten while the subscriber is open: an offer that covers it has
      been applied, or somebody is still going to create or apply one, or a reset after an error
      dropped it. */
  predicate Remembered(s: State) {
    && s.dropped <= s.requested <= s.media
    && (s.fields.needsOffer && !s.fields.negotiating ==> s.dropped == s.requested && s.errors > 0)
    && (s.failers > 0 || s.dropped > 0 ==> s.errors > 0)
    && (!s.fields.closed && s.requested > s.applied ==>
          || (s.fields.needsOffer && s.fields.negotiating)
          || s.spawned > 0
          || s.creators > 0
          || (s.created in s.setters && s.created >= s.requested)
          || s.failers > 0
          || s.dropped == s.requested)
  }

  /** Every offer applied is about to be sent, or has been sent, or was lost to an error. */
  ghost predicate OffersTravel(s: State) {
    && s.sent <= s.applied <= s.created <= s.media
    && (forall v :: v in s.setters ==> v == s.created)
    && (forall v :: v in s.senders ==> v <= s.applied)
    && (s.errors == 0 ==> s.applied <= s.sent || s.applied in s.senders)
  }

  predicate Coalesced(s: State) {
    s.started + s.spawned + (if s.fields.needsOffer then 1 else 0) <= s.calls
  }

  ghost predicate Inv(s: State) {
    SingleOwner(s) && Remembered(s) && OffersTravel(s) && Coalesced(s)
  }

  lemma SetLocalTravels(s: State, v: nat, ok: bool)
    requires Inv(s) && v in s.setters
    ensures OffersTravel(Next(s, SetLocal(v, ok)))
  {
    assert s.setters == (s.setters - multiset{v}) + multiset{v};
    assert s.setters - multiset{v} == multiset{};
  }

  lemma SendOfferTravels(s: State, v: nat, ok: bool)
    requires Inv(s) && v in s.senders
    ensures OffersTravel(Next(s, SendOffer(v, ok)))
  {
    assert forall w :: w in s.senders - multiset{v} ==> w in s.senders;
    assert forall w :: w in s.senders && w != v ==> w in s.senders - multiset{v};
  }

  lemma OffersTravelStep(s: State, e: Event)
    requires Inv(s) && Enabled(s, e)
    ensures OffersTravel(Next(s, e))
  {
    match e
    case SetLocal(v, ok) => SetLocalTravels(s, v, ok);
    case SendOffer(v, ok) => SendOfferTravels(s, v, ok);
    case CreateOffer(_) => assert s.setters == multiset{};
    case Attach | Call | RunSpawned | ResetAfterError | SetRemote(_) | ResetAfterAnswer | Close =>
      assert Next(s, e).setters == s.setters && Next(s, e).senders == s.senders;
  }

  lemma RememberedStep(s: State, e: Event)
    requires Inv(s) && Enabled(s, e)
    ensures Remembered(Next(s, e))
  {
    match e
    case SetLocal(v, _) =>
      assert s.setters == (s.setters - multiset{v}) + multiset{v};
    case CreateOffer(_) =>
      assert s.setters == multiset{};
    case ResetAfterAnswer =>
      assert s.setters == multiset{};
    case _ =>
  }

  lemma InvStep(s: State, e: Event)
    requires Inv(s) && Enabled(s, e)
    ensures Inv(Next(s, e))
  {
    SingleOwnerStep(s, e);
    RememberedStep(s, e);
    OffersTravelStep(s, e);
  }

  lemma {:induction false} InvRun(s: State, es: seq<Event>)
    requires Inv(s) && Legal(s, es)
    ensures Inv(Exec(s, es))
    decreases es
  {
    if es != [] {
      InvStep(s, es[0]);
      InvRun(Next(s, es[0]), es[1..]);
    }
  }

  // ---------------------------------------------------------------- what every run keeps

  /** Two negotiations never overlap: whoever may reset `negotiating` is the only one that could have
      set it, so a late reset never clears a newer negotiation, and an offer is applied only in the
      stable state. */
  lemma SingleNegotiation(es: seq<Event>)
    requires Legal(INITIAL, es)
    ensures var s := Exec(INITIAL, es);
      && (s.fields.negotiating <==> Tokens(s) == 1)
      && (!s.fields.negotiating <==> Tokens(s) == 0)
      && (s.failers > 0 || s.clearers > 0 ==>
            s.fields.negotiating && s.creators == 0 && s.setters == multiset{} && s.signaling == Stable
            && s.failers + s.clearers == 1)
      && (s.setters != multiset{} ==> s.signaling == Stable && |s.setters| == 1 && s.creators == 0)
  {
    InvRun(INITIAL, es);
  }

  predicate Quiescent(s: State) {
    && s.creators == s.failers == s.clearers == s.spawned == 0
    && s.setters == s.senders == multiset{}
    && s.signaling == Stable
  }

  /** In every run without failed calls a quiescent open subscriber has sent everything asked for. */
  lemma QuiescentHasSentAll(es: seq<Event>)
    requires Legal(INITIAL, es)
    requires var s := Exec(INITIAL, es); Quiescent(s) && s.errors == 0 && !s.fields.closed
    ensures var s := Exec(INITIAL, es);
      && s.requested <= s.sent
      && !s.fields.negotiating && !s.fields.needsOffer
  {
    InvRun(INITIAL, es);
  }

  /** With failed calls: a quiescent open subscriber has lost a request exactly when the last
      resetNegotiationState ran while a request was not covered by an applied offer. */
  lemma LostExactlyWhenDropped(es: seq<Event>)
    requires Legal(INITIAL, es)
    requires var s := Exec(INITIAL, es); Quiescent(s) && !s.fields.closed
    ensures var s := Exec(INITIAL, es); s.requested > s.applied <==> s.dropped > s.applied
  {
    InvRun(INITIAL, es);
  }

  /** Requests coalesce: negotiations started or still to be started never outnumber the calls. */
  lemma NegotiationsBoundedByCalls(es: seq<Event>)
    requires Legal(INITIAL, es)
    ensures var s := Exec(INITIAL, es);
      s.started + s.spawned + (if s.fields.needsOffer then 1 else 0) <= s.calls
  {
    InvRun(INITIAL, es);
  }

  // ---------------------------------------------------------------- termination and progress

  /** Everything the server does by itself, and the client answering an offer it may answer. */
  predicate Internal(e: Event) {
    match e
    case Attach | Call | Close => false
    case SetRemote(ok) => ok
    case _ => true
  }

  function Work(s: State): nat {
    6 * s.creators + 5 * |s.setters| + |s.senders| + s.failers + 2 * s.clearers + 7 * s.spawned
    + (if s.signaling == HaveLocalOffer then 3 else 0) + (if s.fields.needsOffer then 6 else 0)
  }

  lemma EntryMakesWork(s: State)
    ensures Work(Entered(s)) <= Work(s) + 6
  {
  }

  lemma SetLocalDecreases(s: State, v: nat, ok: bool)
    requires v in s.setters
    ensures Work(Next(s, SetLocal(v, ok))) < Work(s)
  {
    assert s.setters == (s.setters - multiset{v}) + multiset{v};
  }

  lemma SendOfferDecreases(s: State, v: nat, ok: bool)
    requires v in s.senders
    ensures Work(Next(s, SendOffer(v, ok))) < Work(s)
  {
    assert s.senders == (s.senders - multiset{v}) + multiset{v};
  }

  lemma WorkDecreases(s: State, e: Event)
    requires Enabled(s, e) && Internal(e)
    ensures Work(Next(s, e)) < Work(s)
  {
    match e
    case SetLocal(v, ok) => SetLocalDecreases(s, v, ok);
    case SendOffer(v, ok) => SendOfferDecreases(s, v, ok);
    case RunSpawned => EntryMakesWork(s.(spawned := s.spawned - 1));
    case CreateOffer(_) => assert Next(s, e).senders == s.senders;
    case ResetAfterError | SetRemote(_) | ResetAfterAnswer =>
      assert Next(s, e).setters == s.setters && Next(s, e).senders == s.senders;
  }

  /** Renegotiation cannot run forever by itself: without new calls a run is over within the work
      at hand, whatever fails and whichever goroutine is scheduled. */
  lemma {:induction false} RunsByItselfOnlySoLong(s: State, es: seq<Event>)
    requires Legal(s, es)
    requires forall e :: e in es ==> Internal(e)
    ensures |es| + Work(Exec(s, es)) <= Work(s)
    decreases es
  {
    if es != [] {
      WorkDecreases(s, es[0]);
      RunsByItselfOnlySoLong(Next(s, es[0]), es[1..]);
    }
  }

  lemma {:induction false} RunsCompose(s: State, es: seq<Event>, fs: seq<Event>)
    requires Legal(s, es) && Legal(Exec(s, es), fs)
    ensures Legal(s, es + fs) && Exec(s, es + fs) == Exec(Exec(s, es), fs)
    decreases es
  {
    if es == [] {
      assert es + fs == fs;
    } else {
      assert (es + fs)[1..] == es[1..] + fs;
      RunsCompose(Next(s, es[0]), es[1..], fs);
    }
  }

  /** The event that moves a state that is not quiescent one step on, when no call fails. */
  ghost function Move(s: State): (e: Event)
    requires !Quiescent(s)
    ensures Enabled(s, e) && Internal(e) && Next(s, e).errors == s.errors
  {
    if s.creators > 0 then CreateOffer(true)
    else if s.setters != multiset{} then var v :| v in s.setters; SetLocal(v, true)
    else if s.senders != multiset{} then var v :| v in s.senders; SendOffer(v, true)
    else if s.failers > 0 then ResetAfterError
    else if s.clearers > 0 then ResetAfterAnswer
    else if s.signaling == HaveLocalOffer then SetRemote(true)
    else RunSpawned
  }

  lemma {:induction false} CanSettle(s: State) returns (es: seq<Event>)
    ensures Legal(s, es) && Quiescent(Exec(s, es)) && |es| <= Work(s)
    ensures forall e :: e in es ==> Internal(e)
    ensures Exec(s, es).errors == s.errors
    decreases Work(s)
  {
    if Quiescent(s) {
      es := [];
    } else {
      var e := Move(s);
      WorkDecreases(s, e);
      var rest := CanSettle(Next(s, e));
      es := [e] + rest;
      assert es[1..] == rest;
    }
  }

  lemma {:induction false} InternalRunsKeep(s: State, es: seq<Event>)
    requires Inv(s) && Legal(s, es)
    requires forall e :: e in es ==> Internal(e)
    ensures Exec(s, es).requested >= s.requested
    ensures Exec(s, es).fields.closed == s.fields.closed
    decreases es
  {
    if es != [] {
      assert Internal(es[0]);
      InvStep(s, es[0]);
      InternalRunsKeep(Next(s, es[0]), es[1..]);
    }
  }

  /** Delivery. Whatever happened before without a failed call, the server and an answering client
      by themselves reach a quiescent state within the work at hand; every such state, however
      it is reached, has sent an offer covering everything that had been asked for. */
  lemma EveryRequestIsDelivered(es: seq<Event>, fs: seq<Event>) returns (settle: seq<Event>)
    requires Legal(INITIAL, es) && Exec(INITIAL, es).errors == 0 && !Exec(INITIAL, es).fields.closed
    requires Legal(Exec(INITIAL, es), fs) && forall e :: e in fs ==> Internal(e)
    ensures var s := Exec(INITIAL, es);
      && |fs| <= Work(s)
      && (Quiescent(Exec(s, fs)) && Exec(s, fs).errors == 0 ==> Exec(s, fs).sent >= s.requested)
    ensures var s := Exec(Exec(INITIAL, es), fs);
      Legal(s, settle) && (forall e :: e in settle ==> Internal(e)) && Quiescent(Exec(s, settle))
    ensures |fs| + |settle| <= Work(Exec(INITIAL, es))
    ensures var s := Exec(Exec(INITIAL, es), fs);
      && Exec(s, settle).errors == s.errors
      && (s.errors == 0 ==> Exec(s, settle).sent >= Exec(INITIAL, es).requested)
  {
    var s := Exec(INITIAL, es);
    InvRun(INITIAL, es);
    InternalRunsKeep(s, fs);
    InvRun(s, fs);
    RunsByItselfOnlySoLong(s, fs);
    settle := CanSettle(Exec(s, fs));
    InternalRunsKeep(Exec(s, fs), settle);
    InvRun(Exec(s, fs), settle);
  }

  // ---------------------------------------------------------------- answers nobody asked for

  /** A run in which no answer comes while an offer is still on its way to the client. An answer to an offer
      whose SendOffer failed is allowed. */
  predicate Solicited(s: State, es: seq<Event>)
    requires Legal(s, es)
    decreases es
  {
    es != [] ==>
      (es[0] == SetRemote(true) ==> s.senders == multiset{}) && Solicited(Next(s, es[0]), es[1..])
  }

  /** At most one offer is between SetLocalDescription and SendOffer, and it is the newest. */
  ghost predicate OneInFlight(s: State) {
    && |s.senders| <= 1
    && (s.senders != multiset{} ==> s.signaling == HaveLocalOffer && s.senders == multiset{s.applied})
  }

  lemma SetLocalKeepsOneInFlight(s: State, v: nat, ok: bool)
    requires Inv(s) && OneInFlight(s) && v in s.setters
    ensures OneInFlight(Next(s, SetLocal(v, ok)))
  {
    assert s.setters == (s.setters - multiset{v}) + multiset{v};
    assert s.signaling == Stable;
    assert s.senders == multiset{} && multiset{} + multiset{v} == multiset{v};
  }

  lemma SendKeepsOneInFlight(s: State, v: nat, ok: bool)
    requires OneInFlight(s) && v in s.senders
    ensures OneInFlight(Next(s, SendOffer(v, ok)))
  {
    assert s.senders - multiset{v} == multiset{};
  }

  lemma OneInFlightStep(s: State, e: Event)
    requires Inv(s) && OneInFlight(s) && Enabled(s, e)
    ensures OneInFlight(Next(s, e)) <==> !(e == SetRemote(true) && s.senders != multiset{})
  {
    match e
    case SetLocal(v, ok) => SetLocalKeepsOneInFlight(s, v, ok);
    case SendOffer(v, ok) => SendKeepsOneInFlight(s, v, ok);
    case Attach | Call | RunSpawned | CreateOffer(_) | ResetAfterError | SetRemote(_) | ResetAfterAnswer | Close =>
      assert Next(s, e).senders == s.senders;
  }

  lemma {:induction false} OneInFlightRun(s: State, es: seq<Event>)
    requires Inv(s) && OneInFlight(s) && Legal(s, es) && Solicited(s, es)
    ensures OneInFlight(Exec(s, es))
    decreases es
  {
    if es != [] {
      InvStep(s, es[0]);
      OneInFlightStep(s, es[0]);
      OneInFlightRun(Next(s, es[0]), es[1..]);
    }
  }

  /** With a client that answers only what it was sent, offers leave in the order of their versions. */
  lemma OffersLeaveInOrder(es: seq<Event>, v: nat, ok: bool)
    requires Legal(INITIAL, es) && Solicited(INITIAL, es) && Enabled(Exec(INITIAL, es), SendOffer(v, ok))
    ensures var s := Exec(INITIAL, es);
      v == s.applied && s.sent <= v && s.senders == multiset{v} && s.signaling == HaveLocalOffer
  {
    InvRun(INITIAL, es);
    OneInFlightRun(INITIAL, es);
  }

  lemma {:induction false} Extend(es: seq<Event>, e: Event) returns (fs: seq<Event>)
    requires Legal(INITIAL, es) && Enabled(Exec(INITIAL, es), e)
    ensures fs == es + [e] && Legal(INITIAL, fs) && Exec(INITIAL, fs) == Next(Exec(INITIAL, es), e)
  {
    fs := es + [e];
    RunsCompose(INITIAL, es, [e]);
  }

  lemma Prepend(s: State, e: Event, es: seq<Event>)
    requires Enabled(s, e) && Legal(Next(s, e), es)
    ensures Legal(s, [e] + es) && Exec(s, [e] + es) == Exec(Next(s, e), es)
  {
    assert ([e] + es)[1..] == es;
  }

  /** A track is added to a subscriber at rest, and Negotiate is called. */
  lemma Opened(es: seq<Event>) returns (fs: seq<Event>)
    requires Legal(INITIAL, es) && Decide(Exec(INITIAL, es).fields).Started?
    ensures es <= fs && Legal(INITIAL, fs)
    ensures var s := Exec(INITIAL, es); var v := s.media + 1;
      Exec(INITIAL, fs) == s.(fields := s.fields.(negotiating := true, needsOffer := false), media := v,
                              creators := s.creators + 1,
                              calls := s.calls + 1, started := s.started + 1, requested := v)
  {
    fs := Extend(es, Attach);
    fs := Extend(fs, Call);
  }

  lemma OfferStates(s: State)
    requires s.creators > 0 && s.setters == multiset{}
    ensures Enabled(s, CreateOffer(true)) && Enabled(Next(s, CreateOffer(true)), SetLocal(s.media, true))
    ensures Next(Next(s, CreateOffer(true)), SetLocal(s.media, true)) ==
            s.(creators := s.creators - 1, senders := s.senders + multiset{s.media}, signaling := HaveLocalOffer,
               created := s.media, applied := s.media)
  {
    assert multiset{} + multiset{s.media} == multiset{s.media};
    assert multiset{s.media} - multiset{s.media} == multiset{};
  }

  /** ... and its offer is created and applied. */
  lemma Applied(es: seq<Event>) returns (fs: seq<Event>)
    requires Legal(INITIAL, es)
    requires var s := Exec(INITIAL, es); Decide(s.fields).Started? && s.setters == multiset{}
    ensures Legal(INITIAL, fs)
    ensures var s := Exec(INITIAL, es); var v := s.media + 1;
      Exec(INITIAL, fs) == s.(fields := s.fields.(negotiating := true, needsOffer := false), media := v,
                              senders := s.senders + multiset{v}, signaling := HaveLocalOffer, calls := s.calls + 1,
                              started := s.started + 1, requested := v, created := v, applied := v)
  {
    var v := Exec(INITIAL, es).media + 1;
    fs := Opened(es);
    OfferStates(Exec(INITIAL, fs));
    fs := Extend(fs, CreateOffer(true));
    fs := Extend(fs, SetLocal(v, true));
  }

  /** The same, followed by the answer while SendOffer is still to come. */
  lemma EarlyAnswerRound(es: seq<Event>) returns (fs: seq<Event>)
    requires Legal(INITIAL, es)
    requires var s := Exec(INITIAL, es);
      && s.fields == INITIAL.fields && s.signaling == Stable
      && s.setters == multiset{} && s.creators == 0 && s.clearers == 0
    ensures Legal(INITIAL, fs)
    ensures var s := Exec(INITIAL, es); var v := s.media + 1;
      Exec(INITIAL, fs) == s.(media := v, senders := s.senders + multiset{v}, calls := s.calls + 1,
                              started := s.started + 1, requested := v, created := v, applied := v)
  {
    fs := Applied(es);
    fs := Extend(fs, SetRemote(true));
    fs := Extend(fs, ResetAfterAnswer);
  }

  lemma TwoEarlyAnswers() returns (es: seq<Event>)
    ensures Legal(INITIAL, es)
    ensures var s := Exec(INITIAL, es);
      s.errors == 0 && s.sent == 2 && Enabled(s, SendOffer(1, true)) && s.applied == 2
  {
    es := EarlyAnswerRound([]);
    es := EarlyAnswerRound(es);
    assert Exec(INITIAL, es).senders == multiset{1, 2};
    es := Extend(es, SendOffer(2, true));
  }

  /** An answer that comes before its offer was sent lets a newer offer overtake it: the server is
      about to send version 1 after version 2. */
  lemma UnsolicitedAnswerReordersOffers() returns (es: seq<Event>)
    ensures Legal(INITIAL, es) && !Solicited(INITIAL, es)
    ensures var s := Exec(INITIAL, es); s.errors == 0 && s.sent == 2 && Enabled(s, SendOffer(1, true))
  {
    es := TwoEarlyAnswers();
    if Solicited(INITIAL, es) {
      OffersLeaveInOrder(es, 1, true);
    }
  }

  /** A track is added to a subscriber at rest, and Negotiate is called twice. */
  lemma TwoCalls(es: seq<Event>) returns (fs: seq<Event>)
    requires Legal(INITIAL, es) && Decide(Exec(INITIAL, es).fields).Started?
    ensures es <= fs && Legal(INITIAL, fs)
    ensures var s := Exec(INITIAL, es); var v := s.media + 1;
      Exec(INITIAL, fs) == s.(fields := s.fields.(negotiating := true, needsOffer := true), media := v,
                              creators := s.creators + 1,
                              calls := s.calls + 2, started := s.started + 1, requested := v)
  {
    fs := Opened(es);
    fs := Extend(fs, Call);
  }

  /** A failed CreateOffer drops the request that queued behind it, whatever happened before: the subscriber
      is at rest again, with needsOffer set, a request not covered, and nobody to act on it. */
  lemma FailedOfferDropsRequests(es: seq<Event>) returns (fs: seq<Event>)
    requires Legal(INITIAL, es) && Quiescent(Exec(INITIAL, es)) && !Exec(INITIAL, es).fields.closed
    ensures es <= fs && Legal(INITIAL, fs)
    ensures var s := Exec(INITIAL, fs);
      && s.errors == Exec(INITIAL, es).errors + 1 && s.calls == Exec(INITIAL, es).calls + 2
      && Quiescent(s) && !s.fields.closed && s.fields.needsOffer && s.requested > s.applied
  {
    InvRun(INITIAL, es);
    fs := TwoCalls(es);
    fs := Extend(fs, CreateOffer(false));
    fs := Extend(fs, ResetAfterError);
  }

  /** The only offer on its way is sent and answered. */
  lemma SentAndAnswered(es: seq<Event>, v: nat) returns (fs: seq<Event>)
    requires Legal(INITIAL, es)
    requires var s := Exec(INITIAL, es);
      && s.signaling == HaveLocalOffer && s.setters == multiset{} && s.senders == multiset{v} && s.clearers == 0
      && !s.fields.needsOffer
    ensures Legal(INITIAL, fs)
    ensures var s := Exec(INITIAL, es);
      Exec(INITIAL, fs) == s.(fields := s.fields.(negotiating := false), senders := multiset{}, signaling := Stable,
                              sent := Max(s.sent, v))
  {
    assert multiset{v} - multiset{v} == multiset{};
    fs := Extend(es, SendOffer(v, true));
    fs := Extend(fs, SetRemote(true));
    fs := Extend(fs, ResetAfterAnswer);
  }

  /** A track is added, and a call of Negotiate is left alone and answered. */
  lemma AnsweredRound(es: seq<Event>) returns (fs: seq<Event>)
    requires Legal(INITIAL, es)
    requires var s := Exec(INITIAL, es);
      Decide(s.fields).Started? && s.setters == s.senders == multiset{} && s.clearers == 0 && s.signaling == Stable
    ensures Legal(INITIAL, fs)
    ensures var s := Exec(INITIAL, es); var v := s.media + 1;
      Exec(INITIAL, fs) == s.(fields := s.fields.(negotiating := false, needsOffer := false), media := v,
                              calls := s.calls + 1, started := s.started + 1, requested := v, created := v,
                              applied := v, sent := Max(s.sent, v))
  {
    fs := Applied(es);
    var v := Exec(INITIAL, es).media + 1;
    assert multiset{} + multiset{v} == multiset{v};
    fs := SentAndAnswered(fs, v);
  }

  lemma RestIsFree(s: State)
    requires Inv(s) && Quiescent(s)
    ensures !s.fields.negotiating && s.sent <= s.media
  {
  }

  /** The next round makes up for it: from every open subscriber at rest, whatever has failed or been dropped before, a
      track that is added and a call of Negotiate that is left alone and answered lead to a subscriber at rest
      again, with nothing queued and an offer sent for all its tracks. */
  lemma NextRoundMakesUp(es: seq<Event>) returns (fs: seq<Event>)
    requires Legal(INITIAL, es) && Quiescent(Exec(INITIAL, es)) && !Exec(INITIAL, es).fields.closed
    ensures Legal(INITIAL, fs)
    ensures var s := Exec(INITIAL, es); var s' := Exec(INITIAL, fs);
      && Quiescent(s') && s'.fields == INITIAL.fields && s'.errors == s.errors && s'.media == s.media + 1
      && s'.sent == s'.applied == s'.requested == s'.media
  {
    InvRun(INITIAL, es);
    RestIsFree(Exec(INITIAL, es));
    fs := AnsweredRound(es);
  }

  /** Once the subscriber is closed no negotiation starts and no request is accepted, whoever calls and whatever is
      answered. */
  lemma {:induction false} ClosedStartsNothing(s: State, es: seq<Event>)
    requires Legal(Next(s, Close), es)
    ensures var s' := Exec(Next(s, Close), es);
      s'.fields.closed && s'.started == s.started && s'.requested == s.requested
    decreases es
  {
    if es != [] {
      var s1 := Next(Next(s, Close), es[0]);
      assert Next(s1, Close) == s1;
      ClosedStartsNothing(s1, es[1..]);
    }
  }

  /** The events in which a call into the connection fails. */
  function Failures(es: seq<Event>): nat
    decreases es
  {
    if es == [] then 0
    else Failures(es[1..]) +
         match es[0]
         case CreateOffer(ok) => if ok then 0 else 1
         case SetLocal(_, ok) => if ok then 0 else 1
         case SendOffer(_, ok) => if ok then 0 else 1
         case _ => 0
  }

  /** Errors are counted truthfully, so that runs without errors are those in which no call fails. */
  lemma {:induction false} ErrorsAreFailures(s: State, es: seq<Event>)
    requires Legal(s, es)
    ensures Exec(s, es).errors == s.errors + Failures(es)
    decreases es
  {
    if es != [] {
      ErrorsAreFailures(Next(s, es[0]), es[1..]);
    }
  }

  /** Only an answer can still move the subscriber. */
  ghost predicate Blocked(s: State) {
    && s.fields.negotiating && s.signaling == HaveLocalOffer
    && s.creators == s.failers == s.clearers == 0
    && s.setters == s.senders == multiset{}
  }

  /** Tracks being added and goroutines entering Negotiate. */
  predicate Entering(e: Event) {
    e.Attach? || e.Call? || e.RunSpawned?
  }

  lemma {:induction false} BlockedRun(s: State, es: seq<Event>)
    requires Blocked(s) && Legal(s, es)
    requires forall e :: e in es ==> Entering(e)
    ensures Blocked(Exec(s, es)) && Exec(s, es).started == s.started && Exec(s, es).created == s.created
    decreases es
  {
    if es != [] {
      assert Entering(es[0]);
      BlockedRun(Next(s, es[0]), es[1..]);
    }
  }

  /** Exactly when a failed SendOffer leaves a subscriber that only an answer can move: the connection still
      waits for the answer to this offer, and no other offer is on its way to the client. */
  lemma FailedSendBlocksExactly(es: seq<Event>, v: nat)
    requires Legal(INITIAL, es) && Enabled(Exec(INITIAL, es), SendOffer(v, false))
    ensures var s := Exec(INITIAL, es);
      Blocked(Next(s, SendOffer(v, false))) <==> s.signaling == HaveLocalOffer && s.senders == multiset{v}
  {
    var s := Exec(INITIAL, es);
    InvRun(INITIAL, es);
    assert s.senders == (s.senders - multiset{v}) + multiset{v};
    assert s.senders - multiset{v} == multiset{} <==> s.senders == multiset{v};
  }

  /** With a client that answers no offer on its way it always does. */
  lemma FailedSendBlocks(es: seq<Event>, v: nat)
    requires Legal(INITIAL, es) && Solicited(INITIAL, es) && Enabled(Exec(INITIAL, es), SendOffer(v, false))
    ensures Blocked(Next(Exec(INITIAL, es), SendOffer(v, false)))
  {
    InvRun(INITIAL, es);
    OneInFlightRun(INITIAL, es);
    FailedSendBlocksExactly(es, v);
  }

  /** Then the negotiation is owned by an offer the client never saw: whatever is added and whoever calls
      Negotiate, no negotiation starts and no offer is created, until an answer to that offer arrives
      anyway. */
  lemma FailedSendBlocksRenegotiation(es: seq<Event>, v: nat, fs: seq<Event>)
    requires Legal(INITIAL, es) && Enabled(Exec(INITIAL, es), SendOffer(v, false))
    requires Exec(INITIAL, es).signaling == HaveLocalOffer && Exec(INITIAL, es).senders == multiset{v}
    requires Legal(Next(Exec(INITIAL, es), SendOffer(v, false)), fs)
    requires forall e :: e in fs ==> Entering(e)
    ensures var s := Next(Exec(INITIAL, es), SendOffer(v, false)); var s' := Exec(s, fs);
      && s'.started == s.started && s'.created == s.created && s'.fields.negotiating
      && (forall e :: Internal(e) && Enabled(s', e) ==> e == SetRemote(true) || e == RunSpawned)
  {
    FailedSendBlocksExactly(es, v);
    BlockedRun(Next(Exec(INITIAL, es), SendOffer(v, false)), fs);
  }
}
