/** Which locks are taken while which others are held (pkg/sfu): for every entry point exactly the pairs that its
    program in Locks nests. */
module Nesting {
  import opened Locks

  /** The program takes the lock, in this mode, somewhere. */
  predicate Takes(p: Prog, i: Held) {
    match p
    case Nothing => false
    case Under(l, w, body) => i == Held(l, w) || Takes(body, i)
    case Then(a, b) => Takes(a, i) || Takes(b, i)
  }

  /** Somewhere the program takes `i` while it holds `o`. */
  predicate Nests(p: Prog, o: Held, i: Held) {
    match p
    case Nothing => false
    case Under(l, w, body) => (o == Held(l, w) && Takes(body, i)) || Nests(body, o, i)
    case Then(a, b) => Nests(a, o, i) || Nests(b, o, i)
  }

  /** The two predicates on every kind of program. */
  lemma Unfold(o: Held, i: Held)
    ensures forall a, b :: Takes(Then(a, b), i) <==> Takes(a, i) || Takes(b, i)
    ensures forall a, b :: Nests(Then(a, b), o, i) <==> Nests(a, o, i) || Nests(b, o, i)
    ensures forall l, w, a :: Takes(Under(l, w, a), i) <==> i == Held(l, w) || Takes(a, i)
    ensures forall l, w, a :: Nests(Under(l, w, a), o, i) <==> (o == Held(l, w) && Takes(a, i)) || Nests(a, o, i)
    ensures !Takes(Nothing, i) && !Nests(Nothing, o, i)
  {
  }

  /** A lock held shared, and one held exclusively. */
  function R(k: Kind, id: Id): Held { Held(Lock(k, id), false) }
  function W(k: Kind, id: Id): Held { Held(Lock(k, id), true) }

  // ---------------------------------------------------------------- tracks and downtracks

  predicate AnyOf(i: Held, k: Kind, ids: seq<Id>, write: bool) {
    i.lock.kind == k && i.lock.id in ids && i.write == write
  }

  lemma {:induction false} Each(k: Kind, ids: seq<Id>, o: Held, i: Held)
    ensures Takes(ReadEach(k, ids), i) <==> AnyOf(i, k, ids, false)
    ensures Takes(WriteEach(k, ids), i) <==> AnyOf(i, k, ids, true)
    ensures !Nests(ReadEach(k, ids), o, i) && !Nests(WriteEach(k, ids), o, i)
    decreases ids
  {
    Unfold(o, i);
    if ids != [] {
      Each(k, ids[1..], o, i);
    }
  }

  predicate LayerOf(t: TrackRef, i: Held) {
    AnyOf(i, Layer, t.layers, false)
  }

  /** What creating and registering a downtrack takes. */
  predicate Attaching(t: TrackRef, selector: Id, i: Held) {
    i == R(Track, t.t) || i == W(Track, t.t) || LayerOf(t, i) || i == W(Selector, selector)
  }

  predicate BestNests(t: TrackRef, o: Held, i: Held) {
    o == R(Track, t.t) && LayerOf(t, i)
  }

  lemma AddDownTrackNests(s: Id, t: TrackRef, selector: Id, o: Held, i: Held)
    ensures Takes(AddDownTrack(s, t, selector), i) <==> i == W(Subscriber, s) || Attaching(t, selector, i)
    ensures Nests(AddDownTrack(s, t, selector), o, i) <==>
      (o == W(Subscriber, s) && Attaching(t, selector, i)) || BestNests(t, o, i)
  {
    Unfold(o, i);
    Each(Layer, t.layers, o, i);
  }

  /** A downtrack's lock is held while its selector, its track and the layer are looked at. */
  lemma WriteRTPNests(d: Down, layer: Id, o: Held, i: Held)
    ensures Takes(WriteRTP(d, layer), i) <==> i == W(DownTrack, d.d) || Writing(d, layer, i)
    ensures Nests(WriteRTP(d, layer), o, i) <==> o == W(DownTrack, d.d) && Writing(d, layer, i)
  {
    Unfold(o, i);
    Each(Selector, [d.selector, d.selector, d.selector, d.selector], o, i);
  }

  predicate Writing(d: Down, layer: Id, i: Held) {
    i == R(Selector, d.selector) || i == W(Selector, d.selector) || i == R(Track, d.track) || i == R(Layer, layer)
  }

  predicate DownClosing(d: Down, i: Held) {
    i == W(DownTrack, d.d) || i == W(Track, d.track)
  }

  predicate SomeDown(ds: seq<Down>, i: Held) {
    exists d :: d in ds && DownClosing(d, i)
  }

  predicate DownCloseNests(ds: seq<Down>, o: Held, i: Held) {
    exists d :: d in ds && o == W(DownTrack, d.d) && i == W(Track, d.track)
  }

  lemma {:induction false} DownsCloseNests(ds: seq<Down>, o: Held, i: Held)
    ensures Takes(DownsClose(ds), i) <==> SomeDown(ds, i)
    ensures Nests(DownsClose(ds), o, i) <==> DownCloseNests(ds, o, i)
    decreases ds
  {
    Unfold(o, i);
    if ds != [] {
      DownsCloseNests(ds[1..], o, i);
      assert forall d :: d in ds <==> d == ds[0] || d in ds[1..];
    }
  }

  // ---------------------------------------------------------------- tracks and forwarders that close

  predicate TrackClosing(t: TrackRef, i: Held) {
    i == W(Track, t.t) || AnyOf(i, Receiver, t.receivers, true)
  }

  predicate SomeTrackCloses(ts: seq<TrackRef>, i: Held) {
    exists t :: t in ts && TrackClosing(t, i)
  }

  lemma TrackCloseNests(t: TrackRef, o: Held, i: Held)
    ensures Takes(TrackClose(t), i) <==> TrackClosing(t, i)
    ensures !Nests(TrackClose(t), o, i)
  {
    Unfold(o, i);
    Each(Receiver, t.receivers, o, i);
  }

  lemma {:induction false} TracksCloseNests(ts: seq<TrackRef>, o: Held, i: Held)
    ensures Takes(TracksClose(ts), i) <==> SomeTrackCloses(ts, i)
    ensures !Nests(TracksClose(ts), o, i)
    decreases ts
  {
    Unfold(o, i);
    if ts != [] {
      TrackCloseNests(ts[0], o, i);
      TracksCloseNests(ts[1..], o, i);
      assert forall t :: t in ts <==> t == ts[0] || t in ts[1..];
    }
  }

  predicate ForwarderClosing(t: TrackRef, i: Held) {
    i == W(Forwarder, t.t) || SomeDown(t.downs, i)
  }

  predicate SomeForwarder(ts: seq<TrackRef>, i: Held) {
    exists t :: t in ts && ForwarderClosing(t, i)
  }

  predicate ForwarderNests(t: TrackRef, o: Held, i: Held) {
    (o == W(Forwarder, t.t) && SomeDown(t.downs, i)) || DownCloseNests(t.downs, o, i)
  }

  /** A forwarder's lock is held while its downtracks close, and theirs while they leave their tracks. */
  predicate RouterCloseNests(ts: seq<TrackRef>, o: Held, i: Held) {
    exists t :: t in ts && ForwarderNests(t, o, i)
  }

  lemma ForwarderCloseNests(t: TrackRef, o: Held, i: Held)
    ensures var p := Section(Forwarder, t.t, true, DownsClose(t.downs));
      (Takes(p, i) <==> ForwarderClosing(t, i)) && (Nests(p, o, i) <==> ForwarderNests(t, o, i))
  {
    Unfold(o, i);
    DownsCloseNests(t.downs, o, i);
  }

  lemma {:induction false} ForwardersCloseNests(ts: seq<TrackRef>, o: Held, i: Held)
    ensures Takes(ForwardersClose(ts), i) <==> SomeForwarder(ts, i)
    ensures Nests(ForwardersClose(ts), o, i) <==> RouterCloseNests(ts, o, i)
    decreases ts
  {
    Unfold(o, i);
    if ts != [] {
      ForwarderCloseNests(ts[0], o, i);
      ForwardersCloseNests(ts[1..], o, i);
      assert forall t :: t in ts <==> t == ts[0] || t in ts[1..];
    }
  }

  predicate RouterClosing(r: Id, ts: seq<TrackRef>, i: Held) {
    i == W(Router, r) || SomeTrackCloses(ts, i) || SomeForwarder(ts, i)
  }

  lemma RouterClosesNests(r: Id, ts: seq<TrackRef>, o: Held, i: Held)
    ensures Takes(RouterClose(r, ts), i) <==> RouterClosing(r, ts, i)
    ensures Nests(RouterClose(r, ts), o, i) <==> RouterCloseNests(ts, o, i)
  {
    Unfold(o, i);
    TracksCloseNests(ts, o, i);
    ForwardersCloseNests(ts, o, i);
  }

  // ---------------------------------------------------------------- routers and subscribers

  predicate Connecting(s: Id, t: TrackRef, selector: Id, i: Held) {
    || i == W(Subscriber, s) || i == R(Subscriber, s) || i == W(Forwarder, t.t)
    || Attaching(t, selector, i)
  }

  /** The subscriber's lock is held while its downtrack is made and registered with the track. */
  predicate ConnectNests(s: Id, t: TrackRef, selector: Id, o: Held, i: Held) {
    (o == W(Subscriber, s) && Attaching(t, selector, i)) || BestNests(t, o, i)
  }

  predicate SomeTrackConnects(s: Id, ts: seq<TrackRef>, selector: Id, i: Held) {
    exists t :: t in ts && Connecting(s, t, selector, i)
  }

  predicate TracksConnectNest(s: Id, ts: seq<TrackRef>, selector: Id, o: Held, i: Held) {
    exists t :: t in ts && ConnectNests(s, t, selector, o, i)
  }

  lemma ConnectingNests(s: Id, t: TrackRef, selector: Id, o: Held, i: Held)
    ensures Takes(Connect(s, t, selector), i) <==> Connecting(s, t, selector, i)
    ensures Nests(Connect(s, t, selector), o, i) <==> ConnectNests(s, t, selector, o, i)
  {
    Unfold(o, i);
    AddDownTrackNests(s, t, selector, o, i);
  }

  lemma {:induction false} ConnectTracksNests(s: Id, ts: seq<TrackRef>, selector: Id, o: Held, i: Held)
    ensures Takes(ConnectTracks(s, ts, selector), i) <==> SomeTrackConnects(s, ts, selector, i)
    ensures Nests(ConnectTracks(s, ts, selector), o, i) <==> TracksConnectNest(s, ts, selector, o, i)
    decreases ts
  {
    Unfold(o, i);
    if ts != [] {
      ConnectingNests(s, ts[0], selector, o, i);
      ConnectTracksNests(s, ts[1..], selector, o, i);
      assert forall t :: t in ts <==> t == ts[0] || t in ts[1..];
    }
  }

  /** The router's lock is held all the while its tracks are connected to the subscriber. */
  lemma RouterSubscribeNests(r: Id, s: Id, ts: seq<TrackRef>, selector: Id, o: Held, i: Held)
    ensures Takes(RouterSubscribe(r, s, ts, selector), i) <==>
      i == W(Router, r) || SomeTrackConnects(s, ts, selector, i)
    ensures Nests(RouterSubscribe(r, s, ts, selector), o, i) <==>
      (o == W(Router, r) && SomeTrackConnects(s, ts, selector, i)) || TracksConnectNest(s, ts, selector, o, i)
  {
    Unfold(o, i);
    ConnectTracksNests(s, ts, selector, o, i);
  }

  predicate Notifying(peer: Id, i: Held) {
    i == R(Peer, peer) || i == W(Conn, peer)
  }

  /** negMu is held while the subscriber's flag is read; the peer is told with neither held. */
  lemma NegotiateNests(s: Id, peer: Id, o: Held, i: Held)
    ensures Takes(Negotiate(s, peer), i) <==> i == W(Neg, s) || i == R(Subscriber, s) || Notifying(peer, i)
    ensures Nests(Negotiate(s, peer), o, i) <==> o == W(Neg, s) && i == R(Subscriber, s)
  {
    Unfold(o, i);
  }

  predicate Told(peers: seq<Id>, i: Held) {
    AnyOf(i, Peer, peers, false) || AnyOf(i, Conn, peers, true)
  }

  lemma {:induction false} NotifyEachNests(peers: seq<Id>, o: Held, i: Held)
    ensures Takes(NotifyEach(peers), i) <==> Told(peers, i)
    ensures !Nests(NotifyEach(peers), o, i)
    decreases peers
  {
    Unfold(o, i);
    if peers != [] {
      NotifyEachNests(peers[1..], o, i);
    }
  }

  predicate ServingNests(sub: SubRef, t: TrackRef, selector: Id, o: Held, i: Held) {
    ConnectNests(sub.s, t, selector, o, i) || (o == W(Neg, sub.s) && i == R(Subscriber, sub.s))
  }

  predicate Serving(sub: SubRef, t: TrackRef, selector: Id, i: Held) {
    Connecting(sub.s, t, selector, i) || i == W(Neg, sub.s) || Notifying(sub.peer, i)
  }

  predicate SubscriberNests(subs: seq<SubRef>, t: TrackRef, selector: Id, o: Held, i: Held) {
    exists sub :: sub in subs && ServingNests(sub, t, selector, o, i)
  }

  predicate SubscriberServed(subs: seq<SubRef>, t: TrackRef, selector: Id, i: Held) {
    exists sub :: sub in subs && Serving(sub, t, selector, i)
  }

  lemma ServeNests(sub: SubRef, t: TrackRef, selector: Id, o: Held, i: Held)
    ensures var p := Both(Connect(sub.s, t, selector), Negotiate(sub.s, sub.peer));
      (Takes(p, i) <==> Serving(sub, t, selector, i)) && (Nests(p, o, i) <==> ServingNests(sub, t, selector, o, i))
  {
    Unfold(o, i);
    ConnectingNests(sub.s, t, selector, o, i);
    NegotiateNests(sub.s, sub.peer, o, i);
  }

  lemma {:induction false} ConnectSubscribersNests(subs: seq<SubRef>, t: TrackRef, selector: Id, o: Held, i: Held)
    ensures Takes(ConnectSubscribers(subs, t, selector), i) <==> SubscriberServed(subs, t, selector, i)
    ensures Nests(ConnectSubscribers(subs, t, selector), o, i) <==> SubscriberNests(subs, t, selector, o, i)
    decreases subs
  {
    Unfold(o, i);
    if subs != [] {
      ServeNests(subs[0], t, selector, o, i);
      ConnectSubscribersNests(subs[1..], t, selector, o, i);
      assert forall sub :: sub in subs <==> sub == subs[0] || sub in subs[1..];
    }
  }

  /** AddTrack holds the router's lock alone, and the session's while peers are told. */
  lemma RouterAddTrackNests(r: Id, t: TrackRef, subs: seq<SubRef>, selector: Id, session: Id, peers: seq<Id>,
                            o: Held, i: Held)
    ensures Takes(RouterAddTrack(r, t, subs, selector, session, peers), i) <==>
      i == W(Router, r) || SubscriberServed(subs, t, selector, i) || i == R(Session, session) || Told(peers, i)
    ensures Nests(RouterAddTrack(r, t, subs, selector, session, peers), o, i) <==>
      SubscriberNests(subs, t, selector, o, i) || (o == R(Session, session) && Told(peers, i))
  {
    Unfold(o, i);
    ConnectSubscribersNests(subs, t, selector, o, i);
    NotifyEachNests(peers, o, i);
  }

  // ---------------------------------------------------------------- peers and sessions

  predicate PublisherClosing(x: PeerRef, i: Held) {
    i == W(Publisher, x.publisher) || RouterClosing(x.router, x.tracks, i)
  }

  /** The publisher's lock is held while its tracks close, and free before the router closes. */
  predicate PublisherNests(x: PeerRef, o: Held, i: Held) {
    (o == W(Publisher, x.publisher) && SomeTrackCloses(x.tracks, i)) || RouterCloseNests(x.tracks, o, i)
  }

  lemma PublisherCloseNests(x: PeerRef, o: Held, i: Held)
    ensures Takes(PublisherClose(x), i) <==> PublisherClosing(x, i)
    ensures Nests(PublisherClose(x), o, i) <==> PublisherNests(x, o, i)
  {
    Unfold(o, i);
    TracksCloseNests(x.tracks, o, i);
    RouterClosesNests(x.router, x.tracks, o, i);
  }

  predicate SubscriberClosing(x: PeerRef, i: Held) {
    i == W(Subscriber, x.s) || AnyOf(i, Router, x.routers, true) || SomeDown(x.downs, i)
  }

  lemma SubscriberCloseNests(x: PeerRef, o: Held, i: Held)
    ensures Takes(SubscriberClose(x.s, x.routers, x.downs), i) <==> SubscriberClosing(x, i)
    ensures Nests(SubscriberClose(x.s, x.routers, x.downs), o, i) <==> DownCloseNests(x.downs, o, i)
  {
    Unfold(o, i);
    Each(Router, x.routers, o, i);
    DownsCloseNests(x.downs, o, i);
  }

  predicate PeerClosing(x: PeerRef, i: Held) {
    i == W(Peer, x.peer) || PublisherClosing(x, i) || SubscriberClosing(x, i)
  }

  predicate PeerNests(x: PeerRef, o: Held, i: Held) {
    PublisherNests(x, o, i) || DownCloseNests(x.downs, o, i)
  }

  lemma PeerCloseNests(x: PeerRef, o: Held, i: Held)
    ensures Takes(PeerClose(x), i) <==> PeerClosing(x, i)
    ensures Nests(PeerClose(x), o, i) <==> PeerNests(x, o, i)
  {
    Unfold(o, i);
    PublisherCloseNests(x, o, i);
    SubscriberCloseNests(x, o, i);
  }

  predicate SomePeerCloses(xs: seq<PeerRef>, i: Held) {
    exists x :: x in xs && PeerClosing(x, i)
  }

  predicate SomePeerNests(xs: seq<PeerRef>, o: Held, i: Held) {
    exists x :: x in xs && PeerNests(x, o, i)
  }

  lemma {:induction false} PeersCloseNests(xs: seq<PeerRef>, o: Held, i: Held)
    ensures Takes(PeersClose(xs), i) <==> SomePeerCloses(xs, i)
    ensures Nests(PeersClose(xs), o, i) <==> SomePeerNests(xs, o, i)
    decreases xs
  {
    Unfold(o, i);
    if xs != [] {
      PeerCloseNests(xs[0], o, i);
      PeersCloseNests(xs[1..], o, i);
      assert forall x :: x in xs <==> x == xs[0] || x in xs[1..];
    }
  }

  /** The routers of the session add nothing to what their publishers take and nest when they close. */
  lemma {:induction false} RoutersCloseNests(xs: seq<PeerRef>, o: Held, i: Held)
    ensures Takes(RoutersClose(xs), i) ==> SomePeerCloses(xs, i)
    ensures Nests(RoutersClose(xs), o, i) ==> SomePeerNests(xs, o, i)
    decreases xs
  {
    Unfold(o, i);
    if xs != [] {
      RouterClosesNests(xs[0].router, xs[0].tracks, o, i);
      RoutersCloseNests(xs[1..], o, i);
      assert xs[0] in xs && forall x :: x in xs[1..] ==> x in xs;
      assert RouterClosing(xs[0].router, xs[0].tracks, i) ==> PeerClosing(xs[0], i);
      assert RouterCloseNests(xs[0].tracks, o, i) ==> PeerNests(xs[0], o, i);
    }
  }

  /** The session's lock is held while all its peers and routers close. */
  lemma SessionCloseNests(session: Id, xs: seq<PeerRef>, o: Held, i: Held)
    ensures Takes(SessionClose(session, xs), i) <==> i == W(Session, session) || SomePeerCloses(xs, i)
    ensures Nests(SessionClose(session, xs), o, i) <==>
      (o == W(Session, session) && SomePeerCloses(xs, i)) || SomePeerNests(xs, o, i)
  {
    Unfold(o, i);
    PeersCloseNests(xs, o, i);
    RoutersCloseNests(xs, o, i);
  }

  predicate Sending(subs: seq<SubRef>, i: Held) {
    exists sub :: sub in subs && (i == R(Peer, sub.peer) || i == R(Subscriber, sub.s))
  }

  lemma {:induction false} SendDataNests(subs: seq<SubRef>, o: Held, i: Held)
    ensures Takes(SendDataEach(subs), i) <==> Sending(subs, i)
    ensures !Nests(SendDataEach(subs), o, i)
    decreases subs
  {
    Unfold(o, i);
    if subs != [] {
      SendDataNests(subs[1..], o, i);
      assert forall sub :: sub in subs <==> sub == subs[0] || sub in subs[1..];
    }
  }

  predicate Telling(routers: seq<Id>, told: seq<Id>, i: Held) {
    AnyOf(i, Router, routers, false) || (routers != [] && Told(told, i))
  }

  lemma {:induction false} TellTracksNests(routers: seq<Id>, told: seq<Id>, o: Held, i: Held)
    ensures Takes(TellTracks(routers, told), i) <==> Telling(routers, told, i)
    ensures !Nests(TellTracks(routers, told), o, i)
    decreases routers
  {
    Unfold(o, i);
    if routers != [] {
      NotifyEachNests(told, o, i);
      TellTracksNests(routers[1..], told, o, i);
    }
  }

  predicate SomeWrite(ds: seq<Down>, layer: Id, o: Held, i: Held) {
    exists d :: d in ds && o == W(DownTrack, d.d) && Writing(d, layer, i)
  }

  predicate SomeDelivery(t: TrackRef, ds: seq<Down>, layer: Id, i: Held) {
    exists d :: d in ds && (i == W(Forwarder, t.t) || i == W(DownTrack, d.d) || Writing(d, layer, i))
  }

  /** A packet goes to one downtrack after the other, with no lock of the forwarder held. */
  lemma {:induction false} ForwardNests(t: TrackRef, ds: seq<Down>, layer: Id, o: Held, i: Held)
    ensures Takes(ForwarderForward(t, ds, layer), i) <==> SomeDelivery(t, ds, layer, i)
    ensures Nests(ForwarderForward(t, ds, layer), o, i) <==> SomeWrite(ds, layer, o, i)
    decreases ds
  {
    Unfold(o, i);
    if ds != [] {
      WriteRTPNests(ds[0], layer, o, i);
      ForwardNests(t, ds[1..], layer, o, i);
      assert forall d :: d in ds <==> d == ds[0] || d in ds[1..];
    }
  }

  // ---------------------------------------------------------------- every entry point

  /** What an entry point takes while it holds what. */
  predicate NestedIn(op: Operation, o: Held, i: Held) {
    match op
    case DeleteSession(sfu, session, xs) =>
      || (o == W(Sfu, sfu) && (i == W(Session, session) || SomePeerCloses(xs, i)))
      || (o == W(Session, session) && SomePeerCloses(xs, i))
      || SomePeerNests(xs, o, i)
    case AddPeer(session, x) => (o == W(Session, session) && PublisherClosing(x, i)) || PublisherNests(x, o, i)
    case RemovePeer(session, x) => (o == W(Session, session) && PeerClosing(x, i)) || PeerNests(x, o, i)
    case Subscribe(session, sub, r, ts, selector) =>
      || (o == W(Router, r) && SomeTrackConnects(sub.s, ts, selector, i))
      || TracksConnectNest(sub.s, ts, selector, o, i)
      || (o == W(Neg, sub.s) && i == R(Subscriber, sub.s))
    case NotifyExistingTracks(session, routers, told) => o == R(Session, session) && Telling(routers, told, i)
    case BroadcastData(session, subs) => o == R(Session, session) && Sending(subs, i)
    case OnTrack(publisher, t, r, subs, selector, session, peers) =>
      SubscriberNests(subs, t, selector, o, i) || (o == R(Session, session) && Told(peers, i))
    case Forward(r, t, ds, layer) => SomeWrite(ds, layer, o, i)
    case Renegotiate(sub) => o == W(Neg, sub.s) && i == R(Subscriber, sub.s)
    case ConnectionClosed(x) => PeerNests(x, o, i)
    case GetOrCreateSession(_) | Lookup(_, _) | HandleAnswer(_) | SetLayer(_, _) | GetLayer(_, _) | SendCandidate(_)
       | ReadEnds(_) | RequestKeyframe(_) => false
  }

  /** What an entry point takes at all. */
  predicate TakenIn(op: Operation, i: Held) {
    match op
    case GetOrCreateSession(sfu) => i == W(Sfu, sfu)
    case Lookup(sfu, session) => i == R(Sfu, sfu) || i == R(Session, session)
    case DeleteSession(sfu, session, xs) => i == W(Sfu, sfu) || i == W(Session, session) || SomePeerCloses(xs, i)
    case AddPeer(session, x) => i == W(Session, session) || PublisherClosing(x, i)
    case RemovePeer(session, x) => i == W(Session, session) || PeerClosing(x, i)
    case Subscribe(session, sub, r, ts, selector) =>
      || i == R(Session, session) || i == W(Subscriber, sub.s) || i == W(Router, r)
      || SomeTrackConnects(sub.s, ts, selector, i)
      || i == W(Neg, sub.s) || i == R(Subscriber, sub.s) || Notifying(sub.peer, i)
    case NotifyExistingTracks(session, routers, told) => i == R(Session, session) || Telling(routers, told, i)
    case BroadcastData(session, subs) => i == R(Session, session) || Sending(subs, i)
    case OnTrack(publisher, t, r, subs, selector, session, peers) =>
      || i == W(Publisher, publisher) || i == W(Track, t.t) || i == W(Router, r)
      || SubscriberServed(subs, t, selector, i)
      || i == R(Session, session) || Told(peers, i) || i == W(Session, session)
    case Forward(r, t, ds, layer) => i == R(Router, r) || i == R(Forwarder, t.t) || SomeDelivery(t, ds, layer, i)
    case HandleAnswer(s) => i == W(Neg, s)
    case Renegotiate(sub) => i == W(Neg, sub.s) || i == R(Subscriber, sub.s) || Notifying(sub.peer, i)
    case SetLayer(s, d) =>
      i == R(Subscriber, s) || i == R(Selector, d.selector) || i == W(Selector, d.selector) || i == R(Track, d.track)
    case GetLayer(s, d) => i == R(Subscriber, s) || i == R(Selector, d.selector)
    case SendCandidate(peer) => Notifying(peer, i)
    case ReadEnds(receiver) => i == W(Receiver, receiver)
    case RequestKeyframe(d) => i == R(Selector, d.selector) || i == R(Track, d.track)
    case ConnectionClosed(x) => PublisherClosing(x, i) || SubscriberClosing(x, i)
  }

  /** The program takes and nests what is said of the entry point. */
  predicate Agrees(op: Operation, o: Held, i: Held) {
    && (Takes(ProgramOf(op), i) <==> TakenIn(op, i))
    && (Nests(ProgramOf(op), o, i) <==> NestedIn(op, o, i))
  }

  /** A router that is left over closes after its peer, and adds nothing. */
  lemma RemovePeerNests(session: Id, x: PeerRef, o: Held, i: Held)
    ensures Agrees(RemovePeer(session, x), o, i)
  {
    Unfold(o, i);
    PeerCloseNests(x, o, i);
    RouterClosesNests(x.router, x.tracks, o, i);
    assert RouterClosing(x.router, x.tracks, i) ==> PeerClosing(x, i);
    assert RouterCloseNests(x.tracks, o, i) ==> PeerNests(x, o, i);
  }

  lemma DeleteSessionNests(sfu: Id, session: Id, xs: seq<PeerRef>, o: Held, i: Held)
    ensures Agrees(DeleteSession(sfu, session, xs), o, i)
  {
    Unfold(o, i);
    SessionCloseNests(session, xs, o, i);
  }

  lemma AddPeerNests(session: Id, x: PeerRef, o: Held, i: Held)
    ensures Agrees(AddPeer(session, x), o, i)
  {
    Unfold(o, i);
    PublisherCloseNests(x, o, i);
  }

  lemma ConnectionClosedNests(x: PeerRef, o: Held, i: Held)
    ensures Agrees(ConnectionClosed(x), o, i)
  {
    Unfold(o, i);
    PublisherCloseNests(x, o, i);
    SubscriberCloseNests(x, o, i);
  }

  lemma SubscribeNests(session: Id, sub: SubRef, r: Id, ts: seq<TrackRef>, selector: Id, o: Held, i: Held)
    ensures Agrees(Operation.Subscribe(session, sub, r, ts, selector), o, i)
  {
    Unfold(o, i);
    RouterSubscribeNests(r, sub.s, ts, selector, o, i);
    NegotiateNests(sub.s, sub.peer, o, i);
  }

  lemma OnTrackNests(op: Operation, o: Held, i: Held)
    requires op.OnTrack?
    ensures Agrees(op, o, i)
  {
    Unfold(o, i);
    RouterAddTrackNests(op.r, op.t, op.subs, op.selector, op.session, op.peers, o, i);
  }

  lemma ForwardsNest(r: Id, t: TrackRef, ds: seq<Down>, layer: Id, o: Held, i: Held)
    ensures Agrees(Forward(r, t, ds, layer), o, i)
  {
    Unfold(o, i);
    ForwardNests(t, ds, layer, o, i);
  }

  lemma TellsNest(session: Id, routers: seq<Id>, told: seq<Id>, o: Held, i: Held)
    ensures Agrees(NotifyExistingTracks(session, routers, told), o, i)
  {
    Unfold(o, i);
    TellTracksNests(routers, told, o, i);
  }

  lemma SendsNest(session: Id, subs: seq<SubRef>, o: Held, i: Held)
    ensures Agrees(BroadcastData(session, subs), o, i)
  {
    Unfold(o, i);
    SendDataNests(subs, o, i);
  }

  lemma RenegotiateNests(sub: SubRef, o: Held, i: Held)
    ensures Agrees(Renegotiate(sub), o, i)
  {
    NegotiateNests(sub.s, sub.peer, o, i);
  }

  lemma LayerRequestsNest(op: Operation, o: Held, i: Held)
    requires op.SetLayer? || op.GetLayer? || op.RequestKeyframe?
    ensures Agrees(op, o, i)
  {
    Unfold(o, i);
    if op.GetLayer? { Each(Selector, [op.d.selector, op.d.selector], o, i); }
  }

  lemma SimpleNest(op: Operation, o: Held, i: Held)
    requires op.GetOrCreateSession? || op.Lookup? || op.HandleAnswer? || op.SendCandidate? || op.ReadEnds?
    ensures Agrees(op, o, i)
  {
    Unfold(o, i);
  }

  /** The programs of all entry points take and nest exactly these. */
  lemma NestsExactly(op: Operation, o: Held, i: Held)
    ensures Takes(ProgramOf(op), i) <==> TakenIn(op, i)
    ensures Nests(ProgramOf(op), o, i) <==> NestedIn(op, o, i)
  {
    match op
    case DeleteSession(sfu, session, xs) => DeleteSessionNests(sfu, session, xs, o, i);
    case AddPeer(session, x) => AddPeerNests(session, x, o, i);
    case RemovePeer(session, x) => RemovePeerNests(session, x, o, i);
    case ConnectionClosed(x) => ConnectionClosedNests(x, o, i);
    case Subscribe(session, sub, r, ts, selector) => SubscribeNests(session, sub, r, ts, selector, o, i);
    case OnTrack(_, _, _, _, _, _, _) => OnTrackNests(op, o, i);
    case Forward(r, t, ds, layer) => ForwardsNest(r, t, ds, layer, o, i);
    case NotifyExistingTracks(session, routers, told) => TellsNest(session, routers, told, o, i);
    case BroadcastData(session, subs) => SendsNest(session, subs, o, i);
    case Renegotiate(sub) => RenegotiateNests(sub, o, i);
    case SetLayer(_, _) | GetLayer(_, _) | RequestKeyframe(_) => LayerRequestsNest(op, o, i);
    case GetOrCreateSession(_) | Lookup(_, _) | HandleAnswer(_) | SendCandidate(_) | ReadEnds(_) =>
      SimpleNest(op, o, i);
  }

  // ---------------------------------------------------------------- programs and goroutines

  /** The goroutine will take `i` at a moment at which it holds `o`. */
  predicate TakesHolding(t: Thread, o: Held, i: Held)
    decreases t.todo
  {
    t.todo != [] &&
    (|| (t.todo[0].Acquire? && i == Held(t.todo[0].lock, t.todo[0].write) && o in t.held)
     || TakesHolding(Stepped(t), o, i))
  }

  lemma StepsOn(held: seq<Held>, op: Op, rest: seq<Op>, o: Held, i: Held)
    ensures TakesHolding(Thread(held, [op] + rest), o, i) <==>
      || (op.Acquire? && i == Held(op.lock, op.write) && o in held)
      || TakesHolding(Stepped(Thread(held, [op] + rest)), o, i)
    ensures Stepped(Thread(held, [op] + rest)).todo == rest
  {
    assert ([op] + rest)[1..] == rest;
  }

  lemma {:induction false} NestsWhileHolding(p: Prog, held: seq<Held>, rest: seq<Op>, o: Held, i: Held)
    ensures TakesHolding(Thread(held, Ops(p) + rest), o, i) <==>
      Nests(p, o, i) || (o in held && Takes(p, i)) || TakesHolding(Thread(held, rest), o, i)
    decreases p
  {
    match p
    case Nothing =>
      assert Ops(p) + rest == rest;
    case Under(l, w, body) =>
      var inner := held + [Held(l, w)];
      assert Ops(p) + rest == [Acquire(l, w)] + (Ops(body) + ([Release(l)] + rest));
      StepsOn(held, Acquire(l, w), Ops(body) + ([Release(l)] + rest), o, i);
      NestsWhileHolding(body, inner, [Release(l)] + rest, o, i);
      StepsOn(inner, Release(l), rest, o, i);
      assert inner[..|inner| - 1] == held;
      assert o in inner <==> o in held || o == Held(l, w);
    case Then(a, b) =>
      assert Ops(p) + rest == Ops(a) + (Ops(b) + rest);
      NestsWhileHolding(a, held, Ops(b) + rest, o, i);
      NestsWhileHolding(b, held, rest, o, i);
  }

  /** A goroutine that runs the program of an entry point takes one lock while it holds another exactly where the
      entry point nests the two. */
  lemma RunsNestExactly(op: Operation, o: Held, i: Held)
    ensures TakesHolding(Thread([], Ops(ProgramOf(op))), o, i) <==> NestedIn(op, o, i)
  {
    NestsExactly(op, o, i);
    NestsWhileHolding(ProgramOf(op), [], [], o, i);
    assert Ops(ProgramOf(op)) + [] == Ops(ProgramOf(op));
  }
}
