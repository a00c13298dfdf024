/** The mutexes of pkg/sfu: what each entry point locks inside what, and why no number of goroutines on
    any number of objects can block each other for good. Calls into pion are taken to lock nothing. */
module Locks {

  /** The kinds of mutex, outermost first. */
  datatype Kind = Sfu | Session | Peer | Publisher | Router | Neg | Subscriber | Forwarder | DownTrack
                | Selector | Track | Receiver | Layer | Conn

  function Rank(k: Kind): nat {
    match k
    case Sfu => 0 case Session => 1 case Peer => 2 case Publisher => 3 case Router => 4 case Neg => 5
    case Subscriber => 6 case Forwarder => 7 case DownTrack => 8 case Selector => 9 case Track => 10
    case Receiver => 11 case Layer => 12 case Conn => 13
  }

  type Id = nat

  datatype Lock = Lock(kind: Kind, id: Id)

  function RankOf(l: Lock): nat { Rank(l.kind) }

  // ---------------------------------------------------------------- locking programs

  /** What a goroutine locks: a section under a lock (shared or exclusive), or one thing after another. */
  datatype Prog = Nothing | Under(lock: Lock, write: bool, body: Prog) | Then(first: Prog, second: Prog)

  /** The lowest rank locked by a program, or 99 if it locks nothing. */
  function Floor(p: Prog): nat {
    match p
    case Nothing => 99
    case Under(l, _, _) => RankOf(l)
    case Then(a, b) => if Floor(a) < Floor(b) then Floor(a) else Floor(b)
  }

  /** Inside every section only locks of higher rank are taken. */
  predicate Ordered(p: Prog) {
    match p
    case Nothing => true
    case Under(l, _, body) => RankOf(l) < Floor(body) && Ordered(body)
    case Then(a, b) => Ordered(a) && Ordered(b)
  }

  /** `p` is `q` with some sections left out: one of the paths through the code of `q`. */
  predicate PathOf(p: Prog, q: Prog) {
    || p.Nothing?
    || (p.Under? && q.Under? && p.lock == q.lock && p.write == q.write && PathOf(p.body, q.body))
    || (p.Then? && q.Then? && PathOf(p.first, q.first) && PathOf(p.second, q.second))
  }

  lemma {:induction false} PathsAreOrdered(p: Prog, q: Prog)
    requires Ordered(q) && PathOf(p, q)
    ensures Ordered(p) && Floor(p) >= Floor(q)
    decreases p
  {
    match p
    case Nothing => FloorBounded(q);
    case Under(_, _, body) => PathsAreOrdered(body, q.body);
    case Then(a, b) =>
      PathsAreOrdered(a, q.first);
      PathsAreOrdered(b, q.second);
  }

  lemma {:induction false} FloorBounded(p: Prog)
    ensures Floor(p) <= 99
    decreases p
  {
    match p
    case Then(a, b) => FloorBounded(a);
    case _ =>
  }

  predicate From(rank: nat, p: Prog) {
    Ordered(p) && Floor(p) >= rank
  }

  // ---------------------------------------------------------------- the programs of pkg/sfu

  /** A section under a lock, in which only locks of higher rank are taken. */
  function Section(k: Kind, id: Id, write: bool, body: Prog): (p: Prog)
    requires Ordered(body) && Rank(k) < Floor(body)
    ensures Ordered(p) && Floor(p) == Rank(k)
  {
    Under(Lock(k, id), write, body)
  }

  function Both(a: Prog, b: Prog): (p: Prog)
    requires Ordered(a) && Ordered(b)
    ensures Ordered(p) && Floor(p) == if Floor(a) < Floor(b) then Floor(a) else Floor(b)
  {
    Then(a, b)
  }

  function Read(k: Kind, id: Id): (p: Prog)
    ensures Ordered(p) && Floor(p) == Rank(k)
  {
    Section(k, id, false, Nothing)
  }

  function Write(k: Kind, id: Id): (p: Prog)
    ensures Ordered(p) && Floor(p) == Rank(k)
  {
    Section(k, id, true, Nothing)
  }

  /** One program for each ID. */
  function ReadEach(k: Kind, ids: seq<Id>): (p: Prog)
    ensures From(Rank(k), p)
    decreases ids
  {
    if ids == [] then Nothing else Both(Read(k, ids[0]), ReadEach(k, ids[1..]))
  }

  function WriteEach(k: Kind, ids: seq<Id>): (p: Prog)
    ensures From(Rank(k), p)
    decreases ids
  {
    if ids == [] then Nothing else Both(Write(k, ids[0]), WriteEach(k, ids[1..]))
  }

  /** A downtrack with its selector and its track; a track (also the ID of its forwarder) with its layers,
      receivers and downtracks. */
  datatype Down = Down(d: Id, selector: Id, track: Id)
  datatype TrackRef = TrackRef(t: Id, layers: seq<Id>, receivers: seq<Id>, downs: seq<Down>)

  // track.go

  function GetBestLayer(t: TrackRef): (p: Prog)
    ensures From(Rank(Track), p)
  {
    Section(Track, t.t, false, ReadEach(Layer, t.layers))
  }

  function TrackClose(t: TrackRef): (p: Prog)
    ensures From(Rank(Track), p)
  {
    Both(Write(Track, t.t), WriteEach(Receiver, t.receivers))
  }

  function TracksClose(ts: seq<TrackRef>): (p: Prog)
    ensures From(Rank(Track), p)
    decreases ts
  {
    if ts == [] then Nothing else Both(TrackClose(ts[0]), TracksClose(ts[1..]))
  }

  // downtrack.go

  function NewDownTrack(t: TrackRef, selector: Id): (p: Prog)
    ensures From(Rank(Selector), p)
  {
    Both(Read(Track, t.t), Both(GetBestLayer(t), Write(Selector, selector)))
  }

  function WriteRTP(d: Down, layer: Id): (p: Prog)
    ensures From(Rank(DownTrack), p)
  {
    Section(DownTrack, d.d, true,
          Both(ReadEach(Selector, [d.selector, d.selector, d.selector, d.selector]),
          Both(Write(Selector, d.selector),
          Both(Read(Track, d.track),
          Both(Read(Layer, layer), Write(Selector, d.selector))))))
  }

  function SetTargetLayer(d: Down): (p: Prog)
    ensures From(Rank(Selector), p)
  {
    Both(Read(Selector, d.selector), Both(Write(Selector, d.selector), Read(Track, d.track)))
  }

  function DownClose(d: Down): (p: Prog)
    ensures From(Rank(DownTrack), p)
  {
    Section(DownTrack, d.d, true, Write(Track, d.track))
  }

  function DownsClose(ds: seq<Down>): (p: Prog)
    ensures From(Rank(DownTrack), p)
    decreases ds
  {
    if ds == [] then Nothing else Both(DownClose(ds[0]), DownsClose(ds[1..]))
  }

  // forwarder.go

  function ForwarderForward(t: TrackRef, ds: seq<Down>, layer: Id): (p: Prog)
    ensures From(Rank(Forwarder), p)
    decreases ds
  {
    if ds == [] then Nothing
    else Both(WriteRTP(ds[0], layer), Both(Write(Forwarder, t.t), ForwarderForward(t, ds[1..], layer)))
  }

  function ForwardersClose(ts: seq<TrackRef>): (p: Prog)
    ensures From(Rank(Forwarder), p)
    decreases ts
  {
    if ts == [] then Nothing
    else Both(Section(Forwarder, ts[0].t, true, DownsClose(ts[0].downs)), ForwardersClose(ts[1..]))
  }

  // subscriber.go

  function AddDownTrack(s: Id, t: TrackRef, selector: Id): (p: Prog)
    ensures From(Rank(Subscriber), p)
  {
    Section(Subscriber, s, true, Both(GetBestLayer(t), Both(NewDownTrack(t, selector), Write(Track, t.t))))
  }

  /** Negotiate, doNegotiate and SendOffer; `peer` is also the ID of its connection. */
  function Negotiate(s: Id, peer: Id): (p: Prog)
    ensures From(Rank(Peer), p)
  {
    Both(Section(Neg, s, true, Read(Subscriber, s)), Both(Write(Neg, s), Notify(peer)))
  }

  function SubscriberClose(s: Id, routers: seq<Id>, downs: seq<Down>): (p: Prog)
    ensures From(Rank(Router), p)
  {
    Both(Write(Subscriber, s), Both(WriteEach(Router, routers), DownsClose(downs)))
  }

  // router.go

  /** AddDownTrack, GetDownTrack and Forwarder.AddDownTrack for one pair. */
  function Connect(s: Id, t: TrackRef, selector: Id): (p: Prog)
    ensures From(Rank(Subscriber), p)
  {
    Both(AddDownTrack(s, t, selector), Both(Read(Subscriber, s), Write(Forwarder, t.t)))
  }

  function ConnectTracks(s: Id, ts: seq<TrackRef>, selector: Id): (p: Prog)
    ensures From(Rank(Subscriber), p)
    decreases ts
  {
    if ts == [] then Nothing else Both(Connect(s, ts[0], selector), ConnectTracks(s, ts[1..], selector))
  }

  function RouterSubscribe(r: Id, s: Id, ts: seq<TrackRef>, selector: Id): (p: Prog)
    ensures From(Rank(Router), p)
  {
    Section(Router, r, true, ConnectTracks(s, ts, selector))
  }

  /** A subscriber and its peer. */
  datatype SubRef = SubRef(s: Id, peer: Id)

  function ConnectSubscribers(subs: seq<SubRef>, t: TrackRef, selector: Id): (p: Prog)
    ensures From(Rank(Peer), p)
    decreases subs
  {
    if subs == [] then Nothing
    else Both(Connect(subs[0].s, t, selector),
         Both(Negotiate(subs[0].s, subs[0].peer), ConnectSubscribers(subs[1..], t, selector)))
  }

  function RouterAddTrack(r: Id, t: TrackRef, subs: seq<SubRef>, selector: Id, session: Id, peers: seq<Id>): (p: Prog)
    ensures From(Rank(Session), p)
  {
    Both(Write(Router, r), Both(ConnectSubscribers(subs, t, selector), Broadcast(session, peers)))
  }

  function RouterClose(r: Id, ts: seq<TrackRef>): (p: Prog)
    ensures From(Rank(Router), p)
  {
    Both(Write(Router, r), Both(TracksClose(ts), ForwardersClose(ts)))
  }

  // publisher.go and peer.go

  function Notify(peer: Id): (p: Prog)
    ensures From(Rank(Peer), p)
  {
    Both(Read(Peer, peer), Write(Conn, peer))
  }

  function NotifyEach(peers: seq<Id>): (p: Prog)
    ensures From(Rank(Peer), p)
    decreases peers
  {
    if peers == [] then Nothing else Both(Notify(peers[0]), NotifyEach(peers[1..]))
  }

  /** A peer with everything its Close reaches. */
  datatype PeerRef = PeerRef(peer: Id, publisher: Id, router: Id, tracks: seq<TrackRef>,
                             s: Id, routers: seq<Id>, downs: seq<Down>)

  function PublisherClose(x: PeerRef): (p: Prog)
    ensures From(Rank(Publisher), p)
  {
    Both(Section(Publisher, x.publisher, true, TracksClose(x.tracks)), RouterClose(x.router, x.tracks))
  }

  function PeerClose(x: PeerRef): (p: Prog)
    ensures From(Rank(Peer), p)
  {
    Both(Write(Peer, x.peer), Both(PublisherClose(x), SubscriberClose(x.s, x.routers, x.downs)))
  }

  function PeersClose(xs: seq<PeerRef>): (p: Prog)
    ensures From(Rank(Peer), p)
    decreases xs
  {
    if xs == [] then Nothing else Both(PeerClose(xs[0]), PeersClose(xs[1..]))
  }

  function RoutersClose(xs: seq<PeerRef>): (p: Prog)
    ensures From(Rank(Router), p)
    decreases xs
  {
    if xs == [] then Nothing else Both(RouterClose(xs[0].router, xs[0].tracks), RoutersClose(xs[1..]))
  }

  // session.go and sfu.go

  function Broadcast(session: Id, peers: seq<Id>): (p: Prog)
    ensures From(Rank(Session), p)
  {
    Section(Session, session, false, NotifyEach(peers))
  }

  function SendDataEach(subs: seq<SubRef>): (p: Prog)
    ensures From(Rank(Peer), p)
    decreases subs
  {
    if subs == [] then Nothing
    else Both(Read(Peer, subs[0].peer), Both(Read(Subscriber, subs[0].s), SendDataEach(subs[1..])))
  }

  /** Asking each router for its tracks, and telling the peer of each of them. */
  function TellTracks(routers: seq<Id>, told: seq<Id>): (p: Prog)
    ensures From(Rank(Peer), p)
    decreases routers
  {
    if routers == [] then Nothing
    else Both(Read(Router, routers[0]), Both(NotifyEach(told), TellTracks(routers[1..], told)))
  }

  function SessionClose(session: Id, xs: seq<PeerRef>): (p: Prog)
    ensures From(Rank(Session), p)
  {
    Section(Session, session, true, Both(PeersClose(xs), RoutersClose(xs)))
  }

  /** The entry points: signalling requests, pion callbacks, and the goroutines they start. */
  datatype Operation =
    | GetOrCreateSession(sfu: Id)
    | Lookup(sfu: Id, session: Id)
    | DeleteSession(sfu: Id, session: Id, xs: seq<PeerRef>)
    | AddPeer(session: Id, x: PeerRef)   // newPeer closes the publisher if there is no subscriber
    | RemovePeer(session: Id, x: PeerRef)
    | Subscribe(session: Id, sub: SubRef, r: Id, ts: seq<TrackRef>, selector: Id)
    | NotifyExistingTracks(session: Id, routers: seq<Id>, told: seq<Id>)
    | BroadcastData(session: Id, subs: seq<SubRef>)
    | OnTrack(publisher: Id, t: TrackRef, r: Id, subs: seq<SubRef>, selector: Id, session: Id, peers: seq<Id>)
    | Forward(r: Id, t: TrackRef, ds: seq<Down>, layer: Id)
    | HandleAnswer(s: Id)
    | Renegotiate(sub: SubRef)
    | SetLayer(s: Id, d: Down)
    | GetLayer(s: Id, d: Down)
    | SendCandidate(peer: Id)
    | ReadEnds(receiver: Id)
    | RequestKeyframe(d: Down)
    | ConnectionClosed(x: PeerRef)

  function ProgramOf(op: Operation): (p: Prog)
    ensures Ordered(p)
  {
    match op
    case GetOrCreateSession(sfu) => Write(Sfu, sfu)
    case Lookup(sfu, session) => Both(Read(Sfu, sfu), Read(Session, session))
    case DeleteSession(sfu, session, xs) => Section(Sfu, sfu, true, SessionClose(session, xs))
    case AddPeer(session, x) => Section(Session, session, true, PublisherClose(x))
    case RemovePeer(session, x) =>
      Section(Session, session, true, Both(PeerClose(x), RouterClose(x.router, x.tracks)))
    case Subscribe(session, sub, r, ts, selector) =>
      Both(Read(Session, session),
      Both(Write(Subscriber, sub.s),
      Both(RouterSubscribe(r, sub.s, ts, selector), Negotiate(sub.s, sub.peer))))
    case NotifyExistingTracks(session, routers, told) => Section(Session, session, false, TellTracks(routers, told))
    case BroadcastData(session, subs) => Section(Session, session, false, SendDataEach(subs))
    case OnTrack(publisher, t, r, subs, selector, session, peers) =>
      Both(Write(Publisher, publisher),
      Both(Write(Track, t.t),
      Both(RouterAddTrack(r, t, subs, selector, session, peers), Write(Session, session))))
    case Forward(r, t, ds, layer) => Both(Read(Router, r), Both(Read(Forwarder, t.t), ForwarderForward(t, ds, layer)))
    case HandleAnswer(s) => Write(Neg, s)
    case Renegotiate(sub) => Negotiate(sub.s, sub.peer)
    case GetLayer(s, d) => Both(Read(Subscriber, s), ReadEach(Selector, [d.selector, d.selector]))
    case SendCandidate(peer) => Notify(peer)
    case ReadEnds(receiver) => Write(Receiver, receiver)
    case SetLayer(s, d) => Both(Read(Subscriber, s), SetTargetLayer(d))
    case RequestKeyframe(d) => Both(Read(Selector, d.selector), Read(Track, d.track))
    case ConnectionClosed(x) => Both(PublisherClose(x), SubscriberClose(x.s, x.routers, x.downs))
  }

  // ---------------------------------------------------------------- goroutines running them

  datatype Op = Acquire(lock: Lock, write: bool) | Release(lock: Lock)

  function Ops(p: Prog): seq<Op> {
    match p
    case Nothing => []
    case Under(l, w, body) => [Acquire(l, w)] + Ops(body) + [Release(l)]
    case Then(a, b) => Ops(a) + Ops(b)
  }

  datatype Held = Held(lock: Lock, write: bool)

  /** A goroutine: the locks it holds, innermost last, and what it still has to do. */
  datatype Thread = Thread(held: seq<Held>, todo: seq<Op>)

  /** A goroutine takes locks in rising order of rank, releases the innermost first, and ends with none. */
  predicate Disciplined(held: seq<Held>, todo: seq<Op>)
    decreases todo
  {
    if todo == [] then held == []
    else match todo[0]
      case Acquire(l, w) =>
        (forall h :: h in held ==> RankOf(h.lock) < RankOf(l)) && Disciplined(held + [Held(l, w)], todo[1..])
      case Release(l) =>
        held != [] && held[|held| - 1].lock == l && Disciplined(held[..|held| - 1], todo[1..])
  }

  predicate AllBelow(held: seq<Held>, rank: nat) {
    forall h :: h in held ==> RankOf(h.lock) < rank
  }

  /** A section around operations that keep the discipline keeps it. */
  lemma SectionIsDisciplined(l: Lock, w: bool, ops: seq<Op>, held: seq<Held>, rest: seq<Op>)
    requires AllBelow(held, RankOf(l)) && Disciplined(held + [Held(l, w)], ops + ([Release(l)] + rest))
    ensures Disciplined(held, ([Acquire(l, w)] + ops + [Release(l)]) + rest)
  {
    var todo := ([Acquire(l, w)] + ops + [Release(l)]) + rest;
    assert todo[1..] == ops + ([Release(l)] + rest);
  }

  lemma ReleaseIsDisciplined(l: Lock, w: bool, held: seq<Held>, rest: seq<Op>)
    requires Disciplined(held, rest)
    ensures Disciplined(held + [Held(l, w)], [Release(l)] + rest)
  {
    var inner := held + [Held(l, w)];
    assert inner[..|inner| - 1] == held && ([Release(l)] + rest)[1..] == rest;
  }

  lemma {:induction false} OrderedProgramsAreDisciplined(p: Prog, held: seq<Held>, rest: seq<Op>)
    requires Ordered(p) && AllBelow(held, Floor(p)) && Disciplined(held, rest)
    ensures Disciplined(held, Ops(p) + rest)
    decreases p
  {
    match p
    case Nothing =>
      assert Ops(p) + rest == rest;
    case Under(l, w, body) =>
      ReleaseIsDisciplined(l, w, held, rest);
      assert AllBelow(held + [Held(l, w)], Floor(body));
      OrderedProgramsAreDisciplined(body, held + [Held(l, w)], [Release(l)] + rest);
      SectionIsDisciplined(l, w, Ops(body), held, rest);
    case Then(a, b) =>
      assert AllBelow(held, Floor(a)) && AllBelow(held, Floor(b));
      OrderedProgramsAreDisciplined(b, held, rest);
      OrderedProgramsAreDisciplined(a, held, Ops(b) + rest);
      assert Ops(p) + rest == Ops(a) + (Ops(b) + rest);
  }

  type System = seq<Thread>

  predicate HoldsLock(t: Thread, l: Lock) {
    exists h :: h in t.held && h.lock == l
  }

  predicate HoldsForWrite(t: Thread, l: Lock) {
    Held(l, true) in t.held
  }

  predicate WantsToWrite(t: Thread, l: Lock) {
    t.todo != [] && t.todo[0] == Acquire(l, true)
  }

  /** When a goroutine may go on: an exclusive lock waits for all holders, a shared lock for a writer inside. */
  ghost predicate MayStep(sys: System, i: nat) {
    && i < |sys| && sys[i].todo != []
    && match sys[i].todo[0]
       case Release(_) => true
       case Acquire(l, true) => forall j :: 0 <= j < |sys| && j != i ==> !HoldsLock(sys[j], l)
       case Acquire(l, false) => forall j :: 0 <= j < |sys| && j != i ==> !HoldsForWrite(sys[j], l)
  }

  /** When it can go on for sure: a reader may also have to give way to any writer that is waiting. */
  ghost predicate CanStep(sys: System, i: nat) {
    && MayStep(sys, i)
    && match sys[i].todo[0]
       case Acquire(l, false) => forall j :: 0 <= j < |sys| && j != i ==> !WantsToWrite(sys[j], l)
       case _ => true
  }

  function Stepped(t: Thread): Thread
    requires t.todo != []
  {
    match t.todo[0]
    case Acquire(l, w) => Thread(t.held + [Held(l, w)], t.todo[1..])
    case Release(_) => Thread(if t.held == [] then [] else t.held[..|t.held| - 1], t.todo[1..])
  }

  ghost predicate Sound(sys: System) {
    forall i :: 0 <= i < |sys| ==> Disciplined(sys[i].held, sys[i].todo)
  }

  /** Schedules: which goroutine goes next. Whether waiting writers hold back readers is left to the schedule. */
  ghost predicate Legal(sys: System, schedule: seq<nat>)
    decreases schedule
  {
    schedule == [] ||
    (MayStep(sys, schedule[0]) && Legal(sys[schedule[0] := Stepped(sys[schedule[0]])], schedule[1..]))
  }

  ghost function Exec(sys: System, schedule: seq<nat>): System
    requires Legal(sys, schedule)
    decreases schedule
  {
    if schedule == [] then sys else Exec(sys[schedule[0] := Stepped(sys[schedule[0]])], schedule[1..])
  }

  lemma {:induction false} SoundRun(sys: System, schedule: seq<nat>)
    requires Sound(sys) && Legal(sys, schedule)
    ensures Sound(Exec(sys, schedule))
    decreases schedule
  {
    if schedule != [] {
      assert Disciplined(sys[schedule[0]].held, sys[schedule[0]].todo);
      SoundRun(sys[schedule[0] := Stepped(sys[schedule[0]])], schedule[1..]);
    }
  }

  /** The goroutines at the start, each on some path of its operation. */
  function Started(paths: seq<Prog>): (sys: System)
    ensures |sys| == |paths| && forall i :: 0 <= i < |sys| ==> sys[i] == Thread([], Ops(paths[i]))
    decreases paths
  {
    if paths == [] then [] else [Thread([], Ops(paths[0]))] + Started(paths[1..])
  }

  // ---------------------------------------------------------------- mutual exclusion

  /** While a goroutine holds a lock exclusively no other holds it at all. */
  ghost predicate Exclusive(sys: System) {
    forall i, j, l :: 0 <= i < |sys| && 0 <= j < |sys| && i != j && HoldsForWrite(sys[i], l) ==> !HoldsLock(sys[j], l)
  }

  lemma HeldAfter(t: Thread, l: Lock)
    requires t.todo != []
    ensures t.todo[0].Acquire? ==>
      && (HoldsForWrite(Stepped(t), l) <==> HoldsForWrite(t, l) || t.todo[0] == Acquire(l, true))
      && (HoldsLock(Stepped(t), l) <==> HoldsLock(t, l) || t.todo[0].lock == l)
    ensures t.todo[0].Release? ==>
      (HoldsForWrite(Stepped(t), l) ==> HoldsForWrite(t, l)) && (HoldsLock(Stepped(t), l) ==> HoldsLock(t, l))
  {
    if t.todo[0].Acquire? {
      assert Held(t.todo[0].lock, t.todo[0].write) in Stepped(t).held;
      assert forall h :: h in t.held ==> h in Stepped(t).held;
    }
  }

  /** A goroutine may go on exactly when that keeps locks exclusive: writers alone, readers together. */
  lemma StepKeepsExclusion(sys: System, i: nat)
    requires i < |sys| && sys[i].todo != [] && Exclusive(sys)
    ensures MayStep(sys, i) <==> Exclusive(sys[i := Stepped(sys[i])])
  {
    var sys' := sys[i := Stepped(sys[i])];
    if MayStep(sys, i) {
      forall j, k, l | 0 <= j < |sys| && 0 <= k < |sys| && j != k && HoldsForWrite(sys'[j], l)
        ensures !HoldsLock(sys'[k], l)
      {
        HeldAfter(sys[i], l);
      }
    } else {
      var l := sys[i].todo[0].lock;
      HeldAfter(sys[i], l);
      if sys[i].todo[0].write {
        var j :| 0 <= j < |sys| && j != i && HoldsLock(sys[j], l);
        assert HoldsForWrite(sys'[i], l) && HoldsLock(sys'[j], l);
      } else {
        var j :| 0 <= j < |sys| && j != i && HoldsForWrite(sys[j], l);
        assert HoldsForWrite(sys'[j], l) && HoldsLock(sys'[i], l);
      }
    }
  }

  lemma {:induction false} ExclusiveRun(sys: System, schedule: seq<nat>)
    requires Exclusive(sys) && Legal(sys, schedule)
    ensures Exclusive(Exec(sys, schedule))
    decreases schedule
  {
    if schedule != [] {
      StepKeepsExclusion(sys, schedule[0]);
      ExclusiveRun(sys[schedule[0] := Stepped(sys[schedule[0]])], schedule[1..]);
    }
  }

  /** In every schedule of any goroutines that start with no lock, locks are exclusive. */
  lemma MutualExclusion(paths: seq<Prog>, schedule: seq<nat>)
    requires Legal(Started(paths), schedule)
    ensures Exclusive(Exec(Started(paths), schedule))
  {
    ExclusiveRun(Started(paths), schedule);
  }

  // ---------------------------------------------------------------- no deadlock

  /** The rank a goroutine waits for, below all ranks if it does not wait. */
  function Wanted(t: Thread): int {
    if t.todo != [] && t.todo[0].Acquire? then RankOf(t.todo[0].lock) else -1
  }

  lemma {:induction false} Foremost(sys: System) returns (i: nat)
    requires sys != []
    ensures i < |sys| && forall j :: 0 <= j < |sys| ==> Wanted(sys[j]) <= Wanted(sys[i])
    decreases sys
  {
    if |sys| == 1 {
      i := 0;
    } else {
      var n := |sys| - 1;
      i := Foremost(sys[..n]);
      if Wanted(sys[n]) > Wanted(sys[i]) { i := n; }
      assert forall j :: 0 <= j < n ==> sys[..n][j] == sys[j];
    }
  }

  /** Whoever holds a lock can go on at once or waits for a lock of higher rank. */
  lemma HolderWaitsHigher(sys: System, j: nat, l: Lock)
    requires Sound(sys) && j < |sys| && HoldsLock(sys[j], l) && !CanStep(sys, j)
    ensures Wanted(sys[j]) > RankOf(l)
  {
  }

  /** A goroutine that cannot go on waits for a lock somebody holds. */
  lemma WaitsForHolder(sys: System, i: nat) returns (j: nat, l: Lock)
    requires Sound(sys) && i < |sys| && sys[i].todo != []
    requires forall k :: 0 <= k < |sys| ==> !CanStep(sys, k)
    ensures sys[i].todo[0].Acquire? && l == sys[i].todo[0].lock && j < |sys| && HoldsLock(sys[j], l)
  {
    assert !CanStep(sys, i);
    l := sys[i].todo[0].lock;
    if sys[i].todo[0].write {
      j :| 0 <= j < |sys| && j != i && HoldsLock(sys[j], l);
    } else {
      var k :| 0 <= k < |sys| && k != i && (HoldsForWrite(sys[k], l) || WantsToWrite(sys[k], l));
      if HoldsForWrite(sys[k], l) {
        assert Held(l, true) in sys[k].held;
        j := k;
      } else {
        assert !CanStep(sys, k);
        j :| 0 <= j < |sys| && j != k && HoldsLock(sys[j], l);
      }
    }
  }

  /** Some goroutine can always go on, until all have finished. */
  lemma SomebodyCanStep(sys: System, some: nat) returns (i: nat)
    requires Sound(sys) && some < |sys| && sys[some].todo != []
    ensures CanStep(sys, i)
  {
    if k: nat :| k < |sys| && CanStep(sys, k) {
      i := k;
    } else {
      i := Foremost(sys);
      var j0, l0 := WaitsForHolder(sys, some);
      assert Wanted(sys[some]) >= 0;
      var j, l := WaitsForHolder(sys, i);
      HolderWaitsHigher(sys, j, l);
      assert false;
    }
  }

  function Remaining(sys: System): nat
    decreases sys
  {
    if sys == [] then 0 else |sys[0].todo| + Remaining(sys[1..])
  }

  lemma {:induction false} StepsReduceRemaining(sys: System, i: nat, t: Thread)
    requires i < |sys| && |t.todo| == |sys[i].todo| - 1
    ensures Remaining(sys[i := t]) == Remaining(sys) - 1
    decreases i
  {
    if i > 0 {
      assert sys[i := t][1..] == sys[1..][i - 1 := t];
      StepsReduceRemaining(sys[1..], i - 1, t);
    }
  }

  lemma {:induction false} RunsAreBounded(sys: System, schedule: seq<nat>)
    requires Legal(sys, schedule)
    ensures |schedule| + Remaining(Exec(sys, schedule)) == Remaining(sys)
    decreases schedule
  {
    if schedule != [] {
      StepsReduceRemaining(sys, schedule[0], Stepped(sys[schedule[0]]));
      RunsAreBounded(sys[schedule[0] := Stepped(sys[schedule[0]])], schedule[1..]);
    }
  }

  ghost predicate PathsOf(paths: seq<Prog>, ops: seq<Operation>) {
    |paths| == |ops| && forall i :: 0 <= i < |ops| ==> PathOf(paths[i], ProgramOf(ops[i]))
  }

  lemma StartedIsSound(paths: seq<Prog>, ops: seq<Operation>)
    requires PathsOf(paths, ops)
    ensures Sound(Started(paths))
  {
    forall i | 0 <= i < |paths| ensures Disciplined([], Ops(paths[i])) {
      PathsAreOrdered(paths[i], ProgramOf(ops[i]));
      OrderedProgramsAreDisciplined(paths[i], [], []);
      assert Ops(paths[i]) + [] == Ops(paths[i]);
    }
  }

  lemma {:induction false} WorkIsSomebodys(sys: System) returns (i: nat)
    requires Remaining(sys) > 0
    ensures i < |sys| && sys[i].todo != []
    decreases sys
  {
    if sys[0].todo != [] {
      i := 0;
    } else {
      i := WorkIsSomebodys(sys[1..]);
      i := i + 1;
    }
  }

  /** Some goroutine can go on. */
  ghost predicate Live(sys: System) {
    exists i: nat :: CanStep(sys, i)
  }

  lemma UnfinishedIsLive(sys: System)
    requires Sound(sys) && Remaining(sys) > 0
    ensures Live(sys)
  {
    var some := WorkIsSomebodys(sys);
    var i := SomebodyCanStep(sys, some);
  }

  /** Deadlock freedom. Any number of goroutines run any operations on any objects, each along any path of
      its code: in every reachable state that is not the end, some goroutine can go on even if readers give
      way to all waiting writers, and no run is longer than the work there was. */
  lemma NoDeadlock(paths: seq<Prog>, ops: seq<Operation>, schedule: seq<nat>)
    requires PathsOf(paths, ops) && Legal(Started(paths), schedule)
    ensures |schedule| <= Remaining(Started(paths))
    ensures |schedule| < Remaining(Started(paths)) ==> Live(Exec(Started(paths), schedule))
  {
    var start := Started(paths);
    StartedIsSound(paths, ops);
    SoundRun(start, schedule);
    RunsAreBounded(start, schedule);
    if |schedule| < Remaining(start) {
      UnfinishedIsLive(Exec(start, schedule));
    }
  }
}
