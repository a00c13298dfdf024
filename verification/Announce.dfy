/** Telling peers about tracks (pkg/sfu/session.go, pkg/sfu/router.go, pkg/sfu/publisher.go). A new track is
    broadcast to the peers that are there; a new peer is told of the tracks of the routers that are
    registered. Joining and publishing interleave freely. */
module Announce {

  type PeerId = nat      // a publisher's router has the ID of its peer
  type TrackId = nat
  type JobId = nat

  /** A goroutine in onTrack: the track is in the router, then broadcast, then the router registered.
      Or one in NotifyExistingTracks: not begun, or with routers still to ask for their tracks. */
  datatype Job =
    | Publishing(r: PeerId, t: TrackId)
    | Registering(r: PeerId)
    | Waiting(p: PeerId)
    | Notifying(p: PeerId, todo: set<PeerId>)

  /** `told` has who was told of which router's track, `seen` and `left` who ever joined and left. From
      `broadcast` on, the fields are history: tracks whose broadcast has run, tracks added when their
      router was registered already, and what a peer's NotifyExistingTracks could not see because the
      router was not registered. */
  datatype State = State(
    peers: set<PeerId>,
    routers: map<PeerId, set<TrackId>>,
    registered: set<PeerId>,
    jobs: map<JobId, Job>,
    told: set<(PeerId, PeerId, TrackId)>,
    seen: set<PeerId>,
    left: set<PeerId>,
    broadcast: set<(PeerId, TrackId)>,
    later: set<(PeerId, TrackId)>,
    missed: set<(PeerId, PeerId, TrackId)>)

  const INITIAL := State({}, map[], {}, map[], {}, {}, {}, {}, {}, {})

  datatype Event =
    | Join(p: PeerId, j: JobId)                   // AddPeer, then `go NotifyExistingTracks`
    | Leave(p: PeerId)                            // RemovePeer
    | AddTrack(r: PeerId, t: TrackId, j: JobId)   // Router.AddTrack, under the router's lock; in vain once closed
    | Broadcast(j: JobId)
    | AddRouter(j: JobId)
    | Begin(j: JobId)                             // NotifyExistingTracks takes the session's lock
    | GetTracks(j: JobId, r: PeerId)              // and asks one router for its tracks
    | End(j: JobId)

  predicate Enabled(st: State, e: Event) {
    match e
    case Join(p, j) => p !in st.seen && j !in st.jobs
    case Leave(p) => p in st.peers
    case AddTrack(r, t, j) => r in st.seen && t !in TracksOf(st, r) && j !in st.jobs
    case Broadcast(j) => j in st.jobs && st.jobs[j].Publishing?
    case AddRouter(j) => j in st.jobs && st.jobs[j].Registering?
    case Begin(j) => j in st.jobs && st.jobs[j].Waiting?
    case GetTracks(j, r) => j in st.jobs && st.jobs[j].Notifying? && r in st.jobs[j].todo
    case End(j) => j in st.jobs && st.jobs[j].Notifying? && st.jobs[j].todo == {}
  }

  function TracksOf(st: State, r: PeerId): set<TrackId> {
    if r in st.routers then st.routers[r] else {}
  }

  /** What a peer that begins to ask now will not be told: tracks already broadcast, by routers that are
      not registered. */
  function Unseen(st: State, p: PeerId): set<(PeerId, PeerId, TrackId)> {
    set r, t | r in st.routers && t in st.routers[r] && r != p && r !in st.registered
               && (r, t) in st.broadcast && (p, r, t) !in st.told :: (p, r, t)
  }

  function Next(st: State, e: Event): State
    requires Enabled(st, e)
  {
    match e
    case Join(p, j) =>
      st.(peers := st.peers + {p}, seen := st.seen + {p}, jobs := st.jobs[j := Waiting(p)])
    case Leave(p) =>
      st.(peers := st.peers - {p}, registered := st.registered - {p}, left := st.left + {p})
    case AddTrack(r, t, j) =>
      if r in st.left then st.(jobs := st.jobs[j := Registering(r)])
      else st.(routers := st.routers[r := TracksOf(st, r) + {t}],
               jobs := st.jobs[j := Publishing(r, t)],
               later := if r in st.registered then st.later + {(r, t)} else st.later)
    case Broadcast(j) =>
      var job := st.jobs[j];
      st.(told := st.told + (set p | p in st.peers && p != job.r :: (p, job.r, job.t)),
          broadcast := st.broadcast + {(job.r, job.t)},
          jobs := st.jobs[j := Registering(job.r)])
    case AddRouter(j) =>
      st.(registered := st.registered + {st.jobs[j].r}, jobs := st.jobs - {j})
    case Begin(j) =>
      var p := st.jobs[j].p;
      st.(jobs := st.jobs[j := Notifying(p, st.registered - {p})], missed := st.missed + Unseen(st, p))
    case GetTracks(j, r) =>
      var job := st.jobs[j];
      st.(told := if job.p in st.peers then st.told + (set t | t in TracksOf(st, r) :: (job.p, r, t)) else st.told,
          jobs := st.jobs[j := job.(todo := job.todo - {r})])
    case End(j) => st.(jobs := st.jobs - {j})
  }

  predicate Legal(st: State, es: seq<Event>)
    decreases es
  {
    es == [] || (Enabled(st, es[0]) && Legal(Next(st, es[0]), es[1..]))
  }

  function Exec(st: State, es: seq<Event>): State
    requires Legal(st, es)
    decreases es
  {
    if es == [] then st else Exec(Next(st, es[0]), es[1..])
  }

  // ---------------------------------------------------------------- told, or on record as missed

  /** The job will still tell the peer of the track. */
  predicate Tells(job: Job, p: PeerId, r: PeerId, t: TrackId) {
    match job
    case Publishing(r', t') => r' == r && t' == t
    case Registering(_) => false
    case Waiting(p') => p' == p
    case Notifying(p', todo) => p' == p && r in todo
  }

  ghost predicate WillTell(st: State, p: PeerId, r: PeerId, t: TrackId) {
    exists j :: j in st.jobs && Tells(st.jobs[j], p, r, t)
  }

  predicate Concerns(st: State, p: PeerId, r: PeerId, t: TrackId) {
    p in st.peers && p != r && t in TracksOf(st, r)
  }

  ghost predicate Accounted(st: State, p: PeerId, r: PeerId, t: TrackId) {
    (p, r, t) in st.told || (p, r, t) in st.missed || WillTell(st, p, r, t)
  }

  ghost predicate AllAccounted(st: State) {
    forall p: PeerId, r: PeerId, t: TrackId :: Concerns(st, p, r, t) ==> Accounted(st, p, r, t)
  }

  /** A track that has not been broadcast is about to be. */
  ghost predicate WillBroadcast(st: State, r: PeerId, t: TrackId) {
    t in TracksOf(st, r) && (r, t) !in st.broadcast ==> exists j :: j in st.jobs && st.jobs[j] == Publishing(r, t)
  }

  ghost predicate AllBroadcast(st: State) {
    forall r: PeerId, t: TrackId :: WillBroadcast(st, r, t)
  }

  predicate Acts(e: Event, j: JobId) {
    match e
    case Join(_, _) | Leave(_) | AddTrack(_, _, _) => false
    case Broadcast(k) => k == j
    case AddRouter(k) => k == j
    case Begin(k) => k == j
    case GetTracks(k, _) => k == j
    case End(k) => k == j
  }

  lemma OtherJobsStay(st: State, e: Event, j: JobId)
    requires Enabled(st, e) && !Acts(e, j) && j in st.jobs
    ensures j in Next(st, e).jobs && Next(st, e).jobs[j] == st.jobs[j]
  {
  }

  lemma AllBroadcastStep(st: State, e: Event)
    requires AllBroadcast(st) && Enabled(st, e)
    ensures AllBroadcast(Next(st, e))
  {
    var st' := Next(st, e);
    forall r: PeerId, t: TrackId | t in TracksOf(st', r) && (r, t) !in st'.broadcast
      ensures WillBroadcast(st', r, t)
    {
      if t in TracksOf(st, r) {
        assert WillBroadcast(st, r, t);
        var j :| j in st.jobs && st.jobs[j] == Publishing(r, t);
        if !Acts(e, j) { OtherJobsStay(st, e, j); }
      } else {
        assert st'.jobs[e.j] == Publishing(r, t);
      }
    }
  }

  lemma PromiseKept(st: State, e: Event, j: JobId, p: PeerId, r: PeerId, t: TrackId)
    requires AllBroadcast(st) && Enabled(st, e) && Acts(e, j) && j in st.jobs && Tells(st.jobs[j], p, r, t)
    requires Concerns(st, p, r, t) && Concerns(Next(st, e), p, r, t) && (p, r, t) !in st.told
    ensures Accounted(Next(st, e), p, r, t)
  {
    var st' := Next(st, e);
    if e.Begin? {
      if r in st.registered {
        assert Tells(st'.jobs[j], p, r, t);
      } else if (r, t) in st.broadcast {
        assert (p, r, t) in Unseen(st, p);
      } else {
        assert WillBroadcast(st, r, t);
        var k :| k in st.jobs && st.jobs[k] == Publishing(r, t);
        assert k in st'.jobs && Tells(st'.jobs[k], p, r, t);
      }
    } else if e.GetTracks? && e.r != r {
      assert Tells(st'.jobs[j], p, r, t);
    }
  }

  lemma AllAccountedStep(st: State, e: Event)
    requires AllBroadcast(st) && AllAccounted(st) && Enabled(st, e)
    ensures AllAccounted(Next(st, e))
  {
    var st' := Next(st, e);
    forall p: PeerId, r: PeerId, t: TrackId | Concerns(st', p, r, t)
      ensures Accounted(st', p, r, t)
    {
      if !Concerns(st, p, r, t) {
        assert Tells(st'.jobs[e.j], p, r, t);
      } else {
        assert Accounted(st, p, r, t);
        if (p, r, t) !in st.told && (p, r, t) !in st.missed {
          var j :| j in st.jobs && Tells(st.jobs[j], p, r, t);
          if Acts(e, j) { PromiseKept(st, e, j, p, r, t); } else { OtherJobsStay(st, e, j); }
        }
      }
    }
  }

  // ---------------------------------------------------------------- what is missed stays missed

  predicate Asks(job: Job, p: PeerId) {
    (job.Waiting? || job.Notifying?) && job.p == p
  }

  /** Nobody can tell the peer of the track any more. */
  ghost predicate Hopeless(st: State, p: PeerId, r: PeerId, t: TrackId) {
    && (p, r, t) !in st.told && (r, t) in st.broadcast && t in TracksOf(st, r) && p in st.seen
    && forall j :: j in st.jobs && Asks(st.jobs[j], p) ==> st.jobs[j].Notifying? && r !in st.jobs[j].todo
  }

  /** A track is broadcast once. */
  ghost predicate OnceBroadcast(st: State) {
    && (forall j :: j in st.jobs && st.jobs[j].Publishing? ==>
          st.jobs[j].t in TracksOf(st, st.jobs[j].r) && (st.jobs[j].r, st.jobs[j].t) !in st.broadcast)
    && (forall j, k :: j in st.jobs && k in st.jobs && j != k && st.jobs[j].Publishing? ==> st.jobs[j] != st.jobs[k])
    && (forall r: PeerId, t: TrackId :: (r, t) in st.later || (r, t) in st.broadcast ==> t in TracksOf(st, r))
  }

  lemma OnceBroadcastStep(st: State, e: Event)
    requires OnceBroadcast(st) && Enabled(st, e)
    ensures OnceBroadcast(Next(st, e))
  {
  }

  /** A peer asks once. */
  ghost predicate OnceAsked(st: State) {
    && (forall j, k, p: PeerId :: j in st.jobs && k in st.jobs && Asks(st.jobs[j], p) && Asks(st.jobs[k], p) ==> j == k)
    && (forall j, p: PeerId :: j in st.jobs && Asks(st.jobs[j], p) ==> p in st.seen)
  }

  lemma OnceAskedStep(st: State, e: Event)
    requires OnceAsked(st) && Enabled(st, e)
    ensures OnceAsked(Next(st, e))
  {
  }

  ghost predicate OnceEach(st: State) {
    OnceBroadcast(st) && OnceAsked(st)
  }

  lemma HopelessStays(st: State, e: Event, p: PeerId, r: PeerId, t: TrackId)
    requires OnceEach(st) && Enabled(st, e) && Hopeless(st, p, r, t)
    ensures Hopeless(Next(st, e), p, r, t)
  {
  }

  lemma MissedIsHopeless(st: State, e: Event, p: PeerId, r: PeerId, t: TrackId)
    requires OnceEach(st) && Enabled(st, e) && (p, r, t) in Next(st, e).missed && (p, r, t) !in st.missed
    ensures Hopeless(Next(st, e), p, r, t)
  {
    assert e.Begin? && Asks(st.jobs[e.j], p);
  }

  /** A router is registered from the moment it is until its peer leaves, so what it adds meanwhile is
      never missed. */
  ghost predicate LaterIsSeen(st: State) {
    && (forall r: PeerId, t: TrackId :: (r, t) in st.later && r !in st.left ==> r in st.registered)
    && (forall p: PeerId, r: PeerId, t: TrackId :: (p, r, t) in st.missed && r !in st.left ==> (r, t) !in st.later)
    && (forall p: PeerId, r: PeerId, t: TrackId :: (p, r, t) in st.missed ==> t in TracksOf(st, r))
  }

  lemma LaterIsSeenStep(st: State, e: Event)
    requires LaterIsSeen(st) && OnceEach(st) && Enabled(st, e)
    ensures LaterIsSeen(Next(st, e))
  {
  }

  /** Nobody is told of a track that is not there, or of a track of its own, or without having joined. */
  ghost predicate Truthful(st: State) {
    && st.peers <= st.seen && st.left <= st.seen && st.peers !! st.left
    && (forall p: PeerId, r: PeerId, t: TrackId :: (p, r, t) in st.told ==>
          p != r && p in st.seen && t in TracksOf(st, r))
    && (forall j :: j in st.jobs && st.jobs[j].Notifying? ==> st.jobs[j].p !in st.jobs[j].todo)
  }

  lemma TruthfulStep(st: State, e: Event)
    requires Truthful(st) && OnceEach(st) && Enabled(st, e)
    ensures Truthful(Next(st, e))
  {
  }

  // ---------------------------------------------------------------- whole runs

  ghost predicate Inv(st: State) {
    && AllBroadcast(st) && AllAccounted(st) && OnceEach(st) && LaterIsSeen(st) && Truthful(st)
    && (forall p: PeerId, r: PeerId, t: TrackId :: (p, r, t) in st.missed ==> Hopeless(st, p, r, t))
  }

  lemma InvStep(st: State, e: Event)
    requires Inv(st) && Enabled(st, e)
    ensures Inv(Next(st, e))
  {
    AllBroadcastStep(st, e);
    AllAccountedStep(st, e);
    OnceBroadcastStep(st, e);
    OnceAskedStep(st, e);
    LaterIsSeenStep(st, e);
    TruthfulStep(st, e);
    forall p: PeerId, r: PeerId, t: TrackId | (p, r, t) in Next(st, e).missed
      ensures Hopeless(Next(st, e), p, r, t)
    {
      if (p, r, t) in st.missed { HopelessStays(st, e, p, r, t); } else { MissedIsHopeless(st, e, p, r, t); }
    }
  }

  lemma {:induction false} InvRun(st: State, es: seq<Event>)
    requires Inv(st) && Legal(st, es)
    ensures Inv(Exec(st, es))
    decreases es
  {
    if es != [] {
      InvStep(st, es[0]);
      InvRun(Next(st, es[0]), es[1..]);
    }
  }

  /** Every interleaving of joining and publishing: once nothing is in flight, a peer has been told of
      another router's track exactly when its NotifyExistingTracks did not begin in the window after
      the track's broadcast and before the router's registration. */
  lemma ToldUnlessMissed(es: seq<Event>, p: PeerId, r: PeerId, t: TrackId)
    requires Legal(INITIAL, es)
    requires var st := Exec(INITIAL, es); st.jobs == map[] && Concerns(st, p, r, t)
    ensures var st := Exec(INITIAL, es); (p, r, t) in st.told <==> (p, r, t) !in st.missed
  {
    InvRun(INITIAL, es);
    var st := Exec(INITIAL, es);
    assert Accounted(st, p, r, t);
    if (p, r, t) in st.missed { assert Hopeless(st, p, r, t); }
  }

  /** Every track added to a router that is registered reaches every joined peer, as long as the
      publisher stays. */
  lemma LaterTracksReachEveryone(es: seq<Event>, p: PeerId, r: PeerId, t: TrackId)
    requires Legal(INITIAL, es)
    requires var st := Exec(INITIAL, es);
      st.jobs == map[] && p in st.peers && p != r && r !in st.left && (r, t) in st.later
    ensures (p, r, t) in Exec(INITIAL, es).told
  {
    InvRun(INITIAL, es);
    var st := Exec(INITIAL, es);
    assert Accounted(st, p, r, t);
  }

  lemma {:induction false} LaterStays(st: State, es: seq<Event>, r: PeerId, t: TrackId)
    requires Legal(st, es) && (r, t) in st.later
    ensures (r, t) in Exec(st, es).later
    decreases es
  {
    if es != [] {
      LaterStays(Next(st, es[0]), es[1..], r, t);
    }
  }

  /** The same from the moment of the call: whatever comes before and after an AddTrack of a registered publisher,
      once nothing is in flight every peer that is there has been told of the track, unless the publisher left. */
  lemma AddedTrackReachesEveryone(es: seq<Event>, r: PeerId, t: TrackId, j: JobId, fs: seq<Event>, p: PeerId)
    requires Legal(INITIAL, es)
    requires var st := Exec(INITIAL, es); r in st.seen && r in st.registered && t !in TracksOf(st, r) && j !in st.jobs
    ensures Enabled(Exec(INITIAL, es), AddTrack(r, t, j))
    ensures Legal(Next(Exec(INITIAL, es), AddTrack(r, t, j)), fs) ==>
      var st := Exec(Next(Exec(INITIAL, es), AddTrack(r, t, j)), fs);
      st.jobs == map[] && p in st.peers && p != r && r !in st.left ==> (p, r, t) in st.told
  {
    var e := AddTrack(r, t, j);
    if Legal(Next(Exec(INITIAL, es), e), fs) && r !in Exec(Next(Exec(INITIAL, es), e), fs).left {
      InvRun(INITIAL, es);
      assert r !in Exec(INITIAL, es).left by {
        if r in Exec(INITIAL, es).left { LeftStays(Next(Exec(INITIAL, es), e), fs, r); }
      }
      LaterStays(Next(Exec(INITIAL, es), e), fs, r, t);
      InvStep(Exec(INITIAL, es), e);
      InvRun(Next(Exec(INITIAL, es), e), fs);
      var st := Exec(Next(Exec(INITIAL, es), e), fs);
      if st.jobs == map[] && p in st.peers && p != r {
        assert Concerns(st, p, r, t) && Accounted(st, p, r, t);
      }
    }
  }

  lemma {:induction false} LeftStays(st: State, es: seq<Event>, r: PeerId)
    requires Legal(st, es) && r in st.left
    ensures r in Exec(st, es).left
    decreases es
  {
    if es != [] {
      LeftStays(Next(st, es[0]), es[1..], r);
    }
  }

  lemma Prepend(st: State, e: Event, es: seq<Event>)
    requires Enabled(st, e) && Legal(Next(st, e), es)
    ensures Legal(st, [e] + es) && Exec(st, [e] + es) == Exec(Next(st, e), es)
  {
    assert ([e] + es)[1..] == es;
  }

  /** Peer 0 has joined and its first track has been broadcast; its router is not registered yet. */
  const FIRST_BROADCAST := INITIAL.(
    peers := {0}, seen := {0}, routers := map[0 := {0}], jobs := map[1 := Registering(0)], broadcast := {(0, 0)})

  lemma BroadcastFirst(st: State) returns (es: seq<Event>)
    requires st == INITIAL
    ensures Legal(st, es) && Exec(st, es) == FIRST_BROADCAST
  {
    var s1 := Next(st, Join(0, 0));
    var s2 := Next(s1, Begin(0));
    assert s2.jobs[0] == Notifying(0, {}) && s2.jobs.Keys == {0} && s2.missed == {};
    var s3 := Next(s2, End(0));
    assert s3.jobs == map[];
    var s4 := Next(s3, AddTrack(0, 0, 1));
    assert TracksOf(s3, 0) == {} && {} + {0} == {0};
    assert s4.routers == map[0 := {0}] && s4.jobs == map[1 := Publishing(0, 0)];
    var s5 := Next(s4, Broadcast(1));
    assert s5.told == {} && s5 == FIRST_BROADCAST;
    es := [Broadcast(1)];
    assert Legal(s4, es) && Exec(s4, es) == s5 by { assert es[1..] == []; }
    Prepend(s3, AddTrack(0, 0, 1), es);
    es := [AddTrack(0, 0, 1)] + es;
    Prepend(s2, End(0), es);
    es := [End(0)] + es;
    Prepend(s1, Begin(0), es);
    es := [Begin(0)] + es;
    Prepend(st, Join(0, 0), es);
    es := [Join(0, 0)] + es;
  }

  lemma JoinInBetween(st: State) returns (es: seq<Event>)
    requires st == FIRST_BROADCAST
    ensures Legal(st, es)
    ensures Exec(st, es).jobs == map[] && Exec(st, es).peers == {0, 1} && Exec(st, es).registered == {0}
    ensures Exec(st, es).told == {} && Exec(st, es).routers == map[0 := {0}]
  {
    var s6 := Next(st, Join(1, 2));
    var s7 := Next(s6, Begin(2));
    assert s7.jobs[2] == Notifying(1, {});
    var s8 := Next(s7, End(2));
    assert s8.jobs == map[1 := Registering(0)];
    var s9 := Next(s8, AddRouter(1));
    assert s9.jobs == map[];
    es := [AddRouter(1)];
    assert Legal(s8, es) && Exec(s8, es) == s9 by { assert es[1..] == []; }
    Prepend(s7, End(2), es);
    es := [End(2)] + es;
    Prepend(s6, Begin(2), es);
    es := [Begin(2)] + es;
    Prepend(st, Join(1, 2), es);
    es := [Join(1, 2)] + es;
  }

  lemma {:induction false} RunsCompose(st: State, es: seq<Event>, fs: seq<Event>)
    requires Legal(st, es) && Legal(Exec(st, es), fs)
    ensures Legal(st, es + fs) && Exec(st, es + fs) == Exec(Exec(st, es), fs)
    decreases es
  {
    if es == [] {
      assert es + fs == fs;
    } else {
      assert (es + fs)[1..] == es[1..] + fs;
      RunsCompose(Next(st, es[0]), es[1..], fs);
    }
  }

  /** The first track of a publisher can be missed for good: peer 1 joins and asks after the broadcast
      and before AddRouter. */
  lemma FirstTrackCanBeMissed() returns (es: seq<Event>)
    ensures Legal(INITIAL, es)
    ensures var st := Exec(INITIAL, es);
      st.jobs == map[] && Concerns(st, 1, 0, 0) && 0 in st.registered && (1, 0, 0) !in st.told
  {
    var es1 := BroadcastFirst(INITIAL);
    var es2 := JoinInBetween(FIRST_BROADCAST);
    RunsCompose(INITIAL, es1, es2);
    es := es1 + es2;
  }
}
