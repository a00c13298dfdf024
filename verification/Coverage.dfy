/** Coverage of every (subscriber, track) pair in the routing fabric (pkg/sfu/router.go): dealt with, or owed by
    an AddTrack or Subscribe in flight; and every attachment is made known to Negotiate. */
module Coverage {
  import opened Fabric
  import opened Values

  /** The job will still deal with the pair. */
  predicate Owes(job: Job, r: RouterId, s: SubId, t: TrackId) {
    match job
    case Adding(r', t', todo, _) => r' == r && t' == t && s in todo
    case Subscribing(r', s', tracks, _) => r' == r && s' == s && t in tracks
    case Calling(_) => false
  }

  ghost predicate Owed(st: State, r: RouterId, s: SubId, t: TrackId) {
    exists j :: j in st.jobs && Owes(st.jobs[j], r, s, t)
  }

  predicate Registers(st: State, r: RouterId, s: SubId, t: TrackId) {
    r in st.routers && s in st.routers[r].subscribers && t in st.routers[r].forwarders
  }

  /** Every pair a router knows of is dealt with, or some job in flight still owes it. */
  ghost predicate Coverage(st: State) {
    forall r, s, t :: Registers(st, r, s, t) ==> Done(st, r, s, t) || Owed(st, r, s, t)
  }

  lemma DebtIsPaid(st: State, e: Event, j: JobId, r: RouterId, s: SubId, t: TrackId)
    requires Sound(st) && Enabled(st, e) && Acts(e, j) && Owes(st.jobs[j], r, s, t)
    ensures (j in Next(st, e).jobs && Owes(Next(st, e).jobs[j], r, s, t)) || Done(Next(st, e), r, s, t)
  {
    assert JobSound(st, j) && RouterSound(st, r);
    match e
    case InAdd(_, a) =>
      if a.AddNegotiate? && st.jobs[j].stage.s == s { DoneKeeps(st, e, r, s, t); }
    case InSubscribe(_, b) =>
      if b.SubForward? && st.jobs[j].at.value == t { ForwardDeals(st, r, s, t); }
  }

  /** A pair that a router comes to know is owed at once. */
  lemma NewPairIsOwed(st: State, e: Event, r: RouterId, s: SubId, t: TrackId)
    requires Enabled(st, e) && Registers(Next(st, e), r, s, t) && !Registers(st, r, s, t)
    ensures Owed(Next(st, e), r, s, t)
  {
    var st' := Next(st, e);
    assert e.Env? && (e.env.Publish? || e.env.SubscribeLock?);
    assert e.env.j in st'.jobs && Owes(st'.jobs[e.env.j], r, s, t);
  }

  lemma CoverageStep(st: State, e: Event)
    requires Sound(st) && Coverage(st) && Enabled(st, e)
    ensures Coverage(Next(st, e))
  {
    var st' := Next(st, e);
    forall r, s, t | Registers(st', r, s, t)
      ensures Done(st', r, s, t) || Owed(st', r, s, t)
    {
      if !Registers(st, r, s, t) {
        NewPairIsOwed(st, e, r, s, t);
      } else if Done(st, r, s, t) {
        DoneKeeps(st, e, r, s, t);
      } else {
        var j :| j in st.jobs && Owes(st.jobs[j], r, s, t);
        if Acts(e, j) { DebtIsPaid(st, e, j, r, s, t); } else { OtherJobsStay(st, e, j); }
      }
    }
  }

  /** A pair is passed over only for a track that had no usable layer when it was published. */
  predicate SkippedUnready(st: State) {
    && st.ready <= st.usable && st.ready <= st.published
    && (forall p :: p in st.skipped ==> p.1 in st.published && p.1 !in st.ready)
  }

  lemma EnvSkips(st: State, e: EnvEvent)
    requires EnvEnabled(st, e) && SkippedUnready(st)
    ensures SkippedUnready(EnvNext(st, e))
  {
  }

  lemma AddSkips(st: State, j: JobId, a: AddEvent)
    requires AddEnabled(st, j, a) && SkippedUnready(st) && st.jobs[j].t in st.published
    ensures SkippedUnready(AddNext(st, j, a))
  {
  }

  lemma SubSkips(st: State, j: JobId, b: SubEvent)
    requires SubEnabled(st, j, b) && SkippedUnready(st)
    requires st.jobs[j].Subscribing? ==> st.jobs[j].tracks <= st.published
    ensures SkippedUnready(SubNext(st, j, b))
  {
  }

  lemma SkippedUnreadyStep(st: State, e: Event)
    requires Sound(st) && SkippedUnready(st) && Enabled(st, e)
    ensures SkippedUnready(Next(st, e))
  {
    match e
    case Env(env) => EnvSkips(st, env);
    case InAdd(j, a) =>
      assert JobSound(st, j) && RouterSound(st, st.jobs[j].r);
      AddSkips(st, j, a);
    case InSubscribe(j, b) =>
      assert JobSound(st, j);
      if st.jobs[j].Subscribing? { assert RouterSound(st, st.jobs[j].r); }
      SubSkips(st, j, b);
  }

  // ---------------------------------------------------------------- every attachment is negotiated

  /** The job will still call Negotiate for the subscriber. */
  predicate WillNegotiate(job: Job, s: SubId) {
    match job
    case Adding(_, _, _, stage) => stage != Idle && stage.s == s
    case Subscribing(_, s', _, _) => s' == s
    case Calling(s') => s' == s
  }

  /** A Subscribe of the subscriber gave up when the downtrack was attached already. */
  predicate LeftBehind(st: State, d: DownId) {
    d in st.downs && st.downs[d].sub in st.subs && st.downs[d].version <= st.subs[st.downs[d].sub].gaveUp
  }

  /** Whatever was attached when a Subscribe last gave up, Negotiate knows of by now. */
  predicate CaughtUp(st: State, s: SubId) {
    s in st.subs && st.subs[s].gaveUp <= st.subs[s].requested
  }

  /** The attachment of a downtrack is known to Negotiate, or will be. */
  ghost predicate Asked(st: State, d: DownId) {
    d in st.downs && st.downs[d].sub in st.subs &&
    var s := st.downs[d].sub;
    || st.subs[s].closed || st.downs[d].version <= st.subs[s].requested || LeftBehind(st, d)
    || exists j :: j in st.jobs && WillNegotiate(st.jobs[j], s)
  }

  ghost predicate AllAsked(st: State) {
    forall d :: d in st.downs ==> Asked(st, d)
  }

  predicate RequestsKept(st: State, st': State, s: SubId) {
    s in st.subs && s in st'.subs && st'.subs[s].requested in {st.subs[s].requested, st.subs[s].media}
  }

  lemma EnvKeepsRequests(st: State, e: EnvEvent, s: SubId)
    requires EnvEnabled(st, e) && s in st.subs
    ensures RequestsKept(st, EnvNext(st, e), s)
  {
  }

  lemma AddRequests(st: State, j: JobId, a: AddEvent, s: SubId)
    requires AddEnabled(st, j, a) && s in st.subs
    ensures RequestsKept(st, AddNext(st, j, a), s)
  {
  }

  lemma SubRequests(st: State, j: JobId, b: SubEvent, s: SubId)
    requires SubEnabled(st, j, b) && s in st.subs
    ensures RequestsKept(st, SubNext(st, j, b), s)
  {
  }

  lemma RequestsRise(st: State, e: Event, s: SubId)
    requires Enabled(st, e) && s in st.subs
    ensures RequestsKept(st, Next(st, e), s)
  {
    match e
    case Env(env) => EnvKeepsRequests(st, env, s);
    case InAdd(j, a) => AddRequests(st, j, a, s);
    case InSubscribe(j, b) => SubRequests(st, j, b, s);
  }

  lemma DutyIsDone(st: State, e: Event, j: JobId, s: SubId)
    requires Sound(st) && Enabled(st, e) && Acts(e, j) && s in st.subs && WillNegotiate(st.jobs[j], s)
    ensures var st' := Next(st, e);
      || (j in st'.jobs && WillNegotiate(st'.jobs[j], s))
      || st'.subs[s].closed || st'.subs[s].requested == st'.subs[s].media
      || st'.subs[s].gaveUp == st'.subs[s].media
  {
  }

  lemma EnvAttachesNothing(st: State, e: EnvEvent)
    requires EnvEnabled(st, e)
    ensures EnvNext(st, e).downs == st.downs
  {
  }

  lemma AddAttachmentIsAsked(st: State, j: JobId, a: AddEvent, d: DownId)
    requires AddEnabled(st, j, a) && d in AddNext(st, j, a).downs && d !in st.downs
    ensures var st' := AddNext(st, j, a);
      st'.downs[d].sub in st'.subs && j in st'.jobs && WillNegotiate(st'.jobs[j], st'.downs[d].sub)
  {
  }

  lemma SubAttachmentIsAsked(st: State, j: JobId, b: SubEvent, d: DownId)
    requires SubEnabled(st, j, b) && d in SubNext(st, j, b).downs && d !in st.downs
    ensures var st' := SubNext(st, j, b);
      st'.downs[d].sub in st'.subs && j in st'.jobs && WillNegotiate(st'.jobs[j], st'.downs[d].sub)
  {
  }

  lemma NewDownIsAsked(st: State, e: Event, d: DownId)
    requires Enabled(st, e) && d in Next(st, e).downs && d !in st.downs
    ensures Asked(Next(st, e), d)
  {
    match e
    case Env(env) => EnvAttachesNothing(st, env);
    case InAdd(j, a) => AddAttachmentIsAsked(st, j, a, d);
    case InSubscribe(j, b) => SubAttachmentIsAsked(st, j, b, d);
  }

  lemma AllAskedStep(st: State, e: Event)
    requires Sound(st) && AllAsked(st) && Enabled(st, e)
    ensures AllAsked(Next(st, e))
  {
    var st' := Next(st, e);
    SoundStep(st, e);
    forall d | d in st'.downs ensures Asked(st', d) {
      if d !in st.downs {
        NewDownIsAsked(st, e, d);
      } else {
        assert Asked(st, d) && DownKnown(st, d);
        var s := st.downs[d].sub;
        Grows(st, e, s, 0, d);
        RequestsRise(st, e, s);
        assert DownKnown(st', d);
        if j :| j in st.jobs && WillNegotiate(st.jobs[j], s) {
          if Acts(e, j) { DutyIsDone(st, e, j, s); } else { OtherJobsStay(st, e, j); }
        }
      }
    }
  }

  // ---------------------------------------------------------------- whole runs

  ghost predicate Inv(st: State) {
    Sound(st) && Coverage(st) && SkippedUnready(st) && AllAsked(st)
  }

  lemma InvStep(st: State, e: Event)
    requires Inv(st) && Enabled(st, e)
    ensures Inv(Next(st, e))
  {
    SoundStep(st, e);
    CoverageStep(st, e);
    SkippedUnreadyStep(st, e);
    AllAskedStep(st, e);
  }

  lemma {:induction false} InvRun(st: State, es: seq<Event>)
    requires Inv(st) && Legal(st, es)
    ensures Inv(Exec(st, es))
    decreases es
  {
    if es != [] {
      InvStep(st, es[0]);
      InvRun(Next(st, es[0]), es[1..]);
    }
  }

  /** Race-free coverage. In every interleaving of AddTrack and Subscribe, every pair a router knows of
      is covered, or owed by a job in flight, or on record as passed over or failed, or one of the two
      has closed. */
  lemma EveryPairCoveredOrOwed(es: seq<Event>, r: RouterId, s: SubId, t: TrackId)
    requires Legal(INITIAL, es)
    requires var st := Exec(INITIAL, es); Registers(st, r, s, t) && !Gone(st, r, s)
    ensures var st := Exec(INITIAL, es);
      && (Covered(st, r, s, t) || Excused(st, s, t) || Owed(st, r, s, t))
      && (t in st.ready ==> (s, t) !in st.skipped)
  {
    InvRun(INITIAL, es);
  }

  /** No pair ever has two downtracks, and none is in two places: a subscriber's entry is the only
      downtrack of the pair, and only that track's forwarders hold it. */
  lemma OneDowntrackPerPair(es: seq<Event>, d: DownId, d': DownId)
    requires Legal(INITIAL, es)
    requires var st := Exec(INITIAL, es); d in st.downs && d' in st.downs
    ensures var st := Exec(INITIAL, es);
      && (st.downs[d].sub == st.downs[d'].sub && st.downs[d].track == st.downs[d'].track ==> d == d')
      && (forall r, t :: InForwarder(st, r, t, d) ==> t == st.downs[d].track)
  {
    InvRun(INITIAL, es);
    assert DownKnown(Exec(INITIAL, es), d) && DownKnown(Exec(INITIAL, es), d');
  }

  /** With nothing in flight, a pair of an open router and an open subscriber is covered, by one
      downtrack that Negotiate has been told of, unless it is on record. */
  lemma CoveredWhenIdle(st: State, r: RouterId, s: SubId, t: TrackId)
    requires Inv(st) && st.jobs == map[] && Registers(st, r, s, t) && !Gone(st, r, s) && !Excused(st, s, t)
    ensures Covered(st, r, s, t)
    ensures var d := st.subs[s].downTracks[t];
      && d in st.downs && st.downs[d].sub == s && st.downs[d].track == t
      && (forall d' :: d' in st.downs && st.downs[d'].sub == s && st.downs[d'].track == t ==> d' == d)
      && (LeftBehind(st, d) || st.downs[d].version <= st.subs[s].requested)
  {
    assert !Owed(st, r, s, t);
    assert Covered(st, r, s, t);
    var d := st.subs[s].downTracks[t];
    assert EntryKnown(st, s, t) && Asked(st, d);
    forall d' | d' in st.downs && st.downs[d'].sub == s && st.downs[d'].track == t ensures d' == d {
      assert DownKnown(st, d');
    }
  }

  // ---------------------------------------------------------------- a layer that comes too late

  lemma Prepend(st: State, e: Event, es: seq<Event>)
    requires Enabled(st, e) && Legal(Next(st, e), es)
    ensures Legal(st, [e] + es) && Exec(st, [e] + es) == Exec(Next(st, e), es)
  {
    assert ([e] + es)[1..] == es;
  }

  lemma {:induction false} RunsCompose(st: State, es: seq<Event>, fs: seq<Event>)
    requires Legal(st, es) && Legal(Exec(st, es), fs)
    ensures Legal(st, es + fs) && Exec(st, es + fs) == Exec(Exec(st, es), fs)
    decreases es
  {
    if es == [] {
      assert es + fs == fs;
    } else {
      assert (es + fs)[1..] == es[1..] + fs;
      RunsCompose(Next(st, es[0]), es[1..], fs);
    }
  }

  /** A track published without subscribers and without a usable layer. */
  const PUBLISHED := INITIAL.(
    subs := map[0 := Sub(false, map[], 0, 0, 0)],
    routers := map[0 := Router(false, map[0 := Forwarder({}, false)], {}, None)],
    published := {0})

  lemma PublishEarly(st: State) returns (es: seq<Event>)
    requires st == INITIAL
    ensures Legal(st, es) && Exec(st, es) == PUBLISHED
  {
    var s1 := Next(st, Env(NewRouter(0)));
    var s2 := Next(s1, Env(NewSub(0)));
    var s3 := Next(s2, Env(Publish(0, 0, 0)));
    assert Next(s3, InAdd(0, AddDone)) == PUBLISHED;
    es := [InAdd(0, AddDone)];
    assert Legal(s3, es) && Exec(s3, es) == PUBLISHED by { assert es[1..] == []; }
    Prepend(s2, Env(Publish(0, 0, 0)), es);
    es := [Env(Publish(0, 0, 0))] + es;
    Prepend(s1, Env(NewSub(0)), es);
    es := [Env(NewSub(0))] + es;
    Prepend(st, Env(NewRouter(0)), es);
    es := [Env(NewRouter(0))] + es;
  }

  /** The state a Subscribe leaves that found no usable layer. */
  const SUBSCRIBED := PUBLISHED.(
    routers := map[0 := Router(false, map[0 := Forwarder({}, false)], {0}, None)],
    skipped := {(0, 0)})

  /** Subscribe has gone through its only track without attaching anything, and has still the lock. */
  const PASSED_OVER := PUBLISHED.(
    routers := map[0 := Router(false, map[0 := Forwarder({}, false)], {0}, Some(0))],
    jobs := map[0 := Subscribing(0, 0, {}, None)],
    skipped := {(0, 0)})

  lemma PassOver(st: State) returns (es: seq<Event>)
    requires st == PUBLISHED
    ensures Legal(st, es) && Exec(st, es) == PASSED_OVER
  {
    var s1 := Next(st, Env(SubscribeLock(0, 0, 0)));
    assert s1.jobs[0] == Subscribing(0, 0, {0}, None) && s1.routers[0] == PASSED_OVER.routers[0];
    var s2 := Next(s1, InSubscribe(0, SubAttach(0, 0, true)));
    assert s2.skipped == {(0, 0)} && s2.jobs[0] == Subscribing(0, 0, {0}, Some(0));
    var s3 := Next(s2, InSubscribe(0, SubForward));
    assert s3.jobs == PASSED_OVER.jobs && s3.routers == PASSED_OVER.routers;
    es := [InSubscribe(0, SubForward)];
    assert Legal(s2, es) && Exec(s2, es) == PASSED_OVER by { assert es[1..] == []; }
    Prepend(s1, InSubscribe(0, SubAttach(0, 0, true)), es);
    es := [InSubscribe(0, SubAttach(0, 0, true))] + es;
    Prepend(st, Env(SubscribeLock(0, 0, 0)), es);
    es := [Env(SubscribeLock(0, 0, 0))] + es;
  }

  lemma EndSubscribe(st: State) returns (es: seq<Event>)
    requires st == PASSED_OVER
    ensures Legal(st, es) && Exec(st, es) == SUBSCRIBED
  {
    var s1 := Next(st, InSubscribe(0, SubUnlock));
    assert s1.routers == SUBSCRIBED.routers;
    var s2 := Next(s1, InSubscribe(0, SubNegotiate));
    assert s2.jobs == map[] && s2.subs == st.subs;
    es := [InSubscribe(0, SubNegotiate)];
    assert Legal(s1, es) && Exec(s1, es) == SUBSCRIBED by { assert es[1..] == []; }
    Prepend(st, InSubscribe(0, SubUnlock), es);
    es := [InSubscribe(0, SubUnlock)] + es;
  }

  lemma SubscribeInVain(st: State) returns (es: seq<Event>)
    requires st == PUBLISHED
    ensures Legal(st, es) && Exec(st, es) == SUBSCRIBED
  {
    es := PassOver(st);
    var more := EndSubscribe(PASSED_OVER);
    RunsCompose(st, es, more);
    es := es + more;
  }

  /** A track published before it has a usable layer is passed over, and nothing takes it up again when
      the layer comes: no job is in flight, no call failed, and the pair is not covered. */
  lemma LateLayerIsMissed() returns (es: seq<Event>)
    ensures Legal(INITIAL, es)
    ensures var st := Exec(INITIAL, es);
      && st.jobs == map[] && Registers(st, 0, 0, 0) && !Gone(st, 0, 0) && 0 in st.usable
      && !Covered(st, 0, 0, 0) && st.failed == {} && CaughtUp(st, 0)
  {
    var es1 := PublishEarly(INITIAL);
    var es2 := SubscribeInVain(PUBLISHED);
    RunsCompose(INITIAL, es1, es2);
    var late := [Env(LayerUsable(0))];
    assert late[1..] == [];
    assert Legal(SUBSCRIBED, late) && Exec(SUBSCRIBED, late) == SUBSCRIBED.(usable := {0});
    RunsCompose(INITIAL, es1 + es2, late);
    es := es1 + es2 + late;
  }
}
