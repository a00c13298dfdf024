/** The routing fabric and the negotiations together come to rest, and then every track has been delivered. */
module Progress {
  import C = Coverage
  import F = Fabric
  import J = Jobs
  import N = Negotiation
  import opened EndToEnd

  // ---------------------------------------------------------------- sums over maps

  ghost function Sum(m: map<nat, nat>): nat
    decreases |m|
  {
    if m == map[] then 0 else
    var k :| k in m;
    m[k] + Sum(m - {k})
  }

  lemma {:induction false} SumSplits(m: map<nat, nat>, k: nat)
    requires k in m
    ensures Sum(m) == m[k] + Sum(m - {k})
    decreases |m|
  {
    var first :| first in m && Sum(m) == m[first] + Sum(m - {first});
    if first != k {
      SumSplits(m - {first}, k);
      SumSplits(m - {k}, first);
      assert m - {first} - {k} == m - {k} - {first};
    }
  }

  lemma SumUpdated(m: map<nat, nat>, k: nat, v: nat)
    requires k in m
    ensures Sum(m[k := v]) + m[k] == Sum(m) + v
  {
    SumSplits(m, k);
    SumSplits(m[k := v], k);
    assert m[k := v] - {k} == m - {k};
  }

  // ---------------------------------------------------------------- the work at hand

  function JobWorks(jobs: map<F.JobId, F.Job>): map<nat, nat> {
    map j | j in jobs :: 7 * J.JobWork(jobs[j])
  }

  function NegotiationWorks(neg: map<F.SubId, N.State>): map<nat, nat> {
    map s | s in neg :: N.Work(neg[s])
  }

  /** A call of Negotiate makes at most six units of work for a negotiation, and takes seven off its job. */
  ghost function Work(w: World): nat {
    Sum(JobWorks(w.fabric.jobs)) + Sum(NegotiationWorks(w.neg))
  }

  /** What goes on without anybody joining, leaving, publishing or subscribing. */
  predicate Internal(e: Event) {
    match e
    case Route(f) => !f.Env?
    case Negotiate(_, n) => N.Internal(n)
  }

  /** One job has moved on or ended, and no other has changed. */
  predicate OneMoved(jobs: map<F.JobId, F.Job>, jobs': map<F.JobId, F.Job>, j: F.JobId) {
    && j in jobs && (j in jobs' ==> J.JobWork(jobs'[j]) < J.JobWork(jobs[j]))
    && jobs' - {j} == jobs - {j}
  }

  lemma AddMovesOne(st: F.State, j: F.JobId, a: F.AddEvent)
    requires F.AddEnabled(st, j, a)
    ensures j in st.jobs && F.AddNext(st, j, a).jobs - {j} == st.jobs - {j}
  {
  }

  lemma SubMovesOne(st: F.State, j: F.JobId, b: F.SubEvent)
    requires F.SubEnabled(st, j, b)
    ensures j in st.jobs && F.SubNext(st, j, b).jobs - {j} == st.jobs - {j}
  {
  }

  lemma JobsMove(st: F.State, f: F.Event)
    requires F.Sound(st) && F.Enabled(st, f) && !f.Env?
    ensures OneMoved(st.jobs, F.Next(st, f).jobs, f.j)
  {
    match f {
      case InAdd(j, a) => AddMovesOne(st, j, a);
      case InSubscribe(j, b) => SubMovesOne(st, j, b);
    }
    J.StepsShrinkJobs(st, f, f.j);
  }

  lemma MovedIsLess(jobs: map<F.JobId, F.Job>, jobs': map<F.JobId, F.Job>, j: F.JobId)
    requires OneMoved(jobs, jobs', j)
    ensures Sum(JobWorks(jobs')) + 7 <= Sum(JobWorks(jobs))
  {
    SumSplits(JobWorks(jobs), j);
    assert JobWorks(jobs) - {j} == JobWorks(jobs - {j}) == JobWorks(jobs' - {j});
    if j in jobs' {
      SumSplits(JobWorks(jobs'), j);
      assert JobWorks(jobs') - {j} == JobWorks(jobs' - {j});
    } else {
      assert jobs' - {j} == jobs';
    }
  }

  lemma JobsShrink(st: F.State, f: F.Event)
    requires F.Sound(st) && F.Enabled(st, f) && !f.Env?
    ensures Sum(JobWorks(F.Next(st, f).jobs)) + 7 <= Sum(JobWorks(st.jobs))
  {
    JobsMove(st, f);
    MovedIsLess(st.jobs, F.Next(st, f).jobs, f.j);
  }

  lemma EffectsAreSmall(n: N.State, e: N.Event)
    requires e.Attach? || e.Call?
    ensures N.Enabled(n, e) && N.Work(N.Next(n, e)) <= N.Work(n) + 6
  {
  }

  lemma JobsHaveSmallEffects(st: F.State, f: F.Event)
    requires F.Enabled(st, f) && !f.Env?
    ensures var x := EffectOf(st, f); x.Nothing? || (x.Does? && (x.n.Attach? || x.n.Call?) && x.s in st.subs)
  {
  }

  lemma NegotiationsGrowLittle(w: World, f: F.Event)
    requires Enabled(w, Route(f)) && !f.Env?
    ensures Sum(NegotiationWorks(Next(w, Route(f)).neg)) <= Sum(NegotiationWorks(w.neg)) + 6
  {
    JobsHaveSmallEffects(w.fabric, f);
    var x := EffectOf(w.fabric, f);
    if x.Does? {
      EffectsAreSmall(w.neg[x.s], x.n);
      var v := N.Work(N.Next(w.neg[x.s], x.n));
      assert NegotiationWorks(Next(w, Route(f)).neg) == NegotiationWorks(w.neg)[x.s := v];
      SumUpdated(NegotiationWorks(w.neg), x.s, v);
    }
  }

  lemma NegotiationsShrink(w: World, s: F.SubId, n: N.Event)
    requires Enabled(w, Negotiate(s, n)) && N.Internal(n)
    ensures Sum(NegotiationWorks(Next(w, Negotiate(s, n)).neg)) < Sum(NegotiationWorks(w.neg))
  {
    N.WorkDecreases(w.neg[s], n);
    var v := N.Work(N.Next(w.neg[s], n));
    assert NegotiationWorks(Next(w, Negotiate(s, n)).neg) == NegotiationWorks(w.neg)[s := v];
    SumUpdated(NegotiationWorks(w.neg), s, v);
  }

  /** Every internal step uses up work. */
  lemma WorkShrinks(w: World, e: Event)
    requires Inv(w) && Enabled(w, e) && Internal(e)
    ensures Work(Next(w, e)) < Work(w)
  {
    match e
    case Route(f) =>
      JobsShrink(w.fabric, f);
      NegotiationsGrowLittle(w, f);
    case Negotiate(s, n) =>
      NegotiationsShrink(w, s, n);
  }

  lemma {:induction false} InternalRunsEnd(w: World, es: seq<Event>)
    requires Inv(w) && Legal(w, es) && forall e :: e in es ==> Internal(e)
    ensures |es| + Work(Exec(w, es)) <= Work(w)
    decreases es
  {
    if es != [] {
      assert Internal(es[0]);
      WorkShrinks(w, es[0]);
      InvStep(w, es[0]);
      InternalRunsEnd(Next(w, es[0]), es[1..]);
    }
  }

  // ---------------------------------------------------------------- there is always a way to the end

  /** Nothing is in flight anywhere. */
  ghost predicate Settled(w: World) {
    w.fabric.jobs == map[] && forall s :: s in w.neg ==> N.Quiescent(w.neg[s])
  }

  lemma {:induction false} FreshId(ids: set<nat>) returns (d: nat)
    ensures forall x :: x in ids ==> x < d
    decreases |ids|
  {
    if ids == {} {
      d := 0;
    } else {
      var x :| x in ids;
      d := FreshId(ids - {x});
      d := if d <= x then x + 1 else d;
      assert forall y :: y in ids ==> y == x || y in ids - {x};
    }
  }

  /** Whatever a subscriber was registered for it still is, and neither it nor the router has closed. */
  ghost predicate StaysOpen(st: F.State, st': F.State) {
    forall r, s, t :: C.Registers(st, r, s, t) && !F.Gone(st, r, s) ==> C.Registers(st', r, s, t) && !F.Gone(st', r, s)
  }

  ghost predicate NoErrors(neg: map<F.SubId, N.State>, neg': map<F.SubId, N.State>) {
    forall s :: s in neg ==> s in neg' && neg'[s].errors == neg[s].errors
  }

  ghost predicate RequestsRise(st: F.State, st': F.State) {
    forall s :: s in st.subs ==> s in st'.subs && st.subs[s].requested <= st'.subs[s].requested
  }

  ghost predicate NobodyGivesUp(st: F.State, st': F.State) {
    forall s :: s in st.subs ==> s in st'.subs && st'.subs[s].gaveUp == st.subs[s].gaveUp
  }

  /** From one world to the other nothing has failed or closed, and nobody has left a router. */
  ghost predicate Smooth(w: World, w': World) {
    && w'.fabric.failed == w.fabric.failed && w'.fabric.ready == w.fabric.ready
    && NoErrors(w.neg, w'.neg) && StaysOpen(w.fabric, w'.fabric)
    && RequestsRise(w.fabric, w'.fabric) && NobodyGivesUp(w.fabric, w'.fabric)
  }

  lemma AddStaysOpen(st: F.State, j: F.JobId, a: F.AddEvent, r: F.RouterId, s: F.SubId, t: F.TrackId)
    requires F.AddEnabled(st, j, a) && C.Registers(st, r, s, t) && !F.Gone(st, r, s)
    ensures C.Registers(F.AddNext(st, j, a), r, s, t) && !F.Gone(F.AddNext(st, j, a), r, s)
  {
  }

  lemma SubStaysOpen(st: F.State, j: F.JobId, b: F.SubEvent, r: F.RouterId, s: F.SubId, t: F.TrackId)
    requires F.SubEnabled(st, j, b) && C.Registers(st, r, s, t) && !F.Gone(st, r, s)
    ensures C.Registers(F.SubNext(st, j, b), r, s, t) && !F.Gone(F.SubNext(st, j, b), r, s)
  {
  }

  lemma JobsStayOpen(st: F.State, f: F.Event)
    requires F.Enabled(st, f) && !f.Env?
    ensures StaysOpen(st, F.Next(st, f))
  {
    forall r, s, t | C.Registers(st, r, s, t) && !F.Gone(st, r, s)
      ensures C.Registers(F.Next(st, f), r, s, t) && !F.Gone(F.Next(st, f), r, s)
    {
      match f {
        case InAdd(j, a) => AddStaysOpen(st, j, a, r, s, t);
        case InSubscribe(j, b) => SubStaysOpen(st, j, b, r, s, t);
      }
    }
  }

  lemma ReadyStays(st: F.State, f: F.Event)
    requires F.Enabled(st, f) && !f.Env?
    ensures F.Next(st, f).ready == st.ready
  {
  }

  lemma JobsMakeNoErrors(w: World, f: F.Event)
    requires Enabled(w, Route(f)) && !f.Env?
    ensures NoErrors(w.neg, Next(w, Route(f)).neg)
  {
    JobsHaveSmallEffects(w.fabric, f);
  }

  lemma RequestRises(w: World, f: F.Event, s: F.SubId)
    requires Half(w, s) && F.Enabled(w.fabric, f)
    ensures s in F.Next(w.fabric, f).subs && w.fabric.subs[s].requested <= F.Next(w.fabric, f).subs[s].requested
  {
    C.RequestsRise(w.fabric, f, s);
  }

  lemma JobsRaiseRequests(w: World, f: F.Event)
    requires Inv(w) && Enabled(w, Route(f))
    ensures RequestsRise(w.fabric, F.Next(w.fabric, f))
  {
    forall s | s in w.fabric.subs
      ensures s in F.Next(w.fabric, f).subs && w.fabric.subs[s].requested <= F.Next(w.fabric, f).subs[s].requested
    {
      assert Half(w, s);
      RequestRises(w, f, s);
    }
  }

  /** A job that can go on does so smoothly. */
  lemma JobGoesOn(w: World, j: F.JobId) returns (e: Event)
    requires Inv(w) && j in w.fabric.jobs
    ensures Enabled(w, e) && Internal(e) && Smooth(w, Next(w, e))
  {
    var d := FreshId(w.fabric.downs.Keys);
    var f := J.JobsNeverWait(w.fabric, j, d);
    e := Route(f);
    JobsHaveSmallEffects(w.fabric, f);
    ReadyStays(w.fabric, f);
    JobsStayOpen(w.fabric, f);
    JobsMakeNoErrors(w, f);
    JobsRaiseRequests(w, f);
  }

  lemma NegotiationGoesOn(w: World, s: F.SubId) returns (e: Event)
    requires s in w.neg && !N.Quiescent(w.neg[s])
    ensures Enabled(w, e) && Internal(e) && Smooth(w, Next(w, e))
  {
    e := Negotiate(s, N.Move(w.neg[s]));
  }

  lemma SmoothTrans(w: World, w1: World, w2: World)
    requires Smooth(w, w1) && Smooth(w1, w2)
    ensures Smooth(w, w2)
  {
  }

  lemma {:induction false} CanSettle(w: World) returns (es: seq<Event>)
    requires Inv(w)
    ensures Legal(w, es) && (forall e :: e in es ==> Internal(e)) && |es| <= Work(w)
    ensures Settled(Exec(w, es)) && Smooth(w, Exec(w, es))
    decreases Work(w)
  {
    if Settled(w) {
      es := [];
    } else {
      var e: Event;
      if j :| j in w.fabric.jobs {
        e := JobGoesOn(w, j);
      } else {
        var s :| s in w.neg && !N.Quiescent(w.neg[s]);
        e := NegotiationGoesOn(w, s);
      }
      WorkShrinks(w, e);
      InvStep(w, e);
      var rest := CanSettle(Next(w, e));
      es := [e] + rest;
      assert es[1..] == rest;
      SmoothTrans(w, Next(w, e), Exec(Next(w, e), rest));
    }
  }

  lemma {:induction false} RunsCompose(w: World, es: seq<Event>, fs: seq<Event>)
    requires Legal(w, es) && Legal(Exec(w, es), fs)
    ensures Legal(w, es + fs) && Exec(w, es + fs) == Exec(Exec(w, es), fs)
    decreases es
  {
    if es == [] {
      assert es + fs == fs;
    } else {
      assert (es + fs)[1..] == es[1..] + fs;
      RunsCompose(Next(w, es[0]), es[1..], fs);
    }
  }

  /** Progress. After any run, whatever the server and answering clients go on to do by themselves is bounded
      by the work at hand and can be carried on to an end without a failure; at that end every open
      subscriber that has had no failure receives every track it is registered for that was
      published with a usable layer. */
  lemma EverythingIsDelivered(es: seq<Event>, fs: seq<Event>) returns (settle: seq<Event>)
    requires Legal(INITIAL, es) && Legal(Exec(INITIAL, es), fs) && forall e :: e in fs ==> Internal(e)
    ensures |fs| + |settle| <= Work(Exec(INITIAL, es))
    ensures var w := Exec(Exec(INITIAL, es), fs);
      && Legal(w, settle) && (forall e :: e in settle ==> Internal(e))
      && Settled(Exec(w, settle)) && Smooth(w, Exec(w, settle))
    ensures var w := Exec(Exec(INITIAL, es), fs);
      forall r, s, t :: Expects(w, r, s, t) ==> Receives(Exec(w, settle), r, s, t)
  {
    InvRun(INITIAL, es);
    var w := Exec(Exec(INITIAL, es), fs);
    InvRun(Exec(INITIAL, es), fs);
    InternalRunsEnd(Exec(INITIAL, es), fs);
    settle := CanSettle(w);
    RunsCompose(INITIAL, es, fs);
    RunsCompose(INITIAL, es + fs, settle);
    forall r, s, t | Expects(w, r, s, t) ensures Receives(Exec(w, settle), r, s, t) {
      ReceivesOnceSettled(es + fs + settle, w, r, s, t);
    }
  }

  /** The subscriber is open and registered for a track that had a usable layer when it was published, and
      nothing has failed for the two. */
  ghost predicate Expects(w: World, r: F.RouterId, s: F.SubId, t: F.TrackId) {
    && C.Registers(w.fabric, r, s, t) && !F.Gone(w.fabric, r, s) && t in w.fabric.ready
    && (s, t) !in w.fabric.failed && C.CaughtUp(w.fabric, s) && s in w.neg && w.neg[s].errors == 0
  }

  lemma ReceivesOnceSettled(es: seq<Event>, w: World, r: F.RouterId, s: F.SubId, t: F.TrackId)
    requires Legal(INITIAL, es) && Expects(w, r, s, t) && Settled(Exec(INITIAL, es)) && Smooth(w, Exec(INITIAL, es))
    ensures Receives(Exec(INITIAL, es), r, s, t)
  {
    Delivered(es, r, s, t);
  }

  // ---------------------------------------------------------------- publishing and subscribing

  /** An AddTrack or a Subscribe, after any run, and what it leads to by itself. */
  lemma LeadsTo(es: seq<Event>, e: F.EnvEvent) returns (settle: seq<Event>)
    requires Legal(INITIAL, es) && F.EnvEnabled(Exec(INITIAL, es).fabric, e) && (e.Publish? || e.SubscribeLock?)
    ensures Enabled(Exec(INITIAL, es), Route(F.Env(e)))
    ensures var w := Next(Exec(INITIAL, es), Route(F.Env(e)));
      && w.neg == Exec(INITIAL, es).neg && Legal(w, settle) && (forall x :: x in settle ==> Internal(x))
      && Settled(Exec(w, settle))
      && forall r, s, t :: Expects(w, r, s, t) ==> Receives(Exec(w, settle), r, s, t)
  {
    assert [Route(F.Env(e))][1..] == [];
    RunsCompose(INITIAL, es, [Route(F.Env(e))]);
    settle := EverythingIsDelivered(es + [Route(F.Env(e))], []);
  }

  /** A subscriber with nothing against it: open, no failed call on its connection, and no Subscribe that gave up. */
  ghost predicate Sane(w: World, s: F.SubId) {
    && s in w.neg && w.neg[s].errors == 0
    && C.CaughtUp(w.fabric, s) && !w.fabric.subs[s].closed
  }

  /** AddTrack reaches everybody. After any run, a track with a usable layer can be added to an open router that
      nobody has locked; left to itself, the server then comes to rest, and every subscriber of the router at the
      time of the call receives the track. */
  lemma NewTrackIsReceived(es: seq<Event>, r: F.RouterId, t: F.TrackId, j: F.JobId) returns (settle: seq<Event>)
    requires Legal(INITIAL, es)
    requires var st := Exec(INITIAL, es).fabric;
      && r in st.routers && !st.routers[r].closed && st.routers[r].holder.None?
      && t !in st.published && t in st.usable && j !in st.jobs
    ensures Enabled(Exec(INITIAL, es), Route(F.Env(F.Publish(r, t, j))))
    ensures var w := Exec(INITIAL, es); var w' := Next(w, Route(F.Env(F.Publish(r, t, j))));
      && Legal(w', settle) && (forall x :: x in settle ==> Internal(x)) && Settled(Exec(w', settle))
      && forall s :: s in w.fabric.routers[r].subscribers && Sane(w, s) && (s, t) !in w.fabric.failed ==>
           Receives(Exec(w', settle), r, s, t)
  {
    var w := Exec(INITIAL, es);
    settle := LeadsTo(es, F.Publish(r, t, j));
    var w' := Next(w, Route(F.Env(F.Publish(r, t, j))));
    forall s | s in w.fabric.routers[r].subscribers && Sane(w, s) && (s, t) !in w.fabric.failed
      ensures Receives(Exec(w', settle), r, s, t)
    {
      assert Expects(w', r, s, t);
    }
  }

  /** Subscribe brings everything there is. After any run, an open subscriber can subscribe to an open router that
      nobody has locked; left to itself, the server then comes to rest, and the subscriber receives every track
      the router had, if it was published with a usable layer. */
  lemma NewSubscriberReceives(es: seq<Event>, r: F.RouterId, s: F.SubId, j: F.JobId) returns (settle: seq<Event>)
    requires Legal(INITIAL, es)
    requires var st := Exec(INITIAL, es).fabric;
      r in st.routers && !st.routers[r].closed && st.routers[r].holder.None? && s in st.subs && j !in st.jobs
    ensures Enabled(Exec(INITIAL, es), Route(F.Env(F.SubscribeLock(r, s, j))))
    ensures var w := Exec(INITIAL, es); var w' := Next(w, Route(F.Env(F.SubscribeLock(r, s, j))));
      && Legal(w', settle) && (forall x :: x in settle ==> Internal(x)) && Settled(Exec(w', settle))
      && (Sane(w, s) ==>
            forall t :: t in w.fabric.routers[r].forwarders && t in w.fabric.ready && (s, t) !in w.fabric.failed ==>
              Receives(Exec(w', settle), r, s, t))
  {
    var w := Exec(INITIAL, es);
    settle := LeadsTo(es, F.SubscribeLock(r, s, j));
    var w' := Next(w, Route(F.Env(F.SubscribeLock(r, s, j))));
    if Sane(w, s) {
      forall t | t in w.fabric.routers[r].forwarders && t in w.fabric.ready && (s, t) !in w.fabric.failed
        ensures Receives(Exec(w', settle), r, s, t)
      {
        assert Expects(w', r, s, t);
      }
    }
  }
}
