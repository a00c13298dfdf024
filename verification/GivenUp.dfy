/** Attachments that Negotiate is never told of (pkg/sfu/subscriber.go, pkg/sfu/router.go): Subscribe gives up when
    a downtrack cannot be made, and does not negotiate for those it has made. */
module GivenUp {
  import opened Fabric
  import opened Coverage
  import opened Values

  /** The event is a call of Negotiate for the subscriber. */
  predicate CallsNegotiate(st: State, e: Event, s: SubId)
    requires Enabled(st, e)
  {
    || (e.InAdd? && e.a.AddNegotiate? && st.jobs[e.j].stage.s == s)
    || (e.InSubscribe? && e.b.SubNegotiate? && st.jobs[e.j].s == s)
  }

  /** ... which an open subscriber accepts. */
  predicate Accepts(st: State, e: Event, s: SubId)
    requires Enabled(st, e)
  {
    CallsNegotiate(st, e, s) && s in st.subs && !st.subs[s].closed
  }

  predicate Accepted(st: State, es: seq<Event>, s: SubId)
    requires Legal(st, es)
    decreases es
  {
    es != [] && (Accepts(st, es[0], s) || Accepted(Next(st, es[0]), es[1..], s))
  }

  lemma EnvAccepts(st: State, e: EnvEvent, s: SubId)
    requires EnvEnabled(st, e) && s in st.subs
    ensures EnvNext(st, e).subs[s].requested == st.subs[s].requested
  {
  }

  lemma AddAccepts(st: State, j: JobId, a: AddEvent, s: SubId)
    requires AddEnabled(st, j, a) && s in st.subs
    ensures AddNext(st, j, a).subs[s].requested ==
            if Accepts(st, InAdd(j, a), s) then st.subs[s].media else st.subs[s].requested
  {
  }

  lemma SubAccepts(st: State, j: JobId, b: SubEvent, s: SubId)
    requires SubEnabled(st, j, b) && s in st.subs
    ensures SubNext(st, j, b).subs[s].requested ==
            if Accepts(st, InSubscribe(j, b), s) then st.subs[s].media else st.subs[s].requested
  {
  }

  lemma AcceptsStep(st: State, e: Event, s: SubId)
    requires Enabled(st, e) && s in st.subs
    ensures s in Next(st, e).subs
    ensures Next(st, e).subs[s].requested == if Accepts(st, e, s) then st.subs[s].media else st.subs[s].requested
  {
    Grows(st, e, s, 0, 0);
    match e
    case Env(env) => EnvAccepts(st, env, s);
    case InAdd(j, a) => AddAccepts(st, j, a, s);
    case InSubscribe(j, b) => SubAccepts(st, j, b, s);
  }

  /** Negotiate knows of an attachment exactly when it was known before, or a call has been accepted since. */
  lemma {:induction false} KnownRun(st: State, es: seq<Event>, d: DownId)
    requires Sound(st) && Legal(st, es) && d in st.downs
    ensures var st' := Exec(st, es); var s := st.downs[d].sub;
      && d in st'.downs && st'.downs[d] == st.downs[d] && s in st.subs && s in st'.subs
      && (st.downs[d].version <= st'.subs[s].requested <==>
            st.downs[d].version <= st.subs[s].requested || Accepted(st, es, s))
    decreases es
  {
    assert DownKnown(st, d);
    if es != [] {
      var s := st.downs[d].sub;
      SoundStep(st, es[0]);
      Grows(st, es[0], s, 0, d);
      AcceptsStep(st, es[0], s);
      KnownRun(Next(st, es[0]), es[1..], d);
    }
  }

  /** Exactly which attachments Negotiate does not know of. With nothing in flight, an open subscriber's
      attachment that was not known at some moment is not known now if and only if a Subscribe gave up at
      or after it and no call of Negotiate has been accepted since. */
  lemma UnknownExactly(es: seq<Event>, fs: seq<Event>, d: DownId)
    requires Legal(INITIAL, es) && Legal(Exec(INITIAL, es), fs)
    requires var st := Exec(INITIAL, es);
      d in st.downs && st.downs[d].sub in st.subs && st.subs[st.downs[d].sub].requested < st.downs[d].version
    requires var st' := Exec(Exec(INITIAL, es), fs); var s := Exec(INITIAL, es).downs[d].sub;
      st'.jobs == map[] && s in st'.subs && !st'.subs[s].closed
    ensures var st := Exec(INITIAL, es); var st' := Exec(st, fs); var s := st.downs[d].sub;
      st'.subs[s].requested < st.downs[d].version <==> LeftBehind(st', d) && !Accepted(st, fs, s)
  {
    InvRun(INITIAL, es);
    InvRun(Exec(INITIAL, es), fs);
    KnownRun(Exec(INITIAL, es), fs, d);
    assert Asked(Exec(Exec(INITIAL, es), fs), d);
  }

  // ---------------------------------------------------------------- a run that strands an attachment

  /** A router with two tracks that have usable layers, and nobody subscribed. */
  const TWO_TRACKS := INITIAL.(
    subs := map[0 := Sub(false, map[], 0, 0, 0)],
    routers := map[0 := Router(false, map[0 := Forwarder({}, false), 1 := Forwarder({}, false)], {}, None)],
    usable := {0, 1}, published := {0, 1}, ready := {0, 1})

  lemma PublishOne(st: State, t: TrackId) returns (es: seq<Event>)
    requires 0 in st.routers && st.routers[0].holder.None? && !st.routers[0].closed && st.routers[0].subscribers == {}
    requires t !in st.published && t in st.usable && st.jobs == map[]
    ensures Legal(st, es)
    ensures Exec(st, es) == WithForwarder(st, 0, t, Forwarder({}, false)).(
              published := st.published + {t}, ready := st.ready + {t})
  {
    var e, done := Env(Publish(0, t, 0)), InAdd(0, AddDone);
    var st' := Next(st, e);
    assert st'.jobs == map[0 := Adding(0, t, {}, Idle)];
    assert Next(st', done).jobs == map[];
    es := [done];
    assert Legal(st', es) && Exec(st', es) == Next(st', done) by { assert es[1..] == []; }
    Prepend(st, e, es);
    es := [e] + es;
  }

  lemma Prepared(st: State) returns (es: seq<Event>)
    requires st == INITIAL
    ensures Legal(st, es) && Exec(st, es) == INITIAL.(
              subs := map[0 := Sub(false, map[], 0, 0, 0)],
              routers := map[0 := Router(false, map[], {}, None)],
              usable := {0, 1})
  {
    var s1 := Next(st, Env(NewRouter(0)));
    var s2 := Next(s1, Env(NewSub(0)));
    var s3 := Next(s2, Env(LayerUsable(0)));
    assert Next(s3, Env(LayerUsable(1))).usable == {0, 1};
    es := [Env(LayerUsable(1))];
    assert Legal(s3, es) && Exec(s3, es) == Next(s3, Env(LayerUsable(1))) by { assert es[1..] == []; }
    Prepend(s2, Env(LayerUsable(0)), es);
    es := [Env(LayerUsable(0))] + es;
    Prepend(s1, Env(NewSub(0)), es);
    es := [Env(NewSub(0))] + es;
    Prepend(st, Env(NewRouter(0)), es);
    es := [Env(NewRouter(0))] + es;
  }

  lemma TwoTracks(st: State) returns (es: seq<Event>)
    requires st == INITIAL
    ensures Legal(st, es) && Exec(st, es) == TWO_TRACKS
  {
    es := Prepared(st);
    var more := PublishOne(Exec(st, es), 0);
    RunsCompose(st, es, more);
    es := es + more;
    more := PublishOne(Exec(st, es), 1);
    RunsCompose(st, es, more);
    es := es + more;
    assert Exec(st, es).published == {0, 1} && Exec(st, es).ready == {0, 1};
    assert Exec(st, es).routers == TWO_TRACKS.routers;
  }

  /** The first track is attached and forwarded, and Subscribe turns to the second. */
  predicate HalfWay(st: State) {
    && st.jobs == map[0 := Subscribing(0, 0, {1}, None)] && st.downs == map[0 := Down(0, 0, 1)]
    && st.subs == map[0 := Sub(false, map[0 := 0], 1, 0, 0)] && st.usable == {0, 1} && st.failed == {}
    && Registers(st, 0, 0, 0) && !Gone(st, 0, 0) && Covered(st, 0, 0, 0)
  }

  lemma FirstAttached(st: State) returns (es: seq<Event>)
    requires st == TWO_TRACKS
    ensures Legal(st, es) && HalfWay(Exec(st, es))
  {
    assert st.routers[0].forwarders.Keys == {0, 1};
    var s1 := Next(st, Env(SubscribeLock(0, 0, 0)));
    assert s1.jobs[0] == Subscribing(0, 0, {0, 1}, None);
    var s2 := Next(s1, InSubscribe(0, SubAttach(0, 0, true)));
    assert s2.jobs[0] == Subscribing(0, 0, {0, 1}, Some(0));
    var s3 := Next(s2, InSubscribe(0, SubForward));
    assert {0, 1} - {0} == {1};
    assert s3.jobs[0] == Subscribing(0, 0, {1}, None);
    assert s2.downs == map[0 := Down(0, 0, 1)] && s2.subs == map[0 := Sub(false, map[0 := 0], 1, 0, 0)];
    es := [InSubscribe(0, SubForward)];
    assert Legal(s2, es) && Exec(s2, es) == s3 by { assert es[1..] == []; }
    Prepend(s1, InSubscribe(0, SubAttach(0, 0, true)), es);
    es := [InSubscribe(0, SubAttach(0, 0, true))] + es;
    Prepend(st, Env(SubscribeLock(0, 0, 0)), es);
    es := [Env(SubscribeLock(0, 0, 0))] + es;
  }

  lemma SecondFails(st: State) returns (e: Event)
    requires HalfWay(st)
    ensures Enabled(st, e)
    ensures var st' := Next(st, e);
      && st'.jobs == map[] && st'.failed == {(0, 1)}
      && Registers(st', 0, 0, 0) && !Gone(st', 0, 0) && Covered(st', 0, 0, 0)
      && st'.downs == st.downs && st'.subs == map[0 := Sub(false, map[0 := 0], 1, 0, 1)]
  {
    e := InSubscribe(0, SubAttach(1, 1, false));
    assert Next(st, e).jobs == map[];
  }

  /** A Subscribe that cannot make its second downtrack strands the first: nothing is in flight, no call failed
      for the pair, it is covered, and Negotiate is not told of it. */
  lemma GivingUpStrandsAttachment() returns (es: seq<Event>)
    ensures Legal(INITIAL, es)
    ensures var st := Exec(INITIAL, es);
      && st.jobs == map[] && Registers(st, 0, 0, 0) && !Gone(st, 0, 0) && Covered(st, 0, 0, 0) && (0, 0) !in st.failed
      && 0 in st.downs && 0 in st.subs && st.subs[0].requested < st.downs[0].version && LeftBehind(st, 0)
  {
    var es1 := TwoTracks(INITIAL);
    var es2 := FirstAttached(TWO_TRACKS);
    RunsCompose(INITIAL, es1, es2);
    var e := SecondFails(Exec(TWO_TRACKS, es2));
    assert [e][1..] == [];
    RunsCompose(INITIAL, es1 + es2, [e]);
    es := es1 + es2 + [e];
  }
}
