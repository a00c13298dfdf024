/** The routing fabric and the renegotiation protocol together: what a subscriber finally gets. */
module EndToEnd {
  import C = Coverage
  import F = Fabric
  import O = Offers
  import N = Negotiation

  /** The fabric, and for each of its subscribers the negotiation at work on its connection. */
  datatype World = World(fabric: F.State, neg: map<F.SubId, N.State>)

  const INITIAL := World(F.INITIAL, map[])

  /** A step of the fabric, or a step of one subscriber's negotiation that is not a consequence of one. */
  datatype Event = Route(e: F.Event) | Negotiate(s: F.SubId, n: N.Event)

  /** What a step of the fabric does to the connections. */
  datatype Effect = Nothing | Joins(s: F.SubId) | Does(s: F.SubId, n: N.Event)

  function EffectOf(st: F.State, e: F.Event): Effect
    requires F.Enabled(st, e)
  {
    match e
    case Env(NewSub(s)) => Joins(s)
    case Env(CloseSub(s)) => Does(s, N.Close)
    case Env(_) => Nothing
    case InAdd(j, AddAttach(s, _, ok)) => if ok && F.AttachesIn(st, s, st.jobs[j].t) then Does(s, N.Attach) else Nothing
    case InAdd(j, AddNegotiate) => Does(st.jobs[j].stage.s, N.Call)
    case InAdd(_, _) => Nothing
    case InSubscribe(j, SubAttach(t, _, ok)) =>
      if ok && F.AttachesIn(st, st.jobs[j].s, t) then Does(st.jobs[j].s, N.Attach) else Nothing
    case InSubscribe(j, SubNegotiate) => Does(st.jobs[j].s, N.Call)
    case InSubscribe(_, _) => Nothing
  }

  predicate Enabled(w: World, e: Event) {
    match e
    case Route(f) => F.Enabled(w.fabric, f) && (var x := EffectOf(w.fabric, f); x.Does? ==> x.s in w.neg)
    case Negotiate(s, n) => s in w.neg && !(n.Attach? || n.Call? || n.Close?) && N.Enabled(w.neg[s], n)
  }

  function Next(w: World, e: Event): World
    requires Enabled(w, e)
  {
    match e
    case Route(f) =>
      World(F.Next(w.fabric, f),
            match EffectOf(w.fabric, f)
            case Nothing => w.neg
            case Joins(s) => w.neg[s := N.INITIAL]
            case Does(s, n) => w.neg[s := N.Next(w.neg[s], n)])
    case Negotiate(s, n) => w.(neg := w.neg[s := N.Next(w.neg[s], n)])
  }

  predicate Legal(w: World, es: seq<Event>)
    decreases es
  {
    es == [] || (Enabled(w, es[0]) && Legal(Next(w, es[0]), es[1..]))
  }

  function Exec(w: World, es: seq<Event>): World
    requires Legal(w, es)
    decreases es
  {
    if es == [] then w else Exec(Next(w, es[0]), es[1..])
  }

  /** The two halves agree on one subscriber. */
  predicate Agrees(sub: F.Sub, n: N.State) {
    n.media == sub.media && n.fields.closed == sub.closed && n.requested >= sub.requested
  }

  ghost predicate Inv(w: World) {
    && C.Inv(w.fabric)
    && w.neg.Keys == w.fabric.subs.Keys
    && (forall s :: s in w.neg ==> Half(w, s))
  }

  /** The fabric has moved, and one subscriber with it, exactly as the effect moves the connection. */
  predicate Matches(st': F.State, s: F.SubId, x: Effect, n: N.State) {
    s in st'.subs &&
    if x.Does? && x.s == s then N.Enabled(n, x.n) && Agrees(st'.subs[s], N.Next(n, x.n)) else Agrees(st'.subs[s], n)
  }

  lemma EnvMatches(st: F.State, e: F.EnvEvent, s: F.SubId, n: N.State)
    requires F.EnvEnabled(st, e) && s in st.subs && Agrees(st.subs[s], n)
    ensures Matches(F.EnvNext(st, e), s, EffectOf(st, F.Env(e)), n)
  {
  }

  lemma AddMatches(st: F.State, j: F.JobId, a: F.AddEvent, s: F.SubId, n: N.State)
    requires F.AddEnabled(st, j, a) && s in st.subs && Agrees(st.subs[s], n)
    ensures Matches(F.AddNext(st, j, a), s, EffectOf(st, F.InAdd(j, a)), n)
  {
  }

  lemma SubMatches(st: F.State, j: F.JobId, b: F.SubEvent, s: F.SubId, n: N.State)
    requires F.SubEnabled(st, j, b) && s in st.subs && Agrees(st.subs[s], n)
    ensures Matches(F.SubNext(st, j, b), s, EffectOf(st, F.InSubscribe(j, b)), n)
  {
  }

  lemma EffectMatches(st: F.State, e: F.Event, s: F.SubId, n: N.State)
    requires F.Enabled(st, e) && s in st.subs && Agrees(st.subs[s], n)
    ensures Matches(F.Next(st, e), s, EffectOf(st, e), n)
  {
    match e
    case Env(env) => EnvMatches(st, env, s, n);
    case InAdd(j, a) => AddMatches(st, j, a, s, n);
    case InSubscribe(j, b) => SubMatches(st, j, b, s, n);
  }

  /** Subscribers appear only when they join, with nothing attached. */
  predicate Newcomer(st: F.State, st': F.State, x: Effect) {
    if x.Joins? then x.s !in st.subs && st'.subs == st.subs[x.s := F.Sub(false, map[], 0, 0, 0)]
    else st'.subs.Keys == st.subs.Keys
  }

  lemma NewcomersOnly(st: F.State, e: F.Event)
    requires F.Enabled(st, e)
    ensures Newcomer(st, F.Next(st, e), EffectOf(st, e))
  {
    match e
    case Env(env) =>
      assert Newcomer(st, F.EnvNext(st, env), EffectOf(st, e));
    case InAdd(j, a) =>
      assert F.AddNext(st, j, a).subs.Keys == st.subs.Keys;
    case InSubscribe(j, b) =>
      assert F.SubNext(st, j, b).subs.Keys == st.subs.Keys;
  }

  /** What Inv says of one subscriber. */
  ghost predicate Half(w: World, s: F.SubId) {
    s in w.neg && s in w.fabric.subs && N.Inv(w.neg[s]) && Agrees(w.fabric.subs[s], w.neg[s])
  }

  lemma RouteKeepsHalf(w: World, f: F.Event, s: F.SubId)
    requires Enabled(w, Route(f)) && Half(w, s)
    ensures Half(Next(w, Route(f)), s)
  {
    var x := EffectOf(w.fabric, f);
    EffectMatches(w.fabric, f, s, w.neg[s]);
    NewcomersOnly(w.fabric, f);
    if x.Does? && x.s == s { N.InvStep(w.neg[s], x.n); }
  }

  lemma NegotiateKeepsHalf(w: World, s: F.SubId, n: N.Event, x: F.SubId)
    requires Enabled(w, Negotiate(s, n)) && Half(w, s) && Half(w, x)
    ensures Half(Next(w, Negotiate(s, n)), x)
  {
    N.InvStep(w.neg[s], n);
  }

  lemma RouteKeepsKeys(w: World, f: F.Event)
    requires Enabled(w, Route(f)) && w.neg.Keys == w.fabric.subs.Keys
    ensures Next(w, Route(f)).neg.Keys == Next(w, Route(f)).fabric.subs.Keys
    ensures forall s :: s in Next(w, Route(f)).neg && s !in w.neg ==> Half(Next(w, Route(f)), s)
  {
    NewcomersOnly(w.fabric, f);
  }

  lemma RouteKeepsInv(w: World, f: F.Event)
    requires Inv(w) && Enabled(w, Route(f))
    ensures Inv(Next(w, Route(f)))
  {
    C.InvStep(w.fabric, f);
    RouteKeepsKeys(w, f);
    forall s | s in Next(w, Route(f)).neg ensures Half(Next(w, Route(f)), s) {
      if s in w.neg {
        assert Half(w, s);
        RouteKeepsHalf(w, f, s);
      }
    }
  }

  lemma NegotiateKeepsInv(w: World, s: F.SubId, n: N.Event)
    requires Inv(w) && Enabled(w, Negotiate(s, n))
    ensures Inv(Next(w, Negotiate(s, n)))
  {
    var w' := Next(w, Negotiate(s, n));
    assert w'.fabric == w.fabric && w'.neg.Keys == w.neg.Keys;
    forall x | x in w'.neg ensures Half(w', x) {
      assert Half(w, s) && Half(w, x);
      NegotiateKeepsHalf(w, s, n, x);
    }
  }

  lemma InvStep(w: World, e: Event)
    requires Inv(w) && Enabled(w, e)
    ensures Inv(Next(w, e))
  {
    match e
    case Route(f) => RouteKeepsInv(w, f);
    case Negotiate(s, n) => NegotiateKeepsInv(w, s, n);
  }

  lemma {:induction false} InvRun(w: World, es: seq<Event>)
    requires Inv(w) && Legal(w, es)
    ensures Inv(Exec(w, es))
    decreases es
  {
    if es != [] {
      InvStep(w, es[0]);
      InvRun(Next(w, es[0]), es[1..]);
    }
  }

  /** A connection is at rest: no goroutine is at work on it and no call on it has failed. */
  predicate AtRest(w: World, s: F.SubId) {
    s in w.neg && N.Quiescent(w.neg[s]) && w.neg[s].errors == 0
  }

  /** End to end. When no AddTrack and no Subscribe is in flight and the connection is at rest, an open
      subscriber of an open router has, for every track that was published with a usable layer and
      whose pion calls for it did not fail, exactly one downtrack; it is in the track's forwarder, and
      an offer that covers it has been sent. */
  lemma Delivered(es: seq<Event>, r: F.RouterId, s: F.SubId, t: F.TrackId)
    requires Legal(INITIAL, es)
    requires var w := Exec(INITIAL, es); var st := w.fabric;
      && st.jobs == map[] && AtRest(w, s) && C.CaughtUp(st, s)
      && C.Registers(st, r, s, t) && !F.Gone(st, r, s)
      && t in st.ready && (s, t) !in st.failed
    ensures var w := Exec(INITIAL, es); var st := w.fabric;
      && F.HasEntry(st, s, t)
      && var d := st.subs[s].downTracks[t];
         && F.InForwarder(st, r, t, d) && d in st.downs
         && st.downs[d].sub == s && st.downs[d].track == t
         && (forall d' :: d' in st.downs && st.downs[d'].sub == s && st.downs[d'].track == t ==> d' == d)
         && st.downs[d].version <= w.neg[s].sent
  {
    InvRun(INITIAL, es);
    var w := Exec(INITIAL, es);
    assert Half(w, s);
    C.CoveredWhenIdle(w.fabric, r, s, t);
    assert w.neg[s].requested <= w.neg[s].sent;
  }

  /** The steps of the fabric in a run. */
  function Routes(es: seq<Event>): seq<F.Event>
    decreases es
  {
    if es == [] then [] else if es[0].Route? then [es[0].e] + Routes(es[1..]) else Routes(es[1..])
  }

  lemma {:induction false} RoutesRun(w: World, es: seq<Event>)
    requires Legal(w, es)
    ensures F.Legal(w.fabric, Routes(es)) && F.Exec(w.fabric, Routes(es)) == Exec(w, es).fabric
    decreases es
  {
    if es != [] {
      RoutesRun(Next(w, es[0]), es[1..]);
      if es[0].Route? {
        assert Routes(es)[1..] == Routes(es[1..]);
      }
    }
  }

  /** The subscriber has a downtrack for the track, its forwarder feeds it, and an offer with it was sent. */
  predicate Receives(w: World, r: F.RouterId, s: F.SubId, t: F.TrackId) {
    F.Covered(w.fabric, r, s, t) && s in w.neg
    && var d := w.fabric.subs[s].downTracks[t]; d in w.fabric.downs && w.fabric.downs[d].version <= w.neg[s].sent
  }

  /** End to end, exactly. With nothing in flight, the connection at rest and no failed call for the pair, an
      open subscriber of an open router receives a track if and only if some AddDownTrack for the pair
      came while the track had a usable layer. */
  lemma ReceivesExactlyWhenOffered(es: seq<Event>, r: F.RouterId, s: F.SubId, t: F.TrackId)
    requires Legal(INITIAL, es)
    requires var w := Exec(INITIAL, es); var st := w.fabric;
      && st.jobs == map[] && AtRest(w, s) && C.CaughtUp(st, s)
      && C.Registers(st, r, s, t) && !F.Gone(st, r, s) && (s, t) !in st.failed
    ensures F.Legal(F.INITIAL, Routes(es))
    ensures Receives(Exec(INITIAL, es), r, s, t) <==> O.Offered(F.INITIAL, Routes(es), s, t)
  {
    InvRun(INITIAL, es);
    RoutesRun(INITIAL, es);
    assert Half(Exec(INITIAL, es), s);
    O.CoveredExactlyWhenOffered(Routes(es), r, s, t);
    if F.Covered(Exec(INITIAL, es).fabric, r, s, t) {
      CoveredIsSent(Exec(INITIAL, es), r, s, t);
    }
  }

  /** With nothing in flight, the downtracks in the forwarders are covered by offers that were sent. */
  lemma CoveredIsSent(w: World, r: F.RouterId, s: F.SubId, t: F.TrackId)
    requires C.Inv(w.fabric) && w.fabric.jobs == map[] && Half(w, s) && AtRest(w, s)
    requires C.CaughtUp(w.fabric, s) && !w.fabric.subs[s].closed && F.Covered(w.fabric, r, s, t)
    ensures Receives(w, r, s, t)
  {
    var d := w.fabric.subs[s].downTracks[t];
    assert F.EntryKnown(w.fabric, s, t) && C.Asked(w.fabric, d);
    assert w.neg[s].requested <= w.neg[s].sent;
  }
}
