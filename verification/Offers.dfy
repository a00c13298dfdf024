/** Exactly which pairs end up covered (pkg/sfu/router.go, pkg/sfu/subscriber.go): those for which some call of
    AddDownTrack found the subscriber open and a usable layer. */
module Offers {
  import opened Fabric
  import opened Coverage

  predicate HasForwarder(st: State, r: RouterId, t: TrackId) {
    r in st.routers && t in st.routers[r].forwarders
  }

  /** A track belongs to one router. */
  ghost predicate OneRouter(st: State) {
    && (forall r, t :: HasForwarder(st, r, t) ==> t in st.published)
    && (forall r, r', t :: HasForwarder(st, r, t) && HasForwarder(st, r', t) ==> r == r')
  }

  /** The job is still to look for the subscriber's downtrack and put it into the track's forwarder. */
  predicate WillForward(job: Job, r: RouterId, s: SubId, t: TrackId) {
    Owes(job, r, s, t) && (job.Adding? ==> job.stage != Forwarded(s))
  }

  ghost predicate ForwardOwed(st: State, r: RouterId, s: SubId, t: TrackId) {
    exists j :: j in st.jobs && WillForward(st.jobs[j], r, s, t)
  }

  /** A downtrack somebody has is in its forwarder, or on the way there. */
  ghost predicate EntryHandled(st: State, r: RouterId, s: SubId, t: TrackId) {
    Registers(st, r, s, t) && HasEntry(st, s, t) ==>
      Covered(st, r, s, t) || (s, t) in st.failed || Gone(st, r, s) || ForwardOwed(st, r, s, t)
  }

  ghost predicate EntriesHandled(st: State) {
    forall r, s, t :: EntryHandled(st, r, s, t)
  }

  /** The event is a call of AddDownTrack for the pair. */
  predicate Calls(st: State, e: Event, s: SubId, t: TrackId)
    requires Enabled(st, e)
  {
    || (e.InAdd? && e.a.AddAttach? && e.a.ok && e.a.s == s && st.jobs[e.j].t == t)
    || (e.InSubscribe? && e.b.SubAttach? && e.b.ok && st.jobs[e.j].s == s && e.b.t == t)
  }

  /** ... and finds the subscriber open and a layer to attach. */
  predicate Offers(st: State, e: Event, s: SubId, t: TrackId)
    requires Enabled(st, e)
  {
    Calls(st, e, s, t) && s in st.subs && !st.subs[s].closed && t in st.usable
  }

  predicate Offered(st: State, es: seq<Event>, s: SubId, t: TrackId)
    requires Legal(st, es)
    decreases es
  {
    es != [] && (Offers(st, es[0], s, t) || Offered(Next(st, es[0]), es[1..], s, t))
  }

  lemma EntryStep(st: State, e: Event, s: SubId, t: TrackId)
    requires Enabled(st, e)
    ensures HasEntry(Next(st, e), s, t) <==> HasEntry(st, s, t) || Offers(st, e, s, t)
  {
    Grows(st, e, s, t, 0);
    match e
    case Env(_) =>
    case InAdd(j, a) => assert a.AddAttach? ==> a.s in st.subs;
    case InSubscribe(j, b) => assert b.SubAttach? ==> st.jobs[j].s in st.subs;
  }

  lemma {:induction false} EntryRun(st: State, es: seq<Event>, s: SubId, t: TrackId)
    requires Legal(st, es)
    ensures HasEntry(Exec(st, es), s, t) <==> HasEntry(st, s, t) || Offered(st, es, s, t)
    decreases es
  {
    if es != [] {
      EntryStep(st, es[0], s, t);
      EntryRun(Next(st, es[0]), es[1..], s, t);
    }
  }

  lemma EnvForwarders(st: State, e: EnvEvent, r: RouterId, t: TrackId)
    requires EnvEnabled(st, e) && HasForwarder(EnvNext(st, e), r, t)
    ensures HasForwarder(st, r, t) || (e.Publish? && e.r == r && e.t == t && t !in st.published)
    ensures st.published <= EnvNext(st, e).published && (e.Publish? ==> e.t in EnvNext(st, e).published)
  {
  }

  lemma AddForwarders(st: State, j: JobId, a: AddEvent, r: RouterId, t: TrackId)
    requires AddEnabled(st, j, a) && HasForwarder(AddNext(st, j, a), r, t)
    ensures HasForwarder(st, r, t) && AddNext(st, j, a).published == st.published
  {
  }

  lemma SubForwarders(st: State, j: JobId, b: SubEvent, r: RouterId, t: TrackId)
    requires SubEnabled(st, j, b) && HasForwarder(SubNext(st, j, b), r, t)
    ensures HasForwarder(st, r, t) && SubNext(st, j, b).published == st.published
  {
  }

  lemma ForwardersOnlyPublished(st: State, e: Event, r: RouterId, t: TrackId)
    requires Enabled(st, e) && HasForwarder(Next(st, e), r, t)
    ensures HasForwarder(st, r, t) || (e.Env? && e.env.Publish? && e.env.r == r && e.env.t == t && t !in st.published)
    ensures st.published <= Next(st, e).published && (e.Env? && e.env.Publish? ==> e.env.t in Next(st, e).published)
  {
    match e
    case Env(env) => EnvForwarders(st, env, r, t);
    case InAdd(j, a) => AddForwarders(st, j, a, r, t);
    case InSubscribe(j, b) => SubForwarders(st, j, b, r, t);
  }

  lemma OneRouterStep(st: State, e: Event)
    requires OneRouter(st) && Enabled(st, e)
    ensures OneRouter(Next(st, e))
  {
    var st' := Next(st, e);
    forall r, t | HasForwarder(st', r, t) ensures t in st'.published {
      ForwardersOnlyPublished(st, e, r, t);
    }
    forall r, r', t | HasForwarder(st', r, t) && HasForwarder(st', r', t) ensures r == r' {
      ForwardersOnlyPublished(st, e, r, t);
      ForwardersOnlyPublished(st, e, r', t);
    }
  }

  lemma CoveredKeeps(st: State, e: Event, r: RouterId, s: SubId, t: TrackId)
    requires Sound(st) && Enabled(st, e) && (Covered(st, r, s, t) || (s, t) in st.failed || Gone(st, r, s))
    ensures var st' := Next(st, e); Covered(st', r, s, t) || (s, t) in st'.failed || Gone(st', r, s)
  {
    Grows(st, e, s, t, 0);
    if Covered(st, r, s, t) {
      var d := st.subs[s].downTracks[t];
      assert EntryKnown(st, s, t) && RouterSound(st, r);
      match e {
        case Env(env) => EnvKeepsForwarder(st, env, r, t, d);
        case InAdd(j, a) => AddKeepsForwarder(st, j, a, r, t, d);
        case InSubscribe(j, b) => SubKeepsForwarder(st, j, b, r, t, d);
      }
    } else if r in st.routers {
      RouterStays(st, e, r);
      RouterStep(st, e, r);
    }
  }

  lemma ForwardCovers(st: State, r: RouterId, s: SubId, t: TrackId)
    requires r in st.routers && s in st.subs && t in st.routers[r].forwarders
    requires RouterSound(st, r) && HasEntry(st, s, t)
    ensures var st' := WithForward(st, r, s, t); Covered(st', r, s, t) || Gone(st', r, s)
  {
  }

  /** A job that is to put the downtrack into the forwarder does so, unless it fails before. */
  lemma ForwardIsPaid(st: State, e: Event, j: JobId, r: RouterId, s: SubId, t: TrackId)
    requires Sound(st) && Enabled(st, e) && Acts(e, j) && WillForward(st.jobs[j], r, s, t)
    requires HasEntry(Next(st, e), s, t)
    ensures var st' := Next(st, e);
      || (j in st'.jobs && WillForward(st'.jobs[j], r, s, t))
      || Covered(st', r, s, t) || (s, t) in st'.failed || Gone(st', r, s)
  {
    assert JobSound(st, j) && RouterSound(st, r);
    EntryStep(st, e, s, t);
    match e
    case InAdd(_, a) =>
      if a.AddForward? && st.jobs[j].stage.s == s { ForwardCovers(st, r, s, t); }
    case InSubscribe(_, b) =>
      if b.SubForward? && st.jobs[j].at.value == t { ForwardCovers(st, r, s, t); }
  }

  /** Whoever attaches a downtrack is about to forward it, and to the right router. */
  lemma OfferIsForwarded(st: State, e: Event, r: RouterId, s: SubId, t: TrackId)
    requires Sound(st) && OneRouter(st) && Enabled(st, e) && Offers(st, e, s, t) && Registers(st, r, s, t)
    ensures ForwardOwed(Next(st, e), r, s, t)
  {
    assert JobSound(st, e.j) && RouterSound(st, st.jobs[e.j].r);
    assert HasForwarder(st, st.jobs[e.j].r, t) && HasForwarder(st, r, t);
    assert e.j in Next(st, e).jobs && WillForward(Next(st, e).jobs[e.j], r, s, t);
  }

  lemma NewPairIsForwarded(st: State, e: Event, r: RouterId, s: SubId, t: TrackId)
    requires Enabled(st, e) && Registers(Next(st, e), r, s, t) && !Registers(st, r, s, t)
    ensures ForwardOwed(Next(st, e), r, s, t)
  {
    var st' := Next(st, e);
    assert e.Env? && (e.env.Publish? || e.env.SubscribeLock?);
    assert e.env.j in st'.jobs && WillForward(st'.jobs[e.env.j], r, s, t);
  }

  lemma EntryHandledStep(st: State, e: Event, r: RouterId, s: SubId, t: TrackId)
    requires Sound(st) && OneRouter(st) && EntryHandled(st, r, s, t) && Enabled(st, e)
    ensures EntryHandled(Next(st, e), r, s, t)
  {
    if Registers(Next(st, e), r, s, t) && HasEntry(Next(st, e), s, t) {
      EntryStep(st, e, s, t);
      if !Registers(st, r, s, t) {
        NewPairIsForwarded(st, e, r, s, t);
      } else if Offers(st, e, s, t) {
        OfferIsForwarded(st, e, r, s, t);
      } else if Covered(st, r, s, t) || (s, t) in st.failed || Gone(st, r, s) {
        CoveredKeeps(st, e, r, s, t);
      } else {
        var j :| j in st.jobs && WillForward(st.jobs[j], r, s, t);
        if Acts(e, j) { ForwardIsPaid(st, e, j, r, s, t); } else { OtherJobsStay(st, e, j); }
      }
    }
  }

  lemma {:induction false} HandledRun(st: State, es: seq<Event>)
    requires Sound(st) && OneRouter(st) && EntriesHandled(st) && Legal(st, es)
    ensures EntriesHandled(Exec(st, es))
    decreases es
  {
    if es != [] {
      SoundStep(st, es[0]);
      OneRouterStep(st, es[0]);
      forall r, s, t ensures EntryHandled(Next(st, es[0]), r, s, t) {
        EntryHandledStep(st, es[0], r, s, t);
      }
      HandledRun(Next(st, es[0]), es[1..]);
    }
  }

  /** Exact coverage. When nothing is in flight, and unless a call failed for the pair or one of the two has
      closed, a registered subscriber has its downtrack in the track's forwarder exactly when some
      AddDownTrack for the pair came while the track had a usable layer. A layer that comes after
      the last of these calls helps nobody. */
  lemma CoveredExactlyWhenOffered(es: seq<Event>, r: RouterId, s: SubId, t: TrackId)
    requires Legal(INITIAL, es)
    requires var st := Exec(INITIAL, es);
      st.jobs == map[] && Registers(st, r, s, t) && !Gone(st, r, s) && (s, t) !in st.failed
    ensures Covered(Exec(INITIAL, es), r, s, t) <==> Offered(INITIAL, es, s, t)
  {
    HandledRun(INITIAL, es);
    EntryRun(INITIAL, es, s, t);
    assert EntryHandled(Exec(INITIAL, es), r, s, t);
  }
}
