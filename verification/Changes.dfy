/** What every step of the routing fabric changes (pkg/sfu/router.go, pkg/sfu/forwarder.go, pkg/sfu/subscriber.go): for
    each fact exactly the events that make it true and those that end it, and what follows for whole runs. */
module Changes {
  import opened Fabric
  import C = Coverage
  import opened O = Offers

  // ---------------------------------------------------------------- forwarders

  /** The job puts the subscriber's downtrack for the track into a forwarder of the router. */
  predicate JobForwards(st: State, e: Event, r: RouterId, s: SubId, t: TrackId)
    requires Enabled(st, e)
  {
    match e
    case Env(_) => false
    case InAdd(j, a) => a.AddForward? && st.jobs[j].r == r && st.jobs[j].t == t && st.jobs[j].stage.s == s
    case InSubscribe(j, b) => b.SubForward? && st.jobs[j].r == r && st.jobs[j].at.value == t && st.jobs[j].s == s
  }

  /** ... and that is the downtrack in question, and the forwarder is open. */
  ghost predicate Feeds(st: State, e: Event, r: RouterId, t: TrackId, d: DownId)
    requires Enabled(st, e)
  {
    HasForwarder(st, r, t) && !st.routers[r].forwarders[t].closed &&
    exists s :: JobForwards(st, e, r, s, t) && HasEntry(st, s, t) && st.subs[s].downTracks[t] == d
  }

  lemma EnvForwarder(st: State, e: EnvEvent, r: RouterId, t: TrackId, d: DownId)
    requires EnvEnabled(st, e) && (r in st.routers ==> RouterSound(st, r))
    ensures InForwarder(EnvNext(st, e), r, t, d) <==> InForwarder(st, r, t, d) && e != WriteError(r, t, d)
  {
  }

  lemma AddForwarder(st: State, j: JobId, a: AddEvent, r: RouterId, t: TrackId, d: DownId)
    requires AddEnabled(st, j, a)
    ensures InForwarder(AddNext(st, j, a), r, t, d) <==> InForwarder(st, r, t, d) || Feeds(st, InAdd(j, a), r, t, d)
  {
    if a.AddForward? {
      assert JobForwards(st, InAdd(j, a), st.jobs[j].r, st.jobs[j].stage.s, st.jobs[j].t);
    }
  }

  lemma SubForwarder(st: State, j: JobId, b: SubEvent, r: RouterId, t: TrackId, d: DownId)
    requires SubEnabled(st, j, b)
    ensures InForwarder(SubNext(st, j, b), r, t, d) <==>
      InForwarder(st, r, t, d) || Feeds(st, InSubscribe(j, b), r, t, d)
  {
    if b.SubForward? {
      assert JobForwards(st, InSubscribe(j, b), st.jobs[j].r, st.jobs[j].s, st.jobs[j].at.value);
    }
  }

  /** A downtrack is in a forwarder exactly as long as it has been put there while the forwarder was open, and no
      write to it has failed since. */
  lemma ForwarderStep(st: State, e: Event, r: RouterId, t: TrackId, d: DownId)
    requires Sound(st) && Enabled(st, e)
    ensures InForwarder(Next(st, e), r, t, d) <==>
      (InForwarder(st, r, t, d) && e != Env(WriteError(r, t, d))) || Feeds(st, e, r, t, d)
  {
    match e
    case Env(env) => EnvForwarder(st, env, r, t, d);
    case InAdd(j, a) => AddForwarder(st, j, a, r, t, d);
    case InSubscribe(j, b) => SubForwarder(st, j, b, r, t, d);
  }

  // ---------------------------------------------------------------- routers

  predicate Subscribed(st: State, r: RouterId, s: SubId) {
    r in st.routers && s in st.routers[r].subscribers
  }

  predicate RouterClosed(st: State, r: RouterId) {
    r in st.routers && st.routers[r].closed
  }

  predicate ForwarderClosed(st: State, r: RouterId, t: TrackId) {
    HasForwarder(st, r, t) && st.routers[r].forwarders[t].closed
  }

  predicate Locks(e: Event, r: RouterId, s: SubId) {
    e.Env? && e.env.SubscribeLock? && e.env.r == r && e.env.s == s
  }

  predicate Publishes(e: Event, r: RouterId, t: TrackId) {
    e.Env? && e.env.Publish? && e.env.r == r && e.env.t == t
  }

  lemma EnvRouterFacts(st: State, e: EnvEvent, r: RouterId, s: SubId, t: TrackId)
    requires EnvEnabled(st, e) && (r in st.routers ==> RouterSound(st, r))
    ensures var st' := EnvNext(st, e);
      && (Subscribed(st', r, s) <==> (Subscribed(st, r, s) && e != Unsubscribe(r, s)) || Locks(Env(e), r, s))
      && (RouterClosed(st', r) <==> RouterClosed(st, r) || e == CloseRouter(r))
      && (HasForwarder(st', r, t) <==> HasForwarder(st, r, t) || (Publishes(Env(e), r, t) && !RouterClosed(st, r)))
      && (ForwarderClosed(st', r, t) <==> ForwarderClosed(st, r, t) || e == CloseForwarder(r, t))
  {
  }

  lemma AddRouterFacts(st: State, j: JobId, a: AddEvent, r: RouterId, s: SubId, t: TrackId)
    requires AddEnabled(st, j, a)
    ensures var st' := AddNext(st, j, a);
      && (Subscribed(st', r, s) <==> Subscribed(st, r, s)) && (RouterClosed(st', r) <==> RouterClosed(st, r))
      && (HasForwarder(st', r, t) <==> HasForwarder(st, r, t))
      && (ForwarderClosed(st', r, t) <==> ForwarderClosed(st, r, t))
  {
  }

  lemma SubRouterFacts(st: State, j: JobId, b: SubEvent, r: RouterId, s: SubId, t: TrackId)
    requires SubEnabled(st, j, b)
    ensures var st' := SubNext(st, j, b);
      && (Subscribed(st', r, s) <==> Subscribed(st, r, s)) && (RouterClosed(st', r) <==> RouterClosed(st, r))
      && (HasForwarder(st', r, t) <==> HasForwarder(st, r, t))
      && (ForwarderClosed(st', r, t) <==> ForwarderClosed(st, r, t))
  {
  }

  /** A router has a subscriber from the Subscribe that takes its lock until it is unsubscribed; it is closed, and a
      forwarder of its, from their Close on; and it has a track exactly if AddTrack came before it was closed. */
  lemma RouterFactsStep(st: State, e: Event, r: RouterId, s: SubId, t: TrackId)
    requires Sound(st) && Enabled(st, e)
    ensures var st' := Next(st, e);
      && (Subscribed(st', r, s) <==> (Subscribed(st, r, s) && e != Env(Unsubscribe(r, s))) || Locks(e, r, s))
      && (RouterClosed(st', r) <==> RouterClosed(st, r) || e == Env(CloseRouter(r)))
      && (HasForwarder(st', r, t) <==> HasForwarder(st, r, t) || (Publishes(e, r, t) && !RouterClosed(st, r)))
      && (ForwarderClosed(st', r, t) <==> ForwarderClosed(st, r, t) || e == Env(CloseForwarder(r, t)))
  {
    match e
    case Env(env) => EnvRouterFacts(st, env, r, s, t);
    case InAdd(j, a) => AddRouterFacts(st, j, a, r, s, t);
    case InSubscribe(j, b) => SubRouterFacts(st, j, b, r, s, t);
  }

  // ---------------------------------------------------------------- subscribers

  /** A failing AddDownTrack for the pair, or a write to its downtrack that fails. */
  predicate Fails(st: State, e: Event, s: SubId, t: TrackId)
    requires Enabled(st, e)
  {
    match e
    case Env(env) => env.WriteError? && env.t == t && st.downs[env.d].sub == s
    case InAdd(j, a) => a.AddAttach? && !a.ok && a.s == s && st.jobs[j].t == t
    case InSubscribe(j, b) => b.SubAttach? && !b.ok && st.jobs[j].s == s && t in st.jobs[j].tracks
  }

  predicate GivesUp(st: State, e: Event, s: SubId)
    requires Enabled(st, e)
  {
    e.InSubscribe? && e.b.SubAttach? && !e.b.ok && st.jobs[e.j].s == s
  }

  /** The event is a call of AddDownTrack that finds the subscriber open, without a downtrack for the track, and no
      usable layer. */
  predicate PassesOver(st: State, e: Event, s: SubId, t: TrackId)
    requires Enabled(st, e)
  {
    && Calls(st, e, s, t) && s in st.subs && !st.subs[s].closed
    && t !in st.subs[s].downTracks && t !in st.usable
  }

  /** The event publishes the track, on an open router and with a usable layer. */
  predicate Readies(st: State, e: Event, t: TrackId) {
    e.Env? && e.env.Publish? && e.env.t == t && !RouterClosed(st, e.env.r) && t in st.usable
  }

  /** What a subscriber's fields and the records become. */
  predicate SubscriberFacts(st: State, e: Event, st': State, s: SubId, t: TrackId)
    requires Enabled(st, e)
  {
    && (s in st'.subs <==> s in st.subs || e == Env(NewSub(s)))
    && (s in st.subs && s in st'.subs ==>
          && (st'.subs[s].closed <==> st.subs[s].closed || e == Env(CloseSub(s)))
          && st'.subs[s].gaveUp == (if GivesUp(st, e, s) then st.subs[s].media else st.subs[s].gaveUp))
    && (t in st'.usable <==> t in st.usable || e == Env(LayerUsable(t)))
    && (t in st'.ready <==> t in st.ready || Readies(st, e, t))
    && ((s, t) in st'.failed <==> (s, t) in st.failed || Fails(st, e, s, t))
    && ((s, t) in st'.skipped <==> (s, t) in st.skipped || PassesOver(st, e, s, t))
  }

  lemma EnvSubscriberFacts(st: State, e: EnvEvent, s: SubId, t: TrackId)
    requires EnvEnabled(st, e)
    ensures SubscriberFacts(st, Env(e), EnvNext(st, e), s, t)
  {
  }

  lemma AddSubscriberFacts(st: State, j: JobId, a: AddEvent, s: SubId, t: TrackId)
    requires AddEnabled(st, j, a)
    ensures SubscriberFacts(st, InAdd(j, a), AddNext(st, j, a), s, t)
  {
  }

  lemma SubSubscriberFacts(st: State, j: JobId, b: SubEvent, s: SubId, t: TrackId)
    requires SubEnabled(st, j, b)
    ensures SubscriberFacts(st, InSubscribe(j, b), SubNext(st, j, b), s, t)
  {
  }

  /** A subscriber closes by Close only, and only failed calls and layers that were missing go on record. */
  lemma SubscriberFactsStep(st: State, e: Event, s: SubId, t: TrackId)
    requires Enabled(st, e)
    ensures SubscriberFacts(st, e, Next(st, e), s, t)
  {
    match e
    case Env(env) => EnvSubscriberFacts(st, env, s, t);
    case InAdd(j, a) => AddSubscriberFacts(st, j, a, s, t);
    case InSubscribe(j, b) => SubSubscriberFacts(st, j, b, s, t);
  }

  /** Nothing protects the fabric from its surroundings: layers come, writes and pion calls fail and objects close at
      any time, short of a router that a Subscribe has locked. */
  lemma AnythingMayFailOrClose(st: State, j: JobId, r: RouterId, s: SubId, t: TrackId, d: DownId)
    ensures EnvEnabled(st, LayerUsable(t))
    ensures s !in st.subs ==> EnvEnabled(st, NewSub(s))
    ensures r !in st.routers ==> EnvEnabled(st, NewRouter(r))
    ensures s in st.subs ==> EnvEnabled(st, CloseSub(s))
    ensures r in st.routers && st.routers[r].holder.None? ==>
      EnvEnabled(st, CloseRouter(r)) && (s in st.subs && st.subs[s].closed ==> EnvEnabled(st, Unsubscribe(r, s)))
    ensures RouterClosed(st, r) && HasForwarder(st, r, t) ==> EnvEnabled(st, CloseForwarder(r, t))
    ensures InForwarder(st, r, t, d) && d in st.downs ==> EnvEnabled(st, WriteError(r, t, d))
    ensures j in st.jobs && s in st.subs && AttachesIn(st, s, t) && d !in st.downs ==>
      && (st.jobs[j].Adding? && st.jobs[j].t == t && st.jobs[j].stage.Idle? && s in st.jobs[j].todo ==>
            AddEnabled(st, j, AddAttach(s, d, false)))
      && (st.jobs[j].Subscribing? && st.jobs[j].s == s && st.jobs[j].at.None? && t in st.jobs[j].tracks &&
          st.jobs[j].r in st.routers ==>
            SubEnabled(st, j, SubAttach(t, d, false)))
  {
  }

  // ---------------------------------------------------------------- closed for good

  /** AddTrack on a closed router changes no router and starts nothing. */
  lemma PublishOnClosedRouter(st: State, r: RouterId, t: TrackId, j: JobId)
    requires EnvEnabled(st, Publish(r, t, j)) && RouterClosed(st, r)
    ensures var st' := EnvNext(st, Publish(r, t, j)); st'.routers == st.routers && st'.jobs == st.jobs
  {
  }

  lemma {:induction false} SealedRun(st: State, es: seq<Event>, r: RouterId, t: TrackId, d: DownId)
    requires Sound(st) && Legal(st, es)
    ensures RouterClosed(st, r) ==>
      RouterClosed(Exec(st, es), r) && (HasForwarder(Exec(st, es), r, t) <==> HasForwarder(st, r, t))
    ensures ForwarderClosed(st, r, t) ==>
      ForwarderClosed(Exec(st, es), r, t) && (InForwarder(Exec(st, es), r, t, d) ==> InForwarder(st, r, t, d))
    decreases es
  {
    if es != [] {
      SoundStep(st, es[0]);
      RouterFactsStep(st, es[0], r, 0, t);
      ForwarderStep(st, es[0], r, t, d);
      SealedRun(Next(st, es[0]), es[1..], r, t, d);
    }
  }

  /** Whatever comes after a router has closed, it gains no track; and whatever comes after a forwarder has closed, it
      gains no downtrack. */
  lemma ClosedIsSealed(es: seq<Event>, e: EnvEvent, fs: seq<Event>, r: RouterId, t: TrackId, d: DownId)
    requires Legal(INITIAL, es) && EnvEnabled(Exec(INITIAL, es), e)
    requires Legal(EnvNext(Exec(INITIAL, es), e), fs)
    ensures var st := Exec(INITIAL, es); var st' := Exec(EnvNext(st, e), fs);
      && (e == CloseRouter(r) ==> (HasForwarder(st', r, t) <==> HasForwarder(st, r, t)))
      && (e == CloseForwarder(r, t) ==> (InForwarder(st', r, t, d) ==> InForwarder(st, r, t, d)))
  {
    C.InvRun(INITIAL, es);
    var st := Exec(INITIAL, es);
    SoundStep(st, Env(e));
    RouterFactsStep(st, Env(e), r, 0, t);
    ForwarderStep(st, Env(e), r, t, d);
    SealedRun(Next(st, Env(e)), fs, r, t, d);
  }

  // ---------------------------------------------------------------- only subscribers receive

  /** The subscriptions of a run: who has subscribed to which router. */
  function Subscriptions(es: seq<Event>): set<(RouterId, SubId)>
    decreases es
  {
    if es == [] then {}
    else Subscriptions(es[1..]) +
         if es[0].Env? && es[0].env.SubscribeLock? then {(es[0].env.r, es[0].env.s)} else {}
  }

  /** The job is at work for a subscription. */
  predicate JobWanted(job: Job, wanted: set<(RouterId, SubId)>) {
    match job
    case Adding(r, _, todo, _) => forall s :: s in todo ==> (r, s) in wanted
    case Subscribing(r, s, _, _) => (r, s) in wanted
    case Calling(_) => true
  }

  /** A downtrack belongs to a subscription to the router its track is with. */
  ghost predicate EntryWanted(st: State, wanted: set<(RouterId, SubId)>, s: SubId, t: TrackId) {
    HasEntry(st, s, t) ==> exists r: RouterId :: HasForwarder(st, r, t) && (r, s) in wanted
  }

  ghost predicate AllWanted(st: State, wanted: set<(RouterId, SubId)>) {
    && (forall r: RouterId, s: SubId :: Subscribed(st, r, s) ==> (r, s) in wanted)
    && (forall j :: j in st.jobs ==> JobWanted(st.jobs[j], wanted))
    && (forall s: SubId, t: TrackId :: EntryWanted(st, wanted, s, t))
  }

  lemma NewJobWanted(st: State, e: EnvEvent, wanted: set<(RouterId, SubId)>)
    requires EnvEnabled(st, e) && (e.Publish? || e.SubscribeLock?) && e.j in EnvNext(st, e).jobs
    requires forall r: RouterId, s: SubId :: Subscribed(st, r, s) ==> (r, s) in wanted
    ensures JobWanted(EnvNext(st, e).jobs[e.j], wanted + Subscriptions([Env(e)]))
  {
    if e.Publish? {
      assert forall s :: s in st.routers[e.r].subscribers ==> Subscribed(st, e.r, s);
    }
  }

  lemma JobStaysWanted(st: State, e: Event, wanted: set<(RouterId, SubId)>)
    requires Enabled(st, e) && !e.Env? && JobWanted(st.jobs[e.j], wanted) && e.j in Next(st, e).jobs
    ensures JobWanted(Next(st, e).jobs[e.j], wanted)
  {
  }

  lemma OfferedIsWanted(st: State, e: Event, wanted: set<(RouterId, SubId)>, s: SubId, t: TrackId)
    requires Sound(st) && Enabled(st, e) && O.Offers(st, e, s, t) && JobWanted(st.jobs[e.j], wanted)
    ensures HasForwarder(st, st.jobs[e.j].r, t) && (st.jobs[e.j].r, s) in wanted
  {
    assert JobSound(st, e.j) && RouterSound(st, st.jobs[e.j].r);
  }

  lemma AllWantedStep(st: State, e: Event, wanted: set<(RouterId, SubId)>)
    requires Sound(st) && Enabled(st, e) && AllWanted(st, wanted)
    ensures AllWanted(Next(st, e), wanted + Subscriptions([e]))
  {
    var st', wanted' := Next(st, e), wanted + Subscriptions([e]);
    forall r: RouterId, s: SubId | Subscribed(st', r, s) ensures (r, s) in wanted' {
      RouterFactsStep(st, e, r, s, 0);
    }
    forall j | j in st'.jobs ensures JobWanted(st'.jobs[j], wanted') {
      if !Acts(e, j) {
        OtherJobsStay(st, e, j);
        if j !in st.jobs { NewJobWanted(st, e.env, wanted); }
      } else {
        JobStaysWanted(st, e, wanted);
      }
    }
    forall s: SubId, t: TrackId ensures EntryWanted(st', wanted', s, t) {
      EntryStep(st, e, s, t);
      if O.Offers(st, e, s, t) {
        OfferedIsWanted(st, e, wanted, s, t);
        RouterFactsStep(st, e, st.jobs[e.j].r, s, t);
      } else if HasEntry(st, s, t) {
        assert EntryWanted(st, wanted, s, t);
        var r: RouterId :| HasForwarder(st, r, t) && (r, s) in wanted;
        RouterFactsStep(st, e, r, s, t);
      }
    }
  }

  lemma {:induction false} AllWantedRun(st: State, es: seq<Event>, wanted: set<(RouterId, SubId)>)
    requires Sound(st) && AllWanted(st, wanted) && Legal(st, es)
    ensures AllWanted(Exec(st, es), wanted + Subscriptions(es))
    decreases es
  {
    if es == [] {
      assert wanted + Subscriptions(es) == wanted;
    } else {
      SoundStep(st, es[0]);
      AllWantedStep(st, es[0], wanted);
      AllWantedRun(Next(st, es[0]), es[1..], wanted + Subscriptions([es[0]]));
      assert [es[0]][1..] == [];
      assert wanted + Subscriptions([es[0]]) + Subscriptions(es[1..]) == wanted + Subscriptions(es);
    }
  }

  /** Nobody is sent what it has not subscribed to: a downtrack belongs to a Subscribe of that subscriber to the router
      that has the track. */
  lemma OnlySubscribersReceive(es: seq<Event>, s: SubId, t: TrackId)
    requires Legal(INITIAL, es) && HasEntry(Exec(INITIAL, es), s, t)
    ensures exists r: RouterId :: HasForwarder(Exec(INITIAL, es), r, t) && (r, s) in Subscriptions(es)
  {
    AllWantedRun(INITIAL, es, {});
    assert {} + Subscriptions(es) == Subscriptions(es);
    assert EntryWanted(Exec(INITIAL, es), Subscriptions(es), s, t);
  }
}
