/** The routing fabric (pkg/sfu/router.go, pkg/sfu/forwarder.go, pkg/sfu/subscriber.go): which subscriber
    has a downtrack for which track, while routers publish tracks and subscribers come and go.

    Router.AddTrack works on a snapshot of the subscribers after it has released the router's lock;
    Router.Subscribe keeps the lock while it goes through the tracks. Every critical section is one
    event, any number of both are in flight, and maps are walked in any order. */
module Fabric {
  import opened Values

  type SubId = nat
  type RouterId = nat
  type TrackId = nat
  type DownId = nat
  type JobId = nat

  /** A downtrack: whose, of which track, and the media version its attachment made. */
  datatype Down = Down(sub: SubId, track: TrackId, version: nat)

  /** A subscriber: its downtracks by track ID, the number of tracks attached to its connection, the media
      version at its last accepted call of Negotiate, and, as history, the media version at which one of
      its Subscribes last gave up before Negotiate, zero if none has. */
  datatype Sub = Sub(closed: bool, downTracks: map<TrackId, DownId>, media: nat, requested: nat, gaveUp: nat)

  datatype Forwarder = Forwarder(downTracks: set<DownId>, closed: bool)

  /** A router: its tracks are the keys of `forwarders`; `holder` is the Subscribe that has the lock. */
  datatype Router = Router(closed: bool, forwarders: map<TrackId, Forwarder>, subscribers: set<SubId>,
                           holder: Option<JobId>)

  /** How far AddTrack is with the subscriber it is working on. */
  datatype Stage = Idle | Attached(s: SubId) | Forwarded(s: SubId)

  /** A goroutine inside Router.AddTrack after the lock, inside Router.Subscribe with the lock, or in
      Subscriber.Subscribe between Router.Subscribe and Negotiate. */
  datatype Job =
    | Adding(r: RouterId, t: TrackId, todo: set<SubId>, stage: Stage)
    | Subscribing(r: RouterId, s: SubId, tracks: set<TrackId>, at: Option<TrackId>)
    | Calling(s: SubId)

  /** The fields from `published` on are history: tracks ever published; tracks that had a usable layer
      when they were published; pairs passed over for want of a usable layer; and pairs lost to a failed
      pion call. */
  datatype State = State(
    subs: map<SubId, Sub>,
    routers: map<RouterId, Router>,
    downs: map<DownId, Down>,
    jobs: map<JobId, Job>,
    usable: set<TrackId>,
    published: set<TrackId>,
    ready: set<TrackId>,
    skipped: set<(SubId, TrackId)>,
    failed: set<(SubId, TrackId)>)

  const INITIAL := State(map[], map[], map[], map[], {}, {}, {}, {}, {})

  /** The next step of a goroutine in Router.AddTrack. */
  datatype AddEvent =
    | AddAttach(s: SubId, d: DownId, ok: bool)   // sub.AddDownTrack
    | AddForward                                 // forwarder.AddDownTrack
    | AddNegotiate                               // sub.Negotiate
    | AddDone

  /** The next step of a goroutine in Subscriber.Subscribe, once it has the router's lock. */
  datatype SubEvent =
    | SubAttach(t: TrackId, d: DownId, ok: bool) // subscriber.AddDownTrack
    | SubForward                                 // forwarder.AddDownTrack
    | SubUnlock
    | SubNegotiate

  datatype EnvEvent =
    | NewSub(s: SubId)
    | NewRouter(r: RouterId)
    | LayerUsable(t: TrackId)                         // a high, mid, low or default layer appears
    | Publish(r: RouterId, t: TrackId, j: JobId)      // AddTrack, under the lock
    | SubscribeLock(r: RouterId, s: SubId, j: JobId)  // Subscribe takes the lock and registers
    | CloseSub(s: SubId)
    | Unsubscribe(r: RouterId, s: SubId)
    | CloseRouter(r: RouterId)
    | CloseForwarder(r: RouterId, t: TrackId)
    | WriteError(r: RouterId, t: TrackId, d: DownId)  // Forward: RemoveDownTrack

  datatype Event = Env(env: EnvEvent) | InAdd(j: JobId, a: AddEvent) | InSubscribe(j: JobId, b: SubEvent)

  /** When AddDownTrack attaches a new downtrack; otherwise it returns without an error. */
  predicate Attaches(closed: bool, known: bool, usable: bool) {
    !closed && !known && usable
  }

  predicate AttachesIn(st: State, s: SubId, t: TrackId)
    requires s in st.subs
  {
    Attaches(st.subs[s].closed, t in st.subs[s].downTracks, t in st.usable)
  }

  /** Subscriber.AddDownTrack. */
  function WithDown(st: State, s: SubId, t: TrackId, d: DownId): State
    requires s in st.subs
  {
    var sub := st.subs[s];
    if AttachesIn(st, s, t) then
      st.(subs := st.subs[s := sub.(downTracks := sub.downTracks[t := d], media := sub.media + 1)],
          downs := st.downs[d := Down(s, t, sub.media + 1)])
    else if !sub.closed && t !in sub.downTracks then
      st.(skipped := st.skipped + {(s, t)})
    else st
  }

  /** GetDownTrack followed by Forwarder.AddDownTrack. */
  function WithForward(st: State, r: RouterId, s: SubId, t: TrackId): State
    requires r in st.routers && s in st.subs && t in st.routers[r].forwarders
  {
    var fwd := st.routers[r].forwarders[t];
    if t in st.subs[s].downTracks && !fwd.closed then
      WithForwarder(st, r, t, fwd.(downTracks := fwd.downTracks + {st.subs[s].downTracks[t]}))
    else st
  }

  function WithForwarder(st: State, r: RouterId, t: TrackId, fwd: Forwarder): State
    requires r in st.routers
  {
    st.(routers := st.routers[r := st.routers[r].(forwarders := st.routers[r].forwarders[t := fwd])])
  }

  /** Subscriber.Negotiate, as far as the fabric sees it. */
  function WithRequest(st: State, s: SubId): State
    requires s in st.subs
  {
    var sub := st.subs[s];
    if sub.closed then st else st.(subs := st.subs[s := sub.(requested := sub.media)])
  }

  function WithHolder(st: State, r: RouterId, holder: Option<JobId>): State
    requires r in st.routers
  {
    st.(routers := st.routers[r := st.routers[r].(holder := holder)])
  }

  predicate InForwarder(st: State, r: RouterId, t: TrackId, d: DownId) {
    r in st.routers && t in st.routers[r].forwarders && d in st.routers[r].forwarders[t].downTracks
  }

  predicate EnvEnabled(st: State, e: EnvEvent) {
    match e
    case NewSub(s) => s !in st.subs
    case NewRouter(r) => r !in st.routers
    case LayerUsable(_) => true
    case Publish(r, t, j) => r in st.routers && st.routers[r].holder.None? && t !in st.published && j !in st.jobs
    case SubscribeLock(r, s, j) => r in st.routers && s in st.subs && st.routers[r].holder.None? && j !in st.jobs
    case CloseSub(s) => s in st.subs
    case Unsubscribe(r, s) => r in st.routers && s in st.subs && st.subs[s].closed && st.routers[r].holder.None?
    case CloseRouter(r) => r in st.routers && st.routers[r].holder.None?
    case CloseForwarder(r, t) => r in st.routers && st.routers[r].closed && t in st.routers[r].forwarders
    case WriteError(r, t, d) => InForwarder(st, r, t, d) && d in st.downs
  }

  function EnvNext(st: State, e: EnvEvent): State
    requires EnvEnabled(st, e)
  {
    match e
    case NewSub(s) => st.(subs := st.subs[s := Sub(false, map[], 0, 0, 0)])
    case NewRouter(r) => st.(routers := st.routers[r := Router(false, map[], {}, None)])
    case LayerUsable(t) => st.(usable := st.usable + {t})
    case Publish(r, t, j) =>
      if st.routers[r].closed then st.(published := st.published + {t})
      else WithForwarder(st, r, t, Forwarder({}, false)).(
             jobs := st.jobs[j := Adding(r, t, st.routers[r].subscribers, Idle)],
             published := st.published + {t},
             ready := if t in st.usable then st.ready + {t} else st.ready)
    case SubscribeLock(r, s, j) =>
      var router := st.routers[r];
      st.(routers := st.routers[r := router.(subscribers := router.subscribers + {s}, holder := Some(j))],
          jobs := st.jobs[j := Subscribing(r, s, router.forwarders.Keys, None)])
    case CloseSub(s) => st.(subs := st.subs[s := st.subs[s].(closed := true)])
    case Unsubscribe(r, s) =>
      st.(routers := st.routers[r := st.routers[r].(subscribers := st.routers[r].subscribers - {s})])
    case CloseRouter(r) => st.(routers := st.routers[r := st.routers[r].(closed := true)])
    case CloseForwarder(r, t) => WithForwarder(st, r, t, st.routers[r].forwarders[t].(closed := true))
    case WriteError(r, t, d) =>
      var fwd := st.routers[r].forwarders[t];
      WithForwarder(st, r, t, fwd.(downTracks := fwd.downTracks - {d})).(failed := st.failed + {(st.downs[d].sub, t)})
  }

  predicate AddEnabled(st: State, j: JobId, e: AddEvent) {
    j in st.jobs && st.jobs[j].Adding? &&
    var job := st.jobs[j];
    match e
    case AddAttach(s, d, ok) =>
      job.stage.Idle? && s in job.todo && s in st.subs && d !in st.downs && (ok || AttachesIn(st, s, job.t))
    case AddForward =>
      job.stage.Attached? && job.stage.s in st.subs && job.r in st.routers && job.t in st.routers[job.r].forwarders
    case AddNegotiate => job.stage.Forwarded? && job.stage.s in st.subs
    case AddDone => job.stage.Idle? && job.todo == {}
  }

  function AddNext(st: State, j: JobId, e: AddEvent): State
    requires AddEnabled(st, j, e)
  {
    var job := st.jobs[j];
    match e
    case AddAttach(s, d, ok) =>
      if ok then WithDown(st, s, job.t, d).(jobs := st.jobs[j := job.(stage := Attached(s))])
      else st.(jobs := st.jobs[j := job.(todo := job.todo - {s})], failed := st.failed + {(s, job.t)})
    case AddForward =>
      WithForward(st, job.r, job.stage.s, job.t).(jobs := st.jobs[j := job.(stage := Forwarded(job.stage.s))])
    case AddNegotiate =>
      WithRequest(st, job.stage.s).(jobs := st.jobs[j := job.(todo := job.todo - {job.stage.s}, stage := Idle)])
    case AddDone => st.(jobs := st.jobs - {j})
  }

  predicate SubEnabled(st: State, j: JobId, e: SubEvent) {
    j in st.jobs &&
    var job := st.jobs[j];
    match e
    case SubAttach(t, d, ok) =>
      && job.Subscribing? && job.at.None? && t in job.tracks && job.s in st.subs && job.r in st.routers
      && d !in st.downs && (ok || AttachesIn(st, job.s, t))
    case SubForward =>
      && job.Subscribing? && job.at.Some? && job.s in st.subs
      && job.r in st.routers && job.at.value in st.routers[job.r].forwarders
    case SubUnlock => job.Subscribing? && job.at.None? && job.tracks == {} && job.r in st.routers
    case SubNegotiate => job.Calling? && job.s in st.subs
  }

  function SubNext(st: State, j: JobId, e: SubEvent): State
    requires SubEnabled(st, j, e)
  {
    var job := st.jobs[j];
    match e
    case SubAttach(t, d, ok) =>
      if ok then WithDown(st, job.s, t, d).(jobs := st.jobs[j := job.(at := Some(t))])
      else WithHolder(st, job.r, None).(
             jobs := st.jobs - {j},
             failed := st.failed + (set t' | t' in job.tracks :: (job.s, t')),
             subs := st.subs[job.s := st.subs[job.s].(gaveUp := st.subs[job.s].media)])
    case SubForward =>
      WithForward(st, job.r, job.s, job.at.value).(
        jobs := st.jobs[j := job.(tracks := job.tracks - {job.at.value}, at := None)])
    case SubUnlock => WithHolder(st, job.r, None).(jobs := st.jobs[j := Calling(job.s)])
    case SubNegotiate => WithRequest(st, job.s).(jobs := st.jobs - {j})
  }

  predicate Enabled(st: State, e: Event) {
    match e
    case Env(env) => EnvEnabled(st, env)
    case InAdd(j, a) => AddEnabled(st, j, a)
    case InSubscribe(j, b) => SubEnabled(st, j, b)
  }

  function Next(st: State, e: Event): State
    requires Enabled(st, e)
  {
    match e
    case Env(env) => EnvNext(st, env)
    case InAdd(j, a) => AddNext(st, j, a)
    case InSubscribe(j, b) => SubNext(st, j, b)
  }

  predicate Legal(st: State, es: seq<Event>)
    decreases es
  {
    es == [] || (Enabled(st, es[0]) && Legal(Next(st, es[0]), es[1..]))
  }

  function Exec(st: State, es: seq<Event>): State
    requires Legal(st, es)
    decreases es
  {
    if es == [] then st else Exec(Next(st, es[0]), es[1..])
  }

  // ---------------------------------------------------------------- one downtrack a pair

  /** A downtrack is the one its subscriber has for its track. */
  predicate DownKnown(st: State, d: DownId) {
    d in st.downs &&
    var down := st.downs[d];
    && down.sub in st.subs && down.version <= st.subs[down.sub].media
    && down.track in st.subs[down.sub].downTracks && st.subs[down.sub].downTracks[down.track] == d
  }

  predicate HasEntry(st: State, s: SubId, t: TrackId) {
    s in st.subs && t in st.subs[s].downTracks
  }

  /** A subscriber's map leads to downtracks of its own, for the track it says. */
  predicate EntryKnown(st: State, s: SubId, t: TrackId) {
    && HasEntry(st, s, t) && st.subs[s].downTracks[t] in st.downs
    && var down := st.downs[st.subs[s].downTracks[t]];
       down.sub == s && down.track == t
  }

  predicate EntryOk(st: State, s: SubId, t: TrackId) {
    HasEntry(st, s, t) ==> EntryKnown(st, s, t)
  }

  /** The two registries are inverse to each other, so no pair has two downtracks. */
  ghost predicate Registered(st: State) {
    && (forall d :: d in st.downs ==> DownKnown(st, d))
    && (forall s, t :: HasEntry(st, s, t) ==> EntryKnown(st, s, t))
  }

  lemma EnvRegistered(st: State, e: EnvEvent, d: DownId, s: SubId, t: TrackId)
    requires EnvEnabled(st, e)
    ensures (d in st.downs ==> DownKnown(st, d)) ==> (d in EnvNext(st, e).downs ==> DownKnown(EnvNext(st, e), d))
    ensures EntryOk(st, s, t) ==> EntryOk(EnvNext(st, e), s, t)
  {
  }

  lemma AddRegistered(st: State, j: JobId, a: AddEvent, d: DownId, s: SubId, t: TrackId)
    requires AddEnabled(st, j, a)
    ensures (d in st.downs ==> DownKnown(st, d)) ==> (d in AddNext(st, j, a).downs ==> DownKnown(AddNext(st, j, a), d))
    ensures EntryOk(st, s, t) ==> EntryOk(AddNext(st, j, a), s, t)
  {
  }

  lemma SubRegistered(st: State, j: JobId, b: SubEvent, d: DownId, s: SubId, t: TrackId)
    requires SubEnabled(st, j, b)
    ensures (d in st.downs ==> DownKnown(st, d)) ==> (d in SubNext(st, j, b).downs ==> DownKnown(SubNext(st, j, b), d))
    ensures EntryOk(st, s, t) ==> EntryOk(SubNext(st, j, b), s, t)
  {
  }

  lemma RegisteredAt(st: State, e: Event, d: DownId, s: SubId, t: TrackId)
    requires Registered(st) && Enabled(st, e)
    ensures d in Next(st, e).downs ==> DownKnown(Next(st, e), d)
    ensures HasEntry(Next(st, e), s, t) ==> EntryKnown(Next(st, e), s, t)
  {
    match e
    case Env(env) => EnvRegistered(st, env, d, s, t);
    case InAdd(j, a) => AddRegistered(st, j, a, d, s, t);
    case InSubscribe(j, b) => SubRegistered(st, j, b, d, s, t);
  }

  lemma RegisteredStep(st: State, e: Event)
    requires Registered(st) && Enabled(st, e)
    ensures Registered(Next(st, e))
  {
    forall d | d in Next(st, e).downs ensures DownKnown(Next(st, e), d) {
      RegisteredAt(st, e, d, 0, 0);
    }
    forall s, t | HasEntry(Next(st, e), s, t) ensures EntryKnown(Next(st, e), s, t) {
      RegisteredAt(st, e, 0, s, t);
    }
  }

  /** A forwarder holds downtracks of its own track only. */
  ghost predicate ForwardsOwn(st: State) {
    forall r, t, d :: InForwarder(st, r, t, d) ==> d in st.downs && st.downs[d].track == t
  }

  /** What one event adds to a forwarder is the downtrack a subscriber has for that very track. */
  ghost predicate Gained(st: State, st': State, r: RouterId, t: TrackId, d: DownId) {
    InForwarder(st', r, t, d) ==>
      InForwarder(st, r, t, d) || exists s :: HasEntry(st, s, t) && st.subs[s].downTracks[t] == d
  }

  lemma EnvForwarderGains(st: State, e: EnvEvent, r: RouterId, t: TrackId, d: DownId)
    requires EnvEnabled(st, e)
    ensures Gained(st, EnvNext(st, e), r, t, d)
  {
  }

  lemma AddForwarderGains(st: State, j: JobId, a: AddEvent, r: RouterId, t: TrackId, d: DownId)
    requires AddEnabled(st, j, a)
    ensures Gained(st, AddNext(st, j, a), r, t, d)
  {
    var job := st.jobs[j];
    assert a.AddForward? && job.t in st.subs[job.stage.s].downTracks ==> HasEntry(st, job.stage.s, job.t);
  }

  lemma SubForwarderGains(st: State, j: JobId, b: SubEvent, r: RouterId, t: TrackId, d: DownId)
    requires SubEnabled(st, j, b)
    ensures Gained(st, SubNext(st, j, b), r, t, d)
  {
    var job := st.jobs[j];
    assert b.SubForward? && job.at.value in st.subs[job.s].downTracks ==> HasEntry(st, job.s, job.at.value);
  }

  lemma ForwarderGains(st: State, e: Event, r: RouterId, t: TrackId, d: DownId)
    requires Enabled(st, e)
    ensures Gained(st, Next(st, e), r, t, d)
  {
    match e
    case Env(env) => EnvForwarderGains(st, env, r, t, d);
    case InAdd(j, a) => AddForwarderGains(st, j, a, r, t, d);
    case InSubscribe(j, b) => SubForwarderGains(st, j, b, r, t, d);
  }

  lemma ForwardsOwnStep(st: State, e: Event)
    requires Registered(st) && ForwardsOwn(st) && Enabled(st, e)
    ensures ForwardsOwn(Next(st, e))
  {
    forall r, t, d | InForwarder(Next(st, e), r, t, d)
      ensures d in Next(st, e).downs && Next(st, e).downs[d].track == t
    {
      ForwarderGains(st, e, r, t, d);
      if !InForwarder(st, r, t, d) {
        var s :| HasEntry(st, s, t) && st.subs[s].downTracks[t] == d;
        assert EntryKnown(st, s, t);
      }
      Grows(st, e, 0, 0, d);
    }
  }

  // ---------------------------------------------------------------- what only grows

  /** Subscribers, entries, downtracks, publications and records of trouble never go away. */
  ghost predicate Grown(st: State, st': State, s: SubId, t: TrackId, d: DownId) {
    && st.subs.Keys <= st'.subs.Keys
    && (s in st.subs ==> (st.subs[s].closed ==> st'.subs[s].closed) && st.subs[s].media <= st'.subs[s].media)
    && (HasEntry(st, s, t) ==> HasEntry(st', s, t) && st'.subs[s].downTracks[t] == st.subs[s].downTracks[t])
    && (d in st.downs ==> d in st'.downs && st'.downs[d] == st.downs[d])
    && st.published <= st'.published && st.skipped <= st'.skipped && st.failed <= st'.failed
    && (s in st.subs ==> st'.subs[s].gaveUp in {st.subs[s].gaveUp, st'.subs[s].media})
    && st.usable <= st'.usable && st.ready <= st'.ready
  }

  lemma EnvGrows(st: State, e: EnvEvent, s: SubId, t: TrackId, d: DownId)
    requires EnvEnabled(st, e)
    ensures Grown(st, EnvNext(st, e), s, t, d)
  {
  }

  lemma AddGrows(st: State, j: JobId, a: AddEvent, s: SubId, t: TrackId, d: DownId)
    requires AddEnabled(st, j, a)
    ensures Grown(st, AddNext(st, j, a), s, t, d)
  {
  }

  lemma SubGrows(st: State, j: JobId, b: SubEvent, s: SubId, t: TrackId, d: DownId)
    requires SubEnabled(st, j, b)
    ensures Grown(st, SubNext(st, j, b), s, t, d)
  {
  }

  lemma Grows(st: State, e: Event, s: SubId, t: TrackId, d: DownId)
    requires Enabled(st, e)
    ensures Grown(st, Next(st, e), s, t, d)
  {
    match e
    case Env(env) => EnvGrows(st, env, s, t, d);
    case InAdd(j, a) => AddGrows(st, j, a, s, t, d);
    case InSubscribe(j, b) => SubGrows(st, j, b, s, t, d);
  }

  predicate HasLock(st: State, j: JobId, r: RouterId) {
    j in st.jobs && st.jobs[j].Subscribing? && st.jobs[j].r == r
  }

  /** What holds of every router at any time. */
  predicate RouterSound(st: State, r: RouterId) {
    r in st.routers &&
    var router := st.routers[r];
    && router.subscribers <= st.subs.Keys
    && router.forwarders.Keys <= st.published
    && (router.holder.Some? ==> HasLock(st, router.holder.value, r))
    && (forall t :: t in router.forwarders && router.forwarders[t].closed ==> router.closed)
  }

  /** A router keeps its tracks, and a router with a holder keeps its subscribers too. */
  predicate RouterKept(st: State, st': State, r: RouterId) {
    && r in st.routers && r in st'.routers
    && (st.routers[r].closed ==> st'.routers[r].closed)
    && st.routers[r].forwarders.Keys <= st'.routers[r].forwarders.Keys
    && (st.routers[r].holder.Some? ==> st.routers[r].subscribers <= st'.routers[r].subscribers)
  }

  lemma EnvRouter(st: State, e: EnvEvent, r: RouterId)
    requires EnvEnabled(st, e) && r in EnvNext(st, e).routers && (r in st.routers ==> RouterSound(st, r))
    ensures RouterSound(EnvNext(st, e), r)
    ensures r in st.routers ==> RouterKept(st, EnvNext(st, e), r)
    ensures r in st.routers && st.routers[r].holder.Some? ==> EnvNext(st, e).routers[r].holder == st.routers[r].holder
  {
  }

  lemma AddRouter(st: State, j: JobId, a: AddEvent, r: RouterId)
    requires AddEnabled(st, j, a) && r in AddNext(st, j, a).routers && RouterSound(st, r)
    ensures RouterSound(AddNext(st, j, a), r)
    ensures RouterKept(st, AddNext(st, j, a), r)
    ensures AddNext(st, j, a).routers[r].holder == st.routers[r].holder
  {
  }

  lemma SubRouter(st: State, j: JobId, b: SubEvent, r: RouterId)
    requires SubEnabled(st, j, b) && r in SubNext(st, j, b).routers && RouterSound(st, r)
    requires HasLock(st, j, r) ==> st.routers[r].holder == Some(j)
    ensures RouterSound(SubNext(st, j, b), r)
    ensures RouterKept(st, SubNext(st, j, b), r)
    ensures st.routers[r].holder != Some(j) ==> SubNext(st, j, b).routers[r].holder == st.routers[r].holder
    ensures st.routers[r].holder == Some(j) && j in SubNext(st, j, b).jobs && SubNext(st, j, b).jobs[j].Subscribing? ==>
      SubNext(st, j, b).routers[r].holder == Some(j)
  {
  }

  // ---------------------------------------------------------------- a pair, once dealt with, stays so

  /** The subscriber has a downtrack for the track, and it is in the track's forwarder. */
  predicate Covered(st: State, r: RouterId, s: SubId, t: TrackId) {
    HasEntry(st, s, t) && InForwarder(st, r, t, st.subs[s].downTracks[t])
  }

  predicate Excused(st: State, s: SubId, t: TrackId) {
    (s, t) in st.skipped || (s, t) in st.failed
  }

  predicate Gone(st: State, r: RouterId, s: SubId) {
    (s in st.subs && st.subs[s].closed) || (r in st.routers && st.routers[r].closed)
  }

  /** AddDownTrack has done all it will do for the pair. */
  predicate Settled(st: State, s: SubId, t: TrackId) {
    HasEntry(st, s, t) || (s in st.subs && st.subs[s].closed) || (s, t) in st.skipped
  }

  /** Nothing is left to do for the pair. */
  predicate Done(st: State, r: RouterId, s: SubId, t: TrackId) {
    Covered(st, r, s, t) || Excused(st, s, t) || Gone(st, r, s)
  }

  /** A downtrack leaves a forwarder only by a failed write, which is on record. */
  ghost predicate ForwarderKept(st: State, st': State, r: RouterId, t: TrackId, d: DownId) {
    InForwarder(st, r, t, d) ==> InForwarder(st', r, t, d) || (d in st.downs && (st.downs[d].sub, t) in st'.failed)
  }

  lemma EnvKeepsForwarder(st: State, e: EnvEvent, r: RouterId, t: TrackId, d: DownId)
    requires EnvEnabled(st, e) && (r in st.routers ==> RouterSound(st, r))
    ensures ForwarderKept(st, EnvNext(st, e), r, t, d)
  {
  }

  lemma AddKeepsForwarder(st: State, j: JobId, a: AddEvent, r: RouterId, t: TrackId, d: DownId)
    requires AddEnabled(st, j, a)
    ensures ForwarderKept(st, AddNext(st, j, a), r, t, d)
  {
  }

  lemma SubKeepsForwarder(st: State, j: JobId, b: SubEvent, r: RouterId, t: TrackId, d: DownId)
    requires SubEnabled(st, j, b)
    ensures ForwarderKept(st, SubNext(st, j, b), r, t, d)
  {
  }

  /** The invariant of the registries, the forwarders, the routers and the jobs. */
  ghost predicate Sound(st: State) {
    && Registered(st) && ForwardsOwn(st)
    && (forall r :: r in st.routers ==> RouterSound(st, r))
    && (forall j :: j in st.jobs ==> JobSound(st, j))
  }

  /** What a job may rely on while others run. */
  predicate JobSound(st: State, j: JobId) {
    j in st.jobs &&
    match st.jobs[j]
    case Adding(r, t, todo, stage) =>
      && r in st.routers && t in st.routers[r].forwarders
      && todo <= st.subs.Keys
      && (stage != Idle ==> stage.s in todo)
      && (stage.Attached? ==> Settled(st, stage.s, t))
      && (stage.Forwarded? ==> Done(st, r, stage.s, t))
    case Subscribing(r, s, tracks, at) =>
      && r in st.routers && s in st.subs
      && s in st.routers[r].subscribers && tracks <= st.routers[r].forwarders.Keys
      && st.routers[r].holder == Some(j)
      && (at.Some? ==> at.value in tracks && Settled(st, s, at.value))
    case Calling(s) => s in st.subs
  }

  lemma RouterStep(st: State, e: Event, r: RouterId)
    requires Sound(st) && Enabled(st, e) && r in Next(st, e).routers
    ensures RouterSound(Next(st, e), r)
    ensures r in st.routers ==> RouterKept(st, Next(st, e), r)
    ensures r in st.routers && st.routers[r].holder.Some? && !(e.InSubscribe? && st.routers[r].holder == Some(e.j)) ==>
      Next(st, e).routers[r].holder == st.routers[r].holder
  {
    match e
    case Env(env) =>
      EnvRouter(st, env, r);
    case InAdd(j, a) =>
      assert JobSound(st, j);
      AddRouter(st, j, a, r);
    case InSubscribe(j, b) =>
      assert JobSound(st, j);
      SubRouter(st, j, b, r);
  }

  lemma EnvKeepsRouters(st: State, e: EnvEvent)
    requires EnvEnabled(st, e)
    ensures st.routers.Keys <= EnvNext(st, e).routers.Keys
  {
  }

  lemma RouterStays(st: State, e: Event, r: RouterId)
    requires Enabled(st, e) && r in st.routers
    ensures r in Next(st, e).routers
  {
    match e
    case Env(env) => EnvKeepsRouters(st, env);
    case InAdd(j, a) => assert AddNext(st, j, a).routers.Keys == st.routers.Keys;
    case InSubscribe(j, b) => assert SubNext(st, j, b).routers.Keys == st.routers.Keys;
  }

  lemma SettledKeeps(st: State, e: Event, s: SubId, t: TrackId)
    requires Enabled(st, e) && Settled(st, s, t)
    ensures Settled(Next(st, e), s, t)
  {
    Grows(st, e, s, t, 0);
  }

  lemma DoneKeeps(st: State, e: Event, r: RouterId, s: SubId, t: TrackId)
    requires Sound(st) && Enabled(st, e) && Done(st, r, s, t)
    ensures Done(Next(st, e), r, s, t)
  {
    Grows(st, e, s, t, 0);
    if r in st.routers {
      RouterStays(st, e, r);
      RouterStep(st, e, r);
    }
    if Covered(st, r, s, t) {
      var d := st.subs[s].downTracks[t];
      assert EntryKnown(st, s, t);
      match e {
        case Env(env) => EnvKeepsForwarder(st, env, r, t, d);
        case InAdd(j, a) => AddKeepsForwarder(st, j, a, r, t, d);
        case InSubscribe(j, b) => SubKeepsForwarder(st, j, b, r, t, d);
      }
    }
  }

  /** Forwarder.AddDownTrack deals with a pair AddDownTrack has settled. */
  lemma ForwardDeals(st: State, r: RouterId, s: SubId, t: TrackId)
    requires r in st.routers && s in st.subs && t in st.routers[r].forwarders
    requires RouterSound(st, r) && Settled(st, s, t)
    ensures Done(WithForward(st, r, s, t), r, s, t)
  {
  }

  predicate Acts(e: Event, j: JobId) {
    !e.Env? && e.j == j
  }

  lemma OtherJobsStay(st: State, e: Event, j: JobId)
    requires Enabled(st, e) && !Acts(e, j)
    ensures j in st.jobs ==> j in Next(st, e).jobs && Next(st, e).jobs[j] == st.jobs[j]
    ensures j in Next(st, e).jobs && j !in st.jobs ==>
      e.Env? && (e.env.Publish? || e.env.SubscribeLock?) && e.env.j == j
  {
  }

  lemma OtherJobSound(st: State, e: Event, j: JobId)
    requires Sound(st) && Enabled(st, e) && !Acts(e, j) && j in st.jobs
    ensures JobSound(Next(st, e), j)
  {
    assert JobSound(st, j);
    OtherJobsStay(st, e, j);
    match st.jobs[j]
    case Adding(r, t, todo, stage) =>
      RouterStays(st, e, r);
      RouterStep(st, e, r);
      Grows(st, e, 0, 0, 0);
      if stage.Attached? { SettledKeeps(st, e, stage.s, t); }
      if stage.Forwarded? { DoneKeeps(st, e, r, stage.s, t); }
    case Subscribing(r, s, tracks, at) =>
      RouterStays(st, e, r);
      RouterStep(st, e, r);
      Grows(st, e, s, 0, 0);
      if at.Some? { SettledKeeps(st, e, s, at.value); }
    case Calling(s) =>
      Grows(st, e, s, 0, 0);
  }

  lemma NewJobSound(st: State, e: EnvEvent, j: JobId)
    requires Sound(st) && EnvEnabled(st, e) && (e.Publish? || e.SubscribeLock?) && j == e.j
    requires j in EnvNext(st, e).jobs
    ensures JobSound(EnvNext(st, e), j)
  {
    assert RouterSound(st, e.r);
  }

  lemma AddJobSound(st: State, j: JobId, a: AddEvent)
    requires Sound(st) && AddEnabled(st, j, a) && j in AddNext(st, j, a).jobs
    ensures JobSound(AddNext(st, j, a), j)
  {
    assert JobSound(st, j) && RouterSound(st, st.jobs[j].r);
    var job := st.jobs[j];
    if a.AddForward? {
      ForwardDeals(st, job.r, job.stage.s, job.t);
    }
  }

  lemma SubJobSound(st: State, j: JobId, b: SubEvent)
    requires Sound(st) && SubEnabled(st, j, b) && j in SubNext(st, j, b).jobs
    ensures JobSound(SubNext(st, j, b), j)
  {
    assert JobSound(st, j);
    if st.jobs[j].Subscribing? {
      assert RouterSound(st, st.jobs[j].r);
    }
  }

  lemma SoundStep(st: State, e: Event)
    requires Sound(st) && Enabled(st, e)
    ensures Sound(Next(st, e))
  {
    var st' := Next(st, e);
    RegisteredStep(st, e);
    ForwardsOwnStep(st, e);
    forall r | r in st'.routers ensures RouterSound(st', r) {
      RouterStep(st, e, r);
    }
    forall j | j in st'.jobs ensures JobSound(st', j) {
      if Acts(e, j) {
        match e {
          case InAdd(_, a) => AddJobSound(st, j, a);
          case InSubscribe(_, b) => SubJobSound(st, j, b);
        }
      } else {
        OtherJobsStay(st, e, j);
        if j in st.jobs { OtherJobSound(st, e, j); } else { NewJobSound(st, e.env, j); }
      }
    }
  }
}
