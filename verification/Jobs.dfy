/** AddTrack and Subscribe come to an end, and never wait for each other but for a router's lock
    (pkg/sfu/router.go). */
module Jobs {
  import opened Fabric
  import opened Values

  function JobWork(job: Job): nat {
    match job
    case Adding(_, _, todo, stage) =>
      3 * |todo| + 3 - (if stage.Idle? then 0 else if stage.Attached? then 1 else 2)
    case Subscribing(_, _, tracks, at) => 2 * |tracks| + 3 - (if at.None? then 0 else 1)
    case Calling(_) => 1
  }

  lemma AddShrinks(st: State, j: JobId, a: AddEvent)
    requires AddEnabled(st, j, a) && (st.jobs[j].stage.Forwarded? ==> st.jobs[j].stage.s in st.jobs[j].todo)
    ensures j in AddNext(st, j, a).jobs ==> JobWork(AddNext(st, j, a).jobs[j]) < JobWork(st.jobs[j])
  {
    var job := st.jobs[j];
    if a.AddAttach? { assert |job.todo - {a.s}| == |job.todo| - 1; }
    if a.AddNegotiate? { assert |job.todo - {job.stage.s}| == |job.todo| - 1; }
  }

  lemma SubShrinks(st: State, j: JobId, b: SubEvent)
    requires SubEnabled(st, j, b) && (b.SubForward? ==> st.jobs[j].at.value in st.jobs[j].tracks)
    ensures j in SubNext(st, j, b).jobs ==> JobWork(SubNext(st, j, b).jobs[j]) < JobWork(st.jobs[j])
  {
    var job := st.jobs[j];
    if b.SubForward? { assert |job.tracks - {job.at.value}| == |job.tracks| - 1; }
  }

  /** Every step of a job brings its end nearer, and nobody else's step touches it. */
  lemma StepsShrinkJobs(st: State, e: Event, j: JobId)
    requires Sound(st) && Enabled(st, e) && j in st.jobs
    ensures Acts(e, j) && j in Next(st, e).jobs ==> JobWork(Next(st, e).jobs[j]) < JobWork(st.jobs[j])
    ensures !Acts(e, j) ==> j in Next(st, e).jobs && Next(st, e).jobs[j] == st.jobs[j]
  {
    assert JobSound(st, j);
    if !Acts(e, j) {
      OtherJobsStay(st, e, j);
    } else {
      match e {
        case InAdd(_, a) => AddShrinks(st, j, a);
        case InSubscribe(_, b) => SubShrinks(st, j, b);
      }
    }
  }

  /** How many of the events are steps of the job. */
  function Steps(es: seq<Event>, j: JobId): nat
    decreases es
  {
    if es == [] then 0 else (if Acts(es[0], j) then 1 else 0) + Steps(es[1..], j)
  }

  predicate Starts(e: Event, j: JobId) {
    e.Env? && (e.env.Publish? || e.env.SubscribeLock?) && e.env.j == j
  }

  /** A job is over within the work it has at hand, however many others run in between. */
  lemma {:induction false} JobsEnd(st: State, es: seq<Event>, j: JobId)
    requires Sound(st) && Legal(st, es) && (forall e :: e in es ==> !Starts(e, j))
    ensures Steps(es, j) + Remaining(Exec(st, es), j) <= Remaining(st, j)
    decreases es
  {
    if es != [] {
      assert !Starts(es[0], j);
      SoundStep(st, es[0]);
      if j in st.jobs {
        StepsShrinkJobs(st, es[0], j);
      } else {
        OtherJobsStay(st, es[0], j);
      }
      JobsEnd(Next(st, es[0]), es[1..], j);
    }
  }

  function Remaining(st: State, j: JobId): nat {
    if j in st.jobs then JobWork(st.jobs[j]) else 0
  }

  /** A job in flight can always take its next step, and without a failure: nobody it could wait for holds
      it up. */
  lemma JobsNeverWait(st: State, j: JobId, d: DownId) returns (e: Event)
    requires Sound(st) && j in st.jobs && d !in st.downs
    ensures Acts(e, j) && Enabled(st, e)
    ensures Next(st, e).failed == st.failed
    ensures forall s :: s in st.subs ==> s in Next(st, e).subs && Next(st, e).subs[s].gaveUp == st.subs[s].gaveUp
  {
    assert JobSound(st, j);
    match st.jobs[j]
    case Adding(r, t, todo, stage) =>
      if stage.Attached? { e := InAdd(j, AddForward); }
      else if stage.Forwarded? { e := InAdd(j, AddNegotiate); }
      else if todo == {} { e := InAdd(j, AddDone); }
      else { var s :| s in todo; e := InAdd(j, AddAttach(s, d, true)); }
    case Subscribing(r, s, tracks, at) =>
      if at.Some? { e := InSubscribe(j, SubForward); }
      else if tracks == {} { e := InSubscribe(j, SubUnlock); }
      else { var t :| t in tracks; e := InSubscribe(j, SubAttach(t, d, true)); }
    case Calling(s) => e := InSubscribe(j, SubNegotiate);
  }
}
