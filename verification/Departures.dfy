/** Publishers and peers that leave (pkg/sfu/session.go, pkg/sfu/publisher.go): who hears of a departed publisher's
    tracks, and when its router comes back into the session. */
module Departures {
  import opened Announce

  /** A goroutine in onTrack is still to register the router. */
  predicate Registers(job: Job, r: PeerId) {
    (job.Publishing? || job.Registering?) && job.r == r
  }

  ghost predicate InFlight(st: State, r: PeerId) {
    exists j :: j in st.jobs && Registers(st.jobs[j], r)
  }

  /** The router's tracks are on their way to a peer that has begun to ask. */
  ghost predicate HasBegun(st: State, p: PeerId, r: PeerId) {
    exists j :: j in st.jobs && st.jobs[j].Notifying? && st.jobs[j].p == p && r in st.jobs[j].todo
  }

  predicate Adds(e: Event, r: PeerId) {
    e.AddTrack? && e.r == r
  }

  /** The peer has been in the session and is not any more. */
  predicate Departed(st: State, r: PeerId) {
    r in st.left && r in st.seen && r !in st.peers
  }

  lemma DepartedStep(st: State, e: Event, r: PeerId)
    requires Enabled(st, e) && Departed(st, r)
    ensures Departed(Next(st, e), r)
  {
  }

  // ---------------------------------------------------------------- the router of a departed publisher

  lemma RegisteringStep(st: State, e: Event, r: PeerId)
    requires Enabled(st, e) && Departed(st, r)
    ensures r in Next(st, e).registered || InFlight(Next(st, e), r) <==>
      r in st.registered || InFlight(st, r) || Adds(e, r)
  {
    var st' := Next(st, e);
    if j :| j in st.jobs && Registers(st.jobs[j], r) {
      if Acts(e, j) {
        assert r in st'.registered || Registers(st'.jobs[j], r);
      } else {
        OtherJobsStay(st, e, j);
      }
    }
    if Adds(e, r) {
      assert Registers(st'.jobs[e.j], r);
    }
    if j :| j in st'.jobs && Registers(st'.jobs[j], r) {
      assert Adds(e, r) || (j in st.jobs && Registers(st.jobs[j], r));
    }
  }

  lemma {:induction false} RegisteringRun(st: State, es: seq<Event>, r: PeerId)
    requires Legal(st, es) && Departed(st, r)
    ensures r in Exec(st, es).registered || InFlight(Exec(st, es), r) <==>
      r in st.registered || InFlight(st, r) || exists e :: e in es && Adds(e, r)
    decreases es
  {
    if es != [] {
      DepartedStep(st, es[0], r);
      RegisteringStep(st, es[0], r);
      RegisteringRun(Next(st, es[0]), es[1..], r);
      assert forall e :: e in es <==> e == es[0] || e in es[1..];
    }
  }

  /** Exactly when a departed publisher's router is in the session. RemovePeer takes it out; once nothing is in flight
      it is back if and only if one of the publisher's onTrack goroutines was in AddTrack when the publisher left, or
      reached it later. */
  lemma DepartedRegisteredExactly(es: seq<Event>, r: PeerId, fs: seq<Event>)
    requires Legal(INITIAL, es) && r in Exec(INITIAL, es).peers
    requires Legal(Next(Exec(INITIAL, es), Leave(r)), fs)
    requires Exec(Next(Exec(INITIAL, es), Leave(r)), fs).jobs == map[]
    ensures r in Exec(Next(Exec(INITIAL, es), Leave(r)), fs).registered <==>
      InFlight(Exec(INITIAL, es), r) || exists e :: e in fs && Adds(e, r)
  {
    InvRun(INITIAL, es);
    var st := Exec(INITIAL, es);
    assert InFlight(Next(st, Leave(r)), r) <==> InFlight(st, r);
    RegisteringRun(Next(st, Leave(r)), fs, r);
    assert !InFlight(Exec(Next(st, Leave(r)), fs), r);
  }

  // ---------------------------------------------------------------- who hears of it

  lemma UnheardStep(st: State, e: Event, r: PeerId, p: PeerId, t: TrackId)
    requires Enabled(st, e) && !Adds(e, r)
    requires r !in st.registered && !InFlight(st, r) && !HasBegun(st, p, r)
    ensures var st' := Next(st, e);
      && r !in st'.registered && !InFlight(st', r) && !HasBegun(st', p, r)
      && ((p, r, t) in st'.told <==> (p, r, t) in st.told)
  {
    var st' := Next(st, e);
    forall j | j in st'.jobs ensures !Registers(st'.jobs[j], r) {
      assert j in st.jobs ==> !Registers(st.jobs[j], r);
    }
    forall j | j in st'.jobs && st'.jobs[j].Notifying? && st'.jobs[j].p == p ensures r !in st'.jobs[j].todo {
      assert j in st.jobs && st.jobs[j].Notifying? ==> st.jobs[j].p != p || r !in st.jobs[j].todo;
    }
    if e.Broadcast? {
      assert !Registers(st.jobs[e.j], r);
    }
    if e.GetTracks? && st.jobs[e.j].p == p {
      assert e.r != r;
    }
  }

  lemma {:induction false} UnheardRun(st: State, es: seq<Event>, r: PeerId, p: PeerId, t: TrackId)
    requires Legal(st, es) && forall e :: e in es ==> !Adds(e, r)
    requires r !in st.registered && !InFlight(st, r) && !HasBegun(st, p, r)
    ensures r !in Exec(st, es).registered && ((p, r, t) in Exec(st, es).told <==> (p, r, t) in st.told)
    decreases es
  {
    if es != [] {
      assert es[0] in es;
      UnheardStep(st, es[0], r, p, t);
      UnheardRun(Next(st, es[0]), es[1..], r, p, t);
    }
  }

  /** After a publisher has left with none of its tracks in flight, its router stays out of the session, and whoever
      has not begun to ask before is told of none of its tracks any more. */
  lemma DepartedIsUnheard(es: seq<Event>, r: PeerId, fs: seq<Event>, p: PeerId, t: TrackId)
    requires Legal(INITIAL, es) && r in Exec(INITIAL, es).peers
    requires !InFlight(Exec(INITIAL, es), r) && !HasBegun(Exec(INITIAL, es), p, r)
    requires Legal(Next(Exec(INITIAL, es), Leave(r)), fs) && forall e :: e in fs ==> !Adds(e, r)
    ensures var st := Exec(INITIAL, es); var st' := Exec(Next(st, Leave(r)), fs);
      r !in st'.registered && ((p, r, t) in st'.told <==> (p, r, t) in st.told)
  {
    UnheardRun(Next(Exec(INITIAL, es), Leave(r)), fs, r, p, t);
  }

  // ---------------------------------------------------------------- peers that have left

  lemma {:induction false} GoneRun(st: State, es: seq<Event>, p: PeerId, r: PeerId, t: TrackId)
    requires Legal(st, es) && p in st.seen && p !in st.peers
    ensures p !in Exec(st, es).peers && ((p, r, t) in Exec(st, es).told <==> (p, r, t) in st.told)
    decreases es
  {
    if es != [] {
      GoneRun(Next(st, es[0]), es[1..], p, r, t);
    }
  }

  /** A peer that has left is told of nothing any more. */
  lemma GoneIsNotTold(es: seq<Event>, p: PeerId, fs: seq<Event>, r: PeerId, t: TrackId)
    requires Legal(INITIAL, es) && p in Exec(INITIAL, es).peers && Legal(Next(Exec(INITIAL, es), Leave(p)), fs)
    ensures var st := Exec(INITIAL, es); (p, r, t) in Exec(Next(st, Leave(p)), fs).told <==> (p, r, t) in st.told
  {
    InvRun(INITIAL, es);
    GoneRun(Next(Exec(INITIAL, es), Leave(p)), fs, p, r, t);
  }

  /** Nobody is ever told of a track the publisher has not added, nor of its own. */
  lemma ToldTruthfully(es: seq<Event>, p: PeerId, r: PeerId, t: TrackId)
    requires Legal(INITIAL, es) && (p, r, t) in Exec(INITIAL, es).told
    ensures p != r && p in Exec(INITIAL, es).seen && t in TracksOf(Exec(INITIAL, es), r)
  {
    InvRun(INITIAL, es);
  }

  // ---------------------------------------------------------------- a departed publisher that comes back

  /** Peer 0 has left while its first track was being registered, and its router is in the session for good. */
  predicate BackAgain(st: State) {
    && st.jobs == map[] && st.peers == {} && st.seen == st.left == st.registered == {0} && st.told == {}
    && st.routers == map[0 := {0}] && st.missed == {}
  }

  lemma LeaveTooEarly(st: State) returns (es: seq<Event>)
    requires st == FIRST_BROADCAST
    ensures Legal(st, es) && BackAgain(Exec(st, es))
  {
    var s1 := Next(st, Leave(0));
    var s2 := Next(s1, AddRouter(1));
    assert s2.jobs == map[];
    es := [AddRouter(1)];
    assert Legal(s1, es) && Exec(s1, es) == s2 by { assert es[1..] == []; }
    Prepend(st, Leave(0), es);
    es := [Leave(0)] + es;
  }

  lemma HearsOfDeparted(st: State) returns (es: seq<Event>)
    requires BackAgain(st)
    ensures Legal(st, es)
    ensures var st' := Exec(st, es);
      st'.jobs == map[] && 0 in st'.left && 0 in st'.registered && (1, 0, 0) in st'.told && 1 in st'.peers
  {
    var s1 := Next(st, Join(1, 0));
    var s2 := Next(s1, Begin(0));
    assert s2.jobs[0] == Notifying(1, {0});
    var s3 := Next(s2, GetTracks(0, 0));
    assert TracksOf(s2, 0) == {0} && (1, 0, 0) in s3.told;
    assert s3.jobs[0] == Notifying(1, {});
    var s4 := Next(s3, End(0));
    assert s4.jobs == map[];
    es := [End(0)];
    assert Legal(s3, es) && Exec(s3, es) == s4 by { assert es[1..] == []; }
    Prepend(s2, GetTracks(0, 0), es);
    es := [GetTracks(0, 0)] + es;
    Prepend(s1, Begin(0), es);
    es := [Begin(0)] + es;
    Prepend(st, Join(1, 0), es);
    es := [Join(1, 0)] + es;
  }

  /** A publisher that leaves while one of its tracks is being registered stays registered: with nothing in flight any
      more, a peer that joins later is told of the track of a publisher that is gone. */
  lemma DepartedCanStayRegistered() returns (es: seq<Event>)
    ensures Legal(INITIAL, es)
    ensures var st := Exec(INITIAL, es);
      st.jobs == map[] && 0 in st.left && 0 in st.registered && (1, 0, 0) in st.told && 1 in st.peers
  {
    es := BroadcastFirst(INITIAL);
    var more := LeaveTooEarly(FIRST_BROADCAST);
    RunsCompose(INITIAL, es, more);
    es := es + more;
    more := HearsOfDeparted(Exec(INITIAL, es));
    RunsCompose(INITIAL, es, more);
    es := es + more;
  }
}
