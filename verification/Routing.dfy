/** Forwarders as objects (pkg/sfu/forwarder.go), and what a router does with one subscriber and one
    track (pkg/sfu/router.go). How the routers' loops interleave is in Fabric. */
module Routing {
  import F = Fabric
  import opened Rtp
  import Selector
  import opened Switching
  import opened Values
  import opened Tracks
  import opened Subscribers

  /** A downtrack and what it has handed to its local track. */
  datatype Outcome = Outcome(state: Down, sent: seq<Packet>)

  function Now(d: DownTrack): Outcome
    reads d, d.selector, d.sequencer
  {
    Outcome(d.State(), d.sent)
  }

  /** What becomes of a downtrack that takes a packet. */
  function Taken(l: Line, before: Outcome, a: Arrival): Outcome {
    Outcome(Next(l, before.state, Arrive(a)),
            before.sent + if Sends(l, before.state, a) then [Rewritten(before.state.seqr, a.p.Wire(), l.ssrc)] else [])
  }

  function Selectors(ds: set<DownTrack>): set<Selector.LayerSelector> {
    set d | d in ds :: d.selector
  }

  function Sequencers(ds: set<DownTrack>): set<RtpSequencer> {
    set d | d in ds :: d.sequencer
  }

  function Snapshot(ds: set<DownTrack>): map<DownTrack, Outcome>
    reads ds, Selectors(ds), Sequencers(ds)
  {
    map d | d in ds :: Now(d)
  }

  /** When a packet is taken, and what others do to the target meanwhile. */
  datatype Moment = Moment(now: int, later: int, x: Interference)

  function ArrivalAt(packet: Packet, fromLayer: string, layers: LayerMap, m: Moment): Arrival {
    Arrival(AsSource(packet), fromLayer, layers, m.now, m.later, m.x)
  }

  /** Every downtrack has taken its arrival, except those in `todo`. */
  function PartlyTaken(before: map<DownTrack, Outcome>, arrivals: DownTrack -> Arrival, todo: set<DownTrack>)
    : map<DownTrack, Outcome>
  {
    map d | d in before :: if d in todo then before[d] else Taken(d.OutLine(), before[d], arrivals(d))
  }

  function AllTaken(before: map<DownTrack, Outcome>, arrivals: DownTrack -> Arrival): map<DownTrack, Outcome> {
    map d | d in before :: Taken(d.OutLine(), before[d], arrivals(d))
  }

  lemma OneMoreTakes(before: map<DownTrack, Outcome>, arrivals: DownTrack -> Arrival, todo: set<DownTrack>,
                     d: DownTrack)
    requires d in todo && todo <= before.Keys
    ensures PartlyTaken(before, arrivals, todo)[d] == before[d]
    ensures PartlyTaken(before, arrivals, todo - {d}) ==
            PartlyTaken(before, arrivals, todo)[d := Taken(d.OutLine(), before[d], arrivals(d))]
  {
  }

  lemma AllHaveTaken(before: map<DownTrack, Outcome>, arrivals: DownTrack -> Arrival)
    ensures PartlyTaken(before, arrivals, before.Keys) == before
    ensures PartlyTaken(before, arrivals, {}) == AllTaken(before, arrivals)
  {
  }

  /** The downtracks that were sent something. */
  function Served(before: map<DownTrack, Outcome>, arrivals: DownTrack -> Arrival): set<DownTrack> {
    set d | d in before && Sends(d.OutLine(), before[d].state, arrivals(d))
  }

  /** The downtracks left when those of `refused` that are not in `todo` are gone. */
  function Left(all: set<DownTrack>, refused: set<DownTrack>, todo: set<DownTrack>): set<DownTrack> {
    all - (refused - todo)
  }

  lemma OneMoreLeaves(all: set<DownTrack>, refused: set<DownTrack>, todo: set<DownTrack>, d: DownTrack)
    requires d in todo
    ensures Left(all, refused, todo - {d}) ==
            if d in refused then Left(all, refused, todo) - {d} else Left(all, refused, todo)
  {
    assert refused - (todo - {d}) == refused - todo + ({d} * refused);
  }

  lemma AllLeft(all: set<DownTrack>, refused: set<DownTrack>)
    requires refused <= all
    ensures Left(all, refused, all) == all && Left(all, refused, {}) == all - refused
  {
  }

  /** No two downtracks share a selector or a sequencer. */
  predicate Separate(ds: set<DownTrack>) {
    forall d, e :: d in ds && e in ds && d != e ==> d.selector != e.selector && d.sequencer != e.sequencer
  }

  lemma SeparateWith(ds: set<DownTrack>, d: DownTrack)
    requires Separate(ds) && d.selector !in Selectors(ds) && d.sequencer !in Sequencers(ds)
    ensures Separate(ds + {d})
  {
    assert forall e :: e in ds ==> e.selector in Selectors(ds) && e.sequencer in Sequencers(ds);
  }

  function OpenOnes(ds: set<DownTrack>): set<DownTrack>
    reads ds
  {
    set d | d in ds && !d.closed
  }

  /** What the list of a track has lost: each of `open`, except those in `todo`, once. */
  function Off(list: multiset<DownTrack>, open: set<DownTrack>, todo: set<DownTrack>): multiset<DownTrack> {
    list - multiset(open - todo)
  }

  lemma OneMoreOff(list: multiset<DownTrack>, open: set<DownTrack>, todo: set<DownTrack>, d: DownTrack)
    requires d in todo
    ensures Off(list, open, todo - {d}) ==
            if d in open then Off(list, open, todo) - multiset{d} else Off(list, open, todo)
  {
    assert open - (todo - {d}) == (open - todo) + ({d} * open);
    if d in open {
      assert multiset(open - (todo - {d})) == multiset(open - todo) + multiset{d};
    }
  }

  lemma AllOff(list: multiset<DownTrack>, open: set<DownTrack>, all: set<DownTrack>)
    requires open <= all
    ensures Off(list, open, all) == list && Off(list, open, {}) == list - multiset(open)
  {
    assert open - all == {} && open - {} == open;
  }

  /** WriteRTP: one step of the downtrack, and an error exactly when the local track refuses what it is sent. */
  method Write(d: DownTrack, packet: Packet, fromLayer: string, m: Moment, refuses: bool) returns (failed: bool)
    modifies d`sent, d.selector, d.sequencer
    ensures var a := ArrivalAt(packet, fromLayer, old(d.trackReceiver.View()), m);
      && Now(d) == Taken(d.OutLine(), old(Now(d)), a)
      && failed == (refuses && Sends(d.OutLine(), old(d.State()), a))
  {
    failed := d.WriteRTP(packet, fromLayer, m.now, m.later, m.x, !refuses);
  }

  class Forwarder {
    const trackReceiver: TrackReceiver
    var downTracks: set<DownTrack>
    var closed: bool

    constructor (trackReceiver: TrackReceiver)
      ensures Valid() && this.trackReceiver == trackReceiver && downTracks == {} && !closed
    {
      this.trackReceiver, downTracks, closed := trackReceiver, {}, false;
    }

    /** All carry the forwarder's track, and no two share a selector or a sequencer. */
    predicate Valid()
      reads this
    {
      && (forall d :: d in downTracks ==> d.trackReceiver == trackReceiver)
      && Separate(downTracks)
    }

    method AddDownTrack(dt: DownTrack)
      modifies this`downTracks
      ensures downTracks == if closed then old(downTracks) else old(downTracks) + {dt}
      ensures old(Valid()) && dt.trackReceiver == trackReceiver && Separate(old(downTracks) + {dt}) ==> Valid()
    {
      if closed {
        return;
      }
      downTracks := downTracks + {dt};
    }

    method RemoveDownTrack(dt: DownTrack)
      modifies this`downTracks
      ensures downTracks == old(downTracks) - {dt}
      ensures old(Valid()) ==> Valid()
    {
      downTracks := downTracks - {dt};
    }

    /** One packet to one downtrack, which is removed if its local track refuses what it is sent. The
        others in `all` do not notice. */
    method Deliver(d: DownTrack, packet: Packet, fromLayer: string, m: Moment, refuses: bool, ghost all: set<DownTrack>)
      requires Valid() && d in all && d.trackReceiver == trackReceiver && Separate(all)
      modifies this`downTracks, d`sent, d.selector, d.sequencer
      ensures Valid() && trackReceiver.View() == old(trackReceiver.View())
      ensures var a := ArrivalAt(packet, fromLayer, old(trackReceiver.View()), m);
        && Snapshot(all) == old(Snapshot(all))[d := Taken(d.OutLine(), old(Now(d)), a)]
        && downTracks ==
           if refuses && Sends(d.OutLine(), old(d.State()), a) then old(downTracks) - {d} else old(downTracks)
    {
      var failed := Write(d, packet, fromLayer, m, refuses);
      forall e | e in all && e != d ensures Now(e) == old(Now(e)) {
      }
      if failed {
        RemoveDownTrack(d);
      }
    }

    /** Forward under way: those of `all` not in `todo` have taken the packet. */
    ghost predicate Underway(all: set<DownTrack>, todo: set<DownTrack>, before: map<DownTrack, Outcome>,
                             arrivals: DownTrack -> Arrival, refused: set<DownTrack>)
      reads this, all, Selectors(all), Sequencers(all)
    {
      && Valid() && Separate(all) && (forall d :: d in all ==> d.trackReceiver == trackReceiver)
      && todo <= all && all == before.Keys && Snapshot(all) == PartlyTaken(before, arrivals, todo)
      && downTracks == Left(all, refused, todo)
    }

    /** Every downtrack takes the packet exactly once, in any order and each at its own moment; one whose local
        track refuses a packet it is sent (`refusing`) is removed, and no other. */
    method Forward(packet: Packet, fromLayer: string, at: DownTrack -> Moment, refusing: set<DownTrack>)
      requires Valid()
      modifies this`downTracks, downTracks`sent, Selectors(downTracks), Sequencers(downTracks)
      ensures Valid()
      ensures var layers := old(trackReceiver.View());
        var arrivals := (d: DownTrack) => ArrivalAt(packet, fromLayer, layers, at(d));
        var before := old(Snapshot(downTracks));
        && Snapshot(old(downTracks)) == AllTaken(before, arrivals)
        && downTracks == old(downTracks) - (Served(before, arrivals) * refusing)
    {
      ghost var all := downTracks;
      ghost var before, layers := Snapshot(all), trackReceiver.View();
      ghost var arrivals := (d: DownTrack) => ArrivalAt(packet, fromLayer, layers, at(d));
      AllHaveTaken(before, arrivals);
      ghost var refused := Served(before, arrivals) * refusing;
      AllLeft(all, refused);
      var todo: set<DownTrack> := downTracks;
      while todo != {}
        invariant Underway(all, todo, before, arrivals, refused) && trackReceiver.View() == layers
        decreases todo
      {
        var d: DownTrack :| d in todo;
        OneMoreTakes(before, arrivals, todo, d);
        OneMoreLeaves(all, refused, todo, d);
        assert Now(d) == Snapshot(all)[d] == before[d];
        Deliver(d, packet, fromLayer, at(d), d in refusing, all);
        todo := todo - {d};
      }
    }

    /** The track's list of downtracks, as a bag. */
    function List(): multiset<DownTrack>
      reads trackReceiver`downTracks
    {
      multiset(trackReceiver.downTracks)
    }

    /** Close under way: those of `all` not in `todo` are closed, and off the list if they were open. */
    ghost predicate Closing(all: set<DownTrack>, todo: set<DownTrack>, open: set<DownTrack>, list: multiset<DownTrack>)
      reads this, all, trackReceiver`downTracks
    {
      && downTracks == all && todo <= all && closed
      && (forall d :: d in all ==> d.trackReceiver == trackReceiver)
      && (forall d :: d in all ==> (d.closed <==> !(d in todo && d in open)))
      && List() == Off(list, open, todo)
    }

    method CloseNext(d: DownTrack, ghost all: set<DownTrack>, ghost todo: set<DownTrack>, ghost open: set<DownTrack>,
                     ghost list: multiset<DownTrack>)
      requires d in todo && Closing(all, todo, open, list)
      modifies d`closed, trackReceiver`downTracks
      ensures Closing(all, todo - {d}, open, list)
    {
      OneMoreOff(list, open, todo, d);
      d.Close();
    }

    method CloseAll(ghost open: set<DownTrack>, ghost list: multiset<DownTrack>)
      requires Closing(downTracks, downTracks, open, list)
      modifies downTracks`closed, trackReceiver`downTracks
      ensures Closing(downTracks, {}, open, list)
    {
      ghost var all := downTracks;
      var todo: set<DownTrack> := downTracks;
      while todo != {}
        invariant Closing(all, todo, open, list)
        decreases todo
      {
        var d: DownTrack :| d in todo;
        CloseNext(d, all, todo, open, list);
        todo := todo - {d};
      }
    }

    /** Closes every downtrack once; the track's list loses each that was open once, and nothing else. */
    method Close()
      requires Valid()
      modifies this`closed, downTracks`closed, trackReceiver`downTracks
      ensures closed && downTracks == old(downTracks)
      ensures old(closed) ==> List() == old(List())
      ensures !old(closed) ==> forall d :: d in downTracks ==> d.closed
      ensures !old(closed) ==> List() == old(List()) - multiset(old(OpenOnes(downTracks)))
    {
      if closed {
        return;
      }
      ghost var list, open := List(), OpenOnes(downTracks);
      closed := true;
      AllOff(list, open, downTracks);
      CloseAll(open, list);
    }
  }

  /** What AddTrack and Subscribe do for one subscriber and one track: AddDownTrack, and unless that
      fails GetDownTrack and Forwarder.AddDownTrack. A forwarder of the track stays valid, whether the
      downtrack is new or was there before. */
  method Connect(subscriber: Subscriber, track: TrackReceiver, forwarder: Forwarder, ssrc: Ssrc, ok: bool)
    returns (failed: bool)
    requires track.Valid()
    modifies subscriber`downTracks, subscriber`media, track`downTracks, forwarder`downTracks
    ensures subscriber.Attached(old(subscriber.downTracks), old(subscriber.media), old(track.downTracks),
                                track, ssrc, ok)
    ensures var id := track.trackID;
      && failed == (F.Attaches(subscriber.closed, id in old(subscriber.downTracks), Best(track.View()).Some?) && !ok)
      && forwarder.downTracks ==
         if failed || forwarder.closed || id !in subscriber.downTracks then old(forwarder.downTracks)
         else old(forwarder.downTracks) + {subscriber.downTracks[id]}
    ensures forall id :: id in subscriber.downTracks && id !in old(subscriber.downTracks) ==>
      fresh(subscriber.downTracks[id])
    ensures old(forwarder.Valid()) && forwarder.trackReceiver == track
      && (track.trackID in old(subscriber.downTracks) ==>
            var d := old(subscriber.downTracks)[track.trackID];
            d.trackReceiver == track && Separate(old(forwarder.downTracks) + {d}))
      ==> forwarder.Valid()
  {
    ghost var held := Selectors(forwarder.downTracks);
    ghost var holds := Sequencers(forwarder.downTracks);
    failed := subscriber.AddDownTrack(track, ssrc, ok);
    if !failed && track.trackID in subscriber.downTracks {
      ghost var d := subscriber.downTracks[track.trackID];
      if forwarder.Valid() && track.trackID !in old(subscriber.downTracks) {
        assert d.selector !in held && d.sequencer !in holds;
        SeparateWith(forwarder.downTracks, d);
      }
      forwarder.AddDownTrack(subscriber.downTracks[track.trackID]);
    }
  }
}
