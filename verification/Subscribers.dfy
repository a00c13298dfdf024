/** The subscriber object (pkg/sfu/subscriber.go). Each critical section is a step of the protocols in
    Negotiation and Fabric, and each whole method, when nobody comes between, is a run of them. */
module Subscribers {
  import N = Negotiation
  import F = Fabric
  import opened Rtp
  import opened Switching
  import opened Values
  import opened Tracks

  /** Which of the calls into the connection succeed. */
  datatype Outcomes = Outcomes(create: bool, setLocal: bool, send: bool)

  class Subscriber {
    var closed: bool
    var negotiating: bool
    var needsOffer: bool
    var downTracks: map<string, DownTrack>
    var signaling: N.Signaling    // the peer connection, as far as it matters here
    var media: nat

    function Fields(): N.Fields
      reads this
    {
      N.Fields(negotiating, needsOffer, closed)
    }

    /** This object is the one the protocol state speaks of. */
    predicate Is(s: N.State)
      reads this
    {
      s.fields == Fields() && s.signaling == signaling && s.media == media
    }

    constructor ()
      ensures Is(N.INITIAL) && downTracks == map[]
    {
      closed, negotiating, needsOffer, downTracks := false, false, false, map[];
      signaling, media := N.Stable, 0;
    }

    // -------------------------------------------------------------- downtracks

    /** What AddDownTrack does: one new downtrack for the track, with the codec of its best layer, in the map
        and at the end of the track's list, if one is due and pion makes it (`ok`); otherwise nothing. */
    predicate Attached(downTracks0: map<string, DownTrack>, media0: nat, list0: seq<DownTrack>,
                       track: TrackReceiver, ssrc: Ssrc, ok: bool)
      reads this, track, track.layers.Values, downTracks.Values,
        set id | id in downTracks :: downTracks[id].selector, set id | id in downTracks :: downTracks[id].sequencer
    {
      var id, best := track.trackID, Best(track.View());
      if F.Attaches(closed, id in downTracks0, best.Some?) && ok then
        && id in downTracks && downTracks == downTracks0[id := downTracks[id]]
        && downTracks[id].trackReceiver == track && downTracks[id].State() == NewDown(track.View())
        && best.value in track.layers && downTracks[id].OutLine() == Line(track.layers[best.value].codec, ssrc)
        && track.downTracks == list0 + [downTracks[id]] && media == media0 + 1
      else
        downTracks == downTracks0 && track.downTracks == list0 && media == media0
    }

    method AddDownTrack(track: TrackReceiver, ssrc: Ssrc, ok: bool) returns (failed: bool)
      requires track.Valid()
      modifies this`downTracks, this`media, track`downTracks
      ensures Attached(old(downTracks), old(media), old(track.downTracks), track, ssrc, ok)
      ensures failed == (F.Attaches(closed, track.trackID in old(downTracks), Best(track.View()).Some?) && !ok)
      ensures forall id :: id in downTracks && id !in old(downTracks) ==>
        fresh(downTracks[id]) && fresh(downTracks[id].selector) && fresh(downTracks[id].sequencer)
    {
      if closed {
        return false;
      }
      var trackID := track.trackID;
      if trackID in downTracks {
        return false;
      }
      var bestLayer := track.GetBestLayer();
      if bestLayer == null {
        return false;
      }
      if !ok {
        return true;
      }
      Attach(track, bestLayer.codec, ssrc);
      return false;
    }

    /** A new downtrack, in the subscriber's map and in the track's list. */
    method Attach(track: TrackReceiver, codec: string, ssrc: Ssrc)
      requires track.Valid()
      modifies this`downTracks, this`media, track`downTracks
      ensures var id := track.trackID;
        && downTracks.Keys == old(downTracks).Keys + {id} && downTracks == old(downTracks)[id := downTracks[id]]
        && fresh(downTracks[id]) && downTracks[id].trackReceiver == track
        && fresh(downTracks[id].selector) && fresh(downTracks[id].sequencer)
        && downTracks[id].State() == NewDown(track.View()) && downTracks[id].OutLine() == Line(codec, ssrc)
        && track.downTracks == old(track.downTracks) + [downTracks[id]]
        && media == old(media) + 1
    {
      var dt := new DownTrack(track, codec, ssrc);
      media := media + 1;
      downTracks := downTracks[track.trackID := dt];
      track.AddDownTrack(dt);
    }

    // -------------------------------------------------------------- critical sections under negMu

    /** The critical section at the start of Negotiate. */
    method EnterNegotiate() returns (start: bool)
      modifies this`negotiating, this`needsOffer
      ensures start == N.Decide(old(Fields())).Started? && Fields() == N.Enter(old(Fields()))
    {
      if closed {
        return false;
      }
      if negotiating {
        needsOffer := true;
        return false;
      }
      negotiating := true;
      needsOffer := false;
      return true;
    }

    method ResetNegotiationState()
      modifies this`negotiating
      ensures Fields() == N.AfterError(old(Fields()))
    {
      negotiating := false;
    }

    /** The critical section of HandleAnswer. */
    method ResetAfterAnswer() returns (renegotiate: bool)
      modifies this`negotiating, this`needsOffer
      ensures Fields() == N.AfterAnswer(old(Fields())) && renegotiate == old(needsOffer)
    {
      negotiating := false;
      renegotiate := needsOffer;
      needsOffer := false;
    }

    // -------------------------------------------------------------- whole methods, undisturbed

    /** The rest of a negotiation that has been started; `v` is the media version of its offer. */
    static function DoNegotiateRun(v: nat, calls: Outcomes): seq<N.Event> {
      if !calls.create then [N.CreateOffer(false), N.ResetAfterError]
      else if !calls.setLocal then [N.CreateOffer(true), N.SetLocal(v, false), N.ResetAfterError]
      else [N.CreateOffer(true), N.SetLocal(v, true), N.SendOffer(v, calls.send)]
    }

    method DoNegotiate(calls: Outcomes, ghost s: N.State) returns (failed: bool, ghost s': N.State)
      requires Is(s) && s.creators > 0
      modifies this`negotiating, this`signaling
      ensures failed == !(calls.create && calls.setLocal && calls.send)
      ensures N.Legal(s, DoNegotiateRun(media, calls)) && s' == N.Exec(s, DoNegotiateRun(media, calls)) && Is(s')
      ensures if calls.create && calls.setLocal then Fields() == old(Fields()) && signaling == N.HaveLocalOffer
              else Fields() == N.AfterError(old(Fields())) && signaling == old(signaling)
      ensures s'.creators == s.creators - 1 && s'.failers == s.failers
      ensures s'.setters == s.setters && s'.senders == s.senders
    {
      ghost var v := media;
      ghost var s1 := N.Next(s, N.CreateOffer(calls.create));
      if !calls.create {
        ResetNegotiationState();
        s' := N.Next(s1, N.ResetAfterError);
        Two(s, N.CreateOffer(false), N.ResetAfterError);
        return true, s';
      }
      ghost var s2 := N.Next(s1, N.SetLocal(v, calls.setLocal));
      if !calls.setLocal {
        ResetNegotiationState();
        s' := N.Next(s2, N.ResetAfterError);
        Three(s, N.CreateOffer(true), N.SetLocal(v, false), N.ResetAfterError);
        return true, s';
      }
      signaling := N.HaveLocalOffer;
      s' := N.Next(s2, N.SendOffer(v, calls.send));
      Three(s, N.CreateOffer(true), N.SetLocal(v, true), N.SendOffer(v, calls.send));
      return !calls.send, s';
    }

    /** How a goroutine comes to Negotiate: called, or spawned by HandleAnswer. */
    static function EntryEvent(spawned: bool): N.Event {
      if spawned then N.RunSpawned else N.Call
    }

    method Negotiate(calls: Outcomes, ghost spawned: bool, ghost s: N.State) returns (failed: bool, ghost s': N.State)
      requires Is(s) && N.Enabled(s, EntryEvent(spawned))
      modifies this`negotiating, this`needsOffer, this`signaling
      ensures var entered := N.Next(s, EntryEvent(spawned));
        && (N.Decide(s.fields).Started? ==>
              && N.Legal(entered, DoNegotiateRun(media, calls)) && s' == N.Exec(entered, DoNegotiateRun(media, calls))
              && failed == !(calls.create && calls.setLocal && calls.send))
        && (!N.Decide(s.fields).Started? ==> s' == entered && !failed)
      ensures Is(s')
    {
      var start := EnterNegotiate();
      s' := N.Next(s, EntryEvent(spawned));
      failed := false;
      if start {
        failed, s' := DoNegotiate(calls, s');
      }
    }

    /** HandleAnswer; `renegotiate` says whether it spawns a goroutine that calls Negotiate. */
    method HandleAnswer(ok: bool, ghost s: N.State) returns (failed: bool, renegotiate: bool, ghost s': N.State)
      requires Is(s)
      modifies this`negotiating, this`needsOffer, this`signaling
      ensures failed == !(ok && s.signaling == N.HaveLocalOffer)
      ensures failed ==> s' == s && !renegotiate
      ensures !failed ==>
        && N.Legal(s, [N.SetRemote(true), N.ResetAfterAnswer])
        && s' == N.Exec(s, [N.SetRemote(true), N.ResetAfterAnswer])
        && s'.spawned == (s.spawned + if renegotiate then 1 else 0) && s'.clearers == s.clearers
        && Fields() == N.Fields(false, false, closed) && signaling == N.Stable && renegotiate == old(needsOffer)
      ensures Is(s')
    {
      if !ok || signaling != N.HaveLocalOffer {
        return true, false, s;
      }
      signaling := N.Stable;
      renegotiate := ResetAfterAnswer();
      s' := N.Next(N.Next(s, N.SetRemote(true)), N.ResetAfterAnswer);
      Two(s, N.SetRemote(true), N.ResetAfterAnswer);
      failed := false;
    }

    /** Sets the flag and hands over what is to be closed; the downtracks stay in the map. */
    method Close() returns (toClose: set<DownTrack>)
      modifies this`closed
      ensures Fields() == old(Fields()).(closed := true)
      ensures toClose == if old(closed) then {} else downTracks.Values
    {
      if closed {
        return {};
      }
      closed := true;
      return downTracks.Values;
    }
  }

  lemma Two(s: N.State, a: N.Event, b: N.Event)
    requires N.Enabled(s, a) && N.Enabled(N.Next(s, a), b)
    ensures N.Legal(s, [a, b]) && N.Exec(s, [a, b]) == N.Next(N.Next(s, a), b)
  {
    N.Prepend(N.Next(s, a), b, []);
    N.Prepend(s, a, [b]);
    assert [b] + [] == [b] && [a] + [b] == [a, b];
  }

  lemma Three(s: N.State, a: N.Event, b: N.Event, c: N.Event)
    requires N.Enabled(s, a) && N.Enabled(N.Next(s, a), b) && N.Enabled(N.Next(N.Next(s, a), b), c)
    ensures N.Legal(s, [a, b, c]) && N.Exec(s, [a, b, c]) == N.Next(N.Next(N.Next(s, a), b), c)
  {
    Two(N.Next(s, a), b, c);
    N.Prepend(s, a, [b, c]);
    assert [a] + [b, c] == [a, b, c];
  }
}
