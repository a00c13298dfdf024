/** The objects that carry one track: its layers, its receiver and its downtracks
    (pkg/sfu/layer.go, pkg/sfu/track.go, pkg/sfu/downtrack.go). */
module Tracks {
  import Layers
  import Selector
  import opened Packets
  import opened Rtp
  import opened Switching
  import opened Values

  class Layer {
    const name: string
    const ssrc: Ssrc
    const codec: string
    var active: bool

    constructor (name: string, ssrc: Ssrc, codec: string)
      ensures this.name == name && this.ssrc == ssrc && this.codec == codec && active
    {
      this.name, this.ssrc, this.codec, this.active := name, ssrc, codec, true;
    }

    method SetActive(active: bool)
      modifies this
      ensures this.active == active
    {
      this.active := active;
    }
  }

  /** The list without its first occurrence of x. */
  function WithoutFirst<T(==)>(xs: seq<T>, x: T): (ys: seq<T>)
    ensures multiset(ys) == multiset(xs) - multiset{x}
    decreases xs
  {
    if xs == [] then []
    else
      assert xs == [xs[0]] + xs[1..];
      if xs[0] == x then xs[1..] else [xs[0]] + WithoutFirst(xs[1..], x)
  }

  lemma {:induction false} WithoutFirstAt<T>(xs: seq<T>, i: nat)
    requires i < |xs| && xs[i] !in xs[..i]
    ensures WithoutFirst(xs, xs[i]) == xs[..i] + xs[i + 1..]
    decreases i
  {
    if i > 0 {
      var tail := xs[1..];
      assert xs[..i] == [xs[0]] + tail[..i - 1];
      assert xs[i + 1..] == tail[i..];
      WithoutFirstAt(tail, i - 1);
    }
  }

  lemma {:induction false} WithoutFirstOfNone<T>(xs: seq<T>, x: T)
    requires x !in xs
    ensures WithoutFirst(xs, x) == xs
    decreases xs
  {
    if xs != [] {
      WithoutFirstOfNone(xs[1..], x);
    }
  }

  class TrackReceiver {
    const trackID: string
    var layers: map<string, Layer>
    var downTracks: seq<DownTrack>
    var closed: bool

    ghost predicate Valid()
      reads this`layers
    {
      forall n :: n in layers ==> layers[n].name == n
    }

    /** The layers as values. */
    function View(): LayerMap
      reads this`layers, layers.Values`active
    {
      map n | n in layers :: LayerInfo(layers[n].ssrc, layers[n].active)
    }

    constructor (trackID: string)
      ensures Valid() && this.trackID == trackID && View() == map[] && downTracks == [] && !closed
    {
      this.trackID, layers, downTracks, closed := trackID, map[], [], false;
    }

    method AddLayer(name: string, ssrc: Ssrc, codec: string)
      requires Valid()
      modifies this
      ensures Valid() && closed == old(closed) && downTracks == old(downTracks)
      ensures View() == if closed then old(View()) else old(View())[name := LayerInfo(ssrc, true)]
    {
      if closed {
        return;
      }
      var layer := new Layer(name, ssrc, codec);
      layers := layers[name := layer];
    }

    method GetLayer(name: string) returns (layer: Layer?)
      ensures layer == null <==> name !in View()
      ensures layer != null ==> name in layers && layers[name] == layer
    {
      layer := if name in layers then layers[name] else null;
    }

    method GetBestLayer() returns (layer: Layer?)
      requires Valid()
      ensures layer == null <==> Best(View()).None?
      ensures layer != null ==> Best(View()) == Some(layer.name) && layer.name in layers && layers[layer.name] == layer
      ensures Layers.DEFAULT in layers ==> layer == layers[Layers.DEFAULT]
      ensures Layers.DEFAULT !in layers && layer != null ==> layer.active && layer.name in VIDEO
      ensures Layers.DEFAULT !in layers ==> forall m :: m in VIDEO && m in layers && layers[m].active ==>
        layer != null && Layers.Priority(m) <= Layers.Priority(layer.name)
    {
      if Layers.DEFAULT in layers {
        return layers[Layers.DEFAULT];
      }
      var order := [Layers.HIGH, Layers.MID, Layers.LOW];
      for i := 0 to |order|
        invariant forall k :: 0 <= k < i ==> !IsActive(View(), order[k])
      {
        var name := order[i];
        if name in layers && layers[name].active {
          assert order[0] == Layers.HIGH && order[1] == Layers.MID && order[2] == Layers.LOW;
          assert Best(View()) == Some(name);
          return layers[name];
        }
      }
      assert order[0] == Layers.HIGH && order[1] == Layers.MID && order[2] == Layers.LOW;
      return null;
    }

    method AddDownTrack(dt: DownTrack)
      modifies this`downTracks
      ensures downTracks == old(downTracks) + [dt]
    {
      downTracks := downTracks + [dt];
    }

    method RemoveDownTrack(dt: DownTrack)
      modifies this`downTracks
      ensures downTracks == WithoutFirst(old(downTracks), dt)
    {
      for i := 0 to |downTracks|
        invariant downTracks == old(downTracks)
        invariant dt !in downTracks[..i]
      {
        if downTracks[i] == dt {
          WithoutFirstAt(downTracks, i);
          downTracks := downTracks[..i] + downTracks[i + 1..];
          return;
        }
      }
      assert downTracks[..|downTracks|] == downTracks;
      WithoutFirstOfNone(downTracks, dt);
    }

    method Close()
      modifies this`closed
      ensures closed
    {
      closed := true;
    }
  }

  class DownTrack {
    const trackReceiver: TrackReceiver
    const selector: Selector.LayerSelector
    const sequencer: RtpSequencer
    const codec: string
    const ssrc: Ssrc
    var closed: bool
    var sent: seq<Packet>    // the packets handed to the local track

    function State(): Down
      reads this, selector, sequencer
    {
      Down(selector.State(), sequencer.State(), closed)
    }

    function OutLine(): Line {
      Line(codec, ssrc)
    }

    constructor (trackReceiver: TrackReceiver, codec: string, ssrc: Ssrc)
      requires trackReceiver.Valid()
      ensures this.trackReceiver == trackReceiver && OutLine() == Line(codec, ssrc)
      ensures fresh(selector) && fresh(sequencer)
      ensures State() == NewDown(trackReceiver.View()) && sent == []
    {
      var initialLayer := Layers.MID;
      var mid := trackReceiver.GetLayer(Layers.MID);
      if mid == null {
        var layer := trackReceiver.GetBestLayer();
        if layer != null {
          initialLayer := layer.name;
        }
      }
      this.trackReceiver, this.codec, this.ssrc := trackReceiver, codec, ssrc;
      sequencer := new RtpSequencer();
      selector := new Selector.LayerSelector(initialLayer);
      closed, sent := false, [];
    }

    method SetTargetLayer(layer: string)
      modifies selector
      ensures State() == Next(OutLine(), old(State()), Event.SetTarget(layer))
    {
      selector.SetTargetLayer(layer);
    }

    /** Other goroutines calling SetTargetLayer while this one is between two calls. */
    method Others(targets: seq<string>)
      modifies selector
      ensures selector.State() == Selector.TargetedAll(old(selector.State()), targets)
    {
      for i := 0 to |targets|
        invariant Selector.TargetedAll(selector.State(), targets[i..]) ==
                  Selector.TargetedAll(old(selector.State()), targets)
      {
        assert targets[i..][1..] == targets[i + 1..];
        selector.SetTargetLayer(targets[i]);
      }
    }

    method TryLayerSwitch(packet: Packet, fromLayer: string, now: int, later: int, x: Interference)
      returns (layer: string)
      modifies selector
      ensures var a := Arrival(AsSource(packet), fromLayer, trackReceiver.View(), now, later, x);
        var keyframe := OutLine().Keyframe(a);
        && layer == TriedLayer(old(selector.State()), keyframe, a)
        && selector.State() == AfterTry(old(selector.State()), keyframe, a)
    {
      var currentLayer := selector.currentLayer;
      var targetLayer := selector.targetLayer;
      Others(x.beforeCheck);
      var tryIt := selector.pendingSwitch && selector.currentLayer != selector.targetLayer;
      if tryIt && selector.lastSwitchTime.At? {
        tryIt := now - selector.lastSwitchTime.time >= Selector.COOLDOWN;
      }
      Others(x.beforeSwitch);
      if !tryIt || !IsKeyframe(packet.payload, codec) {
        return currentLayer;
      }
      if fromLayer == targetLayer {
        var _ := selector.SwitchToTarget(later);
        return targetLayer;
      }
      return currentLayer;
    }

    method ShouldForwardPacket(packet: Packet, fromLayer: string, currentLayer: string, later: int)
      returns (forward: bool)
      modifies selector
      ensures forward == (IsActive(trackReceiver.View(), currentLayer) ==> fromLayer == currentLayer)
      ensures selector.State() ==
              if !IsActive(trackReceiver.View(), currentLayer) && IsKeyframe(packet.payload, codec)
              then Selector.Forced(old(selector.State()), fromLayer, later) else old(selector.State())
    {
      var layer := trackReceiver.GetLayer(currentLayer);
      if layer != null && layer.active {
        return fromLayer == currentLayer;
      }
      if IsKeyframe(packet.payload, codec) {
        selector.ForceSwitch(fromLayer, later);
      }
      return true;
    }

    /** WriteRTP, with whatever other goroutines do to the target meanwhile, is one step of the downtrack
        machine; `writable` says whether the local track takes the packet. */
    method WriteRTP(packet: Packet, fromLayer: string, now: int, later: int, x: Interference, writable: bool)
      returns (failed: bool)
      modifies this`sent, selector, sequencer
      ensures var a := Arrival(AsSource(packet), fromLayer, trackReceiver.View(), now, later, x);
        var d := old(State());
        && State() == Next(OutLine(), d, Arrive(a))
        && sent == old(sent) + (if Sends(OutLine(), d, a) then [Rewritten(d.seqr, packet, ssrc)] else [])
        && failed == (Sends(OutLine(), d, a) && !writable)
    {
      if closed {
        return false;
      }
      var currentLayer := TryLayerSwitch(packet, fromLayer, now, later, x);
      var forward := ShouldForwardPacket(packet, fromLayer, currentLayer, later);
      if !forward {
        return false;
      }
      var rewritten := sequencer.Rewrite(packet, ssrc);
      sent := sent + [rewritten];
      return !writable;
    }

    method Close()
      modifies this`closed, trackReceiver`downTracks
      ensures State() == Next(OutLine(), old(State()), Event.Close)
      ensures trackReceiver.downTracks ==
              if old(closed) then old(trackReceiver.downTracks) else WithoutFirst(old(trackReceiver.downTracks), this)
    {
      if closed {
        return;
      }
      closed := true;
      trackReceiver.RemoveDownTrack(this);
    }
  }
}
