/** What a client gets of a track, packet by packet (pkg/sfu/downtrack.go, pkg/sfu/track.go): the layer it starts on,
    exactly when it is switched to another one, and that the layer it asks for is reached. */
module Packets {
  import Layers
  import Selector
  import opened Rtp
  import opened Switching
  import opened Values

  // ---------------------------------------------------------------- the first layer

  const VIDEO := {Layers.HIGH, Layers.MID, Layers.LOW}

  /** GetBestLayer finds "default" where it exists, and otherwise the active layer of the highest priority. */
  lemma BestIsHighestActive(layers: LayerMap, name: string)
    ensures Layers.DEFAULT in layers ==> Best(layers) == Some(Layers.DEFAULT)
    ensures Layers.DEFAULT !in layers ==>
      (Best(layers) == Some(name) <==>
         && name in VIDEO && IsActive(layers, name)
         && forall m :: m in VIDEO && IsActive(layers, m) ==> Layers.Priority(m) <= Layers.Priority(name))
    ensures Best(layers).None? <==>
      Layers.DEFAULT !in layers && forall m :: m in VIDEO ==> !IsActive(layers, m)
  {
    assert Layers.HIGH in VIDEO && Layers.MID in VIDEO && Layers.LOW in VIDEO;
  }

  /** Two seconds have passed since the last change of layer, if there was one. */
  predicate Rested(sel: Selector.Sel, now: int) {
    sel.last.At? ==> now - sel.last.time >= 2_000_000_000
  }

  /** A downtrack starts on "mid" if the track has it, active or not; otherwise on the highest active layer, so that
      whenever one of the track's layers can be sent, the first layer is one the track has. */
  lemma StartsOnMidOrBest(layers: LayerMap)
    ensures var sel := NewDown(layers).sel;
      && sel.target == sel.current && !Selector.NeedsSwitch(sel) && (forall now :: Rested(sel, now))
      && (Layers.MID in layers ==> sel.current == Layers.MID)
      && (Layers.MID !in layers && Best(layers).Some? ==> Best(layers) == Some(sel.current))
      && (Layers.MID !in layers && Best(layers).None? ==> sel.current == Layers.MID)
      && (Best(layers).Some? ==> sel.current in layers)
  {
    assert Layers.DEFAULT != "" && Layers.HIGH != "" && Layers.MID != "" && Layers.LOW != "";
  }

  // ---------------------------------------------------------------- exactly when the layer changes

  /** The target after others have set theirs. */
  function LastOf(target: string, others: seq<string>): string {
    if others == [] then target else others[|others| - 1]
  }

  /** The packet is a keyframe of the layer that is wanted, two seconds have passed since the last change, and another
      layer than the current one is still wanted when WriteRTP asks. */
  predicate WillSwitch(l: Line, sel: Selector.Sel, a: Arrival) {
    l.Keyframe(a) && a.from == sel.target && LastOf(sel.target, a.x.beforeCheck) != sel.current && Rested(sel, a.now)
  }

  /** What WriteRTP does with any packet, whatever layers there are and whatever others do to the target meanwhile: it
      carries on with the wanted layer if it switches, and with the current one if not. While that one is active, its
      packets are sent, and a switch goes to the target there is by then; otherwise everything is sent, and a
      keyframe takes the downtrack to its own layer. */
  lemma PacketExactly(l: Line, d: Down, a: Arrival)
    requires Selector.Inv(d.sel) && a.now <= a.later && !d.closed
    ensures var sel := Next(l, d, Arrive(a)).sel;
      var layer := if WillSwitch(l, d.sel, a) then d.sel.target else d.sel.current;
      var wanted := LastOf(LastOf(d.sel.target, a.x.beforeCheck), a.x.beforeSwitch);
      && Selector.Inv(sel)
      && (Sends(l, d, a) <==> (IsActive(a.layers, layer) ==> a.from == layer))
      && if !IsActive(a.layers, layer) && l.Keyframe(a) then
           sel == Selector.Sel(a.from, a.from, false, Selector.At(a.later))
         else
           && sel.target == wanted
           && sel.current == (if WillSwitch(l, d.sel, a) then wanted else d.sel.current)
           && sel.last == (if sel.current != d.sel.current then Selector.At(a.later) else d.sel.last)
  {
    var seen := Selector.TargetedAll(d.sel, a.x.beforeCheck);
    Selector.TargetsKeep(d.sel, a.x.beforeCheck);
    Selector.TargetsKeep(seen, a.x.beforeSwitch);
    TriedLayerIsCurrent(d.sel, l.Keyframe(a), a);
  }

  /** Undisturbed, the layer changes exactly at a keyframe of the wanted layer, and that keyframe is sent. */
  lemma SwitchesExactly(l: Line, d: Down, a: Arrival)
    requires Selector.Inv(d.sel) && a.now <= a.later && !d.closed && a.x == UNDISTURBED
    requires IsActive(a.layers, d.sel.current) && IsActive(a.layers, a.from)
    ensures var sel := Next(l, d, Arrive(a)).sel;
      && (sel.current != d.sel.current <==>
            a.from == d.sel.target != d.sel.current && l.Keyframe(a) && Rested(d.sel, a.now))
      && (sel.current != d.sel.current ==> sel.current == d.sel.target && Sends(l, d, a))
      && (sel.current == d.sel.current ==> sel == d.sel && (Sends(l, d, a) <==> a.from == d.sel.current))
      && sel.target == d.sel.target
  {
    PacketExactly(l, d, a);
  }

  /** While the current layer is missing or inactive, and nobody disturbs, every packet is sent, and the first keyframe
      takes the downtrack to its own layer for good: no other layer is wanted any more. */
  lemma InactiveFollowsKeyframes(l: Line, d: Down, a: Arrival)
    requires Selector.Inv(d.sel) && a.now <= a.later && !d.closed && a.x == UNDISTURBED
    requires !IsActive(a.layers, d.sel.current)
    ensures Sends(l, d, a)
    ensures var sel := Next(l, d, Arrive(a)).sel;
      if l.Keyframe(a) then sel == Selector.Sel(a.from, a.from, false, Selector.At(a.later)) else sel == d.sel
  {
    PacketExactly(l, d, a);
  }

  // ---------------------------------------------------------------- the layer asked for is reached

  /** Packets only, undisturbed, of active layers, while two given layers are active. */
  predicate Steady(es: seq<Event>, current: string, target: string) {
    forall e :: e in es ==>
      && e.Arrive? && e.a.x == UNDISTURBED && e.a.now <= e.a.later && IsActive(e.a.layers, e.a.from)
      && IsActive(e.a.layers, current) && IsActive(e.a.layers, target)
  }

  lemma {:induction false} ReachedStays(l: Line, d: Down, es: seq<Event>)
    requires Selector.Inv(d.sel) && !d.closed && d.sel.current == d.sel.target
    requires Steady(es, d.sel.current, d.sel.target)
    ensures Exec(l, d, es).sel == d.sel
    decreases es
  {
    if es != [] {
      assert es[0] in es;
      SwitchesExactly(l, d, es[0].a);
      ReachedStays(l, Next(l, d, es[0]), es[1..]);
    }
  }

  lemma {:induction false} WantedIsReached(l: Line, d: Down, es: seq<Event>, k: nat)
    requires Selector.Inv(d.sel) && !d.closed && Steady(es, d.sel.current, d.sel.target)
    requires k < |es| && es[k].a.from == d.sel.target && l.Keyframe(es[k].a) && Rested(d.sel, es[k].a.now)
    ensures Exec(l, d, es).sel.current == d.sel.target
    decreases es
  {
    assert es[0] in es;
    SwitchesExactly(l, d, es[0].a);
    var d' := Next(l, d, es[0]);
    if d'.sel.current == d'.sel.target {
      ReachedStays(l, d', es[1..]);
    } else {
      WantedIsReached(l, d', es[1..], k - 1);
    }
  }

  lemma {:induction false} InvRun(l: Line, d: Down, es: seq<Event>)
    requires Selector.Inv(d.sel) && ClockOk(es)
    ensures Selector.Inv(Exec(l, d, es).sel)
    decreases es
  {
    if es != [] {
      assert es[0] in es;
      if es[0].Arrive? { TriedLayerIsCurrent(d.sel, l.Keyframe(es[0].a), es[0].a); }
      InvRun(l, Next(l, d, es[0]), es[1..]);
    }
  }

  /** The layer a client asks for is reached. From every reachable state of an open downtrack: after
      SetTargetLayer, while nothing else sets a target and both layers are active, the downtrack is on the layer
      asked for as soon as a keyframe of it has come two seconds after the last change. */
  lemma RequestIsReached(l: Line, layers: LayerMap, es: seq<Event>, layer: string, fs: seq<Event>, k: nat)
    requires ClockOk(es) && !Exec(l, NewDown(layers), es).closed
    requires Steady(fs, Exec(l, NewDown(layers), es).sel.current, layer)
    requires k < |fs| && fs[k].a.from == layer && l.Keyframe(fs[k].a)
    requires Rested(Exec(l, NewDown(layers), es).sel, fs[k].a.now)
    ensures Exec(l, Next(l, Exec(l, NewDown(layers), es), SetTarget(layer)), fs).sel.current == layer
  {
    InvRun(l, NewDown(layers), es);
    WantedIsReached(l, Next(l, Exec(l, NewDown(layers), es), SetTarget(layer)), fs, k);
  }

  /** The other way round: a layer nobody asked for is never switched to, as long as the current one is active. */
  lemma {:induction false} OnlyRequestsChangeLayer(l: Line, d: Down, es: seq<Event>)
    requires Selector.Inv(d.sel) && ClockOk(es) && AlwaysActive(l, d, es)
    requires d.sel.current == d.sel.target
    requires forall e :: e in es ==> !e.SetTarget? && (e.Arrive? ==> e.a.x == UNDISTURBED)
    ensures Exec(l, d, es).sel == d.sel
    decreases es
  {
    if es != [] {
      assert es[0] in es;
      OnlyRequestsChangeLayer(l, Next(l, d, es[0]), es[1..]);
    }
  }
}
