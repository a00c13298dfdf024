/** What a downtrack does with each packet (pkg/sfu/downtrack.go): choose the layer, decide whether to
    forward, rewrite; and what that gives over whole runs. */
module Switching {
  import Layers
  import Selector
  import opened Rtp
  import opened Values

  datatype LayerInfo = LayerInfo(ssrc: Ssrc, active: bool)

  type LayerMap = map<string, LayerInfo>

  predicate IsActive(layers: LayerMap, name: string) {
    name in layers && layers[name].active
  }

  /** TrackReceiver.GetBestLayer. */
  function Best(layers: LayerMap): Option<string> {
    if Layers.DEFAULT in layers then Some(Layers.DEFAULT)
    else if IsActive(layers, Layers.HIGH) then Some(Layers.HIGH)
    else if IsActive(layers, Layers.MID) then Some(Layers.MID)
    else if IsActive(layers, Layers.LOW) then Some(Layers.LOW)
    else None
  }

  /** The layer a new downtrack starts on. */
  function Initial(layers: LayerMap): string {
    if Layers.MID in layers then Layers.MID
    else if Best(layers).Some? then Best(layers).value
    else Layers.MID
  }

  // ---------------------------------------------------------------- one packet

  /** Targets other goroutines set while WriteRTP is between two calls into its selector: after it
      read the target, and after it found that a switch is needed. */
  datatype Interference = Interference(beforeCheck: seq<string>, beforeSwitch: seq<string>)

  const UNDISTURBED := Interference([], [])

  /** A packet reaching WriteRTP from a layer, with the layers the track has then, the two times at which
      the clock is read, and what others do to the target meanwhile. */
  datatype Arrival = Arrival(p: Source, from: string, layers: LayerMap, now: int, later: int, x: Interference)

  /** tryLayerSwitch gets as far as calling SwitchToTarget. */
  predicate Attempts(sel: Selector.Sel, keyframe: bool, a: Arrival) {
    var seen := Selector.TargetedAll(sel, a.x.beforeCheck);
    Selector.NeedsSwitch(seen) && Selector.CanSwitch(seen, a.now) && keyframe && a.from == sel.target
  }

  /** The layer tryLayerSwitch returns. */
  function TriedLayer(sel: Selector.Sel, keyframe: bool, a: Arrival): string {
    if Attempts(sel, keyframe, a) then sel.target else sel.current
  }

  /** The selector when tryLayerSwitch returns. */
  function AfterTry(sel: Selector.Sel, keyframe: bool, a: Arrival): Selector.Sel {
    var s := Selector.TargetedAll(Selector.TargetedAll(sel, a.x.beforeCheck), a.x.beforeSwitch);
    if Attempts(sel, keyframe, a) then Selector.Switched(s, a.later) else s
  }

  predicate Forwards(sel: Selector.Sel, keyframe: bool, a: Arrival) {
    var current := TriedLayer(sel, keyframe, a);
    IsActive(a.layers, current) ==> a.from == current
  }

  /** The selector after the whole of WriteRTP, fallback included. */
  function AfterWrite(sel: Selector.Sel, keyframe: bool, a: Arrival): Selector.Sel {
    var s := AfterTry(sel, keyframe, a);
    if !IsActive(a.layers, TriedLayer(sel, keyframe, a)) && keyframe then Selector.Forced(s, a.from, a.later) else s
  }

  // ---------------------------------------------------------------- the race with SetTargetLayer

  /** The target when WriteRTP calls SwitchToTarget. */
  function Landing(sel: Selector.Sel, a: Arrival): string {
    Selector.TargetedAll(Selector.TargetedAll(sel, a.x.beforeCheck), a.x.beforeSwitch).target
  }

  /** A switch is overtaken: WriteRTP calls SwitchToTarget when the target it read has been replaced. */
  predicate Overtaken(sel: Selector.Sel, keyframe: bool, a: Arrival) {
    Attempts(sel, keyframe, a) && Landing(sel, a) != sel.target
  }

  /** WriteRTP goes on with the layer the selector is really on exactly when its switch, if there is
      one, is not overtaken. */
  lemma TriedLayerIsCurrent(sel: Selector.Sel, keyframe: bool, a: Arrival)
    requires Selector.Inv(sel) && a.now <= a.later
    ensures TriedLayer(sel, keyframe, a) == AfterTry(sel, keyframe, a).current <==> !Overtaken(sel, keyframe, a)
    ensures TriedLayer(sel, keyframe, a) in {sel.current, a.from}
    ensures TriedLayer(sel, keyframe, a) != sel.current ==> keyframe
    ensures Overtaken(sel, keyframe, a) ==> AfterTry(sel, keyframe, a).current == Landing(sel, a)
    ensures Selector.Inv(AfterTry(sel, keyframe, a))
  {
    var seen := Selector.TargetedAll(sel, a.x.beforeCheck);
    Selector.TargetsKeep(sel, a.x.beforeCheck);
    Selector.TargetsKeep(seen, a.x.beforeSwitch);
    if Attempts(sel, keyframe, a) {
      Selector.CanSwitchStaysGood(seen, a.x.beforeSwitch, a.now, a.later);
    }
  }

  // ---------------------------------------------------------------- runs of one downtrack

  /** A downtrack: its selector, its sequencer, and whether it is closed. */
  datatype Down = Down(sel: Selector.Sel, seqr: SeqState, closed: bool)

  function NewDown(layers: LayerMap): Down {
    Down(Selector.New(Initial(layers)), NEW_SEQUENCER, false)
  }

  /** WriteRTP excludes itself by the downtrack's lock, and SetTargetLayer comes before, after or in between. */
  datatype Event = Arrive(a: Arrival) | SetTarget(layer: string) | Close

  /** What stays fixed for a downtrack. */
  datatype Line = Line(codec: string, ssrc: Ssrc) {
    predicate Keyframe(a: Arrival) { IsKeyframe(a.p.payload, codec) }
  }

  predicate Sends(l: Line, d: Down, a: Arrival) {
    !d.closed && Forwards(d.sel, l.Keyframe(a), a)
  }

  function Next(l: Line, d: Down, e: Event): Down {
    match e
    case Arrive(a) =>
      if d.closed then d
      else Down(AfterWrite(d.sel, l.Keyframe(a), a),
                if Sends(l, d, a) then AfterRewrite(d.seqr, a.p.Wire(), l.ssrc) else d.seqr, false)
    case SetTarget(layer) => d.(sel := Selector.Targeted(d.sel, layer))
    case Close => d.(closed := true)
  }

  /** The packets that are forwarded, and what they look like on the way out. */
  function Forwarded(l: Line, d: Down, es: seq<Event>): seq<Arrival>
    decreases es
  {
    if es == [] then [] else
    var rest := Forwarded(l, Next(l, d, es[0]), es[1..]);
    if es[0].Arrive? && Sends(l, d, es[0].a) then [es[0].a] + rest else rest
  }

  function Output(l: Line, d: Down, es: seq<Event>): seq<Packet>
    decreases es
  {
    if es == [] then [] else
    var rest := Output(l, Next(l, d, es[0]), es[1..]);
    if es[0].Arrive? && Sends(l, d, es[0].a) then [Rewritten(d.seqr, es[0].a.p.Wire(), l.ssrc)] + rest else rest
  }

  function Sources(arrivals: seq<Arrival>): (ps: seq<Source>)
    ensures |ps| == |arrivals| && forall k :: 0 <= k < |ps| ==> ps[k] == arrivals[k].p
    decreases arrivals
  {
    if arrivals == [] then [] else [arrivals[0].p] + Sources(arrivals[1..])
  }

  /** The sequencer sees exactly the forwarded packets. */
  lemma {:induction false} OutputIsRewriteRun(l: Line, d: Down, es: seq<Event>)
    ensures Output(l, d, es) == RewriteRun(d.seqr, Wires(Sources(Forwarded(l, d, es))), l.ssrc)
    decreases es
  {
    if es != [] {
      OutputIsRewriteRun(l, Next(l, d, es[0]), es[1..]);
      var rest := Forwarded(l, Next(l, d, es[0]), es[1..]);
      if es[0].Arrive? && Sends(l, d, es[0].a) {
        assert ([es[0].a] + rest)[1..] == rest;
        assert Wires(Sources([es[0].a] + rest)) == [es[0].a.p.Wire()] + Wires(Sources(rest));
        assert ([es[0].a.p.Wire()] + Wires(Sources(rest)))[1..] == Wires(Sources(rest));
      }
    }
  }

  // ---------------------------------------------------------------- the upstream side

  /** Each layer sends under its own SSRC. */
  predicate OwnSsrcs(es: seq<Event>, ssrcs: map<string, Ssrc>) {
    && (forall m, n :: m in ssrcs && n in ssrcs && m != n ==> ssrcs[m] != ssrcs[n])
    && (forall e :: e in es && e.Arrive? ==> e.a.from in ssrcs && e.a.p.ssrc == ssrcs[e.a.from])
  }

  /** Each layer's packets arrive in order and without gaps; `last` has the number each layer is at. */
  predicate Gapless(es: seq<Event>, last: map<string, int>)
    decreases es
  {
    if es == [] then true
    else if es[0].Arrive? then
      var a := es[0].a;
      && (a.from in last ==> a.p.number == last[a.from] + 1)
      && Gapless(es[1..], last[a.from := a.p.number])
    else Gapless(es[1..], last)
  }

  /** Layers are only added, none is ever inactive, and packets come from layers the track has. */
  predicate Growing(es: seq<Event>, known: set<string>)
    decreases es
  {
    if es == [] then true
    else if es[0].Arrive? then
      var a := es[0].a;
      && known <= a.layers.Keys
      && (forall n :: n in a.layers ==> a.layers[n].active)
      && a.from in a.layers
      && Growing(es[1..], a.layers.Keys)
    else Growing(es[1..], known)
  }

  /** The layer the selector is on, after a switch if there is one, is active at every packet. */
  predicate AlwaysActive(l: Line, d: Down, es: seq<Event>)
    decreases es
  {
    es != [] ==>
      && (es[0].Arrive? && !d.closed ==>
            IsActive(es[0].a.layers, TriedLayer(d.sel, l.Keyframe(es[0].a), es[0].a)))
      && AlwaysActive(l, Next(l, d, es[0]), es[1..])
  }

  /** No switch is overtaken by SetTargetLayer. */
  predicate NeverOvertaken(l: Line, d: Down, es: seq<Event>)
    decreases es
  {
    es != [] ==>
      && (es[0].Arrive? && !d.closed ==> !Overtaken(d.sel, l.Keyframe(es[0].a), es[0].a))
      && NeverOvertaken(l, Next(l, d, es[0]), es[1..])
  }

  /** Targets set before or after WriteRTP, but not during it, overtake nothing. */
  lemma {:induction false} AtomicTargetsOvertakeNothing(l: Line, d: Down, es: seq<Event>)
    requires forall e :: e in es && e.Arrive? ==> e.a.x == UNDISTURBED
    ensures NeverOvertaken(l, d, es)
    decreases es
  {
    if es != [] {
      assert es[0] in es;
      AtomicTargetsOvertakeNothing(l, Next(l, d, es[0]), es[1..]);
    }
  }

  /** Every overtaken switch lands on a layer that the track has and that is active. */
  predicate LandsWell(l: Line, d: Down, es: seq<Event>)
    decreases es
  {
    es != [] ==>
      && (es[0].Arrive? && !d.closed && Overtaken(d.sel, l.Keyframe(es[0].a), es[0].a) ==>
            IsActive(es[0].a.layers, Landing(d.sel, es[0].a)))
      && LandsWell(l, Next(l, d, es[0]), es[1..])
  }

  lemma {:induction false} NeverOvertakenLandsWell(l: Line, d: Down, es: seq<Event>)
    requires NeverOvertaken(l, d, es)
    ensures LandsWell(l, d, es)
    decreases es
  {
    if es != [] {
      NeverOvertakenLandsWell(l, Next(l, d, es[0]), es[1..]);
    }
  }

  /** A layer found inactive while the selector is on it does not come back before the selector has
      moved on; `down` says that the current layer has been found inactive. */
  predicate NoComeback(l: Line, d: Down, es: seq<Event>, down: bool)
    decreases es
  {
    if es == [] || d.closed then true
    else if es[0].Arrive? then
      var a := es[0].a;
      var current := TriedLayer(d.sel, l.Keyframe(a), a);
      var active := IsActive(a.layers, current);
      && (active ==> !down || current != d.sel.current)
      && NoComeback(l, Next(l, d, es[0]), es[1..], !active && !l.Keyframe(a))
    else NoComeback(l, Next(l, d, es[0]), es[1..], down)
  }

  lemma {:induction false} AlwaysActiveNeverComesBack(l: Line, d: Down, es: seq<Event>)
    requires AlwaysActive(l, d, es)
    ensures NoComeback(l, d, es, false)
    decreases es
  {
    if es != [] {
      AlwaysActiveNeverComesBack(l, Next(l, d, es[0]), es[1..]);
    }
  }

  // ---------------------------------------------------------------- fallback is unreachable

  /** The clock does not run backwards inside an event. */
  predicate ClockOk(es: seq<Event>) {
    forall e :: e in es && e.Arrive? ==> e.a.now <= e.a.later
  }

  /** After a packet that finds its layer active, the selector is on an active layer if and only if its switch
      was not overtaken, or landed on an active layer. */
  lemma CurrentStaysActiveExactly(l: Line, d: Down, a: Arrival)
    requires Selector.Inv(d.sel) && a.now <= a.later && !d.closed
    requires IsActive(a.layers, TriedLayer(d.sel, l.Keyframe(a), a))
    ensures IsActive(a.layers, Next(l, d, Arrive(a)).sel.current) <==>
      !Overtaken(d.sel, l.Keyframe(a), a) || IsActive(a.layers, Landing(d.sel, a))
  {
    TriedLayerIsCurrent(d.sel, l.Keyframe(a), a);
  }

  /** A packet of an active layer that would find the selector's layer missing or inactive. */
  predicate FallsBack(l: Line, d: Down, layers: LayerMap, b: Arrival) {
    b.layers == layers && IsActive(layers, b.from) && !IsActive(layers, TriedLayer(d.sel, l.Keyframe(b), b))
  }

  /** With the layers as they are, the next packet may have to fall back. */
  ghost predicate Exposed(l: Line, d: Down, layers: LayerMap) {
    exists b: Arrival :: FallsBack(l, d, layers, b)
  }

  /** That is so exactly when an active layer exists and the selector is not on one. */
  lemma ExposedExactly(l: Line, d: Down, layers: LayerMap, some: string)
    requires IsActive(layers, some)
    ensures Exposed(l, d, layers) <==> !IsActive(layers, d.sel.current)
  {
    if !IsActive(layers, d.sel.current) {
      var b := Arrival(Source(0, 0, 0, []), some, layers, 0, 0, UNDISTURBED);
      assert FallsBack(l, d, layers, b);
    }
  }

  /** Exactly what opens the way to fallback: a switch that is overtaken and lands on a layer that is missing
      or inactive. */
  lemma FallbackExactly(l: Line, d: Down, a: Arrival)
    requires Selector.Inv(d.sel) && a.now <= a.later && !d.closed
    requires IsActive(a.layers, TriedLayer(d.sel, l.Keyframe(a), a))
    ensures Exposed(l, Next(l, d, Arrive(a)), a.layers) <==>
      Overtaken(d.sel, l.Keyframe(a), a) && !IsActive(a.layers, Landing(d.sel, a))
  {
    ExposedExactly(l, Next(l, d, Arrive(a)), a.layers, TriedLayer(d.sel, l.Keyframe(a), a));
    CurrentStaysActiveExactly(l, d, a);
  }

  lemma {:induction false} GrowingLayersStayActive(l: Line, d: Down, es: seq<Event>, known: set<string>)
    requires Selector.Inv(d.sel) && ClockOk(es) && LandsWell(l, d, es)
    requires Growing(es, known) && d.sel.current in known
    ensures AlwaysActive(l, d, es)
    decreases es
  {
    if es != [] {
      assert es[0] in es;
      if es[0].Arrive? {
        TriedLayerIsCurrent(d.sel, l.Keyframe(es[0].a), es[0].a);
        GrowingLayersStayActive(l, Next(l, d, es[0]), es[1..], es[0].a.layers.Keys);
      } else {
        GrowingLayersStayActive(l, Next(l, d, es[0]), es[1..], known);
      }
    }
  }

  /** Fallback is unreachable while layers are only added: the selector is on an active layer at every
      packet, whatever targets clients ask for, as long as every overtaken switch lands on a layer the
      track has. */
  lemma FallbackUnreachable(l: Line, layers: LayerMap, es: seq<Event>)
    requires Best(layers).Some? && ClockOk(es) && Growing(es, layers.Keys) && LandsWell(l, NewDown(layers), es)
    ensures AlwaysActive(l, NewDown(layers), es)
  {
    GrowingLayersStayActive(l, NewDown(layers), es, layers.Keys);
  }

  /** After no packet of the run would the next one have to fall back. */
  ghost predicate NeverExposed(l: Line, d: Down, es: seq<Event>)
    decreases es
  {
    es != [] ==>
      && (es[0].Arrive? && !d.closed ==> !Exposed(l, Next(l, d, es[0]), es[0].a.layers))
      && NeverExposed(l, Next(l, d, es[0]), es[1..])
  }

  lemma {:induction false} NeverExposedRun(l: Line, d: Down, es: seq<Event>, known: set<string>)
    requires Selector.Inv(d.sel) && ClockOk(es) && Growing(es, known) && d.sel.current in known
    ensures NeverExposed(l, d, es) <==> LandsWell(l, d, es)
    decreases es
  {
    if es != [] {
      assert es[0] in es;
      var d' := Next(l, d, es[0]);
      if !es[0].Arrive? {
        NeverExposedRun(l, d', es[1..], known);
      } else if d.closed {
        NeverExposedRun(l, d', es[1..], es[0].a.layers.Keys);
      } else {
        var a := es[0].a;
        TriedLayerIsCurrent(d.sel, l.Keyframe(a), a);
        FallbackExactly(l, d, a);
        CurrentStaysActiveExactly(l, d, a);
        if d'.sel.current in a.layers {
          NeverExposedRun(l, d', es[1..], a.layers.Keys);
        }
      }
    }
  }

  /** Exactly when fallback is out of reach. While layers are only added, no packet of a run leaves the next
      one to fall back if and only if every overtaken switch of the run lands on a layer the track has. */
  lemma FallbackOutOfReachExactly(l: Line, layers: LayerMap, es: seq<Event>)
    requires Best(layers).Some? && ClockOk(es) && Growing(es, layers.Keys)
    ensures NeverExposed(l, NewDown(layers), es) <==> LandsWell(l, NewDown(layers), es)
  {
    NeverExposedRun(l, NewDown(layers), es, layers.Keys);
  }

  /** For a codec whose keyframes are not recognised the layer never changes. */
  lemma {:induction false} UnknownCodecNeverSwitches(l: Line, d: Down, es: seq<Event>)
    requires l.codec !in {"video/VP8", "video/VP9", "video/H264"}
    ensures Exec(l, d, es).sel.current == d.sel.current
    decreases es
  {
    if es != [] {
      if es[0].Arrive? {
        Selector.TargetsKeep(d.sel, es[0].a.x.beforeCheck);
        Selector.TargetsKeep(Selector.TargetedAll(d.sel, es[0].a.x.beforeCheck), es[0].a.x.beforeSwitch);
      }
      UnknownCodecNeverSwitches(l, Next(l, d, es[0]), es[1..]);
    }
  }

  function Exec(l: Line, d: Down, es: seq<Event>): Down
    decreases es
  {
    if es == [] then d else Exec(l, Next(l, d, es[0]), es[1..])
  }

  // ---------------------------------------------------------------- keyframes at layer boundaries

  /** A packet goes out exactly when it is from the layer the selector is on afterwards. */
  lemma SendsCurrentLayer(l: Line, d: Down, a: Arrival)
    requires Selector.Inv(d.sel) && a.now <= a.later && !d.closed
    requires IsActive(a.layers, TriedLayer(d.sel, l.Keyframe(a), a)) && !Overtaken(d.sel, l.Keyframe(a), a)
    ensures Sends(l, d, a) <==> a.from == Next(l, d, Arrive(a)).sel.current
  {
    TriedLayerIsCurrent(d.sel, l.Keyframe(a), a);
  }

  /** Neighbours in `arrivals`, with `prev` in front, are linked. */
  predicate Linked(link: (Arrival, Arrival) -> bool, prev: Option<Arrival>, arrivals: seq<Arrival>)
    decreases arrivals
  {
    arrivals != [] ==>
      (prev.Some? ==> link(prev.value, arrivals[0])) && Linked(link, Some(arrivals[0]), arrivals[1..])
  }

  lemma {:induction false} LinkedAt(link: (Arrival, Arrival) -> bool, prev: Option<Arrival>, arrivals: seq<Arrival>,
                                    k: nat)
    requires Linked(link, prev, arrivals) && 0 < k < |arrivals|
    ensures link(arrivals[k - 1], arrivals[k])
    decreases k
  {
    if k > 1 {
      LinkedAt(link, Some(arrivals[0]), arrivals[1..], k - 1);
    }
  }

  function KeyframeLink(l: Line): (Arrival, Arrival) -> bool {
    (a: Arrival, b: Arrival) => a.from != b.from ==> l.Keyframe(b)
  }

  lemma {:induction false} KeyframesRun(l: Line, d: Down, es: seq<Event>, prev: Option<Arrival>)
    requires Selector.Inv(d.sel) && ClockOk(es) && AlwaysActive(l, d, es) && NeverOvertaken(l, d, es)
    requires prev.Some? ==> prev.value.from == d.sel.current
    ensures Linked(KeyframeLink(l), prev, Forwarded(l, d, es))
    decreases es
  {
    if es != [] {
      assert es[0] in es;
      var d' := Next(l, d, es[0]);
      if es[0].Arrive? && !d.closed {
        var a := es[0].a;
        TriedLayerIsCurrent(d.sel, l.Keyframe(a), a);
        var rest := Forwarded(l, d', es[1..]);
        assert ([a] + rest)[1..] == rest;
        KeyframesRun(l, d', es[1..], if Sends(l, d, a) then Some(a) else prev);
      } else {
        KeyframesRun(l, d', es[1..], prev);
      }
    }
  }

  /** While the current layer stays active, every run of packets of one layer in the output, after
      the first run, starts with a keyframe of that layer. */
  lemma KeyframeStartsEveryLayerRun(l: Line, layers: LayerMap, es: seq<Event>, k: nat)
    requires ClockOk(es) && AlwaysActive(l, NewDown(layers), es) && NeverOvertaken(l, NewDown(layers), es)
    requires 0 < k < |Forwarded(l, NewDown(layers), es)|
    ensures var out := Forwarded(l, NewDown(layers), es);
      out[k].from != out[k - 1].from ==> l.Keyframe(out[k])
  {
    KeyframesRun(l, NewDown(layers), es, None);
    LinkedAt(KeyframeLink(l), None, Forwarded(l, NewDown(layers), es), k);
  }

  // ---------------------------------------------------------------- the seamless splice

  function GaplessLink(): (Arrival, Arrival) -> bool {
    (a: Arrival, b: Arrival) => a.p.ssrc == b.p.ssrc ==> b.p.number == a.p.number + 1
  }

  lemma {:induction false} SpliceRun(l: Line, d: Down, es: seq<Event>, down: bool, ssrcs: map<string, Ssrc>,
                                     last: map<string, int>, prev: Option<Arrival>)
    requires Selector.Inv(d.sel) && ClockOk(es) && NoComeback(l, d, es, down) && NeverOvertaken(l, d, es)
    requires OwnSsrcs(es, ssrcs) && Gapless(es, last)
    requires prev.Some? ==>
      && prev.value.from in ssrcs && prev.value.p.ssrc == ssrcs[prev.value.from]
      && prev.value.from in last && last[prev.value.from] == prev.value.p.number
      && (prev.value.from == d.sel.current || down)
    ensures Linked(GaplessLink(), prev, Forwarded(l, d, es))
    decreases es
  {
    if es != [] {
      assert es[0] in es;
      var d' := Next(l, d, es[0]);
      if d.closed {
        ClosedForwardsNothing(l, d, es);
      } else if es[0].Arrive? {
        var a := es[0].a;
        TriedLayerIsCurrent(d.sel, l.Keyframe(a), a);
        var current := TriedLayer(d.sel, l.Keyframe(a), a);
        var rest := Forwarded(l, d', es[1..]);
        assert ([a] + rest)[1..] == rest;
        SpliceRun(l, d', es[1..], !IsActive(a.layers, current) && !l.Keyframe(a), ssrcs, last[a.from := a.p.number],
                  if Sends(l, d, a) then Some(a) else prev);
      } else {
        SpliceRun(l, d', es[1..], down, ssrcs, last, prev);
      }
    }
  }

  lemma {:induction false} ClosedForwardsNothing(l: Line, d: Down, es: seq<Event>)
    requires d.closed
    ensures Forwarded(l, d, es) == []
    decreases es
  {
    if es != [] {
      ClosedForwardsNothing(l, Next(l, d, es[0]), es[1..]);
    }
  }

  /** Where the client sees a gap, whatever layers come and go: nowhere but between two forwarded packets of
      one layer that were not consecutive on the way in. */
  lemma GapsExactly(l: Line, layers: LayerMap, es: seq<Event>, k: nat)
    requires 0 < k < |Output(l, NewDown(layers), es)|
    ensures |Forwarded(l, NewDown(layers), es)| == |Output(l, NewDown(layers), es)|
    ensures var out := Output(l, NewDown(layers), es); var sent := Forwarded(l, NewDown(layers), es);
      Consecutive(out[k - 1], out[k]) <==> sent[k].p.ssrc != sent[k - 1].p.ssrc || OneApart(sent[k - 1].p, sent[k].p)
  {
    var ps := Sources(Forwarded(l, NewDown(layers), es));
    OutputIsRewriteRun(l, NewDown(layers), es);
    assert Output(l, NewDown(layers), es) == RewriteRun(NEW_SEQUENCER, Wires(ps), l.ssrc);
    assert ps[k] == Forwarded(l, NewDown(layers), es)[k].p && ps[k - 1] == Forwarded(l, NewDown(layers), es)[k - 1].p;
    ConsecutiveExactly(ps, l.ssrc, k);
  }

  /** Seamless splice. However packets of the layers, target changes and time interleave, the outgoing
      packets carry consecutive sequence numbers under one SSRC, across every switch and every
      return to an earlier layer, fallback included, as long as no layer comes back from inactive
      while the selector is still on it. */
  lemma SeamlessSplice(l: Line, layers: LayerMap, es: seq<Event>, ssrcs: map<string, Ssrc>, k: nat)
    requires ClockOk(es) && NoComeback(l, NewDown(layers), es, false) && NeverOvertaken(l, NewDown(layers), es)
    requires OwnSsrcs(es, ssrcs) && Gapless(es, map[])
    requires 0 < k < |Output(l, NewDown(layers), es)|
    ensures var out := Output(l, NewDown(layers), es);
      Consecutive(out[k - 1], out[k]) && out[k].ssrc == out[k - 1].ssrc == l.ssrc
  {
    var d := NewDown(layers);
    var arrivals := Forwarded(l, d, es);
    OutputIsRewriteRun(l, d, es);
    SpliceRun(l, d, es, false, ssrcs, map[], None);
    forall m | 0 < m < |arrivals| && arrivals[m].p.ssrc == arrivals[m - 1].p.ssrc
      ensures arrivals[m].p.number == arrivals[m - 1].p.number + 1
    {
      LinkedAt(GaplessLink(), None, arrivals, m);
    }
    GaplessRunsGiveGaplessStream(Sources(arrivals), l.ssrc, k);
  }

  /** The current layer "mid" flickers while "low" sends three packets in a row. */
  function Flicker(midActive: bool): LayerMap {
    map[Layers.MID := LayerInfo(1, midActive), Layers.LOW := LayerInfo(2, true)]
  }

  function LowPacket(n: int, midActive: bool): Arrival {
    Arrival(Source(n, 0, 2, []), Layers.LOW, Flicker(midActive), 0, 0, UNDISTURBED)
  }

  function FlickerRun(n: int): seq<Event> {
    [Arrive(LowPacket(n, false)), Arrive(LowPacket(n + 1, true)), Arrive(LowPacket(n + 2, false))]
  }

  lemma FlickerIsGapless(n: int)
    ensures Gapless(FlickerRun(n), map[])
  {
    var es := FlickerRun(n);
    assert es[1..] == [Arrive(LowPacket(n + 1, true)), Arrive(LowPacket(n + 2, false))];
    assert es[1..][1..] == [Arrive(LowPacket(n + 2, false))] && es[1..][1..][1..] == [];
    assert Gapless(es[1..][1..], map[][Layers.LOW := n][Layers.LOW := n + 1]);
    assert Gapless(es[1..], map[][Layers.LOW := n]);
  }

  lemma FlickerForwards(l: Line, n: int)
    ensures Forwarded(l, NewDown(Flicker(true)), FlickerRun(n)) == [LowPacket(n, false), LowPacket(n + 2, false)]
    ensures !NoComeback(l, NewDown(Flicker(true)), FlickerRun(n), false)
  {
    var es := FlickerRun(n);
    var d0 := NewDown(Flicker(true));
    var d1 := Next(l, d0, es[0]);
    assert es[1..] == [Arrive(LowPacket(n + 1, true)), Arrive(LowPacket(n + 2, false))];
    assert es[1..][1..] == [Arrive(LowPacket(n + 2, false))] && es[1..][1..][1..] == [];
    assert Next(l, d1, es[1]) == d1;
    assert Forwarded(l, d1, es[1..][1..]) == [LowPacket(n + 2, false)];
    assert Forwarded(l, d1, es[1..]) == [LowPacket(n + 2, false)];
    assert !NoComeback(l, d1, es[1..], true);
  }

  /** Two packets of one layer forwarded in a row keep the distance they came with. */
  lemma NeighboursKeepDistance(l: Line, d: Down, es: seq<Event>, k: nat)
    requires d.seqr == NEW_SEQUENCER
    requires 0 < k < |Forwarded(l, d, es)|
    requires Forwarded(l, d, es)[k].p.ssrc == Forwarded(l, d, es)[k - 1].p.ssrc
    ensures |Output(l, d, es)| == |Forwarded(l, d, es)|
    ensures var sent := Forwarded(l, d, es); var out := Output(l, d, es);
      Apart(out[k - 1], out[k], sent[k].p.number - sent[k - 1].p.number)
  {
    var ps := Sources(Forwarded(l, d, es));
    OutputIsRewriteRun(l, d, es);
    assert ps[k] == Forwarded(l, d, es)[k].p && ps[k - 1] == Forwarded(l, d, es)[k - 1].p;
    DistanceIsKept(ps, l.ssrc, k);
  }

  /** The assumption is needed: a packet of "low" is forwarded in the absence of "mid", the next one is
      dropped, the one after is forwarded again, and the client sees a gap although nothing was
      lost upstream. */
  lemma ComebackLeavesGap(l: Line, n: int)
    ensures var es := FlickerRun(n); var out := Output(l, NewDown(Flicker(true)), es);
      && Gapless(es, map[]) && OwnSsrcs(es, map[Layers.MID := 1, Layers.LOW := 2])
      && !NoComeback(l, NewDown(Flicker(true)), es, false)
      && |out| == 2 && Apart(out[0], out[1], 2)
  {
    FlickerIsGapless(n);
    FlickerForwards(l, n);
    NeighboursKeepDistance(l, NewDown(Flicker(true)), FlickerRun(n), 1);
  }

  /** A publisher that only adds layers, and numbers each of them without gaps, is spliced seamlessly
      and never shows a layer from the middle: no assumption on the downtrack is left. */
  lemma GrowingPublisherIsSeamless(l: Line, layers: LayerMap, es: seq<Event>, ssrcs: map<string, Ssrc>, k: nat)
    requires Best(layers).Some? && ClockOk(es) && Growing(es, layers.Keys) && NeverOvertaken(l, NewDown(layers), es)
    requires OwnSsrcs(es, ssrcs) && Gapless(es, map[])
    requires 0 < k < |Output(l, NewDown(layers), es)|
    ensures var out := Output(l, NewDown(layers), es); var sent := Forwarded(l, NewDown(layers), es);
      && |sent| == |out|
      && Consecutive(out[k - 1], out[k])
      && (sent[k].from != sent[k - 1].from ==> l.Keyframe(sent[k]))
  {
    NeverOvertakenLandsWell(l, NewDown(layers), es);
    FallbackUnreachable(l, layers, es);
    AlwaysActiveNeverComesBack(l, NewDown(layers), es);
    SeamlessSplice(l, layers, es, ssrcs, k);
    OutputIsRewriteRun(l, NewDown(layers), es);
    KeyframeStartsEveryLayerRun(l, layers, es, k);
  }

  // ---------------------------------------------------------------- what an overtaken switch costs

  /** The track of a camera, seen by a downtrack that started when there was only "low". */
  const CAMERA := Line("video/VP8", 9)
  const SSRCS := map[Layers.LOW := 1, Layers.MID := 2, Layers.HIGH := 3]
  const ONLY_LOW: LayerMap := map[Layers.LOW := LayerInfo(1, true)]
  const ALL: LayerMap :=
    map[Layers.LOW := LayerInfo(1, true), Layers.MID := LayerInfo(2, true), Layers.HIGH := LayerInfo(3, true)]

  function Frame(n: int, layer: string, keyframe: bool, now: int, x: Interference): Arrival
    requires layer in SSRCS
  {
    Arrival(Source(n, 0, SSRCS[layer], if keyframe then [0x10] else [0x11]), layer, ALL, now, now, x)
  }

  /** Layers only grow, every layer is gapless and has its own SSRC, and the clock is right. */
  predicate WellBehaved(es: seq<Event>, known: set<string>, last: map<string, int>) {
    Growing(es, known) && Gapless(es, last) && OwnSsrcs(es, SSRCS) && ClockOk(es)
  }

  lemma FrameFirst(n: int, layer: string, keyframe: bool, now: int, x: Interference, es: seq<Event>, known: set<string>,
                   last: map<string, int>)
    requires layer in SSRCS && known <= ALL.Keys && (layer in last ==> n == last[layer] + 1)
    requires WellBehaved(es, ALL.Keys, last[layer := n])
    ensures WellBehaved([Arrive(Frame(n, layer, keyframe, now, x))] + es, known, last)
  {
    var e := Arrive(Frame(n, layer, keyframe, now, x));
    assert ([e] + es)[1..] == es;
    assert ALL.Keys == SSRCS.Keys;
  }

  lemma TargetFirst(layer: string, es: seq<Event>, known: set<string>, last: map<string, int>)
    requires WellBehaved(es, known, last)
    ensures WellBehaved([SetTarget(layer)] + es, known, last)
  {
    assert ([SetTarget(layer)] + es)[1..] == es;
  }

  /** The client asks for "mid", and for `instead` while the switch is under way. */
  function OvertakenSwitch(n: int, instead: string): seq<Event> {
    [SetTarget(Layers.MID), Arrive(Frame(n, Layers.MID, true, 0, Interference([], [instead])))]
  }

  lemma OvertakenSwitchRun(n: int, instead: string, es: seq<Event>) returns (d: Down)
    requires instead !in {Layers.LOW, Layers.MID}
    ensures d.sel == Selector.Sel(instead, instead, false, Selector.At(0)) && !d.closed
    ensures Forwarded(CAMERA, NewDown(ONLY_LOW), OvertakenSwitch(n, instead) + es) ==
            [Frame(n, Layers.MID, true, 0, Interference([], [instead]))] + Forwarded(CAMERA, d, es)
    ensures AlwaysActive(CAMERA, NewDown(ONLY_LOW), OvertakenSwitch(n, instead) + es) <==> AlwaysActive(CAMERA, d, es)
    ensures WellBehaved(es, ALL.Keys, map[Layers.MID := n]) ==>
            WellBehaved(OvertakenSwitch(n, instead) + es, ONLY_LOW.Keys, map[])
  {
    var run := OvertakenSwitch(n, instead) + es;
    var a := Frame(n, Layers.MID, true, 0, Interference([], [instead]));
    var d1 := Next(CAMERA, NewDown(ONLY_LOW), SetTarget(Layers.MID));
    assert CAMERA.Keyframe(a);
    assert d1.sel == Selector.Sel(Layers.LOW, Layers.MID, true, Selector.Never);
    Selector.TargetsKeep(d1.sel, [instead]);
    d := Next(CAMERA, d1, Arrive(a));
    assert run[1..] == [Arrive(a)] + es && run[1..][1..] == es;
    if WellBehaved(es, ALL.Keys, map[Layers.MID := n]) {
      FrameFirst(n, Layers.MID, true, 0, a.x, es, ONLY_LOW.Keys, map[]);
      TargetFirst(Layers.MID, [Arrive(a)] + es, ONLY_LOW.Keys, map[]);
      assert run == [SetTarget(Layers.MID)] + ([Arrive(a)] + es);
    }
  }

  /** One frame, with nothing before it that it would have to follow and nothing after it. */
  lemma LastFrame(n: int, layer: string, keyframe: bool, now: int, last: map<string, int>)
    requires layer in SSRCS && (layer in last ==> n == last[layer] + 1)
    ensures WellBehaved([Arrive(Frame(n, layer, keyframe, now, UNDISTURBED))], ALL.Keys, last)
  {
    var e := Arrive(Frame(n, layer, keyframe, now, UNDISTURBED));
    assert WellBehaved([], ALL.Keys, last[layer := n]);
    FrameFirst(n, layer, keyframe, now, UNDISTURBED, [], ALL.Keys, last);
    assert [e] + [] == [e];
  }

  lemma ForwardedFirst(l: Line, d: Down, e: Event, es: seq<Event>)
    ensures Forwarded(l, d, [e] + es) ==
            (if e.Arrive? && Sends(l, d, e.a) then [e.a] else []) + Forwarded(l, Next(l, d, e), es)
    ensures AlwaysActive(l, d, [e] + es) <==>
      && (e.Arrive? && !d.closed ==> IsActive(e.a.layers, TriedLayer(d.sel, l.Keyframe(e.a), e.a)))
      && AlwaysActive(l, Next(l, d, e), es)
  {
    assert ([e] + es)[1..] == es;
  }

  lemma LastForwarded(l: Line, d: Down, e: Event)
    ensures Forwarded(l, d, [e]) == if e.Arrive? && Sends(l, d, e.a) then [e.a] else []
    ensures AlwaysActive(l, d, [e]) <==>
      (e.Arrive? && !d.closed ==> IsActive(e.a.layers, TriedLayer(d.sel, l.Keyframe(e.a), e.a)))
  {
    ForwardedFirst(l, d, e, []);
    assert [e] + [] == [e];
  }

  /** The client asks for "high" while the switch to "mid" is under way: the keyframe of "mid" goes out, and
      then a packet of "high" that is no keyframe, although the current layer is always active. */
  lemma RaceStartsLayerWithoutKeyframe(m: int, n: int) returns (es: seq<Event>)
    ensures WellBehaved(es, ONLY_LOW.Keys, map[]) && AlwaysActive(CAMERA, NewDown(ONLY_LOW), es)
    ensures var sent := Forwarded(CAMERA, NewDown(ONLY_LOW), es);
      |sent| == 2 && sent[0].from == Layers.MID && sent[1].from == Layers.HIGH && !CAMERA.Keyframe(sent[1])
  {
    var next := Frame(n, Layers.HIGH, false, 0, UNDISTURBED);
    LastFrame(n, Layers.HIGH, false, 0, map[Layers.MID := m]);
    var d := OvertakenSwitchRun(m, Layers.HIGH, [Arrive(next)]);
    LastForwarded(CAMERA, d, Arrive(next));
    es := OvertakenSwitch(m, Layers.HIGH) + [Arrive(next)];
  }

  /** A packet of "low" and one of "mid", neither a keyframe. */
  function SideBySide(k: int, m: int): seq<Event> {
    [Arrive(Frame(k, Layers.LOW, false, 0, UNDISTURBED))] + [Arrive(Frame(m + 1, Layers.MID, false, 0, UNDISTURBED))]
  }

  lemma SideBySideIsWellBehaved(k: int, m: int)
    ensures WellBehaved(SideBySide(k, m), ALL.Keys, map[Layers.MID := m])
  {
    LastFrame(m + 1, Layers.MID, false, 0, map[Layers.MID := m][Layers.LOW := k]);
    var mid := Arrive(Frame(m + 1, Layers.MID, false, 0, UNDISTURBED));
    FrameFirst(k, Layers.LOW, false, 0, UNDISTURBED, [mid], ALL.Keys, map[Layers.MID := m]);
  }

  lemma SideBySideForwards(d: Down, k: int, m: int)
    requires d.sel == Selector.Sel("foo", "foo", false, Selector.At(0)) && !d.closed
    ensures Forwarded(CAMERA, d, SideBySide(k, m)) ==
            [Frame(k, Layers.LOW, false, 0, UNDISTURBED), Frame(m + 1, Layers.MID, false, 0, UNDISTURBED)]
    ensures !AlwaysActive(CAMERA, d, SideBySide(k, m))
  {
    var low, mid := Frame(k, Layers.LOW, false, 0, UNDISTURBED), Frame(m + 1, Layers.MID, false, 0, UNDISTURBED);
    assert "foo" !in ALL;
    assert Next(CAMERA, d, Arrive(low)).sel == d.sel;
    ForwardedFirst(CAMERA, d, Arrive(low), [Arrive(mid)]);
    LastForwarded(CAMERA, Next(CAMERA, d, Arrive(low)), Arrive(mid));
  }

  /** The client asks for a layer that does not exist while the switch is under way: the downtrack is on that
      layer from then on, and forwards "low" and "mid" side by side, although layers are only added. */
  lemma RaceReachesFallback(k: int, m: int) returns (es: seq<Event>)
    ensures WellBehaved(es, ONLY_LOW.Keys, map[]) && !AlwaysActive(CAMERA, NewDown(ONLY_LOW), es)
    ensures var sent := Forwarded(CAMERA, NewDown(ONLY_LOW), es);
      |sent| == 3 && sent[0].from == Layers.MID && sent[1].from == Layers.LOW && sent[2].from == Layers.MID
  {
    SideBySideIsWellBehaved(k, m);
    var d := OvertakenSwitchRun(m, "foo", SideBySide(k, m));
    SideBySideForwards(d, k, m);
    es := OvertakenSwitch(m, "foo") + SideBySide(k, m);
  }

  /** "mid" sends a packet while the downtrack is on "high", and is switched to once the cooldown is over. */
  function Return(m: int): seq<Event> {
    [Arrive(Frame(m + 1, Layers.MID, false, 0, UNDISTURBED))]
    + ([SetTarget(Layers.MID)] + [Arrive(Frame(m + 2, Layers.MID, true, Selector.COOLDOWN, UNDISTURBED))])
  }

  lemma ReturnIsWellBehaved(m: int)
    ensures WellBehaved(Return(m), ALL.Keys, map[Layers.MID := m])
  {
    var key := Arrive(Frame(m + 2, Layers.MID, true, Selector.COOLDOWN, UNDISTURBED));
    var last := map[Layers.MID := m][Layers.MID := m + 1];
    LastFrame(m + 2, Layers.MID, true, Selector.COOLDOWN, last);
    TargetFirst(Layers.MID, [key], ALL.Keys, last);
    var back := [SetTarget(Layers.MID)] + [key];
    FrameFirst(m + 1, Layers.MID, false, 0, UNDISTURBED, back, ALL.Keys, map[Layers.MID := m]);
  }

  lemma ReturnForwards(d: Down, m: int)
    requires d.sel == Selector.Sel(Layers.HIGH, Layers.HIGH, false, Selector.At(0)) && !d.closed
    ensures Forwarded(CAMERA, d, Return(m)) == [Frame(m + 2, Layers.MID, true, Selector.COOLDOWN, UNDISTURBED)]
    ensures AlwaysActive(CAMERA, d, Return(m))
  {
    var dropped := Arrive(Frame(m + 1, Layers.MID, false, 0, UNDISTURBED));
    var key := Arrive(Frame(m + 2, Layers.MID, true, Selector.COOLDOWN, UNDISTURBED));
    assert Next(CAMERA, d, dropped) == d;
    ForwardedFirst(CAMERA, d, dropped, [SetTarget(Layers.MID)] + [key]);
    ForwardedFirst(CAMERA, d, SetTarget(Layers.MID), [key]);
    assert CAMERA.Keyframe(key.a);
    LastForwarded(CAMERA, Next(CAMERA, d, SetTarget(Layers.MID)), key);
  }

  lemma ReturnRun(m: int) returns (es: seq<Event>)
    ensures WellBehaved(es, ONLY_LOW.Keys, map[]) && AlwaysActive(CAMERA, NewDown(ONLY_LOW), es)
    ensures var sent := Forwarded(CAMERA, NewDown(ONLY_LOW), es);
      |sent| == 2 && sent[0].p.ssrc == sent[1].p.ssrc && sent[1].p.number - sent[0].p.number == 2
  {
    ReturnIsWellBehaved(m);
    var d := OvertakenSwitchRun(m, Layers.HIGH, Return(m));
    ReturnForwards(d, m);
    es := OvertakenSwitch(m, Layers.HIGH) + Return(m);
  }

  /** The switch to "mid" is overtaken by "high", which stalls, and the client returns to "mid" after the
      cooldown: a gap in the output, although every layer is active all the time and none lost a packet. */
  lemma RaceLeavesGap(m: int) returns (es: seq<Event>)
    ensures WellBehaved(es, ONLY_LOW.Keys, map[]) && AlwaysActive(CAMERA, NewDown(ONLY_LOW), es)
    ensures var out := Output(CAMERA, NewDown(ONLY_LOW), es);
      |out| == 2 && Apart(out[0], out[1], 2)
  {
    es := ReturnRun(m);
    NeighboursKeepDistance(CAMERA, NewDown(ONLY_LOW), es, 1);
  }

  /** A packet that goes out next although it is no keyframe and not from the layer before, which, like
      its own and the one the selector is on, is active. */
  predicate StartsMidway(l: Line, d: Down, before: string, b: Arrival) {
    && b.from != before && !l.Keyframe(b) && Sends(l, d, b)
    && IsActive(b.layers, before) && IsActive(b.layers, b.from) && IsActive(b.layers, d.sel.current)
  }

  /** After a packet that finds its layer active, another layer can start from the middle if and only if the
      switch at that packet was overtaken. */
  lemma OvertakenExactly(l: Line, d: Down, a: Arrival)
    requires Selector.Inv(d.sel) && a.now <= a.later && !d.closed
    requires IsActive(a.layers, TriedLayer(d.sel, l.Keyframe(a), a))
    ensures Overtaken(d.sel, l.Keyframe(a), a) <==>
      exists b: Arrival :: StartsMidway(l, Next(l, d, Arrive(a)), TriedLayer(d.sel, l.Keyframe(a), a), b)
  {
    var before := TriedLayer(d.sel, l.Keyframe(a), a);
    var d' := Next(l, d, Arrive(a));
    TriedLayerIsCurrent(d.sel, l.Keyframe(a), a);
    if Overtaken(d.sel, l.Keyframe(a), a) {
      var layers: LayerMap := map[before := LayerInfo(0, true), d'.sel.current := LayerInfo(0, true)];
      var b := Arrival(Source(0, 0, 0, []), d'.sel.current, layers, 0, 0, UNDISTURBED);
      assert StartsMidway(l, d', before, b);
    }
  }

  /** After no packet of the run can the next one start another layer from the middle. */
  ghost predicate NeverMidway(l: Line, d: Down, es: seq<Event>)
    decreases es
  {
    es != [] ==>
      && (es[0].Arrive? && !d.closed ==>
            !exists b: Arrival ::
               StartsMidway(l, Next(l, d, es[0]), TriedLayer(d.sel, l.Keyframe(es[0].a), es[0].a), b))
      && NeverMidway(l, Next(l, d, es[0]), es[1..])
  }

  /** The same over runs: while the current layer is active, no layer can start from the middle if and only if
      no switch of the run is overtaken. */
  lemma {:induction false} NeverMidwayExactly(l: Line, d: Down, es: seq<Event>)
    requires Selector.Inv(d.sel) && ClockOk(es) && AlwaysActive(l, d, es)
    ensures NeverMidway(l, d, es) <==> NeverOvertaken(l, d, es)
    decreases es
  {
    if es != [] {
      assert es[0] in es;
      if es[0].Arrive? && !d.closed {
        TriedLayerIsCurrent(d.sel, l.Keyframe(es[0].a), es[0].a);
        OvertakenExactly(l, d, es[0].a);
      }
      NeverMidwayExactly(l, Next(l, d, es[0]), es[1..]);
    }
  }
}
