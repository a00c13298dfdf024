/** LayerSelector (pkg/sfu/bandwidth.go): which simulcast layer one downtrack forwards, and when it may
    change. Times are nanoseconds on a clock that never runs backwards. */
module Selector {
  import Layers

  const COOLDOWN := 2_000_000_000

  /** lastSwitchTime; the zero time is further back than any cooldown. */
  datatype Instant = Never | At(time: int)

  datatype Sel = Sel(current: string, target: string, pending: bool, last: Instant)

  function New(initial: string): Sel {
    var initial := if initial == "" then Layers.HIGH else initial;
    Sel(initial, initial, false, Never)
  }

  function Targeted(s: Sel, layer: string): Sel {
    if layer != s.target then s.(target := layer, pending := true) else s
  }

  predicate NeedsSwitch(s: Sel) {
    s.pending && s.current != s.target
  }

  predicate CanSwitch(s: Sel, now: int) {
    s.last.At? ==> now - s.last.time >= COOLDOWN
  }

  predicate Switches(s: Sel, now: int) {
    NeedsSwitch(s) && CanSwitch(s, now)
  }

  function Switched(s: Sel, now: int): Sel {
    if Switches(s, now) then Sel(s.target, s.target, false, At(now)) else s
  }

  function Forced(s: Sel, layer: string, now: int): Sel {
    Sel(layer, layer, false, At(now))
  }

  class LayerSelector {
    var currentLayer: string
    var targetLayer: string
    var pendingSwitch: bool
    var lastSwitchTime: Instant

    function State(): Sel
      reads this
    {
      Sel(currentLayer, targetLayer, pendingSwitch, lastSwitchTime)
    }

    constructor (initialLayer: string)
      ensures State() == New(initialLayer)
      ensures currentLayer == targetLayer == if initialLayer == "" then Layers.HIGH else initialLayer
    {
      var initial := if initialLayer == "" then Layers.HIGH else initialLayer;
      currentLayer, targetLayer, pendingSwitch, lastSwitchTime := initial, initial, false, Never;
    }

    method SetTargetLayer(layer: string)
      modifies this
      ensures State() == Targeted(old(State()), layer)
    {
      if layer != targetLayer {
        targetLayer := layer;
        pendingSwitch := true;
      }
    }

    method SwitchToTarget(now: int) returns (switched: bool)
      modifies this
      ensures switched == Switches(old(State()), now)
      ensures State() == Switched(old(State()), now)
    {
      if !pendingSwitch || currentLayer == targetLayer {
        return false;
      }
      if lastSwitchTime.At? && now - lastSwitchTime.time < COOLDOWN {
        return false;
      }
      currentLayer := targetLayer;
      pendingSwitch := false;
      lastSwitchTime := At(now);
      return true;
    }

    method ForceSwitch(layer: string, now: int)
      modifies this
      ensures State() == Forced(old(State()), layer, now)
    {
      currentLayer := layer;
      targetLayer := layer;
      pendingSwitch := false;
      lastSwitchTime := At(now);
    }
  }

  // ---------------------------------------------------------------- runs

  datatype Event = Target(layer: string) | Switch(now: int) | Force(layer: string, now: int)

  function Next(s: Sel, e: Event): Sel {
    match e
    case Target(layer) => Targeted(s, layer)
    case Switch(now) => Switched(s, now)
    case Force(layer, now) => Forced(s, layer, now)
  }

  function Exec(s: Sel, es: seq<Event>): Sel
    decreases es
  {
    if es == [] then s else Exec(Next(s, es[0]), es[1..])
  }

  /** A wanted layer is never forgotten: pending is set whenever current and target differ. */
  predicate Inv(s: Sel) {
    s.current != s.target ==> s.pending
  }

  lemma {:induction false} InvRun(s: Sel, es: seq<Event>)
    requires Inv(s)
    ensures Inv(Exec(s, es))
    decreases es
  {
    if es != [] {
      InvRun(Next(s, es[0]), es[1..]);
    }
  }

  /** In every reachable state NeedsSwitch is the plain comparison of the two layers. */
  lemma NeedsSwitchIsComparison(initial: string, es: seq<Event>)
    ensures var s := Exec(New(initial), es); NeedsSwitch(s) <==> s.current != s.target
  {
    InvRun(New(initial), es);
  }

  /** Whatever targets are set between the two calls, a passing CanSwitch is still good when
      SwitchToTarget asks again; it switches exactly when some other layer is wanted by then. */
  lemma CanSwitchStaysGood(s: Sel, targets: seq<string>, now: int, later: int)
    requires Inv(s) && CanSwitch(s, now) && now <= later
    ensures var s' := TargetedAll(s, targets); Switches(s', later) <==> s'.current != s'.target
    ensures Switched(TargetedAll(s, targets), later).current == TargetedAll(s, targets).target
  {
    TargetsKeep(s, targets);
  }

  /** The calls of SetTargetLayer that other goroutines make, in order. */
  function TargetedAll(s: Sel, targets: seq<string>): Sel
    decreases targets
  {
    if targets == [] then s else TargetedAll(Targeted(s, targets[0]), targets[1..])
  }

  lemma {:induction false} TargetsKeep(s: Sel, targets: seq<string>)
    ensures var s' := TargetedAll(s, targets);
      s'.current == s.current && s'.last == s.last && (Inv(s) ==> Inv(s'))
    ensures TargetedAll(s, targets).target == if targets == [] then s.target else targets[|targets| - 1]
    decreases targets
  {
    if targets != [] {
      TargetsKeep(Targeted(s, targets[0]), targets[1..]);
    }
  }

  // ---------------------------------------------------------------- how often a layer can change

  /** A change of layer: when, and whether the cooldown was asked first. */
  datatype Change = Change(time: int, voluntary: bool)

  function Changes(s: Sel, es: seq<Event>): seq<Change>
    decreases es
  {
    if es == [] then [] else
    var rest := Changes(Next(s, es[0]), es[1..]);
    match es[0]
    case Switch(now) => if Switches(s, now) then [Change(now, true)] + rest else rest
    case Force(_, now) => [Change(now, false)] + rest
    case Target(_) => rest
  }

  /** Times never run backwards, from `now` on. */
  predicate Timely(now: int, es: seq<Event>)
    decreases es
  {
    es != [] ==>
      var t := if es[0].Target? then now else es[0].now;
      now <= t && Timely(t, es[1..])
  }

  predicate NotBefore(s: Sel, now: int) {
    s.last.At? ==> s.last.time <= now
  }

  /** The changes are in order of time and every voluntary one keeps the cooldown to the one before. */
  predicate Spaced(cs: seq<Change>) {
    forall k :: 0 < k < |cs| ==>
      cs[k - 1].time <= cs[k].time && (cs[k].voluntary ==> cs[k].time - cs[k - 1].time >= COOLDOWN)
  }

  /** What the first change, if any, owes to the state before it. */
  predicate Follows(cs: seq<Change>, s: Sel, now: int) {
    cs != [] ==> now <= cs[0].time && (s.last.At? && cs[0].voluntary ==> cs[0].time - s.last.time >= COOLDOWN)
  }

  lemma SpacedFrom(c: Change, cs: seq<Change>)
    requires Spaced(cs)
    requires cs != [] ==> c.time <= cs[0].time && (cs[0].voluntary ==> cs[0].time - c.time >= COOLDOWN)
    ensures Spaced([c] + cs)
  {
  }

  lemma {:induction false} ChangesInOrder(s: Sel, es: seq<Event>, now: int)
    requires NotBefore(s, now) && Timely(now, es)
    ensures Spaced(Changes(s, es)) && Follows(Changes(s, es), s, now)
    decreases es
  {
    if es != [] {
      var s', rest := Next(s, es[0]), Changes(Next(s, es[0]), es[1..]);
      match es[0]
      case Target(_) =>
        ChangesInOrder(s', es[1..], now);
      case Switch(t) =>
        ChangesInOrder(s', es[1..], t);
        if Switches(s, t) { SpacedFrom(Change(t, true), rest); }
      case Force(_, t) =>
        ChangesInOrder(s', es[1..], t);
        SpacedFrom(Change(t, false), rest);
    }
  }

  lemma {:induction false} Ordered(cs: seq<Change>, a: nat, b: nat)
    requires a <= b < |cs| && Spaced(cs)
    ensures cs[a].time <= cs[b].time
    decreases b
  {
    if a < b {
      Ordered(cs, a, b - 1);
    }
  }

  function Voluntary(cs: seq<Change>): (n: nat)
    ensures n <= |cs|
    decreases cs
  {
    if cs == [] then 0 else (if cs[|cs| - 1].voluntary then 1 else 0) + Voluntary(cs[..|cs| - 1])
  }

  lemma {:induction false} VoluntaryTakeTime(cs: seq<Change>)
    requires cs != [] && Spaced(cs)
    ensures (Voluntary(cs) - 1) * COOLDOWN <= cs[|cs| - 1].time - cs[0].time
    decreases cs
  {
    if |cs| > 1 {
      VoluntaryTakeTime(cs[..|cs| - 1]);
    }
  }

  lemma RoundDown(n: nat, span: nat)
    requires (n - 1) * COOLDOWN <= span
    ensures n <= span / COOLDOWN + 1
  {
  }

  /** Switch rate. Every voluntary change comes a cooldown after any earlier change, forced ones
      included, so a window that spans T holds at most T / cooldown + 1 voluntary changes. */
  lemma SwitchRate(s: Sel, es: seq<Event>, now: int, a: nat, b: nat)
    requires NotBefore(s, now) && Timely(now, es)
    requires a < b <= |Changes(s, es)|
    ensures var cs := Changes(s, es); var span := cs[b - 1].time - cs[a].time;
      && span >= 0
      && (cs[b - 1].voluntary && a < b - 1 ==> span >= COOLDOWN)
      && Voluntary(cs[a..b]) <= span / COOLDOWN + 1
  {
    var cs := Changes(s, es);
    ChangesInOrder(s, es, now);
    Ordered(cs, a, b - 1);
    if a < b - 1 {
      Ordered(cs, a, b - 2);
    }
    var part := cs[a..b];
    VoluntaryTakeTime(part);
    assert part[0] == cs[a] && part[|part| - 1] == cs[b - 1];
    RoundDown(Voluntary(part), cs[b - 1].time - cs[a].time);
  }
}
