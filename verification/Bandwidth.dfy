/** BandwidthController (pkg/sfu/bandwidth.go): shares the available bitrate among tracks and picks a layer
    for each. */
module Bandwidth {
  import opened Layers
  import opened Values

  datatype Allocation = Allocation(target: string, current: string, max: string, paused: bool)

  type Allocations = map<string, Allocation>

  const ORDER := [HIGH, MID, LOW]

  /** The nominal bitrate of a layer. */
  function Bitrate(layer: string): nat {
    if layer == HIGH then 2_500_000 else if layer == MID then 500_000 else if layer == LOW then 150_000 else 0
  }

  predicate Fits(layer: string, budget: nat, max: string) {
    Bitrate(layer) <= budget && Priority(layer) <= Priority(max)
  }

  /** The layer is the highest that fits the budget and the track's maximum, or "low" if none does. */
  ghost predicate IsChoice(layer: string, budget: nat, max: string) {
    && layer in ORDER
    && if exists l :: l in ORDER && Fits(l, budget, max)
       then
         && Fits(layer, budget, max)
         && forall l :: l in ORDER && Fits(l, budget, max) ==> Priority(l) <= Priority(layer)
       else layer == LOW
  }

  function Choice(budget: nat, max: string): string {
    if Fits(HIGH, budget, max) then HIGH
    else if Fits(MID, budget, max) then MID
    else LOW
  }

  /** The choice is the highest fitting layer, and the only one. */
  lemma ChoiceIsHighestFit(layer: string, budget: nat, max: string)
    ensures IsChoice(layer, budget, max) <==> layer == Choice(budget, max)
  {
    assert ORDER[0] == HIGH && ORDER[1] == MID && ORDER[2] == LOW;
    assert HIGH in ORDER && MID in ORDER && LOW in ORDER;
  }

  /** selectLayerForBudget. */
  method SelectLayerForBudget(budget: nat, maxLayer: string) returns (layer: string)
    ensures layer == Choice(budget, maxLayer)
  {
    var maxPriority := Priority(maxLayer);
    for i := 0 to |ORDER|
      invariant forall k :: 0 <= k < i ==> !Fits(ORDER[k], budget, maxLayer)
    {
      var candidate := ORDER[i];
      assert ORDER[0] == HIGH && ORDER[1] == MID && ORDER[2] == LOW;
      if Priority(candidate) > maxPriority {
        continue;
      }
      if Bitrate(candidate) <= budget {
        return candidate;
      }
    }
    assert ORDER[0] == HIGH && ORDER[1] == MID && ORDER[2] == LOW;
    return LOW;
  }

  // ---------------------------------------------------------------- recalculateAllocations

  function Budget(a: Allocations, available: nat): nat
    requires a != map[]
  {
    available / |a|
  }

  /** One track after a recalculation. */
  function Allot(alloc: Allocation, budget: nat): Allocation {
    if alloc.paused then alloc else alloc.(target := Choice(budget, alloc.max))
  }

  function Recalculated(a: Allocations, available: nat): Allocations {
    if a == map[] then a else map id | id in a :: Allot(a[id], Budget(a, available))
  }

  /** The callbacks a recalculation spawns: the tracks whose target changes, with the new target. */
  function Callbacks(a: Allocations, available: nat): map<string, string> {
    if a == map[] then map[]
    else map id | id in a && Allot(a[id], Budget(a, available)).target != a[id].target
      :: Allot(a[id], Budget(a, available)).target
  }

  /** A recalculation under way: the tracks in `todo` have not been looked at. */
  function PartlyRecalculated(a: Allocations, budget: nat, todo: set<string>): Allocations {
    map id | id in a :: if id in todo then a[id] else Allot(a[id], budget)
  }

  function PartlyCalled(a: Allocations, budget: nat, todo: set<string>): map<string, string> {
    map id | id in a && id !in todo && Allot(a[id], budget).target != a[id].target :: Allot(a[id], budget).target
  }

  lemma OneMoreTrack(a: Allocations, budget: nat, todo: set<string>, id: string)
    requires id in todo && id in a
    ensures var b := Allot(a[id], budget);
      && PartlyRecalculated(a, budget, todo)[id] == a[id]
      && PartlyRecalculated(a, budget, todo - {id}) == PartlyRecalculated(a, budget, todo)[id := b]
      && PartlyCalled(a, budget, todo - {id}) ==
         if b.target != a[id].target then PartlyCalled(a, budget, todo)[id := b.target]
         else PartlyCalled(a, budget, todo)
  {
  }

  lemma AllTracks(a: Allocations, available: nat)
    requires a != map[]
    ensures PartlyRecalculated(a, Budget(a, available), a.Keys) == a
    ensures PartlyCalled(a, Budget(a, available), a.Keys) == map[]
    ensures PartlyRecalculated(a, Budget(a, available), {}) == Recalculated(a, available)
    ensures PartlyCalled(a, Budget(a, available), {}) == Callbacks(a, available)
  {
  }

  class BandwidthController {
    var allocations: Allocations
    var availableBitrate: nat
    var hasCallback: bool
    var closed: bool

    function State(): Ctl
      reads this
    {
      Ctl(allocations, availableBitrate, closed)
    }

    constructor (initialBitrate: nat)
      ensures State() == Ctl(map[], initialBitrate, false) && !hasCallback
    {
      allocations, availableBitrate, hasCallback, closed := map[], initialBitrate, false, false;
    }

    method AddTrack(trackID: string, initialLayer: string)
      modifies this`allocations
      ensures State() == Next(old(State()), Event.AddTrack(trackID, initialLayer))
    {
      allocations := allocations[trackID := Allocation(initialLayer, initialLayer, HIGH, false)];
    }

    method RemoveTrack(trackID: string)
      modifies this`allocations
      ensures State() == Next(old(State()), Event.RemoveTrack(trackID))
    {
      allocations := allocations - {trackID};
    }

    method SetMaxLayer(trackID: string, maxLayer: string)
      modifies this`allocations
      ensures State() == Next(old(State()), SetMax(trackID, maxLayer))
    {
      if trackID in allocations {
        var alloc := allocations[trackID].(max := maxLayer);
        if Priority(alloc.target) > Priority(maxLayer) {
          alloc := alloc.(target := maxLayer);
        }
        allocations := allocations[trackID := alloc];
      }
    }

    method RequestLayer(trackID: string, layer: string)
      modifies this`allocations
      ensures State() == Next(old(State()), Request(trackID, layer))
    {
      if trackID in allocations {
        var alloc := allocations[trackID];
        var wanted := layer;
        if Priority(wanted) > Priority(alloc.max) {
          wanted := alloc.max;
        }
        allocations := allocations[trackID := alloc.(target := wanted)];
      }
    }

    /** The body of the loop, for one track. */
    method Reallocate(id: string, perTrackBudget: nat) returns (changed: bool)
      requires id in allocations
      modifies this`allocations
      ensures allocations == old(allocations)[id := Allot(old(allocations)[id], perTrackBudget)]
      ensures changed == (allocations[id].target != old(allocations)[id].target)
    {
      var alloc := allocations[id];
      if alloc.paused {
        return false;
      }
      var newLayer := SelectLayerForBudget(perTrackBudget, alloc.max);
      if newLayer == alloc.target {
        return false;
      }
      allocations := allocations[id := alloc.(target := newLayer)];
      return true;
    }

    /** Walks the map in any order; `fired` has the callbacks it spawns. */
    method RecalculateAllocations() returns (fired: map<string, string>)
      modifies this`allocations
      ensures State() == Next(old(State()), Recalculate)
      ensures fired == if closed || !hasCallback then map[] else Callbacks(old(allocations), availableBitrate)
    {
      fired := map[];
      if closed || allocations == map[] {
        return;
      }
      var perTrackBudget := availableBitrate / |allocations|;
      ghost var before := allocations;
      AllTracks(before, availableBitrate);
      var todo := allocations.Keys;
      while todo != {}
        invariant todo <= before.Keys
        invariant allocations == PartlyRecalculated(before, perTrackBudget, todo)
        invariant fired == if hasCallback then PartlyCalled(before, perTrackBudget, todo) else map[]
        decreases todo
      {
        var id :| id in todo;
        OneMoreTrack(before, perTrackBudget, todo, id);
        todo := todo - {id};
        var changed := Reallocate(id, perTrackBudget);
        if changed && hasCallback {
          fired := fired[id := allocations[id].target];
        }
      }
    }

    method OnBitrateUpdate(bitrate: nat) returns (fired: map<string, string>)
      modifies this`availableBitrate, this`allocations
      ensures State() == Next(Next(old(State()), SetAvailable(bitrate)), Recalculate)
      ensures fired == if closed || !hasCallback then map[] else Callbacks(old(allocations), bitrate)
    {
      availableBitrate := bitrate;
      fired := RecalculateAllocations();
    }

    method Close()
      modifies this`closed
      ensures State() == Next(old(State()), Event.Close)
    {
      closed := true;
    }
  }

  // ---------------------------------------------------------------- the budget is kept

  /** The nominal bitrate the tracks in `ids` are sent at. */
  ghost function Total(a: Allocations, ids: set<string>): nat
    requires ids <= a.Keys
    decreases |ids|
  {
    if ids == {} then 0 else
    var id :| id in ids;
    Bitrate(a[id].target) + Total(a, ids - {id})
  }

  /** The total does not depend on the order of the tracks. */
  lemma {:induction false} TotalSplits(a: Allocations, ids: set<string>, id: string)
    requires ids <= a.Keys && id in ids
    ensures Total(a, ids) == Bitrate(a[id].target) + Total(a, ids - {id})
    decreases |ids|
  {
    var first :| first in ids && Total(a, ids) == Bitrate(a[first].target) + Total(a, ids - {first});
    if first != id {
      TotalSplits(a, ids - {first}, id);
      TotalSplits(a, ids - {id}, first);
      assert ids - {first} - {id} == ids - {id} - {first};
    }
  }

  lemma {:induction false} TotalBounded(a: Allocations, ids: set<string>, bound: nat)
    requires ids <= a.Keys && forall id :: id in ids ==> Bitrate(a[id].target) <= bound
    ensures Total(a, ids) <= |ids| * bound
    decreases |ids|
  {
    if ids != {} {
      var id :| id in ids;
      TotalSplits(a, ids, id);
      TotalBounded(a, ids - {id}, bound);
      Distribute(bound, |ids - {id}|);
    }
  }

  lemma ShareFits(available: nat, n: nat, k: nat)
    requires 0 < n && k <= n
    ensures k * Max(available / n, 150_000) <= Max(available, n * 150_000)
  {
    var share := Quotient(available, n);
    TimesMonotone(k, n, share);
    TimesMonotone(k, n, 150_000);
  }

  /** No oversubscription. The tracks that are not paused are sent at no more than the available bitrate,
      or the lowest layer for everybody where even that is too much. */
  lemma NeverOversubscribes(a: Allocations, available: nat, ids: set<string>)
    requires ids <= a.Keys && forall id :: id in ids ==> !a[id].paused
    ensures ids <= Recalculated(a, available).Keys
    ensures Total(Recalculated(a, available), ids) <= Max(available, |a| * 150_000)
  {
    var b := Recalculated(a, available);
    if a == map[] {
      assert ids == {};
    } else {
      var bound := Max(Budget(a, available), 150_000);
      forall id | id in ids ensures Bitrate(b[id].target) <= bound {
        ChoiceIsHighestFit(b[id].target, Budget(a, available), a[id].max);
      }
      TotalBounded(b, ids, bound);
      assert |ids| <= |a| by { SubsetSize(ids, a.Keys); }
      ShareFits(available, |a|, |ids|);
    }
  }

  lemma {:induction false} SubsetSize(s: set<string>, t: set<string>)
    requires s <= t
    ensures |s| <= |t|
    decreases |s|
  {
    if s != {} {
      var x :| x in s;
      SubsetSize(s - {x}, t - {x});
    }
  }

  // ---------------------------------------------------------------- the share is spent

  lemma SharePays(available: nat, n: nat, bitrate: nat)
    requires n > 0
    ensures bitrate <= available / n <==> n * bitrate <= available
  {
    var q := Quotient(available, n);
    if bitrate <= q { TimesMonotone(bitrate, q, n); } else { TimesMonotone(q + 1, bitrate, n); }
  }

  /** What equal shares pay for is sent. */
  lemma ShareIsSpent(a: Allocations, available: nat, id: string, layer: string)
    requires id in a && !a[id].paused && layer in ORDER
    requires |a| * Bitrate(layer) <= available && Priority(layer) <= Priority(a[id].max)
    ensures Priority(layer) <= Priority(Recalculated(a, available)[id].target)
  {
    assert |a| > 0;
    SharePays(available, |a|, Bitrate(layer));
  }

  /** Those and only those are called back whose target has changed, with the new target. */
  lemma CallbacksAreChanges(a: Allocations, available: nat, id: string)
    ensures id in Callbacks(a, available) <==> id in a && Recalculated(a, available)[id].target != a[id].target
    ensures id in Callbacks(a, available) ==> Callbacks(a, available)[id] == Recalculated(a, available)[id].target
  {
  }

  // ---------------------------------------------------------------- monotone and stable

  lemma ChoiceIsMonotone(less: nat, more: nat, max: string)
    requires less <= more
    ensures Priority(Choice(less, max)) <= Priority(Choice(more, max))
  {
  }

  lemma TimesMonotone(a: nat, b: nat, m: nat)
    requires a <= b
    ensures m * a <= m * b && a * m <= b * m
  {
  }

  lemma TimesCancels(a: nat, b: nat, m: nat)
    requires m * a < m * b
    ensures a < b
  {
  }

  lemma Quotient(x: nat, n: nat) returns (q: nat)
    requires n > 0
    ensures q == x / n && n * q <= x < n * (q + 1)
  {
    q := x / n;
    Distribute(n, q);
  }

  lemma Distribute(n: nat, q: nat)
    ensures n * (q + 1) == n * q + n == (q + 1) * n
  {
  }

  lemma DivideMonotone(x: nat, y: nat, m: nat, n: nat)
    requires x <= y && 0 < m <= n
    ensures x / n <= y / m
  {
    var q := Quotient(x, n);
    var r := Quotient(y, m);
    TimesMonotone(m, n, q);
    TimesCancels(q, r + 1, m);
  }

  /** More bitrate, or fewer tracks, never takes a layer away from a track. */
  lemma AllocationIsMonotone(few: Allocations, many: Allocations, less: nat, more: nat, id: string)
    requires id in few && id in many && few[id].max == many[id].max && !few[id].paused && !many[id].paused
    requires few.Keys <= many.Keys && less <= more
    ensures Priority(Recalculated(many, less)[id].target) <= Priority(Recalculated(few, more)[id].target)
  {
    SubsetSize(few.Keys, many.Keys);
    assert |few| > 0;
    DivideMonotone(less, more, |few|, |many|);
    ChoiceIsMonotone(Budget(many, less), Budget(few, more), few[id].max);
  }

  /** A second recalculation with the same inputs changes nothing and calls nobody. */
  lemma RecalculationIsStable(a: Allocations, available: nat)
    ensures var b := Recalculated(a, available);
      Recalculated(b, available) == b && Callbacks(b, available) == map[]
  {
    var b := Recalculated(a, available);
    if a != map[] {
      assert b.Keys == a.Keys;
      assert |b| == |b.Keys| == |a.Keys| == |a|;
    }
  }

  // ---------------------------------------------------------------- targets and maxima over runs

  datatype Ctl = Ctl(allocations: Allocations, available: nat, closed: bool)

  datatype Event =
    | AddTrack(id: string, layer: string)
    | RemoveTrack(id: string)
    | SetMax(id: string, layer: string)
    | Request(id: string, layer: string)
    | SetAvailable(bitrate: nat)
    | Recalculate
    | Close

  function Capped(layer: string, max: string): string {
    if Priority(layer) > Priority(max) then max else layer
  }

  function Next(c: Ctl, e: Event): Ctl {
    match e
    case AddTrack(id, layer) => c.(allocations := c.allocations[id := Allocation(layer, layer, HIGH, false)])
    case RemoveTrack(id) => c.(allocations := c.allocations - {id})
    case SetMax(id, layer) =>
      if id !in c.allocations then c
      else
        var alloc := c.allocations[id];
        c.(allocations := c.allocations[id := alloc.(max := layer, target := Capped(alloc.target, layer))])
    case Request(id, layer) =>
      if id !in c.allocations then c
      else c.(allocations := c.allocations[id := c.allocations[id].(target := Capped(layer, c.allocations[id].max))])
    case SetAvailable(bitrate) => c.(available := bitrate)
    case Recalculate => if c.closed then c else c.(allocations := Recalculated(c.allocations, c.available))
    case Close => c.(closed := true)
  }

  function Exec(c: Ctl, es: seq<Event>): Ctl
    decreases es
  {
    if es == [] then c else Exec(Next(c, es[0]), es[1..])
  }

  /** What every track gets at an update of the bitrate. Exactly the highest layer is sent that all tracks together
      could be sent at and that is within the track's own maximum, "low" at the least; a paused track is left
      alone, and of the others nothing but the target changes. */
  lemma TargetExactly(c: Ctl, bitrate: nat, id: string)
    requires !c.closed && id in c.allocations
    ensures var a := c.allocations; var c' := Next(Next(c, SetAvailable(bitrate)), Recalculate);
      && c'.available == bitrate && c'.allocations.Keys == a.Keys
      && var b := c'.allocations[id];
         if a[id].paused then b == a[id]
         else
           && b == a[id].(target := b.target) && b.target in {"high", "mid", "low"}
           && (b.target == "high" <==> |a| * 2_500_000 <= bitrate && a[id].max == "high")
           && (b.target == "low" <==> |a| * 500_000 > bitrate || a[id].max !in {"high", "mid"})
  {
    assert |c.allocations| > 0;
    SharePays(bitrate, |c.allocations|, 2_500_000);
    SharePays(bitrate, |c.allocations|, 500_000);
  }

  /** What is done to one track is not done to another. */
  lemma OthersAreLeftAlone(c: Ctl, e: Event, other: string)
    requires e.AddTrack? || e.RemoveTrack? || e.SetMax? || e.Request?
    requires other != e.id
    ensures other in Next(c, e).allocations <==> other in c.allocations
    ensures other in c.allocations ==> Next(c, e).allocations[other] == c.allocations[other]
    ensures Next(c, e).available == c.available && Next(c, e).closed == c.closed
  {
  }

  /** A new track may be sent any layer anybody asks for, until a maximum is set; then the target is the layer last
      asked for exactly as long as that is no higher, and the maximum otherwise. */
  lemma RequestsAreHonoured(c: Ctl, id: string, first: string, layer: string, max: string)
    ensures var c1 := Next(Next(c, AddTrack(id, first)), Request(id, layer)); var c2 := Next(c1, SetMax(id, max));
      && id in c1.allocations && c1.allocations[id].target == layer && c1.allocations[id].max == "high"
      && c1.allocations[id].current == first && !c1.allocations[id].paused
      && id in c2.allocations && c2.allocations[id].max == max
      && c2.allocations[id].target in {layer, max}
      && (c2.allocations[id].target == layer <==> layer == max || Priority(layer) <= Priority(max))
  {
  }

  /** ... and asking again cannot get around the maximum. */
  lemma MaximumHolds(c: Ctl, id: string, layer: string)
    requires id in c.allocations
    ensures var alloc := Next(c, Request(id, layer)).allocations[id];
      && alloc == c.allocations[id].(target := alloc.target) && alloc.target in {layer, alloc.max}
      && (alloc.target == layer <==> layer == alloc.max || Priority(layer) <= Priority(alloc.max))
  {
  }

  /** A track that is removed is gone, and what was asked of it is not done. */
  lemma RemovedIsGone(c: Ctl, id: string, layer: string)
    ensures var c' := Next(c, RemoveTrack(id));
      id !in c'.allocations && Next(c', Request(id, layer)) == Next(c', SetMax(id, layer)) == c'
  {
  }

  /** Once the controller is closed the ticker and late estimates change no target any more. */
  lemma {:induction false} ClosedIsFrozen(c: Ctl, es: seq<Event>)
    requires forall e :: e in es ==> e.Recalculate? || e.SetAvailable?
    ensures Exec(Next(c, Close), es).allocations == c.allocations
    decreases es
  {
    if es != [] {
      assert es[0] in es;
      var c1 := Next(Next(c, Close), es[0]);
      assert Next(c1, Close) == c1;
      ClosedIsFrozen(c1, es[1..]);
    }
  }

  predicate WithinMax(alloc: Allocation) {
    Priority(alloc.target) <= Priority(alloc.max)
  }

  /** A recalculation keeps a track within its maximum exactly when the maximum is a layer at all. */
  lemma RecalculationKeepsMax(alloc: Allocation, budget: nat)
    requires !alloc.paused
    ensures WithinMax(Allot(alloc, budget)) <==> Priority(alloc.max) >= 1
  {
  }

  predicate Named(e: Event) {
    e.SetMax? ==> Priority(e.layer) >= 1
  }

  ghost predicate AllWithin(c: Ctl) {
    forall id :: id in c.allocations ==> WithinMax(c.allocations[id]) && Priority(c.allocations[id].max) >= 1
  }

  lemma WithinMaxStep(c: Ctl, e: Event, id: string)
    requires AllWithin(c) && Named(e) && id in Next(c, e).allocations
    ensures WithinMax(Next(c, e).allocations[id]) && Priority(Next(c, e).allocations[id].max) >= 1
  {
    if e.Recalculate? && !c.closed && !c.allocations[id].paused {
      RecalculationKeepsMax(c.allocations[id], Budget(c.allocations, c.available));
    }
  }

  /** As long as every maximum set is a layer, no target ever exceeds its maximum. */
  lemma {:induction false} TargetsStayWithinMax(c: Ctl, es: seq<Event>)
    requires AllWithin(c) && forall e :: e in es ==> Named(e)
    ensures AllWithin(Exec(c, es))
    decreases es
  {
    if es != [] {
      assert Named(es[0]);
      forall id | id in Next(c, es[0]).allocations
        ensures WithinMax(Next(c, es[0]).allocations[id]) && Priority(Next(c, es[0]).allocations[id].max) >= 1
      {
        WithinMaxStep(c, es[0], id);
      }
      TargetsStayWithinMax(Next(c, es[0]), es[1..]);
    }
  }

  /** A maximum that is no layer is overrun by the next recalculation, whatever the bitrate. */
  lemma UnknownMaxIsOverrun(c: Ctl, id: string, max: string)
    requires id in c.allocations && !c.closed && !c.allocations[id].paused && Priority(max) == 0
    ensures var c' := Exec(c, [SetMax(id, max), Recalculate]);
      id in c'.allocations && c'.allocations[id].target == LOW && !WithinMax(c'.allocations[id])
  {
    var c1 := Next(c, SetMax(id, max));
    assert [SetMax(id, max), Recalculate][1..] == [Recalculate];
    assert Exec(c1, [Recalculate]) == Exec(Next(c1, Recalculate), []);
  }
}
