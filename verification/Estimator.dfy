/** BandwidthEstimator (pkg/sfu/twcc.go), and the controller it drives through callbacks that may run in
    any order. Floating-point numbers are modelled by reals; conversions to integers round down. */
module Estimator {
  import B = Bandwidth
  import opened Values

  const UINT64 := 0x1_0000_0000_0000_0000

  datatype Config = Config(initialBitrate: nat, minBitrate: nat, maxBitrate: nat) {
    predicate Ordered() { minBitrate <= initialBitrate <= maxBitrate }
  }

  datatype Point = Point(time: int, bitrate: nat, loss: real)

  datatype Est = Est(estimate: nat, lossBased: nat, delayBased: nat, history: seq<Point>)

  function New(c: Config): Est { Est(c.initialBitrate, 0, 0, []) }

  function Clamp(bitrate: nat, low: nat, high: nat): nat {
    if bitrate < low then low else if bitrate > high then high else bitrate
  }

  /** calculateLossBasedEstimate. */
  function LossBased(bitrate: nat, loss: real): nat {
    if loss > 0.1 then (bitrate as real * 0.5).Floor
    else if loss > 0.02 then (bitrate as real * 0.85).Floor
    else if loss < 0.01 then (bitrate as real * 1.05).Floor
    else bitrate
  }

  /** combineEstimates. */
  function Combined(estimate: nat, lossBased: nat, delayBased: nat): nat {
    if delayBased > 0 && lossBased > 0 then (if delayBased < lossBased then delayBased else lossBased)
    else if lossBased > 0 then lossBased
    else estimate
  }

  /** The bitrate of the bytes received; the product is taken in 64 bits. */
  function Instant(receivedBytes: nat, seconds: real): nat
    requires seconds > 0.0
  {
    ((receivedBytes * 8 % UINT64) as real / seconds).Floor
  }

  function Updated(c: Config, b: Est, receivedBytes: nat, seconds: real, loss: real, now: int): Est {
    if seconds <= 0.0 then b else
    var lossBased := LossBased(Instant(receivedBytes, seconds), loss);
    var estimate := Clamp(Combined(b.estimate, lossBased, b.delayBased), c.minBitrate, c.maxBitrate);
    Est(estimate, lossBased, b.delayBased, LastHundred(b.history + [Point(now, estimate, loss)]))
  }

  function LastHundred(points: seq<Point>): seq<Point> {
    if |points| <= 100 then points else points[|points| - 100..]
  }

  predicate InRange(c: Config, v: nat) {
    c.minBitrate <= v <= c.maxBitrate
  }

  /** More loss or less traffic never gives a higher loss-based estimate. */
  lemma LossBasedIsMonotone(less: nat, more: nat, high: real, low: real)
    requires less <= more && low <= high
    ensures LossBased(less, high) <= LossBased(more, low)
    ensures low > 0.02 ==> LossBased(more, low) <= more
    ensures low < 0.01 ==> more <= LossBased(more, low)
  {
    assert less as real <= more as real;
  }

  lemma FloorOf(x: real, n: int)
    requires n as real <= x < n as real + 1.0
    ensures x.Floor == n
  {
  }

  /** The loss-based estimate in whole numbers: half above 10% loss, 17/20 above 2%, 21/20 below 1%, rounded down, and
      the bitrate itself in between. */
  lemma LossBasedInIntegers(bitrate: nat, loss: real)
    ensures LossBased(bitrate, loss) ==
      if loss > 0.1 then bitrate / 2
      else if loss > 0.02 then bitrate * 17 / 20
      else if loss < 0.01 then bitrate * 21 / 20
      else bitrate
  {
    FloorOf(bitrate as real * 0.5, bitrate / 2);
    FloorOf(bitrate as real * 0.85, bitrate * 17 / 20);
    FloorOf(bitrate as real * 1.05, bitrate * 21 / 20);
  }

  /** The estimates there are, together: the smaller of the two, the loss-based one alone, or else the old one; a
      delay-based estimate alone counts for nothing. */
  lemma CombinedIsLeast(estimate: nat, lossBased: nat, delayBased: nat)
    ensures var r := Combined(estimate, lossBased, delayBased);
      && (lossBased == 0 ==> r == estimate)
      && (lossBased > 0 ==>
            r <= lossBased && (delayBased > 0 ==> r <= delayBased) && (r == lossBased || r == delayBased > 0))
  {
  }

  /** What is within the limits is left as it is, and what is not becomes the limit it exceeds. */
  lemma ClampIsNearest(c: Config, bitrate: nat, v: nat)
    requires c.Ordered() && InRange(c, v)
    ensures var r := Clamp(bitrate, c.minBitrate, c.maxBitrate);
      && InRange(c, r) && (InRange(c, bitrate) ==> r == bitrate)
      && (bitrate <= r <= v || v <= r <= bitrate)
  {
  }

  /** One update: its loss-based estimate is stored, the estimate is what the three give within the limits, and the
      history ends with it. Without time gone by nothing changes. */
  lemma UpdateExactly(c: Config, b: Est, receivedBytes: nat, seconds: real, loss: real, now: int)
    requires c.Ordered() && |b.history| <= 100
    ensures var u := Updated(c, b, receivedBytes, seconds, loss, now);
      if seconds <= 0.0 then u == b
      else
        && u.lossBased == LossBased(Instant(receivedBytes, seconds), loss) && u.delayBased == b.delayBased
        && InRange(c, u.estimate)
        && (InRange(c, Combined(b.estimate, u.lossBased, b.delayBased)) ==>
              u.estimate == Combined(b.estimate, u.lossBased, b.delayBased))
        && 0 < |u.history| <= 100 && u.history[|u.history| - 1] == Point(now, u.estimate, loss)
        && u.history[..|u.history| - 1] == b.history[|b.history| + 1 - |u.history|..]
  {
    if seconds > 0.0 {
      var u := Updated(c, b, receivedBytes, seconds, loss, now);
      ClampIsNearest(c, Combined(b.estimate, u.lossBased, b.delayBased), c.minBitrate);
      assert u.history == LastHundred(b.history + [Point(now, u.estimate, loss)]);
    }
  }

  /** The window is the newest hundred, in order. */
  lemma NewestHundred(points: seq<Point>, i: nat)
    ensures |points| <= 100 ==> LastHundred(points) == points
    ensures |points| >= 100 ==> |LastHundred(points)| == 100
    ensures |points| >= 100 && i < 100 ==> LastHundred(points)[i] == points[|points| - 100 + i]
  {
  }

  /** The estimate that an update with this loss-based estimate leaves. */
  function Settled(c: Config, estimate: nat, lossBased: nat, delayBased: nat): nat {
    Clamp(Combined(estimate, lossBased, delayBased), c.minBitrate, c.maxBitrate)
  }

  /** A loss-based estimate of zero counts as none, and the old estimate stays. So one update never leaves
      less than a worse one, whatever the old estimate was, if and only if the worse has a loss-based
      estimate, or neither has, or the better leaves the maximum. */
  predicate KeepsOrder(c: Config, less: nat, more: nat, delayBased: nat) {
    less > 0 || more == 0 || (more >= c.maxBitrate && (delayBased == 0 || delayBased >= c.maxBitrate))
  }

  lemma SettledIsMonotone(c: Config, estimate: nat, less: nat, more: nat, delayBased: nat)
    requires c.Ordered() && less <= more && InRange(c, estimate) && KeepsOrder(c, less, more, delayBased)
    ensures Settled(c, estimate, less, delayBased) <= Settled(c, estimate, more, delayBased)
  {
  }

  lemma SettledIsNotMonotone(c: Config, less: nat, more: nat, delayBased: nat)
    requires c.Ordered() && c.minBitrate < c.maxBitrate && less <= more && !KeepsOrder(c, less, more, delayBased)
    ensures Settled(c, c.maxBitrate, less, delayBased) > Settled(c, c.maxBitrate, more, delayBased)
  {
  }

  lemma InstantIsQuotient(bytes: nat, seconds: real)
    requires seconds > 0.0 && bytes * 8 < UINT64
    ensures Instant(bytes, seconds) == ((bytes * 8) as real / seconds).Floor
  {
  }

  /** The bitrate is the number of bits a second, rounded down. */
  lemma InstantIsBitsPerSecond(bytes: nat, seconds: real)
    requires seconds > 0.0 && bytes * 8 < UINT64
    ensures var rate := Instant(bytes, seconds);
      rate as real * seconds <= (bytes * 8) as real < (rate + 1) as real * seconds
  {
    InstantIsQuotient(bytes, seconds);
    var rate, bits := Instant(bytes, seconds), (bytes * 8) as real;
    RatioBelow(bits, seconds, rate as real);
    RatioBelow(bits, seconds, (rate + 1) as real);
  }

  /** Fewer bytes in as much time or more, short of the 64 bits, are no higher a bitrate. */
  lemma InstantIsMonotone(fewer: nat, bytes: nat, longer: real, seconds: real)
    requires 0.0 < seconds <= longer && fewer <= bytes && bytes * 8 < UINT64
    ensures Instant(fewer, longer) <= Instant(bytes, seconds)
  {
    InstantIsQuotient(fewer, longer);
    InstantIsQuotient(bytes, seconds);
    DivideIsMonotone((fewer * 8) as real, (bytes * 8) as real, longer, seconds);
  }

  lemma TimesMonotone(a: real, b: real, t: real)
    requires t > 0.0
    ensures a < b <==> a * t < b * t
  {
  }

  lemma RatioBelow(x: real, t: real, k: real)
    requires t > 0.0
    ensures x / t < k <==> x < k * t
  {
    assert (x / t) * t == x;
    TimesMonotone(x / t, k, t);
  }

  lemma DivideIsMonotone(low: real, high: real, longer: real, seconds: real)
    requires 0.0 < seconds <= longer && 0.0 <= low <= high
    ensures 0.0 <= low / longer <= high / seconds
  {
    RatioBelow(low, longer, 0.0);
    RatioBelow(high, seconds, low / longer);
    assert (low / longer) * longer == low;
    assert (low / longer) * seconds <= low by {
      if low / longer > 0.0 && seconds < longer { TimesMonotone(seconds, longer, low / longer); }
    }
  }

  /** When the old estimate stays: less than one bit a second, or less than two with more than 2% loss. */
  lemma NoLossBasedExactly(bytes: nat, seconds: real, loss: real)
    requires seconds > 0.0 && bytes * 8 < UINT64
    ensures LossBased(Instant(bytes, seconds), loss) == 0 <==>
      (bytes * 8) as real < seconds * (if loss > 0.02 then 2.0 else 1.0)
  {
    var bits := (bytes * 8) as real;
    InstantIsQuotient(bytes, seconds);
    RatioBelow(bits, seconds, 1.0);
    RatioBelow(bits, seconds, 2.0);
    LossBasedIsZero(Instant(bytes, seconds), loss);
  }

  lemma LossBasedIsZero(bitrate: nat, loss: real)
    ensures LossBased(bitrate, loss) == 0 <==> bitrate < if loss > 0.02 then 2 else 1
  {
  }

  /** An update is worse than another: no more bytes, in no less time, with no less loss. */
  datatype Measure = Measure(bytes: nat, seconds: real, loss: real) {
    predicate Sensible() { seconds > 0.0 && bytes * 8 < UINT64 }

    predicate NoBetterThan(m: Measure) { bytes <= m.bytes && m.seconds <= seconds && m.loss <= loss }

    function LossBasedEstimate(): nat
      requires Sensible()
    {
      LossBased(Instant(bytes, seconds), loss)
    }
  }

  function After(c: Config, b: Est, m: Measure, now: int): nat {
    Updated(c, b, m.bytes, m.seconds, m.loss, now).estimate
  }

  /** Whatever the estimate was before, the better measurement leaves no lower one. */
  ghost predicate NeverLeavesLess(c: Config, worse: Measure, better: Measure, delayBased: nat, now: int) {
    forall b: Est :: InRange(c, b.estimate) && b.delayBased == delayBased ==>
      After(c, b, worse, now) <= After(c, b, better, now)
  }

  /** Exactly when a better measurement never leaves a lower estimate, whatever the estimate was before. */
  lemma UpdateIsMonotoneExactly(c: Config, worse: Measure, better: Measure, delayBased: nat, now: int)
    requires c.Ordered() && c.minBitrate < c.maxBitrate
    requires worse.Sensible() && better.Sensible() && worse.NoBetterThan(better)
    ensures NeverLeavesLess(c, worse, better, delayBased, now) <==>
      KeepsOrder(c, worse.LossBasedEstimate(), better.LossBasedEstimate(), delayBased)
  {
    var less, more := worse.LossBasedEstimate(), better.LossBasedEstimate();
    InstantIsMonotone(worse.bytes, better.bytes, worse.seconds, better.seconds);
    LossBasedIsMonotone(Instant(worse.bytes, worse.seconds), Instant(better.bytes, better.seconds),
                        worse.loss, better.loss);
    if KeepsOrder(c, less, more, delayBased) {
      forall b: Est | InRange(c, b.estimate) && b.delayBased == delayBased
        ensures After(c, b, worse, now) <= After(c, b, better, now)
      {
        SettledIsMonotone(c, b.estimate, less, more, delayBased);
      }
    } else {
      var b := Est(c.maxBitrate, 0, delayBased, []);
      SettledIsNotMonotone(c, less, more, delayBased);
      assert After(c, b, worse, now) > After(c, b, better, now);
    }
  }

  /** One byte in ten seconds keeps the old estimate, where one byte in one second takes it to the minimum. */
  lemma SilenceKeepsEstimate(c: Config, b: Est, loss: real, now: int)
    requires c.Ordered() && 10 < c.minBitrate < b.estimate <= c.maxBitrate && b.delayBased == 0 && 0.0 <= loss <= 1.0
    ensures After(c, b, Measure(1, 10.0, loss), now) == b.estimate
    ensures After(c, b, Measure(1, 1.0, loss), now) == c.minBitrate
  {
    NoLossBasedExactly(1, 10.0, loss);
    NoLossBasedExactly(1, 1.0, loss);
    LossBasedIsMonotone(8, 8, loss, 0.0);
  }

  class BandwidthEstimator {
    const config: Config
    var estimatedBitrate: nat
    var lossBasedEstimate: nat
    var delayBasedEstimate: nat
    var history: seq<Point>

    function State(): Est
      reads this
    {
      Est(estimatedBitrate, lossBasedEstimate, delayBasedEstimate, history)
    }

    constructor (config: Config)
      ensures this.config == config && State() == New(config)
    {
      this.config := config;
      estimatedBitrate, lossBasedEstimate, delayBasedEstimate, history := config.initialBitrate, 0, 0, [];
    }

    /** `estimate` is what the callback is spawned with. */
    method Update(receivedBytes: nat, seconds: real, lossRate: real, now: int) returns (estimate: nat)
      requires |history| <= 100
      modifies this
      ensures State() == Updated(config, old(State()), receivedBytes, seconds, lossRate, now)
      ensures |history| <= 100 && estimate == estimatedBitrate
    {
      if seconds > 0.0 {
        var instantBitrate := Instant(receivedBytes, seconds);
        lossBasedEstimate := LossBased(instantBitrate, lossRate);
        estimatedBitrate := CombineEstimates();
        if estimatedBitrate < config.minBitrate {
          estimatedBitrate := config.minBitrate;
        } else if estimatedBitrate > config.maxBitrate {
          estimatedBitrate := config.maxBitrate;
        }
        history := history + [Point(now, estimatedBitrate, lossRate)];
        if |history| > 100 {
          history := history[1..];
        }
      }
      return estimatedBitrate;
    }

    method CombineEstimates() returns (bitrate: nat)
      ensures bitrate == Combined(estimatedBitrate, lossBasedEstimate, delayBasedEstimate)
    {
      if delayBasedEstimate > 0 && lossBasedEstimate > 0 {
        if delayBasedEstimate < lossBasedEstimate {
          return delayBasedEstimate;
        }
        return lossBasedEstimate;
      }
      if lossBasedEstimate > 0 {
        return lossBasedEstimate;
      }
      return estimatedBitrate;
    }

    method SetDelayBasedEstimate(bitrate: nat)
      modifies this`delayBasedEstimate
      ensures State() == old(State()).(delayBased := bitrate)
    {
      delayBasedEstimate := bitrate;
    }
  }

  // ---------------------------------------------------------------- estimator and controller together

  /** `pending` are the callbacks spawned and not yet run; `produced` and `points` are history. */
  datatype World = World(est: Est, ctl: B.Ctl, pending: multiset<nat>, produced: set<nat>, points: seq<Point>)

  function Initial(c: Config): World {
    World(New(c), B.Ctl(map[], c.initialBitrate, false), multiset{}, {}, [])
  }

  datatype Event =
    | Update(receivedBytes: nat, seconds: real, loss: real, now: int)
    | SetDelay(bitrate: nat)
    | Deliver(estimate: nat)        // onBitrateUpdate up to the release of the lock
    | Control(e: B.Event)           // a caller, the ticker, or the second half of onBitrateUpdate

  predicate Enabled(w: World, e: Event) {
    match e
    case Deliver(v) => v in w.pending
    case Control(b) => !b.SetAvailable?
    case _ => true
  }

  function Next(c: Config, w: World, e: Event): World
    requires Enabled(w, e)
  {
    match e
    case Update(bytes, seconds, loss, now) =>
      var est := Updated(c, w.est, bytes, seconds, loss, now);
      World(est, w.ctl, w.pending + multiset{est.estimate}, w.produced + {est.estimate},
            if seconds > 0.0 then w.points + [Point(now, est.estimate, loss)] else w.points)
    case SetDelay(v) => w.(est := w.est.(delayBased := v))
    case Deliver(v) => w.(pending := w.pending - multiset{v}, ctl := B.Next(w.ctl, B.SetAvailable(v)))
    case Control(b) => w.(ctl := B.Next(w.ctl, b))
  }

  predicate Legal(c: Config, w: World, es: seq<Event>)
    decreases es
  {
    es == [] || (Enabled(w, es[0]) && Legal(c, Next(c, w, es[0]), es[1..]))
  }

  function Exec(c: Config, w: World, es: seq<Event>): World
    requires Legal(c, w, es)
    decreases es
  {
    if es == [] then w else Exec(c, Next(c, w, es[0]), es[1..])
  }

  ghost predicate Inv(c: Config, w: World) {
    && InRange(c, w.est.estimate)
    && (forall v :: v in w.produced ==> InRange(c, v))
    && (forall v :: v in w.pending ==> v in w.produced)
    && (w.ctl.available == c.initialBitrate || w.ctl.available in w.produced)
    && w.est.history == LastHundred(w.points)
  }

  /** Every update, even one without time gone by, spawns a callback with the estimate it leaves, and the callback
      makes it the available bitrate. */
  lemma UpdateIsCalledBack(c: Config, w: World, e: Event)
    requires e.Update?
    ensures var w1 := Next(c, w, e); var v := w1.est.estimate;
      && w1.pending == w.pending + multiset{v} && w1.ctl == w.ctl && Enabled(w1, Deliver(v))
      && Next(c, w1, Deliver(v)) == w1.(pending := w.pending, ctl := w.ctl.(available := v))
  {
    assert w.pending + multiset{Next(c, w, e).est.estimate} - multiset{Next(c, w, e).est.estimate} == w.pending;
  }

  /** A delay-based estimate caps the next update, down to the minimum, unless there is no loss-based one. */
  lemma DelayCaps(c: Config, w: World, v: nat, e: Event)
    requires c.Ordered() && e.Update? && v > 0 && e.seconds > 0.0
    ensures var w' := Next(c, Next(c, w, SetDelay(v)), e);
      w'.est.delayBased == v && (w'.est.lossBased > 0 ==> w'.est.estimate <= Max(v, c.minBitrate))
  {
  }

  lemma SlidingWindow(points: seq<Point>, p: Point)
    ensures LastHundred(LastHundred(points) + [p]) == LastHundred(points + [p])
  {
  }

  lemma UpdateKeepsInv(c: Config, w: World, e: Event)
    requires c.Ordered() && Inv(c, w) && e.Update?
    ensures Inv(c, Next(c, w, e))
  {
    var w' := Next(c, w, e);
    SlidingWindow(w.points, Point(e.now, w'.est.estimate, e.loss));
    assert forall v :: v in w'.pending ==> v in w.pending || v == w'.est.estimate;
  }

  lemma InvStep(c: Config, w: World, e: Event)
    requires c.Ordered() && Inv(c, w) && Enabled(w, e)
    ensures Inv(c, Next(c, w, e))
  {
    match e
    case Update(_, _, _, _) => UpdateKeepsInv(c, w, e);
    case SetDelay(_) =>
    case Deliver(v) =>
      assert forall u :: u in Next(c, w, e).pending ==> u in w.pending;
    case Control(b) =>
      assert Next(c, w, e).ctl.available == w.ctl.available;
  }

  lemma {:induction false} InvRun(c: Config, w: World, es: seq<Event>)
    requires c.Ordered() && Inv(c, w) && Legal(c, w, es)
    ensures Inv(c, Exec(c, w, es))
    decreases es
  {
    if es != [] {
      InvStep(c, w, es[0]);
      InvRun(c, Next(c, w, es[0]), es[1..]);
    }
  }

  /** Whatever is measured, and in whatever order the callbacks run, the available bitrate is the initial
      one or an estimate that was produced, inside the configured range; the history is exactly the
      last hundred effective updates; and the tracks are shared within the maximum bitrate. */
  lemma AvailableBitrateStaysInRange(c: Config, es: seq<Event>, ids: set<string>)
    requires c.Ordered() && Legal(c, Initial(c), es)
    requires var a := Exec(c, Initial(c), es).ctl.allocations; ids <= a.Keys && forall id :: id in ids ==> !a[id].paused
    ensures var w := Exec(c, Initial(c), es);
      && InRange(c, w.ctl.available)
      && (w.ctl.available == c.initialBitrate || w.ctl.available in w.produced)
      && w.est.history == LastHundred(w.points)
    ensures var w := Exec(c, Initial(c), es); var a := B.Recalculated(w.ctl.allocations, w.ctl.available);
      ids <= a.Keys && B.Total(a, ids) <= Max(c.maxBitrate, |w.ctl.allocations| * 150_000)
  {
    InvRun(c, Initial(c), es);
    var w := Exec(c, Initial(c), es);
    B.NeverOversubscribes(w.ctl.allocations, w.ctl.available, ids);
  }

  // ---------------------------------------------------------------- callbacks that overtake each other

  function Deliveries(vs: seq<nat>): seq<Event>
    decreases vs
  {
    if vs == [] then [] else [Deliver(vs[0])] + Deliveries(vs[1..])
  }

  lemma DeliverFirst(c: Config, w: World, v: nat, es: seq<Event>)
    requires v in w.pending
    requires Legal(c, w.(pending := w.pending - multiset{v}, ctl := w.ctl.(available := v)), es)
    ensures Legal(c, w, [Deliver(v)] + es)
    ensures Exec(c, w, [Deliver(v)] + es) ==
            Exec(c, w.(pending := w.pending - multiset{v}, ctl := w.ctl.(available := v)), es)
  {
    assert ([Deliver(v)] + es)[1..] == es;
    assert Next(c, w, Deliver(v)) == w.(pending := w.pending - multiset{v}, ctl := w.ctl.(available := v));
  }

  lemma HeadAndTail(vs: seq<nat>, m: multiset<nat>)
    requires vs != [] && multiset(vs) == m
    ensures vs[0] in m && multiset(vs[1..]) == m - multiset{vs[0]}
  {
    assert vs == [vs[0]] + vs[1..];
  }

  /** Delivering all pending callbacks in some order ends on the last of them. */
  lemma {:induction false} DeliverAll(c: Config, w: World, vs: seq<nat>)
    requires multiset(vs) == w.pending
    ensures Legal(c, w, Deliveries(vs))
    ensures var w' := Exec(c, w, Deliveries(vs));
      && w'.pending == multiset{} && w'.est == w.est
      && w'.ctl.available == if vs == [] then w.ctl.available else vs[|vs| - 1]
    decreases vs
  {
    if vs != [] {
      HeadAndTail(vs, w.pending);
      DeliverAll(c, w.(pending := w.pending - multiset{vs[0]}, ctl := w.ctl.(available := vs[0])), vs[1..]);
      DeliverFirst(c, w, vs[0], Deliveries(vs[1..]));
    }
  }

  lemma {:induction false} SomeOrder(m: multiset<nat>) returns (vs: seq<nat>)
    ensures multiset(vs) == m
    decreases |m|
  {
    if m == multiset{} {
      vs := [];
    } else {
      var v :| v in m;
      vs := SomeOrder(m - multiset{v});
      vs := vs + [v];
    }
  }

  ghost predicate EndsOnNewest(c: Config, w: World, vs: seq<nat>) {
    Legal(c, w, Deliveries(vs)) && Exec(c, w, Deliveries(vs)).ctl.available == w.est.estimate
  }

  lemma EndsOnLast(c: Config, w: World, vs: seq<nat>)
    requires multiset(vs) == w.pending && vs != []
    ensures EndsOnNewest(c, w, vs) <==> vs[|vs| - 1] == w.est.estimate
  {
    DeliverAll(c, w, vs);
  }

  lemma SomeOrderEndsOn(m: multiset<nat>, v: nat) returns (vs: seq<nat>)
    requires v in m
    ensures multiset(vs) == m && vs != [] && vs[|vs| - 1] == v
  {
    vs := SomeOrder(m - multiset{v});
    vs := vs + [v];
  }

  /** Every order of the pending callbacks ends on the newest estimate exactly when all of them carry it. */
  lemma EndsOnNewestExactly(c: Config, w: World)
    requires w.pending != multiset{}
    ensures (forall vs: seq<nat> :: multiset(vs) == w.pending ==> EndsOnNewest(c, w, vs)) <==>
            (forall v :: v in w.pending ==> v == w.est.estimate)
  {
    if v :| v in w.pending && v != w.est.estimate {
      var vs := SomeOrderEndsOn(w.pending, v);
      EndsOnLast(c, w, vs);
      assert !EndsOnNewest(c, w, vs);
    } else {
      forall vs: seq<nat> | multiset(vs) == w.pending ensures EndsOnNewest(c, w, vs) {
        assert vs != [] && vs[|vs| - 1] in multiset(vs);
        EndsOnLast(c, w, vs);
      }
    }
  }

  lemma {:induction false} RunsCompose(c: Config, w: World, es: seq<Event>, fs: seq<Event>)
    requires Legal(c, w, es) && Legal(c, Exec(c, w, es), fs)
    ensures Legal(c, w, es + fs) && Exec(c, w, es + fs) == Exec(c, Exec(c, w, es), fs)
    decreases es
  {
    if es == [] {
      assert es + fs == fs;
    } else {
      assert (es + fs)[1..] == es[1..] + fs;
      RunsCompose(c, Next(c, w, es[0]), es[1..], fs);
    }
  }

  /** Two updates, the second of which lowers the estimate to the minimum. */
  lemma TwoUpdates(c: Config) returns (es: seq<Event>)
    requires c.Ordered() && 10 < c.minBitrate < c.initialBitrate
    ensures Legal(c, Initial(c), es)
    ensures var w := Exec(c, Initial(c), es);
      w.pending == multiset{c.initialBitrate, c.minBitrate} && w.est.estimate == c.minBitrate
  {
    var first, second := Update(1, 10.0, 0.0, 0), Update(1, 1.0, 0.0, 1);
    var w1 := Next(c, Initial(c), first);
    SilenceKeepsEstimate(c, Initial(c).est, 0.0, 0);
    assert w1.est.estimate == c.initialBitrate && w1.pending == multiset{c.initialBitrate};
    SilenceKeepsEstimate(c, w1.est, 0.0, 1);
    var w2 := Next(c, w1, second);
    es := [first, second];
    assert es[1..] == [second] && [second][1..] == [];
    assert Exec(c, w1, [second]) == w2;
  }

  /** Callbacks that overtake each other leave an old estimate in force: after two updates and both their
      callbacks, run in the wrong order, nothing is pending and the available bitrate is the older one. */
  lemma OlderEstimateCanWin(c: Config) returns (es: seq<Event>)
    requires c.Ordered() && 10 < c.minBitrate < c.initialBitrate
    ensures Legal(c, Initial(c), es)
    ensures var w := Exec(c, Initial(c), es);
      w.pending == multiset{} && w.est.estimate == c.minBitrate && w.ctl.available == c.initialBitrate
  {
    var updates := TwoUpdates(c);
    var vs := [c.minBitrate, c.initialBitrate];
    DeliverAll(c, Exec(c, Initial(c), updates), vs);
    RunsCompose(c, Initial(c), updates, Deliveries(vs));
    es := updates + Deliveries(vs);
  }
}
