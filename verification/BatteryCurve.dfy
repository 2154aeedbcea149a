/** The learned discharge curve: how run times become calibration points, and how they are used. */
module BatteryCurve {
  import opened Arithmetic
  import opened BatteryLevel

  const POINTS: nat := 18
  const INTERVALS: nat := 19
  const STEP: nat := 500
  const FULL: nat := 10000
  const DEFAULT: seq<nat> := [500, 1000, 1700, 2500, 4000, 5400, 5800, 6200, 6600,
                              6900, 7300, 7600, 7900, 8200, 8500, 8700, 9000, 9200]

  /** Retained points, zero where nothing was learned. */
  ghost predicate Curve(curve: seq<nat>) {
    |curve| == POINTS && forall i | 0 <= i < POINTS :: curve[i] <= FULL
  }

  function Point(curve: seq<nat>, index: nat): nat
    requires |curve| == POINTS
  {
    if index >= POINTS then 0 else if curve[index] != 0 then curve[index] else DEFAULT[index]
  }

  /** The calibrated charge at the lower end of the k-th step of raw charge. */
  function Boundary(curve: seq<nat>, k: nat): nat
    requires |curve| == POINTS
  {
    if 1 <= k <= POINTS then Point(curve, k - 1) else k * STEP
  }

  function Scale(low: nat, high: nat, part: nat): nat
    requires low <= high
  {
    Prorate(high - low, part, STEP) + low
  }

  /** Raw to calibrated charge; a step whose ends are out of order is left as it is. */
  function Apply(curve: seq<nat>, pptt: int): int
    requires |curve| == POINTS
  {
    if pptt < 0 || pptt > FULL then -1
    else
      var k := pptt / STEP;
      var low, high := Boundary(curve, k), Boundary(curve, k + 1);
      if low > FULL || high > FULL + STEP || high < low then pptt
      else Scale(low, high, pptt % STEP)
  }

  // ------------------------------------------------------ when Apply is monotone

  ghost predicate RisesAt(curve: seq<nat>, k: nat)
    requires |curve| == POINTS
  {
    Boundary(curve, k) <= Boundary(curve, k + 1)
  }

  ghost predicate Rising(curve: seq<nat>)
    requires |curve| == POINTS
  {
    forall k: nat | k <= INTERVALS :: RisesAt(curve, k)
  }

  ghost predicate Monotone(curve: seq<nat>)
    requires |curve| == POINTS
  {
    forall p: nat, q: nat | p <= q <= FULL :: Ordered(curve, p, q)
  }

  ghost predicate Ordered(curve: seq<nat>, p: nat, q: nat)
    requires |curve| == POINTS
  {
    Apply(curve, p) <= Apply(curve, q)
  }

  lemma DefaultRange(i: nat)
    requires i < POINTS
    ensures 500 <= DEFAULT[i] <= 9200
  {
  }

  lemma DefaultRises(i: nat, j: nat)
    requires i < j < POINTS
    ensures DEFAULT[i] < DEFAULT[j]
    decreases j - i
  {
    if i + 1 == j {
    } else {
      DefaultRises(i + 1, j);
    }
  }

  lemma BoundaryRange(curve: seq<nat>, k: nat)
    requires Curve(curve) && k <= 21
    ensures k <= 20 ==> Boundary(curve, k) <= FULL
    ensures k == 21 ==> Boundary(curve, k) == FULL + STEP
  {
    if 1 <= k <= POINTS { DefaultRange(k - 1); }
  }

  /** Inside one step the calibrated charge lies on the straight line between the step's two ends,
      less than one unit below it; a step whose ends are out of order or range is left as it is. */
  lemma AppliedOnLine(curve: seq<nat>, pptt: nat)
    requires Curve(curve) && pptt <= FULL
    ensures var k := pptt / STEP; var low, high := Boundary(curve, k), Boundary(curve, k + 1);
            if low > high then Apply(curve, pptt) == pptt
            else var gained := Apply(curve, pptt) - low;
                 gained * STEP <= (high - low) * (pptt - k * STEP) < (gained + 1) * STEP
  {
    hide Prorate, Boundary;
    var k := pptt / STEP;
    var low, high := Boundary(curve, k), Boundary(curve, k + 1);
    BoundaryRange(curve, k);
    BoundaryRange(curve, k + 1);
    if low <= high { ProrateExact(high - low, pptt % STEP, STEP); }
  }

  lemma ScaleBounds(low: nat, high: nat, p: nat, q: nat)
    requires low <= high && p <= q <= STEP
    ensures low <= Scale(low, high, p) <= Scale(low, high, q) <= high
  {
    hide Prorate;
    ProrateEnds(high - low, STEP);
    ProrateMonotone(high - low, 0, p, STEP);
    ProrateMonotone(high - low, p, q, STEP);
    ProrateMonotone(high - low, q, STEP, STEP);
  }

  /** Inside one rising step the calibrated charge stays between the step's two ends. */
  lemma StepRises(curve: seq<nat>, k: nat, p: nat, q: nat)
    requires Curve(curve) && k * STEP <= p <= q < (k + 1) * STEP && q <= FULL && RisesAt(curve, k)
    ensures Boundary(curve, k) <= Apply(curve, p) <= Apply(curve, q) <= Boundary(curve, k + 1)
  {
    hide Boundary, Scale;
    assert p / STEP == k && q / STEP == k && p % STEP <= q % STEP;
    BoundaryRange(curve, k);
    BoundaryRange(curve, k + 1);
    ScaleBounds(Boundary(curve, k), Boundary(curve, k + 1), p % STEP, q % STEP);
  }

  lemma {:induction false} BoundariesRise(curve: seq<nat>, j: nat, k: nat)
    requires |curve| == POINTS && Rising(curve) && j <= k <= 20
    ensures Boundary(curve, j) <= Boundary(curve, k)
    decreases k - j
  {
    if j == k {
    } else {
      assert RisesAt(curve, j);
      BoundariesRise(curve, j + 1, k);
    }
  }

  lemma RisingOrders(curve: seq<nat>, p: nat, q: nat)
    requires Curve(curve) && Rising(curve) && p <= q <= FULL
    ensures Ordered(curve, p, q) && 0 <= Apply(curve, q) <= FULL
  {
    hide Apply, Boundary;
    var j, k := p / STEP, q / STEP;
    DivMono(p, q, STEP);
    LastStep(curve);
    if k < 20 {
      assert RisesAt(curve, j) && RisesAt(curve, k);
      StepRises(curve, k, q, q);
      BoundaryRange(curve, k + 1);
      if j == k {
        StepRises(curve, k, p, q);
      } else {
        StepRises(curve, j, p, p);
        BoundariesRise(curve, j + 1, k);
      }
    } else if j < 20 {
      assert q == FULL && RisesAt(curve, j);
      StepRises(curve, j, p, p);
      BoundaryRange(curve, j + 1);
    }
  }

  lemma LastStep(curve: seq<nat>)
    requires |curve| == POINTS
    ensures Apply(curve, FULL) == FULL
  {
  }

  /** Where the first step falls: before it all rise, and its own reading is raw. */
  lemma {:induction false} FirstFall(curve: seq<nat>, k: nat) returns (first: nat)
    requires |curve| == POINTS && !RisesAt(curve, k)
    ensures first <= k && !RisesAt(curve, first) && forall j: nat | j < first :: RisesAt(curve, j)
    decreases k
  {
    first := k;
    var j := 0;
    while j < k
      invariant j <= k && forall i: nat | i < j :: RisesAt(curve, i)
    {
      if !RisesAt(curve, j) { return j; }
      j := j + 1;
    }
  }

  /** After a fall, the next rising step starts below where the fall began. */
  lemma {:induction false} NextRise(curve: seq<nat>, k: nat) returns (next: nat)
    requires |curve| == POINTS && !RisesAt(curve, k) && k < INTERVALS
    ensures k < next <= INTERVALS && RisesAt(curve, next) && Boundary(curve, next) < Boundary(curve, k)
    ensures !RisesAt(curve, next - 1)
    decreases INTERVALS - k
  {
    LastRises(curve);
    if RisesAt(curve, k + 1) { next := k + 1; } else { next := NextRise(curve, k + 1); }
  }

  lemma LastRises(curve: seq<nat>)
    requires |curve| == POINTS
    ensures RisesAt(curve, INTERVALS)
  {
  }

  lemma RawStep(curve: seq<nat>, k: nat, p: nat)
    requires |curve| == POINTS && !RisesAt(curve, k) && k * STEP <= p < (k + 1) * STEP && p <= FULL
    ensures Apply(curve, p) == p
  {
    hide Boundary;
    assert p / STEP == k;
  }

  lemma StepStart(curve: seq<nat>, k: nat)
    requires Curve(curve) && k <= INTERVALS && RisesAt(curve, k)
    ensures Apply(curve, k * STEP) == Boundary(curve, k)
  {
    hide Boundary;
    BoundaryRange(curve, k);
    BoundaryRange(curve, k + 1);
    assert k * STEP / STEP == k && k * STEP % STEP == 0;
  }

  /** At its last unit a rising step has come within a five-hundredth of its upper end. */
  lemma StepEnd(curve: seq<nat>, k: nat)
    requires Curve(curve) && k < INTERVALS && RisesAt(curve, k)
    ensures Apply(curve, k * STEP + 499) + 21 >= Boundary(curve, k + 1)
  {
    hide Boundary;
    BoundaryRange(curve, k);
    BoundaryRange(curve, k + 1);
    var low, high, p := Boundary(curve, k), Boundary(curve, k + 1), k * STEP + 499;
    assert p / STEP == k && p % STEP == 499;
    assert (high - low) * 499 / STEP + low + 21 >= high;
  }

  /** The calibrated charge is monotone in the raw charge exactly when the boundaries rise. */
  lemma MonotoneIffRising(curve: seq<nat>)
    requires Curve(curve)
    ensures Monotone(curve) <==> Rising(curve)
  {
    hide Apply, Boundary;
    if Rising(curve) {
      forall p: nat, q: nat | p <= q <= FULL ensures Ordered(curve, p, q) { RisingOrders(curve, p, q); }
    } else {
      var k: nat :| k <= INTERVALS && !RisesAt(curve, k);
      FallBreaks(curve, k);
    }
  }

  lemma FallBreaks(curve: seq<nat>, k: nat)
    requires Curve(curve) && k <= INTERVALS && !RisesAt(curve, k)
    ensures !Monotone(curve)
  {
    hide Apply, Boundary;
    LastRises(curve);
    FirstRises(curve);
    var first := FirstFall(curve, k);
    var next := NextRise(curve, first);
    var before, start, end, after := (first - 1) * STEP + 499, first * STEP, (next - 1) * STEP + 499, next * STEP;
    StepEnd(curve, first - 1);
    RawStep(curve, first, start);
    RawStep(curve, next - 1, end);
    StepStart(curve, next);
    assert !Ordered(curve, before, start) || !Ordered(curve, end, after);
  }

  lemma FirstRises(curve: seq<nat>)
    requires |curve| == POINTS
    ensures RisesAt(curve, 0)
  {
  }

  // ------------------------------------------------------- learning the curve

  datatype Interval = Interval(cycles: nat, runtime: nat) {
    function Average(): nat {
      if cycles > 0 then runtime / cycles else 0
    }
  }

  /** One record per twentieth of charge, and some time recorded: the code divides by the total. */
  ghost predicate Divisible(data: seq<Interval>) {
    |data| == INTERVALS && Time(data, 0, INTERVALS) > 0
  }

  /** Every recorded interval took at least a tick per cycle. */
  ghost predicate Measured(data: seq<Interval>) {
    |data| == INTERVALS && forall i | 0 <= i < INTERVALS && data[i].cycles > 0 :: data[i].Average() > 0
  }

  function Recorded(data: seq<Interval>, from: nat, until: nat): nat
    requires from <= until <= |data|
    decreases until
  {
    if from == until then 0 else Recorded(data, from, until - 1) + (if data[until - 1].cycles > 0 then 1 else 0)
  }

  function Time(data: seq<Interval>, from: nat, until: nat): nat
    requires from <= until <= |data|
    decreases until
  {
    if from == until then 0 else Time(data, from, until - 1) + data[until - 1].Average()
  }

  /** Time with the gaps filled in by `fill`. */
  function Filled(data: seq<Interval>, fill: nat, from: nat, until: nat): nat
    requires from <= until <= |data|
    decreases until
  {
    if from == until then 0
    else Filled(data, fill, from, until - 1) +
         (if data[until - 1].Average() > 0 then data[until - 1].Average() else fill)
  }

  /** The recorded span: its first and last interval, both recorded, with none outside. */
  ghost predicate Spans(data: seq<Interval>, first: nat, last: nat) {
    && first < last < |data| && data[first].cycles > 0 && data[last].cycles > 0
    && (forall i | 0 <= i < |data| && data[i].cycles > 0 :: first <= i <= last)
  }

  function Low(first: nat): nat
    requires first <= POINTS
  {
    if first > 0 then DEFAULT[first - 1] else 0
  }

  function High(last: nat): nat {
    if last < 17 then DEFAULT[last] else FULL
  }

  function Fill(data: seq<Interval>): nat {
    var n := Recorded(data, 0, |data|);
    if n == 0 then 0 else Time(data, 0, |data|) / n
  }

  function LearnedAt(data: seq<Interval>, first: nat, last: nat, i: nat): nat
    requires |data| == INTERVALS && first <= i < last < INTERVALS
  {
    Share(Filled(data, Fill(data), first, i + 1), Total(data, first, last), Low(first), High(last))
  }

  /** The recorded time, and the average for each interval of the span that was not recorded. */
  function Total(data: seq<Interval>, first: nat, last: nat): nat
    requires |data| == INTERVALS && first < last < INTERVALS
  {
    var gaps := last + 1 - first - Recorded(data, 0, INTERVALS);
    Time(data, 0, INTERVALS) + Padding(Fill(data), if gaps >= 0 then gaps else 0)
  }

  function Share(part: nat, total: nat, low: nat, high: nat): nat {
    if total == 0 || high < low then 0 else Prorate(high - low, part, total) + low
  }

  /** A share of the time is worth that share of the charge, to within one unit. */
  lemma ShareOnLine(part: nat, total: nat, low: nat, high: nat)
    requires total > 0 && low <= high
    ensures var gained := Share(part, total, low, high) - low;
            gained * total <= (high - low) * part < (gained + 1) * total
  {
    hide Prorate;
    ProrateExact(high - low, part, total);
  }

  lemma ShareRises(a: nat, b: nat, total: nat, low: nat, high: nat)
    requires a <= b && total > 0 && low <= high
    ensures low <= Share(a, total, low, high) <= Share(b, total, low, high)
  {
    hide Prorate;
    ProrateEnds(high - low, total);
    ProrateMonotone(high - low, 0, a, total);
    ProrateMonotone(high - low, a, b, total);
  }

  lemma ShareBelow(a: nat, total: nat, low: nat, high: nat)
    requires total > 0 && low <= high
    ensures a <= total ==> Share(a, total, low, high) <= high
    ensures a <= 2 * total ==> Share(a, total, low, high) <= 2 * high - low
  {
    hide Prorate;
    if a <= total {
      ProrateEnds(high - low, total);
      ProrateMonotone(high - low, a, total, total);
    } else if a <= 2 * total {
      ProrateTwice(high - low, total);
      ProrateMonotone(high - low, a, 2 * total, total);
    }
  }

  /** The curve after an update: points inside the recorded span, nothing elsewhere. */
  ghost predicate Learned(data: seq<Interval>, first: nat, last: nat, curve: seq<nat>)
    requires |data| == INTERVALS && first < last < INTERVALS
  {
    |curve| == POINTS && forall i | 0 <= i < POINTS ::
      curve[i] == if first <= i < last then LearnedAt(data, first, last, i) else 0
  }

  lemma {:induction false} FilledGrows(data: seq<Interval>, fill: nat, from: nat, i: nat, j: nat)
    requires from <= i <= j <= |data|
    ensures Filled(data, fill, from, i) <= Filled(data, fill, from, j)
    decreases j
  {
    if i == j {
    } else {
      FilledGrows(data, fill, from, i, j - 1);
    }
  }

  function Padding(fill: nat, gaps: nat): nat {
    fill * gaps
  }

  lemma NoPadding(fill: nat)
    ensures Padding(fill, 0) == 0
  {
  }

  lemma PaddingGrows(fill: nat, gaps: nat)
    ensures Padding(fill, gaps + 1) == Padding(fill, gaps) + fill
  {
  }

  /** With every average positive the running sum is the recorded time plus one average per gap. */
  lemma {:induction false} FilledIsTotal(data: seq<Interval>, fill: nat, from: nat, until: nat)
    requires |data| == INTERVALS && Measured(data) && from <= until <= INTERVALS
    requires Recorded(data, from, until) <= until - from
    ensures Filled(data, fill, from, until)
         == Time(data, from, until) + Padding(fill, until - from - Recorded(data, from, until))
    decreases until
  {
    hide Padding, Interval.Average, Measured, Filled, Recorded, Time;
    NoPadding(fill);
    SumsUnfold(data, fill, from, until);
    if from == until {
    } else {
      AveragesTell(data, until - 1);
      RecordedAtMost(data, from, until - 1);
      FilledIsTotal(data, fill, from, until - 1);
      PaddingGrows(fill, until - 1 - from - Recorded(data, from, until - 1));
    }
  }

  lemma SumsUnfold(data: seq<Interval>, fill: nat, from: nat, until: nat)
    requires from <= until <= |data|
    ensures from == until ==>
              Recorded(data, from, until) == Time(data, from, until) == Filled(data, fill, from, until) == 0
    ensures from < until ==>
              var v := data[until - 1];
              && Recorded(data, from, until) == Recorded(data, from, until - 1) + (if v.cycles > 0 then 1 else 0)
              && Time(data, from, until) == Time(data, from, until - 1) + v.Average()
              && Filled(data, fill, from, until)
                 == Filled(data, fill, from, until - 1) + if v.Average() > 0 then v.Average() else fill
  {
  }

  lemma AveragesTell(data: seq<Interval>, i: nat)
    requires Measured(data) && i < INTERVALS
    ensures |data| == INTERVALS && (data[i].Average() > 0 <==> data[i].cycles > 0)
  {
  }

  lemma {:induction false} RecordedAtMost(data: seq<Interval>, from: nat, until: nat)
    requires from <= until <= |data|
    ensures Recorded(data, from, until) <= until - from
    decreases until
  {
    if from == until {
    } else {
      RecordedAtMost(data, from, until - 1);
    }
  }

  /** An average of zero is filled in too, although its interval was counted as recorded. */
  lemma {:induction false} FilledAtMost(data: seq<Interval>, fill: nat, from: nat, until: nat)
    requires from <= until <= |data|
    ensures Filled(data, fill, from, until) <= Time(data, from, until) + Padding(fill, until - from)
    decreases until
  {
    hide Padding;
    NoPadding(fill);
    if from == until {
    } else {
      FilledAtMost(data, fill, from, until - 1);
      PaddingGrows(fill, until - 1 - from);
    }
  }

  lemma PaddingSplits(fill: nat, a: nat, b: nat)
    ensures Padding(fill, a + b) == Padding(fill, a) + Padding(fill, b)
  {
    Distribute(a, b, fill);
  }

  lemma {:induction false} OutsideSpan(data: seq<Interval>, first: nat, last: nat, i: nat)
    requires |data| == INTERVALS && Spans(data, first, last) && i <= INTERVALS
    ensures i <= first ==> Recorded(data, 0, i) == 0 && Time(data, 0, i) == 0
    ensures first <= i ==> Recorded(data, 0, i) == Recorded(data, first, i) && Time(data, 0, i) == Time(data, first, i)
    ensures i > last ==> Recorded(data, first, i) == Recorded(data, first, last + 1)
                         && Time(data, first, i) == Time(data, first, last + 1)
    decreases i
  {
    if i == 0 {
    } else {
      OutsideSpan(data, first, last, i - 1);
    }
  }

  lemma SpanTotal(data: seq<Interval>, first: nat, last: nat)
    requires |data| == INTERVALS && Spans(data, first, last)
    ensures 0 < Recorded(data, 0, INTERVALS) <= last + 1 - first
    ensures Filled(data, Fill(data), first, last + 1) <= Total(data, first, last) + Time(data, 0, INTERVALS)
    ensures Measured(data) ==> Filled(data, Fill(data), first, last + 1) == Total(data, first, last)
  {
    hide Fill, Filled, Recorded, Time, Padding, Measured;
    OneRecorded(data, first, last);
    FillTimes(data);
    OutsideSpan(data, first, last, INTERVALS);
    var n := Recorded(data, first, last + 1);
    assert Recorded(data, 0, INTERVALS) == n;
    RecordedAtMost(data, first, last + 1);
    FilledAtMost(data, Fill(data), first, last + 1);
    PaddingSplits(Fill(data), last + 1 - first - n, n);
    if Measured(data) { FilledIsTotal(data, Fill(data), first, last + 1); }
  }

  lemma OneRecorded(data: seq<Interval>, first: nat, last: nat)
    requires |data| == INTERVALS && Spans(data, first, last)
    ensures Recorded(data, 0, INTERVALS) > 0
  {
    RecordedGrows(data, first + 1, INTERVALS);
  }

  lemma {:induction false} RecordedGrows(data: seq<Interval>, i: nat, j: nat)
    requires i <= j <= |data|
    ensures Recorded(data, 0, i) <= Recorded(data, 0, j)
    decreases j
  {
    if i == j {
    } else {
      RecordedGrows(data, i, j - 1);
    }
  }

  lemma FillTimes(data: seq<Interval>)
    requires |data| == INTERVALS && Recorded(data, 0, INTERVALS) > 0
    ensures Padding(Fill(data), Recorded(data, 0, INTERVALS)) <= Time(data, 0, INTERVALS)
  {
    hide Recorded, Time;
    QuotientTimes(Time(data, 0, INTERVALS), Recorded(data, 0, INTERVALS));
  }

  lemma SpanRises(first: nat, last: nat)
    requires first < last < INTERVALS
    ensures Low(first) < High(last) <= FULL
  {
    if first > 0 && last < 17 { DefaultRises(first - 1, last); }
    if first > 0 { DefaultRange(first - 1); }
    if last < 17 { DefaultRange(last); }
  }

  lemma MeasuredDivides(data: seq<Interval>, first: nat, last: nat)
    requires Measured(data) && Spans(data, first, last)
    ensures Divisible(data)
  {
    TimeGrows(data, first + 1, INTERVALS);
  }

  lemma {:induction false} TimeGrows(data: seq<Interval>, i: nat, j: nat)
    requires i <= j <= |data|
    ensures Time(data, 0, i) <= Time(data, 0, j)
    decreases j
  {
    if i == j {
    } else {
      TimeGrows(data, i, j - 1);
    }
  }

  lemma TotalAtLeast(data: seq<Interval>, first: nat, last: nat)
    requires |data| == INTERVALS && first < last < INTERVALS
    ensures Total(data, first, last) >= Time(data, 0, INTERVALS)
  {
  }

  /** Learned points rise from the default below the span, and fit in 16 bits. */
  lemma LearnedRises(data: seq<Interval>, first: nat, last: nat, i: nat, j: nat)
    requires Divisible(data) && Spans(data, first, last) && first <= i <= j < last
    ensures Low(first) <= LearnedAt(data, first, last, i) <= LearnedAt(data, first, last, j) <= 2 * FULL
    ensures Measured(data) ==> LearnedAt(data, first, last, j) <= High(last)
  {
    hide Filled, Fill, High, Low, Share, Total, Recorded, Time, Measured;
    SpanRises(first, last);
    SpanTotal(data, first, last);
    var fill, total := Fill(data), Total(data, first, last);
    FilledGrows(data, fill, first, i + 1, j + 1);
    FilledGrows(data, fill, first, j + 1, last + 1);
    TotalAtLeast(data, first, last);
    ShareRises(Filled(data, fill, first, i + 1), Filled(data, fill, first, j + 1), total, Low(first), High(last));
    ShareBelow(Filled(data, fill, first, j + 1), total, Low(first), High(last));
  }

  /** What keeps the boundaries in order where learned points meet defaults. */
  ghost predicate Fits(curve: seq<nat>, last: nat)
    requires |curve| == POINTS && 0 < last <= POINTS
  {
    && curve[last - 1] <= Boundary(curve, last + 1)
    && (forall i | 0 <= i < POINTS - 1 && curve[i] == 0 && curve[i + 1] > 0 :: DEFAULT[i] <= curve[i + 1])
  }

  lemma LearnedOrdered(data: seq<Interval>, first: nat, last: nat, curve: seq<nat>)
    requires Divisible(data) && Spans(data, first, last) && Learned(data, first, last, curve)
    ensures forall i | first <= i < last :: Low(first) <= curve[i] <= 2 * FULL
    ensures forall i | first <= i < last - 1 :: curve[i] <= curve[i + 1]
    ensures Measured(data) ==> Curve(curve) && forall i | first <= i < last :: curve[i] <= High(last)
  {
    hide LearnedAt;
    SpanRises(first, last);
    forall i | first <= i < last
      ensures Low(first) <= curve[i] <= 2 * FULL && (i < last - 1 ==> curve[i] <= curve[i + 1])
      ensures Measured(data) ==> curve[i] <= High(last)
    {
      LearnedRises(data, first, last, i, if i < last - 1 then i + 1 else i);
      LearnedRises(data, first, last, i, i);
    }
  }

  lemma StepOfLearned(data: seq<Interval>, first: nat, last: nat, curve: seq<nat>, k: nat)
    requires Divisible(data) && Spans(data, first, last) && Learned(data, first, last, curve) && k <= INTERVALS
    requires Fits(curve, last)
    ensures RisesAt(curve, k)
  {
    hide LearnedAt;
    LearnedOrdered(data, first, last, curve);
    if 1 <= k <= 17 {
      DefaultRises(k - 1, k);
    } else if k == 18 {
      DefaultRange(17);
    }
  }

  /** A learned curve of charges up to 10000 calibrates monotonely exactly when it fits the
      defaults around it. */
  lemma LearnedMonotoneIff(data: seq<Interval>, first: nat, last: nat, curve: seq<nat>)
    requires Divisible(data) && Spans(data, first, last) && Learned(data, first, last, curve) && Curve(curve)
    ensures Monotone(curve) <==> Fits(curve, last)
  {
    hide Learned, LearnedAt;
    MonotoneIffRising(curve);
    if Fits(curve, last) {
      forall k: nat | k <= INTERVALS ensures RisesAt(curve, k) { StepOfLearned(data, first, last, curve, k); }
    }
    if Rising(curve) {
      assert RisesAt(curve, last);
      forall i | 0 <= i < POINTS - 1 && curve[i] == 0 && curve[i + 1] > 0 ensures DEFAULT[i] <= curve[i + 1] {
        assert RisesAt(curve, i + 1);
      }
    }
  }

  /** A measured span that leaves a default on both sides always fits. */
  lemma InnerSpanFits(data: seq<Interval>, first: nat, last: nat, curve: seq<nat>)
    requires Measured(data) && Spans(data, first, last) && Learned(data, first, last, curve)
    requires first >= 1 && last <= 16
    ensures Fits(curve, last)
  {
    hide LearnedAt;
    MeasuredDivides(data, first, last);
    LearnedOrdered(data, first, last, curve);
    DefaultRange(first - 1);
    assert Boundary(curve, last + 1) == High(last);
    forall i | 0 <= i < POINTS - 1 && curve[i] == 0 && curve[i + 1] > 0 ensures DEFAULT[i] <= curve[i + 1] {
      assert i + 1 == first;
    }
  }

  /** From voltage to calibrated charge, end to end: never less charge for more voltage. */
  lemma CalibratedMonotone(data: seq<Interval>, first: nat, last: nat, curve: seq<nat>,
                           points: seq<LevelPoint>, a: nat, b: nat)
    requires Measured(data) && Spans(data, first, last) && Learned(data, first, last, curve)
    requires first >= 1 && last <= 16
    requires Table(points) && points[0].pptt <= FULL && a <= b
    ensures 0 <= Apply(curve, Level(points, a)) <= Apply(curve, Level(points, b)) <= FULL
  {
    hide Apply, Level;
    InnerSpanFits(data, first, last, curve);
    MeasuredDivides(data, first, last);
    LearnedOrdered(data, first, last, curve);
    LearnedMonotoneIff(data, first, last, curve);
    MonotoneIffRising(curve);
    LevelMonotone(points, a, b);
    RisingOrders(curve, Level(points, a), Level(points, b));
    RisingOrders(curve, Level(points, a), Level(points, a));
  }

  /** Intervals 1 to 17 all recorded, each lasting the same. */
  function Steady(): (data: seq<Interval>)
    ensures Measured(data) && Spans(data, 1, 17)
  {
    seq(INTERVALS, i => if 1 <= i <= 17 then Interval(1, 100) else Interval(0, 0))
  }

  lemma {:induction false} SteadyTime(until: nat)
    requires 1 <= until <= 18
    ensures Filled(Steady(), Fill(Steady()), 1, until) == 100 * (until - 1)
    decreases until
  {
    hide Steady, Fill, Interval.Average;
    if until == 1 {
    } else {
      SteadyTime(until - 1);
      SteadyAverage(until - 1);
    }
  }

  lemma SteadyAverage(i: nat)
    requires 1 <= i <= 17
    ensures Steady()[i].Average() == 100
  {
  }

  /** A perfectly steady discharge recorded up to interval 17 teaches a point above the next
      default, and the calibrated charge then falls as the raw charge rises. */
  lemma SteadyDischargeFalls(curve: seq<nat>)
    requires Learned(Steady(), 1, 17, curve)
    ensures curve[16] == 9441 && !Monotone(curve)
  {
    hide Learned, LearnedAt, Monotone, Steady;
    SteadyPoint(curve);
    MeasuredDivides(Steady(), 1, 17);
    LearnedOrdered(Steady(), 1, 17, curve);
    LearnedMonotoneIff(Steady(), 1, 17, curve);
  }

  lemma SteadyPoint(curve: seq<nat>)
    requires Learned(Steady(), 1, 17, curve)
    ensures |curve| == POINTS && curve[16] == 9441 && curve[17] == 0
  {
    hide Filled, Fill, Steady, Total;
    SteadyTime(17);
    SteadyTime(18);
    SpanTotal(Steady(), 1, 17);
  }

  /** Three intervals recorded, two of them shorter than a tick per cycle. */
  function Instant(): (data: seq<Interval>)
    ensures |data| == INTERVALS && Spans(data, 1, 3) && !Measured(data)
  {
    var data := seq(INTERVALS, i => if i == 1 then Interval(1, 300)
                                    else if 2 <= i <= 3 then Interval(1, 0) else Interval(0, 0));
    assert data[2].Average() == 0;
    data
  }

  lemma {:induction false} InstantSums(until: nat)
    requires 2 <= until <= INTERVALS
    ensures Time(Instant(), 0, until) == 300 && Recorded(Instant(), 0, until) == if until <= 4 then until - 1 else 3
    ensures until <= 4 ==> Filled(Instant(), 100, 1, until) == 300 + 100 * (until - 2)
    decreases until
  {
    if until == 2 {
    } else {
      InstantSums(until - 1);
    }
  }

  /** An average of zero counts as recorded and is filled in too, so the learned points overshoot:
      the span lies between defaults and yet does not fit. */
  lemma InstantIntervalFalls(curve: seq<nat>)
    requires Learned(Instant(), 1, 3, curve)
    ensures Divisible(Instant()) && curve[2] == 3166 && !Monotone(curve)
  {
    hide Learned, LearnedAt, Monotone, Instant, Filled;
    InstantPoints(curve);
    InstantSums(INTERVALS);
    LearnedOrdered(Instant(), 1, 3, curve);
    LearnedMonotoneIff(Instant(), 1, 3, curve);
  }

  lemma InstantPoints(curve: seq<nat>)
    requires Learned(Instant(), 1, 3, curve)
    ensures Curve(curve) && curve[2] == 3166 && curve[3] == 0
  {
    hide Filled, Time, Recorded, Instant;
    InstantSums(INTERVALS);
    InstantSums(3);
    InstantSums(2);
    assert Fill(Instant()) == 100;
  }

  // -------------------------------------------------------- the firmware's code

  /** The first and the last interval recorded below `i`; both negative when there is none. */
  ghost predicate Seen(data: seq<Interval>, i: nat, first: int, last: int)
    requires i <= |data|
  {
    && (forall k | 0 <= k < i && data[k].cycles > 0 :: first <= k <= last)
    && if first < 0 then first == last == -1
       else first <= last < i && data[first].cycles > 0 && data[last].cycles > 0
  }

  lemma SeenNothing(data: seq<Interval>)
    ensures Seen(data, 0, -1, -1)
  {
  }

  lemma SeenNext(data: seq<Interval>, i: nat, first: int, last: int)
    requires i < |data| && Seen(data, i, first, last)
    ensures if data[i].cycles > 0 then Seen(data, i + 1, if first < 0 then i else first, i)
            else Seen(data, i + 1, first, last)
    ensures -1 <= first <= last < i && (first == -1 ==> last == -1)
  {
  }

  lemma SeenAll(data: seq<Interval>, first: int, last: int)
    requires Seen(data, |data|, first, last) && first != last
    ensures 0 <= first && 0 <= last && Spans(data, first, last)
  {
  }

  /** First pass: the averages, their sum, and the first and last interval recorded. */
  method ReadIntervals(data: seq<Interval>)
    returns (intervals: array<nat>, curveRuntime: nat, firstValid: int, lastValid: int, validIntervals: nat)
    requires |data| == INTERVALS
    ensures fresh(intervals) && intervals.Length == INTERVALS
    ensures forall k | 0 <= k < INTERVALS :: intervals[k] == data[k].Average()
    ensures validIntervals == Recorded(data, 0, INTERVALS) && curveRuntime == Time(data, 0, INTERVALS)
    ensures validIntervals >= 2 ==> firstValid >= 0 && lastValid >= 0 && Spans(data, firstValid, lastValid)
  {
    hide Interval.Average, Seen, Recorded, Time;
    SeenNothing(data);
    SumsStart(data);
    intervals := new nat[INTERVALS](_ => 0);
    curveRuntime, firstValid, lastValid, validIntervals := 0, -1, -1, 0;
    var i := 0;
    while i < INTERVALS
      invariant i <= INTERVALS && validIntervals == Recorded(data, 0, i) && curveRuntime == Time(data, 0, i)
      invariant forall k | 0 <= k < i :: intervals[k] == data[k].Average()
      invariant Seen(data, i, firstValid, lastValid)
      invariant firstValid == lastValid ==> validIntervals == if firstValid < 0 then 0 else 1
    {
      SeenNext(data, i, firstValid, lastValid);
      SumsNext(data, i);
      if data[i].cycles > 0 {
        intervals[i] := data[i].Average();
        curveRuntime := curveRuntime + intervals[i];
        if firstValid < 0 {
          firstValid := i;
        }
        lastValid := i;
        validIntervals := validIntervals + 1;
      } else {
        NoAverage(data[i]);
        intervals[i] := 0;
      }
      i := i + 1;
    }
    if firstValid != lastValid { SeenAll(data, firstValid, lastValid); }
  }

  lemma SumsStart(data: seq<Interval>)
    ensures Recorded(data, 0, 0) == 0 && Time(data, 0, 0) == 0
  {
  }

  lemma SumsNext(data: seq<Interval>, i: nat)
    requires i < |data|
    ensures Recorded(data, 0, i + 1) == Recorded(data, 0, i) + (if data[i].cycles > 0 then 1 else 0)
    ensures Time(data, 0, i + 1) == Time(data, 0, i) + data[i].Average()
  {
  }

  lemma NoAverage(v: Interval)
    requires v.cycles == 0
    ensures v.Average() == 0
  {
  }

  method UpdateCurve(data: seq<Interval>, curve: array<nat>)
    requires |data| == INTERVALS && curve.Length == POINTS
    requires Recorded(data, 0, INTERVALS) >= 2 ==> Divisible(data)
    modifies curve
    ensures if Recorded(data, 0, INTERVALS) < 2 then curve[..] == old(curve[..])
            else exists first: nat, last: nat :: Spans(data, first, last) && Learned(data, first, last, curve[..])
  {
    hide Filled, Recorded, Time, Share, Padding;
    var intervals, curveRuntime, firstValid, lastValid, validIntervals := ReadIntervals(data);
    if validIntervals < 2 || firstValid < 0 {
      return;
    }
    ghost var first: nat, last: nat := firstValid, lastValid;
    var average := curveRuntime / validIntervals;
    assert average == Fill(data);
    SpanTotal(data, first, last);
    curveRuntime := curveRuntime + Padding(average, lastValid + 1 - firstValid - validIntervals);
    var learned := LearnPoints(data, intervals, firstValid, lastValid, average, curveRuntime);
    forall k | 0 <= k < POINTS { curve[k] := learned[k]; }
    assert Learned(data, first, last, curve[..]);
  }

  /** Second pass: each point's share of the total, from a running sum. */
  method LearnPoints(ghost data: seq<Interval>, intervals: array<nat>, first: nat, last: nat,
                     average: nat, curveRuntime: nat) returns (learned: array<nat>)
    requires |data| == INTERVALS && Spans(data, first, last) && intervals.Length == INTERVALS
    requires forall k | 0 <= k < INTERVALS :: intervals[k] == data[k].Average()
    requires average == Fill(data) && curveRuntime == Total(data, first, last)
    ensures fresh(learned) && learned.Length == POINTS && Learned(data, first, last, learned[..])
  {
    hide Share, Low, High, Fill, Total;
    var low, high := Low(first), High(last);
    learned := new nat[POINTS](_ => 0);
    var runtime := 0;
    var i := first;
    while i < last
      invariant first <= i <= last && runtime == Filled(data, average, first, i)
      invariant forall k | 0 <= k < POINTS ::
                  learned[k] == if first <= k < i then LearnedAt(data, first, last, k) else 0
    {
      runtime := runtime + if intervals[i] > 0 then intervals[i] else average;
      learned[i] := Share(runtime, curveRuntime, low, high);
      i := i + 1;
    }
  }
}
