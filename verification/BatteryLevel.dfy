/** Charge from voltage: interpolation between the points of a discharge table. */
module BatteryLevel {
  import opened Arithmetic

  datatype LevelPoint = LevelPoint(pptt: nat, mV: nat)

  /** Falling in both columns, down to a charge of zero. */
  ghost predicate Table(points: seq<LevelPoint>) {
    && |points| > 1 && points[|points| - 1].pptt == 0
    && (forall i, j | 0 <= i < j < |points| :: points[i].pptt > points[j].pptt && points[i].mV > points[j].mV)
  }

  /** The last point at or below the voltage, or the end of the table. */
  function Below(points: seq<LevelPoint>, mV: nat, i: nat): (k: nat)
    requires i < |points| && points[|points| - 1].pptt == 0
    ensures i <= k < |points|
    ensures mV >= points[k].mV || points[k].pptt == 0
    ensures forall j | i <= j < k :: mV < points[j].mV && points[j].pptt > 0
    decreases |points| - i
  {
    if points[i].pptt > 0 && mV < points[i].mV then Below(points, mV, i + 1) else i
  }

  function Between(above: LevelPoint, below: LevelPoint, mV: nat): nat
    requires below.mV <= mV && below.mV < above.mV && below.pptt <= above.pptt
  {
    below.pptt + Prorate(above.pptt - below.pptt, mV - below.mV, above.mV - below.mV)
  }

  function Level(points: seq<LevelPoint>, mV: nat): nat
    requires Table(points)
  {
    var k := Below(points, mV, 0);
    if k == 0 || mV < points[k].mV then points[k].pptt else Between(points[k - 1], points[k], mV)
  }

  method BatteryLevelPptt(mV: nat, points: seq<LevelPoint>) returns (pptt: nat)
    requires Table(points)
    ensures pptt == Level(points, mV)
  {
    hide Between;
    if mV >= points[0].mV {
      return points[0].pptt;
    }
    var k := 0;
    while points[k].pptt > 0 && mV < points[k].mV
      invariant k < |points| && Below(points, mV, 0) == Below(points, mV, k)
      decreases |points| - k
    {
      k := k + 1;
    }
    if mV < points[k].mV {
      return points[k].pptt;
    }
    pptt := Between(points[k - 1], points[k], mV);
  }

  lemma BetweenBounds(above: LevelPoint, below: LevelPoint, mV: nat)
    requires below.mV <= mV <= above.mV && below.mV < above.mV && below.pptt <= above.pptt
    ensures below.pptt <= Between(above, below, mV) <= above.pptt
    ensures mV == below.mV ==> Between(above, below, mV) == below.pptt
    ensures mV == above.mV ==> Between(above, below, mV) == above.pptt
  {
    hide Prorate;
    var rise, span, part := above.pptt - below.pptt, above.mV - below.mV, mV - below.mV;
    ProrateEnds(rise, span);
    ProrateMonotone(rise, 0, part, span);
    ProrateMonotone(rise, part, span, span);
  }

  lemma BetweenMonotone(above: LevelPoint, below: LevelPoint, a: nat, b: nat)
    requires below.mV <= a <= b && below.mV < above.mV && below.pptt <= above.pptt
    ensures Between(above, below, a) <= Between(above, below, b)
  {
    hide Prorate;
    ProrateMonotone(above.pptt - below.pptt, a - below.mV, b - below.mV, above.mV - below.mV);
  }

  /** In the segment ending at point k the level lies between that point's charge and the one above. */
  lemma LevelBounds(points: seq<LevelPoint>, mV: nat)
    requires Table(points)
    ensures var k := Below(points, mV, 0); var level := Level(points, mV);
            && points[k].pptt <= level <= points[0].pptt
            && (k > 0 ==> level <= points[k - 1].pptt)
  {
    var k := Below(points, mV, 0);
    if k > 0 && mV >= points[k].mV { BetweenBounds(points[k - 1], points[k], mV); }
  }

  /** More voltage never reads as less charge, and the reading stays inside the table. */
  lemma LevelMonotone(points: seq<LevelPoint>, a: nat, b: nat)
    requires Table(points) && a <= b
    ensures Level(points, a) <= Level(points, b) <= points[0].pptt
  {
    var i, j := Below(points, a, 0), Below(points, b, 0);
    LevelBounds(points, a);
    LevelBounds(points, b);
    if j < i {
      assert points[i - 1].pptt <= points[j].pptt;
    } else {
      assert i == j;
      if i > 0 && a >= points[i].mV { BetweenMonotone(points[i - 1], points[i], a, b); }
    }
  }

  /** Each tabulated voltage reads as exactly its tabulated charge. */
  lemma LevelAtPoint(points: seq<LevelPoint>, k: nat)
    requires Table(points) && k < |points|
    ensures Level(points, points[k].mV) == points[k].pptt
  {
    var i := Below(points, points[k].mV, 0);
    assert i == k;
    if k > 0 { BetweenBounds(points[k - 1], points[k], points[k].mV); }
  }

  /** Between two neighbouring points the reading lies on the straight line through them, less than
      one unit of charge below it. */
  lemma LevelOnLine(points: seq<LevelPoint>, k: nat, mV: nat)
    requires Table(points) && 0 < k < |points| && points[k].mV <= mV <= points[k - 1].mV
    ensures var above, below := points[k - 1], points[k];
            var span, rise, gained := above.mV - below.mV, above.pptt - below.pptt, Level(points, mV) - below.pptt;
            gained * span <= rise * (mV - below.mV) < (gained + 1) * span
  {
    hide Prorate;
    var above, below := points[k - 1], points[k];
    ProrateExact(above.pptt - below.pptt, mV - below.mV, above.mV - below.mV);
    if mV == above.mV {
      ProrateEnds(above.pptt - below.pptt, above.mV - below.mV);
      LevelAtPoint(points, k - 1);
    } else {
      assert Below(points, mV, 0) == k;
    }
  }
}
