/** The firmware keeps times and tokens in 32 bits and compares them by signed difference. Here
    those operations are shown to agree with the unbounded ones the event model uses, while the
    values compared lie within half the range of each other. */
module EventClock {
  import opened Integers
  import opened Wrappers
  import opened EventProtocol
  import opened EventState
  import opened TrackerEvents

  const RANGE: int := 0x1_0000_0000
  const HALF: int := 0x8000_0000
  const NO_WORK: Long := 0xFFFF_FFFF

  function Wrap(x: int): Long {
    x % RANGE
  }

  /** The 32-bit difference read as a signed number. */
  function Signed(a: Long, b: Long): (d: int)
    ensures -HALF <= d < HALF
  {
    var d := (a as int - b as int) % RANGE;
    if d < HALF then d else d - RANGE
  }

  function Due32(now: Long, at: Long): bool {
    Signed(now, at) >= 0
  }

  function Later32(a: Long, b: Long): Long {
    if Signed(a, b) >= 0 then a else b
  }

  function DeadlineAdd32(best: Long, value: Long, now: Long): Long {
    var due := if Due32(now, value) then now else value;
    var v: Long := if due == NO_WORK then 0 else due;
    if best == NO_WORK || Signed(v, best) < 0 then v else best
  }

  /** Values within half the range compare as if they had never wrapped. */
  ghost predicate Near(a: int, b: int) {
    -HALF < a - b < HALF
  }

  lemma SignedIsDifference(a: int, b: int)
    requires Near(a, b)
    ensures Signed(Wrap(a), Wrap(b)) == a - b
  {
    var q := a / RANGE - b / RANGE;
    assert a - b == q * RANGE + (Wrap(a) as int - Wrap(b) as int);
  }

  lemma ComparisonsAgree(a: nat, b: nat)
    requires Near(a, b)
    ensures Due32(Wrap(a), Wrap(b)) <==> a >= b
    ensures Later32(Wrap(a), Wrap(b)) == Wrap(Max(a, b))
  {
    SignedIsDifference(a, b);
  }

  // ---------------------------------------------------------------- tokens

  /** The k-th token: zero is skipped, so tokens repeat one step earlier than times do. */
  function Token(k: nat): Long
    requires k > 0
  {
    1 + (k - 1) % (RANGE - 1)
  }

  function TokenNext32(serial: Long): Long {
    var next := Wrap(serial + 1);
    if next == 0 then 1 else next
  }

  lemma TokensCount(k: nat)
    requires k > 0
    ensures TokenNext32(0) == Token(1) && TokenNext32(Token(k)) == Token(k + 1) && Token(k) != 0
  {
    var m := RANGE - 1;
    var q, r := (k - 1) / m, (k - 1) % m;
    assert k - 1 == q * m + r;
    if r + 1 < m {
      assert k == q * m + (r + 1);
      assert k % m == r + 1;
    } else {
      assert k == (q + 1) * m;
      assert k % m == 0;
    }
  }

  /** The firmware's counter after n tokens. */
  function Serial32(n: nat): Long {
    if n == 0 then 0 else TokenNext32(Serial32(n - 1))
  }

  /** The n-th token drawn from the 32-bit counter is the n-th of the numbering above. */
  lemma {:induction false} SerialIsToken(n: nat)
    requires n > 0
    ensures Serial32(n) == Token(n) != 0
  {
    hide TokenNext32, Token;
    if n == 1 {
      TokensCount(1);
      assert Serial32(0) == 0;
    } else {
      SerialIsToken(n - 1);
      TokensCount(n - 1);
      TokensCount(n);
    }
  }

  /** Age order and identity of tokens survive the skip and the wrap. */
  lemma TokensOrdered(a: nat, b: nat)
    requires a > 0 && b > 0 && -HALF + 1 < a - b < HALF - 1
    ensures Signed(Token(a), Token(b)) < 0 <==> a < b
    ensures Token(a) == Token(b) <==> a == b
  {
    var m := RANGE - 1;
    var p, q := (a - 1) / m, (b - 1) / m;
    assert a - b == (p - q) * m + (Token(a) as int - Token(b) as int);
    assert -1 <= p - q <= 1;
  }

  // -------------------------------------------------------------- deadlines

  /** A time whose 32-bit form means "no work" stands for the next one. */
  function Shown(t: nat): nat {
    if Wrap(t) == NO_WORK then t + 1 else t
  }

  function Encode(best: Option<nat>): Long {
    if best.None? then NO_WORK else Wrap(Shown(best.value))
  }

  lemma ShownProperties(a: nat, b: nat)
    ensures Wrap(Shown(a)) != NO_WORK && a <= Shown(a) <= a + 1
    ensures a < b ==> Shown(a) <= Shown(b)
    ensures Shown(Max(Shown(a), b)) == Shown(Max(a, b))
  {
    if Wrap(a) == NO_WORK {
      var q := a / RANGE;
      assert a + 1 == (q + 1) * RANGE;
      assert Wrap(a + 1) == 0;
    }
  }

  /** Adding one obligation to the 32-bit deadline is adding it to the unbounded one. */
  lemma DeadlineAddAgrees(best: Option<nat>, value: nat, now: nat)
    requires now - HALF < value < now + HALF - 1
    requires best.Some? ==> now <= best.value < now + HALF - 1
    ensures DeadlineAdd32(Encode(best), Wrap(value), Wrap(now)) == Encode(DeadlineAdd(best, value, now))
    ensures now <= DeadlineAdd(best, value, now).value < now + HALF - 1
  {
    var v := Max(value, now);
    ComparisonsAgree(now, value);
    ShownProperties(v, 0);
    assert (if Due32(Wrap(now), Wrap(value)) then Wrap(now) else Wrap(value)) == Wrap(v);
    ShownWraps(v);
    if best.Some? {
      ShownProperties(best.value, v);
      ShownProperties(v, best.value);
      SignedIsDifference(Shown(v), Shown(best.value));
    }
  }

  lemma ShownWraps(v: nat)
    ensures Wrap(Shown(v)) == if Wrap(v) == NO_WORK then 0 else Wrap(v)
  {
    if Wrap(v) == NO_WORK {
      var q := v / RANGE;
      assert v + 1 == (q + 1) * RANGE;
    }
  }

  function Fold32(values: seq<nat>, now: nat): Long {
    if values == [] then NO_WORK
    else DeadlineAdd32(Fold32(values[..|values| - 1], now), Wrap(values[|values| - 1]), Wrap(now))
  }

  function Fold(values: seq<nat>, now: nat): Option<nat> {
    if values == [] then None else DeadlineAdd(Fold(values[..|values| - 1], now), values[|values| - 1], now)
  }

  /** The send gate, with the same treatment of the reserved value. */
  function Gate32(best: Long, gate: Option<Long>): Long {
    if best == NO_WORK || gate.None? then best
    else
      var later := Later32(best, gate.value);
      if later == NO_WORK then 0 else later
  }

  lemma {:induction false} FoldAgrees(values: seq<nat>, now: nat)
    requires forall i | 0 <= i < |values| :: now - HALF < values[i] < now + HALF - 1
    ensures Fold32(values, now) == Encode(Fold(values, now))
    ensures Fold(values, now).Some? ==> now <= Fold(values, now).value < now + HALF - 1
  {
    if values == [] {
    } else {
      FoldAgrees(values[..|values| - 1], now);
      DeadlineAddAgrees(Fold(values[..|values| - 1], now), values[|values| - 1], now);
    }
  }

  /** Whatever obligations are gathered, the 32-bit deadline, gate included, is the unbounded one:
      the same instant, or the instant after it when that one is the reserved value. */
  lemma DeadlineAgrees(values: seq<nat>, now: nat, gate: Option<nat>)
    requires forall i | 0 <= i < |values| :: now - HALF < values[i] < now + HALF - 1
    requires gate.Some? ==>
               forall i | 0 <= i < |values| :: Near(Max(now, values[i]) + 1, gate.value) && Near(now, gate.value)
    ensures var best := Fold(values, now);
            Gate32(Fold32(values, now), if gate.Some? then Some(Wrap(gate.value)) else None)
            == Encode(if best.Some? && gate.Some? then Some(Max(best.value, gate.value)) else best)
  {
    FoldAgrees(values, now);
    var best := Fold(values, now);
    if best.Some? {
      ShownProperties(best.value, 0);
      if gate.Some? {
        FoldIsSome(values, now);
        ShownProperties(best.value, gate.value);
        ComparisonsAgree(Shown(best.value), gate.value);
        ShownWraps(Max(Shown(best.value), gate.value));
      }
    }
  }

  /** The folded deadline is one of the obligations, or now. */
  lemma {:induction false} FoldIsSome(values: seq<nat>, now: nat)
    requires Fold(values, now).Some?
    ensures exists i :: 0 <= i < |values| && Fold(values, now).value == Max(now, values[i])
  {
    var n := |values| - 1;
    if Fold(values[..n], now).Some? && Fold(values[..n], now).value == Fold(values, now).value {
      FoldIsSome(values[..n], now);
      var i :| 0 <= i < n && Fold(values[..n], now).value == Max(now, values[..n][i]);
      assert values[i] == values[..n][i];
    } else {
      assert Fold(values, now).value == Max(now, values[n]);
    }
  }

  /** Folding obligations one by one yields the earliest of them all, as the deadline is specified. */
  lemma {:induction false} FoldIsEarliest(values: seq<nat>, now: nat)
    ensures Earliest((set v <- values), now, Fold(values, now))
  {
    if values == [] {
    } else {
      var n := |values| - 1;
      FoldIsEarliest(values[..n], now);
      EarliestAdd((set v <- values[..n]), now, Fold(values[..n], now), values[n]);
      assert (set v <- values) == (set v <- values[..n]) + {values[n]} by {
        assert values == values[..n] + [values[n]];
      }
    }
  }
}
