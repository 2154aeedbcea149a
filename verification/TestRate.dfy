/** The test-mode send schedule: fractions of a microsecond accumulate, so no rate drifts. */
module TestRate {
  import opened Arithmetic

  const MICROS: nat := 1_000_000

  datatype Schedule = Schedule(due: nat, remainder: nat, tps: nat) {
    ghost predicate Valid() {
      tps > 0 ==> remainder < tps
    }
  }

  const STOPPED: Schedule := Schedule(0, 0, 0)

  /** The k-th exact instant after `base`, rounded down to a microsecond. */
  function GridPoint(base: nat, tps: nat, k: nat): nat
    requires tps > 0
  {
    base + k * MICROS / tps
  }

  /** The schedule stands exactly k periods after `base`: nothing was rounded away. */
  ghost predicate OnGrid(s: Schedule, base: nat, k: nat) {
    s.tps > 0 && s.remainder < s.tps && s.due * s.tps + s.remainder == base * s.tps + k * MICROS
  }

  lemma OnGridMeans(s: Schedule, base: nat, k: nat)
    requires OnGrid(s, base, k)
    ensures s.due == GridPoint(base, s.tps, k) && s.remainder == k * MICROS % s.tps
  {
    assert s.due >= base by { if s.due < base { MulMono(s.due + 1, base, s.tps); Distribute(s.due, 1, s.tps); } }
    Distribute(base, s.due - base, s.tps);
    ModUnique(k * MICROS, s.due - base, s.remainder, s.tps);
  }

  function Resyncs(s: Schedule, tps: nat, now: nat): bool {
    s.tps != tps || s.due == 0 || s.due + MICROS < now
  }

  function Sync(s: Schedule, tps: nat, now: nat): Schedule {
    if tps == 0 then STOPPED else if Resyncs(s, tps, now) then Schedule(now, 0, tps) else s
  }

  function Period(s: Schedule): Schedule
    requires s.tps > 0
  {
    var due, remainder := s.due + MICROS / s.tps, s.remainder + MICROS % s.tps;
    if remainder >= s.tps then Schedule(due + 1, remainder - s.tps, s.tps) else Schedule(due, remainder, s.tps)
  }

  lemma PeriodAdvances(s: Schedule)
    requires 0 < s.tps <= MICROS && s.remainder < s.tps
    ensures Period(s).due > s.due && Period(s).remainder < s.tps && Period(s).tps == s.tps
    ensures forall base: nat, k: nat | OnGrid(s, base, k) :: OnGrid(Period(s), base, k + 1)
  {
    DivMono(s.tps, MICROS, s.tps);
    forall base: nat, k: nat | OnGrid(s, base, k) ensures OnGrid(Period(s), base, k + 1) {
      PeriodExact(s, base, k);
    }
  }

  lemma PeriodExact(s: Schedule, base: nat, k: nat)
    requires OnGrid(s, base, k)
    ensures OnGrid(Period(s), base, k + 1)
  {
    var q, r := MICROS / s.tps, MICROS % s.tps;
    assert q * s.tps + r == MICROS;
    Distribute(s.due, q, s.tps);
    Distribute(s.due + q, 1, s.tps);
  }

  /** The first schedule after at least one period whose instant is still to come. */
  function Advanced(s: Schedule, now: nat): Schedule
    requires 0 < s.tps <= MICROS && s.remainder < s.tps
    decreases now - s.due
  {
    PeriodAdvances(s);
    var next := Period(s);
    if next.due <= now then Advanced(next, now) else next
  }

  ghost function Periods(s: Schedule, now: nat): nat
    requires 0 < s.tps <= MICROS && s.remainder < s.tps
    decreases now - s.due
  {
    PeriodAdvances(s);
    var next := Period(s);
    if next.due <= now then 1 + Periods(next, now) else 1
  }

  /** Catching up skips exactly the missed instants and loses no fraction of a period. */
  lemma {:induction false} AdvancedOnGrid(s: Schedule, now: nat, base: nat, k: nat)
    requires s.tps <= MICROS && OnGrid(s, base, k)
    ensures var n := Periods(s, now); var r := Advanced(s, now);
            && n >= 1 && OnGrid(r, base, k + n) && r.tps == s.tps && r.due > now && r.due > s.due
            && (n > 1 ==> GridPoint(base, s.tps, k + n - 1) <= now)
    decreases now - s.due
  {
    PeriodAdvances(s);
    var next := Period(s);
    OnGridMeans(next, base, k + 1);
    if next.due > now {
    } else {
      AdvancedOnGrid(next, now, base, k + 1);
    }
  }

  class TestRateSchedule {
    var nextDue: nat
    var remainder: nat
    var tps: nat

    ghost function View(): Schedule
      reads this
    {
      Schedule(nextDue, remainder, tps)
    }

    ghost predicate Valid()
      reads this
    {
      tps < 0x1_0000 && View().Valid()
    }

    constructor ()
      ensures Valid() && View() == STOPPED
    {
      nextDue, remainder, tps := 0, 0, 0;
    }

    method TestRateScheduleSync(now: nat, effective: nat)
      requires Valid() && effective < 0x1_0000
      modifies this
      ensures Valid() && View() == Sync(old(View()), effective, now)
    {
      if effective == 0 {
        nextDue, remainder, tps := 0, 0, 0;
        return;
      }
      if tps != effective || nextDue == 0 || nextDue + MICROS < now {
        tps, nextDue, remainder := effective, now, 0;
      }
    }

    method TestRateDue(now: nat, effective: nat) returns (due: bool)
      requires Valid() && effective < 0x1_0000
      modifies this
      ensures Valid() && View() == Sync(old(View()), effective, now)
      ensures due == (View().tps != 0 && now >= View().due)
    {
      TestRateScheduleSync(now, effective);
      due := tps != 0 && now >= nextDue;
    }

    method TestRateAdvance(now: nat)
      requires Valid()
      modifies this
      ensures Valid()
      ensures View() == if old(View()).tps == 0 then old(View()) else Advanced(old(View()), now)
    {
      if tps == 0 {
        return;
      }
      ghost var start := View();
      var again := true;
      while again
        invariant tps == start.tps && tps > 0 && Valid()
        invariant again ==> Advanced(start, now) == Advanced(View(), now)
        invariant !again ==> View() == Advanced(start, now)
        decreases if again then 1 else 0, now - nextDue
      {
        PeriodAdvances(View());
        nextDue := nextDue + MICROS / tps;
        remainder := remainder + MICROS % tps;
        if remainder >= tps {
          nextDue := nextDue + 1;
          remainder := remainder - tps;
        }
        again := nextDue <= now;
      }
    }

    method TestRateDelay(now: nat, effective: nat) returns (delay: nat)
      requires Valid() && effective < 0x1_0000
      modifies this
      ensures Valid() && View() == Sync(old(View()), effective, now)
      ensures delay == if View().due > now then View().due - now else 0
      ensures delay == 0 && effective != 0 ==> View().tps != 0 && now >= View().due
    {
      TestRateScheduleSync(now, effective);
      delay := if nextDue > now then nextDue - now else 0;
    }
  }

  // ------------------------------------------------------------ whole runs

  /** One look at the clock: when due, a packet goes out and the schedule advances at `done`. */
  datatype Poll = Poll(now: nat, rate: nat, done: nat, accepted: bool)

  /** The schedule, the clock, and when packets went out. */
  datatype Run = Run(s: Schedule, clock: nat, sends: seq<nat>)

  ghost predicate InInterval(base: nat, tps: nat, slot: nat, at: nat)
    requires tps > 0
  {
    GridPoint(base, tps, slot) <= at < GridPoint(base, tps, slot + 1)
  }

  /** The grid interval an instant lies in. */
  function IntervalOf(base: nat, tps: nat, at: nat): nat
    requires tps > 0 && base <= at
  {
    ((at - base + 1) * tps - 1) / MICROS
  }

  lemma IntervalOfCorrect(base: nat, tps: nat, at: nat)
    requires tps > 0 && base <= at
    ensures InInterval(base, tps, IntervalOf(base, tps, at), at)
  {
    var d := at - base;
    Distribute(d, 1, tps);
    var x := (d + 1) * tps - 1;
    var slot := x / MICROS;
    assert slot * MICROS <= x < (slot + 1) * MICROS;
    DivBelow(slot * MICROS, tps, d + 1);
    DivMono((d + 1) * tps, (slot + 1) * MICROS, tps);
    ModUnique((d + 1) * tps, d + 1, 0, tps);
  }

  lemma GridPointMonotone(base: nat, tps: nat, j: nat, k: nat)
    requires tps > 0 && j <= k
    ensures GridPoint(base, tps, j) <= GridPoint(base, tps, k)
  {
    MulMono(j, k, MICROS);
    DivMono(j * MICROS, k * MICROS, tps);
  }

  ghost function Next(r: Run, poll: Poll): (e: Run)
    requires r.s.Valid() && r.s.tps <= MICROS && poll.rate <= MICROS
    ensures e.s.Valid() && e.s.tps <= MICROS
  {
    var s := Sync(r.s, poll.rate, poll.now);
    if s.tps == 0 || poll.now < s.due || !poll.accepted then Run(s, poll.done, r.sends)
    else
      AdvancedValid(s, poll.done);
      Run(Advanced(s, poll.done), poll.done, r.sends + [poll.now])
  }

  lemma {:induction false} AdvancedValid(s: Schedule, now: nat)
    requires 0 < s.tps <= MICROS && s.remainder < s.tps
    ensures Advanced(s, now).Valid() && Advanced(s, now).tps == s.tps
    decreases now - s.due
  {
    PeriodAdvances(s);
    if Period(s).due <= now { AdvancedValid(Period(s), now); }
  }

  ghost function After(r: Run, polls: seq<Poll>): (e: Run)
    requires r.s.Valid() && r.s.tps <= MICROS && forall p <- polls :: p.rate <= MICROS
    decreases |polls|
  {
    if polls == [] then r else After(Next(r, polls[0]), polls[1..])
  }

  /** A poll on the schedule's own rate and at most a second late leaves the schedule alone; any
      other starts a new grid at its own instant. */
  lemma SyncGrid(s: Schedule, rate: nat, now: nat)
    requires rate > 0
    ensures s.tps == rate && s.due != 0 && now <= s.due + 1_000_000 ==> Sync(s, rate, now) == s
    ensures s.tps != rate || s.due == 0 || now > s.due + 1_000_000 ==>
              var r := Sync(s, rate, now); r.tps == rate && r.due == now && OnGrid(r, now, 0)
  {
  }

  ghost predicate Steady(r: Run, base: nat, tps: nat, k: nat) {
    && 0 < tps <= MICROS && base > 0 && r.s.tps == tps && OnGrid(r.s, base, k) && base <= r.s.due
    && |r.sends| <= k
    && (forall i | 0 <= i < |r.sends| :: base <= r.sends[i] && IntervalOf(base, tps, r.sends[i]) < k)
    && (forall i, j | 0 <= i < j < |r.sends| ::
          IntervalOf(base, tps, r.sends[i]) < IntervalOf(base, tps, r.sends[j]))
  }

  lemma SteadyMeans(r: Run, base: nat, tps: nat, k: nat)
    requires Steady(r, base, tps, k)
    ensures r.s.Valid() && r.s.tps <= MICROS
  {
  }

  lemma NextSteady(r: Run, poll: Poll, base: nat, tps: nat, k: nat) returns (more: nat)
    requires Steady(r, base, tps, k)
    requires poll.rate == tps && poll.now <= poll.done && poll.now <= r.s.due + 1_000_000
    ensures r.s.Valid() && r.s.tps <= MICROS && Steady(Next(r, poll), base, tps, more)
  {
    hide GridPoint, OnGrid, IntervalOf, Advanced, Periods, Sync;
    SteadyMeans(r, base, tps, k);
    SyncGrid(r.s, tps, poll.now);
    more := k;
    if poll.now >= r.s.due && poll.accepted {
      var x := IntervalOf(base, tps, poll.now);
      AdvancedOnGrid(r.s, poll.done, base, k);
      OnGridMeans(r.s, base, k);
      more := k + Periods(r.s, poll.done);
      OnGridMeans(Advanced(r.s, poll.done), base, more);
      IntervalOfCorrect(base, tps, poll.now);
      if x + 1 <= k { GridPointMonotone(base, tps, x + 1, k); }
      if more <= x { GridPointMonotone(base, tps, more, x); }
      assert k <= x < more;
    }
  }

  /** Every poll keeps the rate and comes at most a second after the instant then due. */
  ghost predicate OnTime(r: Run, tps: nat, polls: seq<Poll>)
    requires r.s.Valid() && r.s.tps <= MICROS && tps <= MICROS
    decreases |polls|
  {
    polls == [] || (var p := polls[0];
      && p.rate == tps && p.now <= p.done && p.now <= r.s.due + 1_000_000
      && OnTime(Next(r, p), tps, polls[1..]))
  }

  lemma {:induction false} AfterSteady(r: Run, polls: seq<Poll>, base: nat, tps: nat, k: nat) returns (more: nat)
    requires Steady(r, base, tps, k) && r.s.Valid() && r.s.tps <= MICROS && OnTime(r, tps, polls)
    ensures forall p <- polls :: p.rate <= MICROS
    ensures Steady(After(r, polls), base, tps, more)
    decreases |polls|
  {
    hide Steady, Next;
    SteadyBounds(r, base, tps, k);
    if polls == [] {
      more := k;
    } else {
      var n := NextSteady(r, polls[0], base, tps, k);
      more := AfterSteady(Next(r, polls[0]), polls[1..], base, tps, n);
      assert polls == [polls[0]] + polls[1..];
    }
  }

  lemma SteadyBounds(r: Run, base: nat, tps: nat, k: nat)
    requires Steady(r, base, tps, k)
    ensures 0 < tps <= MICROS
  {
  }

  /** No drift, whatever the schedule was: a poll that starts a grid puts every later due instant
      on it exactly, k periods on and rounded down, for as long as the rate stays and no poll is
      more than a second late; and no two packets share a grid interval, so the rate is never
      exceeded. */
  lemma DriftFree(s: Schedule, first: Poll, polls: seq<Poll>)
    requires s.Valid() && s.tps <= MICROS && 0 < first.rate <= MICROS && 0 < first.now <= first.done
    requires s.tps != first.rate || s.due == 0 || first.now > s.due + 1_000_000
    requires OnTime(Next(Run(s, 0, []), first), first.rate, polls)
    ensures forall p <- polls :: p.rate <= MICROS
    ensures var e := After(Next(Run(s, 0, []), first), polls); var base, tps := first.now, first.rate;
            && (exists k: nat :: e.s.due == GridPoint(base, tps, k) && |e.sends| <= k)
            && (forall i | 0 <= i < |e.sends| ::
                  base <= e.sends[i] && InInterval(base, tps, IntervalOf(base, tps, e.sends[i]), e.sends[i]))
            && (forall i, j | 0 <= i < j < |e.sends| ::
                  IntervalOf(base, tps, e.sends[i]) < IntervalOf(base, tps, e.sends[j]))
  {
    hide OnTime, After, InInterval, IntervalOf, GridPoint, OnGrid, Next;
    var base, tps := first.now, first.rate;
    var r0 := Run(s, 0, []);
    var k := FirstSteady(r0, first);
    var more := AfterSteady(Next(r0, first), polls, base, tps, k);
    var e := After(Next(r0, first), polls);
    OnGridMeans(e.s, base, more);
    forall i | 0 <= i < |e.sends|
      ensures base <= e.sends[i] && InInterval(base, tps, IntervalOf(base, tps, e.sends[i]), e.sends[i])
    {
      IntervalOfCorrect(base, tps, e.sends[i]);
    }
  }

  lemma FirstSteady(r: Run, first: Poll) returns (k: nat)
    requires r.s.Valid() && r.s.tps <= MICROS && r.sends == []
    requires 0 < first.rate <= MICROS && 0 < first.now <= first.done
    requires r.s.tps != first.rate || r.s.due == 0 || first.now > r.s.due + 1_000_000
    ensures Steady(Next(r, first), first.now, first.rate, k)
  {
    hide OnGrid, Advanced;
    SyncGrid(r.s, first.rate, first.now);
    var synced := Run(Sync(r.s, first.rate, first.now), 0, []);
    k := NextSteady(synced, first, first.now, first.rate, 0);
    assert Sync(synced.s, first.rate, first.now) == synced.s;
  }
}
