/** The TDMA frame: slots, the one-second PING cycle and its guarded windows. */
module TdmaSchedule {
  import opened Arithmetic

  const TICKS_PER_SECOND: nat := 32768
  const SLOT_TARGET_OFFSET: nat := 2
  const PING_LATE_TOLERANCE: nat := 6
  const PING_WINDOW_SLOTS: nat := 2
  const MIN_SAFE_SLOT_TICKS: nat := 16

  /** Air time budget of one data packet, by payload length. */
  function ReserveTicks(payloadLength: nat): (r: nat)
    ensures 8 <= r <= 12
  {
    if payloadLength <= 17 then 8 else if payloadLength <= 32 then 10 else 12
  }

  /** A longer payload never reserves less, and the three classes end at 17 and 32 bytes. */
  lemma ReserveMonotone(a: nat, b: nat)
    requires a <= b
    ensures ReserveTicks(a) <= ReserveTicks(b)
    ensures ReserveTicks(a) < ReserveTicks(b) <==> (a <= 17 < b || a <= 32 < b)
  {
  }

  /** A half-open span of network ticks during which a tracker owns the air. */
  datatype Span = Span(from: nat, until: nat)

  predicate Disjoint(a: Span, b: Span) {
    a.until <= b.from || b.until <= a.from
  }

  /** The schedule every tracker derives from the shared (total_slots, slot_ticks). */
  datatype Grid = Grid(slots: nat, slotTicks: nat) {
    ghost predicate Valid() {
      1 <= slots <= 255 && MIN_SAFE_SLOT_TICKS <= slotTicks <= 255
    }

    /** Enough frames per cycle that no two PING windows can touch. */
    ghost predicate Separated() {
      Valid() && (PeriodFrames() > slots || slots == 1)
    }

    /** What a NORMAL PONG may install. */
    ghost predicate Installable() {
      1 <= slots <= 16 && MIN_SAFE_SLOT_TICKS <= slotTicks <= 255
    }

    function FrameTicks(): nat {
      slots * slotTicks
    }

    function PeriodFrames(): nat {
      var f := FrameTicks();
      if f == 0 then 0 else if TICKS_PER_SECOND / f < 1 then 1 else TICKS_PER_SECOND / f
    }

    function Phase(slot: nat): nat
      requires slots > 0
    {
      slot * PeriodFrames() / slots
    }

    predicate PingFrame(slot: nat, frame: nat)
      requires Valid()
    {
      PeriodPositive();
      frame % PeriodFrames() == Phase(slot)
    }

    /** Data is silent in the own PING frame and in the slot after a neighbour's PING. */
    predicate Guarded(slot: nat, frame: nat)
      requires Valid() && slot < slots
    {
      if slot > 0 then PingFrame(slot, frame) || PingFrame(slot - 1, frame)
      else PingFrame(0, frame) || (frame > 0 && PingFrame(slots - 1, frame - 1))
    }

    function SlotStart(slot: nat, frame: nat): nat {
      frame * FrameTicks() + slot * slotTicks
    }

    function PingWindow(slot: nat, frame: nat): Span {
      var start := SlotStart(slot, frame) + SLOT_TARGET_OFFSET;
      Span(start, start + slotTicks * PING_WINDOW_SLOTS)
    }

    /** Slots counted from tick zero, across frames. */
    ghost function AbsoluteSlot(slot: nat, frame: nat): nat {
      frame * slots + slot
    }

    lemma PeriodPositive()
      requires Valid()
      ensures FrameTicks() >= MIN_SAFE_SLOT_TICKS && PeriodFrames() >= 1
    {
      assert slots * slotTicks >= 1 * slotTicks by { MulMono(1, slots, slotTicks); }
    }

    lemma SlotStartIsAbsolute(slot: nat, frame: nat)
      ensures SlotStart(slot, frame) == AbsoluteSlot(slot, frame) * slotTicks
    {
    }

    /** Two slots at the same absolute position are the same slot of the same frame. */
    lemma AbsoluteSlotInjective(i: nat, f: nat, j: nat, g: nat)
      requires i < slots && j < slots
      requires AbsoluteSlot(i, f) == AbsoluteSlot(j, g)
      ensures i == j && f == g
    {
      if f < g { MulMono(f + 1, g, slots); } else if g < f { MulMono(g + 1, f, slots); }
    }

    /** The slot one after (i, f): the next slot, or slot 0 of the next frame. */
    lemma AbsoluteSlotSuccessor(i: nat, f: nat, j: nat, g: nat)
      requires i < slots && j < slots
      requires AbsoluteSlot(j, g) == AbsoluteSlot(i, f) + 1
      ensures if i + 1 < slots then j == i + 1 && g == f else j == 0 && g == f + 1
    {
      if i + 1 < slots { AbsoluteSlotInjective(i + 1, f, j, g); }
      else { AbsoluteSlotInjective(0, f + 1, j, g); }
    }

    /** Below one PING per slot per cycle, consecutive slots get later frames. */
    lemma PhaseIncreases(slot: nat)
      requires Valid() && PeriodFrames() >= slots
      ensures Phase(slot + 1) >= Phase(slot) + 1
    {
      var p := PeriodFrames();
      assert (slot + 1) * p == slot * p + p;
      DivStep(slot * p, p, slots);
    }

    lemma FirstPhase()
      requires Valid()
      ensures Phase(0) == 0
    {
    }

    /** The PING frames are spread evenly: consecutive slots stand P/N frames apart, or one more. */
    lemma PhaseSpread(slot: nat)
      requires Valid()
      ensures Phase(slot) + PeriodFrames() / slots <= Phase(slot + 1) <= Phase(slot) + PeriodFrames() / slots + 1
    {
      Distribute(slot, 1, PeriodFrames());
      QuotientShift(slot * PeriodFrames(), PeriodFrames(), slots);
    }

    /** After the last slot the next cycle begins. */
    lemma PhaseOfAll()
      requires Valid()
      ensures Phase(slots) == PeriodFrames()
    {
      ProductsAgree(slots, PeriodFrames(), 1);
      ModUnique(slots * PeriodFrames(), PeriodFrames(), 0, slots);
    }

    lemma PhaseMonotone(i: nat, j: nat)
      requires Valid() && i <= j
      ensures Phase(i) <= Phase(j)
    {
      MulMono(i, j, PeriodFrames());
      DivMono(i * PeriodFrames(), j * PeriodFrames(), slots);
    }

    /** The last slot keeps two clear frames before the cycle wraps. */
    lemma LastPhase()
      requires Valid() && slots >= 2 && PeriodFrames() > slots
      ensures Phase(slots - 1) + 2 <= PeriodFrames()
    {
      var p := PeriodFrames();
      Distribute(slots - 1, 1, p);
      Distribute(p - 1, 1, slots);
      QuotientAtLeast((slots - 1) * p, slots, p - 1);
      ProductsAgree(slots, p, 1);
    }

    lemma PhaseBelowPeriod(slot: nat)
      requires Valid() && slot < slots
      ensures Phase(slot) < PeriodFrames()
    {
      PeriodPositive();
      var p := PeriodFrames();
      assert slot * p < slots * p by { MulMono(slot + 1, slots, p); }
      DivBelow(slot * p, slots, p);
      assert slots * p == p * slots;
    }

    /** Windows are P*F ticks apart: at most one second, and less than a frame short of it. */
    lemma CycleLength()
      requires Valid() && FrameTicks() <= TICKS_PER_SECOND
      ensures TICKS_PER_SECOND - FrameTicks() < PeriodFrames() * FrameTicks() <= TICKS_PER_SECOND
    {
      PeriodPositive();
      QuotientTimes(TICKS_PER_SECOND, FrameTicks());
      QuotientAtLeast(TICKS_PER_SECOND, FrameTicks(), 1);
    }

    /** Exactly when the cycle has more frames than slots, in terms of the two installed bytes. */
    lemma SeparationCondition()
      requires Valid()
      ensures PeriodFrames() > slots <==> slotTicks * slots * (slots + 1) <= TICKS_PER_SECOND
    {
      PeriodPositive();
      QuotientAtLeast(TICKS_PER_SECOND, FrameTicks(), slots + 1);
      ProductsAgree(slotTicks, slots, slots + 1);
    }

    lemma SeparatedPeriod()
      requires Separated()
      ensures PeriodFrames() >= 3
    {
      if slots == 1 {
        assert FrameTicks() == slotTicks <= 255;
        QuotientAtLeast(TICKS_PER_SECOND, FrameTicks(), 3);
      }
    }

    lemma InstallablePeriod()
      requires Installable()
      ensures Valid() && FrameTicks() <= 4080 && PeriodFrames() >= 8
    {
      MulMono(slots, 16, slotTicks);
      assert slots * slotTicks <= 16 * slotTicks <= 4080;
      PeriodPositive();
      QuotientAtLeast(TICKS_PER_SECOND, FrameTicks(), 8);
    }

    /** Which tracker's PING comes next, and how many frames later. */
    function NextPing(slot: nat): (next: nat)
      requires slot < slots
      ensures next < slots
    {
      if slot + 1 < slots then slot + 1 else 0
    }

    function PingGap(slot: nat): nat
      requires Valid()
    {
      PhaseMonotone(slot, slot + 1);
      Phase(slot + 1) - Phase(slot)
    }

    /** No tracker has a PING frame strictly between two frames. */
    ghost predicate NoPingBetween(from: nat, until: nat)
      requires Valid()
    {
      forall h: nat, other: nat | from < h < until && other < slots :: !PingFrame(other, h)
    }

    /** The network's PINGs follow one another evenly over all cycles: after tracker `slot`'s in
        frame `frame` the next tracker's comes P/N or P/N + 1 frames later, and no tracker's in
        the frames between. */
    lemma PingsEvenlySpread(slot: nat, frame: nat)
      requires Valid() && slot < slots && PingFrame(slot, frame)
      ensures PeriodFrames() / slots <= PingGap(slot) <= PeriodFrames() / slots + 1
      ensures PingFrame(NextPing(slot), frame + PingGap(slot))
      ensures NoPingBetween(frame, frame + PingGap(slot))
    {
      hide Phase, PeriodFrames, FrameTicks, PingFrame;
      PeriodPositive();
      PhaseSpread(slot);
      PhaseSteps(slot, frame);
      forall h: nat, other: nat | frame < h < frame + PingGap(slot) && other < slots ensures !PingFrame(other, h) {
        NoPingAt(slot, frame, h, other);
      }
    }

    lemma NoPingAt(slot: nat, frame: nat, h: nat, other: nat)
      requires Valid() && slot < slots && other < slots && PingFrame(slot, frame)
      requires frame < h < frame + PingGap(slot)
      ensures !PingFrame(other, h)
    {
      hide Phase, PeriodFrames;
      FrameBetween(slot, frame, h);
      if other <= slot { PhaseMonotone(other, slot); } else { PhaseMonotone(slot + 1, other); }
    }

    lemma PhaseSteps(slot: nat, frame: nat)
      requires Valid() && slot < slots && PingFrame(slot, frame)
      ensures PingFrame(NextPing(slot), frame + PingGap(slot))
      ensures Phase(slot) + PingGap(slot) <= PeriodFrames()
    {
      hide Phase, PeriodFrames;
      PeriodPositive();
      FirstPhase();
      RemainderShift(frame, PeriodFrames(), PingGap(slot));
      if slot + 1 < slots { PhaseBelowPeriod(slot + 1); } else { PhaseOfAll(); }
    }

    lemma FrameBetween(slot: nat, frame: nat, h: nat)
      requires Valid() && slot < slots && PingFrame(slot, frame) && frame < h < frame + PingGap(slot)
      ensures Phase(slot) < h % PeriodFrames() < Phase(slot + 1)
    {
      hide Phase, PeriodFrames;
      PeriodPositive();
      PhaseSteps(slot, frame);
      RemainderShift(frame, PeriodFrames(), h - frame);
    }

    /** At most two of any three consecutive frames are guarded. */
    lemma UnguardedSoon(slot: nat, frame: nat)
      requires Valid() && slot < slots && PeriodFrames() >= 3
      ensures !Guarded(slot, frame) || !Guarded(slot, frame + 1) || !Guarded(slot, frame + 2)
    {
      var p := PeriodFrames();
      ModStep(frame, p);
      ModStep(frame + 1, p);
      if frame > 0 { ModStep(frame - 1, p); }
    }
  }

  /** The last multiple of the period at or before a frame. */
  function CycleBase(frame: nat, period: nat): (r: nat)
    requires period > 0
    ensures r <= frame < r + period
  {
    frame - frame % period
  }

  function FrameAt(ticks: nat, frameTicks: nat): (frame: nat)
    requires frameTicks > 0
    ensures frame * frameTicks <= ticks < (frame + 1) * frameTicks
  {
    assert (ticks / frameTicks + 1) * frameTicks == ticks / frameTicks * frameTicks + frameTicks;
    ticks / frameTicks
  }

  function OffsetAt(ticks: nat, frameTicks: nat): (offset: nat)
    requires frameTicks > 0
    ensures offset < frameTicks
    ensures ticks == FrameAt(ticks, frameTicks) * frameTicks + offset
  {
    ticks % frameTicks
  }

  lemma FrameUnique(ticks: nat, frame: nat, offset: nat, frameTicks: nat)
    requires ticks == frame * frameTicks + offset && offset < frameTicks
    ensures FrameAt(ticks, frameTicks) == frame && OffsetAt(ticks, frameTicks) == offset
  {
    ModUnique(ticks, frame, offset, frameTicks);
  }

  /** A cycle's k-th frame has phase k. */
  lemma CyclePhase(frame: nat, k: nat, period: nat)
    requires k < period
    ensures (CycleBase(frame, period) + k) % period == k
    ensures (CycleBase(frame, period) + k + period) % period == k
  {
    var c := frame / period;
    assert frame == c * period + frame % period;
    assert (c + 1) * period == c * period + period;
    ModUnique(c * period + k, c, k, period);
    ModUnique((c + 1) * period + k, c + 1, k, period);
  }
}
