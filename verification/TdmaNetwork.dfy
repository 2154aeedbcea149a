/** Independent trackers sharing one clock and one grid, over whole runs. */
module TdmaNetwork {
  import opened Arithmetic
  import opened TdmaSchedule
  import opened Wrappers

  /** What the PING scheduler aims at: this cycle's window, or the next once it has passed. */
  datatype PingAim = PingAim(frame: nat, start: nat, inWindow: bool)

  function PingTarget(g: Grid, slot: nat, ticks: nat): PingAim
    requires g.Valid()
  {
    g.PeriodPositive();
    var period := g.PeriodFrames();
    var frame := CycleBase(FrameAt(ticks, g.FrameTicks()), period) + g.Phase(slot);
    var window := g.PingWindow(slot, frame);
    if ticks >= window.until
    then PingAim(frame + period, window.from + period * g.FrameTicks(), false)
    else PingAim(frame, window.from, window.from <= ticks)
  }

  /** The admission test of a data packet at one clock reading. */
  predicate DataAdmits(g: Grid, slot: nat, used: Option<nat>, reserve: nat, ticks: nat)
    requires g.Valid() && slot < g.slots
  {
    g.PeriodPositive();
    var frame, offset := FrameAt(ticks, g.FrameTicks()), OffsetAt(ticks, g.FrameTicks());
    && !g.Guarded(slot, frame)
    && used != Some(frame)
    && slot * g.slotTicks + SLOT_TARGET_OFFSET <= offset
    && offset + reserve <= (slot + 1) * g.slotTicks
  }

  /** Frames this tracker has spent, under the shared grid. */
  datatype Node = Node(usedData: Option<nat>, usedPing: Option<nat>)

  datatype Attempt =
    | DataAttempt(tracker: nat, tick: nat, payloadLength: nat)
    | PingAttempt(tracker: nat, tick: nat)

  datatype Kind = Data | Ping

  /** An admitted transmission and the air it may occupy. */
  datatype Transmission = Transmission(tracker: nat, kind: Kind, frame: nat, air: Span)

  datatype Network = Network(nodes: seq<Node>, log: seq<Transmission>)

  function Start(g: Grid): Network {
    Network(seq(g.slots, _ => Node(None, None)), [])
  }

  /** One reading of one tracker: the data loop's body or the PING window test. */
  function Act(g: Grid, n: Network, a: Attempt): (r: Network)
    requires g.Valid() && |n.nodes| == g.slots && a.tracker < g.slots
    ensures |r.nodes| == g.slots
  {
    g.PeriodPositive();
    var node := n.nodes[a.tracker];
    match a
    case DataAttempt(i, t, len) =>
      var frame := FrameAt(t, g.FrameTicks());
      var reserve := ReserveTicks(len);
      if DataAdmits(g, i, node.usedData, reserve, t)
      then Network(n.nodes[i := node.(usedData := Some(frame))],
                   n.log + [Transmission(i, Data, frame, Span(t, t + reserve))])
      else n
    case PingAttempt(i, t) =>
      var aim := PingTarget(g, i, t);
      if !aim.inWindow || node.usedPing == Some(aim.frame) then n
      else if t - aim.start > PING_LATE_TOLERANCE
      then n.(nodes := n.nodes[i := node.(usedPing := Some(aim.frame))])
      else Network(n.nodes[i := Node(Some(aim.frame), Some(aim.frame))],
                   n.log + [Transmission(i, Ping, aim.frame, g.PingWindow(i, aim.frame))])
  }

  /** A schedule of attempts on one clock that never runs backwards. */
  ghost predicate OnClock(g: Grid, run: seq<Attempt>) {
    && (forall a <- run :: a.tracker < g.slots)
    && (forall x, y | 0 <= x < y < |run| :: run[x].tick <= run[y].tick)
  }

  ghost function Outcome(g: Grid, run: seq<Attempt>): (n: Network)
    requires g.Valid() && OnClock(g, run)
    ensures |n.nodes| == g.slots
  {
    if run == [] then Start(g) else Act(g, Outcome(g, run[..|run| - 1]), run[|run| - 1])
  }

  ghost predicate CollisionFree(log: seq<Transmission>) {
    forall x, y | 0 <= x < y < |log| :: Disjoint(log[x].air, log[y].air)
  }

  // ---------------------------------------------------------------- geometry

  ghost function At(g: Grid, e: Transmission): nat {
    g.AbsoluteSlot(e.tracker, e.frame)
  }

  /** Data stays inside its own unguarded slot; a PING holds its whole window. */
  ghost predicate Lawful(g: Grid, e: Transmission)
    requires g.Valid()
  {
    && e.tracker < g.slots
    && match e.kind
       case Data =>
         && !g.Guarded(e.tracker, e.frame)
         && g.SlotStart(e.tracker, e.frame) + SLOT_TARGET_OFFSET <= e.air.from < e.air.until
         && e.air.until <= g.SlotStart(e.tracker, e.frame) + g.slotTicks
       case Ping =>
         && g.PingFrame(e.tracker, e.frame)
         && e.air == g.PingWindow(e.tracker, e.frame)
  }

  /** No two PING slots of a separated grid are adjacent, across frames and cycles. */
  lemma PingsApart(g: Grid, i: nat, f: nat, j: nat, h: nat)
    requires g.Separated() && i < g.slots && j < g.slots
    requires g.PingFrame(i, f) && g.PingFrame(j, h)
    ensures g.AbsoluteSlot(j, h) != g.AbsoluteSlot(i, f) + 1
  {
    hide Grid.AbsoluteSlot, Grid.FrameTicks, Grid.PeriodFrames, Grid.Phase;
    g.SeparatedPeriod();
    g.FirstPhase();
    if g.AbsoluteSlot(j, h) == g.AbsoluteSlot(i, f) + 1 {
      g.AbsoluteSlotSuccessor(i, f, j, h);
      if i + 1 < g.slots {
        g.PhaseIncreases(i);
      } else {
        ModStep(f, g.PeriodFrames());
        if g.slots >= 2 { g.LastPhase(); }
      }
    }
  }

  /** Some tracker's PING window covers this slot of this frame. */
  ghost predicate Covered(g: Grid, slot: nat, frame: nat)
    requires g.Valid()
  {
    exists j: nat, h: nat :: j < g.slots && g.PingFrame(j, h) && Covers(g, j, h, slot, frame)
  }

  /** The window of (j, h) is the slot itself or the one before it, in slots counted across frames. */
  ghost predicate Covers(g: Grid, j: nat, h: nat, slot: nat, frame: nat) {
    g.AbsoluteSlot(j, h) == g.AbsoluteSlot(slot, frame) || g.AbsoluteSlot(j, h) + 1 == g.AbsoluteSlot(slot, frame)
  }

  /** The guard silences exactly the slots some PING window covers, no fewer and no more. */
  lemma GuardedIffCovered(g: Grid, slot: nat, frame: nat)
    requires g.Valid() && slot < g.slots
    ensures g.Guarded(slot, frame) <==> Covered(g, slot, frame)
  {
    hide Grid.PingFrame;
    if Covered(g, slot, frame) {
      var j: nat, h: nat :| j < g.slots && g.PingFrame(j, h) && Covers(g, j, h, slot, frame);
      if g.AbsoluteSlot(j, h) == g.AbsoluteSlot(slot, frame) {
        g.AbsoluteSlotInjective(j, h, slot, frame);
      } else {
        g.AbsoluteSlotSuccessor(j, h, slot, frame);
      }
    }
    if g.Guarded(slot, frame) {
      if g.PingFrame(slot, frame) {
        assert Covers(g, slot, frame, slot, frame);
      } else if slot > 0 {
        assert Covers(g, slot - 1, frame, slot, frame);
      } else {
        Distribute(frame - 1, 1, g.slots);
        assert Covers(g, g.slots - 1, frame - 1, slot, frame);
      }
    }
  }

  /** A data packet is admitted exactly when all of it fits in an own slot, after its first two
      ticks, that no PING window covers and this tracker has not used. */
  lemma AdmitsIffFits(g: Grid, slot: nat, used: Option<nat>, reserve: nat, ticks: nat)
    requires g.Valid() && slot < g.slots && reserve > 0
    ensures DataAdmits(g, slot, used, reserve, ticks) <==>
              exists frame: nat :: Fits(g, slot, frame, Span(ticks, ticks + reserve))
                                   && !Covered(g, slot, frame) && used != Some(frame)
  {
    hide Grid.Guarded, Covered, Grid.PeriodFrames;
    g.PeriodPositive();
    var now, air := FrameAt(ticks, g.FrameTicks()), Span(ticks, ticks + reserve);
    GuardedIffCovered(g, slot, now);
    FitsHere(g, slot, reserve, ticks);
    forall frame: nat | Fits(g, slot, frame, air) ensures frame == now {
      FitsFrame(g, slot, frame, air);
    }
  }

  lemma FitsHere(g: Grid, slot: nat, reserve: nat, ticks: nat)
    requires g.Valid() && slot < g.slots && g.FrameTicks() > 0
    ensures var frame, offset := FrameAt(ticks, g.FrameTicks()), OffsetAt(ticks, g.FrameTicks());
            Fits(g, slot, frame, Span(ticks, ticks + reserve))
            <==> slot * g.slotTicks + SLOT_TARGET_OFFSET <= offset && offset + reserve <= (slot + 1) * g.slotTicks
  {
    Distribute(slot, 1, g.slotTicks);
    hide FrameAt, OffsetAt, Grid.FrameTicks;
    assert ticks == FrameAt(ticks, g.FrameTicks()) * g.FrameTicks() + OffsetAt(ticks, g.FrameTicks()) by {
      TicksParts(ticks, g.FrameTicks());
    }
  }

  lemma TicksParts(ticks: nat, frameTicks: nat)
    requires frameTicks > 0
    ensures ticks == FrameAt(ticks, frameTicks) * frameTicks + OffsetAt(ticks, frameTicks)
  {
  }

  lemma FitsFrame(g: Grid, slot: nat, frame: nat, air: Span)
    requires g.Valid() && slot < g.slots && g.FrameTicks() > 0 && air.from < air.until && Fits(g, slot, frame, air)
    ensures frame == FrameAt(air.from, g.FrameTicks())
  {
    Distribute(slot, 1, g.slotTicks);
    MulMono(slot + 1, g.slots, g.slotTicks);
    hide FrameAt;
    FrameUnique(air.from, frame, air.from - frame * g.FrameTicks(), g.FrameTicks());
  }

  /** The span lies in the tracker's slot of the frame, after its target offset. */
  ghost predicate Fits(g: Grid, slot: nat, frame: nat, air: Span) {
    g.SlotStart(slot, frame) + SLOT_TARGET_OFFSET <= air.from && air.until <= g.SlotStart(slot, frame) + g.slotTicks
  }

  lemma SlotOrder(a: nat, b: nat, ticks: nat, gap: nat)
    requires a + gap <= b
    ensures a * ticks + gap * ticks <= b * ticks
  {
    MulMono(a + gap, b, ticks);
    assert (a + gap) * ticks == a * ticks + gap * ticks;
  }

  /** A PING occupies its own slot and the next one, which is silent for that frame. */
  lemma PingClearOfData(g: Grid, d: Transmission, p: Transmission)
    requires g.Valid() && Lawful(g, d) && Lawful(g, p) && d.kind == Data && p.kind == Ping
    ensures Disjoint(d.air, p.air)
  {
    var a, b, s := At(g, d), At(g, p), g.slotTicks;
    g.SlotStartIsAbsolute(d.tracker, d.frame);
    g.SlotStartIsAbsolute(p.tracker, p.frame);
    if a == b {
      g.AbsoluteSlotInjective(d.tracker, d.frame, p.tracker, p.frame);
      assert false;
    } else if a == b + 1 {
      g.AbsoluteSlotSuccessor(p.tracker, p.frame, d.tracker, d.frame);
      assert false;
    } else if a < b {
      SlotOrder(a, b, s, 1);
    } else {
      SlotOrder(b, a, s, 2);
    }
  }

  lemma SameKindApart(g: Grid, d: Transmission, e: Transmission)
    requires g.Separated() && Lawful(g, d) && Lawful(g, e) && d.kind == e.kind
    requires d.tracker != e.tracker || d.frame != e.frame
    ensures Disjoint(d.air, e.air)
  {
    var a, b, s := At(g, d), At(g, e), g.slotTicks;
    g.SlotStartIsAbsolute(d.tracker, d.frame);
    g.SlotStartIsAbsolute(e.tracker, e.frame);
    if a == b { g.AbsoluteSlotInjective(d.tracker, d.frame, e.tracker, e.frame); }
    if d.kind == Ping {
      PingsApart(g, d.tracker, d.frame, e.tracker, e.frame);
      PingsApart(g, e.tracker, e.frame, d.tracker, d.frame);
      if a < b { SlotOrder(a, b, s, 2); } else { SlotOrder(b, a, s, 2); }
    } else {
      if a < b { SlotOrder(a, b, s, 1); } else { SlotOrder(b, a, s, 1); }
    }
  }

  // -------------------------------------------------------- one clock reading

  lemma DataIsLawful(g: Grid, i: nat, used: Option<nat>, len: nat, t: nat)
    requires g.Valid() && i < g.slots
    requires DataAdmits(g, i, used, ReserveTicks(len), t)
    ensures g.FrameTicks() > 0
    ensures Lawful(g, Transmission(i, Data, FrameAt(t, g.FrameTicks()), Span(t, t + ReserveTicks(len))))
  {
    g.PeriodPositive();
    Distribute(i, 1, g.slotTicks);
  }

  /** Windows of one slot recur once per cycle. */
  lemma NextWindow(g: Grid, slot: nat, frame: nat)
    ensures g.PingWindow(slot, frame + g.PeriodFrames()).from
            == g.PingWindow(slot, frame).from + g.PeriodFrames() * g.FrameTicks()
  {
    Distribute(frame, g.PeriodFrames(), g.FrameTicks());
  }

  /** A window of a later frame has not opened yet. */
  lemma LaterFrame(g: Grid, slot: nat, frame: nat, t: nat)
    requires g.Valid() && g.FrameTicks() > 0 && FrameAt(t, g.FrameTicks()) < frame
    ensures t < g.PingWindow(slot, frame).from
  {
    MulMono(FrameAt(t, g.FrameTicks()) + 1, frame, g.FrameTicks());
  }

  lemma PingTargetFrame(g: Grid, slot: nat, t: nat)
    requires g.Valid() && slot < g.slots
    ensures var aim := PingTarget(g, slot, t);
            && g.PingFrame(slot, aim.frame)
            && aim.start == g.PingWindow(slot, aim.frame).from
            && (aim.inWindow <==> aim.start <= t < g.PingWindow(slot, aim.frame).until)
            && (!aim.inWindow ==> t < aim.start)
  {
    g.PeriodPositive();
    g.PhaseBelowPeriod(slot);
    var p, f := g.PeriodFrames(), g.FrameTicks();
    var now := FrameAt(t, f);
    var base := CycleBase(now, p);
    CyclePhase(now, g.Phase(slot), p);
    NextWindow(g, slot, base + g.Phase(slot));
    LaterFrame(g, slot, base + g.Phase(slot) + p, t);
  }

  /** The admission offset keeps an admitted PING inside its own frame. */
  lemma PingTickFrame(g: Grid, slot: nat, frame: nat, t: nat)
    requires g.Valid() && slot < g.slots
    requires g.PingWindow(slot, frame).from <= t <= g.PingWindow(slot, frame).from + PING_LATE_TOLERANCE
    ensures g.FrameTicks() > 0 && FrameAt(t, g.FrameTicks()) == frame
  {
    hide FrameAt, Grid.PeriodFrames;
    g.PeriodPositive();
    MulMono(slot + 1, g.slots, g.slotTicks);
    Distribute(slot, 1, g.slotTicks);
    FrameUnique(t, frame, t - frame * g.FrameTicks(), g.FrameTicks());
  }

  // ---------------------------------------------------------------- the runs

  /** Every logged frame is behind its tracker's high-water mark, which is behind the clock. */
  ghost predicate Invariant(g: Grid, n: Network, now: nat)
    requires g.Valid()
  {
    && g.FrameTicks() > 0
    && |n.nodes| == g.slots
    && (forall e <- n.log :: Lawful(g, e) && Spent(n.nodes[e.tracker], e))
    && (forall i | 0 <= i < g.slots ::
          && (n.nodes[i].usedData.Some? ==> n.nodes[i].usedData.value <= FrameAt(now, g.FrameTicks()))
          && (n.nodes[i].usedPing.Some? ==>
                && g.PingFrame(i, n.nodes[i].usedPing.value)
                && g.PingWindow(i, n.nodes[i].usedPing.value).from <= now))
    && CollisionFree(n.log)
  }

  ghost predicate Spent(node: Node, e: Transmission) {
    match e.kind
    case Data => node.usedData.Some? && e.frame <= node.usedData.value
    case Ping => node.usedPing.Some? && e.frame <= node.usedPing.value
  }

  lemma StartHolds(g: Grid)
    requires g.Valid()
    ensures Invariant(g, Start(g), 0)
  {
    g.PeriodPositive();
  }

  /** Adding one lawful transmission of a fresh (kind, tracker, frame) keeps the air clear. */
  lemma LogExtends(g: Grid, log: seq<Transmission>, e: Transmission)
    requires g.Separated() && CollisionFree(log) && Lawful(g, e)
    requires forall d <- log :: Lawful(g, d)
    requires forall d <- log :: d.kind != e.kind || d.tracker != e.tracker || d.frame != e.frame
    ensures CollisionFree(log + [e])
  {
    var all := log + [e];
    forall x, y | 0 <= x < y < |all|
      ensures Disjoint(all[x].air, all[y].air)
    {
      if y == |log| {
        var d := log[x];
        assert d in log;
        if d.kind == e.kind { SameKindApart(g, d, e); }
        else if d.kind == Data { PingClearOfData(g, d, e); }
        else { PingClearOfData(g, e, d); }
      }
    }
  }

  lemma DataStepHolds(g: Grid, n: Network, now: nat, a: Attempt)
    requires g.Separated() && a.DataAttempt? && a.tracker < g.slots
    requires Invariant(g, n, now) && now <= a.tick
    ensures Invariant(g, Act(g, n, a), a.tick)
  {
    var i, t := a.tracker, a.tick;
    var r := Act(g, n, a);
    DivMono(now, t, g.FrameTicks());
    if r.log != n.log {
      var e := r.log[|n.log|];
      DataIsLawful(g, i, n.nodes[i].usedData, a.payloadLength, t);
      assert Lawful(g, e);
      LogExtends(g, n.log, e);
    }
  }

  /** The windows a tracker sees as time passes come in order. */
  lemma WindowsInOrder(g: Grid, slot: nat, earlier: nat, frame: nat, t: nat)
    requires g.Valid() && slot < g.slots
    requires g.PingFrame(slot, earlier) && g.PingFrame(slot, frame) && g.Separated()
    requires g.PingWindow(slot, earlier).from <= t < g.PingWindow(slot, frame).until
    ensures earlier <= frame
  {
    if frame < earlier {
      SameKindApart(g, Transmission(slot, Ping, frame, g.PingWindow(slot, frame)),
                    Transmission(slot, Ping, earlier, g.PingWindow(slot, earlier)));
      MulMono(frame, earlier, g.FrameTicks());
    }
  }

  lemma PingStepHolds(g: Grid, n: Network, now: nat, a: Attempt)
    requires g.Separated() && a.PingAttempt? && a.tracker < g.slots
    requires Invariant(g, n, now) && now <= a.tick
    ensures Invariant(g, Act(g, n, a), a.tick)
  {
    var i, t := a.tracker, a.tick;
    var r := Act(g, n, a);
    var aim := PingTarget(g, i, t);
    DivMono(now, t, g.FrameTicks());
    PingTargetFrame(g, i, t);
    if r != n {
      var used := n.nodes[i].usedPing;
      if used.Some? { WindowsInOrder(g, i, used.value, aim.frame, t); }
      if r.log != n.log {
        PingTickFrame(g, i, aim.frame, t);
        var e := r.log[|n.log|];
        LogExtends(g, n.log, e);
      }
    }
  }

  lemma {:induction false} InvariantHolds(g: Grid, run: seq<Attempt>)
    requires g.Separated() && OnClock(g, run)
    ensures Invariant(g, Outcome(g, run), if run == [] then 0 else run[|run| - 1].tick)
  {
    if run == [] {
      StartHolds(g);
    } else {
      var before, a := run[..|run| - 1], run[|run| - 1];
      InvariantHolds(g, before);
      if a.DataAttempt? {
        DataStepHolds(g, Outcome(g, before), if before == [] then 0 else before[|before| - 1].tick, a);
      } else {
        PingStepHolds(g, Outcome(g, before), if before == [] then 0 else before[|before| - 1].tick, a);
      }
    }
  }

  /** Every run of the whole network leaves the air free of collisions. */
  ghost predicate AlwaysCollisionFree(g: Grid)
    requires g.Valid()
  {
    forall run: seq<Attempt> | OnClock(g, run) :: CollisionFree(Outcome(g, run).log)
  }

  /** With too few frames per cycle two slots' PING windows meet in some run. */
  lemma CrowdedGridCollides(g: Grid)
    requires g.Valid() && g.slots >= 2 && g.PeriodFrames() <= g.slots
    ensures !AlwaysCollisionFree(g)
  {
    g.PeriodPositive();
    var p, n := g.PeriodFrames(), g.slots;
    var run: seq<Attempt>;
    if p < n {
      ModUnique(p, 0, p, n);
      run := TwoPings(g, 0, 0, 1, 0);
    } else {
      DivBelow((n - 1) * p, n, n);
      ModUnique((n - 1) * p, n - 1, 0, n);
      ModUnique(n - 1, 0, n - 1, n);
      ModUnique(n, 1, 0, n);
      assert n * g.FrameTicks() == (n - 1) * g.FrameTicks() + g.FrameTicks();
      assert n * g.slotTicks == (n - 1) * g.slotTicks + g.slotTicks;
      run := TwoPings(g, n - 1, n - 1, 0, n);
    }
    assert !CollisionFree(Outcome(g, run).log);
  }

  /** Two trackers answer their own window starts; both are admitted. */
  lemma TwoPings(g: Grid, i: nat, f: nat, j: nat, h: nat) returns (run: seq<Attempt>)
    requires g.Valid() && i < g.slots && j < g.slots && i != j
    requires g.PingFrame(i, f) && g.PingFrame(j, h)
    requires g.PingWindow(i, f).from <= g.PingWindow(j, h).from < g.PingWindow(i, f).until
    ensures OnClock(g, run)
    ensures !CollisionFree(Outcome(g, run).log)
  {
    var a := PingAttempt(i, g.PingWindow(i, f).from);
    var b := PingAttempt(j, g.PingWindow(j, h).from);
    run := [a, b];
    var first := Act(g, Start(g), a);
    assert first == Outcome(g, [a]) by { assert [a][..0] == []; }
    assert first.log == [Transmission(i, Ping, f, g.PingWindow(i, f))]
           && first.nodes[j] == Node(None, None) by { OwnStart(g, i, f); }
    var second := Act(g, first, b);
    assert second == Outcome(g, run) by { assert run[..1] == [a]; }
    assert second.log == first.log + [Transmission(j, Ping, h, g.PingWindow(j, h))] by { OwnStart(g, j, h); }
    assert !Disjoint(second.log[0].air, second.log[1].air);
  }

  /** At a window's first tick the scheduler aims at that very window. */
  lemma OwnStart(g: Grid, slot: nat, frame: nat)
    requires g.Valid() && slot < g.slots && g.PingFrame(slot, frame)
    ensures PingTarget(g, slot, g.PingWindow(slot, frame).from)
            == PingAim(frame, g.PingWindow(slot, frame).from, true)
  {
    g.PeriodPositive();
    PingTickFrame(g, slot, frame, g.PingWindow(slot, frame).from);
  }

  /** Collision freedom, exactly: N independent trackers never overlap on air iff the cycle
      has more frames than slots, or there is one tracker. */
  lemma CollisionFreedom(g: Grid)
    requires g.Valid()
    ensures AlwaysCollisionFree(g)
            <==> g.slots == 1 || g.slotTicks * g.slots * (g.slots + 1) <= TICKS_PER_SECOND
  {
    g.SeparationCondition();
    if g.Separated() {
      forall run: seq<Attempt> | OnClock(g, run)
        ensures CollisionFree(Outcome(g, run).log)
      {
        InvariantHolds(g, run);
      }
    } else {
      CrowdedGridCollides(g);
    }
  }

  /** The measured-safe 22-tick slot qualifies with every legal tracker count. */
  lemma MeasuredSlotIsSafe(g: Grid)
    requires 1 <= g.slots <= 16 && g.slotTicks == 22
    ensures AlwaysCollisionFree(g)
  {
    MulMono(g.slots, 16, 22);
    MulMono(22 * g.slots, 352, g.slots + 1);
    CollisionFreedom(g);
  }

  /** The receiver's own bounds do not suffice: an installable grid that collides. */
  lemma InstallableGridMayCollide()
    ensures Grid(16, 128).Installable() && !AlwaysCollisionFree(Grid(16, 128))
  {
    CollisionFreedom(Grid(16, 128));
  }
}
