/** One tracker's side of the schedule: its configuration and its two admission loops. */
module TdmaTracker {
  import opened Arithmetic
  import opened TdmaSchedule
  import opened TdmaNetwork
  import opened Wrappers

  /** The configuration word shared with the radio interrupt. */
  datatype Pack = Pack(slot: nat, slotTicks: nat, frameTicks: nat) {
    function Total(): nat {
      if slotTicks > 0 then frameTicks / slotTicks else 0
    }

    predicate Usable() {
      frameTicks > 0 && slotTicks >= MIN_SAFE_SLOT_TICKS && Total() > 0 && slot < Total()
    }

    function ToGrid(): Grid {
      Grid(Total(), slotTicks)
    }

    /** The shape `UpdateConfig` writes from a NORMAL PONG's bytes. */
    ghost predicate Installed() {
      Usable() ==> ToGrid().Installable() && frameTicks == ToGrid().FrameTicks()
    }
  }

  /** The last frame spent, tagged with the configuration it was spent under. */
  datatype Mark = Mark(pack: Pack, frame: nat)

  function UsedUnder(mark: Option<Mark>, pack: Pack): Option<nat> {
    if mark.Some? && mark.value.pack == pack then Some(mark.value.frame) else None
  }

  /** Own tick a data packet aims at; also the start of the slot's PING window. */
  function OwnTick(g: Grid, slot: nat, frame: nat): nat {
    g.SlotStart(slot, frame) + SLOT_TARGET_OFFSET
  }

  ghost predicate Opportunity(g: Grid, slot: nat, used: Option<nat>, frame: nat)
    requires g.Valid() && slot < g.slots
  {
    !g.Guarded(slot, frame) && used != Some(frame)
  }

  /** The earliest future own tick in an unguarded, unused frame. */
  ghost predicate NextOpportunity(g: Grid, slot: nat, used: Option<nat>, ticks: nat, target: nat)
    requires g.Valid() && slot < g.slots
  {
    && (exists f :: Opportunity(g, slot, used, f) && target == OwnTick(g, slot, f))
    && ticks < target
    && (forall f | Opportunity(g, slot, used, f) && ticks < OwnTick(g, slot, f) :: target <= OwnTick(g, slot, f))
  }

  /** The first own PING frame that is not already over. */
  ghost predicate NextPingFrame(g: Grid, slot: nat, ticks: nat, frame: nat)
    requires g.Valid() && slot < g.slots && g.FrameTicks() > 0
  {
    && g.PingFrame(slot, frame)
    && FrameAt(ticks, g.FrameTicks()) <= frame
    && (forall f | g.PingFrame(slot, f) && FrameAt(ticks, g.FrameTicks()) <= f :: frame <= f)
  }

  lemma OwnTicksIncrease(g: Grid, slot: nat, f: nat, h: nat)
    ensures f <= h ==> OwnTick(g, slot, f) <= OwnTick(g, slot, h)
    ensures f < h ==> OwnTick(g, slot, f) + g.FrameTicks() <= OwnTick(g, slot, h)
  {
    if f < h { MulMono(f + 1, h, g.FrameTicks()); Distribute(f, 1, g.FrameTicks()); }
  }

  /** A reading exactly on an opportunity is admitted, whatever the payload. */
  lemma OpportunityAdmits(g: Grid, slot: nat, used: Option<nat>, ticks: nat, target: nat, payloadLength: nat)
    requires g.Valid() && slot < g.slots
    requires NextOpportunity(g, slot, used, ticks, target)
    ensures DataAdmits(g, slot, used, ReserveTicks(payloadLength), target)
  {
    g.PeriodPositive();
    var f :| Opportunity(g, slot, used, f) && target == OwnTick(g, slot, f);
    PingTickFrame(g, slot, f, target);
    Distribute(slot, 1, g.slotTicks);
  }

  /** Frames sharing a slot's phase lie whole cycles apart. */
  lemma SamePhaseApart(a: nat, b: nat, p: nat)
    requires p > 0 && a < b && a % p == b % p
    ensures a + p <= b
  {
    var qa, qb := a / p, b / p;
    assert a == qa * p + a % p && b == qb * p + b % p;
    Distribute(qa, 1, p);
    if qb <= qa { MulMono(qb, qa, p); } else { MulMono(qa + 1, qb, p); }
  }

  lemma PhaseLimit(g: Grid, slot: nat)
    requires g.Separated() && slot < g.slots && g.slots >= 2
    ensures g.Phase(slot) + 2 <= g.PeriodFrames()
  {
    g.LastPhase();
    g.PhaseMonotone(slot, g.slots - 1);
  }

  /** An own window of an earlier cycle is over before this cycle begins. */
  lemma EarlierCycleOver(g: Grid, slot: nat, frame: nat, t: nat)
    requires g.Separated() && slot < g.slots && g.FrameTicks() > 0
    requires g.PingFrame(slot, frame)
    requires frame < CycleBase(FrameAt(t, g.FrameTicks()), g.PeriodFrames()) + g.Phase(slot)
    ensures g.PingWindow(slot, frame).until <= t
  {
    g.PeriodPositive();
    g.PhaseBelowPeriod(slot);
    g.SeparatedPeriod();
    var p, f := g.PeriodFrames(), g.FrameTicks();
    var base := CycleBase(FrameAt(t, f), p);
    CyclePhase(FrameAt(t, f), g.Phase(slot), p);
    SamePhaseApart(frame, base + g.Phase(slot), p);
    MulMono(base, FrameAt(t, f), f);
    if g.slots >= 2 {
      PhaseLimit(g, slot);
      MulMono(frame + 2, base, f);
      Distribute(frame, 2, f);
      MulMono(slot + 1, g.slots, g.slotTicks);
      Distribute(slot, 1, g.slotTicks);
      MulMono(2, g.slots, g.slotTicks);
    } else {
      MulMono(frame + 3, base, f);
      Distribute(frame, 3, f);
    }
  }

  /** Any own window not yet over is the one aimed at or comes after it. */
  lemma OtherWindow(g: Grid, slot: nat, t: nat, f: nat)
    requires g.Separated() && slot < g.slots
    requires g.PingFrame(slot, f) && t < g.PingWindow(slot, f).until
    ensures var aim := PingTarget(g, slot, t);
            && (aim.inWindow ==> f == aim.frame || t < g.PingWindow(slot, f).from)
            && (!aim.inWindow ==> aim.start <= g.PingWindow(slot, f).from)
  {
    g.PeriodPositive();
    PingTargetFrame(g, slot, t);
    g.PhaseBelowPeriod(slot);
    var p := g.PeriodFrames();
    var now := FrameAt(t, g.FrameTicks());
    CyclePhase(now, g.Phase(slot), p);
    var thisCycle := CycleBase(now, p) + g.Phase(slot);
    if f < thisCycle {
      EarlierCycleOver(g, slot, f, t);
    } else if f > thisCycle {
      SamePhaseApart(thisCycle, f, p);
      LaterFrame(g, slot, f, t);
      OwnTicksIncrease(g, slot, PingTarget(g, slot, t).frame, f);
    }
  }

  /** The scheduler's aim is the unique own window holding now, or else the earliest to come. */
  ghost predicate AimCorrect(g: Grid, slot: nat, t: nat, aim: PingAim)
    requires g.Valid() && slot < g.slots
  {
    && g.PingFrame(slot, aim.frame)
    && aim.start == g.PingWindow(slot, aim.frame).from
    && (if aim.inWindow then
          && aim.start <= t < g.PingWindow(slot, aim.frame).until
          && forall f | g.PingFrame(slot, f) && g.PingWindow(slot, f).from <= t < g.PingWindow(slot, f).until
               :: f == aim.frame
        else
          && t < aim.start
          && forall f | g.PingFrame(slot, f) && t < g.PingWindow(slot, f).until
               :: aim.start <= g.PingWindow(slot, f).from)
  }

  lemma PingTargetCorrect(g: Grid, slot: nat, t: nat)
    requires g.Separated() && slot < g.slots
    ensures AimCorrect(g, slot, t, PingTarget(g, slot, t))
  {
    PingTargetFrame(g, slot, t);
    forall f | g.PingFrame(slot, f) && t < g.PingWindow(slot, f).until
      ensures var aim := PingTarget(g, slot, t);
              && (aim.inWindow ==> f == aim.frame || t < g.PingWindow(slot, f).from)
              && (!aim.inWindow ==> aim.start <= g.PingWindow(slot, f).from)
    {
      OtherWindow(g, slot, t, f);
    }
  }

  /** One reading of the shared clock and configuration word. */
  datatype Reading = Reading(enabled: bool, pack: Pack, synced: bool, ticks: nat)

  datatype DataStep = Admit | Yield | Sleep(target: nat)

  datatype DataOutcome = Admitted | Refused | Waiting

  datatype PingOutcome = PingUnavailable | PingDeferred | PingAdmitted

  /** Advance past guarded frames: never more than two. */
  method SkipGuarded(g: Grid, slot: nat, frame: nat) returns (r: nat)
    requires g.Valid() && slot < g.slots && g.PeriodFrames() >= 3
    ensures frame <= r <= frame + 2
    ensures !g.Guarded(slot, r)
    ensures forall f | frame <= f < r :: g.Guarded(slot, f)
  {
    r := frame;
    g.UnguardedSoon(slot, frame);
    while g.Guarded(slot, r)
      invariant frame <= r <= frame + 2
      invariant forall f | frame <= f < r :: g.Guarded(slot, f)
      decreases frame + 2 - r
    {
      r := r + 1;
    }
  }

  /** The first frame at or after now with phase k. */
  function FirstFrame(now: nat, k: nat, p: nat): nat
    requires p > 0
  {
    var own := CycleBase(now, p) + k;
    if own < now then own + p else own
  }

  lemma FirstFrameIsFirst(now: nat, k: nat, p: nat, f: nat)
    requires k < p && f % p == k && now <= f
    ensures now <= FirstFrame(now, k, p) <= f && FirstFrame(now, k, p) % p == k
  {
    CyclePhase(now, k, p);
    if f < FirstFrame(now, k, p) { SamePhaseApart(f, FirstFrame(now, k, p), p); }
  }

  /** The own PING frame used as a barrier is the first that is not over. */
  lemma BarrierIsNextPing(g: Grid, slot: nat, t: nat)
    requires g.Valid() && slot < g.slots && g.FrameTicks() > 0 && g.PeriodFrames() > 0
    ensures NextPingFrame(g, slot, t, FirstFrame(FrameAt(t, g.FrameTicks()), g.Phase(slot), g.PeriodFrames()))
  {
    var now, k, p := FrameAt(t, g.FrameTicks()), g.Phase(slot), g.PeriodFrames();
    g.PhaseBelowPeriod(slot);
    CyclePhase(now, k, p);
    forall f | g.PingFrame(slot, f) && now <= f
      ensures FirstFrame(now, k, p) <= f
    {
      FirstFrameIsFirst(now, k, p, f);
    }
  }

  /** The use the loop takes into account: that of the current frame. */
  function CurrentUse(used: Option<nat>, frame: nat): Option<nat> {
    if used == Some(frame) then used else None
  }

  /** The target is the earliest unguarded tick no packet has used, unless the last use lies ahead
      of the clock, in the very frame aimed at. */
  lemma TargetUnusedIff(g: Grid, slot: nat, used: Option<nat>, ticks: nat, target: nat)
    requires g.Valid() && slot < g.slots && g.FrameTicks() > 0
    requires NextOpportunity(g, slot, CurrentUse(used, FrameAt(ticks, g.FrameTicks())), ticks, target)
    ensures NextOpportunity(g, slot, used, ticks, target)
            <==> !(used.Some? && FrameAt(ticks, g.FrameTicks()) < used.value && OwnTick(g, slot, used.value) == target)
  {
    var now := FrameAt(ticks, g.FrameTicks());
    var use := CurrentUse(used, now);
    var f :| Opportunity(g, slot, use, f) && target == OwnTick(g, slot, f);
    if f < now { PastFrame(g, slot, f, ticks); }
    forall h | OwnTick(g, slot, h) == target ensures h == f {
      OwnTicksIncrease(g, slot, f, h);
      OwnTicksIncrease(g, slot, h, f);
    }
    forall h | Opportunity(g, slot, used, h) && ticks < OwnTick(g, slot, h) ensures target <= OwnTick(g, slot, h) {
      assert Opportunity(g, slot, use, h);
    }
  }

  /** One pass of the data loop: admit now, return to the scheduler, or sleep to a target. */
  method DecideData(g: Grid, slot: nat, used: Option<nat>, reserve: nat, ticks: nat) returns (step: DataStep)
    requires g.Installable() && slot < g.slots && 8 <= reserve <= 12
    ensures g.Valid() && g.FrameTicks() > 0
    ensures step.Admit? <==> DataAdmits(g, slot, used, reserve, ticks)
    ensures var current := CurrentUse(used, FrameAt(ticks, g.FrameTicks()));
            match step
            case Admit => true
            case Sleep(target) =>
              && NextOpportunity(g, slot, current, ticks, target)
              && (forall f | NextPingFrame(g, slot, ticks, f) :: target <= OwnTick(g, slot, f))
            case Yield =>
              exists target, f :: NextOpportunity(g, slot, current, ticks, target)
                && NextPingFrame(g, slot, ticks, f) && OwnTick(g, slot, f) < target
  {
    g.InstallablePeriod();
    g.PeriodPositive();
    var frameTicks, period := g.FrameTicks(), g.PeriodFrames();
    var frame, phase := FrameAt(ticks, frameTicks), OffsetAt(ticks, frameTicks);
    var slotStart := slot * g.slotTicks;
    var position: int := phase - slotStart;
    var latestStart := g.slotTicks - reserve;
    var unused := used != Some(frame);
    var guarded := g.Guarded(slot, frame);
    Distribute(slot, 1, g.slotTicks);
    if !guarded && unused && SLOT_TARGET_OFFSET <= position <= latestStart {
      return Admit;
    }
    var current := OwnTick(g, slot, frame);
    var first := if !guarded && unused && ticks < current then frame else frame + 1;
    var targetFrame := SkipGuarded(g, slot, first);
    var target := OwnTick(g, slot, targetFrame);
    var pingFrame := CycleBase(frame, period) + g.Phase(slot);
    if pingFrame < frame {
      pingFrame := pingFrame + period;
    }
    BarrierIsNextPing(g, slot, ticks);
    ghost var use := CurrentUse(used, frame);
    LaterFrame(g, slot, frame + 1, ticks);
    OwnTicksIncrease(g, slot, first, targetFrame);
    OwnTicksIncrease(g, slot, frame + 1, targetFrame);
    forall f | Opportunity(g, slot, use, f) && ticks < OwnTick(g, slot, f)
      ensures target <= OwnTick(g, slot, f)
    {
      OwnTicksIncrease(g, slot, f, frame);
      OwnTicksIncrease(g, slot, targetFrame, f);
      if f < frame { PastFrame(g, slot, f, ticks); }
    }
    assert Opportunity(g, slot, use, targetFrame);
    assert NextOpportunity(g, slot, use, ticks, target);
    if OwnTick(g, slot, pingFrame) < target {
      return Yield;
    }
    return Sleep(target);
  }

  lemma PastFrame(g: Grid, slot: nat, frame: nat, t: nat)
    requires g.Valid() && slot < g.slots && g.FrameTicks() > 0 && frame < FrameAt(t, g.FrameTicks())
    ensures OwnTick(g, slot, frame) <= t
  {
    var f := g.FrameTicks();
    MulMono(frame + 1, FrameAt(t, f), f);
    Distribute(frame, 1, f);
    MulMono(slot + 1, g.slots, g.slotTicks);
    Distribute(slot, 1, g.slotTicks);
  }

  /** The data loop has gone through the first k readings without a change of configuration. */
  ghost predicate Undisturbed(pack: Pack, readings: seq<Reading>, k: nat) {
    forall j | 0 <= j < k && j < |readings| :: readings[j].pack == pack
  }

  /** Whether the data loop would admit at its k-th reading. */
  ghost predicate AdmissibleAt(pack: Pack, mark: Option<Mark>, reserve: nat, readings: seq<Reading>, k: nat)
    requires k < |readings|
  {
    var r := readings[k];
    var held := if k == 0 then pack else readings[k - 1].pack;
    && r.synced && r.ticks > 0
    && (r.pack == held || r.enabled)
    && r.pack.Usable() && r.pack.Installed()
    && DataAdmits(r.pack.ToGrid(), r.pack.slot,
                  UsedUnder(if Undisturbed(pack, readings, k + 1) then mark else None, r.pack),
                  reserve, r.ticks)
  }

  /** The first window start at or after now that this tracker has not yet spent. */
  function NextUnspentWindow(g: Grid, slot: nat, used: Option<nat>, t: nat): nat
    requires g.Valid()
  {
    var aim := PingTarget(g, slot, t);
    if aim.inWindow && used == Some(aim.frame) then aim.start + g.PeriodFrames() * g.FrameTicks() else aim.start
  }

  lemma PingFrameRecurs(g: Grid, slot: nat, frame: nat)
    requires g.Valid() && slot < g.slots && g.PingFrame(slot, frame)
    ensures g.PingFrame(slot, frame + g.PeriodFrames())
  {
    g.PeriodPositive();
    g.PhaseBelowPeriod(slot);
    CyclePhase(frame, g.Phase(slot), g.PeriodFrames());
  }

  /** A window this tracker may still use. */
  ghost predicate Unspent(g: Grid, slot: nat, used: Option<nat>, t: nat, f: nat)
    requires g.Valid() && slot < g.slots
  {
    g.PingFrame(slot, f) && used != Some(f) && t < g.PingWindow(slot, f).until
  }

  lemma NoEarlierUnspent(g: Grid, slot: nat, used: Option<nat>, t: nat, f: nat)
    requires g.Separated() && slot < g.slots && Unspent(g, slot, used, t, f)
    ensures NextUnspentWindow(g, slot, used, t) <= OwnTick(g, slot, f)
  {
    PingTargetFrame(g, slot, t);
    var aim, p := PingTarget(g, slot, t), g.PeriodFrames();
    OtherWindow(g, slot, t, f);
    if aim.inWindow && f != aim.frame {
      NextWindow(g, slot, aim.frame);
      if f < aim.frame { OwnTicksIncrease(g, slot, f, aim.frame); }
      SamePhaseApart(aim.frame, f, p);
      OwnTicksIncrease(g, slot, aim.frame + p, f);
    }
  }

  lemma NextUnspentWindowCorrect(g: Grid, slot: nat, used: Option<nat>, t: nat)
    requires g.Separated() && slot < g.slots
    requires used.Some? ==> g.PingWindow(slot, used.value).from <= t
    ensures exists f :: Unspent(g, slot, used, t, f) && NextUnspentWindow(g, slot, used, t) == OwnTick(g, slot, f)
    ensures forall f | Unspent(g, slot, used, t, f) :: NextUnspentWindow(g, slot, used, t) <= OwnTick(g, slot, f)
  {
    PingTargetFrame(g, slot, t);
    g.SeparatedPeriod();
    var aim, p := PingTarget(g, slot, t), g.PeriodFrames();
    NextWindow(g, slot, aim.frame);
    PingFrameRecurs(g, slot, aim.frame);
    WindowShorterThanCycle(g, slot, aim.frame);
    if aim.inWindow && used == Some(aim.frame) {
      assert Unspent(g, slot, used, t, aim.frame + p);
    } else {
      assert Unspent(g, slot, used, t, aim.frame);
    }
    forall f | Unspent(g, slot, used, t, f)
      ensures NextUnspentWindow(g, slot, used, t) <= OwnTick(g, slot, f)
    {
      NoEarlierUnspent(g, slot, used, t, f);
    }
  }

  class Tracker {
    var enabled: bool
    var pack: Pack
    var epoch: nat
    var lastData: Option<Mark>
    var lastPing: Option<Mark>

    ghost predicate Valid()
      reads this
    {
      pack.Installed()
    }

    constructor (trackerId: nat)
      ensures Valid() && !enabled && lastData == None && lastPing == None
      ensures pack == Pack(trackerId % 10, 22, 220)
    {
      enabled, pack, epoch := false, Pack(trackerId % 10, 22, 220), 0;
      lastData, lastPing := None, None;
    }

    /** A NORMAL PONG's slot bytes; anything the receiver may not install is ignored. */
    method ReceiveSchedule(slot: nat, total: nat, slotTicks: nat, newEpoch: nat, awaited: bool)
      requires Valid() && slotTicks <= 255
      modifies this
      ensures Valid()
      ensures if 0 < total <= 16 && slot < total && slotTicks >= 16 && (awaited || newEpoch != old(epoch))
              then
                && enabled && epoch == newEpoch
                && pack.Usable() && pack.slot == slot && pack.ToGrid() == Grid(total, slotTicks)
                && lastData == None && lastPing == None
              else unchanged(this)
    {
      if 0 < total <= 16 && slot < total && slotTicks >= MIN_SAFE_SLOT_TICKS && (awaited || newEpoch != epoch) {
        ModUnique(total * slotTicks, total, 0, slotTicks);
        MulMono(1, total, slotTicks);
        pack := Pack(slot, slotTicks, total * slotTicks);
        epoch, enabled := newEpoch, true;
        lastData, lastPing := None, None;
      }
    }

    method SetEnabled(on: bool)
      requires Valid()
      modifies this
      ensures Valid() && enabled == on && pack == old(pack) && epoch == old(epoch)
      ensures lastData == if !old(enabled) && on then None else old(lastData)
      ensures lastPing == if old(enabled) != on then None else old(lastPing)
    {
      if !enabled && on { lastData := None; }
      if enabled != on { lastPing := None; }
      enabled := on;
    }

    /** Wait for a data slot, reading the clock and configuration on each pass. The readings
        are what the interrupt side supplies; running out of them leaves the caller blocked. */
    method WaitForSlot(payloadLength: nat, synced: bool, readings: seq<Reading>)
      returns (outcome: DataOutcome, taken: nat)
      requires Valid()
      requires forall r <- readings :: r.pack.Installed()
      modifies this`lastData
      ensures taken <= |readings|
      ensures outcome.Admitted? ==> old(enabled) && synced && old(pack).Usable() && taken > 0
      ensures outcome.Admitted? ==>
                && AdmissibleAt(pack, old(lastData), ReserveTicks(payloadLength), readings, taken - 1)
                && lastData == Some(Mark(readings[taken - 1].pack,
                                         FrameAt(readings[taken - 1].ticks, readings[taken - 1].pack.frameTicks)))
      ensures !outcome.Admitted? ==> lastData == old(lastData) || lastData == None
      ensures forall k | 0 <= k < taken && (outcome.Admitted? ==> k < taken - 1) ::
                !AdmissibleAt(pack, old(lastData), ReserveTicks(payloadLength), readings, k)
      ensures outcome.Waiting? ==> taken == |readings|
    {
      hide DataAdmits, NextOpportunity, ReserveTicks, FrameAt, Grid.PeriodFrames, Grid.Guarded;
      var reserve := ReserveTicks(payloadLength);
      taken := 0;
      if !enabled || !pack.Usable() || !synced || pack.slotTicks <= reserve {
        return Refused, 0;
      }
      var held := pack;
      ghost var moved := false;
      while taken < |readings|
        invariant taken <= |readings|
        invariant held.Usable() && held.Installed() && held.slotTicks > reserve
        invariant !moved ==> held == pack && Undisturbed(pack, readings, taken) && lastData == old(lastData)
        invariant held == if taken == 0 then pack else readings[taken - 1].pack
        invariant moved ==> !Undisturbed(pack, readings, taken) && lastData == None
        invariant forall k | 0 <= k < taken :: !AdmissibleAt(pack, old(lastData), reserve, readings, k)
      {
        var r := readings[taken];
        taken := taken + 1;
        if !r.synced || r.ticks == 0 {
          return Refused, taken;
        }
        if r.pack != held {
          if !r.enabled || !r.pack.Usable() || r.pack.slotTicks <= reserve {
            return Refused, taken;
          }
          held := r.pack;
          lastData := None;
          moved := true;
        }
        assert Undisturbed(pack, readings, taken) <==> !moved;
        var step := DecideData(held.ToGrid(), held.slot, UsedUnder(lastData, held), reserve, r.ticks);
        assert step.Admit? <==> AdmissibleAt(pack, old(lastData), reserve, readings, taken - 1);
        match step {
          case Admit =>
            lastData := Some(Mark(held, FrameAt(r.ticks, held.frameTicks)));
            return Admitted, taken;
          case Yield =>
            return Refused, taken;
          case Sleep(_) =>
        }
      }
      return Waiting, taken;
    }

    /** Milliseconds until the connection loop should look at the PING window again: never past
        the next unspent window, at most a frame and one millisecond before it. */
    method PingWakeDelay(synced: bool, ticks: nat) returns (delay: Option<nat>)
      requires Valid()
      ensures delay.Some? <==> enabled && pack.Usable() && synced && ticks > 0
      ensures delay.Some? ==>
                var target := NextUnspentWindow(pack.ToGrid(), pack.slot, UsedUnder(lastPing, pack), ticks);
                && (target <= ticks ==> delay == Some(0))
                && (ticks < target ==>
                      && ticks * 1000 + delay.value * TICKS_PER_SECOND <= target * 1000
                      && (target - pack.frameTicks) * 1000 < ticks * 1000 + (delay.value + 1) * TICKS_PER_SECOND)
    {
      if !enabled || !pack.Usable() || !synced || ticks == 0 {
        return None;
      }
      var g := pack.ToGrid();
      g.InstallablePeriod();
      PingTargetFrame(g, pack.slot, ticks);
      var aim := PingTarget(g, pack.slot, ticks);
      var target := aim.start;
      var spent := UsedUnder(lastPing, pack) == Some(aim.frame);
      if aim.inWindow && !spent {
        return Some(0);
      }
      if aim.inWindow {
        target := target + g.PeriodFrames() * pack.frameTicks;
        WindowShorterThanCycle(g, pack.slot, aim.frame);
      }
      var ahead := target - ticks;
      var wake := if ahead > pack.frameTicks then ahead - pack.frameTicks else 0;
      return Some(wake * 1000 / TICKS_PER_SECOND);
    }

    /** One PING opportunity. `later` is the clock after the bounded wait for the window. */
    method WaitForPingWindow(synced: bool, ticks: nat, later: nat) returns (outcome: PingOutcome)
      requires Valid()
      modifies this`lastData, this`lastPing
      ensures outcome.PingUnavailable? <==> !(old(enabled) && pack.Usable() && synced)
      ensures outcome.PingUnavailable? ==> unchanged(this)
      ensures !outcome.PingUnavailable? ==>
                var g, slot := pack.ToGrid(), pack.slot;
                var first := PingTarget(g, slot, ticks);
                var waits := !first.inWindow && first.start - ticks <= pack.frameTicks;
                var t := if waits then later else ticks;
                var aim := PingTarget(g, slot, t);
                var fits := aim.inWindow && UsedUnder(old(lastPing), pack) != Some(aim.frame);
                && (outcome.PingAdmitted? <==> fits && t - aim.start <= PING_LATE_TOLERANCE)
                && lastPing == (if fits then Some(Mark(pack, aim.frame)) else old(lastPing))
                && lastData == if outcome.PingAdmitted? then lastPing else old(lastData)
    {
      if !enabled || !pack.Usable() || !synced {
        return PingUnavailable;
      }
      var g, slot := pack.ToGrid(), pack.slot;
      g.InstallablePeriod();
      PingTargetFrame(g, slot, ticks);
      var t := ticks;
      var aim := PingTarget(g, slot, ticks);
      if !aim.inWindow {
        if aim.start - ticks > pack.frameTicks {
          return PingDeferred;
        }
        t := later;
        PingTargetFrame(g, slot, later);
        aim := PingTarget(g, slot, later);
      }
      var duplicate := lastPing == Some(Mark(pack, aim.frame));
      if !aim.inWindow || t - aim.start > PING_LATE_TOLERANCE || duplicate {
        if aim.inWindow && !duplicate {
          lastPing := Some(Mark(pack, aim.frame));
        }
        return PingDeferred;
      }
      lastPing := Some(Mark(pack, aim.frame));
      lastData := Some(Mark(pack, aim.frame));
      return PingAdmitted;
    }
  }

  /** A window is over well before the slot's next one starts. */
  lemma WindowShorterThanCycle(g: Grid, slot: nat, frame: nat)
    requires g.Valid() && g.PeriodFrames() >= 3
    ensures g.PingWindow(slot, frame).until <= g.PingWindow(slot, frame).from + g.PeriodFrames() * g.FrameTicks()
  {
    MulMono(1, g.slots, g.slotTicks);
    MulMono(3, g.PeriodFrames(), g.FrameTicks());
  }
}
