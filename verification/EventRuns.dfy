/** Where records come from: every step's records were there before or were published by it. */
module EventRuns {
  import opened Integers
  import opened Wrappers
  import opened EventProtocol
  import opened EventState
  import opened EventInvariant
  import opened EventSteps

  // ------------------------------------------------------------- provenance

  /** How far the publication count runs ahead of the 16-bit sequence number. */
  ghost function Lag(token: nat, seqno: Word): nat {
    (token + 0x1_0000 - seqno) % 0x1_0000
  }

  ghost function LagOf(s: State): nat {
    Lag(s.serial + 1, s.sequence)
  }

  /** A live queue entry is the one that was there, untouched, or a new record. */
  ghost predicate Descends(was: Record, r: Record, serial: nat, lag: nat) {
    r.valid ==>
      || (was.valid && r.token == was.token && r.event == was.event && r.copies == was.copies && r.limit == was.limit)
      || (r.token > serial && r.copies == 0 && Lag(r.token, r.event.seqno) == lag)
  }

  ghost predicate TokenFrom(was: Record, r: Record, serial: nat, lag: nat) {
    r.valid ==>
      || (was.valid && r.token == was.token && r.event.seqno == was.event.seqno)
      || (r.token > serial && Lag(r.token, r.event.seqno) == lag)
  }

  /** Every live record of t was live in s or was published since. */
  ghost predicate From(s: State, t: State) {
    && Shaped(s) && Shaped(t) && s.serial <= t.serial && LagOf(t) == LagOf(s)
    && (forall k | 0 <= k < QUEUE_SIZE :: Descends(s.queue[k], t.queue[k], s.serial, LagOf(s)))
    && (forall k | 0 <= k < OP_SIZE :: TokenFrom(s.ops[k].latest, t.ops[k].latest, s.serial, LagOf(s)))
    && TokenFrom(s.slots[0].published, t.slots[0].published, s.serial, LagOf(s))
    && TokenFrom(s.slots[1].published, t.slots[1].published, s.serial, LagOf(s))
  }

  /** Nothing but queue contents, operations, slots and counters moved. */
  ghost predicate SameRest(s: State, t: State) {
    t.startup == s.startup && t.nonce == s.nonce && t.entropyFailed == s.entropyFailed && t.selected == s.selected
  }

  lemma FromTransitive(s: State, t: State, u: State)
    requires From(s, t) && From(t, u)
    ensures From(s, u)
  {
  }

  lemma PublishFrom(s: State, r: Record)
    requires Shaped(s) && r.token == s.serial + 1 && r.copies == 0 && r.event.seqno == s.sequence
    ensures From(s, Enqueue(Stamp(s), r)) && SameRest(s, Enqueue(Stamp(s), r))
  {
    StampKeepsLag(s);
    hide Victim, Lag;
  }

  lemma StampKeepsLag(s: State)
    ensures LagOf(Stamp(s)) == LagOf(s)
  {
  }

  lemma PublishOpFrom(s: State, i: nat, event: Byte, outcome: Byte, phase: Byte, detail: Byte, now: nat, limit: nat)
    requires Shaped(s) && i < OP_SIZE
    ensures var t := PublishOp(s, i, event, outcome, phase, detail, now, limit);
            From(s, t) && SameRest(s, t)
  {
    var r := Fresh(s, s.ops[i].id, s.ops[i].kind, event, outcome, phase, detail, now, limit);
    PublishFrom(s, r);
    hide Enqueue;
  }

  lemma AllocateFrom(s: State, kind: Byte, now: nat)
    requires Shaped(s) && Allocate(s, kind, now).Some?
    ensures From(s, Allocate(s, kind, now).value.0) && SameRest(s, Allocate(s, kind, now).value.0)
  {
    hide OpVictim, FreshId, Ids;
  }

  lemma OpReplaceFrom(s: State, i: nat, op: Operation)
    requires Shaped(s) && i < OP_SIZE && TokenFrom(s.ops[i].latest, op.latest, s.serial, LagOf(s))
    ensures From(s, s.(ops := s.ops[i := op])) && SameRest(s, s.(ops := s.ops[i := op]))
  {
  }

  /** Update one operation, then publish for it. */
  lemma UpdatePublishFrom(s: State, i: nat, op: Operation, event: Byte, outcome: Byte,
                          phase: Byte, detail: Byte, now: nat, limit: nat)
    requires Shaped(s) && i < OP_SIZE && TokenFrom(s.ops[i].latest, op.latest, s.serial, LagOf(s))
    ensures var t := PublishOp(s.(ops := s.ops[i := op]), i, event, outcome, phase, detail, now, limit);
            From(s, t) && SameRest(s, t)
  {
    var s1 := s.(ops := s.ops[i := op]);
    OpReplaceFrom(s, i, op);
    PublishOpFrom(s1, i, event, outcome, phase, detail, now, limit);
    hide From, PublishOp;
    FromTransitive(s, s1, PublishOp(s1, i, event, outcome, phase, detail, now, limit));
  }

  lemma CalibrationFrom(s: State, t: Timed)
    requires Shaped(s) && (t.step.Accept? || t.step.Begin? || t.step.Reject?)
    ensures From(s, Next(s, t)) && SameRest(s, Next(s, t))
  {
    hide Allocate, PublishOp;
    var kind, now := t.step.kind, t.now;
    if Allocate(s, kind, now).Some? {
      AllocateFrom(s, kind, now);
      var (s1, i) := Allocate(s, kind, now).value;
      AllocatedFrom(s, s1, t, i);
    }
  }

  lemma AllocatedFrom(s: State, s1: State, t: Timed, i: nat)
    requires Shaped(s) && (t.step.Accept? || t.step.Begin? || t.step.Reject?)
    requires Allocate(s, t.step.kind, t.now) == Some((s1, i))
    requires From(s, s1) && SameRest(s, s1)
    ensures From(s, Next(s, t)) && SameRest(s, Next(s, t))
  {
    hide Allocate, PublishOp, From;
    var op, now := s1.ops[i], t.now;
    match t.step {
      case Accept(_) =>
        PublishOpFrom(s1, i, ACCEPTED, 0, 0, 0, now, 3);
      case Begin(_, phase, detail) =>
        var op1 := op.(phase := phase, detail := detail, changed := now);
        OpReplaceFrom(s1, i, op1);
        UpdatePublishFrom(s1, i, op1, BEGIN, 0, phase, detail, now, 1);
      case Reject(_, reason) =>
        UpdatePublishFrom(s1, i, op.(active := false), REJECTED, FAILED, 0, reason, now, 3);
    }
    FromTransitive(s, s1, Next(s, t));
  }

  lemma ResumeFrom(s: State, t: Timed)
    requires Shaped(s) && t.step.Resume?
    ensures From(s, Next(s, t)) && SameRest(s, Next(s, t))
  {
    hide PublishOp;
    if Find(s.ops, t.step.id).Some? {
      var i := Find(s.ops, t.step.id).value;
      UpdatePublishFrom(s, i, s.ops[i].(phase := t.step.phase, detail := t.step.detail),
                        BEGIN, 0, t.step.phase, t.step.detail, t.now, 1);
    }
  }

  lemma LatchFrom(s: State, t: Timed)
    requires Shaped(s) && t.step.LatchReason?
    ensures From(s, Next(s, t)) && SameRest(s, Next(s, t))
  {
    hide Lag;
    if Find(s.ops, t.step.id).Some? {
      var i := Find(s.ops, t.step.id).value;
      OpReplaceFrom(s, i, s.ops[i].(completionReason := t.step.reason));
    }
  }

  lemma FinishFrom(s: State, t: Timed)
    requires Shaped(s) && t.step.Finish?
    ensures From(s, Next(s, t)) && SameRest(s, Next(s, t))
  {
    hide PublishOp;
    if Find(s.ops, t.step.id).Some? {
      var i := Find(s.ops, t.step.id).value;
      var op := s.ops[i];
      var Finish(_, outcome, phase, reason) := t.step;
      var op1 := op.(active := false, candidate := false, latest := op.latest.(valid := false));
      OpReplaceFrom(s, i, op1);
      UpdatePublishFrom(s, i, op1, END, outcome, phase,
                        if outcome == SUCCESS && reason == 0 then op.completionReason else reason, t.now, 3);
      OpReplaceFrom(s, i, op);
      assert s.ops[i := op] == s.ops;
    }
  }

  lemma StepFrom(s: State, id: Word, phase: Byte, detail: Byte, now: nat)
    requires Shaped(s)
    ensures From(s, CalStep(s, id, phase, detail, now)) && SameRest(s, CalStep(s, id, phase, detail, now))
  {
    NothingFrom(s);
    if Find(s.ops, id).Some? {
      StepOpFrom(s, Find(s.ops, id).value, phase, detail, now);
    }
    hide StepOp, Find, From;
  }

  lemma NothingFrom(s: State)
    requires Shaped(s)
    ensures From(s, s)
  {
  }

  lemma StepOpFrom(s: State, i: nat, phase: Byte, detail: Byte, now: nat)
    requires Shaped(s) && i < OP_SIZE
    ensures From(s, StepOp(s, i, phase, detail, now)) && SameRest(s, StepOp(s, i, phase, detail, now))
  {
    var op := s.ops[i];
    var op1 := if phase == PHASE_RETRY then op.(retryValid := true, retryReason := detail, retryAt := now) else op;
    var s1 := s.(ops := s.ops[i := op1]);
    OpReplaceFrom(s, i, op1);
    var r := Fresh(s1, op.id, op.kind, STEP, 0, phase, detail, now, 3);
    PublishFrom(s1, r);
    OpReplaceFrom(s1, i, op1.(latest := Superseded(op.latest), phase := phase, detail := detail,
                              changed := now, candidate := true));
    hide Enqueue, From;
    FromTransitive(s, s1, StepOp(s, i, phase, detail, now));
  }

  lemma ObservedFrom(s: State, t: Timed)
    requires Shaped(s) && t.step.Observed?
    ensures From(s, Next(s, t)) && SameRest(s, Next(s, t))
  {
    hide Lag;
  }

  lemma InvalidatedFrom(s: State, t: Timed)
    requires Shaped(s) && t.step.Invalidated?
    ensures From(s, Next(s, t)) && SameRest(s, Next(s, t))
  {
    hide Lag;
  }

  lemma FrameFrom(s: State, t: Timed)
    requires Shaped(s) && t.step.SensorFrame?
    ensures From(s, Next(s, t)) && SameRest(s, Next(s, t))
  {
    hide Lag;
  }

  lemma NoticeFrom(s: State, kind: Byte, phase: Byte, detail: Byte, now: nat)
    requires Shaped(s)
    ensures var t := Notice(s, kind, phase, detail, now);
            && From(s, t) && t.nonce == s.nonce && t.entropyFailed == s.entropyFailed && t.selected == s.selected
            && (t.startup == s.startup
                || (kind == POWER && (phase == WILL_SHUTDOWN || phase == WILL_REBOOT)
                    && t.startup == s.startup.(retired := true, pending := [false, false])))
  {
    var s1 := if kind == POWER && (phase == WILL_SHUTDOWN || phase == WILL_REBOOT)
              then s.(startup := s.startup.(retired := true, pending := [false, false])) else s;
    var s2 := if kind == POWER && phase == WOM_CANCELLED then s1.(queue := CancelWom(s1.queue)) else s1;
    assert From(s, s2);
    PublishFrom(s2, Fresh(s2, 0, kind, NOTICE, 0, phase, detail, now, 3));
    hide Enqueue, Legal;
  }

  lemma MaterializeFrom(s: State, i: nat, now: nat)
    requires Shaped(s) && i < 2
    ensures var t := MaterializeOne(s, i, now);
            From(s, t) && SameRest(s.(startup := t.startup), t)
  {
    if Unmaterialized(s.startup, i) {
      var r := Fresh(s, 0, POWER, NOTICE, 0, if i == 1 then WATCHDOG_RESET else s.startup.phase, 0, now, 3);
      PublishFrom(s.(startup := s.startup.(tokens := s.startup.tokens[i := r.token])), r);
      hide Enqueue;
    }
  }

  lemma {:induction false} RevealFrom(s: State, now: nat, n: nat)
    requires Shaped(s) && n <= OP_SIZE
    ensures From(s, Reveal(s, now, n))
  {
    if n == 0 {
    } else {
      hide From, RevealOne;
      RevealFrom(s, now, n - 1);
      var before := Reveal(s, now, n - 1);
      RevealOneFrom(before, n - 1, now);
      FromTransitive(s, before, Reveal(s, now, n));
    }
  }

  lemma RevealOneFrom(s: State, i: nat, now: nat)
    requires Shaped(s) && i < OP_SIZE
    ensures From(s, RevealOne(s, i, now))
  {
    var op := s.ops[i];
    PublishOpFrom(s, i, BEGIN, 0, op.phase, op.detail, now, 1);
    hide PublishOp;
  }

  lemma ExpireFrom(s: State, now: nat)
    requires Shaped(s)
    ensures From(s, Expire(s, now))
  {
    hide Lag;
  }

  lemma SlotsFrom(s: State, a: Slot, b: Slot)
    requires Shaped(s) && TokenFrom(s.slots[0].published, a.published, s.serial, LagOf(s))
    requires TokenFrom(s.slots[1].published, b.published, s.serial, LagOf(s))
    ensures From(s, s.(slots := [a, b]))
  {
  }

  lemma MaterializeBothFrom(s: State, now: nat)
    requires Shaped(s)
    ensures From(s, MaterializeStartup(s, now))
  {
    MaterializeFrom(s, 0, now);
    MaterializeFrom(MaterializeOne(s, 0, now), 1, now);
    NothingFrom(s);
    hide MaterializeOne, From;
    FromTransitive(s, MaterializeOne(s, 0, now), MaterializeOne(MaterializeOne(s, 0, now), 1, now));
  }

  lemma UpkeepFrom(s: State, now: nat)
    requires Shaped(s)
    ensures From(s, s.(slots := [UpkeepSlot(s.slots[0], 0, now), UpkeepSlot(s.slots[1], 1, now)]))
  {
    SlotsFrom(s, UpkeepSlot(s.slots[0], 0, now), UpkeepSlot(s.slots[1], 1, now));
    hide From, Lag;
  }

  lemma MaintainFrom(s: State, now: nat)
    requires Shaped(s)
    ensures From(s, Maintain(s, now))
  {
    var s1 := Expire(s, now);
    var s2 := MaterializeStartup(s1, now);
    var s3 := Reveal(s2, now, OP_SIZE);
    ExpireFrom(s, now);
    MaterializeBothFrom(s1, now);
    RevealFrom(s2, now, OP_SIZE);
    UpkeepFrom(s3, now);
    hide MaterializeStartup, Reveal, Expire, From, UpkeepSlot;
    FromTransitive(s, s1, s2);
    FromTransitive(s, s2, s3);
    FromTransitive(s, s3, Maintain(s, now));
  }

  predicate Budgeted(e: Event) {
    e.event == NOTICE || e.event == END || e.event == REJECTED
  }

  /** A queue entry, or telemetry held by an operation or a rest domain, or published since. */
  ghost predicate Origin(s: State, r: Record)
    requires Shaped(s)
  {
    || (exists k :: 0 <= k < QUEUE_SIZE && s.queue[k] == r)
    || (!Budgeted(r.event)
        && (|| (r.token > s.serial && Lag(r.token, r.event.seqno) == LagOf(s))
            || (exists k :: 0 <= k < OP_SIZE && s.ops[k].latest == r)
            || s.slots[0].published == r || s.slots[1].published == r))
  }

  /** What the selector returns: a queue entry as it stands, or telemetry without a budget. */
  ghost predicate Picked(s: State, c: Choice)
    requires Shaped(s) && Shaped(c.state)
  {
    && From(s, c.state) && c.state.queue == s.queue && c.state.startup == s.startup && c.state.selected == s.selected
    && c.state.entropyFailed == s.entropyFailed && c.state.nonce == s.nonce
    && (c.record.Some? ==>
          c.record.value.valid && c.record.value.token <= c.state.serial && Origin(s, c.record.value))
  }

  lemma ChoosePicks(s: State, now: nat)
    requires Invariant(s)
    ensures Picked(s, Choose(s, now))
  {
    assert Shaped(s);
    hide Invariant, Picked, ChooseSlow, Progress, OldestFirst, BeatWithSlots;
    var power, first := OldestFirst(s.queue, true, QUEUE_SIZE), OldestFirst(s.queue, false, QUEUE_SIZE);
    if power.Some? {
      QueuedPicked(s, power.value, s.queueRr);
    } else if first.Some? {
      QueuedPicked(s, first.value, s.queueRr);
    } else {
      match BeatWithSlots(s, now, SLOT_COUNT)
      case OpBeat(i, _) =>
        if s.ops[i].candidate { ProgressPicked(s, i, s.opRr, now); } else { LatestPicked(s, i, s.opRr); }
      case SlotBeat(i, _) => PublishedPicked(s, i, s.slotRr);
      case NoBeat => ChooseSlowPicks(s, now);
    }
  }

  lemma QueuedPicked(s: State, i: nat, rr: nat)
    requires Invariant(s) && i < QUEUE_SIZE && s.queue[i].valid
    ensures Picked(s, Choice(s.(queueRr := rr), Some(s.queue[i])))
  {
    hide StartupOk, DistinctIds, OpOk, SlotOk;
    assert RecordOk(s.queue[i], s.nonce, s.serial);
  }

  lemma FreshSlotPicked(s: State, i: nat, now: nat, rr: nat)
    requires Shaped(s) && i < SLOT_COUNT
    ensures var x := s.slots[i]; var rec := Fresh(s, 0, TRACKER_REST + i, STATE, 0, x.phase, x.detail, now, 3);
            Picked(s, Choice(Stamp(s).(slots := s.slots[i := x.(published := rec, candidate := false)], slotRr := rr),
                             Some(rec)))
  {
  }

  lemma ChooseSlowPicks(s: State, now: nat)
    requires Invariant(s)
    ensures Picked(s, ChooseSlow(s, now))
  {
    if NextRepeat(s.queue, s.queueRr, 0).Some? {
      NextRepeatPicks(s, now);
    } else if NextSlot(s.slots, s.slotRr, false, now, 0).Some? {
      NewStatePicks(s, now);
    } else {
      ChooseProgressPicks(s, now);
    }
    hide Invariant, Picked, ChooseProgress, NextRepeat, NextSlot;
  }

  lemma NextRepeatPicks(s: State, now: nat)
    requires Invariant(s) && NextRepeat(s.queue, s.queueRr, 0).Some?
    ensures Picked(s, ChooseSlow(s, now))
  {
    assert Shaped(s);
    hide Invariant, Picked, NextRepeat;
    var i := NextRepeat(s.queue, s.queueRr, 0).value;
    QueuedPicked(s, i, (i + 1) % QUEUE_SIZE);
  }

  lemma NewStatePicks(s: State, now: nat)
    requires Shaped(s)
    requires NextRepeat(s.queue, s.queueRr, 0).None? && NextSlot(s.slots, s.slotRr, false, now, 0).Some?
    ensures Picked(s, ChooseSlow(s, now))
  {
    hide Picked, NextRepeat, NextSlot;
    var i := NextSlot(s.slots, s.slotRr, false, now, 0).value;
    FreshSlotPicked(s, i, now, (i + 1) % SLOT_COUNT);
  }

  lemma LatestPicked(s: State, i: nat, rr: nat)
    requires Invariant(s) && i < OP_SIZE && s.ops[i].latest.valid
    ensures Picked(s, Choice(s.(opRr := rr), Some(s.ops[i].latest)))
  {
    hide StartupOk, DistinctIds, QueueOk, SlotOk;
    assert OpOk(s.ops[i], s.nonce, s.serial);
  }

  lemma PublishedPicked(s: State, i: nat, rr: nat)
    requires Invariant(s) && i < SLOT_COUNT && s.slots[i].published.valid
    ensures Picked(s, Choice(s.(slotRr := rr), Some(s.slots[i].published)))
  {
    hide StartupOk, DistinctIds, QueueOk, OpOk;
    assert SlotOk(s.slots[i], i, s.nonce, s.serial);
  }

  lemma ProgressPicked(s: State, i: nat, rr: nat, now: nat)
    requires Shaped(s) && i < OP_SIZE
    ensures var p := Progress(s.(opRr := rr), i, now); Picked(s, Choice(p.0, Some(p.1)))
  {
    OpReplaceFrom(s.(opRr := rr), i, s.ops[i].(latest := Progress(s, i, now).1, candidate := false));
  }

  lemma ChooseProgressPicks(s: State, now: nat)
    requires Invariant(s)
    ensures Picked(s, ChooseProgress(s, now))
  {
    if NextProgress(s.ops, s.opRr, now, 0).Some? { OperationPicks(s, now); } else { RepeatPicks(s, now); }
    hide *;
  }

  lemma OperationPicks(s: State, now: nat)
    requires Invariant(s) && NextProgress(s.ops, s.opRr, now, 0).Some?
    ensures Picked(s, ChooseProgress(s, now))
  {
    assert Shaped(s);
    hide Invariant, Picked, Progress, NextProgress, OpWants;
    var i := NextProgress(s.ops, s.opRr, now, 0).value;
    WantingPicked(s, i, (i + 1) % OP_SIZE, now);
  }

  lemma RepeatPicks(s: State, now: nat)
    requires Invariant(s) && NextProgress(s.ops, s.opRr, now, 0).None?
    ensures Picked(s, ChooseProgress(s, now))
  {
    assert Shaped(s);
    hide Invariant, Picked, NextProgress, NextSlot;
    var slot := NextSlot(s.slots, s.slotRr, true, now, 0);
    if slot.Some? {
      PublishedPicked(s, slot.value, (slot.value + 1) % SLOT_COUNT);
    } else {
      NothingPicked(s);
    }
  }

  lemma WantingPicked(s: State, i: nat, rr: nat, now: nat)
    requires Invariant(s) && i < OP_SIZE && OpWants(s.ops[i], now)
    ensures var p := Progress(s.(opRr := rr), i, now);
            Picked(s, if ProgressDue(s.ops[i], now) then Choice(p.0, Some(p.1))
                      else Choice(s.(opRr := rr), Some(s.ops[i].latest)))
  {
    assert Shaped(s);
    hide Invariant, Picked, Progress;
    if ProgressDue(s.ops[i], now) { ProgressPicked(s, i, rr, now); } else { LatestPicked(s, i, rr); }
  }

  lemma NothingPicked(s: State)
    requires Shaped(s)
    ensures Picked(s, Choice(s, None))
  {
    hide Lag;
  }

  /** All steps except completion and identity start only add fresh records. */
  lemma NextFrom(s: State, t: Timed)
    requires Invariant(s) && !t.step.Completed? && !t.step.IdentityStarted?
    ensures From(s, Next(s, t))
    ensures !t.step.Selected? ==> Next(s, t).selected == s.selected
  {
    assert Shaped(s);
    hide Invariant, From;
    match t.step
    case Accept(_) => CalibrationFrom(s, t);
    case Begin(_, _, _) => CalibrationFrom(s, t);
    case Reject(_, _) => CalibrationFrom(s, t);
    case Resume(_, _, _) => ResumeFrom(s, t);
    case LatchReason(_, _) => LatchFrom(s, t);
    case Finish(_, _, _, _) => FinishFrom(s, t);
    case Advance(id, phase, detail) => StepFrom(s, id, phase, detail, t.now);
    case Observed(_, _, _) => ObservedFrom(s, t);
    case Invalidated(_) => InvalidatedFrom(s, t);
    case SensorFrame(_, _, _, _, _, _) => FrameFrom(s, t);
    case Notify(kind, phase, detail) => NoticeFrom(s, kind, phase, detail, t.now);
    case BootScheduled(_, _) => QuietFrom(s, t);
    case Selected(tracker) => SelectFrom(s, t.now, tracker);
    case DeadlineRead => MaintainFrom(s, t.now); MaintainFrame(s, t.now);
    case IdentityStopped => QuietFrom(s, t);
  }

  lemma QuietFrom(s: State, t: Timed)
    requires Shaped(s) && (t.step.BootScheduled? || t.step.IdentityStopped?)
    ensures From(s, Next(s, t)) && Next(s, t).selected == s.selected
  {
    hide Lag;
  }

  lemma RememberFrom(s: State, t: State, r: Record)
    requires From(s, t)
    ensures From(s, t.(selected := r))
  {
    hide Descends, TokenFrom, Lag;
  }

  lemma SelectFrom(s: State, now: nat, tracker: Byte)
    requires Invariant(s)
    ensures From(s, Select(s, now, tracker).0)
  {
    MaintainFrom(s, now);
    MaintainKeeps(s, now);
    ChoosePicks(Maintain(s, now), now);
    hide Maintain, Choose, Invariant, From;
    if tracker < MAX_TRACKERS {
      var c := Choose(Maintain(s, now), now);
      FromTransitive(s, Maintain(s, now), c.state);
      if c.record.Some? { RememberFrom(s, c.state, c.record.value); }
    }
  }

  /** A select remembers what it picked from the maintained state, and moves nothing else. */
  lemma SelectPicks(s: State, now: nat, tracker: Byte)
    requires Invariant(s)
    ensures var t, s1 := Select(s, now, tracker).0, Maintain(s, now);
            || t == s
            || (&& From(s1, t) && t.queue == s1.queue && t.startup == s1.startup
                && (|| t.selected == s.selected
                    || (&& t.selected.valid && t.selected.token <= t.serial && s.nonce != 0
                        && t.selected.event.nonce == s.nonce && Origin(s1, t.selected))))
  {
    MaintainKeeps(s, now);
    MaintainFrame(s, now);
    ChooseKeeps(Maintain(s, now), now);
    ChoosePicks(Maintain(s, now), now);
    var c := Choose(Maintain(s, now), now);
    if c.record.Some? { RememberFrom(Maintain(s, now), c.state, c.record.value); }
    hide Maintain, Choose, Invariant, From, Origin;
  }
}
