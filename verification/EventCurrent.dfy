/** Telemetry is current: what is sent about an operation or a rest domain is its latest state. */
module EventCurrent {
  import opened Integers
  import opened Wrappers
  import opened EventProtocol
  import opened EventState
  import opened EventInvariant
  import opened EventSteps
  import opened EventMeaning
  import opened EventEffects
  import opened EventRuns

  predicate Reports(r: Record, phase: Byte, detail: Byte) {
    r.event.phase == phase && r.event.detail == detail
  }

  /** Unless newer progress waits, the latest record reports the operation as it is; and while
      newer progress waits, no older progress is still to be sent for the first time. */
  predicate OpCurrent(op: Operation) {
    && (op.latest.valid && !op.candidate ==> Reports(op.latest, op.phase, op.detail))
    && (op.latest.valid && op.candidate ==> !(op.latest.event.event == STEP && op.latest.copies == 0))
  }

  predicate SlotCurrent(x: Slot) {
    x.published.valid && !x.candidate ==> Reports(x.published, x.phase, x.detail)
  }

  ghost predicate AllCurrent(s: State)
    requires Shaped(s)
  {
    && (forall k | 0 <= k < OP_SIZE :: OpCurrent(s.ops[k]))
    && SlotCurrent(s.slots[0]) && SlotCurrent(s.slots[1])
  }

  // -------------------------------------------------------------- every step

  lemma SameCurrent(s: State, t: State)
    requires Shaped(s) && Shaped(t) && AllCurrent(s) && t.ops == s.ops && t.slots == s.slots
    ensures AllCurrent(t)
  {
  }

  lemma OpUpdateCurrent(s: State, t: State, i: nat, op: Operation)
    requires Shaped(s) && Shaped(t) && AllCurrent(s) && i < OP_SIZE && OpCurrent(op)
    requires t.ops == s.ops[i := op] && t.slots == s.slots
    ensures AllCurrent(t)
  {
  }

  lemma SlotsCurrent(s: State, t: State)
    requires Shaped(s) && Shaped(t) && AllCurrent(s) && t.ops == s.ops
    requires SlotCurrent(t.slots[0]) && SlotCurrent(t.slots[1])
    ensures AllCurrent(t)
  {
  }

  lemma EnqueueRest(s: State, r: Record)
    requires Shaped(s)
    ensures Enqueue(s, r).ops == s.ops && Enqueue(s, r).slots == s.slots
  {
  }

  /** Publishing for an operation makes that record its latest: it must say what the operation is. */
  lemma PublishOpCurrent(s: State, i: nat, event: Byte, outcome: Byte, phase: Byte, detail: Byte, now: nat, limit: nat)
    requires Shaped(s) && AllCurrent(s) && i < OP_SIZE
    requires s.ops[i].active ==>
               event != STEP && (s.ops[i].candidate || (s.ops[i].phase == phase && s.ops[i].detail == detail))
    ensures AllCurrent(PublishOp(s, i, event, outcome, phase, detail, now, limit))
  {
    hide Enqueue;
    var op := s.ops[i];
    var r := Fresh(s, op.id, op.kind, event, outcome, phase, detail, now, limit);
    EnqueueRest(Stamp(s), r);
    OpUpdateCurrent(s, PublishOp(s, i, event, outcome, phase, detail, now, limit), i,
                    op.(latest := if op.active then r else op.latest, visible := true));
  }

  lemma AllocateCurrent(s: State, kind: Byte, now: nat)
    requires Shaped(s) && AllCurrent(s)
    ensures var a := Allocate(s, kind, now);
            a.Some? ==>
              var (s1, i) := a.value;
              AllCurrent(s1) && s1.ops[i] == NewOperation(s1.ops[i].id, kind, now)
  {
  }

  lemma CalibrationCurrent(s: State, t: Timed)
    requires Shaped(s) && AllCurrent(s) && (t.step.Accept? || t.step.Begin? || t.step.Reject?)
    ensures AllCurrent(Next(s, t))
  {
    AllocateCurrent(s, t.step.kind, t.now);
    hide PublishOp, Enqueue, Allocate;
    var a := Allocate(s, t.step.kind, t.now);
    if a.Some? {
      var (s1, i) := a.value;
      match t.step
      case Accept(kind) => PublishOpCurrent(s1, i, ACCEPTED, 0, 0, 0, t.now, 3);
      case Begin(kind, phase, detail) =>
        var op := s1.ops[i].(phase := phase, detail := detail, changed := t.now);
        var s2 := s1.(ops := s1.ops[i := op]);
        OpUpdateCurrent(s1, s2, i, op);
        PublishOpCurrent(s2, i, BEGIN, 0, phase, detail, t.now, 1);
      case Reject(kind, reason) =>
        var op := s1.ops[i].(active := false);
        var s2 := s1.(ops := s1.ops[i := op]);
        OpUpdateCurrent(s1, s2, i, op);
        PublishOpCurrent(s2, i, REJECTED, FAILED, 0, reason, t.now, 3);
    }
  }

  lemma LatchCurrent(s: State, t: Timed)
    requires Shaped(s) && AllCurrent(s) && t.step.LatchReason?
    ensures AllCurrent(Next(s, t))
  {
  }

  lemma FinishCurrent(s: State, t: Timed)
    requires Shaped(s) && AllCurrent(s) && t.step.Finish?
    ensures AllCurrent(Next(s, t))
  {
    hide PublishOp;
    if Find(s.ops, t.step.id).Some? {
      var i := Find(s.ops, t.step.id).value;
      var op := s.ops[i].(active := false, candidate := false, latest := s.ops[i].latest.(valid := false));
      var s1 := s.(ops := s.ops[i := op]);
      OpUpdateCurrent(s, s1, i, op);
      var Finish(_, outcome, phase, reason) := t.step;
      PublishOpCurrent(s1, i, END, outcome, phase,
                       if outcome == SUCCESS && reason == 0 then op.completionReason else reason, t.now, 3);
    }
  }

  /** Starting publishes directly: whatever waited before is replaced. */
  lemma ResumeCurrent(s: State, t: Timed)
    requires Shaped(s) && AllCurrent(s) && t.step.Resume?
    ensures AllCurrent(Next(s, t))
  {
    hide Enqueue;
    if Find(s.ops, t.step.id).Some? {
      var i := Find(s.ops, t.step.id).value;
      var op := s.ops[i].(phase := t.step.phase, detail := t.step.detail);
      var s1 := s.(ops := s.ops[i := op]);
      var r := Fresh(s1, op.id, op.kind, BEGIN, 0, t.step.phase, t.step.detail, t.now, 1);
      EnqueueRest(Stamp(s1), r);
      if op.active { OpUpdateCurrent(s, Next(s, t), i, op.(latest := r, visible := true)); }
    }
  }

  lemma AdvanceCurrent(s: State, t: Timed)
    requires Shaped(s) && AllCurrent(s) && t.step.Advance?
    ensures AllCurrent(Next(s, t))
  {
    if Find(s.ops, t.step.id).Some? {
      StepOpCurrent(s, Find(s.ops, t.step.id).value, t.step.phase, t.step.detail, t.now);
      hide StepOp;
    }
  }

  lemma StepOpCurrent(s: State, i: nat, phase: Byte, detail: Byte, now: nat)
    requires Shaped(s) && AllCurrent(s) && i < OP_SIZE
    ensures AllCurrent(StepOp(s, i, phase, detail, now))
  {
    hide Enqueue;
    var op := s.ops[i];
    var op1 := if phase == PHASE_RETRY then op.(retryValid := true, retryReason := detail, retryAt := now) else op;
    var s1 := s.(ops := s.ops[i := op1]);
    EnqueueRest(Stamp(s1), Fresh(s1, op.id, op.kind, STEP, 0, phase, detail, now, 3));
    var op2 := op1.(latest := Superseded(op.latest), phase := phase, detail := detail, changed := now,
                    candidate := true);
    var u := StepOp(s, i, phase, detail, now);
    assert u.slots == s.slots && (u.ops == s.ops[i := op1] || u.ops == s.ops[i := op2]);
    assert OpCurrent(op1) && OpCurrent(op2);
  }

  lemma SetSlotCurrent(x: Slot, phase: Byte, detail: Byte, now: nat)
    requires SlotCurrent(x)
    ensures var y := SetSlot(x, phase, detail, now); SlotCurrent(y) && y.phase == phase && y.detail == detail
  {
  }

  lemma SlotStepsCurrent(x: Slot, live: bool, seen: bool, rest: bool, backend: Byte, detail: Byte, now: nat)
    requires SlotCurrent(x)
    ensures SlotCurrent(InvalidateSlot(x, live, detail, now))
    ensures SlotCurrent(TrackerFrame(x, seen, rest, now)) && SlotCurrent(FusionFrame(x, seen, rest, backend, now))
  {
  }

  lemma ObservedCurrent(s: State, t: Timed)
    requires Shaped(s) && AllCurrent(s) && t.step.Observed?
    ensures AllCurrent(Next(s, t))
  {
    hide SetSlot, SlotCurrent, OpCurrent, Legal;
    var Observed(kind, phase, detail) := t.step;
    if kind == TRACKER_REST || kind == FUSION_REST {
      SetSlotCurrent(s.slots[kind - TRACKER_REST], phase, detail, t.now);
    }
    SlotsCurrent(s, Next(s, t));
  }

  lemma DomainsCurrent(s: State, t: Timed)
    requires Shaped(s) && AllCurrent(s) && (t.step.Invalidated? || t.step.SensorFrame?)
    ensures AllCurrent(Next(s, t))
  {
    hide InvalidateSlot, TrackerFrame, FusionFrame, SlotCurrent, OpCurrent;
    match t.step
    case Invalidated(reason) =>
      SlotStepsCurrent(s.slots[0], s.nonce != 0, false, false, 0, reason, t.now);
      SlotStepsCurrent(s.slots[1], s.nonce != 0, false, false, 0, s.slots[1].detail, t.now);
      SlotsCurrent(s, Next(s, t));
    case SensorFrame(_, trackerFresh, trackerRest, fusionFresh, fusionRest, backend) =>
      SlotStepsCurrent(s.slots[0], false, trackerFresh, trackerRest, 0, 0, t.now);
      SlotStepsCurrent(s.slots[1], false, fusionFresh, fusionRest, backend, 0, t.now);
      SlotsCurrent(s, Next(s, t));
  }

  lemma QuietCurrent(s: State, t: Timed)
    requires Shaped(s) && AllCurrent(s)
    requires t.step.Notify? || t.step.BootScheduled? || t.step.IdentityStopped?
    ensures AllCurrent(Next(s, t))
  {
    hide Victim, Legal;
    SameCurrent(s, Next(s, t));
  }

  lemma StartCurrent(s: State, t: Timed)
    requires Shaped(s) && t.step.IdentityStarted?
    ensures AllCurrent(Next(s, t))
  {
  }

  lemma {:induction false} RevealCurrent(s: State, now: nat, n: nat)
    requires Shaped(s) && AllCurrent(s) && n <= OP_SIZE
    ensures AllCurrent(Reveal(s, now, n))
  {
    if n == 0 {
    } else {
      RevealCurrent(s, now, n - 1);
      RevealOneCurrent(Reveal(s, now, n - 1), n - 1, now);
      hide RevealOne;
    }
  }

  lemma RevealOneCurrent(s: State, i: nat, now: nat)
    requires Shaped(s) && AllCurrent(s) && i < OP_SIZE
    ensures AllCurrent(RevealOne(s, i, now))
  {
    if RevealDue(s.ops[i], now) {
      hide Enqueue;
      var op := s.ops[i];
      var r := Fresh(s, op.id, op.kind, BEGIN, 0, op.phase, op.detail, now, 1);
      EnqueueRest(Stamp(s), r);
      OpUpdateCurrent(s, RevealOne(s, i, now), i, op.(latest := r, visible := true, candidate := false));
    }
  }

  lemma MaintainCurrent(s: State, now: nat)
    requires Shaped(s) && AllCurrent(s)
    ensures AllCurrent(Maintain(s, now))
  {
    hide MaterializeOne, Reveal, UpkeepSlot, AllCurrent;
    var s1 := Expire(s, now);
    MaterializeRest(s1, 0, now);
    MaterializeRest(MaterializeOne(s1, 0, now), 1, now);
    var s2 := MaterializeStartup(s1, now);
    SameCurrent(s, s2);
    RevealCurrent(s2, now, OP_SIZE);
    UpkeepCurrent(Reveal(s2, now, OP_SIZE), now);
  }

  lemma MaterializeRest(s: State, i: nat, now: nat)
    requires Shaped(s) && i < 2
    ensures MaterializeOne(s, i, now).ops == s.ops && MaterializeOne(s, i, now).slots == s.slots
  {
  }

  lemma UpkeepCurrent(s: State, now: nat)
    requires Shaped(s) && AllCurrent(s)
    ensures AllCurrent(s.(slots := [UpkeepSlot(s.slots[0], 0, now), UpkeepSlot(s.slots[1], 1, now)]))
  {
  }

  lemma ProgressCurrent(s: State, i: nat, now: nat)
    requires Shaped(s) && AllCurrent(s) && i < OP_SIZE
    ensures AllCurrent(Progress(s, i, now).0)
  {
    var (t, r) := Progress(s, i, now);
    OpUpdateCurrent(s, t, i, s.ops[i].(latest := r, candidate := false));
  }

  lemma CompleteCurrent(s: State, token: nat, success: bool, now: nat)
    requires Shaped(s) && AllCurrent(s)
    ensures AllCurrent(Complete(s, token, success, now))
  {
    hide CompleteQueue, AdmitStartup, Find, CompleteOp, CompleteSlot, OpCurrent, SlotCurrent;
    var u := Complete(s, token, success, now);
    forall k | 0 <= k < OP_SIZE ensures OpCurrent(u.ops[k]) {
      CompleteOpCurrent(s.ops[k], Find(s.ops, s.selected.event.operation) == Some(k), s.selected, now);
    }
    CompleteSlotCurrent(s.slots[0], 0, s.selected, now);
    CompleteSlotCurrent(s.slots[1], 1, s.selected, now);
  }

  lemma CompleteOpCurrent(op: Operation, sent: bool, selected: Record, now: nat)
    requires OpCurrent(op)
    ensures OpCurrent(CompleteOp(op, sent, selected, now))
  {
  }

  lemma CompleteSlotCurrent(x: Slot, domain: nat, selected: Record, now: nat)
    requires SlotCurrent(x)
    ensures SlotCurrent(CompleteSlot(x, domain, selected, now))
  {
  }

  // -------------------------------------------------------------- what is chosen

  /** A record of the queue, or one that reports its operation or its rest domain as it is. */
  ghost predicate TellsNow(s: State, r: Record)
    requires Shaped(s)
  {
    || (r in s.queue && r.valid)
    || (exists k :: 0 <= k < OP_SIZE && TellsOp(r, s.ops[k]))
    || (exists k :: 0 <= k < SLOT_COUNT && TellsSlot(r, s.slots[k], k))
  }

  predicate TellsOp(r: Record, op: Operation) {
    Reports(r, op.phase, op.detail) && r.event.operation == op.id != 0 && r.event.event != STATE
  }

  predicate TellsSlot(r: Record, x: Slot, domain: nat) {
    Reports(r, x.phase, x.detail) && r.event.kind == TRACKER_REST + domain && r.event.event == STATE
  }

  ghost predicate ChoiceCurrent(s: State, c: Choice)
    requires Shaped(s) && Shaped(c.state)
  {
    AllCurrent(c.state) && (c.record.Some? ==> TellsNow(s, c.record.value))
  }

  lemma QueuedTells(s: State, i: nat, rr: nat)
    requires Shaped(s) && AllCurrent(s) && i < QUEUE_SIZE && s.queue[i].valid
    ensures ChoiceCurrent(s, Choice(s.(queueRr := rr), Some(s.queue[i])))
    ensures ChoiceCurrent(s, Choice(s, Some(s.queue[i])))
  {
    hide OpCurrent, SlotCurrent, TellsOp, TellsSlot;
  }

  lemma ProgressTells(s: State, i: nat, rr: nat, now: nat)
    requires Shaped(s) && AllCurrent(s) && i < OP_SIZE && s.ops[i].id != 0
    ensures var p := Progress(s.(opRr := rr), i, now); ChoiceCurrent(s, Choice(p.0, Some(p.1)))
    ensures var p := Progress(s, i, now); ChoiceCurrent(s, Choice(p.0, Some(p.1)))
  {
    ProgressCurrent(s, i, now);
    ProgressCurrent(s.(opRr := rr), i, now);
    hide AllCurrent;
    assert TellsOp(Progress(s, i, now).1, s.ops[i]);
    assert TellsOp(Progress(s.(opRr := rr), i, now).1, s.ops[i]);
  }

  lemma LatestTells(s: State, i: nat, rr: nat)
    requires Invariant(s) && AllCurrent(s) && i < OP_SIZE && s.ops[i].latest.valid
    requires !s.ops[i].candidate || ProgressStalled(s.ops[i])
    ensures ChoiceCurrent(s, Choice(s.(opRr := rr), Some(s.ops[i].latest)))
    ensures ChoiceCurrent(s, Choice(s, Some(s.ops[i].latest)))
  {
    hide StartupOk, DistinctIds, QueueOk, SlotOk, RecordOk;
    assert OpOk(s.ops[i], s.nonce, s.serial) && OpCurrent(s.ops[i]);
    assert TellsOp(s.ops[i].latest, s.ops[i]);
  }

  lemma PublishedTells(s: State, i: nat, rr: nat)
    requires Invariant(s) && AllCurrent(s) && i < SLOT_COUNT
    requires s.slots[i].published.valid && !s.slots[i].candidate
    ensures ChoiceCurrent(s, Choice(s.(slotRr := rr), Some(s.slots[i].published)))
    ensures ChoiceCurrent(s, Choice(s, Some(s.slots[i].published)))
  {
    hide StartupOk, DistinctIds, QueueOk, OpOk;
    assert SlotOk(s.slots[i], i, s.nonce, s.serial);
    assert TellsSlot(s.slots[i].published, s.slots[i], i);
  }

  lemma FreshSlotTells(s: State, i: nat, rr: nat, now: nat)
    requires Shaped(s) && AllCurrent(s) && i < SLOT_COUNT
    ensures var x := s.slots[i]; var r := Fresh(s, 0, TRACKER_REST + i, STATE, 0, x.phase, x.detail, now, 3);
            ChoiceCurrent(s, Choice(Stamp(s).(slots := s.slots[i := x.(published := r, candidate := false)],
                                              slotRr := rr), Some(r)))
  {
    var x := s.slots[i];
    var r := Fresh(s, 0, TRACKER_REST + i, STATE, 0, x.phase, x.detail, now, 3);
    assert TellsSlot(r, x, i);
  }

  lemma ChooseProgressCurrent(s: State, now: nat)
    requires Invariant(s) && AllCurrent(s)
    ensures ChoiceCurrent(s, ChooseProgress(s, now))
  {
    assert Shaped(s);
    hide Invariant, AllCurrent, TellsNow, NextProgress, NextSlot, Progress;
    var step, slot := NextProgress(s.ops, s.opRr, now, 0), NextSlot(s.slots, s.slotRr, true, now, 0);
    if step.Some? {
      var i := step.value;
      if ProgressDue(s.ops[i], now) {
        ProgressTells(s, i, (i + 1) % OP_SIZE, now);
      } else {
        LatestTells(s, i, (i + 1) % OP_SIZE);
      }
    } else if slot.Some? {
      PublishedTells(s, slot.value, (slot.value + 1) % SLOT_COUNT);
    }
  }

  lemma ChooseSlowCurrent(s: State, now: nat)
    requires Invariant(s) && AllCurrent(s)
    ensures ChoiceCurrent(s, ChooseSlow(s, now))
  {
    assert Shaped(s);
    hide Invariant, AllCurrent, ChoiceCurrent, NextRepeat, NextSlot, ChooseProgress, Fresh, Stamp;
    var repeat, slot := NextRepeat(s.queue, s.queueRr, 0), NextSlot(s.slots, s.slotRr, false, now, 0);
    if repeat.Some? {
      QueuedTells(s, repeat.value, (repeat.value + 1) % QUEUE_SIZE);
    } else if slot.Some? {
      FreshSlotTells(s, slot.value, (slot.value + 1) % SLOT_COUNT, now);
    } else {
      ChooseProgressCurrent(s, now);
    }
  }

  lemma ChooseCurrent(s: State, now: nat)
    requires Invariant(s) && AllCurrent(s)
    ensures ChoiceCurrent(s, Choose(s, now))
  {
    assert Shaped(s);
    hide AllCurrent, ChoiceCurrent, OldestFirst, BeatWithSlots, ChooseSlow, Progress;
    var power, first := OldestFirst(s.queue, true, QUEUE_SIZE), OldestFirst(s.queue, false, QUEUE_SIZE);
    if power.Some? {
      QueuedTells(s, power.value, 0);
    } else if first.Some? {
      QueuedTells(s, first.value, 0);
    } else {
      match BeatWithSlots(s, now, SLOT_COUNT)
      case OpBeat(i, _) =>
        assert OpOk(s.ops[i], s.nonce, s.serial);
        if s.ops[i].candidate { ProgressTells(s, i, 0, now); } else { LatestTells(s, i, 0); }
      case SlotBeat(i, _) => PublishedTells(s, i, 0);
      case NoBeat => ChooseSlowCurrent(s, now);
    }
  }

  lemma SelectCurrent(s: State, now: nat, tracker: Byte)
    requires Invariant(s) && AllCurrent(s)
    ensures AllCurrent(Select(s, now, tracker).0)
    ensures var (t, sent) := Select(s, now, tracker); sent.Some? ==> TellsNow(Maintain(s, now), t.selected)
  {
    assert Shaped(s);
    hide Invariant, Maintain, Choose, AllCurrent, TellsNow;
    MaintainCurrent(s, now);
    MaintainKeeps(s, now);
    ChooseCurrent(Maintain(s, now), now);
    var c := Choose(Maintain(s, now), now);
    if c.record.Some? { SameCurrent(c.state, c.state.(selected := c.record.value)); }
  }

  lemma NextCurrent(s: State, t: Timed)
    requires Invariant(s) && AllCurrent(s)
    ensures AllCurrent(Next(s, t))
  {
    assert Shaped(s);
    hide AllCurrent, Invariant;
    match t.step
    case Accept(_) => CalibrationCurrent(s, t);
    case Begin(_, _, _) => CalibrationCurrent(s, t);
    case Reject(_, _) => CalibrationCurrent(s, t);
    case Resume(_, _, _) => ResumeCurrent(s, t);
    case LatchReason(_, _) => LatchCurrent(s, t);
    case Finish(_, _, _, _) => FinishCurrent(s, t);
    case Advance(_, _, _) => AdvanceCurrent(s, t);
    case Observed(_, _, _) => ObservedCurrent(s, t);
    case Invalidated(_) => DomainsCurrent(s, t);
    case SensorFrame(_, _, _, _, _, _) => DomainsCurrent(s, t);
    case Selected(tracker) => SelectCurrent(s, t.now, tracker);
    case Completed(token, success) => CompleteCurrent(s, token, success, t.now);
    case DeadlineRead => DeadlineCurrent(s, t.now);
    case IdentityStarted(_) => StartCurrent(s, t);
    case _ => QuietCurrent(s, t);
  }

  lemma DeadlineCurrent(s: State, now: nat)
    requires Shaped(s) && AllCurrent(s)
    ensures AllCurrent(AfterDeadline(s, now))
  {
    hide Maintain, AllCurrent;
    MaintainCurrent(s, now);
  }

  lemma {:induction false} ReachableCurrent(run: seq<Timed>)
    requires forall t <- run :: Legitimate(t)
    ensures AllCurrent(After(run))
  {
    if run == [] {
    } else {
      hide Next, Invariant;
      ReachableInvariant(run[..|run| - 1]);
      ReachableCurrent(run[..|run| - 1]);
      NextCurrent(After(run[..|run| - 1]), run[|run| - 1]);
    }
  }

  /** After every run: a packet that is not from the queue reports the present phase and detail of
      its operation or rest domain. */
  lemma TelemetryIsCurrent(run: seq<Timed>, now: nat, tracker: Byte)
    requires forall t <- run :: Legitimate(t)
    ensures var (t, sent) := Select(After(run), now, tracker);
            sent.Some? ==> TellsNow(Maintain(After(run), now), t.selected)
  {
    hide After, Select, TellsNow;
    ReachableInvariant(run);
    ReachableCurrent(run);
    SelectCurrent(After(run), now, tracker);
  }

  // ---------------------------------------------------- rest reports stay apart

  /** Rest reports never enter the queue. */
  ghost predicate NoStates(q: seq<Record>) {
    forall k | 0 <= k < |q| && q[k].valid :: q[k].event.event != STATE
  }

  lemma EnqueueNoStates(s: State, r: Record)
    requires Shaped(s) && NoStates(s.queue) && r.event.event != STATE
    ensures NoStates(Enqueue(s, r).queue)
  {
    hide Victim;
  }

  lemma {:induction false} RevealNoStates(s: State, now: nat, n: nat)
    requires Shaped(s) && NoStates(s.queue) && n <= OP_SIZE
    ensures NoStates(Reveal(s, now, n).queue)
  {
    if n == 0 {
    } else {
      hide Enqueue, NoStates;
      RevealNoStates(s, now, n - 1);
      var u := Reveal(s, now, n - 1);
      var op := u.ops[n - 1];
      EnqueueNoStates(Stamp(u), Fresh(u, op.id, op.kind, BEGIN, 0, op.phase, op.detail, now, 1));
    }
  }

  lemma MaterializeNoStates(s: State, i: nat, now: nat)
    requires Shaped(s) && NoStates(s.queue) && i < 2
    ensures NoStates(MaterializeOne(s, i, now).queue)
  {
    hide Enqueue, NoStates;
    var r := Fresh(s, 0, POWER, NOTICE, 0, if i == 1 then WATCHDOG_RESET else s.startup.phase, 0, now, 3);
    EnqueueNoStates(Stamp(s).(startup := s.startup.(tokens := s.startup.tokens[i := r.token])), r);
  }

  lemma MaintainNoStates(s: State, now: nat)
    requires Shaped(s) && NoStates(s.queue)
    ensures NoStates(Maintain(s, now).queue)
  {
    var s1 := Expire(s, now);
    assert NoStates(s1.queue);
    hide Expire, MaterializeOne, Reveal, UpkeepSlot, NoStates;
    MaterializeNoStates(s1, 0, now);
    MaterializeNoStates(MaterializeOne(s1, 0, now), 1, now);
    RevealNoStates(MaterializeStartup(s1, now), now, OP_SIZE);
  }

  lemma ChooseKeepsQueue(s: State, now: nat)
    requires Shaped(s)
    ensures Choose(s, now).state.queue == s.queue
  {
    hide OldestFirst, BeatWithSlots, NextRepeat, NextSlot, NextProgress;
  }

  lemma SenderNoStates(s: State, t: Timed)
    requires Shaped(s) && NoStates(s.queue) && (t.step.Selected? || t.step.DeadlineRead?)
    ensures NoStates(Next(s, t).queue)
  {
    hide Maintain, Choose, NoStates;
    MaintainNoStates(s, t.now);
    ChooseKeepsQueue(Maintain(s, t.now), t.now);
  }

  lemma CompleteNoStates(s: State, token: nat, success: bool, now: nat)
    requires Shaped(s) && NoStates(s.queue)
    ensures NoStates(Complete(s, token, success, now).queue)
  {
    hide CompleteOps, CompleteSlot, AdmitStartup, Find;
  }

  lemma CompletedNoStates(s: State, t: Timed)
    requires Shaped(s) && NoStates(s.queue) && t.step.Completed?
    ensures NoStates(Next(s, t).queue)
  {
    hide Complete, NoStates;
    CompleteNoStates(s, t.step.token, t.step.success, t.now);
  }

  lemma OtherNoStates(s: State, t: Timed)
    requires Shaped(s) && NoStates(s.queue)
    requires t.step.LatchReason? || t.step.Observed? || t.step.BootScheduled? || t.step.Invalidated?
             || t.step.SensorFrame? || t.step.IdentityStopped? || t.step.IdentityStarted?
    ensures NoStates(Next(s, t).queue)
  {
    hide SetSlot, Legal;
  }

  lemma ProducerNoStates(s: State, t: Timed)
    requires Shaped(s) && NoStates(s.queue)
    requires t.step.Accept? || t.step.Begin? || t.step.Reject? || t.step.Resume? || t.step.Finish?
             || t.step.Advance? || t.step.Notify?
    ensures NoStates(Next(s, t).queue)
  {
    hide Next;
    ProducersSay(s, t);
  }

  lemma {:induction false} ReachableNoStates(run: seq<Timed>)
    ensures NoStates(After(run).queue)
  {
    if run == [] {
    } else {
      hide Next, NoStates;
      var s, t := After(run[..|run| - 1]), run[|run| - 1];
      ReachableNoStates(run[..|run| - 1]);
      if t.step.Selected? || t.step.DeadlineRead? {
        SenderNoStates(s, t);
      } else if t.step.Completed? {
        CompletedNoStates(s, t);
      } else if t.step.Accept? || t.step.Begin? || t.step.Reject? || t.step.Resume? || t.step.Finish?
                || t.step.Advance? || t.step.Notify?
      {
        ProducerNoStates(s, t);
      } else {
        OtherNoStates(s, t);
      }
    }
  }

  // ----------------------------------------------------------- what frames mean

  /** A rest report selected less than a second after a frame says what that frame said. */
  lemma RestReportFollowsFrame(run: seq<Timed>, t: Timed, now: nat, tracker: Byte, domain: nat)
    requires forall x <- run + [t] :: Legitimate(x)
    requires t.step.SensorFrame? && After(run).nonce != 0 && t.step.epoch == After(run).epoch
    requires domain < 2 && now < t.now + SENSOR_FRESH_MS
    requires if domain == 0 then t.step.trackerFresh
             else t.step.fusionFresh && (t.step.backend == BACKEND_VQF || t.step.backend == BACKEND_EQF)
    ensures var (u, sent) := Select(After(run + [t]), now, tracker); var rest := if domain == 0 then t.step.trackerRest
                                                                                 else t.step.fusionRest;
            sent.Some? && u.selected.event.event == STATE && u.selected.event.kind == TRACKER_REST + domain ==>
              u.selected.event.phase == if rest then 1 else 0
  {
    hide After, Next, Select, Invariant;
    var all := run + [t];
    AfterPrefix(all, |run|);
    assert all[..|run|] == run && all[..|run| + 1] == all;
    FrameMeaning(After(run), t);
    var s := After(all);
    ReachableInvariant(all);
    TelemetryIsCurrent(all, now, tracker);
    FreshStays(s, domain, now);
    ReachableNoStates(all);
    MaintainNoStates(s, now);
    var (u, sent) := Select(s, now, tracker);
    if sent.Some? && u.selected.event.event == STATE && u.selected.event.kind == TRACKER_REST + domain {
      SlotTells(Maintain(s, now), u.selected, domain);
    }
  }

  lemma SlotTells(s: State, r: Record, domain: nat)
    requires Shaped(s) && NoStates(s.queue) && TellsNow(s, r) && domain < SLOT_COUNT
    requires r.event.event == STATE && r.event.kind == TRACKER_REST + domain
    ensures r.event.phase == s.slots[domain].phase
  {
  }

  /** Upkeep leaves a domain seen within the last second as it is. */
  lemma FreshStays(s: State, domain: nat, now: nat)
    requires Shaped(s) && domain < 2
    requires s.slots[domain].observed && now < s.slots[domain].lastObserved + SENSOR_FRESH_MS
    ensures Maintain(s, now).slots[domain].phase == s.slots[domain].phase
  {
    hide Reveal, MaterializeStartup, Expire;
    MaintainSlots(s, now);
  }

  lemma MaintainSlots(s: State, now: nat)
    requires Shaped(s)
    ensures Maintain(s, now).slots == [UpkeepSlot(s.slots[0], 0, now), UpkeepSlot(s.slots[1], 1, now)]
  {
    hide UpkeepSlot, MaterializeOne, Reveal;
    var s1 := Expire(s, now);
    MaterializeRest(s1, 0, now);
    MaterializeRest(MaterializeOne(s1, 0, now), 1, now);
    RevealFrame(MaterializeStartup(s1, now), now, OP_SIZE);
  }
}
