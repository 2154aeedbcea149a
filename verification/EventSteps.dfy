/** The locked sections as steps, and the invariant over all their interleavings. */
module EventSteps {
  import opened Integers
  import opened Wrappers
  import opened EventProtocol
  import opened EventState
  import opened EventInvariant

  datatype Step =
    | Accept(kind: Byte)
    | Begin(kind: Byte, phase: Byte, detail: Byte)
    | Resume(id: Word, phase: Byte, detail: Byte)
    | Advance(id: Word, phase: Byte, detail: Byte)
    | LatchReason(id: Word, reason: Byte)
    | Finish(id: Word, outcome: Byte, phase: Byte, reason: Byte)
    | Reject(kind: Byte, reason: Byte)
    | Observed(kind: Byte, phase: Byte, detail: Byte)
    | Notify(kind: Byte, phase: Byte, detail: Byte)
    | BootScheduled(wake: bool, watchdog: bool)
    | Invalidated(reason: Byte)
    | SensorFrame(epoch: nat, trackerFresh: bool, trackerRest: bool, fusionFresh: bool, fusionRest: bool, backend: Byte)
    | Selected(tracker: Byte)
    | Completed(token: nat, success: bool)
    | DeadlineRead
    | IdentityStopped
    | IdentityStarted(entropy: Long)

  datatype Timed = Timed(step: Step, now: nat)

  /** What callers promise: sensor invalidation names one of the five rest reasons. */
  predicate Legitimate(t: Timed) {
    t.step.Invalidated? ==> t.step.reason <= 4
  }

  function Next(s: State, t: Timed): (r: State)
    requires Shaped(s)
    ensures Shaped(r)
  {
    match t.step
    case Accept(kind) => CalAccept(s, kind, t.now).0
    case Begin(kind, phase, detail) => CalBegin(s, kind, phase, detail, t.now).0
    case Resume(id, phase, detail) => CalStart(s, id, phase, detail, t.now)
    case Advance(id, phase, detail) => CalStep(s, id, phase, detail, t.now)
    case LatchReason(id, reason) => SetCompletionReason(s, id, reason)
    case Finish(id, outcome, phase, reason) => CalEnd(s, id, outcome, phase, reason, t.now)
    case Reject(kind, reason) => CalReject(s, kind, reason, t.now)
    case Observed(kind, phase, detail) => SetState(s, kind, phase, detail, t.now)
    case Notify(kind, phase, detail) => Notice(s, kind, phase, detail, t.now)
    case BootScheduled(wake, watchdog) => ScheduleBoot(s, wake, watchdog, t.now)
    case Invalidated(reason) => SensorInvalidate(s, reason, t.now)
    case SensorFrame(epoch, tf, tr, ff, fr, backend) => ObserveSensor(s, epoch, tf, tr, ff, fr, backend, t.now)
    case Selected(tracker) => Select(s, t.now, tracker).0
    case Completed(token, success) => Complete(s, token, success, t.now)
    case DeadlineRead => AfterDeadline(s, t.now)
    case IdentityStopped => SessionStop(s)
    case IdentityStarted(entropy) => SessionStart(s, entropy)
  }

  /** The state after any interleaving of steps from power-up. */
  function After(run: seq<Timed>): (s: State)
    ensures Shaped(s)
  {
    if run == [] then Initial() else Next(After(run[..|run| - 1]), run[|run| - 1])
  }

  lemma AfterPrefix(run: seq<Timed>, n: nat)
    requires n < |run|
    ensures After(run[..n + 1]) == Next(After(run[..n]), run[n])
    ensures n == 0 ==> After(run[..n]) == Initial()
  {
    assert run[..n + 1][..n] == run[..n];
  }

  // ------------------------------------------------------- producers keep it

  lemma CalibrationKeeps(s: State, t: Timed)
    requires Invariant(s)
    requires t.step.Accept? || t.step.Begin? || t.step.Reject?
    ensures Invariant(Next(s, t))
  {
    hide QueueOk, StartupOk, SlotOk, PublishOp, Allocate, DistinctIds;
    var kind := t.step.kind;
    if Allocate(s, kind, t.now).Some? {
      AllocateKeeps(s, kind, t.now);
      var (s1, i) := Allocate(s, kind, t.now).value;
      match t.step {
        case Accept(_) =>
          PublishOpKeeps(s1, i, ACCEPTED, 0, 0, 0, t.now, 3);
        case Begin(_, phase, detail) =>
          var op := s1.ops[i].(phase := phase, detail := detail, changed := t.now);
          OpUpdateKeeps(s1, i, op);
          var s2 := s1.(ops := s1.ops[i := op]);
          if !HiddenOnline(op) { PublishOpKeeps(s2, i, BEGIN, 0, phase, detail, t.now, 1); }
        case Reject(_, reason) =>
          OpUpdateKeeps(s1, i, s1.ops[i].(active := false));
          var s2 := s1.(ops := s1.ops[i := s1.ops[i].(active := false)]);
          PublishOpKeeps(s2, i, REJECTED, FAILED, 0, reason, t.now, 3);
      }
    }
  }

  lemma OperationKeeps(s: State, t: Timed)
    requires Invariant(s)
    requires t.step.Resume? || t.step.LatchReason? || t.step.Finish?
    ensures Invariant(Next(s, t))
  {
    hide QueueOk, StartupOk, SlotOk, PublishOp, DistinctIds;
    if Find(s.ops, t.step.id).Some? {
      var i := Find(s.ops, t.step.id).value;
      var op := s.ops[i];
      match t.step {
        case Resume(_, phase, detail) =>
          if op.active {
            OpUpdateKeeps(s, i, op.(phase := phase, detail := detail));
            PublishOpKeeps(s.(ops := s.ops[i := op.(phase := phase, detail := detail)]), i,
                           BEGIN, 0, phase, detail, t.now, 1);
          }
        case LatchReason(_, reason) =>
          OpUpdateKeeps(s, i, op.(completionReason := reason));
        case Finish(_, outcome, phase, reason) =>
          var op1 := op.(active := false, candidate := false, latest := op.latest.(valid := false));
          OpUpdateKeeps(s, i, op1);
          var s1 := s.(ops := s.ops[i := op1]);
          if op.active && SUCCESS <= outcome <= SKIPPED && !(HiddenOnline(op) && outcome != SUCCESS) {
            PublishOpKeeps(s1, i, END, outcome, phase,
                           if outcome == SUCCESS && reason == 0 then op.completionReason else reason, t.now, 3);
          }
      }
    }
  }

  lemma StepKeeps(s: State, id: Word, phase: Byte, detail: Byte, now: nat)
    requires Invariant(s)
    ensures Invariant(CalStep(s, id, phase, detail, now))
  {
    if Find(s.ops, id).Some? {
      var i := Find(s.ops, id).value;
      var op := s.ops[i];
      var op1 := if phase == PHASE_RETRY then op.(retryValid := true, retryReason := detail, retryAt := now) else op;
      OpUpdateKeeps(s, i, op1);
      var s1 := s.(ops := s.ops[i := op1]);
      if phase == PHASE_STORAGE && detail == REASON_STORAGE_ERROR {
        PublishKeeps(s1, Fresh(s1, id, op.kind, STEP, 0, phase, detail, now, 3));
      } else {
        OpUpdateKeeps(s1, i, op1.(latest := Superseded(op.latest), phase := phase, detail := detail,
                                  changed := now, candidate := true));
      }
    }
  }

  lemma SetSlotKeeps(x: Slot, domain: nat, phase: Byte, detail: Byte, now: nat, nonce: Long, serial: nat)
    requires SlotOk(x, domain, nonce, serial) && RestPair(domain, phase, detail)
    ensures SlotOk(SetSlot(x, phase, detail, now), domain, nonce, serial)
  {
  }

  lemma ObserveKeeps(x: Slot, domain: nat, phase: Byte, detail: Byte, now: nat, nonce: Long, serial: nat)
    requires SlotOk(x, domain, nonce, serial) && RestPair(domain, phase, detail)
    ensures SlotOk(Observe(x, phase, detail, now), domain, nonce, serial)
    ensures SlotOk(SetSlot(x.(observed := false), phase, detail, now), domain, nonce, serial)
    ensures SlotOk(InvalidateSlot(x, true, detail, now), domain, nonce, serial)
                || !RestPair(domain, REST_UNKNOWN, detail)
    ensures SlotOk(InvalidateSlot(x, false, detail, now), domain, nonce, serial)
  {
    hide Legal;
  }

  /** The rest domains depend on nothing else and nothing else on them. */
  lemma SlotsUpdateKeeps(s: State, a: Slot, b: Slot, epoch: nat)
    requires Invariant(s) && SlotOk(a, 0, s.nonce, s.serial) && SlotOk(b, 1, s.nonce, s.serial)
    ensures Invariant(s.(slots := [a, b], epoch := epoch))
  {
    hide SlotOk, StartupOk, QueueOk, OpOk, DistinctIds;
  }

  lemma InvalidateKeeps(s: State, reason: Byte, now: nat)
    requires Invariant(s) && reason <= 4
    ensures Invariant(SensorInvalidate(s, reason, now))
  {
    var a, b := s.slots[0], s.slots[1];
    ObserveKeeps(a, 0, REST_UNKNOWN, reason, now, s.nonce, s.serial);
    ObserveKeeps(b, 1, REST_UNKNOWN, b.detail, now, s.nonce, s.serial);
    hide SlotOk, Invariant, InvalidateSlot;
    SlotsUpdateKeeps(s, InvalidateSlot(a, s.nonce != 0, reason, now), InvalidateSlot(b, s.nonce != 0, b.detail, now),
                     s.epoch + 1);
  }

  lemma TrackerFrameKeeps(x: Slot, seen: bool, rest: bool, now: nat, nonce: Long, serial: nat)
    requires SlotOk(x, 0, nonce, serial)
    ensures SlotOk(TrackerFrame(x, seen, rest, now), 0, nonce, serial)
  {
    hide SlotOk, Observe;
    ObserveKeeps(x, 0, if rest then 1 else 0, 0, now, nonce, serial);
  }

  lemma FusionFrameKeeps(x: Slot, seen: bool, rest: bool, backend: Byte, now: nat, nonce: Long, serial: nat)
    requires SlotOk(x, 1, nonce, serial)
    ensures SlotOk(FusionFrame(x, seen, rest, backend, now), 1, nonce, serial)
  {
    hide SlotOk, Observe, SetSlot;
    ObserveKeeps(x, 1, FUSION_UNAVAILABLE, 0, now, nonce, serial);
    if backend == BACKEND_VQF || backend == BACKEND_EQF {
      ObserveKeeps(x, 1, if rest then 1 else 0, backend, now, nonce, serial);
    }
  }

  lemma SensorFrameKeeps(s: State, epoch: nat, tf: bool, tr: bool, ff: bool, fr: bool, backend: Byte, now: nat)
    requires Invariant(s)
    ensures Invariant(ObserveSensor(s, epoch, tf, tr, ff, fr, backend, now))
  {
    hide SlotOk, TrackerFrame, FusionFrame, QueueOk, StartupOk, OpOk, DistinctIds;
    TrackerFrameKeeps(s.slots[0], tf, tr, now, s.nonce, s.serial);
    FusionFrameKeeps(s.slots[1], ff, fr, backend, now, s.nonce, s.serial);
  }

  lemma SetStateKeeps(s: State, kind: Byte, phase: Byte, detail: Byte, now: nat)
    requires Invariant(s)
    ensures Invariant(SetState(s, kind, phase, detail, now))
  {
    var a, b := s.slots[0], s.slots[1];
    if kind == TRACKER_REST && RestPair(0, phase, detail) {
      SetSlotKeeps(a, 0, phase, detail, now, s.nonce, s.serial);
      SlotsUpdateKeeps(s, SetSlot(a, phase, detail, now), b, s.epoch);
    }
    if kind == FUSION_REST && RestPair(1, phase, detail) {
      SetSlotKeeps(b, 1, phase, detail, now, s.nonce, s.serial);
      SlotsUpdateKeeps(s, a, SetSlot(b, phase, detail, now), s.epoch);
    }
    hide SlotOk, SetSlot, Invariant;
  }

  lemma NoticeKeeps(s: State, kind: Byte, phase: Byte, detail: Byte, now: nat)
    requires Invariant(s)
    ensures Invariant(Notice(s, kind, phase, detail, now))
  {
    if Valid(Event(s.nonce, 0, 0, 0, kind, NOTICE, 0, phase, detail)) {
      var s1 := if kind == POWER && (phase == WILL_SHUTDOWN || phase == WILL_REBOOT)
                then s.(startup := s.startup.(retired := true, pending := [false, false])) else s;
      assert Invariant(s1);
      var s2 := if kind == POWER && phase == WOM_CANCELLED then s1.(queue := CancelWom(s1.queue)) else s1;
      CancelKeeps(s1);
      PublishKeeps(s2, Fresh(s2, 0, kind, NOTICE, 0, phase, detail, now, 3));
    }
  }

  /** Cancelling WOM withdraws WOM intents only, never a startup observation. */
  lemma CancelKeeps(s: State)
    requires Invariant(s)
    ensures Invariant(s.(queue := CancelWom(s.queue)))
  {
    var q := CancelWom(s.queue);
    forall i | 0 <= i < 2 && s.startup.pending[i] && s.startup.tokens[i] != 0
      ensures Held(q, s.startup, i)
    {
      var k :| 0 <= k < QUEUE_SIZE && Holds(s.queue[k], s.startup, i);
      assert Holds(q[k], s.startup, i);
    }
  }

  // ----------------------------------------------------------- upkeep keeps it

  lemma ExpireKeeps(s: State, now: nat)
    requires Invariant(s)
    ensures Invariant(Expire(s, now))
  {
    StartupStays(s.startup, s.queue, ExpireQueue(s.queue, s.startup, now), s.serial, s.serial);
  }

  lemma MaterializeKeeps(s: State, i: nat, now: nat)
    requires Invariant(s) && i < 2 && s.startup.scheduled
    ensures Invariant(MaterializeOne(s, i, now))
  {
    assert s.startup.phase == BOOT || s.startup.phase == WAKE;
    hide StartupOk, QueueOk, Enqueue, OpOk, SlotOk, DistinctIds;
    if Unmaterialized(s.startup, i) {
      var phase := if i == 1 then WATCHDOG_RESET else s.startup.phase;
      var r := Fresh(s, 0, POWER, NOTICE, 0, phase, 0, now, 3);
      var u := s.startup.(tokens := s.startup.tokens[i := r.token]);
      var s1 := Stamp(s).(startup := u);
      QueueOkLater(s.queue, s.nonce, s.serial, s1.serial);
      EnqueueKeeps(s1, r);
      var t := Enqueue(s1, r);
      assert t == MaterializeOne(s, i, now);
      assert Legal(r.event);
      BothHeld(s.startup, u, s.queue, t.queue, r, i, s.serial);
      RestUnaffected(s, t);
    }
  }

  /** Operations and rest slots do not depend on the queue. */
  lemma RestUnaffected(s: State, t: State)
    requires Invariant(s) && Shaped(t)
    requires t == s.(queue := t.queue, startup := t.startup, serial := t.serial, sequence := t.sequence)
    requires t.serial >= s.serial && QueueOk(t.queue, t.nonce, t.serial) && StartupOk(t.startup, t.queue, t.serial)
    ensures Invariant(t)
  {
    hide Legal, QueueOk, StartupOk;
  }

  /** The new observation is in the queue and the other one has not moved. */
  lemma BothHeld(u: Startup, v: Startup, q: seq<Record>, t: seq<Record>, r: Record, i: nat, serial: nat)
    requires StartupOk(u, q, serial) && |q| == |t| && i < 2 && u.scheduled
    requires v == u.(tokens := u.tokens[i := serial + 1]) && Holds(r, v, i)
    requires exists k :: 0 <= k < |t| && t[k] == r
    requires forall k | 0 <= k < |q| && q[k].valid && StartupPending(v, q[k]) :: t[k] == q[k]
    ensures StartupOk(v, t, serial + 1)
  {
    assert Held(t, v, i);
    var j := 1 - i;
    if v.pending[j] && v.tokens[j] != 0 {
      var h :| 0 <= h < |q| && Holds(q[h], u, j);
      assert Holds(t[h], v, j);
    }
  }

  lemma RevealOneKeeps(s: State, i: nat, now: nat)
    requires Invariant(s) && i < OP_SIZE
    ensures Invariant(RevealOne(s, i, now))
  {
    if RevealDue(s.ops[i], now) {
      PublishOpKeeps(s, i, BEGIN, 0, s.ops[i].phase, s.ops[i].detail, now, 1);
      var s1 := PublishOp(s, i, BEGIN, 0, s.ops[i].phase, s.ops[i].detail, now, 1);
      OpUpdateKeeps(s1, i, s1.ops[i].(candidate := false));
    }
  }

  lemma {:induction false} RevealKeeps(s: State, now: nat, n: nat)
    requires Invariant(s) && n <= OP_SIZE
    ensures Invariant(Reveal(s, now, n))
  {
    if n == 0 {
    } else {
      RevealKeeps(s, now, n - 1);
      RevealOneKeeps(Reveal(s, now, n - 1), n - 1, now);
    }
  }

  lemma MaintainKeeps(s: State, now: nat)
    requires Invariant(s)
    ensures Invariant(Maintain(s, now))
  {
    ExpireKeeps(s, now);
    var s1 := Expire(s, now);
    if s1.nonce != 0 && s1.startup.scheduled && s1.startup.at <= now {
      MaterializeKeeps(s1, 0, now);
      MaterializeKeeps(MaterializeOne(s1, 0, now), 1, now);
    }
    var s2 := MaterializeStartup(s1, now);
    RevealKeeps(s2, now, OP_SIZE);
    var s3 := Reveal(s2, now, OP_SIZE);
    UpkeepSlotKeeps(s3.slots[0], 0, now, s3.nonce, s3.serial);
    UpkeepSlotKeeps(s3.slots[1], 1, now, s3.nonce, s3.serial);
    assert Maintain(s, now) == s3.(slots := Maintain(s, now).slots);
  }

  lemma UpkeepSlotKeeps(x: Slot, domain: nat, now: nat, nonce: Long, serial: nat)
    requires SlotOk(x, domain, nonce, serial) && domain < 2
    ensures SlotOk(UpkeepSlot(x, domain, now), domain, nonce, serial)
  {
  }

  // ----------------------------------------------- selection and completion

  lemma ProgressKeeps(s: State, i: nat, now: nat)
    requires Invariant(s) && i < OP_SIZE && s.ops[i].id != 0 && !HiddenOnline(s.ops[i])
    ensures Invariant(Progress(s, i, now).0)
    ensures var r := Progress(s, i, now).1;
            r.valid && RecordOk(r, s.nonce, s.serial + 1) && r.copies < r.limit
  {
    var r := Progress(s, i, now).1;
    assert Invariant(Stamp(s));
    OpUpdateKeeps(Stamp(s), i, s.ops[i].(latest := r, candidate := false));
  }

  /** A chosen record is live, legal and of the current identity. */
  ghost predicate ChoiceOk(s: State, c: Choice) {
    && Invariant(c.state)
    && c.state.nonce == s.nonce
    && (c.record.Some? ==> c.record.value.valid && RecordOk(c.record.value, s.nonce, c.state.serial))
  }

  lemma ChooseKeeps(s: State, now: nat)
    requires Invariant(s)
    ensures ChoiceOk(s, Choose(s, now))
  {
    if OldestFirst(s.queue, true, QUEUE_SIZE).None? && OldestFirst(s.queue, false, QUEUE_SIZE).None? {
      match BeatWithSlots(s, now, SLOT_COUNT)
      case OpBeat(i, _) => if s.ops[i].candidate { ProgressKeeps(s, i, now); }
      case SlotBeat(i, _) =>
      case NoBeat => ChooseSlowKeeps(s, now);
    }
  }

  lemma ChooseSlowKeeps(s: State, now: nat)
    requires Invariant(s)
    ensures ChoiceOk(s, ChooseSlow(s, now))
  {
    assert Shaped(s);
    hide Invariant, ChoiceOk, ChooseProgress, NextRepeat, NextSlot, Fresh, Stamp;
    var repeat, slot := NextRepeat(s.queue, s.queueRr, 0), NextSlot(s.slots, s.slotRr, false, now, 0);
    if repeat.Some? {
      QueuedOk(s, repeat.value, (repeat.value + 1) % QUEUE_SIZE);
    } else if slot.Some? {
      FreshSlotOk(s, slot.value, now);
    } else {
      ChooseProgressKeeps(s, now);
    }
  }

  lemma QueuedOk(s: State, i: nat, rr: nat)
    requires Invariant(s) && i < QUEUE_SIZE && s.queue[i].valid
    ensures ChoiceOk(s, Choice(s.(queueRr := rr), Some(s.queue[i])))
  {
    hide StartupOk, DistinctIds, OpOk, SlotOk;
    assert RecordOk(s.queue[i], s.nonce, s.serial);
  }

  lemma PublishSlotKeeps(s: State, i: nat, now: nat)
    requires Invariant(s) && i < SLOT_COUNT
    ensures var x := s.slots[i];
            var r := Fresh(s, 0, TRACKER_REST + i, STATE, 0, x.phase, x.detail, now, 3);
            && RecordOk(r, s.nonce, s.serial + 1)
            && Invariant(Stamp(s).(slots := s.slots[i := x.(published := r, candidate := false)],
                                   slotRr := (i + 1) % SLOT_COUNT))
  {
  }

  lemma FreshSlotOk(s: State, i: nat, now: nat)
    requires Invariant(s) && i < SLOT_COUNT
    ensures var x := s.slots[i]; var r := Fresh(s, 0, TRACKER_REST + i, STATE, 0, x.phase, x.detail, now, 3);
            ChoiceOk(s, Choice(Stamp(s).(slots := s.slots[i := x.(published := r, candidate := false)],
                                         slotRr := (i + 1) % SLOT_COUNT), Some(r)))
  {
    PublishSlotKeeps(s, i, now);
    hide Invariant, RecordOk;
  }

  lemma LatestOk(s: State, i: nat, rr: nat)
    requires Invariant(s) && i < OP_SIZE && s.ops[i].latest.valid
    ensures ChoiceOk(s, Choice(s.(opRr := rr), Some(s.ops[i].latest)))
  {
    hide StartupOk, DistinctIds, QueueOk, SlotOk;
    assert OpOk(s.ops[i], s.nonce, s.serial);
  }

  lemma PublishedOk(s: State, i: nat, rr: nat)
    requires Invariant(s) && i < SLOT_COUNT && s.slots[i].published.valid
    ensures ChoiceOk(s, Choice(s.(slotRr := rr), Some(s.slots[i].published)))
  {
    hide StartupOk, DistinctIds, QueueOk, OpOk;
    assert SlotOk(s.slots[i], i, s.nonce, s.serial);
  }

  lemma ProgressOk(s: State, i: nat, rr: nat, now: nat)
    requires Invariant(s) && i < OP_SIZE && s.ops[i].id != 0 && !HiddenOnline(s.ops[i])
    ensures var p := Progress(s.(opRr := rr), i, now); ChoiceOk(s, Choice(p.0, Some(p.1)))
  {
    assert Invariant(s.(opRr := rr)) by { hide StartupOk, DistinctIds, QueueOk, SlotOk, OpOk; }
    ProgressKeeps(s.(opRr := rr), i, now);
    hide Invariant, RecordOk;
  }

  lemma NothingOk(s: State)
    requires Invariant(s)
    ensures ChoiceOk(s, Choice(s, None))
  {
    hide Invariant;
  }

  lemma ChooseProgressKeeps(s: State, now: nat)
    requires Invariant(s)
    ensures ChoiceOk(s, ChooseProgress(s, now))
  {
    assert Shaped(s);
    NothingOk(s);
    hide Invariant, ChoiceOk, Progress, NextProgress, NextSlot;
    match NextProgress(s.ops, s.opRr, now, 0)
    case Some(i) =>
      if ProgressDue(s.ops[i], now) {
        ProgressOk(s, i, (i + 1) % OP_SIZE, now);
      } else {
        LatestOk(s, i, (i + 1) % OP_SIZE);
      }
    case None =>
      match NextSlot(s.slots, s.slotRr, true, now, 0)
      case Some(i) => PublishedOk(s, i, (i + 1) % SLOT_COUNT);
      case None =>
  }

  /** Whatever the sender picks encodes: the packet is never refused by the wire format. */
  lemma SelectKeeps(s: State, now: nat, tracker: Byte)
    requires Invariant(s)
    ensures var (t, sent) := Select(s, now, tracker);
            && Invariant(t)
            && t.entropyFailed == s.entropyFailed && t.nonce == s.nonce
            && (tracker < MAX_TRACKERS && Maintain(s, now).nonce != 0 && GateOpen(Maintain(s, now), now)
                && Choose(Maintain(s, now), now).record.Some?
                ==> sent.Some? && Decode(sent.value.packet) == Some(t.selected.event.(tracker := tracker))
                    && t.selected.valid && t.selected.token == sent.value.token
                    && t.selected.event.nonce == s.nonce)
  {
    if tracker < MAX_TRACKERS {
      MaintainKeeps(s, now);
      MaintainFrame(s, now);
      var s1 := Maintain(s, now);
      if s1.nonce != 0 && GateOpen(s1, now) {
        ChooseKeeps(s1, now);
        var c := Choose(s1, now);
        if c.record.Some? {
          DecodeEncode(c.record.value.event.(tracker := tracker));
        }
      }
    }
  }

  /** Upkeep leaves the identity, the gate and the selection alone. */
  lemma MaintainFrame(s: State, now: nat)
    requires Shaped(s)
    ensures var t := Maintain(s, now);
            && t.nonce == s.nonce && t.entropyFailed == s.entropyFailed && t.selected == s.selected
            && t.sendGate == s.sendGate && t.nextSend == s.nextSend
            && t.startup == s.startup.(tokens := t.startup.tokens) && t.serial >= s.serial
  {
    hide Reveal, UpkeepSlot, Enqueue, MaterializeOne;
    var s1 := Expire(s, now);
    MaterializeFrame(s1, 0, now);
    MaterializeFrame(MaterializeOne(s1, 0, now), 1, now);
    RevealFrame(MaterializeStartup(Expire(s, now), now), now, OP_SIZE);
  }

  lemma MaterializeFrame(s: State, i: nat, now: nat)
    requires Shaped(s) && i < 2
    ensures var t := MaterializeOne(s, i, now);
            && t.nonce == s.nonce && t.entropyFailed == s.entropyFailed && t.selected == s.selected
            && t.sendGate == s.sendGate && t.nextSend == s.nextSend
            && t.startup == s.startup.(tokens := t.startup.tokens) && t.serial >= s.serial
  {
  }

  lemma {:induction false} RevealFrame(s: State, now: nat, n: nat)
    requires Shaped(s) && n <= OP_SIZE
    ensures var t := Reveal(s, now, n);
            && t.nonce == s.nonce && t.entropyFailed == s.entropyFailed && t.selected == s.selected
            && t.sendGate == s.sendGate && t.nextSend == s.nextSend && t.startup == s.startup && t.slots == s.slots
            && t.serial >= s.serial
  {
    if n == 0 {
    } else {
      RevealFrame(s, now, n - 1);
    }
  }

  lemma CompleteStartupKeeps(u: Startup, q: seq<Record>, token: nat, admitted: bool, now: nat, serial: nat)
    requires StartupOk(u, q, serial)
    ensures StartupOk(AdmitStartup(u, token), CompleteQueue(q, token, admitted, now), serial)
  {
    var t, v := CompleteQueue(q, token, admitted, now), AdmitStartup(u, token);
    forall i | 0 <= i < 2 && v.pending[i] && v.tokens[i] != 0
      ensures Held(t, v, i)
    {
      var k :| 0 <= k < |q| && Holds(q[k], u, i);
      assert Holds(t[k], v, i);
    }
  }

  lemma CompleteQueueKeeps(q: seq<Record>, token: nat, admitted: bool, now: nat, nonce: Long, serial: nat)
    requires QueueOk(q, nonce, serial)
    ensures QueueOk(CompleteQueue(q, token, admitted, now), nonce, serial)
  {
  }

  lemma CompleteOpKeeps(op: Operation, sent: bool, selected: Record, now: nat, nonce: Long, serial: nat)
    requires OpOk(op, nonce, serial)
    ensures OpOk(CompleteOp(op, sent, selected, now), nonce, serial)
    ensures CompleteOp(op, sent, selected, now).id == op.id
  {
    hide Legal, IsCalibration;
  }

  lemma CompleteSlotKeeps(x: Slot, domain: nat, selected: Record, now: nat, nonce: Long, serial: nat)
    requires SlotOk(x, domain, nonce, serial) && domain < 2
    ensures SlotOk(CompleteSlot(x, domain, selected, now), domain, nonce, serial)
  {
  }

  lemma AdmitKeeps(s: State, sent: Record, now: nat)
    requires Invariant(s)
    ensures Invariant(Admit(s, sent, now))
  {
    hide StartupOk, QueueOk, OpOk, SlotOk, CompleteOp, CompleteSlot, CompleteQueue, CompleteOps, AdmitStartup;
    var token := sent.token;
    var admitted := s.startup.tokens[0] == token || s.startup.tokens[1] == token;
    CompleteStartupKeeps(s.startup, s.queue, token, admitted, now, s.serial);
    CompleteQueueKeeps(s.queue, token, admitted, now, s.nonce, s.serial);
    CompleteOpsKeep(s, sent, now);
    CompleteSlotKeeps(s.slots[0], 0, sent, now, s.nonce, s.serial);
    CompleteSlotKeeps(s.slots[1], 1, sent, now, s.nonce, s.serial);
    var t := Admit(s, sent, now);
    assert QueueOk(t.queue, t.nonce, t.serial);
    assert StartupOk(t.startup, t.queue, t.serial);
    assert SlotOk(t.slots[0], 0, t.nonce, t.serial);
    assert SlotOk(t.slots[1], 1, t.nonce, t.serial);
    assert DistinctIds(t.ops);
    assert forall i | 0 <= i < OP_SIZE :: OpOk(t.ops[i], t.nonce, t.serial);
  }

  lemma CompleteOpsKeep(s: State, sent: Record, now: nat)
    requires Invariant(s)
    ensures var ops := CompleteOps(s.ops, Find(s.ops, sent.event.operation), sent, now);
            && (forall i | 0 <= i < OP_SIZE :: OpOk(ops[i], s.nonce, s.serial))
            && DistinctIds(ops)
  {
    forall i | 0 <= i < OP_SIZE
      ensures var op := CompleteOp(s.ops[i], Find(s.ops, sent.event.operation) == Some(i), sent, now);
              OpOk(op, s.nonce, s.serial) && op.id == s.ops[i].id
    {
      CompleteOpKeeps(s.ops[i], Find(s.ops, sent.event.operation) == Some(i), sent, now, s.nonce, s.serial);
    }
    hide OpOk, CompleteOp, StartupOk, QueueOk, SlotOk;
  }

  lemma CompleteKeeps(s: State, token: nat, success: bool, now: nat)
    requires Invariant(s)
    ensures Invariant(Complete(s, token, success, now))
  {
    hide StartupOk, QueueOk, OpOk, SlotOk, Admit;
    var gated := s.(sendGate := true, nextSend := now + if success then SPACING_MS else RETRY_MS);
    assert Invariant(gated);
    AdmitKeeps(gated, s.selected, now);
  }

  lemma StopKeeps(s: State, t: Timed)
    requires Invariant(s) && t.step.IdentityStopped?
    ensures Invariant(Next(s, t))
  {
  }

  lemma StartKeeps(s: State, t: Timed)
    requires Invariant(s) && t.step.IdentityStarted?
    ensures Invariant(Next(s, t))
  {
  }

  lemma BootKeeps(s: State, t: Timed)
    requires Invariant(s) && t.step.BootScheduled?
    ensures Invariant(Next(s, t))
  {
  }

  lemma DeadlineReadKeeps(s: State, now: nat)
    requires Invariant(s)
    ensures Invariant(AfterDeadline(s, now))
  {
    MaintainKeeps(s, now);
    hide Invariant, Maintain;
  }

  lemma NextKeeps(s: State, t: Timed)
    requires Invariant(s) && Legitimate(t)
    ensures Invariant(Next(s, t))
  {
    hide Invariant, Legal, CalAccept, CalBegin, CalStart, CalStep, SetCompletionReason, CalEnd, CalReject, SetState,
         Notice, ScheduleBoot, SensorInvalidate, ObserveSensor, Select, Complete, AfterDeadline, SessionStop,
         SessionStart;
    match t.step
    case Accept(_) => CalibrationKeeps(s, t);
    case Begin(_, _, _) => CalibrationKeeps(s, t);
    case Reject(_, _) => CalibrationKeeps(s, t);
    case Resume(_, _, _) => OperationKeeps(s, t);
    case Advance(id, phase, detail) => StepKeeps(s, id, phase, detail, t.now);
    case LatchReason(_, _) => OperationKeeps(s, t);
    case Finish(_, _, _, _) => OperationKeeps(s, t);
    case Observed(kind, phase, detail) => SetStateKeeps(s, kind, phase, detail, t.now);
    case Invalidated(reason) => InvalidateKeeps(s, reason, t.now);
    case SensorFrame(epoch, tf, tr, ff, fr, backend) => SensorFrameKeeps(s, epoch, tf, tr, ff, fr, backend, t.now);
    case Notify(kind, phase, detail) => NoticeKeeps(s, kind, phase, detail, t.now);
    case BootScheduled(_, _) => BootKeeps(s, t);
    case Selected(tracker) => SelectKeeps(s, t.now, tracker);
    case Completed(token, success) => CompleteKeeps(s, token, success, t.now);
    case DeadlineRead => DeadlineReadKeeps(s, t.now);
    case IdentityStopped => StopKeeps(s, t);
    case IdentityStarted(_) => StartKeeps(s, t);
  }

  /** The invariant holds in every reachable state. */
  lemma {:induction false} ReachableInvariant(run: seq<Timed>)
    requires forall t <- run :: Legitimate(t)
    ensures Invariant(After(run))
  {
    if run == [] {
    } else {
      ReachableInvariant(run[..|run| - 1]);
      NextKeeps(After(run[..|run| - 1]), run[|run| - 1]);
    }
  }
}
