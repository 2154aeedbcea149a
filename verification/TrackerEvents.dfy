/** The event queue as the firmware runs it: fixed buffers updated in place under one lock.
    Every method is one locked section and realises the like-named function of EventState. */
module TrackerEvents {
  import opened Integers
  import opened Wrappers
  import opened EventProtocol
  import opened EventState
  import opened EventInvariant
  import opened EventSteps

  function DeadlineAdd(best: Option<nat>, value: nat, now: nat): Option<nat> {
    var v := if value <= now then now else value;
    if best.None? || v < best.value then Some(v) else best
  }

  lemma EarliestAdd(seen: set<nat>, now: nat, best: Option<nat>, value: nat)
    requires Earliest(seen, now, best)
    ensures Earliest(seen + {value}, now, DeadlineAdd(best, value, now))
  {
    var b := DeadlineAdd(best, value, now);
    if b.value == Max(value, now) {
      assert value in seen + {value};
    } else {
      var t :| t in seen && best.value == Max(t, now);
      assert t in seen + {value};
    }
  }

  class Events {
    const queue: array<Record>
    const operations: array<Operation>
    const states: array<Slot>
    var startup: Startup
    var nonce: Long
    var serial: nat
    var epoch: nat
    var nextSend: nat
    var sequence: Word
    var nextOperation: Word
    var queueRr: nat
    var opRr: nat
    var stateRr: nat
    var sendGate: bool
    var entropyFailed: bool
    var selected: Record

    ghost predicate Valid()
      reads this
    {
      && queue.Length == QUEUE_SIZE && operations.Length == OP_SIZE && states.Length == SLOT_COUNT
      && |startup.tokens| == 2 && |startup.pending| == 2
    }

    ghost function View(): (s: State)
      requires Valid()
      reads this, queue, operations, states
      ensures Shaped(s)
    {
      State(queue[..], operations[..], states[..], startup, nonce, serial, epoch, nextSend, sequence,
            nextOperation, queueRr, opRr, stateRr, sendGate, entropyFailed, selected)
    }

    constructor ()
      ensures Valid() && View() == Initial()
      ensures fresh(queue) && fresh(operations) && fresh(states)
    {
      queue := new Record[QUEUE_SIZE](_ => NO_RECORD);
      operations := new Operation[OP_SIZE](_ => NO_OPERATION);
      states := new Slot[SLOT_COUNT](_ => NO_SLOT);
      startup := Startup(0, [0, 0], 0, false, false, [false, false]);
      nonce, serial, epoch, nextSend, sequence, nextOperation := 0, 0, 1, 0, 0, 0;
      queueRr, opRr, stateRr, sendGate, entropyFailed, selected := 0, 0, 0, false, false, NO_RECORD;
    }

    // ----------------------------------------------------------- publication

    method Materialize(op: Word, kind: Byte, event: Byte, outcome: Byte, phase: Byte, detail: Byte,
                       now: nat, limit: nat) returns (r: Record)
      requires Valid()
      modifies this
      ensures Valid() && View() == Stamp(old(View()))
      ensures r == Fresh(old(View()), op, kind, event, outcome, phase, detail, now, limit)
    {
      var e := Event(nonce, sequence, op, 0, kind, event, outcome, phase, detail);
      r := Record(e, serial + 1, now, 0, 0, limit, true);
      sequence := if sequence == 0xFFFF then 0 else sequence + 1;
      serial := serial + 1;
    }

    method Push(r: Record)
      requires Valid()
      modifies queue
      ensures Valid() && View() == Enqueue(old(View()), r)
    {
      var victim, i, found := 0, 0, false;
      while i < QUEUE_SIZE
        invariant 0 <= i <= QUEUE_SIZE && victim < QUEUE_SIZE && !found
        invariant Victim(queue[..], startup, 0, 0) == Victim(queue[..], startup, i, victim)
        invariant forall k | 0 <= k < i :: queue[k].valid
        invariant i == 0 ==> victim == 0
        invariant i > 0 ==> victim < i
      {
        if !queue[i].valid {
          victim, found := i, true;
          break;
        }
        if !StartupPending(startup, queue[i]) && BetterVictim(startup, queue[i], queue[victim]) {
          victim := i;
        }
        i := i + 1;
      }
      assert victim == Victim(queue[..], startup, 0, 0);
      if !found && queue[victim].event.kind == POWER && r.event.kind != POWER {
        return;
      }
      queue[victim] := r;
    }

    method Lookup(id: Word) returns (found: Option<nat>)
      requires Valid()
      ensures found == Find(operations[..], id)
    {
      if id == 0 {
        return None;
      }
      var i := 0;
      while i < OP_SIZE
        invariant 0 <= i <= OP_SIZE
        invariant Find(operations[..], id) == Find(operations[..], id, i)
      {
        if operations[i].id == id {
          return Some(i);
        }
        i := i + 1;
      }
      return None;
    }

    method OperationVictim() returns (victim: nat)
      requires Valid()
      ensures victim == OpVictim(operations[..], 0, 0)
    {
      victim := 0;
      var i := 0;
      while i < OP_SIZE
        invariant 0 <= i <= OP_SIZE && victim < OP_SIZE
        invariant OpVictim(operations[..], 0, 0) == OpVictim(operations[..], i, victim)
      {
        if operations[i].id == 0 {
          return i;
        }
        if (!operations[i].active && operations[victim].active)
           || (operations[i].active == operations[victim].active && operations[i].born < operations[victim].born) {
          victim := i;
        }
        i := i + 1;
      }
    }

    /** Step the id counter past zero and past every id still in the table. */
    method AdvanceId()
      requires Valid()
      modifies this`nextOperation
      ensures Valid()
      ensures View() == old(View()).(nextOperation := FreshId(Ids(old(View()).ops, OP_SIZE), old(nextOperation)))
    {
      hide Searching, Ids, FreshId;
      ghost var start, all, k := nextOperation, Ids(operations[..], OP_SIZE), 1;
      ghost var rest := all;
      SearchStarts(all, start);
      nextOperation := if nextOperation == 0xFFFF then 1 else nextOperation + 1;
      var found := Lookup(nextOperation);
      while found.Some?
        invariant Valid() && nextOperation != 0 && Searching(all, start, rest, k, nextOperation)
        invariant found == Find(operations[..], nextOperation)
        invariant View() == old(View()).(nextOperation := nextOperation)
        decreases |rest|
      {
        SearchContinues(all, start, rest, k, nextOperation);
        rest, k := rest - {nextOperation}, k + 1;
        nextOperation := if nextOperation == 0xFFFF then 1 else nextOperation + 1;
        found := Lookup(nextOperation);
      }
      SearchEnds(all, start, rest, k, nextOperation);
    }

    method AllocateOperation(kind: Byte, now: nat) returns (slot: Option<nat>)
      requires Valid()
      modifies this`nextOperation, operations
      ensures Valid()
      ensures match Allocate(old(View()), kind, now)
              case None => slot == None && View() == old(View())
              case Some((s, i)) => slot == Some(i) && View() == s
    {
      if nonce == 0 || !IsCalibration(kind) {
        return None;
      }
      hide Ids, FreshId, OpVictim, NewOperation;
      var victim := OperationVictim();
      AdvanceId();
      operations[victim] := NewOperation(nextOperation, kind, now);
      return Some(victim);
    }

    method PublishOperation(i: nat, event: Byte, outcome: Byte, phase: Byte, detail: Byte, now: nat, limit: nat)
      requires Valid() && i < OP_SIZE
      modifies this, queue, operations
      ensures Valid() && View() == PublishOp(old(View()), i, event, outcome, phase, detail, now, limit)
    {
      var r := Materialize(operations[i].id, operations[i].kind, event, outcome, phase, detail, now, limit);
      Push(r);
      if operations[i].active {
        operations[i] := operations[i].(latest := r);
      }
      operations[i] := operations[i].(visible := true);
    }

    // --------------------------------------------------------------- producers

    method CalEventAccept(kind: Byte, now: nat) returns (id: Word)
      requires Valid()
      modifies this, queue, operations
      ensures Valid() && (View(), id) == CalAccept(old(View()), kind, now)
    {
      var slot := AllocateOperation(kind, now);
      if slot.None? {
        return 0;
      }
      id := operations[slot.value].id;
      PublishOperation(slot.value, ACCEPTED, 0, 0, 0, now, 3);
    }

    method CalEventBegin(kind: Byte, phase: Byte, detail: Byte, now: nat) returns (id: Word)
      requires Valid()
      modifies this, queue, operations
      ensures Valid() && (View(), id) == CalBegin(old(View()), kind, phase, detail, now)
    {
      var slot := AllocateOperation(kind, now);
      if slot.None? {
        return 0;
      }
      var i := slot.value;
      id := operations[i].id;
      operations[i] := operations[i].(phase := phase, detail := detail, changed := now);
      if !HiddenOnline(operations[i]) {
        PublishOperation(i, BEGIN, 0, phase, detail, now, 1);
      }
    }

    method CalEventStart(id: Word, phase: Byte, detail: Byte, now: nat)
      requires Valid()
      modifies this, queue, operations
      ensures Valid() && View() == CalStart(old(View()), id, phase, detail, now)
    {
      var found := Lookup(id);
      if found.Some? && operations[found.value].active {
        var i := found.value;
        operations[i] := operations[i].(phase := phase, detail := detail);
        PublishOperation(i, BEGIN, 0, phase, detail, now, 1);
      }
    }

    method CalEventStep(id: Word, phase: Byte, detail: Byte, now: nat)
      requires Valid()
      modifies this, queue, operations
      ensures Valid() && View() == CalStep(old(View()), id, phase, detail, now)
    {
      hide StepOp;
      var found := Lookup(id);
      if found.None? || (!operations[found.value].active && phase != PHASE_STORAGE) {
        return;
      }
      var i := found.value;
      if phase == PHASE_RETRY && operations[i].retryValid && operations[i].retryReason == detail
         && now < operations[i].retryAt + 1000 {
        return;
      }
      RecordProgress(i, phase, detail, now);
    }

    /** Progress of the i-th operation: a storage error is queued, anything else coalesced. */
    method RecordProgress(i: nat, phase: Byte, detail: Byte, now: nat)
      requires Valid() && i < OP_SIZE
      modifies this, queue, operations
      ensures Valid() && View() == StepOp(old(View()), i, phase, detail, now)
    {
      var op := operations[i];
      if phase == PHASE_RETRY {
        op := op.(retryValid := true, retryReason := detail, retryAt := now);
        operations[i] := op;
      }
      if phase == PHASE_STORAGE && detail == REASON_STORAGE_ERROR {
        var r := Materialize(op.id, op.kind, STEP, 0, phase, detail, now, 3);
        Push(r);
      } else if op.phase != phase || op.detail != detail {
        operations[i] := op.(latest := Superseded(op.latest), phase := phase, detail := detail,
                             changed := now, candidate := true);
      }
    }

    method CalEventSetCompletionReason(id: Word, reason: Byte)
      requires Valid()
      modifies operations
      ensures Valid() && View() == SetCompletionReason(old(View()), id, reason)
    {
      var found := Lookup(id);
      if found.Some? && operations[found.value].active {
        operations[found.value] := operations[found.value].(completionReason := reason);
      }
    }

    method CalEventEnd(id: Word, outcome: Byte, phase: Byte, reason: Byte, now: nat)
      requires Valid()
      modifies this, queue, operations
      ensures Valid() && View() == CalEnd(old(View()), id, outcome, phase, reason, now)
    {
      var found := Lookup(id);
      if found.Some? && operations[found.value].active && SUCCESS <= outcome <= SKIPPED {
        var i := found.value;
        var suppress := HiddenOnline(operations[i]) && outcome != SUCCESS;
        operations[i] := operations[i].(active := false, candidate := false,
                                        latest := operations[i].latest.(valid := false));
        var why := if outcome == SUCCESS && reason == 0 then operations[i].completionReason else reason;
        if !suppress {
          PublishOperation(i, END, outcome, phase, why, now, 3);
        }
      }
    }

    method CalEventReject(kind: Byte, reason: Byte, now: nat)
      requires Valid()
      modifies this, queue, operations
      ensures Valid() && View() == CalReject(old(View()), kind, reason, now)
    {
      var slot := AllocateOperation(kind, now);
      if slot.Some? {
        operations[slot.value] := operations[slot.value].(active := false);
        PublishOperation(slot.value, REJECTED, FAILED, 0, reason, now, 3);
      }
    }

    method SetStateSlot(i: nat, phase: Byte, detail: Byte, now: nat)
      requires Valid() && i < SLOT_COUNT
      modifies states
      ensures states[..] == old(states[..])[i := SetSlot(old(states[i]), phase, detail, now)]
    {
      var x := states[i];
      if x.candidate && x.phase == phase && x.detail == detail {
        return;
      }
      if x.published.valid && x.published.event.phase == phase && x.published.event.detail == detail {
        states[i] := x.(candidate := false, phase := phase, detail := detail);
        return;
      }
      x := x.(phase := phase, detail := detail, changed := now, candidate := true);
      states[i] := x.(published := x.published.(copies := x.published.limit));
    }

    method TrackerEventSetState(kind: Byte, phase: Byte, detail: Byte, now: nat)
      requires Valid()
      modifies states
      ensures Valid() && View() == SetState(old(View()), kind, phase, detail, now)
    {
      if kind != TRACKER_REST && kind != FUSION_REST {
        return;
      }
      if EventProtocol.Valid(Event(nonce, 0, 0, 0, kind, STATE, 0, phase, detail)) {
        SetStateSlot(kind - TRACKER_REST, phase, detail, now);
      }
    }

    method TrackerEventNotice(kind: Byte, phase: Byte, detail: Byte, now: nat)
      requires Valid()
      modifies this, queue
      ensures Valid() && View() == Notice(old(View()), kind, phase, detail, now)
    {
      if !EventProtocol.Valid(Event(nonce, 0, 0, 0, kind, NOTICE, 0, phase, detail)) {
        return;
      }
      if kind == POWER && (phase == WILL_SHUTDOWN || phase == WILL_REBOOT) {
        startup := startup.(retired := true, pending := [false, false]);
      }
      if kind == POWER && phase == WOM_CANCELLED {
        WithdrawWom();
      }
      var r := Materialize(0, kind, NOTICE, 0, phase, detail, now, 3);
      Push(r);
    }

    method WithdrawWom()
      requires Valid()
      modifies queue
      ensures Valid() && View() == old(View()).(queue := CancelWom(old(View()).queue))
    {
      for i := 0 to QUEUE_SIZE
        invariant forall k | 0 <= k < i :: queue[k] == CancelWom(old(queue[..]))[k]
        invariant forall k | i <= k < QUEUE_SIZE :: queue[k] == old(queue[k])
      {
        if WillWom(queue[i]) {
          queue[i] := queue[i].(valid := false);
        }
      }
      assert queue[..] == CancelWom(old(queue[..]));
    }

    method TrackerEventsScheduleBoot(wake: bool, watchdogReset: bool, now: nat)
      requires Valid()
      modifies this`startup
      ensures Valid() && View() == ScheduleBoot(old(View()), wake, watchdogReset, now)
    {
      if !startup.scheduled && !startup.retired && !entropyFailed {
        startup := startup.(scheduled := true, at := now + BOOT_DELAY_MS, phase := if wake then WAKE else BOOT,
                            pending := [true, watchdogReset]);
      }
    }

    method TrackerEventsSensorInvalidate(reason: Byte, now: nat)
      requires Valid()
      modifies this`epoch, states
      ensures Valid() && View() == SensorInvalidate(old(View()), reason, now)
    {
      epoch := epoch + 1;
      for i := 0 to SLOT_COUNT
        invariant Valid()
        invariant epoch == old(epoch) + 1 && View() == old(View()).(epoch := epoch, slots := states[..])
        invariant states[0] == if i > 0 then InvalidateSlot(old(states[0]), nonce != 0, reason, now) else old(states[0])
        invariant states[1] == if i > 1 then InvalidateSlot(old(states[1]), nonce != 0, old(states[1]).detail, now)
                               else old(states[1])
      {
        var was := states[i].published;
        states[i] := states[i].(observed := false, published := was.(valid := false), candidate := false);
        if nonce != 0 {
          SetStateSlot(i, REST_UNKNOWN, if i == 1 then states[i].detail else reason, now);
        }
      }
      assert states[..] == [states[0], states[1]];
    }

    method TrackerEventsObserveSensor(frameEpoch: nat, trackerFresh: bool, trackerRest: bool,
                                      fusionFresh: bool, fusionRest: bool, backend: Byte, now: nat)
      requires Valid()
      modifies states
      ensures Valid()
      ensures View() == ObserveSensor(old(View()), frameEpoch, trackerFresh, trackerRest, fusionFresh, fusionRest,
                                      backend, now)
    {
      hide SetSlot;
      if nonce == 0 || frameEpoch != epoch {
        return;
      }
      if trackerFresh {
        states[0] := states[0].(observed := true, lastObserved := now);
        SetStateSlot(0, if trackerRest then 1 else 0, 0, now);
      }
      ObserveFusion(fusionFresh, fusionRest, backend, now);
      assert states[..] == [states[0], states[1]];
    }

    method ObserveFusion(seen: bool, rest: bool, backend: Byte, now: nat)
      requires Valid()
      modifies states
      ensures states[0] == old(states[0]) && states[1] == FusionFrame(old(states[1]), seen, rest, backend, now)
    {
      hide SetSlot;
      if backend != BACKEND_VQF && backend != BACKEND_EQF {
        states[1] := states[1].(observed := false);
        SetStateSlot(1, FUSION_UNAVAILABLE, 0, now);
      } else if seen {
        states[1] := states[1].(observed := true, lastObserved := now);
        SetStateSlot(1, if rest then 1 else 0, backend, now);
      }
    }

    // ------------------------------------------------------------------ upkeep

    method ExpireRecords(now: nat)
      requires Valid()
      modifies queue
      ensures Valid() && View() == Expire(old(View()), now)
    {
      ghost var expired := ExpireQueue(queue[..], startup, now);
      for i := 0 to QUEUE_SIZE
        invariant forall k | 0 <= k < i :: queue[k] == expired[k]
        invariant forall k | i <= k < QUEUE_SIZE :: queue[k] == old(queue[k])
      {
        if queue[i].valid && !StartupPending(startup, queue[i]) && queue[i].born + TTL_MS <= now {
          queue[i] := queue[i].(valid := false);
        }
      }
      assert queue[..] == expired;
    }

    method MaterializeBoot(now: nat)
      requires Valid()
      modifies this, queue
      ensures Valid() && View() == MaterializeStartup(old(View()), now)
    {
      if nonce == 0 || !startup.scheduled || now < startup.at {
        return;
      }
      ghost var s0 := View();
      for i := 0 to 2
        invariant Valid()
        invariant View() == if i == 0 then s0 else if i == 1 then MaterializeOne(s0, 0, now)
                            else MaterializeOne(MaterializeOne(s0, 0, now), 1, now)
      {
        if startup.pending[i] && startup.tokens[i] == 0 {
          var r := Materialize(0, POWER, NOTICE, 0, if i == 1 then WATCHDOG_RESET else startup.phase, 0, now, 3);
          startup := startup.(tokens := startup.tokens[i := r.token]);
          Push(r);
        }
      }
    }

    method RevealHidden(now: nat)
      requires Valid()
      modifies this, queue, operations
      ensures Valid() && View() == Reveal(old(View()), now, OP_SIZE)
    {
      ghost var s0 := View();
      for i := 0 to OP_SIZE
        invariant Valid() && View() == Reveal(s0, now, i)
      {
        if operations[i].active && HiddenOnline(operations[i]) && operations[i].born + HIDDEN_MS <= now {
          PublishOperation(i, BEGIN, 0, operations[i].phase, operations[i].detail, now, 1);
          operations[i] := operations[i].(candidate := false);
        }
      }
    }

    method RefreshStates(now: nat)
      requires Valid()
      modifies states
      ensures Valid()
      ensures View() == old(View()).(slots := [UpkeepSlot(old(states[0]), 0, now), UpkeepSlot(old(states[1]), 1, now)])
    {
      hide UpkeepSlot;
      for i := 0 to SLOT_COUNT
        invariant Valid()
        invariant View() == old(View()).(slots := states[..])
        invariant states[0] == if i > 0 then UpkeepSlot(old(states[0]), 0, now) else old(states[0])
        invariant states[1] == if i > 1 then UpkeepSlot(old(states[1]), 1, now) else old(states[1])
      {
        RefreshState(i, now);
      }
      assert states[..] == [states[0], states[1]];
    }

    method RefreshState(i: nat, now: nat)
      requires Valid() && i < SLOT_COUNT
      modifies states
      ensures states[..] == old(states[..])[i := UpkeepSlot(old(states[i]), i, now)]
    {
      hide SetSlot;
      if states[i].observed && states[i].lastObserved + SENSOR_FRESH_MS <= now {
        states[i] := states[i].(observed := false);
        SetStateSlot(i, REST_UNKNOWN, if i == 1 then states[i].detail else NO_FRESH_FRAME, now);
      }
      var r := states[i].published;
      if r.valid && r.copies < r.limit && r.born + TTL_MS <= now {
        states[i] := states[i].(published := r.(copies := r.limit));
      }
    }

    method Upkeep(now: nat)
      requires Valid()
      modifies this, queue, operations, states
      ensures Valid() && View() == Maintain(old(View()), now)
    {
      ExpireRecords(now);
      MaterializeBoot(now);
      RevealHidden(now);
      RefreshStates(now);
    }

    // --------------------------------------------------------------- selection

    method OldestFirstRecord(power: bool) returns (best: Option<nat>)
      requires Valid()
      ensures best == OldestFirst(queue[..], power, QUEUE_SIZE)
    {
      best := None;
      for i := 0 to QUEUE_SIZE
        invariant best == OldestFirst(queue[..], power, i)
      {
        var r := queue[i];
        if r.valid && (if power then r.event.kind == POWER else r.copies == 0) {
          if best.None? || Before(r, queue[best.value], power) {
            best := Some(i);
          }
        }
      }
    }

    method DueBeat(now: nat) returns (beat: Beat)
      requires Valid()
      ensures beat == BeatWithSlots(View(), now, SLOT_COUNT)
    {
      var best: Option<nat> := None;
      for i := 0 to OP_SIZE
        invariant best == OldestOpBeat(operations[..], now, i)
      {
        if OpBeatDue(operations[i], now)
           && (best.None? || operations[i].heartbeat < operations[best.value].heartbeat) {
          best := Some(i);
        }
      }
      beat := if best.None? then NoBeat else OpBeat(best.value, operations[best.value].heartbeat);
      for i := 0 to SLOT_COUNT
        invariant beat == BeatWithSlots(View(), now, i)
      {
        var at := states[i].published.sent + REST_HEARTBEAT_MS;
        if SlotBeatDue(states[i], now) && (beat.NoBeat? || at < beat.at) {
          beat := SlotBeat(i, at);
        }
      }
    }

    method NextQueueRepeat() returns (found: Option<nat>)
      requires Valid()
      ensures found == NextRepeat(queue[..], queueRr, 0)
    {
      for n := 0 to QUEUE_SIZE
        invariant NextRepeat(queue[..], queueRr, 0) == NextRepeat(queue[..], queueRr, n)
      {
        var i := (queueRr + n) % QUEUE_SIZE;
        if queue[i].valid && queue[i].copies != 0 && queue[i].copies < queue[i].limit {
          return Some(i);
        }
      }
      return None;
    }

    method NextStateSlot(repeats: bool, now: nat) returns (found: Option<nat>)
      requires Valid()
      ensures found == NextSlot(states[..], stateRr, repeats, now, 0)
    {
      for n := 0 to SLOT_COUNT
        invariant NextSlot(states[..], stateRr, repeats, now, 0) == NextSlot(states[..], stateRr, repeats, now, n)
      {
        var i := (stateRr + n) % SLOT_COUNT;
        if SlotWants(states[i], repeats, now) {
          return Some(i);
        }
      }
      return None;
    }

    method NextOperationProgress(now: nat) returns (found: Option<nat>)
      requires Valid()
      ensures found == NextProgress(operations[..], opRr, now, 0)
    {
      for n := 0 to OP_SIZE
        invariant NextProgress(operations[..], opRr, now, 0) == NextProgress(operations[..], opRr, now, n)
      {
        var i := (opRr + n) % OP_SIZE;
        if ProgressDue(operations[i], now) || ProgressStalled(operations[i]) {
          return Some(i);
        }
      }
      return None;
    }

    method MakeProgress(i: nat, now: nat) returns (r: Record)
      requires Valid() && i < OP_SIZE
      modifies this, operations
      ensures Valid() && (View(), r) == Progress(old(View()), i, now)
    {
      var op := operations[i];
      r := Materialize(op.id, op.kind, STEP, 0, op.phase, op.detail, now, 1);
      operations[i] := operations[i].(latest := r, candidate := false);
    }

    method ChooseRecord(now: nat) returns (r: Option<Record>)
      requires Valid()
      modifies this, operations, states
      ensures Valid() && Choice(View(), r) == Choose(old(View()), now)
    {
      hide OldestFirst, BeatWithSlots, ChooseSlow, Progress;
      var power := OldestFirstRecord(true);
      if power.Some? {
        return Some(queue[power.value]);
      }
      var first := OldestFirstRecord(false);
      if first.Some? {
        return Some(queue[first.value]);
      }
      var beat := DueBeat(now);
      match beat {
        case OpBeat(i, _) =>
          if operations[i].candidate {
            var p := MakeProgress(i, now);
            return Some(p);
          }
          return Some(operations[i].latest);
        case SlotBeat(i, _) =>
          return Some(states[i].published);
        case NoBeat =>
          r := ChooseSlowRecord(now);
      }
    }

    method ChooseSlowRecord(now: nat) returns (r: Option<Record>)
      requires Valid()
      modifies this, operations, states
      ensures Valid() && Choice(View(), r) == ChooseSlow(old(View()), now)
    {
      hide NextRepeat, NextSlot, ChooseProgress;
      var again := NextQueueRepeat();
      if again.Some? {
        queueRr := (again.value + 1) % QUEUE_SIZE;
        return Some(queue[again.value]);
      }
      var changed := NextStateSlot(false, now);
      if changed.Some? {
        var i := changed.value;
        var p := Materialize(0, TRACKER_REST + i, STATE, 0, states[i].phase, states[i].detail, now, 3);
        states[i] := states[i].(published := p, candidate := false);
        stateRr := (i + 1) % SLOT_COUNT;
        return Some(p);
      }
      r := ChooseProgressRecord(now);
    }

    method ChooseProgressRecord(now: nat) returns (r: Option<Record>)
      requires Valid()
      modifies this, operations, states
      ensures Valid() && Choice(View(), r) == ChooseProgress(old(View()), now)
    {
      hide NextProgress, NextSlot, ProgressDue, Progress;
      var step := NextOperationProgress(now);
      if step.Some? {
        var i := step.value;
        opRr := (i + 1) % OP_SIZE;
        if ProgressDue(operations[i], now) {
          var p := MakeProgress(i, now);
          return Some(p);
        }
        return Some(operations[i].latest);
      }
      var rest := NextStateSlot(true, now);
      if rest.Some? {
        stateRr := (rest.value + 1) % SLOT_COUNT;
        return Some(states[rest.value].published);
      }
      return None;
    }

    method TrackerEventsSelect(now: nat, trackerId: Byte) returns (sent: Option<Sent>)
      requires Valid()
      modifies this, queue, operations, states
      ensures Valid() && (View(), sent) == Select(old(View()), now, trackerId)
    {
      if trackerId >= MAX_TRACKERS {
        return None;
      }
      Upkeep(now);
      if nonce == 0 || (sendGate && now < nextSend) {
        return None;
      }
      var r := ChooseRecord(now);
      if r.None? {
        return None;
      }
      selected := r.value;
      var packet := new Byte[ESB_LEN](_ => 0);
      var ok := Encode(packet, selected.event.(tracker := trackerId));
      return if ok then Some(Sent(packet[..], selected.token)) else None;
    }

    // -------------------------------------------------------------- completion

    method CreditQueue(token: nat, startupAdmitted: bool, now: nat)
      requires Valid()
      modifies queue
      ensures Valid()
      ensures queue[..] == CompleteQueue(old(queue[..]), token, startupAdmitted, now)
    {
      ghost var done := CompleteQueue(queue[..], token, startupAdmitted, now);
      for i := 0 to QUEUE_SIZE
        invariant forall k | 0 <= k < i :: queue[k] == done[k]
        invariant forall k | i <= k < QUEUE_SIZE :: queue[k] == old(queue[k])
      {
        var r := queue[i];
        if r.valid && r.token == token && r.copies == 0 && startupAdmitted {
          r := r.(born := now);
        }
        r := Receipt(r, token, now);
        if r.valid && r.token == token && r.copies >= r.limit {
          r := r.(valid := false);
        }
        queue[i] := r;
      }
      assert queue[..] == done;
    }

    method CreditOperations(now: nat)
      requires Valid()
      modifies operations
      ensures Valid()
      ensures operations[..] == CompleteOps(old(operations[..]), Find(old(operations[..]), selected.event.operation),
                                            selected, now)
    {
      hide Find, CompleteOp;
      var sent := Lookup(selected.event.operation);
      for i := 0 to OP_SIZE
        invariant forall k | 0 <= k < i ::
                    operations[k] == CompleteOp(old(operations[k]), sent == Some(k), selected, now)
        invariant forall k | i <= k < OP_SIZE :: operations[k] == old(operations[k])
      {
        operations[i] := CompleteOp(operations[i], sent == Some(i), selected, now);
      }
    }

    method CreditStates(now: nat)
      requires Valid()
      modifies states
      ensures Valid()
      ensures states[..] == [CompleteSlot(old(states[0]), 0, selected, now),
                             CompleteSlot(old(states[1]), 1, selected, now)]
    {
      for i := 0 to SLOT_COUNT
        invariant states[0] == if i > 0 then CompleteSlot(old(states[0]), 0, selected, now) else old(states[0])
        invariant states[1] == if i > 1 then CompleteSlot(old(states[1]), 1, selected, now) else old(states[1])
      {
        var x := states[i];
        if selected.event.event == STATE && selected.copies == 0 && selected.event.kind == TRACKER_REST + i {
          x := x.(lastPublish := now, publishValid := true);
        }
        if x.published.valid && x.published.token == selected.token {
          if x.published.copies == 0 {
            x := x.(lastPublish := now, publishValid := true);
          }
          x := x.(published := Receipt(x.published, selected.token, now));
        }
        states[i] := x;
      }
      assert states[..] == [states[0], states[1]];
    }

    method CreditStartup(token: nat) returns (admitted: bool)
      requires Valid()
      modifies this`startup
      ensures Valid() && startup == AdmitStartup(old(startup), token) && startup.tokens == old(startup.tokens)
      ensures admitted == (token in startup.tokens)
    {
      admitted := startup.tokens[0] == token || startup.tokens[1] == token;
      startup := startup.(pending := [startup.pending[0] && startup.tokens[0] != token,
                                      startup.pending[1] && startup.tokens[1] != token]);
    }

    method CreditAdmission(now: nat)
      requires Valid()
      modifies this`startup, queue, operations, states
      ensures Valid() && View() == Admit(old(View()), old(selected), now)
    {
      hide CompleteQueue, CompleteOps, CompleteSlot, Find, AdmitStartup;
      var token := selected.token;
      var startupAdmitted := CreditStartup(token);
      CreditQueue(token, startupAdmitted, now);
      CreditOperations(now);
      CreditStates(now);
    }

    method TrackerEventsComplete(token: nat, success: bool, now: nat)
      requires Valid()
      modifies this, queue, operations, states
      ensures Valid() && View() == Complete(old(View()), token, success, now)
    {
      hide Admit;
      if token == 0 || !selected.valid || selected.token != token || selected.event.nonce != nonce {
        return;
      }
      sendGate := true;
      nextSend := now + if success then SPACING_MS else RETRY_MS;
      if success {
        CreditAdmission(now);
      }
      selected := selected.(valid := false);
    }

    // ---------------------------------------------------------------- deadline

    method QueueAndStartupDeadline(now: nat) returns (best: Option<nat>)
      requires Valid()
      ensures Earliest(StartupTimes(startup, 2) + QueueTimes(queue[..], now, QUEUE_SIZE), now, best)
    {
      best := None;
      for i := 0 to 2
        invariant Earliest(StartupTimes(startup, i), now, best)
      {
        EarliestAdd(StartupTimes(startup, i), now, best, startup.at);
        if startup.pending[i] && startup.tokens[i] == 0 {
          best := DeadlineAdd(best, startup.at, now);
        }
      }
      ghost var early := StartupTimes(startup, 2);
      for i := 0 to QUEUE_SIZE
        invariant Earliest(early + QueueTimes(queue[..], now, i), now, best)
      {
        EarliestAdd(early + QueueTimes(queue[..], now, i), now, best, now);
        if queue[i].valid {
          best := DeadlineAdd(best, now, now);
        }
        assert early + QueueTimes(queue[..], now, i + 1)
               == early + QueueTimes(queue[..], now, i) + if queue[i].valid then {now} else {};
      }
    }

    method OperationDeadline(op: Operation, best: Option<nat>, ghost seen: set<nat>, now: nat) returns (b: Option<nat>)
      requires Earliest(seen, now, best)
      ensures Earliest(seen + OpTimes(op, now), now, b)
    {
      hide Earliest, DeadlineAdd, BeatTimes, ProgressTimes, ProgressStalled;
      b := best;
      if op.id == 0 {
        assert seen + OpTimes(op, now) == seen;
        return;
      }
      if op.active && HiddenOnline(op) {
        EarliestAdd(seen, now, b, op.born + HIDDEN_MS);
        b := DeadlineAdd(b, op.born + HIDDEN_MS, now);
        return;
      }
      b := BeatDeadline(op, b, seen, now);
      b := ProgressDeadline(op, b, seen + BeatTimes(op), now);
      ghost var most := seen + BeatTimes(op) + ProgressTimes(op);
      b := StalledDeadline(op, b, most, now);
      assert seen + OpTimes(op, now) == if ProgressStalled(op) then most + {now} else most;
    }

    method StalledDeadline(op: Operation, best: Option<nat>, ghost seen: set<nat>, now: nat) returns (b: Option<nat>)
      requires Earliest(seen, now, best)
      ensures Earliest(if ProgressStalled(op) then seen + {now} else seen, now, b)
    {
      hide Earliest, DeadlineAdd;
      b := best;
      if op.latest.valid && op.latest.event.event == STEP && op.latest.copies == 0 {
        EarliestAdd(seen, now, b, now);
        b := DeadlineAdd(b, now, now);
      }
    }

    method BeatDeadline(op: Operation, best: Option<nat>, ghost seen: set<nat>, now: nat) returns (b: Option<nat>)
      requires Earliest(seen, now, best)
      ensures Earliest(seen + BeatTimes(op), now, b)
    {
      hide Earliest, DeadlineAdd;
      b := best;
      if op.active && op.visible && (op.latest.valid || op.candidate) {
        var at := if op.candidate && op.progressValid then Max(op.heartbeat, op.progressSent + PROGRESS_GAP_MS)
                  else op.heartbeat;
        EarliestAdd(seen, now, b, at);
        b := DeadlineAdd(b, at, now);
      } else {
        assert seen + BeatTimes(op) == seen;
      }
    }

    method ProgressDeadline(op: Operation, best: Option<nat>, ghost seen: set<nat>, now: nat) returns (b: Option<nat>)
      requires Earliest(seen, now, best)
      ensures Earliest(seen + ProgressTimes(op), now, b)
    {
      hide Earliest, DeadlineAdd;
      b := best;
      if op.candidate {
        var at := if op.progressValid then Max(op.changed + COALESCE_MS, op.progressSent + PROGRESS_GAP_MS)
                  else op.changed + COALESCE_MS;
        EarliestAdd(seen, now, b, at);
        b := DeadlineAdd(b, at, now);
      } else {
        assert seen + ProgressTimes(op) == seen;
      }
    }

    method StateDeadline(x: Slot, best: Option<nat>, ghost seen: set<nat>, now: nat) returns (b: Option<nat>)
      requires Earliest(seen, now, best)
      ensures Earliest(seen + SlotTimes(x, now), now, b)
    {
      hide Earliest, DeadlineAdd;
      b := best;
      ghost var seen1 := seen;
      if x.observed {
        var at := x.lastObserved + SENSOR_FRESH_MS;
        EarliestAdd(seen, now, b, at);
        b, seen1 := DeadlineAdd(b, at, now), seen + {at};
      }
      assert seen + SlotTimes(x, now) == seen1 + PublishTimes(x, now);
      assert PublishTimes(x, now) == {} ==> seen1 + PublishTimes(x, now) == seen1;
      if x.candidate {
        var at := if x.publishValid then x.lastPublish + PROGRESS_GAP_MS else now;
        EarliestAdd(seen1, now, b, at);
        b := DeadlineAdd(b, at, now);
      } else if x.published.valid {
        if x.published.copies < x.published.limit {
          EarliestAdd(seen1, now, b, now);
          b := DeadlineAdd(b, now, now);
        } else if x.observed {
          EarliestAdd(seen1, now, b, x.published.sent + REST_HEARTBEAT_MS);
          b := DeadlineAdd(b, x.published.sent + REST_HEARTBEAT_MS, now);
        }
      }
    }

    method OperationsDeadline(first: Option<nat>, ghost seen: set<nat>, now: nat) returns (best: Option<nat>)
      requires Valid() && Earliest(seen, now, first)
      ensures Earliest(seen + OpsTimes(operations[..], now, OP_SIZE), now, best)
    {
      hide Earliest, OpTimes;
      best := first;
      assert seen + OpsTimes(operations[..], now, 0) == seen;
      for i := 0 to OP_SIZE
        invariant Earliest(seen + OpsTimes(operations[..], now, i), now, best)
      {
        best := OperationDeadline(operations[i], best, seen + OpsTimes(operations[..], now, i), now);
        assert seen + OpsTimes(operations[..], now, i + 1)
               == seen + OpsTimes(operations[..], now, i) + OpTimes(operations[i], now);
      }
    }

    /** Absolute time of the next useful select; None when there is no work. */
    method TrackerEventsDeadline(now: nat) returns (d: Option<nat>)
      requires Valid()
      modifies this, queue, operations, states
      ensures Valid() && View() == AfterDeadline(old(View()), now) && IsDeadline(View(), now, d)
    {
      if nonce == 0 {
        return None;
      }
      Upkeep(now);
      MaintainFrame(old(View()), now);
      hide Maintain, Earliest, OpsTimes, QueueTimes, StartupTimes, SlotTimes;
      var best := QueueAndStartupDeadline(now);
      ghost var early := StartupTimes(startup, 2) + QueueTimes(queue[..], now, QUEUE_SIZE);
      best := OperationsDeadline(best, early, now);
      ghost var all := early + OpsTimes(operations[..], now, OP_SIZE);
      best := StateDeadline(states[0], best, all, now);
      best := StateDeadline(states[1], best, all + SlotTimes(states[0], now), now);
      assert all + SlotTimes(states[0], now) + SlotTimes(states[1], now) == Times(View(), now);
      assert Earliest(Times(View(), now), now, best);
      d := best;
      if d.Some? && sendGate {
        d := Some(Max(d.value, nextSend));
      }
      assert d == Gated(View(), best);
    }

    // --------------------------------------------------------- identity change

    /** First locked section of a session change: stop publishing under the old identity. */
    method SessionStopped() returns (proceed: bool)
      requires Valid()
      modifies this`nonce
      ensures Valid() && proceed == !entropyFailed && View() == SessionStop(old(View()))
    {
      if entropyFailed {
        return false;
      }
      nonce := 0;
      return true;
    }

    method EraseTables()
      requires Valid()
      modifies queue, operations, states
      ensures Valid()
      ensures View() == old(View()).(queue := Blank(QUEUE_SIZE, NO_RECORD), ops := Blank(OP_SIZE, NO_OPERATION),
                                     slots := Blank(SLOT_COUNT, NO_SLOT))
    {
      for i := 0 to QUEUE_SIZE
        modifies queue
        invariant forall k | 0 <= k < i :: queue[k] == NO_RECORD
      {
        queue[i] := NO_RECORD;
      }
      assert queue[..] == Blank(QUEUE_SIZE, NO_RECORD);
      for i := 0 to OP_SIZE
        modifies operations
        invariant forall k | 0 <= k < i :: operations[k] == NO_OPERATION
      {
        operations[i] := NO_OPERATION;
      }
      assert operations[..] == Blank(OP_SIZE, NO_OPERATION);
      for i := 0 to SLOT_COUNT
        modifies states
        invariant forall k | 0 <= k < i :: states[k] == NO_SLOT
      {
        states[i] := NO_SLOT;
      }
      assert states[..] == Blank(SLOT_COUNT, NO_SLOT);
    }

    /** Second locked section: erase the old identity and take the new one, if there is one. */
    method SessionStarted(entropy: Long)
      requires Valid()
      modifies this, queue, operations, states
      ensures Valid() && View() == SessionStart(old(View()), entropy)
    {
      hide Blank;
      EraseTables();
      sequence, sendGate := 0, false;
      startup := startup.(tokens := [0, 0]);
      selected := selected.(valid := false);
      epoch := epoch + 1;
      nonce := entropy;
      entropyFailed := entropy == 0;
    }
  }
}
