/** What the queue's choices and publications mean, in the fields of the records themselves. */
module EventMeaning {
  import opened Arithmetic
  import opened Integers
  import opened Wrappers
  import opened EventProtocol
  import opened EventState
  import opened EventInvariant
  import opened EventSteps

  // ------------------------------------------------------- which entry is reused

  ghost predicate OpBestSoFar(ops: seq<Operation>, i: nat, v: nat)
    requires v < |ops| && i <= |ops|
  {
    forall k | 0 <= k < i ::
      && ops[k].id != 0
      && (!ops[k].active ==> !ops[v].active)
      && (ops[k].active == ops[v].active ==> ops[v].born <= ops[k].born)
  }

  lemma {:induction false} OpVictimIsBest(ops: seq<Operation>, i: nat, v: nat)
    requires v < |ops| && i <= |ops| && OpBestSoFar(ops, i, v)
    ensures var r := OpVictim(ops, i, v); ops[r].id == 0 || OpBestSoFar(ops, |ops|, r)
    decreases |ops| - i
  {
    if i == |ops| {
    } else if ops[i].id != 0 {
      var better := (!ops[i].active && ops[v].active)
                    || (ops[i].active == ops[v].active && ops[i].born < ops[v].born);
      OpVictimIsBest(ops, i + 1, if better then i else v);
    }
  }

  /** A new operation takes an empty entry if there is one; else a finished one before a running
      one, and among those alike the one begun first. */
  lemma OpVictimMeaning(ops: seq<Operation>)
    requires |ops| > 0
    ensures var v := ops[OpVictim(ops, 0, 0)];
            v.id != 0 ==>
              forall k | 0 <= k < |ops| ::
                && ops[k].id != 0
                && (!ops[k].active ==> !v.active)
                && (ops[k].active == v.active ==> v.born <= ops[k].born)
  {
    OpVictimIsBest(ops, 0, 0);
  }

  // ------------------------------------------------------------ what goes first

  lemma {:induction false} OldestIsFirst(q: seq<Record>, power: bool, n: nat)
    requires n <= |q|
    ensures var r := OldestFirst(q, power, n);
            r.Some? ==> forall k | 0 <= k < n && Eligible(q[k], power) :: !Before(q[k], q[r.value], power)
  {
    if n == 0 {
    } else {
      OldestIsFirst(q, power, n - 1);
    }
  }

  /** Power notices go before anything else, announced shutdowns and reboots before other power
      notices, then whatever was never sent; and within one of these classes the oldest first. */
  lemma ChosenFirst(s: State, now: nat, k: nat)
    requires Shaped(s) && k < QUEUE_SIZE && s.queue[k].valid
    requires s.queue[k].event.kind == POWER || s.queue[k].copies == 0
    ensures var c, waiting := Choose(s, now), s.queue[k];
            && c.state == s && c.record.Some? && c.record.value in s.queue && c.record.value.valid
            && var r := c.record.value;
               && (waiting.event.kind == POWER ==>
                     && r.event.kind == POWER && (Urgent(waiting) ==> Urgent(r))
                     && (Urgent(waiting) == Urgent(r) ==> r.token <= waiting.token))
               && (r.event.kind != POWER ==> r.copies == 0 && r.token <= waiting.token)
  {
    OldestIsFirst(s.queue, true, QUEUE_SIZE);
    OldestIsFirst(s.queue, false, QUEUE_SIZE);
    assert Eligible(s.queue[k], s.queue[k].event.kind == POWER);
  }

  lemma {:induction false} OldestOpBeatIsFirst(ops: seq<Operation>, now: nat, n: nat)
    requires n <= |ops|
    ensures var r := OldestOpBeat(ops, now, n);
            r.Some? ==> forall k | 0 <= k < n && OpBeatDue(ops[k], now) :: ops[r.value].heartbeat <= ops[k].heartbeat
  {
    if n == 0 {
    } else {
      OldestOpBeatIsFirst(ops, now, n - 1);
    }
  }

  /** Of the heartbeats that are due, of operations and rest domains alike, the most overdue. */
  lemma {:induction false} MostOverdueBeat(s: State, now: nat, n: nat)
    requires Shaped(s) && n <= SLOT_COUNT
    ensures var b := BeatWithSlots(s, now, n);
            !b.NoBeat? ==>
              && b.at == (if b.OpBeat? then s.ops[b.i].heartbeat
                          else s.slots[b.i].published.sent + REST_HEARTBEAT_MS)
              && (forall k | 0 <= k < OP_SIZE && OpBeatDue(s.ops[k], now) :: b.at <= s.ops[k].heartbeat)
              && (forall k | 0 <= k < n && SlotBeatDue(s.slots[k], now) ::
                    b.at <= s.slots[k].published.sent + REST_HEARTBEAT_MS)
  {
    if n == 0 {
      OldestOpBeatIsFirst(s.ops, now, OP_SIZE);
    } else {
      MostOverdueBeat(s, now, n - 1);
      hide OpBeatDue;
    }
  }

  /** How far entry i lies ahead of the cursor. */
  function Ahead(i: nat, rr: nat, size: nat): int
    requires size > 0
  {
    (i - rr) % size
  }

  lemma AheadOf(rr: nat, n: nat, size: nat)
    requires n < size
    ensures Ahead((rr + n) % size, rr, size) == n
  {
    RemainderFrom(rr + n, size);
    var q, i := (rr + n) / size, (rr + n) % size;
    assert i - rr == -q * size + n;
    IntegerRemainder(i - rr, -q, n, size);
  }

  lemma IntegerRemainder(x: int, q: int, r: nat, size: nat)
    requires x == q * size + r && r < size
    ensures x % size == r
  {
    var p, t := x / size, x % size;
    assert x == p * size + t && (q - p) * size == t - r && (p - q) * size == r - t;
    if q > p { MulMono(1, q - p, size); }
    if q < p { MulMono(1, p - q, size); }
  }

  /** Repeats take turns: the next one is the first after the last that still has a copy to go. */
  lemma {:induction false} RepeatsTakeTurns(q: seq<Record>, rr: nat, n: nat)
    requires |q| == QUEUE_SIZE && n <= QUEUE_SIZE
    ensures var r := NextRepeat(q, rr, n);
            r.Some? ==>
              && n <= Ahead(r.value, rr, QUEUE_SIZE)
              && forall i | 0 <= i < QUEUE_SIZE && n <= Ahead(i, rr, QUEUE_SIZE) < Ahead(r.value, rr, QUEUE_SIZE) ::
                   !Repeatable(q[i])
    decreases QUEUE_SIZE - n
  {
    if n == QUEUE_SIZE {
    } else {
      hide Repeatable;
      AheadOf(rr, n, QUEUE_SIZE);
      OneAhead(rr, n, QUEUE_SIZE);
      RepeatsTakeTurns(q, rr, n + 1);
    }
  }

  lemma OneAhead(rr: nat, n: nat, size: nat)
    requires n < size
    ensures forall i | 0 <= i < size && Ahead(i, rr, size) == n :: i == (rr + n) % size
  {
    forall i | 0 <= i < size && Ahead(i, rr, size) == n ensures i == (rr + n) % size {
      PassedLast(i, rr, n, size);
    }
  }

  /** So does progress of operations. */
  lemma {:induction false} ProgressTakesTurns(ops: seq<Operation>, rr: nat, now: nat, n: nat)
    requires |ops| == OP_SIZE && n <= OP_SIZE
    ensures var r := NextProgress(ops, rr, now, n);
            r.Some? ==>
              && n <= Ahead(r.value, rr, OP_SIZE)
              && forall i | 0 <= i < OP_SIZE && n <= Ahead(i, rr, OP_SIZE) < Ahead(r.value, rr, OP_SIZE) ::
                   !OpWants(ops[i], now)
    decreases OP_SIZE - n
  {
    if n == OP_SIZE {
    } else {
      hide OpWants;
      AheadOf(rr, n, OP_SIZE);
      OneAhead(rr, n, OP_SIZE);
      ProgressTakesTurns(ops, rr, now, n + 1);
    }
  }

  // ----------------------------------------------------------- what is published

  /** What a producer's call says, apart from the identity and the numbering. */
  datatype Saying = Saying(kind: Byte, event: Byte, outcome: Byte, phase: Byte, detail: Byte)

  function SaidBy(e: Event): Saying {
    Saying(e.kind, e.event, e.outcome, e.phase, e.detail)
  }

  /** The saying of each producer, from its arguments; None for calls that queue nothing. */
  function Said(s: State, t: Timed): Option<Saying>
    requires Shaped(s)
  {
    match t.step
    case Accept(kind) => Some(Saying(kind, ACCEPTED, NO_OUTCOME, 0, 0))
    case Begin(kind, phase, detail) => Some(Saying(kind, BEGIN, NO_OUTCOME, phase, detail))
    case Reject(kind, reason) => Some(Saying(kind, REJECTED, FAILED, 0, reason))
    case Notify(kind, phase, detail) => Some(Saying(kind, NOTICE, NO_OUTCOME, phase, detail))
    case Resume(id, phase, detail) =>
      if Find(s.ops, id).None? then None
      else Some(Saying(s.ops[Find(s.ops, id).value].kind, BEGIN, NO_OUTCOME, phase, detail))
    case Advance(id, phase, detail) =>
      if Find(s.ops, id).None? || phase != PHASE_STORAGE || detail != REASON_STORAGE_ERROR then None
      else Some(Saying(s.ops[Find(s.ops, id).value].kind, STEP, NO_OUTCOME, phase, detail))
    case Finish(id, outcome, phase, reason) =>
      if Find(s.ops, id).None? then None
      else
        var op := s.ops[Find(s.ops, id).value];
        Some(Saying(op.kind, END, outcome, phase,
                    if outcome == SUCCESS && reason == 0 then op.completionReason else reason))
    case _ => None
  }

  /** Every record of t is one of s, perhaps withdrawn, or new and says just this. */
  ghost predicate OnlySays(s: State, t: State, said: Option<Saying>)
    requires Shaped(s) && Shaped(t)
  {
    forall k | 0 <= k < QUEUE_SIZE && t.queue[k].valid ::
      t.queue[k] == s.queue[k]
      || (said.Some? && SaidBy(t.queue[k].event) == said.value && t.queue[k].token > s.serial
          && t.queue[k].copies == 0 && t.queue[k].event.nonce == s.nonce)
  }

  lemma EnqueueSays(s: State, r: Record)
    requires Shaped(s) && r.token == s.serial + 1 && r.copies == 0 && r.event.nonce == s.nonce
    ensures OnlySays(s, Enqueue(Stamp(s), r), Some(SaidBy(r.event)))
    ensures Enqueue(Stamp(s), r).ops == s.ops
  {
    hide Victim;
  }

  lemma PublishOpSays(s: State, i: nat, event: Byte, outcome: Byte, phase: Byte, detail: Byte, now: nat, limit: nat)
    requires Shaped(s) && i < OP_SIZE
    ensures OnlySays(s, PublishOp(s, i, event, outcome, phase, detail, now, limit),
                     Some(Saying(s.ops[i].kind, event, outcome, phase, detail)))
  {
    hide Enqueue;
    EnqueueSays(s, Fresh(s, s.ops[i].id, s.ops[i].kind, event, outcome, phase, detail, now, limit));
  }

  lemma AllocatedKind(s: State, kind: Byte, now: nat)
    requires Shaped(s)
    ensures var a := Allocate(s, kind, now);
            a.Some? ==>
              var (s1, i) := a.value;
              s1.ops[i].kind == kind && s1.queue == s.queue && s1.serial == s.serial && s1.nonce == s.nonce
  {
  }

  lemma OnlySaysAlike(s: State, like: State, t: State, said: Option<Saying>)
    requires Shaped(s) && Shaped(like) && Shaped(t) && OnlySays(like, t, said)
    requires like.queue == s.queue && like.nonce == s.nonce && like.serial == s.serial
    ensures OnlySays(s, t, said)
  {
  }

  lemma CalibrationSays(s: State, t: Timed)
    requires Shaped(s) && (t.step.Accept? || t.step.Begin? || t.step.Reject?)
    ensures OnlySays(s, Next(s, t), Said(s, t))
  {
    AllocatedKind(s, t.step.kind, t.now);
    var a := Allocate(s, t.step.kind, t.now);
    if a.None? {
      assert Next(s, t) == s;
    } else {
      hide PublishOp, Enqueue, Allocate, OnlySays;
      var (s1, i) := a.value;
      match t.step
      case Accept(kind) =>
        PublishOpSays(s1, i, ACCEPTED, 0, 0, 0, t.now, 3);
        OnlySaysAlike(s, s1, Next(s, t), Said(s, t));
      case Begin(kind, phase, detail) =>
        var s2 := s1.(ops := s1.ops[i := s1.ops[i].(phase := phase, detail := detail, changed := t.now)]);
        PublishOpSays(s2, i, BEGIN, 0, phase, detail, t.now, 1);
        NothingSaid(s, s2, Said(s, t));
        if !HiddenOnline(s2.ops[i]) { OnlySaysAlike(s, s2, Next(s, t), Said(s, t)); }
      case Reject(kind, reason) =>
        var s2 := s1.(ops := s1.ops[i := s1.ops[i].(active := false)]);
        PublishOpSays(s2, i, REJECTED, FAILED, 0, reason, t.now, 3);
        OnlySaysAlike(s, s2, Next(s, t), Said(s, t));
    }
  }

  lemma NothingSaid(s: State, t: State, said: Option<Saying>)
    requires Shaped(s) && Shaped(t) && t.queue == s.queue
    ensures OnlySays(s, t, said)
  {
  }

  lemma OperationSays(s: State, t: Timed)
    requires Shaped(s) && (t.step.Resume? || t.step.Finish?)
    ensures OnlySays(s, Next(s, t), Said(s, t))
  {
    hide PublishOp;
    if Find(s.ops, t.step.id).Some? {
      var i := Find(s.ops, t.step.id).value;
      var op := s.ops[i];
      match t.step
      case Resume(_, phase, detail) =>
        var s1 := s.(ops := s.ops[i := op.(phase := phase, detail := detail)]);
        PublishOpSays(s1, i, BEGIN, 0, phase, detail, t.now, 1);
      case Finish(_, outcome, phase, reason) =>
        var s1 := s.(ops := s.ops[i := op.(active := false, candidate := false, latest := op.latest.(valid := false))]);
        PublishOpSays(s1, i, END, outcome, phase,
                      if outcome == SUCCESS && reason == 0 then op.completionReason else reason, t.now, 3);
    }
  }

  lemma AdvanceSays(s: State, t: Timed)
    requires Shaped(s) && t.step.Advance?
    ensures OnlySays(s, Next(s, t), Said(s, t))
  {
    hide Enqueue;
    if Find(s.ops, t.step.id).Some? {
      var i := Find(s.ops, t.step.id).value;
      var op := s.ops[i];
      var op1 := if t.step.phase == PHASE_RETRY
                 then op.(retryValid := true, retryReason := t.step.detail, retryAt := t.now) else op;
      var s1 := s.(ops := s.ops[i := op1]);
      EnqueueSays(s1, Fresh(s1, op.id, op.kind, STEP, 0, t.step.phase, t.step.detail, t.now, 3));
    }
  }

  lemma NotifySays(s: State, t: Timed)
    requires Shaped(s) && t.step.Notify?
    ensures OnlySays(s, Next(s, t), Said(s, t))
  {
    hide Enqueue, Legal;
    var Notify(kind, phase, detail) := t.step;
    var s1 := if kind == POWER && (phase == WILL_SHUTDOWN || phase == WILL_REBOOT)
              then s.(startup := s.startup.(retired := true, pending := [false, false])) else s;
    var s2 := if kind == POWER && phase == WOM_CANCELLED then s1.(queue := CancelWom(s1.queue)) else s1;
    EnqueueSays(s2, Fresh(s2, 0, kind, NOTICE, 0, phase, detail, t.now, 3));
  }

  /** Every producer publishes what it was called with, field for field, under the identity of the
      moment, and disturbs no other record except to replace or withdraw it. */
  lemma ProducersSay(s: State, t: Timed)
    requires Shaped(s)
    requires t.step.Accept? || t.step.Begin? || t.step.Reject? || t.step.Resume? || t.step.Finish?
             || t.step.Advance? || t.step.Notify?
    ensures OnlySays(s, Next(s, t), Said(s, t))
  {
    hide OnlySays, Next, Said;
    if t.step.Accept? || t.step.Begin? || t.step.Reject? { CalibrationSays(s, t); }
    if t.step.Resume? || t.step.Finish? { OperationSays(s, t); }
    if t.step.Advance? { AdvanceSays(s, t); }
    if t.step.Notify? { NotifySays(s, t); }
  }

  /** A boot is announced as such, a wake-up as a wake-up, and a watchdog reset beside either. */
  lemma BootMeaning(s: State, wake: bool, watchdog: bool, now: nat)
    requires Shaped(s) && !s.startup.scheduled && !s.startup.retired && !s.entropyFailed
    ensures var u := ScheduleBoot(s, wake, watchdog, now).startup;
            && u.scheduled && u.pending[0] && (u.pending[1] <==> watchdog)
            && (u.phase == WAKE <==> wake) && (u.phase == BOOT <==> !wake) && u.at == now + BOOT_DELAY_MS
  {
  }

  // --------------------------------------------------------------------- pacing

  /** The gate is shut until `until`, and nothing selected awaits completion. */
  ghost predicate Shut(s: State, until: nat) {
    Shaped(s) && s.sendGate && s.nextSend == until && !s.selected.valid
  }

  /** The gate, when it opens, and what awaits completion. */
  ghost predicate SameGate(s: State, t: State) {
    t.sendGate == s.sendGate && t.nextSend == s.nextSend && t.selected == s.selected
  }

  lemma CalibrationKeepsGate(s: State, t: Timed)
    requires Shaped(s) && (t.step.Accept? || t.step.Begin? || t.step.Reject?)
    ensures SameGate(s, Next(s, t))
  {
    hide Victim, OpVictim, FreshId, Ids;
  }

  lemma OperationKeepsGate(s: State, t: Timed)
    requires Shaped(s) && (t.step.Resume? || t.step.Finish? || t.step.LatchReason?)
    ensures SameGate(s, Next(s, t))
  {
    hide Victim;
  }

  lemma ReportKeepsGate(s: State, t: Timed)
    requires Shaped(s) && (t.step.Advance? || t.step.Notify?)
    ensures SameGate(s, Next(s, t))
  {
    hide Victim, Legal;
  }

  lemma OtherKeepsGate(s: State, t: Timed)
    requires Shaped(s)
    requires t.step.Observed? || t.step.BootScheduled? || t.step.Invalidated? || t.step.SensorFrame?
             || t.step.IdentityStopped?
    ensures SameGate(s, Next(s, t))
  {
    hide InvalidateSlot, TrackerFrame, FusionFrame, SetSlot, Legal;
  }

  lemma UpkeepKeepsGate(s: State, t: Timed, until: nat)
    requires Shut(s, until) && t.now < until && (t.step.Selected? || t.step.DeadlineRead? || t.step.Completed?)
    ensures Shut(Next(s, t), until)
  {
    hide Maintain;
    MaintainFrame(s, t.now);
  }

  lemma NextStaysShut(s: State, t: Timed, until: nat)
    requires Shut(s, until) && t.now < until && !t.step.IdentityStarted?
    ensures Shut(Next(s, t), until)
  {
    hide Next;
    if t.step.Selected? || t.step.DeadlineRead? || t.step.Completed? {
      UpkeepKeepsGate(s, t, until);
    } else if t.step.Accept? || t.step.Begin? || t.step.Reject? {
      CalibrationKeepsGate(s, t);
    } else if t.step.Resume? || t.step.Finish? || t.step.LatchReason? {
      OperationKeepsGate(s, t);
    } else if t.step.Advance? || t.step.Notify? {
      ReportKeepsGate(s, t);
    } else {
      OtherKeepsGate(s, t);
    }
  }

  lemma {:induction false} StaysShut(run: seq<Timed>, i: nat, j: nat, until: nat)
    requires i <= j <= |run| && Shut(After(run[..i]), until)
    requires forall m | i <= m < j :: run[m].now < until && !run[m].step.IdentityStarted?
    ensures Shut(After(run[..j]), until)
    decreases j
  {
    hide After, Next;
    if i == j {
    } else {
      StaysShut(run, i, j - 1, until);
      AfterPrefix(run, j - 1);
      NextStaysShut(After(run[..j - 1]), run[j - 1], until);
    }
  }

  /** Sends are paced: once an admission was reported, no select sends for 100 ms if it succeeded
      and 10 ms if it failed, whatever happens meanwhile short of a new identity. */
  lemma SendsArePaced(run: seq<Timed>, n: nat, j: nat, now: nat, tracker: Byte)
    requires n < j <= |run| && run[n].step.Completed? && Completes(After(run[..n]), run[n].step.token)
    requires var until := run[n].now + if run[n].step.success then 100 else 10;
             && now < until
             && forall m | n < m < j :: run[m].now < until && !run[m].step.IdentityStarted?
    ensures Select(After(run[..j]), now, tracker).1 == None
  {
    hide After, Next, Select, Complete;
    var until := run[n].now + if run[n].step.success then SPACING_MS else RETRY_MS;
    AfterPrefix(run, n);
    CompletedShuts(After(run[..n]), run[n]);
    StaysShut(run, n + 1, j, until);
    ShutIsSilent(After(run[..j]), now, tracker, until);
  }

  lemma CompletedShuts(s: State, t: Timed)
    requires Shaped(s) && t.step.Completed? && Completes(s, t.step.token)
    ensures Shut(Next(s, t), t.now + if t.step.success then SPACING_MS else RETRY_MS)
  {
    hide CompleteQueue, CompleteOps, CompleteSlot, AdmitStartup, Find;
  }

  lemma ShutIsSilent(s: State, now: nat, tracker: Byte, until: nat)
    requires Shut(s, until) && now < until
    ensures Select(s, now, tracker).1 == None
  {
    hide Maintain;
    MaintainFrame(s, now);
  }

  ghost predicate OpWaited(op: Operation, r: Record, now: nat) {
    && op.candidate && r.event.operation == op.id != 0
    && (op.changed + 200 <= now || (op.active && op.heartbeat <= now))
    && (op.progressValid ==> op.progressSent + 500 <= now)
  }

  ghost predicate SlotWaited(x: Slot, now: nat) {
    x.candidate && (x.publishValid ==> x.lastPublish + 500 <= now)
  }

  /** A report made just now waited for its turn. */
  ghost predicate Waited(s: State, r: Record, now: nat) {
    r.token == s.serial + 1 ==>
      (exists op <- s.ops :: OpWaited(op, r, now)) || (exists x <- s.slots :: SlotWaited(x, now))
  }

  lemma OldReport(s: State, r: Record, now: nat)
    requires RecordOk(r, s.nonce, s.serial) && r.valid
    ensures Waited(s, r, now)
  {
  }

  lemma ProgressWaited(s: State, i: nat, rr: nat, now: nat)
    requires Shaped(s) && i < OP_SIZE && s.ops[i].id != 0 && s.ops[i].candidate
    requires ProgressDue(s.ops[i], now) || OpBeatDue(s.ops[i], now)
    ensures Waited(s, Progress(s, i, now).1, now) && Waited(s, Progress(s.(opRr := rr), i, now).1, now)
  {
    assert s.ops[i] in s.ops && OpWaited(s.ops[i], Progress(s, i, now).1, now);
    assert OpWaited(s.ops[i], Progress(s.(opRr := rr), i, now).1, now);
  }

  lemma ProgressChoiceWaited(s: State, now: nat)
    requires Invariant(s)
    ensures var c := ChooseProgress(s, now); c.record.Some? ==> Waited(s, c.record.value, now)
  {
    assert Shaped(s);
    hide Waited, Progress, NextProgress, NextSlot, OpOk, SlotOk, QueueOk, StartupOk, DistinctIds;
    var step, slot := NextProgress(s.ops, s.opRr, now, 0), NextSlot(s.slots, s.slotRr, true, now, 0);
    if step.Some? {
      var i := step.value;
      if ProgressDue(s.ops[i], now) {
        ProgressWaited(s, i, (i + 1) % OP_SIZE, now);
      } else {
        LatestOk(s, i);
        OldReport(s, s.ops[i].latest, now);
      }
    } else if slot.Some? {
      LatestOk(s, 0);
      OldReport(s, s.slots[slot.value].published, now);
    }
  }

  lemma LatestOk(s: State, i: nat)
    requires Invariant(s) && i < OP_SIZE
    ensures RecordOk(s.ops[i].latest, s.nonce, s.serial)
    ensures s.ops[i].latest.valid || s.ops[i].active || s.ops[i].candidate ==> s.ops[i].id != 0
    ensures RecordOk(s.slots[0].published, s.nonce, s.serial) && RecordOk(s.slots[1].published, s.nonce, s.serial)
  {
    hide RecordOk, QueueOk, StartupOk, DistinctIds;
    assert OpOk(s.ops[i], s.nonce, s.serial);
  }

  lemma SlowChoiceWaited(s: State, now: nat)
    requires Invariant(s)
    ensures var c := ChooseSlow(s, now); c.record.Some? ==> Waited(s, c.record.value, now)
  {
    assert Shaped(s) && QueueOk(s.queue, s.nonce, s.serial);
    hide Invariant, ChooseProgress, NextRepeat, NextSlot, Fresh, Stamp;
    var repeat, slot := NextRepeat(s.queue, s.queueRr, 0), NextSlot(s.slots, s.slotRr, false, now, 0);
    if repeat.Some? {
      OldReport(s, s.queue[repeat.value], now);
    } else if slot.Some? {
      assert s.slots[slot.value] in s.slots && SlotWaited(s.slots[slot.value], now);
    } else {
      ProgressChoiceWaited(s, now);
    }
  }

  /** New reports wait their turn: progress until it has settled for 200 ms or a heartbeat is due,
      and 500 ms after the operation's last; a rest domain's 500 ms after its last. */
  lemma NewReportsWait(s: State, now: nat)
    requires Invariant(s)
    ensures var r := Choose(s, now).record;
            r.Some? && r.value.token == s.serial + 1 ==>
              || (exists op <- s.ops ::
                    && op.candidate && r.value.event.operation == op.id != 0
                    && (op.changed + 200 <= now || (op.active && op.heartbeat <= now))
                    && (op.progressValid ==> op.progressSent + 500 <= now))
              || (exists x <- s.slots :: x.candidate && (x.publishValid ==> x.lastPublish + 500 <= now))
  {
    ChoiceWaited(s, now);
    hide Choose, Invariant;
  }

  lemma ChoiceWaited(s: State, now: nat)
    requires Invariant(s)
    ensures var c := Choose(s, now); c.record.Some? ==> Waited(s, c.record.value, now)
  {
    assert Shaped(s) && QueueOk(s.queue, s.nonce, s.serial);
    hide Invariant, Waited, ChooseSlow, Progress, OldestFirst, BeatWithSlots;
    var power, first := OldestFirst(s.queue, true, QUEUE_SIZE), OldestFirst(s.queue, false, QUEUE_SIZE);
    if power.Some? {
      OldReport(s, s.queue[power.value], now);
    } else if first.Some? {
      OldReport(s, s.queue[first.value], now);
    } else {
      match BeatWithSlots(s, now, SLOT_COUNT)
      case OpBeat(i, _) =>
        LatestOk(s, i);
        if s.ops[i].candidate { ProgressWaited(s, i, 0, now); } else { OldReport(s, s.ops[i].latest, now); }
      case SlotBeat(i, _) =>
        LatestOk(s, 0);
        OldReport(s, s.slots[i].published, now);
      case NoBeat => SlowChoiceWaited(s, now);
    }
  }

  /** An admitted progress packet starts the waits anew, whatever became of the operation's record. */
  lemma AdmittedProgressCounts(s: State, token: nat, now: nat, k: nat)
    requires Invariant(s) && k < OP_SIZE && Completes(s, token)
    requires s.selected.event.event == STEP && s.selected.event.operation == s.ops[k].id != 0
    ensures var op := Complete(s, token, true, now).ops[k];
            op.progressValid && op.progressSent == now && op.heartbeat == now + 2000
  {
    assert Find(s.ops, s.ops[k].id) == Some(k) by {
      assert DistinctIds(s.ops);
      hide OpOk, QueueOk, SlotOk, StartupOk;
    }
    hide Invariant, Find, CompleteQueue, CompleteSlot, AdmitStartup;
  }

  /** Upkeep discards a queued record exactly when it is 15 seconds old and no pending startup
      observation. */
  lemma ExpiresAtAge(s: State, now: nat, k: nat)
    requires Shaped(s) && k < QUEUE_SIZE && s.queue[k].valid
    ensures Expire(s, now).queue[k].valid <==>
              now < s.queue[k].born + 15000 || StartupPending(s.startup, s.queue[k])
  {
  }
}
