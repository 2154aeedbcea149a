/** What the calls of producers and sensors bring about, in the fields a later send will show. */
module EventEffects {
  import opened Integers
  import opened Wrappers
  import opened EventProtocol
  import opened EventState
  import opened EventInvariant
  import opened EventSteps
  import opened EventMeaning

  // ------------------------------------------------------- calls that publish

  /** Whether a call has something to publish at once. */
  predicate Speaks(s: State, t: Timed)
    requires Shaped(s)
  {
    match t.step
    case Accept(kind) => s.nonce != 0 && IsCalibration(kind)
    case Reject(kind, _) => s.nonce != 0 && IsCalibration(kind)
    case Begin(kind, _, _) => s.nonce != 0 && IsCalibration(kind) && kind != MAG_ONLINE_AUTO
    case Resume(id, _, _) => Find(s.ops, id).Some? && s.ops[Find(s.ops, id).value].active
    case Advance(id, phase, detail) =>
      Find(s.ops, id).Some? && phase == PHASE_STORAGE && detail == REASON_STORAGE_ERROR
    case Finish(id, outcome, _, _) =>
      && Find(s.ops, id).Some? && 1 <= outcome <= 4
      && var op := s.ops[Find(s.ops, id).value];
         op.active && (op.kind == MAG_ONLINE_AUTO && !op.visible ==> outcome == SUCCESS)
    case Notify(kind, phase, detail) =>
      s.nonce != 0 && Legal(Event(s.nonce, 0, 0, 0, kind, NOTICE, 0, phase, detail))
    case _ => false
  }

  /** The record just published: numbered next, and to be sent once if it is a BEGIN, else thrice. */
  ghost predicate IsNew(s: State, r: Record, said: Saying) {
    && r.valid && SaidBy(r.event) == said && r.copies == 0
    && r.limit == (if said.event == BEGIN then 1 else 3)
    && r.token == s.serial + 1 && r.event.seqno == s.sequence && r.event.nonce == s.nonce
  }

  /** Only a queue holding nothing but power notices refuses a record, and never a power notice. */
  ghost predicate Published(s: State, t: State, said: Saying)
    requires Shaped(s) && Shaped(t)
  {
    || (exists k :: 0 <= k < QUEUE_SIZE && IsNew(s, t.queue[k], said))
    || (said.kind != POWER && t.queue == s.queue
        && forall k | 0 <= k < QUEUE_SIZE :: s.queue[k].valid && s.queue[k].event.kind == POWER)
  }

  /** Of the invariant, what concerns the queue alone. */
  ghost predicate QueueSound(s: State) {
    Shaped(s) && QueueOk(s.queue, s.nonce, s.serial) && StartupOk(s.startup, s.queue, s.serial)
  }

  lemma PendingIsPower(s: State, k: nat)
    requires QueueSound(s) && k < QUEUE_SIZE && s.queue[k].valid && StartupPending(s.startup, s.queue[k])
    ensures s.queue[k].event.kind == POWER
  {
    hide Legal;
    var u := s.startup;
    var i := if u.pending[0] && u.tokens[0] == s.queue[k].token then 0 else 1;
    assert Held(s.queue, u, i);
    var j :| 0 <= j < |s.queue| && Holds(s.queue[j], u, i);
    assert j == k;
  }

  lemma EnqueuePublishes(s: State, r: Record, said: Saying)
    requires Shaped(s) && IsNew(s, r, said) && (said.kind != POWER ==> QueueSound(s))
    ensures Published(s, Enqueue(Stamp(s), r), said)
  {
    hide StartupPending, QueueOk, StartupOk;
    var v, t := Victim(s.queue, s.startup, 0, 0), Enqueue(Stamp(s), r);
    if t.queue == s.queue && said.kind != POWER {
      VictimMeaning(s.queue, s.startup, s.nonce, s.serial);
      if s.queue[v].valid && s.queue[v].event.kind == POWER {
        forall k | 0 <= k < QUEUE_SIZE ensures s.queue[k].valid && s.queue[k].event.kind == POWER {
          if StartupPending(s.startup, s.queue[k]) { PendingIsPower(s, k); }
        }
      } else {
        assert IsNew(s, t.queue[v], said);
      }
    } else {
      assert IsNew(s, t.queue[v], said);
    }
  }

  lemma PublishOpPublishes(s: State, i: nat, event: Byte, outcome: Byte, phase: Byte, detail: Byte, now: nat)
    requires QueueSound(s) && i < OP_SIZE && IsCalibration(s.ops[i].kind)
    ensures var limit := if event == BEGIN then 1 else 3;
            Published(s, PublishOp(s, i, event, outcome, phase, detail, now, limit),
                      Saying(s.ops[i].kind, event, outcome, phase, detail))
  {
    assert Shaped(s);
    hide Enqueue, QueueSound;
    var limit := if event == BEGIN then 1 else 3;
    var r := Fresh(s, s.ops[i].id, s.ops[i].kind, event, outcome, phase, detail, now, limit);
    EnqueuePublishes(s, r, SaidBy(r.event));
  }

  lemma PublishedAlike(s: State, like: State, t: State, said: Saying)
    requires Shaped(s) && Shaped(like) && Shaped(t) && Published(like, t, said)
    requires like.queue == s.queue && like.nonce == s.nonce && like.serial == s.serial && like.sequence == s.sequence
    ensures Published(s, t, said)
  {
    if k :| 0 <= k < QUEUE_SIZE && IsNew(like, t.queue[k], said) { assert IsNew(s, t.queue[k], said); }
  }

  lemma CalibrationPublishes(s: State, t: Timed)
    requires Shaped(s) && QueueSound(s) && (t.step.Accept? || t.step.Begin? || t.step.Reject?) && Speaks(s, t)
    ensures Published(s, Next(s, t), Said(s, t).value)
  {
    AllocatedKind(s, t.step.kind, t.now);
    var (s1, i) := Allocate(s, t.step.kind, t.now).value;
    AllocatedRest(s, t.step.kind, t.now);
    hide PublishOp, Enqueue, Allocate, QueueSound, Published;
    match t.step
    case Accept(kind) =>
      PublishOpPublishes(s1, i, ACCEPTED, 0, 0, 0, t.now);
      PublishedAlike(s, s1, Next(s, t), Said(s, t).value);
    case Begin(kind, phase, detail) =>
      var s2 := s1.(ops := s1.ops[i := s1.ops[i].(phase := phase, detail := detail, changed := t.now)]);
      SameQueue(s1, s2);
      PublishOpPublishes(s2, i, BEGIN, 0, phase, detail, t.now);
      PublishedAlike(s, s2, Next(s, t), Said(s, t).value);
    case Reject(kind, reason) =>
      var s2 := s1.(ops := s1.ops[i := s1.ops[i].(active := false)]);
      SameQueue(s1, s2);
      PublishOpPublishes(s2, i, REJECTED, FAILED, 0, reason, t.now);
      PublishedAlike(s, s2, Next(s, t), Said(s, t).value);
  }

  lemma AllocatedRest(s: State, kind: Byte, now: nat)
    requires QueueSound(s) && Allocate(s, kind, now).Some?
    ensures var s1 := Allocate(s, kind, now).value.0;
            QueueSound(s1) && s1.queue == s.queue && s1.serial == s.serial && s1.sequence == s.sequence
            && s1.nonce == s.nonce
  {
    hide QueueOk, StartupOk, OpVictim, FreshId;
  }

  lemma SameQueue(s: State, t: State)
    requires QueueSound(s) && Shaped(t)
    requires t.queue == s.queue && t.startup == s.startup && t.nonce == s.nonce && t.serial == s.serial
    ensures QueueSound(t)
  {
  }

  lemma OperationPublishes(s: State, t: Timed)
    requires Invariant(s) && (t.step.Resume? || t.step.Finish?) && Speaks(s, t)
    ensures Published(s, Next(s, t), Said(s, t).value)
  {
    var i := Find(s.ops, t.step.id).value;
    var op := s.ops[i];
    assert OpOk(op, s.nonce, s.serial) && QueueSound(s);
    hide PublishOp, QueueSound, Invariant, OpOk, Published;
    match t.step
    case Resume(_, phase, detail) =>
      var s1 := s.(ops := s.ops[i := op.(phase := phase, detail := detail)]);
      SameQueue(s, s1);
      PublishOpPublishes(s1, i, BEGIN, 0, phase, detail, t.now);
      PublishedAlike(s, s1, Next(s, t), Said(s, t).value);
    case Finish(_, outcome, phase, reason) =>
      var s1 := s.(ops := s.ops[i := op.(active := false, candidate := false, latest := op.latest.(valid := false))]);
      SameQueue(s, s1);
      PublishOpPublishes(s1, i, END, outcome, phase,
                         if outcome == SUCCESS && reason == 0 then op.completionReason else reason, t.now);
      PublishedAlike(s, s1, Next(s, t), Said(s, t).value);
  }

  lemma AdvancePublishes(s: State, t: Timed)
    requires Invariant(s) && t.step.Advance? && Speaks(s, t)
    ensures Published(s, Next(s, t), Said(s, t).value)
  {
    var i := Find(s.ops, t.step.id).value;
    var op := s.ops[i];
    assert OpOk(op, s.nonce, s.serial) && QueueSound(s);
    hide Enqueue, QueueSound, Invariant, OpOk;
    var s1 := s.(ops := s.ops[i := op]);
    var r := Fresh(s1, op.id, op.kind, STEP, 0, t.step.phase, t.step.detail, t.now, 3);
    SameQueue(s, s1);
    EnqueuePublishes(s1, r, SaidBy(r.event));
  }

  lemma NotifyPublishes(s: State, t: Timed)
    requires QueueSound(s) && Shaped(s) && t.step.Notify? && Speaks(s, t)
    ensures Published(s, Next(s, t), Said(s, t).value)
  {
    hide Enqueue, Legal, QueueSound;
    var Notify(kind, phase, detail) := t.step;
    var s1 := if kind == POWER && (phase == WILL_SHUTDOWN || phase == WILL_REBOOT)
              then s.(startup := s.startup.(retired := true, pending := [false, false])) else s;
    var s2 := if kind == POWER && phase == WOM_CANCELLED then s1.(queue := CancelWom(s1.queue)) else s1;
    var r := Fresh(s2, 0, kind, NOTICE, 0, phase, detail, t.now, 3);
    EnqueuePublishes(s2, r, SaidBy(r.event));
  }

  /** A call that has something to say gets it into the queue, word for word and next in number,
      unless power notices fill the queue; power notices always get in. */
  lemma CallsPublish(s: State, t: Timed)
    requires Invariant(s) && Speaks(s, t)
    ensures Said(s, t).Some? && Published(s, Next(s, t), Said(s, t).value)
  {
    assert QueueSound(s);
    hide Next, Published, Invariant, QueueSound;
    if t.step.Accept? || t.step.Begin? || t.step.Reject? { CalibrationPublishes(s, t); }
    if t.step.Resume? || t.step.Finish? { OperationPublishes(s, t); }
    if t.step.Advance? { AdvancePublishes(s, t); }
    if t.step.Notify? { NotifyPublishes(s, t); }
  }

  /** Cancelling wake-on-motion withdraws its announcement, and nothing else but the entry reused. */
  lemma CancelledIsWithdrawn(s: State, detail: Byte, now: nat)
    requires Shaped(s) && s.nonce != 0 && detail <= 2
    ensures var t := Next(s, Timed(Notify(POWER, WOM_CANCELLED, detail), now));
            forall k | 0 <= k < QUEUE_SIZE && s.queue[k].valid ::
              if s.queue[k].event.kind == POWER && s.queue[k].event.phase == WILL_WOM
              then !t.queue[k].valid || t.queue[k].token == s.serial + 1
              else t.queue[k] == s.queue[k] || t.queue[k].token == s.serial + 1
  {
    hide Victim;
  }

  // ------------------------------------------------------------ operations

  /** Progress of a running operation is what it is next reported to be at; a storage error and a
      retry repeated within a second leave it. */
  lemma AdvanceMeaning(s: State, t: Timed)
    requires Shaped(s) && t.step.Advance? && Find(s.ops, t.step.id).Some?
    ensures var i := Find(s.ops, t.step.id).value; var op, end := s.ops[i], Next(s, t).ops[i];
            var Advance(_, phase, detail) := t.step;
            var again := phase == PHASE_RETRY && op.retryValid && op.retryReason == detail && t.now < op.retryAt + 1000;
            && (op.active && !again && !(phase == PHASE_STORAGE && detail == REASON_STORAGE_ERROR) ==>
                  && end.phase == phase && end.detail == detail
                  && ((op.phase, op.detail) != (phase, detail) ==> end.candidate && end.changed == t.now))
            && (again || (phase == PHASE_STORAGE && detail == REASON_STORAGE_ERROR) ==>
                  end.phase == op.phase && end.detail == op.detail && end.candidate == op.candidate)
  {
    hide Enqueue;
    var i := Find(s.ops, t.step.id).value;
    var s1 := s.(ops := s.ops[i := s.ops[i]]);
    OnlyQueue(s1, Fresh(s1, s.ops[i].id, s.ops[i].kind, STEP, 0, t.step.phase, t.step.detail, t.now, 3));
  }

  lemma OnlyQueue(s: State, r: Record)
    requires Shaped(s)
    ensures Enqueue(Stamp(s), r).ops == s.ops && Enqueue(Stamp(s), r).slots == s.slots
  {
    hide Victim;
  }

  /** A retry for the same reason within a second of one that counted changes nothing. */
  lemma RetriesThrottled(s: State, id: Word, reason: Byte, a: nat, b: nat)
    requires Shaped(s) && b < a + 1000
    requires Next(s, Timed(Advance(id, PHASE_RETRY, reason), a)) != s
    ensures var once := Next(s, Timed(Advance(id, PHASE_RETRY, reason), a));
            Next(once, Timed(Advance(id, PHASE_RETRY, reason), b)) == once
  {
    var once := Next(s, Timed(Advance(id, PHASE_RETRY, reason), a));
    var i := Find(s.ops, id).value;
    SameFind(s.ops, once.ops, id, 0);
    assert once.ops[i].retryValid && once.ops[i].retryReason == reason && once.ops[i].retryAt == a;
  }

  lemma {:induction false} SameFind(a: seq<Operation>, b: seq<Operation>, id: Word, i: nat)
    requires |a| == |b| && i <= |a| && forall k | 0 <= k < |a| :: a[k].id == b[k].id
    ensures Find(a, id, i) == Find(b, id, i)
    decreases |a| - i
  {
    if i == |a| {
    } else {
      SameFind(a, b, id, i + 1);
    }
  }

  /** The reason latched for a running operation is the one its success is reported with. */
  lemma LatchedReasonReported(s: State, id: Word, reason: Byte, phase: Byte, a: nat, b: nat)
    requires Shaped(s) && Find(s.ops, id).Some? && s.ops[Find(s.ops, id).value].active
    ensures var latched := Next(s, Timed(LatchReason(id, reason), a));
            var said := Said(latched, Timed(Finish(id, SUCCESS, phase, 0), b));
            said.Some? && said.value.detail == reason
  {
    var latched := Next(s, Timed(LatchReason(id, reason), a));
    SameFind(s.ops, latched.ops, id, 0);
  }

  /** An operation hidden for a second becomes visible, with a BEGIN of what it then is. */
  lemma HiddenIsRevealed(s: State, now: nat, k: nat)
    requires Shaped(s) && k < OP_SIZE
    requires var op := s.ops[k];
             op.active && op.kind == MAG_ONLINE_AUTO && !op.visible && op.born + 1000 <= now
    ensures var op := Maintain(s, now).ops[k];
            && op.visible && !op.candidate && op.latest.valid && op.latest.copies == 0
            && SaidBy(op.latest.event) == Saying(op.kind, BEGIN, 0, s.ops[k].phase, s.ops[k].detail)
  {
    var s1 := MaterializeStartup(Expire(s, now), now);
    SameOps(s, now);
    RevealsInTurn(s1, now, k, OP_SIZE);
    hide Reveal, Expire, MaterializeStartup, UpkeepSlot;
  }

  lemma SameOps(s: State, now: nat)
    requires Shaped(s)
    ensures MaterializeStartup(Expire(s, now), now).ops == s.ops
  {
    hide Victim;
  }

  lemma {:induction false} RevealsInTurn(s: State, now: nat, k: nat, n: nat)
    requires Shaped(s) && k < OP_SIZE && n <= OP_SIZE
    ensures var op := Reveal(s, now, n).ops[k];
            if n <= k || !RevealDue(s.ops[k], now) then op == s.ops[k]
            else && op.visible && !op.candidate && op.latest.valid && op.latest.copies == 0 && op.kind == s.ops[k].kind
                 && SaidBy(op.latest.event) == Saying(op.kind, BEGIN, 0, s.ops[k].phase, s.ops[k].detail)
  {
    if n == 0 {
    } else {
      hide RevealOne;
      RevealsInTurn(s, now, k, n - 1);
      RevealOneMeaning(Reveal(s, now, n - 1), n - 1, now);
    }
  }

  lemma RevealOneMeaning(s: State, i: nat, now: nat)
    requires Shaped(s) && i < OP_SIZE
    ensures var t := RevealOne(s, i, now); var op := t.ops[i];
            && (forall k | 0 <= k < OP_SIZE && k != i :: t.ops[k] == s.ops[k])
            && if !RevealDue(s.ops[i], now) then op == s.ops[i]
               else && op.visible && !op.candidate && op.latest.valid && op.latest.copies == 0
                    && op.kind == s.ops[i].kind
                    && SaidBy(op.latest.event) == Saying(op.kind, BEGIN, 0, s.ops[i].phase, s.ops[i].detail)
  {
    hide Enqueue;
    var op := s.ops[i];
    OnlyQueue(s, Fresh(s, op.id, op.kind, BEGIN, 0, op.phase, op.detail, now, 1));
  }

  // ------------------------------------------------------------ rest domains

  /** The value is being reported, or waits to be. */
  predicate Announced(x: Slot) {
    x.candidate
    || (x.published.valid && x.published.event.phase == x.phase && x.published.event.detail == x.detail)
  }

  predicate Holding(x: Slot, phase: Byte, detail: Byte) {
    x.phase == phase && x.detail == detail && Announced(x)
  }

  /** What one frame says of the two domains, at rest or not, is reported or waits to be; of fusion
      only with a backend that can tell. */
  lemma FrameMeaning(s: State, t: Timed)
    requires Shaped(s) && t.step.SensorFrame? && s.nonce != 0 && t.step.epoch == s.epoch
    ensures var SensorFrame(_, trackerFresh, trackerRest, fusionFresh, fusionRest, backend) := t.step;
            var x, y := Next(s, t).slots[0], Next(s, t).slots[1];
            && (trackerFresh ==> x.observed && x.lastObserved == t.now && Holding(x, if trackerRest then 1 else 0, 0))
            && (!trackerFresh ==> x == s.slots[0])
            && (if backend == BACKEND_VQF || backend == BACKEND_EQF then
                  if fusionFresh
                  then y.observed && y.lastObserved == t.now && Holding(y, if fusionRest then 1 else 0, backend)
                  else y == s.slots[1]
                else !y.observed && Holding(y, FUSION_UNAVAILABLE, 0))
  {
  }

  /** Invalidating the sensor makes both domains unknown, withdraws what was reported of them, and
      makes frames of the old sensor count for nothing. */
  lemma InvalidateMeaning(s: State, reason: Byte, now: nat, t: Timed)
    requires Shaped(s) && t.step.SensorFrame? && t.step.epoch <= s.epoch
    ensures var u := Next(s, Timed(Invalidated(reason), now));
            && (forall k | 0 <= k < SLOT_COUNT :: !u.slots[k].observed && !u.slots[k].published.valid)
            && (s.nonce != 0 ==>
                  Holding(u.slots[0], REST_UNKNOWN, reason) && Holding(u.slots[1], REST_UNKNOWN, s.slots[1].detail))
            && Next(u, t) == u
  {
  }

  /** Observations a domain can hold are held; no others change anything. */
  lemma ObservedMeaning(s: State, kind: Byte, phase: Byte, detail: Byte, now: nat)
    requires Shaped(s)
    ensures var u := Next(s, Timed(Observed(kind, phase, detail), now));
            if s.nonce != 0 && TRACKER_REST <= kind <= FUSION_REST && RestPair(kind - TRACKER_REST, phase, detail)
            then Holding(u.slots[kind - TRACKER_REST], phase, detail)
                 && forall k | 0 <= k < SLOT_COUNT && k != kind - TRACKER_REST :: u.slots[k] == s.slots[k]
            else u == s
  {
  }

  /** A domain unseen for a second is unknown after upkeep, and one seen since is left as it is. */
  lemma StaleIsUnknown(x: Slot, domain: nat, now: nat)
    requires domain < 2
    ensures var y := UpkeepSlot(x, domain, now);
            && (x.observed && x.lastObserved + 1000 <= now ==>
                  && !y.observed && y.phase == REST_UNKNOWN
                  && y.detail == if domain == 1 then x.detail else NO_FRESH_FRAME)
            && (!x.observed || now < x.lastObserved + 1000 ==>
                  y.phase == x.phase && y.detail == x.detail && y.candidate == x.candidate)
  {
  }

  /** An admitted rest report starts its waits anew and counts as one of its three copies. */
  lemma AdmittedRestCounts(s: State, token: nat, now: nat, k: nat)
    requires Shaped(s) && k < SLOT_COUNT && Completes(s, token)
    requires s.slots[k].published.valid && s.slots[k].published.token == token && s.slots[k].published.copies < 255
    ensures var x, y := s.slots[k], Complete(s, token, true, now).slots[k];
            && y.published.copies == x.published.copies + 1 && y.published.sent == now
            && (x.published.copies == 0 ==> y.publishValid && y.lastPublish == now)
            && y.phase == x.phase && y.detail == x.detail && y.candidate == x.candidate
  {
    hide Find, CompleteQueue, CompleteOps, AdmitStartup;
  }
}
