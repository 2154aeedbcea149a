/** Whole-run theorems: startup durability, identity isolation and repeat budgets. */
module EventHistory {
  import opened Integers
  import opened Wrappers
  import opened EventProtocol
  import opened EventState
  import opened EventInvariant
  import opened EventSteps
  import opened EventRuns

  // ------------------------------------------------------ startup durability

  /** A successful local admission of startup observation k. */
  predicate Admits(s: State, t: Timed, k: nat)
    requires Shaped(s) && k < 2
  {
    t.step.Completed? && t.step.success && Completes(s, t.step.token) && s.startup.tokens[k] == t.step.token
  }

  /** A shutdown or reboot intent, which overrides anything the boot still had to say. */
  predicate Retires(s: State, t: Timed) {
    && t.step.Notify? && t.step.kind == POWER && (t.step.phase == WILL_SHUTDOWN || t.step.phase == WILL_REBOOT)
    && t.step.detail == 0 && s.nonce != 0
  }

  /** How any single step may move the startup observations. */
  ghost predicate StartupMove(s: State, t: Timed, u: Startup)
    requires Shaped(s)
  {
    && |u.tokens| == 2 && |u.pending| == 2
    && (s.startup.scheduled ==> u.scheduled && u.at == s.startup.at && u.phase == s.startup.phase)
    && (s.startup.retired ==> u.retired)
    && (forall k | 0 <= k < 2 ::
          && (s.startup.scheduled && u.pending[k] ==> s.startup.pending[k])
          && (s.startup.pending[k] && !u.pending[k] ==> Admits(s, t, k) || Retires(s, t))
          && (s.startup.tokens[k] != 0 ==>
              u.tokens[k] == s.startup.tokens[k] || (u.tokens[k] == 0 && t.step.IdentityStarted?))
          && (s.startup.tokens[k] == 0 && u.tokens[k] != 0 ==>
                s.startup.pending[k] && s.startup.scheduled && s.startup.at <= t.now))
  }

  lemma MaterializedWhenPending(s: State, now: nat)
    requires Shaped(s)
    ensures var u := Maintain(s, now).startup;
            forall k | 0 <= k < 2 ::
              && (s.startup.tokens[k] != 0 ==> u.tokens[k] == s.startup.tokens[k])
              && (s.startup.tokens[k] == 0 && u.tokens[k] != 0 ==>
                    s.startup.pending[k] && s.startup.scheduled && s.startup.at <= now)
  {
    var s2 := MaterializeStartup(Expire(s, now), now);
    RevealFrame(s2, now, OP_SIZE);
    hide Reveal, Victim, UpkeepSlot;
  }

  lemma SameStartupMoves(s: State, t: Timed, r: State)
    requires Shaped(s) && r.startup == s.startup
    ensures StartupMove(s, t, r.startup)
  {
  }

  lemma MaintainMoves(s: State, t: Timed)
    requires Shaped(s)
    ensures StartupMove(s, t, Maintain(s, t.now).startup)
  {
    MaterializedWhenPending(s, t.now);
    MaintainFrame(s, t.now);
    hide Maintain, Admits, Retires, Unmaterialized;
  }

  lemma SelectedStartup(s: State, now: nat, tracker: Byte)
    requires Invariant(s)
    ensures var u := Select(s, now, tracker).0.startup; u == s.startup || u == Maintain(s, now).startup
  {
    hide Maintain, Select, From;
    SelectPicks(s, now, tracker);
  }

  lemma StayingMoves(s: State, t: Timed)
    requires Shaped(s)
    ensures StartupMove(s, t, s.startup)
  {
    SameStartupMoves(s, t, s);
  }

  lemma UpkeepMoves(s: State, t: Timed)
    requires Invariant(s) && (t.step.Selected? || t.step.DeadlineRead?)
    ensures StartupMove(s, t, Next(s, t).startup)
  {
    assert Shaped(s);
    hide Maintain, Select, StartupMove, Invariant;
    StayingMoves(s, t);
    MaintainMoves(s, t);
    if t.step.Selected? { SelectedStartup(s, t.now, t.step.tracker); }
  }

  lemma CompletedMoves(s: State, t: Timed)
    requires Invariant(s) && t.step.Completed?
    ensures StartupMove(s, t, Next(s, t).startup)
  {
    hide QueueOk, OpOk, SlotOk, Held, CompleteQueue, CompleteOps, CompleteSlot;
  }

  lemma IdentityMoves(s: State, t: Timed)
    requires Invariant(s) && (t.step.BootScheduled? || t.step.IdentityStopped? || t.step.IdentityStarted?)
    ensures StartupMove(s, t, Next(s, t).startup)
  {
    hide QueueOk, OpOk, SlotOk, Held;
  }

  lemma NoticeMoves(s: State, t: Timed)
    requires Invariant(s) && t.step.Notify?
    ensures StartupMove(s, t, Next(s, t).startup)
  {
    NoticeFrom(s, t.step.kind, t.step.phase, t.step.detail, t.now);
    hide From, Enqueue, QueueOk, OpOk, SlotOk, Held;
  }

  lemma StartupMoves(s: State, t: Timed)
    requires Invariant(s)
    ensures StartupMove(s, t, Next(s, t).startup)
  {
    match t.step
    case Accept(_) => CalibrationFrom(s, t); SameStartupMoves(s, t, Next(s, t)); hide *;
    case Begin(_, _, _) => CalibrationFrom(s, t); SameStartupMoves(s, t, Next(s, t)); hide *;
    case Reject(_, _) => CalibrationFrom(s, t); SameStartupMoves(s, t, Next(s, t)); hide *;
    case Resume(_, _, _) => ResumeFrom(s, t); SameStartupMoves(s, t, Next(s, t)); hide *;
    case LatchReason(_, _) => LatchFrom(s, t); SameStartupMoves(s, t, Next(s, t)); hide *;
    case Finish(_, _, _, _) => FinishFrom(s, t); SameStartupMoves(s, t, Next(s, t)); hide *;
    case Advance(id, phase, detail) =>
      StepFrom(s, id, phase, detail, t.now);
      SameStartupMoves(s, t, Next(s, t));
      hide *;
    case Observed(_, _, _) => ObservedFrom(s, t); SameStartupMoves(s, t, Next(s, t)); hide *;
    case Invalidated(_) => InvalidatedFrom(s, t); SameStartupMoves(s, t, Next(s, t)); hide *;
    case SensorFrame(_, _, _, _, _, _) => FrameFrom(s, t); SameStartupMoves(s, t, Next(s, t)); hide *;
    case Notify(_, _, _) => NoticeMoves(s, t); hide *;
    case Selected(_) => UpkeepMoves(s, t); hide *;
    case DeadlineRead => UpkeepMoves(s, t); hide *;
    case Completed(_, _) => CompletedMoves(s, t); hide *;
    case BootScheduled(_, _) => IdentityMoves(s, t); hide *;
    case IdentityStopped => IdentityMoves(s, t); hide *;
    case IdentityStarted(_) => IdentityMoves(s, t); hide *;
  }

  /** Some step of run[i..j] admitted observation k or retired the startup observations. */
  ghost predicate Released(run: seq<Timed>, i: nat, j: nat, k: nat)
    requires i <= j <= |run| && k < 2
  {
    exists m :: i <= m < j && (Admits(After(run[..m]), run[m], k) || Retires(After(run[..m]), run[m]))
  }

  /** Durability: whatever producers, selections, expiry, overflow and identity changes
      intervene, a pending observation is later either released, or still pending and then
      not yet materialised or waiting untransmitted in the queue. */
  lemma {:induction false} StartupDurable(run: seq<Timed>, i: nat, j: nat, k: nat)
    requires forall t <- run :: Legitimate(t)
    requires i <= j <= |run| && k < 2
    requires After(run[..i]).startup.pending[k]
    ensures var s := After(run[..j]);
            || Released(run, i, j, k)
            || (s.startup.pending[k] && (s.startup.tokens[k] == 0 || Held(s.queue, s.startup, k)))
    decreases j
  {
    hide Admits, Retires, Next, After, Held;
    ReachableInvariant(run[..j]);
    if i == j {
    } else {
      var s, t := After(run[..j - 1]), run[j - 1];
      StartupDurable(run, i, j - 1, k);
      AfterPrefix(run, j - 1);
      ReachableInvariant(run[..j - 1]);
      StartupMoves(s, t);
      if !Released(run, i, j - 1, k) && !Next(s, t).startup.pending[k] {
        assert Admits(s, t, k) || Retires(s, t);
      }
    }
  }

  /** Once spent, an observation is never armed or materialised again. */
  lemma {:induction false} StartupNeverRepeats(run: seq<Timed>, i: nat, j: nat, k: nat)
    requires forall t <- run :: Legitimate(t)
    requires i <= j <= |run| && k < 2
    requires After(run[..i]).startup.scheduled && !After(run[..i]).startup.pending[k]
    ensures var s, u := After(run[..j]).startup, After(run[..i]).startup;
            && s.scheduled && !s.pending[k] && (s.tokens[k] == u.tokens[k] || s.tokens[k] == 0)
    decreases j
  {
    hide Admits, Retires, Next, After, Held;
    ReachableInvariant(run[..i]);
    ReachableInvariant(run[..j]);
    if i == j {
    } else {
      var s, t := After(run[..j - 1]), run[j - 1];
      StartupNeverRepeats(run, i, j - 1, k);
      AfterPrefix(run, j - 1);
      ReachableInvariant(run[..j - 1]);
      StartupMoves(s, t);
    }
  }

  // ------------------------------------------------------ identity isolation

  /** The token floor: everything up to it belongs to an identity already erased. */
  function Floor(run: seq<Timed>): nat {
    if run == [] then 0
    else
      var before := run[..|run| - 1];
      if run[|run| - 1].step.IdentityStarted? then After(before).serial else Floor(before)
  }

  ghost predicate RecordAbove(r: Record, floor: nat) {
    r.valid ==> r.token > floor
  }

  /** No live record and no remembered selection predates the current identity. */
  ghost predicate Isolated(s: State, floor: nat) {
    && Shaped(s) && floor <= s.serial
    && (forall k | 0 <= k < QUEUE_SIZE :: RecordAbove(s.queue[k], floor))
    && (forall k | 0 <= k < OP_SIZE :: RecordAbove(s.ops[k].latest, floor))
    && RecordAbove(s.slots[0].published, floor) && RecordAbove(s.slots[1].published, floor)
    && RecordAbove(s.selected, floor)
    && (s.selected.valid ==> s.selected.event.nonce != 0 && s.selected.token <= s.serial)
  }

  lemma FromIsolated(s: State, t: State, floor: nat)
    requires Isolated(s, floor) && From(s, t) && t.selected == s.selected
    ensures Isolated(t, floor)
  {
  }

  /** Completion neither revives a record nor changes whose it is. */
  lemma CompletedOpToken(op: Operation, sent: bool, selected: Record, now: nat)
    ensures var c := CompleteOp(op, sent, selected, now).latest;
            c.valid ==> op.latest.valid && c.token == op.latest.token
  {
  }

  lemma CompletedSlotToken(x: Slot, domain: nat, selected: Record, now: nat)
    ensures var c := CompleteSlot(x, domain, selected, now).published;
            c.valid ==> x.published.valid && c.token == x.published.token
  {
  }

  lemma CompletedOpsTokens(ops: seq<Operation>, sent: Option<nat>, selected: Record, now: nat)
    ensures var t := CompleteOps(ops, sent, selected, now);
            forall k | 0 <= k < |ops| ::
              t[k].latest.valid ==> ops[k].latest.valid && t[k].latest.token == ops[k].latest.token
  {
    hide CompleteOp;
    var t := CompleteOps(ops, sent, selected, now);
    forall k | 0 <= k < |ops|
      ensures t[k].latest.valid ==> ops[k].latest.valid && t[k].latest.token == ops[k].latest.token
    {
      CompletedOpToken(ops[k], sent == Some(k), selected, now);
    }
  }

  lemma CompletedQueueTokens(q: seq<Record>, token: nat, startup: bool, now: nat)
    ensures var t := CompleteQueue(q, token, startup, now);
            forall k | 0 <= k < |q| :: t[k].valid ==> q[k].valid && t[k].token == q[k].token
  {
  }

  lemma AdmitIsolated(s: State, sent: Record, now: nat, floor: nat)
    requires Isolated(s, floor)
    ensures Isolated(Admit(s, sent, now), floor)
  {
    hide CompleteQueue, CompleteOps, CompleteSlot, AdmitStartup;
    CompletedQueueTokens(s.queue, sent.token, sent.token in s.startup.tokens, now);
    CompletedOpsTokens(s.ops, Find(s.ops, sent.event.operation), sent, now);
    CompletedSlotToken(s.slots[0], 0, sent, now);
    CompletedSlotToken(s.slots[1], 1, sent, now);
  }

  lemma CompleteIsolated(s: State, token: nat, success: bool, now: nat, floor: nat)
    requires Isolated(s, floor)
    ensures Isolated(Complete(s, token, success, now), floor)
  {
    hide Admit;
    var gated := s.(sendGate := true, nextSend := now + if success then SPACING_MS else RETRY_MS);
    AdmitIsolated(gated, s.selected, now, floor);
  }

  lemma SelectIsolated(s: State, now: nat, tracker: Byte, floor: nat)
    requires Invariant(s) && Isolated(s, floor)
    ensures Isolated(Select(s, now, tracker).0, floor)
    ensures var (t, sent) := Select(s, now, tracker);
            sent.Some? ==> s.nonce != 0 && sent.value.token > floor && Decode(sent.value.packet).Some?
                           && Decode(sent.value.packet).value.nonce == s.nonce
  {
    hide Maintain, Select, Invariant;
    SelectPicks(s, now, tracker);
    SelectKeeps(s, now, tracker);
    SelectFrom(s, now, tracker);
    MaintainFrom(s, now);
    SentMeansSelected(s, now, tracker);
  }

  lemma SentMeansSelected(s: State, now: nat, tracker: Byte)
    requires Invariant(s)
    ensures Select(s, now, tracker).1.Some? ==>
              && tracker < MAX_TRACKERS && Maintain(s, now).nonce != 0 && GateOpen(Maintain(s, now), now)
              && Choose(Maintain(s, now), now).record.Some?
              && Select(s, now, tracker).0.selected == Choose(Maintain(s, now), now).record.value
  {
  }

  lemma NextIsolated(s: State, t: Timed, floor: nat)
    requires Invariant(s) && Isolated(s, floor)
    ensures Isolated(Next(s, t), if t.step.IdentityStarted? then s.serial else floor)
  {
    hide Invariant, From;
    if t.step.Completed? {
      hide Complete;
      CompleteIsolated(s, t.step.token, t.step.success, t.now, floor);
    } else if t.step.Selected? {
      hide Select;
      SelectIsolated(s, t.now, t.step.tracker, floor);
    } else if !t.step.IdentityStarted? {
      hide Next;
      NextFrom(s, t);
      FromIsolated(s, Next(s, t), floor);
    }
  }

  lemma {:induction false} ReachableIsolated(run: seq<Timed>)
    requires forall t <- run :: Legitimate(t)
    ensures Isolated(After(run), Floor(run))
  {
    if run == [] {
    } else {
      var before := run[..|run| - 1];
      ReachableIsolated(before);
      ReachableInvariant(before);
      NextIsolated(After(before), run[|run| - 1], Floor(before));
    }
  }

  /** Identity isolation: a packet is only ever selected from records of the current identity and
      carries its nonce; nothing is selected while there is none; and completing a token of an
      older identity changes nothing. */
  lemma IdentityIsolation(run: seq<Timed>, now: nat, tracker: Byte, token: nat, success: bool)
    requires forall t <- run :: Legitimate(t)
    ensures var s, sent := After(run), Select(After(run), now, tracker).1;
            && (sent.Some? ==> s.nonce != 0 && sent.value.token > Floor(run)
                               && Decode(sent.value.packet).Some? && Decode(sent.value.packet).value.nonce == s.nonce)
            && (token <= Floor(run) || s.nonce == 0 ==> Complete(s, token, success, now) == s)
  {
    ReachableInvariant(run);
    ReachableIsolated(run);
    SelectIsolated(After(run), now, tracker, Floor(run));
    hide Select, Invariant, After, Floor, Admit;
  }

  // ---------------------------------------------------------- repeat budgets

  /** Successful local admissions of one token over a run. */
  function Admissions(run: seq<Timed>, token: nat): nat {
    if run == [] then 0
    else
      var before, t := run[..|run| - 1], run[|run| - 1];
      Admissions(before, token)
      + if Credited(After(before), t, token) then 1 else 0
  }

  /** The copies of every queued record, and of a budgeted selection, are its admissions so far. */
  ghost predicate Counted(s: State, run: seq<Timed>) {
    && Shaped(s)
    && (forall k | 0 <= k < QUEUE_SIZE && s.queue[k].valid ::
          Admissions(run, s.queue[k].token) == s.queue[k].copies)
    && SelectionCounted(s, run)
    && (forall token: nat | token > s.serial :: Admissions(run, token) == 0)
  }

  ghost predicate SelectionCounted(s: State, run: seq<Timed>) {
    s.selected.valid ==>
      && s.selected.token <= s.serial
      && (Budgeted(s.selected.event) ==> Admissions(run, s.selected.token) == s.selected.copies < s.selected.limit <= 3)
  }

  lemma CountedFrom(s: State, t: State, before: seq<Timed>, run: seq<Timed>)
    requires Counted(s, before) && From(s, t) && t.selected == s.selected
    requires forall token: nat :: Admissions(run, token) == Admissions(before, token)
    ensures Counted(t, run)
  {
  }

  lemma CountedSelect(s: State, now: nat, tracker: Byte, before: seq<Timed>, run: seq<Timed>)
    requires Invariant(s) && Counted(s, before)
    requires forall token: nat :: Admissions(run, token) == Admissions(before, token)
    ensures Counted(Select(s, now, tracker).0, run)
  {
    hide Maintain, Select, Admissions, Budgeted;
    SelectPicks(s, now, tracker);
    MaintainFrom(s, now);
    MaintainFrame(s, now);
    MaintainKeeps(s, now);
    var s1, t := Maintain(s, now), Select(s, now, tracker).0;
    if t != s {
      FromTransitive(s, s1, t);
      CountedFrom(s, s1, before, before);
      CountedFrom(s, t.(selected := s.selected), before, run);
    }
  }

  lemma CountedComplete(s: State, token: nat, success: bool, now: nat, before: seq<Timed>, run: seq<Timed>)
    requires Invariant(s) && Counted(s, before)
    requires forall x: nat :: Admissions(run, x)
                              == Admissions(before, x) + if success && x == token && Completes(s, token) then 1 else 0
    ensures Counted(Complete(s, token, success, now), run)
  {
    hide Admissions, OpOk, SlotOk, StartupOk, CompleteOps, CompleteSlot, AdmitStartup, Legal;
    if Completes(s, token) && success {
      var startup := s.startup.tokens[0] == token || s.startup.tokens[1] == token;
      var t := Complete(s, token, success, now);
      assert t.queue == CompleteQueue(s.queue, token, startup, now) && t.serial == s.serial && !t.selected.valid;
    }
  }

  predicate Credited(s: State, t: Timed, token: nat) {
    t.step.Completed? && t.step.success && t.step.token == token && Completes(s, token)
  }

  lemma NextCounted(s: State, t: Timed, before: seq<Timed>, run: seq<Timed>)
    requires Invariant(s) && Counted(s, before)
    requires forall x: nat :: Admissions(run, x) == Admissions(before, x) + (if Credited(s, t, x) then 1 else 0)
    ensures Counted(Next(s, t), run)
  {
    hide Admissions, Invariant, From, Complete, Select;
    if t.step.Completed? {
      CountedComplete(s, t.step.token, t.step.success, t.now, before, run);
    } else if t.step.Selected? {
      CountedSelect(s, t.now, t.step.tracker, before, run);
    } else if !t.step.IdentityStarted? {
      hide Next;
      NextFrom(s, t);
      CountedFrom(s, Next(s, t), before, run);
    }
  }

  lemma {:induction false} ReachableCounted(run: seq<Timed>)
    requires forall t <- run :: Legitimate(t)
    ensures Counted(After(run), run)
  {
    if run == [] {
    } else {
      hide Next, Invariant, Counted;
      var before, t := run[..|run| - 1], run[|run| - 1];
      ReachableCounted(before);
      ReachableInvariant(before);
      NextCounted(After(before), t, before, run);
    }
  }

  /** No notice, END or REJECTED record is admitted more than its three times. */
  lemma BudgetRespected(run: seq<Timed>, n: nat)
    requires forall t <- run :: Legitimate(t)
    requires n < |run| && run[n].step.Completed? && run[n].step.success
    requires Completes(After(run[..n]), run[n].step.token) && Budgeted(After(run[..n]).selected.event)
    ensures Admissions(run[..n + 1], run[n].step.token) <= 3
  {
    ReachableCounted(run[..n]);
    assert run[..n + 1][..n] == run[..n];
  }

  /** Some step of run[i..j] admitted the token. */
  ghost predicate Spent(run: seq<Timed>, i: nat, j: nat, token: nat)
    requires i <= j <= |run|
  {
    exists m :: i <= m < j && Credited(After(run[..m]), run[m], token)
  }

  lemma {:induction false} UnspentAdmissions(run: seq<Timed>, i: nat, j: nat, token: nat)
    requires i <= j <= |run| && !Spent(run, i, j, token)
    ensures Admissions(run[..j], token) == Admissions(run[..i], token)
    decreases j
  {
    hide After, Credited;
    if i == j {
    } else {
      UnspentAdmissions(run, i, j - 1, token);
      assert run[..j][..j - 1] == run[..j - 1];
    }
  }

  /** Only success spends a repeat: however many admissions fail, and whatever else happens, a
      queued record keeps its copies until one of its own succeeds; and a failed admission changes
      no record, operation, rest domain or startup observation at all. */
  lemma FailuresSpendNothing(run: seq<Timed>, i: nat, j: nat, k: nat, m: nat)
    requires forall t <- run :: Legitimate(t)
    requires i <= j <= |run| && k < QUEUE_SIZE && m < QUEUE_SIZE
    requires var r, u := After(run[..i]).queue[k], After(run[..j]).queue[m];
             r.valid && u.valid && r.token == u.token && !Spent(run, i, j, r.token)
    ensures After(run[..j]).queue[m].copies == After(run[..i]).queue[k].copies
    ensures j < |run| && run[j].step.Completed? && !run[j].step.success ==>
              var s, t := After(run[..j]), After(run[..j + 1]);
              t == s.(sendGate := t.sendGate, nextSend := t.nextSend, selected := t.selected)
  {
    hide After, Admissions, Spent, Complete;
    var token := After(run[..i]).queue[k].token;
    ReachableCounted(run[..i]);
    ReachableCounted(run[..j]);
    UnspentAdmissions(run, i, j, token);
    if j < |run| && run[j].step.Completed? {
      AfterPrefix(run, j);
      FailureSpendsNothing(After(run[..j]), run[j].step.token, run[j].now);
    }
  }

  /** A failed admission spends nothing: only the retry gate and the selection change. */
  lemma FailureSpendsNothing(s: State, token: nat, now: nat)
    requires Shaped(s)
    ensures var t := Complete(s, token, false, now);
            t == s.(sendGate := t.sendGate, nextSend := t.nextSend, selected := t.selected)
  {
  }

  // ------------------------------------------------------------ urgent first

  lemma {:induction false} OldestPowerIsFirst(q: seq<Record>, n: nat)
    requires n <= |q|
    ensures var r := OldestFirst(q, true, n);
            r.Some? ==> forall k | 0 <= k < n && Eligible(q[k], true) :: !Before(q[k], q[r.value], true)
  {
    if n == 0 {
    } else {
      OldestPowerIsFirst(q, n - 1);
    }
  }

  /** A waiting shutdown or reboot intent is chosen before anything else, earliest first. */
  lemma UrgentChosen(s: State, now: nat, k: nat)
    requires Invariant(s) && k < QUEUE_SIZE
    requires s.queue[k].valid && s.queue[k].event.kind == POWER && Urgent(s.queue[k])
    ensures var c := Choose(s, now);
            && c.record.Some? && c.record.value in s.queue
            && c.record.value.event.kind == POWER && Urgent(c.record.value)
            && c.record.value.token <= s.queue[k].token
  {
    OldestPowerIsFirst(s.queue, QUEUE_SIZE);
    assert Eligible(s.queue[k], true);
  }

  /** After any run, while such an intent waits: whatever a select sends is one, no younger; and a
      select sends unless the gate is shut or the identity is being replaced. */
  lemma UrgentFirst(run: seq<Timed>, now: nat, tracker: Byte, k: nat)
    requires forall t <- run :: Legitimate(t)
    requires k < QUEUE_SIZE && tracker < MAX_TRACKERS
    requires var r := Maintain(After(run), now).queue[k]; r.valid && r.event.kind == POWER && Urgent(r)
    ensures var s, s1, (t, sent) := After(run), Maintain(After(run), now), Select(After(run), now, tracker);
            && (sent.Some? <==> s.nonce != 0 && GateOpen(s, now))
            && (sent.Some? ==>
                  && t.selected in s1.queue && t.selected.event.kind == POWER && Urgent(t.selected)
                  && t.selected.token <= s1.queue[k].token && sent.value.token == t.selected.token
                  && sent.value.packet == Packet(t.selected.event.(tracker := tracker)))
  {
    hide After, Maintain, Choose, Invariant, Urgent;
    var s := After(run);
    ReachableInvariant(run);
    MaintainKeeps(s, now);
    MaintainFrame(s, now);
    UrgentChosen(Maintain(s, now), now, k);
    SelectKeeps(s, now, tracker);
  }
}
