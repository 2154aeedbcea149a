/** For what callers actually publish, the deadline and the selector agree without exception. */
module EventAgreement {
  import opened Integers
  import opened Wrappers
  import opened EventProtocol
  import opened EventState
  import opened EventInvariant
  import opened EventSteps
  import opened EventDeadline

  /** Storage progress is only ever published to report an error. */
  predicate Ordinary(t: Timed) {
    t.step.Advance? && t.step.phase == PHASE_STORAGE ==> t.step.detail == REASON_STORAGE_ERROR
  }

  /** Progress waits only on an operation still running. */
  predicate Firm(op: Operation) {
    op.candidate ==> op.active
  }

  ghost predicate AllFirm(s: State)
    requires Shaped(s)
  {
    forall k | 0 <= k < OP_SIZE :: Firm(s.ops[k])
  }

  lemma FirmNotStranded(s: State, t: nat)
    requires Shaped(s) && AllFirm(s)
    ensures !AnyStranded(s, t)
  {
  }

  lemma SameOpsFirm(s: State, t: State)
    requires Shaped(s) && Shaped(t) && AllFirm(s) && t.ops == s.ops
    ensures AllFirm(t)
  {
  }

  lemma PublishOpFirm(s: State, i: nat, event: Byte, outcome: Byte, phase: Byte, detail: Byte, now: nat, limit: nat)
    requires Shaped(s) && AllFirm(s) && i < OP_SIZE
    ensures AllFirm(PublishOp(s, i, event, outcome, phase, detail, now, limit))
  {
    hide Enqueue;
    EnqueueOps(Stamp(s), Fresh(s, s.ops[i].id, s.ops[i].kind, event, outcome, phase, detail, now, limit));
  }

  lemma EnqueueOps(s: State, r: Record)
    requires Shaped(s)
    ensures Enqueue(s, r).ops == s.ops
  {
  }

  lemma AllocateFirm(s: State, kind: Byte, now: nat)
    requires Shaped(s) && AllFirm(s)
    ensures var a := Allocate(s, kind, now);
            a.Some? ==> AllFirm(a.value.0) && !a.value.0.ops[a.value.1].candidate
  {
  }

  lemma CalibrationFirm(s: State, t: Timed)
    requires Shaped(s) && AllFirm(s) && (t.step.Accept? || t.step.Begin? || t.step.Reject?)
    ensures AllFirm(Next(s, t))
  {
    AllocateFirm(s, t.step.kind, t.now);
    hide PublishOp, Enqueue;
    match t.step
    case Accept(kind) =>
      if Allocate(s, kind, t.now).Some? {
        var (s1, i) := Allocate(s, kind, t.now).value;
        PublishOpFirm(s1, i, ACCEPTED, 0, 0, 0, t.now, 3);
      }
    case Begin(kind, phase, detail) =>
      if Allocate(s, kind, t.now).Some? {
        var (s1, i) := Allocate(s, kind, t.now).value;
        var s2 := s1.(ops := s1.ops[i := s1.ops[i].(phase := phase, detail := detail, changed := t.now)]);
        PublishOpFirm(s2, i, BEGIN, 0, phase, detail, t.now, 1);
      }
    case Reject(kind, reason) =>
      if Allocate(s, kind, t.now).Some? {
        var (s1, i) := Allocate(s, kind, t.now).value;
        PublishOpFirm(s1.(ops := s1.ops[i := s1.ops[i].(active := false)]), i, REJECTED, FAILED, 0, reason, t.now, 3);
      }
  }

  lemma OperationFirm(s: State, t: Timed)
    requires Shaped(s) && AllFirm(s) && (t.step.Resume? || t.step.LatchReason? || t.step.Finish?)
    ensures AllFirm(Next(s, t))
  {
    hide PublishOp;
    if Find(s.ops, t.step.id).Some? {
      var i := Find(s.ops, t.step.id).value;
      var op := s.ops[i];
      match t.step
      case Resume(_, phase, detail) =>
        var s1 := s.(ops := s.ops[i := op.(phase := phase, detail := detail)]);
        PublishOpFirm(s1, i, BEGIN, 0, phase, detail, t.now, 1);
      case Finish(_, outcome, phase, reason) =>
        var s1 := s.(ops := s.ops[i := op.(active := false, candidate := false, latest := op.latest.(valid := false))]);
        PublishOpFirm(s1, i, END, outcome, phase,
                      if outcome == SUCCESS && reason == 0 then op.completionReason else reason, t.now, 3);
      case _ =>
    }
  }

  lemma AdvanceFirm(s: State, t: Timed)
    requires Shaped(s) && AllFirm(s) && t.step.Advance? && Ordinary(t)
    ensures AllFirm(Next(s, t))
  {
    hide Enqueue;
    if Find(s.ops, t.step.id).Some? {
      var i := Find(s.ops, t.step.id).value;
      var op := s.ops[i];
      var op1 := if t.step.phase == PHASE_RETRY
                 then op.(retryValid := true, retryReason := t.step.detail, retryAt := t.now) else op;
      var s1 := s.(ops := s.ops[i := op1]);
      EnqueueOps(Stamp(s1), Fresh(s1, t.step.id, op.kind, STEP, 0, t.step.phase, t.step.detail, t.now, 3));
    }
  }

  lemma {:induction false} RevealFirm(s: State, now: nat, n: nat)
    requires Shaped(s) && AllFirm(s) && n <= OP_SIZE
    ensures AllFirm(Reveal(s, now, n))
  {
    if n == 0 {
    } else {
      RevealFirm(s, now, n - 1);
      var s1 := Reveal(s, now, n - 1);
      var op := s1.ops[n - 1];
      PublishOpFirm(s1, n - 1, BEGIN, 0, op.phase, op.detail, now, 1);
      hide PublishOp;
    }
  }

  lemma MaterializeOps(s: State, i: nat, now: nat)
    requires Shaped(s) && i < 2
    ensures MaterializeOne(s, i, now).ops == s.ops
  {
  }

  lemma MaintainFirm(s: State, now: nat)
    requires Shaped(s) && AllFirm(s)
    ensures AllFirm(Maintain(s, now))
  {
    hide MaterializeOne, Reveal, UpkeepSlot;
    var s1 := Expire(s, now);
    MaterializeOps(s1, 0, now);
    MaterializeOps(MaterializeOne(s1, 0, now), 1, now);
    var s2 := MaterializeStartup(s1, now);
    SameOpsFirm(s, s2);
    RevealFirm(s2, now, OP_SIZE);
  }

  lemma ChooseProgressFirm(s: State, now: nat)
    requires Shaped(s) && AllFirm(s)
    ensures AllFirm(ChooseProgress(s, now).state)
  {
    hide NextProgress, NextSlot;
  }

  lemma ChooseFirm(s: State, now: nat)
    requires Shaped(s) && AllFirm(s)
    ensures AllFirm(Choose(s, now).state)
  {
    hide ChooseProgress, NextRepeat, NextSlot, OldestFirst, BeatWithSlots;
    ChooseProgressFirm(s, now);
  }

  lemma SelectFirm(s: State, now: nat, tracker: Byte)
    requires Shaped(s) && AllFirm(s)
    ensures AllFirm(Select(s, now, tracker).0)
  {
    hide Maintain, Choose;
    MaintainFirm(s, now);
    ChooseFirm(Maintain(s, now), now);
  }

  lemma CompleteFirm(s: State, token: nat, success: bool, now: nat)
    requires Shaped(s) && AllFirm(s)
    ensures AllFirm(Complete(s, token, success, now))
  {
    hide CompleteQueue, CompleteSlot, AdmitStartup, Find;
  }

  /** What neither touches operations nor clears them all. */
  lemma OtherFirm(s: State, t: Timed)
    requires Shaped(s) && AllFirm(s)
    requires t.step.Observed? || t.step.Notify? || t.step.BootScheduled? || t.step.Invalidated? || t.step.SensorFrame?
    ensures AllFirm(Next(s, t))
  {
    assert Next(s, t).ops == s.ops;
  }

  lemma IdentityFirm(s: State, t: Timed)
    requires Shaped(s) && AllFirm(s) && (t.step.IdentityStopped? || t.step.IdentityStarted?)
    ensures AllFirm(Next(s, t))
  {
  }

  lemma NextFirm(s: State, t: Timed)
    requires Shaped(s) && AllFirm(s) && Ordinary(t)
    ensures AllFirm(Next(s, t))
  {
    hide AllFirm;
    match t.step
    case Accept(_) => CalibrationFirm(s, t);
    case Begin(_, _, _) => CalibrationFirm(s, t);
    case Reject(_, _) => CalibrationFirm(s, t);
    case Resume(_, _, _) => OperationFirm(s, t);
    case LatchReason(_, _) => OperationFirm(s, t);
    case Finish(_, _, _, _) => OperationFirm(s, t);
    case Advance(_, _, _) => AdvanceFirm(s, t);
    case Selected(tracker) => SelectFirm(s, t.now, tracker);
    case Completed(token, success) => CompleteFirm(s, token, success, t.now);
    case DeadlineRead => DeadlineFirm(s, t.now);
    case IdentityStopped => IdentityFirm(s, t);
    case IdentityStarted(_) => IdentityFirm(s, t);
    case _ => OtherFirm(s, t);
  }

  lemma DeadlineFirm(s: State, now: nat)
    requires Shaped(s) && AllFirm(s)
    ensures AllFirm(AfterDeadline(s, now))
  {
    hide Maintain;
    MaintainFirm(s, now);
  }

  lemma {:induction false} ReachableFirm(run: seq<Timed>)
    requires forall t <- run :: Ordinary(t)
    ensures AllFirm(After(run))
  {
    if run == [] {
    } else {
      hide Next;
      ReachableFirm(run[..|run| - 1]);
      NextFirm(After(run[..|run| - 1]), run[|run| - 1]);
    }
  }

  /** Agreement over runs: while storage progress only reports errors, the deadline says "now"
      exactly when a select now sends, whatever else was published, selected or completed. */
  lemma DeadlineIffSelect(run: seq<Timed>, now: nat, d: Option<nat>, tracker: Byte)
    requires forall t <- run :: Legitimate(t) && Ordinary(t)
    requires IsDeadline(AfterDeadline(After(run), now), now, d) && tracker < MAX_TRACKERS
    ensures d == Some(now) <==> Select(AfterDeadline(After(run), now), now, tracker).1.Some?
  {
    hide After, Next, AllFirm, IsDeadline, AnyStranded, Select;
    var s := After(run);
    ReachableInvariant(run);
    ReachableFirm(run);
    DeadlineFirm(s, now);
    FirmNotStranded(AfterDeadline(s, now), now);
    DeadlineAgreesWithSelect(s, now, d, tracker);
  }
}
