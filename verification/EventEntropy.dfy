/** When entropy failure is final. A change of identity is two locked sections with entropy sought
    in between, and only the first one looks at the failure flag. */
module EventEntropy {
  import opened Integers
  import opened Wrappers
  import opened EventProtocol
  import opened EventState
  import opened EventInvariant
  import opened EventSteps
  import opened EventRuns
  import opened EventHistory

  /** Changes of identity begun and not yet completed; after a failure none begins. */
  function InFlight(run: seq<Timed>): nat {
    if run == [] then 0
    else
      var before, t := run[..|run| - 1], run[|run| - 1];
      if t.step.IdentityStopped? then InFlight(before) + if After(before).entropyFailed then 0 else 1
      else if t.step.IdentityStarted? && InFlight(before) > 0 then InFlight(before) - 1
      else InFlight(before)
  }

  /** Second sections belong to changes in flight. */
  ghost predicate Paired(run: seq<Timed>) {
    forall n | 0 <= n < |run| && run[n].step.IdentityStarted? :: InFlight(run[..n]) > 0
  }

  ghost predicate Lawful(run: seq<Timed>) {
    Paired(run) && forall t <- run :: Legitimate(t)
  }

  lemma FailureStays(s: State, t: Timed)
    requires Invariant(s) && s.entropyFailed && !t.step.IdentityStarted?
    ensures Next(s, t).entropyFailed
  {
    match t.step
    case Accept(_) => CalibrationFrom(s, t); hide *;
    case Begin(_, _, _) => CalibrationFrom(s, t); hide *;
    case Reject(_, _) => CalibrationFrom(s, t); hide *;
    case Resume(_, _, _) => ResumeFrom(s, t); hide *;
    case LatchReason(_, _) => LatchFrom(s, t); hide *;
    case Finish(_, _, _, _) => FinishFrom(s, t); hide *;
    case Advance(id, phase, detail) => StepFrom(s, id, phase, detail, t.now); hide CalStep;
    case Observed(_, _, _) => ObservedFrom(s, t); hide *;
    case Invalidated(_) => InvalidatedFrom(s, t); hide *;
    case SensorFrame(_, _, _, _, _, _) => FrameFrom(s, t); hide *;
    case Notify(kind, phase, detail) => NoticeFrom(s, kind, phase, detail, t.now); hide Notice;
    case Selected(tracker) => SelectKeeps(s, t.now, tracker); hide Select;
    case DeadlineRead => MaintainFrame(s, t.now); hide Maintain;
    case Completed(_, _) =>
    case BootScheduled(_, _) =>
    case IdentityStopped =>
  }

  lemma InFlightPrefix(run: seq<Timed>, n: nat)
    requires n < |run|
    ensures var c := InFlight(run[..n]);
            InFlight(run[..n + 1])
            == if run[n].step.IdentityStopped? then c + if After(run[..n]).entropyFailed then 0 else 1
               else if run[n].step.IdentityStarted? && c > 0 then c - 1 else c
  {
    hide After;
    assert run[..n + 1][..n] == run[..n];
  }

  /** With no other change in flight, a failure stays for the rest of the boot. */
  lemma {:induction false} FailureLasts(run: seq<Timed>, i: nat, j: nat)
    requires Lawful(run) && i <= j <= |run|
    requires After(run[..i]).entropyFailed && InFlight(run[..i]) == 0
    ensures After(run[..j]).entropyFailed && InFlight(run[..j]) == 0
    decreases j
  {
    hide After, Next, InFlight;
    if i == j {
    } else {
      FailureLasts(run, i, j - 1);
      AfterPrefix(run, j - 1);
      InFlightPrefix(run, j - 1);
      ReachableInvariant(run[..j - 1]);
      FailureStays(After(run[..j - 1]), run[j - 1]);
    }
  }

  lemma SilentWithoutIdentity(s: State, now: nat, tracker: Byte)
    requires Invariant(s) && s.nonce == 0
    ensures Select(s, now, tracker).1 == None
  {
    SentMeansSelected(s, now, tracker);
    MaintainFrame(s, now);
  }

  /** Nothing is ever sent again, whatever follows. */
  ghost predicate SilentForever(run: seq<Timed>) {
    forall more: seq<Timed>, now: nat, tracker: Byte | Lawful(run + more) ::
      Select(After(run + more), now, tracker).1 == None
  }

  /** A change still in flight ends after the failure, with entropy; then a shutdown is announced. */
  function Revival(): seq<Timed> {
    [Timed(IdentityStarted(7), 0), Timed(Notify(POWER, WILL_SHUTDOWN, 0), 0)]
  }

  function Announced(s: State): (r: State)
    requires Shaped(s)
    ensures Shaped(r)
  {
    Notice(SessionStart(s, 7), POWER, WILL_SHUTDOWN, 0, 0)
  }

  /** The announcement waits in the queue of the new identity, and upkeep leaves it there. */
  lemma AnnouncementWaits(s: State) returns (k: nat)
    requires Invariant(s)
    ensures k < QUEUE_SIZE && Announced(s).nonce == 7 && !Announced(s).sendGate
    ensures var r := Maintain(Announced(s), 0).queue[k]; r.valid && r.event.kind == POWER && Urgent(r)
  {
    var s1 := SessionStart(s, 7);
    var s2 := s1.(startup := s1.startup.(retired := true, pending := [false, false]));
    var r := Fresh(s2, 0, POWER, NOTICE, 0, WILL_SHUTDOWN, 0, 0, 3);
    k := 0;
    assert Announced(s).queue == s1.queue[0 := r];
    assert Announced(s).ops == s1.ops;
    QuietUpkeep(Announced(s));
  }

  lemma QuietUpkeep(s: State)
    requires Shaped(s) && !s.startup.pending[0] && !s.startup.pending[1]
    requires s.ops == Blank(OP_SIZE, NO_OPERATION)
    requires forall i | 0 <= i < QUEUE_SIZE :: s.queue[i].born + TTL_MS > 0
    ensures Maintain(s, 0).queue == s.queue
  {
    var s1 := Expire(s, 0);
    assert s1.queue == s.queue;
    NothingToReveal(MaterializeStartup(s1, 0), OP_SIZE);
  }

  lemma {:induction false} NothingToReveal(s: State, n: nat)
    requires Shaped(s) && n <= OP_SIZE && s.ops == Blank(OP_SIZE, NO_OPERATION)
    ensures Reveal(s, 0, n) == s
  {
    if n == 0 {
    } else {
      NothingToReveal(s, n - 1);
    }
  }

  lemma RevivalSends(run: seq<Timed>)
    requires Lawful(run) && InFlight(run) > 0
    ensures Lawful(run + Revival()) && Select(After(run + Revival()), 0, 0).1.Some?
  {
    hide After, InFlight, Next, Select, Invariant, Maintain;
    var all := run + Revival();
    var n := |run|;
    assert all[..n] == run && all[..n + 2] == all;
    AfterPrefix(all, n);
    AfterPrefix(all, n + 1);
    RevivalSteps(After(run));
    RevivalLawful(run);
    ReachableInvariant(run);
    var k := AnnouncementWaits(After(run));
    UrgentFirst(all, 0, 0, k);
  }

  lemma RevivalSteps(s: State)
    requires Shaped(s)
    ensures Next(Next(s, Revival()[0]), Revival()[1]) == Announced(s)
  {
  }

  lemma RevivalLawful(run: seq<Timed>)
    requires Lawful(run) && InFlight(run) > 0
    ensures Lawful(run + Revival())
  {
    hide InFlight;
    var all := run + Revival();
    forall m | 0 <= m < |all| && all[m].step.IdentityStarted? ensures InFlight(all[..m]) > 0 {
      if m < |run| { assert all[..m] == run[..m]; } else { assert m == |run| && all[..m] == run; }
    }
    forall t <- all ensures Legitimate(t) {
      assert t in run || t in Revival();
    }
  }

  /** Entropy failure silences the tracker for the rest of the boot if and only if no other change
      of identity was in flight: one that was still completes, and may bring an identity back. */
  lemma FailureFinalIff(run: seq<Timed>)
    requires Lawful(run) && After(run).entropyFailed
    ensures SilentForever(run) <==> InFlight(run) == 0
  {
    hide After, InFlight, Select, Invariant, Lawful;
    if InFlight(run) == 0 {
      forall more: seq<Timed>, now: nat, tracker: Byte | Lawful(run + more)
        ensures Select(After(run + more), now, tracker).1 == None
      {
        StaysSilent(run, more, now, tracker);
      }
    } else {
      RevivalSends(run);
    }
  }

  lemma StaysSilent(run: seq<Timed>, more: seq<Timed>, now: nat, tracker: Byte)
    requires Lawful(run + more) && After(run).entropyFailed && InFlight(run) == 0
    ensures Select(After(run + more), now, tracker).1 == None
  {
    hide After, InFlight, Select;
    var all := run + more;
    assert all[..|run|] == run && all[..|all|] == all;
    FailureLasts(all, |run|, |all|);
    ReachableInvariant(all);
    SilentWithoutIdentity(After(all), now, tracker);
  }

  /** Two changes overlap: both pass the first section, one finds no entropy, the other does. */
  function Overlap(): seq<Timed> {
    [Timed(IdentityStopped, 0), Timed(IdentityStopped, 0), Timed(IdentityStarted(0), 0)]
  }

  lemma OverlapFails()
    ensures Lawful(Overlap()) && After(Overlap()).entropyFailed && InFlight(Overlap()) == 1
  {
    hide After, InFlight;
    var run := Overlap();
    assert run[..0] == [] && run[..3] == run;
    AfterPrefix(run, 0); AfterPrefix(run, 1); AfterPrefix(run, 2);
    InFlightPrefix(run, 0); InFlightPrefix(run, 1); InFlightPrefix(run, 2);
    NothingYet();
  }

  lemma NothingYet()
    ensures After([]) == Initial() && InFlight([]) == 0
  {
  }

  /** The overlapping run goes on to send, after a failure was recorded. */
  lemma FailureNeedNotBeFinal()
    ensures After(Overlap()).entropyFailed && Lawful(Overlap() + Revival())
    ensures Select(After(Overlap() + Revival()), 0, 0).1.Some?
  {
    hide After, InFlight, Select, Lawful;
    OverlapFails();
    RevivalSends(Overlap());
  }
}
