/** The deadline index agrees with what the selector would actually do. */
module EventDeadline {
  import opened Integers
  import opened Wrappers
  import opened EventProtocol
  import opened EventState
  import opened EventInvariant
  import opened EventSteps

  // --------------------------------------------------- when upkeep is idle

  ghost predicate SlotSettled(x: Slot, t: nat) {
    && !(x.observed && x.lastObserved + SENSOR_FRESH_MS <= t)
    && !(x.published.valid && x.published.copies < x.published.limit && x.published.born + TTL_MS <= t)
  }

  /** Upkeep at t has nothing left to do. */
  ghost predicate Settled(s: State, t: nat)
    requires Shaped(s)
  {
    && (forall k | 0 <= k < QUEUE_SIZE :: !Expires(s.startup, s.queue[k], t))
    && (s.nonce != 0 && s.startup.scheduled && s.startup.at <= t ==>
          !Unmaterialized(s.startup, 0) && !Unmaterialized(s.startup, 1))
    && (forall k | 0 <= k < OP_SIZE :: !RevealDue(s.ops[k], t))
    && SlotSettled(s.slots[0], t) && SlotSettled(s.slots[1], t)
  }

  lemma {:induction false} RevealIdle(s: State, t: nat, n: nat)
    requires Shaped(s) && n <= OP_SIZE
    requires forall k | 0 <= k < OP_SIZE :: !RevealDue(s.ops[k], t)
    ensures Reveal(s, t, n) == s
  {
    if n == 0 {
    } else {
      RevealIdle(s, t, n - 1);
    }
  }

  lemma SettledIsIdle(s: State, t: nat)
    requires Shaped(s) && Settled(s, t)
    ensures Maintain(s, t) == s
  {
    assert ExpireQueue(s.queue, s.startup, t) == s.queue;
    assert Expire(s, t) == s;
    RevealIdle(s, t, OP_SIZE);
    assert [UpkeepSlot(s.slots[0], 0, t), UpkeepSlot(s.slots[1], 1, t)] == s.slots;
  }

  ghost predicate NoneExpired(s: State, t: nat)
    requires Shaped(s)
  {
    forall k | 0 <= k < QUEUE_SIZE :: !Expires(s.startup, s.queue[k], t)
  }

  lemma EnqueueExpires(s: State, r: Record, t: nat)
    requires Shaped(s) && NoneExpired(s, t) && r.born == t
    ensures NoneExpired(Enqueue(s, r), t)
  {
    hide Victim;
  }

  lemma MaterializeExpires(s: State, i: nat, t: nat)
    requires Invariant(s) && NoneExpired(s, t) && i < 2
    ensures var u := MaterializeOne(s, i, t);
            NoneExpired(u, t) && !Unmaterialized(u.startup, i) && u.ops == s.ops && u.nonce == s.nonce
            && (!Unmaterialized(s.startup, 1 - i) ==> !Unmaterialized(u.startup, 1 - i))
            && u.startup.scheduled == s.startup.scheduled && u.startup.at == s.startup.at
  {
    hide OpOk, SlotOk, StartupOk, DistinctIds, Legal, Victim;
    if Unmaterialized(s.startup, i) {
      var r := Fresh(s, 0, POWER, NOTICE, 0, if i == 1 then WATCHDOG_RESET else s.startup.phase, 0, t, 3);
      var s1 := Stamp(s).(startup := s.startup.(tokens := s.startup.tokens[i := r.token]));
      assert NoneExpired(s1, t);
      EnqueueExpires(s1, r, t);
    }
  }

  lemma {:induction false} RevealSettles(s: State, t: nat, n: nat)
    requires Shaped(s) && NoneExpired(s, t) && n <= OP_SIZE
    ensures var u := Reveal(s, t, n);
            && NoneExpired(u, t)
            && (forall k | 0 <= k < n :: !RevealDue(u.ops[k], t))
            && (forall k | n <= k < OP_SIZE :: u.ops[k] == s.ops[k])
  {
    if n == 0 {
    } else {
      RevealSettles(s, t, n - 1);
      RevealOneSettles(Reveal(s, t, n - 1), n - 1, t);
    }
  }

  lemma RevealOneSettles(s: State, i: nat, t: nat)
    requires Shaped(s) && NoneExpired(s, t) && i < OP_SIZE
    ensures var u := RevealOne(s, i, t);
            NoneExpired(u, t) && !RevealDue(u.ops[i], t) && u.ops == s.ops[i := u.ops[i]]
  {
    if RevealDue(s.ops[i], t) {
      var op := s.ops[i];
      EnqueueExpires(Stamp(s), Fresh(s, op.id, op.kind, BEGIN, 0, op.phase, op.detail, t, 1), t);
    }
  }

  lemma UpkeepSlotSettles(x: Slot, domain: nat, t: nat)
    ensures SlotSettled(UpkeepSlot(x, domain, t), t)
  {
  }

  ghost predicate StartupSettled(s: State, t: nat)
    requires Shaped(s)
  {
    && NoneExpired(s, t)
    && (s.nonce != 0 && s.startup.scheduled && s.startup.at <= t ==>
          !Unmaterialized(s.startup, 0) && !Unmaterialized(s.startup, 1))
  }

  lemma MaterializeSettles(s: State, t: nat)
    requires Invariant(s) && NoneExpired(s, t)
    ensures StartupSettled(MaterializeStartup(s, t), t)
  {
    if s.nonce != 0 && s.startup.scheduled && s.startup.at <= t {
      MaterializeExpires(s, 0, t);
      MaterializeKeeps(s, 0, t);
      MaterializeExpires(MaterializeOne(s, 0, t), 1, t);
    }
  }

  /** One pass of upkeep is enough: a second pass at the same time changes nothing. */
  lemma MaintainSettles(s: State, t: nat)
    requires Invariant(s)
    ensures Settled(Maintain(s, t), t)
    ensures Maintain(Maintain(s, t), t) == Maintain(s, t)
  {
    ExpireKeeps(s, t);
    var s1 := Expire(s, t);
    assert NoneExpired(s1, t);
    MaterializeSettles(s1, t);
    var s2 := MaterializeStartup(s1, t);
    hide Invariant, MaterializeStartup, Expire;
    RevealSettles(s2, t, OP_SIZE);
    RevealFrame(s2, t, OP_SIZE);
    var s3 := Reveal(s2, t, OP_SIZE);
    UpkeepSlotSettles(s3.slots[0], 0, t);
    UpkeepSlotSettles(s3.slots[1], 1, t);
    SettledIsIdle(Maintain(s, t), t);
  }

  // ------------------------------------------------- what the selector picks

  predicate OpReady(op: Operation, t: nat) {
    OpBeatDue(op, t) || ProgressDue(op, t) || ProgressStalled(op)
  }

  predicate SlotReady(x: Slot, t: nat) {
    SlotBeatDue(x, t) || SlotFresh(x, t) || SlotRepeatable(x)
  }

  /** Something is waiting that the selector is willing to send at t. */
  ghost predicate Ready(s: State, t: nat)
    requires Shaped(s)
  {
    || (exists k :: 0 <= k < QUEUE_SIZE && s.queue[k].valid)
    || (exists k :: 0 <= k < OP_SIZE && OpReady(s.ops[k], t))
    || SlotReady(s.slots[0], t) || SlotReady(s.slots[1], t)
  }

  /** The selector picks something exactly when something is ready. */
  lemma ChooseIff(s: State, t: nat)
    requires Invariant(s)
    ensures Choose(s, t).record.Some? <==> Ready(s, t)
  {
    hide OpOk, StartupOk, DistinctIds, Legal, SlotOk;
    if OldestFirst(s.queue, true, QUEUE_SIZE).None? && OldestFirst(s.queue, false, QUEUE_SIZE).None? {
      match BeatWithSlots(s, t, SLOT_COUNT)
      case OpBeat(i, _) => assert OpReady(s.ops[i], t);
      case SlotBeat(i, _) =>
      case NoBeat => ChooseSlowIff(s, t);
    }
  }

  lemma ChooseSlowIff(s: State, t: nat)
    requires Invariant(s) && BeatWithSlots(s, t, SLOT_COUNT).NoBeat?
    requires OldestFirst(s.queue, false, QUEUE_SIZE).None?
    ensures ChooseSlow(s, t).record.Some? <==> Ready(s, t)
  {
    hide OpOk, StartupOk, DistinctIds, Legal, SlotOk;
    if NextRepeat(s.queue, s.queueRr, 0).None? {
      forall k | 0 <= k < QUEUE_SIZE ensures !s.queue[k].valid {
        assert !Repeatable(s.queue[k]) && !Eligible(s.queue[k], false);
      }
      if NextSlot(s.slots, s.slotRr, false, t, 0).None? {
        assert !SlotWants(s.slots[0], false, t) && !SlotWants(s.slots[1], false, t);
        ChooseProgressIff(s, t);
      } else {
        assert SlotReady(s.slots[NextSlot(s.slots, s.slotRr, false, t, 0).value], t);
      }
    }
  }

  lemma ChooseProgressIff(s: State, t: nat)
    requires Shaped(s) && BeatWithSlots(s, t, SLOT_COUNT).NoBeat?
    requires forall k | 0 <= k < QUEUE_SIZE :: !s.queue[k].valid
    requires !SlotFresh(s.slots[0], t) && !SlotFresh(s.slots[1], t)
    ensures ChooseProgress(s, t).record.Some? <==> Ready(s, t)
  {
    if NextProgress(s.ops, s.opRr, t, 0).None? {
      assert forall k | 0 <= k < OP_SIZE :: !OpReady(s.ops[k], t) by {
        forall k | 0 <= k < OP_SIZE ensures !OpReady(s.ops[k], t) { assert !OpWants(s.ops[k], t); }
      }
      if NextSlot(s.slots, s.slotRr, true, t, 0).None? {
        assert !SlotWants(s.slots[0], true, t) && !SlotWants(s.slots[1], true, t);
      }
    } else {
      assert OpReady(s.ops[NextProgress(s.ops, s.opRr, t, 0).value], t);
    }
  }

  // ---------------------------------------------- what the deadline considers

  /** A finished operation whose END was suppressed, then given storage progress: the
      deadline keeps counting it and the selector never sends it. */
  predicate Stranded(op: Operation, t: nat) {
    && op.id != 0 && !op.active && op.candidate && HiddenOnline(op)
    && op.changed + COALESCE_MS <= t
    && (!op.progressValid || op.progressSent + PROGRESS_GAP_MS <= t)
  }

  ghost predicate AnyStranded(s: State, t: nat)
    requires Shaped(s)
  {
    exists k :: 0 <= k < OP_SIZE && Stranded(s.ops[k], t)
  }

  lemma OpTimesMeaning(op: Operation, nonce: Long, serial: nat, now: nat)
    requires OpOk(op, nonce, serial) && !RevealDue(op, now)
    ensures (exists t <- OpTimes(op, now) :: t <= now) <==> OpReady(op, now) || Stranded(op, now)
    ensures forall u | now <= u && (forall t <- OpTimes(op, now) :: u < t) ::
              !OpReady(op, u) && !RevealDue(op, u)
  {
    hide Legal, IsCalibration;
    var beat := if op.candidate && op.progressValid then Max(op.heartbeat, op.progressSent + PROGRESS_GAP_MS)
                else op.heartbeat;
    var progress := if op.progressValid then Max(op.changed + COALESCE_MS, op.progressSent + PROGRESS_GAP_MS)
                    else op.changed + COALESCE_MS;
    if op.id != 0 && !(op.active && HiddenOnline(op)) {
      assert op.active && op.visible && (op.latest.valid || op.candidate) ==> beat in OpTimes(op, now);
      assert op.candidate ==> progress in OpTimes(op, now);
      assert ProgressStalled(op) ==> now in OpTimes(op, now);
    } else if op.id != 0 {
      assert op.born + HIDDEN_MS in OpTimes(op, now);
    }
  }

  lemma SlotTimesMeaning(x: Slot, domain: nat, nonce: Long, serial: nat, now: nat)
    requires SlotOk(x, domain, nonce, serial) && SlotSettled(x, now)
    ensures (exists t <- SlotTimes(x, now) :: t <= now) <==> SlotReady(x, now)
    ensures forall u | now <= u && (forall t <- SlotTimes(x, now) :: u < t) ::
              !SlotReady(x, u) && SlotSettled(x, u)
  {
    hide Legal, RestPair;
    assert x.observed ==> x.lastObserved + SENSOR_FRESH_MS in SlotTimes(x, now);
    if x.candidate {
      assert (if x.publishValid then x.lastPublish + PROGRESS_GAP_MS else now) in SlotTimes(x, now);
    } else if x.published.valid {
      if x.published.copies < x.published.limit {
        assert now in SlotTimes(x, now);
      } else if x.observed {
        assert x.published.sent + REST_HEARTBEAT_MS in SlotTimes(x, now);
      }
    }
  }

  lemma {:induction false} OpsTimesMembers(ops: seq<Operation>, now: nat, n: nat, t: nat)
    requires n <= |ops|
    ensures t in OpsTimes(ops, now, n) <==> exists k :: 0 <= k < n && t in OpTimes(ops[k], now)
  {
    if n == 0 {
    } else {
      OpsTimesMembers(ops, now, n - 1, t);
    }
  }

  lemma {:induction false} QueueTimesMembers(q: seq<Record>, now: nat, n: nat)
    requires n <= |q|
    ensures QueueTimes(q, now, n) == if exists k :: 0 <= k < n && q[k].valid then {now} else {}
  {
    if n == 0 {
    } else {
      QueueTimesMembers(q, now, n - 1);
    }
  }

  lemma StartupTimesMembers(u: Startup)
    requires |u.tokens| == 2 && |u.pending| == 2
    ensures StartupTimes(u, 2) == if Unmaterialized(u, 0) || Unmaterialized(u, 1) then {u.at} else {}
  {
    assert StartupTimes(u, 1) == if Unmaterialized(u, 0) then {u.at} else {};
  }

  /** Some considered time has come exactly when there is something to send, or something stranded. */
  lemma TimesMeaning(s: State, now: nat)
    requires Invariant(s) && s.nonce != 0 && Settled(s, now)
    ensures (exists t <- Times(s, now) :: t <= now) <==> Ready(s, now) || AnyStranded(s, now)
  {
    StartupTimesMembers(s.startup);
    QueueTimesMembers(s.queue, now, QUEUE_SIZE);
    forall k | 0 <= k < OP_SIZE
      ensures (exists t <- OpTimes(s.ops[k], now) :: t <= now) <==> OpReady(s.ops[k], now) || Stranded(s.ops[k], now)
    {
      OpTimesMeaning(s.ops[k], s.nonce, s.serial, now);
    }
    SlotTimesMeaning(s.slots[0], 0, s.nonce, s.serial, now);
    SlotTimesMeaning(s.slots[1], 1, s.nonce, s.serial, now);
    assert Unmaterialized(s.startup, 0) || Unmaterialized(s.startup, 1) ==> now < s.startup.at;
    hide OpTimes, SlotTimes, OpReady, SlotReady, Stranded, Invariant, QueueTimes, StartupTimes, OpsTimes;
    if t :| t in Times(s, now) && t <= now {
      OpsTimesMembers(s.ops, now, OP_SIZE, t);
    }
    if k :| 0 <= k < OP_SIZE && (OpReady(s.ops[k], now) || Stranded(s.ops[k], now)) {
      var t :| t in OpTimes(s.ops[k], now) && t <= now;
      OpsTimesMembers(s.ops, now, OP_SIZE, t);
      assert t in Times(s, now);
    }
    if k :| 0 <= k < QUEUE_SIZE && s.queue[k].valid {
      assert now in Times(s, now);
    }
    if SlotReady(s.slots[0], now) {
      var t :| t in SlotTimes(s.slots[0], now) && t <= now;
      assert t in Times(s, now);
    }
    if SlotReady(s.slots[1], now) {
      var t :| t in SlotTimes(s.slots[1], now) && t <= now;
      assert t in Times(s, now);
    }
  }

  /** Before every considered time nothing is ready and upkeep stays idle. */
  lemma QuietUntilTimes(s: State, now: nat, u: nat)
    requires Invariant(s) && s.nonce != 0 && Settled(s, now) && now <= u
    requires forall t <- Times(s, now) :: u < t
    ensures Settled(s, u) && !Ready(s, u)
  {
    StartupTimesMembers(s.startup);
    QueueTimesMembers(s.queue, now, QUEUE_SIZE);
    assert QueueTimes(s.queue, now, QUEUE_SIZE) <= Times(s, now) && now !in Times(s, now);
    assert Unmaterialized(s.startup, 0) || Unmaterialized(s.startup, 1) ==> s.startup.at in Times(s, now);
    forall k | 0 <= k < OP_SIZE
      ensures !OpReady(s.ops[k], u) && !RevealDue(s.ops[k], u)
    {
      OpTimesMeaning(s.ops[k], s.nonce, s.serial, now);
      forall t | t in OpTimes(s.ops[k], now) ensures u < t {
        OpsTimesMembers(s.ops, now, OP_SIZE, t);
        assert t in Times(s, now);
      }
    }
    SlotTimesMeaning(s.slots[0], 0, s.nonce, s.serial, now);
    SlotTimesMeaning(s.slots[1], 1, s.nonce, s.serial, now);
    assert SlotTimes(s.slots[0], now) <= Times(s, now) && SlotTimes(s.slots[1], now) <= Times(s, now);
    hide OpTimes, SlotTimes, OpReady, SlotReady, Invariant, Times, RevealDue, SlotSettled, Unmaterialized;
  }

  // ----------------------------------------------------------- the agreement

  /** A select at t on a settled state sends exactly when the gate is open and something is ready. */
  lemma SelectIff(s: State, t: nat, tracker: Byte)
    requires Invariant(s) && tracker < MAX_TRACKERS
    ensures Select(s, t, tracker).1.Some?
            <==> s.nonce != 0 && GateOpen(s, t) && Ready(Maintain(s, t), t)
  {
    assert Shaped(s);
    hide Invariant, Maintain, Choose, Ready;
    MaintainKeeps(s, t);
    MaintainFrame(s, t);
    SelectKeeps(s, t, tracker);
    ChooseIff(Maintain(s, t), t);
  }

  lemma EarliestIsNow(times: set<nat>, now: nat, best: Option<nat>)
    requires Earliest(times, now, best)
    ensures best.Some? ==> now <= best.value
    ensures best == Some(now) <==> exists t <- times :: t <= now
  {
  }

  /** The deadline is "now" exactly when the gate is open and something is ready or stranded. */
  lemma DeadlineNowIff(s: State, now: nat, d: Option<nat>)
    requires Invariant(s) && IsDeadline(AfterDeadline(s, now), now, d)
    ensures var s1 := AfterDeadline(s, now);
            d == Some(now)
            <==> s.nonce != 0 && GateOpen(s, now) && (Ready(s1, now) || AnyStranded(s1, now))
  {
    if s.nonce != 0 {
      var s1 := Maintain(s, now);
      MaintainKeeps(s, now);
      MaintainFrame(s, now);
      MaintainSettles(s, now);
      TimesMeaning(s1, now);
      var best :| Earliest(Times(s1, now), now, best) && d == Gated(s1, best);
      EarliestIsNow(Times(s1, now), now, best);
      hide Maintain, Invariant, Times, Ready, AnyStranded, Settled, Earliest;
    }
  }

  /** Agreement: with no stranded operation, the deadline says "now" iff a select now sends. */
  lemma DeadlineAgreesWithSelect(s: State, now: nat, d: Option<nat>, tracker: Byte)
    requires Invariant(s) && IsDeadline(AfterDeadline(s, now), now, d) && tracker < MAX_TRACKERS
    ensures var s1 := AfterDeadline(s, now);
            (d == Some(now)
             <==> Select(s1, now, tracker).1.Some?
                  || (s.nonce != 0 && GateOpen(s, now) && AnyStranded(s1, now)))
  {
    assert Shaped(s);
    hide Maintain, Invariant, Ready, AnyStranded, Select;
    var s1 := AfterDeadline(s, now);
    DeadlineNowIff(s, now, d);
    if s.nonce != 0 {
      MaintainKeeps(s, now);
      MaintainFrame(s, now);
      MaintainSettles(s, now);
    }
    SelectIff(s1, now, tracker);
  }

  /** The state a deadline leaves is quiet until that deadline: the gate is shut until then,
      or neither upkeep nor the selector has anything to do. */
  ghost predicate QuietUntil(s: State, from: nat, d: Option<nat>)
    requires Shaped(s)
  {
    || s.nonce == 0
    || (d.Some? && s.sendGate && d.value <= s.nextSend)
    || (forall u | from <= u && (d.Some? ==> u < d.value) :: Settled(s, u) && !Ready(s, u))
  }

  lemma DeadlineIsQuiet(s: State, now: nat, d: Option<nat>)
    requires Invariant(s) && IsDeadline(AfterDeadline(s, now), now, d)
    ensures QuietUntil(AfterDeadline(s, now), now, d)
  {
    if s.nonce != 0 {
      var s1 := Maintain(s, now);
      MaintainKeeps(s, now);
      MaintainFrame(s, now);
      MaintainSettles(s, now);
      hide Maintain, Invariant, Settled, Ready, Times;
      var best :| Earliest(Times(s1, now), now, best) && d == Gated(s1, best);
      if !(d.Some? && s1.sendGate && d.value <= s1.nextSend) {
        forall u | now <= u && (d.Some? ==> u < d.value)
          ensures Settled(s1, u) && !Ready(s1, u)
        {
          QuietUntilTimes(s1, now, u);
        }
      }
    }
  }

  /** A select with nothing to maintain and nothing ready leaves the state as it was. */
  lemma IdleSelect(s: State, t: nat, tracker: Byte)
    requires Invariant(s) && Settled(s, t) && !Ready(s, t)
    ensures Select(s, t, tracker) == (s, None) && Maintain(s, t) == s
  {
    SettledIsIdle(s, t);
    ChooseIff(s, t);
    hide Invariant, Settled, Ready, Maintain;
  }

  /** Consumer calls before the deadline send nothing and keep the quiet, however many there are. */
  lemma QuietKeeps(s: State, from: nat, d: Option<nat>, t: nat, tracker: Byte)
    requires Invariant(s) && QuietUntil(s, from, d) && from <= t && (d.Some? ==> t < d.value)
    ensures Select(s, t, tracker).1 == None
    ensures Invariant(Select(s, t, tracker).0) && QuietUntil(Select(s, t, tracker).0, from, d)
    ensures Invariant(AfterDeadline(s, t)) && QuietUntil(AfterDeadline(s, t), from, d)
  {
    if s.nonce != 0 && !(d.Some? && s.sendGate && d.value <= s.nextSend) {
      IdleSelect(s, t, tracker);
    } else {
      MaintainKeeps(s, t);
      MaintainFrame(s, t);
      hide Maintain, Invariant, Ready, Choose, Settled;
    }
  }

  datatype Poll = Poll(at: nat, tracker: Option<Byte>)

  function Polled(s: State, polls: seq<Poll>): (r: State)
    requires Shaped(s)
    ensures Shaped(r)
  {
    if polls == [] then s
    else
      var before, p := Polled(s, polls[..|polls| - 1]), polls[|polls| - 1];
      match p.tracker
      case None => AfterDeadline(before, p.at)
      case Some(id) => Select(before, p.at, id).0
  }

  lemma {:induction false} PolledIsQuiet(s: State, from: nat, d: Option<nat>, polls: seq<Poll>)
    requires Invariant(s) && QuietUntil(s, from, d)
    requires forall p <- polls :: from <= p.at && (d.Some? ==> p.at < d.value)
    ensures Invariant(Polled(s, polls)) && QuietUntil(Polled(s, polls), from, d)
  {
    if polls == [] {
    } else {
      var p := polls[|polls| - 1];
      PolledIsQuiet(s, from, d, polls[..|polls| - 1]);
      QuietKeeps(Polled(s, polls[..|polls| - 1]), from, d, p.at, if p.tracker.Some? then p.tracker.value else 0);
      hide Invariant, QuietUntil, Select, AfterDeadline;
    }
  }

  /** No sleep is too long: from any reachable state, after a deadline of d, any number of
      selects and deadline reads before d send nothing at all. */
  lemma NothingBeforeDeadline(run: seq<Timed>, now: nat, d: Option<nat>, polls: seq<Poll>, t: nat, tracker: Byte)
    requires forall x <- run :: Legitimate(x)
    requires IsDeadline(AfterDeadline(After(run), now), now, d)
    requires forall p <- polls :: now <= p.at && (d.Some? ==> p.at < d.value)
    requires now <= t && (d.Some? ==> t < d.value)
    ensures Select(Polled(AfterDeadline(After(run), now), polls), t, tracker).1 == None
  {
    hide After, Invariant, QuietUntil, Select, IsDeadline, AfterDeadline;
    ReachableInvariant(run);
    var s := After(run);
    DeadlineIsQuiet(s, now, d);
    DeadlineReadKeeps(s, now);
    PolledIsQuiet(AfterDeadline(s, now), now, d, polls);
    QuietKeeps(Polled(AfterDeadline(s, now), polls), now, d, t, tracker);
  }

  // ---------------------------------------------------- the one disagreement

  /** Online magnetometer calibration begins, fails while still hidden, then reports storage. */
  function StrandingRun(): seq<Timed> {
    [Timed(IdentityStopped, 0), Timed(IdentityStarted(1), 0),
     Timed(Begin(MAG_ONLINE_AUTO, 1, 0), 0),
     Timed(Finish(1, FAILED, 0, 0), 10),
     Timed(Advance(1, PHASE_STORAGE, 0), 20)]
  }

  lemma StrandingState()
    ensures var s := After(StrandingRun());
            && s.nonce == 1 && !s.sendGate && !s.startup.pending[0] && !s.startup.pending[1]
            && s.queue == Blank(QUEUE_SIZE, NO_RECORD) && s.slots == Blank(SLOT_COUNT, NO_SLOT)
            && s.ops[0].id == 1 && HiddenOnline(s.ops[0]) && s.ops[0].candidate && !s.ops[0].active
            && s.ops[0].changed == 20 && !s.ops[0].progressValid && !s.ops[0].latest.valid
            && forall k | 1 <= k < OP_SIZE :: s.ops[k] == NO_OPERATION
  {
    var run := StrandingRun();
    assert run == run[..5] && run[..0] == [];
    AfterPrefix(run, 3);
    AfterPrefix(run, 4);
    StrandingBegun();
    var s3, op := Begun(), HiddenStart();
    assert Find(s3.ops, 1) == Some(0);
    var s4 := s3.(ops := s3.ops[0 := op.(active := false)]);
    assert CalEnd(s3, 1, FAILED, 0, 0, 10) == s4;
    assert Find(s4.ops, 1) == Some(0);
    assert After(run) == CalStep(s4, 1, PHASE_STORAGE, 0, 20);
  }

  function HiddenStart(): Operation {
    NO_OPERATION.(id := 1, kind := MAG_ONLINE_AUTO, active := true, heartbeat := HEARTBEAT_MS, phase := 1)
  }

  /** A fresh identity with one hidden online calibration in progress. */
  function Begun(): (s: State)
    ensures Shaped(s)
  {
    Initial().(nonce := 1, epoch := 2, nextOperation := 1, ops := Initial().ops[0 := HiddenStart()])
  }

  /** The state of a fresh identity before anything happened. */
  function Identified(): (s: State)
    ensures Shaped(s)
  {
    Initial().(nonce := 1, epoch := 2)
  }

  lemma StrandingIdentified()
    ensures After(StrandingRun()[..2]) == Identified()
  {
    var run := StrandingRun();
    assert run[..0] == [];
    AfterPrefix(run, 0);
    AfterPrefix(run, 1);
    hide Invariant;
  }

  lemma StrandingBegun()
    ensures After(StrandingRun()[..3]) == Begun()
  {
    hide After;
    AfterPrefix(StrandingRun(), 2);
    StrandingIdentified();
    FirstOperation();
  }

  lemma FirstOperation()
    ensures CalBegin(Identified(), MAG_ONLINE_AUTO, 1, 0, 0).0 == Begun()
  {
    var s := Identified();
    assert 1 !in Ids(s.ops, OP_SIZE);
    assert FreshId(Ids(s.ops, OP_SIZE), 0) == 1;
    assert Allocate(s, MAG_ONLINE_AUTO, 0).Some?;
  }

  /** The code's one disagreement: in this reachable state, from 220 ms on, the deadline is
      always "now" and a select never sends. */
  lemma StrandedDeadlineNeverServed(now: nat, tracker: Byte)
    requires 220 <= now && tracker < MAX_TRACKERS
    ensures var s := After(StrandingRun());
            && IsDeadline(AfterDeadline(s, now), now, Some(now))
            && Select(AfterDeadline(s, now), now, tracker).1 == None
  {
    hide After, StrandingRun, Times, Select, Maintain;
    var s := After(StrandingRun());
    StrandingState();
    StrandingLegitimate();
    ReachableInvariant(StrandingRun());
    StrandedIsDue(s, now);
    SettledIsIdle(s, now);
    TimesMeaning(s, now);
    SelectIff(s, now, tracker);
    var t :| t in Times(s, now) && t <= now;
    assert Earliest(Times(s, now), now, Some(now));
  }

  lemma StrandingLegitimate()
    ensures forall x <- StrandingRun() :: Legitimate(x)
  {
  }

  lemma StrandedIsDue(s: State, now: nat)
    requires Shaped(s) && 220 <= now
    requires !s.startup.pending[0] && !s.startup.pending[1]
    requires s.queue == Blank(QUEUE_SIZE, NO_RECORD) && s.slots == Blank(SLOT_COUNT, NO_SLOT)
    requires s.ops[0].id == 1 && HiddenOnline(s.ops[0]) && s.ops[0].candidate && !s.ops[0].active
    requires s.ops[0].changed == 20 && !s.ops[0].progressValid && !s.ops[0].latest.valid
    requires forall k | 1 <= k < OP_SIZE :: s.ops[k] == NO_OPERATION
    ensures Settled(s, now) && !Ready(s, now) && Stranded(s.ops[0], now)
  {
  }
}
