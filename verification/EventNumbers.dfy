/** Sequence numbers tell the order of publication, across sends, repeats and lost packets. */
module EventNumbers {
  import opened Integers
  import opened Wrappers
  import opened EventProtocol
  import opened EventState
  import opened EventInvariant
  import opened EventSteps
  import opened EventRuns

  ghost predicate NumberedBy(r: Record, lag: nat) {
    r.valid ==> Lag(r.token, r.event.seqno) == lag
  }

  /** Every live record was numbered by the one count of this identity. */
  ghost predicate Numbered(s: State)
    requires Shaped(s)
  {
    && (forall k | 0 <= k < QUEUE_SIZE :: NumberedBy(s.queue[k], LagOf(s)))
    && (forall k | 0 <= k < OP_SIZE :: NumberedBy(s.ops[k].latest, LagOf(s)))
    && NumberedBy(s.slots[0].published, LagOf(s)) && NumberedBy(s.slots[1].published, LagOf(s))
  }

  lemma FromNumbered(s: State, t: State)
    requires Shaped(s) && Numbered(s) && From(s, t)
    ensures Numbered(t) && LagOf(t) == LagOf(s)
  {
    hide Lag, LagOf;
  }

  lemma CompletedOpNumbered(op: Operation, sent: bool, selected: Record, now: nat, lag: nat)
    requires NumberedBy(op.latest, lag)
    ensures NumberedBy(CompleteOp(op, sent, selected, now).latest, lag)
  {
    hide Lag;
  }

  lemma CompletedSlotNumbered(x: Slot, domain: nat, selected: Record, now: nat, lag: nat)
    requires NumberedBy(x.published, lag)
    ensures NumberedBy(CompleteSlot(x, domain, selected, now).published, lag)
  {
    hide Lag;
  }

  lemma CompletedNumbered(r: Record, token: nat, startup: bool, now: nat, lag: nat)
    requires NumberedBy(r, lag)
    ensures NumberedBy(CompleteRecord(r, token, startup, now), lag)
  {
    hide Lag;
  }

  lemma QueueNumbered(q: seq<Record>, token: nat, startup: bool, now: nat, lag: nat)
    requires forall k | 0 <= k < |q| :: NumberedBy(q[k], lag)
    ensures forall k | 0 <= k < |q| :: NumberedBy(CompleteQueue(q, token, startup, now)[k], lag)
  {
    hide NumberedBy, CompleteRecord;
    forall k | 0 <= k < |q| ensures NumberedBy(CompleteQueue(q, token, startup, now)[k], lag) {
      CompletedNumbered(q[k], token, startup, now, lag);
    }
  }

  lemma OpsNumbered(ops: seq<Operation>, sent: Option<nat>, selected: Record, now: nat, lag: nat)
    requires forall k | 0 <= k < |ops| :: NumberedBy(ops[k].latest, lag)
    ensures forall k | 0 <= k < |ops| :: NumberedBy(CompleteOps(ops, sent, selected, now)[k].latest, lag)
  {
    hide NumberedBy, CompleteOp;
    forall k | 0 <= k < |ops| ensures NumberedBy(CompleteOps(ops, sent, selected, now)[k].latest, lag) {
      CompletedOpNumbered(ops[k], sent == Some(k), selected, now, lag);
    }
  }

  lemma AdmitNumbered(s: State, sent: Record, now: nat)
    requires Shaped(s) && Numbered(s)
    ensures Numbered(Admit(s, sent, now)) && LagOf(Admit(s, sent, now)) == LagOf(s)
  {
    hide Lag, NumberedBy, CompleteQueue, CompleteOps, CompleteSlot, AdmitStartup, Find;
    QueueNumbered(s.queue, sent.token, sent.token in s.startup.tokens, now, LagOf(s));
    OpsNumbered(s.ops, Find(s.ops, sent.event.operation), sent, now, LagOf(s));
    CompletedSlotNumbered(s.slots[0], 0, sent, now, LagOf(s));
    CompletedSlotNumbered(s.slots[1], 1, sent, now, LagOf(s));
  }

  lemma SameNumbered(s: State, t: State)
    requires Shaped(s) && Shaped(t) && Numbered(s)
    requires t.queue == s.queue && t.ops == s.ops && t.slots == s.slots
    requires t.serial == s.serial && t.sequence == s.sequence
    ensures Numbered(t) && LagOf(t) == LagOf(s)
  {
    hide Lag, NumberedBy;
  }

  lemma CompleteNumbered(s: State, token: nat, success: bool, now: nat)
    requires Shaped(s) && Numbered(s)
    ensures Numbered(Complete(s, token, success, now)) && LagOf(Complete(s, token, success, now)) == LagOf(s)
  {
    hide Numbered, LagOf, Admit;
    var gated := s.(sendGate := true, nextSend := now + if success then SPACING_MS else RETRY_MS);
    SameNumbered(s, gated);
    AdmitNumbered(gated, s.selected, now);
    var done := if success then Admit(gated, s.selected, now) else gated;
    SameNumbered(done, done.(selected := s.selected.(valid := false)));
  }

  lemma StartNumbered(s: State, entropy: Long)
    requires Shaped(s)
    ensures Numbered(SessionStart(s, entropy))
  {
  }

  lemma NextNumbered(s: State, t: Timed)
    requires Invariant(s) && Numbered(s)
    ensures Numbered(Next(s, t))
    ensures !t.step.IdentityStarted? ==> LagOf(Next(s, t)) == LagOf(s)
  {
    assert Shaped(s);
    match t.step
    case Completed(token, success) => CompleteNumbered(s, token, success, t.now); hide *;
    case IdentityStarted(entropy) => StartNumbered(s, entropy); hide Numbered;
    case _ => NextFrom(s, t); FromNumbered(s, Next(s, t)); hide *;
  }

  lemma {:induction false} ReachableNumbered(run: seq<Timed>)
    requires forall t <- run :: Legitimate(t)
    ensures Numbered(After(run))
  {
    if run == [] {
    } else {
      hide Next, Invariant, Numbered;
      ReachableInvariant(run[..|run| - 1]);
      ReachableNumbered(run[..|run| - 1]);
      NextNumbered(After(run[..|run| - 1]), run[|run| - 1]);
    }
  }

  lemma {:induction false} LagStays(run: seq<Timed>, i: nat, j: nat)
    requires (forall t <- run :: Legitimate(t)) && i <= j <= |run|
    requires forall m | i <= m < j :: !run[m].step.IdentityStarted?
    ensures LagOf(After(run[..j])) == LagOf(After(run[..i]))
    decreases j
  {
    hide Next, Invariant, Numbered, LagOf;
    if i == j {
    } else {
      LagStays(run, i, j - 1);
      ReachableInvariant(run[..j - 1]);
      ReachableNumbered(run[..j - 1]);
      AfterPrefix(run, j - 1);
      NextNumbered(After(run[..j - 1]), run[j - 1]);
    }
  }

  lemma PickedNumbered(s: State, c: Choice)
    requires Shaped(s) && Shaped(c.state) && Numbered(s) && Picked(s, c) && c.record.Some?
    ensures Lag(c.record.value.token, c.record.value.event.seqno) == LagOf(s)
  {
    hide Lag, LagOf, From;
  }

  lemma SentNumbered(s: State, now: nat, tracker: Byte)
    requires Invariant(s) && Numbered(s)
    ensures var sent := Select(s, now, tracker).1;
            sent.Some? ==>
              && Decode(sent.value.packet).Some?
              && Lag(sent.value.token, Decode(sent.value.packet).value.seqno) == LagOf(s)
  {
    SelectKeeps(s, now, tracker);
    MaintainFrom(s, now);
    MaintainKeeps(s, now);
    FromNumbered(s, Maintain(s, now));
    var c := Choose(Maintain(s, now), now);
    ChoosePicks(Maintain(s, now), now);
    hide Lag, LagOf, Numbered, Picked, From, Maintain, Choose, Invariant, Decode;
    if c.record.Some? { PickedNumbered(Maintain(s, now), c); }
  }

  lemma LagsAgree(a: nat, x: Word, b: nat, y: Word)
    requires Lag(a, x) == Lag(b, y)
    ensures y == (x + (b - a)) % 0x1_0000
    ensures -0x1_0000 < b - a < 0x1_0000 ==> (x == y <==> a == b)
  {
  }

  /** Between two sends of one identity the sequence number has moved by exactly as many as records
      were published from the first record sent to the second: repeats carry the old number, newer
      records a later one, and records that were lost or replaced leave a gap of their count. */
  lemma SequenceTellsOrder(run: seq<Timed>, i: nat, j: nat, now: nat, later: nat, tracker: Byte)
    requires (forall t <- run :: Legitimate(t)) && i <= j <= |run|
    requires forall m | i <= m < j :: !run[m].step.IdentityStarted?
    ensures var a, b := Select(After(run[..i]), now, tracker).1, Select(After(run[..j]), later, tracker).1;
            a.Some? && b.Some? ==>
              && Decode(a.value.packet).Some? && Decode(b.value.packet).Some?
              && var x, y := Decode(a.value.packet).value.seqno, Decode(b.value.packet).value.seqno;
                 && y == (x + (b.value.token - a.value.token)) % 0x1_0000
                 && (-0x1_0000 < b.value.token - a.value.token < 0x1_0000 ==>
                       (x == y <==> a.value.token == b.value.token))
  {
    hide After, Select, Decode, Lag, Numbered, Invariant;
    LagStays(run, i, j);
    ReachableInvariant(run[..i]);
    ReachableNumbered(run[..i]);
    ReachableInvariant(run[..j]);
    ReachableNumbered(run[..j]);
    SentNumbered(After(run[..i]), now, tracker);
    SentNumbered(After(run[..j]), later, tracker);
    var a, b := Select(After(run[..i]), now, tracker).1, Select(After(run[..j]), later, tracker).1;
    if a.Some? && b.Some? {
      LagsAgree(a.value.token, Decode(a.value.packet).value.seqno, b.value.token, Decode(b.value.packet).value.seqno);
    }
  }
}
