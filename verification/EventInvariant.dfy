/** What every locked section keeps, whatever order producers and the sender run in. */
module EventInvariant {
  import opened Integers
  import opened Wrappers
  import opened EventProtocol
  import opened EventState

  // -------------------------------------------------------------- the parts

  /** A live record is legal, stamped, and of the current identity while there is one. */
  ghost predicate RecordOk(r: Record, nonce: Long, serial: nat) {
    r.valid ==>
      && 1 <= r.token <= serial
      && Legal(r.event) && r.event.tracker == 0
      && (nonce != 0 ==> r.event.nonce == nonce)
  }

  ghost predicate QueueOk(q: seq<Record>, nonce: Long, serial: nat) {
    && (forall i | 0 <= i < |q| :: RecordOk(q[i], nonce, serial) && (q[i].valid ==> q[i].copies < q[i].limit <= 3))
    && (forall i, j | 0 <= i < j < |q| :: q[i].valid && q[j].valid ==> q[i].token != q[j].token)
  }

  ghost predicate OpOk(op: Operation, nonce: Long, serial: nat) {
    && RecordOk(op.latest, nonce, serial)
    && (op.id != 0 ==> IsCalibration(op.kind))
    && (op.active || op.candidate || op.latest.valid ==> op.id != 0)
    && (op.latest.valid ==> op.latest.event.operation == op.id)
    && (op.latest.valid ==> op.latest.event.event == ACCEPTED || op.latest.event.event == BEGIN
                            || op.latest.event.event == STEP)
    && (HiddenOnline(op) ==> !op.latest.valid)
  }

  ghost predicate SlotOk(x: Slot, domain: nat, nonce: Long, serial: nat) {
    && RecordOk(x.published, nonce, serial)
    && RestPair(domain, x.phase, x.detail)
    && (x.published.valid ==> x.published.limit == 3 && x.published.event.kind == TRACKER_REST + domain)
    && (x.candidate && x.published.valid ==> x.published.copies >= x.published.limit)
  }

  /** The queue holds startup observation i, untransmitted. */
  ghost predicate Held(q: seq<Record>, u: Startup, i: nat)
    requires i < |u.tokens|
  {
    exists k :: 0 <= k < |q| && Holds(q[k], u, i)
  }

  ghost predicate Holds(r: Record, u: Startup, i: nat)
    requires i < |u.tokens|
  {
    && r.valid && r.token == u.tokens[i] && r.copies == 0 && r.limit == 3
    && r.event.kind == POWER && r.event.phase == if i == 1 then WATCHDOG_RESET else u.phase
  }

  ghost predicate StartupOk(u: Startup, q: seq<Record>, serial: nat) {
    && |u.tokens| == 2 && |u.pending| == 2
    && (u.scheduled ==> u.phase == BOOT || u.phase == WAKE)
    && (u.tokens[0] != 0 ==> u.tokens[0] != u.tokens[1])
    && (forall i | 0 <= i < 2 ::
          && u.tokens[i] <= serial
          && (u.tokens[i] != 0 ==> u.scheduled)
          && (u.pending[i] ==> u.scheduled && !u.retired)
          && (u.pending[i] && u.tokens[i] != 0 ==> Held(q, u, i)))
  }

  ghost predicate DistinctIds(ops: seq<Operation>) {
    forall i, j | 0 <= i < j < |ops| :: ops[i].id != 0 ==> ops[i].id != ops[j].id
  }

  ghost predicate Invariant(s: State) {
    && Shaped(s)
    && QueueOk(s.queue, s.nonce, s.serial)
    && (forall i | 0 <= i < OP_SIZE :: OpOk(s.ops[i], s.nonce, s.serial))
    && DistinctIds(s.ops)
    && SlotOk(s.slots[0], 0, s.nonce, s.serial) && SlotOk(s.slots[1], 1, s.nonce, s.serial)
    && StartupOk(s.startup, s.queue, s.serial)
    && (s.entropyFailed ==> s.nonce == 0)
  }

  lemma QueueOkLater(q: seq<Record>, nonce: Long, serial: nat, later: nat)
    requires QueueOk(q, nonce, serial) && serial <= later
    ensures QueueOk(q, nonce, later)
    ensures forall k | 0 <= k < |q| && q[k].valid :: q[k].token <= serial
  {
    hide Legal;
  }

  // ----------------------------------------------------------------- victims

  /** Three records with distinct tokens cannot all be the two startup observations. */
  lemma SomeNotStartup(q: seq<Record>, u: Startup)
    requires |q| >= 3 && |u.tokens| == 2 && |u.pending| == 2
    requires q[0].token != q[1].token && q[0].token != q[2].token && q[1].token != q[2].token
    ensures exists k :: 0 <= k < |q| && !StartupPending(u, q[k])
  {
    assert !StartupPending(u, q[0]) || !StartupPending(u, q[1]) || !StartupPending(u, q[2]);
  }

  /** v is the best victim among the first i slots, all valid. */
  ghost predicate BestSoFar(q: seq<Record>, u: Startup, i: nat, v: nat)
    requires v < |q| && i <= |q| && |u.tokens| == 2 && |u.pending| == 2
  {
    && (forall k | 0 <= k < i :: q[k].valid)
    && (if StartupPending(u, q[v]) then forall k | 0 <= k < i :: StartupPending(u, q[k])
        else forall k | 0 <= k < i && !StartupPending(u, q[k]) :: !BetterVictim(u, q[k], q[v]))
  }

  lemma {:induction false} VictimIsBest(q: seq<Record>, u: Startup, i: nat, v: nat)
    requires v < |q| && i <= |q| && |u.tokens| == 2 && |u.pending| == 2
    requires BestSoFar(q, u, i, v)
    ensures var r := Victim(q, u, i, v);
            !q[r].valid || BestSoFar(q, u, |q|, r)
    decreases |q| - i
  {
    if i < |q| && q[i].valid {
      var better := !StartupPending(u, q[i]) && BetterVictim(u, q[i], q[v]);
      var w := if better then i else v;
      VictimIsBest(q, u, i + 1, w);
    }
  }

  lemma VictimIsChosen(q: seq<Record>, u: Startup, nonce: Long, serial: nat)
    requires QueueOk(q, nonce, serial) && |q| >= 3 && |u.tokens| == 2 && |u.pending| == 2
    ensures var v := Victim(q, u, 0, 0);
            q[v].valid ==>
              && !StartupPending(u, q[v])
              && (forall k | 0 <= k < |q| :: q[k].valid)
              && forall k | 0 <= k < |q| && !StartupPending(u, q[k]) :: !BetterVictim(u, q[k], q[v])
  {
    VictimIsBest(q, u, 0, 0);
    if q[Victim(q, u, 0, 0)].valid {
      assert q[0].valid && q[1].valid && q[2].valid;
      SomeNotStartup(q, u);
    }
  }

  /** What a full queue gives up, never an unadmitted startup observation: while there is anything
      but power notices, not a power notice; within one class, while anything was sent already,
      not a first copy; and among those alike the oldest. */
  lemma VictimMeaning(q: seq<Record>, u: Startup, nonce: Long, serial: nat)
    requires QueueOk(q, nonce, serial) && |q| >= 3 && |u.tokens| == 2 && |u.pending| == 2
    ensures var v := q[Victim(q, u, 0, 0)];
            v.valid ==>
              && !StartupPending(u, v)
              && (forall k | 0 <= k < |q| :: q[k].valid)
              && forall k | 0 <= k < |q| && !StartupPending(u, q[k]) ::
                   && (q[k].event.kind != POWER ==> v.event.kind != POWER)
                   && ((q[k].event.kind == POWER) == (v.event.kind == POWER) ==>
                         && (q[k].copies != 0 ==> v.copies != 0)
                         && ((q[k].copies != 0) == (v.copies != 0) ==> v.token <= q[k].token))
  {
    hide QueueOk;
    VictimIsChosen(q, u, nonce, serial);
  }

  /** Publishing one record: ordinary telemetry never costs a power notice its place, a power
      notice always gets in, and pending startup observations stay. */
  lemma EnqueueKeeps(s: State, r: Record)
    requires Shaped(s) && QueueOk(s.queue, s.nonce, s.serial)
    requires r.valid && RecordOk(r, s.nonce, s.serial) && r.copies < r.limit <= 3
    requires forall k | 0 <= k < QUEUE_SIZE && s.queue[k].valid :: s.queue[k].token < r.token
    ensures var t := Enqueue(s, r);
            && t == s.(queue := t.queue)
            && Shaped(t)
            && QueueOk(t.queue, s.nonce, s.serial)
            && (forall k | 0 <= k < QUEUE_SIZE :: t.queue[k] == s.queue[k] || t.queue[k] == r)
            && (forall k | 0 <= k < QUEUE_SIZE && s.queue[k].valid && StartupPending(s.startup, s.queue[k])
                  :: t.queue[k] == s.queue[k])
            && (r.event.kind != POWER ==>
                  forall k | 0 <= k < QUEUE_SIZE && s.queue[k].valid && s.queue[k].event.kind == POWER
                    :: t.queue[k] == s.queue[k])
            && (r.event.kind == POWER ==> exists k :: 0 <= k < QUEUE_SIZE && t.queue[k] == r)
  {
    VictimIsChosen(s.queue, s.startup, s.nonce, s.serial);
    var v := Victim(s.queue, s.startup, 0, 0);
    if !(s.queue[v].valid && s.queue[v].event.kind == POWER && r.event.kind != POWER) {
      assert Enqueue(s, r).queue[v] == r;
    }
  }

  // ------------------------------------------------------------ publication

  /** A legal fresh record. */
  ghost predicate Publishable(s: State, r: Record) {
    && r.valid && r.token == s.serial + 1 && r.copies == 0 && 1 <= r.limit <= 3
    && Legal(r.event) && r.event.tracker == 0 && r.event.nonce == s.nonce
  }

  lemma HeldStays(q: seq<Record>, t: seq<Record>, u: Startup, i: nat)
    requires |q| == |t| && |u.tokens| == 2 && |u.pending| == 2 && i < 2
    requires u.pending[i] && Held(q, u, i)
    requires forall k | 0 <= k < |q| && q[k].valid && StartupPending(u, q[k]) :: t[k] == q[k]
    ensures Held(t, u, i)
  {
    var k :| 0 <= k < |q| && Holds(q[k], u, i);
    assert Holds(t[k], u, i);
  }

  lemma StartupStays(u: Startup, q: seq<Record>, t: seq<Record>, serial: nat, later: nat)
    requires StartupOk(u, q, serial) && |q| == |t| && serial <= later
    requires forall k | 0 <= k < |q| && q[k].valid && StartupPending(u, q[k]) :: t[k] == q[k]
    ensures StartupOk(u, t, later)
  {
    forall i | 0 <= i < 2 && u.pending[i] && u.tokens[i] != 0
      ensures Held(t, u, i)
    {
      HeldStays(q, t, u, i);
    }
  }

  lemma PublishKeeps(s: State, r: Record)
    requires Invariant(s) && Publishable(s, r)
    ensures var t := Enqueue(Stamp(s), r);
            && Invariant(t)
            && t == Stamp(s).(queue := t.queue)
            && RecordOk(r, t.nonce, t.serial)
  {
    var s1 := Stamp(s);
    EnqueueKeeps(s1, r);
    StartupStays(s.startup, s.queue, Enqueue(s1, r).queue, s.serial, s1.serial);
  }

  /** Replacing one operation by a well-formed one with the same id. */
  lemma OpUpdateKeeps(s: State, i: nat, op: Operation)
    requires Invariant(s) && i < OP_SIZE
    requires OpOk(op, s.nonce, s.serial) && op.id == s.ops[i].id
    ensures Invariant(s.(ops := s.ops[i := op]))
  {
  }

  lemma PublishOpKeeps(s: State, i: nat, event: Byte, outcome: Byte, phase: Byte, detail: Byte, now: nat, limit: nat)
    requires Invariant(s) && i < OP_SIZE && 1 <= limit <= 3
    requires s.ops[i].id != 0
    requires Legal(Fresh(s, s.ops[i].id, s.ops[i].kind, event, outcome, phase, detail, now, limit).event)
    requires s.ops[i].active ==> event == ACCEPTED || event == BEGIN || event == STEP
    ensures Invariant(PublishOp(s, i, event, outcome, phase, detail, now, limit))
  {
    var op := s.ops[i];
    var r := Fresh(s, op.id, op.kind, event, outcome, phase, detail, now, limit);
    PublishKeeps(s, r);
    var s1 := Enqueue(Stamp(s), r);
    OpUpdateKeeps(s1, i, op.(latest := if op.active then r else op.latest, visible := true));
  }

  // -------------------------------------------------------------- fresh ids

  /** The k-th id after `id` in the 65535-cycle that skips zero. */
  function Nth(id: Word, k: nat): Word {
    (id - 1 + k) % 0xFFFF + 1
  }

  lemma NthStep(id: Word, k: nat)
    requires k >= 1
    ensures Bump(Nth(id, k)) == Nth(id, k + 1)
    ensures Bump(id) == Nth(id, 1)
  {
  }

  lemma NthDistinct(id: Word, j: nat, k: nat)
    requires 1 <= j < k <= 9
    ensures Nth(id, j) != Nth(id, k)
  {
  }

  /** With at most eight ids in use the search stops before the cycle closes. */
  lemma {:induction false} FreshIdUnused(all: set<Word>, used: set<Word>, id: Word, k: nat)
    requires |used| + k <= 8
    requires used <= all && forall x <- all - used :: exists j :: 1 <= j <= k && x == Nth(id, j)
    ensures FreshId(used, if k == 0 then id else Nth(id, k)) !in all
    decreases used
  {
    var here := if k == 0 then id else Nth(id, k);
    var next := Bump(here);
    if k > 0 { NthStep(id, k); } else { NthStep(id, 1); }
    assert next == Nth(id, k + 1);
    if next in used {
      forall x | x in all - (used - {next})
        ensures exists j :: 1 <= j <= k + 1 && x == Nth(id, j)
      {
        if x != next { assert x in all - used; }
      }
      FreshIdUnused(all, used - {next}, id, k + 1);
    } else if next in all {
      assert next in all - used;
      var j :| 1 <= j <= k && next == Nth(id, j);
      NthDistinct(id, j, k + 1);
    }
  }

  /** The id counter after k steps from `start`, `rest` being the ids it has not met yet. */
  ghost predicate Searching(all: set<Word>, start: Word, rest: set<Word>, k: nat, next: Word) {
    && k >= 1 && next == Nth(start, k) && rest <= all && |rest| + k <= 9
    && (forall x <- all - rest :: exists j :: 1 <= j < k && x == Nth(start, j))
    && FreshId(all, start) == (if next in rest then FreshId(rest - {next}, next) else next)
  }

  lemma SearchStarts(all: set<Word>, start: Word)
    requires |all| <= 8
    ensures Searching(all, start, all, 1, Bump(start))
  {
    NthStep(start, 1);
  }

  lemma SearchContinues(all: set<Word>, start: Word, rest: set<Word>, k: nat, next: Word)
    requires Searching(all, start, rest, k, next) && next in all
    ensures next in rest && Searching(all, start, rest - {next}, k + 1, Bump(next))
  {
    if next !in rest {
      assert next in all - rest;
      var j :| 1 <= j < k && next == Nth(start, j);
      NthDistinct(start, j, k);
    }
    NthStep(start, k);
    forall x | x in all - (rest - {next})
      ensures exists j :: 1 <= j < k + 1 && x == Nth(start, j)
    {
      if x != next { assert x in all - rest; }
    }
  }

  lemma SearchEnds(all: set<Word>, start: Word, rest: set<Word>, k: nat, next: Word)
    requires Searching(all, start, rest, k, next) && next !in all
    ensures next == FreshId(all, start)
  {
  }

  /** A new operation never takes an id another entry still carries. */
  lemma AllocateKeeps(s: State, kind: Byte, now: nat)
    requires Invariant(s) && Allocate(s, kind, now).Some?
    ensures var (t, i) := Allocate(s, kind, now).value;
            && Invariant(t) && i < OP_SIZE
            && t.ops[i] == NewOperation(t.ops[i].id, kind, now)
            && t.ops[i].id != 0 && IsCalibration(kind)
            && (forall k | 0 <= k < OP_SIZE :: s.ops[k].id != t.ops[i].id)
  {
    var used := Ids(s.ops, OP_SIZE);
    FreshIdUnused(used, used, s.nextOperation, 0);
  }
}
