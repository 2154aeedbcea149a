/** The tracker event queue as a value, and what each locked section does to it. */
module EventState {
  import opened Arithmetic
  import opened Integers
  import opened Wrappers
  import opened EventProtocol

  const QUEUE_SIZE: nat := 32
  const OP_SIZE: nat := 8
  const SLOT_COUNT: nat := 2
  const TTL_MS: nat := 15000
  const BOOT_DELAY_MS: nat := 3000
  const SPACING_MS: nat := 100
  const RETRY_MS: nat := 10
  const HIDDEN_MS: nat := 1000
  const SENSOR_FRESH_MS: nat := 1000
  const HEARTBEAT_MS: nat := 2000
  const REST_HEARTBEAT_MS: nat := 5000
  const PROGRESS_GAP_MS: nat := 500
  const COALESCE_MS: nat := 200

  /** A published event with its local repeat budget; times in uptime milliseconds. */
  datatype Record = Record(event: Event, token: nat, born: nat, sent: nat, copies: nat, limit: nat, valid: bool)

  const NO_EVENT := Event(0, 0, 0, 0, 0, 0, 0, 0, 0)
  const NO_RECORD := Record(NO_EVENT, 0, 0, 0, 0, 0, false)

  datatype Operation = Operation(
    latest: Record, born: nat, changed: nat, progressSent: nat, heartbeat: nat, retryAt: nat,
    id: Word, kind: Byte, phase: Byte, detail: Byte, completionReason: Byte, retryReason: Byte,
    active: bool, visible: bool, candidate: bool, progressValid: bool, retryValid: bool)

  const NO_OPERATION :=
    Operation(NO_RECORD, 0, 0, 0, 0, 0, 0, 0, 0, 0, 0, 0, false, false, false, false, false)

  datatype Slot = Slot(published: Record, changed: nat, lastObserved: nat, lastPublish: nat,
                       phase: Byte, detail: Byte, candidate: bool, observed: bool, publishValid: bool)

  const NO_SLOT := Slot(NO_RECORD, 0, 0, 0, 0, 0, false, false, false)

  /** Physical-boot observations: BOOT or WAKE, and WATCHDOG. Token 0 is "not materialised". */
  datatype Startup = Startup(at: nat, tokens: seq<nat>, phase: Byte, scheduled: bool, retired: bool,
                             pending: seq<bool>)

  datatype State = State(
    queue: seq<Record>, ops: seq<Operation>, slots: seq<Slot>, startup: Startup,
    nonce: Long, serial: nat, epoch: nat, nextSend: nat, sequence: Word, nextOperation: Word,
    queueRr: nat, opRr: nat, slotRr: nat, sendGate: bool, entropyFailed: bool, selected: Record)

  ghost predicate Shaped(s: State) {
    && |s.queue| == QUEUE_SIZE && |s.ops| == OP_SIZE && |s.slots| == SLOT_COUNT
    && |s.startup.tokens| == 2 && |s.startup.pending| == 2
  }

  function Blank<T>(n: nat, x: T): (r: seq<T>)
    ensures |r| == n && forall i | 0 <= i < n :: r[i] == x
  {
    seq(n, _ => x)
  }

  function Initial(): (r: State)
    ensures Shaped(r)
  {
    State(Blank(QUEUE_SIZE, NO_RECORD), Blank(OP_SIZE, NO_OPERATION), Blank(SLOT_COUNT, NO_SLOT),
          Startup(0, [0, 0], 0, false, false, [false, false]),
          0, 0, 1, 0, 0, 0, 0, 0, 0, false, false, NO_RECORD)
  }

  function Max(a: nat, b: nat): nat { if a < b then b else a }

  predicate StartupPending(u: Startup, r: Record)
    requires |u.tokens| == 2 && |u.pending| == 2
  {
    (u.pending[0] && u.tokens[0] == r.token) || (u.pending[1] && u.tokens[1] == r.token)
  }

  predicate HiddenOnline(op: Operation) {
    op.kind == MAG_ONLINE_AUTO && !op.visible
  }

  // ------------------------------------------------------------- publication

  function Fresh(s: State, op: Word, kind: Byte, event: Byte, outcome: Byte,
                 phase: Byte, detail: Byte, now: nat, limit: nat): Record
  {
    Record(Event(s.nonce, s.sequence, op, 0, kind, event, outcome, phase, detail),
           s.serial + 1, now, 0, 0, limit, true)
  }

  /** Publication-order sequence number and token are both consumed. */
  function Stamp(s: State): State {
    s.(sequence := if s.sequence == 0xFFFF then 0 else s.sequence + 1, serial := s.serial + 1)
  }

  /** Whether slot i is a better victim than slot v, both holding valid records. */
  predicate BetterVictim(u: Startup, r: Record, v: Record)
    requires |u.tokens| == 2 && |u.pending| == 2
  {
    var power, victimPower := r.event.kind == POWER, v.event.kind == POWER;
    || StartupPending(u, v)
    || (!power && victimPower)
    || (power == victimPower
        && ((r.copies != 0 && v.copies == 0)
            || ((r.copies != 0) == (v.copies != 0) && r.token < v.token)))
  }

  /** The slot a new record goes to: scan from i with v the best victim so far. */
  function Victim(q: seq<Record>, u: Startup, i: nat, v: nat): (r: nat)
    requires v < |q| && i <= |q| && |u.tokens| == 2 && |u.pending| == 2
    ensures r < |q|
    decreases |q| - i
  {
    if i == |q| then v
    else if !q[i].valid then i
    else if StartupPending(u, q[i]) then Victim(q, u, i + 1, v)
    else Victim(q, u, i + 1, if BetterVictim(u, q[i], q[v]) then i else v)
  }

  function Enqueue(s: State, r: Record): State
    requires Shaped(s)
  {
    var v := Victim(s.queue, s.startup, 0, 0);
    if s.queue[v].valid && s.queue[v].event.kind == POWER && r.event.kind != POWER then s
    else s.(queue := s.queue[v := r])
  }

  function Find(ops: seq<Operation>, id: Word, i: nat := 0): (r: Option<nat>)
    requires i <= |ops|
    ensures r.Some? ==> i <= r.value < |ops| && id != 0 && ops[r.value].id == id
    ensures r.None? && id != 0 ==> forall k | i <= k < |ops| :: ops[k].id != id
    decreases |ops| - i
  {
    if id == 0 || i == |ops| then None
    else if ops[i].id == id then Some(i)
    else Find(ops, id, i + 1)
  }

  /** Reuse an empty entry, else the oldest finished one, else the oldest of all. */
  function OpVictim(ops: seq<Operation>, i: nat, v: nat): (r: nat)
    requires v < |ops| && i <= |ops|
    ensures r < |ops|
    decreases |ops| - i
  {
    if i == |ops| then v
    else if ops[i].id == 0 then i
    else
      var better := (!ops[i].active && ops[v].active)
                    || (ops[i].active == ops[v].active && ops[i].born < ops[v].born);
      OpVictim(ops, i + 1, if better then i else v)
  }

  function Bump(id: Word): (r: Word)
    ensures r != 0
  {
    if id == 0xFFFF then 1 else id + 1
  }

  function Ids(ops: seq<Operation>, n: nat): (r: set<Word>)
    requires n <= |ops|
    ensures |r| <= n
    ensures forall k | 0 <= k < n :: ops[k].id in r
    ensures forall x <- r :: exists k :: 0 <= k < n && ops[k].id == x
  {
    if n == 0 then {} else Ids(ops, n - 1) + {ops[n - 1].id}
  }

  /** The next id not in use; the set of ids still to be stepped over bounds the search. */
  function FreshId(used: set<Word>, id: Word): (r: Word)
    ensures r != 0
    decreases used
  {
    var next := Bump(id);
    if next in used then FreshId(used - {next}, next) else next
  }

  function NewOperation(id: Word, kind: Byte, now: nat): Operation {
    NO_OPERATION.(id := id, kind := kind, active := true, born := now, heartbeat := now + HEARTBEAT_MS)
  }

  function Allocate(s: State, kind: Byte, now: nat): (r: Option<(State, nat)>)
    requires Shaped(s)
    ensures r.Some? ==> Shaped(r.value.0) && r.value.1 < OP_SIZE
  {
    if s.nonce == 0 || !IsCalibration(kind) then None
    else
      var v := OpVictim(s.ops, 0, 0);
      var id := FreshId(Ids(s.ops, OP_SIZE), s.nextOperation);
      Some((s.(ops := s.ops[v := NewOperation(id, kind, now)], nextOperation := id), v))
  }

  function PublishOp(s: State, i: nat, event: Byte, outcome: Byte,
                     phase: Byte, detail: Byte, now: nat, limit: nat): (r: State)
    requires Shaped(s) && i < OP_SIZE
    ensures Shaped(r)
  {
    var op := s.ops[i];
    var rec := Fresh(s, op.id, op.kind, event, outcome, phase, detail, now, limit);
    var s1 := Enqueue(Stamp(s), rec);
    s1.(ops := s1.ops[i := op.(latest := if op.active then rec else op.latest, visible := true)])
  }

  // --------------------------------------------------------------- producers

  function CalAccept(s: State, kind: Byte, now: nat): (r: (State, Word))
    requires Shaped(s)
    ensures Shaped(r.0)
  {
    match Allocate(s, kind, now)
    case None => (s, 0)
    case Some((s1, i)) => (PublishOp(s1, i, ACCEPTED, 0, 0, 0, now, 3), s1.ops[i].id)
  }

  function CalBegin(s: State, kind: Byte, phase: Byte, detail: Byte, now: nat): (r: (State, Word))
    requires Shaped(s)
    ensures Shaped(r.0)
  {
    match Allocate(s, kind, now)
    case None => (s, 0)
    case Some((s1, i)) =>
      var op := s1.ops[i].(phase := phase, detail := detail, changed := now);
      var s2 := s1.(ops := s1.ops[i := op]);
      (if HiddenOnline(op) then s2 else PublishOp(s2, i, BEGIN, 0, phase, detail, now, 1), op.id)
  }

  function CalStart(s: State, id: Word, phase: Byte, detail: Byte, now: nat): (r: State)
    requires Shaped(s)
    ensures Shaped(r)
  {
    match Find(s.ops, id)
    case None => s
    case Some(i) =>
      if !s.ops[i].active then s
      else
        var s1 := s.(ops := s.ops[i := s.ops[i].(phase := phase, detail := detail)]);
        PublishOp(s1, i, BEGIN, 0, phase, detail, now, 1)
  }

  /** An undelivered progress packet is superseded by newer progress. */
  function Superseded(r: Record): Record {
    if r.valid && r.event.event == STEP && r.copies == 0 then r.(valid := false) else r
  }

  function CalStep(s: State, id: Word, phase: Byte, detail: Byte, now: nat): (r: State)
    requires Shaped(s)
    ensures Shaped(r)
  {
    match Find(s.ops, id)
    case None => s
    case Some(i) =>
      var op := s.ops[i];
      if !op.active && phase != PHASE_STORAGE then s
      else if phase == PHASE_RETRY && op.retryValid && op.retryReason == detail && now < op.retryAt + 1000 then s
      else StepOp(s, i, phase, detail, now)
  }

  /** A storage error is queued on its own; other progress waits to be coalesced. */
  function StepOp(s: State, i: nat, phase: Byte, detail: Byte, now: nat): (r: State)
    requires Shaped(s) && i < OP_SIZE
    ensures Shaped(r)
  {
    var op := s.ops[i];
    var op1 := if phase == PHASE_RETRY then op.(retryValid := true, retryReason := detail, retryAt := now) else op;
    var s1 := s.(ops := s.ops[i := op1]);
    if phase == PHASE_STORAGE && detail == REASON_STORAGE_ERROR then
      Enqueue(Stamp(s1), Fresh(s1, op.id, op.kind, STEP, 0, phase, detail, now, 3))
    else if op.phase != phase || op.detail != detail then
      s1.(ops := s1.ops[i := op1.(latest := Superseded(op.latest), phase := phase, detail := detail,
                                  changed := now, candidate := true)])
    else s1
  }

  function SetCompletionReason(s: State, id: Word, reason: Byte): (r: State)
    requires Shaped(s)
    ensures Shaped(r)
  {
    match Find(s.ops, id)
    case None => s
    case Some(i) =>
      if s.ops[i].active then s.(ops := s.ops[i := s.ops[i].(completionReason := reason)]) else s
  }

  function CalEnd(s: State, id: Word, outcome: Byte, phase: Byte, reason: Byte, now: nat): (r: State)
    requires Shaped(s)
    ensures Shaped(r)
  {
    match Find(s.ops, id)
    case None => s
    case Some(i) =>
      var op := s.ops[i];
      if !op.active || outcome < SUCCESS || outcome > SKIPPED then s
      else
        var op1 := op.(active := false, candidate := false, latest := op.latest.(valid := false));
        var s1 := s.(ops := s.ops[i := op1]);
        if HiddenOnline(op) && outcome != SUCCESS then s1
        else PublishOp(s1, i, END, outcome, phase,
                       if outcome == SUCCESS && reason == 0 then op.completionReason else reason, now, 3)
  }

  function CalReject(s: State, kind: Byte, reason: Byte, now: nat): (r: State)
    requires Shaped(s)
    ensures Shaped(r)
  {
    match Allocate(s, kind, now)
    case None => s
    case Some((s1, i)) =>
      var s2 := s1.(ops := s1.ops[i := s1.ops[i].(active := false)]);
      PublishOp(s2, i, REJECTED, FAILED, 0, reason, now, 3)
  }

  /** Coalescing update of one rest domain. A changed value stops repeats of the old one. */
  function SetSlot(x: Slot, phase: Byte, detail: Byte, now: nat): Slot {
    if x.candidate && x.phase == phase && x.detail == detail then x
    else if x.published.valid && x.published.event.phase == phase && x.published.event.detail == detail then
      x.(candidate := false, phase := phase, detail := detail)
    else
      x.(phase := phase, detail := detail, changed := now, candidate := true,
         published := x.published.(copies := x.published.limit))
  }

  function SetState(s: State, kind: Byte, phase: Byte, detail: Byte, now: nat): (r: State)
    requires Shaped(s)
    ensures Shaped(r)
  {
    if kind != TRACKER_REST && kind != FUSION_REST then s
    else if !Valid(Event(s.nonce, 0, 0, 0, kind, STATE, 0, phase, detail)) then s
    else s.(slots := s.slots[kind - TRACKER_REST := SetSlot(s.slots[kind - TRACKER_REST], phase, detail, now)])
  }

  predicate WillWom(r: Record) {
    r.valid && r.event.kind == POWER && r.event.phase == WILL_WOM
  }

  function CancelWom(q: seq<Record>): (r: seq<Record>)
    ensures |r| == |q|
    ensures forall i | 0 <= i < |q| :: r[i] == if WillWom(q[i]) then q[i].(valid := false) else q[i]
  {
    seq(|q|, i requires 0 <= i < |q| => if WillWom(q[i]) then q[i].(valid := false) else q[i])
  }

  function Notice(s: State, kind: Byte, phase: Byte, detail: Byte, now: nat): (r: State)
    requires Shaped(s)
    ensures Shaped(r)
  {
    if !Valid(Event(s.nonce, 0, 0, 0, kind, NOTICE, 0, phase, detail)) then s
    else
      var s1 := if kind == POWER && (phase == WILL_SHUTDOWN || phase == WILL_REBOOT)
                then s.(startup := s.startup.(retired := true, pending := [false, false])) else s;
      var s2 := if kind == POWER && phase == WOM_CANCELLED
                then s1.(queue := CancelWom(s1.queue)) else s1;
      Enqueue(Stamp(s2), Fresh(s2, 0, kind, NOTICE, 0, phase, detail, now, 3))
  }

  function ScheduleBoot(s: State, wake: bool, watchdog: bool, now: nat): (r: State)
    requires Shaped(s)
    ensures Shaped(r)
  {
    if s.startup.scheduled || s.startup.retired || s.entropyFailed then s
    else s.(startup := s.startup.(scheduled := true, at := now + BOOT_DELAY_MS,
                                  phase := if wake then WAKE else BOOT, pending := [true, watchdog]))
  }

  function SensorInvalidate(s: State, reason: Byte, now: nat): (r: State)
    requires Shaped(s)
    ensures Shaped(r)
  {
    var a := InvalidateSlot(s.slots[0], s.nonce != 0, reason, now);
    var b := InvalidateSlot(s.slots[1], s.nonce != 0, s.slots[1].detail, now);
    s.(epoch := s.epoch + 1, slots := [a, b])
  }

  function InvalidateSlot(x: Slot, live: bool, detail: Byte, now: nat): Slot {
    var y := x.(observed := false, published := x.published.(valid := false), candidate := false);
    if live then SetSlot(y, REST_UNKNOWN, detail, now) else y
  }

  function Observe(x: Slot, phase: Byte, detail: Byte, now: nat): Slot {
    SetSlot(x.(observed := true, lastObserved := now), phase, detail, now)
  }

  function TrackerFrame(x: Slot, seen: bool, rest: bool, now: nat): Slot {
    if seen then Observe(x, if rest then 1 else 0, 0, now) else x
  }

  function FusionFrame(x: Slot, seen: bool, rest: bool, backend: Byte, now: nat): Slot {
    if backend != BACKEND_VQF && backend != BACKEND_EQF
    then SetSlot(x.(observed := false), FUSION_UNAVAILABLE, 0, now)
    else if seen then Observe(x, if rest then 1 else 0, backend, now) else x
  }

  function ObserveSensor(s: State, epoch: nat, trackerFresh: bool, trackerRest: bool,
                         fusionFresh: bool, fusionRest: bool, backend: Byte, now: nat): (r: State)
    requires Shaped(s)
    ensures Shaped(r)
  {
    if s.nonce == 0 || epoch != s.epoch then s
    else
      s.(slots := [TrackerFrame(s.slots[0], trackerFresh, trackerRest, now),
                   FusionFrame(s.slots[1], fusionFresh, fusionRest, backend, now)])
  }

  // --------------------------------------------------------------- upkeep

  predicate Expires(u: Startup, r: Record, now: nat)
    requires |u.tokens| == 2 && |u.pending| == 2
  {
    r.valid && !StartupPending(u, r) && r.born + TTL_MS <= now
  }

  function ExpireQueue(q: seq<Record>, u: Startup, now: nat): (r: seq<Record>)
    requires |u.tokens| == 2 && |u.pending| == 2
    ensures |r| == |q|
    ensures forall i | 0 <= i < |q| :: r[i] == if Expires(u, q[i], now) then q[i].(valid := false) else q[i]
  {
    seq(|q|, i requires 0 <= i < |q| => if Expires(u, q[i], now) then q[i].(valid := false) else q[i])
  }

  function Expire(s: State, now: nat): State
    requires Shaped(s)
  {
    s.(queue := ExpireQueue(s.queue, s.startup, now))
  }

  predicate Unmaterialized(u: Startup, i: nat)
    requires i < |u.tokens| && i < |u.pending|
  {
    u.pending[i] && u.tokens[i] == 0
  }

  function MaterializeOne(s: State, i: nat, now: nat): (r: State)
    requires Shaped(s) && i < 2
    ensures Shaped(r)
  {
    if !Unmaterialized(s.startup, i) then s
    else
      var rec := Fresh(s, 0, POWER, NOTICE, 0, if i == 1 then WATCHDOG_RESET else s.startup.phase, 0, now, 3);
      Enqueue(Stamp(s).(startup := s.startup.(tokens := s.startup.tokens[i := rec.token])), rec)
  }

  function MaterializeStartup(s: State, now: nat): (r: State)
    requires Shaped(s)
    ensures Shaped(r)
  {
    if s.nonce != 0 && s.startup.scheduled && s.startup.at <= now
    then MaterializeOne(MaterializeOne(s, 0, now), 1, now) else s
  }

  predicate RevealDue(op: Operation, now: nat) {
    op.active && HiddenOnline(op) && op.born + HIDDEN_MS <= now
  }

  /** A hidden operation that has lasted becomes visible with its BEGIN. */
  function RevealOne(s: State, i: nat, now: nat): (r: State)
    requires Shaped(s) && i < OP_SIZE
    ensures Shaped(r)
  {
    if !RevealDue(s.ops[i], now) then s
    else
      var s1 := PublishOp(s, i, BEGIN, 0, s.ops[i].phase, s.ops[i].detail, now, 1);
      s1.(ops := s1.ops[i := s1.ops[i].(candidate := false)])
  }

  function Reveal(s: State, now: nat, n: nat): (r: State)
    requires Shaped(s) && n <= OP_SIZE
    ensures Shaped(r)
  {
    if n == 0 then s else RevealOne(Reveal(s, now, n - 1), n - 1, now)
  }

  function UpkeepSlot(x: Slot, domain: nat, now: nat): Slot {
    var y := if x.observed && x.lastObserved + SENSOR_FRESH_MS <= now
             then SetSlot(x.(observed := false), REST_UNKNOWN, if domain == 1 then x.detail else NO_FRESH_FRAME, now)
             else x;
    if y.published.valid && y.published.copies < y.published.limit && y.published.born + TTL_MS <= now
    then y.(published := y.published.(copies := y.published.limit)) else y
  }

  function Maintain(s: State, now: nat): (r: State)
    requires Shaped(s)
    ensures Shaped(r)
  {
    var s1 := Reveal(MaterializeStartup(Expire(s, now), now), now, OP_SIZE);
    s1.(slots := [UpkeepSlot(s1.slots[0], 0, now), UpkeepSlot(s1.slots[1], 1, now)])
  }

  // --------------------------------------------------------------- selection

  predicate Urgent(r: Record) {
    r.event.phase == WILL_SHUTDOWN || r.event.phase == WILL_REBOOT
  }

  predicate Eligible(r: Record, power: bool) {
    r.valid && (if power then r.event.kind == POWER else r.copies == 0)
  }

  predicate Before(r: Record, best: Record, power: bool) {
    var urgent, bestUrgent := power && Urgent(r), power && Urgent(best);
    (urgent && !bestUrgent) || (urgent == bestUrgent && r.token < best.token)
  }

  /** The record to send first among the first n: urgent intents, then the oldest token. */
  function OldestFirst(q: seq<Record>, power: bool, n: nat): (r: Option<nat>)
    requires n <= |q|
    ensures r.Some? ==> r.value < n && Eligible(q[r.value], power)
    ensures r.None? ==> forall k | 0 <= k < n :: !Eligible(q[k], power)
  {
    if n == 0 then None
    else
      var best := OldestFirst(q, power, n - 1);
      if Eligible(q[n - 1], power) && (best.None? || Before(q[n - 1], q[best.value], power)) then Some(n - 1) else best
  }

  predicate OpBeatDue(op: Operation, now: nat) {
    && op.active && op.visible && (op.latest.valid || op.candidate) && op.heartbeat <= now
    && !(op.candidate && op.progressValid && now < op.progressSent + PROGRESS_GAP_MS)
  }

  function OldestOpBeat(ops: seq<Operation>, now: nat, n: nat): (r: Option<nat>)
    requires n <= |ops|
    ensures r.Some? ==> r.value < n && OpBeatDue(ops[r.value], now)
    ensures r.None? ==> forall k | 0 <= k < n :: !OpBeatDue(ops[k], now)
  {
    if n == 0 then None
    else
      var best := OldestOpBeat(ops, now, n - 1);
      if OpBeatDue(ops[n - 1], now) && (best.None? || ops[n - 1].heartbeat < ops[best.value].heartbeat)
      then Some(n - 1) else best
  }

  predicate SlotBeatDue(x: Slot, now: nat) {
    && x.observed && !x.candidate && x.published.valid && x.published.copies != 0
    && x.published.sent + REST_HEARTBEAT_MS <= now
  }

  /** Heartbeats of operations and rest domains compete by deadline. */
  datatype Beat = NoBeat | OpBeat(i: nat, at: nat) | SlotBeat(i: nat, at: nat)

  function BeatWithSlots(s: State, now: nat, n: nat): (b: Beat)
    requires Shaped(s) && n <= SLOT_COUNT
    ensures b.OpBeat? ==> b.i < OP_SIZE && OpBeatDue(s.ops[b.i], now)
    ensures b.SlotBeat? ==> b.i < n && SlotBeatDue(s.slots[b.i], now)
    ensures b.NoBeat? ==> forall k | 0 <= k < OP_SIZE :: !OpBeatDue(s.ops[k], now)
    ensures b.NoBeat? ==> forall k | 0 <= k < n :: !SlotBeatDue(s.slots[k], now)
  {
    if n == 0 then
      match OldestOpBeat(s.ops, now, OP_SIZE)
      case None => NoBeat
      case Some(i) => OpBeat(i, s.ops[i].heartbeat)
    else
      var b := BeatWithSlots(s, now, n - 1);
      var at := s.slots[n - 1].published.sent + REST_HEARTBEAT_MS;
      if SlotBeatDue(s.slots[n - 1], now) && (b.NoBeat? || at < b.at) then SlotBeat(n - 1, at) else b
  }

  predicate Repeatable(r: Record) {
    r.valid && r.copies != 0 && r.copies < r.limit
  }

  /** Whether a rotation from rr has passed entry i after n steps. */
  ghost predicate Passed(i: nat, rr: nat, n: nat, size: nat)
    requires size > 0
  {
    (i - rr) % size < n
  }

  /** One more step passes just the entry it looks at. */
  lemma PassedNext(rr: nat, n: nat, size: nat)
    requires n < size
    ensures (rr + n) % size < size
    ensures forall i: nat | i < size && Passed(i, rr, n + 1, size) :: Passed(i, rr, n, size) || i == (rr + n) % size
  {
    hide Passed;
    forall i: nat | i < size && Passed(i, rr, n + 1, size) ensures Passed(i, rr, n, size) || i == (rr + n) % size {
      PassedLast(i, rr, n, size);
    }
  }

  lemma PassedLast(i: nat, rr: nat, n: nat, size: nat)
    requires i < size && n < size && Passed(i, rr, n + 1, size)
    ensures Passed(i, rr, n, size) || i == (rr + n) % size
  {
    if !Passed(i, rr, n, size) {
      RemainderFrom(i - rr, size);
      var q := -((i - rr) / size);
      assert rr + n == q * size + i;
      if q < 0 { MulMono(1, -q, size); }
      if q >= 0 { ModUnique(rr + n, q, i, size); }
    }
  }

  lemma RemainderFrom(x: int, size: nat)
    requires size > 0
    ensures x == x / size * size + x % size && -(x / size) * size == -(x / size * size)
  {
  }

  /** Round-robin searches start at the cursor and wrap; n entries are already tried. */
  function NextRepeat(q: seq<Record>, rr: nat, n: nat): (r: Option<nat>)
    requires |q| == QUEUE_SIZE && n <= QUEUE_SIZE
    ensures r.Some? ==> r.value < QUEUE_SIZE && Repeatable(q[r.value])
    ensures r.None? ==> forall i | 0 <= i < QUEUE_SIZE :: Passed(i, rr, n, QUEUE_SIZE) || !Repeatable(q[i])
    decreases QUEUE_SIZE - n
  {
    if n == QUEUE_SIZE then None
    else
      PassedNext(rr, n, QUEUE_SIZE);
      var i := (rr + n) % QUEUE_SIZE;
      if Repeatable(q[i]) then Some(i) else NextRepeat(q, rr, n + 1)
  }

  predicate SlotFresh(x: Slot, now: nat) {
    x.candidate && (!x.publishValid || x.lastPublish + PROGRESS_GAP_MS <= now)
  }

  predicate SlotRepeatable(x: Slot) {
    !x.candidate && x.published.valid && x.published.copies < x.published.limit
  }

  /** Rest domains are tried for a new value first and, last of all, for repeats. */
  predicate SlotWants(x: Slot, repeats: bool, now: nat) {
    if repeats then SlotRepeatable(x) else SlotFresh(x, now)
  }

  function NextSlot(slots: seq<Slot>, rr: nat, repeats: bool, now: nat, n: nat): (r: Option<nat>)
    requires |slots| == SLOT_COUNT && n <= SLOT_COUNT
    ensures r.Some? ==> r.value < SLOT_COUNT && SlotWants(slots[r.value], repeats, now)
    ensures r.None? ==>
              forall i | 0 <= i < SLOT_COUNT :: Passed(i, rr, n, SLOT_COUNT) || !SlotWants(slots[i], repeats, now)
    decreases SLOT_COUNT - n
  {
    if n == SLOT_COUNT then None
    else
      PassedNext(rr, n, SLOT_COUNT);
      var i := (rr + n) % SLOT_COUNT;
      if SlotWants(slots[i], repeats, now) then Some(i) else NextSlot(slots, rr, repeats, now, n + 1)
  }

  predicate ProgressDue(op: Operation, now: nat) {
    && op.id != 0 && op.candidate && !HiddenOnline(op) && op.changed + COALESCE_MS <= now
    && (!op.progressValid || op.progressSent + PROGRESS_GAP_MS <= now)
  }

  predicate ProgressStalled(op: Operation) {
    op.latest.valid && op.latest.event.event == STEP && op.latest.copies == 0
  }

  predicate OpWants(op: Operation, now: nat) {
    ProgressDue(op, now) || ProgressStalled(op)
  }

  function NextProgress(ops: seq<Operation>, rr: nat, now: nat, n: nat): (r: Option<nat>)
    requires |ops| == OP_SIZE && n <= OP_SIZE
    ensures r.Some? ==> r.value < OP_SIZE && OpWants(ops[r.value], now)
    ensures r.None? ==> forall i | 0 <= i < OP_SIZE :: Passed(i, rr, n, OP_SIZE) || !OpWants(ops[i], now)
    decreases OP_SIZE - n
  {
    if n == OP_SIZE then None
    else
      PassedNext(rr, n, OP_SIZE);
      var i := (rr + n) % OP_SIZE;
      if OpWants(ops[i], now) then Some(i) else NextProgress(ops, rr, now, n + 1)
  }

  function Progress(s: State, i: nat, now: nat): (r: (State, Record))
    requires Shaped(s) && i < OP_SIZE
    ensures Shaped(r.0)
  {
    var op := s.ops[i];
    var rec := Fresh(s, op.id, op.kind, STEP, 0, op.phase, op.detail, now, 1);
    (Stamp(s).(ops := s.ops[i := op.(latest := rec, candidate := false)]), rec)
  }

  datatype Choice = Choice(state: State, record: Option<Record>)

  function ChooseProgress(s: State, now: nat): (c: Choice)
    requires Shaped(s)
    ensures Shaped(c.state)
  {
    match NextProgress(s.ops, s.opRr, now, 0)
    case Some(i) =>
      var s1 := s.(opRr := (i + 1) % OP_SIZE);
      if ProgressDue(s.ops[i], now) then var (s2, rec) := Progress(s1, i, now); Choice(s2, Some(rec))
      else Choice(s1, Some(s.ops[i].latest))
    case None =>
      match NextSlot(s.slots, s.slotRr, true, now, 0)
      case Some(i) => Choice(s.(slotRr := (i + 1) % SLOT_COUNT), Some(s.slots[i].published))
      case None => Choice(s, None)
  }

  function ChooseSlow(s: State, now: nat): (c: Choice)
    requires Shaped(s)
    ensures Shaped(c.state)
  {
    match NextRepeat(s.queue, s.queueRr, 0)
    case Some(i) => Choice(s.(queueRr := (i + 1) % QUEUE_SIZE), Some(s.queue[i]))
    case None =>
      match NextSlot(s.slots, s.slotRr, false, now, 0)
      case Some(i) =>
        var x := s.slots[i];
        var rec := Fresh(s, 0, TRACKER_REST + i, STATE, 0, x.phase, x.detail, now, 3);
        Choice(Stamp(s).(slots := s.slots[i := x.(published := rec, candidate := false)],
                         slotRr := (i + 1) % SLOT_COUNT), Some(rec))
      case None => ChooseProgress(s, now)
  }

  function Choose(s: State, now: nat): (c: Choice)
    requires Shaped(s)
    ensures Shaped(c.state)
  {
    match OldestFirst(s.queue, true, QUEUE_SIZE)
    case Some(i) => Choice(s, Some(s.queue[i]))
    case None =>
      match OldestFirst(s.queue, false, QUEUE_SIZE)
      case Some(i) => Choice(s, Some(s.queue[i]))
      case None =>
        match BeatWithSlots(s, now, SLOT_COUNT)
        case OpBeat(i, _) =>
          if s.ops[i].candidate then var (s1, rec) := Progress(s, i, now); Choice(s1, Some(rec))
          else Choice(s, Some(s.ops[i].latest))
        case SlotBeat(i, _) => Choice(s, Some(s.slots[i].published))
        case NoBeat => ChooseSlow(s, now)
  }

  predicate GateOpen(s: State, now: nat) {
    !s.sendGate || s.nextSend <= now
  }

  datatype Sent = Sent(packet: seq<Byte>, token: nat)

  /** The packet handed to the radio, if any, and the remembered selection. */
  function Select(s: State, now: nat, tracker: Byte): (r: (State, Option<Sent>))
    requires Shaped(s)
    ensures Shaped(r.0)
  {
    if tracker >= MAX_TRACKERS then (s, None)
    else
      var s1 := Maintain(s, now);
      if s1.nonce == 0 || !GateOpen(s1, now) then (s1, None)
      else
        var c := Choose(s1, now);
        if c.record.None? then (c.state, None)
        else
          var rec := c.record.value;
          var e := rec.event.(tracker := tracker);
          (c.state.(selected := rec), if Valid(e) then Some(Sent(Packet(e), rec.token)) else None)
  }

  // -------------------------------------------------------------- completion

  function Receipt(r: Record, token: nat, now: nat): Record {
    if r.valid && r.token == token
    then r.(copies := if r.copies < 255 then r.copies + 1 else r.copies, sent := now) else r
  }

  function CompleteRecord(r: Record, token: nat, startup: bool, now: nat): Record {
    var r0 := if r.valid && r.token == token && r.copies == 0 && startup then r.(born := now) else r;
    var r1 := Receipt(r0, token, now);
    if r1.valid && r1.token == token && r1.copies >= r1.limit then r1.(valid := false) else r1
  }

  function CompleteOp(op: Operation, sent: bool, selected: Record, now: nat): Operation {
    var mine := op.latest.valid && op.latest.token == selected.token;
    var stepped := (sent && selected.event.event == STEP) || (mine && op.latest.event.event == STEP);
    op.(latest := Receipt(op.latest, selected.token, now),
        heartbeat := if sent || mine then now + HEARTBEAT_MS else op.heartbeat,
        progressSent := if stepped then now else op.progressSent,
        progressValid := stepped || op.progressValid)
  }

  function CompleteSlot(x: Slot, domain: nat, selected: Record, now: nat): Slot {
    var mine := selected.event.event == STATE && selected.copies == 0 && selected.event.kind == TRACKER_REST + domain;
    var x1 := if mine then x.(lastPublish := now, publishValid := true) else x;
    if x1.published.valid && x1.published.token == selected.token then
      var x2 := if x1.published.copies == 0 then x1.(lastPublish := now, publishValid := true) else x1;
      x2.(published := Receipt(x2.published, selected.token, now))
    else x1
  }

  function CompleteQueue(q: seq<Record>, token: nat, startup: bool, now: nat): (r: seq<Record>)
    ensures |r| == |q|
    ensures forall i | 0 <= i < |q| :: r[i] == CompleteRecord(q[i], token, startup, now)
  {
    seq(|q|, i requires 0 <= i < |q| => CompleteRecord(q[i], token, startup, now))
  }

  function CompleteOps(ops: seq<Operation>, sent: Option<nat>, selected: Record, now: nat): (r: seq<Operation>)
    ensures |r| == |ops|
    ensures forall i | 0 <= i < |ops| :: r[i] == CompleteOp(ops[i], sent == Some(i), selected, now)
  {
    seq(|ops|, i requires 0 <= i < |ops| => CompleteOp(ops[i], sent == Some(i), selected, now))
  }

  predicate Completes(s: State, token: nat) {
    token != 0 && s.selected.valid && s.selected.token == token && s.selected.event.nonce == s.nonce
  }

  function Complete(s: State, token: nat, success: bool, now: nat): (r: State)
    requires Shaped(s)
    ensures Shaped(r)
  {
    if !Completes(s, token) then s
    else
      var gated := s.(sendGate := true, nextSend := now + if success then SPACING_MS else RETRY_MS);
      var done := if success then Admit(gated, s.selected, now) else gated;
      done.(selected := s.selected.(valid := false))
  }

  /** Every copy of an admitted record is credited with the transmission. */
  function Admit(s: State, sent: Record, now: nat): (r: State)
    requires Shaped(s)
    ensures Shaped(r)
  {
    s.(startup := AdmitStartup(s.startup, sent.token),
       queue := CompleteQueue(s.queue, sent.token, sent.token in s.startup.tokens, now),
       ops := CompleteOps(s.ops, Find(s.ops, sent.event.operation), sent, now),
       slots := [CompleteSlot(s.slots[0], 0, sent, now), CompleteSlot(s.slots[1], 1, sent, now)])
  }

  function AdmitStartup(u: Startup, token: nat): (v: Startup)
    requires |u.tokens| == 2 && |u.pending| == 2
    ensures |v.tokens| == 2 && |v.pending| == 2
  {
    u.(pending := [u.pending[0] && u.tokens[0] != token, u.pending[1] && u.tokens[1] != token])
  }

  // ---------------------------------------------------------------- deadline

  /** Times at which one operation may need the sender. */
  function OpTimes(op: Operation, now: nat): set<nat> {
    if op.id == 0 then {}
    else if op.active && HiddenOnline(op) then {op.born + HIDDEN_MS}
    else BeatTimes(op) + ProgressTimes(op) + if ProgressStalled(op) then {now} else {}
  }

  function BeatTimes(op: Operation): set<nat> {
    if op.active && op.visible && (op.latest.valid || op.candidate)
    then {if op.candidate && op.progressValid then Max(op.heartbeat, op.progressSent + PROGRESS_GAP_MS)
          else op.heartbeat}
    else {}
  }

  function ProgressTimes(op: Operation): set<nat> {
    if op.candidate
    then {if op.progressValid then Max(op.changed + COALESCE_MS, op.progressSent + PROGRESS_GAP_MS)
          else op.changed + COALESCE_MS}
    else {}
  }

  function SlotTimes(x: Slot, now: nat): set<nat> {
    (if x.observed then {x.lastObserved + SENSOR_FRESH_MS} else {}) + PublishTimes(x, now)
  }

  function PublishTimes(x: Slot, now: nat): set<nat> {
    if x.candidate then {if x.publishValid then x.lastPublish + PROGRESS_GAP_MS else now}
    else if !x.published.valid then {}
    else if x.published.copies < x.published.limit then {now}
    else if x.observed then {x.published.sent + REST_HEARTBEAT_MS} else {}
  }

  function StartupTimes(u: Startup, n: nat): set<nat>
    requires n <= |u.tokens| && n <= |u.pending|
  {
    if n == 0 then {} else StartupTimes(u, n - 1) + if Unmaterialized(u, n - 1) then {u.at} else {}
  }

  function QueueTimes(q: seq<Record>, now: nat, n: nat): set<nat>
    requires n <= |q|
  {
    if n == 0 then {} else QueueTimes(q, now, n - 1) + if q[n - 1].valid then {now} else {}
  }

  function OpsTimes(ops: seq<Operation>, now: nat, n: nat): set<nat>
    requires n <= |ops|
  {
    if n == 0 then {} else OpsTimes(ops, now, n - 1) + OpTimes(ops[n - 1], now)
  }

  function Times(s: State, now: nat): set<nat>
    requires Shaped(s)
  {
    StartupTimes(s.startup, 2) + QueueTimes(s.queue, now, QUEUE_SIZE) + OpsTimes(s.ops, now, OP_SIZE)
    + SlotTimes(s.slots[0], now) + SlotTimes(s.slots[1], now)
  }

  /** The least of a set of times, none earlier than now. */
  ghost predicate Earliest(times: set<nat>, now: nat, best: Option<nat>) {
    match best
    case None => times == {}
    case Some(b) => (exists t <- times :: b == Max(t, now)) && (forall t <- times :: b <= Max(t, now))
  }

  function Gated(s: State, best: Option<nat>): Option<nat> {
    if best.Some? && s.sendGate then Some(Max(best.value, s.nextSend)) else best
  }

  /** What `deadline` reports once upkeep at `now` is done; None is "no work". */
  ghost predicate IsDeadline(s: State, now: nat, d: Option<nat>)
    requires Shaped(s)
  {
    if s.nonce == 0 then d == None
    else exists best :: Earliest(Times(s, now), now, best) && d == Gated(s, best)
  }

  function AfterDeadline(s: State, now: nat): (r: State)
    requires Shaped(s)
    ensures Shaped(r)
  {
    if s.nonce == 0 then s else Maintain(s, now)
  }

  // ---------------------------------------------------------- identity change

  /** First half: publication stops before fresh entropy is sought. */
  function SessionStop(s: State): State {
    if s.entropyFailed then s else s.(nonce := 0)
  }

  /** Second half: everything of the old identity is erased; zero entropy disables events. */
  function SessionStart(s: State, entropy: Long): (r: State)
    requires Shaped(s)
    ensures Shaped(r)
  {
    s.(queue := Blank(QUEUE_SIZE, NO_RECORD), ops := Blank(OP_SIZE, NO_OPERATION), slots := Blank(SLOT_COUNT, NO_SLOT),
       sequence := 0, sendGate := false,
       startup := s.startup.(tokens := [0, 0]),
       selected := s.selected.(valid := false),
       epoch := s.epoch + 1, nonce := entropy, entropyFailed := entropy == 0)
  }
}
