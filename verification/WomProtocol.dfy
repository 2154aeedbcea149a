/** The wake-on-motion transaction: one pending request, one cached response. */
module WomProtocol {
  import opened Integers
  import opened Wrappers

  const CLEAR: Word := 0xFFFF
  const ENTER: Word := 0xFFFE
  const MAX_MINUTES: Word := 35791
  const NORMAL: Word := 0x00
  const RESULT: Word := 0x29
  const ERROR: Word := 0x2A
  const EINVAL: Word := 22
  // As the firmware's C library numbers it.
  const ENOTSUP: Word := 134

  predicate IsResponse(flag: Word) {
    flag == RESULT || flag == ERROR
  }

  /** The record the receive interrupt and the radio thread share. */
  datatype Wom = Wom(minutes: Word, token: Word, cachedMinutes: Word, cachedToken: Word, result: Word,
                     sentToken: Word, resultFlag: Word, sentFlag: Word,
                     requested: bool, cached: bool, pending: bool, generation: nat)

  const CLEAN: Wom := Wom(0, 0, 0, 0, 0, 0, 0, 0, false, false, false, 0)

  datatype Answer = Answer(flag: Word, result: Word)

  datatype Work = Work(minutes: Word, token: Word, generation: nat)

  datatype Ping = Ping(flag: Word, value: Word, token: Word)

  // -------------------------------------------------------------- the steps

  function Reset(w: Wom): Wom {
    CLEAN.(generation := w.generation + 1)
  }

  /** `current` is the timeout setting at this moment, which a local command may have changed. */
  predicate Cached(w: Wom, minutes: Word, token: Word, current: Word) {
    && w.cached && minutes == w.cachedMinutes && token == w.cachedToken
    && (w.resultFlag == ERROR || minutes == CLEAR || minutes == ENTER || current == w.result)
  }

  predicate Accepts(w: Wom, minutes: Word, token: Word, current: Word) {
    !Cached(w, minutes, token, current) && !(w.requested && minutes == w.minutes && token == w.token)
  }

  function Receive(w: Wom, minutes: Word, token: Word, current: Word): Wom {
    if Cached(w, minutes, token, current) then w.(pending := true)
    else if !Accepts(w, minutes, token, current) then w
    else w.(minutes := minutes, token := token, requested := true, pending := false,
            sentToken := 0, sentFlag := NORMAL, generation := w.generation + 1)
  }

  predicate Rejected(minutes: Word, token: Word) {
    token == 0 || (minutes != CLEAR && minutes != ENTER && minutes > MAX_MINUTES)
  }

  /** `errno` is what the attempted action returned, `current` the setting read back afterwards. */
  function Evaluate(minutes: Word, token: Word, errno: Word, current: Word): Answer {
    var failure := if Rejected(minutes, token) then EINVAL else if minutes == 0 then 0 else errno;
    if failure != 0 then Answer(ERROR, failure)
    else if minutes == ENTER then Answer(RESULT, ENTER)
    else if minutes == CLEAR then Answer(RESULT, 0)
    else
      var value := if minutes != 0 then minutes else current;
      if value == 0 then Answer(ERROR, ENOTSUP) else Answer(RESULT, value)
  }

  function Commit(w: Wom, work: Work, a: Answer): Wom {
    if work.generation != w.generation then w
    else w.(requested := false, cached := true, cachedMinutes := work.minutes, cachedToken := work.token,
            result := a.result, resultFlag := a.flag, pending := true)
  }

  /** A response flag picked earlier is refreshed together with its value and token. */
  function Prepare(w: Wom, ping: Ping): Ping {
    if !IsResponse(ping.flag) then ping
    else if w.pending then Ping(w.resultFlag, w.result, w.cachedToken)
    else Ping(NORMAL, 0, 0)
  }

  function MarkSent(w: Wom, ping: Ping): Wom {
    w.(sentFlag := ping.flag, sentToken := if IsResponse(ping.flag) then ping.token else 0)
  }

  predicate Retires(w: Wom) {
    w.pending && w.sentToken == w.cachedToken && w.sentFlag == w.resultFlag
  }

  function Normal(w: Wom): Wom {
    if Retires(w) then w.(pending := false, cached := false) else w
  }

  // ------------------------------------------------------------- whole runs

  datatype Execution = Execution(work: Work, answer: Answer)

  datatype Worker = Waiting | Taken(work: Work) | Done(done: Execution)

  /** `commits` counts the transactions committed when the PING was prepared. */
  datatype Flight = Flight(ping: Ping, commits: nat)

  /** The record, the worker between its two locked sections, the PING between preparation and
      transmission, and the history so far. */
  datatype Link = Link(wom: Wom, worker: Worker, executions: seq<Execution>, commits: seq<Execution>,
                       prepared: Option<Flight>, sent: Option<Flight>)

  const IDLE: Link := Link(CLEAN, Waiting, [], [], None, None)

  datatype Step =
    | ResetStep
    | ReceiveStep(minutes: Word, token: Word, current: Word)
    | TakeStep(admitted: bool)
    | ExecuteStep(errno: Word, now: Word)
    | CommitStep
    | PrepareStep(draft: Ping)
    | SentStep
    | NormalStep

  function Next(l: Link, step: Step): Link {
    match step
    case ResetStep => l.(wom := Reset(l.wom))
    case ReceiveStep(minutes, token, current) => l.(wom := Receive(l.wom, minutes, token, current))
    case TakeStep(admitted) =>
      if l.worker.Waiting? && admitted && l.wom.requested
      then l.(worker := Taken(Work(l.wom.minutes, l.wom.token, l.wom.generation))) else l
    case ExecuteStep(errno, now) =>
      if !l.worker.Taken? then l else
      var work := l.worker.work;
      var done := Execution(work, Evaluate(work.minutes, work.token, errno, now));
      l.(worker := Done(done), executions := l.executions + [done])
    case CommitStep =>
      if !l.worker.Done? then l else
      var done := l.worker.done;
      l.(wom := Commit(l.wom, done.work, done.answer), worker := Waiting,
         commits := if done.work.generation == l.wom.generation then l.commits + [done] else l.commits)
    case PrepareStep(draft) => l.(prepared := Some(Flight(Prepare(l.wom, draft), |l.commits|)))
    case SentStep =>
      if l.prepared.None? then l
      else l.(wom := MarkSent(l.wom, l.prepared.value.ping), sent := l.prepared, prepared := None)
    case NormalStep => l.(wom := Normal(l.wom))
  }

  ghost function After(steps: seq<Step>): (l: Link)
    ensures Invariant(l)
    decreases |steps|
  {
    if steps == [] then IDLE else
    var l := After(steps[..|steps| - 1]);
    NextKeeps(l, steps[|steps| - 1]);
    Next(l, steps[|steps| - 1])
  }

  // ------------------------------------------------------------- invariants

  ghost predicate Ordered(executions: seq<Execution>) {
    forall i, j | 0 <= i < j < |executions| :: executions[i].work.generation < executions[j].work.generation
  }

  ghost predicate Below(executions: seq<Execution>, generation: nat) {
    forall x <- executions :: 0 < x.work.generation < generation
  }

  /** No generation is executed twice, and the worker holds none that was. */
  ghost predicate Progress(l: Link) {
    && Ordered(l.executions)
    && (l.wom.requested ==> l.wom.generation > 0)
    && (match l.worker
        case Waiting => Below(l.executions, if l.wom.requested then l.wom.generation else l.wom.generation + 1)
        case Taken(work) => Below(l.executions, work.generation) && 0 < work.generation <= l.wom.generation
        case Done(done) =>
          && l.executions != [] && l.executions[|l.executions| - 1] == done
          && Below(l.executions, done.work.generation + 1) && done.work.generation <= l.wom.generation)
  }

  ghost predicate Carries(ping: Ping, x: Execution) {
    ping == Ping(x.answer.flag, x.answer.result, x.work.token)
  }

  /** What the PING says is what the last transaction committed by then said. */
  ghost predicate FlightOk(f: Flight, commits: seq<Execution>) {
    IsResponse(f.ping.flag) ==> 0 < f.commits <= |commits| && Carries(f.ping, commits[f.commits - 1])
  }

  /** The cache is the last transaction committed. */
  ghost predicate CacheOk(l: Link) {
    && (l.wom.pending ==> l.wom.cached)
    && (l.wom.cached ==>
          && l.commits != [] && IsResponse(l.wom.resultFlag)
          && var x := l.commits[|l.commits| - 1];
             x.work.minutes == l.wom.cachedMinutes && x.work.token == l.wom.cachedToken
             && x.answer == Answer(l.wom.resultFlag, l.wom.result))
  }

  ghost predicate HistoryOk(l: Link) {
    && (forall x <- l.commits :: x in l.executions)
    && (forall x <- l.executions :: IsResponse(x.answer.flag))
  }

  ghost predicate FlightsOk(l: Link) {
    && (l.prepared.Some? ==> FlightOk(l.prepared.value, l.commits))
    && (l.sent.Some? ==> FlightOk(l.sent.value, l.commits))
    && (l.wom.sentFlag != NORMAL ==>
          l.sent.Some? && l.sent.value.ping.flag == l.wom.sentFlag
          && (IsResponse(l.wom.sentFlag) ==> l.sent.value.ping.token == l.wom.sentToken))
  }

  ghost predicate Records(l: Link) {
    CacheOk(l) && HistoryOk(l) && FlightsOk(l)
  }

  ghost predicate Invariant(l: Link) {
    Progress(l) && Records(l)
  }

  lemma NextProgress(l: Link, step: Step)
    requires Progress(l)
    ensures Progress(Next(l, step))
  {
    hide Evaluate, Prepare, Cached;
  }

  lemma NextCache(l: Link, step: Step)
    requires Progress(l) && CacheOk(l) && HistoryOk(l)
    ensures CacheOk(Next(l, step))
  {
    hide Evaluate, Ordered, Below;
  }

  lemma NextHistory(l: Link, step: Step)
    requires Progress(l) && HistoryOk(l)
    ensures HistoryOk(Next(l, step))
  {
    hide Ordered, Below, Receive, Normal, MarkSent, Reset, Commit;
  }

  lemma FlightStays(f: Flight, commits: seq<Execution>, x: Execution)
    requires FlightOk(f, commits)
    ensures FlightOk(f, commits + [x])
  {
  }

  lemma NextFlights(l: Link, step: Step)
    requires CacheOk(l) && FlightsOk(l)
    ensures FlightsOk(Next(l, step))
  {
    if step.CommitStep? && l.worker.Done? {
      if l.prepared.Some? { FlightStays(l.prepared.value, l.commits, l.worker.done); }
      if l.sent.Some? { FlightStays(l.sent.value, l.commits, l.worker.done); }
      hide FlightOk;
    }
  }

  lemma NextRecords(l: Link, step: Step)
    requires Progress(l) && Records(l)
    ensures Records(Next(l, step))
  {
    hide Progress, CacheOk, HistoryOk, FlightsOk, Next;
    NextCache(l, step);
    NextHistory(l, step);
    NextFlights(l, step);
  }

  lemma NextKeeps(l: Link, step: Step)
    requires Invariant(l)
    ensures Invariant(Next(l, step))
  {
    hide Progress, Records, Next;
    NextProgress(l, step);
    NextRecords(l, step);
  }

  // --------------------------------------------------------------- theorems

  /** Whatever interleaves, an accepted request is executed at most once. */
  lemma AcceptedOnce(steps: seq<Step>, i: nat, j: nat)
    requires i < |After(steps).executions| && j < |After(steps).executions|
    requires After(steps).executions[i].work.generation == After(steps).executions[j].work.generation
    ensures i == j
  {
    assert Progress(After(steps));
  }

  /** Only copies of one request arrive, and nothing discards its record. */
  ghost predicate OnlyCopies(steps: seq<Step>, minutes: Word, token: Word) {
    forall s <- steps ::
      && !s.ResetStep? && !s.NormalStep?
      && (s.ReceiveStep? ==> s.minutes == minutes && s.token == token)
  }

  ghost predicate Copy(work: Work, minutes: Word, token: Word) {
    work.minutes == minutes && work.token == token && work.generation > 0
  }

  ghost predicate Single(l: Link, minutes: Word, token: Word) {
    && l.wom.generation <= 1
    && (l.wom.generation == 0 ==> !l.wom.requested && !l.wom.cached)
    && (l.wom.generation == 1 ==>
          && l.wom.minutes == minutes && l.wom.token == token
          && (l.wom.requested || (l.wom.cached && l.wom.cachedMinutes == minutes && l.wom.cachedToken == token)))
    && (l.worker.Taken? ==> Copy(l.worker.work, minutes, token))
    && (l.worker.Done? ==> Copy(l.worker.done.work, minutes, token))
  }

  lemma SingleKeeps(l: Link, step: Step, minutes: Word, token: Word)
    requires Single(l, minutes, token) && OnlyCopies([step], minutes, token) && (minutes == CLEAR || minutes == ENTER)
    ensures Single(Next(l, step), minutes, token)
  {
    assert step in [step];
  }

  lemma {:induction false} CopiesStaySingle(steps: seq<Step>, minutes: Word, token: Word)
    requires OnlyCopies(steps, minutes, token) && (minutes == CLEAR || minutes == ENTER)
    ensures Single(After(steps), minutes, token)
    decreases |steps|
  {
    hide Next, Progress, Records;
    if steps == [] {
    } else {
      var before, step := steps[..|steps| - 1], steps[|steps| - 1];
      CopiesStaySingle(before, minutes, token);
      assert step in steps;
      SingleKeeps(After(before), step, minutes, token);
    }
  }

  /** However often one CLEAR or ENTER request is repeated, it takes effect at most once. */
  lemma AtMostOnce(steps: seq<Step>, minutes: Word, token: Word)
    requires OnlyCopies(steps, minutes, token) && (minutes == CLEAR || minutes == ENTER)
    ensures |After(steps).executions| <= 1
  {
    CopiesStaySingle(steps, minutes, token);
    var l := After(steps);
    assert Progress(l);
    forall x <- l.executions ensures x.work.generation == 1 {
    }
    var count := |l.executions|;
    var first := if count > 0 then l.executions[0].work.generation else 1;
    var last := if count > 0 then l.executions[count - 1].work.generation else 1;
    assert count <= 1 || first < last;
  }

  /** A transmitted response never mixes transactions: its flag, value and token are those of
      one execution that was committed before it was prepared, and the last one. */
  lemma NoSplicing(steps: seq<Step>)
    ensures var l := After(steps);
            l.sent.Some? && IsResponse(l.sent.value.ping.flag) ==>
              && 0 < l.sent.value.commits <= |l.commits|
              && Carries(l.sent.value.ping, l.commits[l.sent.value.commits - 1])
              && l.commits[l.sent.value.commits - 1] in l.executions
  {
    hide After, Next, Progress;
    assert Records(After(steps));
  }

  /** A NORMAL retires only a response whose flag and token were the last transmitted. It was this
      very response exactly when the transaction that PING reported was answered the same way. */
  lemma RetiredWasSent(steps: seq<Step>)
    requires Retires(After(steps).wom)
    ensures var l := After(steps);
            && l.commits != [] && l.sent.Some? && 0 < l.sent.value.commits <= |l.commits|
            && l.sent.value.ping.flag == l.wom.resultFlag && l.sent.value.ping.token == l.wom.cachedToken
            && var last := l.commits[|l.commits| - 1];
               && Carries(Ping(l.wom.resultFlag, l.wom.result, l.wom.cachedToken), last)
               && (Carries(l.sent.value.ping, last) <==> l.commits[l.sent.value.commits - 1].answer == last.answer)
  {
    hide After, Next, Progress;
    assert Records(After(steps));
  }

  lemma AfterOne(steps: seq<Step>, step: Step)
    ensures After(steps + [step]) == Next(After(steps), step)
  {
    hide Next, Progress, Records;
    assert (steps + [step])[..|steps|] == steps;
  }

  /** A response stays pending until its own flag and token are sent, a new request is accepted,
      or the record is reset. */
  lemma PendingPersists(l: Link, step: Step)
    requires Records(l) && l.wom.pending && !Next(l, step).wom.pending
    ensures match step
            case ResetStep => true
            case ReceiveStep(minutes, token, current) => Accepts(l.wom, minutes, token, current)
            case NormalStep => Retires(l.wom)
            case _ => false
  {
  }

  function UnsentRetired(): (steps: seq<Step>) {
    [ReceiveStep(0, 5, 10), TakeStep(true), ExecuteStep(0, 10), CommitStep, PrepareStep(Ping(RESULT, 0, 0)),
     ReceiveStep(0, 5, 20), SentStep, TakeStep(true), ExecuteStep(0, 20), CommitStep]
  }

  lemma FirstHalf()
    ensures var l := After(UnsentRetired()[..5]); var x := Execution(Work(0, 5, 1), Answer(RESULT, 10));
            l == Link(Wom(0, 5, 0, 5, 10, 0, RESULT, NORMAL, false, true, true, 1), Waiting, [x], [x],
                      Some(Flight(Ping(RESULT, 10, 5), 1)), None)
  {
    hide Progress, Records, After;
    AfterNothing();
    var s := UnsentRetired();
    AfterPrefix(s, 5); AfterPrefix(s, 4); AfterPrefix(s, 3); AfterPrefix(s, 2); AfterPrefix(s, 1);
    assert s[..0] == [];
  }

  /** A query repeated after the setting changed, between the preparation of a PING and its
      transmission: the next NORMAL retires the new value although only the old one was sent. */
  lemma RetiredMayBeStale()
    ensures var l := After(UnsentRetired());
            && Retires(l.wom) && l.wom.result == 20 && l.sent.Some? && l.sent.value.ping == Ping(RESULT, 10, 5)
  {
    hide Progress, Records, After;
    var s := UnsentRetired();
    FirstHalf();
    AfterPrefix(s, 10); AfterPrefix(s, 9); AfterPrefix(s, 8); AfterPrefix(s, 7); AfterPrefix(s, 6);
    assert s[..10] == s;
  }

  lemma AfterNothing()
    ensures After([]) == IDLE
  {
  }

  lemma AfterPrefix(steps: seq<Step>, k: nat)
    requires 0 < k <= |steps|
    ensures After(steps[..k]) == Next(After(steps[..k - 1]), steps[k - 1])
  {
    hide Next, Progress, Records;
    assert steps[..k] == steps[..k - 1] + [steps[k - 1]];
    AfterOne(steps[..k - 1], steps[k - 1]);
  }
}
