/** What a transmitted response tells the receiver about the request it answers. */
module WomAnswers {
  import opened Integers
  import opened Wrappers
  import opened WomProtocol

  ghost predicate Asked(steps: seq<Step>, minutes: Word, token: Word) {
    exists s <- steps :: s.ReceiveStep? && s.minutes == minutes && s.token == token
  }

  /** The execution was asked for, and its answer is that of an attempt that was made. */
  ghost predicate Honest(steps: seq<Step>, x: Execution) {
    && Asked(steps, x.work.minutes, x.work.token)
    && exists s <- steps :: s.ExecuteStep? && x.answer == Evaluate(x.work.minutes, x.work.token, s.errno, s.now)
  }

  ghost predicate Grounded(steps: seq<Step>, l: Link) {
    && (l.wom.requested ==> Asked(steps, l.wom.minutes, l.wom.token))
    && (l.worker.Taken? ==> Asked(steps, l.worker.work.minutes, l.worker.work.token))
    && (forall x <- l.executions :: Honest(steps, x))
  }

  lemma HonestStays(steps: seq<Step>, step: Step, x: Execution)
    requires Honest(steps, x)
    ensures Honest(steps + [step], x)
  {
    hide Evaluate;
    AskedStays(steps, step, x.work.minutes, x.work.token);
    var s :| s in steps && s.ExecuteStep? && x.answer == Evaluate(x.work.minutes, x.work.token, s.errno, s.now);
    assert s in steps + [step];
  }

  lemma AskedStays(steps: seq<Step>, step: Step, minutes: Word, token: Word)
    requires Asked(steps, minutes, token)
    ensures Asked(steps + [step], minutes, token)
  {
    var s :| s in steps && s.ReceiveStep? && s.minutes == minutes && s.token == token;
    assert s in steps + [step];
  }

  lemma NextGrounded(steps: seq<Step>, l: Link, step: Step)
    requires Grounded(steps, l)
    ensures Grounded(steps + [step], Next(l, step))
  {
    hide Evaluate, Honest, Asked, Prepare, Cached;
    var all, e := steps + [step], Next(l, step);
    forall x <- l.executions ensures Honest(all, x) { HonestStays(steps, step, x); }
    if l.wom.requested { AskedStays(steps, step, l.wom.minutes, l.wom.token); }
    if l.worker.Taken? { AskedStays(steps, step, l.worker.work.minutes, l.worker.work.token); }
    if step.ReceiveStep? { Arrives(steps, step); }
    if step.ExecuteStep? && l.worker.Taken? { Executed(steps, step, l.worker.work); }
  }

  lemma Arrives(steps: seq<Step>, step: Step)
    requires step.ReceiveStep?
    ensures Asked(steps + [step], step.minutes, step.token)
  {
    assert step in steps + [step];
  }

  lemma Executed(steps: seq<Step>, step: Step, work: Work)
    requires step.ExecuteStep? && Asked(steps, work.minutes, work.token)
    ensures Honest(steps + [step], Execution(work, Evaluate(work.minutes, work.token, step.errno, step.now)))
  {
    hide Evaluate;
    AskedStays(steps, step, work.minutes, work.token);
    assert step in steps + [step];
  }

  lemma {:induction false} AfterGrounded(steps: seq<Step>)
    ensures Grounded(steps, After(steps))
    decreases |steps|
  {
    hide Next, Progress, Records, Honest, Asked;
    if steps == [] {
    } else {
      var before, step := steps[..|steps| - 1], steps[|steps| - 1];
      assert steps == before + [step];
      AfterGrounded(before);
      NextGrounded(before, After(before), step);
    }
  }

  /** A request the tracker must refuse: no token, or a timeout too long to set. */
  predicate Malformed(minutes: Word, token: Word) {
    token == 0 || 35791 < minutes < 0xFFFE
  }

  /** What the flag and value of an answer say of a request, given the attempt made for it. */
  ghost predicate Says(minutes: Word, token: Word, errno: Word, now: Word, flag: Word, value: Word) {
    && flag in {RESULT, ERROR}
    && (flag == RESULT ==>
          && !Malformed(minutes, token)
          && (value == 0 <==> minutes == CLEAR)
          && (minutes != 0 ==> errno == 0)
          && (minutes == 0 ==> value == now)
          && (1 <= minutes <= 35791 || minutes == ENTER ==> value == minutes))
    && (flag == ERROR ==>
          && value != 0
          && (Malformed(minutes, token) ==> value == 22)
          && (!Malformed(minutes, token) ==> if minutes == 0 then now == 0 && value == 134 else value == errno))
  }

  lemma EvaluateSays(minutes: Word, token: Word, errno: Word, now: Word)
    ensures var a := Evaluate(minutes, token, errno, now); Says(minutes, token, errno, now, a.flag, a.result)
  {
  }

  ghost predicate Reports(steps: seq<Step>, ping: Ping, minutes: Word) {
    && Asked(steps, minutes, ping.token)
    && exists s <- steps :: s.ExecuteStep? && Says(minutes, ping.token, s.errno, s.now, ping.flag, ping.value)
  }

  /** A transmitted response bears the token of a request that arrived and tells how it went: a
      value of zero only ever acknowledges a CLEAR, a timeout set or an ENTER is echoed, a query
      answered with the setting found; malformed requests and failures are errors, never results. */
  lemma ResponseMeans(steps: seq<Step>)
    ensures var l := After(steps);
            l.sent.Some? && IsResponse(l.sent.value.ping.flag) ==>
              exists minutes: Word :: Reports(steps, l.sent.value.ping, minutes)
  {
    hide After, Next, Asked, Evaluate, Says;
    var l := After(steps);
    if l.sent.Some? && IsResponse(l.sent.value.ping.flag) {
      NoSplicing(steps);
      AfterGrounded(steps);
      var x := l.commits[l.sent.value.commits - 1];
      assert Honest(steps, x);
      var s :| s in steps && s.ExecuteStep? && x.answer == Evaluate(x.work.minutes, x.work.token, s.errno, s.now);
      EvaluateSays(x.work.minutes, x.work.token, s.errno, s.now);
      assert Reports(steps, l.sent.value.ping, x.work.minutes);
    }
  }

  /** Only a PING drafted as a response is touched: it carries the pending response, and becomes a
      plain one when there is none. */
  lemma PreparedMeans(steps: seq<Step>, draft: Ping)
    ensures var w := After(steps).wom; var ping := Prepare(w, draft);
            && (IsResponse(ping.flag) <==> IsResponse(draft.flag) && w.pending)
            && (!IsResponse(draft.flag) ==> ping == draft)
            && (IsResponse(draft.flag) && !w.pending ==> ping == Ping(NORMAL, 0, 0))
  {
    hide After, Next, Progress;
    assert Records(After(steps));
  }

  /** A repeated request is answered from the cache only while the answer is still true: a cached
      timeout, set or read, is the setting of this moment. */
  lemma CachedStillTrue(steps: seq<Step>, minutes: Word, token: Word, current: Word)
    requires Cached(After(steps).wom, minutes, token, current)
    ensures var l := After(steps);
            && l.commits != []
            && var x := l.commits[|l.commits| - 1];
               && x.work.minutes == minutes && x.work.token == token
               && (x.answer.flag == RESULT && minutes <= 35791 ==>
                     x.answer.result == current && (minutes != 0 ==> current == minutes))
  {
    hide After, Next, Evaluate;
    var l := After(steps);
    assert Records(l);
    AfterGrounded(steps);
    var x := l.commits[|l.commits| - 1];
    assert Honest(steps, x);
    var s :| s in steps && s.ExecuteStep? && x.answer == Evaluate(x.work.minutes, x.work.token, s.errno, s.now);
    EvaluateSays(x.work.minutes, x.work.token, s.errno, s.now);
  }

  /** A request that is neither cached nor already at work is taken up: it will be executed under a
      generation of its own, and until it is answered no response to an older one goes out, unless
      that one is repeated. */
  lemma NewRequestSupersedes(w: Wom, minutes: Word, token: Word, current: Word, draft: Ping)
    requires Accepts(w, minutes, token, current)
    ensures var v := Receive(w, minutes, token, current);
            && v.requested && v.minutes == minutes && v.token == token && v.generation > w.generation
            && !Retires(v) && !IsResponse(Prepare(v, draft).flag)
            && (forall work: Work, a: Answer :: work.generation <= w.generation ==> Commit(v, work, a) == v)
  {
  }

  /** Once retired, an answer is forgotten: asking the same again counts as a new request. */
  lemma RetiredIsForgotten(w: Wom, minutes: Word, token: Word, current: Word)
    requires Retires(w)
    ensures var v := Normal(w);
            && !Cached(v, minutes, token, current) && !v.pending
            && (!w.requested ==> Accepts(v, minutes, token, current))
            && v == w.(pending := false, cached := v.cached)
  {
  }
}
