/** Which retired responses are sure to be the ones transmitted, by what was asked and answered. */
module WomResponses {
  import opened Integers
  import opened Wrappers
  import opened WomAnswers
  import opened WomProtocol

  /** A token stands for one request, however often it is repeated. */
  ghost predicate TokensNameRequests(steps: seq<Step>) {
    forall r <- steps, s <- steps ::
      r.ReceiveStep? && s.ReceiveStep? && r.token == s.token ==> r.minutes == s.minutes
  }

  // ------------------------------------------------------- determined answers

  /** The request and the flag of its answer leave one value possible: a refused request, a
      successful CLEAR, ENTER or set, and a failed read. */
  predicate Determined(minutes: Word, token: Word, flag: Word) {
    Rejected(minutes, token) || if flag == RESULT then minutes != 0 else minutes == 0
  }

  lemma AnswersAgree(minutes: Word, token: Word, errno: Word, now: Word, otherErrno: Word, otherNow: Word)
    ensures var a, b := Evaluate(minutes, token, errno, now), Evaluate(minutes, token, otherErrno, otherNow);
            a.flag == b.flag && Determined(minutes, token, a.flag) ==> a == b
  {
  }

  /** The response now retired, and the request it answers. */
  ghost predicate RetiresOf(l: Link, minutes: Word, token: Word, flag: Word) {
    && Retires(l.wom) && l.wom.cachedMinutes == minutes && l.wom.cachedToken == token && l.wom.resultFlag == flag
  }

  /** The last PING transmitted carried the response about to be retired. */
  ghost predicate Sent(l: Link) {
    l.sent.Some? && l.sent.value.ping == Ping(l.wom.resultFlag, l.wom.result, l.wom.cachedToken)
  }

  ghost predicate AlwaysSent(minutes: Word, token: Word, flag: Word) {
    forall steps | TokensNameRequests(steps) && RetiresOf(After(steps), minutes, token, flag) :: Sent(After(steps))
  }

  lemma DeterminedIsSent(steps: seq<Step>, minutes: Word, token: Word, flag: Word)
    requires TokensNameRequests(steps) && RetiresOf(After(steps), minutes, token, flag)
    requires Determined(minutes, token, flag)
    ensures Sent(After(steps))
  {
    hide After, Next, Progress, Evaluate, Asked;
    var l := After(steps);
    RetiredWasSent(steps);
    AfterGrounded(steps);
    assert Records(l);
    var x, last := l.commits[l.sent.value.commits - 1], l.commits[|l.commits| - 1];
    assert x in l.commits && last in l.commits;
    assert x in l.executions && last in l.executions;
    assert Honest(steps, x) && Honest(steps, last);
    SameRequest(steps, x.work, last.work);
    var s :| s in steps && s.ExecuteStep? && x.answer == Evaluate(minutes, token, s.errno, s.now);
    var t :| t in steps && t.ExecuteStep? && last.answer == Evaluate(minutes, token, t.errno, t.now);
    AnswersAgree(minutes, token, s.errno, s.now, t.errno, t.now);
  }

  lemma SameRequest(steps: seq<Step>, a: Work, b: Work)
    requires TokensNameRequests(steps) && Asked(steps, a.minutes, a.token) && Asked(steps, b.minutes, b.token)
    requires a.token == b.token
    ensures a.minutes == b.minutes
  {
  }

  // ------------------------------------------------------------- stale answers

  /** The PING reporting a first answer is prepared, then the record is reset and the same request
      asked and answered again before that PING is transmitted. */
  function AnsweredTwice(minutes: Word, token: Word, errno: Word, now: Word, errno': Word, now': Word): seq<Step> {
    [ReceiveStep(minutes, token, 0), TakeStep(true), ExecuteStep(errno, now), CommitStep,
     PrepareStep(Ping(Evaluate(minutes, token, errno, now).flag, 0, 0)), ResetStep, ReceiveStep(minutes, token, 0),
     SentStep, TakeStep(true), ExecuteStep(errno', now'), CommitStep]
  }

  lemma AnsweredOnce(minutes: Word, token: Word, errno: Word, now: Word, errno': Word, now': Word)
    ensures var s, a := AnsweredTwice(minutes, token, errno, now, errno', now'), Evaluate(minutes, token, errno, now);
            var x := Execution(Work(minutes, token, 1), a);
            var wom := Wom(minutes, token, minutes, token, a.result, 0, a.flag, NORMAL, false, true, true, 1);
            After(s[..5]) == Link(wom, Waiting, [x], [x], Some(Flight(Ping(a.flag, a.result, token), 1)), None)
  {
    hide Progress, Records, After, Evaluate;
    AfterNothing();
    ResponseFlag(minutes, token, errno, now);
    var s := AnsweredTwice(minutes, token, errno, now, errno', now');
    AfterPrefix(s, 5); AfterPrefix(s, 4); AfterPrefix(s, 3); AfterPrefix(s, 2); AfterPrefix(s, 1);
    assert s[..0] == [];
  }

  lemma ResponseFlag(minutes: Word, token: Word, errno: Word, now: Word)
    ensures IsResponse(Evaluate(minutes, token, errno, now).flag)
  {
  }

  lemma SecondAnswerRetires(minutes: Word, token: Word, errno: Word, now: Word, errno': Word, now': Word)
    requires Evaluate(minutes, token, errno, now).flag == Evaluate(minutes, token, errno', now').flag
    ensures var l := After(AnsweredTwice(minutes, token, errno, now, errno', now'));
            var a, b := Evaluate(minutes, token, errno, now), Evaluate(minutes, token, errno', now');
            RetiresOf(l, minutes, token, a.flag) && (Sent(l) <==> a == b)
  {
    hide Progress, Records, After, Evaluate;
    AnsweredOnce(minutes, token, errno, now, errno', now');
    ResponseFlag(minutes, token, errno, now);
    var s := AnsweredTwice(minutes, token, errno, now, errno', now');
    AfterPrefix(s, 11); AfterPrefix(s, 10); AfterPrefix(s, 9); AfterPrefix(s, 8); AfterPrefix(s, 7); AfterPrefix(s, 6);
    assert s[..11] == s;
  }

  /** While a token names one request, the response a NORMAL retires is sure to be the one last
      sent exactly when request and flag determine its value: a successful read, whose value may
      have changed, and a failure of anything else, whose error may have, are the only others. */
  lemma SentIffDetermined(minutes: Word, token: Word, flag: Word)
    requires IsResponse(flag)
    ensures AlwaysSent(minutes, token, flag) <==> Determined(minutes, token, flag)
  {
    hide After, RetiresOf, Sent, Next;
    if Determined(minutes, token, flag) {
      forall steps | TokensNameRequests(steps) && RetiresOf(After(steps), minutes, token, flag)
        ensures Sent(After(steps))
      {
        DeterminedIsSent(steps, minutes, token, flag);
      }
    } else {
      var errno, now, errno', now' := if flag == RESULT then 0 else 5, 10, if flag == RESULT then 0 else 6, 20;
      var steps := AnsweredTwice(minutes, token, errno, now, errno', now');
      TokensInTwice(minutes, token, errno, now, errno', now');
      SecondAnswerRetires(minutes, token, errno, now, errno', now');
      assert RetiresOf(After(steps), minutes, token, flag) && !Sent(After(steps));
    }
  }

  lemma TokensInTwice(minutes: Word, token: Word, errno: Word, now: Word, errno': Word, now': Word)
    ensures TokensNameRequests(AnsweredTwice(minutes, token, errno, now, errno', now'))
  {
  }

  /** The condition on tokens is needed: a CLEAR and an ENTER under one token can be confused. */
  function TokenReused(): seq<Step> {
    [ReceiveStep(CLEAR, 5, 0), TakeStep(true), ExecuteStep(0, 0), CommitStep, PrepareStep(Ping(RESULT, 0, 0)),
     ReceiveStep(ENTER, 5, 0), SentStep, TakeStep(true), ExecuteStep(0, 0), CommitStep]
  }

  lemma FirstOfToken()
    ensures var x := Execution(Work(CLEAR, 5, 1), Answer(RESULT, 0));
            After(TokenReused()[..5])
            == Link(Wom(CLEAR, 5, CLEAR, 5, 0, 0, RESULT, NORMAL, false, true, true, 1), Waiting, [x], [x],
                    Some(Flight(Ping(RESULT, 0, 5), 1)), None)
  {
    hide Progress, Records, After;
    AfterNothing();
    var s := TokenReused();
    AfterPrefix(s, 5); AfterPrefix(s, 4); AfterPrefix(s, 3); AfterPrefix(s, 2); AfterPrefix(s, 1);
    assert s[..0] == [];
  }

  lemma ReusedTokenMayBeStale()
    ensures var l := After(TokenReused()); RetiresOf(l, ENTER, 5, RESULT) && !Sent(l)
    ensures Determined(ENTER, 5, RESULT)
  {
    hide Progress, Records, After;
    var s := TokenReused();
    FirstOfToken();
    AfterPrefix(s, 10); AfterPrefix(s, 9); AfterPrefix(s, 8); AfterPrefix(s, 7); AfterPrefix(s, 6);
    assert s[..10] == s;
  }
}
