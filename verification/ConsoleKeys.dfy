/** What each key does to the line, for the bytes a terminal sends. */
module ConsoleKeys {
  import opened Sequences
  import opened Wrappers
  import opened ConsoleEditor

  /** The text and the cursor after some bytes, none of which ended the line. */
  ghost predicate Leaves(limit: nat, e: Editor, bytes: string, full: bool, before: string, after: string)
    requires Capacity(limit) && e.Valid(limit)
  {
    var r := Run(limit, e, Keys(bytes, full));
    r.editor == Editor(before, after, false, false, Idle) && r.ended == []
  }

  /** A key that does nothing: not a character of echo either. */
  ghost predicate Ignored(limit: nat, e: Editor, bytes: string, full: bool)
    requires Capacity(limit) && e.Valid(limit)
  {
    Leaves(limit, e, bytes, full, e.before, e.after) && Run(limit, e, Keys(bytes, full)).echo == ""
  }

  // ------------------------------------------------------------ control sequences

  function Csi(s: string, final: char): string {
    [ESC, '['] + s + [final]
  }

  /** The number a sequence counts with: one if it names none or zero. */
  ghost function Count(s: string): nat {
    if FirstNumber(s, 0) == 0 then 1 else FirstNumber(s, 0)
  }

  ghost predicate Ready(limit: nat, e: Editor, s: string) {
    Capacity(limit) && e.Valid(limit) && SequenceBytes(s) && !e.overflow && e.escape == Idle
  }

  /** The arrows move the cursor over that many characters, or as many as there are. */
  lemma Arrows(limit: nat, e: Editor, s: string, full: bool)
    requires Ready(limit, e, s)
    ensures var at := if Count(s) <= |e.before| then |e.before| - Count(s) else 0;
            Leaves(limit, e, Csi(s, 'D'), full, e.before[..at], e.before[at..] + e.after)
    ensures var n := if Count(s) <= |e.after| then Count(s) else |e.after|;
            Leaves(limit, e, Csi(s, 'C'), full, e.before + e.after[..n], e.after[n..])
  {
    hide Run, FirstNumber, SequenceBytes;
    ControlSequence(limit, e, s, 'D', full);
    ControlSequence(limit, e, s, 'C', full);
  }

  /** ESC [ H, and 1 or 7 before a tilde, put the cursor before the whole line; ESC [ F, and 4 or 8
      before a tilde, after it. */
  lemma Ends(limit: nat, e: Editor, s: string, full: bool)
    requires Ready(limit, e, s)
    ensures Leaves(limit, e, Csi(s, 'H'), full, "", e.Line())
    ensures Leaves(limit, e, Csi(s, 'F'), full, e.Line(), "")
    ensures FirstNumber(s, 0) in {1, 7} ==> Leaves(limit, e, Csi(s, '~'), full, "", e.Line())
    ensures FirstNumber(s, 0) in {4, 8} ==> Leaves(limit, e, Csi(s, '~'), full, e.Line(), "")
  {
    hide Run, FirstNumber, SequenceBytes;
    ControlSequence(limit, e, s, 'H', full);
    ControlSequence(limit, e, s, 'F', full);
    ControlSequence(limit, e, s, '~', full);
    WholeMoves(e.(lastCr := false));
  }

  lemma WholeMoves(e: Editor)
    requires |e.Line()| < 1000
    ensures Home(e).next == e.(before := "", after := e.Line())
    ensures End(e).next == e.(before := e.Line(), after := "")
  {
    assert e.before[0..] == e.before && e.before[..0] == "";
    assert e.after[..|e.after|] == e.after && e.after[|e.after|..] == "";
  }

  /** Three before a tilde removes the character after the cursor, if there is one. */
  lemma DeleteKey(limit: nat, e: Editor, s: string, full: bool)
    requires Ready(limit, e, s) && FirstNumber(s, 0) == 3
    ensures Leaves(limit, e, Csi(s, '~'), full, e.before, if e.after == "" then "" else e.after[1..])
  {
    hide Run, FirstNumber, SequenceBytes;
    ControlSequence(limit, e, s, '~', full);
  }

  /** Every other final, and a tilde after any other number, does nothing. */
  lemma UnknownFinal(limit: nat, e: Editor, s: string, final: char, full: bool)
    requires Ready(limit, e, s) && Between(0x40, final, 0x7E) && final !in "DCHF"
    requires final == '~' ==> FirstNumber(s, 0) !in {1, 3, 4, 7, 8}
    ensures Ignored(limit, e, Csi(s, final), full)
  {
    hide Run, FirstNumber, SequenceBytes;
    ControlSequence(limit, e, s, final, full);
  }

  /** ESC O does what ESC [ does. */
  lemma ApplicationKeys(limit: nat, e: Editor, final: char, full: bool)
    requires Ready(limit, e, "") && Between(0x40, final, 0x7E)
    ensures Run(limit, e, Keys([ESC, 'O', final], full)) == Run(limit, e, Keys(Csi("", final), full))
  {
    hide Run, ApplyFinal;
    var k0, k1, k2 := Key(ESC, full), Key('O', full), Key(final, full);
    var started := e.(lastCr := false, escape := Started);
    var ss3 := started.(escape := Ss3);
    RunOne(limit, e, k0);
    RunOne(limit, started, k1);
    RunConcat(limit, e, [k0], [k1]);
    RunOne(limit, ss3, k2);
    RunConcat(limit, e, [k0] + [k1], [k2]);
    assert Keys([ESC, 'O', final], full) == [k0] + [k1] + [k2];
    ControlSequence(limit, e, "", final, full);
    FinalEndsNothing(e.(lastCr := false), 0, final);
  }

  // -------------------------------------------------------------- plain keys

  /** A printable character goes in at the cursor while one fits; the first one too many rings the
      bell and spoils the line, and from then on keys are swallowed up to the line's end. */
  lemma CharacterKey(limit: nat, e: Editor, c: char, full: bool)
    requires Ready(limit, e, "") && Printable(c)
    ensures |e.Line()| + 1 < limit ==> Leaves(limit, e, [c], full, e.before + [c], e.after)
    ensures |e.Line()| + 1 >= limit ==>
              Run(limit, e, Keys([c], full)) == Session(e.(lastCr := false, overflow := true), [BEL], [])
  {
    assert Keys([c], full) == [Key(c, full)];
    RunOne(limit, e, Key(c, full));
  }

  lemma SpoiledLine(limit: nat, e: Editor, c: char, full: bool)
    requires Capacity(limit) && e.Valid(limit) && e.overflow && c != '\r' && c != '\n'
    ensures Run(limit, e, Keys([c], full)) == Session(e.(lastCr := false), "", [])
  {
    assert Keys([c], full) == [Key(c, full)];
    RunOne(limit, e, Key(c, full));
  }

  /** Backspace and delete both remove the character before the cursor, if there is one. */
  lemma RubOutKey(limit: nat, e: Editor, c: char, full: bool)
    requires Ready(limit, e, "") && c in [BS, DEL]
    ensures Leaves(limit, e, [c], full, if e.before == "" then "" else e.before[..|e.before| - 1], e.after)
  {
    assert Keys([c], full) == [Key(c, full)];
    RunOne(limit, e, Key(c, full));
  }

  /** Tabs and other control bytes, and bytes above the printable ones, do nothing. */
  lemma OtherByte(limit: nat, e: Editor, c: char, full: bool)
    requires Ready(limit, e, "") && !Printable(c) && c !in [BS, DEL, ESC, '\r', '\n']
    ensures Ignored(limit, e, [c], full)
  {
    assert Keys([c], full) == [Key(c, full)];
    RunOne(limit, e, Key(c, full));
  }

  /** Ending a line rings the bell just when the line fits but the queue refuses it. */
  lemma EndRings(limit: nat, e: Editor, c: char, full: bool)
    requires Capacity(limit) && e.Valid(limit) && c in "\r\n" && !e.lastCr
    ensures var r := Run(limit, e, Keys([c], full));
            && r.echo == (if !e.overflow && full then [BEL, '\r', '\n'] else "\r\n")
            && (BEL in r.echo <==> r.ended == [Ended(e.Line(), Refused)])
  {
    assert Keys([c], full) == [Key(c, full)];
    RunOne(limit, e, Key(c, full));
  }

  // -------------------------------------------------------------- end to end

  lemma RunAppend(limit: nat, e: Editor, a: string, b: string, full: bool)
    requires Capacity(limit) && e.Valid(limit)
    ensures var r, s := Run(limit, e, Keys(a, full)), Run(limit, Run(limit, e, Keys(a, full)).editor, Keys(b, full));
            Run(limit, e, Keys(a + b, full)) == Session(s.editor, r.echo + s.echo, r.ended + s.ended)
  {
    hide Run;
    assert Keys(a + b, full) == Keys(a, full) + Keys(b, full);
    RunConcat(limit, e, Keys(a, full), Keys(b, full));
  }

  lemma Then(limit: nat, e: Editor, a: string, b: string, full: bool, mid: Editor, end: Editor)
    requires Capacity(limit) && e.Valid(limit) && mid.Valid(limit)
    requires mid.escape == Idle && !mid.overflow && !mid.lastCr
    requires Leaves(limit, e, a, full, mid.before, mid.after) && Leaves(limit, mid, b, full, end.before, end.after)
    ensures Leaves(limit, e, a + b, full, end.before, end.after)
  {
    hide Run;
    RunAppend(limit, e, a, b, full);
    assert Run(limit, e, Keys(a, full)).editor == mid;
  }

  function Repeated(s: string, n: nat): string {
    if n == 0 then "" else Repeated(s, n - 1) + s
  }

  /** The left arrow, pressed n times, moves the cursor back over n characters. */
  lemma {:induction false} LeftArrows(limit: nat, e: Editor, n: nat, full: bool)
    requires Ready(limit, e, "") && !e.lastCr && n <= |e.before|
    ensures Leaves(limit, e, Repeated(Csi("", 'D'), n), full,
                   e.before[..|e.before| - n], e.before[|e.before| - n..] + e.after)
  {
    if n == 0 {
    } else {
      hide Run, Leaves;
      LeftArrows(limit, e, n - 1, full);
      LeftOnce(limit, e, n - 1, full);
      var at := |e.before| - n;
      Then(limit, e, Repeated(Csi("", 'D'), n - 1), Csi("", 'D'), full,
           e.(before := e.before[..at + 1], after := e.before[at + 1..] + e.after),
           e.(before := e.before[..at], after := e.before[at..] + e.after));
    }
  }

  lemma LeftOnce(limit: nat, e: Editor, n: nat, full: bool)
    requires Ready(limit, e, "") && !e.lastCr && n < |e.before|
    ensures var at := |e.before| - n;
            var mid := e.(before := e.before[..at], after := e.before[at..] + e.after);
            mid.Valid(limit)
            && Leaves(limit, mid, Csi("", 'D'), full, e.before[..at - 1], e.before[at - 1..] + e.after)
  {
    hide Run, Leaves;
    var at := |e.before| - n;
    var mid := e.(before := e.before[..at], after := e.before[at..] + e.after);
    Arrows(limit, mid, "", full);
    assert e.before[..at][..at - 1] == e.before[..at - 1];
    assert e.before[..at][at - 1..] + (e.before[at..] + e.after) == e.before[at - 1..] + e.after;
  }

  lemma TypedText(limit: nat, s: string, full: bool)
    requires Capacity(limit) && Text(s) && |s| < limit
    ensures Leaves(limit, BLANK, s, full, s, "")
  {
    Typing(limit, BLANK, s, full);
  }

  /** A text typed with one character left out, which is then put in where it belongs, arrives as
      if it had been typed right. */
  lemma InsertedLineDelivered(limit: nat, s: string, t: string, c: char, full: bool)
    requires Capacity(limit) && Text(s) && Text(t) && Printable(c) && |s| + |t| + 1 < limit
    ensures Run(limit, BLANK, Keys(s + t + Repeated(Csi("", 'D'), |t|) + [c] + "\r", full)).ended
            == [Ended(s + [c] + t, FateOf(false, full))]
  {
    hide Run, Leaves;
    var arrows := Repeated(Csi("", 'D'), |t|);
    var typed, moved := BLANK.(before := s + t), BLANK.(before := s, after := t);
    var put := moved.(before := s + [c]);
    TypedText(limit, s + t, full);
    LeftArrows(limit, typed, |t|, full);
    assert (s + t)[..|s|] == s && (s + t)[|s|..] + "" == t;
    Then(limit, BLANK, s + t, arrows, full, typed, moved);
    CharacterKey(limit, moved, c, full);
    Then(limit, BLANK, s + t + arrows, [c], full, moved, put);
    EndsLine(limit, s + t + arrows + [c], full, put);
  }

  lemma EndsLine(limit: nat, bytes: string, full: bool, e: Editor)
    requires Capacity(limit) && e.Valid(limit) && e.escape == Idle && !e.overflow && !e.lastCr
    requires Leaves(limit, BLANK, bytes, full, e.before, e.after)
    ensures Run(limit, BLANK, Keys(bytes + "\r", full)).ended == [Ended(e.Line(), FateOf(false, full))]
  {
    hide Run;
    LineEndings(limit, e, full);
    RunAppend(limit, BLANK, bytes, "\r", full);
  }
}
