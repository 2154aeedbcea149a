/** What the console's line editor means: the line is the text before and after the cursor. */
module ConsoleEditor {
  import opened Sequences
  import opened Wrappers

  const BEL: char := '\U{7}'
  const BS: char := '\U{8}'
  const ESC: char := '\U{1b}'
  const DEL: char := '\U{7f}'
  const SAVE: string := [ESC, '[', 's']
  const RESTORE: string := [ESC, '[', 'u']

  /** A command line plus its terminator fills the buffer; cursor moves echo at most three digits. */
  ghost predicate Capacity(limit: nat) {
    2 <= limit <= 1000
  }

  predicate Printable(c: char) {
    ' ' <= c <= '~'
  }

  ghost predicate Text(s: string) {
    forall i | 0 <= i < |s| :: Printable(s[i])
  }

  predicate Between(lo: nat, c: char, hi: nat) {
    lo <= c as int <= hi
  }

  datatype Escape = Idle | Started | Csi(value: nat, frozen: bool) | Ss3

  datatype Editor = Editor(before: string, after: string, overflow: bool, lastCr: bool, escape: Escape) {
    function Line(): string { before + after }

    ghost predicate Valid(limit: nat) {
      && Text(before) && Text(after) && |before| + |after| < limit
      && (overflow ==> escape == Idle)
      && (escape.Csi? ==> escape.value <= 999)
    }
  }

  const BLANK: Editor := Editor("", "", false, false, Idle)

  /** What one byte does: the new editor, the echo, and the line it ended. */
  datatype Effect = Effect(next: Editor, echo: string, ended: Option<string>)

  function Min(a: nat, b: nat): nat {
    if a < b then a else b
  }

  // --------------------------------------------------------------- the echo

  function Digit(n: nat): char
    requires n < 10
  {
    '0' + n as char
  }

  function Digits(n: nat): string
    requires n < 1000
  {
    if n >= 100 then [Digit(n / 100), Digit(n % 100 / 10), Digit(n % 10)]
    else if n >= 10 then [Digit(n / 10), Digit(n % 10)]
    else [Digit(n)]
  }

  function CursorEcho(direction: char, n: nat): string
    requires n < 1000
  {
    if n == 0 then "" else [ESC, '['] + Digits(n) + [direction]
  }

  /** Redraws what follows the cursor after one character was removed. */
  function CloseGapEcho(after: string): string {
    if after == "" then [' ', BS] else SAVE + after + " " + RESTORE
  }

  function InsertEcho(c: char, after: string): string {
    if after == "" then [c] else [c] + SAVE + after + RESTORE
  }

  // -------------------------------------------------------------- the edits

  function Keep(e: Editor): Effect {
    Effect(e, "", None)
  }

  function Insert(limit: nat, e: Editor, c: char): Effect {
    if |e.Line()| + 1 >= limit then
      Effect(e.(overflow := true), if e.overflow then "" else [BEL], None)
    else
      Effect(e.(before := e.before + [c]), InsertEcho(c, e.after), None)
  }

  function Backspace(e: Editor): Effect {
    if e.before == "" then Keep(e)
    else Effect(e.(before := e.before[..|e.before| - 1]), [BS] + CloseGapEcho(e.after), None)
  }

  function Delete(e: Editor): Effect {
    if e.after == "" then Keep(e)
    else Effect(e.(after := e.after[1..]), CursorEcho('C', 1) + [BS] + CloseGapEcho(e.after[1..]), None)
  }

  function Left(e: Editor, count: nat): Effect
    requires |e.before| < 1000
  {
    var n := Min(count, |e.before|);
    var at := |e.before| - n;
    Effect(e.(before := e.before[..at], after := e.before[at..] + e.after), CursorEcho('D', n), None)
  }

  function Right(e: Editor, count: nat): Effect
    requires |e.after| < 1000
  {
    var n := Min(count, |e.after|);
    Effect(e.(before := e.before + e.after[..n], after := e.after[n..]), CursorEcho('C', n), None)
  }

  lemma LeftBy(e: Editor, count: nat, n: nat)
    requires |e.before| < 1000 && n == Min(count, |e.before|)
    ensures var at := |e.before| - n;
            Left(e, count)
            == Effect(e.(before := e.before[..at], after := e.before[at..] + e.after), CursorEcho('D', n), None)
  {
  }

  lemma RightBy(e: Editor, count: nat, n: nat)
    requires |e.after| < 1000 && n == Min(count, |e.after|)
    ensures Right(e, count)
         == Effect(e.(before := e.before + e.after[..n], after := e.after[n..]), CursorEcho('C', n), None)
  {
  }

  function Home(e: Editor): Effect
    requires |e.before| < 1000
  {
    Left(e, |e.before|)
  }

  function End(e: Editor): Effect
    requires |e.after| < 1000
  {
    Right(e, |e.after|)
  }

  // ------------------------------------------------------- escape sequences

  function ApplyFinal(e: Editor, value: nat, final: char): Effect
    requires |e.Line()| < 1000
  {
    var count := if value != 0 then value else 1;
    match final
    case 'D' => Left(e, count)
    case 'C' => Right(e, count)
    case 'H' => Home(e)
    case 'F' => End(e)
    case '~' =>
      if value == 3 then Delete(e)
      else if value == 1 || value == 7 then Home(e)
      else if value == 4 || value == 8 then End(e)
      else Keep(e)
    case _ => Keep(e)
  }

  /** A final byte acts, an intermediate is skipped, anything else abandons the sequence. */
  function CloseEscape(e: Editor, value: nat, c: char): Effect
    requires |e.Line()| < 1000
  {
    if Between(0x20, c, 0x2F) then Keep(e)
    else if Between(0x40, c, 0x7E) then ApplyFinal(e.(escape := Idle), value, c)
    else Keep(e.(escape := Idle))
  }

  function Parameter(value: nat, frozen: bool, c: char): Escape {
    if '0' <= c <= '9' then
      Csi(if frozen || value >= 999 then value else Min(999, value * 10 + (c as int - '0' as int)), frozen)
    else Csi(value, frozen || c == ';')
  }

  function InEscape(e: Editor, c: char): Effect
    requires |e.Line()| < 1000
  {
    match e.escape
    case Idle => Keep(e)
    case Started => Keep(e.(escape := if c == '[' then Csi(0, false) else if c == 'O' then Ss3 else Idle))
    case Csi(value, frozen) =>
      if Between(0x30, c, 0x3F) then Keep(e.(escape := Parameter(value, frozen, c)))
      else CloseEscape(e, value, c)
    case Ss3 => CloseEscape(e, 0, c)
  }

  // --------------------------------------------------------------- one byte

  /** `full` says whether the queue of finished lines would refuse one more. */
  function Finish(e: Editor, full: bool): Effect {
    Effect(BLANK, (if !e.overflow && full then [BEL] else "") + "\r\n", Some(e.Line()))
  }

  lemma FinishEnds(e: Editor, full: bool)
    ensures Finish(e, full).next == BLANK && Finish(e, full).ended == Some(e.Line())
  {
  }

  function Step(limit: nat, e: Editor, c: char, full: bool): Effect
    requires Capacity(limit) && e.Valid(limit)
  {
    if c == '\n' && e.lastCr then Keep(e.(lastCr := false))
    else if c == '\r' || c == '\n' then
      var f := Finish(e, full);
      f.(next := f.next.(lastCr := c == '\r'))
    else
      var d := e.(lastCr := false);
      if d.overflow then Keep(d)
      else if d.escape != Idle then InEscape(d, c)
      else if c == ESC then Keep(d.(escape := Started))
      else if c == BS || c == DEL then Backspace(d)
      else if Printable(c) then Insert(limit, d, c)
      else Keep(d)
  }

  lemma MovesKeep(limit: nat, e: Editor, n: nat)
    requires Capacity(limit) && e.Valid(limit)
    ensures Left(e, n).next.Valid(limit) && Right(e, n).next.Valid(limit)
    ensures Home(e).next.Valid(limit) && End(e).next.Valid(limit)
  {
  }

  lemma EditsKeep(limit: nat, e: Editor, c: char)
    requires Capacity(limit) && e.Valid(limit)
    ensures Delete(e).next.Valid(limit) && Backspace(e).next.Valid(limit)
    ensures Printable(c) && e.escape == Idle ==> Insert(limit, e, c).next.Valid(limit)
  {
  }

  lemma FinalKeeps(limit: nat, e: Editor, value: nat, final: char)
    requires Capacity(limit) && e.Valid(limit)
    ensures ApplyFinal(e, value, final).next.Valid(limit)
  {
    hide Left, Right, Home, End, Delete;
    MovesKeep(limit, e, if value != 0 then value else 1);
    EditsKeep(limit, e, final);
  }

  lemma StepKeeps(limit: nat, e: Editor, c: char, full: bool)
    requires Capacity(limit) && e.Valid(limit)
    ensures Step(limit, e, c, full).next.Valid(limit)
  {
    hide ApplyFinal, Delete, Backspace, Insert;
    var d := e.(lastCr := false);
    EditsKeep(limit, d, c);
    if d.escape.Csi? { FinalKeeps(limit, d.(escape := Idle), d.escape.value, c); }
    if d.escape.Ss3? { FinalKeeps(limit, d.(escape := Idle), 0, c); }
  }

  // --------------------------------------------------------------- run of bytes

  /** A byte with whether the queue was full when it came. */
  datatype Key = Key(byte: char, full: bool)

  datatype Fate = Queued | Spoiled | Refused

  datatype Ended = Ended(text: string, fate: Fate)

  function FateOf(overflow: bool, full: bool): Fate {
    if overflow then Spoiled else if full then Refused else Queued
  }

  /** The lines that reached the queue, in order. */
  function Lines(ended: seq<Ended>): seq<string> {
    if ended == [] then []
    else (if ended[0].fate == Queued then [ended[0].text] else []) + Lines(ended[1..])
  }

  lemma {:induction false} LinesConcat(a: seq<Ended>, b: seq<Ended>)
    ensures Lines(a + b) == Lines(a) + Lines(b)
  {
    if a == [] {
      assert a + b == b;
    } else {
      LinesConcat(a[1..], b);
      assert (a + b)[1..] == a[1..] + b && (a + b)[0] == a[0];
      Regroup(if a[0].fate == Queued then [a[0].text] else [], Lines(a[1..]), Lines(b));
    }
  }

  function EndedBy(e: Editor, f: Effect, full: bool): seq<Ended> {
    if f.ended.Some? then [Ended(f.ended.value, FateOf(e.overflow, full))] else []
  }

  datatype Session = Session(editor: Editor, echo: string, ended: seq<Ended>)

  ghost function Run(limit: nat, e: Editor, keys: seq<Key>): (r: Session)
    requires Capacity(limit) && e.Valid(limit)
    ensures r.editor.Valid(limit)
    decreases |keys|
  {
    if keys == [] then Session(e, "", []) else
    var f := Step(limit, e, keys[0].byte, keys[0].full);
    StepKeeps(limit, e, keys[0].byte, keys[0].full);
    var rest := Run(limit, f.next, keys[1..]);
    Session(rest.editor, f.echo + rest.echo,
            EndedBy(e, f, keys[0].full) + rest.ended)
  }

  ghost function Keys(s: string, full: bool): (k: seq<Key>)
    ensures |k| == |s| && forall i | 0 <= i < |s| :: k[i] == Key(s[i], full)
  {
    seq(|s|, i requires 0 <= i < |s| => Key(s[i], full))
  }

  lemma {:induction false} RunConcat(limit: nat, e: Editor, a: seq<Key>, b: seq<Key>)
    requires Capacity(limit) && e.Valid(limit)
    ensures var r, s := Run(limit, e, a), Run(limit, Run(limit, e, a).editor, b);
            Run(limit, e, a + b) == Session(s.editor, r.echo + s.echo, r.ended + s.ended)
    decreases |a|
  {
    hide Step, EndedBy;
    if a == [] {
      assert a + b == b;
    } else {
      var f := Step(limit, e, a[0].byte, a[0].full);
      StepKeeps(limit, e, a[0].byte, a[0].full);
      RunConcat(limit, f.next, a[1..], b);
      assert (a + b)[1..] == a[1..] + b;
      var r := Run(limit, f.next, a[1..]);
      var s := Run(limit, r.editor, b);
      Regroup(f.echo, r.echo, s.echo);
      Regroup(EndedBy(e, f, a[0].full), r.ended, s.ended);
    }
  }

  lemma RunOne(limit: nat, e: Editor, k: Key)
    requires Capacity(limit) && e.Valid(limit)
    ensures var f := Step(limit, e, k.byte, k.full);
            var r := Run(limit, e, [k]);
            r.editor == f.next && r.echo == f.echo
            && r.ended == EndedBy(e, f, k.full)
  {
    StepKeeps(limit, e, k.byte, k.full);
    assert [k][1..] == [];
  }

  // --------------------------------------------------------- what edits mean

  /** Carriage return, line feed and the pair each end exactly one line, the same one. */
  lemma LineEndings(limit: nat, e: Editor, full: bool)
    requires Capacity(limit) && e.Valid(limit) && !e.lastCr
    ensures var cr := Run(limit, e, Keys("\r", full));
            var lf := Run(limit, e, Keys("\n", full));
            var both := Run(limit, e, Keys("\r\n", full));
            && lf == both && lf.ended == cr.ended == [Ended(e.Line(), FateOf(e.overflow, full))]
            && lf.editor == BLANK && cr.editor == BLANK.(lastCr := true) && lf.echo == cr.echo
  {
    var cr, lf := Key('\r', full), Key('\n', full);
    assert Keys("\r", full) == [cr] && Keys("\n", full) == [lf] && Keys("\r\n", full) == [cr] + [lf];
    RunOne(limit, e, cr);
    RunOne(limit, e, lf);
    RunConcat(limit, e, [cr], [lf]);
    RunOne(limit, Run(limit, e, [cr]).editor, lf);
  }

  lemma TypeOne(limit: nat, e: Editor, c: char, full: bool)
    requires Capacity(limit) && e.Valid(limit) && e.after == "" && e.escape == Idle && Printable(c)
    ensures var f := Step(limit, e, c, full);
            && f.ended.None?
            && f.next == if e.overflow then e.(lastCr := false)
                         else if |e.before| + 1 < limit then e.(before := e.before + [c], lastCr := false)
                         else e.(lastCr := false, overflow := true)
  {
    assert e.Line() == e.before;
  }

  ghost function Typed(limit: nat, e: Editor, s: string): Editor
    requires Capacity(limit) && e.Valid(limit)
  {
    var room := limit - 1 - |e.before|;
    if e.overflow then e
    else if |s| <= room then e.(before := e.before + s)
    else e.(before := e.before + s[..room], overflow := true)
  }

  lemma TypedContinues(limit: nat, e: Editor, c: char, s: string)
    requires Capacity(limit) && e.Valid(limit) && e.after == "" && e.escape == Idle && Printable(c)
    ensures var next := if e.overflow then e
                        else if |e.before| + 1 < limit then e.(before := e.before + [c])
                        else e.(overflow := true);
            next.Valid(limit) && Typed(limit, e, [c] + s) == Typed(limit, next, s)
  {
    var room := limit - 1 - |e.before|;
    if room > 0 && |s| < room {
      assert e.before + ([c] + s) == (e.before + [c]) + s;
    } else if room > 0 {
      assert e.before + ([c] + s)[..room] == (e.before + [c]) + s[..room - 1];
    } else {
      assert e.before + ([c] + s)[..room] == e.before;
    }
  }

  /** Typing printable text appends it until the buffer is full; one character more spoils the line. */
  lemma {:induction false} Typing(limit: nat, e: Editor, s: string, full: bool)
    requires Capacity(limit) && e.Valid(limit) && e.after == "" && e.escape == Idle && Text(s)
    requires !e.lastCr
    ensures Run(limit, e, Keys(s, full)).editor == Typed(limit, e, s)
    ensures Run(limit, e, Keys(s, full)).ended == []
    decreases |s|
  {
    hide Step, Typed;
    if s == "" {
      TypedNothing(limit, e);
    } else {
      var f := Step(limit, e, s[0], full);
      StepKeeps(limit, e, s[0], full);
      TypeOne(limit, e, s[0], full);
      assert Keys(s, full)[1..] == Keys(s[1..], full);
      Typing(limit, f.next, s[1..], full);
      assert s == [s[0]] + s[1..];
      TypedContinues(limit, e, s[0], s[1..]);
      assert f.next == if e.overflow then e
                       else if |e.before| + 1 < limit then e.(before := e.before + [s[0]])
                       else e.(overflow := true);
    }
  }

  lemma TypedNothing(limit: nat, e: Editor)
    requires Capacity(limit) && e.Valid(limit)
    ensures Typed(limit, e, "") == e
  {
    assert e.before + "" == e.before;
  }

  /** A typed line arrives verbatim if it fits, and is dropped whole if it does not. */
  lemma TypedLineDelivered(limit: nat, s: string, full: bool)
    requires Capacity(limit) && Text(s)
    ensures var r := Run(limit, BLANK, Keys(s + "\r", full));
            && r.editor == BLANK.(lastCr := true)
            && r.ended == [if |s| < limit then Ended(s, FateOf(false, full)) else Ended(s[..limit - 1], Spoiled)]
  {
    Typing(limit, BLANK, s, full);
    var cr := Key('\r', full);
    assert Keys(s + "\r", full) == Keys(s, full) + [cr];
    RunConcat(limit, BLANK, Keys(s, full), [cr]);
    var typed := Run(limit, BLANK, Keys(s, full)).editor;
    RunOne(limit, typed, cr);
    assert typed.Line() == if |s| < limit then s else s[..limit - 1];
  }

  lemma MovesKeepLine(e: Editor, n: nat)
    requires |e.Line()| < 1000
    ensures Left(e, n).next.Line() == e.Line() == Right(e, n).next.Line()
  {
    var back, on := |e.before| - Min(n, |e.before|), Min(n, |e.after|);
    Regroup(e.before[..back], e.before[back..], e.after);
    assert e.before[..back] + e.before[back..] == e.before;
    Regroup(e.before, e.after[..on], e.after[on..]);
    assert e.after[..on] + e.after[on..] == e.after;
  }

  /** A move that is not cut short at either end is undone by the opposite move. */
  lemma MovesUndo(e: Editor, n: nat)
    requires |e.Line()| < 1000
    ensures n <= |e.before| ==> Right(Left(e, n).next, n).next == e
    ensures n <= |e.after| ==> Left(Right(e, n).next, n).next == e
  {
    if n <= |e.before| { LeftRight(e, n); }
    if n <= |e.after| { RightLeft(e, n); }
  }

  lemma LeftRight(e: Editor, n: nat)
    requires |e.Line()| < 1000 && n <= |e.before|
    ensures Right(Left(e, n).next, n).next == e
  {
    var at := |e.before| - n;
    var moved := e.before[at..] + e.after;
    assert moved[..n] == e.before[at..] && moved[n..] == e.after;
    assert e.before[..at] + e.before[at..] == e.before;
  }

  lemma RightLeft(e: Editor, n: nat)
    requires |e.Line()| < 1000 && n <= |e.after|
    ensures Left(Right(e, n).next, n).next == e
  {
    var moved := e.before + e.after[..n];
    assert moved[..|e.before|] == e.before && moved[|e.before|..] == e.after[..n];
    assert e.after[..n] + e.after[n..] == e.after;
  }

  /** Backspace undoes an insertion; a delete is one step right and a backspace, and conversely. */
  lemma EditsCompose(limit: nat, e: Editor, c: char)
    requires Capacity(limit) && e.Valid(limit)
    ensures |e.Line()| + 1 < limit ==> Backspace(Insert(limit, e, c).next).next == e
    ensures e.after != "" ==> Delete(e).next == Backspace(Right(e, 1).next).next
    ensures e.before != "" ==> Backspace(e).next == Delete(Left(e, 1).next).next
  {
    if |e.Line()| + 1 < limit {
      assert (e.before + [c])[..|e.before|] == e.before;
    }
    if e.after != "" {
      assert (e.before + e.after[..1])[..|e.before|] == e.before;
    }
    if e.before != "" {
      assert (e.before[|e.before| - 1..] + e.after)[1..] == e.after;
    }
  }

  // ------------------------------------------------------- control sequences

  ghost predicate SequenceBytes(s: string) {
    forall i | 0 <= i < |s| :: Between(0x20, s[i], 0x3F)
  }

  /** The number the bytes before the first semicolon spell, reading on from `value`. */
  ghost function FirstNumber(s: string, value: nat): nat
    decreases |s|
  {
    if s == "" || s[0] == ';' then value
    else if '0' <= s[0] <= '9' then FirstNumber(s[1..], value * 10 + (s[0] as int - '0' as int))
    else FirstNumber(s[1..], value)
  }

  lemma {:induction false} NumberGrows(s: string, value: nat)
    ensures value <= FirstNumber(s, value)
    decreases |s|
  {
    if s != "" && s[0] != ';' {
      NumberGrows(s[1..], if '0' <= s[0] <= '9' then value * 10 + (s[0] as int - '0' as int) else value);
    }
  }

  /** Capping after every digit comes to the same as capping the whole number. */
  lemma {:induction false} Collecting(limit: nat, e: Editor, s: string, number: nat, full: bool)
    requires Capacity(limit) && e.Valid(limit) && SequenceBytes(s) && !e.overflow && !e.lastCr
    requires e.escape.Csi? && e.escape.value == Min(999, number)
    ensures var r := Run(limit, e, Keys(s, full));
            && r.echo == "" && r.ended == [] && r.editor.escape.Csi?
            && r.editor == e.(escape := r.editor.escape)
            && r.editor.escape.value == Min(999, if e.escape.frozen then number else FirstNumber(s, number))
    decreases |s|
  {
    if s == "" {
    } else {
      var c := s[0];
      var f := Step(limit, e, c, full);
      StepKeeps(limit, e, c, full);
      var digit := '0' <= c <= '9' && !e.escape.frozen;
      var more := if digit then number * 10 + (c as int - '0' as int) else number;
      assert Between(0x20, c, 0x3F);
      assert f.next.escape.value == Min(999, more);
      Collecting(limit, f.next, s[1..], more, full);
      assert Keys(s, full)[1..] == Keys(s[1..], full);
      assert f.echo == "" && f.ended.None?;
    }
  }

  lemma OpenSequence(limit: nat, e: Editor, full: bool)
    requires Capacity(limit) && e.Valid(limit) && !e.overflow && e.escape == Idle
    ensures Run(limit, e, Keys([ESC, '['], full)) == Session(e.(lastCr := false, escape := Csi(0, false)), "", [])
  {
    var k0, k1 := Key(ESC, full), Key('[', full);
    var started := e.(lastCr := false, escape := Started);
    RunOne(limit, e, k0);
    RunOne(limit, started, k1);
    RunConcat(limit, e, [k0], [k1]);
    assert Keys([ESC, '['], full) == [k0] + [k1];
  }

  lemma EditsEndNothing(limit: nat, e: Editor, c: char)
    ensures Backspace(e).ended.None? && Insert(limit, e, c).ended.None?
  {
  }

  lemma EditsStayIdle(limit: nat, e: Editor, c: char)
    ensures Backspace(e).next.escape == Insert(limit, e, c).next.escape == e.escape
  {
  }

  lemma FinalStaysIdle(e: Editor, value: nat, final: char)
    requires |e.Line()| < 1000
    ensures ApplyFinal(e, value, final).next.escape == e.escape
  {
  }

  lemma EscapeEndsNothing(e: Editor, c: char)
    requires |e.Line()| < 1000
    ensures InEscape(e, c).ended.None?
  {
  }

  lemma FinalEndsNothing(e: Editor, value: nat, final: char)
    requires |e.Line()| < 1000
    ensures ApplyFinal(e, value, final).ended.None?
  {
  }

  lemma FinalActs(limit: nat, e: Editor, final: char, full: bool)
    requires Capacity(limit) && e.Valid(limit) && !e.overflow && !e.lastCr && e.escape.Csi?
    requires Between(0x40, final, 0x7E)
    ensures Step(limit, e, final, full) == ApplyFinal(e.(escape := Idle), e.escape.value, final)
    ensures Step(limit, e, final, full).ended.None?
  {
    FinalEndsNothing(e.(escape := Idle), e.escape.value, final);
  }

  /** `ESC [`, parameter and intermediate bytes, then a final byte: the final acts once, on the
      first number, missing numbers reading as zero and large ones as 999. */
  lemma ControlSequence(limit: nat, e: Editor, s: string, final: char, full: bool)
    requires Capacity(limit) && e.Valid(limit) && SequenceBytes(s) && Between(0x40, final, 0x7E)
    requires !e.overflow && e.escape == Idle
    ensures var r := Run(limit, e, Keys([ESC, '['] + s + [final], full));
            var f := ApplyFinal(e.(lastCr := false), Min(999, FirstNumber(s, 0)), final);
            r.editor == f.next && r.echo == f.echo && r.ended == []
  {
    hide Step, Run, ApplyFinal;
    var open := e.(lastCr := false, escape := Csi(0, false));
    var opening, closing := Keys([ESC, '['], full), Key(final, full);
    OpenSequence(limit, e, full);
    Collecting(limit, open, s, 0, full);
    var last := Run(limit, open, Keys(s, full)).editor;
    RunConcat(limit, e, opening, Keys(s, full));
    RunOne(limit, last, closing);
    FinalActs(limit, last, final, full);
    RunConcat(limit, e, opening + Keys(s, full), [closing]);
    assert Keys([ESC, '['] + s + [final], full) == opening + Keys(s, full) + [closing];
  }
}
