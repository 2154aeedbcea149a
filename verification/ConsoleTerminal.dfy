/** A terminal as section 5.4 of ECMA-48 describes one, and what the editor's echo draws on it. */
module ConsoleTerminal {
  import opened Wrappers
  import opened ConsoleEditor

  datatype Mode = Ground | Escaped | Reading(number: nat)

  /** Finished rows, the row in progress, and the cursor's column in it. */
  datatype Screen = Screen(above: seq<string>, row: string, column: nat, saved: nat, mode: Mode)

  function Blanks(n: nat): (s: string)
    ensures |s| == n && forall i | 0 <= i < n :: s[i] == ' '
  {
    seq(n, _ => ' ')
  }

  function Put(row: string, column: nat, c: char): string {
    if column < |row| then row[column := c] else row + Blanks(column - |row|) + [c]
  }

  function Perform(t: Screen, number: nat, final: char): Screen {
    var count := if number != 0 then number else 1;
    match final
    case 'C' => t.(column := t.column + count)
    case 'D' => t.(column := t.column - Min(count, t.column))
    case 's' => t.(saved := t.column)
    case 'u' => t.(column := t.saved)
    case _ => t
  }

  function Feed(t: Screen, c: char): Screen {
    match t.mode
    case Ground =>
      if c == ESC then t.(mode := Escaped)
      else if c == BS then t.(column := t.column - Min(1, t.column))
      else if c == '\r' then t.(column := 0)
      else if c == '\n' then t.(above := t.above + [t.row], row := "")
      else if Printable(c) then t.(row := Put(t.row, t.column, c), column := t.column + 1)
      else t
    case Escaped => t.(mode := if c == '[' then Reading(0) else Ground)
    case Reading(n) =>
      if '0' <= c <= '9' then t.(mode := Reading(n * 10 + (c as int - '0' as int)))
      else Perform(t.(mode := Ground), n, c)
  }

  function Replay(t: Screen, s: string): Screen
    decreases |s|
  {
    if s == "" then t else Replay(Feed(t, s[0]), s[1..])
  }

  lemma {:induction false} ReplayConcat(t: Screen, a: string, b: string)
    ensures Replay(t, a + b) == Replay(Replay(t, a), b)
    decreases |a|
  {
    hide Feed;
    if a == "" {
      assert a + b == b;
    } else {
      assert (a + b)[1..] == a[1..] + b;
      ReplayConcat(Feed(t, a[0]), a[1..], b);
    }
  }

  lemma ReplayNothing(t: Screen)
    ensures Replay(t, "") == t
  {
  }

  lemma ReplayOne(t: Screen, c: char)
    ensures Replay(t, [c]) == Feed(t, c)
  {
    assert [c][1..] == "";
  }

  lemma ReplayPair(t: Screen, c: char, d: char)
    ensures Replay(t, [c, d]) == Feed(Feed(t, c), d)
  {
    hide Feed;
    ReplayConcat(t, [c], [d]);
    ReplayOne(t, c);
    ReplayOne(Feed(t, c), d);
    assert [c] + [d] == [c, d];
  }

  /** The row reads as `text`, followed by blanks only. */
  ghost predicate Shows(row: string, text: string) {
    && |text| <= |row|
    && (forall i | 0 <= i < |text| :: row[i] == text[i])
    && (forall i | |text| <= i < |row| :: row[i] == ' ')
  }

  /** The row begins with `text` and is blank from column `upto` on. */
  ghost predicate Begins(row: string, text: string, upto: nat) {
    && |text| <= |row|
    && (forall i | 0 <= i < |text| :: row[i] == text[i])
    && (forall i | upto <= i < |row| :: row[i] == ' ')
  }

  // ---------------------------------------------------- pieces of the echo

  lemma {:induction false} DigitsRead(t: Screen, n: nat)
    requires t.mode == Reading(0) && n < 1000
    ensures Replay(t, Digits(n)) == t.(mode := Reading(n))
  {
    var s := Digits(n);
    if n >= 100 {
      var two := t.(mode := Reading(n / 100 * 10 + n % 100 / 10));
      ReplayPair(t, s[0], s[1]);
      assert Replay(t, [s[0], s[1]]) == two;
      ReplayConcat(t, [s[0], s[1]], [s[2]]);
      ReplayOne(two, s[2]);
      assert s == [s[0], s[1]] + [s[2]];
    } else if n >= 10 {
      ReplayPair(t, s[0], s[1]);
    } else {
      ReplayOne(t, s[0]);
    }
  }

  /** An echoed cursor movement moves the terminal's cursor by exactly that many columns. */
  lemma CursorMoves(t: Screen, direction: char, n: nat)
    requires t.mode == Ground && n < 1000 && direction in "CD"
    requires direction == 'D' ==> n <= t.column
    ensures Replay(t, CursorEcho(direction, n))
         == t.(column := if direction == 'C' then t.column + n else t.column - n)
  {
    if n > 0 {
      var open, digits := [ESC, '['], Digits(n);
      var reading := t.(mode := Reading(0));
      ReplayPair(t, ESC, '[');
      assert Replay(t, open) == reading;
      ReplayConcat(t, open, digits);
      DigitsRead(reading, n);
      ReplayConcat(t, open + digits, [direction]);
      ReplayOne(t.(mode := Reading(n)), direction);
    }
  }

  lemma SaveRestore(t: Screen)
    requires t.mode == Ground
    ensures Replay(t, SAVE) == t.(saved := t.column)
    ensures Replay(t, RESTORE) == t.(column := t.saved)
  {
    ReplayPair(t, ESC, '[');
    var reading := t.(mode := Reading(0));
    ReplayConcat(t, [ESC, '['], "s");
    ReplayConcat(t, [ESC, '['], "u");
    assert SAVE == [ESC, '['] + "s" && RESTORE == [ESC, '['] + "u";
    ReplayOne(reading, 's');
    ReplayOne(reading, 'u');
  }

  lemma BlankBack(t: Screen)
    requires t.mode == Ground
    ensures Replay(t, [' ', BS]) == t.(row := Put(t.row, t.column, ' '))
  {
    ReplayPair(t, ' ', BS);
  }

  lemma PutExtends(row: string, text: string, c: char, upto: nat)
    requires Begins(row, text, upto)
    ensures Begins(Put(row, |text|, c), text + [c], if upto > |text| then upto else |text| + 1)
  {
  }

  /** Printable text lands cell by cell after what the row already begins with. */
  lemma {:induction false} TextLands(t: Screen, text: string, w: string, upto: nat)
    requires t.mode == Ground && t.column == |text| && Text(w) && Begins(t.row, text, upto)
    requires upto >= |text| + |w|
    ensures var r := Replay(t, w);
            && r == t.(row := r.row, column := |text| + |w|)
            && Begins(r.row, text + w, upto)
    decreases |w|
  {
    if w == "" {
      assert text + w == text;
    } else {
      PutExtends(t.row, text, w[0], upto);
      TextLands(Feed(t, w[0]), text + [w[0]], w[1..], upto);
      assert text + w == (text + [w[0]]) + w[1..];
    }
  }

  /** Saving, drawing and restoring shows the text and leaves the cursor where it was. */
  lemma Redrawn(t: Screen, text: string, w: string)
    requires t.mode == Ground && t.column == |text| && Text(w)
    requires Begins(t.row, text, |text| + |w|)
    ensures var r := Replay(t, SAVE + w + RESTORE);
            r.mode == Ground && r.column == t.column && r.above == t.above && Shows(r.row, text + w)
  {
    hide Feed;
    var held := t.(saved := t.column);
    SaveRestore(t);
    TextLands(held, text, w, |text| + |w|);
    ReplayConcat(t, SAVE, w);
    var drawn := Replay(held, w);
    ReplayConcat(t, SAVE + w, RESTORE);
    SaveRestore(drawn);
  }

  // --------------------------------------------------------- echo of an edit

  /** The screen's last row is the line being edited and its cursor is the editor's. */
  ghost predicate Synced(e: Editor, t: Screen) {
    t.mode == Ground && t.column == |e.before| && Shows(t.row, e.Line())
  }

  lemma MovesShown(e: Editor, n: nat, t: Screen)
    requires |e.Line()| < 1000 && Synced(e, t)
    ensures var f := Left(e, n); Synced(f.next, Replay(t, f.echo)) && Replay(t, f.echo).above == t.above
    ensures var f := Right(e, n); Synced(f.next, Replay(t, f.echo)) && Replay(t, f.echo).above == t.above
  {
    hide Replay, CursorEcho;
    MovesKeepLine(e, n);
    CursorMoves(t, 'D', Min(n, |e.before|));
    CursorMoves(t, 'C', Min(n, |e.after|));
  }

  /** Closing a gap of one cell: the text after it shifts left and its last cell is blanked. */
  lemma GapCloses(t: Screen, before: string, after: string)
    requires t.mode == Ground && t.column == |before| && Text(after)
    requires Begins(t.row, before, |before| + |after| + 1)
    ensures var r := Replay(t, CloseGapEcho(after));
            r.mode == Ground && r.column == |before| && r.above == t.above && Shows(r.row, before + after)
  {
    hide Replay;
    if after == "" {
      BlankBack(t);
      assert before + after == before;
    } else {
      assert SAVE + after + " " + RESTORE == SAVE + (after + " ") + RESTORE;
      Redrawn(t, before, after + " ");
      assert before + (after + " ") == (before + after) + " ";
    }
  }

  lemma BackspaceShown(e: Editor, t: Screen)
    requires Synced(e, t) && Text(e.after)
    ensures var f := Backspace(e); Synced(f.next, Replay(t, f.echo)) && Replay(t, f.echo).above == t.above
  {
    hide CloseGapEcho;
    if e.before != "" {
      var before := e.before[..|e.before| - 1];
      var back := t.(column := t.column - 1);
      ReplayOne(t, BS);
      ReplayConcat(t, [BS], CloseGapEcho(e.after));
      GapCloses(back, before, e.after);
    } else {
      assert Replay(t, "") == t;
    }
  }

  lemma DeleteShown(e: Editor, t: Screen)
    requires Synced(e, t) && Text(e.after)
    ensures var f := Delete(e); Synced(f.next, Replay(t, f.echo)) && Replay(t, f.echo).above == t.above
  {
    hide CloseGapEcho, CursorEcho;
    if e.after != "" {
      var after := e.after[1..];
      CursorMoves(t, 'C', 1);
      ReplayOne(t.(column := t.column + 1), BS);
      ReplayConcat(t, CursorEcho('C', 1), [BS]);
      assert Replay(t, CursorEcho('C', 1) + [BS]) == t;
      ReplayConcat(t, CursorEcho('C', 1) + [BS], CloseGapEcho(after));
      GapCloses(t, e.before, after);
    } else {
      assert Replay(t, "") == t;
    }
  }

  lemma InsertShown(limit: nat, e: Editor, c: char, t: Screen)
    requires Synced(e, t) && Text(e.after) && Printable(c)
    ensures var f := Insert(limit, e, c); Synced(f.next, Replay(t, f.echo)) && Replay(t, f.echo).above == t.above
  {
    ReplayOne(t, BEL);
    ReplayOne(t, c);
    if |e.Line()| + 1 < limit {
      var put := Feed(t, c);
      var before, drawn := e.before + [c], SAVE + e.after + RESTORE;
      PutExtends(t.row, e.before, c, |e.Line()|);
      if e.after == "" {
        assert before + e.after == before;
      } else {
        Redrawn(put, before, e.after);
        ReplayConcat(t, [c], drawn);
        assert [c] + drawn == InsertEcho(c, e.after);
      }
    }
  }

  lemma FinalShown(limit: nat, e: Editor, value: nat, final: char, t: Screen)
    requires Capacity(limit) && e.Valid(limit) && Synced(e, t)
    ensures var f := ApplyFinal(e, value, final);
            Synced(f.next, Replay(t, f.echo)) && Replay(t, f.echo).above == t.above
  {
    hide Left, Right, Delete;
    MovesShown(e, if value != 0 then value else 1, t);
    MovesShown(e, |e.before|, t);
    MovesShown(e, |e.after|, t);
    DeleteShown(e, t);
  }

  /** Ending a line starts a blank row and leaves the line, as edited, on the row above. */
  lemma FinishShown(e: Editor, full: bool, t: Screen)
    requires Synced(e, t)
    ensures var r := Replay(t, Finish(e, full).echo);
            Synced(BLANK, r) && r.above == t.above + [t.row] && Shows(t.row, e.Line())
  {
    ReplayOne(t, BEL);
    ReplayPair(t, '\r', '\n');
    ReplayConcat(t, [BEL], "\r\n");
    assert "" + "\r\n" == "\r\n";
  }

  lemma StepShown(limit: nat, e: Editor, c: char, full: bool, t: Screen)
    requires Capacity(limit) && e.Valid(limit) && Synced(e, t)
    ensures var f := Step(limit, e, c, full); var r := Replay(t, f.echo);
            && Synced(f.next, r)
            && r.above == t.above + (if f.ended.Some? then [t.row] else [])
            && (f.ended.Some? ==> Shows(t.row, f.ended.value))
  {
    hide Replay, Shows, ApplyFinal, Delete, Backspace, Insert;
    assert Replay(t, "") == t by { ReplayNothing(t); }
    var d := e.(lastCr := false, escape := Idle);
    FinishShown(e, full, t);
    BackspaceShown(d, t);
    if Printable(c) { InsertShown(limit, d, c, t); }
    var value := if e.escape.Csi? then e.escape.value else 0;
    FinalShown(limit, d, value, c, t);
    FinalEndsNothing(d, value, c);
    EditsEndNothing(limit, d, c);
    assert t.above + [] == t.above;
  }

  // ------------------------------------------------------------------ runs

  /** The last rows above show exactly the lines ended, oldest first. */
  ghost predicate RowsShow(rows: seq<string>, ended: seq<Ended>) {
    |rows| == |ended| && forall i | 0 <= i < |rows| :: Shows(rows[i], ended[i].text)
  }

  /** Whatever bytes arrive, replaying the echo always shows the current line, blank-padded, with
      the cursor in its column, and one finished row above for every line ended. */
  lemma {:induction false} EchoShowsLine(limit: nat, e: Editor, keys: seq<Key>, t: Screen)
    requires Capacity(limit) && e.Valid(limit) && Synced(e, t)
    ensures var run := Run(limit, e, keys); var r := Replay(t, run.echo);
            && Synced(run.editor, r)
            && |t.above| <= |r.above| && r.above[..|t.above|] == t.above
            && RowsShow(r.above[|t.above|..], run.ended)
    decreases |keys|
  {
    hide Step, Replay, Shows, Synced;
    if keys == [] {
      ReplayNothing(t);
      assert t.above[|t.above|..] == [];
    } else {
      var f := Step(limit, e, keys[0].byte, keys[0].full);
      StepKeeps(limit, e, keys[0].byte, keys[0].full);
      StepShown(limit, e, keys[0].byte, keys[0].full, t);
      var next := Replay(t, f.echo);
      EchoShowsLine(limit, f.next, keys[1..], next);
      var rest := Run(limit, f.next, keys[1..]);
      ReplayConcat(t, f.echo, rest.echo);
      var r := Replay(next, rest.echo);
      assert r.above[|t.above|..] == (if f.ended.Some? then [t.row] else []) + r.above[|next.above|..] by {
        assert r.above[..|next.above|] == next.above;
        if f.ended.Some? { assert r.above[|t.above|] == t.row; }
      }
    }
  }
}
