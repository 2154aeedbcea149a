/** The console as its receive interrupt runs it: one line buffer shifted in place, an echo ring
    drained by the transmitter, and a bounded queue of finished lines. */
module Console {
  import opened Sequences
  import opened Wrappers
  import opened ConsoleEditor

  const ECHO_SIZE: nat := 512
  const QUEUE_DEPTH: nat := 4

  datatype EscapeState = EscapeNone | EscapeStart | EscapeCsi | EscapeSs3

  /** The ring takes what fits and loses the rest; one slot always stays empty. */
  function Offer(ring: string, s: string): string {
    (ring + s)[..Min(|ring + s|, ECHO_SIZE - 1)]
  }

  lemma OfferTwice(ring: string, a: string, b: string)
    requires |ring| < ECHO_SIZE
    ensures Offer(Offer(ring, a), b) == Offer(ring, a + b)
    ensures |Offer(ring, a)| < ECHO_SIZE
  {
    assert ring + (a + b) == (ring + a) + b;
    if |ring + a| < ECHO_SIZE {
      assert Offer(ring, a) == ring + a;
    } else {
      var kept := Offer(ring, a);
      assert (kept + b)[..ECHO_SIZE - 1] == kept;
      assert ((ring + a) + b)[..ECHO_SIZE - 1] == (ring + a)[..ECHO_SIZE - 1];
    }
  }

  lemma OfferNothing(ring: string)
    requires |ring| < ECHO_SIZE
    ensures Offer(ring, "") == ring
  {
  }

  ghost function Unwrap(buffer: seq<char>, head: nat, tail: nat): (s: string)
    requires head < |buffer| && tail < |buffer|
    ensures |s| < |buffer|
  {
    if tail <= head then buffer[tail..head] else buffer[tail..] + buffer[..head]
  }

  lemma UnwrapFrom(buffer: seq<char>, head: nat, tail: nat, count: nat)
    requires |buffer| == ECHO_SIZE && head < ECHO_SIZE && tail < ECHO_SIZE && head != tail
    requires count <= if head > tail then head - tail else ECHO_SIZE - tail
    ensures Unwrap(buffer, head, tail)
         == buffer[tail..tail + count] + Unwrap(buffer, head, (tail + count) % ECHO_SIZE)
  {
    hide Unwrap;
    var on := tail + count;
    if head > tail {
      LinearFrom(buffer, head, tail, on);
    } else if on < ECHO_SIZE {
      WrappedFrom(buffer, head, tail, on);
    } else {
      WrappedToEnd(buffer, head, tail);
    }
  }

  lemma LinearFrom(buffer: seq<char>, head: nat, tail: nat, on: nat)
    requires tail <= on <= head < |buffer|
    ensures Unwrap(buffer, head, tail) == buffer[tail..on] + Unwrap(buffer, head, on)
  {
  }

  lemma WrappedToEnd(buffer: seq<char>, head: nat, tail: nat)
    requires head < tail < |buffer|
    ensures Unwrap(buffer, head, tail) == buffer[tail..|buffer|] + Unwrap(buffer, head, 0)
  {
    assert buffer[tail..|buffer|] == buffer[tail..] && buffer[0..head] == buffer[..head];
  }

  lemma WrappedFrom(buffer: seq<char>, head: nat, tail: nat, on: nat)
    requires head < tail <= on < |buffer|
    ensures Unwrap(buffer, head, tail) == buffer[tail..on] + Unwrap(buffer, head, on)
  {
    Regroup(buffer[tail..on], buffer[on..], buffer[..head]);
    assert buffer[tail..] == buffer[tail..on] + buffer[on..];
  }

  lemma UnwrapPut(buffer: seq<char>, head: nat, tail: nat, c: char)
    requires |buffer| == ECHO_SIZE && head < ECHO_SIZE && tail < ECHO_SIZE
    ensures var next := (head + 1) % ECHO_SIZE;
            if next == tail then |Unwrap(buffer, head, tail)| == ECHO_SIZE - 1
            else Unwrap(buffer[head := c], next, tail) == Unwrap(buffer, head, tail) + [c]
  {
    hide Unwrap;
    if tail <= head && head + 1 < ECHO_SIZE {
      PutAhead(buffer, head, tail, c);
    } else if tail <= head {
      PutAtEnd(buffer, tail, c);
    } else if head + 1 < tail {
      PutBehind(buffer, head, tail, c);
    } else {
      RingFull(buffer, tail);
    }
  }

  lemma PutAhead(buffer: seq<char>, head: nat, tail: nat, c: char)
    requires tail <= head && head + 1 < |buffer|
    ensures Unwrap(buffer[head := c], head + 1, tail) == Unwrap(buffer, head, tail) + [c]
  {
  }

  lemma PutAtEnd(buffer: seq<char>, tail: nat, c: char)
    requires |buffer| == ECHO_SIZE && tail < ECHO_SIZE
    ensures var head := ECHO_SIZE - 1;
            if tail == 0 then |Unwrap(buffer, head, tail)| == ECHO_SIZE - 1
            else Unwrap(buffer[head := c], 0, tail) == Unwrap(buffer, head, tail) + [c]
  {
    var head := ECHO_SIZE - 1;
    assert buffer[head := c][tail..] == buffer[tail..head] + [c];
  }

  lemma PutBehind(buffer: seq<char>, head: nat, tail: nat, c: char)
    requires head + 1 < tail < |buffer|
    ensures Unwrap(buffer[head := c], head + 1, tail) == Unwrap(buffer, head, tail) + [c]
  {
    Regroup(buffer[tail..], buffer[..head], [c]);
    assert buffer[head := c][..head + 1] == buffer[..head] + [c];
    assert buffer[head := c][tail..] == buffer[tail..];
  }

  lemma RingFull(buffer: seq<char>, tail: nat)
    requires 0 < tail < |buffer|
    ensures |Unwrap(buffer, tail - 1, tail)| == |buffer| - 1
  {
  }

  /** The queue refuses a line when full; a spoiled line is never put. */
  function Enqueue(queue: seq<string>, e: Editor, ended: Option<string>): seq<string> {
    if ended.Some? && !e.overflow && |queue| < QUEUE_DEPTH then queue + [ended.value] else queue
  }

  lemma EnqueueNothing(queue: seq<string>, e: Editor)
    ensures Enqueue(queue, e, None) == queue
  {
  }

  lemma Shifted(was: string, now: string, from: nat, until: nat)
    requires from <= until < |was| == |now|
    requires forall k | 0 <= k < from :: now[k] == was[k]
    requires forall k | from < k <= until :: now[k] == was[k - 1]
    ensures now[..from] == was[..from] && now[from + 1..until + 1] == was[from..until]
  {
    forall k | 0 <= k < until - from ensures now[from + 1..until + 1][k] == was[from..until][k] {
      assert now[from + 1 + k] == was[from + k];
    }
  }

  lemma LinePrintable(before: string, after: string, line: string)
    requires Text(before) && Text(after) && line == before + after
    ensures Text(line)
  {
  }

  class Input {
    const limit: nat
    const line: array<char>
    const echo: array<char>
    var overflow: bool
    var lastWasCr: bool
    var escapeState: EscapeState
    var escapeHasValue: bool
    var escapeIgnoreValue: bool
    var escapeValue: nat
    var cursor: nat
    var tail: nat
    var echoHead: nat
    var echoTail: nat
    var queue: seq<string>

    ghost predicate LineOk()
      reads this`cursor, this`tail, line
    {
      && Capacity(limit) && line.Length == limit && cursor + tail < limit
      && (forall i | 0 <= i < cursor + tail :: Printable(line[i]))
    }

    ghost predicate RingOk()
      reads this`echoHead, this`echoTail
    {
      echo.Length == ECHO_SIZE && echoHead < ECHO_SIZE && echoTail < ECHO_SIZE
    }

    ghost predicate Valid()
      reads this, line
    {
      && LineOk() && RingOk() && line != echo && |queue| <= QUEUE_DEPTH
      && (overflow ==> escapeState == EscapeNone)
      && escapeValue <= 999
      && (!escapeHasValue ==> escapeValue == 0)
      && (escapeState == EscapeStart || escapeState == EscapeSs3 ==> escapeValue == 0)
    }

    /** The line and the cursor, outside any escape sequence. */
    ghost function Editing(): (e: Editor)
      requires LineOk()
      reads this`cursor, this`tail, this`overflow, this`lastWasCr, line
      ensures e.Valid(limit)
    {
      Editor(line[..cursor], line[cursor..cursor + tail], overflow, lastWasCr, Idle)
    }

    ghost function Mode(): Escape
      reads this
    {
      match escapeState
      case EscapeNone => Idle
      case EscapeStart => Started
      case EscapeCsi => Csi(escapeValue, escapeIgnoreValue)
      case EscapeSs3 => Ss3
    }

    ghost function View(): (e: Editor)
      requires Valid()
      reads this, line
      ensures e.Valid(limit)
    {
      Editing().(escape := Mode())
    }

    /** Echo not yet transmitted, oldest first. */
    ghost function Ring(): (s: string)
      requires RingOk()
      reads this`echoHead, this`echoTail, echo
      ensures |s| < ECHO_SIZE
    {
      Unwrap(echo[..], echoHead, echoTail)
    }

    constructor (capacity: nat)
      requires Capacity(capacity)
      ensures limit == capacity && Valid() && View() == BLANK && Ring() == "" && queue == []
      ensures fresh(line) && fresh(echo)
    {
      limit := capacity;
      line := new char[capacity](_ => '\0');
      echo := new char[ECHO_SIZE](_ => '\0');
      overflow, lastWasCr, escapeState, escapeHasValue, escapeIgnoreValue := false, false, EscapeNone, false, false;
      escapeValue, cursor, tail, echoHead, echoTail, queue := 0, 0, 0, 0, 0, [];
    }

    // ------------------------------------------------------------- the echo

    method EchoPut(byte: char)
      requires Valid()
      modifies this`echoHead, echo
      ensures Valid() && Ring() == Offer(old(Ring()), [byte])
    {
      var next := (echoHead + 1) % ECHO_SIZE;
      UnwrapPut(echo[..], echoHead, echoTail, byte);
      if next == echoTail {
        return;
      }
      echo[echoHead] := byte;
      echoHead := next;
    }

    method EchoText(text: string)
      requires Valid()
      modifies this`echoHead, echo
      ensures Valid() && Ring() == Offer(old(Ring()), text)
    {
      hide Offer, Ring;
      OfferNothing(Ring());
      ghost var was := Ring();
      var i := 0;
      assert Offer(was, text[..0]) == was;
      while i < |text|
        invariant i <= |text|
        invariant Valid() && Ring() == Offer(was, text[..i])
      {
        EchoPut(text[i]);
        OfferTwice(was, text[..i], [text[i]]);
        assert text[..i] + [text[i]] == text[..i + 1];
        i := i + 1;
      }
      assert text[..i] == text;
    }

    /** Echoes the part of the line after the cursor. */
    method EchoRest()
      requires Valid()
      modifies this`echoHead, echo
      ensures Valid() && Ring() == Offer(old(Ring()), Editing().after)
    {
      hide Offer, Ring;
      OfferNothing(Ring());
      ghost var was, after := Ring(), Editing().after;
      var i := cursor;
      assert Offer(was, after[..0]) == was;
      while i < cursor + tail
        invariant cursor <= i <= cursor + tail
        invariant Valid() && Editing().after == after && Ring() == Offer(was, after[..i - cursor])
      {
        assert after[i - cursor] == line[i];
        EchoPut(line[i]);
        OfferTwice(was, after[..i - cursor], [after[i - cursor]]);
        assert after[..i - cursor] + [after[i - cursor]] == after[..i + 1 - cursor];
        i := i + 1;
      }
      assert after[..i - cursor] == after;
    }

    method EchoCursor(direction: char, count: nat)
      requires Valid() && count < 1000
      modifies this`echoHead, echo
      ensures Valid() && Ring() == Offer(old(Ring()), CursorEcho(direction, count))
    {
      hide Offer, Ring;
      OfferNothing(Ring());
      ghost var was := Ring();
      if count == 0 {
        return;
      }
      EchoPut(ESC);
      EchoPut('[');
      OfferTwice(was, [ESC], ['[']);
      ghost var open := [ESC] + ['['];
      assert open == [ESC, '['];
      if count >= 100 {
        EchoPut(Digit(count / 100));
        OfferTwice(was, open, [Digit(count / 100)]);
        open := open + [Digit(count / 100)];
        var rest := count % 100;
        EchoPut(Digit(rest / 10));
        OfferTwice(was, open, [Digit(rest / 10)]);
        open := open + [Digit(rest / 10)];
        EchoPut(Digit(rest % 10));
        OfferTwice(was, open, [Digit(rest % 10)]);
        open := open + [Digit(rest % 10)];
      } else if count >= 10 {
        EchoPut(Digit(count / 10));
        OfferTwice(was, open, [Digit(count / 10)]);
        open := open + [Digit(count / 10)];
        EchoPut(Digit(count % 10));
        OfferTwice(was, open, [Digit(count % 10)]);
        open := open + [Digit(count % 10)];
      } else {
        EchoPut(Digit(count));
        OfferTwice(was, open, [Digit(count)]);
        open := open + [Digit(count)];
      }
      assert count % 100 % 10 == count % 10;
      assert open == [ESC, '['] + Digits(count);
      EchoPut(direction);
      OfferTwice(was, open, [direction]);
    }

    method EchoClosedGap()
      requires Valid()
      modifies this`echoHead, echo
      ensures Valid() && Ring() == Offer(old(Ring()), CloseGapEcho(Editing().after))
    {
      hide Offer, Ring;
      OfferNothing(Ring());
      ghost var was, after := Ring(), Editing().after;
      if tail == 0 {
        EchoText([' ', BS]);
      } else {
        EchoText(SAVE);
        EchoRest();
        OfferTwice(was, SAVE, after);
        EchoText(" " + RESTORE);
        OfferTwice(was, SAVE + after, " " + RESTORE);
        assert SAVE + after + (" " + RESTORE) == CloseGapEcho(after);
      }
    }

    // ------------------------------------------------------------- the edits

    method ResetLine()
      requires Valid()
      modifies this`overflow, this`lastWasCr, this`escapeState, this`escapeHasValue, this`escapeIgnoreValue,
               this`escapeValue, this`cursor, this`tail
      ensures Valid() && View() == BLANK
    {
      overflow, lastWasCr, escapeState, escapeHasValue, escapeIgnoreValue := false, false, EscapeNone, false, false;
      escapeValue, cursor, tail := 0, 0, 0;
    }

    method FinishLine()
      requires Valid()
      modifies this, echo
      ensures Valid() && queue == Enqueue(old(queue), old(View()), Some(old(View()).Line()))
      ensures var f := Finish(old(View()), |old(queue)| >= QUEUE_DEPTH);
              View() == f.next && Ring() == Offer(old(Ring()), f.echo)
    {
      hide Offer, Ring;
      OfferNothing(Ring());
      ghost var was := Ring();
      if !overflow {
        var message := line[..cursor + tail];
        assert message == View().Line();
        if |queue| < QUEUE_DEPTH {
          queue := queue + [message];
        } else {
          EchoPut(BEL);
        }
      }
      ghost var bell := if !old(overflow) && |old(queue)| >= QUEUE_DEPTH then [BEL] else "";
      assert Ring() == Offer(was, bell);
      EchoText("\r\n");
      OfferTwice(was, bell, "\r\n");
      ResetLine();
    }

    /** Shifts everything from the cursor on one place up. */
    method OpenGap()
      requires line.Length == limit && cursor + tail + 1 < limit
      modifies line
      ensures line[..cursor] == old(line[..cursor])
      ensures line[cursor + 1..cursor + tail + 1] == old(line[cursor..cursor + tail])
    {
      var length := cursor + tail;
      var i := length;
      while i > cursor
        invariant cursor <= i <= length
        invariant forall k | 0 <= k <= i && k < length :: line[k] == old(line[k])
        invariant forall k | i < k <= length :: line[k] == old(line[k - 1])
      {
        line[i] := line[i - 1];
        i := i - 1;
      }
      Shifted(old(line[..]), line[..], cursor, length);
    }

    method RefuseChar()
      requires Valid() && escapeState == EscapeNone
      modifies this`overflow, this`echoHead, echo
      ensures Valid() && Editing() == old(Editing()).(overflow := true)
      ensures Ring() == Offer(old(Ring()), if old(overflow) then "" else [BEL])
    {
      OfferNothing(Ring());
      if !overflow {
        overflow := true;
        EchoPut(BEL);
      }
    }

    method InsertChar(byte: char)
      requires Valid() && Printable(byte) && escapeState == EscapeNone
      modifies this`overflow, this`cursor, this`echoHead, line, echo
      ensures Valid()
      ensures var f := Insert(limit, old(Editing()), byte);
              Editing() == f.next && Ring() == Offer(old(Ring()), f.echo)
    {
      hide Offer, Ring, InsertEcho;
      OfferNothing(Ring());
      ghost var was, e := Ring(), Editing();
      var length := cursor + tail;
      if length >= limit - 1 {
        RefuseChar();
        return;
      }
      PlaceChar(byte);
      EchoInserted(byte);
    }

    method PlaceChar(byte: char)
      requires Valid() && Printable(byte) && cursor + tail + 1 < limit
      modifies this`cursor, line
      ensures Valid() && Ring() == old(Ring())
      ensures var e := old(Editing()); Editing() == e.(before := e.before + [byte])
    {
      hide Ring;
      ghost var e := Editing();
      OpenGap();
      line[cursor] := byte;
      assert line[..cursor + 1] == e.before + [byte];
      assert line[cursor + 1..cursor + tail + 1] == e.after;
      LinePrintable(line[..cursor + 1], line[cursor + 1..cursor + tail + 1], line[..cursor + tail + 1]);
      cursor := cursor + 1;
    }

    method EchoInserted(byte: char)
      requires Valid()
      modifies this`echoHead, echo
      ensures Valid() && Ring() == Offer(old(Ring()), InsertEcho(byte, Editing().after))
    {
      hide Offer, Ring;
      ghost var was, after := Ring(), Editing().after;
      EchoPut(byte);
      if tail != 0 {
        EchoText(SAVE);
        OfferTwice(was, [byte], SAVE);
        EchoRest();
        OfferTwice(was, [byte] + SAVE, after);
        EchoText(RESTORE);
        OfferTwice(was, [byte] + SAVE + after, RESTORE);
        assert [byte] + SAVE + after + RESTORE == InsertEcho(byte, after);
      }
    }

    /** Shifts everything after index `at` one place down. */
    method CloseGap(at: nat)
      requires Valid() && at < cursor + tail
      modifies line
      ensures Valid()
      ensures line[..at] == old(line[..at])
      ensures line[at..cursor + tail - 1] == old(line[at + 1..cursor + tail])
      ensures Ring() == old(Ring())
    {
      hide Ring;
      var length := cursor + tail;
      var i := at;
      while i + 1 < length
        invariant at <= i < length
        invariant forall k | 0 <= k < at :: line[k] == old(line[k])
        invariant forall k | at <= k < i :: line[k] == old(line[k + 1])
        invariant forall k | i <= k < length :: line[k] == old(line[k])
        invariant Valid() && Ring() == old(Ring())
      {
        line[i] := line[i + 1];
        i := i + 1;
      }
    }

    method BackspaceKey()
      requires Valid()
      modifies this`cursor, this`echoHead, line, echo
      ensures Valid()
      ensures var f := Backspace(old(Editing()));
              Editing() == f.next && Ring() == Offer(old(Ring()), f.echo)
    {
      hide Offer, Ring, CloseGapEcho;
      OfferNothing(Ring());
      ghost var was, e := Ring(), Editing();
      if cursor == 0 {
        return;
      }
      RemoveBefore();
      EchoPut(BS);
      EchoClosedGap();
      OfferTwice(was, [BS], CloseGapEcho(e.after));
    }

    method RemoveBefore()
      requires Valid() && cursor > 0
      modifies this`cursor, line
      ensures Valid() && Ring() == old(Ring())
      ensures var e := old(Editing()); Editing() == e.(before := e.before[..|e.before| - 1])
    {
      hide Ring;
      ghost var e := Editing();
      assert e.before[..|e.before| - 1] == line[..cursor - 1];
      CloseGap(cursor - 1);
      cursor := cursor - 1;
    }

    method RemoveAfter()
      requires Valid() && tail > 0
      modifies this`tail, line
      ensures Valid() && Ring() == old(Ring())
      ensures var e := old(Editing()); Editing() == e.(after := e.after[1..])
    {
      hide Ring;
      ghost var e := Editing();
      assert e.after[1..] == line[cursor + 1..cursor + tail];
      CloseGap(cursor);
      tail := tail - 1;
    }

    method DeleteKey()
      requires Valid()
      modifies this`tail, this`echoHead, line, echo
      ensures Valid()
      ensures var f := Delete(old(Editing()));
              Editing() == f.next && Ring() == Offer(old(Ring()), f.echo)
    {
      hide Offer, Ring, CloseGapEcho, CursorEcho;
      OfferNothing(Ring());
      ghost var was, e := Ring(), Editing();
      if tail == 0 {
        return;
      }
      RemoveAfter();
      EchoCursor('C', 1);
      EchoPut(BS);
      OfferTwice(was, CursorEcho('C', 1), [BS]);
      EchoClosedGap();
      OfferTwice(was, CursorEcho('C', 1) + [BS], CloseGapEcho(e.after[1..]));
    }

    method MoveLeft(count: nat)
      requires Valid()
      modifies this`cursor, this`tail, this`echoHead, echo
      ensures Valid()
      ensures var f := Left(old(Editing()), count);
              Editing() == f.next && Ring() == Offer(old(Ring()), f.echo)
    {
      hide Offer, Ring, CursorEcho, Left;
      var n := Min(count, cursor);
      LeftBy(Editing(), count, n);
      EchoCursor('D', n);
      StepBack(n);
    }

    method StepBack(n: nat)
      requires Valid() && n <= cursor
      modifies this`cursor, this`tail
      ensures Valid() && Ring() == old(Ring())
      ensures var e := old(Editing()); var at := |e.before| - n;
              Editing() == e.(before := e.before[..at], after := e.before[at..] + e.after)
    {
      hide Ring;
      SplitBack(line[..], cursor - n, cursor, cursor + tail);
      cursor := cursor - n;
      tail := tail + n;
    }

    method StepOn(n: nat)
      requires Valid() && n <= tail
      modifies this`cursor, this`tail
      ensures Valid() && Ring() == old(Ring())
      ensures var e := old(Editing());
              Editing() == e.(before := e.before + e.after[..n], after := e.after[n..])
    {
      hide Ring;
      SplitOn(line[..], cursor, cursor + n, cursor + tail);
      cursor := cursor + n;
      tail := tail - n;
    }

    method MoveRight(count: nat)
      requires Valid()
      modifies this`cursor, this`tail, this`echoHead, echo
      ensures Valid()
      ensures var f := Right(old(Editing()), count);
              Editing() == f.next && Ring() == Offer(old(Ring()), f.echo)
    {
      hide Offer, Ring, CursorEcho, Right;
      var n := Min(count, tail);
      RightBy(Editing(), count, n);
      EchoCursor('C', n);
      StepOn(n);
    }

    method MoveHome()
      requires Valid()
      modifies this`cursor, this`tail, this`echoHead, echo
      ensures Valid()
      ensures var f := Home(old(Editing()));
              Editing() == f.next && Ring() == Offer(old(Ring()), f.echo)
    {
      hide Offer, Ring, CursorEcho;
      OfferNothing(Ring());
      EchoCursor('D', cursor);
      SplitBack(line[..], 0, cursor, cursor + tail);
      tail := tail + cursor;
      cursor := 0;
    }

    method MoveEnd()
      requires Valid()
      modifies this`cursor, this`tail, this`echoHead, echo
      ensures Valid()
      ensures var f := End(old(Editing()));
              Editing() == f.next && Ring() == Offer(old(Ring()), f.echo)
    {
      hide Offer, Ring, CursorEcho;
      OfferNothing(Ring());
      EchoCursor('C', tail);
      SplitOn(line[..], cursor, cursor + tail, cursor + tail);
      cursor := cursor + tail;
      tail := 0;
    }

    // ------------------------------------------------------ escape sequences

    method ApplyEscape(final: char)
      requires Valid()
      modifies this`cursor, this`tail, this`echoHead, line, echo
      ensures Valid()
      ensures var f := ApplyFinal(old(Editing()), escapeValue, final);
              Editing() == f.next && Ring() == Offer(old(Ring()), f.echo)
    {
      hide Left, Right, Delete, CursorEcho, Offer, Ring;
      OfferNothing(Ring());
      var count := if escapeHasValue && escapeValue != 0 then escapeValue else 1;
      match final
      case 'D' => MoveLeft(count);
      case 'C' => MoveRight(count);
      case 'H' => MoveHome();
      case 'F' => MoveEnd();
      case '~' =>
        if escapeValue == 3 {
          DeleteKey();
        } else if escapeValue == 1 || escapeValue == 7 {
          MoveHome();
        } else if escapeValue == 4 || escapeValue == 8 {
          MoveEnd();
        }
      case _ =>
    }

    method HandleEscape(byte: char)
      requires Valid() && escapeState != EscapeNone
      modifies this`cursor, this`tail, this`echoHead, this`escapeState, this`escapeHasValue,
               this`escapeIgnoreValue, this`escapeValue, line, echo
      ensures Valid()
      ensures var f := InEscape(old(View()), byte);
              View() == f.next && Ring() == Offer(old(Ring()), f.echo)
    {
      hide ApplyFinal, Offer, Ring;
      OfferNothing(Ring());
      match escapeState
      case EscapeStart => OpenSequence(byte);
      case EscapeCsi =>
        if Between(0x30, byte, 0x3F) {
          ReadParameter(byte);
          return;
        }
        CloseSequence(byte);
      case EscapeSs3 => CloseSequence(byte);
    }

    method OpenSequence(byte: char)
      requires Valid() && escapeState == EscapeStart
      modifies this`escapeState, this`escapeHasValue, this`escapeValue, this`escapeIgnoreValue
      ensures Valid() && View() == InEscape(old(View()), byte).next
    {
      if byte == '[' {
        escapeState, escapeHasValue, escapeIgnoreValue, escapeValue := EscapeCsi, false, false, 0;
      } else if byte == 'O' {
        escapeState := EscapeSs3;
      } else {
        escapeState := EscapeNone;
      }
    }

    method ReadParameter(byte: char)
      requires Valid() && escapeState == EscapeCsi
      modifies this`escapeHasValue, this`escapeValue, this`escapeIgnoreValue
      ensures Valid() && Mode() == Parameter(old(escapeValue), old(escapeIgnoreValue), byte)
    {
      if '0' <= byte <= '9' {
        if !escapeIgnoreValue {
          escapeHasValue := true;
          if escapeValue < 999 {
            escapeValue := Min(999, escapeValue * 10 + (byte as int - '0' as int));
          }
        }
      } else if byte == ';' {
        escapeIgnoreValue := true;
      }
    }

    method CloseSequence(byte: char)
      requires Valid() && (escapeState == EscapeCsi || escapeState == EscapeSs3)
      modifies this`cursor, this`tail, this`echoHead, this`escapeState, line, echo
      ensures Valid()
      ensures var f := CloseEscape(old(View()), escapeValue, byte);
              View() == f.next && Ring() == Offer(old(Ring()), f.echo)
    {
      hide ApplyFinal, Offer, Ring;
      OfferNothing(Ring());
      ghost var e := Editing();
      assert View().(escape := Idle) == e;
      if Between(0x20, byte, 0x2F) {
        return;
      }
      if Between(0x40, byte, 0x7E) {
        ApplyEscape(byte);
        FinalStaysIdle(e, escapeValue, byte);
      }
      escapeState := EscapeNone;
    }

    /** One received byte: the line, the echo and the queue all move as the editor says. */
    method InputByte(byte: char)
      requires Valid()
      modifies this, line, echo
      ensures Valid()
      ensures var f := Step(limit, old(View()), byte, |old(queue)| >= QUEUE_DEPTH);
              && View() == f.next && Ring() == Offer(old(Ring()), f.echo)
              && queue == Enqueue(old(queue), old(View()), f.ended)
    {
      hide InEscape, Backspace, Insert, Offer, Ring, Enqueue, Finish;
      EnqueueNothing(queue, View());
      OfferNothing(Ring());
      if byte == '\n' && lastWasCr {
        lastWasCr := false;
        return;
      }
      if byte == '\r' || byte == '\n' {
        EndLine(byte);
        return;
      }
      lastWasCr := false;
      LineByte(byte);
    }

    method EndLine(byte: char)
      requires Valid() && (byte == '\r' || (byte == '\n' && !lastWasCr))
      modifies this, echo
      ensures Valid()
      ensures var f := Step(limit, old(View()), byte, |old(queue)| >= QUEUE_DEPTH);
              && View() == f.next && Ring() == Offer(old(Ring()), f.echo)
              && queue == Enqueue(old(queue), old(View()), f.ended)
    {
      hide InEscape, Backspace, Insert, Offer, Ring, Enqueue, Finish;
      FinishEnds(View(), |queue| >= QUEUE_DEPTH);
      FinishLine();
      lastWasCr := byte == '\r';
    }

    method LineByte(byte: char)
      requires Valid() && !lastWasCr && byte != '\r' && byte != '\n'
      modifies this`overflow, this`cursor, this`tail, this`echoHead, this`escapeState, this`escapeHasValue,
               this`escapeIgnoreValue, this`escapeValue, line, echo
      ensures Valid()
      ensures var f := Step(limit, old(View()), byte, |queue| >= QUEUE_DEPTH);
              View() == f.next && Ring() == Offer(old(Ring()), f.echo) && f.ended.None?
    {
      hide InEscape, Backspace, Insert, Offer, Ring;
      OfferNothing(Ring());
      if overflow {
        return;
      }
      if escapeState != EscapeNone {
        ghost var e := View();
        HandleEscape(byte);
        EscapeEndsNothing(e, byte);
        return;
      }
      if byte == ESC {
        escapeState, escapeHasValue, escapeIgnoreValue, escapeValue := EscapeStart, false, false, 0;
        return;
      }
      PlainByte(byte);
    }

    method PlainByte(byte: char)
      requires Valid() && escapeState == EscapeNone && !overflow && !lastWasCr
      requires byte != ESC && byte != '\r' && byte != '\n'
      modifies this`overflow, this`cursor, this`echoHead, line, echo
      ensures Valid()
      ensures var f := Step(limit, old(View()), byte, |queue| >= QUEUE_DEPTH);
              View() == f.next && Ring() == Offer(old(Ring()), f.echo) && f.ended.None?
    {
      hide InEscape, Backspace, Insert, Offer, Ring;
      OfferNothing(Ring());
      ghost var e := View();
      EditsEndNothing(limit, e, byte);
      EditsStayIdle(limit, e, byte);
      if byte == BS || byte == DEL {
        BackspaceKey();
      } else if Printable(byte) {
        InsertChar(byte);
      }
    }

    // -------------------------------------------------------------- consumers

    /** One fill of the transmit FIFO, which accepts at most `room` bytes of the contiguous part. */
    method SendEcho(room: nat) returns (sent: string)
      requires Valid()
      modifies this`echoTail
      ensures Valid() && old(Ring()) == sent + Ring() && View() == old(View())
      ensures sent == "" <==> room == 0 || old(Ring()) == ""
    {
      if echoHead == echoTail {
        return "";
      }
      var contiguous := if echoHead > echoTail then echoHead - echoTail else ECHO_SIZE - echoTail;
      var count := Min(room, contiguous);
      sent := echo[echoTail..echoTail + count];
      UnwrapFrom(echo[..], echoHead, echoTail, count);
      echoTail := (echoTail + count) % ECHO_SIZE;
    }

    /** The command thread takes the oldest finished line, if any. */
    method TakeLine() returns (taken: Option<string>)
      requires Valid()
      modifies this`queue
      ensures Valid() && View() == old(View()) && Ring() == old(Ring())
      ensures old(queue) == (if taken.Some? then [taken.value] else []) + queue
      ensures taken.None? ==> queue == []
    {
      if queue == [] {
        return None;
      }
      taken := Some(queue[0]);
      queue := queue[1..];
    }
  }
}
