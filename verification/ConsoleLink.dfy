/** The console over whole runs: bytes arrive, echo is transmitted and lines are taken in any order. */
module ConsoleLink {
  import opened ConsoleEditor
  import opened ConsoleTerminal
  import opened Console

  /** `sent` and `taken` are what left the device; `keys` is the history that led here. */
  datatype Device = Device(editor: Editor, ring: string, queue: seq<string>,
                           sent: string, taken: seq<string>, keys: seq<Key>, lossy: bool)

  datatype Event = Receive(byte: char) | Transmit(count: nat) | Take

  const POWERED: Device := Device(BLANK, "", [], "", [], [], false)

  function Next(limit: nat, d: Device, event: Event): Device
    requires Capacity(limit) && d.editor.Valid(limit)
  {
    match event
    case Receive(c) =>
      var full := |d.queue| >= QUEUE_DEPTH;
      var f := Step(limit, d.editor, c, full);
      d.(editor := f.next, ring := Offer(d.ring, f.echo), queue := Enqueue(d.queue, d.editor, f.ended),
         keys := d.keys + [Key(c, full)], lossy := d.lossy || |d.ring| + |f.echo| >= ECHO_SIZE)
    case Transmit(count) =>
      var n := Min(count, |d.ring|);
      d.(ring := d.ring[n..], sent := d.sent + d.ring[..n])
    case Take =>
      if d.queue == [] then d else d.(queue := d.queue[1..], taken := d.taken + [d.queue[0]])
  }

  ghost predicate Kept(limit: nat, d: Device)
    requires Capacity(limit)
  {
    var run := Run(limit, BLANK, d.keys);
    && d.editor == run.editor && |d.queue| <= QUEUE_DEPTH
    && d.taken + d.queue == Lines(run.ended)
    && (!d.lossy ==> d.sent + d.ring == run.echo)
  }

  lemma ReceiveKeeps(limit: nat, d: Device, c: char)
    requires Capacity(limit) && Kept(limit, d)
    ensures Kept(limit, Next(limit, d, Receive(c)))
  {
    hide Step, Run;
    var k := Key(c, |d.queue| >= QUEUE_DEPTH);
    var f := Step(limit, d.editor, c, k.full);
    var run := Run(limit, BLANK, d.keys);
    RunConcat(limit, BLANK, d.keys, [k]);
    RunOne(limit, d.editor, k);
    var ended := EndedBy(d.editor, f, k.full);
    LinesConcat(run.ended, ended);
    assert Lines(ended) == if ended != [] && ended[0].fate == Queued then [ended[0].text] else [] by {
      if ended != [] { assert ended[1..] == []; }
    }
    assert Enqueue(d.queue, d.editor, f.ended) == d.queue + Lines(ended);
    assert d.taken + (d.queue + Lines(ended)) == Lines(run.ended) + Lines(ended);
    if |d.ring| + |f.echo| < ECHO_SIZE {
      assert d.sent + Offer(d.ring, f.echo) == (d.sent + d.ring) + f.echo;
    }
  }

  lemma NextKeeps(limit: nat, d: Device, event: Event)
    requires Capacity(limit) && Kept(limit, d)
    ensures Kept(limit, Next(limit, d, event))
  {
    hide Step, Run;
    match event
    case Receive(c) => ReceiveKeeps(limit, d, c);
    case Transmit(count) =>
      var n := Min(count, |d.ring|);
      assert (d.sent + d.ring[..n]) + d.ring[n..] == d.sent + d.ring;
    case Take =>
      if d.queue != [] {
        assert (d.taken + [d.queue[0]]) + d.queue[1..] == d.taken + d.queue;
      }
  }

  ghost function After(limit: nat, events: seq<Event>): (d: Device)
    requires Capacity(limit)
    ensures Kept(limit, d)
    decreases |events|
  {
    if events == [] then POWERED else
    var d := After(limit, events[..|events| - 1]);
    NextKeeps(limit, d, events[|events| - 1]);
    Next(limit, d, events[|events| - 1])
  }

  /** Over any interleaving: lines are taken in the order they ended and none is lost or doubled
      once queued; and unless the echo ring overflowed, what was and will be transmitted shows the
      line being edited and, above it, every line ended. */
  lemma ConsoleFaithful(limit: nat, events: seq<Event>)
    requires Capacity(limit)
    ensures var d := After(limit, events); var run := Run(limit, BLANK, d.keys);
            var screen := Replay(Screen([], "", 0, 0, Ground), d.sent + d.ring);
            && d.editor == run.editor
            && d.taken + d.queue == Lines(run.ended)
            && (!d.lossy ==> Synced(d.editor, screen) && RowsShow(screen.above, run.ended))
  {
    hide Run, Step, Replay;
    var d := After(limit, events);
    var blank := Screen([], "", 0, 0, Ground);
    EchoShowsLine(limit, BLANK, d.keys, blank);
    var r := Replay(blank, Run(limit, BLANK, d.keys).echo);
    assert r.above[0..] == r.above;
  }
}
