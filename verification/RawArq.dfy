/** Retransmission of raw packets: a history ring addressed by sequence number, and the queue of
    requested numbers. */
module RawArq {
  import opened Integers
  import opened Arithmetic
  import opened Wrappers

  const RING_SIZE: nat := 128
  const RETX_MAX: nat := 16
  const SEQUENCES: nat := 0x1_0000

  /** A published packet; its sequence number stands in its own bytes 2 and 3. */
  datatype Packet = Packet(sequence: Word, body: seq<bv8>)

  function Index(sequence: Word): nat {
    sequence % RING_SIZE
  }

  /** The last packet stored in a slot, if any. */
  function Held(history: seq<Packet>, slot: nat): Option<Packet>
    decreases |history|
  {
    if history == [] then None
    else
      var last := history[|history| - 1];
      if Index(last.sequence) == slot then Some(last) else Held(history[..|history| - 1], slot)
  }

  function Fetch(history: seq<Packet>, sequence: Word): Option<Packet> {
    var held := Held(history, Index(sequence));
    if held.Some? && held.value.sequence == sequence then held else None
  }

  /** Numbers go up by one, wrapping at 16 bits. */
  ghost predicate Consecutive(history: seq<Packet>) {
    forall i | 0 <= i < |history| :: NumberAt(history, i) == (NumberAt(history, 0) + i) % SEQUENCES
  }

  ghost function NumberAt(history: seq<Packet>, i: nat): nat
    requires i < |history|
  {
    history[i].sequence
  }

  ghost predicate Recent(history: seq<Packet>, i: nat) {
    i < |history| <= i + RING_SIZE
  }

  lemma {:induction false} HeldAt(history: seq<Packet>, slot: nat, i: nat)
    requires i < |history| && Index(history[i].sequence) == slot
    requires forall j | i < j < |history| :: Index(history[j].sequence) != slot
    ensures Held(history, slot) == Some(history[i])
    decreases |history|
  {
    if i == |history| - 1 {
    } else {
      HeldAt(history[..|history| - 1], slot, i);
    }
  }

  lemma {:induction false} HeldIsStored(history: seq<Packet>, slot: nat)
    ensures var h := Held(history, slot);
            if h.None? then forall j | 0 <= j < |history| :: Index(history[j].sequence) != slot
            else exists i :: 0 <= i < |history| && history[i] == h.value && Index(h.value.sequence) == slot
                             && forall j | i < j < |history| :: Index(history[j].sequence) != slot
    decreases |history|
  {
    if history == [] {
    } else {
      var n := |history| - 1;
      if Index(history[n].sequence) == slot {
        assert history[n] == Held(history, slot).value;
      } else {
        HeldIsStored(history[..n], slot);
        if Held(history, slot).Some? {
          var h := Held(history, slot).value;
          var i :| 0 <= i < n && history[..n][i] == h && Index(h.sequence) == slot
                   && forall j | i < j < n :: Index(history[..n][j].sequence) != slot;
          forall j | i < j < |history| ensures Index(history[j].sequence) != slot {
            if j < n { assert history[..n][j] == history[j]; }
          }
        }
      }
    }
  }

  /** The ring's size divides the number space, so wrapping does not disturb the slots. */
  lemma WrapKeepsSlot(x: nat)
    ensures x % SEQUENCES % RING_SIZE == x % RING_SIZE
  {
    var q, r := x / SEQUENCES, x % SEQUENCES;
    var slot := r % RING_SIZE;
    assert x == (512 * q + r / RING_SIZE) * RING_SIZE + slot;
    ModUnique(x, 512 * q + r / RING_SIZE, slot, RING_SIZE);
  }

  lemma SlotStep(x: nat, d: nat)
    ensures (x + d) % RING_SIZE == x % RING_SIZE <==> d % RING_SIZE == 0
  {
    var p, q := x / RING_SIZE, d / RING_SIZE;
    var r := x % RING_SIZE + d % RING_SIZE;
    assert x + d == (p + q) * RING_SIZE + r;
    if r < RING_SIZE {
      ModUnique(x + d, p + q, r, RING_SIZE);
    } else {
      ModUnique(x + d, p + q + 1, r - RING_SIZE, RING_SIZE);
    }
  }

  /** Consecutive numbers a whole number of rings apart share a slot, and no others do. */
  lemma SlotsRepeat(history: seq<Packet>, i: nat, j: nat)
    requires Consecutive(history) && i <= j < |history|
    ensures Index(history[i].sequence) == Index(history[j].sequence) <==> (j - i) % RING_SIZE == 0
    ensures j - i < RING_SIZE && history[i].sequence == history[j].sequence ==> i == j
  {
    var first := NumberAt(history, 0);
    assert NumberAt(history, i) == (first + i) % SEQUENCES;
    assert NumberAt(history, j) == (first + j) % SEQUENCES;
    WrapKeepsSlot(first + i);
    WrapKeepsSlot(first + j);
    SlotStep(first + i, j - i);
    assert first + i + (j - i) == first + j;
  }

  /** With consecutive numbers, a lookup is exact: it answers the packet of that number among the
      last 128 stored, and nothing when there is none. */
  lemma FetchExact(history: seq<Packet>, sequence: Word)
    requires Consecutive(history)
    ensures forall i: nat | Recent(history, i) && history[i].sequence == sequence ::
              Fetch(history, sequence) == Some(history[i])
    ensures Fetch(history, sequence).Some? ==>
              exists i: nat :: Recent(history, i) && history[i] == Fetch(history, sequence).value
                          && history[i].sequence == sequence
  {
    var slot := Index(sequence);
    forall i: nat | Recent(history, i) && history[i].sequence == sequence
      ensures Fetch(history, sequence) == Some(history[i])
    {
      forall j | i < j < |history| ensures Index(history[j].sequence) != slot {
        SlotsRepeat(history, i, j);
      }
      HeldAt(history, slot, i);
    }
    if Fetch(history, sequence).Some? {
      HeldIsStored(history, slot);
      var i :| 0 <= i < |history| && history[i] == Held(history, slot).value
               && forall j | i < j < |history| :: Index(history[j].sequence) != slot;
      if i + RING_SIZE < |history| { SlotsRepeat(history, i, i + RING_SIZE); }
      assert Recent(history, i);
    }
  }

  /** At most one recent packet has a given number, so "the packet of that number" is well defined. */
  lemma RecentUnique(history: seq<Packet>, i: nat, j: nat)
    requires Consecutive(history) && Recent(history, i) && Recent(history, j)
    requires history[i].sequence == history[j].sequence
    ensures i == j
  {
    if i <= j { SlotsRepeat(history, i, j); } else { SlotsRepeat(history, j, i); }
  }

  class Ring {
    const slots: array<Packet>
    const valid: array<bool>
    /** Everything stored since the last reset. */
    ghost var history: seq<Packet>

    ghost predicate Valid()
      reads this, slots, valid
    {
      && slots.Length == RING_SIZE && valid.Length == RING_SIZE
      && forall i | 0 <= i < RING_SIZE ::
           if valid[i] then Held(history, i) == Some(slots[i]) else Held(history, i) == None
    }

    constructor (blank: Packet)
      ensures Valid() && history == [] && fresh(slots) && fresh(valid)
    {
      slots := new Packet[RING_SIZE](_ => blank);
      valid := new bool[RING_SIZE](_ => false);
      history := [];
    }

    method RawRingGet(sequence: Word) returns (packet: Option<Packet>)
      requires Valid()
      ensures packet == Fetch(history, sequence)
    {
      var index := sequence % RING_SIZE;
      if !valid[index] || slots[index].sequence != sequence {
        return None;
      }
      packet := Some(slots[index]);
    }

    method RawRingStore(packet: Packet)
      requires Valid()
      modifies this, slots, valid
      ensures Valid() && history == old(history) + [packet]
    {
      var index := packet.sequence % RING_SIZE;
      valid[index] := false;
      slots[index] := packet;
      valid[index] := true;
      history := history + [packet];
      assert history[..|history| - 1] == old(history);
    }

    method Reset()
      requires Valid()
      modifies this, valid
      ensures Valid() && history == []
    {
      var i := 0;
      while i < RING_SIZE
        invariant i <= RING_SIZE && forall k | 0 <= k < i :: !valid[k]
        modifies valid
      {
        valid[i] := false;
        i := i + 1;
      }
      history := [];
    }
  }

  // ------------------------------------------------------- the request queue

  function Submitted(queue: seq<Word>, sequence: Word): seq<Word> {
    if sequence in queue || |queue| == RETX_MAX then queue else queue + [sequence]
  }

  ghost predicate NoDuplicates(queue: seq<Word>) {
    forall i, j | 0 <= i < j < |queue| :: queue[i] != queue[j]
  }

  class Requests {
    const sequence: array<Word>
    var count: nat

    ghost predicate Valid()
      reads this, sequence
    {
      sequence.Length == RETX_MAX && count <= RETX_MAX && NoDuplicates(sequence[..count])
    }

    ghost function Queue(): seq<Word>
      requires Valid()
      reads this, sequence
    {
      sequence[..count]
    }

    constructor ()
      ensures Valid() && Queue() == [] && fresh(sequence)
    {
      sequence := new Word[RETX_MAX](_ => 0);
      count := 0;
    }

    method RawRetxSubmit(number: Word) returns (ok: bool)
      requires Valid()
      modifies this, sequence
      ensures Valid() && Queue() == Submitted(old(Queue()), number)
      ensures ok == (number in Queue())
    {
      var i := 0;
      while i < count
        invariant i <= count && number !in sequence[..i]
      {
        if sequence[i] == number {
          assert number in sequence[..count];
          return true;
        }
        i := i + 1;
      }
      if count == RETX_MAX {
        return false;
      }
      ghost var was := Queue();
      sequence[count] := number;
      count := count + 1;
      assert sequence[..count] == was + [number];
      return true;
    }

    method RawRetxTake() returns (number: Option<Word>)
      requires Valid()
      modifies this, sequence
      ensures Valid() && old(Queue()) == (if number.Some? then [number.value] else []) + Queue()
      ensures number.None? ==> Queue() == []
    {
      if count == 0 {
        return None;
      }
      number := Some(sequence[0]);
      ghost var was := Queue();
      var i := 0;
      while i + 1 < count
        invariant 0 <= i < count
        invariant forall k | 0 <= k < i :: sequence[k] == was[k + 1]
        invariant forall k | i <= k < count :: sequence[k] == was[k]
        modifies sequence
      {
        sequence[i] := sequence[i + 1];
        i := i + 1;
      }
      count := count - 1;
      assert sequence[..count] == was[1..];
    }

    method RawRetxReset()
      requires Valid()
      modifies this`count
      ensures Valid() && Queue() == []
    {
      count := 0;
    }
  }

  /** Submissions and takes in any order: what was taken and what waits are, together and in order,
      the accepted requests, so each is served once, first come first served. */
  datatype Event = Submit(sequence: Word) | Take

  datatype Service = Service(queue: seq<Word>, taken: seq<Word>, accepted: seq<Word>)

  function Serve(s: Service, event: Event): Service {
    match event
    case Submit(n) =>
      var queue := Submitted(s.queue, n);
      s.(queue := queue, accepted := s.accepted + queue[|s.queue|..])
    case Take => if s.queue == [] then s else s.(queue := s.queue[1..], taken := s.taken + [s.queue[0]])
  }

  ghost function AfterEvents(events: seq<Event>): Service
    decreases |events|
  {
    if events == [] then Service([], [], []) else Serve(AfterEvents(events[..|events| - 1]), events[|events| - 1])
  }

  lemma {:induction false} FirstComeFirstServed(events: seq<Event>)
    ensures var s := AfterEvents(events);
            && s.taken + s.queue == s.accepted && |s.queue| <= RETX_MAX && NoDuplicates(s.queue)
    decreases |events|
  {
    if events == [] {
    } else {
      FirstComeFirstServed(events[..|events| - 1]);
      var s, event := AfterEvents(events[..|events| - 1]), events[|events| - 1];
      match event
      case Submit(n) =>
        var queue := Submitted(s.queue, n);
        assert s.taken + queue == (s.taken + s.queue) + queue[|s.queue|..];
      case Take =>
        if s.queue != [] {
          assert (s.taken + [s.queue[0]]) + s.queue[1..] == s.taken + s.queue;
        }
    }
  }

  /** A request waits from then on unless 16 others already wait, and it is never queued twice. */
  lemma RequestWaits(events: seq<Event>, n: Word)
    ensures var before, s := AfterEvents(events), AfterEvents(events + [Submit(n)]);
            && (n in s.queue <==> n in before.queue || |before.queue| < 16)
            && s.taken == before.taken
            && s.queue == if n in before.queue || n !in s.queue then before.queue else before.queue + [n]
  {
    FirstComeFirstServed(events);
    assert (events + [Submit(n)])[..|events|] == events;
  }
}
