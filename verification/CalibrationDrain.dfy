/** Calibration requests of a recording session: coalesced, scheduled, then drained one packet at
    a time from an immutable snapshot. */
module CalibrationDrain {
  import opened Integers
  import opened Wrappers

  /** One bit for each kind of calibration data. */
  datatype Mask = Mask(bits: bv8)

  const BASIC: Mask := Mask(0x01)
  const ACCEL: Mask := Mask(0x02)
  const MAG: Mask := Mask(0x04)
  const GYRO: Mask := Mask(0x08)
  const TCAL_STATE: Mask := Mask(0x10)
  const TCAL_POINTS: Mask := Mask(0x20)
  const ALL: Mask := Mask(0x3F)
  const NOTHING: Mask := Mask(0x00)
  const ALL_CHUNKS: Byte := 255

  /** One captured temperature-calibration point. */
  type Point = int

  /** The session's metadata, a whole calibration subtype, or up to two points under their chunk number. */
  datatype Packet = Metadata | Subtype(kind: Mask) | Points(chunk: Byte, count: nat, points: seq<Point>)

  /** No kinds but the five calibration subtypes. */
  predicate Within(mask: Mask) { mask.bits & 0x3E == mask.bits }

  function Without(mask: Mask, kind: Mask): Mask { Mask(mask.bits & !kind.bits) }

  datatype Pending = Pending(mask: Mask, chunk: Byte, all: bool)

  ghost predicate Masked(p: Pending) {
    Within(p.mask)
  }

  function Slice(points: seq<Point>, start: nat): seq<Point>
    requires start <= |points|
  {
    if |points| - start > 2 then points[start..start + 2] else points[start..]
  }

  /** The packet of a one-subtype mask; None when the chunk lies past the last point. */
  function Content(subtype: Mask, chunk: Byte, points: seq<Point>): Option<Packet> {
    if subtype != TCAL_POINTS then Some(Subtype(subtype))
    else
      var at := if chunk == ALL_CHUNKS then 0 else chunk;
      if 2 * at >= |points| then None else Some(Points(at, |points|, Slice(points, 2 * at)))
  }

  function Lowest(mask: Mask): Mask {
    Mask(mask.bits & (0 - mask.bits))
  }

  datatype Outcome = Outcome(pending: Pending, emitted: Option<Packet>)

  /** One turn: `accepted` says whether the radio takes a packet now. */
  function Process(p: Pending, points: seq<Point>, accepted: bool): Outcome {
    if p.mask == NOTHING then Outcome(p, None)
    else
      var subtype := Lowest(p.mask);
      var packet := Content(subtype, p.chunk, points);
      if packet.Some? && !accepted then Outcome(p, None)
      else if subtype == TCAL_POINTS && p.all && (p.chunk + 1) * 2 < |points|
      then Outcome(p.(chunk := (p.chunk + 1) % 256), packet)
      else Outcome(Pending(Without(p.mask, subtype), p.chunk, p.all && subtype != TCAL_POINTS), packet)
  }

  // ---------------------------------------------------------------- the plan

  predicate Has(mask: Mask, kind: Mask) {
    mask.bits & kind.bits != 0
  }

  /** The whole subtypes asked for, in ascending order, and then `rest`. */
  function Listed(accel: bool, mag: bool, gyro: bool, state: bool, rest: seq<Packet>): seq<Packet> {
    One(accel, ACCEL) + (One(mag, MAG) + (One(gyro, GYRO) + (One(state, TCAL_STATE) + rest)))
  }

  function One(asked: bool, kind: Mask): seq<Packet> {
    if asked then [Subtype(kind)] else []
  }

  function Count(accel: bool, mag: bool, gyro: bool, state: bool): nat {
    (if accel then 1 else 0) + (if mag then 1 else 0) + (if gyro then 1 else 0) + (if state then 1 else 0)
  }

  /** Chunks from `chunk` to the last one, or that chunk alone. */
  function Chunks(chunk: nat, all: bool, points: seq<Point>): seq<Packet>
    decreases |points| - chunk
  {
    if 2 * chunk >= |points| || chunk > 255 then []
    else [Points(chunk, |points|, Slice(points, 2 * chunk))] + (if all then Chunks(chunk + 1, all, points) else [])
  }

  function PointsPlan(p: Pending, points: seq<Point>): seq<Packet> {
    if KindsOf(p.mask).points then Chunks(p.chunk, p.all, points) else []
  }

  /** Everything still owed, in ascending order of the mask's bits. */
  function Plan(p: Pending, points: seq<Point>): seq<Packet> {
    var k := KindsOf(p.mask);
    Listed(k.accel, k.mag, k.gyro, k.state, PointsPlan(p, points))
  }

  /** The number of turns, with the radio accepting, that empty the mask. */
  function Turns(p: Pending, points: seq<Point>): nat {
    var k := KindsOf(p.mask);
    Count(k.accel, k.mag, k.gyro, k.state)
    + (if !k.points then 0
       else if p.all && (p.chunk + 1) * 2 < |points| then (|points| + 1) / 2 - p.chunk else 1)
  }

  /** Chunk numbers fit, and a single chunk is never asked for under the number meaning "all". */
  ghost predicate Fits(p: Pending, points: seq<Point>) {
    |points| <= 510 && p.chunk < 255 && Masked(p)
  }

  /** Which kinds a mask asks for. */
  datatype Kinds = Kinds(accel: bool, mag: bool, gyro: bool, state: bool, points: bool)

  function KindsOf(mask: Mask): Kinds {
    Kinds(Has(mask, ACCEL), Has(mask, MAG), Has(mask, GYRO), Has(mask, TCAL_STATE), Has(mask, TCAL_POINTS))
  }

  /** The lowest bit is the first kind asked for, and clearing it removes that kind alone. */
  lemma LowestBit(mask: Mask)
    requires Within(mask) && mask != NOTHING
    ensures var k, low := KindsOf(mask), Lowest(mask); var rest := KindsOf(Without(mask, low));
            && Within(Without(mask, low))
            && if k.accel then low == ACCEL && rest == k.(accel := false)
               else if k.mag then low == MAG && rest == k.(mag := false)
               else if k.gyro then low == GYRO && rest == k.(gyro := false)
               else if k.state then low == TCAL_STATE && rest == k.(state := false)
               else k.points && low == TCAL_POINTS && Without(mask, low) == NOTHING
  {
  }

  lemma ChunksHead(chunk: Byte, all: bool, points: seq<Point>)
    requires |points| <= 510 && chunk < 255
    ensures var packet := Content(TCAL_POINTS, chunk, points);
            var more := all && (chunk + 1) * 2 < |points|;
            && Chunks(chunk, all, points)
               == (if packet.Some? then [packet.value] else []) + (if more then Chunks(chunk + 1, all, points) else [])
            && (more ==> chunk + 1 < 255 && packet.Some?)
  {
  }

  /** The plan begins with the lowest kind; once only points remain it is their chunks. */
  lemma PlanHead(p: Pending, points: seq<Point>)
    requires Masked(p) && p.mask != NOTHING
    ensures var low := Lowest(p.mask); var rest := p.(mask := Without(p.mask, low));
            if low != TCAL_POINTS
            then Plan(p, points) == [Subtype(low)] + Plan(rest, points) && Turns(p, points) == 1 + Turns(rest, points)
            else && Plan(p, points) == Chunks(p.chunk, p.all, points)
                 && rest.mask == NOTHING
                 && Turns(p, points) == if p.all && (p.chunk + 1) * 2 < |points|
                                        then (|points| + 1) / 2 - p.chunk else 1
  {
    hide Lowest, Chunks, KindsOf, Listed;
    LowestBit(p.mask);
    var k := KindsOf(p.mask);
    ListedHead(k.mag, k.gyro, k.state, PointsPlan(p, points));
    ListedNothing(PointsPlan(p, points));
  }

  lemma ListedNothing(rest: seq<Packet>)
    ensures Listed(false, false, false, false, rest) == rest
  {
  }

  lemma ListedHead(mag: bool, gyro: bool, state: bool, rest: seq<Packet>)
    ensures Listed(true, mag, gyro, state, rest) == [Subtype(ACCEL)] + Listed(false, mag, gyro, state, rest)
    ensures Listed(false, true, gyro, state, rest) == [Subtype(MAG)] + Listed(false, false, gyro, state, rest)
    ensures Listed(false, false, true, state, rest) == [Subtype(GYRO)] + Listed(false, false, false, state, rest)
    ensures Listed(false, false, false, true, rest) == [Subtype(TCAL_STATE)] + Listed(false, false, false, false, rest)
  {
  }

  lemma NothingOwed(p: Pending, points: seq<Point>)
    requires p.mask == NOTHING
    ensures Plan(p, points) == [] && Turns(p, points) == 0
  {
  }

  lemma PointsTurn(p: Pending, points: seq<Point>, accepted: bool)
    requires Fits(p, points) && p.mask != NOTHING && Lowest(p.mask) == TCAL_POINTS
    ensures var o := Process(p, points, accepted);
            && Fits(o.pending, points)
            && (if o.emitted.Some? then [o.emitted.value] else []) + Plan(o.pending, points) == Plan(p, points)
            && (accepted ==> Turns(o.pending, points) == Turns(p, points) - 1)
            && (!accepted ==> Turns(o.pending, points) <= Turns(p, points))
  {
    hide Lowest, Chunks, Has, Plan, Turns, Content;
    PlanHead(p, points);
    ChunksHead(p.chunk, p.all, points);
    var o := Process(p, points, accepted);
    LowestBit(p.mask);
    if o.pending.mask == NOTHING {
      NothingOwed(o.pending, points);
    } else {
      PlanHead(o.pending, points);
    }
  }

  /** Each turn emits the head of the plan, or nothing and then keeps it whole. */
  lemma TurnFollowsPlan(p: Pending, points: seq<Point>, accepted: bool)
    requires Fits(p, points)
    ensures var o := Process(p, points, accepted);
            && Fits(o.pending, points)
            && (if o.emitted.Some? then [o.emitted.value] else []) + Plan(o.pending, points) == Plan(p, points)
            && (accepted && p.mask != NOTHING ==> Turns(o.pending, points) == Turns(p, points) - 1)
            && (!accepted ==> Turns(o.pending, points) <= Turns(p, points))
  {
    hide Lowest, Chunks, Has, Plan, Turns;
    if p.mask != NOTHING {
      LowestBit(p.mask);
      PlanHead(p, points);
      var low := Lowest(p.mask);
      if low == TCAL_POINTS {
        PointsTurn(p, points, accepted);
      }
    }
  }

  // ------------------------------------------------------------ whole drains

  datatype Drained = Drained(pending: Pending, emitted: seq<Packet>)

  function Run(p: Pending, points: seq<Point>, accepted: seq<bool>): Drained
    decreases |accepted|
  {
    if accepted == [] then Drained(p, [])
    else
      var o := Process(p, points, accepted[0]);
      var rest := Run(o.pending, points, accepted[1..]);
      Drained(rest.pending, (if o.emitted.Some? then [o.emitted.value] else []) + rest.emitted)
  }

  function Accepts(accepted: seq<bool>): nat {
    if accepted == [] then 0 else (if accepted[0] then 1 else 0) + Accepts(accepted[1..])
  }

  lemma {:induction false} DrainFollowsPlan(p: Pending, points: seq<Point>, accepted: seq<bool>)
    requires Fits(p, points)
    ensures var r := Run(p, points, accepted);
            && Fits(r.pending, points) && r.emitted + Plan(r.pending, points) == Plan(p, points)
            && (Turns(r.pending, points) + Accepts(accepted) <= Turns(p, points) || r.pending.mask == NOTHING)
    decreases |accepted|
  {
    hide Process, Plan, Turns;
    if accepted == [] {
    } else {
      var o := Process(p, points, accepted[0]);
      TurnFollowsPlan(p, points, accepted[0]);
      DrainFollowsPlan(o.pending, points, accepted[1..]);
      var rest := Run(o.pending, points, accepted[1..]);
      var first := if o.emitted.Some? then [o.emitted.value] else [];
      assert first + (rest.emitted + Plan(rest.pending, points)) == (first + rest.emitted) + Plan(rest.pending, points);
      if p.mask == NOTHING { EmptyStays(p, points, accepted); }
    }
  }

  lemma {:induction false} EmptyStays(p: Pending, points: seq<Point>, accepted: seq<bool>)
    requires p.mask == NOTHING
    ensures Run(p, points, accepted) == Drained(p, [])
    decreases |accepted|
  {
    if accepted == [] {
    } else {
      EmptyStays(p, points, accepted[1..]);
    }
  }

  lemma MaskOwesTurns(p: Pending, points: seq<Point>)
    requires Fits(p, points) && p.mask != NOTHING
    ensures Turns(p, points) > 0
  {
    hide Turns, Plan;
    TurnFollowsPlan(p, points, true);
  }

  /** Whatever the pattern of refusals, once the radio has accepted often enough everything asked
      for has been emitted once, in ascending order, and nothing else. */
  lemma DrainComplete(p: Pending, points: seq<Point>, accepted: seq<bool>)
    requires Fits(p, points) && Accepts(accepted) >= Turns(p, points)
    ensures var r := Run(p, points, accepted); r.pending.mask == NOTHING && r.emitted == Plan(p, points)
  {
    hide Turns, Plan, Run;
    DrainFollowsPlan(p, points, accepted);
    var r := Run(p, points, accepted);
    if r.pending.mask != NOTHING { MaskOwesTurns(r.pending, points); }
    NothingOwed(r.pending, points);
  }

  // ------------------------------------------------------------ with metadata

  /** The session's metadata goes out before any calibration. */
  datatype Duties = Duties(metadata: bool, pending: Pending)

  datatype DutyOutcome = DutyOutcome(duties: Duties, emitted: Option<Packet>)

  function Turn(d: Duties, points: seq<Point>, accepted: bool): DutyOutcome {
    if d.metadata then
      if accepted then DutyOutcome(d.(metadata := false), Some(Metadata)) else DutyOutcome(d, None)
    else
      var o := Process(d.pending, points, accepted);
      DutyOutcome(Duties(false, o.pending), o.emitted)
  }

  function Debt(d: Duties, points: seq<Point>): seq<Packet> {
    (if d.metadata then [Metadata] else []) + Plan(d.pending, points)
  }

  datatype Worked = Worked(duties: Duties, emitted: seq<Packet>)

  function Work(d: Duties, points: seq<Point>, accepted: seq<bool>): Worked
    decreases |accepted|
  {
    if accepted == [] then Worked(d, [])
    else
      var o := Turn(d, points, accepted[0]);
      var rest := Work(o.duties, points, accepted[1..]);
      Worked(rest.duties, (if o.emitted.Some? then [o.emitted.value] else []) + rest.emitted)
  }

  lemma {:induction false} WorkIsRun(p: Pending, points: seq<Point>, accepted: seq<bool>)
    ensures var r := Run(p, points, accepted);
            Work(Duties(false, p), points, accepted) == Worked(Duties(false, r.pending), r.emitted)
    decreases |accepted|
  {
    if accepted == [] {
    } else {
      hide Process;
      WorkIsRun(Process(p, points, accepted[0]).pending, points, accepted[1..]);
    }
  }

  /** The same with the metadata in front: sent once, and then everything else. */
  lemma {:induction false} DutiesDone(d: Duties, points: seq<Point>, accepted: seq<bool>)
    requires Fits(d.pending, points)
    requires Accepts(accepted) >= Turns(d.pending, points) + if d.metadata then 1 else 0
    ensures var w := Work(d, points, accepted);
            !w.duties.metadata && w.duties.pending.mask == NOTHING && w.emitted == Debt(d, points)
    decreases |accepted|
  {
    hide Process, Turns, Plan, Run;
    if !d.metadata {
      WorkIsRun(d.pending, points, accepted);
      DrainComplete(d.pending, points, accepted);
    } else {
      DutiesDone(Turn(d, points, accepted[0]).duties, points, accepted[1..]);
    }
  }

  /** The points carried by a list of packets, in order. */
  function Carried(packets: seq<Packet>): seq<Point> {
    if packets == [] then []
    else (if packets[0].Points? then packets[0].points else []) + Carried(packets[1..])
  }

  /** "All points" reassembles to exactly the captured array. */
  lemma {:induction false} AllPointsReassemble(chunk: nat, points: seq<Point>)
    requires |points| <= 510 && chunk <= 255
    ensures Carried(Chunks(chunk, true, points)) == if 2 * chunk <= |points| then points[2 * chunk..] else []
    decreases |points| - chunk
  {
    if 2 * chunk >= |points| {
    } else {
      var head, rest := Points(chunk, |points|, Slice(points, 2 * chunk)), Chunks(chunk + 1, true, points);
      assert Chunks(chunk, true, points) == [head] + rest;
      assert ([head] + rest)[1..] == rest;
      if chunk < 255 { AllPointsReassemble(chunk + 1, points); }
    }
  }

  /** With more than 510 points the last chunk's number collides with the "all" marker: the turn
      that owes chunk 255 sends chunk 0 again. */
  lemma WrapMisdirects(points: seq<Point>)
    requires |points| > 510
    ensures var p := Pending(TCAL_POINTS, 255, true); var o := Process(p, points, true);
            && o.emitted == Some(Points(0, |points|, points[..2]))
            && (if |points| > 512 then o.pending == Pending(TCAL_POINTS, 0, true) else o.pending.mask == NOTHING)
  {
    assert Lowest(TCAL_POINTS) == TCAL_POINTS;
  }

  /** After k accepted turns of an all-points drain the next chunk is the k-th. */
  lemma {:induction false} ChunkReached(points: seq<Point>, k: nat)
    requires k <= 255 && 2 * k < |points|
    ensures Run(Pending(TCAL_POINTS, 0, true), points, Yes(k)).pending == Pending(TCAL_POINTS, k, true)
    ensures forall x <- Run(Pending(TCAL_POINTS, 0, true), points, Yes(k)).emitted :: x.Points?
  {
    ChunkReachedFrom(points, 0, k);
  }

  function Yes(k: nat): (s: seq<bool>)
    ensures |s| == k && forall i | 0 <= i < k :: s[i]
  {
    seq(k, _ => true)
  }

  lemma {:induction false} ChunkReachedFrom(points: seq<Point>, at: Byte, k: nat)
    requires at + k <= 255 && 2 * (at + k) < |points|
    ensures var r := Run(Pending(TCAL_POINTS, at, true), points, Yes(k));
            r.pending == Pending(TCAL_POINTS, at + k, true) && forall x <- r.emitted :: x.Points?
    decreases k
  {
    if k == 0 {
    } else {
      assert Lowest(TCAL_POINTS) == TCAL_POINTS;
      assert Yes(k)[1..] == Yes(k - 1);
      ChunkReachedFrom(points, at + 1, k - 1);
    }
  }

  /** Every turn of every all-points drain sends the chunk it owes. */
  ghost predicate DrainsFaithfully(points: seq<Point>) {
    forall k: nat | 2 * k < |points| :: Faithful(points, k)
  }

  /** The k-th accepted turn emits the k-th chunk under its own number. */
  ghost predicate Faithful(points: seq<Point>, k: nat)
    requires 2 * k < |points|
  {
    k < 256 && Process(Run(Pending(TCAL_POINTS, 0, true), points, Yes(k)).pending, points, true).emitted
               == Some(Points(k, |points|, Slice(points, 2 * k)))
  }

  /** Exactly the snapshots of at most 510 points are drained faithfully. */
  lemma FaithfulIffFits(points: seq<Point>)
    ensures DrainsFaithfully(points) <==> |points| <= 510
  {
    hide Run, Process;
    if |points| <= 510 {
      forall k: nat | 2 * k < |points| ensures Faithful(points, k) {
        ChunkReached(points, k);
        ChunkSent(points, k);
      }
    } else {
      ChunkReached(points, 255);
      WrapMisdirects(points);
      assert !Faithful(points, 255);
    }
  }

  lemma ChunkSent(points: seq<Point>, k: Byte)
    requires k < 255 && 2 * k < |points|
    ensures Process(Pending(TCAL_POINTS, k, true), points, true).emitted
         == Some(Points(k, |points|, Slice(points, 2 * k)))
  {
    assert Lowest(TCAL_POINTS) == TCAL_POINTS;
  }

  // ------------------------------------------------------------- requesting

  datatype Request = Request(mask: Mask, chunk: Byte, token: Word)

  /** Requests collected until the drain is idle; a repeated token is a retransmission. */
  datatype Inbox = Inbox(mask: Mask, chunk: Byte, token: Option<Word>)

  function Union(a: Mask, b: Mask): Mask { Mask(a.bits | b.bits) }

  function Shared(a: Mask, b: Mask): Mask { Mask(a.bits & b.bits) }

  function WithoutBasic(mask: Mask): Mask { Mask(mask.bits & !BASIC.bits) }

  predicate Sound(mask: Mask) {
    mask != NOTHING && mask.bits & !ALL.bits == 0
  }

  function Merge(i: Inbox, r: Request): Inbox {
    if !Sound(r.mask) || i.token == Some(r.token) then i
    else Inbox(Union(i.mask, r.mask),
               if Has(Shared(i.mask, r.mask), TCAL_POINTS) && i.chunk != r.chunk then ALL_CHUNKS
               else if Has(r.mask, TCAL_POINTS) then r.chunk else i.chunk,
               Some(r.token))
  }

  function Schedule(p: Pending, mask: Mask, chunk: Byte): Pending {
    if !Sound(mask) then p
    else
      var all := if Has(mask, TCAL_POINTS) then chunk == ALL_CHUNKS else p.all;
      Pending(Union(p.mask, WithoutBasic(mask)),
              if !Has(mask, TCAL_POINTS) then p.chunk else if all then 0 else chunk, all)
  }

  const IDLE: Pending := Pending(NOTHING, 0, false)

  function ScheduleAll(d: Duties, mask: Mask, chunk: Byte): Duties {
    Duties(d.metadata || (Sound(mask) && Has(mask, BASIC)), Schedule(d.pending, mask, chunk))
  }

  /** What a request alone would have been sent. */
  function Owed(mask: Mask, chunk: Byte, points: seq<Point>): seq<Packet> {
    Debt(ScheduleAll(Duties(false, IDLE), mask, chunk), points)
  }

  lemma {:induction false} ChunkListed(from: nat, k: nat, points: seq<Point>)
    requires from <= k <= 255 && 2 * k < |points|
    ensures Points(k, |points|, Slice(points, 2 * k)) in Chunks(from, true, points)
    decreases k - from
  {
    if from == k {
    } else {
      ChunkListed(from + 1, k, points);
    }
  }

  lemma {:induction false} AllCoversOne(chunk: Byte, points: seq<Point>, x: Packet)
    requires chunk < 255 && x in Chunks(chunk, false, points)
    ensures x in Chunks(0, true, points)
  {
    ChunkListed(0, chunk, points);
  }

  lemma ScheduledIdle(mask: Mask, chunk: Byte)
    requires Sound(mask)
    ensures var p, k := Schedule(IDLE, mask, chunk), KindsOf(mask);
            && KindsOf(p.mask) == k
            && (k.points ==> p.all == (chunk == ALL_CHUNKS) && p.chunk == if chunk == ALL_CHUNKS then 0 else chunk)
  {
  }

  ghost predicate Includes(k: Kinds, part: Kinds) {
    && (part.accel ==> k.accel) && (part.mag ==> k.mag) && (part.gyro ==> k.gyro)
    && (part.state ==> k.state) && (part.points ==> k.points)
  }

  lemma UnionHas(a: Mask, b: Mask, kind: Mask)
    ensures Has(Union(a, b), kind) == (Has(a, kind) || Has(b, kind))
  {
  }

  lemma SharedPoints(a: Mask, b: Mask)
    ensures Has(Shared(a, b), TCAL_POINTS) == (Has(a, TCAL_POINTS) && Has(b, TCAL_POINTS))
  {
  }

  lemma UnionKinds(a: Mask, b: Mask)
    ensures Includes(KindsOf(Union(a, b)), KindsOf(a)) && Includes(KindsOf(Union(a, b)), KindsOf(b))
    ensures KindsOf(Union(a, b)).points == (KindsOf(a).points || KindsOf(b).points)
    ensures Has(Shared(a, b), TCAL_POINTS) == (KindsOf(a).points && KindsOf(b).points)
    ensures Has(b, TCAL_POINTS) == KindsOf(b).points
    ensures Has(Union(a, b), BASIC) == (Has(a, BASIC) || Has(b, BASIC))
  {
    hide Has, Union, Shared;
    UnionHas(a, b, BASIC); UnionHas(a, b, ACCEL); UnionHas(a, b, MAG);
    UnionHas(a, b, GYRO); UnionHas(a, b, TCAL_STATE); UnionHas(a, b, TCAL_POINTS);
    SharedPoints(a, b);
  }

  lemma UnionSound(a: Mask, b: Mask)
    requires Sound(a) && Sound(b)
    ensures Sound(Union(a, b))
  {
  }

  ghost predicate Covers(big: seq<Packet>, small: seq<Packet>) {
    forall x <- small :: x in big
  }

  /** Coalescing a second request into a waiting one still answers both in full. */
  lemma CoalescingCovers(i: Inbox, r: Request, points: seq<Point>)
    requires Sound(i.mask) && Sound(r.mask) && i.token != Some(r.token)
    ensures var m := Merge(i, r);
            && Covers(Owed(m.mask, m.chunk, points), Owed(i.mask, i.chunk, points))
            && Covers(Owed(m.mask, m.chunk, points), Owed(r.mask, r.chunk, points))
  {
    hide KindsOf, Has, Union, Shared, Sound, Owed;
    var m := Merge(i, r);
    UnionKinds(i.mask, r.mask);
    UnionSound(i.mask, r.mask);
    OwedCovers(m.mask, m.chunk, i.mask, i.chunk, points);
    OwedCovers(m.mask, m.chunk, r.mask, r.chunk, points);
  }

  /** A request whose token was the last one counted is a retransmission: it adds nothing, neither
      while its request waits nor after the drain has taken it. */
  lemma RepeatAddsNothing(i: Inbox, r: Request)
    requires Sound(r.mask)
    ensures var m := Merge(i, r);
            && m.token == Some(r.token)
            && Merge(m, r) == m && Merge(m.(mask := NOTHING), r) == m.(mask := NOTHING)
  {
    hide Has, Union, Shared;
  }

  /** What is asked of an emptied inbox is what the drain will owe, whatever was asked before. */
  lemma NewRequestCounts(i: Inbox, r: Request, points: seq<Point>)
    requires Sound(r.mask) && i.mask == NOTHING && i.token != Some(r.token)
    ensures var m := Merge(i, r); Sound(m.mask) && Owed(m.mask, m.chunk, points) == Owed(r.mask, r.chunk, points)
  {
    hide Debt, Plan;
    EmptyUnion(r.mask);
    SharedPoints(i.mask, r.mask);
    if !Has(r.mask, TCAL_POINTS) { ChunkUnused(r.mask, i.chunk, r.chunk, points); }
  }

  lemma EmptyUnion(mask: Mask)
    ensures Union(NOTHING, mask) == mask && !Has(NOTHING, TCAL_POINTS)
  {
  }

  lemma ChunkUnused(mask: Mask, a: Byte, b: Byte, points: seq<Point>)
    requires !Has(mask, TCAL_POINTS)
    ensures Owed(mask, a, points) == Owed(mask, b, points)
  {
    hide Debt, Plan, Has;
  }

  // ----------------------------------------------------------- what is owed

  /** The k-th chunk: the points 2k and 2k + 1, as far as there are any. */
  ghost predicate ChunkIs(x: Packet, k: nat, points: seq<Point>) {
    && k <= 255 && 2 * k < |points|
    && x == Points(k, |points|, if 2 * k + 1 < |points| then [points[2 * k], points[2 * k + 1]] else [points[2 * k]])
  }

  /** Some chunk from the given one on. */
  ghost predicate ChunkFrom(x: Packet, from: nat, points: seq<Point>) {
    exists k: nat :: from <= k && ChunkIs(x, k, points)
  }

  lemma ChunkFromStep(x: Packet, from: nat, points: seq<Point>)
    ensures ChunkFrom(x, from, points) <==> ChunkIs(x, from, points) || ChunkFrom(x, from + 1, points)
  {
    hide ChunkIs;
    if ChunkFrom(x, from, points) && !ChunkIs(x, from, points) {
      var k: nat :| from <= k && ChunkIs(x, k, points);
      assert from + 1 <= k;
    }
  }

  lemma SliceIsChunk(x: Packet, k: nat, points: seq<Point>)
    requires k <= 255 && 2 * k < |points|
    ensures x == Points(k, |points|, Slice(points, 2 * k)) <==> ChunkIs(x, k, points)
  {
    var at := 2 * k;
    assert Slice(points, at) == if at + 1 < |points| then [points[at], points[at + 1]] else [points[at]];
  }

  lemma {:induction false} ChunksMembers(from: nat, all: bool, points: seq<Point>, x: Packet)
    ensures x in Chunks(from, all, points)
            <==> if all then ChunkFrom(x, from, points) else ChunkIs(x, from, points)
    decreases |points| - from
  {
    if 2 * from >= |points| || from > 255 {
    } else {
      SliceIsChunk(x, from, points);
      hide ChunkIs, ChunkFrom, Slice;
      if all {
        ChunksMembers(from + 1, all, points, x);
        ChunkFromStep(x, from, points);
      }
    }
  }

  /** Exactly what a request asks for is owed: the metadata, each subtype named, and of the captured
      points the chunk named or all of them. */
  lemma OwedMembers(mask: Mask, chunk: Byte, points: seq<Point>, x: Packet)
    requires Sound(mask)
    ensures x in Owed(mask, chunk, points) <==>
              || (Has(mask, BASIC) && x == Metadata)
              || (exists kind <- {ACCEL, MAG, GYRO, TCAL_STATE} :: Has(mask, kind) && x == Subtype(kind))
              || (Has(mask, TCAL_POINTS)
                  && if chunk == ALL_CHUNKS then ChunkFrom(x, 0, points) else ChunkIs(x, chunk, points))
  {
    hide Has, Chunks, Listed, Schedule, ChunkIs, ChunkFrom, Sound;
    ScheduledIdle(mask, chunk);
    var p := Schedule(IDLE, mask, chunk);
    ListedMembers(KindsOf(mask), PointsPlan(p, points), x);
    ChunksMembers(p.chunk, p.all, points, x);
  }

  lemma ListedMembers(k: Kinds, rest: seq<Packet>, x: Packet)
    ensures x in Listed(k.accel, k.mag, k.gyro, k.state, rest) <==>
              (k.accel && x == Subtype(ACCEL)) || (k.mag && x == Subtype(MAG)) || (k.gyro && x == Subtype(GYRO))
              || (k.state && x == Subtype(TCAL_STATE)) || x in rest
  {
  }

  lemma OwedCovers(mask: Mask, chunk: Byte, part: Mask, partChunk: Byte, points: seq<Point>)
    requires Sound(mask) && Sound(part) && Includes(KindsOf(mask), KindsOf(part))
    requires KindsOf(part).points ==> chunk == ALL_CHUNKS || chunk == partChunk
    requires Has(part, BASIC) ==> Has(mask, BASIC)
    ensures Covers(Owed(mask, chunk, points), Owed(part, partChunk, points))
  {
    hide KindsOf, Chunks, Schedule, Listed, Has, Sound;
    ScheduledIdle(mask, chunk);
    ScheduledIdle(part, partChunk);
    var p, q := Schedule(IDLE, mask, chunk), Schedule(IDLE, part, partChunk);
    forall x <- Owed(part, partChunk, points) ensures x in Owed(mask, chunk, points) {
      ListedMembers(KindsOf(mask), PointsPlan(p, points), x);
      ListedMembers(KindsOf(part), PointsPlan(q, points), x);
      if x in PointsPlan(q, points) && partChunk < 255 && chunk == ALL_CHUNKS {
        AllCoversOne(partChunk, points, x);
      }
    }
  }

  // ------------------------------------------------------ the firmware's state

  class Calibration {
    const points: seq<Point>
    var pendingMask: Mask
    var pendingChunk: Byte
    var pointsAll: bool
    var pending: bool
    var metadataPending: bool
    var requestMask: Mask
    var requestChunk: Byte
    var requestToken: Word
    var requestTokenValid: bool

    ghost predicate Valid()
      reads this
    {
      pending == (pendingMask != NOTHING) && Masked(View())
    }

    ghost function View(): Pending
      reads this
    {
      Pending(pendingMask, pendingChunk, pointsAll)
    }

    ghost function Due(): Duties
      reads this
    {
      Duties(metadataPending, View())
    }

    ghost function Requests(): Inbox
      reads this
    {
      Inbox(requestMask, requestChunk, if requestTokenValid then Some(requestToken) else None)
    }

    constructor (snapshot: seq<Point>)
      ensures points == snapshot && Valid() && View() == IDLE && Requests() == Inbox(ALL, ALL_CHUNKS, None)
    {
      points := snapshot;
      pendingMask, pendingChunk, pointsAll, pending, metadataPending := NOTHING, 0, false, false, false;
      requestMask, requestChunk, requestToken, requestTokenValid := ALL, ALL_CHUNKS, 0, false;
    }

    /** Outside an active collection session requests are ignored. */
    method RequestRawMetadata(collecting: bool, mask: Mask, chunk: Byte, token: Word)
      requires Valid()
      modifies this
      ensures Valid() && View() == old(View())
      ensures Requests() == if collecting then Merge(old(Requests()), Request(mask, chunk, token)) else old(Requests())
    {
      hide Has, Sound, Masked, Union, Shared;
      if !collecting || !Sound(mask) {
        return;
      }
      if !requestTokenValid || requestToken != token {
        requestToken, requestTokenValid := token, true;
        if Has(Shared(requestMask, mask), TCAL_POINTS) && requestChunk != chunk {
          requestChunk := ALL_CHUNKS;
        } else if Has(mask, TCAL_POINTS) {
          requestChunk := chunk;
        }
        requestMask := Union(requestMask, mask);
      }
    }

    method ScheduleCalibration(mask: Mask, chunk: Byte)
      requires Valid()
      modifies this
      ensures Valid() && Due() == ScheduleAll(old(Due()), mask, chunk) && Requests() == old(Requests())
    {
      hide Has, Sound, Masked, Union, WithoutBasic;
      if !Sound(mask) {
        return;
      }
      ghost var was := View();
      if Has(mask, BASIC) {
        metadataPending := true;
      }
      pendingMask := Union(pendingMask, WithoutBasic(mask));

      if Has(mask, TCAL_POINTS) {
        pointsAll := chunk == ALL_CHUNKS;
        pendingChunk := if pointsAll then 0 else chunk;
      }
      pending := pendingMask != NOTHING;
      StaysMasked(was, mask, pendingChunk, pointsAll);
    }

    /** An idle drain picks up what was requested meanwhile. */
    method TakeRequests()
      requires Valid()
      modifies this
      ensures Valid() && Requests().token == old(Requests()).token
      ensures if old(pending) || old(metadataPending) then Due() == old(Due()) && requestMask == old(requestMask)
              else Due() == ScheduleAll(old(Due()), old(requestMask), old(requestChunk)) && requestMask == NOTHING
    {
      if !metadataPending && !pending {
        var mask, chunk := requestMask, requestChunk;
        requestMask := NOTHING;
        if mask != NOTHING {
          ScheduleCalibration(mask, chunk);
        }
      }
    }

    /** Whether the packet went out, or there was none to send. */
    method SendCalibrationMask(subtype: Mask, chunk: Byte, accepted: bool) returns (done: bool, emitted: Option<Packet>)
      requires Masked(View()) && View().mask != NOTHING && subtype == Lowest(View().mask)
      ensures var packet := Content(subtype, chunk, points);
              done == (packet.None? || accepted) && emitted == if done then packet else None
    {
      if subtype != TCAL_POINTS {
        return accepted, if accepted then Some(Subtype(subtype)) else None;
      }
      var count := |points|;
      var start := if chunk == ALL_CHUNKS then 0 else chunk * 2;
      if count == 0 || start >= count {
        return true, None;
      }
      var n := if count - start > 2 then 2 else count - start;
      assert points[start..start + n] == Slice(points, start);
      var packet := Points(if chunk == ALL_CHUNKS then 0 else chunk, count, points[start..start + n]);
      return accepted, if accepted then Some(packet) else None;
    }

    method ProcessCalibrationRequests(accepted: bool) returns (worked: bool, emitted: Option<Packet>)
      requires Valid()
      modifies this
      ensures Valid() && Outcome(View(), emitted) == Process(old(View()), points, accepted)
      ensures Requests() == old(Requests()) && metadataPending == old(metadataPending)
      ensures !worked ==> View() == old(View())
    {
      if !pending {
        return false, None;
      }
      hide KindsOf, Content;
      ghost var was := View();
      LowestBit(pendingMask);
      var subtype := Lowest(pendingMask);
      var sent;
      sent, emitted := SendCalibrationMask(subtype, pendingChunk, accepted);
      if !sent {
        return false, None;
      }
      if subtype == TCAL_POINTS && pointsAll && (pendingChunk + 1) * 2 < |points| {
        pendingChunk := (pendingChunk + 1) % 256;
      } else {
        pendingMask := Without(pendingMask, subtype);
        if subtype == TCAL_POINTS {
          pointsAll := false;
        }
      }
      pending := pendingMask != NOTHING;
      worked := true;
    }

    /** One turn of the session once its pacing interval has passed. */
    method ProcessDuties(accepted: bool) returns (emitted: Option<Packet>)
      requires Valid()
      modifies this
      ensures Valid() && DutyOutcome(Due(), emitted) == Turn(old(Due()), points, accepted)
      ensures Requests() == old(Requests())
    {
      hide Process;
      if metadataPending {
        if accepted {
          metadataPending := false;
          return Some(Metadata);
        }
        return None;
      }
      var worked;
      worked, emitted := ProcessCalibrationRequests(accepted);
    }
  }

  lemma StaysMasked(p: Pending, mask: Mask, chunk: Byte, all: bool)
    requires Masked(p) && Sound(mask)
    ensures Masked(Pending(Union(p.mask, WithoutBasic(mask)), chunk, all))
  {
  }
}
