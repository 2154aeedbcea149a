/** Tracker event wire format: which events are legal and their 17-byte packet. */
module EventProtocol {
  import opened Integers
  import opened Wrappers

  const ESB_TYPE: Byte := 0xE0
  const VERSION: Byte := 1
  const MAGIC_0: Byte := 0x43
  const MAGIC_1: Byte := 0x45
  const ESB_LEN: nat := 17
  const BODY_LEN: nat := 15
  const MAX_TRACKERS: nat := 16

  // Event codes
  const ACCEPTED: Byte := 1
  const BEGIN: Byte := 2
  const STEP: Byte := 3
  const END: Byte := 4
  const REJECTED: Byte := 5
  const STATE: Byte := 6
  const NOTICE: Byte := 7

  // Outcomes
  const NO_OUTCOME: Byte := 0
  const SUCCESS: Byte := 1
  const FAILED: Byte := 2
  const SKIPPED: Byte := 4

  // Kinds
  const MAG_ONLINE_AUTO: Byte := 0x84
  const TRACKER_REST: Byte := 0x20
  const FUSION_REST: Byte := 0x21
  const POWER: Byte := 0x30
  const BUTTON: Byte := 0x31

  // Phases and details
  const PHASE_RETRY: Byte := 8
  const PHASE_STORAGE: Byte := 18
  const REASON_STORAGE_ERROR: Byte := 18
  const REST_UNKNOWN: Byte := 2
  const FUSION_UNAVAILABLE: Byte := 3
  const NO_FRESH_FRAME: Byte := 3
  const BACKEND_VQF: Byte := 1
  const BACKEND_EQF: Byte := 2
  const WILL_WOM: Byte := 1
  const WILL_SHUTDOWN: Byte := 2
  const BOOT: Byte := 3
  const WAKE: Byte := 4
  const WILL_REBOOT: Byte := 5
  const WOM_CANCELLED: Byte := 6
  const WATCHDOG_RESET: Byte := 7

  datatype Event = Event(nonce: Long, seqno: Word, operation: Word, tracker: Byte,
                         kind: Byte, event: Byte, outcome: Byte, phase: Byte, detail: Byte)

  predicate IsCalibration(kind: Byte) {
    1 <= kind % 0x80 <= 7
  }

  /** Legality of everything but the identity (nonce and tracker). */
  predicate Legal(e: Event) {
    if IsCalibration(e.kind) then
      && e.operation != 0
      && (if e.event == ACCEPTED || e.event == BEGIN || e.event == STEP then e.outcome == NO_OUTCOME
          else if e.event == END then SUCCESS <= e.outcome <= SKIPPED
          else e.event == REJECTED && e.outcome == FAILED)
    else
      && e.operation == 0 && e.outcome == 0
      && (if e.kind == TRACKER_REST then e.event == STATE && RestPair(0, e.phase, e.detail)
          else if e.kind == FUSION_REST then e.event == STATE && RestPair(1, e.phase, e.detail)
          else if e.kind == POWER then e.event == NOTICE && PowerPair(e.phase, e.detail)
          else e.kind == BUTTON && e.event == NOTICE && e.phase == 1 && e.detail != 0)
  }

  predicate RestPair(domain: nat, phase: Byte, detail: Byte) {
    if domain == 0 then phase <= 2 && detail <= 4 else phase <= 3 && detail <= 2
  }

  predicate PowerPair(phase: Byte, detail: Byte) {
    || ((phase == WILL_WOM || phase == WOM_CANCELLED) && detail <= 2)
    || (phase != WOM_CANCELLED && WILL_SHUTDOWN <= phase <= WATCHDOG_RESET && detail == 0)
  }

  predicate Valid(e: Event) {
    e.nonce != 0 && e.tracker < MAX_TRACKERS && Legal(e)
  }

  function Low(x: Word): Byte { x % 0x100 }
  function High(x: Word): Byte { x / 0x100 }

  function Put16(x: Word): seq<Byte> { [Low(x), High(x)] }

  function Put32(x: Long): seq<Byte> { Put16(x % 0x1_0000) + Put16(x / 0x1_0000) }

  function Get16(p: seq<Byte>): Word
    requires |p| >= 2
  {
    var lo: int, hi: int := p[0], p[1];
    lo + 0x100 * hi
  }

  function Get32(p: seq<Byte>): Long
    requires |p| >= 4
  {
    var lo: int, hi: int := Get16(p), Get16(p[2..]);
    lo + 0x1_0000 * hi
  }

  function Packet(e: Event): (p: seq<Byte>)
    requires Valid(e)
    ensures |p| == ESB_LEN
  {
    [ESB_TYPE, e.tracker, VERSION, e.event + 0x10 * e.outcome]
    + Put32(e.nonce) + Put16(e.seqno) + Put16(e.operation)
    + [e.kind, e.phase, e.detail, MAGIC_0, MAGIC_1]
  }

  function Decode(p: seq<Byte>): Option<Event> {
    if |p| != ESB_LEN || p[0] != ESB_TYPE || p[2] != VERSION || p[15] != MAGIC_0 || p[16] != MAGIC_1 then None
    else
      var e := Event(Get32(p[4..8]), Get16(p[8..10]), Get16(p[10..12]), p[1],
                     p[12], p[3] % 0x10, p[3] / 0x10, p[13], p[14]);
      if Valid(e) then Some(e) else None
  }

  /** Receivers store the packet without its type and tracker bytes. */
  function DecodeBody(tracker: Byte, body: seq<Byte>): Option<Event> {
    if |body| != BODY_LEN then None else Decode([ESB_TYPE, tracker] + body)
  }

  lemma Long16RoundTrip(x: Long, p: seq<Byte>)
    ensures Get32(Put32(x)) == x
    ensures |p| == 4 ==> Put32(Get32(p)) == p
  {
    assert Put32(x)[2..] == Put16(x / 0x1_0000);
    if |p| == 4 {
      var lo, hi := Get16(p), Get16(p[2..]);
      assert Get32(p) % 0x1_0000 == lo && Get32(p) / 0x1_0000 == hi;
      assert p == p[..2] + p[2..] && Put16(lo) == p[..2] && Put16(hi) == p[2..];
    }
  }

  /** The bytes of a packet: the event code in the low half of byte 3, the outcome in the high half,
      and every number with its low byte first. */
  lemma PacketLayout(e: Event)
    requires Valid(e)
    ensures var p: seq<int> := Packet(e);
            && p[0] == 0xE0 && p[1] == e.tracker && p[2] == 1
            && p[3] % 0x10 == e.event && p[3] / 0x10 == e.outcome
            && p[4] + 0x100 * p[5] + 0x1_0000 * p[6] + 0x100_0000 * p[7] == e.nonce
            && p[8] + 0x100 * p[9] == e.seqno && p[10] + 0x100 * p[11] == e.operation
            && p[12..] == [e.kind, e.phase, e.detail, 0x43, 0x45]
  {
    Halves(e.nonce % 0x1_0000);
    Halves(e.nonce / 0x1_0000);
    Halves(e.seqno);
    Halves(e.operation);
    assert e.event <= 7;
    hide Legal;
  }

  lemma Halves(x: Word)
    ensures Low(x) + 0x100 * High(x) == x
  {
  }

  /** Every legal event survives the wire. */
  lemma DecodeEncode(e: Event)
    requires Valid(e)
    ensures Decode(Packet(e)) == Some(e)
    ensures DecodeBody(e.tracker, Packet(e)[2..]) == Some(e)
  {
    var p := Packet(e);
    assert p[4..8] == Put32(e.nonce) && p[8..10] == Put16(e.seqno) && p[10..12] == Put16(e.operation);
    Long16RoundTrip(e.nonce, []);
    assert e.event <= 7 && e.outcome <= 4;
    assert [ESB_TYPE, e.tracker] + p[2..] == p;
  }

  /** Only packets the tracker itself would have produced are accepted. */
  lemma EncodeDecode(p: seq<Byte>)
    requires Decode(p).Some?
    ensures Packet(Decode(p).value) == p
  {
    var e := Decode(p).value;
    Long16RoundTrip(0, p[4..8]);
    assert Put16(e.seqno) == p[8..10] && Put16(e.operation) == p[10..12];
    assert e.event + 0x10 * e.outcome == p[3];
    assert p == p[..4] + p[4..8] + p[8..10] + p[10..12] + p[12..];
    assert p[..4] == [ESB_TYPE, e.tracker, VERSION, p[3]];
    assert p[12..] == [e.kind, e.phase, e.detail, MAGIC_0, MAGIC_1];
  }

  method Put16Into(out: array<Byte>, at: nat, x: Word)
    requires at + 2 <= out.Length
    modifies out
    ensures out[at] == Low(x) && out[at + 1] == High(x)
    ensures forall k | 0 <= k < out.Length && k != at && k != at + 1 :: out[k] == old(out[k])
  {
    out[at] := x % 0x100;
    out[at + 1] := x / 0x100;
  }

  method Put32Into(out: array<Byte>, at: nat, x: Long)
    requires at + 4 <= out.Length
    modifies out
    ensures forall k | 0 <= k < 4 :: out[at + k] == Put32(x)[k]
    ensures forall k | 0 <= k < out.Length && !(at <= k < at + 4) :: out[k] == old(out[k])
  {
    Put16Into(out, at, x % 0x1_0000);
    Put16Into(out, at + 2, x / 0x1_0000);
  }

  /** Fills the caller's buffer, or leaves it alone when the event is illegal. */
  method Encode(out: array<Byte>, e: Event) returns (ok: bool)
    requires out.Length == ESB_LEN
    modifies out
    ensures ok == Valid(e)
    ensures out[..] == if ok then Packet(e) else old(out[..])
  {
    if !Valid(e) {
      return false;
    }
    out[0] := ESB_TYPE;
    out[1] := e.tracker;
    out[2] := VERSION;
    out[3] := e.event + 0x10 * e.outcome;
    Put32Into(out, 4, e.nonce);
    Put16Into(out, 8, e.seqno);
    Put16Into(out, 10, e.operation);
    out[12] := e.kind;
    out[13] := e.phase;
    out[14] := e.detail;
    out[15] := MAGIC_0;
    out[16] := MAGIC_1;
    assert Put32(e.nonce) == [out[4 + 0], out[4 + 1], out[4 + 2], out[4 + 3]];
    hide Put32, Legal;
    return true;
  }
}
