/** What a scan does on the bus, said of the transactions it adds to the log. */
module SensorLog {
  import opened Integers
  import opened Wrappers
  import opened SensorTable

  // -------------------------------------------------------------- discipline

  /** The error of transaction i ends the search of its address. Errors of the first read of an
      address (register 0) and of the second identity read (register 1) do not. */
  predicate Aborts(oracle: Oracle, log: Log, i: nat)
    requires i < |log|
  {
    oracle(log[..i], log[i]).None? && (!log[i].Read? || log[i].reg !in {0x00, 0x01})
  }

  /** Transaction i of a scan that began at `start`: a BMM150 is asked for its identity only right
      after it acknowledged power, nothing else is ever written, only a BMM350 is read in a burst;
      a new address, and whatever follows an abort, begins with a read of register 0. */
  predicate Disciplined(oracle: Oracle, log: Log, start: nat, i: nat)
    requires start <= i < |log|
  {
    && (match log[i]
        case Write(a, r, v) => 0x10 <= a <= 0x13 && r == 0x4B && v == 1
        case Burst(a, r) => 0x14 <= a <= 0x17 && r == 0x00
        case Read(a, r) =>
          0x10 <= a <= 0x13 && r == 0x40 ==>
            start < i && log[i - 1] == Write(a, 0x4B, 1) && oracle(log[..i - 1], log[i - 1]).Some?)
    && (i == start || log[i - 1].addr != log[i].addr || Aborts(oracle, log, i - 1) ==>
          log[i] == Read(log[i].addr, 0x00))
  }

  ghost predicate Proper(oracle: Oracle, log: Log, start: nat) {
    start <= |log| && forall i | start <= i < |log| :: Disciplined(oracle, log, start, i)
  }

  /** The address is open: its last transaction did not abort. */
  predicate Open(oracle: Oracle, log: Log, start: nat, addr: Byte) {
    start < |log| && log[|log| - 1].addr == addr && !Aborts(oracle, log, |log| - 1)
  }

  lemma Appended(oracle: Oracle, log: Log, start: nat, t: Transaction)
    requires Proper(oracle, log, start) && Disciplined(oracle, log + [t], start, |log|)
    ensures Proper(oracle, log + [t], start)
    ensures Open(oracle, log + [t], start, t.addr)
            <==> oracle(log, t).Some? || (t.Read? && t.reg in {0x00, 0x01})
  {
    var longer := log + [t];
    assert longer[..|log|] == log;
    forall i | start <= i < |log| ensures Disciplined(oracle, longer, start, i) {
      assert Disciplined(oracle, log, start, i);
      assert longer[..i] == log[..i];
      if i > start { assert longer[..i - 1] == log[..i - 1]; }
    }
  }

  lemma OpenAppends(oracle: Oracle, log: Log, start: nat, addr: Byte, t: Transaction)
    requires Proper(oracle, log, start) && Open(oracle, log, start, addr) && t.addr == addr
    requires match t
             case Write(a, r, v) => 0x10 <= a <= 0x13 && r == 0x4B && v == 1
             case Burst(a, r) => 0x14 <= a <= 0x17 && r == 0x00
             case Read(a, r) =>
               0x10 <= a <= 0x13 && r == 0x40 ==>
                 var n := |log| - 1; log[n] == Write(a, 0x4B, 1) && oracle(log[..n], log[n]).Some?
    ensures Proper(oracle, log + [t], start)
    ensures Open(oracle, log + [t], start, addr) <==> oracle(log, t).Some? || (t.Read? && t.reg in {0x00, 0x01})
  {
    var longer, n := log + [t], |log| - 1;
    assert longer[..n] == log[..n] && longer[n] == log[n];
    Appended(oracle, log, start, t);
  }

  lemma IdReadProper(oracle: Oracle, log: Log, start: nat, addr: Byte, reg: Byte)
    requires Proper(oracle, log, start) && Open(oracle, log, start, addr)
    ensures var reply := ReadId(oracle, log, addr, reg);
            && Proper(oracle, reply.log, start)
            && (reply.id.Some? ==> Open(oracle, reply.log, start, addr))
  {
    hide Proper, Aborts;
    if reg == 0x40 && 0x10 <= addr <= 0x13 {
      var power := Write(addr, 0x4B, 0x01);
      OpenAppends(oracle, log, start, addr, power);
      var up := log + [power];
      assert up[..|up| - 1] == log;
      if oracle(log, power).Some? { OpenAppends(oracle, up, start, addr, Read(addr, reg)); }
    } else if reg == 0x00 && 0x14 <= addr <= 0x17 {
      OpenAppends(oracle, log, start, addr, Burst(addr, reg));
    } else {
      OpenAppends(oracle, log, start, addr, Read(addr, reg));
    }
  }

  lemma ConfirmProper(q: Request, log: Log, start: nat, addr: Byte, r: Register, row: Row)
    requires Proper(q.oracle, log, start) && Open(q.oracle, log, start, addr)
    ensures var end := Confirm(q, log, addr, r, row);
            Proper(q.oracle, end.log, start) && Open(q.oracle, end.log, start, addr)
  {
    hide Proper, Aborts;
    OpenAppends(q.oracle, log, start, addr, Read(addr, ICT_CHIP_ID));
  }

  lemma {:induction false} RegsProper(q: Request, log: Log, start: nat, addr: Byte, regs: seq<Register>)
    requires Proper(q.oracle, log, start) && Open(q.oracle, log, start, addr)
    ensures Proper(q.oracle, SearchRegs(q, log, addr, regs).log, start)
    decreases |regs|
  {
    hide Proper, Open, Confirm, ReadId;
    if regs == [] {
    } else if !q.WantsReg(addr, regs[0]) {
      RegsProper(q, log, start, addr, regs[1..]);
    } else {
      var reply := ReadId(q.oracle, log, addr, regs[0].reg);
      IdReadProper(q.oracle, log, start, addr, regs[0].reg);
      if reply.id.Some? {
        var row := FirstRow(regs[0].rows, reply.id.value);
        if row.None? {
          RegsProper(q, reply.log, start, addr, regs[1..]);
        } else {
          ConfirmProper(q, reply.log, start, addr, regs[0], row.value);
          RegsProper(q, Confirm(q, reply.log, addr, regs[0], row.value).log, start, addr, regs[1..]);
        }
      }
    }
  }

  lemma {:induction false} AddrsProper(q: Request, log: Log, start: nat, addrs: seq<Byte>, regs: seq<Register>)
    requires Proper(q.oracle, log, start)
    ensures Proper(q.oracle, SearchAddrs(q, log, addrs, regs).log, start)
    decreases |addrs|
  {
    if addrs == [] {
    } else if !q.WantsAddr(addrs[0]) {
      AddrsProper(q, log, start, addrs[1..], regs);
    } else {
      Appended(q.oracle, log, start, Read(addrs[0], 0x00));
      hide Proper, Open, SearchRegs;
      var at := log + [Read(addrs[0], 0x00)];
      RegsProper(q, at, start, addrs[0], regs);
      AddrsProper(q, SearchRegs(q, at, addrs[0], regs).log, start, addrs[1..], regs);
    }
  }

  lemma {:induction false} GroupsProper(q: Request, log: Log, start: nat, groups: seq<Group>)
    requires Proper(q.oracle, log, start)
    ensures Proper(q.oracle, SearchGroups(q, log, groups).log, start)
    decreases |groups|
  {
    hide Proper, SearchAddrs;
    if groups == [] {
    } else {
      AddrsProper(q, log, start, groups[0].addrs, groups[0].regs);
      GroupsProper(q, SearchAddrs(q, log, groups[0].addrs, groups[0].regs).log, start, groups[1..]);
    }
  }

  /** Every transaction of every scan keeps the bus discipline. */
  lemma ScanDisciplined(q: Request, log: Log, groups: seq<Group>)
    ensures var longer := Scan(q, log, groups).log;
            |log| <= |longer| && forall i | |log| <= i < |longer| :: Disciplined(q.oracle, longer, |log|, i)
  {
    hide SearchGroups;
    GroupsProper(q, log, |log|, groups);
    GroupsProper(Unrestricted(q), SearchGroups(q, log, groups).log, |log|, groups);
  }

  // -------------------------------------------------------- how a scan ends

  function IdentityRead(addr: Byte, reg: Byte): Transaction {
    if reg == 0x00 && 0x14 <= addr <= 0x17 then Burst(addr, reg) else Read(addr, reg)
  }

  /** Transaction i is t and was answered with `value`. */
  ghost predicate Told(oracle: Oracle, log: Log, i: int, t: Transaction, value: Byte) {
    0 <= i < |log| && log[i] == t && oracle(log[..i], t) == Some(value)
  }

  /** The log ends where the device was found: the identity just read is that of the first row of r
      to list it, row l, and the ICT magnetometer's second identity was read after it. */
  ghost predicate EndsOn(q: Request, log: Log, hit: Hit, r: Register, l: nat) {
    && l < |r.rows| && hit == Hit(hit.addr, r.reg, r.rows[l].device)
    && (forall m | 0 <= m < l :: r.rows[m].id != r.rows[l].id)
    && var id := IdentityRead(hit.addr, r.reg);
       if q.IctRow(hit.addr, r) then
         && Told(q.oracle, log, |log| - 2, id, r.rows[l].id)
         && Told(q.oracle, log, |log| - 1, Read(hit.addr, ICT_CHIP_ID), ICT_CHIP_ID_VALUE)
       else Told(q.oracle, log, |log| - 1, id, r.rows[l].id)
  }

  ghost predicate EndsAmong(q: Request, log: Log, hit: Hit, regs: seq<Register>) {
    exists k, l: nat :: 0 <= k < |regs| && EndsOn(q, log, hit, regs[k], l)
  }

  lemma {:induction false} FirstRowPlace(rows: seq<Row>, id: Byte) returns (l: nat)
    requires FirstRow(rows, id).Some?
    ensures l < |rows| && FirstRow(rows, id) == Some(rows[l]) && rows[l].id == id
    ensures forall m | 0 <= m < l :: rows[m].id != id
  {
    if rows[0].id == id {
      l := 0;
    } else {
      var m := FirstRowPlace(rows[1..], id);
      l := m + 1;
    }
  }

  lemma IdReadTold(oracle: Oracle, log: Log, addr: Byte, reg: Byte)
    ensures var reply := ReadId(oracle, log, addr, reg);
            reply.id.Some? ==> Told(oracle, reply.log, |reply.log| - 1, IdentityRead(addr, reg), reply.id.value)
  {
    var up := log + [Write(addr, 0x4B, 0x01)];
    assert (up + [Read(addr, reg)])[..|up|] == up;
    assert (log + [Read(addr, reg)])[..|log|] == log && (log + [Burst(addr, reg)])[..|log|] == log;
  }

  lemma ConfirmEnds(q: Request, log: Log, addr: Byte, r: Register, id: Byte)
    requires FirstRow(r.rows, id).Some? && Told(q.oracle, log, |log| - 1, IdentityRead(addr, r.reg), id)
    ensures var end := Confirm(q, log, addr, r, FirstRow(r.rows, id).value);
            end.hit.Some? ==> end.hit.value.addr == addr && EndsAmong(q, end.log, end.hit.value, [r])
  {
    var l := FirstRowPlace(r.rows, id);
    var end := Confirm(q, log, addr, r, r.rows[l]);
    if end.hit.Some? {
      var longer, n := log + [Read(addr, ICT_CHIP_ID)], |log| - 1;
      assert longer[..n] == log[..n] && longer[..|log|] == log;
      assert EndsOn(q, end.log, end.hit.value, [r][0], l);
    }
  }

  lemma EndsLater(q: Request, log: Log, hit: Hit, part: seq<Register>, regs: seq<Register>, at: nat)
    requires EndsAmong(q, log, hit, part) && at + |part| <= |regs| && regs[at..at + |part|] == part
    ensures EndsAmong(q, log, hit, regs)
  {
    var k, l: nat :| 0 <= k < |part| && EndsOn(q, log, hit, part[k], l);
    assert regs[at..at + |part|][k] == regs[at + k];
    assert EndsOn(q, log, hit, regs[at + k], l);
  }

  lemma {:induction false} RegsEnd(q: Request, log: Log, addr: Byte, regs: seq<Register>)
    ensures var end := SearchRegs(q, log, addr, regs);
            end.hit.Some? ==> end.hit.value.addr == addr && EndsAmong(q, end.log, end.hit.value, regs)
    decreases |regs|
  {
    hide EndsAmong, Confirm, ReadId, Told;
    if regs == [] {
    } else {
      var end := SearchRegs(q, log, addr, regs);
      var reply := ReadId(q.oracle, log, addr, regs[0].reg);
      var row := FirstRow(regs[0].rows, if reply.id.Some? then reply.id.value else 0);
      var here := if reply.id.Some? && row.Some? then Confirm(q, reply.log, addr, regs[0], row.value)
                  else Outcome(reply.log, None);
      if q.WantsReg(addr, regs[0]) && here.hit.Some? {
        IdReadTold(q.oracle, log, addr, regs[0].reg);
        ConfirmEnds(q, reply.log, addr, regs[0], reply.id.value);
        EndsLater(q, end.log, end.hit.value, [regs[0]], regs, 0);
      } else {
        var next := if q.WantsReg(addr, regs[0]) then here.log else log;
        RegsEnd(q, next, addr, regs[1..]);
        if end.hit.Some? { EndsLater(q, end.log, end.hit.value, regs[1..], regs, 1); }
      }
    }
  }

  lemma {:induction false} AddrsEnd(q: Request, log: Log, addrs: seq<Byte>, regs: seq<Register>)
    ensures var end := SearchAddrs(q, log, addrs, regs);
            end.hit.Some? ==> end.hit.value.addr in addrs && EndsAmong(q, end.log, end.hit.value, regs)
    decreases |addrs|
  {
    hide SearchRegs, EndsAmong;
    if addrs == [] {
    } else if !q.WantsAddr(addrs[0]) {
      AddrsEnd(q, log, addrs[1..], regs);
    } else {
      var at := log + [Read(addrs[0], 0x00)];
      RegsEnd(q, at, addrs[0], regs);
      AddrsEnd(q, SearchRegs(q, at, addrs[0], regs).log, addrs[1..], regs);
    }
  }

  lemma {:induction false} GroupsEnd(q: Request, log: Log, groups: seq<Group>)
    ensures var end := SearchGroups(q, log, groups);
            end.hit.Some? ==>
              exists g <- groups :: end.hit.value.addr in g.addrs && EndsAmong(q, end.log, end.hit.value, g.regs)
    decreases |groups|
  {
    hide SearchAddrs, EndsAmong;
    if groups == [] {
    } else {
      AddrsEnd(q, log, groups[0].addrs, groups[0].regs);
      GroupsEnd(q, SearchAddrs(q, log, groups[0].addrs, groups[0].regs).log, groups[1..]);
    }
  }

  /** A scan that reports a device stops on the very answers that identified it: at an address of
      the group and a register of it, the first row that lists the identity read. */
  lemma ScanEndsOnDevice(q: Request, log: Log, groups: seq<Group>)
    ensures var end := Scan(q, log, groups);
            end.hit.Some? ==>
              exists g <- groups :: end.hit.value.addr in g.addrs && EndsAmong(q, end.log, end.hit.value, g.regs)
  {
    hide SearchGroups, EndsAmong;
    GroupsEnd(q, log, groups);
    var all, first := Unrestricted(q), SearchGroups(q, log, groups);
    GroupsEnd(all, first.log, groups);
    var end := SearchGroups(all, first.log, groups);
    if end.hit.Some? {
      forall g <- groups | EndsAmong(all, end.log, end.hit.value, g.regs)
        ensures EndsAmong(q, end.log, end.hit.value, g.regs)
      {
        SameEnds(q, end.log, end.hit.value, g.regs);
      }
    }
  }

  lemma SameEnds(q: Request, log: Log, hit: Hit, regs: seq<Register>)
    requires EndsAmong(Unrestricted(q), log, hit, regs)
    ensures EndsAmong(q, log, hit, regs)
  {
    var k, l: nat :| 0 <= k < |regs| && EndsOn(Unrestricted(q), log, hit, regs[k], l);
    assert EndsOn(q, log, hit, regs[k], l);
  }
}
