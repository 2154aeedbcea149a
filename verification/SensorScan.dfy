/** The scan as the firmware runs it: four cursors over the packed tables. */
module SensorScan {
  import opened Integers
  import opened Sequences
  import opened Wrappers
  import opened SensorTable

  /** `part` stands in `s` from index `i` on. */
  ghost predicate At(s: seq<int>, i: nat, part: seq<int>) {
    i + |part| <= |s| && s[i..i + |part|] == part
  }

  lemma AtSplit(s: seq<int>, i: nat, a: seq<int>, b: seq<int>)
    requires At(s, i, a + b)
    ensures At(s, i, a) && At(s, i + |a|, b)
  {
    assert s[i..i + |a|] == (a + b)[..|a|];
    assert s[i + |a|..i + |a| + |b|] == (a + b)[|a|..];
  }

  lemma AtIndex(s: seq<int>, i: nat, part: seq<int>, k: nat)
    requires At(s, i, part) && k < |part|
    ensures i + k < |s| && s[i + k] == part[k]
  {
    assert s[i..i + |part|][k] == s[i + k];
  }

  /** The cursors' four positions while they stand on the first of `regs`. */
  ghost predicate OnRegister(tables: Tables, regs: seq<Register>, regIndex: nat, idCount: int, idIndex: nat,
                             found: nat)
  {
    regs != [] ==>
      && At(tables.reg, regIndex, Regs(regs))
      && idCount == |regs[0].rows|
      && At(tables.id, idIndex, Ids(regs[0].rows))
      && At(tables.id, idIndex + |regs[0].rows|, PackRegIds(regs[1..]))
      && At(tables.device, found, Devices(regs[0].rows))
      && At(tables.device, found + |regs[0].rows|, PackRegDevices(regs[1..]))
  }

  /** The packed arrays; a count or byte in each cell. */
  datatype Tables = Tables(addr: seq<int>, reg: seq<int>, id: seq<int>, device: seq<int>)

  ghost predicate Packs(tables: Tables, groups: seq<Group>) {
    Packable(groups) && OnGroups(tables, groups, 0, 0, 0, 0)
  }

  ghost predicate OnGroups(tables: Tables, groups: seq<Group>, addrIndex: nat, regIndex: nat, idIndex: nat,
                           found: nat)
  {
    && At(tables.addr, addrIndex, PackAddrs(groups)) && At(tables.reg, regIndex, PackRegs(groups))
    && At(tables.id, idIndex, PackIds(groups)) && At(tables.device, found, PackDevices(groups))
  }

  lemma HeadRegister(tables: Tables, regs: seq<Register>, regIndex: nat, idCount: int, idIndex: nat, found: nat)
    requires regs != [] && OnRegister(tables, regs, regIndex, idCount, idIndex, found)
    ensures regIndex < |tables.reg| && tables.reg[regIndex] == regs[0].reg && idCount == |regs[0].rows|
    ensures At(tables.id, idIndex, Ids(regs[0].rows)) && At(tables.device, found, Devices(regs[0].rows))
  {
    AtIndex(tables.reg, regIndex, Regs(regs), 0);
  }

  lemma OffRegisters(tables: Tables, regIndex: nat, idCount: int, idIndex: nat, found: nat)
    ensures OnRegister(tables, [], regIndex, idCount, idIndex, found)
  {
  }

  /** Stepping past the first register puts the cursors on the second. */
  lemma NextRegister(tables: Tables, regs: seq<Register>, regIndex: nat, idIndex: nat, found: nat)
    requires |regs| > 1 && OnRegister(tables, regs, regIndex, |regs[0].rows|, idIndex, found)
    ensures var on := idIndex + |regs[0].rows|;
            && on < |tables.id| && tables.id[on] == |regs[1].rows|
            && OnRegister(tables, regs[1..], regIndex + 1, |regs[1].rows|, on + 1, found + |regs[0].rows|)
  {
    hide At;
    var rest, on := regs[1..], idIndex + |regs[0].rows|;
    assert Regs(regs) == [regs[0].reg] + Regs(rest);
    AtSplit(tables.reg, regIndex, [regs[0].reg], Regs(rest));
    CountedHead(tables.id, on, Ids(rest[0].rows), PackRegIds(rest[1..]));
    AtSplit(tables.device, found + |regs[0].rows|, Devices(rest[0].rows), PackRegDevices(rest[1..]));
  }

  lemma EnterAddrs(s: seq<int>, groups: seq<Group>, i: nat)
    requires groups != [] && At(s, i, PackAddrs(groups))
    ensures var addrs := groups[0].addrs;
            i < |s| && s[i] == |addrs| && At(s, i + 1, addrs) && At(s, i + 1 + |addrs|, PackAddrs(groups[1..]))
  {
    hide At;
    CountedHead(s, i, groups[0].addrs, PackAddrs(groups[1..]));
  }

  lemma EnterRegs(s: seq<int>, groups: seq<Group>, i: nat)
    requires groups != [] && At(s, i, PackRegs(groups))
    ensures var regs := groups[0].regs;
            i < |s| && s[i] == |regs| && At(s, i + 1, Regs(regs)) && At(s, i + 1 + |regs|, PackRegs(groups[1..]))
  {
    hide At;
    CountedHead(s, i, Regs(groups[0].regs), PackRegs(groups[1..]));
  }

  lemma EnterIds(s: seq<int>, regs: seq<Register>, i: nat, rest: seq<int>)
    requires regs != [] && At(s, i, PackRegIds(regs) + rest)
    ensures var rows := regs[0].rows;
            i < |s| && s[i] == |rows| && At(s, i + 1, Ids(rows)) && At(s, i + 1 + |rows|, PackRegIds(regs[1..]))
  {
    hide At;
    AtSplit(s, i, PackRegIds(regs), rest);
    CountedHead(s, i, Ids(regs[0].rows), PackRegIds(regs[1..]));
  }

  lemma EnterDevices(s: seq<int>, regs: seq<Register>, i: nat, rest: seq<int>)
    requires regs != [] && At(s, i, PackRegDevices(regs) + rest)
    ensures At(s, i, Devices(regs[0].rows)) && At(s, i + |regs[0].rows|, PackRegDevices(regs[1..]))
  {
    hide At;
    AtSplit(s, i, PackRegDevices(regs), rest);
    AtSplit(s, i, Devices(regs[0].rows), PackRegDevices(regs[1..]));
  }

  /** Entering a group: its counts are read and the cursors stand on its first address and register. */
  lemma EnterGroup(tables: Tables, groups: seq<Group>, addrIndex: nat, regIndex: nat, idIndex: nat, found: nat)
    requires groups != [] && groups[0].regs != []
    requires OnGroups(tables, groups, addrIndex, regIndex, idIndex, found)
    ensures var g := groups[0];
            && addrIndex < |tables.addr| && tables.addr[addrIndex] == |g.addrs|
            && regIndex < |tables.reg| && tables.reg[regIndex] == |g.regs|
            && idIndex < |tables.id| && tables.id[idIndex] == |g.regs[0].rows|
            && At(tables.addr, addrIndex + 1, g.addrs)
            && At(tables.addr, addrIndex + 1 + |g.addrs|, PackAddrs(groups[1..]))
            && At(tables.reg, regIndex + 1 + |g.regs|, PackRegs(groups[1..]))
            && OnRegister(tables, g.regs, regIndex + 1, |g.regs[0].rows|, idIndex + 1, found)
            && At(tables.id, idIndex, PackRegIds(g.regs) + PackIds(groups[1..]))
            && At(tables.device, found, PackRegDevices(g.regs) + PackDevices(groups[1..]))
  {
    hide At, PackAddrs, PackRegs, PackRegIds, PackRegDevices;
    EnterAddrs(tables.addr, groups, addrIndex);
    EnterRegs(tables.reg, groups, regIndex);
    EnterIds(tables.id, groups[0].regs, idIndex, PackIds(groups[1..]));
    EnterDevices(tables.device, groups[0].regs, found, PackDevices(groups[1..]));
  }

  lemma CountedHead(s: seq<int>, i: nat, part: seq<int>, rest: seq<int>)
    requires At(s, i, [|part|] + part + rest)
    ensures i < |s| && s[i] == |part| && At(s, i + 1, part) && At(s, i + 1 + |part|, rest)
  {
    assert [|part|] + part + rest == [|part|] + (part + rest);
    AtSplit(s, i, [|part|], part + rest);
    AtIndex(s, i, [|part|], 0);
    AtSplit(s, i + 1, part, rest);
  }

  lemma SkipRegister(tables: Tables, regs: seq<Register>, idIndex: nat, found: nat, ids: seq<int>, devices: seq<int>)
    requires regs != []
    requires At(tables.id, idIndex, PackRegIds(regs) + ids) && At(tables.device, found, PackRegDevices(regs) + devices)
    ensures idIndex < |tables.id| && tables.id[idIndex] == |regs[0].rows|
    ensures At(tables.id, idIndex + 1 + |regs[0].rows|, PackRegIds(regs[1..]) + ids)
    ensures At(tables.device, found + |regs[0].rows|, PackRegDevices(regs[1..]) + devices)
  {
    hide At;
    var n, more := Ids(regs[0].rows), regs[1..];
    Regroup([|n|] + n, PackRegIds(more), ids);
    CountedHead(tables.id, idIndex, n, PackRegIds(more) + ids);
    Regroup(Devices(regs[0].rows), PackRegDevices(more), devices);
    AtSplit(tables.device, found, Devices(regs[0].rows), PackRegDevices(more) + devices);
  }

  class Scanner {
    const oracle: Oracle
    const ict: bool
    /** Every bus transaction so far. */
    var log: Log
    /** The device's address and register, written back by a scan. */
    var addr: Byte
    var reg: Byte

    constructor (oracle: Oracle, ict: bool, addr: Byte, reg: Byte)
      ensures this.oracle == oracle && this.ict == ict && this.addr == addr && this.reg == reg && log == []
    {
      this.oracle, this.ict, this.addr, this.reg, log := oracle, ict, addr, reg, [];
    }

    ghost function Wanted(): Request
      reads this`addr, this`reg
    {
      Request(oracle, ict, addr, reg)
    }

    method Transfer(t: Transaction) returns (value: Option<Byte>)
      modifies this`log
      ensures Reply(log, value) == Ask(oracle, old(log), t)
    {
      value := oracle(log, t);
      log := log + [t];
    }

    method ReadIdentity(a: Byte, r: Byte) returns (id: Option<Byte>)
      modifies this`log
      ensures Reply(log, id) == ReadId(oracle, old(log), a, r)
    {
      if r == 0x40 && 0x10 <= a <= 0x13 {
        var up := Transfer(Write(a, 0x4B, 0x01));
        if up.None? {
          return None;
        }
      }
      if r == 0x00 && 0x14 <= a <= 0x17 {
        id := Transfer(Burst(a, r));
      } else {
        id := Transfer(Read(a, r));
      }
    }

    /** The index of the first listed identity equal to `id`. */
    method FindId(tables: Tables, ghost rows: seq<Row>, idCount: nat, idIndex: nat, id: Byte)
      returns (found: Option<nat>)
      requires idCount == |rows| && At(tables.id, idIndex, Ids(rows))
      ensures found.Some? ==> found.value < |rows| && FirstRow(rows, id) == Some(rows[found.value])
      ensures found.None? ==> FirstRow(rows, id) == None
    {
      var l := 0;
      while l < idCount
        invariant l <= idCount
        invariant FirstRow(rows, id) == FirstRow(rows[l..], id)
      {
        AtIndex(tables.id, idIndex, Ids(rows), l);
        if id == tables.id[idIndex + l] {
          return Some(l);
        }
        l := l + 1;
      }
      return None;
    }

    /** One wanted register: whether the bus failed, and the device found there. */
    method ProbeRegister(tables: Tables, a: Byte, ghost r: Register, reg: Byte, ictProbe: bool,
                         idCount: nat, idIndex: nat, found: nat) returns (failed: bool, device: Option<int>)
      requires reg == r.reg && idCount == |r.rows| && ictProbe == Wanted().IctRow(a, r)
      requires At(tables.id, idIndex, Ids(r.rows)) && At(tables.device, found, Devices(r.rows))
      modifies this`log, this`addr, this`reg
      ensures var reply := ReadId(oracle, old(log), a, r.reg);
              failed == reply.id.None?
              && if failed then log == reply.log && device.None?
                 else var row := FirstRow(r.rows, reply.id.value);
                      if row.None? then log == reply.log && device.None?
                      else Told(Confirm(old(Wanted()), reply.log, a, r, row.value), device)
      ensures device.None? ==> addr == old(addr) && this.reg == old(this.reg)
    {
      var id := ReadIdentity(a, reg);
      if id.None? {
        return true, None;
      }
      failed := false;
      var l := FindId(tables, r.rows, idCount, idIndex, id.value);
      if l.None? {
        return false, None;
      }
      if ictProbe {
        var chip := Transfer(Read(a, ICT_CHIP_ID));
        if chip != Some(ICT_CHIP_ID_VALUE) {
          return false, None;
        }
      }
      AtIndex(tables.device, found, Devices(r.rows), l.value);
      addr, this.reg := a, reg;
      device := Some(tables.device[found + l.value]);
    }

    /** The log is the search's, and a hit was returned and written back. */
    ghost predicate Told(end: Outcome, device: Option<int>)
      reads this
    {
      && log == end.log && device.Some? == end.hit.Some?
      && (end.hit.Some? ==> end.hit.value == Hit(addr, reg, device.value))
    }

    /** All registers of one address. */
    method ScanAddress(tables: Tables, a: Byte, ghost regs: seq<Register>, regCount: nat, regIndex: nat,
                       idCount: nat, idIndex: nat, found: nat) returns (device: Option<int>)
      requires regs != [] && regCount == |regs|
      requires OnRegister(tables, regs, regIndex, idCount, idIndex, found)
      modifies this`log, this`addr, this`reg
      ensures Told(SearchRegs(old(Wanted()), old(log), a, regs), device)
      ensures device.None? ==> addr == old(addr) && reg == old(reg)
    {
      hide Confirm, ReadId, OnRegister, At;
      ghost var q := Wanted();
      var idCnt: nat, idInd: nat, fndId: nat, k := idCount, idIndex, found, 0;
      while k < regCount
        invariant k <= regCount && Wanted() == q
        invariant OnRegister(tables, regs[k..], regIndex + k, idCnt, idInd, fndId)
        invariant SearchRegs(q, old(log), a, regs) == SearchRegs(q, log, a, regs[k..])
      {
        ghost var rest := regs[k..];
        assert rest[1..] == regs[k + 1..];
        HeadRegister(tables, rest, regIndex + k, idCnt, idInd, fndId);
        var r := tables.reg[regIndex + k];
        var ictProbe := ict && a == ICT_ADDR && r == ICT_MANU_ID && idCnt == 1
                        && IsIctRow(tables, rest[0], idInd, fndId);
        if reg == ANY_REG || reg == r || (ictProbe && (reg == 0x0A || reg == 0x0F || reg == 0x4F)) {
          var failed;
          failed, device := ProbeRegister(tables, a, rest[0], r, ictProbe, idCnt, idInd, fndId);
          if device.Some? {
            return;
          }
          if failed {
            return None;
          }
        }
        if k + 1 < regCount {
          NextRegister(tables, rest, regIndex + k, idInd, fndId);
          idInd := idInd + idCnt;
          fndId := fndId + idCnt;
          idCnt := tables.id[idInd];
          idInd := idInd + 1;
        } else {
          OffRegisters(tables, regIndex + k + 1, idCnt, idInd, fndId);
        }
        k := k + 1;
      }
      return None;
    }

    static predicate IsIctRow(tables: Tables, ghost r: Register, idIndex: nat, found: nat)
      requires |r.rows| == 1
      requires At(tables.id, idIndex, Ids(r.rows)) && At(tables.device, found, Devices(r.rows))
      ensures IsIctRow(tables, r, idIndex, found) <==> r.rows == [Row(ICT_MANU_ID_VALUE, MAG_ICT153XX)]
    {
      AtIndex(tables.id, idIndex, Ids(r.rows), 0);
      AtIndex(tables.device, found, Devices(r.rows), 0);
      tables.id[idIndex] == ICT_MANU_ID_VALUE && tables.device[found] == MAG_ICT153XX
    }

    /** All addresses of one group. */
    method ScanGroup(tables: Tables, ghost g: Group, addrCount: nat, addrIndex: nat, regCount: nat, regIndex: nat,
                     idCount: nat, idIndex: nat, found: nat) returns (device: Option<int>)
      requires g.regs != [] && regCount == |g.regs| && addrCount == |g.addrs|
      requires At(tables.addr, addrIndex, g.addrs)
      requires OnRegister(tables, g.regs, regIndex, idCount, idIndex, found)
      modifies this`log, this`addr, this`reg
      ensures Told(SearchAddrs(old(Wanted()), old(log), g.addrs, g.regs), device)
      ensures device.None? ==> addr == old(addr) && reg == old(reg)
    {
      hide SearchRegs;
      ghost var q := Wanted();
      var j := 0;
      while j < addrCount
        invariant j <= addrCount && Wanted() == q
        invariant SearchAddrs(q, old(log), g.addrs, g.regs) == SearchAddrs(q, log, g.addrs[j..], g.regs)
      {
        AtIndex(tables.addr, addrIndex, g.addrs, j);
        var a: Byte := tables.addr[addrIndex + j];
        assert g.addrs[j..][1..] == g.addrs[j + 1..];
        j := j + 1;
        if Preferred(addr) && a != addr {
          continue;
        }
        var dummy := Transfer(Read(a, 0x00));
        device := ScanAddress(tables, a, g.regs, regCount, regIndex, idCount, idIndex, found);
        if device.Some? {
          return;
        }
      }
      return None;
    }

    /** One pass over every group. */
    method ScanGroups(tables: Tables, ghost groups: seq<Group>, count: nat) returns (device: Option<int>)
      requires Packs(tables, groups) && count == |groups|
      modifies this`log, this`addr, this`reg
      ensures Told(SearchGroups(old(Wanted()), old(log), groups), device)
      ensures device.None? ==> addr == old(addr) && reg == old(reg)
    {
      hide SearchAddrs, At, OnRegister;
      ghost var q := Wanted();
      var addrIndex: nat, regIndex: nat, idIndex: nat, found: nat, i := 0, 0, 0, 0, 0;
      while i < count
        invariant i <= count && Wanted() == q
        invariant OnGroups(tables, groups[i..], addrIndex, regIndex, idIndex, found)
        invariant SearchGroups(q, old(log), groups) == SearchGroups(q, log, groups[i..])
      {
        ghost var g, rest := groups[i], groups[i..];
        assert g in groups && rest[0] == g && rest[1..] == groups[i + 1..];
        EnterGroup(tables, rest, addrIndex, regIndex, idIndex, found);
        var addrCount, regCount, idCount := tables.addr[addrIndex], tables.reg[regIndex], tables.id[idIndex];
        device := ScanGroup(tables, g, addrCount, addrIndex + 1, regCount, regIndex + 1, idCount, idIndex + 1, found);
        if device.Some? {
          return;
        }
        idIndex, found :=
          SkipRegisters(tables, g.regs, regCount, idIndex, found, PackIds(rest[1..]), PackDevices(rest[1..]));
        addrIndex := addrIndex + 1 + addrCount;
        regIndex := regIndex + 1 + regCount;
        i := i + 1;
      }
      return None;
    }

    /** Moves the identity and device cursors past all of a group's registers. */
    static method SkipRegisters(tables: Tables, ghost regs: seq<Register>, regCount: nat, idIndex: nat, found: nat,
                                ghost ids: seq<int>, ghost devices: seq<int>) returns (nextId: nat, nextFound: nat)
      requires regs != [] && regCount == |regs|
      requires At(tables.id, idIndex, PackRegIds(regs) + ids)
      requires At(tables.device, found, PackRegDevices(regs) + devices)
      ensures At(tables.id, nextId, ids) && At(tables.device, nextFound, devices)
    {
      hide At;
      SkipRegister(tables, regs, idIndex, found, ids, devices);
      var idCount := tables.id[idIndex];
      nextId, nextFound := idIndex + 1 + idCount, found + idCount;
      var j := 1;
      while j < regCount
        invariant 1 <= j <= regCount
        invariant At(tables.id, nextId, PackRegIds(regs[j..]) + ids)
        invariant At(tables.device, nextFound, PackRegDevices(regs[j..]) + devices)
      {
        SkipRegister(tables, regs[j..], nextId, nextFound, ids, devices);
        assert regs[j..][1..] == regs[j + 1..];
        idCount := tables.id[nextId];
        nextId, nextFound := nextId + 1 + idCount, nextFound + idCount;
        j := j + 1;
      }
      assert [] + ids == ids && [] + devices == devices;
    }

    /** The packed walk makes the nested search's transactions and reports its result; the retry
        after a failed preference happens at most once. */
    method SensorScanI2c(tables: Tables, ghost groups: seq<Group>, count: nat) returns (device: int)
      requires Packs(tables, groups) && count == |groups|
      modifies this`log, this`addr, this`reg
      ensures var end := Scan(old(Wanted()), old(log), groups);
              && log == end.log
              && (end.hit.Some? ==> end.hit.value == Hit(addr, reg, device))
              && (end.hit.None? ==> device == -1 && addr >= 0x7F
                                    && (old(addr) < 0x7F ==> addr == IGNORED && reg == ANY_REG)
                                    && (old(addr) >= 0x7F ==> addr == old(addr) && reg == old(reg)))
      decreases if Preferred(addr) || reg != ANY_REG then 1 else 0
    {
      hide SearchGroups;
      if addr >= 0x7F {
        return -1;
      }
      var found := ScanGroups(tables, groups, count);
      if found.Some? {
        return found.value;
      }
      if Preferred(addr) || reg != ANY_REG {
        addr := 0;
        reg := ANY_REG;
        device := SensorScanI2c(tables, groups, count);
        return;
      }
      addr := IGNORED;
      return -1;
    }
  }
}
