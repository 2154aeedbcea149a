/** The sensor tables as nested lists, the search they describe, and their packed encoding. */
module SensorTable {
  import opened Integers
  import opened Wrappers

  const ADDR_START: Byte := 8
  const ADDR_STOP: Byte := 0x7E
  const ANY_REG: Byte := 0xFF
  const IGNORED: Byte := 0xFF
  const ICT_ADDR: Byte := 0x1E
  const ICT_MANU_ID: Byte := 0x00
  const ICT_MANU_ID_VALUE: Byte := 0xE7
  const ICT_CHIP_ID: Byte := 0x01
  const ICT_CHIP_ID_VALUE: Byte := 0x45
  const MAG_ICT153XX: int := 20

  datatype Row = Row(id: Byte, device: int)
  datatype Register = Register(reg: Byte, rows: seq<Row>)
  datatype Group = Group(addrs: seq<Byte>, regs: seq<Register>)

  // ------------------------------------------------------------- the device

  datatype Transaction =
    | Read(addr: Byte, reg: Byte)
    | Burst(addr: Byte, reg: Byte)
    | Write(addr: Byte, reg: Byte, value: Byte)

  type Log = seq<Transaction>

  /** What the bus answers may depend on everything asked before; None is a bus error. */
  type Oracle = (Log, Transaction) -> Option<Byte>

  /** What to look for: `addr` and `reg` narrow the search when they name one. */
  datatype Request = Request(oracle: Oracle, ict: bool, addr: Byte, reg: Byte) {
    predicate WantsAddr(a: Byte) { Preferred(addr) ==> a == addr }

    predicate IctRow(a: Byte, r: Register) {
      ict && a == ICT_ADDR && r.reg == ICT_MANU_ID && r.rows == [Row(ICT_MANU_ID_VALUE, MAG_ICT153XX)]
    }

    predicate WantsReg(a: Byte, r: Register) {
      reg == ANY_REG || reg == r.reg || (IctRow(a, r) && (reg == 0x0A || reg == 0x0F || reg == 0x4F))
    }
  }

  predicate Preferred(addr: Byte) {
    ADDR_START <= addr <= ADDR_STOP
  }

  datatype Hit = Hit(addr: Byte, reg: Byte, device: int)
  datatype Outcome = Outcome(log: Log, hit: Option<Hit>)
  datatype Reply = Reply(log: Log, id: Option<Byte>)

  function Ask(oracle: Oracle, log: Log, t: Transaction): Reply {
    Reply(log + [t], oracle(log, t))
  }

  /** Reads the identity register, with the power-up and dummy bytes two magnetometers need. */
  function ReadId(oracle: Oracle, log: Log, addr: Byte, reg: Byte): Reply {
    var up := if reg == 0x40 && 0x10 <= addr <= 0x13 then Ask(oracle, log, Write(addr, 0x4B, 0x01))
              else Reply(log, Some(0));
    if up.id.None? then up
    else if reg == 0x00 && 0x14 <= addr <= 0x17 then Ask(oracle, up.log, Burst(addr, reg))
    else Ask(oracle, up.log, Read(addr, reg))
  }

  // ------------------------------------------------------------- the search

  function FirstRow(rows: seq<Row>, id: Byte): (found: Option<Row>)
    ensures found.Some? ==> found.value in rows && found.value.id == id
    ensures found.None? ==> forall r <- rows :: r.id != id
  {
    if rows == [] then None else if rows[0].id == id then Some(rows[0]) else FirstRow(rows[1..], id)
  }

  /** A match on the ICT row counts only if the chip identity agrees. */
  function Confirm(q: Request, log: Log, addr: Byte, r: Register, row: Row): Outcome {
    var hit := Some(Hit(addr, r.reg, row.device));
    if q.IctRow(addr, r) then
      var chip := Ask(q.oracle, log, Read(addr, ICT_CHIP_ID));
      Outcome(chip.log, if chip.id == Some(ICT_CHIP_ID_VALUE) then hit else None)
    else Outcome(log, hit)
  }

  /** One address: registers in order, giving up on the address at the first bus error. */
  function SearchRegs(q: Request, log: Log, addr: Byte, regs: seq<Register>): Outcome
    decreases |regs|
  {
    if regs == [] then Outcome(log, None)
    else if !q.WantsReg(addr, regs[0]) then SearchRegs(q, log, addr, regs[1..])
    else
      var reply := ReadId(q.oracle, log, addr, regs[0].reg);
      if reply.id.None? then Outcome(reply.log, None)
      else
        var row := FirstRow(regs[0].rows, reply.id.value);
        if row.None? then SearchRegs(q, reply.log, addr, regs[1..])
        else
          var end := Confirm(q, reply.log, addr, regs[0], row.value);
          if end.hit.Some? then end else SearchRegs(q, end.log, addr, regs[1..])
  }

  function SearchAddrs(q: Request, log: Log, addrs: seq<Byte>, regs: seq<Register>): Outcome
    decreases |addrs|
  {
    if addrs == [] then Outcome(log, None)
    else if !q.WantsAddr(addrs[0]) then SearchAddrs(q, log, addrs[1..], regs)
    else
      var end := SearchRegs(q, log + [Read(addrs[0], 0x00)], addrs[0], regs);
      if end.hit.Some? then end else SearchAddrs(q, end.log, addrs[1..], regs)
  }

  function SearchGroups(q: Request, log: Log, groups: seq<Group>): Outcome
    decreases |groups|
  {
    if groups == [] then Outcome(log, None)
    else
      var end := SearchAddrs(q, log, groups[0].addrs, groups[0].regs);
      if end.hit.Some? then end else SearchGroups(q, end.log, groups[1..])
  }

  /** A whole scan: an ignored device is left alone; a preference that fails is dropped, once. */
  function Scan(q: Request, log: Log, groups: seq<Group>): Outcome {
    if q.addr >= 0x7F then Outcome(log, None)
    else
      var first := SearchGroups(q, log, groups);
      if first.hit.None? && (Preferred(q.addr) || q.reg != ANY_REG)
      then SearchGroups(Unrestricted(q), first.log, groups)
      else first
  }

  // ----------------------------------------------------------- the encoding

  ghost predicate Packable(groups: seq<Group>) {
    forall g <- groups :: |g.addrs| < 256 && 1 <= |g.regs| < 256 && forall r <- g.regs :: |r.rows| < 256
  }

  function Ids(rows: seq<Row>): (s: seq<Byte>)
    ensures |s| == |rows| && forall i | 0 <= i < |rows| :: s[i] == rows[i].id
  {
    seq(|rows|, i requires 0 <= i < |rows| => rows[i].id)
  }

  function Devices(rows: seq<Row>): (s: seq<int>)
    ensures |s| == |rows| && forall i | 0 <= i < |rows| :: s[i] == rows[i].device
  {
    seq(|rows|, i requires 0 <= i < |rows| => rows[i].device)
  }

  function Regs(regs: seq<Register>): (s: seq<Byte>)
    ensures |s| == |regs| && forall i | 0 <= i < |regs| :: s[i] == regs[i].reg
  {
    seq(|regs|, i requires 0 <= i < |regs| => regs[i].reg)
  }

  function PackRegIds(regs: seq<Register>): seq<int> {
    if regs == [] then [] else [|regs[0].rows|] + Ids(regs[0].rows) + PackRegIds(regs[1..])
  }

  function PackRegDevices(regs: seq<Register>): seq<int> {
    if regs == [] then [] else Devices(regs[0].rows) + PackRegDevices(regs[1..])
  }

  function PackAddrs(groups: seq<Group>): seq<int> {
    if groups == [] then [] else [|groups[0].addrs|] + groups[0].addrs + PackAddrs(groups[1..])
  }

  function PackRegs(groups: seq<Group>): seq<int> {
    if groups == [] then [] else [|groups[0].regs|] + Regs(groups[0].regs) + PackRegs(groups[1..])
  }

  function PackIds(groups: seq<Group>): seq<int> {
    if groups == [] then [] else PackRegIds(groups[0].regs) + PackIds(groups[1..])
  }

  function PackDevices(groups: seq<Group>): seq<int> {
    if groups == [] then [] else PackRegDevices(groups[0].regs) + PackDevices(groups[1..])
  }

  // ------------------------------------------------ what the search promises

  ghost predicate Listed(groups: seq<Group>, hit: Hit, id: Byte) {
    exists g <- groups, r <- g.regs ::
      hit.addr in g.addrs && hit.reg == r.reg && Row(id, hit.device) in r.rows
  }

  ghost predicate Extends(longer: Log, log: Log) {
    |log| <= |longer| && longer[..|log|] == log
  }

  /** Somewhere in the log the reported device answered the identity its row lists. */
  ghost predicate Answered(q: Request, log: Log, hit: Hit, id: Byte) {
    exists i :: 0 <= i < |log| && AnsweredAt(q, log, hit, id, i)
  }

  ghost predicate AnsweredAt(q: Request, log: Log, hit: Hit, id: Byte, i: nat)
    requires i < |log|
  {
    && (log[i] == Read(hit.addr, hit.reg) || log[i] == Burst(hit.addr, hit.reg))
    && q.oracle(log[..i], log[i]) == Some(id)
  }

  lemma ReadIdAnswers(q: Request, log: Log, addr: Byte, reg: Byte)
    ensures var reply := ReadId(q.oracle, log, addr, reg);
            && Extends(reply.log, log)
            && (reply.id.Some? ==> forall d: int :: Answered(q, reply.log, Hit(addr, reg, d), reply.id.value))
  {
    var reply := ReadId(q.oracle, log, addr, reg);
    if reply.id.Some? {
      forall d: int ensures Answered(q, reply.log, Hit(addr, reg, d), reply.id.value) {
        var i := |reply.log| - 1;
        assert AnsweredAt(q, reply.log, Hit(addr, reg, d), reply.id.value, i);
      }
    }
  }

  lemma AnsweredStays(q: Request, log: Log, longer: Log, hit: Hit, id: Byte)
    requires Answered(q, log, hit, id) && Extends(longer, log)
    ensures Answered(q, longer, hit, id)
  {
    var i :| 0 <= i < |log| && AnsweredAt(q, log, hit, id, i);
    assert longer[..i] == log[..i];
    assert AnsweredAt(q, longer, hit, id, i);
  }

  ghost predicate GoodHit(q: Request, log: Log, regs: seq<Register>, hit: Hit) {
    exists r <- regs, row <- r.rows ::
      hit.reg == r.reg && hit.device == row.device && Answered(q, log, hit, row.id)
  }

  lemma {:induction false} RegsSound(q: Request, log: Log, addr: Byte, regs: seq<Register>)
    ensures var end := SearchRegs(q, log, addr, regs);
            && Extends(end.log, log)
            && (end.hit.Some? ==> end.hit.value.addr == addr && GoodHit(q, end.log, regs, end.hit.value))
    decreases |regs|
  {
    if regs == [] {
    } else {
      if q.WantsReg(addr, regs[0]) {
        var reply := ReadId(q.oracle, log, addr, regs[0].reg);
        ReadIdAnswers(q, log, addr, regs[0].reg);
        if reply.id.Some? {
          var row := FirstRow(regs[0].rows, reply.id.value);
          if row.None? {
            RegsSound(q, reply.log, addr, regs[1..]);
          } else {
            var end := Confirm(q, reply.log, addr, regs[0], row.value);
            if end.hit.Some? {
              AnsweredStays(q, reply.log, end.log, end.hit.value, row.value.id);
            } else {
              RegsSound(q, end.log, addr, regs[1..]);
            }
          }
        }
      } else {
        RegsSound(q, log, addr, regs[1..]);
      }
    }
  }

  lemma {:induction false} AddrsSound(q: Request, log: Log, addrs: seq<Byte>, regs: seq<Register>)
    ensures var end := SearchAddrs(q, log, addrs, regs);
            && Extends(end.log, log)
            && (end.hit.Some? ==> end.hit.value.addr in addrs && GoodHit(q, end.log, regs, end.hit.value))
    decreases |addrs|
  {
    hide SearchRegs, GoodHit;
    if addrs == [] {
    } else {
      if q.WantsAddr(addrs[0]) {
        RegsSound(q, log + [Read(addrs[0], 0x00)], addrs[0], regs);
        var end := SearchRegs(q, log + [Read(addrs[0], 0x00)], addrs[0], regs);
        AddrsSound(q, end.log, addrs[1..], regs);
      } else {
        AddrsSound(q, log, addrs[1..], regs);
      }
    }
  }

  /** A reported device is a row of the table, at one of its group's addresses, and it answered
      with the identity that row lists. */
  lemma {:induction false} SearchSound(q: Request, log: Log, groups: seq<Group>)
    ensures var end := SearchGroups(q, log, groups);
            && Extends(end.log, log)
            && (end.hit.Some? ==>
                  exists g <- groups :: end.hit.value.addr in g.addrs && GoodHit(q, end.log, g.regs, end.hit.value))
    decreases |groups|
  {
    hide SearchAddrs, GoodHit;
    if groups == [] {
    } else {
      AddrsSound(q, log, groups[0].addrs, groups[0].regs);
      SearchSound(q, SearchAddrs(q, log, groups[0].addrs, groups[0].regs).log, groups[1..]);
    }
  }

  // ---------------------------------------------------------- completeness

  /** Whatever was asked before, this address answers every identity read of the group. */
  ghost predicate Responds(q: Request, addr: Byte, regs: seq<Register>) {
    forall log: Log, r <- regs :: ReadId(q.oracle, log, addr, r.reg).id.Some?
  }

  /** Some wanted register answers, always, with an identity one of its rows lists; on the ICT row
      the chip identity agrees as well. */
  ghost predicate Present(q: Request, addr: Byte, regs: seq<Register>) {
    exists r <- regs :: PresentAt(q, addr, r)
  }

  ghost predicate PresentAt(q: Request, addr: Byte, r: Register) {
    q.WantsReg(addr, r) && Identifies(q, addr, r) && (q.IctRow(addr, r) ==> ChipAgrees(q, addr))
  }

  ghost predicate ChipAgrees(q: Request, addr: Byte) {
    forall log: Log :: q.oracle(log, Read(addr, ICT_CHIP_ID)) == Some(ICT_CHIP_ID_VALUE)
  }

  ghost predicate Identifies(q: Request, addr: Byte, r: Register) {
    forall log: Log :: exists row <- r.rows :: ReadId(q.oracle, log, addr, r.reg).id == Some(row.id)
  }

  lemma {:induction false} RegsComplete(q: Request, log: Log, addr: Byte, regs: seq<Register>)
    requires Responds(q, addr, regs) && Present(q, addr, regs)
    ensures SearchRegs(q, log, addr, regs).hit.Some?
    decreases |regs|
  {
    var reply := ReadId(q.oracle, log, addr, regs[0].reg);
    assert regs[0] in regs && reply.id.Some?;
    if !PresentAt(q, addr, regs[0]) {
      assert Present(q, addr, regs[1..]);
      forall l: Log, r <- regs[1..] ensures ReadId(q.oracle, l, addr, r.reg).id.Some? { assert r in regs; }
      if !q.WantsReg(addr, regs[0]) {
        RegsComplete(q, log, addr, regs[1..]);
      } else {
        var row := FirstRow(regs[0].rows, reply.id.value);
        if row.None? {
          RegsComplete(q, reply.log, addr, regs[1..]);
        } else {
          RegsComplete(q, Confirm(q, reply.log, addr, regs[0], row.value).log, addr, regs[1..]);
        }
      }
    }
  }

  /** The device stands in the k-th group at that group's j-th address, and answered there. */
  ghost predicate Placed(q: Request, log: Log, groups: seq<Group>, hit: Hit, k: nat, j: nat) {
    && k < |groups| && j < |groups[k].addrs|
    && hit.addr == groups[k].addrs[j] && GoodHit(q, log, groups[k].regs, hit)
  }

  /** Table order: groups in turn, and the addresses of each in turn. */
  predicate NotAfter(k: nat, j: nat, group: nat, address: nat) {
    k < group || (k == group && j <= address)
  }

  lemma {:induction false} AddrsFind(q: Request, log: Log, addrs: seq<Byte>, regs: seq<Register>, j: nat)
    requires j < |addrs| && q.WantsAddr(addrs[j]) && Responds(q, addrs[j], regs) && Present(q, addrs[j], regs)
    ensures var end := SearchAddrs(q, log, addrs, regs);
            && end.hit.Some? && GoodHit(q, end.log, regs, end.hit.value)
            && exists i :: 0 <= i <= j && end.hit.value.addr == addrs[i]
    decreases j
  {
    hide SearchRegs, Responds, Present, GoodHit;
    var at := log + [Read(addrs[0], 0x00)];
    RegsSound(q, at, addrs[0], regs);
    var end := if q.WantsAddr(addrs[0]) then SearchRegs(q, at, addrs[0], regs) else Outcome(log, None);
    if j == 0 {
      RegsComplete(q, at, addrs[0], regs);
    } else if end.hit.None? {
      AddrsFind(q, end.log, addrs[1..], regs, j - 1);
      var i :| 0 <= i <= j - 1 && SearchAddrs(q, end.log, addrs[1..], regs).hit.value.addr == addrs[1..][i];
      assert addrs[i + 1] == addrs[1..][i];
    }
  }

  /** A wanted device that always answers is found where it stands, or the search ends before it,
      on a device that stands earlier in table order. */
  lemma {:induction false} SearchComplete(q: Request, log: Log, groups: seq<Group>, group: nat, address: nat)
    requires group < |groups| && address < |groups[group].addrs|
    requires var addr, regs := groups[group].addrs[address], groups[group].regs;
             q.WantsAddr(addr) && Responds(q, addr, regs) && Present(q, addr, regs)
    ensures var end := SearchGroups(q, log, groups);
            && end.hit.Some?
            && exists k: nat, j: nat ::
                 NotAfter(k, j, group, address) && Placed(q, end.log, groups, end.hit.value, k, j)
    decreases group
  {
    hide SearchAddrs, Responds, Present, GoodHit;
    var g := groups[0];
    AddrsSound(q, log, g.addrs, g.regs);
    var end := SearchAddrs(q, log, g.addrs, g.regs);
    if group == 0 {
      AddrsFind(q, log, g.addrs, g.regs, address);
      var i :| 0 <= i <= address && end.hit.value.addr == g.addrs[i];
      assert NotAfter(0, i, group, address) && Placed(q, end.log, groups, end.hit.value, 0, i);
    } else if end.hit.Some? {
      var i :| 0 <= i < |g.addrs| && end.hit.value.addr == g.addrs[i];
      assert NotAfter(0, i, group, address) && Placed(q, end.log, groups, end.hit.value, 0, i);
    } else {
      SearchComplete(q, end.log, groups[1..], group - 1, address);
      var rest := SearchGroups(q, end.log, groups[1..]);
      var k: nat, j: nat :|
        NotAfter(k, j, group - 1, address) && Placed(q, rest.log, groups[1..], rest.hit.value, k, j);
      assert groups[k + 1] == groups[1..][k];
      assert NotAfter(k + 1, j, group, address) && Placed(q, rest.log, groups, rest.hit.value, k + 1, j);
    }
  }

  /** A stale preference never leaves the scan without a device: if a search with no preference
      is sure to find one, so is the scan, though not always the same one. */
  lemma ScanComplete(q: Request, log: Log, groups: seq<Group>, group: nat, address: nat)
    requires q.addr < 0x7F && group < |groups| && address < |groups[group].addrs|
    requires var addr, regs := groups[group].addrs[address], groups[group].regs;
             Responds(q, addr, regs) && Present(Unrestricted(q), addr, regs)
    ensures Scan(q, log, groups).hit.Some?
  {
    hide SearchGroups, Responds, Present, GoodHit;
    var all := Unrestricted(q);
    var first := SearchGroups(q, log, groups);
    RespondsAlike(q, all, groups[group].addrs[address], groups[group].regs);
    SearchComplete(all, log, groups, group, address);
    SearchComplete(all, first.log, groups, group, address);
    if !Preferred(q.addr) && q.reg == ANY_REG { SearchAlike(q, all, log, groups); }
  }

  function Unrestricted(q: Request): Request {
    q.(addr := 0, reg := ANY_REG)
  }

  lemma RespondsAlike(q: Request, p: Request, addr: Byte, regs: seq<Register>)
    requires q.oracle == p.oracle && Responds(q, addr, regs)
    ensures Responds(p, addr, regs)
  {
  }

  lemma {:induction false} RegsAlike(q: Request, p: Request, log: Log, addr: Byte, regs: seq<Register>)
    requires q.oracle == p.oracle && q.ict == p.ict && q.reg == p.reg
    ensures SearchRegs(q, log, addr, regs) == SearchRegs(p, log, addr, regs)
    decreases |regs|
  {
    if regs == [] {
    } else {
      var reply := ReadId(q.oracle, log, addr, regs[0].reg);
      RegsAlike(q, p, log, addr, regs[1..]);
      RegsAlike(q, p, reply.log, addr, regs[1..]);
      RegsAlike(q, p, reply.log + [Read(addr, ICT_CHIP_ID)], addr, regs[1..]);
    }
  }

  lemma {:induction false} AddrsAlike(q: Request, p: Request, log: Log, addrs: seq<Byte>, regs: seq<Register>)
    requires q.oracle == p.oracle && q.ict == p.ict && q.reg == p.reg && !Preferred(q.addr) && !Preferred(p.addr)
    ensures SearchAddrs(q, log, addrs, regs) == SearchAddrs(p, log, addrs, regs)
    decreases |addrs|
  {
    hide SearchRegs;
    if addrs == [] {
    } else {
      var at := log + [Read(addrs[0], 0x00)];
      RegsAlike(q, p, at, addrs[0], regs);
      AddrsAlike(q, p, SearchRegs(q, at, addrs[0], regs).log, addrs[1..], regs);
    }
  }

  lemma {:induction false} SearchAlike(q: Request, p: Request, log: Log, groups: seq<Group>)
    requires q.oracle == p.oracle && q.ict == p.ict && q.reg == p.reg && !Preferred(q.addr) && !Preferred(p.addr)
    ensures SearchGroups(q, log, groups) == SearchGroups(p, log, groups)
    decreases |groups|
  {
    hide SearchAddrs;
    if groups == [] {
    } else {
      AddrsAlike(q, p, log, groups[0].addrs, groups[0].regs);
      SearchAlike(q, p, SearchAddrs(q, log, groups[0].addrs, groups[0].regs).log, groups[1..]);
    }
  }

  // ------------------------------------------------- what a preference changes

  /** Answers depend on the question alone. */
  ghost predicate Steady(oracle: Oracle) {
    forall log: Log, t: Transaction :: oracle(log, t) == oracle([], t)
  }

  /** No identity read of the table fails on the bus. */
  ghost predicate ErrorFree(q: Request, groups: seq<Group>) {
    forall g <- groups, a <- g.addrs :: Responds(q, a, g.regs)
  }

  /** The register preference concerns register numbers only, not the legacy magnetometer rows. */
  predicate Plain(q: Request) {
    !q.ict || (q.reg != 0x0A && q.reg != 0x0F && q.reg != 0x4F)
  }

  /** The device answers where the preference allows. */
  predicate Admits(q: Request, hit: Hit) {
    q.WantsAddr(hit.addr) && (q.reg == ANY_REG || q.reg == hit.reg)
  }

  /** What a search under a preference finds, given what the full search finds. */
  ghost predicate Narrows(q: Request, full: Option<Hit>, narrow: Option<Hit>) {
    && (narrow.Some? ==> full.Some? && Admits(q, narrow.value))
    && (full.Some? && Admits(q, full.value) ==> narrow == full)
  }

  lemma ReadIdSteady(oracle: Oracle, log: Log, other: Log, addr: Byte, reg: Byte)
    requires Steady(oracle)
    ensures ReadId(oracle, log, addr, reg).id == ReadId(oracle, other, addr, reg).id
  {
    var up := Write(addr, 0x4B, 0x01);
    assert oracle(log, up) == oracle([], up) == oracle(other, up);
    forall t: Transaction, l: Log, m: Log ensures oracle(l, t) == oracle(m, t) {
      assert oracle(l, t) == oracle([], t) == oracle(m, t);
    }
  }

  lemma ConfirmSteady(q: Request, p: Request, log: Log, other: Log, addr: Byte, r: Register, row: Row)
    requires Steady(q.oracle) && q.oracle == p.oracle && q.ict == p.ict
    ensures Confirm(q, log, addr, r, row).hit == Confirm(p, other, addr, r, row).hit
  {
    var t := Read(addr, ICT_CHIP_ID);
    assert q.oracle(log, t) == q.oracle([], t) == q.oracle(other, t);
  }

  /** The registers of one address: with a register preference, provided none of them fails. */
  lemma {:induction false} RegsNarrow(q: Request, log: Log, other: Log, addr: Byte, regs: seq<Register>)
    requires Steady(q.oracle) && q.WantsAddr(addr)
    requires q.reg == ANY_REG || (Plain(q) && Responds(q, addr, regs))
    ensures Narrows(q, SearchRegs(Unrestricted(q), other, addr, regs).hit, SearchRegs(q, log, addr, regs).hit)
    decreases |regs|
  {
    if regs == [] {
    } else {
      var all, r, rest := Unrestricted(q), regs[0], regs[1..];
      ReadIdSteady(q.oracle, log, other, addr, r.reg);
      var mine, full := ReadId(q.oracle, log, addr, r.reg), ReadId(q.oracle, other, addr, r.reg);
      if q.reg != ANY_REG {
        assert r in regs && full.id.Some?;
        forall l: Log, x <- rest ensures ReadId(q.oracle, l, addr, x.reg).id.Some? { assert x in regs; }
      }
      if full.id.Some? {
        var row := FirstRow(r.rows, full.id.value);
        var fullLog := if row.None? then full.log else Confirm(all, full.log, addr, r, row.value).log;
        var mineLog := if !q.WantsReg(addr, r) then log
                       else if row.None? then mine.log else Confirm(q, mine.log, addr, r, row.value).log;
        if row.Some? { ConfirmSteady(q, all, mine.log, full.log, addr, r, row.value); }
        ConfirmPlace(all, full.log, addr, r, row);
        RegsNarrow(q, mineLog, fullLog, addr, rest);
        RegsAdmitted(q, mineLog, addr, rest);
      }
    }
  }

  lemma ConfirmPlace(q: Request, log: Log, addr: Byte, r: Register, row: Option<Row>)
    ensures row.Some? && Confirm(q, log, addr, r, row.value).hit.Some? ==>
              Confirm(q, log, addr, r, row.value).hit.value == Hit(addr, r.reg, row.value.device)
  {
  }

  lemma {:induction false} RegsAdmitted(q: Request, log: Log, addr: Byte, regs: seq<Register>)
    requires q.WantsAddr(addr) && (q.reg == ANY_REG || Plain(q))
    ensures var hit := SearchRegs(q, log, addr, regs).hit; hit.Some? ==> hit.value.addr == addr && Admits(q, hit.value)
    decreases |regs|
  {
    if regs == [] {
    } else {
      var reply := ReadId(q.oracle, log, addr, regs[0].reg);
      RegsAdmitted(q, log, addr, regs[1..]);
      RegsAdmitted(q, reply.log, addr, regs[1..]);
      RegsAdmitted(q, reply.log + [Read(addr, ICT_CHIP_ID)], addr, regs[1..]);
    }
  }

  lemma {:induction false} AddrsAdmitted(q: Request, log: Log, addrs: seq<Byte>, regs: seq<Register>)
    requires q.reg == ANY_REG || Plain(q)
    ensures var hit := SearchAddrs(q, log, addrs, regs).hit; hit.Some? ==> Admits(q, hit.value)
    decreases |addrs|
  {
    hide SearchRegs;
    if addrs == [] {
    } else if !q.WantsAddr(addrs[0]) {
      AddrsAdmitted(q, log, addrs[1..], regs);
    } else {
      var at := log + [Read(addrs[0], 0x00)];
      RegsAdmitted(q, at, addrs[0], regs);
      AddrsAdmitted(q, SearchRegs(q, at, addrs[0], regs).log, addrs[1..], regs);
    }
  }

  lemma {:induction false} AddrsNarrow(q: Request, log: Log, other: Log, addrs: seq<Byte>, regs: seq<Register>)
    requires Steady(q.oracle)
    requires q.reg == ANY_REG || (Plain(q) && forall a <- addrs :: Responds(q, a, regs))
    ensures Narrows(q, SearchAddrs(Unrestricted(q), other, addrs, regs).hit, SearchAddrs(q, log, addrs, regs).hit)
    decreases |addrs|
  {
    hide SearchRegs, Steady, Responds;
    if addrs == [] {
    } else {
      var all, a := Unrestricted(q), addrs[0];
      var mineAt, fullAt := log + [Read(a, 0x00)], other + [Read(a, 0x00)];
      var full := SearchRegs(all, fullAt, a, regs);
      RegsAdmitted(all, fullAt, a, regs);
      var mineLog := log;
      if q.WantsAddr(a) {
        RegsNarrow(q, mineAt, fullAt, a, regs);
        RegsAdmitted(q, mineAt, a, regs);
        mineLog := SearchRegs(q, mineAt, a, regs).log;
      }
      AddrsNarrow(q, mineLog, full.log, addrs[1..], regs);
      AddrsAdmitted(q, mineLog, addrs[1..], regs);
    }
  }

  lemma {:induction false} GroupsAdmitted(q: Request, log: Log, groups: seq<Group>)
    requires q.reg == ANY_REG || Plain(q)
    ensures var hit := SearchGroups(q, log, groups).hit; hit.Some? ==> Admits(q, hit.value)
    decreases |groups|
  {
    hide SearchAddrs;
    if groups == [] {
    } else {
      AddrsAdmitted(q, log, groups[0].addrs, groups[0].regs);
      GroupsAdmitted(q, SearchAddrs(q, log, groups[0].addrs, groups[0].regs).log, groups[1..]);
    }
  }

  lemma {:induction false} GroupsNarrow(q: Request, log: Log, other: Log, groups: seq<Group>)
    requires Steady(q.oracle) && (q.reg == ANY_REG || (Plain(q) && ErrorFree(q, groups)))
    ensures Narrows(q, SearchGroups(Unrestricted(q), other, groups).hit, SearchGroups(q, log, groups).hit)
    decreases |groups|
  {
    hide SearchAddrs, Steady, Responds;
    if groups == [] {
    } else {
      var g := groups[0];
      AddrsNarrow(q, log, other, g.addrs, g.regs);
      AddrsAdmitted(q, log, g.addrs, g.regs);
      var mine := SearchAddrs(q, log, g.addrs, g.regs);
      GroupsNarrow(q, mine.log, SearchAddrs(Unrestricted(q), other, g.addrs, g.regs).log, groups[1..]);
      GroupsAdmitted(q, mine.log, groups[1..]);
    }
  }

  /** When a preference makes no difference: with devices whose answers do not change, and, for a
      register preference, no bus errors, the scan reports what a search without preference would
      if and only if nothing answers where the preference points, or that search's own result is
      one the preference allows. */
  lemma SameDeviceIff(q: Request, log: Log, other: Log, groups: seq<Group>)
    requires q.addr < 0x7F && Steady(q.oracle)
    requires q.reg == ANY_REG || (Plain(q) && ErrorFree(q, groups))
    ensures var full, narrow := SearchGroups(Unrestricted(q), other, groups).hit, SearchGroups(q, log, groups).hit;
            Scan(q, log, groups).hit == full
            <==> narrow.None? || (full.Some? && Admits(q, full.value))
  {
    hide SearchGroups, Steady, ErrorFree;
    var all, narrow := Unrestricted(q), SearchGroups(q, log, groups);
    GroupsNarrow(q, log, other, groups);
    GroupsNarrow(all, narrow.log, other, groups);
    assert Unrestricted(all) == all;
    FullAdmits(all, other, groups);
  }

  lemma FullAdmits(q: Request, log: Log, groups: seq<Group>)
    requires q == Unrestricted(q)
    ensures var hit := SearchGroups(q, log, groups).hit; hit.Some? ==> Admits(q, hit.value)
  {
    GroupsAdmitted(q, log, groups);
  }

  // --------------------------------------------- the scan from the device map

  /** The device at one register of one address, confirmed if its row needs it. */
  function DeviceAt(q: Request, addr: Byte, r: Register): Option<Hit> {
    var id := ReadId(q.oracle, [], addr, r.reg).id;
    if id.None? then None
    else
      var row := FirstRow(r.rows, id.value);
      if row.None? then None else Confirm(q, [], addr, r, row.value).hit
  }

  /** An answering place of the table, and whether the preference allows it. */
  datatype Place = Place(hit: Hit, wanted: bool)

  function PlacesAt(q: Request, addr: Byte, regs: seq<Register>): seq<Place>
    decreases |regs|
  {
    if regs == [] then []
    else
      var device := DeviceAt(q, addr, regs[0]);
      (if device.Some? then [Place(device.value, q.WantsAddr(addr) && q.WantsReg(addr, regs[0]))] else [])
      + PlacesAt(q, addr, regs[1..])
  }

  function PlacesIn(q: Request, addrs: seq<Byte>, regs: seq<Register>): seq<Place>
    decreases |addrs|
  {
    if addrs == [] then [] else PlacesAt(q, addrs[0], regs) + PlacesIn(q, addrs[1..], regs)
  }

  /** Every place of the table that answers, in table order. */
  function Places(q: Request, groups: seq<Group>): seq<Place>
    decreases |groups|
  {
    if groups == [] then [] else PlacesIn(q, groups[0].addrs, groups[0].regs) + Places(q, groups[1..])
  }

  function FirstWanted(places: seq<Place>): Option<Hit> {
    if places == [] then None else if places[0].wanted then Some(places[0].hit) else FirstWanted(places[1..])
  }

  function First(places: seq<Place>): Option<Hit> {
    if places == [] then None else Some(places[0].hit)
  }

  lemma {:induction false} FirstWantedOf(a: seq<Place>, b: seq<Place>)
    ensures FirstWanted(a + b) == if FirstWanted(a).Some? then FirstWanted(a) else FirstWanted(b)
  {
    if a == [] {
      assert a + b == b;
    } else {
      FirstWantedOf(a[1..], b);
      assert (a + b)[1..] == a[1..] + b;
    }
  }

  lemma {:induction false} RegsByMap(q: Request, log: Log, addr: Byte, regs: seq<Register>)
    requires Steady(q.oracle) && Responds(q, addr, regs)
    ensures q.WantsAddr(addr) ==> SearchRegs(q, log, addr, regs).hit == FirstWanted(PlacesAt(q, addr, regs))
    ensures !q.WantsAddr(addr) ==> FirstWanted(PlacesAt(q, addr, regs)) == None
    decreases |regs|
  {
    if regs == [] {
    } else {
      var r, rest := regs[0], regs[1..];
      var device := DeviceAt(q, addr, r);
      var here := if device.Some? then [Place(device.value, q.WantsAddr(addr) && q.WantsReg(addr, r))] else [];
      FirstWantedOf(here, PlacesAt(q, addr, rest));
      ReadIdSteady(q.oracle, log, [], addr, r.reg);
      var reply := ReadId(q.oracle, log, addr, r.reg);
      assert r in regs && reply.id.Some?;
      forall l: Log, x <- rest ensures ReadId(q.oracle, l, addr, x.reg).id.Some? { assert x in regs; }
      var row := FirstRow(r.rows, reply.id.value);
      if row.Some? { ConfirmSteady(q, q, reply.log, [], addr, r, row.value); }
      var next := if !q.WantsReg(addr, r) then log
                  else if row.None? then reply.log else Confirm(q, reply.log, addr, r, row.value).log;
      RegsByMap(q, next, addr, rest);
    }
  }

  lemma {:induction false} AddrsByMap(q: Request, log: Log, addrs: seq<Byte>, regs: seq<Register>)
    requires Steady(q.oracle) && forall a <- addrs :: Responds(q, a, regs)
    ensures SearchAddrs(q, log, addrs, regs).hit == FirstWanted(PlacesIn(q, addrs, regs))
    decreases |addrs|
  {
    hide SearchRegs, Steady, Responds, PlacesAt;
    if addrs == [] {
    } else {
      var at := log + [Read(addrs[0], 0x00)];
      RegsByMap(q, at, addrs[0], regs);
      FirstWantedOf(PlacesAt(q, addrs[0], regs), PlacesIn(q, addrs[1..], regs));
      AddrsByMap(q, if q.WantsAddr(addrs[0]) then SearchRegs(q, at, addrs[0], regs).log else log, addrs[1..], regs);
    }
  }

  lemma {:induction false} GroupsByMap(q: Request, log: Log, groups: seq<Group>)
    requires Steady(q.oracle) && ErrorFree(q, groups)
    ensures SearchGroups(q, log, groups).hit == FirstWanted(Places(q, groups))
    decreases |groups|
  {
    hide SearchAddrs, Steady, Responds, PlacesIn;
    if groups == [] {
    } else {
      var g := groups[0];
      AddrsByMap(q, log, g.addrs, g.regs);
      FirstWantedOf(PlacesIn(q, g.addrs, g.regs), Places(q, groups[1..]));
      GroupsByMap(q, SearchAddrs(q, log, g.addrs, g.regs).log, groups[1..]);
    }
  }

  /** Without a preference every answering place is wanted, and they are the same places. */
  ghost predicate Alike(mine: seq<Place>, all: seq<Place>) {
    |mine| == |all| && forall i | 0 <= i < |mine| :: mine[i].hit == all[i].hit && all[i].wanted
  }

  lemma {:induction false} RegsAlikePlaces(q: Request, addr: Byte, regs: seq<Register>)
    ensures Alike(PlacesAt(q, addr, regs), PlacesAt(Unrestricted(q), addr, regs))
    decreases |regs|
  {
    if regs == [] {
    } else {
      RegsAlikePlaces(q, addr, regs[1..]);
      assert DeviceAt(q, addr, regs[0]) == DeviceAt(Unrestricted(q), addr, regs[0]);
    }
  }

  lemma {:induction false} AddrsAlikePlaces(q: Request, addrs: seq<Byte>, regs: seq<Register>)
    ensures Alike(PlacesIn(q, addrs, regs), PlacesIn(Unrestricted(q), addrs, regs))
    decreases |addrs|
  {
    hide PlacesAt;
    if addrs == [] {
    } else {
      RegsAlikePlaces(q, addrs[0], regs);
      AddrsAlikePlaces(q, addrs[1..], regs);
    }
  }

  lemma {:induction false} PlacesAlike(q: Request, groups: seq<Group>)
    ensures Alike(Places(q, groups), Places(Unrestricted(q), groups))
    decreases |groups|
  {
    hide PlacesIn;
    if groups == [] {
    } else {
      AddrsAlikePlaces(q, groups[0].addrs, groups[0].regs);
      PlacesAlike(q, groups[1..]);
    }
  }

  /** The scan in terms of the table and the devices alone, for any preference: with devices that
      do not change and no bus errors it reports the first answering place the preference allows,
      or if there is none the first answering place. */
  lemma ScanByMap(q: Request, log: Log, groups: seq<Group>)
    requires q.addr < 0x7F && Steady(q.oracle) && ErrorFree(q, groups)
    ensures var places := Places(q, groups); var wanted := FirstWanted(places);
            Scan(q, log, groups).hit == if wanted.Some? then wanted else First(places)
  {
    hide SearchGroups, Steady, ErrorFree, Places;
    var all, places := Unrestricted(q), Places(q, groups);
    GroupsByMap(q, log, groups);
    UnrestrictedErrors(q, groups);
    GroupsByMap(all, SearchGroups(q, log, groups).log, groups);
    PlacesAlike(q, groups);
    if !Preferred(q.addr) && q.reg == ANY_REG { AllWanted(q, groups); }
  }

  lemma UnrestrictedErrors(q: Request, groups: seq<Group>)
    requires ErrorFree(q, groups)
    ensures ErrorFree(Unrestricted(q), groups)
  {
  }

  /** Without an effective preference every place is wanted. */
  lemma AllWanted(q: Request, groups: seq<Group>)
    requires !Preferred(q.addr) && q.reg == ANY_REG
    ensures Places(q, groups) == Places(Unrestricted(q), groups)
  {
    WantedInGroups(q, groups);
    PlacesAlike(q, groups);
  }

  lemma {:induction false} WantedInRegs(q: Request, addr: Byte, regs: seq<Register>)
    requires !Preferred(q.addr) && q.reg == ANY_REG
    ensures forall p <- PlacesAt(q, addr, regs) :: p.wanted
    decreases |regs|
  {
    if regs == [] {
    } else {
      WantedInRegs(q, addr, regs[1..]);
    }
  }

  lemma {:induction false} WantedInAddrs(q: Request, addrs: seq<Byte>, regs: seq<Register>)
    requires !Preferred(q.addr) && q.reg == ANY_REG
    ensures forall p <- PlacesIn(q, addrs, regs) :: p.wanted
    decreases |addrs|
  {
    if addrs == [] {
    } else {
      WantedInRegs(q, addrs[0], regs);
      WantedInAddrs(q, addrs[1..], regs);
    }
  }

  lemma {:induction false} WantedInGroups(q: Request, groups: seq<Group>)
    requires !Preferred(q.addr) && q.reg == ANY_REG
    ensures forall p <- Places(q, groups) :: p.wanted
    decreases |groups|
  {
    if groups == [] {
    } else {
      WantedInAddrs(q, groups[0].addrs, groups[0].regs);
      WantedInGroups(q, groups[1..]);
    }
  }

  /** Two devices, both always there. */
  const PAIR: seq<Group> := [Group([0x68], [Register(0x75, [Row(0x68, 1)])]),
                             Group([0x6A], [Register(0x0F, [Row(0x69, 2)])])]

  function PairAnswers(log: Log, t: Transaction): Option<Byte> {
    if t == Read(0x68, 0x75) then Some(0x68) else if t == Read(0x6A, 0x0F) then Some(0x69) else Some(0)
  }

  /** A stale preference can report another device than the one a full scan would. */
  lemma StalePreferenceHides()
    ensures var q := Request(PairAnswers, false, 0x6A, ANY_REG);
            && Scan(q, [], PAIR).hit == Some(Hit(0x6A, 0x0F, 2))
            && Scan(Unrestricted(q), [], PAIR).hit == Some(Hit(0x68, 0x75, 1))
  {
    var q := Request(PairAnswers, false, 0x6A, ANY_REG);
    PairSearched(q);
    PairSearched(Unrestricted(q));
  }

  lemma PairSearched(q: Request)
    requires q.oracle == PairAnswers && !q.ict && q.reg == ANY_REG
    ensures forall l: Log :: SearchRegs(q, l, 0x68, PAIR[0].regs).hit == Some(Hit(0x68, 0x75, 1))
    ensures forall l: Log :: SearchRegs(q, l, 0x6A, PAIR[1].regs).hit == Some(Hit(0x6A, 0x0F, 2))
  {
  }

  const ICT_REGISTER: Register := Register(ICT_MANU_ID, [Row(ICT_MANU_ID_VALUE, MAG_ICT153XX)])

  /** The ICT magnetometer is found without a register preference, with its own register, and with
      the three a retained probe of its address may have left; with no other. */
  lemma LegacyRegisters(q: Request, log: Log)
    requires q.ict
    requires forall l: Log :: q.oracle(l, Read(0x1E, 0x00)) == Some(0xE7) && q.oracle(l, Read(0x1E, 0x01)) == Some(0x45)
    ensures SearchRegs(q, log, 0x1E, [ICT_REGISTER]).hit
            == if q.reg in {0xFF, 0x00, 0x0A, 0x0F, 0x4F} then Some(Hit(0x1E, 0x00, 20)) else None
  {
    assert SearchRegs(q, log, 0x1E, []).hit == None;
  }
}
