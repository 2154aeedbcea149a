/** The blind channel search: the home channel first, then every even channel once. */
module ChannelSweep {
  import opened Arithmetic

  const MAX_CHANNEL: nat := 100
  const EVEN_CHANNELS: nat := 51

  /** Distinct even channels the radio can tune: the preferred part of the sweep. */
  ghost predicate Preference(table: seq<nat>) {
    && (forall i | 0 <= i < |table| :: table[i] % 2 == 0 && table[i] <= MAX_CHANNEL)
    && (forall i, j | 0 <= i < j < |table| :: table[i] != table[j])
  }

  function Count(home: nat): nat {
    EVEN_CHANNELS + home % 2
  }

  /** `s` without `home`. */
  function Except(s: seq<nat>, home: nat): seq<nat> {
    if s == [] then [] else (if s[0] == home then [] else [s[0]]) + Except(s[1..], home)
  }

  /** The even channels from `ch` up that the table does not list. */
  function Others(table: seq<nat>, ch: nat): seq<nat>
    decreases MAX_CHANNEL + 1 - ch
  {
    if ch > MAX_CHANNEL then [] else (if ch in table then [] else [ch]) + Others(table, ch + 2)
  }

  /** The whole sweep, in order. */
  function Sweep(table: seq<nat>, home: nat): seq<nat> {
    [home] + (Except(table, home) + Except(Others(table, 0), home))
  }

  // ----------------------------------------------------------- what it visits

  lemma {:induction false} ExceptMembers(s: seq<nat>, home: nat, x: nat)
    ensures x in Except(s, home) <==> x in s && x != home
  {
    if s == [] {
    } else {
      ExceptMembers(s[1..], home, x);
    }
  }

  lemma {:induction false} OthersMembers(table: seq<nat>, ch: nat, x: nat)
    requires ch % 2 == 0
    ensures x in Others(table, ch) <==> ch <= x <= MAX_CHANNEL && x % 2 == 0 && x !in table
    decreases MAX_CHANNEL + 1 - ch
  {
    if ch > MAX_CHANNEL {
    } else {
      OthersMembers(table, ch + 2, x);
    }
  }

  ghost predicate Distinct(s: seq<nat>) {
    forall i, j | 0 <= i < j < |s| :: s[i] != s[j]
  }

  lemma DistinctCons(x: nat, s: seq<nat>)
    requires Distinct(s) && x !in s
    ensures Distinct([x] + s)
  {
  }

  lemma DistinctConcat(a: seq<nat>, b: seq<nat>)
    requires Distinct(a) && Distinct(b) && forall x <- a :: x !in b
    ensures Distinct(a + b)
  {
    forall i, j | 0 <= i < j < |a + b| ensures (a + b)[i] != (a + b)[j] {
      if i < |a| <= j { assert a[i] in a && b[j - |a|] in b; }
    }
  }

  lemma {:induction false} ExceptDistinct(s: seq<nat>, home: nat)
    requires Distinct(s)
    ensures Distinct(Except(s, home))
  {
    if s == [] {
    } else {
      ExceptDistinct(s[1..], home);
      ExceptMembers(s[1..], home, s[0]);
      if s[0] != home { DistinctCons(s[0], Except(s[1..], home)); }
    }
  }

  lemma {:induction false} OthersDistinct(table: seq<nat>, ch: nat)
    requires ch % 2 == 0
    ensures Distinct(Others(table, ch))
    decreases MAX_CHANNEL + 1 - ch
  {
    if ch > MAX_CHANNEL {
    } else {
      OthersDistinct(table, ch + 2);
      OthersMembers(table, ch + 2, ch);
      if ch !in table { DistinctCons(ch, Others(table, ch + 2)); }
    }
  }

  ghost predicate Target(home: nat, x: nat) {
    x == home || (x <= MAX_CHANNEL && x % 2 == 0)
  }

  lemma SweepMembers(table: seq<nat>, home: nat, x: nat)
    requires Preference(table)
    ensures x in Sweep(table, home) <==> Target(home, x)
  {
    ExceptMembers(table, home, x);
    ExceptMembers(Others(table, 0), home, x);
    OthersMembers(table, 0, x);
  }

  lemma PreferenceDistinct(table: seq<nat>)
    requires Preference(table)
    ensures Distinct(table)
  {
  }

  lemma SweepDistinct(table: seq<nat>, home: nat)
    requires Preference(table)
    ensures Distinct(Sweep(table, home))
  {
    hide Except, Others, Distinct;
    var first, rest := Except(table, home), Except(Others(table, 0), home);
    PreferenceDistinct(table);
    ExceptDistinct(table, home);
    OthersDistinct(table, 0);
    ExceptDistinct(Others(table, 0), home);
    forall x <- first ensures x !in rest {
      ExceptMembers(table, home, x);
      ExceptMembers(Others(table, 0), home, x);
      OthersMembers(table, 0, x);
    }
    DistinctConcat(first, rest);
    ExceptMembers(table, home, home);
    ExceptMembers(Others(table, 0), home, home);
    DistinctCons(home, first + rest);
  }

  /** The even channels, and `home` if it is not one of them. */
  function Targets(home: nat): (t: set<nat>)
    ensures forall x :: x in t <==> Target(home, x)
  {
    (set x: nat | x <= MAX_CHANNEL && x % 2 == 0) + {home}
  }

  lemma {:induction false} EvensUpTo(n: nat)
    ensures |set x: nat | x <= 2 * n && x % 2 == 0| == n + 1
  {
    var evens := set x: nat | x <= 2 * n && x % 2 == 0;
    if n == 0 {
      assert evens == {0};
    } else {
      EvensUpTo(n - 1);
      assert evens == (set x: nat | x <= 2 * (n - 1) && x % 2 == 0) + {2 * n};
    }
  }

  lemma TargetsCount(home: nat)
    requires home <= MAX_CHANNEL
    ensures |Targets(home)| == Count(home)
  {
    EvensUpTo(50);
    var evens := set x: nat | x <= MAX_CHANNEL && x % 2 == 0;
    assert evens == set x: nat | x <= 2 * 50 && x % 2 == 0;
    if home % 2 == 0 {
      assert Targets(home) == evens;
    }
  }

  function Elements(s: seq<nat>): (t: set<nat>)
    ensures forall x :: x in t <==> x in s
  {
    set x <- s
  }

  lemma {:induction false} DistinctCount(s: seq<nat>)
    requires Distinct(s)
    ensures |Elements(s)| == |s|
  {
    if s == [] {
    } else {
      DistinctCount(s[1..]);
      assert Elements(s) == Elements(s[1..]) + {s[0]};
      assert s[0] !in s[1..];
    }
  }

  lemma SweepLength(table: seq<nat>, home: nat)
    requires Preference(table) && home <= MAX_CHANNEL
    ensures |Sweep(table, home)| == Count(home)
  {
    SweepDistinct(table, home);
    DistinctCount(Sweep(table, home));
    forall x ensures x in Elements(Sweep(table, home)) <==> x in Targets(home) {
      SweepMembers(table, home, x);
    }
    assert Elements(Sweep(table, home)) == Targets(home);
    TargetsCount(home);
  }

  // ------------------------------------------------------- the indexed access

  /** What an index names: the sweep in order, and home past its end. */
  ghost function Candidate(table: seq<nat>, home: nat, index: nat): nat
    requires Preference(table) && home <= MAX_CHANNEL
  {
    SweepLength(table, home);
    if index < Count(home) then Sweep(table, home)[index] else home
  }

  /** The candidate at `index`, counted down over both parts. */
  method ChannelCandidate(table: seq<nat>, home: nat, index: nat) returns (channel: nat)
    requires Preference(table) && home <= MAX_CHANNEL
    ensures channel == Candidate(table, home, index)
  {
    hide Except, Others, Tail;
    ghost var second := Except(Others(table, 0), home);
    SweepLength(table, home);
    if index == 0 {
      return home;
    }
    var left := index;
    ghost var sweep := Sweep(table, home);
    var i := 0;
    TailStarts(table, home, index);
    assert table[0..] == table;
    while i < |table|
      invariant i <= |table| && left > 0
      invariant Tail(sweep, index, Except(table[i..], home) + second, left)
    {
      assert table[i..] == [table[i]] + table[i + 1..];
      TailStep(sweep, index, table[i], table[i + 1..], home, second, left);
      if table[i] != home {
        left := left - 1;
        if left == 0 {
          return table[i];
        }
      }
      i := i + 1;
    }
    ExceptNothing(home);
    assert table[i..] == [] && [] + second == second + [];
    var ch := 0;
    while ch <= MAX_CHANNEL
      invariant ch % 2 == 0 && left > 0
      invariant Tail(sweep, index, Except(Others(table, ch), home) + [], left)
    {
      var preferred := Listed(table, home, ch);
      OthersStep(table, ch);
      if ch !in table {
        TailStep(sweep, index, ch, Others(table, ch + 2), home, [], left);
      }
      if !preferred {
        left := left - 1;
        if left == 0 {
          return ch;
        }
      }
      ch := ch + 2;
    }
    OthersEnd(table, ch, home);
    TailEnds(sweep, index, left);
    return home;
  }

  lemma ExceptNothing(home: nat)
    ensures Except([], home) == []
  {
  }

  lemma OthersStep(table: seq<nat>, ch: nat)
    requires ch <= MAX_CHANNEL
    ensures Others(table, ch) == if ch in table then Others(table, ch + 2) else [ch] + Others(table, ch + 2)
  {
  }

  lemma OthersEnd(table: seq<nat>, ch: nat, home: nat)
    requires ch > MAX_CHANNEL
    ensures Except(Others(table, ch), home) == []
  {
  }

  lemma TailStarts(table: seq<nat>, home: nat, index: nat)
    requires index > 0
    ensures Tail(Sweep(table, home), index, Except(table, home) + Except(Others(table, 0), home), index)
  {
  }

  lemma TailEnds(sweep: seq<nat>, index: nat, left: nat)
    requires Tail(sweep, index, [] + [], left) && left > 0
    ensures index >= |sweep|
  {
  }

  method Listed(table: seq<nat>, home: nat, ch: nat) returns (preferred: bool)
    ensures preferred == (ch == home || ch in table)
  {
    preferred := ch == home;
    var i := 0;
    while i < |table|
      invariant i <= |table| && preferred == (ch == home || ch in table[..i])
    {
      preferred := preferred || table[i] == ch;
      i := i + 1;
    }
    assert table[..i] == table;
  }

  /** What is left of the sweep, and how far into it the wanted candidate lies. */
  ghost predicate Tail(sweep: seq<nat>, index: nat, rest: seq<nat>, left: nat) {
    |rest| <= |sweep| && sweep[|sweep| - |rest|..] == rest && index + 1 == |sweep| - |rest| + left
  }

  lemma TailStep(sweep: seq<nat>, index: nat, x: nat, more: seq<nat>, home: nat, end: seq<nat>, left: nat)
    requires Tail(sweep, index, Except([x] + more, home) + end, left)
    ensures x == home ==> Tail(sweep, index, Except(more, home) + end, left)
    ensures x != home && left > 0 ==> Tail(sweep, index, Except(more, home) + end, left - 1)
    ensures x != home && left == 1 ==> index < |sweep| && sweep[index] == x
  {
    var rest, next := Except([x] + more, home) + end, Except(more, home) + end;
    assert ([x] + more)[1..] == more;
    if x != home {
      assert rest == [x] + next;
      assert sweep[|sweep| - |rest|] == rest[0];
    }
  }

  /** The firmware's own preference list. */
  const CLEAREST: seq<nat> := [0, 2, 52, 72, 74, 76, 78, 82, 84, 86, 88, 50, 24, 48]
  const GOOD: seq<nat> := [70, 68, 46, 44, 20, 54, 56, 28, 30]
  const FAIR: seq<nat> := [6, 8, 10, 12, 14, 16, 18, 32, 34]
  const USABLE: seq<nat> := [36, 38, 40, 42, 58, 60, 62, 64, 66]
  const ALLOWED: seq<nat> := CLEAREST + GOOD + (FAIR + USABLE)

  ghost predicate Tunable(s: seq<nat>) {
    forall x <- s :: x % 2 == 0 && x <= MAX_CHANNEL
  }

  predicate TunableFrom(s: seq<nat>, i: nat)
    requires i <= |s|
    decreases |s| - i
  {
    i == |s| || (s[i] % 2 == 0 && s[i] <= MAX_CHANNEL && TunableFrom(s, i + 1))
  }

  lemma {:induction false} TunableFromMeans(s: seq<nat>, i: nat)
    requires i <= |s| && TunableFrom(s, i)
    ensures forall k | i <= k < |s| :: s[k] % 2 == 0 && s[k] <= MAX_CHANNEL
    decreases |s| - i
  {
    if i == |s| {
    } else {
      TunableFromMeans(s, i + 1);
    }
  }

  lemma PartsAreTunable()
    ensures Tunable(CLEAREST) && Tunable(GOOD) && Tunable(FAIR) && Tunable(USABLE)
  {
    TunableFromMeans(CLEAREST, 0);
    TunableFromMeans(GOOD, 0);
    TunableFromMeans(FAIR, 0);
    TunableFromMeans(USABLE, 0);
  }

  lemma ClearestIsDistinct()
    ensures Distinct(CLEAREST)
  {
  }

  lemma OthersAreDistinct()
    ensures Distinct(GOOD) && Distinct(FAIR) && Distinct(USABLE)
  {
  }

  ghost predicate Apart(a: seq<nat>, b: seq<nat>) {
    forall x <- a :: x !in b
  }

  lemma ClearestApartGood()
    ensures Apart(CLEAREST, GOOD)
  {
  }

  lemma ClearestApartFair()
    ensures Apart(CLEAREST, FAIR)
  {
  }

  lemma ClearestApartUsable()
    ensures Apart(CLEAREST, USABLE)
  {
  }

  lemma GoodApart()
    ensures Apart(GOOD, FAIR) && Apart(GOOD, USABLE)
  {
  }

  lemma FairApart()
    ensures Apart(FAIR, USABLE)
  {
  }

  lemma AllowedIsPreference()
    ensures Preference(ALLOWED)
  {
    PartsAreTunable();
    ClearestIsDistinct();
    OthersAreDistinct();
    ClearestApartGood();
    ClearestApartFair();
    ClearestApartUsable();
    GoodApart();
    FairApart();
    JoinParts(CLEAREST, GOOD);
    JoinParts(FAIR, USABLE);
    JoinParts(CLEAREST + GOOD, FAIR + USABLE);
    forall i | 0 <= i < |ALLOWED| ensures ALLOWED[i] % 2 == 0 && ALLOWED[i] <= MAX_CHANNEL {
      assert ALLOWED[i] in ALLOWED;
    }
  }

  lemma JoinParts(a: seq<nat>, b: seq<nat>)
    requires Tunable(a) && Tunable(b) && Distinct(a) && Distinct(b) && Apart(a, b)
    ensures Tunable(a + b) && Distinct(a + b)
  {
    DistinctConcat(a, b);
  }

  /** Home comes first, every other index names a different channel, and every even channel is
      named: indexes below `Count` and targets are in bijection. */
  lemma SweepBijection(table: seq<nat>, home: nat)
    requires Preference(table) && home <= MAX_CHANNEL
    ensures Candidate(table, home, 0) == home
    ensures forall x: nat :: Target(home, x) <==> exists i :: 0 <= i < Count(home) && Candidate(table, home, i) == x
    ensures forall i, j | 0 <= i < j < Count(home) :: Candidate(table, home, i) != Candidate(table, home, j)
  {
    SweepLength(table, home);
    SweepDistinct(table, home);
    forall x: nat ensures Target(home, x) <==> exists i :: 0 <= i < Count(home) && Candidate(table, home, i) == x {
      SweepMembers(table, home, x);
      if i :| 0 <= i < |Sweep(table, home)| && Sweep(table, home)[i] == x {
        assert Candidate(table, home, i) == x;
      }
    }
  }

  function Turn(home: nat, start: nat, k: nat): nat {
    (start + k) % Count(home)
  }

  lemma TurnOnto(home: nat, start: nat, k: nat, m: nat)
    requires start < Count(home) && k < Count(home) && m < Count(home)
    ensures Turn(home, start, k) < Count(home)
    ensures Turn(home, start, if m >= start then m - start else m - start + Count(home)) == m
    ensures Turn(home, start, k) == Turn(home, start, m) ==> k == m
  {
    hide Count;
    Wrap(Count(home), start + k);
    Wrap(Count(home), start + m);
    Wrap(Count(home), start + if m >= start then m - start else m - start + Count(home));
  }

  lemma Wrap(n: nat, x: nat)
    requires x < 2 * n
    ensures x % n == if x < n then x else x - n
  {
    if x >= n { ModUnique(x, 1, x - n, n); } else { ModUnique(x, 0, x, n); }
  }

  ghost predicate Visits(table: seq<nat>, home: nat, start: nat, k: nat, x: nat)
    requires Preference(table) && home <= MAX_CHANNEL
  {
    Candidate(table, home, Turn(home, start, k)) == x
  }

  /** Starting anywhere and stepping by one modulo the count, the next `Count` candidates are a
      full sweep: each target is visited at exactly one of them. */
  lemma FullSweep(table: seq<nat>, home: nat, start: nat, x: nat)
    requires Preference(table) && home <= MAX_CHANNEL && start < Count(home) && Target(home, x)
    ensures exists k :: 0 <= k < Count(home) && Visits(table, home, start, k, x)
    ensures forall k, m | 0 <= k < Count(home) && 0 <= m < Count(home)
                          && Visits(table, home, start, k, x) && Visits(table, home, start, m, x) :: k == m
  {
    hide Candidate, Turn, Count;
    SweepBijection(table, home);
    var i :| 0 <= i < Count(home) && Candidate(table, home, i) == x;
    var k := if i >= start then i - start else i - start + Count(home);
    TurnOnto(home, start, start, i);
    assert Visits(table, home, start, k, x);
    forall k, m | 0 <= k < Count(home) && 0 <= m < Count(home)
                  && Visits(table, home, start, k, x) && Visits(table, home, start, m, x) ensures k == m
    {
      TurnOnto(home, start, k, m);
      TurnOnto(home, start, m, k);
    }
  }

  // ------------------------------------------------------ changes that may fail

  /** The indexes tuned to, in order: a channel change that fails leaves the search where it is. */
  function Tuned(home: nat, index: nat, changed: seq<bool>): seq<nat>
    decreases |changed|
  {
    if changed == [] then []
    else
      var next := Turn(home, index, 1);
      if changed[0] then [next] + Tuned(home, next, changed[1..]) else Tuned(home, index, changed[1..])
  }

  function Successes(changed: seq<bool>): nat {
    if changed == [] then 0 else (if changed[0] then 1 else 0) + Successes(changed[1..])
  }

  lemma TurnAgain(home: nat, start: nat, j: nat, k: nat)
    ensures Turn(home, Turn(home, start, j), k) == Turn(home, start, j + k)
  {
    ModAdd(start + j, k, Count(home));
  }

  /** Failures repeat an entry and skip none: the k-th change that succeeds tunes to the entry k
      places on, whatever failed before it. */
  lemma {:induction false} FailuresSkipNothing(home: nat, start: nat, changed: seq<bool>)
    requires start < Count(home)
    ensures var tuned := Tuned(home, start, changed);
            && |tuned| == Successes(changed)
            && forall k | 0 <= k < |tuned| :: tuned[k] == Turn(home, start, k + 1)
    decreases |changed|
  {
    hide Turn, Count;
    if changed == [] {
    } else if !changed[0] {
      FailuresSkipNothing(home, start, changed[1..]);
    } else {
      var next := Turn(home, start, 1);
      TurnBelow(home, start, 1);
      FailuresSkipNothing(home, next, changed[1..]);
      forall k | 0 <= k < |Tuned(home, start, changed)|
        ensures Tuned(home, start, changed)[k] == Turn(home, start, k + 1)
      {
        if k > 0 { TurnAgain(home, start, 1, k); }
      }
    }
  }

  lemma TurnBelow(home: nat, start: nat, k: nat)
    ensures Turn(home, start, k) < Count(home)
  {
  }

  /** So any `Count` successive successful changes tune to every target, each exactly once. */
  lemma FullSweepDespiteFailures(table: seq<nat>, home: nat, start: nat, changed: seq<bool>, from: nat, x: nat)
    requires Preference(table) && home <= MAX_CHANNEL && start < Count(home) && Target(home, x)
    requires from + Count(home) <= Successes(changed)
    ensures var tuned := Tuned(home, start, changed);
            && |tuned| == Successes(changed)
            && (exists k :: from <= k < from + Count(home) && Candidate(table, home, tuned[k]) == x)
            && (forall k, m | from <= k < m < from + Count(home)
                              && Candidate(table, home, tuned[k]) == x :: Candidate(table, home, tuned[m]) != x)
  {
    hide Turn, Count, Candidate, Tuned;
    FailuresSkipNothing(home, start, changed);
    var tuned, first := Tuned(home, start, changed), Turn(home, start, from + 1);
    TurnBelow(home, start, from + 1);
    FullSweep(table, home, first, x);
    forall k | 0 <= k < Count(home) ensures tuned[from + k] == Turn(home, first, k) {
      TurnAgain(home, start, from + 1, k);
    }
    var k :| 0 <= k < Count(home) && Visits(table, home, first, k, x);
    assert Candidate(table, home, tuned[from + k]) == x;
    forall j, m | from <= j < m < from + Count(home) && Candidate(table, home, tuned[j]) == x
      ensures Candidate(table, home, tuned[m]) != x
    {
      assert tuned[from + (j - from)] == Turn(home, first, j - from);
      assert tuned[from + (m - from)] == Turn(home, first, m - from);
      assert Visits(table, home, first, j - from, x);
      assert Visits(table, home, first, m - from, Candidate(table, home, tuned[m]));
    }
  }

  // ------------------------------------------------------- the order of a sweep

  /** x stands before y in s. */
  ghost predicate Precedes(s: seq<nat>, x: nat, y: nat) {
    exists i, j :: 0 <= i < j < |s| && s[i] == x && s[j] == y
  }

  lemma PrecedesLater(x: nat, s: seq<nat>, a: nat, b: nat)
    ensures Precedes(s, a, b) ==> Precedes([x] + s, a, b)
    ensures b in s ==> Precedes([x] + s, x, b)
  {
    if Precedes(s, a, b) {
      var i, j :| 0 <= i < j < |s| && s[i] == a && s[j] == b;
      assert ([x] + s)[i + 1] == a && ([x] + s)[j + 1] == b;
    }
    if b in s {
      var j :| 0 <= j < |s| && s[j] == b;
      assert ([x] + s)[0] == x && ([x] + s)[j + 1] == b;
    }
  }

  lemma {:induction false} ExceptOrder(s: seq<nat>, home: nat, i: nat, j: nat)
    requires i < j < |Except(s, home)|
    ensures Precedes(s, Except(s, home)[i], Except(s, home)[j])
  {
    hide Precedes;
    var x, rest := s[0], Except(s[1..], home);
    assert s == [x] + s[1..];
    if x == home {
      ExceptOrder(s[1..], home, i, j);
      PrecedesLater(x, s[1..], rest[i], rest[j]);
    } else if i > 0 {
      ExceptOrder(s[1..], home, i - 1, j - 1);
      PrecedesLater(x, s[1..], rest[i - 1], rest[j - 1]);
    } else {
      ExceptMembers(s[1..], home, rest[j - 1]);
      PrecedesLater(x, s[1..], x, rest[j - 1]);
    }
  }

  lemma {:induction false} OthersAscend(table: seq<nat>, ch: nat)
    requires ch % 2 == 0
    ensures forall i, j | 0 <= i < j < |Others(table, ch)| :: Others(table, ch)[i] < Others(table, ch)[j]
    decreases MAX_CHANNEL + 1 - ch
  {
    if ch > MAX_CHANNEL {
    } else {
      OthersAscend(table, ch + 2);
      var rest := Others(table, ch + 2);
      forall j | 0 <= j < |rest| ensures ch < rest[j] { OthersMembers(table, ch + 2, rest[j]); }
    }
  }

  /** After home come the preferred channels in the order of preference, then the others upwards. */
  lemma SweepOrder(table: seq<nat>, home: nat, i: nat, j: nat)
    requires Preference(table) && home <= MAX_CHANNEL && 0 < i < j < Count(home)
    ensures var a, b := Candidate(table, home, i), Candidate(table, home, j);
            && (b in table ==> Precedes(table, a, b))
            && (a !in table ==> b !in table && a < b)
  {
    hide Except, Others, Precedes;
    SweepLength(table, home);
    var first, rest := Except(table, home), Except(Others(table, 0), home);
    var a, b := Candidate(table, home, i), Candidate(table, home, j);
    ExceptMembers(table, home, a);
    ExceptMembers(Others(table, 0), home, b);
    OthersMembers(table, 0, b);
    if j <= |first| {
      assert b == first[j - 1] && a == first[i - 1];
      ExceptOrder(table, home, i - 1, j - 1);
    } else {
      var m := j - 1 - |first|;
      assert b == rest[m];
      if i > |first| {
        assert a == rest[i - 1 - |first|];
        ExceptOrder(Others(table, 0), home, i - 1 - |first|, m);
        OthersAscend(table, 0);
        PrecedesAscends(Others(table, 0), a, b);
      } else {
        assert a == first[i - 1];
      }
    }
  }

  lemma PrecedesAscends(s: seq<nat>, a: nat, b: nat)
    requires Precedes(s, a, b) && forall i, j | 0 <= i < j < |s| :: s[i] < s[j]
    ensures a < b
  {
  }
}
