/** Facts about sequences the solver does not find by itself. */
module Sequences {
  lemma Regroup<T>(a: seq<T>, b: seq<T>, c: seq<T>)
    ensures a + b + c == a + (b + c)
  {
  }

  /** Moving the split between two slices back, or on, moves the elements passed over. */
  lemma SplitBack<T>(s: seq<T>, at: nat, middle: nat, end: nat)
    requires at <= middle <= end <= |s|
    ensures s[..middle][..at] == s[..at] && s[..middle][at..] + s[middle..end] == s[at..end]
  {
  }

  lemma SplitOn<T>(s: seq<T>, middle: nat, at: nat, end: nat)
    requires middle <= at <= end <= |s|
    ensures s[..middle] + s[middle..end][..at - middle] == s[..at] && s[middle..end][at - middle..] == s[at..end]
  {
  }
}
