/** The row orderings the gateway's `.order(...)` clauses ask for. Rows with
    equal keys may come back in any order. */
module Ordering {

  /** `s` is in ascending order of `key`. */
  predicate SortedBy<T>(s: seq<T>, key: T -> int) {
    forall i, j :: 0 <= i < j < |s| ==> key(s[i]) <= key(s[j])
  }

  /** Inserts `x` into the sorted `s`, before the first element whose key is
      not smaller. */
  function InsertByKey<T>(s: seq<T>, x: T, key: T -> int): (r: seq<T>)
    requires SortedBy(s, key)
    ensures SortedBy(r, key)
    ensures multiset(r) == multiset(s) + multiset{x}
    ensures |r| == |s| + 1 && (r[0] == x || (s != [] && r[0] == s[0]))
    decreases |s|
  {
    if s == [] || key(x) <= key(s[0]) then [x] + s
    else
      var rest := InsertByKey(s[1..], x, key);
      assert s == [s[0]] + s[1..];
      assert key(s[0]) <= key(rest[0]);
      [s[0]] + rest
  }

  /** The rows of `items`, each once, in ascending order of `key`. */
  method SortedSeqOf<T>(items: set<T>, key: T -> int) returns (r: seq<T>)
    ensures SortedBy(r, key)
    ensures multiset(r) == multiset(items)
  {
    r := [];
    var rest := items;
    while rest != {}
      invariant SortedBy(r, key)
      invariant multiset(r) + multiset(rest) == multiset(items)
      decreases |rest|
    {
      var x :| x in rest;
      r := InsertByKey(r, x, key);
      assert multiset(rest) == multiset(rest - {x}) + multiset{x};
      rest := rest - {x};
    }
  }

  /** The rows of `items`, each once, in no particular order. */
  method SeqOf<T>(items: set<T>) returns (r: seq<T>)
    ensures multiset(r) == multiset(items)
  {
    r := [];
    var rest := items;
    while rest != {}
      invariant multiset(r) + multiset(rest) == multiset(items)
      decreases |rest|
    {
      var x :| x in rest;
      r := r + [x];
      assert multiset(rest) == multiset(rest - {x}) + multiset{x};
      rest := rest - {x};
    }
  }

  /** A list that holds the rows of a set, each once, has no repeated row. */
  lemma NoRepeats<T>(s: seq<T>, items: set<T>)
    requires multiset(s) == multiset(items)
    ensures forall i, j :: 0 <= i < j < |s| ==> s[i] != s[j]
  {
    forall i, j | 0 <= i < j < |s|
      ensures s[i] != s[j]
    {
      assert s == s[..i] + [s[i]] + s[i+1..j] + [s[j]] + s[j+1..];
      assert multiset(s)[s[i]] <= 1;
    }
  }
}
