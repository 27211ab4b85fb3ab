/** Sequences ascending in an integer key: uniqueness, filtering, sorting, deduplication. */
module Ordering {

  predicate Ascending<T>(key: T -> int, s: seq<T>) {
    forall i, j | 0 <= i < j < |s| :: key(s[i]) < key(s[j])
  }

  predicate Distinct<T(==)>(s: seq<T>) {
    forall i, j | 0 <= i < j < |s| :: s[i] != s[j]
  }

  ghost predicate SameMembers<T(!new)>(a: seq<T>, b: seq<T>) {
    forall x :: x in a <==> x in b
  }

  lemma TailMembers<T(!new)>(key: T -> int, s: seq<T>, x: T)
    requires s != [] && Ascending(key, s)
    ensures x in s[1..] <==> x in s && x != s[0]
  {
    assert s == [s[0]] + s[1..];
  }

  /** An ascending sequence is determined by its members. */
  lemma {:induction false} AscendingUnique<T(!new)>(key: T -> int, a: seq<T>, b: seq<T>)
    requires Ascending(key, a) && Ascending(key, b) && SameMembers(a, b)
    ensures a == b
  {
    assert a != [] ==> a[0] in b;
    assert b != [] ==> b[0] in a;
    if a != [] && b != [] {
      var i :| 0 <= i < |a| && a[i] == b[0];
      var j :| 0 <= j < |b| && b[j] == a[0];
      assert a[0] == b[0];
      forall x ensures x in a[1..] <==> x in b[1..] {
        TailMembers(key, a, x);
        TailMembers(key, b, x);
      }
      AscendingUnique(key, a[1..], b[1..]);
    }
  }

  /** Insertion sort. */
  function Insert<T>(key: T -> int, x: T, s: seq<T>): seq<T> {
    if s == [] || key(x) <= key(s[0]) then [x] + s else [s[0]] + Insert(key, x, s[1..])
  }

  function Sort<T>(key: T -> int, s: seq<T>): seq<T> {
    if s == [] then [] else Insert(key, s[0], Sort(key, s[1..]))
  }

  lemma {:induction false} InsertMembers<T>(key: T -> int, x: T, s: seq<T>, y: T)
    ensures y in Insert(key, x, s) <==> y == x || y in s
  {
    if s != [] && key(x) > key(s[0]) {
      InsertMembers(key, x, s[1..], y);
      assert s == [s[0]] + s[1..];
    }
  }

  lemma {:induction false} SortMembers<T>(key: T -> int, s: seq<T>, y: T)
    ensures y in Sort(key, s) <==> y in s
  {
    if s != [] {
      SortMembers(key, s[1..], y);
      InsertMembers(key, s[0], Sort(key, s[1..]), y);
      assert s == [s[0]] + s[1..];
    }
  }

  lemma {:induction false} InsertAscending<T>(key: T -> int, x: T, s: seq<T>)
    requires Ascending(key, s) && forall y | y in s :: key(y) != key(x)
    ensures Ascending(key, Insert(key, x, s))
  {
    if s != [] && key(x) > key(s[0]) {
      InsertAscending(key, x, s[1..]);
      forall y | y in Insert(key, x, s[1..]) ensures key(s[0]) < key(y) {
        InsertMembers(key, x, s[1..], y);
      }
    } else if s != [] {
      assert s[0] in s;
      assert forall i | 0 <= i < |s| :: key(x) < key(s[i]);
    }
  }

  /** Sorting distinct keys makes them ascend. */
  lemma {:induction false} SortAscending<T>(key: T -> int, s: seq<T>)
    requires forall i, j | 0 <= i < j < |s| :: key(s[i]) != key(s[j])
    ensures Ascending(key, Sort(key, s))
  {
    if s != [] {
      SortAscending(key, s[1..]);
      forall y | y in Sort(key, s[1..]) ensures key(y) != key(s[0]) {
        SortMembers(key, s[1..], y);
      }
      InsertAscending(key, s[0], Sort(key, s[1..]));
    }
  }

  /** Drops repetitions, keeping first occurrences. */
  method Deduplicate<T(==,!new)>(s: seq<T>) returns (out: seq<T>)
    ensures SameMembers(out, s) && Distinct(out)
  {
    out := [];
    for n := 0 to |s|
      invariant SameMembers(out, s[..n]) && Distinct(out)
    {
      assert s[..n + 1] == s[..n] + [s[n]];
      if s[n] !in out {
        out := out + [s[n]];
      }
    }
    assert s[..|s|] == s;
  }
}
