/** What the model needs of Go's sort.Slice: an ascending rearrangement by an
    integer key. Among equal keys Go leaves the order open; this sort keeps the
    given one. UniqueSort shows that with distinct keys there is nothing to choose. */
module Sorting {

  ghost predicate Ascending<T>(key: T -> int, s: seq<T>) {
    forall i, j | 0 <= i < j < |s| :: key(s[i]) <= key(s[j])
  }

  ghost predicate DistinctKeys<T>(key: T -> int, s: seq<T>) {
    forall i, j | 0 <= i < j < |s| :: key(s[i]) != key(s[j])
  }

  /** How many leading elements of s[from..] have a key below x's. */
  function Position<T>(key: T -> int, x: T, s: seq<T>, from: nat): (p: nat)
    requires from <= |s|
    ensures from <= p <= |s| && (p < |s| ==> key(x) <= key(s[p]))
    ensures forall i | from <= i < p :: key(s[i]) < key(x)
    decreases |s| - from
  {
    if from == |s| || key(x) <= key(s[from]) then from else Position(key, x, s, from + 1)
  }

  lemma InsertAt<T>(key: T -> int, x: T, s: seq<T>, p: nat)
    requires Ascending(key, s) && p <= |s|
    requires forall i | 0 <= i < p :: key(s[i]) < key(x)
    requires p < |s| ==> key(x) <= key(s[p])
    ensures Ascending(key, s[..p] + [x] + s[p..])
  {
    var r := s[..p] + [x] + s[p..];
    forall i, j | 0 <= i < j < |r|
      ensures key(r[i]) <= key(r[j])
    {
      var a, b := if i < p then i else i - 1, if j < p then j else j - 1;
      if i == p && j > p {
        assert key(s[p]) <= key(s[b]);
      } else if i != p && j != p {
        assert key(s[a]) <= key(s[b]);
      }
    }
  }

  function Insert<T>(key: T -> int, x: T, s: seq<T>): (r: seq<T>)
    requires Ascending(key, s)
    ensures Ascending(key, r) && multiset(r) == multiset{x} + multiset(s) && |r| == |s| + 1
  {
    var p := Position(key, x, s, 0);
    assert s == s[..p] + s[p..];
    InsertAt(key, x, s, p);
    s[..p] + [x] + s[p..]
  }

  function SortBy<T>(key: T -> int, s: seq<T>): (r: seq<T>)
    ensures Ascending(key, r) && multiset(r) == multiset(s) && |r| == |s|
  {
    if s == [] then []
    else
      assert s == [s[0]] + s[1..];
      Insert(key, s[0], SortBy(key, s[1..]))
  }

  lemma SameElements<T>(a: seq<T>, b: seq<T>)
    requires multiset(a) == multiset(b)
    ensures forall x :: x in a <==> x in b
  {
    forall x
      ensures x in a <==> x in b
    {
      assert x in a <==> x in multiset(a);
    }
  }

  lemma HeadsAgree<T>(key: T -> int, a: seq<T>, b: seq<T>)
    requires Ascending(key, a) && Ascending(key, b) && DistinctKeys(key, a) && multiset(a) == multiset(b) && a != []
    ensures b != [] && a[0] == b[0]
  {
    SameElements(a, b);
    assert a[0] in b && b != [];
    var i :| 0 <= i < |b| && b[i] == a[0];
    assert b[0] in a;
    var j :| 0 <= j < |a| && a[j] == b[0];
    assert key(a[0]) == key(a[j]) by { assert key(b[0]) <= key(b[i]); assert key(a[0]) <= key(a[j]); }
  }

  lemma Tail<T>(key: T -> int, a: seq<T>)
    requires a != []
    ensures multiset(a[1..]) == multiset(a) - multiset{a[0]}
    ensures Ascending(key, a) ==> Ascending(key, a[1..])
    ensures DistinctKeys(key, a) ==> DistinctKeys(key, a[1..])
  {
    assert a == [a[0]] + a[1..];
  }

  /** Any two ascending rearrangements of elements with distinct keys are equal. */
  lemma {:induction false} UniqueSort<T>(key: T -> int, a: seq<T>, b: seq<T>)
    requires Ascending(key, a) && Ascending(key, b) && DistinctKeys(key, a) && multiset(a) == multiset(b)
    ensures a == b
  {
    hide Ascending, DistinctKeys;
    assert |a| == |multiset(a)| == |multiset(b)| == |b|;
    if a != [] {
      HeadsAgree(key, a, b);
      Tail(key, a);
      Tail(key, b);
      assert a == [a[0]] + a[1..] && b == [b[0]] + b[1..];
      UniqueSort(key, a[1..], b[1..]);
    }
  }
}
