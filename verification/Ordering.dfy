/** Sorting as Go's sort.Slice promises it: a sorted permutation, with no
    stability. Where ties mean equality the result is unique. */
module Ordering {

  /** The comparison contract of sort.Slice. */
  ghost predicate StrictWeak<T(!new)>(less: (T, T) -> bool)
  {
    && (forall x :: !less(x, x))
    && (forall x, y, z :: less(x, y) && less(y, z) ==> less(x, z))
    && (forall x, y, z :: !less(x, y) && !less(y, z) ==> !less(x, z))
  }

  ghost predicate Sorted<T>(less: (T, T) -> bool, s: seq<T>)
  {
    forall i, j | 0 <= i < j < |s| :: !less(s[j], s[i])
  }

  /** Elements that compare as equal are the same value. */
  ghost predicate TiesAreEqual<T(!new)>(less: (T, T) -> bool, m: multiset<T>)
  {
    forall x, y | x in m && y in m :: !less(x, y) && !less(y, x) ==> x == y
  }

  lemma HeadTail<T>(s: seq<T>)
    requires s != []
    ensures multiset(s) == multiset{s[0]} + multiset(s[1..])
    ensures forall x :: x in multiset(s) <==> x in s
  {
    assert s == [s[0]] + s[1..];
  }

  lemma SortedTail<T>(less: (T, T) -> bool, s: seq<T>)
    requires Sorted(less, s) && s != []
    ensures Sorted(less, s[1..])
    ensures forall x | x in s :: x == s[0] || !less(x, s[0])
  {
    forall x | x in s ensures x == s[0] || !less(x, s[0]) {
      var k :| 0 <= k < |s| && s[k] == x;
    }
  }

  /** Any two sorted arrangements of one multiset are the same sequence. */
  lemma {:induction false} SortedUnique<T(!new)>(less: (T, T) -> bool, a: seq<T>, b: seq<T>)
    requires multiset(a) == multiset(b)
    requires Sorted(less, a) && Sorted(less, b)
    requires TiesAreEqual(less, multiset(a))
    ensures a == b
    decreases |a|
  {
    assert |b| == |multiset(b)| == |a|;
    if a != [] {
      SameHead(less, a, b);
      SameTail(a, b);
      SortedTail(less, a);
      SortedTail(less, b);
      assert TiesAreEqual(less, multiset(a[1..])) by { HeadTail(a); }
      hide Sorted, TiesAreEqual;
      SortedUnique(less, a[1..], b[1..]);
      assert a == [a[0]] + a[1..] && b == [b[0]] + b[1..];
    }
  }

  lemma SameHead<T(!new)>(less: (T, T) -> bool, a: seq<T>, b: seq<T>)
    requires multiset(a) == multiset(b) && a != [] && b != []
    requires Sorted(less, a) && Sorted(less, b) && TiesAreEqual(less, multiset(a))
    ensures a[0] == b[0]
  {
    HeadTail(a);
    HeadTail(b);
    SortedTail(less, a);
    SortedTail(less, b);
    hide Sorted;
    assert a[0] in b && b[0] in a;
  }

  lemma SameTail<T>(a: seq<T>, b: seq<T>)
    requires multiset(a) == multiset(b) && a != [] && b != [] && a[0] == b[0]
    ensures multiset(a[1..]) == multiset(b[1..])
  {
    HeadTail(a);
    HeadTail(b);
    assert multiset(a[1..]) == multiset(a) - multiset{a[0]};
    assert multiset(b[1..]) == multiset(b) - multiset{b[0]};
  }

  /** Where an element belongs among sorted ones: after all that are not greater. */
  method InsertionPoint<T(!new)>(less: (T, T) -> bool, s: seq<T>, x: T) returns (k: nat)
    requires StrictWeak(less) && Sorted(less, s)
    ensures k <= |s|
    ensures forall i | 0 <= i < k :: !less(x, s[i])
    ensures forall i | k <= i < |s| :: !less(s[i], x)
  {
    k := |s|;
    while k > 0 && less(x, s[k - 1])
      invariant k <= |s|
      invariant forall i | k <= i < |s| :: !less(s[i], x)
    {
      k := k - 1;
    }
    if k > 0 {
      forall i | 0 <= i < k ensures !less(x, s[i]) {
        assert i < k - 1 ==> !less(s[k - 1], s[i]);
      }
    }
  }

  lemma Inserted<T>(less: (T, T) -> bool, s: seq<T>, k: nat, x: T)
    requires k <= |s| && Sorted(less, s)
    requires forall i | 0 <= i < k :: !less(x, s[i])
    requires forall i | k <= i < |s| :: !less(s[i], x)
    ensures Sorted(less, s[..k] + [x] + s[k..])
    ensures multiset(s[..k] + [x] + s[k..]) == multiset(s) + multiset{x}
  {
    assert s == s[..k] + s[k..];
  }

  lemma SortedEmpty<T>(less: (T, T) -> bool)
    ensures Sorted(less, [])
  {
  }

  method SortSlice<T(!new)>(less: (T, T) -> bool, s: seq<T>) returns (r: seq<T>)
    requires StrictWeak(less)
    ensures multiset(r) == multiset(s)
    ensures Sorted(less, r)
  {
    hide StrictWeak, Sorted;
    r := [];
    assert Sorted(less, r) by { SortedEmpty(less); }
    for n := 0 to |s|
      invariant multiset(r) == multiset(s[..n])
      invariant Sorted(less, r)
    {
      var k := InsertionPoint(less, r, s[n]);
      Inserted(less, r, k, s[n]);
      assert s[..n + 1] == s[..n] + [s[n]];
      r := r[..k] + [s[n]] + r[k..];
    }
    assert s[..|s|] == s;
  }
}
