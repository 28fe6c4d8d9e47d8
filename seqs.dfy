/**
 * Sequence helpers shared by the list comprehensions and list mutations of
 * the game systems: filtering (`[x for x in s if p(x)]`), order-preserving
 * subsequences, duplicate-freedom, and Python's `list.remove`.
 */
module Seqs {

  /** `a` can be obtained from `b` by deleting elements (order is kept). */
  predicate Subseq<T(==)>(a: seq<T>, b: seq<T>)
    decreases |b|
  {
    if a == [] then true
    else if b == [] then false
    else if a[0] == b[0] then Subseq(a[1..], b[1..])
    else Subseq(a, b[1..])
  }

  /** No element occurs twice. */
  predicate Distinct<T(==)>(s: seq<T>)
  {
    forall i, j :: 0 <= i < j < |s| ==> s[i] != s[j]
  }

  /** `[x for x in s if p(x)]`. */
  function Filter<T>(s: seq<T>, p: T -> bool): (r: seq<T>)
    ensures |r| <= |s|
    ensures forall i :: 0 <= i < |r| ==> p(r[i])
    ensures forall i :: 0 <= i < |r| ==> r[i] in s
    ensures forall i :: 0 <= i < |s| && p(s[i]) ==> s[i] in r
    ensures Subseq(r, s)
  {
    if s == [] then []
    else if p(s[0]) then [s[0]] + Filter(s[1..], p)
    else Filter(s[1..], p)
  }

  /** Python's `s.index(x)`: the position of the first occurrence of `x`. */
  function IndexOf<T(==)>(s: seq<T>, x: T): (k: nat)
    requires x in s
    ensures k < |s| && s[k] == x
    ensures forall j :: 0 <= j < k ==> s[j] != x
  {
    if s[0] == x then 0 else 1 + IndexOf(s[1..], x)
  }

  /** Python's `s.remove(x)`: drop the first occurrence of `x`. */
  function RemoveFirst<T(==)>(s: seq<T>, x: T): (r: seq<T>)
    requires x in s
    ensures |r| == |s| - 1
  {
    var k := IndexOf(s, x);
    s[..k] + s[k + 1..]
  }

  /** Removing an element that does not occur before position |a| removes exactly that position. */
  lemma RemoveFirstAt<T>(a: seq<T>, x: T, b: seq<T>)
    requires x !in a
    ensures RemoveFirst(a + [x] + b, x) == a + b
  {
    var s := a + [x] + b;
    assert s[|a|] == x;
    var k := IndexOf(s, x);
    assert k == |a|;
    assert s[..k] == a && s[k + 1..] == b;
  }

  /** A subsequence of a duplicate-free sequence is duplicate-free. */
  lemma {:induction false} SubseqDistinct<T>(a: seq<T>, b: seq<T>)
    requires Subseq(a, b) && Distinct(b)
    ensures Distinct(a)
    ensures forall i :: 0 <= i < |a| ==> a[i] in b
    decreases |b|
  {
    if a == [] {
    } else if a[0] == b[0] {
      SubseqDistinct(a[1..], b[1..]);
      assert a == [a[0]] + a[1..];
      forall j | 0 < j < |a| ensures a[0] != a[j] {
        assert a[j] in a[1..];
        assert a[j] in b[1..];
        var m :| 0 <= m < |b[1..]| && b[1..][m] == a[j];
        assert b[m + 1] == a[j];
      }
    } else {
      SubseqDistinct(a, b[1..]);
    }
  }

  /** Deleting position `i` of a duplicate-free sequence removes exactly the element there. */
  lemma DeleteAt<T>(s: seq<T>, i: nat)
    requires Distinct(s) && i < |s|
    ensures Distinct(s[..i] + s[i + 1..])
    ensures forall x :: x in s[..i] + s[i + 1..] <==> x in s && x != s[i]
  {
    var r := s[..i] + s[i + 1..];
    assert forall j :: 0 <= j < |r| ==> r[j] == (if j < i then s[j] else s[j + 1]);
    forall x | x in s && x != s[i] ensures x in r {
      var m :| 0 <= m < |s| && s[m] == x;
      if m < i {
        assert r[m] == x;
      } else {
        assert r[m - 1] == x;
      }
    }
  }
}
