/**
 Sequence facts used across the model: order-preserving filters, and how filters and
 element-wise maps act on the multiset of a sequence.
 */
module Sequences {

  datatype Option<+T> = None | Some(value: T)

  /** The elements of `s` that satisfy `keep`, in their original order. */
  function Filter<T(!new)>(s: seq<T>, keep: T -> bool): (r: seq<T>)
    ensures |r| <= |s|
    ensures forall x :: x in r <==> x in s && keep(x)
  {
    if s == [] then []
    else
      var n := |s| - 1;
      assert forall x :: x in s <==> x in s[..n] || x == s[n];
      if keep(s[n]) then Filter(s[..n], keep) + [s[n]] else Filter(s[..n], keep)
  }

  lemma FilterNext<T(!new)>(s: seq<T>, i: nat, keep: T -> bool)
    requires i < |s|
    ensures keep(s[i]) ==> Filter(s[..i + 1], keep) == Filter(s[..i], keep) + [s[i]]
    ensures !keep(s[i]) ==> Filter(s[..i + 1], keep) == Filter(s[..i], keep)
  {
    assert s[..i + 1][..i] == s[..i];
  }

  lemma {:induction false} FilterAppend<T(!new)>(a: seq<T>, b: seq<T>, keep: T -> bool)
    ensures Filter(a + b, keep) == Filter(a, keep) + Filter(b, keep)
  {
    if b == [] {
      assert a + b == a;
    } else {
      var n := |b| - 1;
      assert (a + b)[..|a + b| - 1] == a + b[..n];
      FilterAppend(a, b[..n], keep);
    }
  }

  /** A filter keeps every occurrence of a kept element and no occurrence of any other. */
  lemma {:induction false} FilterCount<T(!new)>(s: seq<T>, keep: T -> bool, x: T)
    ensures multiset(Filter(s, keep))[x] == if keep(x) then multiset(s)[x] else 0
  {
    if s == [] {
    } else {
      var n := |s| - 1;
      FilterCount(s[..n], keep, x);
      assert s == s[..n] + [s[n]];
    }
  }

  lemma FilterAll<T(!new)>(s: seq<T>, keep: T -> bool)
    requires forall x :: x in s ==> keep(x)
    ensures Filter(s, keep) == s
  {
    if s != [] {
      var n := |s| - 1;
      assert s == s[..n] + [s[n]];
      FilterAll(s[..n], keep);
    }
  }

  lemma {:induction false} FilterNone<T(!new)>(s: seq<T>, keep: T -> bool)
    requires forall x :: x in s ==> !keep(x)
    ensures Filter(s, keep) == []
  {
    if s == [] {
    } else {
      FilterNone(s[..|s| - 1], keep);
      assert s[|s| - 1] in s;
    }
  }

  /** Splitting by a predicate loses nothing. */
  lemma FilterPartition<T(!new)>(s: seq<T>, keep: T -> bool, drop: T -> bool)
    requires forall x :: x in s ==> (keep(x) <==> !drop(x))
    ensures multiset(Filter(s, keep)) + multiset(Filter(s, drop)) == multiset(s)
  {
    forall x
      ensures (multiset(Filter(s, keep)) + multiset(Filter(s, drop)))[x] == multiset(s)[x]
    {
      FilterCount(s, keep, x);
      FilterCount(s, drop, x);
    }
  }

  /** `s` without its element at `k`. */
  function Without<T>(s: seq<T>, k: nat): (r: seq<T>)
    requires k < |s|
    ensures |r| == |s| - 1
    ensures forall i :: 0 <= i < k ==> r[i] == s[i]
    ensures forall i :: k <= i < |r| ==> r[i] == s[i + 1]
  {
    s[..k] + s[k + 1..]
  }

  lemma WithoutBag<T(!new)>(s: seq<T>, k: nat)
    requires k < |s|
    ensures multiset(s) == multiset(Without(s, k)) + multiset{s[k]}
    ensures multiset(Without(s, k)) == multiset(s) - multiset{s[k]}
    ensures forall x :: x in Without(s, k) ==> x in s
  {
    assert s == s[..k] + ([s[k]] + s[k + 1..]);
    assert multiset(s) == multiset(s[..k]) + (multiset{s[k]} + multiset(s[k + 1..]));
  }

  lemma SameMembers<T(!new)>(a: seq<T>, b: seq<T>)
    requires multiset(a) == multiset(b)
    ensures forall x :: x in a <==> x in b
  {
    assert forall x :: x in a <==> x in multiset(a);
    assert forall x :: x in b <==> x in multiset(b);
  }

  predicate NoDuplicates<T(==)>(s: seq<T>) {
    forall i, j :: 0 <= i < j < |s| ==> s[i] != s[j]
  }

  /** A multiset of a sequence with no element twice is the multiset of its set of elements. */
  lemma {:induction false} DistinctBag<T(!new)>(s: seq<T>)
    ensures (forall x :: multiset(s)[x] <= 1) <==> NoDuplicates(s)
    ensures NoDuplicates(s) ==> multiset(s) == multiset(set x | x in s)
  {
    if s == [] {
    } else {
      var n := |s| - 1;
      assert s == s[..n] + [s[n]];
      DistinctBag(s[..n]);
      if NoDuplicates(s) {
        forall x ensures multiset(s)[x] <= 1 {
          assert multiset(s)[x] == multiset(s[..n])[x] + if x == s[n] then 1 else 0;
        }
      } else {
        if NoDuplicates(s[..n]) {
          assert s[n] in s[..n];
          assert multiset(s)[s[n]] == multiset(s[..n])[s[n]] + 1;
        } else {
          var x :| multiset(s[..n])[x] > 1;
          assert multiset(s)[x] > 1;
        }
      }
      if NoDuplicates(s) {
        assert forall x :: multiset(s)[x] == (multiset(set x | x in s))[x];
      }
    }
  }
}
