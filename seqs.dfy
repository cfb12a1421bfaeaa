/** Order-preserving filters, duplicate removal and first-match lookup on sequences. */
module Seqs {

  /** `Array.prototype.filter`: the elements satisfying `p`, in their original order. */
  function Filter<T(==,!new)>(s: seq<T>, p: T -> bool): (r: seq<T>)
    ensures |r| <= |s|
    ensures forall x :: x in r <==> x in s && p(x)
    ensures IsSubsequence(r, s)
  {
    if s == [] then []
    else
      var rest := Filter(s[1..], p);
      assert forall x :: x in s <==> x == s[0] || x in s[1..];
      if p(s[0]) then [s[0]] + rest else rest
  }

  /** `a` can be obtained from `b` by deleting elements: same relative order. */
  predicate IsSubsequence<T(==,!new)>(a: seq<T>, b: seq<T>)
    decreases |b|
  {
    if a == [] then true
    else if b == [] then false
    else if a[0] == b[0] then IsSubsequence(a[1..], b[1..])
    else IsSubsequence(a, b[1..])
  }

  lemma {:induction false} FilterAll<T(!new)>(s: seq<T>, p: T -> bool)
    requires forall x :: x in s ==> p(x)
    ensures Filter(s, p) == s
  {
    if s != [] {
      FilterAll(s[1..], p);
    }
  }

  lemma {:induction false} FilterNone<T(!new)>(s: seq<T>, p: T -> bool)
    requires forall x :: x in s ==> !p(x)
    ensures Filter(s, p) == []
  {
    if s != [] {
      FilterNone(s[1..], p);
    }
  }

  /** Filtering a concatenation filters each part. */
  lemma {:induction false} FilterConcat<T(!new)>(a: seq<T>, b: seq<T>, p: T -> bool)
    ensures Filter(a + b, p) == Filter(a, p) + Filter(b, p)
  {
    if a == [] {
      assert a + b == b;
    } else {
      assert (a + b)[1..] == a[1..] + b;
      FilterConcat(a[1..], b, p);
    }
  }

  /** Splitting by a predicate and its negation partitions the elements. */
  lemma {:induction false} FilterPartition<T(!new)>(s: seq<T>, p: T -> bool, q: T -> bool)
    requires forall x :: x in s ==> (q(x) <==> !p(x))
    ensures |Filter(s, p)| + |Filter(s, q)| == |s|
  {
    if s != [] {
      FilterPartition(s[1..], p, q);
    }
  }

  predicate NoDup<T(==,!new)>(s: seq<T>) {
    forall i, j :: 0 <= i < j < |s| ==> s[i] != s[j]
  }

  /** The first index of `x` in `s`. */
  function IndexOf<T(==,!new)>(s: seq<T>, x: T): (i: nat)
    requires x in s
    ensures i < |s| && s[i] == x
    ensures forall k :: 0 <= k < i ==> s[k] != x
  {
    if s[0] == x then 0 else 1 + IndexOf(s[1..], x)
  }

  /**
   * The distinct elements of `s`, each kept where it first occurs; defined by
   * extending on the right, as a loop that skips values already seen does.
   */
  function Dedup<T(==,!new)>(s: seq<T>): (r: seq<T>)
  {
    if s == [] then []
    else
      var init := s[..|s| - 1];
      if s[|s| - 1] in init then Dedup(init) else Dedup(init) + [s[|s| - 1]]
  }

  lemma {:induction false} DedupSpec<T(!new)>(s: seq<T>)
    ensures forall x :: x in Dedup(s) <==> x in s
    ensures NoDup(Dedup(s))
  {
    if s != [] {
      var init := s[..|s| - 1];
      assert s == init + [s[|s| - 1]];
      DedupSpec(init);
    }
  }

  /** Appending a value extends `Dedup` by that value exactly when it is new. */
  lemma DedupSnoc<T(!new)>(s: seq<T>, x: T)
    ensures Dedup(s + [x]) == if x in s then Dedup(s) else Dedup(s) + [x]
  {
    assert (s + [x])[..|s|] == s;
  }

  /** `Dedup` lists the values in the order of their first occurrence in `s`. */
  lemma {:induction false} DedupFirstOccurrenceOrder<T(!new)>(s: seq<T>)
    ensures forall i, j :: 0 <= i < j < |Dedup(s)| ==>
      Dedup(s)[i] in s && Dedup(s)[j] in s && IndexOf(s, Dedup(s)[i]) < IndexOf(s, Dedup(s)[j])
  {
    if s != [] {
      var init := s[..|s| - 1];
      var last := s[|s| - 1];
      assert s == init + [last];
      DedupFirstOccurrenceOrder(init);
      DedupSpec(init);
      var d := Dedup(init);
      forall x | x in init ensures x in s && IndexOf(s, x) == IndexOf(init, x) {
        PrefixIndexOf(init, [last], x);
      }
      var r := Dedup(s);
      if last !in init {
        assert r == d + [last];
        assert IndexOf(s, last) == |init| by {
          forall k | 0 <= k < |init| ensures s[k] != last { assert s[k] == init[k]; }
        }
        forall i, j | 0 <= i < j < |r|
          ensures r[i] in s && r[j] in s && IndexOf(s, r[i]) < IndexOf(s, r[j])
        {
          assert r[i] == d[i] && d[i] in d;
          if j < |d| {
            assert r[j] == d[j] && d[j] in d;
          }
        }
      } else {
        assert r == d;
        forall i, j | 0 <= i < j < |r|
          ensures r[i] in s && r[j] in s && IndexOf(s, r[i]) < IndexOf(s, r[j])
        {
          assert d[i] in d && d[j] in d;
        }
      }
    } else {
      assert Dedup(s) == [];
    }
  }

  lemma {:induction false} PrefixIndexOf<T(!new)>(a: seq<T>, b: seq<T>, x: T)
    requires x in a
    ensures x in a + b && IndexOf(a + b, x) == IndexOf(a, x)
  {
    if a[0] != x {
      assert (a + b)[1..] == a[1..] + b;
      PrefixIndexOf(a[1..], b, x);
    }
  }

  /** A sequence without duplicates is its own `Dedup`. */
  lemma {:induction false} DedupOfNoDup<T(!new)>(s: seq<T>)
    requires NoDup(s)
    ensures Dedup(s) == s
  {
    if s != [] {
      var init := s[..|s| - 1];
      assert s == init + [s[|s| - 1]];
      DedupOfNoDup(init);
    }
  }

  /** The elements of `s` not in `r`, in order. */
  function Without<T(==,!new)>(s: seq<T>, r: set<T>): (t: seq<T>)
    ensures forall x :: x in t <==> x in s && x !in r
    ensures IsSubsequence(t, s)
  {
    if s == [] then []
    else
      var rest := Without(s[1..], r);
      assert forall x :: x in s <==> x == s[0] || x in s[1..];
      if s[0] in r then rest else [s[0]] + rest
  }

  /** Dropping elements keeps a sequence free of duplicates. */
  lemma {:induction false} WithoutKeepsNoDup<T(!new)>(s: seq<T>, r: set<T>)
    requires NoDup(s)
    ensures NoDup(Without(s, r))
  {
    if s != [] {
      var tail := s[1..];
      assert forall k :: 0 <= k < |tail| ==> tail[k] == s[k + 1];
      assert NoDup(tail);
      assert s[0] !in tail;
      WithoutKeepsNoDup(tail, r);
      var rest := Without(tail, r);
      if s[0] !in r {
        var t := [s[0]] + rest;
        forall i, j | 0 <= i < j < |t| ensures t[i] != t[j] {
          if i == 0 {
            assert t[j] in rest;
          } else {
            assert t[i] == rest[i - 1] && t[j] == rest[j - 1];
          }
        }
      }
    }
  }

  lemma {:induction false} WithoutTwice<T(!new)>(s: seq<T>, r1: set<T>, r2: set<T>)
    ensures Without(Without(s, r1), r2) == Without(s, r1 + r2)
  {
    if s != [] {
      WithoutTwice(s[1..], r1, r2);
    }
  }

  lemma {:induction false} WithoutNothing<T(!new)>(s: seq<T>)
    ensures Without(s, {}) == s
  {
    if s != [] {
      WithoutNothing(s[1..]);
    }
  }
}
