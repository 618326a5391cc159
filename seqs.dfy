/** Sequence helpers for the source's array methods: `filter`, "no duplicates"
    (socket.io's room sets), order-preserving subsequences and counting. */
module Seqs {
  import opened Wrappers

  /** No element occurs twice. */
  ghost predicate NoDup<T>(s: seq<T>) {
    forall i, j | 0 <= i < j < |s| :: s[i] != s[j]
  }

  /** `a` is `b` with some elements left out, the rest in their original order. */
  ghost predicate IsSubseq<T>(a: seq<T>, b: seq<T>)
    decreases |b|
  {
    if |a| == 0 then true
    else if |b| == 0 then false
    else if a[0] == b[0] then IsSubseq(a[1..], b[1..])
    else IsSubseq(a, b[1..])
  }

  /** Putting an element in front of `b` keeps every subsequence of `b` one of it. */
  lemma {:induction false} SubseqCons<T>(a: seq<T>, x: T, b: seq<T>)
    requires IsSubseq(a, b)
    ensures IsSubseq(a, [x] + b)
    decreases |b|, 1
  {
    if |a| > 0 {
      assert ([x] + b)[1..] == b;
      if a[0] == x {
        SubseqTail(a, b);
      }
    }
  }

  /** Dropping the first element of a subsequence leaves a subsequence. */
  lemma {:induction false} SubseqTail<T>(a: seq<T>, b: seq<T>)
    requires |a| > 0 && IsSubseq(a, b)
    ensures IsSubseq(a[1..], b)
    decreases |b|, 0
  {
    assert b == [b[0]] + b[1..];
    if a[0] != b[0] {
      SubseqTail(a, b[1..]);
    }
    SubseqCons(a[1..], b[0], b[1..]);
  }

  /** Every sequence is a subsequence of itself. */
  lemma {:induction false} SubseqRefl<T>(s: seq<T>)
    ensures IsSubseq(s, s)
    decreases |s|
  {
    if |s| > 0 {
      SubseqRefl(s[1..]);
    }
  }

  /** `s.filter(f)`: the elements satisfying `f`, in their original order. */
  function Filter<T(!new)>(s: seq<T>, f: T -> bool): (r: seq<T>)
    ensures |r| <= |s|
    ensures forall x :: x in r <==> x in s && f(x)
    ensures forall k :: 0 <= k < |r| ==> f(r[k])
    ensures IsSubseq(r, s)
    decreases |s|
  {
    if |s| == 0 then []
    else
      var rest := Filter(s[1..], f);
      assert s == [s[0]] + s[1..];
      if f(s[0]) then
        assert ([s[0]] + rest)[1..] == rest;
        [s[0]] + rest
      else
        SubseqCons(rest, s[0], s[1..]);
        rest
  }

  /** Filtering keeps every passing element as often as it occurs and drops every
      other one. */
  lemma {:induction false} FilterMultiset<T(!new)>(s: seq<T>, f: T -> bool)
    ensures forall x :: multiset(Filter(s, f))[x] == if f(x) then multiset(s)[x] else 0
    decreases |s|
  {
    if |s| > 0 {
      FilterMultiset(s[1..], f);
      assert s == [s[0]] + s[1..];
      assert multiset(s) == multiset([s[0]]) + multiset(s[1..]);
      var rest := Filter(s[1..], f);
      if f(s[0]) {
        assert multiset([s[0]] + rest) == multiset([s[0]]) + multiset(rest);
      }
    }
  }

  /** The tail of a duplicate-free sequence is duplicate-free and misses the head. */
  lemma NoDupTail<T>(s: seq<T>)
    requires |s| > 0 && NoDup(s)
    ensures NoDup(s[1..]) && s[0] !in s[1..]
  {
    forall i, j | 0 <= i < j < |s| - 1 ensures s[1..][i] != s[1..][j] {
      assert s[1..][i] == s[i + 1] && s[1..][j] == s[j + 1];
    }
    forall k | 0 <= k < |s| - 1 ensures s[1..][k] != s[0] {
      assert s[1..][k] == s[k + 1];
    }
  }

  /** A new element in front of a duplicate-free sequence keeps it duplicate-free. */
  lemma NoDupCons<T>(x: T, s: seq<T>)
    requires NoDup(s) && x !in s
    ensures NoDup([x] + s)
  {
    var r := [x] + s;
    forall i, j | 0 <= i < j < |r| ensures r[i] != r[j] {
      assert r[j] == s[j - 1];
      if i > 0 { assert r[i] == s[i - 1]; }
    }
  }

  /** Filtering keeps a duplicate-free sequence duplicate-free. */
  lemma {:induction false} FilterNoDup<T(!new)>(s: seq<T>, f: T -> bool)
    ensures NoDup(s) ==> NoDup(Filter(s, f))
    decreases |s|
  {
    if |s| > 0 && NoDup(s) {
      NoDupTail(s);
      FilterNoDup(s[1..], f);
      if f(s[0]) {
        NoDupCons(s[0], Filter(s[1..], f));
      }
    }
  }

  /** Filtering twice with the same test changes nothing the second time. */
  lemma {:induction false} FilterIdempotent<T(!new)>(s: seq<T>, f: T -> bool)
    ensures Filter(Filter(s, f), f) == Filter(s, f)
    decreases |s|
  {
    if |s| > 0 {
      FilterIdempotent(s[1..], f);
      var rest := Filter(s[1..], f);
      if f(s[0]) {
        assert ([s[0]] + rest)[1..] == rest;
      }
    }
  }

  /** When every element passes the test, filtering returns the sequence itself. */
  lemma {:induction false} FilterAll<T(!new)>(s: seq<T>, f: T -> bool)
    requires forall k :: 0 <= k < |s| ==> f(s[k])
    ensures Filter(s, f) == s
    decreases |s|
  {
    if |s| > 0 {
      FilterAll(s[1..], f);
      assert s == [s[0]] + s[1..];
    }
  }

  /** When no element passes the test, filtering returns the empty sequence. */
  lemma {:induction false} FilterNone<T(!new)>(s: seq<T>, f: T -> bool)
    requires forall k :: 0 <= k < |s| ==> !f(s[k])
    ensures Filter(s, f) == []
    decreases |s|
  {
    if |s| > 0 {
      FilterNone(s[1..], f);
    }
  }

  /** A filter and the filter of the opposite test split the sequence in two. */
  lemma {:induction false} FilterComplementLength<T(!new)>(s: seq<T>, f: T -> bool, g: T -> bool)
    requires forall x :: g(x) == !f(x)
    ensures |Filter(s, f)| + |Filter(s, g)| == |s|
    decreases |s|
  {
    if |s| > 0 {
      FilterComplementLength(s[1..], f, g);
    }
  }

  /** Filtering a sequence with one more element at the end. */
  lemma {:induction false} FilterAppend<T(!new)>(s: seq<T>, x: T, f: T -> bool)
    ensures Filter(s + [x], f) == Filter(s, f) + (if f(x) then [x] else [])
    decreases |s|
  {
    if |s| > 0 {
      assert (s + [x])[1..] == s[1..] + [x];
      FilterAppend(s[1..], x, f);
    } else {
      assert [x][1..] == [];
    }
  }

  /** `s.findIndex(f)`, with "not found" as `None`: the earliest position passing `f`. */
  function FindIndex<T(!new)>(s: seq<T>, f: T -> bool): (r: Option<nat>)
    ensures r.Some? ==> r.value < |s| && f(s[r.value])
    ensures r.Some? ==> forall k | 0 <= k < r.value :: !f(s[k])
    ensures r.None? <==> forall x | x in s :: !f(x)
    decreases |s|
  {
    if |s| == 0 then None
    else if f(s[0]) then Some(0)
    else
      match FindIndex(s[1..], f)
      case None => None
      case Some(i) => Some(i + 1)
  }

  /** `s.find(f)`: the earliest element passing `f`. */
  function FindFirst<T(!new)>(s: seq<T>, f: T -> bool): (r: Option<T>)
    ensures r.Some? ==> r.value in s && f(r.value)
    ensures r.Some? ==> exists i | 0 <= i < |s| :: s[i] == r.value && forall k | 0 <= k < i :: !f(s[k])
    ensures r.None? <==> forall x | x in s :: !f(x)
  {
    match FindIndex(s, f)
    case None => None
    case Some(i) => Some(s[i])
  }

  /** Position `i` holds the earliest element of `s` passing `f`. */
  predicate FirstAt<T>(s: seq<T>, f: T -> bool, i: int) {
    0 <= i < |s| && f(s[i]) && forall k | 0 <= k < i :: !f(s[k])
  }

  /** `find` answers the element at the earliest passing position. */
  lemma FindFirstAt<T(!new)>(s: seq<T>, f: T -> bool)
    ensures forall i | FirstAt(s, f, i) :: FindFirst(s, f) == Some(s[i])
  {
    forall i | FirstAt(s, f, i) ensures FindFirst(s, f) == Some(s[i]) {
      assert s[i] in s;
      var j := FindIndex(s, f).value;
      assert !(j < i) && !(i < j);
    }
  }

  /** Keys never increase from left to right. */
  ghost predicate SortedDesc<T>(s: seq<T>, key: T -> int) {
    forall i, j | 0 <= i < j < |s| :: key(s[i]) >= key(s[j])
  }

  /** Put `x` before the first element whose key is not greater than its own. */
  function InsertDesc<T>(x: T, s: seq<T>, key: T -> int): (r: seq<T>)
    ensures multiset(r) == multiset(s) + multiset{x}
    ensures |r| == |s| + 1
    ensures forall y | y in r :: y == x || y in s
    decreases |s|
  {
    if |s| == 0 || key(s[0]) <= key(x) then
      [x] + s
    else
      var rest := InsertDesc(x, s[1..], key);
      assert s == [s[0]] + s[1..];
      [s[0]] + rest
  }

  /** A sorted sequence stays sorted under a new first element with the largest key. */
  lemma SortedCons<T>(a: T, s: seq<T>, key: T -> int)
    requires SortedDesc(s, key)
    requires forall y | y in s :: key(a) >= key(y)
    ensures SortedDesc([a] + s, key)
  {
    var r := [a] + s;
    forall i, j | 0 <= i < j < |r| ensures key(r[i]) >= key(r[j]) {
      assert r[j] == s[j - 1];
      if i > 0 {
        assert r[i] == s[i - 1];
      }
    }
  }

  lemma {:induction false} InsertDescSorted<T>(x: T, s: seq<T>, key: T -> int)
    requires SortedDesc(s, key)
    ensures SortedDesc(InsertDesc(x, s, key), key)
    decreases |s|
  {
    if |s| > 0 && key(s[0]) > key(x) {
      assert SortedDesc(s[1..], key) by {
        forall i, j | 0 <= i < j < |s| - 1 ensures key(s[1..][i]) >= key(s[1..][j]) {
          assert s[1..][i] == s[i + 1] && s[1..][j] == s[j + 1];
        }
      }
      InsertDescSorted(x, s[1..], key);
      var rest := InsertDesc(x, s[1..], key);
      forall y | y in rest ensures key(s[0]) >= key(y) {
        if y != x {
          var k :| 0 <= k < |s| - 1 && s[1..][k] == y;
          assert s[1..][k] == s[k + 1];
        }
      }
      SortedCons(s[0], rest, key);
    } else if |s| > 0 {
      forall y | y in s ensures key(x) >= key(y) {
        var k :| 0 <= k < |s| && s[k] == y;
        if k > 0 {
          assert key(s[0]) >= key(s[k]);
        }
      }
      SortedCons(x, s, key);
    }
  }

  /** Order by `key` descending, elements with equal keys keeping their order
      (an insertion sort, the model of an `orderBy: { createdAt: "desc" }` query). */
  function SortDesc<T(!new)>(s: seq<T>, key: T -> int): (r: seq<T>)
    ensures multiset(r) == multiset(s)
    ensures |r| == |s|
    ensures SortedDesc(r, key)
    ensures forall x :: x in r <==> x in s
    decreases |s|
  {
    if |s| == 0 then []
    else
      assert s == [s[0]] + s[1..];
      var rest := SortDesc(s[1..], key);
      InsertDescSorted(s[0], rest, key);
      var r := InsertDesc(s[0], rest, key);
      assert forall x :: x in r <==> x in multiset(r);
      assert forall x :: x in s <==> x in multiset(s);
      r
  }
}
