/** Sequence helpers shared by the game modules (JavaScript array idioms). */
module Lists {

  predicate NoDup<T(==)>(s: seq<T>) {
    forall i, j :: 0 <= i < j < |s| ==> s[i] != s[j]
  }

  /** `a` is `b` with some entries left out and the rest kept in their order. */
  predicate Subsequence<T(==)>(a: seq<T>, b: seq<T>)
    decreases |b|
  {
    |a| == 0 ||
    (|a| <= |b| &&
     ((a[|a| - 1] == b[|b| - 1] && Subsequence(a[..|a| - 1], b[..|b| - 1])) ||
      Subsequence(a, b[..|b| - 1])))
  }

  /** `s.map(x => id(x))`: each entry's id, in order. */
  function IdsOf<T>(s: seq<T>, id: T -> string): (r: seq<string>)
    ensures |r| == |s|
    ensures forall i :: 0 <= i < |s| ==> r[i] == id(s[i])
  {
    seq(|s|, i requires 0 <= i < |s| => id(s[i]))
  }

  /** `s.find(x => id(x) === k)`, as the index of the first entry whose id is `k`, or -1. */
  function FindIndex<T>(s: seq<T>, id: T -> string, k: string): (i: int)
    ensures -1 <= i < |s|
    ensures i >= 0 ==> id(s[i]) == k && forall j :: 0 <= j < i ==> id(s[j]) != k
    ensures i < 0 <==> forall j :: 0 <= j < |s| ==> id(s[j]) != k
  {
    if |s| == 0 then -1
    else if id(s[0]) == k then 0
    else
      var j := FindIndex(s[1..], id, k);
      if j < 0 then -1 else j + 1
  }

  function Elems<T>(s: seq<T>): set<T> {
    set x | x in s
  }

  /**
   * `Array.from(new Set(s))`: the elements of `s` in order of first occurrence.
   */
  function Dedupe<T(==,!new)>(s: seq<T>): (r: seq<T>)
    ensures NoDup(r)
    ensures forall x :: x in r <==> x in s
    ensures |r| <= |s|
    ensures |s| > 0 ==> |r| > 0 && r[0] == s[0]
  {
    if |s| == 0 then []
    else
      var d := Dedupe(s[..|s| - 1]);
      var last := s[|s| - 1];
      assert forall x :: x in s <==> x in s[..|s| - 1] || x == last;
      if last in d then d else d + [last]
  }

  /** A list without repeats is its own de-duplication. */
  lemma {:induction false} DedupeNoDup<T(!new)>(s: seq<T>)
    requires NoDup(s)
    ensures Dedupe(s) == s
  {
    if |s| > 0 {
      var init := s[..|s| - 1];
      assert NoDup(init);
      DedupeNoDup(init);
      assert s == init + [s[|s| - 1]];
    }
  }

  /** One more element: the de-duplication gains it unless it already holds it. */
  lemma DedupeSnoc<T(!new)>(s: seq<T>, x: T)
    ensures Dedupe(s + [x]) == if x in Dedupe(s) then Dedupe(s) else Dedupe(s) + [x]
  {
    assert (s + [x])[..|s|] == s;
  }

  /** De-duplicating a longer list only appends to the de-duplication of its prefix. */
  lemma {:induction false} DedupeExtends<T(!new)>(s: seq<T>, t: seq<T>)
    ensures |Dedupe(s)| <= |Dedupe(s + t)|
    ensures Dedupe(s + t)[..|Dedupe(s)|] == Dedupe(s)
    decreases |t|
  {
    if |t| == 0 {
      assert s + t == s;
    } else {
      var init := t[..|t| - 1];
      DedupeExtends(s, init);
      assert s + t == (s + init) + [t[|t| - 1]];
      DedupeSnoc(s + init, t[|t| - 1]);
    }
  }

  /**
   * One step of a loop that collects `Take(Dedupe(first + ids), n)`: while
   * fewer than `n` are collected, the next entry of `ids` is appended unless
   * it is already there.
   */
  lemma TakeDedupeNext<T(!new)>(first: seq<T>, ids: seq<T>, n: nat, i: nat, picks: seq<T>)
    requires i < |ids| && |picks| < n
    requires picks == Take(Dedupe(first + ids[..i]), n)
    ensures (if ids[i] in picks then picks else picks + [ids[i]]) == Take(Dedupe(first + ids[..i + 1]), n)
  {
    var d := Dedupe(first + ids[..i]);
    assert picks == d;
    assert first + ids[..i + 1] == (first + ids[..i]) + [ids[i]];
    DedupeSnoc(first + ids[..i], ids[i]);
  }

  /**
   * The loop is done once `n` are collected or `ids` is exhausted: the
   * collected entries, cut to `n`, are then `Take(Dedupe(first + ids), n)`.
   */
  lemma TakeDedupeDone<T(!new)>(first: seq<T>, ids: seq<T>, n: nat, i: nat, picks: seq<T>)
    requires i <= |ids| && (i == |ids| || |picks| >= n)
    requires picks == Take(Dedupe(first + ids[..i]), n)
    ensures Take(picks, n) == Take(Dedupe(first + ids), n)
  {
    var d := Dedupe(first + ids[..i]);
    var all := Dedupe(first + ids);
    assert (first + ids[..i]) + ids[i..] == first + ids;
    DedupeExtends(first + ids[..i], ids[i..]);
    if i == |ids| {
      assert ids[..i] == ids;
    } else {
      assert picks == d[..n] == all[..n];
    }
  }

  /**
   * The first `n` entries of the de-duplication of `first + ids`, where
   * `first` is a duplicate-free list of at most `n` entries of `ids`: they
   * begin with `first`, have no repeats, come from `ids`, and are as many as
   * `n` or the number of distinct entries of `ids`, whichever is smaller.
   */
  lemma TakeDedupeFacts<T(!new)>(first: seq<T>, ids: seq<T>, n: nat)
    requires NoDup(first) && |first| <= n
    requires forall x :: x in first ==> x in ids
    ensures var h := Take(Dedupe(first + ids), n);
      NoDup(h) && (forall x :: x in h ==> x in ids) &&
      |h| == (if n < |Elems(ids)| then n else |Elems(ids)|) &&
      |first| <= |h| && h[..|first|] == first
  {
    var d := Dedupe(first + ids);
    DedupeNoDup(first);
    DedupeExtends(first, ids);
    assert Elems(d) == Elems(ids);
    NoDupCard(d);
    var h := Take(d, n);
    forall x | x in h
      ensures x in ids
    {
      var k :| 0 <= k < |h| && h[k] == x;
      assert d[k] == x && x in d;
      assert x in first + ids;
    }
  }

  /** A list with no member is empty. */
  lemma NoMemberIsEmpty<T>(s: seq<T>)
    ensures (forall x :: x !in s) ==> s == []
  {
    if |s| > 0 {
      assert s[0] in s;
    }
  }

  /** `s.slice(0, n)` for n >= 0. */
  function Take<T>(s: seq<T>, n: nat): (r: seq<T>)
    ensures |r| == if n < |s| then n else |s|
    ensures r == s[..|r|]
  {
    if n < |s| then s[..n] else s
  }

  /** Distinct elements are as many as the set they form. */
  lemma {:induction false} NoDupCard<T>(s: seq<T>)
    requires NoDup(s)
    ensures |Elems(s)| == |s|
  {
    if |s| > 0 {
      var t := s[..|s| - 1];
      assert NoDup(t);
      NoDupCard(t);
      assert Elems(s) == Elems(t) + {s[|s| - 1]};
      assert s[|s| - 1] !in Elems(t);
    }
  }

  /** A set of elements is no larger than the sequence it is taken from. */
  lemma {:induction false} ElemsCard<T>(s: seq<T>)
    ensures |Elems(s)| <= |s|
  {
    if |s| > 0 {
      var t := s[..|s| - 1];
      ElemsCard(t);
      assert Elems(s) == Elems(t) + {s[|s| - 1]};
    }
  }

  /**
   * `s.slice(0, end)`: a negative `end` counts back from the length, and the
   * result is clamped to the list.
   */
  function SliceTo<T>(s: seq<T>, end: int): (r: seq<T>)
    ensures |r| == if end >= 0 then (if end < |s| then end else |s|) else (if |s| + end > 0 then |s| + end else 0)
    ensures r == s[..|r|]
  {
    if end >= 0 then Take(s, end)
    else if |s| + end > 0 then s[..|s| + end]
    else []
  }

  /** A distinct-element list holds each element at most once. */
  lemma {:induction false} NoDupCount<T>(s: seq<T>, x: T)
    requires NoDup(s)
    ensures multiset(s)[x] <= 1
  {
    if |s| > 0 {
      var t := s[..|s| - 1];
      assert s == t + [s[|s| - 1]];
      assert NoDup(t);
      NoDupCount(t, x);
      if x == s[|s| - 1] {
        assert x !in t;
      }
    }
  }

  /** A rearrangement of a distinct-element list has distinct elements. */
  lemma PermutationNoDup<T>(a: seq<T>, b: seq<T>)
    requires NoDup(a) && multiset(a) == multiset(b)
    ensures NoDup(b)
  {
    forall i, j | 0 <= i < j < |b| ensures b[i] != b[j] {
      if b[i] == b[j] {
        assert b == b[..i] + [b[i]] + b[i + 1..j] + [b[j]] + b[j + 1..];
        assert multiset(b)[b[i]] >= 2;
        NoDupCount(a, b[i]);
      }
    }
  }
}
