/**
 * The array methods the pages use on their state lists (`filter`, `map`, a `map` that
 * rewrites only some entries), defined one element at a time from the end as a `forEach`
 * that pushes would build them, with the facts the pages need about them.
 */
module Seqs {
  import opened Wrappers

  /** `a` is `b` with some entries left out, the rest in the same order. */
  predicate Subseq<T(==)>(a: seq<T>, b: seq<T>)
    decreases |b|
  {
    if a == [] then true
    else if b == [] then false
    else (a[|a| - 1] == b[|b| - 1] && Subseq(a[..|a| - 1], b[..|b| - 1])) || Subseq(a, b[..|b| - 1])
  }

  /** `s.filter(p)`. */
  function Filter<T>(p: T -> bool, s: seq<T>): seq<T>
  {
    if s == [] then [] else Filter(p, s[..|s| - 1]) + (if p(s[|s| - 1]) then [s[|s| - 1]] else [])
  }

  /** `s.map(f)`. */
  function Map<A, B>(f: A -> B, s: seq<A>): seq<B>
  {
    if s == [] then [] else Map(f, s[..|s| - 1]) + [f(s[|s| - 1])]
  }

  /** `s.map(x => p(x) ? f(x) : x)`: the entries that satisfy `p` are rewritten by `f`. */
  function ReplaceWhere<T>(p: T -> bool, f: T -> T, s: seq<T>): seq<T>
  {
    if s == [] then [] else ReplaceWhere(p, f, s[..|s| - 1]) + [if p(s[|s| - 1]) then f(s[|s| - 1]) else s[|s| - 1]]
  }

  /** `i` is the first position whose entry passes `p`. */
  predicate FirstAt<T>(p: T -> bool, s: seq<T>, i: int) {
    0 <= i < |s| && p(s[i]) && forall j :: 0 <= j < i ==> !p(s[j])
  }

  /** `s.find(p)`: the first entry that passes, if any. */
  function Find<T(==)>(p: T -> bool, s: seq<T>): (r: Option<T>)
    ensures r.None? <==> forall i :: 0 <= i < |s| ==> !p(s[i])
    ensures r.Some? ==> exists i :: FirstAt(p, s, i) && s[i] == r.value
  {
    if s == [] then None
    else if p(s[0]) then (assert FirstAt(p, s, 0); Some(s[0]))
    else
      var r := Find(p, s[1..]);
      if r.None? then None
      else
        var i :| FirstAt(p, s[1..], i) && s[1..][i] == r.value;
        assert FirstAt(p, s, i + 1);
        r
  }

  /** A filter keeps exactly the entries that pass, in their order, and is never longer. */
  lemma {:induction false} FilterSpec<T>(p: T -> bool, s: seq<T>)
    ensures |Filter(p, s)| <= |s|
    ensures forall x :: x in Filter(p, s) <==> x in s && p(x)
    ensures Subseq(Filter(p, s), s)
  {
    if s != [] {
      var init, last := s[..|s| - 1], s[|s| - 1];
      FilterSpec(p, init);
      assert s == init + [last];
      if !p(last) {
        assert Filter(p, s) == Filter(p, init);
        SubseqSnoc(Filter(p, init), init, last);
      } else {
        var r := Filter(p, s);
        assert r[..|r| - 1] == Filter(p, init);
      }
    }
  }

  /** When every entry passes, the filter changes nothing. */
  lemma {:induction false} FilterAll<T>(p: T -> bool, s: seq<T>)
    requires forall i :: 0 <= i < |s| ==> p(s[i])
    ensures Filter(p, s) == s
  {
    if s != [] {
      FilterAll(p, s[..|s| - 1]);
    }
  }

  /** Filtering a concatenation filters each part. */
  lemma {:induction false} FilterAppend<T>(p: T -> bool, a: seq<T>, b: seq<T>)
    ensures Filter(p, a + b) == Filter(p, a) + Filter(p, b)
  {
    if b == [] {
      assert a + b == a;
    } else {
      var init := b[..|b| - 1];
      FilterAppend(p, a, init);
      assert (a + b)[..|a + b| - 1] == a + init;
      assert (a + b)[|a + b| - 1] == b[|b| - 1];
    }
  }

  /** No entry occurs twice. */
  predicate Distinct<T(==)>(s: seq<T>) {
    forall i, j :: 0 <= i < j < |s| ==> s[i] != s[j]
  }

  /** Filtering a list without repeats gives a list without repeats. */
  lemma {:induction false} FilterDistinct<T>(p: T -> bool, s: seq<T>)
    requires Distinct(s)
    ensures Distinct(Filter(p, s))
  {
    if s != [] {
      var init := s[..|s| - 1];
      var last := s[|s| - 1];
      assert Distinct(init);
      FilterDistinct(p, init);
      FilterSpec(p, init);
      assert last !in init;
    }
  }

  /** When no entry passes, the filter is empty. */
  lemma {:induction false} FilterNone<T>(p: T -> bool, s: seq<T>)
    requires forall i :: 0 <= i < |s| ==> !p(s[i])
    ensures Filter(p, s) == []
  {
    if s != [] {
      FilterNone(p, s[..|s| - 1]);
    }
  }

  /** The number of entries that pass is at most the length, and equals it only when all pass. */
  lemma {:induction false} FilterLengthExact<T>(p: T -> bool, s: seq<T>)
    ensures |Filter(p, s)| == |s| <==> forall i :: 0 <= i < |s| ==> p(s[i])
  {
    if s != [] {
      var init := s[..|s| - 1];
      FilterLengthExact(p, init);
      FilterShorter(p, init);
      var last := s[|s| - 1];
      assert forall i :: 0 <= i < |init| ==> init[i] == s[i];
      if p(last) {
        forall i | 0 <= i < |s| && (forall j :: 0 <= j < |init| ==> p(init[j]))
          ensures p(s[i])
        {
          if i < |init| { assert p(init[i]); }
        }
      } else {
        assert Filter(p, s) == Filter(p, init);
      }
    }
  }

  lemma {:induction false} FilterShorter<T>(p: T -> bool, s: seq<T>)
    ensures |Filter(p, s)| <= |s|
  {
    if s != [] {
      FilterShorter(p, s[..|s| - 1]);
    }
  }

  /** Dropping one more entry at the end keeps a subsequence a subsequence. */
  lemma {:induction false} SubseqSnoc<T>(a: seq<T>, b: seq<T>, x: T)
    requires Subseq(a, b)
    ensures Subseq(a, b + [x])
  {
    if a != [] {
      assert (b + [x])[..|b|] == b;
    }
  }

  /** A map keeps the length and converts entry by entry. */
  lemma {:induction false} MapSpec<A, B>(f: A -> B, s: seq<A>)
    ensures |Map(f, s)| == |s|
    ensures forall i :: 0 <= i < |s| ==> Map(f, s)[i] == f(s[i])
  {
    if s != [] {
      MapSpec(f, s[..|s| - 1]);
    }
  }

  /** Rewriting some entries keeps the length and the order; an entry is rewritten exactly
    * when it satisfies `p`, and every other entry is left as it was. */
  lemma {:induction false} ReplaceWhereSpec<T>(p: T -> bool, f: T -> T, s: seq<T>)
    ensures |ReplaceWhere(p, f, s)| == |s|
    ensures forall i :: 0 <= i < |s| ==> ReplaceWhere(p, f, s)[i] == if p(s[i]) then f(s[i]) else s[i]
  {
    if s != [] {
      ReplaceWhereSpec(p, f, s[..|s| - 1]);
    }
  }

  /** Rewriting nothing changes nothing. */
  lemma {:induction false} ReplaceNone<T>(p: T -> bool, f: T -> T, s: seq<T>)
    requires forall i :: 0 <= i < |s| ==> !p(s[i])
    ensures ReplaceWhere(p, f, s) == s
  {
    if s != [] {
      ReplaceNone(p, f, s[..|s| - 1]);
    }
  }
}
