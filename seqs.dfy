/**
 * Sequence operations that the components borrow from JavaScript's Array and
 * String prototypes: `find`, `filter`, `includes`, and a running total.
 */
module Seqs {
  import opened Wrappers

  /** Index of the first element satisfying `p`, as `Array.prototype.find` chooses it. */
  function FindFirst<T>(s: seq<T>, p: T -> bool): (r: Option<nat>)
    ensures r.Some? ==> r.value < |s| && p(s[r.value])
    ensures r.Some? ==> forall j :: 0 <= j < r.value ==> !p(s[j])
    ensures r.None? <==> forall j :: 0 <= j < |s| ==> !p(s[j])
  {
    if s == [] then None
    else if p(s[0]) then Some(0)
    else match FindFirst(s[1..], p)
      case None => None
      case Some(i) => Some(i + 1)
  }

  /** `a` is an order-preserving sub-list of `b`. */
  ghost predicate IsSubsequence<T>(a: seq<T>, b: seq<T>)
    decreases |b|
  {
    if a == [] then true
    else if b == [] then false
    else (a[0] == b[0] && IsSubsequence(a[1..], b[1..])) || IsSubsequence(a, b[1..])
  }

  /** `Array.prototype.filter`: the elements satisfying `p`, in their original order. */
  function Filter<T>(s: seq<T>, p: T -> bool): seq<T> {
    if s == [] then []
    else if p(s[0]) then [s[0]] + Filter(s[1..], p)
    else Filter(s[1..], p)
  }

  /**
   * What `filter` returns: an order-preserving sub-list of its input holding
   * each element that satisfies `p` exactly as often as the input does, and
   * nothing else.
   */
  lemma {:induction false} FilterSpec<T(!new)>(s: seq<T>, p: T -> bool)
    ensures IsSubsequence(Filter(s, p), s)
    ensures forall x :: x in Filter(s, p) <==> x in s && p(x)
    ensures forall x :: multiset(Filter(s, p))[x] == if p(x) then multiset(s)[x] else 0
  {
    if s != [] {
      var r, t := Filter(s, p), Filter(s[1..], p);
      FilterSpec(s[1..], p);
      assert s == [s[0]] + s[1..];
      if p(s[0]) {
        assert r == [s[0]] + t;
        assert r[0] == s[0] && r[1..] == t;
      } else {
        assert r == t;
        if r != [] {
          assert IsSubsequence(r, s[1..]);
        }
      }
    }
  }

  /** A filter whose predicate holds everywhere keeps the whole sequence. */
  lemma {:induction false} FilterKeepsAll<T(!new)>(s: seq<T>, p: T -> bool)
    requires forall x :: x in s ==> p(x)
    ensures Filter(s, p) == s
  {
    if s != [] {
      FilterKeepsAll(s[1..], p);
    }
  }

  /** Filtering a concatenation filters each part. */
  lemma {:induction false} FilterAppend<T(!new)>(a: seq<T>, b: seq<T>, p: T -> bool)
    ensures Filter(a + b, p) == Filter(a, p) + Filter(b, p)
  {
    if a == [] {
      assert a + b == b;
    } else {
      var ab := a + b;
      assert ab[0] == a[0] && ab[1..] == a[1..] + b;
      FilterAppend(a[1..], b, p);
      if p(a[0]) {
        calc {
          Filter(ab, p);
          [a[0]] + Filter(a[1..] + b, p);
          [a[0]] + (Filter(a[1..], p) + Filter(b, p));
          ([a[0]] + Filter(a[1..], p)) + Filter(b, p);
          Filter(a, p) + Filter(b, p);
        }
      } else {
        calc {
          Filter(ab, p);
          Filter(a[1..] + b, p);
          Filter(a[1..], p) + Filter(b, p);
          Filter(a, p) + Filter(b, p);
        }
      }
    }
  }

  /** Filtering `[x] + s` keeps or drops `x`, then filters `s`. */
  lemma FilterCons<T(!new)>(x: T, s: seq<T>, p: T -> bool)
    ensures Filter([x] + s, p) == (if p(x) then [x] else []) + Filter(s, p)
  {
    assert ([x] + s)[0] == x && ([x] + s)[1..] == s;
  }

  /** Filtering `a + [x] + b` filters `a`, keeps or drops `x`, then filters `b`. */
  lemma FilterAround<T(!new)>(a: seq<T>, x: T, b: seq<T>, p: T -> bool)
    ensures Filter(a + [x] + b, p) == Filter(a, p) + (if p(x) then [x] else []) + Filter(b, p)
  {
    assert Filter([x], p) == if p(x) then [x] else [] by {
      assert [x][1..] == [];
    }
    FilterAppend(a + [x], b, p);
    FilterAppend(a, [x], p);
  }

  /** `needle` occurs in `hay` starting at index `i`. */
  ghost predicate OccursAt<T>(hay: seq<T>, needle: seq<T>, i: nat) {
    i + |needle| <= |hay| && hay[i..i + |needle|] == needle
  }

  /** `String.prototype.includes`: `needle` is a prefix of some suffix of `hay`. */
  function Includes<T(==)>(hay: seq<T>, needle: seq<T>): bool
    decreases |hay|
  {
    needle <= hay || (hay != [] && Includes(hay[1..], needle))
  }

  /** An occurrence in `hay[1..]` at `i` is an occurrence in `hay` at `i + 1`. */
  lemma OccursShift<T>(hay: seq<T>, needle: seq<T>, i: nat)
    requires hay != []
    ensures OccursAt(hay[1..], needle, i) <==> OccursAt(hay, needle, i + 1)
  {
    if i + 1 + |needle| <= |hay| {
      assert hay[1..][i..i + |needle|] == hay[i + 1..i + 1 + |needle|];
    }
  }

  /** `Includes` holds exactly when `needle` is a contiguous slice of `hay`. */
  lemma {:induction false} IncludesIsSubstring<T>(hay: seq<T>, needle: seq<T>)
    ensures Includes(hay, needle) <==> exists i: nat :: OccursAt(hay, needle, i)
    decreases |hay|
  {
    if needle <= hay {
      assert OccursAt(hay, needle, 0);
    } else if hay == [] {
      if i: nat :| OccursAt(hay, needle, i) {
        assert false;
      }
    } else {
      IncludesIsSubstring(hay[1..], needle);
      if Includes(hay[1..], needle) {
        var i: nat :| OccursAt(hay[1..], needle, i);
        OccursShift(hay, needle, i);
      }
      if i: nat :| OccursAt(hay, needle, i) {
        if i == 0 {
          assert false;
        } else {
          OccursShift(hay, needle, i - 1);
        }
      }
    }
  }

  /** Sum of a sequence of counts. */
  function Sum(s: seq<nat>): nat {
    if s == [] then 0 else Sum(s[..|s| - 1]) + s[|s| - 1]
  }
}
