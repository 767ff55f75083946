/**
 * The stable sort behind `Array.prototype.sort` (stable since the 2019 edition of
 * ECMA-262, section 22.1.3.27). Elements are compared with `le(a, b)`, read "a may
 * stay ahead of b", the negation of the JavaScript comparator returning a positive
 * number. The insertion sort below puts each element ahead of all elements it ties
 * with; `SortSorted` proves its output sorted and `SortStable` proves that tied
 * elements keep their input order.
 */
module Sorting {
  import Seqs

  /** `le` is total and transitive, as a consistent JavaScript comparator is. */
  ghost predicate TotalPreorder<T(!new)>(le: (T, T) -> bool) {
    && (forall a, b :: le(a, b) || le(b, a))
    && (forall a, b, c :: le(a, b) && le(b, c) ==> le(a, c))
  }

  /** Every element may stay ahead of every later one. */
  ghost predicate SortedBy<T>(le: (T, T) -> bool, s: seq<T>) {
    forall i, j :: 0 <= i < j < |s| ==> le(s[i], s[j])
  }

  /** In a sorted sequence, every element before a cut may stay ahead of every element after it. */
  lemma SortedSplit<T>(le: (T, T) -> bool, s: seq<T>, k: nat)
    requires SortedBy(le, s)
    requires k <= |s|
    ensures forall x, y :: x in s[..k] && y in s[k..] ==> le(x, y)
  {
    forall x, y | x in s[..k] && y in s[k..]
      ensures le(x, y)
    {
      var i :| 0 <= i < k && s[..k][i] == x;
      var j :| 0 <= j < |s| - k && s[k..][j] == y;
      assert s[i] == x && s[k + j] == y;
    }
  }

  /** Where `x` goes in `s`: after every element it may not stay ahead of, before the first one it may. */
  function InsertPos<T>(le: (T, T) -> bool, x: T, s: seq<T>): (p: nat)
    ensures p <= |s|
    ensures forall j :: 0 <= j < p ==> !le(x, s[j])
    ensures p < |s| ==> le(x, s[p])
  {
    if s == [] || le(x, s[0]) then 0 else 1 + InsertPos(le, x, s[1..])
  }

  function Insert<T>(le: (T, T) -> bool, x: T, s: seq<T>): (r: seq<T>)
    ensures |r| == |s| + 1
    ensures multiset(r) == multiset(s) + multiset{x}
  {
    var p := InsertPos(le, x, s);
    assert s == s[..p] + s[p..];
    s[..p] + [x] + s[p..]
  }

  function Sort<T>(le: (T, T) -> bool, s: seq<T>): (r: seq<T>)
    ensures |r| == |s|
    ensures multiset(r) == multiset(s)
  {
    if s == [] then []
    else
      assert s == [s[0]] + s[1..];
      Insert(le, s[0], Sort(le, s[1..]))
  }

  /** Inserting into a sorted sequence keeps it sorted. */
  lemma InsertSorted<T(!new)>(le: (T, T) -> bool, x: T, s: seq<T>)
    requires TotalPreorder(le)
    requires SortedBy(le, s)
    ensures SortedBy(le, Insert(le, x, s))
  {
    var p := InsertPos(le, x, s);
    var r := Insert(le, x, s);
    assert r == s[..p] + [x] + s[p..];
    forall i, j | 0 <= i < j < |r|
      ensures le(r[i], r[j])
    {
      if j < p {
        assert r[i] == s[i] && r[j] == s[j];
      } else if j == p {
        assert r[i] == s[i] && r[j] == x && !le(x, s[i]);
      } else if i == p {
        assert r[i] == x && r[j] == s[j - 1] && le(x, s[p]);
        if j - 1 > p {
          assert le(s[p], s[j - 1]);
        }
      } else if i < p {
        assert r[i] == s[i] && r[j] == s[j - 1];
      } else {
        assert r[i] == s[i - 1] && r[j] == s[j - 1];
      }
    }
  }

  /** The insertion sort returns a sorted permutation of its input. */
  lemma {:induction false} SortSorted<T(!new)>(le: (T, T) -> bool, s: seq<T>)
    requires TotalPreorder(le)
    ensures SortedBy(le, Sort(le, s))
  {
    if s != [] {
      SortSorted(le, s[1..]);
      InsertSorted(le, s[0], Sort(le, s[1..]));
    }
  }

  /** The elements tied with `c`: each may stay ahead of the other. */
  function TiedWith<T>(le: (T, T) -> bool, c: T): T -> bool {
    y => le(c, y) && le(y, c)
  }

  /** Nothing ahead of the insertion point of `x` ties with `x`'s tie class. */
  lemma NoTiesBeforeInsertPos<T(!new)>(le: (T, T) -> bool, x: T, s: seq<T>, c: T)
    requires TotalPreorder(le)
    requires TiedWith(le, c)(x)
    ensures Seqs.Filter(s[..InsertPos(le, x, s)], TiedWith(le, c)) == []
  {
    var p := InsertPos(le, x, s);
    var front := s[..p];
    var tied := TiedWith(le, c);
    forall y | y in front
      ensures !tied(y)
    {
      var j :| 0 <= j < p && front[j] == y;
      assert !le(x, s[j]);
    }
    var r := Seqs.Filter(front, tied);
    Seqs.FilterSpec(front, tied);
    assert multiset(r) == multiset{};
    assert |r| == |multiset(r)|;
  }

  /** Filtering an insertion filters the part before `x`, then `x`, then the part after. */
  lemma InsertFiltered<T(!new)>(le: (T, T) -> bool, x: T, s: seq<T>, f: T -> bool)
    ensures var p := InsertPos(le, x, s);
      && Seqs.Filter(Insert(le, x, s), f) == Seqs.Filter(s[..p], f) + (if f(x) then [x] else []) + Seqs.Filter(s[p..], f)
      && Seqs.Filter(s, f) == Seqs.Filter(s[..p], f) + Seqs.Filter(s[p..], f)
  {
    var p := InsertPos(le, x, s);
    Seqs.FilterAround(s[..p], x, s[p..], f);
    assert s == s[..p] + s[p..];
    Seqs.FilterAppend(s[..p], s[p..], f);
  }

  /**
   * Inserting `x` where nothing ahead of its place passes `f` (when `x` does)
   * puts `x`, if it passes, in front of the filtered rest.
   */
  lemma InsertFilteredFront<T(!new)>(le: (T, T) -> bool, x: T, rest: seq<T>, f: T -> bool)
    requires f(x) ==> Seqs.Filter(rest[..InsertPos(le, x, rest)], f) == []
    ensures Seqs.Filter(Insert(le, x, rest), f) == (if f(x) then [x] else []) + Seqs.Filter(rest, f)
  {
    var p := InsertPos(le, x, rest);
    var fx := if f(x) then [x] else [];
    InsertFiltered(le, x, rest, f);
    MoveAhead(Seqs.Filter(rest[..p], f), fx, Seqs.Filter(rest[p..], f));
  }

  /** When one of `a` and `b` is empty, `a` and `b` can swap places. */
  lemma MoveAhead<T>(a: seq<T>, b: seq<T>, c: seq<T>)
    requires a == [] || b == []
    ensures a + b + c == b + (a + c)
  {
  }

  /**
   * One insertion step of the sort keeps a tie class in input order, given
   * that the sorted rest keeps it and that nothing ahead of `x`'s place ties with `x`.
   */
  lemma InsertKeepsTieOrder<T(!new)>(le: (T, T) -> bool, x: T, s: seq<T>, rest: seq<T>, f: T -> bool)
    requires Seqs.Filter(rest, f) == Seqs.Filter(s, f)
    requires f(x) ==> Seqs.Filter(rest[..InsertPos(le, x, rest)], f) == []
    ensures Seqs.Filter(Insert(le, x, rest), f) == Seqs.Filter([x] + s, f)
  {
    InsertFilteredFront(le, x, rest, f);
    Seqs.FilterCons(x, s, f);
  }

  /**
   * The sort is stable: the elements tied with any `c` come out in the order
   * they went in.
   */
  lemma {:induction false} SortStable<T(!new)>(le: (T, T) -> bool, s: seq<T>, c: T)
    requires TotalPreorder(le)
    ensures Seqs.Filter(Sort(le, s), TiedWith(le, c)) == Seqs.Filter(s, TiedWith(le, c))
  {
    if s != [] {
      var x, rest := s[0], Sort(le, s[1..]);
      SortStable(le, s[1..], c);
      if TiedWith(le, c)(x) {
        NoTiesBeforeInsertPos(le, x, rest, c);
      }
      InsertKeepsTieOrder(le, x, s[1..], rest, TiedWith(le, c));
      assert s == [x] + s[1..];
    }
  }
}

