/**
 * Sequence helpers behind JavaScript's `Array.prototype.filter`: the
 * filter itself and the subsequence relation it establishes.
 */
module Seqs {

  /** `r` can be obtained from `s` by deleting elements, keeping the order of the rest. */
  predicate IsSubseq<T(==)>(r: seq<T>, s: seq<T>)
    decreases |s|
  {
    r == [] || (s != [] && ((r[0] == s[0] && IsSubseq(r[1..], s[1..])) || IsSubseq(r, s[1..])))
  }

  /** Every sequence is a subsequence of itself. */
  lemma {:induction false} SubseqRefl<T>(s: seq<T>)
    ensures IsSubseq(s, s)
    decreases |s|
  {
    if s != [] { SubseqRefl(s[1..]); }
  }

  /** A subsequence is never longer than the sequence it comes from. */
  lemma {:induction false} SubseqLength<T>(r: seq<T>, s: seq<T>)
    requires IsSubseq(r, s)
    ensures |r| <= |s|
    decreases |s|
  {
    if r != [] {
      if r[0] == s[0] && IsSubseq(r[1..], s[1..]) {
        SubseqLength(r[1..], s[1..]);
      } else {
        SubseqLength(r, s[1..]);
      }
    }
  }

  /** The subsequence relation is transitive. */
  lemma {:induction false} SubseqTrans<T>(a: seq<T>, b: seq<T>, c: seq<T>)
    requires IsSubseq(a, b) && IsSubseq(b, c)
    ensures IsSubseq(a, c)
    decreases |c|
  {
    if a != [] {
      if b[0] == c[0] && IsSubseq(b[1..], c[1..]) {
        if a[0] == b[0] && IsSubseq(a[1..], b[1..]) {
          SubseqTrans(a[1..], b[1..], c[1..]);
        } else {
          SubseqTrans(a, b[1..], c[1..]);
        }
      } else {
        SubseqTrans(a, b, c[1..]);
      }
    }
  }

  /**
   * `s.filter(keep)`: the elements of `s` that satisfy `keep`, in their
   * original order and with their original multiplicity.
   */
  function Filter<T(!new)>(keep: T -> bool, s: seq<T>): (r: seq<T>)
    ensures |r| <= |s|
    ensures forall x {:trigger x in r} :: x in r <==> x in s && keep(x)
    decreases |s|
  {
    if s == [] then []
    else
      var rest := Filter(keep, s[1..]);
      if keep(s[0]) then [s[0]] + rest else rest
  }

  /** The filter keeps exactly the copies of each accepted element and none of the others. */
  lemma {:induction false} FilterCount<T(!new)>(keep: T -> bool, s: seq<T>, x: T)
    ensures multiset(Filter(keep, s))[x] == if keep(x) then multiset(s)[x] else 0
    decreases |s|
  {
    if s != [] {
      FilterCount(keep, s[1..], x);
      assert s == [s[0]] + s[1..];
    }
  }

  /** The filter keeps the order of what it keeps. */
  lemma {:induction false} FilterIsSubseq<T(!new)>(keep: T -> bool, s: seq<T>)
    ensures IsSubseq(Filter(keep, s), s)
    decreases |s|
  {
    if s != [] {
      FilterIsSubseq(keep, s[1..]);
      var rest := Filter(keep, s[1..]);
      if keep(s[0]) {
        assert Filter(keep, s) == [s[0]] + rest;
        assert ([s[0]] + rest)[1..] == rest;
      } else {
        assert Filter(keep, s) == rest;
      }
    }
  }

  /** Filtering a concatenation filters each part. */
  lemma {:induction false} FilterAppend<T(!new)>(keep: T -> bool, a: seq<T>, b: seq<T>)
    ensures Filter(keep, a + b) == Filter(keep, a) + Filter(keep, b)
    decreases |a|
  {
    if a == [] {
      assert a + b == b;
    } else {
      FilterAppend(keep, a[1..], b);
      FilterAppendStep(keep, a[0], a[1..], b);
      assert a == [a[0]] + a[1..];
    }
  }

  lemma FilterAppendStep<T(!new)>(keep: T -> bool, h: T, t: seq<T>, b: seq<T>)
    requires Filter(keep, t + b) == Filter(keep, t) + Filter(keep, b)
    ensures Filter(keep, [h] + t + b) == Filter(keep, [h] + t) + Filter(keep, b)
  {
    var head := if keep(h) then [h] else [];
    var ft, fb := Filter(keep, t), Filter(keep, b);
    assert [h] + t + b == [h] + (t + b);
    FilterCons(keep, h, t + b);
    FilterCons(keep, h, t);
    assert head + (ft + fb) == (head + ft) + fb;
  }

  /** Filtering a list with a given head: the head, if kept, then the filtered tail. */
  lemma FilterCons<T(!new)>(keep: T -> bool, h: T, t: seq<T>)
    ensures Filter(keep, [h] + t) == (if keep(h) then [h] else []) + Filter(keep, t)
  {
    assert ([h] + t)[1..] == t;
  }

  /**
   * Putting `h` in front of two lists that filter alike up to an optional `x`
   * keeps them alike, provided `h` and `x` are not both kept.
   */
  lemma FilterSwap<T(!new)>(keep: T -> bool, h: T, x: T, rest: seq<T>, tail: seq<T>)
    requires !(keep(h) && keep(x))
    requires Filter(keep, rest) == (if keep(x) then [x] else []) + Filter(keep, tail)
    ensures Filter(keep, [h] + rest) == (if keep(x) then [x] else []) + Filter(keep, [h] + tail)
  {
    var mine := if keep(x) then [x] else [];
    var head := if keep(h) then [h] else [];
    FilterCons(keep, h, rest);
    FilterCons(keep, h, tail);
    if keep(x) {
      assert head == [];
      assert [] + Filter(keep, rest) == Filter(keep, rest);
      assert [] + Filter(keep, tail) == Filter(keep, tail);
    } else {
      assert mine == [];
      assert [] + Filter(keep, tail) == Filter(keep, tail);
      assert [] + (head + Filter(keep, tail)) == head + Filter(keep, tail);
    }
  }

  /** A filter that keeps every element is the identity. */
  lemma {:induction false} FilterKeepsAll<T(!new)>(keep: T -> bool, s: seq<T>)
    requires forall x :: x in s ==> keep(x)
    ensures Filter(keep, s) == s
    decreases |s|
  {
    if s != [] { FilterKeepsAll(keep, s[1..]); }
  }

  /** Nothing passes the test: the filter is empty. */
  lemma {:induction false} FilterKeepsNone<T(!new)>(keep: T -> bool, s: seq<T>)
    requires forall x :: x in s ==> !keep(x)
    ensures Filter(keep, s) == []
    decreases |s|
  {
    if s != [] { FilterKeepsNone(keep, s[1..]); }
  }

  /** A prefix is a subsequence. */
  lemma {:induction false} PrefixIsSubseq<T>(r: seq<T>, s: seq<T>)
    requires r <= s
    ensures IsSubseq(r, s)
    decreases |s|
  {
    if r != [] {
      assert r[1..] <= s[1..];
      PrefixIsSubseq(r[1..], s[1..]);
    }
  }
}
