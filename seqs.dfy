/**
 * Generic facts about sequences used by several modules: order-preserving
 * subsequences, filtering, mapping, distinctness and joining with a separator.
 */
module Seqs {

  /** `a` can be obtained from `b` by deleting elements, keeping the order of the rest. */
  predicate SubseqOf<T(==)>(a: seq<T>, b: seq<T>)
    decreases |b|
  {
    if |a| == 0 then true
    else if |b| == 0 then false
    else (a[0] == b[0] && SubseqOf(a[1..], b[1..])) || SubseqOf(a, b[1..])
  }

  lemma {:induction false} SubseqRefl<T>(a: seq<T>)
    ensures SubseqOf(a, a)
    decreases |a|
  {
    if |a| > 0 {
      SubseqRefl(a[1..]);
    }
  }

  /** A subsequence is no longer than the sequence and takes its elements from it. */
  lemma {:induction false} SubseqElements<T>(a: seq<T>, b: seq<T>)
    requires SubseqOf(a, b)
    ensures |a| <= |b|
    ensures forall x :: x in a ==> x in b
    decreases |b|
  {
    if |a| > 0 {
      if a[0] == b[0] && SubseqOf(a[1..], b[1..]) {
        SubseqElements(a[1..], b[1..]);
        assert a == [a[0]] + a[1..];
        assert b == [b[0]] + b[1..];
      } else {
        SubseqElements(a, b[1..]);
      }
    }
  }

  /** Deleting elements twice is deleting elements once. */
  lemma {:induction false} SubseqTrans<T>(a: seq<T>, b: seq<T>, c: seq<T>)
    requires SubseqOf(a, b) && SubseqOf(b, c)
    ensures SubseqOf(a, c)
    decreases |c|
  {
    if |a| > 0 {
      assert |b| > 0 && |c| > 0;
      if SubseqOf(b, c[1..]) {
        SubseqTrans(a, b, c[1..]);
      } else {
        assert b[0] == c[0] && SubseqOf(b[1..], c[1..]);
        if a[0] == b[0] && SubseqOf(a[1..], b[1..]) {
          SubseqTrans(a[1..], b[1..], c[1..]);
        } else {
          SubseqTrans(a, b[1..], c[1..]);
        }
      }
    }
  }

  /** The elements of `s` that satisfy `p`, in their original order (a boolean-mask selection). */
  function Filter<T>(s: seq<T>, p: T -> bool): (r: seq<T>)
    ensures |r| <= |s|
    ensures forall x :: x in r ==> x in s && p(x)
    ensures forall x :: x in s && p(x) ==> x in r
    ensures |r| == |s| <==> forall x :: x in s ==> p(x)
  {
    if |s| == 0 then []
    else (if p(s[0]) then [s[0]] else []) + Filter(s[1..], p)
  }

  lemma {:induction false} FilterIsSubseq<T>(s: seq<T>, p: T -> bool)
    ensures SubseqOf(Filter(s, p), s)
  {
    if |s| > 0 {
      FilterIsSubseq(s[1..], p);
      var rest := Filter(s[1..], p);
      if p(s[0]) {
        assert Filter(s, p) == [s[0]] + rest;
        assert ([s[0]] + rest)[1..] == rest;
      } else {
        assert Filter(s, p) == rest;
        if |rest| > 0 {
          assert SubseqOf(rest, s[1..]);
        }
      }
    }
  }

  /** How many elements of `s` satisfy `p`. */
  function CountWhere<T>(s: seq<T>, p: T -> bool): nat
  {
    if |s| == 0 then 0 else (if p(s[0]) then 1 else 0) + CountWhere(s[1..], p)
  }

  lemma {:induction false} FilterLength<T>(s: seq<T>, p: T -> bool)
    ensures |Filter(s, p)| == CountWhere(s, p)
    decreases |s|
  {
    if |s| > 0 {
      FilterLength(s[1..], p);
    }
  }

  lemma {:induction false} CountAppend<T>(a: seq<T>, b: seq<T>, p: T -> bool)
    ensures CountWhere(a + b, p) == CountWhere(a, p) + CountWhere(b, p)
    decreases |a|
  {
    if |a| == 0 {
      assert a + b == b;
    } else {
      assert (a + b)[1..] == a[1..] + b;
      CountAppend(a[1..], b, p);
    }
  }

  /** The positions of `s` whose element satisfies `p`. */
  function Positions<T>(s: seq<T>, p: T -> bool): set<int>
  {
    set i | 0 <= i < |s| && p(s[i])
  }

  /** Extending `s` by one element adds its position exactly when it satisfies `p`. */
  lemma PositionsSnoc<T>(s: seq<T>, p: T -> bool)
    requires |s| > 0
    ensures |Positions(s, p)| == |Positions(s[..|s| - 1], p)| + (if p(s[|s| - 1]) then 1 else 0)
  {
    var n := |s| - 1;
    var before := Positions(s[..n], p);
    assert n !in before;
    if p(s[n]) {
      assert Positions(s, p) == before + {n};
    } else {
      assert Positions(s, p) == before;
    }
  }

  /** The count is the number of satisfying positions. */
  lemma {:induction false} CountPositions<T>(s: seq<T>, p: T -> bool)
    ensures CountWhere(s, p) == |Positions(s, p)|
    decreases |s|
  {
    if |s| > 0 {
      var n := |s| - 1;
      CountPositions(s[..n], p);
      assert s == s[..n] + [s[n]];
      CountAppend(s[..n], [s[n]], p);
      assert [s[n]][1..] == [];
      PositionsSnoc(s, p);
    }
  }

  /** The filtered sequence has one element per position whose element satisfies `p`. */
  lemma FilterCount<T>(s: seq<T>, p: T -> bool)
    ensures |Filter(s, p)| == |Positions(s, p)|
  {
    FilterLength(s, p);
    CountPositions(s, p);
  }

  /** The image of `s` under `f`, element by element. */
  function Map<T, U>(s: seq<T>, f: T -> U): (r: seq<U>)
    ensures |r| == |s|
    ensures forall i :: 0 <= i < |s| ==> r[i] == f(s[i])
  {
    seq(|s|, i requires 0 <= i < |s| => f(s[i]))
  }

  /** Mapping preserves the subsequence relation. */
  lemma {:induction false} MapSubseq<T, U>(a: seq<T>, b: seq<T>, f: T -> U)
    requires SubseqOf(a, b)
    ensures SubseqOf(Map(a, f), Map(b, f))
    decreases |b|
  {
    if |a| > 0 {
      assert Map(a, f)[1..] == Map(a[1..], f);
      assert Map(b, f)[1..] == Map(b[1..], f);
      if a[0] == b[0] && SubseqOf(a[1..], b[1..]) {
        MapSubseq(a[1..], b[1..], f);
      } else {
        MapSubseq(a, b[1..], f);
      }
    }
  }

  /** The index where `d` first occurs in `ds`. */
  function FirstIndex<T(==)>(ds: seq<T>, d: T): (k: nat)
    requires d in ds
    ensures k < |ds| && ds[k] == d && d !in ds[..k]
  {
    if ds[0] == d then 0
    else
      var k := FirstIndex(ds[1..], d);
      assert ds[..k + 1] == [ds[0]] + ds[1..][..k];
      k + 1
  }

  /** Any occurrence not preceded by another one is the first. */
  lemma FirstIndexUnique<T>(ds: seq<T>, d: T, k: nat)
    requires k < |ds| && ds[k] == d && d !in ds[..k]
    ensures FirstIndex(ds, d) == k
  {
  }

  /** Appending never moves a first occurrence. */
  lemma FirstIndexAppend<T>(ds: seq<T>, e: T, d: T)
    requires d in ds
    ensures FirstIndex(ds + [e], d) == FirstIndex(ds, d)
  {
    var f := FirstIndex(ds, d);
    assert (ds + [e])[..f] == ds[..f];
    FirstIndexUnique(ds + [e], d, f);
  }

  /** Prepending an element makes it first and moves every other first occurrence one place on. */
  lemma FirstIndexCons<T>(x: T, ds: seq<T>, d: T)
    requires d in [x] + ds
    ensures d == x ==> FirstIndex([x] + ds, d) == 0
    ensures d != x ==> d in ds && FirstIndex([x] + ds, d) == FirstIndex(ds, d) + 1
  {
    assert ([x] + ds)[0] == x && ([x] + ds)[1..] == ds;
  }

  /** The elements of `order` occur in `ds`, ordered by where they first occur there. */
  predicate InFirstOccurrenceOrder<T(==)>(order: seq<T>, ds: seq<T>)
  {
    && (forall i :: 0 <= i < |order| ==> order[i] in ds)
    && (forall i, k :: 0 <= i < k < |order| ==> FirstIndex(ds, order[i]) < FirstIndex(ds, order[k]))
  }

  /** Prepending an element that `order` does not hold keeps the order. */
  lemma OrderPrependOther<T>(order: seq<T>, ds: seq<T>, x: T)
    requires InFirstOccurrenceOrder(order, ds) && x !in order
    ensures InFirstOccurrenceOrder(order, [x] + ds)
  {
    forall i | 0 <= i < |order|
      ensures order[i] in [x] + ds && FirstIndex([x] + ds, order[i]) == FirstIndex(ds, order[i]) + 1
    {
      assert order[i] != x;
      FirstIndexCons(x, ds, order[i]);
    }
  }

  /** Prepending the same new element to both keeps the order. */
  lemma OrderPrependBoth<T>(order: seq<T>, ds: seq<T>, x: T)
    requires InFirstOccurrenceOrder(order, ds) && x !in order
    ensures InFirstOccurrenceOrder([x] + order, [x] + ds)
  {
    var order' := [x] + order;
    forall i | 0 <= i < |order'| ensures order'[i] in [x] + ds {
      if i > 0 {
        assert order'[i] == order[i - 1];
      }
    }
    forall i, k | 0 <= i < k < |order'|
      ensures FirstIndex([x] + ds, order'[i]) < FirstIndex([x] + ds, order'[k])
    {
      assert order'[k] == order[k - 1];
      if i > 0 {
        assert order'[i] == order[i - 1];
        PrependKeepsBefore(ds, x, order[i - 1], order[k - 1]);
      } else {
        PrependComesFirst(ds, x, order[k - 1]);
      }
    }
  }

  lemma PrependKeepsBefore<T>(ds: seq<T>, x: T, a: T, b: T)
    requires a in ds && b in ds && a != x && b != x
    requires FirstIndex(ds, a) < FirstIndex(ds, b)
    ensures FirstIndex([x] + ds, a) < FirstIndex([x] + ds, b)
  {
    FirstIndexCons(x, ds, a);
    FirstIndexCons(x, ds, b);
  }

  lemma PrependComesFirst<T>(ds: seq<T>, x: T, b: T)
    requires b in ds && b != x
    ensures FirstIndex([x] + ds, x) < FirstIndex([x] + ds, b)
  {
    FirstIndexCons(x, ds, x);
    FirstIndexCons(x, ds, b);
  }

  /** No element occurs twice. */
  predicate Distinct<T(==)>(s: seq<T>)
  {
    forall i, j :: 0 <= i < j < |s| ==> s[i] != s[j]
  }

  /** A sequence without repetitions has as many elements as its set. */
  lemma {:induction false} DistinctCardinality<T>(s: seq<T>)
    requires Distinct(s)
    ensures |set x | x in s| == |s|
  {
    if |s| > 0 {
      var rest := s[1..];
      assert Distinct(rest);
      DistinctCardinality(rest);
      assert s[0] !in rest;
      assert (set x | x in s) == {s[0]} + (set x | x in rest);
    }
  }

  /** A sequence with a repetition has more elements than its set. */
  lemma {:induction false} RepeatCardinality<T>(s: seq<T>)
    requires !Distinct(s)
    ensures |set x | x in s| < |s|
  {
    var rest := s[1..];
    assert (set x | x in s) == {s[0]} + (set x | x in rest);
    if s[0] in rest {
      assert (set x | x in s) == (set x | x in rest);
      SetOfSeqAtMostLength(rest);
    } else {
      assert !Distinct(rest) by {
        var i, j :| 0 <= i < j < |s| && s[i] == s[j];
        assert i != 0;
        assert rest[i - 1] == rest[j - 1];
      }
      RepeatCardinality(rest);
    }
  }

  lemma {:induction false} SetOfSeqAtMostLength<T>(s: seq<T>)
    ensures |set x | x in s| <= |s|
  {
    if |s| > 0 {
      SetOfSeqAtMostLength(s[1..]);
      assert (set x | x in s) == {s[0]} + (set x | x in s[1..]);
    }
  }

  /** The pieces concatenated with `sep` between consecutive ones (Python's `sep.join(parts)`). */
  function Join(parts: seq<string>, sep: string): string
  {
    if |parts| == 0 then ""
    else if |parts| == 1 then parts[0]
    else parts[0] + sep + Join(parts[1..], sep)
  }
}
