/** Finite sums of real numbers over sets and over index ranges. */
module Sums {

  ghost function SumOver<K>(s: set<K>, f: K -> real): real {
    if s == {} then 0.0 else var k :| k in s; f(k) + SumOver(s - {k}, f)
  }

  /** The sum does not depend on which element is taken out first. */
  lemma {:induction false} SumTake<K>(s: set<K>, f: K -> real, k: K)
    requires k in s
    ensures SumOver(s, f) == f(k) + SumOver(s - {k}, f)
  {
    var c :| c in s && SumOver(s, f) == f(c) + SumOver(s - {c}, f);
    if c != k {
      SumTake(s - {c}, f, k);
      SumTake(s - {k}, f, c);
      assert s - {c} - {k} == s - {k} - {c};
    }
  }

  lemma {:induction false} SumSame<K(!new)>(s: set<K>, f: K -> real, g: K -> real)
    requires forall k :: k in s ==> f(k) == g(k)
    ensures SumOver(s, f) == SumOver(s, g)
  {
    if s != {} {
      var k :| k in s;
      SumTake(s, f, k);
      SumTake(s, g, k);
      SumSame(s - {k}, f, g);
    }
  }

  lemma {:induction false} SumZero<K(!new)>(s: set<K>, f: K -> real)
    requires forall k :: k in s ==> f(k) == 0.0
    ensures SumOver(s, f) == 0.0
  {
    if s != {} {
      var k :| k in s;
      SumTake(s, f, k);
      SumZero(s - {k}, f);
    }
  }

  lemma {:induction false} SumPlus<K(!new)>(s: set<K>, f: K -> real, g: K -> real, h: K -> real)
    requires forall k :: k in s ==> h(k) == f(k) + g(k)
    ensures SumOver(s, h) == SumOver(s, f) + SumOver(s, g)
  {
    if s != {} {
      var k :| k in s;
      SumTake(s, f, k);
      SumTake(s, g, k);
      SumTake(s, h, k);
      SumPlus(s - {k}, f, g, h);
    }
  }

  lemma QuotientPlus(a: real, b: real, c: real)
    requires c != 0.0
    ensures a / c + b / c == (a + b) / c
  {
    assert (a / c + b / c) * c == a + b;
  }

  lemma {:induction false} SumQuotient<K(!new)>(s: set<K>, f: K -> real, c: real, h: K -> real)
    requires c != 0.0 && forall k :: k in s ==> h(k) == f(k) / c
    ensures SumOver(s, h) == SumOver(s, f) / c
  {
    if s != {} {
      var k :| k in s;
      SumTake(s, f, k);
      SumTake(s, h, k);
      SumQuotient(s - {k}, f, c, h);
      QuotientPlus(f(k), SumOver(s - {k}, f), c);
    }
  }

  /** Divided by their own total, the terms add up to one. */
  lemma SumShares<K(!new)>(s: set<K>, f: K -> real, total: real, h: K -> real)
    requires total != 0.0 && SumOver(s, f) == total && forall k :: k in s ==> h(k) == f(k) / total
    ensures SumOver(s, h) == 1.0
  {
    SumQuotient(s, f, total, h);
    assert total / total == 1.0;
  }

  lemma {:induction false} SumUnion<K>(a: set<K>, b: set<K>, f: K -> real)
    requires a !! b
    ensures SumOver(a + b, f) == SumOver(a, f) + SumOver(b, f)
  {
    if a != {} {
      var k :| k in a;
      SumTake(a, f, k);
      SumTake(a + b, f, k);
      SumUnion(a - {k}, b, f);
      assert a + b - {k} == a - {k} + b;
    } else {
      assert a + b == b;
    }
  }

  /** Terms outside a subset may be dropped when they are zero. */
  lemma SumWithin<K(!new)>(small: set<K>, s: set<K>, f: K -> real)
    requires small <= s && forall k :: k in s - small ==> f(k) == 0.0
    ensures SumOver(s, f) == SumOver(small, f)
  {
    SumZero(s - small, f);
    SumUnion(small, s - small, f);
    assert s == small + (s - small);
  }

  /** f(lo) + ... + f(hi - 1). */
  ghost function SumRange(lo: int, hi: int, f: int -> real): real
    decreases hi - lo
  {
    if hi <= lo then 0.0 else SumRange(lo, hi - 1, f) + f(hi - 1)
  }

  lemma {:induction false} RangeSame(lo: int, hi: int, f: int -> real, g: int -> real)
    requires forall i :: lo <= i < hi ==> f(i) == g(i)
    ensures SumRange(lo, hi, f) == SumRange(lo, hi, g)
    decreases hi - lo
  {
    if lo < hi {
      RangeSame(lo, hi - 1, f, g);
    }
  }

  lemma {:induction false} RangeMinus(lo: int, hi: int, f: int -> real, g: int -> real, h: int -> real)
    requires forall i :: lo <= i < hi ==> h(i) == f(i) - g(i)
    ensures SumRange(lo, hi, h) == SumRange(lo, hi, f) - SumRange(lo, hi, g)
    decreases hi - lo
  {
    if lo < hi {
      RangeMinus(lo, hi - 1, f, g, h);
    }
  }

  /** Exchange of summation: a table summed by columns is the table summed by rows. */
  lemma {:induction false} Exchange<K(!new)>(s: set<K>, lo: int, hi: int, col: K -> int -> real, row: int -> K -> real,
                                             cols: K -> real, rows: int -> real)
    requires forall k, i :: col(k)(i) == row(i)(k)
    requires forall k :: k in s ==> cols(k) == SumRange(lo, hi, col(k))
    requires forall i :: lo <= i < hi ==> rows(i) == SumOver(s, row(i))
    ensures SumOver(s, cols) == SumRange(lo, hi, rows)
    decreases hi - lo
  {
    if hi <= lo {
      SumZero(s, cols);
    } else {
      var fewer := k => SumRange(lo, hi - 1, col(k));
      Exchange(s, lo, hi - 1, col, row, fewer, rows);
      SumPlus(s, fewer, row(hi - 1), cols);
    }
  }

  /** How many i in [lo, hi) satisfy p. */
  ghost function Count(lo: int, hi: int, p: int -> bool): nat
    decreases hi - lo
  {
    if hi <= lo then 0 else Count(lo, hi - 1, p) + (if p(hi - 1) then 1 else 0)
  }

  lemma {:induction false} RangeOfOnes(lo: int, hi: int, p: int -> bool, f: int -> real)
    requires forall i :: lo <= i < hi ==> f(i) == if p(i) then 1.0 else 0.0
    ensures SumRange(lo, hi, f) == Count(lo, hi, p) as real
    decreases hi - lo
  {
    if lo < hi {
      RangeOfOnes(lo, hi - 1, p, f);
    }
  }

  /** The count is the size of the set. */
  lemma {:induction false} CountIsCard(lo: int, hi: int, p: int -> bool)
    ensures Count(lo, hi, p) == |set i | lo <= i < hi && p(i)|
    decreases hi - lo
  {
    if lo < hi {
      CountIsCard(lo, hi - 1, p);
      var fewer, all := set i | lo <= i < hi - 1 && p(i), set i | lo <= i < hi && p(i);
      assert all == if p(hi - 1) then fewer + {hi - 1} else fewer;
    }
  }
}
