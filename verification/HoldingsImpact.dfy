/** The holdings-impact report: the largest contributions by name, the others
    folded into a rest, and rounding that still adds up. */
module HoldingsImpact {
  import opened Prelude
  import opened Sums
  import opened Rounding
  import opened StableSort
  import opened HoldingsTimeline
  import opened PeriodWindows
  import opened HoldingsAttribution

  const MIN_TOP_N := 1
  const MAX_TOP_N := 50

  function ClampTopN(n: int): (r: int)
    ensures 1 <= r <= 50 && (1 <= n <= 50 ==> r == n)
    ensures (n <= 1 ==> r == 1) && (n >= 50 ==> r == 50)
  {
    if n < MIN_TOP_N then MIN_TOP_N else if n > MAX_TOP_N then MAX_TOP_N else n
  }

  datatype Period = Period(id: PeriodId, startDate: Civil, endDate: Civil, items: seq<Item>,
                           restCount: int, restContribution: real, cumulativeReturn: real,
                           years: real, annualizedReturn: real)

  /** math.Pow is not described further. */
  type Pow = (real, real) -> real

  // ------------------------------------------------------------------ order

  /** Larger contribution first, then larger weight, then ticker. */
  predicate Precedes(a: Item, b: Item) {
    var ca, cb := Abs(a.contribution), Abs(b.contribution);
    var wa, wb := Abs(a.avgWeight), Abs(b.avgWeight);
    if ca != cb then ca > cb else if wa != wb then wa > wb else StrLess(a.ticker, b.ticker)
  }

  lemma PrecedesIsWeakOrder()
    ensures WeakOrder(Precedes)
  {
    forall a, b | Precedes(a, b)
      ensures !Precedes(b, a)
    {
      if StrLess(a.ticker, b.ticker) {
        StrLessAsymmetric(a.ticker, b.ticker);
      }
    }
    forall a, b, c | Precedes(a, c)
      ensures Precedes(a, b) || Precedes(b, c)
    {
      BetweenSomewhere(a, b, c);
    }
  }

  lemma BetweenSomewhere(a: Item, b: Item, c: Item)
    requires Precedes(a, c)
    ensures Precedes(a, b) || Precedes(b, c)
  {
    StrLessTotal(a.ticker, b.ticker);
    if StrLess(b.ticker, a.ticker) && StrLess(a.ticker, c.ticker) {
      StrLessTransitive(b.ticker, a.ticker, c.ticker);
    }
  }

  // ------------------------------------------------------------------ split

  function Contributions(items: seq<Item>): real {
    if items == [] then 0.0 else Contributions(items[..|items| - 1]) + items[|items| - 1].contribution
  }

  function Rounded(it: Item): Item {
    it.(contribution := Round6(it.contribution))
  }

  /** The items in the order of the report, before the cut. */
  ghost predicate Ranking(timeline: seq<Day>, s: int, e: int, ranked: seq<Item>)
    requires InRange(timeline, s, e) && timeline[s].v != 0.0
  {
    && OneItemEach(timeline, s, e, multiset(ranked)) && Ordered(ranked, Precedes)
    && forall i, j :: 0 <= i < j < |ranked| ==> NotBehind(ranked[i], ranked[j])
  }

  /** The larger contribution in either direction comes first; among equals the
      larger weight, and among those the ticker that is earlier in the alphabet. */
  ghost predicate NotBehind(a: Item, b: Item) {
    || Abs(a.contribution) > Abs(b.contribution)
    || (Abs(a.contribution) == Abs(b.contribution)
        && (|| Abs(a.avgWeight) > Abs(b.avgWeight)
            || (Abs(a.avgWeight) == Abs(b.avgWeight) && (a.ticker == b.ticker || StrLess(a.ticker, b.ticker)))))
  }

  lemma NotPrecededIsNotBehind(a: Item, b: Item)
    requires !Precedes(b, a)
    ensures NotBehind(a, b)
  {
    StrLessTotal(a.ticker, b.ticker);
  }

  /** The report names the first topN of the ranking and counts the others. */
  ghost predicate Split(ranked: seq<Item>, topN: int, p: Period) {
    && |p.items| == Min(topN, |ranked|) && p.restCount == |ranked| - |p.items|
    && (forall i :: 0 <= i < |p.items| ==> p.items[i] == Rounded(ranked[i]))
  }

  ghost predicate PeriodReport(timeline: seq<Day>, w: Window, topN: int, p: Period)
    requires InRange(timeline, w.start, w.end) && timeline[w.start].v != 0.0
  {
    && p.id == w.id && p.startDate == timeline[w.start].date && p.endDate == timeline[w.end].date
    && p.cumulativeReturn == Round6(timeline[w.end].v / timeline[w.start].v - 1.0)
    && Contributions(p.items) + p.restContribution == p.cumulativeReturn
    && (exists ranked :: Ranking(timeline, w.start, w.end, ranked) && Split(ranked, topN, p))
  }

  function YearsBetween(a: Civil, b: Civil): real {
    (DayNumber(b) - DayNumber(a)) as real / 365.25
  }

  /** The length of the period, and its return per year; a period within one
      date has none. */
  ghost predicate Timed(timeline: seq<Day>, w: Window, pow: Pow, p: Period)
    requires InRange(timeline, w.start, w.end) && timeline[w.start].v != 0.0
  {
    var t0, t1 := timeline[w.start].date, timeline[w.end].date;
    && p.years == Round6((DayNumber(t1) - DayNumber(t0)) as real / 365.25)
    && (t0 == t1 ==> p.annualizedReturn == Round6(0.0))
    && (t0 != t1 ==>
          && YearsBetween(t0, t1) > 0.0
          && p.annualizedReturn
             == Round6(pow(timeline[w.end].v / timeline[w.start].v, 1.0 / YearsBetween(t0, t1)) - 1.0))
  }

  lemma YearsPositive(timeline: seq<Day>, s: int, e: int)
    requires InRange(timeline, s, e) && Chronological(timeline)
    ensures var t0, t1 := timeline[s].date, timeline[e].date;
            if t0 == t1 then YearsBetween(t0, t1) == 0.0 else YearsBetween(t0, t1) > 0.0
  {
    if timeline[s].date != timeline[e].date {
      DayNumberGrows(timeline[s].date, timeline[e].date);
    }
  }

  lemma SortRanks(timeline: seq<Day>, s: int, e: int, items: seq<Item>)
    requires InRange(timeline, s, e) && timeline[s].v != 0.0 && OneItemEach(timeline, s, e, multiset(items))
    ensures Ranking(timeline, s, e, Sort(items, Precedes))
  {
    PrecedesIsWeakOrder();
    SortOrders(items, Precedes);
    var ranked := Sort(items, Precedes);
    forall i, j | 0 <= i < j < |ranked|
      ensures NotBehind(ranked[i], ranked[j])
    {
      NotPrecededIsNotBehind(ranked[i], ranked[j]);
    }
  }

  lemma {:induction false} RoundedSumMicro(items: seq<Item>)
    requires forall i :: 0 <= i < |items| ==> Micro(items[i].contribution)
    ensures Micro(Contributions(items))
  {
    if items == [] {
      MicroZero();
    } else {
      RoundedSumMicro(items[..|items| - 1]);
      MicroClosed(Contributions(items[..|items| - 1]), items[|items| - 1].contribution);
    }
  }

  /** Named items and rest add up to the rounded return, exactly. */
  lemma AddsUp(named: seq<Item>, items: seq<Item>, cumulative: real)
    requires |items| == |named| && forall i :: 0 <= i < |items| ==> items[i] == Rounded(named[i])
    ensures Contributions(items) + Round6(Round6(cumulative) - Contributions(items)) == Round6(cumulative)
  {
    forall i | 0 <= i < |items|
      ensures Micro(items[i].contribution)
    {
      Round6Micro(named[i].contribution);
    }
    RoundedSumMicro(items);
    Round6Micro(cumulative);
    MicroClosed(Round6(cumulative), Contributions(items));
    Round6Fixes(Round6(cumulative) - Contributions(items));
  }

  /** Rounds the named items in place and adds them up. */
  method RoundNamed(named: seq<Item>) returns (items: seq<Item>, sum: real)
    ensures |items| == |named| && forall i :: 0 <= i < |items| ==> items[i] == Rounded(named[i])
    ensures sum == Contributions(items)
  {
    items, sum := named, 0.0;
    for i := 0 to |items|
      invariant |items| == |named|
      invariant forall k :: 0 <= k < i ==> items[k] == Rounded(named[k])
      invariant forall k :: i <= k < |items| ==> items[k] == named[k]
      invariant sum == Contributions(items[..i])
    {
      ghost var done := items[..i];
      items := items[i := items[i].(contribution := Round6(items[i].contribution))];
      assert items[..i + 1][..i] == done;
      sum := sum + items[i].contribution;
    }
    assert items[..|items|] == items;
  }

  method ComputePeriod(timeline: seq<Day>, w: Window, topN: int, pow: Pow) returns (r: Result<Period, ImpactError>)
    requires InRange(timeline, w.start, w.end) && Chronological(timeline) && topN >= MIN_TOP_N
    ensures timeline[w.start].v == 0.0 ==> r == Err(ZeroOpeningEquity)
    ensures timeline[w.start].v != 0.0 && Abs(Residual(timeline, w.start, w.end)) > 0.0001 ==>
              r == Err(ResidualCheckFailed)
    ensures timeline[w.start].v != 0.0 && Abs(Residual(timeline, w.start, w.end)) <= 0.0001 ==>
              r.Ok? && PeriodReport(timeline, w, topN, r.value) && Timed(timeline, w, pow, r.value)
  {
    var v0, v1 := timeline[w.start].v, timeline[w.end].v;
    if v0 == 0.0 {
      return Err(ZeroOpeningEquity);
    }
    var items, totalPNL := ComputePeriodItems(timeline, w.start, w.end, v0);
    var residual := v1 - v0 - totalPNL;
    if Abs(residual) > RESIDUAL_TOLERANCE {
      return Err(ResidualCheckFailed);
    }
    SortRanks(timeline, w.start, w.end, items);
    items := Sort(items, Precedes);
    ghost var ranked := items;
    var cumulativeReturn := v1 / v0 - 1.0;
    var restCount := 0;
    if |items| > topN {
      restCount := |items| - topN;
      items := items[..topN];
    }
    var named, namedSum := RoundNamed(items);
    var restContribution := Round6(Round6(cumulativeReturn) - namedSum);
    AddsUp(items, named, cumulativeReturn);
    var t0, t1 := timeline[w.start].date, timeline[w.end].date;
    var years := YearsBetween(t0, t1);
    YearsPositive(timeline, w.start, w.end);
    var annualizedReturn := 0.0;
    if years > 0.0 {
      assert 1.0 + cumulativeReturn == v1 / v0;
      annualizedReturn := pow(1.0 + cumulativeReturn, 1.0 / years) - 1.0;
    }
    var p := Period(w.id, t0, t1, named, restCount, restContribution, Round6(cumulativeReturn), Round6(years),
                    Round6(annualizedReturn));
    assert Split(ranked, topN, p);
    return Ok(p);
  }

  // ----------------------------------------------------- what the rest means

  function KeySet(items: seq<Item>): set<Key> {
    if items == [] then {} else KeySet(items[..|items| - 1]) + {KeyOf(items[|items| - 1])}
  }

  lemma {:induction false} KeySetMembers(items: seq<Item>, k: Key)
    ensures k in KeySet(items) <==> exists i :: 0 <= i < |items| && KeyOf(items[i]) == k
  {
    if items != [] {
      var n := |items| - 1;
      KeySetMembers(items[..n], k);
      if k in KeySet(items[..n]) {
        var i :| 0 <= i < n && KeyOf(items[..n][i]) == k;
        assert KeyOf(items[i]) == k;
      }
      if i :| 0 <= i < n && KeyOf(items[i]) == k {
        assert KeyOf(items[..n][i]) == k;
      }
    }
  }

  /** No two items of a ranking are of the same holding. */
  lemma RankedOnce(timeline: seq<Day>, s: int, e: int, ranked: seq<Item>, i: int, j: int)
    requires InRange(timeline, s, e) && timeline[s].v != 0.0 && OneItemEach(timeline, s, e, multiset(ranked))
    requires 0 <= i < j < |ranked|
    ensures KeyOf(ranked[i]) != KeyOf(ranked[j])
  {
    RankedItem(timeline, s, e, ranked, i);
    RankedItem(timeline, s, e, ranked, j);
    if ranked[i] == ranked[j] {
      CountedTwice(ranked, i, j);
    }
  }

  lemma RankedItem(timeline: seq<Day>, s: int, e: int, ranked: seq<Item>, i: int)
    requires InRange(timeline, s, e) && timeline[s].v != 0.0 && OneItemEach(timeline, s, e, multiset(ranked))
    requires 0 <= i < |ranked|
    ensures IsItem(timeline, s, e, ranked[i])
    ensures ranked[i].contribution == Share(timeline, s, e, KeyOf(ranked[i]))
  {
    assert ranked[i] in multiset(ranked);
  }

  /** The first n items of a ranking are those of n different holdings. */
  lemma {:induction false} NamedKeys(timeline: seq<Day>, s: int, e: int, ranked: seq<Item>, n: nat)
    requires InRange(timeline, s, e) && timeline[s].v != 0.0 && OneItemEach(timeline, s, e, multiset(ranked))
    requires n <= |ranked|
    ensures KeySet(ranked[..n]) <= KeysIn(timeline, s, e + 1)
    ensures |KeySet(ranked[..n])| == n
  {
    if n > 0 {
      NamedKeys(timeline, s, e, ranked, n - 1);
      assert ranked[..n][..n - 1] == ranked[..n - 1];
      NotAmong(timeline, s, e, ranked, n - 1);
      RankedItem(timeline, s, e, ranked, n - 1);
    }
  }

  /** Their contributions, as a sum over holdings. */
  lemma {:induction false} NamedSum(timeline: seq<Day>, s: int, e: int, ranked: seq<Item>, n: nat)
    requires InRange(timeline, s, e) && timeline[s].v != 0.0 && OneItemEach(timeline, s, e, multiset(ranked))
    requires n <= |ranked|
    ensures Contributions(ranked[..n]) == SumOver(KeySet(ranked[..n]), k => Share(timeline, s, e, k))
  {
    if n > 0 {
      var k := KeyOf(ranked[n - 1]);
      NamedSum(timeline, s, e, ranked, n - 1);
      assert ranked[..n][..n - 1] == ranked[..n - 1];
      NotAmong(timeline, s, e, ranked, n - 1);
      RankedItem(timeline, s, e, ranked, n - 1);
      SumTake(KeySet(ranked[..n]), k => Share(timeline, s, e, k), k);
      assert KeySet(ranked[..n]) - {k} == KeySet(ranked[..n - 1]);
    }
  }

  lemma NotAmong(timeline: seq<Day>, s: int, e: int, ranked: seq<Item>, n: nat)
    requires InRange(timeline, s, e) && timeline[s].v != 0.0 && OneItemEach(timeline, s, e, multiset(ranked))
    requires n < |ranked|
    ensures KeyOf(ranked[n]) !in KeySet(ranked[..n])
  {
    KeySetMembers(ranked[..n], KeyOf(ranked[n]));
    forall i | 0 <= i < n
      ensures KeyOf(ranked[..n][i]) != KeyOf(ranked[n])
    {
      RankedOnce(timeline, s, e, ranked, i, n);
    }
  }

  /** A holding's unrounded contribution. */
  ghost function Share(timeline: seq<Day>, s: int, e: int, k: Key): real {
    if InRange(timeline, s, e) && timeline[s].v != 0.0 then Contribution(timeline, s, e, k) else 0.0
  }

  /** The holdings a report does not name. */
  ghost function Unnamed(timeline: seq<Day>, s: int, e: int, p: Period): set<Key>
    requires InRange(timeline, s, e)
  {
    KeysIn(timeline, s, e + 1) - KeySet(p.items)
  }

  lemma {:induction false} SameKeys(a: seq<Item>, b: seq<Item>)
    requires |a| == |b| && forall i :: 0 <= i < |a| ==> KeyOf(a[i]) == KeyOf(b[i])
    ensures KeySet(a) == KeySet(b)
  {
    if a != [] {
      SameKeys(a[..|a| - 1], b[..|b| - 1]);
    }
  }

  /** All shares add up to the total profit over the opening equity. */
  lemma SharesTotal(timeline: seq<Day>, s: int, e: int)
    requires InRange(timeline, s, e) && timeline[s].v != 0.0
    ensures SumOver(KeysIn(timeline, s, e + 1), k => Share(timeline, s, e, k))
            == TotalProfit(timeline, s, e) / timeline[s].v
  {
    SumQuotient(KeysIn(timeline, s, e + 1), k => ProfitOf(timeline, s, e, k), timeline[s].v,
                k => Share(timeline, s, e, k));
  }

  lemma OneMore(n: nat)
    ensures (n + 1) as real * HALF_MICRO == n as real * HALF_MICRO + HALF_MICRO
  {
  }

  lemma DriftStep(a: real, b: real, x: real, y: real, drift: real)
    requires Abs(a - b) <= drift && Abs(x - y) <= HALF_MICRO
    ensures Abs((a + x) - (b + y)) <= drift + HALF_MICRO
  {
  }

  lemma {:induction false} RoundingDrift(ranked: seq<Item>, items: seq<Item>)
    requires |items| == |ranked| && forall i :: 0 <= i < |items| ==> items[i] == Rounded(ranked[i])
    ensures Abs(Contributions(items) - Contributions(ranked)) <= |items| as real * HALF_MICRO
  {
    if items != [] {
      var n := |items| - 1;
      RoundingDrift(ranked[..n], items[..n]);
      Round6Near(ranked[n].contribution);
      OneMore(n);
      DriftStep(Contributions(items[..n]), Contributions(ranked[..n]), items[n].contribution, ranked[n].contribution,
                n as real * HALF_MICRO);
    }
  }

  /** The rest is the true contribution of the unnamed holdings, up to half a
      millionth for each rounded number and the tolerance of the guard. */
  lemma RestIsUnnamed(timeline: seq<Day>, w: Window, topN: int, p: Period)
    requires InRange(timeline, w.start, w.end) && timeline[w.start].v != 0.0 && topN >= MIN_TOP_N
    requires PeriodReport(timeline, w, topN, p)
    requires Abs(Residual(timeline, w.start, w.end)) <= 0.0001
    ensures |Unnamed(timeline, w.start, w.end, p)| == p.restCount
    ensures Abs(p.restContribution
                - SumOver(Unnamed(timeline, w.start, w.end, p), k => Share(timeline, w.start, w.end, k)))
            <= (|p.items| + 1) as real * HALF_MICRO + RESIDUAL_TOLERANCE / Abs(timeline[w.start].v)
  {
    var s, e := w.start, w.end;
    var named := ReportAccuracy(timeline, w, topN, p);
    Combine(p.restContribution, Contributions(p.items), timeline[e].v / timeline[s].v - 1.0, named,
            SumOver(Unnamed(timeline, s, e, p), k => Share(timeline, s, e, k)), |p.items|,
            RESIDUAL_TOLERANCE / Abs(timeline[s].v));
  }

  /** The unrounded contribution of the named items, and how far the numbers are from it. */
  lemma ReportAccuracy(timeline: seq<Day>, w: Window, topN: int, p: Period) returns (named: real)
    requires InRange(timeline, w.start, w.end) && timeline[w.start].v != 0.0 && topN >= MIN_TOP_N
    requires PeriodReport(timeline, w, topN, p)
    requires Abs(Residual(timeline, w.start, w.end)) <= 0.0001
    ensures |Unnamed(timeline, w.start, w.end, p)| == p.restCount
    ensures Abs(Contributions(p.items) - named) <= |p.items| as real * HALF_MICRO
    ensures Abs(timeline[w.end].v / timeline[w.start].v - 1.0
                - (named + SumOver(Unnamed(timeline, w.start, w.end, p), k => Share(timeline, w.start, w.end, k))))
            <= RESIDUAL_TOLERANCE / Abs(timeline[w.start].v)
  {
    var ranked := ReportFacts(timeline, w, topN, p);
    CutKeys(timeline, w.start, w.end, ranked, p.items);
    NamedAndUnnamed(timeline, w.start, w.end, ranked, p.items);
    named := Contributions(ranked[..|p.items|]);
  }

  /** What the bound on the rest needs to know of a report. */
  lemma ReportFacts(timeline: seq<Day>, w: Window, topN: int, p: Period) returns (ranked: seq<Item>)
    requires InRange(timeline, w.start, w.end) && timeline[w.start].v != 0.0 && topN >= MIN_TOP_N
    requires PeriodReport(timeline, w, topN, p)
    ensures OneItemEach(timeline, w.start, w.end, multiset(ranked))
    ensures |p.items| <= |ranked| && p.restCount == |ranked| - |p.items|
    ensures KeySet(p.items) == KeySet(ranked[..|p.items|])
    ensures Abs(Contributions(p.items) - Contributions(ranked[..|p.items|])) <= |p.items| as real * HALF_MICRO
  {
    ranked :| Ranking(timeline, w.start, w.end, ranked) && Split(ranked, topN, p);
    SplitFacts(ranked[..|p.items|], p.items);
  }

  lemma SplitFacts(named: seq<Item>, items: seq<Item>)
    requires |items| == |named| && forall i :: 0 <= i < |items| ==> items[i] == Rounded(named[i])
    ensures KeySet(items) == KeySet(named)
    ensures Abs(Contributions(items) - Contributions(named)) <= |items| as real * HALF_MICRO
  {
    SameKeys(items, named);
    RoundingDrift(named, items);
  }

  lemma NamedAndUnnamed(timeline: seq<Day>, s: int, e: int, ranked: seq<Item>, items: seq<Item>)
    requires InRange(timeline, s, e) && timeline[s].v != 0.0 && OneItemEach(timeline, s, e, multiset(ranked))
    requires |items| <= |ranked| && KeySet(items) == KeySet(ranked[..|items|]) <= KeysIn(timeline, s, e + 1)
    requires Abs(Residual(timeline, s, e)) <= RESIDUAL_TOLERANCE
    ensures Abs(timeline[e].v / timeline[s].v - 1.0
                - (Contributions(ranked[..|items|])
                   + SumOver(KeysIn(timeline, s, e + 1) - KeySet(items), k => Share(timeline, s, e, k))))
            <= RESIDUAL_TOLERANCE / Abs(timeline[s].v)
  {
    CutSums(timeline, s, e, ranked, items);
    ReturnIsShares(timeline, s, e);
  }

  lemma Combine(rest: real, items: real, cumulative: real, named: real, unnamed: real, n: nat, guard: real)
    requires items + rest == Round6(cumulative)
    requires Abs(items - named) <= n as real * HALF_MICRO && Abs(cumulative - (named + unnamed)) <= guard
    ensures Abs(rest - unnamed) <= (n + 1) as real * HALF_MICRO + guard
  {
    Round6Near(cumulative);
    OneMore(n);
  }

  /** A ranking has as many items as there are holdings. */
  lemma RankedKeys(timeline: seq<Day>, s: int, e: int, ranked: seq<Item>)
    requires InRange(timeline, s, e) && timeline[s].v != 0.0 && OneItemEach(timeline, s, e, multiset(ranked))
    ensures |KeysIn(timeline, s, e + 1)| == |ranked|
  {
    NamedKeys(timeline, s, e, ranked, |ranked|);
    assert ranked[..|ranked|] == ranked;
    AllRanked(timeline, s, e, ranked);
    assert KeySet(ranked) == KeysIn(timeline, s, e + 1);
  }

  lemma CutKeys(timeline: seq<Day>, s: int, e: int, ranked: seq<Item>, items: seq<Item>)
    requires InRange(timeline, s, e) && timeline[s].v != 0.0 && OneItemEach(timeline, s, e, multiset(ranked))
    requires |items| <= |ranked| && KeySet(items) == KeySet(ranked[..|items|])
    ensures KeySet(items) <= KeysIn(timeline, s, e + 1)
    ensures |KeysIn(timeline, s, e + 1) - KeySet(items)| == |ranked| - |items|
  {
    NamedKeys(timeline, s, e, ranked, |items|);
    RankedKeys(timeline, s, e, ranked);
    SubsetSize(KeySet(items), KeysIn(timeline, s, e + 1));
  }

  lemma SubsetSize(a: set<Key>, b: set<Key>)
    requires a <= b
    ensures |b - a| == |b| - |a|
  {
    assert b == a + (b - a);
  }

  lemma CutSums(timeline: seq<Day>, s: int, e: int, ranked: seq<Item>, items: seq<Item>)
    requires InRange(timeline, s, e) && timeline[s].v != 0.0 && OneItemEach(timeline, s, e, multiset(ranked))
    requires |items| <= |ranked| && KeySet(items) == KeySet(ranked[..|items|]) <= KeysIn(timeline, s, e + 1)
    ensures Contributions(ranked[..|items|])
            + SumOver(KeysIn(timeline, s, e + 1) - KeySet(items), k => Share(timeline, s, e, k))
            == SumOver(KeysIn(timeline, s, e + 1), k => Share(timeline, s, e, k))
  {
    var keys, named := KeysIn(timeline, s, e + 1), KeySet(items);
    NamedSum(timeline, s, e, ranked, |items|);
    SumUnion(named, keys - named, k => Share(timeline, s, e, k));
    assert keys == named + (keys - named);
  }

  lemma AllRanked(timeline: seq<Day>, s: int, e: int, ranked: seq<Item>)
    requires InRange(timeline, s, e) && timeline[s].v != 0.0 && OneItemEach(timeline, s, e, multiset(ranked))
    ensures KeysIn(timeline, s, e + 1) <= KeySet(ranked)
  {
    forall k | k in KeysIn(timeline, s, e + 1)
      ensures k in KeySet(ranked)
    {
      var it := ItemOf(timeline, s, e, k);
      assert IsItem(timeline, s, e, it) && multiset(ranked)[it] == 1;
      assert it in ranked;
      KeySetMembers(ranked, k);
    }
  }

  /** The return of the period differs from the sum of all shares by the
      residual over the opening equity. */
  lemma ReturnIsShares(timeline: seq<Day>, s: int, e: int)
    requires InRange(timeline, s, e) && timeline[s].v != 0.0
    requires Abs(Residual(timeline, s, e)) <= RESIDUAL_TOLERANCE
    ensures Abs(timeline[e].v / timeline[s].v - 1.0
                - SumOver(KeysIn(timeline, s, e + 1), k => Share(timeline, s, e, k)))
            <= RESIDUAL_TOLERANCE / Abs(timeline[s].v)
  {
    SharesTotal(timeline, s, e);
    ReturnGap(timeline[e].v, timeline[s].v, TotalProfit(timeline, s, e));
  }

  lemma ReturnGap(v1: real, v0: real, profit: real)
    requires v0 != 0.0 && Abs(v1 - v0 - profit) <= RESIDUAL_TOLERANCE
    ensures Abs(v1 / v0 - 1.0 - profit / v0) <= RESIDUAL_TOLERANCE / Abs(v0)
  {
    var x := v1 / v0 - 1.0 - profit / v0;
    assert x * v0 == v1 - v0 - profit;
    AbsProduct(x, v0);
    QuotientBound(Abs(x), Abs(v0), RESIDUAL_TOLERANCE);
  }

  lemma AbsProduct(x: real, y: real)
    ensures Abs(x * y) == Abs(x) * Abs(y)
  {
  }

  lemma QuotientBound(x: real, y: real, t: real)
    requires y > 0.0 && x * y <= t
    ensures x <= t / y
  {
    var q := t / y;
    assert q * y == t;
    assert (q - x) * y >= 0.0;
  }

  /** No unnamed holding contributed more, in absolute terms, than a named one. */
  lemma NamedDominate(timeline: seq<Day>, w: Window, topN: int, p: Period, i: int, k: Key)
    requires InRange(timeline, w.start, w.end) && timeline[w.start].v != 0.0 && topN >= MIN_TOP_N
    requires PeriodReport(timeline, w, topN, p)
    requires 0 <= i < |p.items| && k in Unnamed(timeline, w.start, w.end, p)
    ensures KeyOf(p.items[i]) in KeysIn(timeline, w.start, w.end + 1)
    ensures p.items[i] == Rounded(ItemOf(timeline, w.start, w.end, KeyOf(p.items[i])))
    ensures Abs(Share(timeline, w.start, w.end, k)) <= Abs(Share(timeline, w.start, w.end, KeyOf(p.items[i])))
  {
    var s, e := w.start, w.end;
    var ranked :| Ranking(timeline, s, e, ranked) && Split(ranked, topN, p);
    RankedItem(timeline, s, e, ranked, i);
    Dominated(timeline, s, e, ranked, p.items, i, k);
  }

  lemma Dominated(timeline: seq<Day>, s: int, e: int, ranked: seq<Item>, items: seq<Item>, i: int, k: Key)
    requires InRange(timeline, s, e) && timeline[s].v != 0.0 && Ranking(timeline, s, e, ranked)
    requires |items| <= |ranked| && (forall j :: 0 <= j < |items| ==> KeyOf(items[j]) == KeyOf(ranked[j]))
    requires 0 <= i < |items| && k in KeysIn(timeline, s, e + 1) - KeySet(items)
    ensures Abs(Share(timeline, s, e, k)) <= Abs(Share(timeline, s, e, KeyOf(ranked[i])))
  {
    var j := RankOf(timeline, s, e, ranked, k);
    Outside(items, k);
    RankedItem(timeline, s, e, ranked, i);
    RankedItem(timeline, s, e, ranked, j);
    RankedDown(ranked, i, j);
  }

  lemma RankedDown(ranked: seq<Item>, i: int, j: int)
    requires Ordered(ranked, Precedes) && 0 <= i < j < |ranked|
    ensures Abs(ranked[j].contribution) <= Abs(ranked[i].contribution)
  {
    assert !Precedes(ranked[j], ranked[i]);
  }

  lemma RankOf(timeline: seq<Day>, s: int, e: int, ranked: seq<Item>, k: Key) returns (j: int)
    requires InRange(timeline, s, e) && timeline[s].v != 0.0 && OneItemEach(timeline, s, e, multiset(ranked))
    requires k in KeysIn(timeline, s, e + 1)
    ensures 0 <= j < |ranked| && KeyOf(ranked[j]) == k
  {
    AllRanked(timeline, s, e, ranked);
    KeySetMembers(ranked, k);
    j :| 0 <= j < |ranked| && KeyOf(ranked[j]) == k;
  }

  lemma Outside(items: seq<Item>, k: Key)
    requires k !in KeySet(items)
    ensures forall i :: 0 <= i < |items| ==> KeyOf(items[i]) != k
  {
    KeySetMembers(items, k);
  }

  // ----------------------------------------------------------------- report

  /** The timeline that the three tables describe. */
  function TimelineOf(perf: seq<PerfRow>, pos: seq<PosRow>, txs: seq<TxRow>): (r: seq<Day>)
    ensures Loaded(r, perf, pos, txs)
  {
    seq(|perf|, i requires 0 <= i < |perf| => DayOn(perf, pos, txs, perf[i].date))
  }

  /** The equity rows come ordered by date. */
  ghost predicate RowsChronological(perf: seq<PerfRow>) {
    && (forall i :: 0 <= i < |perf| ==> IsDate(perf[i].date))
    && (forall i, j :: 0 <= i < j < |perf| ==> NotAfter(perf[i].date, perf[j].date))
  }

  /** Some period fails the residual guard. */
  ghost predicate GuardFails(timeline: seq<Day>)
    requires timeline != [] && Chronological(timeline)
  {
    exists w :: IsWindow(timeline, w) && Abs(Residual(timeline, w.start, w.end)) > 0.0001
  }

  /** One report for each window, in order. */
  ghost predicate Reports(timeline: seq<Day>, ws: seq<Window>, topN: int, pow: Pow, ps: seq<Period>)
    requires forall w :: w in ws ==> InRange(timeline, w.start, w.end) && timeline[w.start].v != 0.0
  {
    |ps| == |ws|
    && forall i :: 0 <= i < |ps| ==> PeriodReport(timeline, ws[i], topN, ps[i]) && Timed(timeline, ws[i], pow, ps[i])
  }

  /** The endpoint. Opening equity is never zero here, and the only failures are
      an empty snapshot and a period the guard rejects. */
  method Report(perf: seq<RawPerf>, pos: seq<PosRow>, txs: seq<TxRow>, topN: int, pow: Pow)
    returns (r: Result<seq<Period>, ImpactError>)
    requires AllDated(perf) ==> RowsChronological(Parsed(perf))
    ensures r != Err(ZeroOpeningEquity)
    ensures r == Err(BadDate) <==> !AllDated(perf)
    ensures r == Err(NotFound) <==> AllDated(perf) && (perf == [] || pos == [])
    ensures AllDated(perf) && perf != [] && pos != [] ==>
              Chronological(TimelineOf(Parsed(perf), pos, txs))
              && (r == Err(ResidualCheckFailed) <==> GuardFails(TimelineOf(Parsed(perf), pos, txs)))
    ensures r.Ok? ==>
              && AllDated(perf)
              && exists ws :: Complete(TimelineOf(Parsed(perf), pos, txs), ws, ClampTopN(topN), pow, r.value)
  {
    var n := ClampTopN(topN);
    var loader := new Loader();
    var loaded := loader.Load(perf, pos, txs);
    if loaded.Err? {
      return Err(loaded.error);
    }
    var timeline := loaded.value;
    assert timeline == TimelineOf(Parsed(perf), pos, txs);
    if timeline == [] {
      return Err(NotFound);
    }
    TimelineChronological(Parsed(perf), pos, txs);
    r := ComputePeriods(timeline, n, pow);
  }

  lemma TimelineChronological(perf: seq<PerfRow>, pos: seq<PosRow>, txs: seq<TxRow>)
    requires RowsChronological(perf)
    ensures Chronological(TimelineOf(perf, pos, txs))
  {
  }

  /** The window passes the guard, and p is its report. */
  ghost predicate Passes(timeline: seq<Day>, w: Window, topN: int, pow: Pow, p: Period) {
    && InRange(timeline, w.start, w.end) && timeline[w.start].v != 0.0
    && Abs(Residual(timeline, w.start, w.end)) <= 0.0001
    && PeriodReport(timeline, w, topN, p) && Timed(timeline, w, pow, p)
  }

  /** The loop over the windows. */
  method ComputePeriods(timeline: seq<Day>, topN: int, pow: Pow) returns (r: Result<seq<Period>, ImpactError>)
    requires timeline != [] && Chronological(timeline) && topN >= MIN_TOP_N
    ensures r.Ok? || r == Err(ResidualCheckFailed)
    ensures r == Err(ResidualCheckFailed) <==> GuardFails(timeline)
    ensures r.Ok? ==> exists ws :: Complete(timeline, ws, topN, pow, r.value)
  {
    var ws := BuildPeriodWindows(timeline);
    WindowsSound(timeline, ws);
    var ps := [];
    for i := 0 to |ws|
      invariant |ps| == i
      invariant forall k :: 0 <= k < i ==> ws[k] in ws && Passes(timeline, ws[k], topN, pow, ps[k])
    {
      assert ws[i] in ws;
      var p := ComputePeriod(timeline, ws[i], topN, pow);
      if p.Err? {
        FailsAt(timeline, ws[i]);
        return Err(p.error);
      }
      assert Passes(timeline, ws[i], topN, pow, p.value);
      ps := ps + [p.value];
    }
    AllPass(timeline, ws, topN, pow, ps);
    return Ok(ps);
  }

  /** Every period that applies is reported, once and in order, and passed the guard. */
  ghost predicate Complete(timeline: seq<Day>, ws: seq<Window>, topN: int, pow: Pow, ps: seq<Period>) {
    && timeline != [] && Chronological(timeline) && AllWindows(timeline, ws)
    && (forall w :: w in ws ==> InRange(timeline, w.start, w.end) && timeline[w.start].v != 0.0
                                && Abs(Residual(timeline, w.start, w.end)) <= 0.0001)
    && Reports(timeline, ws, topN, pow, ps)
  }

  lemma FailsAt(timeline: seq<Day>, w: Window)
    requires timeline != [] && Chronological(timeline)
    requires IsWindow(timeline, w) && Abs(Residual(timeline, w.start, w.end)) > 0.0001
    ensures GuardFails(timeline)
  {
  }

  lemma AllPass(timeline: seq<Day>, ws: seq<Window>, topN: int, pow: Pow, ps: seq<Period>)
    requires timeline != [] && Chronological(timeline) && AllWindows(timeline, ws) && |ps| == |ws|
    requires forall k :: 0 <= k < |ws| ==> Passes(timeline, ws[k], topN, pow, ps[k])
    ensures Complete(timeline, ws, topN, pow, ps) && !GuardFails(timeline)
  {
    forall w | w in ws
      ensures InRange(timeline, w.start, w.end) && timeline[w.start].v != 0.0
      ensures Abs(Residual(timeline, w.start, w.end)) <= 0.0001
    {
      var k :| 0 <= k < |ws| && ws[k] == w;
      assert Passes(timeline, ws[k], topN, pow, ps[k]);
    }
  }

  /** When the positions account for the equity and the flows in every period,
      the report is refused exactly when some period saw net deposits or
      withdrawals beyond the tolerance. */
  lemma RefusedOnExternalFlow(perf: seq<PerfRow>, pos: seq<PosRow>, txs: seq<TxRow>)
    requires perf != [] && Chronological(TimelineOf(perf, pos, txs))
    requires forall w :: IsWindow(TimelineOf(perf, pos, txs), w) ==>
              Accounted(TimelineOf(perf, pos, txs), w.start, w.end)
    ensures GuardFails(TimelineOf(perf, pos, txs)) <==>
              exists w :: IsWindow(TimelineOf(perf, pos, txs), w)
                          && Abs(NetExternal(TimelineOf(perf, pos, txs), txs, w.start, w.end)) > 0.0001
  {
    var timeline := TimelineOf(perf, pos, txs);
    forall w | IsWindow(timeline, w)
      ensures Residual(timeline, w.start, w.end) == NetExternal(timeline, txs, w.start, w.end)
    {
      GuardTestsExternalFlow(timeline, txs, w.start, w.end);
    }
  }

  // ----------------------------------------------- a deposit that is refused

  const FIRST_DAY := Civil(2024, 1, 2)
  const SECOND_DAY := Civil(2024, 1, 3)

  /** A portfolio that holds only cash, and receives as much again the next day. */
  const DEPOSIT_PERF := [PerfRow(FIRST_DAY, 100.0), PerfRow(SECOND_DAY, 200.0)]
  const DEPOSIT_POS := [PosRow(FIRST_DAY, CASH, Pos(100.0, 100.0)), PosRow(SECOND_DAY, CASH, Pos(200.0, 200.0))]
  const DEPOSIT_TXS := [TxRow(SECOND_DAY, Deposit, Key("", ""), 100.0)]

  lemma DepositTimeline()
    ensures RowsChronological(DEPOSIT_PERF)
    ensures TimelineOf(DEPOSIT_PERF, DEPOSIT_POS, DEPOSIT_TXS)
            == [Day(FIRST_DAY, 100.0, map[CASH := Pos(100.0, 100.0)], map[]),
                Day(SECOND_DAY, 200.0, map[CASH := Pos(200.0, 200.0)], map[CASH := 100.0])]
  {
    var perf, pos, txs := DEPOSIT_PERF, DEPOSIT_POS, DEPOSIT_TXS;
    assert perf[..1] == [perf[0]] && perf[..1][..0] == [];
    assert EquityOn(perf[..1], FIRST_DAY) == 100.0 && EquityOn(perf, FIRST_DAY) == 100.0
           && EquityOn(perf, SECOND_DAY) == 200.0;
    assert pos[..1] == [pos[0]] && pos[..1][..0] == [];
    assert PositionsOn([], FIRST_DAY) == map[] && PositionsOn([], SECOND_DAY) == map[];
    assert PositionsOn(pos[..1], FIRST_DAY) == map[CASH := Pos(100.0, 100.0)]
           && PositionsOn(pos[..1], SECOND_DAY) == map[];
    assert PositionsOn(pos, FIRST_DAY) == map[CASH := Pos(100.0, 100.0)];
    assert PositionsOn(pos, SECOND_DAY) == map[CASH := Pos(200.0, 200.0)];
    assert txs[..0] == [];
    assert FlowsOn([], FIRST_DAY) == map[] && FlowsOn([], SECOND_DAY) == map[];
    assert FlowsOn(txs, FIRST_DAY) == map[] && FlowsOn(txs, SECOND_DAY) == map[CASH := 100.0];
    var timeline := TimelineOf(perf, pos, txs);
    assert |timeline| == 2;
    assert timeline[0] == DayOn(perf, pos, txs, FIRST_DAY) && timeline[1] == DayOn(perf, pos, txs, SECOND_DAY);
  }

  lemma CashOnly(day: Day, v: real)
    requires day.v == v && day.positions == map[CASH := Pos(v, v)]
    ensures Gap(day) == 0.0
  {
    var f := k => if k in day.positions then day.positions[k].mv else 0.0;
    assert day.positions.Keys == {CASH};
    SumTake({CASH}, f, CASH);
    assert {CASH} - {CASH} == {};
  }

  /** Its books account for everything in every period, and the report is refused
      because of the deposit alone. */
  lemma DepositRefused()
    ensures var timeline := TimelineOf(DEPOSIT_PERF, DEPOSIT_POS, DEPOSIT_TXS);
            && Chronological(timeline)
            && IsWindow(timeline, Window(Inception, 0, 1))
            && (forall w :: IsWindow(timeline, w) ==> Accounted(timeline, w.start, w.end))
            && NetExternal(timeline, DEPOSIT_TXS, 0, 1) == 100.0
            && GuardFails(timeline)
  {
    var timeline := TimelineOf(DEPOSIT_PERF, DEPOSIT_POS, DEPOSIT_TXS);
    DepositTimeline();
    assert |timeline| == 2;
    CashOnly(timeline[0], 100.0);
    CashOnly(timeline[1], 200.0);
    assert Chronological(timeline);
    assert IsWindow(timeline, Window(Inception, 0, 1));
    KeysCover(timeline, 0, 2, 0);
    DepositFlow(timeline);
    assert forall w :: IsWindow(timeline, w) ==> w.start == 0 && w.end == 1;
    GuardTestsExternalFlow(timeline, DEPOSIT_TXS, 0, 1);
  }

  lemma DepositFlow(timeline: seq<Day>)
    requires |timeline| == 2 && timeline[1].date == SECOND_DAY
    ensures NetExternal(timeline, DEPOSIT_TXS, 0, 1) == 100.0
  {
    assert DEPOSIT_TXS[..0] == [];
    assert ExternalOn(DEPOSIT_TXS, SECOND_DAY) == 100.0;
    var f := i => Inflow(timeline, DEPOSIT_TXS, i);
    assert SumRange(1, 2, f) == SumRange(1, 1, f) + f(1);
  }
}
