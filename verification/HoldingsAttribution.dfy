/** Attribution of a period's gain to holdings, and what the residual guard tests. */
module HoldingsAttribution {
  import opened Prelude
  import opened Sums
  import opened Rounding
  import opened HoldingsTimeline
  import opened PeriodWindows

  const RESIDUAL_TOLERANCE := 0.0001

  ghost predicate InRange(timeline: seq<Day>, s: int, e: int) {
    0 <= s < e < |timeline|
  }

  // ------------------------------------------------------------ definitions

  function MarketValue(timeline: seq<Day>, i: int, k: Key): real {
    if 0 <= i < |timeline| && k in timeline[i].positions then timeline[i].positions[k].mv else 0.0
  }

  function FlowAt(timeline: seq<Day>, i: int, k: Key): real {
    if 0 <= i < |timeline| then Flow(timeline[i].flows, k) else 0.0
  }

  /** Every holding with a position on some day of [lo, hi). */
  function KeysIn(timeline: seq<Day>, lo: int, hi: int): set<Key>
    requires 0 <= lo && hi <= |timeline|
    decreases hi - lo
  {
    if hi <= lo then {} else KeysIn(timeline, lo, hi - 1) + timeline[hi - 1].positions.Keys
  }

  lemma {:induction false} KeysCover(timeline: seq<Day>, lo: int, hi: int, i: int)
    requires 0 <= lo <= i < hi <= |timeline|
    ensures timeline[i].positions.Keys <= KeysIn(timeline, lo, hi)
    decreases hi - lo
  {
    if i < hi - 1 {
      KeysCover(timeline, lo, hi - 1, i);
    }
  }

  /** The holdings of a window are those with a position on some day of it. */
  lemma {:induction false} KeysInIff(timeline: seq<Day>, lo: int, hi: int, k: Key)
    requires 0 <= lo && hi <= |timeline|
    ensures k in KeysIn(timeline, lo, hi) <==> exists i :: lo <= i < hi && k in timeline[i].positions
    decreases hi - lo
  {
    if lo < hi {
      KeysInIff(timeline, lo, hi - 1, k);
    }
  }

  /** The money moved into a holding after day s, up to day e. */
  ghost function FlowSum(timeline: seq<Day>, s: int, e: int, k: Key): real {
    SumRange(s + 1, e + 1, i => FlowAt(timeline, i, k))
  }

  ghost function ProfitOf(timeline: seq<Day>, s: int, e: int, k: Key): real {
    MarketValue(timeline, e, k) - MarketValue(timeline, s, k) - FlowSum(timeline, s, e, k)
  }

  ghost function TotalProfit(timeline: seq<Day>, s: int, e: int): real
    requires InRange(timeline, s, e)
  {
    SumOver(KeysIn(timeline, s, e + 1), k => ProfitOf(timeline, s, e, k))
  }

  ghost function Residual(timeline: seq<Day>, s: int, e: int): real
    requires InRange(timeline, s, e)
  {
    timeline[e].v - timeline[s].v - TotalProfit(timeline, s, e)
  }

  // ---------------------------------------------------------- the residual

  ghost function PositionsTotal(day: Day): real {
    SumOver(day.positions.Keys, k => if k in day.positions then day.positions[k].mv else 0.0)
  }

  /** Equity that no position accounts for. */
  ghost function Gap(day: Day): real {
    day.v - PositionsTotal(day)
  }

  /** The flows of one day that belong to none of the given holdings. */
  ghost function Stray(timeline: seq<Day>, keys: set<Key>, i: int): real {
    if 0 <= i < |timeline| then SumOver(timeline[i].flows.Keys - keys, k => Flow(timeline[i].flows, k)) else 0.0
  }

  ghost function Inflow(timeline: seq<Day>, txs: seq<TxRow>, i: int): real {
    if 0 <= i < |timeline| then ExternalOn(txs, timeline[i].date) else 0.0
  }

  /** Deposits less withdrawals on the days after s, up to day e. */
  ghost function NetExternal(timeline: seq<Day>, txs: seq<TxRow>, s: int, e: int): real {
    SumRange(s + 1, e + 1, i => Inflow(timeline, txs, i))
  }

  ghost function StraySum(timeline: seq<Day>, s: int, e: int): real
    requires InRange(timeline, s, e)
  {
    SumRange(s + 1, e + 1, i => Stray(timeline, KeysIn(timeline, s, e + 1), i))
  }

  /** Each day's flows come from the transactions of its date. */
  ghost predicate FlowsFrom(timeline: seq<Day>, txs: seq<TxRow>) {
    forall i :: 0 <= i < |timeline| ==> timeline[i].flows == FlowsOn(txs, timeline[i].date)
  }

  lemma PositionsByKeys(timeline: seq<Day>, s: int, e: int, i: int)
    requires InRange(timeline, s, e) && s <= i <= e
    ensures SumOver(KeysIn(timeline, s, e + 1), k => MarketValue(timeline, i, k)) == PositionsTotal(timeline[i])
  {
    var day := timeline[i];
    var f := k => MarketValue(timeline, i, k);
    var g := k => if k in day.positions then day.positions[k].mv else 0.0;
    KeysCover(timeline, s, e + 1, i);
    SumWithin(day.positions.Keys, KeysIn(timeline, s, e + 1), f);
    SumSame(day.positions.Keys, f, g);
  }

  /** Total profit, with the days of the flows on the outside of the sum. */
  lemma TotalProfitByDays(timeline: seq<Day>, s: int, e: int)
    requires InRange(timeline, s, e)
    ensures TotalProfit(timeline, s, e) == PositionsTotal(timeline[e]) - PositionsTotal(timeline[s])
              - SumRange(s + 1, e + 1, i => SumOver(KeysIn(timeline, s, e + 1), k => FlowAt(timeline, i, k)))
  {
    var keys := KeysIn(timeline, s, e + 1);
    var close, open := k => MarketValue(timeline, e, k), k => MarketValue(timeline, s, k);
    var flow := k => FlowSum(timeline, s, e, k);
    var profit := k => ProfitOf(timeline, s, e, k);
    var spent := k => MarketValue(timeline, s, k) + FlowSum(timeline, s, e, k);
    ProfitSplits(timeline, s, e, keys, profit, spent, close, open, flow);
    PositionsByKeys(timeline, s, e, e);
    PositionsByKeys(timeline, s, e, s);
    FlowsByDays(timeline, s, e, keys, flow, i => SumOver(keys, k => FlowAt(timeline, i, k)));
  }

  lemma FlowsByDays(timeline: seq<Day>, s: int, e: int, keys: set<Key>, flow: Key -> real, byDay: int -> real)
    requires forall k :: flow(k) == FlowSum(timeline, s, e, k)
    requires forall i :: byDay(i) == SumOver(keys, k => FlowAt(timeline, i, k))
    ensures SumOver(keys, flow) == SumRange(s + 1, e + 1, byDay)
  {
    var col := (k: Key) => ((i: int) => FlowAt(timeline, i, k));
    var row := (i: int) => ((k: Key) => FlowAt(timeline, i, k));
    Exchange(keys, s + 1, e + 1, col, row, flow, byDay);
  }

  lemma ProfitSplits(timeline: seq<Day>, s: int, e: int, keys: set<Key>, profit: Key -> real,
                     spent: Key -> real, close: Key -> real, open: Key -> real, flow: Key -> real)
    requires forall k :: close(k) == profit(k) + spent(k)
    requires forall k :: spent(k) == open(k) + flow(k)
    ensures SumOver(keys, profit) == SumOver(keys, close) - SumOver(keys, open) - SumOver(keys, flow)
  {
    SumPlus(keys, profit, spent, close);
    SumPlus(keys, open, flow, spent);
  }

  /** The flows among the given holdings are all flows of the day but the stray ones. */
  lemma DayFlows(timeline: seq<Day>, keys: set<Key>, i: int)
    requires 0 <= i < |timeline|
    ensures SumOver(keys, k => FlowAt(timeline, i, k)) == Total(timeline[i].flows) - Stray(timeline, keys, i)
  {
    var flows := timeline[i].flows;
    var f, g := k => FlowAt(timeline, i, k), k => Flow(flows, k);
    var named := flows.Keys * keys;
    SumSame(keys, f, g);
    SumWithin(named, keys, g);
    SumUnion(named, flows.Keys - keys, g);
    assert flows.Keys == named + (flows.Keys - keys);
  }

  /** What the residual is, on every timeline: the change of unexplained equity,
      plus the money that came from outside, less the flows of holdings that
      never had a position. */
  lemma ResidualIdentity(timeline: seq<Day>, txs: seq<TxRow>, s: int, e: int)
    requires InRange(timeline, s, e) && FlowsFrom(timeline, txs)
    ensures Residual(timeline, s, e)
            == Gap(timeline[e]) - Gap(timeline[s]) + NetExternal(timeline, txs, s, e) - StraySum(timeline, s, e)
  {
    var keys := KeysIn(timeline, s, e + 1);
    var byDay := i => SumOver(keys, k => FlowAt(timeline, i, k));
    var outside, stray := i => Inflow(timeline, txs, i), i => Stray(timeline, keys, i);
    TotalProfitByDays(timeline, s, e);
    forall i | s + 1 <= i < e + 1
      ensures byDay(i) == outside(i) - stray(i)
    {
      DayFlows(timeline, keys, i);
      FlowsBalance(txs, timeline[i].date);
    }
    RangeMinus(s + 1, e + 1, outside, stray, byDay);
  }

  /** Positions account for the equity at both ends, and every flow belongs to a
      holding seen in the period. */
  ghost predicate Accounted(timeline: seq<Day>, s: int, e: int)
    requires InRange(timeline, s, e)
  {
    && Gap(timeline[s]) == 0.0 && Gap(timeline[e]) == 0.0
    && (forall i :: s < i <= e ==> timeline[i].flows.Keys <= KeysIn(timeline, s, e + 1))
  }

  /** On accounted timelines the guard passes exactly when the net external flow
      of the period is within tolerance. */
  lemma GuardTestsExternalFlow(timeline: seq<Day>, txs: seq<TxRow>, s: int, e: int)
    requires InRange(timeline, s, e) && FlowsFrom(timeline, txs) && Accounted(timeline, s, e)
    ensures Residual(timeline, s, e) == NetExternal(timeline, txs, s, e)
    ensures Abs(Residual(timeline, s, e)) <= RESIDUAL_TOLERANCE <==>
              Abs(NetExternal(timeline, txs, s, e)) <= RESIDUAL_TOLERANCE
  {
    var keys := KeysIn(timeline, s, e + 1);
    var stray, none := i => Stray(timeline, keys, i), i => 0.0;
    forall i | s + 1 <= i < e + 1
      ensures stray(i) == none(i)
    {
      assert timeline[i].flows.Keys - keys == {};
    }
    RangeSame(s + 1, e + 1, stray, none);
    RangeMinus(s + 1, e + 1, none, none, none);
    ResidualIdentity(timeline, txs, s, e);
  }

  /** Deposits less withdrawals dated after t0, up to t1. */
  function ExternalBetween(txs: seq<TxRow>, t0: Civil, t1: Civil): real {
    if txs == [] then 0.0
    else
      var n := |txs| - 1;
      ExternalBetween(txs[..n], t0, t1)
      + (if !NotAfter(txs[n].date, t0) && NotAfter(txs[n].date, t1) then External(txs[n]) else 0.0)
  }

  ghost predicate During(timeline: seq<Day>, s: int, e: int, date: Civil)
    requires InRange(timeline, s, e)
  {
    !NotAfter(date, timeline[s].date) && NotAfter(date, timeline[e].date)
  }

  predicate IsDayOf(timeline: seq<Day>, i: int, date: Civil) {
    0 <= i < |timeline| && timeline[i].date == date
  }

  /** How many of the days after s, up to day e, have the given date. */
  ghost function DaysOf(timeline: seq<Day>, s: int, e: int, date: Civil): nat {
    Count(s + 1, e + 1, i => IsDayOf(timeline, i, date))
  }

  /** The external flow of transactions in the interval whose date has no day. */
  ghost function Dropped(timeline: seq<Day>, txs: seq<TxRow>, s: int, e: int): real
    requires InRange(timeline, s, e)
  {
    if txs == [] then 0.0
    else
      var n := |txs| - 1;
      Dropped(timeline, txs[..n], s, e)
      + (if During(timeline, s, e, txs[n].date) && DaysOf(timeline, s, e, txs[n].date) == 0
         then External(txs[n]) else 0.0)
  }

  /** How often a date is counted beyond the one time that the interval asks for. */
  ghost function Surplus(timeline: seq<Day>, s: int, e: int, date: Civil): nat
    requires InRange(timeline, s, e)
  {
    var days := DaysOf(timeline, s, e, date);
    if During(timeline, s, e, date) && days > 0 then days - 1 else days
  }

  /** The external flow of transactions that is counted again. */
  ghost function Repeated(timeline: seq<Day>, txs: seq<TxRow>, s: int, e: int): real
    requires InRange(timeline, s, e)
  {
    if txs == [] then 0.0
    else
      var n := |txs| - 1;
      Repeated(timeline, txs[..n], s, e) + Surplus(timeline, s, e, txs[n].date) as real * External(txs[n])
  }

  lemma {:induction false} RangeOfMarks(lo: int, hi: int, p: int -> bool, f: int -> real, x: real)
    requires forall i :: lo <= i < hi ==> f(i) == if p(i) then x else 0.0
    ensures SumRange(lo, hi, f) == Count(lo, hi, p) as real * x
    decreases hi - lo
  {
    if lo < hi {
      RangeOfMarks(lo, hi - 1, p, f, x);
    }
  }

  /** One transaction adds its flow once for every day of its date. */
  lemma NetExternalStep(timeline: seq<Day>, txs: seq<TxRow>, s: int, e: int)
    requires InRange(timeline, s, e) && txs != []
    ensures var n := |txs| - 1;
            NetExternal(timeline, txs, s, e)
            == NetExternal(timeline, txs[..n], s, e) + DaysOf(timeline, s, e, txs[n].date) as real * External(txs[n])
  {
    var n := |txs| - 1;
    var all, before := i => Inflow(timeline, txs, i), i => Inflow(timeline, txs[..n], i);
    var last := LastFlow(timeline, txs[n].date, External(txs[n]));
    forall i
      ensures last(i) == all(i) - before(i)
    {
      InflowStep(timeline, txs, i);
    }
    RangeMinus(s + 1, e + 1, all, before, last);
    MarksOf(timeline, s, e, txs[n].date, External(txs[n]));
  }

  function LastFlow(timeline: seq<Day>, date: Civil, x: real): int -> real {
    i => if IsDayOf(timeline, i, date) then x else 0.0
  }

  lemma InflowStep(timeline: seq<Day>, txs: seq<TxRow>, i: int)
    requires txs != []
    ensures var n := |txs| - 1;
            Inflow(timeline, txs, i)
            == Inflow(timeline, txs[..n], i) + LastFlow(timeline, txs[n].date, External(txs[n]))(i)
  {
  }

  lemma MarksOf(timeline: seq<Day>, s: int, e: int, date: Civil, x: real)
    ensures SumRange(s + 1, e + 1, LastFlow(timeline, date, x)) == DaysOf(timeline, s, e, date) as real * x
  {
    RangeOfMarks(s + 1, e + 1, i => IsDayOf(timeline, i, date), LastFlow(timeline, date, x), x);
  }

  /** On every timeline: summed by days, the external flow is that of the
      transactions in the half-open date interval, less those that fall on no
      day, plus those that are counted again because a date is repeated. */
  lemma {:induction false} ExternalByDates(timeline: seq<Day>, txs: seq<TxRow>, s: int, e: int)
    requires InRange(timeline, s, e)
    ensures NetExternal(timeline, txs, s, e)
            == ExternalBetween(txs, timeline[s].date, timeline[e].date)
               - Dropped(timeline, txs, s, e) + Repeated(timeline, txs, s, e)
  {
    if txs == [] {
      RangeOfMarks(s + 1, e + 1, i => false, i => Inflow(timeline, txs, i), 0.0);
    } else {
      var n := |txs| - 1;
      ExternalByDates(timeline, txs[..n], s, e);
      NetExternalStep(timeline, txs, s, e);
      CorrectionStep(timeline, txs, s, e);
    }
  }

  /** One more transaction: counted on each of its days, wanted once if it falls in
      the interval. */
  lemma CorrectionStep(timeline: seq<Day>, txs: seq<TxRow>, s: int, e: int)
    requires InRange(timeline, s, e) && txs != []
    ensures var n := |txs| - 1;
            var front, t0, t1 := txs[..n], timeline[s].date, timeline[e].date;
            DaysOf(timeline, s, e, txs[n].date) as real * External(txs[n])
            == (ExternalBetween(txs, t0, t1) - ExternalBetween(front, t0, t1))
               - (Dropped(timeline, txs, s, e) - Dropped(timeline, front, s, e))
               + (Repeated(timeline, txs, s, e) - Repeated(timeline, front, s, e))
  {
    var n := |txs| - 1;
    OneTransaction(DaysOf(timeline, s, e, txs[n].date), During(timeline, s, e, txs[n].date), External(txs[n]),
                   Surplus(timeline, s, e, txs[n].date));
  }

  lemma OneTransaction(days: nat, during: bool, x: real, surplus: nat)
    requires surplus == if during && days > 0 then days - 1 else days
    ensures days as real * x
            == (if during then x else 0.0) - (if during && days == 0 then x else 0.0) + surplus as real * x
  {
  }

  /** No date has two days. */
  ghost predicate OneDayPerDate(timeline: seq<Day>) {
    forall i, j :: 0 <= i < j < |timeline| ==> timeline[i].date != timeline[j].date
  }

  /** A transaction in the period falls on one of its days. */
  ghost predicate OnSomeDay(timeline: seq<Day>, s: int, e: int, t: TxRow)
    requires InRange(timeline, s, e)
  {
    During(timeline, s, e, t.date) ==> exists i :: s < i <= e && timeline[i].date == t.date
  }

  lemma {:induction false} CountNone(lo: int, hi: int, p: int -> bool)
    requires forall i :: lo <= i < hi ==> !p(i)
    ensures Count(lo, hi, p) == 0
    decreases hi - lo
  {
    if lo < hi {
      CountNone(lo, hi - 1, p);
    }
  }

  lemma {:induction false} CountOne(lo: int, hi: int, p: int -> bool, at: int)
    requires lo <= at < hi && p(at) && forall i :: lo <= i < hi && i != at ==> !p(i)
    ensures Count(lo, hi, p) == 1
    decreases hi - lo
  {
    if at < hi - 1 {
      CountOne(lo, hi - 1, p, at);
    } else {
      CountNone(lo, hi - 1, p);
    }
  }

  lemma InInterval(timeline: seq<Day>, s: int, e: int, i: int)
    requires InRange(timeline, s, e) && Chronological(timeline) && OneDayPerDate(timeline) && s < i <= e
    ensures During(timeline, s, e, timeline[i].date)
  {
    assert NotAfter(timeline[s].date, timeline[i].date);
    assert i < e ==> NotAfter(timeline[i].date, timeline[e].date);
  }

  lemma CountedOnce(timeline: seq<Day>, s: int, e: int, t: TxRow)
    requires InRange(timeline, s, e) && Chronological(timeline) && OneDayPerDate(timeline)
    requires OnSomeDay(timeline, s, e, t)
    ensures DaysOf(timeline, s, e, t.date) == if During(timeline, s, e, t.date) then 1 else 0
  {
    var p := i => IsDayOf(timeline, i, t.date);
    if During(timeline, s, e, t.date) {
      var at :| s < at <= e && timeline[at].date == t.date;
      CountOne(s + 1, e + 1, p, at);
    } else {
      forall i | s + 1 <= i < e + 1
        ensures !p(i)
      {
        InInterval(timeline, s, e, i);
      }
      CountNone(s + 1, e + 1, p);
    }
  }

  /** With one day per date and every transaction on a day, it is just theirs. */
  lemma ExternalExact(timeline: seq<Day>, txs: seq<TxRow>, s: int, e: int)
    requires InRange(timeline, s, e) && Chronological(timeline) && OneDayPerDate(timeline)
    requires forall j :: 0 <= j < |txs| ==> OnSomeDay(timeline, s, e, txs[j])
    ensures NetExternal(timeline, txs, s, e) == ExternalBetween(txs, timeline[s].date, timeline[e].date)
  {
    NothingDropped(timeline, txs, s, e);
    ExternalByDates(timeline, txs, s, e);
  }

  lemma {:induction false} NothingDropped(timeline: seq<Day>, txs: seq<TxRow>, s: int, e: int)
    requires InRange(timeline, s, e) && Chronological(timeline) && OneDayPerDate(timeline)
    requires forall j :: 0 <= j < |txs| ==> OnSomeDay(timeline, s, e, txs[j])
    ensures Dropped(timeline, txs, s, e) == 0.0 && Repeated(timeline, txs, s, e) == 0.0
  {
    if txs != [] {
      NothingDropped(timeline, txs[..|txs| - 1], s, e);
      CountedOnce(timeline, s, e, txs[|txs| - 1]);
    }
  }

  // ------------------------------------------------------------------ items

  datatype Item = Item(ticker: string, figi: Option<string>, contribution: real, avgWeight: real, holdingDays: int)

  predicate Funded(timeline: seq<Day>, i: int) {
    0 <= i < |timeline| && timeline[i].v > 0.0
  }

  predicate Held(timeline: seq<Day>, i: int, k: Key) {
    && 0 <= i < |timeline| && k in timeline[i].positions
    && (timeline[i].positions[k].mv != 0.0 || timeline[i].positions[k].qty != 0.0)
  }

  function WeightAt(timeline: seq<Day>, i: int, k: Key): real {
    if Funded(timeline, i) then MarketValue(timeline, i, k) / timeline[i].v else 0.0
  }

  /** A holding's mean share of equity over the funded days of [s, e]. */
  ghost function AverageWeight(timeline: seq<Day>, s: int, e: int, k: Key): real {
    var days := Count(s, e + 1, i => Funded(timeline, i));
    if days > 0 then SumRange(s, e + 1, i => WeightAt(timeline, i, k)) / days as real else 0.0
  }

  ghost function Contribution(timeline: seq<Day>, s: int, e: int, k: Key): real
    requires InRange(timeline, s, e) && timeline[s].v != 0.0
  {
    ProfitOf(timeline, s, e, k) / timeline[s].v
  }

  ghost function ItemOf(timeline: seq<Day>, s: int, e: int, k: Key): (it: Item)
    requires InRange(timeline, s, e) && timeline[s].v != 0.0
    ensures KeyOf(it) == k
  {
    Item(k.ticker, if k.figi == "" then None else Some(k.figi), Contribution(timeline, s, e, k),
         Round6(AverageWeight(timeline, s, e, k)), Count(s, e + 1, i => Held(timeline, i, k)))
  }

  function KeyOf(it: Item): Key {
    Key(it.ticker, if it.figi.Some? then it.figi.value else "")
  }

  /** Day i lists the holding with some value or some quantity. */
  ghost predicate HasHolding(timeline: seq<Day>, i: int, k: Key) {
    && 0 <= i < |timeline| && k in timeline[i].positions
    && !(timeline[i].positions[k].mv == 0.0 && timeline[i].positions[k].qty == 0.0)
  }

  lemma HoldingDays(timeline: seq<Day>, s: int, e: int, k: Key)
    requires InRange(timeline, s, e)
    ensures Count(s, e + 1, i => Held(timeline, i, k)) == |set i | s <= i < e + 1 && HasHolding(timeline, i, k)|
  {
    var held := i => Held(timeline, i, k);
    CountIsCard(s, e + 1, held);
    assert (set i | s <= i < e + 1 && held(i)) == (set i | s <= i < e + 1 && HasHolding(timeline, i, k));
  }

  /** computePeriodItem: three sums over the days of the window. */
  method ComputePeriodItem(timeline: seq<Day>, s: int, e: int, k: Key, v0: real) returns (item: Item, pnl: real)
    requires InRange(timeline, s, e) && v0 == timeline[s].v != 0.0
    ensures item == ItemOf(timeline, s, e, k)
    ensures pnl == ProfitOf(timeline, s, e, k)
    ensures item.ticker == k.ticker && item.figi == (if k.figi == "" then None else Some(k.figi))
    ensures item.contribution == pnl / timeline[s].v
    ensures item.holdingDays == |set i | s <= i < e + 1 && HasHolding(timeline, i, k)|
  {
    var flowSum := 0.0;
    for i := s + 1 to e + 1
      invariant flowSum == SumRange(s + 1, i, j => FlowAt(timeline, j, k))
    {
      flowSum := flowSum + FlowAt(timeline, i, k);
    }
    pnl := MarketValue(timeline, e, k) - MarketValue(timeline, s, k) - flowSum;

    var weightSum, weightCount, holdingDays := 0.0, 0, 0;
    for i := s to e + 1
      invariant weightSum == SumRange(s, i, j => WeightAt(timeline, j, k))
      invariant weightCount == Count(s, i, j => Funded(timeline, j))
      invariant holdingDays == Count(s, i, j => Held(timeline, j, k))
    {
      var p := if k in timeline[i].positions then timeline[i].positions[k] else Pos(0.0, 0.0);
      if timeline[i].v > 0.0 {
        weightSum := weightSum + p.mv / timeline[i].v;
        weightCount := weightCount + 1;
      }
      if p.mv != 0.0 || p.qty != 0.0 {
        holdingDays := holdingDays + 1;
      }
    }
    HoldingDays(timeline, s, e, k);
    var avgWeight := 0.0;
    if weightCount > 0 {
      avgWeight := weightSum / weightCount as real;
    }
    item := Item(k.ticker, if k.figi == "" then None else Some(k.figi), pnl / v0, Round6(avgWeight), holdingDays);
  }

  /** Exactly one item for each holding of the window. */
  ghost predicate OneItemEach(timeline: seq<Day>, s: int, e: int, items: multiset<Item>)
    requires InRange(timeline, s, e) && timeline[s].v != 0.0
  {
    forall it {:trigger IsItem(timeline, s, e, it)} :: items[it] == if IsItem(timeline, s, e, it) then 1 else 0
  }

  ghost predicate IsItem(timeline: seq<Day>, s: int, e: int, it: Item)
    requires InRange(timeline, s, e) && timeline[s].v != 0.0
  {
    KeyOf(it) in KeysIn(timeline, s, e + 1) && it == ItemOf(timeline, s, e, KeyOf(it))
  }

  /** The same, but for the holdings still to be visited. */
  ghost predicate ItemsBut(timeline: seq<Day>, s: int, e: int, items: multiset<Item>, rest: set<Key>)
    requires InRange(timeline, s, e) && timeline[s].v != 0.0
  {
    forall it {:trigger IsItem(timeline, s, e, it)} ::
      items[it] == if IsItem(timeline, s, e, it) && KeyOf(it) !in rest then 1 else 0
  }

  lemma NextItem(timeline: seq<Day>, s: int, e: int, items: multiset<Item>, rest: set<Key>, k: Key)
    requires InRange(timeline, s, e) && timeline[s].v != 0.0
    requires ItemsBut(timeline, s, e, items, rest) && k in rest && rest <= KeysIn(timeline, s, e + 1)
    ensures ItemsBut(timeline, s, e, items + multiset{ItemOf(timeline, s, e, k)}, rest - {k})
  {
  }

  /** computePeriodItems: the keys are visited in no particular order. */
  method ComputePeriodItems(timeline: seq<Day>, s: int, e: int, v0: real) returns (items: seq<Item>, totalPNL: real)
    requires InRange(timeline, s, e) && v0 == timeline[s].v != 0.0
    ensures OneItemEach(timeline, s, e, multiset(items))
    ensures totalPNL == TotalProfit(timeline, s, e)
  {
    var keys := {};
    for i := s to e + 1
      invariant keys == KeysIn(timeline, s, i)
    {
      keys := keys + timeline[i].positions.Keys;
    }
    ghost var profit := k => ProfitOf(timeline, s, e, k);
    items, totalPNL := [], 0.0;
    var rest := keys;
    while rest != {}
      invariant rest <= keys
      invariant ItemsBut(timeline, s, e, multiset(items), rest)
      invariant totalPNL + SumOver(rest, profit) == SumOver(keys, profit)
      decreases |rest|
    {
      var k :| k in rest;
      var item, pnl := ComputePeriodItem(timeline, s, e, k, v0);
      SumTake(rest, profit, k);
      NextItem(timeline, s, e, multiset(items), rest, k);
      assert multiset(items + [item]) == multiset(items) + multiset{item};
      totalPNL := totalPNL + pnl;
      items := items + [item];
      rest := rest - {k};
    }
  }

  // ---------------------------------------------------------------- weights

  /** When positions account for the equity of every funded day, the average
      weights of the holdings add up to one. */
  lemma WeightsAddToOne(timeline: seq<Day>, s: int, e: int)
    requires InRange(timeline, s, e) && timeline[s].v > 0.0
    requires forall i :: s <= i <= e && timeline[i].v > 0.0 ==> Gap(timeline[i]) == 0.0
    ensures SumOver(KeysIn(timeline, s, e + 1), k => AverageWeight(timeline, s, e, k)) == 1.0
  {
    var keys := KeysIn(timeline, s, e + 1);
    var funded := i => Funded(timeline, i);
    var days := Count(s, e + 1, funded);
    SomeFunded(timeline, s, e + 1);
    var weights := k => SumRange(s, e + 1, i => WeightAt(timeline, i, k));
    var byDay := i => SumOver(keys, k => WeightAt(timeline, i, k));
    WeightsByDays(timeline, s, e, keys, weights, byDay);
    forall i | s <= i < e + 1
      ensures byDay(i) == if funded(i) then 1.0 else 0.0
    {
      DayWeights(timeline, s, e, i);
    }
    RangeOfOnes(s, e + 1, funded, byDay);
    MeanOfTotal(timeline, s, e, keys, weights, days as real);
  }

  lemma MeanOfTotal(timeline: seq<Day>, s: int, e: int, keys: set<Key>, weights: Key -> real, days: real)
    requires days == Count(s, e + 1, i => Funded(timeline, i)) as real && days > 0.0
    requires forall k :: weights(k) == SumRange(s, e + 1, i => WeightAt(timeline, i, k))
    requires SumOver(keys, weights) == days
    ensures SumOver(keys, k => AverageWeight(timeline, s, e, k)) == 1.0
  {
    SumShares(keys, weights, days, k => AverageWeight(timeline, s, e, k));
  }

  lemma WeightsByDays(timeline: seq<Day>, s: int, e: int, keys: set<Key>, weights: Key -> real, byDay: int -> real)
    requires forall k :: weights(k) == SumRange(s, e + 1, i => WeightAt(timeline, i, k))
    requires forall i :: byDay(i) == SumOver(keys, k => WeightAt(timeline, i, k))
    ensures SumOver(keys, weights) == SumRange(s, e + 1, byDay)
  {
    var col := (k: Key) => ((i: int) => WeightAt(timeline, i, k));
    var row := (i: int) => ((k: Key) => WeightAt(timeline, i, k));
    Exchange(keys, s, e + 1, col, row, weights, byDay);
  }

  lemma {:induction false} SomeFunded(timeline: seq<Day>, s: int, hi: int)
    requires 0 <= s < hi <= |timeline| && timeline[s].v > 0.0
    ensures Count(s, hi, i => Funded(timeline, i)) > 0
    decreases hi
  {
    if s < hi - 1 {
      SomeFunded(timeline, s, hi - 1);
    }
  }

  lemma DayWeights(timeline: seq<Day>, s: int, e: int, i: int)
    requires InRange(timeline, s, e) && s <= i <= e
    requires timeline[i].v > 0.0 ==> Gap(timeline[i]) == 0.0
    ensures SumOver(KeysIn(timeline, s, e + 1), k => WeightAt(timeline, i, k))
            == if Funded(timeline, i) then 1.0 else 0.0
  {
    var keys := KeysIn(timeline, s, e + 1);
    var weight := k => WeightAt(timeline, i, k);
    if Funded(timeline, i) {
      var v := timeline[i].v;
      var value := k => MarketValue(timeline, i, k);
      PositionsByKeys(timeline, s, e, i);
      assert Gap(timeline[i]) == 0.0;
      SumShares(keys, value, v, weight);
    } else {
      SumZero(keys, weight);
    }
  }
}
