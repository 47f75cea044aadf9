/** The holdings-impact timeline: equity rows, daily positions and the double
    entry of every transaction, merged by date. Amounts are real numbers. */
module HoldingsTimeline {
  import opened Prelude
  import opened Sums

  datatype Civil = Civil(y: int, m: int, d: int)

  datatype Key = Key(ticker: string, figi: string)

  datatype Pos = Pos(mv: real, qty: real)

  datatype Day = Day(date: Civil, v: real, positions: map<Key, Pos>, flows: map<Key, real>)

  datatype TxKind = Buy | Sell | Dividend | Fee | Deposit | Withdrawal | Other

  datatype PerfRow = PerfRow(date: Civil, value: real)

  /** An equity row as stored; the date is None when it does not parse. */
  datatype RawPerf = RawPerf(date: Option<Civil>, value: real)

  datatype PosRow = PosRow(date: Civil, key: Key, pos: Pos)

  datatype TxRow = TxRow(date: Civil, kind: TxKind, key: Key, amount: real)

  datatype ImpactError = BadDate | NotFound | ZeroOpeningEquity | ResidualCheckFailed

  const CASH := Key("$CASH", "")

  // ----------------------------------------------------------- double entry

  function Flow(flows: map<Key, real>, k: Key): real {
    if k in flows then flows[k] else 0.0
  }

  function Add(flows: map<Key, real>, k: Key, x: real): map<Key, real> {
    flows[k := Flow(flows, k) + x]
  }

  /** The flow maps after one transaction. */
  function Post(flows: map<Key, real>, t: TxRow): map<Key, real> {
    match t.kind
    case Buy => Add(Add(flows, t.key, t.amount), CASH, -t.amount)
    case Sell => Add(Add(flows, t.key, -t.amount), CASH, t.amount)
    case Dividend => Add(Add(flows, t.key, -t.amount), CASH, t.amount)
    case Fee => Add(Add(flows, t.key, t.amount), CASH, -t.amount)
    case Deposit => Add(flows, CASH, t.amount)
    case Withdrawal => Add(flows, CASH, -t.amount)
    case Other => flows
  }

  /** What a transaction brings in from outside the portfolio. */
  function External(t: TxRow): real {
    match t.kind
    case Deposit => t.amount
    case Withdrawal => -t.amount
    case Buy | Sell | Dividend | Fee | Other => 0.0
  }

  ghost function Total(flows: map<Key, real>): real {
    SumOver(flows.Keys, k => Flow(flows, k))
  }

  lemma AddRaisesTotal(flows: map<Key, real>, k: Key, x: real)
    ensures Total(Add(flows, k, x)) == Total(flows) + x
  {
    var after := Add(flows, k, x);
    var others := flows.Keys - {k};
    var f, g := i => Flow(flows, i), i => Flow(after, i);
    assert after.Keys - {k} == others;
    SumTake(after.Keys, g, k);
    SumSame(others, f, g);
    if k in flows {
      SumTake(flows.Keys, f, k);
    } else {
      assert others == flows.Keys;
    }
  }

  /** Double entry: only deposits and withdrawals change the sum of all flows. */
  lemma PostBalances(flows: map<Key, real>, t: TxRow)
    ensures Total(Post(flows, t)) == Total(flows) + External(t)
  {
    match t.kind {
      case Buy | Fee =>
        AddRaisesTotal(flows, t.key, t.amount);
        AddRaisesTotal(Add(flows, t.key, t.amount), CASH, -t.amount);
      case Sell | Dividend =>
        AddRaisesTotal(flows, t.key, -t.amount);
        AddRaisesTotal(Add(flows, t.key, -t.amount), CASH, t.amount);
      case Deposit => AddRaisesTotal(flows, CASH, t.amount);
      case Withdrawal => AddRaisesTotal(flows, CASH, -t.amount);
      case Other =>
    }
  }

  /** The flows of one date's transactions. */
  function FlowsOn(txs: seq<TxRow>, date: Civil): map<Key, real> {
    if txs == [] then map[]
    else
      var n := |txs| - 1;
      var before := FlowsOn(txs[..n], date);
      if txs[n].date == date then Post(before, txs[n]) else before
  }

  /** Deposits less withdrawals of one date. */
  function ExternalOn(txs: seq<TxRow>, date: Civil): real {
    if txs == [] then 0.0
    else
      var n := |txs| - 1;
      ExternalOn(txs[..n], date) + (if txs[n].date == date then External(txs[n]) else 0.0)
  }

  lemma {:induction false} FlowsBalance(txs: seq<TxRow>, date: Civil)
    ensures Total(FlowsOn(txs, date)) == ExternalOn(txs, date)
  {
    if txs != [] {
      var n := |txs| - 1;
      FlowsBalance(txs[..n], date);
      if txs[n].date == date {
        PostBalances(FlowsOn(txs[..n], date), txs[n]);
      }
    }
  }

  /** What one transaction means for one holding: a purchase or a fee moves money
      into the asset, a sale or a dividend out of it, and cash takes the other side. */
  function Leg(t: TxRow, k: Key): real {
    var intoAsset := match t.kind
      case Buy | Fee => t.amount
      case Sell | Dividend => -t.amount
      case Deposit | Withdrawal | Other => 0.0;
    (if k == t.key then intoAsset else 0.0) + (if k == CASH then External(t) - intoAsset else 0.0)
  }

  /** The sign of each kind, on an asset and on the cash that pays for it. */
  lemma LegSigns(date: Civil, asset: Key, x: real)
    requires asset != CASH
    ensures Leg(TxRow(date, Buy, asset, x), asset) == x && Leg(TxRow(date, Buy, asset, x), CASH) == -x
    ensures Leg(TxRow(date, Fee, asset, x), asset) == x && Leg(TxRow(date, Fee, asset, x), CASH) == -x
    ensures Leg(TxRow(date, Sell, asset, x), asset) == -x && Leg(TxRow(date, Sell, asset, x), CASH) == x
    ensures Leg(TxRow(date, Dividend, asset, x), asset) == -x && Leg(TxRow(date, Dividend, asset, x), CASH) == x
    ensures Leg(TxRow(date, Deposit, asset, x), asset) == 0.0 && Leg(TxRow(date, Deposit, asset, x), CASH) == x
    ensures Leg(TxRow(date, Withdrawal, asset, x), asset) == 0.0 && Leg(TxRow(date, Withdrawal, asset, x), CASH) == -x
    ensures Leg(TxRow(date, Other, asset, x), asset) == 0.0 && Leg(TxRow(date, Other, asset, x), CASH) == 0.0
  {
  }

  function LegsOn(txs: seq<TxRow>, date: Civil, k: Key): real {
    if txs == [] then 0.0
    else
      var n := |txs| - 1;
      LegsOn(txs[..n], date, k) + (if txs[n].date == date then Leg(txs[n], k) else 0.0)
  }

  /** A holding's flow on a date is the sum of its legs, also when the asset is
      the cash bucket itself. */
  lemma {:induction false} FlowIsLegs(txs: seq<TxRow>, date: Civil, k: Key)
    ensures Flow(FlowsOn(txs, date), k) == LegsOn(txs, date, k)
  {
    if txs != [] {
      var n := |txs| - 1;
      FlowIsLegs(txs[..n], date, k);
      assert Flow(Post(FlowsOn(txs[..n], date), txs[n]), k) == Flow(FlowsOn(txs[..n], date), k) + Leg(txs[n], k);
    }
  }

  // ---------------------------------------------------------------- loading

  ghost predicate AllDated(rows: seq<RawPerf>) {
    forall i :: 0 <= i < |rows| ==> rows[i].date.Some?
  }

  ghost function Parsed(rows: seq<RawPerf>): (r: seq<PerfRow>)
    requires AllDated(rows)
    ensures |r| == |rows| && forall i :: 0 <= i < |r| ==> r[i] == PerfRow(rows[i].date.value, rows[i].value)
  {
    seq(|rows|, i requires 0 <= i < |rows| => PerfRow(rows[i].date.value, rows[i].value))
  }

  lemma ParsedStep(rows: seq<RawPerf>, i: nat)
    requires i < |rows| && AllDated(rows[..i + 1])
    ensures AllDated(rows[..i])
    ensures Parsed(rows[..i + 1]) == Parsed(rows[..i]) + [PerfRow(rows[i].date.value, rows[i].value)]
    ensures Parsed(rows[..i + 1])[..i] == Parsed(rows[..i])
  {
    forall j | 0 <= j < i
      ensures rows[..i][j].date.Some?
    {
      assert rows[..i][j] == rows[..i + 1][j];
    }
  }

  /** The equity of a date: its last row wins. */
  function EquityOn(rows: seq<PerfRow>, date: Civil): real {
    if rows == [] then 0.0
    else
      var n := |rows| - 1;
      if rows[n].date == date then rows[n].value else EquityOn(rows[..n], date)
  }

  /** The positions of a date: the last row of each holding wins. */
  function PositionsOn(rows: seq<PosRow>, date: Civil): map<Key, Pos> {
    if rows == [] then map[]
    else
      var n := |rows| - 1;
      var before := PositionsOn(rows[..n], date);
      if rows[n].date == date then before[rows[n].key := rows[n].pos] else before
  }

  /** v is the value of the last equity row of the date. */
  ghost predicate LastEquity(rows: seq<PerfRow>, date: Civil, v: real) {
    exists n :: 0 <= n < |rows| && rows[n].date == date && rows[n].value == v
                && forall m :: n < m < |rows| ==> rows[m].date != date
  }

  /** The last position row of holding k on the date has this market value and quantity. */
  ghost predicate LastPosition(rows: seq<PosRow>, date: Civil, k: Key, mv: real, qty: real) {
    exists n :: 0 <= n < |rows| && IsPosition(rows[n], date, k) && rows[n].pos.mv == mv && rows[n].pos.qty == qty
                && forall m :: n < m < |rows| ==> !IsPosition(rows[m], date, k)
  }

  ghost predicate IsPosition(row: PosRow, date: Civil, k: Key) {
    row.date == date && row.key == k
  }

  lemma {:induction false} EquityIsLast(rows: seq<PerfRow>, date: Civil)
    requires exists n :: 0 <= n < |rows| && rows[n].date == date
    ensures LastEquity(rows, date, EquityOn(rows, date))
  {
    var n := |rows| - 1;
    if rows[n].date != date {
      var m :| 0 <= m < |rows| && rows[m].date == date;
      assert rows[..n][m].date == date;
      EquityIsLast(rows[..n], date);
      var w :| 0 <= w < n && rows[..n][w].date == date && rows[..n][w].value == EquityOn(rows, date)
               && forall m :: w < m < n ==> rows[..n][m].date != date;
      forall m | w < m < |rows|
        ensures rows[m].date != date
      {
        assert m < n ==> rows[..n][m].date != date;
      }
    }
  }

  lemma {:induction false} PositionsAreLast(rows: seq<PosRow>, date: Civil, k: Key)
    ensures k in PositionsOn(rows, date) <==> exists n :: 0 <= n < |rows| && IsPosition(rows[n], date, k)
    ensures k in PositionsOn(rows, date) ==>
              var pos := PositionsOn(rows, date)[k]; LastPosition(rows, date, k, pos.mv, pos.qty)
  {
    if rows != [] {
      var n := |rows| - 1;
      PositionsAreLast(rows[..n], date, k);
      if IsPosition(rows[n], date, k) {
        assert LastPosition(rows, date, k, rows[n].pos.mv, rows[n].pos.qty);
      } else {
        PositionBefore(rows, rows[..n], date, k);
        if k in PositionsOn(rows, date) {
          LastBefore(rows, date, k, PositionsOn(rows, date)[k].mv, PositionsOn(rows, date)[k].qty);
        }
      }
    }
  }

  lemma PositionBefore(rows: seq<PosRow>, front: seq<PosRow>, date: Civil, k: Key)
    requires rows != [] && !IsPosition(rows[|rows| - 1], date, k) && front == rows[..|rows| - 1]
    ensures (exists n :: 0 <= n < |rows| && IsPosition(rows[n], date, k)) <==>
            (exists n :: 0 <= n < |front| && IsPosition(front[n], date, k))
  {
    assert forall n :: 0 <= n < |front| ==> front[n] == rows[n];
  }

  lemma LastBefore(rows: seq<PosRow>, date: Civil, k: Key, mv: real, qty: real)
    requires rows != [] && !IsPosition(rows[|rows| - 1], date, k)
    requires LastPosition(rows[..|rows| - 1], date, k, mv, qty)
    ensures LastPosition(rows, date, k, mv, qty)
  {
    var front := rows[..|rows| - 1];
    var n :| 0 <= n < |front| && IsPosition(front[n], date, k) && front[n].pos.mv == mv && front[n].pos.qty == qty
             && forall m :: n < m < |front| ==> !IsPosition(front[m], date, k);
    forall m | n < m < |rows|
      ensures !IsPosition(rows[m], date, k)
    {
      assert m < |front| ==> !IsPosition(front[m], date, k);
    }
    assert IsPosition(rows[n], date, k);
  }

  function DayOn(perf: seq<PerfRow>, pos: seq<PosRow>, txs: seq<TxRow>, date: Civil): Day {
    Day(date, EquityOn(perf, date), PositionsOn(pos, date), FlowsOn(txs, date))
  }

  function Dates(rows: seq<PerfRow>): (r: seq<Civil>)
    ensures |r| == |rows| && forall i :: 0 <= i < |r| ==> r[i] == rows[i].date
  {
    seq(|rows|, i requires 0 <= i < |rows| => rows[i].date)
  }

  /** The days under construction, by date. */
  class Loader {
    var byDate: map<Civil, Day>
    var order: seq<Civil>

    constructor ()
      ensures byDate == map[] && order == []
    {
      byDate, order := map[], [];
    }

    /** Fails on a row whose date does not parse. */
    method LoadPerfDays(rows: seq<RawPerf>) returns (ok: bool)
      requires byDate == map[] && order == []
      modifies this
      ensures ok <==> AllDated(rows)
      ensures ok ==> order == Dates(Parsed(rows))
      ensures ok ==> forall d :: d in byDate <==> d in order
      ensures ok ==> forall d :: d in byDate ==> byDate[d] == DayOn(Parsed(rows), [], [], d)
    {
      for i := 0 to |rows|
        invariant AllDated(rows[..i])
        invariant order == Dates(Parsed(rows[..i]))
        invariant forall d :: d in byDate <==> d in order
        invariant forall d :: d in byDate ==> byDate[d] == DayOn(Parsed(rows[..i]), [], [], d)
      {
        if rows[i].date.None? {
          return false;
        }
        assert rows[..i + 1] == rows[..i] + [rows[i]];
        ParsedStep(rows, i);
        var date := rows[i].date.value;
        byDate := byDate[date := Day(date, rows[i].value, map[], map[])];
        order := order + [date];
      }
      assert rows[..|rows|] == rows;
      return true;
    }

    /** Rows of dates without an equity row count, but are not kept. */
    method MergePositions(rows: seq<PosRow>) returns (count: nat)
      modifies this`byDate
      ensures count == |rows| && byDate.Keys == old(byDate.Keys)
      ensures (forall d :: d in byDate ==> old(byDate)[d].positions == map[]) ==>
                forall d :: d in byDate ==> byDate[d] == old(byDate)[d].(positions := PositionsOn(rows, d))
    {
      ghost var before := byDate;
      ghost var empty := forall d :: d in before ==> before[d].positions == map[];
      count := 0;
      for i := 0 to |rows|
        invariant count == i && byDate.Keys == before.Keys
        invariant empty ==> forall d :: d in byDate ==> byDate[d] == before[d].(positions := PositionsOn(rows[..i], d))
      {
        assert rows[..i + 1][..i] == rows[..i];
        count := count + 1;
        var row := rows[i];
        if row.date in byDate {
          var day := byDate[row.date];
          byDate := byDate[row.date := day.(positions := day.positions[row.key := row.pos])];
        }
      }
      assert rows[..|rows|] == rows;
    }

    /** applyTxFlow on the day of that date. */
    method ApplyTxFlow(date: Civil, t: TxRow)
      requires date in byDate
      modifies this`byDate
      ensures byDate == old(byDate)[date := old(byDate)[date].(flows := Post(old(byDate)[date].flows, t))]
    {
      var flows := byDate[date].flows;
      match t.kind {
        case Buy | Fee =>
          flows := flows[t.key := Flow(flows, t.key) + t.amount];
          flows := flows[CASH := Flow(flows, CASH) - t.amount];
        case Sell | Dividend =>
          flows := flows[t.key := Flow(flows, t.key) - t.amount];
          flows := flows[CASH := Flow(flows, CASH) + t.amount];
        case Deposit =>
          flows := flows[CASH := Flow(flows, CASH) + t.amount];
        case Withdrawal =>
          flows := flows[CASH := Flow(flows, CASH) - t.amount];
        case Other =>
      }
      byDate := byDate[date := byDate[date].(flows := flows)];
    }

    method MergeTransactions(txs: seq<TxRow>)
      modifies this`byDate
      ensures byDate.Keys == old(byDate.Keys)
      ensures (forall d :: d in byDate ==> old(byDate)[d].flows == map[]) ==>
                forall d :: d in byDate ==> byDate[d] == old(byDate)[d].(flows := FlowsOn(txs, d))
    {
      ghost var before := byDate;
      ghost var empty := forall d :: d in before ==> before[d].flows == map[];
      for i := 0 to |txs|
        invariant byDate.Keys == before.Keys
        invariant empty ==> forall d :: d in byDate ==> byDate[d] == before[d].(flows := FlowsOn(txs[..i], d))
      {
        assert txs[..i + 1][..i] == txs[..i];
        if txs[i].date in byDate {
          ApplyTxFlow(txs[i].date, txs[i]);
        }
      }
      assert txs[..|txs|] == txs;
    }

    /** The three passes. A snapshot without any position row has no timeline. */
    method Load(perf: seq<RawPerf>, pos: seq<PosRow>, txs: seq<TxRow>) returns (r: Result<seq<Day>, ImpactError>)
      requires byDate == map[] && order == []
      modifies this
      ensures !AllDated(perf) ==> r == Err(BadDate)
      ensures AllDated(perf) && pos == [] ==> r == Err(NotFound)
      ensures AllDated(perf) && pos != [] ==> r.Ok? && Loaded(r.value, Parsed(perf), pos, txs)
      ensures AllDated(perf) && pos != [] ==>
                |r.value| == |perf| && forall i :: 0 <= i < |perf| ==> ShowsRow(r.value[i], perf, i, pos, txs)
    {
      var ok := LoadPerfDays(perf);
      if !ok {
        return Err(BadDate);
      }
      var count := MergePositions(pos);
      if count == 0 {
        return Err(NotFound);
      }
      MergeTransactions(txs);
      var out := [];
      for i := 0 to |order|
        invariant |out| == i && forall k :: 0 <= k < i ==> out[k] == DayOn(Parsed(perf), pos, txs, Parsed(perf)[k].date)
      {
        assert order[i] in order;
        out := out + [byDate[order[i]]];
      }
      LoadedShows(out, perf, pos, txs);
      return Ok(out);
    }
  }

  /** One day per equity row, in order, holding all that the tables say of its date. */
  ghost predicate Loaded(timeline: seq<Day>, perf: seq<PerfRow>, pos: seq<PosRow>, txs: seq<TxRow>) {
    |timeline| == |perf| && forall i :: 0 <= i < |perf| ==> timeline[i] == DayOn(perf, pos, txs, perf[i].date)
  }

  /** What the day of the i-th equity row holds, in terms of the rows alone: the
      last equity row of its date; a holding exactly where some position row has
      that date and holding, with the last such row's market value and quantity;
      and the legs of the date's transactions. */
  ghost predicate ShowsRow(day: Day, perf: seq<RawPerf>, i: nat, pos: seq<PosRow>, txs: seq<TxRow>)
    requires i < |perf| && AllDated(perf)
  {
    var date := perf[i].date.value;
    && day.date == date
    && LastEquity(Parsed(perf), date, day.v)
    && (forall k :: k in day.positions <==> exists n :: 0 <= n < |pos| && IsPosition(pos[n], date, k))
    && (forall k :: k in day.positions ==> LastPosition(pos, date, k, day.positions[k].mv, day.positions[k].qty))
    && (forall k :: Flow(day.flows, k) == LegsOn(txs, date, k))
  }

  lemma DayShows(perf: seq<RawPerf>, i: nat, pos: seq<PosRow>, txs: seq<TxRow>)
    requires i < |perf| && AllDated(perf)
    ensures ShowsRow(DayOn(Parsed(perf), pos, txs, perf[i].date.value), perf, i, pos, txs)
  {
    var date := perf[i].date.value;
    assert Parsed(perf)[i].date == date;
    EquityIsLast(Parsed(perf), date);
    forall k
      ensures k in PositionsOn(pos, date) <==> exists n :: 0 <= n < |pos| && IsPosition(pos[n], date, k)
      ensures k in PositionsOn(pos, date) ==>
                LastPosition(pos, date, k, PositionsOn(pos, date)[k].mv, PositionsOn(pos, date)[k].qty)
    {
      PositionsAreLast(pos, date, k);
    }
    forall k
      ensures Flow(FlowsOn(txs, date), k) == LegsOn(txs, date, k)
    {
      FlowIsLegs(txs, date, k);
    }
  }

  lemma LoadedShows(timeline: seq<Day>, perf: seq<RawPerf>, pos: seq<PosRow>, txs: seq<TxRow>)
    requires AllDated(perf) && Loaded(timeline, Parsed(perf), pos, txs)
    ensures |timeline| == |perf| && forall i :: 0 <= i < |perf| ==> ShowsRow(timeline[i], perf, i, pos, txs)
  {
    forall i | 0 <= i < |perf|
      ensures ShowsRow(timeline[i], perf, i, pos, txs)
    {
      DayShows(perf, i, pos, txs);
    }
  }

  /** Ten shares worth 1500 are loaded with that value and that quantity. */
  lemma TenSharesLoaded(timeline: seq<Day>, date: Civil, k: Key)
    requires Loaded(timeline, [PerfRow(date, 1500.0)], [PosRow(date, k, Pos(1500.0, 10.0))], [])
    ensures |timeline| == 1 && timeline[0].v == 1500.0
    ensures k in timeline[0].positions && timeline[0].positions[k] == Pos(mv := 1500.0, qty := 10.0)
    ensures Flow(timeline[0].flows, k) == 0.0
  {
    assert [PosRow(date, k, Pos(1500.0, 10.0))][..0] == [];
  }
}
