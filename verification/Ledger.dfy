/** Replay of a transaction log into an average-cost ledger (holdings as of a
    date). Amounts are real numbers. */
module Ledger {
  import opened Prelude
  import opened StableSort
  import opened Sums

  datatype Kind = Buy | Sell | Split | Other

  datatype Tx = Tx(date: int, ticker: string, figi: string, kind: Kind, quantity: real, price: real)

  datatype Row = Row(figi: string, quantity: real, totalCost: real, lastPrice: real)

  type Book = map<string, Row>

  // ---------------------------------------------------------------- one step

  /** applyTxToLedger. A split carries its ratio in the price column. */
  function ApplyTx(pos: Row, kind: Kind, quantity: real, price: real): Row {
    match kind
    case Buy => pos.(totalCost := pos.totalCost + quantity * price, quantity := pos.quantity + quantity)
    case Sell =>
      var cost := if pos.quantity > 0.0 then pos.totalCost - pos.totalCost / pos.quantity * quantity else pos.totalCost;
      pos.(totalCost := cost, quantity := pos.quantity - quantity)
    case Split => pos.(quantity := pos.quantity * price)
    case Other => pos
  }

  /** One transaction on the row of its own ticker, opened on first sight. */
  function StepRow(pos: Option<Row>, t: Tx): Row {
    var r := if pos.Some? then pos.value else Row(t.figi, 0.0, 0.0, 0.0);
    var r := if t.price > 0.0 then r.(lastPrice := t.price) else r;
    ApplyTx(r, t.kind, t.quantity, t.price)
  }

  function Get(book: Book, ticker: string): Option<Row> {
    if ticker in book then Some(book[ticker]) else None
  }

  function Step(book: Book, t: Tx): Book {
    if t.ticker == "" then book else book[t.ticker := StepRow(Get(book, t.ticker), t)]
  }

  function Replay(book: Book, txs: seq<Tx>): Book {
    if txs == [] then book else Step(Replay(book, txs[..|txs| - 1]), txs[|txs| - 1])
  }

  // ------------------------------------------------------------------ as-of

  function UpTo(txs: seq<Tx>, date: int): seq<Tx> {
    if txs == [] then []
    else
      var n := |txs| - 1;
      UpTo(txs[..n], date) + (if txs[n].date <= date then [txs[n]] else [])
  }

  ghost predicate Sorted(txs: seq<Tx>) {
    forall i, j :: 0 <= i < j < |txs| ==> txs[i].date <= txs[j].date
  }

  /** ledgerAsOf: the rows come ordered by date; those up to the date are replayed. */
  method LedgerAsOf(txs: seq<Tx>, date: int) returns (ledger: Book)
    ensures ledger == Replay(map[], UpTo(txs, date))
  {
    ledger := map[];
    for i := 0 to |txs|
      invariant ledger == Replay(map[], UpTo(txs[..i], date))
    {
      ReplayGrows(txs[..i + 1], i, date);
      assert txs[..i + 1][..i] == txs[..i];
      if txs[i].date <= date {
        ledger := ReplayTx(ledger, txs[i]);
      }
    }
    assert txs[..|txs|] == txs;
  }

  lemma ReplayGrows(txs: seq<Tx>, n: nat, date: int)
    requires |txs| == n + 1
    ensures Replay(map[], UpTo(txs, date))
            == var before := Replay(map[], UpTo(txs[..n], date));
               if txs[n].date <= date then Step(before, txs[n]) else before
  {
    var before := UpTo(txs[..n], date);
    if txs[n].date <= date {
      var all := before + [txs[n]];
      assert UpTo(txs, date) == all;
      assert all[..|all| - 1] == before && all[|all| - 1] == txs[n];
    } else {
      assert UpTo(txs, date) == before;
    }
  }

  /** replayTxIntoLedger. */
  method ReplayTx(ledger: Book, t: Tx) returns (next: Book)
    ensures next == Step(ledger, t)
  {
    if t.ticker == "" {
      return ledger;
    }
    var pos: Row;
    if t.ticker in ledger {
      pos := ledger[t.ticker];
    } else {
      pos := Row(t.figi, 0.0, 0.0, 0.0);
    }
    if t.price > 0.0 {
      pos := pos.(lastPrice := t.price);
    }
    return ledger[t.ticker := ApplyTx(pos, t.kind, t.quantity, t.price)];
  }

  lemma {:induction false} ReplayConcat(book: Book, a: seq<Tx>, b: seq<Tx>)
    ensures Replay(book, a + b) == Replay(Replay(book, a), b)
    decreases |b|
  {
    if b == [] {
      assert a + b == a;
    } else {
      var n := |b| - 1;
      assert (a + b)[..|a + b| - 1] == a + b[..n];
      ReplayConcat(book, a, b[..n]);
    }
  }

  /** In a date-ordered log the transactions up to a date form a prefix. */
  lemma {:induction false} UpToIsPrefix(txs: seq<Tx>, date: int) returns (n: nat)
    requires Sorted(txs)
    ensures n <= |txs| && UpTo(txs, date) == txs[..n]
    ensures forall i :: 0 <= i < |txs| ==> (txs[i].date <= date <==> i < n)
  {
    if txs == [] || txs[|txs| - 1].date <= date {
      n := |txs|;
      UpToAll(txs, date);
    } else {
      var k := |txs| - 1;
      SortedPrefix(txs, k);
      n := UpToIsPrefix(txs[..k], date);
      PrefixExtends(txs, k, n, date);
    }
  }

  /** A last transaction after the date changes nothing. */
  lemma PrefixExtends(txs: seq<Tx>, k: nat, n: nat, date: int)
    requires |txs| == k + 1 && txs[k].date > date && n <= k && UpTo(txs[..k], date) == txs[..k][..n]
    requires forall i :: 0 <= i < k ==> (txs[..k][i].date <= date <==> i < n)
    ensures UpTo(txs, date) == txs[..n]
    ensures forall i :: 0 <= i < |txs| ==> (txs[i].date <= date <==> i < n)
  {
    assert txs[..k][..n] == txs[..n];
    assert forall i :: 0 <= i < k ==> txs[..k][i] == txs[i];
  }

  lemma SortedPrefix(txs: seq<Tx>, k: nat)
    requires Sorted(txs) && k <= |txs|
    ensures Sorted(txs[..k])
  {
  }

  lemma {:induction false} UpToAll(txs: seq<Tx>, date: int)
    requires forall i :: 0 <= i < |txs| ==> txs[i].date <= date
    ensures UpTo(txs, date) == txs
  {
    if txs != [] {
      UpToAll(txs[..|txs| - 1], date);
    }
  }

  /** Replaying to a later date is resuming, from the ledger of an earlier one,
      with the transactions in between. */
  lemma ReplayResumes(txs: seq<Tx>, d1: int, d2: int)
    requires Sorted(txs) && d1 <= d2
    ensures exists lo, hi :: 0 <= lo <= hi <= |txs|
              && (forall i :: lo <= i < hi <==> 0 <= i < |txs| && d1 < txs[i].date <= d2)
              && Replay(map[], UpTo(txs, d2)) == Replay(Replay(map[], UpTo(txs, d1)), txs[lo..hi])
  {
    var lo := UpToIsPrefix(txs, d1);
    var hi := UpToIsPrefix(txs, d2);
    assert lo > 0 ==> txs[lo - 1].date <= d1;
    Resume(txs, lo, hi);
  }

  lemma Resume(txs: seq<Tx>, lo: nat, hi: nat)
    requires lo <= hi <= |txs|
    ensures Replay(map[], txs[..hi]) == Replay(Replay(map[], txs[..lo]), txs[lo..hi])
  {
    assert txs[..hi] == txs[..lo] + txs[lo..hi];
    ReplayConcat(map[], txs[..lo], txs[lo..hi]);
  }

  // ----------------------------------------------------------- independence

  function Only(txs: seq<Tx>, ticker: string): seq<Tx> {
    if txs == [] then []
    else
      var n := |txs| - 1;
      Only(txs[..n], ticker) + (if txs[n].ticker == ticker then [txs[n]] else [])
  }

  lemma StepOwnRow(a: Book, b: Book, t: Tx)
    requires Get(a, t.ticker) == Get(b, t.ticker)
    ensures Get(Step(a, t), t.ticker) == Get(Step(b, t), t.ticker)
  {
  }

  /** A ticker's row depends on its own transactions alone, in their order. */
  lemma {:induction false} RowsIndependent(txs: seq<Tx>, ticker: string)
    requires ticker != ""
    ensures Get(Replay(map[], txs), ticker) == Get(Replay(map[], Only(txs, ticker)), ticker)
  {
    if txs != [] {
      var n := |txs| - 1;
      RowsIndependent(txs[..n], ticker);
      if txs[n].ticker == ticker {
        var own := Only(txs[..n], ticker);
        var all := own + [txs[n]];
        assert Only(txs, ticker) == all;
        assert all[..|all| - 1] == own && all[|all| - 1] == txs[n];
        StepOwnRow(Replay(map[], txs[..n]), Replay(map[], own), txs[n]);
      } else {
        assert Only(txs, ticker) == Only(txs[..n], ticker);
      }
    }
  }

  // -------------------------------------------------------------- soundness

  /** A transaction that makes sense for the position it meets: no negative
      amounts, a positive split ratio, and no sale of more than is held. */
  predicate Sane(pos: Option<Row>, t: Tx) {
    var held := if pos.Some? then pos.value.quantity else 0.0;
    match t.kind
    case Buy => t.quantity >= 0.0 && t.price >= 0.0
    case Sell => 0.0 <= t.quantity <= held
    case Split => t.price > 0.0
    case Other => true
  }

  ghost predicate SaneLog(txs: seq<Tx>) {
    forall i :: 0 <= i < |txs| && txs[i].ticker != "" ==> Sane(Get(Replay(map[], txs[..i]), txs[i].ticker), txs[i])
  }

  /** Neither quantity nor cost is negative, and an empty position costs nothing. */
  predicate Healthy(r: Row) {
    r.quantity >= 0.0 && r.totalCost >= 0.0 && (r.quantity == 0.0 ==> r.totalCost == 0.0)
  }

  lemma SellKeepsAverage(r: Row, quantity: real, price: real)
    requires r.quantity > 0.0
    ensures ApplyTx(r, Sell, quantity, price).totalCost * r.quantity == r.totalCost * (r.quantity - quantity)
  {
    var avg := r.totalCost / r.quantity;
    assert avg * r.quantity == r.totalCost;
    calc {
      (r.totalCost - avg * quantity) * r.quantity;
      r.totalCost * r.quantity - (avg * quantity) * r.quantity;
      { assert (avg * quantity) * r.quantity == (avg * r.quantity) * quantity; }
      r.totalCost * r.quantity - r.totalCost * quantity;
    }
  }

  lemma ProductSign(a: real, b: real)
    requires a >= 0.0 && b >= 0.0
    ensures a * b >= 0.0
    ensures a > 0.0 && b > 0.0 ==> a * b > 0.0
  {
  }

  lemma StepHealthy(pos: Option<Row>, t: Tx)
    requires pos.Some? ==> Healthy(pos.value)
    requires Sane(pos, t)
    ensures Healthy(StepRow(pos, t))
  {
    var r := if pos.Some? then pos.value else Row(t.figi, 0.0, 0.0, 0.0);
    var r' := StepRow(pos, t);
    match t.kind {
      case Buy => ProductSign(t.quantity, t.price);
      case Sell =>
        if r.quantity > 0.0 {
          SellKeepsAverage(r, t.quantity, t.price);
          ProductSign(r.totalCost, r.quantity - t.quantity);
          assert r'.totalCost * r.quantity >= 0.0;
          QuotientSign(r'.totalCost, r.quantity);
        }
      case Split => ProductSign(r.quantity, t.price);
      case Other =>
    }
  }

  lemma QuotientSign(c: real, q: real)
    requires q > 0.0 && c * q >= 0.0
    ensures c >= 0.0
    ensures c * q == 0.0 ==> c == 0.0
  {
    assert c < 0.0 ==> -c * q > 0.0 && c * q == -(-c * q);
  }

  /** As long as no sale exceeds the quantity held, every position of the
      replayed ledger is healthy. */
  lemma {:induction false} LedgerHealthy(txs: seq<Tx>)
    requires SaneLog(txs)
    ensures forall k :: k in Replay(map[], txs) ==> Healthy(Replay(map[], txs)[k])
  {
    if txs != [] {
      var n := |txs| - 1;
      forall i | 0 <= i < n && txs[..n][i].ticker != ""
        ensures Sane(Get(Replay(map[], txs[..n][..i]), txs[..n][i].ticker), txs[..n][i])
      {
        assert txs[..n][..i] == txs[..i];
      }
      LedgerHealthy(txs[..n]);
      if txs[n].ticker != "" {
        StepHealthy(Get(Replay(map[], txs[..n]), txs[n].ticker), txs[n]);
      }
    }
  }

  /** A sale leaves the average cost of what remains as it was, and a split
      leaves the total cost as it was. */
  lemma AverageCostLaws(r: Row, quantity: real, price: real)
    requires r.quantity > 0.0
    ensures ApplyTx(r, Split, quantity, price).totalCost == r.totalCost
    ensures quantity < r.quantity ==>
              ApplyTx(r, Sell, quantity, price).quantity > 0.0
              && ApplyTx(r, Sell, quantity, price).totalCost / ApplyTx(r, Sell, quantity, price).quantity
                 == r.totalCost / r.quantity
    ensures quantity == r.quantity ==> ApplyTx(r, Sell, quantity, price).totalCost == 0.0
  {
    var s := ApplyTx(r, Sell, quantity, price);
    SellKeepsAverage(r, quantity, price);
    if quantity < r.quantity {
      CrossDivide(s.totalCost, s.quantity, r.totalCost, r.quantity);
    } else if quantity == r.quantity {
      assert s.totalCost * r.quantity == 0.0;
      QuotientSign(s.totalCost, r.quantity);
    }
  }

  lemma CrossDivide(a: real, b: real, c: real, d: real)
    requires b > 0.0 && d > 0.0 && a * d == c * b
    ensures a / b == c / d
  {
    var x, y := a / b, c / d;
    assert x * b == a && y * d == c;
    assert x * b * d == y * d * b;
    assert x * (b * d) == x * b * d && y * (b * d) == y * d * b;
    ProductSign(b, d);
    CancelFactor(x, y, b * d);
  }

  // ---------------------------------------------- what a row holds, by its log

  /** What a transaction does to the shares of a ticker: some are added, and those
      there already are multiplied. */
  datatype Move = Move(added: real, ratio: real)

  function MoveOf(t: Tx, ticker: string): Move {
    if t.ticker != ticker then Move(0.0, 1.0)
    else
      match t.kind
      case Buy => Move(t.quantity, 1.0)
      case Sell => Move(-t.quantity, 1.0)
      case Split => Move(0.0, t.price)
      case Other => Move(0.0, 1.0)
  }

  function Moves(txs: seq<Tx>, ticker: string): (r: seq<Move>)
    ensures |r| == |txs| && forall i :: 0 <= i < |r| ==> r[i] == MoveOf(txs[i], ticker)
  {
    seq(|txs|, i requires 0 <= i < |txs| => MoveOf(txs[i], ticker))
  }

  /** x times the ratio of each move. */
  function Scaled(x: real, moves: seq<Move>): real {
    if moves == [] then x else Scaled(x, moves[..|moves| - 1]) * moves[|moves| - 1].ratio
  }

  /** The shares added, each multiplied by every later ratio. */
  function Added(moves: seq<Move>): real {
    if moves == [] then 0.0 else Scaled(moves[0].added, moves[1..]) + Added(moves[1..])
  }

  /** Shares bought less shares sold, each multiplied by every later split. */
  function Shares(txs: seq<Tx>, ticker: string): real {
    Added(Moves(txs, ticker))
  }

  lemma ScaledGrows(x: real, moves: seq<Move>, m: Move)
    ensures Scaled(x, moves + [m]) == Scaled(x, moves) * m.ratio
  {
    var all := moves + [m];
    assert all[..|all| - 1] == moves;
  }

  lemma {:induction false} AddedGrows(moves: seq<Move>, m: Move)
    ensures Added(moves + [m]) == Added(moves) * m.ratio + m.added
  {
    var all := moves + [m];
    if moves == [] {
      assert all[0] == m && all[1..] == [];
    } else {
      assert all[0] == moves[0] && all[1..] == moves[1..] + [m];
      AddedGrows(moves[1..], m);
      ScaledGrows(moves[0].added, moves[1..], m);
    }
  }

  lemma SharesGrow(txs: seq<Tx>, t: Tx, ticker: string)
    ensures Shares(txs + [t], ticker)
            == Shares(txs, ticker) * MoveOf(t, ticker).ratio + MoveOf(t, ticker).added
  {
    assert Moves(txs + [t], ticker) == Moves(txs, ticker) + [MoveOf(t, ticker)];
    AddedGrows(Moves(txs, ticker), MoveOf(t, ticker));
  }

  lemma {:induction false} ScaledZero(moves: seq<Move>)
    ensures Scaled(0.0, moves) == 0.0
  {
    if moves != [] {
      ScaledZero(moves[..|moves| - 1]);
    }
  }

  lemma {:induction false} NothingAdded(moves: seq<Move>)
    requires forall i :: 0 <= i < |moves| ==> moves[i].added == 0.0
    ensures Added(moves) == 0.0
  {
    if moves != [] {
      NothingAdded(moves[1..]);
      ScaledZero(moves[1..]);
    }
  }

  function Payment(t: Tx, ticker: string): real {
    if t.ticker == ticker && t.kind.Buy? then t.quantity * t.price else 0.0
  }

  /** What was paid for the ticker. */
  function Paid(txs: seq<Tx>, ticker: string): real {
    if txs == [] then 0.0 else Paid(txs[..|txs| - 1], ticker) + Payment(txs[|txs| - 1], ticker)
  }

  /** A sale of a held position releases the average cost of each share sold. */
  function Release(r: Option<Row>, t: Tx, ticker: string): real {
    if t.ticker == ticker && t.kind.Sell? && r.Some? && r.value.quantity > 0.0
    then r.value.totalCost / r.value.quantity * t.quantity else 0.0
  }

  /** What the sales of the ticker released, each at the average cost of its time. */
  function Released(txs: seq<Tx>, ticker: string): real {
    if txs == [] then 0.0
    else
      var n := |txs| - 1;
      Released(txs[..n], ticker) + Release(Get(Replay(map[], txs[..n]), ticker), txs[n], ticker)
  }

  /** Some transaction names the ticker. */
  ghost predicate Named(txs: seq<Tx>, ticker: string) {
    exists i :: 0 <= i < |txs| && txs[i].ticker == ticker
  }

  ghost predicate LastPriceIs(txs: seq<Tx>, ticker: string, price: real) {
    || (price == 0.0 && forall i :: 0 <= i < |txs| && txs[i].ticker == ticker ==> txs[i].price <= 0.0)
    || (price > 0.0 && exists n :: 0 <= n < |txs| && txs[n].ticker == ticker && txs[n].price == price
                          && forall i :: n < i < |txs| && txs[i].ticker == ticker ==> txs[i].price <= 0.0)
  }

  ghost predicate FirstFigiIs(txs: seq<Tx>, ticker: string, figi: string) {
    exists n :: 0 <= n < |txs| && txs[n].ticker == ticker && txs[n].figi == figi
                && forall i :: 0 <= i < n ==> txs[i].ticker != ticker
  }

  /** The row of a ticker, in terms of its log. */
  ghost predicate RowTells(r: Row, txs: seq<Tx>, ticker: string) {
    && r.quantity == Shares(txs, ticker)
    && r.totalCost == Paid(txs, ticker) - Released(txs, ticker)
    && LastPriceIs(txs, ticker, r.lastPrice) && FirstFigiIs(txs, ticker, r.figi)
  }

  lemma UnnamedHasNothing(txs: seq<Tx>, ticker: string)
    requires !Named(txs, ticker)
    ensures Shares(txs, ticker) == 0.0
  {
    NothingAdded(Moves(txs, ticker));
  }

  lemma {:induction false} UnnamedCostsNothing(txs: seq<Tx>, ticker: string)
    requires !Named(txs, ticker)
    ensures Paid(txs, ticker) == 0.0 && Released(txs, ticker) == 0.0
  {
    if txs != [] {
      var n := |txs| - 1;
      assert txs[n].ticker != ticker && forall i :: 0 <= i < n ==> txs[..n][i] == txs[i];
      UnnamedCostsNothing(txs[..n], ticker);
    }
  }

  lemma CostGrows(before: seq<Tx>, t: Tx, ticker: string)
    ensures Paid(before + [t], ticker) == Paid(before, ticker) + Payment(t, ticker)
    ensures Released(before + [t], ticker)
            == Released(before, ticker) + Release(Get(Replay(map[], before), ticker), t, ticker)
  {
    var all := before + [t];
    assert all[..|all| - 1] == before && all[|all| - 1] == t;
  }

  lemma PriceAndFigiGrow(before: seq<Tx>, t: Tx, ticker: string, r: Option<Row>)
    requires r.Some? <==> Named(before, ticker)
    requires r.Some? ==> LastPriceIs(before, ticker, r.value.lastPrice) && FirstFigiIs(before, ticker, r.value.figi)
    ensures t.ticker == ticker ==>
              LastPriceIs(before + [t], ticker, StepRow(r, t).lastPrice)
              && FirstFigiIs(before + [t], ticker, StepRow(r, t).figi)
    ensures t.ticker != ticker && r.Some? ==>
              LastPriceIs(before + [t], ticker, r.value.lastPrice)
              && FirstFigiIs(before + [t], ticker, r.value.figi)
  {
    FigiGrows(before, t, ticker, r);
    if r.Some? {
      PriceKept(before, t, ticker, r.value.lastPrice);
    } else {
      assert LastPriceIs(before, ticker, 0.0);
      PriceKept(before, t, ticker, 0.0);
    }
    if t.ticker == ticker && t.price > 0.0 {
      assert (before + [t])[|before|] == t;
    }
  }

  /** Without a positive price of its own a transaction leaves the last price. */
  lemma PriceKept(before: seq<Tx>, t: Tx, ticker: string, price: real)
    requires LastPriceIs(before, ticker, price)
    ensures t.ticker != ticker || t.price <= 0.0 ==> LastPriceIs(before + [t], ticker, price)
  {
    var all := before + [t];
    assert all[|before|] == t && forall i :: 0 <= i < |before| ==> all[i] == before[i];
    if price > 0.0 {
      var n :| 0 <= n < |before| && before[n].ticker == ticker && before[n].price == price
               && forall i :: n < i < |before| && before[i].ticker == ticker ==> before[i].price <= 0.0;
      assert all[n].ticker == ticker && all[n].price == price;
    }
  }

  lemma FigiGrows(before: seq<Tx>, t: Tx, ticker: string, r: Option<Row>)
    requires r.Some? <==> Named(before, ticker)
    requires r.Some? ==> FirstFigiIs(before, ticker, r.value.figi)
    ensures t.ticker == ticker ==> FirstFigiIs(before + [t], ticker, StepRow(r, t).figi)
    ensures t.ticker != ticker && r.Some? ==> FirstFigiIs(before + [t], ticker, r.value.figi)
  {
    var all := before + [t];
    assert all[|before|] == t && forall i :: 0 <= i < |before| ==> all[i] == before[i];
    if r.Some? {
      var n :| 0 <= n < |before| && before[n].ticker == ticker && before[n].figi == r.value.figi
               && forall i :: 0 <= i < n ==> before[i].ticker != ticker;
      assert all[n].ticker == ticker && all[n].figi == r.value.figi;
    }
  }

  lemma StepQuantity(r: Option<Row>, t: Tx)
    ensures StepRow(r, t).quantity
            == (if r.Some? then r.value.quantity else 0.0) * MoveOf(t, t.ticker).ratio + MoveOf(t, t.ticker).added
  {
  }

  lemma StepCost(r: Option<Row>, t: Tx)
    ensures StepRow(r, t).totalCost
            == (if r.Some? then r.value.totalCost else 0.0) + Payment(t, t.ticker) - Release(r, t, t.ticker)
  {
  }

  lemma StepShares(before: seq<Tx>, t: Tx, r: Option<Row>)
    requires (if r.Some? then r.value.quantity else 0.0) == Shares(before, t.ticker)
    ensures StepRow(r, t).quantity == Shares(before + [t], t.ticker)
  {
    StepQuantity(r, t);
    SharesGrow(before, t, t.ticker);
  }

  lemma StepPaid(before: seq<Tx>, t: Tx, r: Option<Row>)
    requires r == Get(Replay(map[], before), t.ticker)
    requires (if r.Some? then r.value.totalCost else 0.0) == Paid(before, t.ticker) - Released(before, t.ticker)
    ensures StepRow(r, t).totalCost == Paid(before + [t], t.ticker) - Released(before + [t], t.ticker)
  {
    StepCost(r, t);
    CostGrows(before, t, t.ticker);
  }

  /** A row of the replayed ledger, whatever the log: it exists if and only if the
      log names the ticker; its quantity is shares bought less shares sold, each
      multiplied by the splits that follow; its cost is what was paid less what
      sales released at the average cost of their time; its price is the last
      positive one, its figi the first. */
  lemma {:induction false} LedgerTells(txs: seq<Tx>, ticker: string)
    requires ticker != ""
    ensures ticker in Replay(map[], txs) <==> Named(txs, ticker)
    ensures ticker in Replay(map[], txs) ==> RowTells(Replay(map[], txs)[ticker], txs, ticker)
  {
    if txs != [] {
      var n := |txs| - 1;
      var before, t := txs[..n], txs[n];
      LedgerTells(before, ticker);
      assert txs == before + [t];
      NamedGrows(before, t, ticker);
      var r := Get(Replay(map[], before), ticker);
      if r.None? {
        UnnamedHasNothing(before, ticker);
        UnnamedCostsNothing(before, ticker);
      }
      PriceAndFigiGrow(before, t, ticker, r);
      if t.ticker == ticker {
        StepShares(before, t, r);
        StepPaid(before, t, r);
      } else {
        SharesGrow(before, t, ticker);
        CostGrows(before, t, ticker);
      }
    }
  }

  lemma NamedGrows(before: seq<Tx>, t: Tx, ticker: string)
    ensures Named(before + [t], ticker) <==> Named(before, ticker) || t.ticker == ticker
  {
    var all := before + [t];
    assert all[|before|] == t && forall i :: 0 <= i < |before| ==> all[i] == before[i];
    if i :| 0 <= i < |before| && before[i].ticker == ticker {
      assert all[i].ticker == ticker;
    }
  }

  // --------------------------------------------------------------- response

  datatype Holding = Holding(ticker: string, figi: Option<string>, quantity: real, avgCost: real, lastTradeValue: real)

  function ToHolding(ticker: string, r: Row): Holding
    requires r.quantity > 0.0
  {
    Holding(ticker, if r.figi == "" then None else Some(r.figi), r.quantity, r.totalCost / r.quantity,
            r.quantity * r.lastPrice)
  }

  function TotalValue(items: seq<Holding>): real {
    if items == [] then 0.0 else TotalValue(items[..|items| - 1]) + items[|items| - 1].lastTradeValue
  }

  ghost predicate Ascending(tickers: seq<string>) {
    forall i, j :: 0 <= i < j < |tickers| ==> StrLess(tickers[i], tickers[j])
  }

  ghost predicate AscendingItems(items: seq<Holding>) {
    forall i, j :: 0 <= i < j < |items| ==> StrLess(items[i].ticker, items[j].ticker)
  }

  lemma StrLessIsWeakOrder()
    ensures WeakOrder(StrLess)
  {
    forall a, b | StrLess(a, b)
      ensures !StrLess(b, a)
    {
      StrLessAsymmetric(a, b);
    }
    forall a, b, c | StrLess(a, c)
      ensures StrLess(a, b) || StrLess(b, c)
    {
      StrLessTotal(a, b);
      if StrLess(b, a) {
        StrLessTransitive(b, a, c);
      }
    }
  }

  lemma SortedAscends(s: seq<string>, t: seq<string>)
    requires Distinct(s) && multiset(s) == multiset(t) && Ordered(t, StrLess)
    ensures Ascending(t)
  {
    forall i, j | 0 <= i < j < |t|
      ensures StrLess(t[i], t[j])
    {
      StrLessTotal(t[i], t[j]);
      if t[i] == t[j] {
        CountedTwice(t, i, j);
        DistinctCount(s, t[i]);
      }
    }
  }

  /** The tickers of a ledger, sorted. */
  method SortedTickers(ledger: Book) returns (tickers: seq<string>)
    ensures Ascending(tickers) && forall k :: k in tickers <==> k in ledger
  {
    var keys: seq<string> := [];
    var todo := ledger.Keys;
    while todo != {}
      invariant todo <= ledger.Keys && Distinct(keys)
      invariant forall k :: k in keys <==> k in ledger.Keys - todo
      decreases |todo|
    {
      var k :| k in todo;
      keys := keys + [k];
      todo := todo - {k};
    }
    StrLessIsWeakOrder();
    SortOrders(keys, StrLess);
    tickers := Sort(keys, StrLess);
    SortedAscends(keys, tickers);
    assert forall k :: k in tickers <==> k in multiset(tickers);
    assert forall k :: k in keys <==> k in multiset(keys);
  }

  /** Converts the ledger, visiting its tickers in sorted order. Exactly the
      positions with a positive quantity appear, each once and in that order,
      and the total is theirs. */
  method ToAsOfResponse(ledger: Book) returns (items: seq<Holding>, total: real)
    ensures forall h :: h in items <==> h.ticker in ledger && Shows(h, ledger[h.ticker])
    ensures AscendingItems(items)
    ensures total == SumRange(0, |items|, i => ValueAt(items, i))
  {
    var tickers := SortedTickers(ledger);
    items, total := ListHoldings(ledger, tickers);
    forall h
      ensures h in items <==> h.ticker in ledger && Shows(h, ledger[h.ticker])
    {
      if h.ticker in ledger {
        ShowsIff(h, ledger[h.ticker]);
      }
    }
    TotalIsSum(items, |items|);
  }

  /** The item of a position with a positive quantity. */
  ghost predicate Shows(h: Holding, r: Row) {
    && r.quantity > 0.0 && h.quantity == r.quantity
    && h.avgCost * h.quantity == r.totalCost && h.lastTradeValue == r.quantity * r.lastPrice
    && (if r.figi == "" then h.figi == None else h.figi == Some(r.figi))
  }

  lemma ShowsIff(h: Holding, r: Row)
    ensures Shows(h, r) <==> r.quantity > 0.0 && h == ToHolding(h.ticker, r)
  {
    if r.quantity > 0.0 {
      var avg := r.totalCost / r.quantity;
      assert avg * r.quantity == r.totalCost;
      if h.avgCost * r.quantity == r.totalCost {
        CancelFactor(h.avgCost, avg, r.quantity);
      }
    }
  }

  function ValueAt(items: seq<Holding>, i: int): real {
    if 0 <= i < |items| then items[i].lastTradeValue else 0.0
  }

  lemma {:induction false} TotalIsSum(items: seq<Holding>, n: nat)
    requires n <= |items|
    ensures TotalValue(items[..n]) == SumRange(0, n, i => ValueAt(items, i))
    ensures n == |items| ==> TotalValue(items) == SumRange(0, n, i => ValueAt(items, i))
  {
    if n > 0 {
      TotalIsSum(items, n - 1);
      assert items[..n][..n - 1] == items[..n - 1];
    }
    assert items[..|items|] == items;
  }

  /** The positions with a positive quantity among the given tickers. */
  function Listed(ledger: Book, tickers: seq<string>): seq<Holding>
    requires forall k :: k in tickers ==> k in ledger
  {
    if tickers == [] then []
    else
      var n := |tickers| - 1;
      Listed(ledger, tickers[..n])
      + (if ledger[tickers[n]].quantity > 0.0 then [ToHolding(tickers[n], ledger[tickers[n]])] else [])
  }

  lemma {:induction false} ListedMembers(ledger: Book, tickers: seq<string>, h: Holding)
    requires forall k :: k in tickers ==> k in ledger
    ensures h in Listed(ledger, tickers) <==>
              h.ticker in tickers && ledger[h.ticker].quantity > 0.0 && h == ToHolding(h.ticker, ledger[h.ticker])
  {
    if tickers != [] {
      ListedMembers(ledger, tickers[..|tickers| - 1], h);
      assert tickers == tickers[..|tickers| - 1] + [tickers[|tickers| - 1]];
    }
  }

  lemma {:induction false} ListedAscends(ledger: Book, tickers: seq<string>)
    requires Ascending(tickers) && forall k :: k in tickers ==> k in ledger
    ensures AscendingItems(Listed(ledger, tickers))
  {
    if tickers != [] {
      var n := |tickers| - 1;
      var before := Listed(ledger, tickers[..n]);
      ListedAscends(ledger, tickers[..n]);
      forall i | 0 <= i < |before|
        ensures StrLess(before[i].ticker, tickers[n])
      {
        ListedMembers(ledger, tickers[..n], before[i]);
        var j :| 0 <= j < n && tickers[j] == before[i].ticker;
      }
    }
  }

  method ListHoldings(ledger: Book, tickers: seq<string>) returns (items: seq<Holding>, total: real)
    requires Ascending(tickers) && (forall k :: k in tickers <==> k in ledger)
    ensures forall h :: h in items <==>
              h.ticker in ledger && ledger[h.ticker].quantity > 0.0 && h == ToHolding(h.ticker, ledger[h.ticker])
    ensures AscendingItems(items)
    ensures total == TotalValue(items)
  {
    items, total := [], 0.0;
    for i := 0 to |tickers|
      invariant items == Listed(ledger, tickers[..i]) && total == TotalValue(items)
    {
      var k := tickers[i];
      assert k in tickers && tickers[..i + 1][..i] == tickers[..i];
      var pos := ledger[k];
      if pos.quantity > 0.0 {
        var h := ToHolding(k, pos);
        assert (items + [h])[..|items|] == items;
        items := items + [h];
        total := total + h.lastTradeValue;
      }
    }
    assert tickers[..|tickers|] == tickers;
    ListedAscends(ledger, tickers);
    forall h
      ensures h in items <==>
                h.ticker in ledger && ledger[h.ticker].quantity > 0.0 && h == ToHolding(h.ticker, ledger[h.ticker])
    {
      ListedMembers(ledger, tickers, h);
    }
  }
}
