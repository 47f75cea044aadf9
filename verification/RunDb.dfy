/** The portfolios and backtest_runs tables as a value, and the effect of every
    statement or transaction that the backtest protocol issues on them.

    Row ids are handed out in increasing order: run ids are uuidv7 values, and a
    deleted id is never used again. */
module RunDb {
  import opened Prelude

  type PortfolioId = nat
  type RunId = nat

  datatype RunStatus = Queued | Running | Success | Failed

  datatype PortfolioStatus = Pending | Running | Ready | Failed

  datatype Trigger = Scheduled | Manual

  /** <snapshotsDir>/<pid>/<rid>.sqlite */
  datatype Path = Path(pid: PortfolioId, rid: RunId)

  /** An instant, with the Eastern calendar day it falls on. */
  datatype Stamp = Stamp(time: nat, day: nat)

  datatype RunRow = RunRow(
    pid: PortfolioId,
    status: RunStatus,
    trigger: Trigger,
    startedAt: Option<Stamp>,
    snapshot: Option<Path>)

  datatype Portfolio = Portfolio(
    status: PortfolioStatus,
    snapshot: Option<Path>,
    retention: nat,
    openEnded: bool,
    lastRunAt: Option<Stamp>)

  datatype Db = Db(
    portfolios: map<PortfolioId, Portfolio>,
    runs: map<RunId, RunRow>,
    nextPortfolio: nat,
    nextRun: nat,
    now: Stamp)

  datatype CreateError = UnknownPortfolio | RunInFlight

  predicate InFlight(row: RunRow) {
    row.status.Queued? || row.status.Running?
  }

  predicate HasInFlight(db: Db, p: PortfolioId) {
    exists r :: r in db.runs && db.runs[r].pid == p && InFlight(db.runs[r])
  }

  function RunsOf(db: Db, p: PortfolioId): set<RunId> {
    set r | r in db.runs && db.runs[r].pid == p
  }

  // ------------------------------------------------------------ statements

  function InsertPortfolio(db: Db, retention: nat, openEnded: bool): Db {
    db.(portfolios := db.portfolios[db.nextPortfolio := Portfolio(Pending, None, retention, openEnded, None)],
        nextPortfolio := db.nextPortfolio + 1)
  }

  /** DELETE FROM portfolios; the foreign key cascades to the runs. */
  function DeletePortfolio(db: Db, p: PortfolioId): Db {
    db.(portfolios := db.portfolios - {p},
        runs := map r | r in db.runs && db.runs[r].pid != p :: db.runs[r])
  }

  function SetRetention(db: Db, p: PortfolioId, n: nat): Db {
    if p in db.portfolios then
      db.(portfolios := db.portfolios[p := db.portfolios[p].(retention := n)])
    else db
  }

  /** UpdateDates with an end date. An end date can be moved, but not taken away. */
  function SetEndDate(db: Db, p: PortfolioId): Db {
    if p in db.portfolios then
      db.(portfolios := db.portfolios[p := db.portfolios[p].(openEnded := false)])
    else db
  }

  function ApplyUpgrade(db: Db, p: PortfolioId): Db {
    SetPortfolioStatus(db, p, Pending)
  }

  function SetPortfolioStatus(db: Db, p: PortfolioId, status: PortfolioStatus): Db {
    if p in db.portfolios then
      db.(portfolios := db.portfolios[p := db.portfolios[p].(status := status)])
    else db
  }

  /** INSERT INTO backtest_runs, subject to the foreign key and to the partial
      unique index on queued and running rows. */
  function CreateRun(db: Db, p: PortfolioId, trigger: Trigger): Result<(Db, RunId), CreateError> {
    if p !in db.portfolios then Err(UnknownPortfolio)
    else if HasInFlight(db, p) then Err(RunInFlight)
    else
      var r := db.nextRun;
      Ok((db.(runs := db.runs[r := RunRow(p, Queued, trigger, None, None)], nextRun := r + 1), r))
  }

  function UpdateRunFailed(db: Db, r: RunId): Db {
    if r in db.runs then db.(runs := db.runs[r := db.runs[r].(status := RunStatus.Failed)]) else db
  }

  function MarkRunning(db: Db, p: PortfolioId, r: RunId): Db {
    var d := SetPortfolioStatus(db, p, PortfolioStatus.Running);
    var d := d.(now := Stamp(d.now.time + 1, d.now.day));
    if r in d.runs then
      d.(runs := d.runs[r := d.runs[r].(status := RunStatus.Running, startedAt := Some(db.now))])
    else d
  }

  function MarkReady(db: Db, p: PortfolioId, r: RunId, path: Path): Db {
    var d := if p in db.portfolios then
               db.(portfolios := db.portfolios[p := db.portfolios[p].(status := Ready, snapshot := Some(path),
                                                                   lastRunAt := Some(db.now))])
             else db;
    if r in d.runs then
      d.(runs := d.runs[r := d.runs[r].(status := Success, snapshot := Some(path))])
    else d
  }

  function MarkFailed(db: Db, p: PortfolioId, r: RunId): Db {
    UpdateRunFailed(SetPortfolioStatus(db, p, PortfolioStatus.Failed), r)
  }

  function MarkAllRunningAsFailed(db: Db): Db {
    db.(portfolios := map p | p in db.portfolios ::
                        if db.portfolios[p].status.Running?
                        then db.portfolios[p].(status := PortfolioStatus.Failed) else db.portfolios[p],
        runs := map r | r in db.runs ::
                  if InFlight(db.runs[r]) then db.runs[r].(status := RunStatus.Failed) else db.runs[r])
  }

  // ------------------------------------------------------------- retention

  function Newer(rs: set<RunId>, r: RunId): set<RunId> {
    set x | x in rs && x > r
  }

  /** The rows whose ROW_NUMBER() OVER (ORDER BY id DESC) exceeds n. */
  function Expired(rs: set<RunId>, n: nat): set<RunId> {
    set r | r in rs && |Newer(rs, r)| >= n
  }

  function PruneRuns(db: Db, p: PortfolioId): Db {
    if p !in db.portfolios then db
    else
      var gone := Expired(RunsOf(db, p), db.portfolios[p].retention);
      db.(runs := db.runs - gone)
  }

  /** The non-NULL snapshot paths of the rows that PruneRuns deletes. */
  function PrunedPaths(db: Db, p: PortfolioId): set<Path> {
    if p !in db.portfolios then {}
    else
      set r | r in Expired(RunsOf(db, p), db.portfolios[p].retention) && r in db.runs && db.runs[r].snapshot.Some?
        :: db.runs[r].snapshot.value
  }

  // ------------------------------------------------------------- scheduling

  predicate RanToday(db: Db, row: RunRow) {
    row.trigger.Scheduled? && row.startedAt.Some? && row.startedAt.value.day == db.now.day
  }

  /** The WHERE clause of ClaimDue. */
  predicate Due(db: Db, p: PortfolioId) {
    && p in db.portfolios
    && db.portfolios[p].openEnded
    && (db.portfolios[p].status.Ready? || db.portfolios[p].status.Failed?)
    && (forall r :: r in db.runs && db.runs[r].pid == p ==> !RanToday(db, db.runs[r]))
    && !HasInFlight(db, p)
  }

  // -------------------------------------------------------------- invariant

  ghost predicate IdsBounded(db: Db) {
    && (forall p :: p in db.portfolios ==> p < db.nextPortfolio && db.portfolios[p].retention >= 1)
    && (forall r :: r in db.runs ==> r < db.nextRun && db.runs[r].pid in db.portfolios)
  }

  /** An in-flight run has the newest id of its portfolio. In particular a
      portfolio has at most one in-flight run. */
  ghost predicate InFlightIsNewest(db: Db) {
    forall r, x :: r in db.runs && x in db.runs && InFlight(db.runs[r]) && db.runs[x].pid == db.runs[r].pid ==> x <= r
  }

  ghost predicate HasRunningRun(db: Db, p: PortfolioId) {
    exists r :: r in db.runs && db.runs[r].pid == p && db.runs[r].status.Running?
  }

  ghost predicate RunningIsBacked(db: Db) {
    forall p :: p in db.portfolios && db.portfolios[p].status.Running? ==> HasRunningRun(db, p)
  }

  ghost predicate DbInv(db: Db) {
    IdsBounded(db) && InFlightIsNewest(db) && RunningIsBacked(db)
  }

  /** What a holder of task (p, r) relies on before it updates the row: the row
      is in flight and belongs to p, or the whole portfolio is gone. */
  ghost predicate Holdable(db: Db, p: PortfolioId, r: RunId) {
    if r in db.runs then db.runs[r].pid == p && InFlight(db.runs[r]) else p !in db.portfolios
  }

  // ---------------------------------------------- preservation, one per call

  lemma InsertPortfolioKeeps(db: Db, retention: nat, openEnded: bool)
    requires DbInv(db) && retention >= 1
    ensures DbInv(InsertPortfolio(db, retention, openEnded))
  {
    var d := InsertPortfolio(db, retention, openEnded);
    forall p | p in d.portfolios && d.portfolios[p].status.Running?
      ensures HasRunningRun(d, p)
    {
      assert HasRunningRun(db, p);
    }
  }

  lemma DeletePortfolioKeeps(db: Db, p: PortfolioId)
    requires DbInv(db)
    ensures DbInv(DeletePortfolio(db, p))
  {
    var d := DeletePortfolio(db, p);
    forall q | q in d.portfolios && d.portfolios[q].status.Running?
      ensures HasRunningRun(d, q)
    {
      assert HasRunningRun(db, q);
      var r :| r in db.runs && db.runs[r].pid == q && db.runs[r].status.Running?;
      assert r in d.runs;
    }
  }

  lemma SetRetentionKeeps(db: Db, p: PortfolioId, n: nat)
    requires DbInv(db) && n >= 1
    ensures DbInv(SetRetention(db, p, n))
  {
    var d := SetRetention(db, p, n);
    forall q | q in d.portfolios && d.portfolios[q].status.Running?
      ensures HasRunningRun(d, q)
    {
      assert HasRunningRun(db, q);
    }
  }

  lemma SetEndDateKeeps(db: Db, p: PortfolioId)
    requires DbInv(db)
    ensures DbInv(SetEndDate(db, p))
  {
    var d := SetEndDate(db, p);
    forall q | q in d.portfolios && d.portfolios[q].status.Running?
      ensures HasRunningRun(d, q)
    {
      assert HasRunningRun(db, q);
    }
  }

  lemma ApplyUpgradeKeeps(db: Db, p: PortfolioId)
    requires DbInv(db)
    ensures DbInv(ApplyUpgrade(db, p))
  {
    var d := ApplyUpgrade(db, p);
    forall q | q in d.portfolios && d.portfolios[q].status.Running?
      ensures HasRunningRun(d, q)
    {
      assert HasRunningRun(db, q);
    }
  }

  lemma CreateRunKeeps(db: Db, p: PortfolioId, trigger: Trigger)
    requires DbInv(db) && CreateRun(db, p, trigger).Ok?
    ensures DbInv(CreateRun(db, p, trigger).value.0)
  {
    var d := CreateRun(db, p, trigger).value.0;
    forall q | q in d.portfolios && d.portfolios[q].status.Running?
      ensures HasRunningRun(d, q)
    {
      assert HasRunningRun(db, q);
      var r :| r in db.runs && db.runs[r].pid == q && db.runs[r].status.Running?;
      assert r in d.runs && d.runs[r] == db.runs[r];
    }
  }

  /** Giving up on a run that no worker has started. */
  lemma UpdateRunFailedKeeps(db: Db, p: PortfolioId, r: RunId)
    requires DbInv(db) && Holdable(db, p, r)
    requires r in db.runs ==> db.runs[r].status.Queued?
    ensures DbInv(UpdateRunFailed(db, r))
  {
    var d := UpdateRunFailed(db, r);
    forall q | q in d.portfolios && d.portfolios[q].status.Running?
      ensures HasRunningRun(d, q)
    {
      assert HasRunningRun(db, q);
      var x :| x in db.runs && db.runs[x].pid == q && db.runs[x].status.Running?;
      assert x in d.runs && d.runs[x] == db.runs[x];
    }
  }

  lemma MarkRunningKeeps(db: Db, p: PortfolioId, r: RunId)
    requires DbInv(db) && Holdable(db, p, r)
    ensures DbInv(MarkRunning(db, p, r))
  {
    var d := MarkRunning(db, p, r);
    forall q | q in d.portfolios && d.portfolios[q].status.Running?
      ensures HasRunningRun(d, q)
    {
      if q == p {
        assert r in d.runs && d.runs[r].status.Running?;
      } else {
        assert HasRunningRun(db, q);
        var x :| x in db.runs && db.runs[x].pid == q && db.runs[x].status.Running?;
        assert x in d.runs && d.runs[x] == db.runs[x];
      }
    }
  }

  lemma MarkReadyKeeps(db: Db, p: PortfolioId, r: RunId, path: Path)
    requires DbInv(db) && Holdable(db, p, r)
    ensures DbInv(MarkReady(db, p, r, path))
  {
    var d := MarkReady(db, p, r, path);
    forall q | q in d.portfolios && d.portfolios[q].status.Running?
      ensures HasRunningRun(d, q)
    {
      assert HasRunningRun(db, q);
      var x :| x in db.runs && db.runs[x].pid == q && db.runs[x].status.Running?;
      assert x in d.runs && d.runs[x] == db.runs[x];
    }
  }

  lemma MarkFailedKeeps(db: Db, p: PortfolioId, r: RunId)
    requires DbInv(db) && Holdable(db, p, r)
    ensures DbInv(MarkFailed(db, p, r))
  {
    var d := MarkFailed(db, p, r);
    forall q | q in d.portfolios && d.portfolios[q].status.Running?
      ensures HasRunningRun(d, q)
    {
      assert HasRunningRun(db, q);
      var x :| x in db.runs && db.runs[x].pid == q && db.runs[x].status.Running?;
      assert x in d.runs && d.runs[x] == db.runs[x];
    }
  }

  lemma MarkAllKeeps(db: Db)
    requires DbInv(db)
    ensures DbInv(MarkAllRunningAsFailed(db))
    ensures forall r :: r in MarkAllRunningAsFailed(db).runs ==> !InFlight(MarkAllRunningAsFailed(db).runs[r])
  {
  }

  /** Retention is at least 1, so the newest row of a portfolio survives: a
      prune never deletes an in-flight run. */
  lemma PruneSparesInFlight(db: Db, p: PortfolioId, r: RunId)
    requires DbInv(db) && r in db.runs && InFlight(db.runs[r])
    ensures r in PruneRuns(db, p).runs
  {
    assert Newer(RunsOf(db, db.runs[r].pid), r) == {};
  }

  lemma PruneRunsKeeps(db: Db, p: PortfolioId)
    requires DbInv(db)
    ensures DbInv(PruneRuns(db, p))
  {
    var d := PruneRuns(db, p);
    forall q | q in d.portfolios && d.portfolios[q].status.Running?
      ensures HasRunningRun(d, q)
    {
      assert HasRunningRun(db, q);
      var x :| x in db.runs && db.runs[x].pid == q && db.runs[x].status.Running?;
      PruneSparesInFlight(db, p, x);
      assert d.runs[x] == db.runs[x];
    }
  }

  // ----------------------------------------------------------- prune counts

  lemma NewestExists(rs: set<RunId>) returns (m: RunId)
    requires rs != {}
    ensures m in rs && forall x :: x in rs ==> x <= m
  {
    var y :| y in rs;
    if rs == {y} {
      m := y;
    } else {
      assert rs - {y} != {} by { assert {y} + (rs - {y}) == rs; }
      var k := NewestExists(rs - {y});
      m := if k < y then y else k;
      forall x | x in rs ensures x <= m {
        assert x == y || x in rs - {y};
      }
    }
  }

  /** Below the newest row, a row expires one step earlier when that row is left out. */
  lemma ExpiredBelowNewest(rs: set<RunId>, n: nat, m: RunId, r: RunId)
    requires m in rs && n > 0 && r in rs && r < m
    ensures r in Expired(rs, n) <==> r in Expired(rs - {m}, n - 1)
  {
    assert Newer(rs, r) == Newer(rs - {m}, r) + {m};
    assert m !in Newer(rs - {m}, r);
  }

  /** The rows that a prune to n rows keeps. */
  function Kept(rs: set<RunId>, n: nat): set<RunId> {
    rs - Expired(rs, n)
  }

  lemma KeptSplit(rs: set<RunId>, n: nat, m: RunId)
    requires m in rs && n > 0 && forall x :: x in rs ==> x <= m
    ensures |Kept(rs, n)| == 1 + |Kept(rs - {m}, n - 1)|
  {
    assert Newer(rs, m) == {};
    forall r | r in rs && r != m
      ensures r in Expired(rs, n) <==> r in Expired(rs - {m}, n - 1)
    {
      ExpiredBelowNewest(rs, n, m, r);
    }
    assert Kept(rs, n) == {m} + Kept(rs - {m}, n - 1);
  }

  /** PruneRuns keeps exactly min(n, retention) rows of the portfolio. */
  lemma {:induction false} KeptCount(rs: set<RunId>, n: nat)
    ensures |Kept(rs, n)| == Min(|rs|, n)
    decreases |rs|
  {
    if rs == {} || n == 0 {
      assert Kept(rs, n) == {};
    } else {
      var m := NewestExists(rs);
      assert |rs - {m}| == |rs| - 1;
      KeptSplit(rs, n, m);
      KeptCount(rs - {m}, n - 1);
    }
  }

  /** What one prune does to the rows of its portfolio, and to all others. */
  lemma PruneExact(db: Db, p: PortfolioId)
    requires p in db.portfolios
    ensures |RunsOf(PruneRuns(db, p), p)| == Min(|RunsOf(db, p)|, db.portfolios[p].retention)
    ensures forall r :: r in db.runs ==>
              (r !in PruneRuns(db, p).runs <==>
                db.runs[r].pid == p && |Newer(RunsOf(db, p), r)| >= db.portfolios[p].retention)
    ensures forall q, r :: q in RunsOf(PruneRuns(db, p), p) && r in RunsOf(db, p) && r > q ==>
              r in PruneRuns(db, p).runs
  {
    var rs, n := RunsOf(db, p), db.portfolios[p].retention;
    KeptCount(rs, n);
    assert RunsOf(PruneRuns(db, p), p) == Kept(rs, n);
    forall q, r | q in rs && q !in Expired(rs, n) && r in rs && r > q
      ensures r !in Expired(rs, n)
    {
      SubsetCard(Newer(rs, r), Newer(rs, q));
    }
  }

  lemma SubsetCard(a: set<RunId>, b: set<RunId>)
    requires a <= b
    ensures |a| <= |b|
  {
    assert b == a + (b - a);
  }

  // ------------------------------------------------- what a statement touches

  /** The rows of p are gone with it; nothing else is. */
  lemma DeleteExact(db: Db, p: PortfolioId)
    ensures var d := DeletePortfolio(db, p);
            && (forall q :: q in d.portfolios <==> q in db.portfolios && q != p)
            && (forall q :: q in d.portfolios ==> d.portfolios[q] == db.portfolios[q])
            && (forall r :: r in d.runs <==> r in db.runs && db.runs[r].pid != p)
            && (forall r :: r in d.runs ==> d.runs[r] == db.runs[r])
            && RunsOf(d, p) == {}
  {
  }

  /** A change of retention takes effect at the next prune. */
  lemma RetentionAtPrune(db: Db, p: PortfolioId, n: nat)
    requires p in db.portfolios
    ensures RunsOf(SetRetention(db, p, n), p) == RunsOf(db, p)
    ensures |RunsOf(PruneRuns(SetRetention(db, p, n), p), p)| == Min(|RunsOf(db, p)|, n)
  {
    assert RunsOf(SetRetention(db, p, n), p) == RunsOf(db, p);
    PruneExact(SetRetention(db, p, n), p);
  }

  /** A new portfolio waits for its first run: it has no run and is not due. */
  lemma NewPortfolioPends(db: Db, retention: nat, openEnded: bool)
    requires IdsBounded(db)
    ensures var d := InsertPortfolio(db, retention, openEnded);
            var p := db.nextPortfolio;
            && p !in db.portfolios && RunsOf(d, p) == {} && !Due(d, p)
            && CreateRun(d, p, Scheduled).Ok? && d.portfolios[p].retention == retention
            && (d.portfolios[p].openEnded <==> openEnded) && d.portfolios[p].status == PortfolioStatus.Pending
            && d.portfolios[p].snapshot == None && d.portfolios[p].lastRunAt == None
            && (forall q :: q in db.portfolios ==> q in d.portfolios && d.portfolios[q] == db.portfolios[q])
  {
  }

  /** The startup update fails what was executing or waiting, and only that. */
  lemma MarkAllExact(db: Db)
    ensures var d := MarkAllRunningAsFailed(db);
            && d.runs.Keys == db.runs.Keys && d.portfolios.Keys == db.portfolios.Keys
            && (forall r :: r in db.runs ==>
                  d.runs[r].status == (if db.runs[r].status in {RunStatus.Queued, RunStatus.Running}
                                       then RunStatus.Failed else db.runs[r].status)
                  && d.runs[r].pid == db.runs[r].pid && d.runs[r].trigger == db.runs[r].trigger
                  && d.runs[r].startedAt == db.runs[r].startedAt && d.runs[r].snapshot == db.runs[r].snapshot)
            && (forall p :: p in db.portfolios ==>
                  d.portfolios[p] == if db.portfolios[p].status != PortfolioStatus.Running then db.portfolios[p]
                                     else db.portfolios[p].(status := PortfolioStatus.Failed))
  {
  }
}
