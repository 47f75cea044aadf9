/** The stores, the orchestrator and the orphan sweep in the form the program
    has them: objects whose methods update tables and files in place. Every
    method is tied to the table functions of RunDb. */
module RunStore {
  import opened Prelude
  import opened RunDb
  import opened RunProtocol
  import opened StableSort

  class Store {
    var portfolios: map<PortfolioId, Portfolio>
    var runs: map<RunId, RunRow>
    var nextPortfolio: nat
    var nextRun: nat
    var now: Stamp

    constructor (now: Stamp)
      ensures Tables() == Db(map[], map[], 0, 0, now)
    {
      portfolios, runs, nextPortfolio, nextRun, this.now := map[], map[], 0, 0, now;
    }

    function Tables(): Db
      reads this
    {
      Db(portfolios, runs, nextPortfolio, nextRun, now)
    }

    method CreateRun(p: PortfolioId, trigger: Trigger) returns (res: Result<RunId, CreateError>)
      modifies this
      ensures match RunDb.CreateRun(old(Tables()), p, trigger)
              case Ok((db, r)) => res == Ok(r) && Tables() == db
              case Err(e) => res == Err(e) && Tables() == old(Tables())
    {
      if p !in portfolios {
        return Err(UnknownPortfolio);
      }
      if HasInFlight(Tables(), p) {
        return Err(RunInFlight);
      }
      res := Ok(nextRun);
      runs := runs[nextRun := RunRow(p, Queued, trigger, None, None)];
      nextRun := nextRun + 1;
    }

    method UpdateRunFailed(r: RunId)
      modifies this
      ensures Tables() == RunDb.UpdateRunFailed(old(Tables()), r)
    {
      if r in runs {
        runs := runs[r := runs[r].(status := RunStatus.Failed)];
      }
    }

    method MarkRunningTx(p: PortfolioId, r: RunId)
      modifies this
      ensures Tables() == MarkRunning(old(Tables()), p, r)
    {
      if p in portfolios {
        portfolios := portfolios[p := portfolios[p].(status := PortfolioStatus.Running)];
      }
      if r in runs {
        runs := runs[r := runs[r].(status := RunStatus.Running, startedAt := Some(now))];
      }
      now := Stamp(now.time + 1, now.day);
    }

    method MarkReadyTx(p: PortfolioId, r: RunId, path: Path)
      modifies this
      ensures Tables() == MarkReady(old(Tables()), p, r, path)
    {
      if p in portfolios {
        portfolios := portfolios[p := portfolios[p].(status := Ready, snapshot := Some(path), lastRunAt := Some(now))];
      }
      if r in runs {
        runs := runs[r := runs[r].(status := Success, snapshot := Some(path))];
      }
    }

    method MarkFailedTx(p: PortfolioId, r: RunId)
      modifies this
      ensures Tables() == MarkFailed(old(Tables()), p, r)
    {
      if p in portfolios {
        portfolios := portfolios[p := portfolios[p].(status := PortfolioStatus.Failed)];
      }
      UpdateRunFailed(r);
    }

    /** Reports how many portfolios and how many runs it flipped. */
    method MarkAllRunningAsFailed() returns (nPortfolios: nat, nRuns: nat)
      modifies this
      ensures Tables() == RunDb.MarkAllRunningAsFailed(old(Tables()))
      ensures nPortfolios == |set p | p in old(portfolios) && old(portfolios)[p].status.Running?|
      ensures nRuns == |InFlightRuns(old(Tables()))|
    {
      nPortfolios := |set p | p in portfolios && portfolios[p].status.Running?|;
      nRuns := |InFlightRuns(Tables())|;
      portfolios := map p | p in portfolios ::
                      if portfolios[p].status.Running?
                      then portfolios[p].(status := PortfolioStatus.Failed) else portfolios[p];
      runs := map r | r in runs :: if InFlight(runs[r]) then runs[r].(status := RunStatus.Failed) else runs[r];
    }

    /** Deletes the expired rows and collects their snapshot paths. */
    method PruneRuns(p: PortfolioId) returns (res: Option<seq<Path>>)
      modifies this
      ensures Tables() == RunDb.PruneRuns(old(Tables()), p)
      ensures res.None? <==> p !in old(portfolios)
      ensures res.Some? ==> forall f :: f in res.value <==> f in PrunedPaths(old(Tables()), p)
      ensures res.Some? ==> forall f :: f in res.value <==>
                exists r :: r in old(runs) && r !in runs && old(runs)[r].snapshot == Some(f)
    {
      if p !in portfolios {
        return None;
      }
      var gone := Expired(RunsOf(Tables(), p), portfolios[p].retention);
      var deleted := [];
      var todo := gone;
      while todo != {}
        invariant todo <= gone <= runs.Keys
        invariant forall f :: f in deleted <==>
                    exists r :: r in gone - todo && runs[r].snapshot == Some(f)
        decreases |todo|
      {
        var r :| r in todo;
        if runs[r].snapshot.Some? {
          deleted := deleted + [runs[r].snapshot.value];
        }
        todo := todo - {r};
      }
      runs := runs - gone;
      res := Some(deleted);
    }

    /** The claimable portfolios: those that were never run first, then the one
        whose last run is oldest; at most batchSize of them. */
    method ClaimDue(batchSize: nat) returns (ids: seq<PortfolioId>)
      ensures Distinct(ids) && |ids| <= batchSize
      ensures forall p :: p in ids ==> Claimable(Tables(), p)
      ensures |ids| < batchSize ==> forall p :: Claimable(Tables(), p) ==> p in ids
      ensures forall i, j :: 0 <= i < j < |ids| ==> RanNoLater(Tables(), ids[i], ids[j])
      ensures forall p, q :: p in ids && Claimable(Tables(), q) && q !in ids ==> RanNoLater(Tables(), p, q)
    {
      var due := CollectDue();
      ghost var found := due;
      RanEarlierIsWeakOrder(Tables());
      var db := Tables();
      SortOrders(due, (p, q) => RanEarlier(db, p, q));
      due := Sort(due, (p, q) => RanEarlier(db, p, q));
      ids := due[..if |due| < batchSize then |due| else batchSize];
      OldestFirst(db, found, due, ids);
    }

    method CollectDue() returns (due: seq<PortfolioId>)
      ensures Distinct(due) && forall p :: p in due <==> Due(Tables(), p)
    {
      due := [];
      var todo := portfolios.Keys;
      while todo != {}
        invariant todo <= portfolios.Keys && Distinct(due)
        invariant forall p :: p in due <==> p in portfolios.Keys - todo && Due(Tables(), p)
        decreases |todo|
      {
        var p :| p in todo;
        if Due(Tables(), p) {
          due := due + [p];
        }
        todo := todo - {p};
      }
    }
  }

  /** A queued or running run, or a scheduled one started that day. */
  ghost predicate Occupies(row: RunRow, day: nat) {
    || row.status == RunStatus.Queued || row.status == RunStatus.Running
    || (row.trigger == Scheduled && row.startedAt.Some? && row.startedAt.value.day == day)
  }

  /** What the scheduler may claim: a portfolio without an end date that is ready
      or failed and that no run occupies. */
  ghost predicate Claimable(db: Db, p: PortfolioId) {
    && p in db.portfolios && db.portfolios[p].openEnded
    && (db.portfolios[p].status == PortfolioStatus.Ready || db.portfolios[p].status == PortfolioStatus.Failed)
    && (forall r :: r in db.runs && db.runs[r].pid == p ==> !Occupies(db.runs[r], db.now.day))
  }

  lemma DueIffClaimable(db: Db, p: PortfolioId)
    ensures Due(db, p) <==> Claimable(db, p)
  {
    if p in db.portfolios && HasInFlight(db, p) {
      var r :| r in db.runs && db.runs[r].pid == p && InFlight(db.runs[r]);
      assert Occupies(db.runs[r], db.now.day);
    }
  }

  /** NULLS FIRST, then by time. */
  ghost predicate RanNoLater(db: Db, p: PortfolioId, q: PortfolioId) {
    && p in db.portfolios && q in db.portfolios
    && (db.portfolios[p].lastRunAt.Some? ==>
          && db.portfolios[q].lastRunAt.Some?
          && db.portfolios[p].lastRunAt.value.time <= db.portfolios[q].lastRunAt.value.time)
  }

  /** ORDER BY last_run_at NULLS FIRST. */
  predicate RanEarlier(db: Db, p: PortfolioId, q: PortfolioId) {
    LastRunKey(db, p) < LastRunKey(db, q)
  }

  function LastRunKey(db: Db, p: PortfolioId): int {
    if p in db.portfolios && db.portfolios[p].lastRunAt.Some? then db.portfolios[p].lastRunAt.value.time else -1
  }

  lemma RanEarlierIsWeakOrder(db: Db)
    ensures WeakOrder((p: PortfolioId, q: PortfolioId) => RanEarlier(db, p, q))
  {
  }

  /** The first of the sorted due portfolios. */
  lemma OldestFirst(db: Db, found: seq<PortfolioId>, due: seq<PortfolioId>, ids: seq<PortfolioId>)
    requires Distinct(found) && (forall p :: p in found <==> Due(db, p)) && multiset(found) == multiset(due)
    requires Ordered(due, (p, q) => RanEarlier(db, p, q)) && ids <= due
    ensures Distinct(ids) && forall p :: p in ids ==> Claimable(db, p)
    ensures |ids| == |due| ==> forall p :: Claimable(db, p) ==> p in ids
    ensures forall i, j :: 0 <= i < j < |ids| ==> RanNoLater(db, ids[i], ids[j])
    ensures forall p, q :: p in ids && Claimable(db, q) && q !in ids ==> RanNoLater(db, p, q)
  {
    SortedDistinct(found, due);
    DueListed(db, found, due);
    forall i, j | 0 <= i < j < |due|
      ensures RanNoLater(db, due[i], due[j])
    {
      assert due[i] in due && due[j] in due;
      EarlierOrNot(db, due[i], due[j]);
    }
    forall p, q | p in ids && Claimable(db, q) && q !in ids
      ensures RanNoLater(db, p, q)
    {
      var i :| 0 <= i < |ids| && ids[i] == p;
      assert q in due;
      var j :| 0 <= j < |due| && due[j] == q;
      assert due[i] == p && i < j;
    }
  }

  lemma DueListed(db: Db, found: seq<PortfolioId>, due: seq<PortfolioId>)
    requires (forall p :: p in found <==> Due(db, p)) && multiset(found) == multiset(due)
    ensures forall p :: p in due <==> Claimable(db, p)
  {
    forall p
      ensures p in due <==> Claimable(db, p)
    {
      DueIffClaimable(db, p);
      assert p in due <==> p in multiset(due);
      assert p in found <==> p in multiset(found);
    }
  }

  lemma EarlierOrNot(db: Db, p: PortfolioId, q: PortfolioId)
    requires p in db.portfolios && q in db.portfolios && !RanEarlier(db, q, p)
    ensures RanNoLater(db, p, q)
  {
  }

  lemma SortedDistinct(s: seq<PortfolioId>, t: seq<PortfolioId>)
    requires Distinct(s) && multiset(s) == multiset(t)
    ensures Distinct(t)
  {
    forall i, j | 0 <= i < j < |t|
      ensures t[i] != t[j]
    {
      if t[i] == t[j] {
        CountedTwice(t, i, j);
        DistinctCount(s, t[i]);
      }
    }
  }

  datatype SubmitError = Refused(why: CreateError) | QueueFull

  /** The bounded task channel in front of the workers. */
  class Dispatcher {
    const store: Store
    const capacity: nat
    var tasks: seq<Task>

    constructor (store: Store, maxConcurrency: nat)
      ensures this.store == store && capacity == maxConcurrency * 4 && tasks == []
    {
      this.store, capacity, tasks := store, maxConcurrency * 4, [];
    }

    /** Creates the row, then sends the task or, when the channel is full, fails
        the row again so that it does not block later submissions. When that
        write fails it is only logged. */
    method Submit(p: PortfolioId, trigger: Trigger, marksFailed: bool) returns (res: Result<RunId, SubmitError>)
      modifies this, store
      ensures match RunDb.CreateRun(old(store.Tables()), p, trigger)
              case Err(e) =>
                res == Err(Refused(e)) && store.Tables() == old(store.Tables()) && tasks == old(tasks)
              case Ok((db, r)) =>
                if |old(tasks)| < capacity
                then res == Ok(r) && store.Tables() == db && tasks == old(tasks) + [Task(p, r)]
                else
                  && res == Err(QueueFull) && tasks == old(tasks)
                  && store.Tables() == if marksFailed then RunDb.UpdateRunFailed(db, r) else db
    {
      var run := store.CreateRun(p, trigger);
      if run.Err? {
        return Err(Refused(run.error));
      }
      if |tasks| < capacity {
        tasks := tasks + [Task(p, run.value)];
        return Ok(run.value);
      }
      if marksFailed {
        store.UpdateRunFailed(run.value);
      }
      return Err(QueueFull);
    }

    /** A worker receives the oldest task. */
    method Receive() returns (t: Task)
      requires tasks != []
      modifies this
      ensures [t] + tasks == old(tasks)
    {
      t := tasks[0];
      tasks := tasks[1..];
    }
  }

  /** A created run is the only one in flight for its portfolio, and failing its
      row frees the portfolio again; a refused submission is one for a portfolio
      that is gone or busy. */
  lemma SubmitEffect(db: Db, p: PortfolioId, trigger: Trigger)
    requires DbInv(db)
    ensures match RunDb.CreateRun(db, p, trigger)
            case Err(e) => p !in db.portfolios || HasInFlight(db, p)
            case Ok((db', r)) =>
              && !HasInFlight(db, p)
              && (forall x :: x in db'.runs && db'.runs[x].pid == p && InFlight(db'.runs[x]) <==> x == r)
              && !HasInFlight(RunDb.UpdateRunFailed(db', r), p)
              && r !in db.runs && r in db'.runs && db'.portfolios == db.portfolios && db'.runs - {r} == db.runs
              && db'.runs[r].pid == p && db'.runs[r].trigger == trigger && db'.runs[r].status == RunStatus.Queued
              && db'.runs[r].startedAt == None && db'.runs[r].snapshot == None
  {
  }

  /** How the calls that one run makes turn out: reading the portfolio, the two
      external stages, and each write to the store; and which of the files that
      a prune removes stay because their removal fails. */
  datatype Outcomes = Outcomes(
    loads: bool, marksRunning: bool, resolves: bool, mkdirs: bool, runs: bool, kpis: bool,
    marksReady: bool, marksFailed: bool, prunes: bool, stay: set<Path>)

  datatype RunResult = Succeeded | AlreadyRunning | Errored

  /** Tables and files after an undisturbed call of Run. */
  function RunEffect(db: Db, files: set<Path>, p: PortfolioId, r: RunId, o: Outcomes): (Db, set<Path>, RunResult) {
    if !o.loads || p !in db.portfolios then FailEffect(db, files, p, r, o)
    else if db.portfolios[p].status.Running? then
      (if o.marksFailed then RunDb.UpdateRunFailed(db, r) else db, files, AlreadyRunning)
    else if !o.marksRunning then FailEffect(db, files, p, r, o)
    else ExecuteEffect(MarkRunning(db, p, r), files, p, r, o)
  }

  /** From the moment the run is marked as running. */
  function ExecuteEffect(db: Db, files: set<Path>, p: PortfolioId, r: RunId, o: Outcomes): (Db, set<Path>, RunResult) {
    if !o.resolves || !o.mkdirs || !o.runs then FailEffect(db, files, p, r, o)
    else
      var files := files + {Path(p, r)};
      if !o.kpis || !o.marksReady then FailEffect(db, files, p, r, o)
      else
        var (db, files) := PruneEffect(MarkReady(db, p, r, Path(p, r)), files, p, o);
        (db, files, Succeeded)
  }

  function FailEffect(db: Db, files: set<Path>, p: PortfolioId, r: RunId, o: Outcomes): (Db, set<Path>, RunResult) {
    var (db, files) := PruneEffect(if o.marksFailed then MarkFailed(db, p, r) else db, files, p, o);
    (db, files, Errored)
  }

  function PruneEffect(db: Db, files: set<Path>, p: PortfolioId, o: Outcomes): (Db, set<Path>) {
    if o.prunes then (RunDb.PruneRuns(db, p), files - (PrunedPaths(db, p) - o.stay)) else (db, files)
  }

  /** A row names no snapshot but its own. */
  ghost predicate OwnSnapshots(db: Db) {
    forall x :: x in db.runs && db.runs[x].snapshot.Some? ==> db.runs[x].snapshot.value.rid == x
  }

  /** What an undisturbed run of a held task leaves behind, whichever calls fail.
      The tables are valid and the run keeps its row. It is reported successful
      exactly when every call and write of it succeeded, and exactly when the row
      says so; then its snapshot is on disk and is the active one, and the
      portfolio is ready and was last run now. Otherwise the row is failed, or,
      exactly when the failure could not be written either, still in flight. */
  lemma RunSettles(db: Db, files: set<Path>, p: PortfolioId, r: RunId, o: Outcomes)
    requires DbInv(db) && Holdable(db, p, r)
    requires r in db.runs ==> db.runs[r].status.Queued? && db.runs[r].snapshot == None
    requires OwnSnapshots(db)
    ensures var (db', files', res) := RunEffect(db, files, p, r, o);
            && DbInv(db') && RowSettled(db, db', r, res, o) && PortfolioSettled(db, db', files', p, r, res, o)
            && res != AlreadyRunning
            && (res.Succeeded? <==>
                  && p in db.portfolios && o.loads && o.marksRunning && o.resolves && o.mkdirs && o.runs && o.kpis
                  && o.marksReady)
  {
    if p in db.portfolios {
      NotRunning(db, p, r);
      FailSettles(db, db, files, p, r, o);
      MarkRunningBegins(db, p, r);
      ExecuteSettles(db, MarkRunning(db, p, r), files, p, r, o);
    } else {
      GoneSettles(db, files, p, r, o);
    }
  }

  /** The run keeps its row, and the row agrees with the report. */
  ghost predicate RowSettled(db: Db, db': Db, r: RunId, res: RunResult, o: Outcomes) {
    r in db.runs ==>
      && r in db'.runs
      && (res.Succeeded? <==> db'.runs[r].status == RunStatus.Success)
      && (res.Errored? ==>
            && (db'.runs[r].status == RunStatus.Failed <==> o.marksFailed)
            && (InFlight(db'.runs[r]) <==> !o.marksFailed))
  }

  ghost predicate PortfolioSettled(db: Db, db': Db, files': set<Path>, p: PortfolioId, r: RunId, res: RunResult,
                                   o: Outcomes) {
    && db'.portfolios.Keys == db.portfolios.Keys
    && (p in db'.portfolios ==>
          && (db'.portfolios[p].status == PortfolioStatus.Running ==> res.Errored? && !o.marksFailed)
          && (res.Errored? && o.marksFailed ==> db'.portfolios[p].status == PortfolioStatus.Failed)
          && (res.Succeeded? ==>
                && Path(p, r) in files' && db'.portfolios[p].snapshot == Some(Path(p, r))
                && db'.portfolios[p].status == PortfolioStatus.Ready && db'.portfolios[p].lastRunAt == Some(db'.now)))
  }

  lemma GoneSettles(db: Db, files: set<Path>, p: PortfolioId, r: RunId, o: Outcomes)
    requires DbInv(db) && Holdable(db, p, r) && p !in db.portfolios
    ensures var (db', files', res) := RunEffect(db, files, p, r, o);
            && DbInv(db') && RowSettled(db, db', r, res, o) && PortfolioSettled(db, db', files', p, r, res, o)
            && res == Errored
  {
    MarkFailedKeeps(db, p, r);
  }

  /** d is db, perhaps with the run marked as running. */
  ghost predicate Begun(db: Db, d: Db, p: PortfolioId, r: RunId) {
    && DbInv(d) && OwnSnapshots(d) && d.portfolios.Keys == db.portfolios.Keys && p in d.portfolios
    && r in d.runs && d.runs[r].pid == p && InFlight(d.runs[r])
    && (d == db ==> !d.portfolios[p].status.Running?)
  }

  lemma MarkRunningBegins(db: Db, p: PortfolioId, r: RunId)
    requires Begun(db, db, p, r)
    ensures Begun(db, MarkRunning(db, p, r), p, r)
  {
    MarkRunningKeeps(db, p, r);
  }

  lemma ExecuteSettles(db: Db, d: Db, files: set<Path>, p: PortfolioId, r: RunId, o: Outcomes)
    requires Begun(db, d, p, r)
    ensures var (db', files', res) := ExecuteEffect(d, files, p, r, o);
            && DbInv(db') && RowSettled(db, db', r, res, o) && PortfolioSettled(db, db', files', p, r, res, o)
            && res != AlreadyRunning
            && (res.Succeeded? <==> o.resolves && o.mkdirs && o.runs && o.kpis && o.marksReady)
  {
    FailSettles(db, d, files, p, r, o);
    FailSettles(db, d, files + {Path(p, r)}, p, r, o);
    ReadySettles(db, d, files + {Path(p, r)}, p, r, o);
  }

  lemma FailSettles(db: Db, d: Db, files: set<Path>, p: PortfolioId, r: RunId, o: Outcomes)
    requires Begun(db, d, p, r)
    ensures var (db', files', res) := FailEffect(d, files, p, r, o);
            && DbInv(db') && RowSettled(db, db', r, res, o) && PortfolioSettled(db, db', files', p, r, res, o)
            && res == Errored
  {
    var failed := if o.marksFailed then MarkFailed(d, p, r) else d;
    MarkFailedKeeps(d, p, r);
    PruneRunsKeeps(failed, p);
    NewestSurvives(d, p, r, failed);
  }

  lemma ReadySettles(db: Db, d: Db, files: set<Path>, p: PortfolioId, r: RunId, o: Outcomes)
    requires Begun(db, d, p, r) && Path(p, r) in files
    ensures var (db', files') := PruneEffect(MarkReady(d, p, r, Path(p, r)), files, p, o);
            && DbInv(db') && RowSettled(db, db', r, Succeeded, o)
            && PortfolioSettled(db, db', files', p, r, Succeeded, o)
  {
    var ready := MarkReady(d, p, r, Path(p, r));
    MarkReadyKeeps(d, p, r, Path(p, r));
    PruneRunsKeeps(ready, p);
    NewestSurvives(d, p, r, ready);
  }

  /** The in-flight run is the newest, so it survives the prune that follows it. */
  lemma NewestSurvives(db: Db, p: PortfolioId, r: RunId, db': Db)
    requires DbInv(db) && p in db.portfolios && r in db.runs && db.runs[r].pid == p && InFlight(db.runs[r])
    requires OwnSnapshots(db)
    requires db' == db || db' == MarkFailed(db, p, r) || db' == MarkReady(db, p, r, Path(p, r))
    ensures r in RunDb.PruneRuns(db', p).runs && RunDb.PruneRuns(db', p).runs[r] == db'.runs[r]
    ensures Path(p, r) !in PrunedPaths(db', p)
  {
    assert Newer(RunsOf(db', p), r) == {};
    assert r !in Expired(RunsOf(db', p), db'.portfolios[p].retention);
  }

  /** A run of a portfolio that is already running gives up on its own row alone. */
  lemma BusyPortfolioRefused(db: Db, files: set<Path>, p: PortfolioId, r: RunId, o: Outcomes)
    requires o.loads && o.marksFailed && r in db.runs
    requires p in db.portfolios && db.portfolios[p].status == PortfolioStatus.Running
    ensures var (db', files', res) := RunEffect(db, files, p, r, o);
            && res == AlreadyRunning && files' == files && db'.portfolios == db.portfolios
            && db'.runs.Keys == db.runs.Keys && db'.runs[r].status == RunStatus.Failed
            && (forall x :: x in db.runs && x != r ==> db'.runs[x] == db.runs[x])
  {
  }

  /** What a run of p never does: it leaves other portfolios and their runs alone,
      writes no file but its own, and a file it removes is the snapshot of a row
      of p that it deletes. */
  lemma RunTouches(db: Db, files: set<Path>, p: PortfolioId, r: RunId, o: Outcomes)
    requires r in db.runs && db.runs[r].pid == p && db.runs[r].snapshot == None
    ensures var (db', files', _) := RunEffect(db, files, p, r, o);
            OthersKept(db, db', p) && FilesFollow(db, db', files, files', p, r)
  {
    FailTouches(db, db, files, files, p, r, o);
    MarkRunningOwn(db, p, r);
    ExecuteTouches(db, MarkRunning(db, p, r), files, p, r, o);
  }

  lemma ExecuteTouches(db: Db, d: Db, files: set<Path>, p: PortfolioId, r: RunId, o: Outcomes)
    requires OnlyOwn(db, d, p, r)
    ensures var (db', files', _) := ExecuteEffect(d, files, p, r, o);
            OthersKept(db, db', p) && FilesFollow(db, db', files, files', p, r)
  {
    var written := files + {Path(p, r)};
    FailTouches(db, d, files, files, p, r, o);
    FailTouches(db, d, files, written, p, r, o);
    MarkReadyOwn(db, d, p, r);
    EndTouches(db, MarkReady(d, p, r, Path(p, r)), files, written, p, r, o);
  }

  lemma MarkRunningOwn(db: Db, p: PortfolioId, r: RunId)
    requires r in db.runs && db.runs[r].pid == p && db.runs[r].snapshot == None
    ensures OnlyOwn(db, MarkRunning(db, p, r), p, r)
  {
  }

  lemma MarkReadyOwn(db: Db, d: Db, p: PortfolioId, r: RunId)
    requires OnlyOwn(db, d, p, r)
    ensures OnlyOwn(db, MarkReady(d, p, r, Path(p, r)), p, r)
  {
  }

  lemma MarkFailedOwn(db: Db, d: Db, p: PortfolioId, r: RunId)
    requires OnlyOwn(db, d, p, r)
    ensures OnlyOwn(db, MarkFailed(d, p, r), p, r)
  {
  }

  lemma FailTouches(db: Db, d: Db, files: set<Path>, written: set<Path>, p: PortfolioId, r: RunId, o: Outcomes)
    requires OnlyOwn(db, d, p, r)
    requires written == files || written == files + {Path(p, r)}
    ensures var (db', files', _) := FailEffect(d, written, p, r, o);
            OthersKept(db, db', p) && FilesFollow(db, db', files, files', p, r)
  {
    MarkFailedOwn(db, d, p, r);
    EndTouches(db, if o.marksFailed then MarkFailed(d, p, r) else d, files, written, p, r, o);
  }

  /** Portfolios other than p and their runs are as before. */
  ghost predicate OthersKept(db: Db, db': Db, p: PortfolioId) {
    && (forall q :: q in db.portfolios && q != p ==> q in db'.portfolios && db'.portfolios[q] == db.portfolios[q])
    && (forall x :: x in db.runs && db.runs[x].pid != p ==> x in db'.runs && db'.runs[x] == db.runs[x])
  }

  ghost predicate FilesFollow(db: Db, db': Db, files: set<Path>, files': set<Path>, p: PortfolioId, r: RunId) {
    && (forall f :: f in files' && f !in files ==> f == Path(p, r))
    && (forall f :: f in files && f !in files' ==> DeletedWith(db, db', p, f) || f == Path(p, r))
  }

  /** Only row r and the portfolio p differ, and r names no snapshot but its own. */
  ghost predicate OnlyOwn(db: Db, d: Db, p: PortfolioId, r: RunId) {
    && OthersKept(db, d, p) && d.runs.Keys == db.runs.Keys
    && (forall x :: x in db.runs && x != r ==> d.runs[x] == db.runs[x])
    && r in d.runs && d.runs[r].pid == p && (d.runs[r].snapshot.Some? ==> d.runs[r].snapshot.value == Path(p, r))
  }

  lemma EndTouches(db: Db, d: Db, files: set<Path>, written: set<Path>, p: PortfolioId, r: RunId, o: Outcomes)
    requires OnlyOwn(db, d, p, r) && (written == files || written == files + {Path(p, r)})
    ensures var (db', files') := PruneEffect(d, written, p, o);
            OthersKept(db, db', p) && FilesFollow(db, db', files, files', p, r)
  {
    var (db', files') := PruneEffect(d, written, p, o);
    PruneTouches(d, written, p, o);
    forall f | f in files && f !in files'
      ensures DeletedWith(db, db', p, f) || f == Path(p, r)
    {
      var x :| x in d.runs && x !in db'.runs && d.runs[x].pid == p && d.runs[x].snapshot == Some(f);
      assert x != r ==> d.runs[x] == db.runs[x];
    }
  }

  /** The snapshot f of a row of p that is in the tables before and not after. */
  ghost predicate DeletedWith(db: Db, db': Db, p: PortfolioId, f: Path) {
    exists x :: x in db.runs && x !in db'.runs && db.runs[x].pid == p && db.runs[x].snapshot == Some(f)
  }

  /** Apart from removals that fail, a prune removes the files of the rows it deletes. */
  lemma PruneTouches(db: Db, files: set<Path>, p: PortfolioId, o: Outcomes)
    ensures var (db', files') := PruneEffect(db, files, p, o);
            && db'.portfolios == db.portfolios
            && (forall x :: x in db'.runs ==> x in db.runs && db'.runs[x] == db.runs[x])
            && (forall x :: x in db.runs && db.runs[x].pid != p ==> x in db'.runs)
            && (forall f :: f in files' <==> f in files && (DeletedWith(db, db', p, f) ==> f in o.stay))
  {
    if o.prunes && p in db.portfolios {
      forall f
        ensures f in PrunedPaths(db, p) <==> DeletedWith(db, RunDb.PruneRuns(db, p), p, f)
      {
      }
    }
  }

  lemma NotRunning(db: Db, p: PortfolioId, r: RunId)
    requires DbInv(db) && p in db.portfolios && r in db.runs && db.runs[r].pid == p && db.runs[r].status.Queued?
    ensures !db.portfolios[p].status.Running?
  {
    assert forall x :: x in db.runs && db.runs[x].pid == p ==> x <= r;
  }

  class Orchestrator {
    const store: Store
    var dirs: set<PortfolioId>
    var files: set<Path>

    constructor (store: Store)
      ensures this.store == store && dirs == {} && files == {}
    {
      this.store := store;
      dirs, files := {}, {};
    }

    /** Prunes the rows, then removes the files of the pruned rows one by one. An
        error of either is logged and otherwise ignored. */
    method Prune(p: PortfolioId, o: Outcomes)
      modifies this, store
      ensures var (db, fs) := PruneEffect(old(store.Tables()), old(files), p, o);
              store.Tables() == db && files == fs && dirs == old(dirs)
    {
      if !o.prunes {
        return;
      }
      var paths := store.PruneRuns(p);
      if paths.None? {
        return;
      }
      for i := 0 to |paths.value|
        invariant store.Tables() == RunDb.PruneRuns(old(store.Tables()), p)
        invariant files == old(files) - ((set f | f in paths.value[..i]) - o.stay) && dirs == old(dirs)
      {
        if paths.value[i] !in o.stay {
          files := files - {paths.value[i]};
        }
        assert paths.value[..i + 1] == paths.value[..i] + [paths.value[i]];
      }
      assert paths.value[..|paths.value|] == paths.value;
    }

    /** The error of MarkFailedTx is ignored. */
    method Fail(p: PortfolioId, r: RunId, o: Outcomes)
      modifies this, store
      ensures var (db, fs, _) := FailEffect(old(store.Tables()), old(files), p, r, o);
              store.Tables() == db && files == fs && dirs == old(dirs)
    {
      if o.marksFailed {
        store.MarkFailedTx(p, r);
      }
      Prune(p, o);
    }

    method Run(p: PortfolioId, r: RunId, o: Outcomes) returns (res: RunResult)
      modifies this, store
      ensures var (db, fs, result) := RunEffect(old(store.Tables()), old(files), p, r, o);
              store.Tables() == db && files == fs && res == result
      ensures dirs == old(dirs) || dirs == old(dirs) + {p}
    {
      if !o.loads || p !in store.portfolios {
        Fail(p, r, o);
        return Errored;
      }
      if store.portfolios[p].status.Running? {
        if o.marksFailed {
          store.UpdateRunFailed(r);
        }
        return AlreadyRunning;
      }
      if !o.marksRunning {
        Fail(p, r, o);
        return Errored;
      }
      store.MarkRunningTx(p, r);
      if !o.resolves || !o.mkdirs {
        Fail(p, r, o);
        return Errored;
      }
      dirs := dirs + {p};
      if !o.runs {
        Fail(p, r, o);
        return Errored;
      }
      files := files + {Path(p, r)};
      if !o.kpis || !o.marksReady {
        Fail(p, r, o);
        return Errored;
      }
      store.MarkReadyTx(p, r, Path(p, r));
      Prune(p, o);
      return Succeeded;
    }

    /** One candidate per directory and one per snapshot file, found by reading
        every portfolio directory. */
    method CollectOrphanCandidates() returns (found: seq<Candidate>)
      ensures Distinct(found)
      ensures forall c :: c in found <==> OnDisk(dirs, files, c)
      ensures forall p :: WholeDir(p) in found <==> p in dirs
      ensures forall f :: SnapshotFile(f) in found <==> f in files && f.pid in dirs
    {
      found := [];
      var todo := dirs;
      while todo != {}
        invariant todo <= dirs && Distinct(found)
        invariant forall c :: c in found <==> OnDisk(dirs - todo, files, c)
        decreases |todo|
      {
        var p :| p in todo;
        assert WholeDir(p) !in found;
        todo := todo - {p};
        found := found + [WholeDir(p)];
        var unread := set f | f in files && f.pid == p;
        while unread != {}
          invariant unread <= (set f | f in files && f.pid == p) && Distinct(found)
          invariant forall c :: c in found <==>
                      OnDisk(dirs - todo, files, c) && !(c.SnapshotFile? && c.path in unread)
          decreases |unread|
        {
          var f :| f in unread;
          assert SnapshotFile(f) !in found;
          unread := unread - {f};
          found := found + [SnapshotFile(f)];
        }
      }
    }

    /** Undisturbed, the sweep takes away the directories of portfolios without a
        row and the files of runs without one, apart from what could not be
        removed, and counts its successful removals. A file is gone exactly when
        its own removal or that of its directory took it. */
    method SweepOrphans(failing: set<Candidate>, part: set<Path>) returns (removed: nat)
      modifies this
      ensures Swept(Reaper(store.portfolios.Keys, store.runs.Keys, failing, part), old(dirs), old(files), dirs, files,
                    removed)
    {
      var found := CollectOrphanCandidates();
      var k := Reaper(store.portfolios.Keys, store.runs.Keys, failing, part);
      removed := 0;
      for i := 0 to |found|
        invariant removed == SuccessCount(found[..i], k)
        invariant dirs == DirsLeft(old(dirs), found[..i], k)
        invariant files == FilesLeft(old(files), found[..i], k)
      {
        var c := found[i];
        ReapNext(old(dirs), old(files), found, i, k);
        match c {
          case WholeDir(p) =>
            if p !in k.portfolios {
              files := set f | f in files && !(f.pid == p && (c !in failing || f in part));
              if c !in failing {
                dirs := dirs - {p};
                removed := removed + 1;
              }
            }
          case SnapshotFile(f) =>
            if f.rid !in k.runs && c !in failing {
              files := files - {f};
              removed := removed + 1;
            }
        }
      }
      assert found[..|found|] == found;
      SweepMeans(found, old(dirs), old(files), k);
    }
  }

  /** The file stays: its portfolio has a row, or its directory could not be removed
      and the attempt did not take it; and its run has a row, or it could not be removed. */
  ghost predicate Spared(k: Reaper, f: Path) {
    && (f.pid in k.portfolios || (WholeDir(f.pid) in k.failing && f !in k.part))
    && (f.rid in k.runs || SnapshotFile(f) in k.failing)
  }

  /** The directories of portfolios and the files of runs that have no row,
      without those whose removal fails. */
  ghost function Removals(k: Reaper, dirs: set<PortfolioId>, files: set<Path>): set<Candidate> {
    (set p | p in dirs && p !in k.portfolios && WholeDir(p) !in k.failing :: WholeDir(p))
    + (set f | f in files && f.pid in dirs && f.rid !in k.runs && SnapshotFile(f) !in k.failing :: SnapshotFile(f))
  }

  /** What is left, and how much was removed. */
  ghost predicate Swept(k: Reaper, dirs: set<PortfolioId>, files: set<Path>, dirs': set<PortfolioId>,
                        files': set<Path>, removed: nat) {
    && (forall p :: p in dirs' <==> p in dirs && (p in k.portfolios || WholeDir(p) in k.failing))
    && (forall f :: f in files' <==> f in files && (f.pid in dirs ==> Spared(k, f)))
    && removed == |Removals(k, dirs, files)|
  }

  lemma SweepMeans(found: seq<Candidate>, dirs: set<PortfolioId>, files: set<Path>, k: Reaper)
    requires Distinct(found) && forall c :: c in found <==> OnDisk(dirs, files, c)
    ensures Swept(k, dirs, files, DirsLeft(dirs, found, k), FilesLeft(files, found, k), SuccessCount(found, k))
  {
    ReapedAll(dirs, files, found, k);
    CountIsRemovals(found, dirs, files, k);
  }

  /** When every removal succeeds. */
  lemma CleanSweep(k: Reaper, dirs: set<PortfolioId>, files: set<Path>, dirs': set<PortfolioId>, files': set<Path>,
                   removed: nat)
    requires Swept(k, dirs, files, dirs', files', removed) && k.failing == {}
    ensures dirs' == dirs * k.portfolios
    ensures files' == set f | f in files && (f.pid in dirs ==> f.pid in k.portfolios && f.rid in k.runs)
  {
  }

  lemma CountIsRemovals(found: seq<Candidate>, dirs: set<PortfolioId>, files: set<Path>, k: Reaper)
    requires Distinct(found) && forall c :: c in found <==> OnDisk(dirs, files, c)
    ensures SuccessCount(found, k) == |Removals(k, dirs, files)|
  {
    CountsEach(found, k);
    assert (set c | c in found && Succeeds(k, c)) == Removals(k, dirs, files);
  }

  lemma {:induction false} CountsEach(cs: seq<Candidate>, k: Reaper)
    requires Distinct(cs)
    ensures SuccessCount(cs, k) == |set c | c in cs && Succeeds(k, c)|
  {
    if cs != [] {
      var n := |cs| - 1;
      CountsEach(cs[..n], k);
      OneMoreCounted(cs, n, k);
    }
  }

  lemma OneMoreCounted(cs: seq<Candidate>, n: nat, k: Reaper)
    requires Distinct(cs) && n == |cs| - 1
    ensures |set c | c in cs && Succeeds(k, c)|
            == |set c | c in cs[..n] && Succeeds(k, c)| + if Succeeds(k, cs[n]) then 1 else 0
  {
    assert cs == cs[..n] + [cs[n]] && cs[n] !in cs[..n];
    var before, all := set c | c in cs[..n] && Succeeds(k, c), set c | c in cs && Succeeds(k, c);
    assert all == if Succeeds(k, cs[n]) then before + {cs[n]} else before;
  }

  /** The answers of the two queries, the candidates whose removal fails, and the
      files that a failing RemoveAll takes nevertheless. */
  datatype Reaper = Reaper(portfolios: set<PortfolioId>, runs: set<RunId>, failing: set<Candidate>, part: set<Path>)

  predicate Dead(k: Reaper, c: Candidate) {
    match c
    case WholeDir(p) => p !in k.portfolios
    case SnapshotFile(f) => f.rid !in k.runs
  }

  predicate Succeeds(k: Reaper, c: Candidate) {
    Dead(k, c) && c !in k.failing
  }

  /** Candidate c takes file f away. */
  predicate Takes(k: Reaper, c: Candidate, f: Path) {
    match c
    case WholeDir(p) => f.pid == p && p !in k.portfolios && (c !in k.failing || f in k.part)
    case SnapshotFile(g) => f == g && Succeeds(k, c)
  }

  /** Its directory or its own candidate takes f away. */
  predicate Doomed(k: Reaper, f: Path) {
    Takes(k, WholeDir(f.pid), f) || Takes(k, SnapshotFile(f), f)
  }

  function SuccessCount(cs: seq<Candidate>, k: Reaper): nat {
    if cs == [] then 0
    else SuccessCount(cs[..|cs| - 1], k) + (if Succeeds(k, cs[|cs| - 1]) then 1 else 0)
  }

  function DirsLeft(dirs: set<PortfolioId>, cs: seq<Candidate>, k: Reaper): set<PortfolioId> {
    set p | p in dirs && !(WholeDir(p) in cs && Succeeds(k, WholeDir(p)))
  }

  predicate Reaped(cs: seq<Candidate>, k: Reaper, f: Path) {
    exists c :: c in cs && Takes(k, c, f)
  }

  function FilesLeft(files: set<Path>, cs: seq<Candidate>, k: Reaper): set<Path> {
    set f | f in files && !Reaped(cs, k, f)
  }

  /** What one more candidate takes away. */
  lemma ReapNext(dirs: set<PortfolioId>, files: set<Path>, cs: seq<Candidate>, i: nat, k: Reaper)
    requires i < |cs|
    ensures FilesLeft(files, cs[..i + 1], k) == set f | f in FilesLeft(files, cs[..i], k) && !Takes(k, cs[i], f)
    ensures DirsLeft(dirs, cs[..i + 1], k)
            == DirsLeft(dirs, cs[..i], k) - (if cs[i].WholeDir? && Succeeds(k, cs[i]) then {cs[i].pid} else {})
    ensures SuccessCount(cs[..i + 1], k) == SuccessCount(cs[..i], k) + (if Succeeds(k, cs[i]) then 1 else 0)
  {
    assert cs[..i + 1] == cs[..i] + [cs[i]];
    assert cs[..i + 1][..i] == cs[..i];
    forall f
      ensures Reaped(cs[..i + 1], k, f) <==> Reaped(cs[..i], k, f) || Takes(k, cs[i], f)
    {
      assert cs[i] in cs[..i + 1];
    }
  }

  lemma ReapedAll(dirs: set<PortfolioId>, files: set<Path>, cs: seq<Candidate>, k: Reaper)
    requires forall c :: c in cs <==> OnDisk(dirs, files, c)
    ensures DirsLeft(dirs, cs, k) == set p | p in dirs && !Succeeds(k, WholeDir(p))
    ensures FilesLeft(files, cs, k) == set f | f in files && !(f.pid in dirs && Doomed(k, f))
  {
    forall f | f in files
      ensures Reaped(cs, k, f) <==> f.pid in dirs && Doomed(k, f)
    {
      if f.pid in dirs {
        assert WholeDir(f.pid) in cs && SnapshotFile(f) in cs;
      }
    }
  }

  predicate OnDisk(dirs: set<PortfolioId>, files: set<Path>, c: Candidate) {
    match c
    case WholeDir(p) => p in dirs
    case SnapshotFile(f) => f in files && f.pid in dirs
  }
}
