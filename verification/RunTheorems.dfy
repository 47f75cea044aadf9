/** What holds in every state of every execution of the backtest protocol. */
module RunTheorems {
  import opened Prelude
  import opened RunDb
  import opened RunProtocol
  import opened RunOwnership
  import opened RunHistory
  import opened SnapshotSafety
  import opened DailySchedule

  ghost predicate Inv(s: Sys) {
    RunInv(s) && HistInv(s) && FileInv(s) && DayInv(s)
  }

  lemma InitInv(s: Sys)
    requires Init(s)
    ensures Inv(s)
  {
  }

  lemma NextInv(s: Sys, s': Sys)
    requires Inv(s) && Next(s, s')
    ensures Inv(s')
  {
    var step :| NextStep(s, s', step);
    StepKeeps(s, s', step);
    StepLogged(s, s', step);
    StepSafe(s, s', step);
    StepDaily(s, s', step);
  }

  lemma {:induction false} Reachable(run: seq<Sys>, i: nat)
    requires IsRun(run) && i < |run|
    ensures Inv(run[i])
  {
    if i == 0 {
      InitInv(run[0]);
    } else {
      Reachable(run, i - 1);
      assert NextIn(run, i - 1);
      NextInv(run[i - 1], run[i]);
    }
  }

  ghost predicate AtMostOneInFlight(db: Db) {
    forall r, x | r in db.runs && x in db.runs && InFlight(db.runs[r]) && InFlight(db.runs[x]) && r != x ::
      db.runs[r].pid != db.runs[x].pid
  }

  /** A portfolio has at most one queued or running run; a portfolio marked
      running has one that is running; and a worker that has taken a task never
      finds its portfolio running, so the "already running" branch is dead. */
  lemma OneInFlight(run: seq<Sys>, i: nat)
    requires IsRun(run) && i < |run|
    ensures AtMostOneInFlight(run[i].db)
    ensures forall p :: p in run[i].db.portfolios && run[i].db.portfolios[p].status.Running? ==>
              HasRunningRun(run[i].db, p)
    ensures forall w: nat ::
              At(run[i], Worker(w), Taken) && run[i].procs[Worker(w)].task.pid in run[i].db.portfolios ==>
              !run[i].db.portfolios[run[i].procs[Worker(w)].task.pid].status.Running?
    ensures forall l :: l in run[i].procs ==> !run[i].procs[l].pc.Duplicate?
  {
    var s := run[i];
    Reachable(run, i);
    forall w: nat | At(s, Worker(w), Taken)
      ensures s.procs[Worker(w)].task.pid in s.db.portfolios ==>
                !s.db.portfolios[s.procs[Worker(w)].task.pid].status.Running?
    {
      GuardSilent(s, w);
    }
  }

  // ------------------------------------------------------------ the dispatcher

  /** Every in-flight row is held by exactly one submitter, channel slot or
      worker, or the write that should have settled it was lost; never both. */
  lemma OneOwner(run: seq<Sys>, i: nat, r: RunId)
    requires IsRun(run) && i < |run| && r in run[i].db.runs && InFlight(run[i].db.runs[r])
    ensures r in run[i].stuck || Held(run[i], r)
    ensures forall l, m :: HeldAt(run[i], l, r) && HeldAt(run[i], m, r) ==> l == m
    ensures r in run[i].stuck ==> forall l :: HeldAt(run[i], l, r) ==> Settled(run[i].procs[l].pc)
  {
    Reachable(run, i);
  }

  /** Every submitted run has exactly one fate: still pending, rejected, lost in
      a crash, or executed; and it was executed at most once. Runs that no
      worker saw have a failed row, or none, or one whose write was lost. */
  lemma ExactlyOnce(run: seq<Sys>, i: nat, r: RunId)
    requires IsRun(run) && i < |run| && r < run[i].db.nextRun
    ensures OnItsWay(run[i], r) || r in run[i].rejected || r in run[i].lost || r in run[i].executed
    ensures r in run[i].executed ==> r !in run[i].rejected && r !in run[i].lost && !OnItsWay(run[i], r)
    ensures r in run[i].rejected ==> r !in run[i].lost && !OnItsWay(run[i], r)
    ensures r in run[i].lost ==> !OnItsWay(run[i], r)
    ensures multiset(run[i].executed)[r] <= 1
    ensures r in run[i].rejected || r in run[i].lost ==> GivenUp(run[i], r)
  {
    var s := run[i];
    Reachable(run, i);
    assert Settles(s, r);
    DistinctCount(s.executed, r);
  }

  function HeldByWorkers(s: Sys, n: nat): set<RunId> {
    if n == 0 then {}
    else HeldByWorkers(s, n - 1) + (if Worker(n - 1) in s.procs then {s.procs[Worker(n - 1)].task.rid} else {})
  }

  lemma {:induction false} HeldByWorkersBound(s: Sys, n: nat)
    ensures |HeldByWorkers(s, n)| <= n
    ensures forall w: nat :: w < n && Worker(w) in s.procs ==> s.procs[Worker(w)].task.rid in HeldByWorkers(s, n)
  {
    if n > 0 {
      HeldByWorkersBound(s, n - 1);
    }
  }

  function Executing(s: Sys): set<RunId> {
    set r | r in s.db.runs && s.db.runs[r].status.Running? && r !in s.stuck
  }

  lemma ExecutingIsHeld(s: Sys, r: RunId)
    requires RunInv(s) && r in Executing(s)
    ensures exists w: nat :: w < s.maxConcurrency && Worker(w) in s.procs && s.procs[Worker(w)].task.rid == r
  {
    var l :| HeldAt(s, l, r);
    assert RowMatches(s.db, s.stuck, s.procs[l]);
    assert l == Worker(l.index);
  }

  /** At most MaxConcurrency runs are executing: the running rows, apart from
      those whose final write was lost, fit in the worker pool. The channel
      never holds more than its capacity. */
  lemma PoolBound(run: seq<Sys>, i: nat)
    requires IsRun(run) && i < |run|
    ensures |Executing(run[i])| <= run[i].maxConcurrency
    ensures run[i].tail - run[i].head <= 4 * run[i].maxConcurrency
  {
    var s := run[i];
    Reachable(run, i);
    HeldByWorkersBound(s, s.maxConcurrency);
    forall r | r in Executing(s)
      ensures r in HeldByWorkers(s, s.maxConcurrency)
    {
      ExecutingIsHeld(s, r);
    }
    SubsetCard(Executing(s), HeldByWorkers(s, s.maxConcurrency));
  }

  // ------------------------------------------------------- terminal statuses

  /** A finished run keeps its row, unchanged, until the row is deleted, and a
      deleted row never comes back. */
  ghost predicate TerminalKept(db: Db, db': Db) {
    && NoRevival(db, db')
    && (forall r :: r in db.runs && r in db'.runs && !InFlight(db.runs[r]) ==> db'.runs[r] == db.runs[r])
  }

  lemma TerminalTable(s: Sys, s': Sys, step: Step)
    requires RunInv(s) && NextStep(s, s', step)
    requires IsTableStep(step) || step.CrashS? || step.RestartS?
    ensures TerminalKept(s.db, s'.db)
  {
  }

  lemma TerminalSubmission(s: Sys, s': Sys, step: Step)
    requires RunInv(s) && NextStep(s, s', step) && IsSubmission(step)
    ensures TerminalKept(s.db, s'.db)
  {
    if step.RejectS? {
      TerminalReject(s, s', step.i, step.ok);
    }
  }

  lemma TerminalReject(s: Sys, s': Sys, i: nat, ok: bool)
    requires RunInv(s) && RejectStep(s, s', i, ok)
    ensures TerminalKept(s.db, s'.db)
  {
    assert RowMatches(s.db, s.stuck, s.procs[Submitter(i)]);
  }

  lemma TerminalWrite(s: Sys, s': Sys, step: Step)
    requires RunInv(s) && NextStep(s, s', step) && IsWorkerWrite(step)
    ensures TerminalKept(s.db, s'.db)
  {
    var t := s.procs[Worker(step.w)].task;
    assert RowMatches(s.db, s.stuck, s.procs[Worker(step.w)]);
    TerminalPrune(s.db, t.pid);
    if !step.PruneS? {
      TerminalMarks(s.db, t.pid, t.rid);
    }
  }

  lemma TerminalMarks(db: Db, p: PortfolioId, r: RunId)
    requires r in db.runs ==> InFlight(db.runs[r])
    ensures TerminalKept(db, MarkRunning(db, p, r)) && TerminalKept(db, MarkFailed(db, p, r))
    ensures TerminalKept(db, MarkReady(db, p, r, Path(p, r)))
  {
  }

  lemma TerminalPrune(db: Db, p: PortfolioId)
    ensures TerminalKept(db, db) && TerminalKept(db, PruneRuns(db, p))
  {
  }


  lemma TerminalStep(s: Sys, s': Sys)
    requires RunInv(s) && Next(s, s')
    ensures TerminalKept(s.db, s'.db)
  {
    var step :| NextStep(s, s', step);
    if IsSubmission(step) {
      TerminalSubmission(s, s', step);
    } else if IsWorkerWrite(step) {
      TerminalWrite(s, s', step);
    } else if IsWorkerMove(step) {
      MoveKeepsTables(s, s', step);
    } else if IsTableStep(step) || step.CrashS? || step.RestartS? {
      TerminalTable(s, s', step);
    } else if step.DuplicateS? {
      StepKeeps(s, s', step);
    } else if IsSweepStep(step) {
      SweepIsBystander(s, s', step);
    }
  }

  /** Between any two states of an execution terminal rows do not change and
      deleted rows do not return. */
  lemma {:induction false} TerminalForever(run: seq<Sys>, i: nat, j: nat)
    requires IsRun(run) && i <= j < |run|
    ensures TerminalKept(run[i].db, run[j].db)
    decreases j - i
  {
    Reachable(run, i);
    if i < j {
      Reachable(run, i + 1);
      assert NextIn(run, i);
      TerminalStep(run[i], run[i + 1]);
      TerminalForever(run, i + 1, j);
    }
  }

  // ----------------------------------------------------------- snapshot files

  /** No step of any execution, whether it is the orphan sweep, the deletion that
      follows a prune or the one that follows a DELETE request, removes a snapshot file while both its run row and
      its portfolio row exist. */
  lemma RemovedFilesAreOrphans(run: seq<Sys>, i: nat, f: Path)
    requires IsRun(run) && i + 1 < |run|
    requires f in run[i].files && f !in run[i + 1].files
    ensures f.rid !in run[i].db.runs || f.pid !in run[i].db.portfolios
  {
    var s, s' := run[i], run[i + 1];
    Reachable(run, i);
    assert NextIn(run, i);
    var step :| NextStep(s, s', step);
    if step.ReapS? {
      ReapRemovesOrphans(s, s', step.gone, step.dirGone);
    } else if step.DeleteFileS? {
      var paths := s.procs[Worker(step.w)].pc.paths;
      assert paths[0] in paths;
    } else if !step.PurgeDirS? {
      FilesOnlyGrow(s, s', step);
    }
  }

  lemma FilesOnlyGrow(s: Sys, s': Sys, step: Step)
    requires NextStep(s, s', step) && !step.ReapS? && !step.DeleteFileS? && !step.PurgeDirS?
    ensures s.files <= s'.files
  {
  }

  /** Every successful run whose row survives has its snapshot on disk, and the
      active snapshot of a ready portfolio is there unless its row was pruned,
      at a moment when at least run_retention newer rows existed. */
  lemma SnapshotAvailable(run: seq<Sys>, i: nat)
    requires IsRun(run) && i < |run|
    ensures var s := run[i];
            forall r :: r in s.db.runs && s.db.runs[r].status.Success? ==>
              s.db.runs[r].snapshot == Some(Path(s.db.runs[r].pid, r)) && Path(s.db.runs[r].pid, r) in s.files
    ensures var s := run[i];
            forall p :: p in s.db.portfolios && s.db.portfolios[p].status.Ready? ==>
              && s.db.portfolios[p].snapshot.Some?
              && var f := s.db.portfolios[p].snapshot.value;
                 if f.rid in s.db.runs then f in s.files
                 else f.rid in s.evicted && s.evicted[f.rid].newer >= s.evicted[f.rid].retention >= 1
  {
    var s := run[i];
    Reachable(run, i);
    forall p | p in s.db.portfolios && s.db.portfolios[p].status.Ready?
      ensures && s.db.portfolios[p].snapshot.Some?
              && var f := s.db.portfolios[p].snapshot.value;
                 if f.rid in s.db.runs then f in s.files
                 else f.rid in s.evicted && s.evicted[f.rid].newer >= s.evicted[f.rid].retention >= 1
    {
      assert ActiveKnown(s, p);
      var f := s.db.portfolios[p].snapshot.value;
      if f.rid in s.db.runs {
        assert RowBacked(s, f.rid);
      }
    }
    forall r | r in s.db.runs && s.db.runs[r].status.Success?
      ensures s.db.runs[r].snapshot == Some(Path(s.db.runs[r].pid, r)) && Path(s.db.runs[r].pid, r) in s.files
    {
      assert RowBacked(s, r);
    }
  }

  // ------------------------------------------------------------ the scheduler

  /** Among the existing rows no two scheduled runs of a portfolio started on
      the same day, and what the scheduler has claimed but not yet submitted
      has no scheduled run in flight or started today. */
  lemma ScheduledOnceADay(run: seq<Sys>, i: nat)
    requires IsRun(run) && i < |run|
    ensures OncePerDay(run[i].db)
    ensures ClaimsFresh(run[i])
  {
    Reachable(run, i);
  }
}
