/** What the scheduler can rely on across an execution: a run it submitted keeps
    its portfolio from being claimed again that day, unless the run never
    started. And what happens when runs never start. */
module ScheduledClaims {
  import opened RunDb
  import opened RunProtocol
  import opened RunOwnership
  import opened DailySchedule
  import opened RunTheorems

  // ------------------------------------------------------------ start stamps

  /** A row changes neither portfolio nor trigger, and a new stamp is of today or later. */
  ghost predicate RowLater(db: Db, row: RunRow, row': RunRow) {
    && row'.pid == row.pid && row'.trigger == row.trigger
    && (row'.startedAt == row.startedAt || NotBefore(db, row'))
  }

  predicate NotBefore(db: Db, row: RunRow) {
    row.startedAt.Some? ==> db.now.day <= row.startedAt.value.day
  }

  /** db' comes after db: time moves forward, ids are not reused, and every stamp
      that is new was taken in between. */
  ghost predicate Later(db: Db, db': Db) {
    && db.now.day <= db'.now.day && db.now.time <= db'.now.time && db.nextRun <= db'.nextRun
    && (forall r :: r in db'.runs ==>
          if r in db.runs then RowLater(db, db.runs[r], db'.runs[r])
          else r >= db.nextRun && NotBefore(db, db'.runs[r]))
  }

  lemma LaterTransitive(a: Db, b: Db, c: Db)
    requires Later(a, b) && Later(b, c) && IdsBounded(a)
    ensures Later(a, c)
  {
  }

  lemma TableLater(s: Sys, s': Sys, step: Step)
    requires NextStep(s, s', step) && (IsTableStep(step) || step.CrashS? || step.RestartS?)
    ensures Later(s.db, s'.db)
  {
  }

  lemma SubmissionLater(s: Sys, s': Sys, step: Step)
    requires IdsBounded(s.db) && NextStep(s, s', step) && IsSubmission(step)
    ensures Later(s.db, s'.db)
  {
    match step {
      case SubmitS(i, p) => CreateLater(s.db, p, Manual);
      case SubmitClaimedS(i) =>
        if CreateRun(s.db, s.claimed[0], Scheduled).Ok? {
          CreateLater(s.db, s.claimed[0], Scheduled);
        }
      case RejectS(i, ok) =>
      case OfferS(i) =>
      case TakeS(w) =>
    }
  }

  lemma CreateLater(db: Db, p: PortfolioId, trigger: Trigger)
    requires IdsBounded(db) && CreateRun(db, p, trigger).Ok?
    ensures Later(db, CreateRun(db, p, trigger).value.0)
  {
  }

  lemma WriteLater(s: Sys, s': Sys, step: Step)
    requires NextStep(s, s', step) && IsWorkerWrite(step)
    ensures Later(s.db, s'.db)
  {
    var t := s.procs[Worker(step.w)].task;
    MarkLater(s.db, t.pid, t.rid);
    PruneLater(s.db, t.pid);
  }

  lemma MarkLater(db: Db, p: PortfolioId, r: RunId)
    ensures Later(db, db) && Later(db, MarkRunning(db, p, r)) && Later(db, MarkFailed(db, p, r))
    ensures Later(db, MarkReady(db, p, r, Path(p, r)))
  {
  }

  lemma PruneLater(db: Db, p: PortfolioId)
    ensures Later(db, PruneRuns(db, p))
  {
  }

  lemma StepLater(s: Sys, s': Sys)
    requires RunInv(s) && Next(s, s')
    ensures Later(s.db, s'.db)
  {
    var step :| NextStep(s, s', step);
    if IsTableStep(step) || step.CrashS? || step.RestartS? {
      TableLater(s, s', step);
    } else if IsSubmission(step) {
      SubmissionLater(s, s', step);
    } else if IsWorkerMove(step) {
      MoveKeepsTables(s, s', step);
    } else if IsWorkerWrite(step) {
      WriteLater(s, s', step);
    } else if step.DuplicateS? {
      StepKeeps(s, s', step);
    } else if IsSweepStep(step) {
      SweepIsBystander(s, s', step);
    }
  }

  lemma NextLater(run: seq<Sys>, i: nat)
    requires IsRun(run) && i + 1 < |run|
    ensures Later(run[i].db, run[i + 1].db)
  {
    Reachable(run, i);
    assert NextIn(run, i);
    StepLater(run[i], run[i + 1]);
  }

  /** Between any two states of an execution. */
  lemma {:induction false} AlwaysLater(run: seq<Sys>, i: nat, j: nat)
    requires IsRun(run) && i <= j < |run|
    ensures Later(run[i].db, run[j].db)
    decreases j
  {
    if i < j {
      AlwaysLater(run, i, j - 1);
      NextLater(run, j - 1);
      StampsKnown(run, i);
      LaterTransitive(run[i].db, run[j - 1].db, run[j].db);
    }
  }

  // ------------------------------------------------------ once claimed today

  /** Run r is of no further use to the scheduler: its row is gone, or it ended
      without having started. */
  ghost predicate Wasted(db: Db, r: RunId) {
    r in db.runs ==> !InFlight(db.runs[r]) && db.runs[r].startedAt.None?
  }

  ghost predicate WaitsAt(db: Db, r: RunId, p: PortfolioId) {
    r in db.runs && db.runs[r].pid == p && db.runs[r].trigger.Scheduled? && db.runs[r].status.Queued?
  }

  /** In every execution: a portfolio with a scheduled run queued is not due again
      on that day, unless that run ended unstarted or its row was deleted. */
  lemma NotDueAgain(run: seq<Sys>, i: nat, j: nat, p: PortfolioId, r: RunId)
    requires IsRun(run) && i <= j < |run| && WaitsAt(run[i].db, r, p)
    requires run[j].db.now.day == run[i].db.now.day && Due(run[j].db, p)
    ensures Wasted(run[j].db, r)
  {
    QueuedUnstarted(run, i, r);
    AlwaysLater(run, i, j);
    StampsKnown(run, j);
    NotDue(run[i].db, run[j].db, p, r);
  }

  lemma QueuedUnstarted(run: seq<Sys>, i: nat, r: RunId)
    requires IsRun(run) && i < |run| && r in run[i].db.runs
    ensures run[i].db.runs[r].status.Queued? ==> run[i].db.runs[r].startedAt.None?
  {
    Reachable(run, i);
  }

  lemma NotDue(db: Db, db': Db, p: PortfolioId, r: RunId)
    requires Later(db, db') && WaitsAt(db, r, p) && db.runs[r].startedAt.None?
    requires db'.now.day == db.now.day && Due(db', p) && StartsKnown(db')
    ensures Wasted(db', r)
  {
  }

  /** Once wasted, always wasted. */
  lemma WastedForever(run: seq<Sys>, i: nat, j: nat, r: RunId)
    requires IsRun(run) && i <= j < |run| && Wasted(run[i].db, r) && r < run[i].db.nextRun
    ensures Wasted(run[j].db, r)
  {
    TerminalForever(run, i, j);
  }

  /** A portfolio that is open-ended, ready or failed, and has nothing in flight. */
  predicate Idle(db: Db, p: PortfolioId) {
    && p in db.portfolios && db.portfolios[p].openEnded && !HasInFlight(db, p)
    && (db.portfolios[p].status.Ready? || db.portfolios[p].status.Failed?)
  }

  /** x is a surviving scheduled run of p that was created since db. */
  ghost predicate ScheduledSince(db: Db, db': Db, p: PortfolioId, x: RunId) {
    x in db'.runs && db'.runs[x].pid == p && db'.runs[x].trigger.Scheduled? && x >= db.nextRun
  }

  /** When an idle portfolio can be claimed again on the day of a claim: exactly
      when every scheduled run created since then, and not deleted, ended
      without having started. */
  lemma ClaimableAgainIff(run: seq<Sys>, i: nat, j: nat, p: PortfolioId)
    requires IsRun(run) && i <= j < |run| && Due(run[i].db, p)
    requires run[j].db.now.day == run[i].db.now.day && Idle(run[j].db, p)
    ensures Due(run[j].db, p) <==> forall x :: ScheduledSince(run[i].db, run[j].db, p, x) ==> Wasted(run[j].db, x)
  {
    AlwaysLater(run, i, j);
    StampsKnown(run, i);
    StampsKnown(run, j);
    TerminalForever(run, i, j);
    DueAgainIff(run[i].db, run[j].db, p);
  }

  lemma StampsKnown(run: seq<Sys>, i: nat)
    requires IsRun(run) && i < |run|
    ensures StartsKnown(run[i].db) && IdsBounded(run[i].db)
  {
    Reachable(run, i);
  }

  lemma DueAgainIff(db: Db, db': Db, p: PortfolioId)
    requires Later(db, db') && Due(db, p) && StartsKnown(db') && IdsBounded(db) && TerminalKept(db, db')
    requires db'.now.day == db.now.day && Idle(db', p)
    ensures Due(db', p) <==> forall x :: ScheduledSince(db, db', p, x) ==> Wasted(db', x)
  {
    forall x | x in db'.runs && db'.runs[x].pid == p && db'.runs[x].trigger.Scheduled?
      ensures RanToday(db', db'.runs[x]) <==> ScheduledSince(db, db', p, x) && !Wasted(db', x)
    {
      assert x in db.runs ==> !InFlight(db.runs[x]) && !RanToday(db, db.runs[x]);
    }
  }
}
