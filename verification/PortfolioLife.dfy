/** What an execution of the protocol does to one portfolio: a success shows as
    ready until something else happens to it, and an end date takes it out of
    the schedule for good. */
module PortfolioLife {
  import opened Prelude
  import opened RunDb
  import opened RunProtocol
  import opened RunOwnership
  import opened RunTheorems

  // ------------------------------------------------------------------- ready

  /** steps[i] takes the execution from run[i] to run[i + 1]. */
  ghost predicate Labelled(run: seq<Sys>, steps: seq<Step>) {
    IsRun(run) && |steps| == |run| - 1 && forall i: nat :: i < |steps| ==> LabelAt(run, steps, i)
  }

  ghost predicate LabelAt(run: seq<Sys>, steps: seq<Step>, i: nat) {
    i < |steps| && i + 1 < |run| && NextStep(run[i], run[i + 1], steps[i])
  }

  ghost predicate TaskOf(s: Sys, w: nat, p: PortfolioId) {
    Worker(w) in s.procs && s.procs[Worker(w)].task.pid == p
  }

  /** The step starts or fails a run of p, upgrades p or deletes it. */
  ghost predicate Disturbs(s: Sys, step: Step, p: PortfolioId) {
    || (step.MarkRunningS? && step.ok && TaskOf(s, step.w, p))
    || (step.MarkFailedS? && step.ok && TaskOf(s, step.w, p))
    || step == ApplyUpgradeS(p)
    || step == DeletePortfolioS(p)
  }

  /** MarkReadyTx of a run of p. */
  ghost predicate Completes(s: Sys, step: Step, p: PortfolioId) {
    step.MarkReadyS? && step.ok && TaskOf(s, step.w, p) && p in s.db.portfolios
  }

  /** The step leaves status of p alone, or sets it to that very status. */
  ghost predicate Leaves(s: Sys, step: Step, p: PortfolioId, status: PortfolioStatus) {
    !Disturbs(s, step, p) && (status.Ready? || !Completes(s, step, p))
  }

  ghost predicate HasStatus(db: Db, p: PortfolioId, status: PortfolioStatus) {
    p in db.portfolios && db.portfolios[p].status == status && !status.Running?
  }

  lemma TableStays(s: Sys, s': Sys, step: Step, p: PortfolioId, status: PortfolioStatus)
    requires NextStep(s, s', step) && (IsTableStep(step) || step.RestartS?)
    requires HasStatus(s.db, p, status) && IdsBounded(s.db) && Leaves(s, step, p, status)
    ensures HasStatus(s'.db, p, status)
  {
  }

  lemma WriteStays(s: Sys, s': Sys, step: Step, p: PortfolioId, status: PortfolioStatus)
    requires NextStep(s, s', step) && IsWorkerWrite(step) && HasStatus(s.db, p, status) && Leaves(s, step, p, status)
    ensures HasStatus(s'.db, p, status)
  {
  }

  lemma SubmissionStays(s: Sys, s': Sys, step: Step, p: PortfolioId, status: PortfolioStatus)
    requires NextStep(s, s', step) && IsSubmission(step) && HasStatus(s.db, p, status)
    ensures HasStatus(s'.db, p, status)
  {
  }

  lemma StatusStays(s: Sys, s': Sys, step: Step, p: PortfolioId, status: PortfolioStatus)
    requires RunInv(s) && NextStep(s, s', step) && HasStatus(s.db, p, status) && Leaves(s, step, p, status)
    ensures HasStatus(s'.db, p, status)
  {
    if IsTableStep(step) || step.RestartS? {
      TableStays(s, s', step, p, status);
    } else if IsWorkerWrite(step) {
      WriteStays(s, s', step, p, status);
    } else if IsSubmission(step) {
      SubmissionStays(s, s', step, p, status);
    } else if IsWorkerMove(step) {
      MoveKeepsTables(s, s', step);
    } else if IsSweepStep(step) {
      SweepIsBystander(s, s', step);
    } else if step.DuplicateS? {
      StepKeeps(s, s', step);
    }
  }

  /** From state i to state j no step touches the status. */
  lemma {:induction false} StatusThroughout(run: seq<Sys>, steps: seq<Step>, i: nat, j: nat, p: PortfolioId,
                                            status: PortfolioStatus)
    requires Labelled(run, steps) && i <= j < |run| && HasStatus(run[i].db, p, status)
    requires forall n: nat :: i <= n < j ==> Leaves(run[n], steps[n], p, status)
    ensures HasStatus(run[j].db, p, status)
    decreases j
  {
    if i < j {
      StatusThroughout(run, steps, i, j - 1, p, status);
      StatusNext(run, steps, j - 1, p, status);
    }
  }

  lemma StatusNext(run: seq<Sys>, steps: seq<Step>, n: nat, p: PortfolioId, status: PortfolioStatus)
    requires Labelled(run, steps) && n + 1 < |run| && HasStatus(run[n].db, p, status)
    requires Leaves(run[n], steps[n], p, status)
    ensures HasStatus(run[n + 1].db, p, status)
  {
    Reachable(run, n);
    assert LabelAt(run, steps, n);
    StatusStays(run[n], run[n + 1], steps[n], p, status);
  }

  /** The completion itself: the portfolio is ready, its snapshot is the run's, and
      its last run is now. */
  lemma CompletionShows(s: Sys, s': Sys, w: nat, p: PortfolioId)
    requires MarkReadyStep(s, s', w, true) && TaskOf(s, w, p) && p in s.db.portfolios
    ensures p in s'.db.portfolios
    ensures s'.db.portfolios[p].status == PortfolioStatus.Ready
    ensures s'.db.portfolios[p].snapshot == Some(Path(p, s.procs[Worker(w)].task.rid))
    ensures s'.db.portfolios[p].lastRunAt == Some(s.db.now)
  {
  }

  /** The start of a run: row and portfolio are running, since now, and the clock
      moves on within the day. */
  lemma StartShows(s: Sys, s': Sys, w: nat, p: PortfolioId)
    requires MarkRunningStep(s, s', w, true) && TaskOf(s, w, p) && p in s.db.portfolios
    ensures p in s'.db.portfolios && s'.db.portfolios[p].status == PortfolioStatus.Running
    ensures var r := s.procs[Worker(w)].task.rid;
            r in s.db.runs ==>
              && r in s'.db.runs && s'.db.runs[r].status == RunStatus.Running
              && s'.db.runs[r].startedAt == Some(s.db.now)
    ensures s'.db.now.time > s.db.now.time && s'.db.now.day == s.db.now.day
  {
  }

  /** In every execution a portfolio whose run completed is ready from then on,
      until a run of it is started or fails, or it is upgraded or deleted. */
  lemma ReadyAfterSuccess(run: seq<Sys>, steps: seq<Step>, i: nat, j: nat, p: PortfolioId)
    requires Labelled(run, steps) && i < j < |run| && Completes(run[i], steps[i], p)
    requires forall n: nat :: i < n < j ==> !Disturbs(run[n], steps[n], p)
    ensures p in run[j].db.portfolios && run[j].db.portfolios[p].status == PortfolioStatus.Ready
  {
    assert LabelAt(run, steps, i);
    CompletionShows(run[i], run[i + 1], steps[i].w, p);
    StatusThroughout(run, steps, i + 1, j, p, Ready);
  }

  /** In every execution: the scheduler does not claim a portfolio that was
      upgraded, until a run of it settles. */
  lemma UpgradeAwaitsRun(run: seq<Sys>, steps: seq<Step>, i: nat, j: nat, p: PortfolioId)
    requires Labelled(run, steps) && i < j < |run| - 1 && steps[i] == ApplyUpgradeS(p) && p in run[i].db.portfolios
    requires forall n: nat :: i < n < j ==>
               !Disturbs(run[n], steps[n], p) && !Completes(run[n], steps[n], p)
    ensures steps[j].ClaimS? ==> p !in steps[j].ids
  {
    assert LabelAt(run, steps, i) && LabelAt(run, steps, j);
    UpgradePends(run[i], run[i + 1], p);
    StatusThroughout(run, steps, i + 1, j, p, Pending);
  }

  lemma UpgradePends(s: Sys, s': Sys, p: PortfolioId)
    requires ApplyUpgradeStep(s, s', p) && p in s.db.portfolios
    ensures p in s'.db.portfolios && s'.db.portfolios[p] == s.db.portfolios[p].(status := PortfolioStatus.Pending)
  {
  }

  // ---------------------------------------------------------------- end date

  /** p has an end date, or is gone, and the scheduler has not claimed it. */
  ghost predicate Ended(s: Sys, p: PortfolioId) {
    p < s.db.nextPortfolio && (p in s.db.portfolios ==> !s.db.portfolios[p].openEnded) && p !in s.claimed
  }

  /** Every scheduled row of p is older than limit. */
  ghost predicate NoneScheduledSince(db: Db, p: PortfolioId, limit: RunId) {
    forall r :: r in db.runs && db.runs[r].pid == p && db.runs[r].trigger.Scheduled? ==> r < limit
  }

  ghost predicate OutOfSchedule(s: Sys, p: PortfolioId, limit: RunId) {
    Ended(s, p) && NoneScheduledSince(s.db, p, limit)
  }

  lemma TableOutOfSchedule(s: Sys, s': Sys, step: Step, p: PortfolioId, limit: RunId)
    requires NextStep(s, s', step) && (IsTableStep(step) || step.RestartS? || step.CrashS?)
    requires OutOfSchedule(s, p, limit) && IdsBounded(s.db)
    ensures OutOfSchedule(s', p, limit)
  {
  }

  lemma WriteOutOfSchedule(s: Sys, s': Sys, step: Step, p: PortfolioId, limit: RunId)
    requires NextStep(s, s', step) && IsWorkerWrite(step) && OutOfSchedule(s, p, limit)
    ensures OutOfSchedule(s', p, limit)
  {
  }

  lemma SubmissionOutOfSchedule(s: Sys, s': Sys, step: Step, p: PortfolioId, limit: RunId)
    requires NextStep(s, s', step) && IsSubmission(step) && OutOfSchedule(s, p, limit)
    ensures OutOfSchedule(s', p, limit)
  {
    if step.SubmitClaimedS? {
      assert s.claimed[0] in s.claimed && forall q :: q in s.claimed[1..] ==> q in s.claimed;
    }
  }

  lemma ClaimOutOfSchedule(s: Sys, s': Sys, ids: seq<PortfolioId>, p: PortfolioId, limit: RunId)
    requires ClaimStep(s, s', ids) && OutOfSchedule(s, p, limit)
    ensures OutOfSchedule(s', p, limit) && p !in ids
  {
  }

  lemma StepOutOfSchedule(s: Sys, s': Sys, p: PortfolioId, limit: RunId)
    requires RunInv(s) && Next(s, s') && OutOfSchedule(s, p, limit)
    ensures OutOfSchedule(s', p, limit)
  {
    var step :| NextStep(s, s', step);
    if IsTableStep(step) || step.RestartS? || step.CrashS? {
      TableOutOfSchedule(s, s', step, p, limit);
    } else if IsWorkerWrite(step) {
      WriteOutOfSchedule(s, s', step, p, limit);
    } else if IsSubmission(step) {
      SubmissionOutOfSchedule(s, s', step, p, limit);
    } else if IsWorkerMove(step) {
      MoveKeepsTables(s, s', step);
    } else if step.ClaimS? {
      ClaimOutOfSchedule(s, s', step.ids, p, limit);
    } else if step.SkipClaimedS? {
      assert forall q :: q in s'.claimed ==> q in s.claimed;
    } else if IsSweepStep(step) {
      SweepIsUnclaiming(s, s', step);
    } else if step.DuplicateS? {
      StepKeeps(s, s', step);
    }
  }

  lemma SweepIsUnclaiming(s: Sys, s': Sys, step: Step)
    requires NextStep(s, s', step) && IsSweepStep(step)
    ensures s'.db == s.db && s'.claimed == s.claimed
  {
  }

  /** In every execution: once p has an end date and is not among the claimed, no
      later claim contains it, and no scheduled run of it is created. */
  lemma {:induction false} EndDateStopsSchedule(run: seq<Sys>, i: nat, j: nat, p: PortfolioId)
    requires IsRun(run) && i <= j < |run| && p in run[i].db.portfolios && p !in run[i].claimed
    requires run[i].db.portfolios[p].openEnded == false
    ensures p !in run[j].claimed
    ensures forall r :: r in run[j].db.runs && run[j].db.runs[r].pid == p && run[j].db.runs[r].trigger == Scheduled ==>
              r < run[i].db.nextRun
  {
    Reachable(run, i);
    OutOfScheduleForever(run, i, j, p);
  }

  lemma {:induction false} OutOfScheduleForever(run: seq<Sys>, i: nat, j: nat, p: PortfolioId)
    requires IsRun(run) && i <= j < |run| && Ended(run[i], p) && IdsBounded(run[i].db)
    ensures OutOfSchedule(run[j], p, run[i].db.nextRun)
    decreases j
  {
    if i < j {
      OutOfScheduleForever(run, i, j - 1, p);
      NextOutOfSchedule(run, j - 1, p, run[i].db.nextRun);
    }
  }

  lemma NextOutOfSchedule(run: seq<Sys>, k: nat, p: PortfolioId, limit: RunId)
    requires IsRun(run) && k + 1 < |run| && OutOfSchedule(run[k], p, limit)
    ensures OutOfSchedule(run[k + 1], p, limit)
  {
    Reachable(run, k);
    assert NextIn(run, k);
    StepOutOfSchedule(run[k], run[k + 1], p, limit);
  }

  /** The PATCH request that sets the end date. */
  lemma PatchEndsPortfolio(s: Sys, s': Sys, p: PortfolioId)
    requires SetEndDateStep(s, s', p) && p in s.db.portfolios
    ensures p in s'.db.portfolios && s'.db.portfolios[p].openEnded == false && s'.claimed == s.claimed
    ensures s'.db.portfolios[p].status == s.db.portfolios[p].status && s'.db.runs == s.db.runs
  {
  }
}
