/** The scheduler runs a portfolio at most once a day: among the rows that
    exist, no two scheduled runs of one portfolio started on the same day. */
module DailySchedule {
  import opened Prelude
  import opened RunDb
  import opened RunProtocol
  import opened RunOwnership

  predicate StartedBefore(row: RunRow, day: nat) {
    row.startedAt.Some? ==> row.startedAt.value.day < day
  }

  ghost predicate StartsKnown(db: Db) {
    forall r :: r in db.runs ==>
      && (db.runs[r].status.Queued? ==> db.runs[r].startedAt.None?)
      && (db.runs[r].startedAt.Some? ==> db.runs[r].startedAt.value.day <= db.now.day)
  }

  /** At most one scheduled start per portfolio and day. */
  ghost predicate OncePerDay(db: Db) {
    forall r, x :: r in db.runs && x in db.runs && r != x && db.runs[r].pid == db.runs[x].pid
                   && db.runs[r].trigger.Scheduled? && db.runs[x].trigger.Scheduled?
                   && db.runs[r].startedAt.Some? && db.runs[x].startedAt.Some? ==>
      db.runs[r].startedAt.value.day != db.runs[x].startedAt.value.day
  }

  /** While a scheduled run waits, today belongs to it alone. */
  ghost predicate WaitingIsFirst(db: Db) {
    forall r, x :: r in db.runs && x in db.runs && r != x && db.runs[r].pid == db.runs[x].pid
                   && db.runs[r].trigger.Scheduled? && db.runs[r].status.Queued? && db.runs[x].trigger.Scheduled? ==>
      StartedBefore(db.runs[x], db.now.day)
  }

  /** A claimed portfolio has no scheduled run in flight and none from today. */
  ghost predicate ClaimsFresh(s: Sys) {
    && Distinct(s.claimed)
    && (forall r :: r in s.db.runs && s.db.runs[r].pid in s.claimed && s.db.runs[r].trigger.Scheduled? ==>
          !InFlight(s.db.runs[r]) && StartedBefore(s.db.runs[r], s.db.now.day))
  }

  ghost predicate DayInv(s: Sys) {
    StartsKnown(s.db) && OncePerDay(s.db) && WaitingIsFirst(s.db) && ClaimsFresh(s)
  }

  /** Rows are deleted or settled, nothing is created or started, time may pass. */
  ghost predicate NoStart(s: Sys, s': Sys) {
    (s'.claimed == s.claimed || s'.claimed == []) && RowsSettle(s.db, s'.db)
  }

  ghost predicate RowsSettle(db: Db, db': Db) {
    && db.now.day <= db'.now.day
    && (forall r :: r in db'.runs ==>
          && r in db.runs
          && db'.runs[r].pid == db.runs[r].pid && db'.runs[r].trigger == db.runs[r].trigger
          && db'.runs[r].startedAt == db.runs[r].startedAt
          && (db'.runs[r].status.Queued? ==> db.runs[r].status.Queued?)
          && (InFlight(db'.runs[r]) ==> InFlight(db.runs[r])))
  }

  lemma WritesSettle(db: Db, p: PortfolioId, r: RunId)
    ensures RowsSettle(db, db) && RowsSettle(db, UpdateRunFailed(db, r)) && RowsSettle(db, MarkFailed(db, p, r))
    ensures RowsSettle(db, MarkReady(db, p, r, Path(p, r))) && RowsSettle(db, PruneRuns(db, p))
  {
  }

  lemma NoStartKeeps(s: Sys, s': Sys)
    requires DayInv(s) && NoStart(s, s')
    ensures DayInv(s')
  {
  }

  lemma CreateDaily(s: Sys, s': Sys, i: nat, p: PortfolioId, trigger: Trigger)
    requires RunInv(s) && DayInv(s) && SubmitStep(s, s', i, p, trigger)
    requires trigger.Scheduled? ==>
               p !in s.claimed
               && forall r :: r in s.db.runs && s.db.runs[r].pid == p && s.db.runs[r].trigger.Scheduled? ==>
                    StartedBefore(s.db.runs[r], s.db.now.day)
    ensures DayInv(s')
  {
    var r0 := s.db.nextRun;
    forall r, x | r in s'.db.runs && x in s'.db.runs && r != x && s'.db.runs[r].pid == s'.db.runs[x].pid
                  && s'.db.runs[r].trigger.Scheduled? && s'.db.runs[r].status.Queued?
                  && s'.db.runs[x].trigger.Scheduled?
      ensures StartedBefore(s'.db.runs[x], s'.db.now.day)
    {
      if r != r0 && x != r0 {
        assert s.db.runs[r] == s'.db.runs[r];
      }
    }
  }

  lemma SubmitClaimedDaily(s: Sys, s': Sys, i: nat)
    requires RunInv(s) && DayInv(s) && SubmitClaimedStep(s, s', i)
    ensures DayInv(s')
  {
    var p, rest := s.claimed[0], s.(claimed := s.claimed[1..]);
    assert p in s.claimed && p !in rest.claimed;
    assert forall q :: q in rest.claimed ==> q in s.claimed;
    SameView(s, rest);
    if CreateRun(s.db, p, Scheduled).Ok? {
      CreateDaily(rest, s', i, p, Scheduled);
    }
  }

  lemma MarkRunningDaily(s: Sys, s': Sys, w: nat)
    requires RunInv(s) && DayInv(s) && MarkRunningStep(s, s', w, true)
    ensures DayInv(s')
  {
    var r0 := s.procs[Worker(w)].task.rid;
    assert RowMatches(s.db, s.stuck, s.procs[Worker(w)]);
    if r0 in s.db.runs {
      assert InFlight(s.db.runs[r0]);
      forall r | r in s.db.runs && r != r0 && s.db.runs[r].pid == s.db.runs[r0].pid
        ensures !InFlight(s.db.runs[r])
      {
      }
    }
  }

  lemma ClaimDaily(s: Sys, s': Sys, ids: seq<PortfolioId>)
    requires DayInv(s) && ClaimStep(s, s', ids)
    ensures DayInv(s')
  {
    forall r | r in s'.db.runs && s'.db.runs[r].pid in ids && s'.db.runs[r].trigger.Scheduled?
      ensures !InFlight(s'.db.runs[r]) && StartedBefore(s'.db.runs[r], s'.db.now.day)
    {
      assert Due(s.db, s.db.runs[r].pid);
      assert !RanToday(s.db, s.db.runs[r]);
    }
  }

  lemma WorkerWriteDaily(s: Sys, s': Sys, step: Step)
    requires RunInv(s) && DayInv(s) && NextStep(s, s', step) && IsWorkerWrite(step)
    ensures DayInv(s')
  {
    if step.MarkRunningS? && step.ok {
      MarkRunningDaily(s, s', step.w);
    } else {
      WriteWithoutStart(s, s', step);
      NoStartKeeps(s, s');
    }
  }

  lemma WriteWithoutStart(s: Sys, s': Sys, step: Step)
    requires NextStep(s, s', step) && IsWorkerWrite(step) && !(step.MarkRunningS? && step.ok)
    ensures NoStart(s, s')
  {
    var t := s.procs[Worker(step.w)].task;
    WritesSettle(s.db, t.pid, t.rid);
  }

  lemma SubmissionWithoutStart(s: Sys, s': Sys, step: Step)
    requires NextStep(s, s', step) && (step.OfferS? || step.RejectS? || step.TakeS?)
    ensures NoStart(s, s')
  {
    if step.RejectS? {
      var t := s.procs[Submitter(step.i)].task;
      WritesSettle(s.db, t.pid, t.rid);
    }
  }

  lemma OtherWithoutStart(s: Sys, s': Sys, step: Step)
    requires NextStep(s, s', step)
    requires IsTableStep(step) || IsWorkerMove(step) || step.CrashS? || step.RestartS?
    ensures NoStart(s, s')
  {
    if IsWorkerMove(step) {
      MoveKeepsTables(s, s', step);
    } else if IsTableStep(step) {
      TableWithoutStart(s, s', step);
    }
  }

  lemma TableWithoutStart(s: Sys, s': Sys, step: Step)
    requires NextStep(s, s', step) && IsTableStep(step)
    ensures NoStart(s, s')
  {
  }

  lemma SubmissionDaily(s: Sys, s': Sys, step: Step)
    requires RunInv(s) && DayInv(s) && NextStep(s, s', step) && IsSubmission(step)
    ensures DayInv(s')
  {
    if step.SubmitS? {
      CreateDaily(s, s', step.i, step.p, Manual);
    } else if step.SubmitClaimedS? {
      SubmitClaimedDaily(s, s', step.i);
    } else {
      SubmissionWithoutStart(s, s', step);
      NoStartKeeps(s, s');
    }
  }

  lemma OtherDaily(s: Sys, s': Sys, step: Step)
    requires DayInv(s) && NextStep(s, s', step)
    requires IsTableStep(step) || IsWorkerMove(step) || step.CrashS? || step.RestartS?
    ensures DayInv(s')
  {
    OtherWithoutStart(s, s', step);
    NoStartKeeps(s, s');
  }

  lemma BystanderDaily(s: Sys, s': Sys)
    requires DayInv(s) && Bystander(s, s') && s'.claimed == s.claimed
    ensures DayInv(s')
  {
    NoStartKeeps(s, s');
  }

  lemma SkipDaily(s: Sys, s': Sys)
    requires DayInv(s) && SkipClaimedStep(s, s')
    ensures DayInv(s')
  {
    assert forall q :: q in s'.claimed ==> q in s.claimed;
  }

  lemma StepDaily(s: Sys, s': Sys, step: Step)
    requires RunInv(s) && DayInv(s) && NextStep(s, s', step)
    ensures DayInv(s')
  {
    if IsSubmission(step) {
      SubmissionDaily(s, s', step);
    } else if IsWorkerWrite(step) {
      WorkerWriteDaily(s, s', step);
    } else if step.ClaimS? {
      ClaimDaily(s, s', step.ids);
    } else if step.DuplicateS? {
      StepKeeps(s, s', step);
    } else if IsSweepStep(step) {
      SweepIsBystander(s, s', step);
      BystanderDaily(s, s');
    } else if step.PurgeDirS? {
      BystanderDaily(s, s');
    } else if step.SkipClaimedS? {
      SkipDaily(s, s');
    } else {
      OtherDaily(s, s', step);
    }
  }
}
