/** Accounting for every run that was ever submitted: it waits at its submitter
    or in the channel, was rejected, was lost in a crash before a worker saw it,
    or was executed, and never more than once. */
module RunHistory {
  import opened Prelude
  import opened RunDb
  import opened RunProtocol
  import opened RunOwnership

  /** Still on its way to a worker. */
  ghost predicate OnItsWay(s: Sys, r: RunId) {
    exists l :: HeldAt(s, l, r) && !l.Worker?
  }

  /** Executed runs are those that workers hold or held; the three outcomes
      exclude each other and no run is executed twice. */
  ghost predicate Logged(s: Sys) {
    && Distinct(s.executed)
    && (forall r :: r in s.executed ==> r < s.db.nextRun && r !in s.rejected && r !in s.lost)
    && (forall r :: r in s.rejected ==> r < s.db.nextRun && r !in s.lost)
    && (forall r :: r in s.lost ==> r < s.db.nextRun)
    && (forall l :: l in s.procs ==>
          if l.Worker? then s.procs[l].task.rid in s.executed
          else && s.procs[l].task.rid !in s.executed && s.procs[l].task.rid !in s.rejected
               && s.procs[l].task.rid !in s.lost)
  }

  ghost predicate Settles(s: Sys, r: RunId) {
    r in s.executed || r in s.rejected || r in s.lost || OnItsWay(s, r)
  }

  ghost predicate Accounted(s: Sys) {
    forall r :: 0 <= r < s.db.nextRun ==> Settles(s, r)
  }

  /** The row of a run that no worker will see is failed, deleted, or in flight
      with its failure write lost. */
  ghost predicate GivenUp(s: Sys, r: RunId) {
    r in s.db.runs ==> s.db.runs[r].status.Failed? || r in s.stuck
  }

  ghost predicate TurnedAway(s: Sys) {
    forall r :: r in s.rejected || r in s.lost ==> GivenUp(s, r)
  }

  ghost predicate HistInv(s: Sys) {
    Logged(s) && Accounted(s) && TurnedAway(s)
  }

  /** Steps that submit, reject, take and lose nothing: the rows they touch are
      none of those turned away. */
  ghost predicate Quiet(s: Sys, s': Sys, touched: set<RunId>) {
    && s'.executed == s.executed && s'.rejected == s.rejected && s'.lost == s.lost && s'.db.nextRun == s.db.nextRun
    && s.stuck <= s'.stuck
    && (forall l :: l in s'.procs ==> l in s.procs && s'.procs[l].task == s.procs[l].task)
    && (forall l :: l in s.procs && !l.Worker? ==> l in s'.procs)
    && (forall r :: r in s'.db.runs && r !in touched ==> r in s.db.runs && s'.db.runs[r] == s.db.runs[r])
    && (forall r :: r in touched ==> r !in s.rejected && r !in s.lost)
  }

  lemma QuietKeeps(s: Sys, s': Sys, touched: set<RunId>)
    requires HistInv(s) && Quiet(s, s', touched)
    ensures HistInv(s')
  {
    forall r | 0 <= r < s'.db.nextRun
      ensures Settles(s', r)
    {
      assert Settles(s, r);
      if OnItsWay(s, r) {
        var l :| HeldAt(s, l, r) && !l.Worker?;
        assert HeldAt(s', l, r);
      }
    }
    forall r | r in s'.rejected || r in s'.lost
      ensures GivenUp(s', r)
    {
      assert GivenUp(s, r);
    }
  }

  /** The other holders still hold what they held. */
  lemma StillPending(s: Sys, s': Sys, r: RunId, gone: Loc)
    requires OnItsWay(s, r) && !HeldAt(s, gone, r)
    requires forall l :: l in s.procs && l != gone && !l.Worker? ==>
              l in s'.procs && s'.procs[l].task == s.procs[l].task
    ensures OnItsWay(s', r)
  {
    var l :| HeldAt(s, l, r) && !l.Worker?;
    assert HeldAt(s', l, r);
  }

  lemma SubmitLogged(s: Sys, s': Sys, i: nat, p: PortfolioId, trigger: Trigger)
    requires RunInv(s) && HistInv(s) && SubmitStep(s, s', i, p, trigger)
    ensures HistInv(s')
  {
    assert HeldAt(s', Submitter(i), s.db.nextRun);
    forall r | 0 <= r < s'.db.nextRun
      ensures Settles(s', r)
    {
      if r != s.db.nextRun {
        assert Settles(s, r);
        if OnItsWay(s, r) {
          StillPending(s, s', r, Submitter(i));
        }
      }
    }
    forall r | r in s'.rejected || r in s'.lost
      ensures GivenUp(s', r)
    {
      assert GivenUp(s, r);
    }
  }

  lemma OfferLogged(s: Sys, s': Sys, i: nat)
    requires RunInv(s) && HistInv(s) && OfferStep(s, s', i)
    ensures HistInv(s')
  {
    var t := s.procs[Submitter(i)].task;
    if s.tail - s.head < QueueCapacity(s) {
      assert HeldAt(s', Slot(s.tail), t.rid);
      forall r | 0 <= r < s'.db.nextRun
        ensures Settles(s', r)
      {
        assert Settles(s, r);
        if OnItsWay(s, r) && r != t.rid {
          StillPending(s, s', r, Submitter(i));
        }
      }
      forall r | r in s'.rejected || r in s'.lost
        ensures GivenUp(s', r)
      {
        assert GivenUp(s, r);
      }
    } else {
      QuietKeeps(s, s', {});
    }
  }

  lemma RejectLogged(s: Sys, s': Sys, i: nat, ok: bool)
    requires RunInv(s) && HistInv(s) && RejectStep(s, s', i, ok)
    ensures HistInv(s')
  {
    var t := s.procs[Submitter(i)].task;
    forall r | 0 <= r < s'.db.nextRun
      ensures Settles(s', r)
    {
      assert Settles(s, r);
      if OnItsWay(s, r) && r != t.rid {
        StillPending(s, s', r, Submitter(i));
      }
    }
    forall r | r in s'.rejected || r in s'.lost
      ensures GivenUp(s', r)
    {
      if r != t.rid {
        assert GivenUp(s, r);
      }
    }
  }

  lemma TakeLogged(s: Sys, s': Sys, w: nat)
    requires RunInv(s) && HistInv(s) && TakeStep(s, s', w)
    ensures HistInv(s')
  {
    var t := s.procs[Slot(s.head)].task;
    assert HeldAt(s, Slot(s.head), t.rid);
    forall r | 0 <= r < s'.db.nextRun
      ensures Settles(s', r)
    {
      assert Settles(s, r);
      if OnItsWay(s, r) && r != t.rid {
        StillPending(s, s', r, Slot(s.head));
      }
    }
    forall r | r in s'.rejected || r in s'.lost
      ensures GivenUp(s', r)
    {
      assert GivenUp(s, r);
    }
  }

  lemma CrashLogged(s: Sys, s': Sys)
    requires RunInv(s) && HistInv(s) && CrashStep(s, s')
    ensures HistInv(s')
  {
    forall r | 0 <= r < s'.db.nextRun
      ensures Settles(s', r)
    {
      assert Settles(s, r);
      if OnItsWay(s, r) {
        var l :| HeldAt(s, l, r) && !l.Worker?;
        assert s.procs[l].task.rid in NeverTaken(s);
      }
    }
    forall r | r in s'.rejected || r in s'.lost
      ensures GivenUp(s', r)
    {
      if r in s.rejected || r in s.lost {
        assert GivenUp(s, r);
      } else {
        var l :| l in s.procs && !l.Worker? && s.procs[l].task.rid == r;
        assert RowMatches(s.db, s.stuck, s.procs[l]);
      }
    }
  }

  lemma RestartLogged(s: Sys, s': Sys, swept: bool)
    requires RunInv(s) && HistInv(s) && RestartStep(s, s', swept)
    ensures HistInv(s')
  {
    forall r | 0 <= r < s'.db.nextRun
      ensures Settles(s', r)
    {
      assert Settles(s, r);
    }
    forall r | r in s'.rejected || r in s'.lost
      ensures GivenUp(s', r)
    {
      assert GivenUp(s, r);
    }
  }

  lemma WorkerMoveLogged(s: Sys, s': Sys, step: Step)
    requires HistInv(s) && NextStep(s, s', step) && IsWorkerMove(step)
    ensures HistInv(s')
  {
    MoveIsQuiet(s, s', step);
    QuietKeeps(s, s', {});
  }

  lemma WorkerWriteLogged(s: Sys, s': Sys, step: Step)
    requires HistInv(s) && NextStep(s, s', step) && IsWorkerWrite(step)
    ensures HistInv(s')
  {
    WriteIsQuiet(s, s', step);
    QuietKeeps(s, s', {s.procs[Worker(step.w)].task.rid});
  }

  lemma WriteIsQuiet(s: Sys, s': Sys, step: Step)
    requires Logged(s) && NextStep(s, s', step) && IsWorkerWrite(step)
    ensures Quiet(s, s', {s.procs[Worker(step.w)].task.rid})
  {
    assert Worker(step.w) in s.procs;
  }

  lemma MoveIsQuiet(s: Sys, s': Sys, step: Step)
    requires NextStep(s, s', step) && IsWorkerMove(step)
    ensures Quiet(s, s', {})
  {
  }

  lemma TableLogged(s: Sys, s': Sys, step: Step)
    requires HistInv(s) && NextStep(s, s', step) && IsTableStep(step)
    ensures HistInv(s')
  {
    QuietKeeps(s, s', {});
  }

  lemma BystanderLogged(s: Sys, s': Sys)
    requires HistInv(s) && Bystander(s, s')
    ensures HistInv(s')
  {
    QuietKeeps(s, s', {});
  }

  lemma SubmitClaimedLogged(s: Sys, s': Sys, i: nat)
    requires RunInv(s) && HistInv(s) && SubmitClaimedStep(s, s', i)
    ensures HistInv(s')
  {
    var rest := s.(claimed := s.claimed[1..]);
    SameView(s, rest);
    QuietKeeps(s, rest, {});
    if CreateRun(s.db, s.claimed[0], Scheduled).Ok? {
      SubmitLogged(rest, s', i, s.claimed[0], Scheduled);
    }
  }

  lemma SubmissionLogged(s: Sys, s': Sys, step: Step)
    requires RunInv(s) && HistInv(s) && NextStep(s, s', step) && IsSubmission(step)
    ensures HistInv(s')
  {
    match step {
      case SubmitS(i, p) => SubmitLogged(s, s', i, p, Manual);
      case OfferS(i) => OfferLogged(s, s', i);
      case RejectS(i, ok) => RejectLogged(s, s', i, ok);
      case TakeS(w) => TakeLogged(s, s', w);
      case SubmitClaimedS(i) => SubmitClaimedLogged(s, s', i);
    }
  }

  /** Every step keeps the accounting. */
  lemma StepLogged(s: Sys, s': Sys, step: Step)
    requires RunInv(s) && HistInv(s) && NextStep(s, s', step)
    ensures HistInv(s')
  {
    if IsTableStep(step) {
      TableLogged(s, s', step);
    } else if IsSubmission(step) {
      SubmissionLogged(s, s', step);
    } else if IsWorkerMove(step) {
      WorkerMoveLogged(s, s', step);
    } else if IsWorkerWrite(step) {
      WorkerWriteLogged(s, s', step);
    } else if step.CrashS? {
      CrashLogged(s, s');
    } else if step.RestartS? {
      RestartLogged(s, s', step.swept);
    } else if step.DuplicateS? {
      StepKeeps(s, s', step);
    } else if IsSweepStep(step) {
      SweepIsBystander(s, s', step);
      BystanderLogged(s, s');
    } else {
      BystanderLogged(s, s');
    }
  }
}
