/** Who owns which run. The invariant of the protocol about submitters, channel
    slots, workers and the rows they hold, and its preservation by every step. */
module RunOwnership {
  import opened RunDb
  import opened RunProtocol

  // -------------------------------------------------------------- invariant

  /** Which program counters each kind of holder can be at. A worker is never
      at the branch that reports the portfolio as already running. */
  predicate PcFits(l: Loc, pc: Pc) {
    match l
    case Submitter(_) => pc.Created? || pc.Rejecting?
    case Slot(_) => pc.Waiting?
    case Worker(_) => !pc.Created? && !pc.Rejecting? && !pc.Waiting? && !pc.Duplicate?
  }

  /** The holder has already written the run's final status (or lost the write). */
  predicate Settled(pc: Pc) {
    pc.Pruning? || pc.Deleting?
  }

  /** The row status that a holder at pc relies on. */
  predicate Expects(pc: Pc, status: RunStatus) {
    match pc
    case Marked => status.Running?
    case DirReady => status.Running?
    case Written => status.Running?
    case Failing => status.Queued? || status.Running?
    case _ => status.Queued?
  }

  /** The channel holds the tickets from head to tail, within its capacity, and
      no worker index exceeds the pool size. */
  ghost predicate Places(s: Sys) {
    && s.head <= s.tail && s.tail - s.head <= QueueCapacity(s)
    && (forall k: nat :: Slot(k) in s.procs <==> s.head <= k < s.tail)
    && (forall l :: l in s.procs ==> PcFits(l, s.procs[l].pc))
    && (forall w: nat :: Worker(w) in s.procs ==> w < s.maxConcurrency)
    && (!s.up ==> s.procs == map[])
  }

  /** No two holders have the same run. */
  ghost predicate OneHolder(s: Sys) {
    forall l, m :: l in s.procs && m in s.procs && s.procs[l].task.rid == s.procs[m].task.rid ==> l == m
  }

  /** What the row of a held run looks like. */
  ghost predicate RowMatches(db: Db, stuck: set<RunId>, h: Proc) {
    var p, r := h.task.pid, h.task.rid;
    && r < db.nextRun && p < db.nextPortfolio
    && (r in db.runs ==> db.runs[r].pid == p)
    && if Settled(h.pc) then r in db.runs ==> !InFlight(db.runs[r]) || r in stuck
       else r !in stuck && if r in db.runs then Expects(h.pc, db.runs[r].status) else p !in db.portfolios
  }

  ghost predicate Rows(s: Sys) {
    forall l :: l in s.procs ==> RowMatches(s.db, s.stuck, s.procs[l])
  }

  ghost predicate HeldAt(s: Sys, l: Loc, r: RunId) {
    l in s.procs && s.procs[l].task.rid == r
  }

  ghost predicate Held(s: Sys, r: RunId) {
    exists l :: HeldAt(s, l, r)
  }

  /** Every in-flight row is held, unless the write that should have settled it
      was lost. */
  ghost predicate Covered(s: Sys) {
    forall r :: r in s.db.runs && InFlight(s.db.runs[r]) ==> r in s.stuck || Held(s, r)
  }

  ghost predicate StuckKnown(s: Sys) {
    && (forall r :: r in s.stuck ==> r < s.db.nextRun)
    && (forall r :: r in s.stuck && r in s.db.runs ==> InFlight(s.db.runs[r]))
  }

  ghost predicate OwnInv(s: Sys) {
    Places(s) && OneHolder(s) && Rows(s) && Covered(s) && StuckKnown(s)
  }

  // ----------------------------------------------------------- preservation

  /** Run r needs no further action in state s. */
  ghost predicate Answered(s: Sys, r: RunId) {
    (r in s.db.runs && InFlight(s.db.runs[r])) ==> (r in s.stuck || Held(s, r))
  }

  /** Covered survives a step that brings new in-flight rows only with a holder
      and whose holders keep their task unless its run needs none. */
  lemma CoveredBy(s: Sys, s': Sys)
    requires Covered(s)
    requires forall r :: r in s'.db.runs && !(r in s.db.runs && InFlight(s.db.runs[r]) && r !in s.stuck) ==>
               Answered(s', r)
    requires forall l :: l in s.procs && !(l in s'.procs && s'.procs[l].task == s.procs[l].task) ==>
               Answered(s', s.procs[l].task.rid)
    ensures Covered(s')
  {
    forall r | r in s'.db.runs && InFlight(s'.db.runs[r])
      ensures r in s'.stuck || Held(s', r)
    {
      if !Answered(s', r) {
        var l :| HeldAt(s, l, r);
        assert HeldAt(s', l, r);
      }
    }
  }

  /** The tables differ in row r and in portfolio statuses at most. */
  ghost predicate OnlyRow(db: Db, db': Db, r: RunId) {
    && db'.nextRun == db.nextRun && db'.nextPortfolio == db.nextPortfolio
    && db'.portfolios.Keys == db.portfolios.Keys
    && db'.runs.Keys == db.runs.Keys
    && (forall x :: x in db.runs && x != r ==> db'.runs[x] == db.runs[x])
    && (r in db.runs ==> db'.runs[r].pid == db.runs[r].pid)
  }

  /** The holder at l acted, on its own row and on nothing else that counts. */
  ghost predicate OwnStep(s: Sys, s': Sys, l: Loc) {
    && s.up && s'.up && s'.maxConcurrency == s.maxConcurrency && s'.head == s.head && s'.tail == s.tail
    && l in s.procs && !l.Slot?
    && OnlyRow(s.db, s'.db, s.procs[l].task.rid)
    && s.stuck <= s'.stuck <= s.stuck + {s.procs[l].task.rid}
  }

  lemma OwnStepStays(s: Sys, s': Sys, l: Loc, pc: Pc)
    requires OwnInv(s) && OwnStep(s, s', l)
    requires s'.procs == s.procs[l := Proc(s.procs[l].task, pc)] && PcFits(l, pc)
    requires RowMatches(s'.db, s'.stuck, s'.procs[l])
    requires var r := s.procs[l].task.rid; r in s'.stuck && r in s'.db.runs ==> InFlight(s'.db.runs[r])
    ensures OwnInv(s')
  {
    var r := s.procs[l].task.rid;
    assert HeldAt(s', l, r);
    forall m | m in s'.procs
      ensures RowMatches(s'.db, s'.stuck, s'.procs[m])
    {
      if m != l {
        assert RowMatches(s.db, s.stuck, s.procs[m]);
      }
    }
    CoveredBy(s, s');
  }

  lemma OwnStepLeaves(s: Sys, s': Sys, l: Loc)
    requires OwnInv(s) && OwnStep(s, s', l)
    requires s'.procs == s.procs - {l}
    requires var r := s.procs[l].task.rid; r in s'.db.runs ==> (InFlight(s'.db.runs[r]) <==> r in s'.stuck)
    ensures OwnInv(s')
  {
    forall m | m in s'.procs
      ensures RowMatches(s'.db, s'.stuck, s'.procs[m])
    {
      assert RowMatches(s.db, s.stuck, s.procs[m]);
    }
    CoveredBy(s, s');
  }

  /** Tasks, channel and rows are as before. */
  lemma SameView(s: Sys, s': Sys)
    requires OwnInv(s)
    requires s'.db == s.db && s'.procs == s.procs && s'.stuck == s.stuck && s'.up == s.up
    requires s'.maxConcurrency == s.maxConcurrency && s'.head == s.head && s'.tail == s.tail
    ensures OwnInv(s')
  {
    CoveredBy(s, s');
  }

  ghost predicate RunInv(s: Sys) {
    DbInv(s.db) && OwnInv(s)
  }

  // ------------------------------------------------------- one lemma a step

  /** A change of portfolios, of the clock, or a cascading delete. */
  lemma TableChangeKeeps(s: Sys, s': Sys)
    requires OwnInv(s) && s' == s.(db := s'.db)
    requires s'.db.nextRun == s.db.nextRun && s'.db.nextPortfolio >= s.db.nextPortfolio
    requires forall r :: r in s'.db.runs ==> r in s.db.runs && s'.db.runs[r] == s.db.runs[r]
    requires forall r :: r in s.db.runs && r !in s'.db.runs ==> s.db.runs[r].pid !in s'.db.portfolios
    requires forall p :: p in s'.db.portfolios ==> p in s.db.portfolios || p >= s.db.nextPortfolio
    ensures OwnInv(s')
  {
    forall m | m in s'.procs
      ensures RowMatches(s'.db, s'.stuck, s'.procs[m])
    {
      assert RowMatches(s.db, s.stuck, s.procs[m]);
    }
    CoveredBy(s, s');
  }

  lemma TickKeeps(s: Sys, s': Sys, now: Stamp)
    requires RunInv(s) && TickStep(s, s', now)
    ensures RunInv(s')
  {
    forall p | p in s'.db.portfolios && s'.db.portfolios[p].status.Running?
      ensures HasRunningRun(s'.db, p)
    {
      assert HasRunningRun(s.db, p);
    }
    TableChangeKeeps(s, s');
  }

  lemma SubmitKeeps(s: Sys, s': Sys, i: nat, p: PortfolioId, trigger: Trigger)
    requires RunInv(s) && SubmitStep(s, s', i, p, trigger)
    ensures RunInv(s')
  {
    CreateRunKeeps(s.db, p, trigger);
    assert HeldAt(s', Submitter(i), s.db.nextRun);
    forall m | m in s'.procs
      ensures RowMatches(s'.db, s'.stuck, s'.procs[m])
    {
      if m != Submitter(i) {
        assert RowMatches(s.db, s.stuck, s.procs[m]);
      }
    }
    CoveredBy(s, s');
  }

  lemma OfferKeeps(s: Sys, s': Sys, i: nat)
    requires RunInv(s) && OfferStep(s, s', i)
    ensures RunInv(s')
  {
    assert RowMatches(s.db, s.stuck, s.procs[Submitter(i)]);
    if s.tail - s.head < QueueCapacity(s) {
      assert HeldAt(s', Slot(s.tail), s.procs[Submitter(i)].task.rid);
      CoveredBy(s, s');
    } else {
      OwnStepStays(s, s', Submitter(i), Rejecting);
    }
  }

  lemma RejectKeeps(s: Sys, s': Sys, i: nat, ok: bool)
    requires RunInv(s) && RejectStep(s, s', i, ok)
    ensures RunInv(s')
  {
    var t := s.procs[Submitter(i)].task;
    assert RowMatches(s.db, s.stuck, s.procs[Submitter(i)]);
    UpdateRunFailedKeeps(s.db, t.pid, t.rid);
    OwnStepLeaves(s, s', Submitter(i));
  }

  lemma TakeKeeps(s: Sys, s': Sys, w: nat)
    requires RunInv(s) && TakeStep(s, s', w)
    ensures RunInv(s')
  {
    assert RowMatches(s.db, s.stuck, s.procs[Slot(s.head)]);
    assert HeldAt(s', Worker(w), s.procs[Slot(s.head)].task.rid);
    CoveredBy(s, s');
  }

  /** The "already running" guard cannot fire for a run that a worker took: a
      running portfolio has a running run, and the taken run is its only
      in-flight one. */
  lemma GuardSilent(s: Sys, w: nat)
    requires DbInv(s.db) && OwnInv(s) && At(s, Worker(w), Taken)
    ensures var p := s.procs[Worker(w)].task.pid;
            p in s.db.portfolios ==> !s.db.portfolios[p].status.Running?
  {
    assert RowMatches(s.db, s.stuck, s.procs[Worker(w)]);
  }

  lemma LoadKeeps(s: Sys, s': Sys, w: nat, ok: bool)
    requires RunInv(s) && LoadStep(s, s', w, ok)
    ensures RunInv(s')
  {
    assert RowMatches(s.db, s.stuck, s.procs[Worker(w)]);
    GuardSilent(s, w);
    OwnStepStays(s, s', Worker(w), s'.procs[Worker(w)].pc);
  }

  /** Steps that move one worker along and leave its row alone. */
  lemma MoveKeeps(s: Sys, s': Sys, w: nat)
    requires RunInv(s)
    requires MakeDirStep(s, s', w) || WriteStep(s, s', w) || AbortStep(s, s', w)
             || DeleteFileStep(s, s', w, true) || DeleteFileStep(s, s', w, false)
    ensures RunInv(s')
  {
    assert RowMatches(s.db, s.stuck, s.procs[Worker(w)]);
    OwnStepStays(s, s', Worker(w), s'.procs[Worker(w)].pc);
  }

  lemma MarkRunningStepKeeps(s: Sys, s': Sys, w: nat, ok: bool)
    requires RunInv(s) && MarkRunningStep(s, s', w, ok)
    ensures RunInv(s')
  {
    var t := s.procs[Worker(w)].task;
    assert RowMatches(s.db, s.stuck, s.procs[Worker(w)]);
    if ok {
      MarkRunningKeeps(s.db, t.pid, t.rid);
      StartedMatches(s.db, s.stuck, t);
      OwnStepStays(s, s', Worker(w), Marked);
    } else {
      OwnStepStays(s, s', Worker(w), Failing);
    }
  }

  lemma StartedMatches(db: Db, stuck: set<RunId>, t: Task)
    requires RowMatches(db, stuck, Proc(t, Loaded))
    ensures RowMatches(MarkRunning(db, t.pid, t.rid), stuck, Proc(t, Marked))
    ensures OnlyRow(db, MarkRunning(db, t.pid, t.rid), t.rid)
  {
  }

  lemma MarkReadyStepKeeps(s: Sys, s': Sys, w: nat, ok: bool)
    requires RunInv(s) && MarkReadyStep(s, s', w, ok)
    ensures RunInv(s')
  {
    var t := s.procs[Worker(w)].task;
    assert RowMatches(s.db, s.stuck, s.procs[Worker(w)]);
    MarkReadyKeeps(s.db, t.pid, t.rid, Path(t.pid, t.rid));
    OwnStepStays(s, s', Worker(w), if ok then Pruning else Failing);
  }

  lemma MarkFailedStepKeeps(s: Sys, s': Sys, w: nat, ok: bool)
    requires RunInv(s) && MarkFailedStep(s, s', w, ok)
    ensures RunInv(s')
  {
    var t := s.procs[Worker(w)].task;
    assert RowMatches(s.db, s.stuck, s.procs[Worker(w)]);
    MarkFailedKeeps(s.db, t.pid, t.rid);
    OwnStepStays(s, s', Worker(w), Pruning);
  }

  lemma FinishKeeps(s: Sys, s': Sys, w: nat)
    requires RunInv(s) && s.up && Worker(w) in s.procs && Settled(s.procs[Worker(w)].pc) && s' == Leave(s, Worker(w))
    ensures RunInv(s')
  {
    assert RowMatches(s.db, s.stuck, s.procs[Worker(w)]);
    OwnStepLeaves(s, s', Worker(w));
  }

  lemma PruneStepKeeps(s: Sys, s': Sys, w: nat, ok: bool, paths: seq<Path>)
    requires RunInv(s) && PruneStep(s, s', w, ok, paths)
    ensures RunInv(s')
  {
    var p := s.procs[Worker(w)].task.pid;
    if ok && p in s.db.portfolios {
      PruneRunsKeeps(s.db, p);
      forall r | r in s.db.runs && InFlight(s.db.runs[r])
        ensures r in s'.db.runs
      {
        PruneSparesInFlight(s.db, p, r);
      }
      forall m | m in s'.procs
        ensures RowMatches(s'.db, s'.stuck, s'.procs[m])
      {
        assert RowMatches(s.db, s.stuck, s.procs[m]);
      }
      CoveredBy(s, s');
    } else {
      FinishKeeps(s, s', w);
    }
  }

  lemma CrashKeeps(s: Sys, s': Sys)
    requires RunInv(s) && CrashStep(s, s')
    ensures RunInv(s')
  {
  }

  lemma RestartKeeps(s: Sys, s': Sys, swept: bool)
    requires RunInv(s) && RestartStep(s, s', swept)
    ensures RunInv(s')
  {
    MarkAllKeeps(s.db);
    CoveredBy(s, s');
  }

  lemma SubmitClaimedKeeps(s: Sys, s': Sys, i: nat)
    requires RunInv(s) && SubmitClaimedStep(s, s', i)
    ensures RunInv(s')
  {
    var rest := s.(claimed := s.claimed[1..]);
    SameView(s, rest);
    if CreateRun(s.db, s.claimed[0], Scheduled).Ok? {
      SubmitKeeps(rest, s', i, s.claimed[0], Scheduled);
    }
  }

  lemma TableStepKeeps(s: Sys, s': Sys, step: Step)
    requires RunInv(s) && NextStep(s, s', step)
    requires IsTableStep(step)
    ensures RunInv(s')
  {
    match step {
      case InsertPortfolioS(n, o) => InsertPortfolioKeeps(s.db, n, o); TableChangeKeeps(s, s');
      case DeletePortfolioS(p) => DeletePortfolioKeeps(s.db, p); TableChangeKeeps(s, s');
      case SetRetentionS(p, n) => SetRetentionKeeps(s.db, p, n); TableChangeKeeps(s, s');
      case SetEndDateS(p) => SetEndDateKeeps(s.db, p); TableChangeKeeps(s, s');
      case ApplyUpgradeS(p) => ApplyUpgradeKeeps(s.db, p); TableChangeKeeps(s, s');
      case TickS(now) => TickKeeps(s, s', now);
    }
  }

  lemma SubmissionStepKeeps(s: Sys, s': Sys, step: Step)
    requires RunInv(s) && NextStep(s, s', step)
    requires IsSubmission(step)
    ensures RunInv(s')
  {
    match step {
      case SubmitS(i, p) => SubmitKeeps(s, s', i, p, Manual);
      case OfferS(i) => OfferKeeps(s, s', i);
      case RejectS(i, ok) => RejectKeeps(s, s', i, ok);
      case TakeS(w) => TakeKeeps(s, s', w);
      case SubmitClaimedS(i) => SubmitClaimedKeeps(s, s', i);
    }
  }

  lemma WorkerMoveKeeps(s: Sys, s': Sys, step: Step)
    requires RunInv(s) && NextStep(s, s', step)
    requires IsWorkerMove(step)
    ensures RunInv(s')
  {
    match step {
      case LoadS(w, ok) => LoadKeeps(s, s', w, ok);
      case MakeDirS(w) => MoveKeeps(s, s', w);
      case WriteS(w) => MoveKeeps(s, s', w);
      case AbortS(w) => MoveKeeps(s, s', w);
      case DeleteFileS(w, ok) => MoveKeeps(s, s', w);
      case FinishS(w) => FinishKeeps(s, s', w);
    }
  }

  lemma WorkerWriteKeeps(s: Sys, s': Sys, step: Step)
    requires RunInv(s) && NextStep(s, s', step)
    requires IsWorkerWrite(step)
    ensures RunInv(s')
  {
    match step {
      case MarkRunningS(w, ok) => MarkRunningStepKeeps(s, s', w, ok);
      case MarkReadyS(w, ok) => MarkReadyStepKeeps(s, s', w, ok);
      case MarkFailedS(w, ok) => MarkFailedStepKeeps(s, s', w, ok);
      case PruneS(w, ok, paths) => PruneStepKeeps(s, s', w, ok, paths);
    }
  }

  lemma BystanderKeeps(s: Sys, s': Sys)
    requires RunInv(s) && Bystander(s, s')
    ensures RunInv(s')
  {
    SameView(s, s');
  }

  /** Every step of the protocol keeps the table and ownership invariants. */
  lemma StepKeeps(s: Sys, s': Sys, step: Step)
    requires RunInv(s) && NextStep(s, s', step)
    ensures RunInv(s') && !step.DuplicateS?
  {
    if IsTableStep(step) {
      TableStepKeeps(s, s', step);
    } else if IsSubmission(step) {
      SubmissionStepKeeps(s, s', step);
    } else if IsWorkerMove(step) {
      WorkerMoveKeeps(s, s', step);
    } else if IsWorkerWrite(step) {
      WorkerWriteKeeps(s, s', step);
    } else if step.CrashS? {
      CrashKeeps(s, s');
    } else if step.RestartS? {
      RestartKeeps(s, s', step.swept);
    } else if step.DuplicateS? {
      assert false;
    } else if IsSweepStep(step) {
      SweepIsBystander(s, s', step);
      BystanderKeeps(s, s');
    } else {
      BystanderKeeps(s, s');
    }
  }
}
