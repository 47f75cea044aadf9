/** The other side of the cap on automatic retries: what it leaves to a read, and
    where it does not bind.

    After a success one failure is free: until a second started run fails, every
    read submits a run. A portfolio that retains a single run never shows two
    failures, so its reads submit without end. */
module RetryLimits {
  import opened Prelude
  import opened RunDb
  import opened ReadRetry

  // ------------------------------------- the invariant for every retention

  lemma MoveCore(p: PortfolioId, s: State, step: Step)
    requires Core(s, p) && (step.Load? || step.List?)
    ensures Core(Apply(p, s, step), p)
  {
    assert Apply(p, s, step).db == s.db && Apply(p, s, step).base == s.base;
  }

  lemma SubmitCore(p: PortfolioId, s: State, step: Step)
    requires Core(s, p) && (step.ReadSubmit? || step.OtherSubmit?)
    ensures Core(Apply(p, s, step), p)
  {
    var s' := Apply(p, s, step);
    var trigger := if step.OtherSubmit? then step.trigger else Manual;
    if s'.db != s.db {
      CreateRunKeeps(s.db, p, trigger);
      CreateRows(p, s, s', trigger);
    }
  }

  lemma SettingCore(p: PortfolioId, s: State, step: Step)
    requires Core(s, p) && (step.SetRetention? || step.Tick?)
    ensures Core(Apply(p, s, step), p)
  {
    if step.Tick? {
      TickDb(s.db, Apply(p, s, step).db);
    } else if step.n >= 1 {
      SetRetentionKeeps(s.db, p, step.n);
    }
  }

  lemma RejectCore(p: PortfolioId, s: State, r: RunId)
    requires Core(s, p) && Is(s.db, p, r, Queued)
    ensures Core(s.(db := UpdateRunFailed(s.db, r)), p) && Core(s.(db := MarkFailed(s.db, p, r)), p)
  {
    UpdateRunFailedKeeps(s.db, p, r);
    UnstartedFailureRows(p, s, UpdateRunFailed(s.db, r), r);
    MarkFailedKeeps(s.db, p, r);
    UnstartedFailureRows(p, s, MarkFailed(s.db, p, r), r);
  }

  lemma WriteCore(p: PortfolioId, s: State, step: Step)
    requires Core(s, p) && (step.Start? || step.Succeed?)
    ensures Core(Apply(p, s, step), p)
  {
    var s' := Apply(p, s, step);
    if step.Start? && Is(s.db, p, step.r, Queued) {
      MarkRunningKeeps(s.db, p, step.r);
      StartRows(p, s, s', step.r);
    } else if step.Succeed? && Is(s.db, p, step.r, RunStatus.Running) {
      MarkReadyKeeps(s.db, p, step.r, Path(p, step.r));
      SucceedRows(p, s, s', step.r);
    }
  }

  lemma FailCore(p: PortfolioId, s: State, r: RunId)
    requires Core(s, p)
    ensures Core(Apply(p, s, Fail(r)), p)
  {
    if Is(s.db, p, r, RunStatus.Running) {
      MarkFailedKeeps(s.db, p, r);
      FailedStatus(p, s, r);
      FailRows(p, s, Apply(p, s, Fail(r)), r);
    } else if Is(s.db, p, r, Queued) {
      RejectCore(p, s, r);
    }
  }

  /** Either nothing of p was running, or its running run r fails. */
  lemma RestartCases(p: PortfolioId, s: State) returns (r: RunId)
    requires Core(s, p)
    ensures var s' := Apply(p, s, Restart);
            && s'.db == MarkAllRunningAsFailed(s.db) && s'.base == s.base
            && if HasRunningRun(s.db, p) then RunFails(p, s, s', r)
               else s' == s.(db := MarkAllRunningAsFailed(s.db), readers := map[])
  {
    var s' := Apply(p, s, Restart);
    assert RunsOf(MarkAllRunningAsFailed(s.db), p) == RunsOf(s.db, p);
    r := 0;
    if exists x :: Is(s.db, p, x, RunStatus.Running) {
      r :| Is(s.db, p, r, RunStatus.Running)
           && s' == CountFailure(s.(db := MarkAllRunningAsFailed(s.db), readers := map[]), r);
      OnlyInFlight(s.db, p, r);
    } else {
      assert forall x :: x in s.db.runs && s.db.runs[x].pid == p && s.db.runs[x].status.Running? ==>
               Is(s.db, p, x, RunStatus.Running);
    }
  }

  lemma RestartCore(p: PortfolioId, s: State)
    requires Core(s, p)
    ensures Core(Apply(p, s, Restart), p)
  {
    var s' := Apply(p, s, Restart);
    var r := RestartCases(p, s);
    MarkAllKeeps(s.db);
    if HasRunningRun(s.db, p) {
      FailRows(p, s, s', r);
    } else {
      IdleRestartRows(p, s, s');
    }
  }

  lemma CoreKeeps(p: PortfolioId, s: State, step: Step)
    requires Core(s, p)
    ensures Core(Apply(p, s, step), p)
  {
    match step {
      case Load(_) => MoveCore(p, s, step);
      case List(_, _) => MoveCore(p, s, step);
      case ReadSubmit(_) => SubmitCore(p, s, step);
      case OtherSubmit(_) => SubmitCore(p, s, step);
      case Reject(r) =>
        if Is(s.db, p, r, Queued) {
          RejectCore(p, s, r);
        }
      case Start(_) => WriteCore(p, s, step);
      case Succeed(_) => WriteCore(p, s, step);
      case Fail(r) => FailCore(p, s, r);
      case Prune =>
        PruneRunsKeeps(s.db, p);
        PruneRows(p, s, Apply(p, s, Prune));
      case SetRetention(_) => SettingCore(p, s, step);
      case Restart => RestartCore(p, s);
      case Tick(_) => SettingCore(p, s, step);
    }
  }

  // --------------------------------------------- every row has its success

  /** Some success since which no older row matters is at or above x. */
  ghost predicate SuccessAbove(s: State, p: PortfolioId, x: RunId) {
    exists m :: m in RunsOf(s.db, p) && x <= m < s.base && s.db.runs[m].status.Success?
  }

  /** Rows from before the last success are covered by a successful row, and the
      rows since then show no failure that was not counted. */
  ghost predicate Traced(s: State, p: PortfolioId) {
    && |StartedFailures(s, p)| <= s.fails
    && (forall r :: r in RunsOf(s.db, p) && s.db.runs[r].status.Success? ==> s.db.runs[r].startedAt.Some?)
    && (forall x {:trigger SuccessAbove(s, p, x)} :: x in RunsOf(s.db, p) && x < s.base ==> SuccessAbove(s, p, x))
  }

  /** No row settles or goes: rows of p stay, settled ones unchanged. */
  ghost predicate KeepsSettled(s: State, s': State, p: PortfolioId) {
    && s'.base == s.base
    && (forall r :: r in RunsOf(s.db, p) ==> r in RunsOf(s'.db, p))
    && (forall r :: r in RunsOf(s.db, p) && s.db.runs[r].status.Success? ==> s'.db.runs[r] == s.db.runs[r])
    && (forall r :: r in RunsOf(s'.db, p) && s'.db.runs[r].status.Success? ==>
          r in RunsOf(s.db, p) && s.db.runs[r].status.Success?)
    && (forall r :: r in RunsOf(s'.db, p) && r < s.base ==> r in RunsOf(s.db, p))
  }

  lemma SettledTraced(s: State, s': State, p: PortfolioId)
    requires Traced(s, p) && KeepsSettled(s, s', p) && |StartedFailures(s', p)| <= s'.fails
    ensures Traced(s', p)
  {
    forall x | x in RunsOf(s'.db, p) && x < s'.base
      ensures SuccessAbove(s', p, x)
    {
      assert SuccessAbove(s, p, x);
      var m :| m in RunsOf(s.db, p) && x <= m < s.base && s.db.runs[m].status.Success?;
      assert m in RunsOf(s'.db, p);
    }
  }

  lemma SameRunsTraced(p: PortfolioId, s: State, s': State)
    requires Traced(s, p) && s'.db.runs == s.db.runs && s'.base == s.base && s'.fails == s.fails
    ensures Traced(s', p)
  {
    assert RunsOf(s'.db, p) == RunsOf(s.db, p);
    assert StartedFailures(s', p) == StartedFailures(s, p);
    SettledTraced(s, s', p);
  }

  lemma CreateTraced(p: PortfolioId, s: State, s': State, trigger: Trigger)
    requires IdsBounded(s.db) && s.base <= s.db.nextRun && Traced(s, p) && CreateRun(s.db, p, trigger).Ok?
    requires s'.db == CreateRun(s.db, p, trigger).value.0 && s'.base == s.base && s'.fails == s.fails
    ensures Traced(s', p)
  {
    var r := s.db.nextRun;
    assert r !in s.db.runs && RunsOf(s'.db, p) == RunsOf(s.db, p) + {r};
    assert StartedFailures(s', p) == StartedFailures(s, p);
    SettledTraced(s, s', p);
  }

  /** Steps that change no row. */
  lemma QuietTraced(p: PortfolioId, s: State, step: Step)
    requires Traced(s, p) && (step.Load? || step.List? || step.SetRetention? || step.Tick?)
    ensures Traced(Apply(p, s, step), p)
  {
    SameRunsTraced(p, s, Apply(p, s, step));
  }

  lemma SubmitTraced(p: PortfolioId, s: State, step: Step)
    requires IdsBounded(s.db) && s.base <= s.db.nextRun && Traced(s, p) && (step.ReadSubmit? || step.OtherSubmit?)
    ensures Traced(Apply(p, s, step), p)
  {
    var s' := Apply(p, s, step);
    if s'.db == s.db {
      SameRunsTraced(p, s, s');
    } else {
      CreateTraced(p, s, s', if step.OtherSubmit? then step.trigger else Manual);
    }
  }

  lemma UnstartedTraced(p: PortfolioId, s: State, s': State, r: RunId)
    requires Traced(s, p) && Is(s.db, p, r, Queued) && r in s'.db.runs
    requires s'.db.runs == s.db.runs[r := s'.db.runs[r]] && s'.db.runs[r].pid == p
    requires s'.db.runs[r].status.Running? || (s'.db.runs[r].status.Failed? && s'.db.runs[r].startedAt.None?)
    requires s'.base == s.base && s'.fails == s.fails
    ensures Traced(s', p)
  {
    assert StartedFailures(s', p) == StartedFailures(s, p);
    SettledTraced(s, s', p);
  }

  lemma FailureTraced(p: PortfolioId, s: State, s': State, r: RunId)
    requires RowsOrdered(s, p) && Traced(s, p) && RunFails(p, s, s', r)
    ensures Traced(s', p)
  {
    OneMoreFailure(p, s, s', r);
    SettledTraced(s, s', p);
  }

  lemma SuccessTraced(p: PortfolioId, s: State, r: RunId)
    requires IdsBounded(s.db) && InFlightIsNewest(s.db) && Traced(s, p)
    requires Is(s.db, p, r, RunStatus.Running) && s.db.runs[r].startedAt.Some?
    ensures Traced(Apply(p, s, Succeed(r)), p)
  {
    var s' := Apply(p, s, Succeed(r));
    SuccessRow(p, s, r);
    assert InFlight(s.db.runs[r]);
    forall x | x in RunsOf(s'.db, p)
      ensures SuccessAbove(s', p, x)
    {
      CoveredBy(s', p, x, r);
    }
  }

  lemma CoveredBy(s: State, p: PortfolioId, x: RunId, m: RunId)
    requires Is(s.db, p, m, Success) && x <= m < s.base
    ensures SuccessAbove(s, p, x)
  {
    assert m in RunsOf(s.db, p);
  }

  lemma SuccessRow(p: PortfolioId, s: State, r: RunId)
    requires IdsBounded(s.db) && Is(s.db, p, r, RunStatus.Running)
    ensures var s' := Apply(p, s, Succeed(r));
            && RunsOf(s'.db, p) == RunsOf(s.db, p) && StartedFailures(s', p) == {}
            && s'.base == s.db.nextRun && s'.fails == 0
            && s'.db.runs == s.db.runs[r := s.db.runs[r].(status := Success, snapshot := Some(Path(p, r)))]
  {
  }

  lemma PruneTraced(p: PortfolioId, s: State)
    requires p in s.db.portfolios && Traced(s, p)
    ensures Traced(Apply(p, s, Prune), p)
  {
    var s' := Apply(p, s, Prune);
    PruneKeepsAbove(s.db, p);
    assert StartedFailures(s', p) <= StartedFailures(s, p);
    SubsetCard(StartedFailures(s', p), StartedFailures(s, p));
    forall x | x in RunsOf(s'.db, p) && x < s'.base
      ensures SuccessAbove(s', p, x)
    {
      assert SuccessAbove(s, p, x);
      var m :| m in RunsOf(s.db, p) && x <= m < s.base && s.db.runs[m].status.Success?;
      assert m in RunsOf(s'.db, p);
    }
  }

  lemma PruneKeepsAbove(db: Db, p: PortfolioId)
    requires p in db.portfolios
    ensures forall r :: r in RunsOf(PruneRuns(db, p), p) ==>
              r in RunsOf(db, p) && r in PruneRuns(db, p).runs && PruneRuns(db, p).runs[r] == db.runs[r]
    ensures forall x, m :: x in RunsOf(PruneRuns(db, p), p) && m in RunsOf(db, p) && x <= m ==>
              m in RunsOf(PruneRuns(db, p), p)
  {
    PruneExact(db, p);
  }

  lemma RestartTraced(p: PortfolioId, s: State)
    requires Core(s, p) && Traced(s, p)
    ensures Traced(Apply(p, s, Restart), p)
  {
    var s' := Apply(p, s, Restart);
    var r := RestartCases(p, s);
    if HasRunningRun(s.db, p) {
      FailureTraced(p, s, s', r);
    } else {
      assert RunsOf(s'.db, p) == RunsOf(s.db, p);
      assert StartedFailures(s', p) == StartedFailures(s, p);
      SettledTraced(s, s', p);
    }
  }

  lemma TracedKeeps(p: PortfolioId, s: State, step: Step)
    requires Core(s, p) && Traced(s, p)
    ensures Traced(Apply(p, s, step), p)
  {
    var s' := Apply(p, s, step);
    match step {
      case Load(_) => QuietTraced(p, s, step);
      case List(_, _) => QuietTraced(p, s, step);
      case ReadSubmit(_) => SubmitTraced(p, s, step);
      case OtherSubmit(_) => SubmitTraced(p, s, step);
      case Reject(r) =>
        if Is(s.db, p, r, Queued) {
          assert r in RunsOf(s.db, p);
          UnstartedTraced(p, s, s', r);
        }
      case Start(r) =>
        if Is(s.db, p, r, Queued) {
          UnstartedTraced(p, s, s', r);
        }
      case Succeed(r) =>
        if Is(s.db, p, r, RunStatus.Running) {
          assert r in RunsOf(s.db, p);
          SuccessTraced(p, s, r);
        }
      case Fail(r) =>
        if Is(s.db, p, r, RunStatus.Running) {
          FailedStatus(p, s, r);
          FailureTraced(p, s, s', r);
        } else if Is(s.db, p, r, Queued) {
          assert r in RunsOf(s.db, p);
          UnstartedTraced(p, s, s', r);
        }
      case Prune => PruneTraced(p, s);
      case SetRetention(_) => QuietTraced(p, s, step);
      case Restart => RestartTraced(p, s);
      case Tick(_) => QuietTraced(p, s, step);
    }
  }

  lemma {:induction false} ExecTraced(p: PortfolioId, retention: nat, now: Stamp, steps: seq<Step>)
    requires retention >= 1
    ensures var s := Exec(p, Fresh(p, retention, now), steps); Core(s, p) && Traced(s, p)
  {
    if steps == [] {
      FreshTraced(p, retention, now);
    } else {
      var n := |steps| - 1;
      var s := Exec(p, Fresh(p, retention, now), steps[..n]);
      ExecTraced(p, retention, now, steps[..n]);
      CoreKeeps(p, s, steps[n]);
      TracedKeeps(p, s, steps[n]);
    }
  }

  lemma FreshTraced(p: PortfolioId, retention: nat, now: Stamp)
    requires retention >= 1
    ensures Core(Fresh(p, retention, now), p) && Traced(Fresh(p, retention, now), p)
  {
    var s := Fresh(p, retention, now);
    assert RunsOf(s.db, p) == {};
    assert StartedFailures(s, p) == {};
  }

  // ------------------------------------------------------------ free retries

  /** One of the first two entries of the list is a run that failed before it started. */
  ghost predicate UnstartedFailureAtHead(db: Db, list: seq<Entry>) {
    exists i :: 0 <= i < |list| && i < 2 && list[i].id in db.runs
                && db.runs[list[i].id].status.Failed? && db.runs[list[i].id].startedAt.None?
  }

  /** Two started failures at the head of the list are both newer than the last success. */
  lemma HeadIsRecent(s: State, p: PortfolioId, list: seq<Entry>)
    requires RowsOrdered(s, p) && Traced(s, p) && IsListing(s.db, p, list) && |list| >= 2
    requires forall i :: 0 <= i < 2 ==> list[i].status.Failed? && s.db.runs[list[i].id].startedAt.Some?
    ensures list[0].id in StartedFailures(s, p) && list[1].id in StartedFailures(s, p)
  {
    ListedByStart(s, p, list, 0, 1);
    assert list[0].id in RunsOf(s.db, p) && list[1].id in RunsOf(s.db, p);
    assert list[1].id < s.base ==> SuccessAbove(s, p, list[1].id);
  }

  /** Started runs are listed newest first. */
  lemma ListedByStart(s: State, p: PortfolioId, list: seq<Entry>, i: nat, j: nat)
    requires RowsOrdered(s, p) && IsListing(s.db, p, list) && i < j < |list|
    requires s.db.runs[list[i].id].startedAt.Some? && s.db.runs[list[j].id].startedAt.Some?
    ensures list[j].id < list[i].id
  {
    assert list[i].id in RunsOf(s.db, p) && list[j].id in RunsOf(s.db, p) && list[i].id != list[j].id;
    assert StartKey(s.db.runs[list[j].id]) <= StartKey(s.db.runs[list[i].id]);
  }

  lemma TwoInSet(rs: set<RunId>, a: RunId, b: RunId)
    requires a in rs && b in rs && a != b
    ensures |rs| >= 2
  {
    SubsetCard({a, b}, rs);
  }

  lemma AtMostOneAtHead(s: State, p: PortfolioId, list: seq<Entry>)
    requires RowsOrdered(s, p) && Traced(s, p) && IsListing(s.db, p, list) && s.fails <= 1
    requires !UnstartedFailureAtHead(s.db, list)
    ensures FailedHead(list) <= 1
  {
    if FailedHead(list) >= 2 {
      HeadFails(list);
      forall i | 0 <= i < 2
        ensures s.db.runs[list[i].id].startedAt.Some?
      {
        assert list[i].id in RunsOf(s.db, p);
      }
      HeadIsRecent(s, p, list);
      TwoInSet(StartedFailures(s, p), list[0].id, list[1].id);
    }
  }

  lemma HeadFails(list: seq<Entry>)
    requires FailedHead(list) >= 2
    ensures |list| >= 2 && list[0].status.Failed? && list[1].status.Failed?
  {
  }

  lemma ListedIdle(db: Db, p: PortfolioId, list: seq<Entry>)
    requires IsListing(db, p, list) && !HasInFlight(db, p)
    ensures forall e :: e in list ==> !IsInFlight(e)
  {
    forall e | e in list
      ensures !IsInFlight(e)
    {
      var i :| 0 <= i < |list| && list[i] == e;
      assert list[i].id in RunsOf(db, p);
    }
  }

  /** The free retry. Whatever the retention and in every interleaving: while at
      most one started run has failed since the last success and nothing is in
      flight, a read that lists the runs goes on to submit, whatever status it
      loaded, unless a run that was never started is at the head of the list. */
  lemma FreeRetry(p: PortfolioId, retention: nat, now: Stamp, steps: seq<Step>, status: PortfolioStatus,
                  list: seq<Entry>)
    requires retention >= 1
    requires var s := Exec(p, Fresh(p, retention, now), steps);
             && s.fails <= 1 && !HasInFlight(s.db, p) && IsListing(s.db, p, list)
             && !UnstartedFailureAtHead(s.db, list)
    ensures Decide(status, list) == Resubmit
  {
    var s := Exec(p, Fresh(p, retention, now), steps);
    ExecTraced(p, retention, now, steps);
    ListedIdle(s.db, p, list);
    AtMostOneAtHead(s, p, list);
  }

  /** So such a read, if nothing intervenes, creates a queued run. */
  lemma FreeRetryRuns(p: PortfolioId, retention: nat, now: Stamp, steps: seq<Step>, i: nat, list: seq<Entry>)
    requires retention >= 1
    requires var s := Exec(p, Fresh(p, retention, now), steps);
             && s.fails <= 1 && !HasInFlight(s.db, p) && IsListing(s.db, p, list)
             && !UnstartedFailureAtHead(s.db, list)
    ensures var s := Exec(p, Fresh(p, retention, now), steps);
            var s' := Exec(p, Fresh(p, retention, now), steps + [Load(i)] + [List(i, list)] + [ReadSubmit(i)]);
            && s'.db.runs == s.db.runs[s.db.nextRun := RunRow(p, RunStatus.Queued, Manual, None, None)]
            && s'.current == Some(s.db.nextRun)
  {
    var s := Exec(p, Fresh(p, retention, now), steps);
    ExecTraced(p, retention, now, steps);
    FreeRetry(p, retention, now, steps, s.db.portfolios[p].status, list);
    ExecThree(p, Fresh(p, retention, now), steps, Load(i), List(i, list), ReadSubmit(i));
    WholeRead(p, s, i, list);
  }

  lemma WholeRead(p: PortfolioId, s: State, i: nat, list: seq<Entry>)
    requires p in s.db.portfolios && !HasInFlight(s.db, p) && IsListing(s.db, p, list)
    requires Decide(s.db.portfolios[p].status, list) == Resubmit
    ensures var s' := Apply(p, Apply(p, Apply(p, s, Load(i)), List(i, list)), ReadSubmit(i));
            && s'.db.runs == s.db.runs[s.db.nextRun := RunRow(p, RunStatus.Queued, Manual, None, None)]
            && s'.current == Some(s.db.nextRun)
  {
    var loaded := Apply(p, s, Load(i));
    ListedReader(p, loaded, i, list);
  }

  // ------------------------------------------------- what a read loads

  lemma StaysReady(p: PortfolioId, s: State, step: Step)
    requires p in s.db.portfolios && s.db.portfolios[p].status == PortfolioStatus.Ready
    requires !step.Start? && !step.Fail?
    ensures p in Apply(p, s, step).db.portfolios
    ensures Apply(p, s, step).db.portfolios[p].status == PortfolioStatus.Ready
  {
  }

  lemma {:induction false} ReadyMeanwhile(p: PortfolioId, s: State, steps: seq<Step>)
    requires p in s.db.portfolios && s.db.portfolios[p].status == PortfolioStatus.Ready
    requires forall j :: 0 <= j < |steps| ==> !steps[j].Start? && !steps[j].Fail?
    ensures var s' := Exec(p, s, steps);
            p in s'.db.portfolios && s'.db.portfolios[p].status == PortfolioStatus.Ready
  {
    if steps != [] {
      var n := |steps| - 1;
      ReadyMeanwhile(p, s, steps[..n]);
      StaysReady(p, Exec(p, s, steps[..n]), steps[n]);
    }
  }

  /** A read that loads the portfolio after a run of it succeeded, with none
      started or failed since, sees it ready. */
  lemma ReadSeesReady(p: PortfolioId, s: State, r: RunId, more: seq<Step>, i: nat)
    requires p in s.db.portfolios && Is(s.db, p, r, RunStatus.Running)
    requires forall j :: 0 <= j < |more| ==> !more[j].Start? && !more[j].Fail?
    ensures var s' := Apply(p, Exec(p, Apply(p, s, Succeed(r)), more), Load(i));
            i in s'.readers && s'.readers[i].Loaded? && s'.readers[i].status == PortfolioStatus.Ready
  {
    ReadyMeanwhile(p, Apply(p, s, Succeed(r)), more);
  }

  // -------------------------------------------------- a retention of one run

  /** With a single row listed and nothing in flight, a read submits. */
  lemma OneRowResubmits(db: Db, p: PortfolioId, status: PortfolioStatus, list: seq<Entry>)
    requires !HasInFlight(db, p) && IsListing(db, p, list) && |RunsOf(db, p)| <= 1
    ensures Decide(status, list) == Resubmit
  {
    ListedIdle(db, p, list);
    if FailedHead(list) >= 2 {
      HeadFails(list);
      assert list[0].id in RunsOf(db, p) && list[1].id in RunsOf(db, p);
      TwoInSet(RunsOf(db, p), list[0].id, list[1].id);
    }
  }

  /** Retention is one, at most one row is left, it failed, and no read is under way. */
  ghost predicate Quiet(p: PortfolioId, s: State, list: seq<Entry>) {
    && IdsBounded(s.db) && p in s.db.portfolios && s.db.portfolios[p].retention == 1 && s.readers == map[]
    && |RunsOf(s.db, p)| <= 1 && !HasInFlight(s.db, p) && IsListing(s.db, p, list)
  }

  /** The run r that the read created starts and fails. */
  lemma RunStartsAndFails(p: PortfolioId, s: State, r: RunId)
    requires IdsBounded(s.db) && p in s.db.portfolios && s.current == Some(r) && s.timely
    requires Is(s.db, p, r, Queued) && forall x :: x in RunsOf(s.db, p) && InFlight(s.db.runs[x]) ==> x == r
    ensures var s' := Apply(p, Apply(p, s, Start(r)), Fail(r));
            && IdsBounded(s'.db) && p in s'.db.portfolios && !HasInFlight(s'.db, p)
            && s'.db.portfolios[p].retention == s.db.portfolios[p].retention && s'.readers == s.readers
            && s'.timelyFails == s.timelyFails + 1
            && r in s'.db.runs && s'.db.runs[r].pid == p && s'.db.runs[r].status.Failed?
            && (forall x :: x in RunsOf(s'.db, p) ==> x in RunsOf(s.db, p))
  {
  }

  /** A prune to one row leaves the newest. */
  lemma PruneToOne(p: PortfolioId, s: State, r: RunId)
    requires IdsBounded(s.db) && p in s.db.portfolios && s.db.portfolios[p].retention == 1 && s.readers == map[]
    requires !HasInFlight(s.db, p) && Is(s.db, p, r, RunStatus.Failed) && forall x :: x in RunsOf(s.db, p) ==> x <= r
    ensures Quiet(p, Apply(p, s, Prune), [Entry(r, RunStatus.Failed)])
  {
    var s' := Apply(p, s, Prune);
    PruneExact(s.db, p);
    assert Newer(RunsOf(s.db, p), r) == {};
    assert r in RunsOf(s'.db, p);
    forall x | x in RunsOf(s'.db, p)
      ensures x == r
    {
      if x != r {
        TwoInSet(RunsOf(s'.db, p), x, r);
      }
    }
    assert RunsOf(s'.db, p) == {r};
    ListsOne(s'.db, p, r);
  }

  lemma ListsOne(db: Db, p: PortfolioId, r: RunId)
    requires RunsOf(db, p) == {r} && Is(db, p, r, RunStatus.Failed)
    ensures IsListing(db, p, [Entry(r, RunStatus.Failed)])
  {
    var list := [Entry(r, RunStatus.Failed)];
    forall x | x in RunsOf(db, p)
      ensures exists i :: 0 <= i < |list| && list[i].id == x
    {
      assert list[0].id == x;
    }
  }

  /** One more read in a row submits a run that fails. */
  lemma OnceMore(p: PortfolioId, s: State, list: seq<Entry>)
    requires Quiet(p, s, list)
    ensures var r := s.db.nextRun;
            var read := Apply(p, Apply(p, Apply(p, s, Load(0)), List(0, list)), ReadSubmit(0));
            var s' := Apply(p, Apply(p, Apply(p, read, Start(r)), Fail(r)), Prune);
            Quiet(p, s', [Entry(r, RunStatus.Failed)]) && s'.timelyFails == s.timelyFails + 1
  {
    var r := s.db.nextRun;
    OneRowResubmits(s.db, p, s.db.portfolios[p].status, list);
    var read := Apply(p, Apply(p, Apply(p, s, Load(0)), List(0, list)), ReadSubmit(0));
    TimelyRead(p, s, list);
    RunStartsAndFails(p, read, r);
    PruneToOne(p, Apply(p, Apply(p, read, Start(r)), Fail(r)), r);
  }

  lemma TimelyRead(p: PortfolioId, s: State, list: seq<Entry>)
    requires Quiet(p, s, list) && Decide(s.db.portfolios[p].status, list) == Resubmit
    ensures var r := s.db.nextRun;
            var s' := Apply(p, Apply(p, Apply(p, s, Load(0)), List(0, list)), ReadSubmit(0));
            && IdsBounded(s'.db) && s'.db.portfolios == s.db.portfolios && s'.readers == map[]
            && s'.current == Some(r) && s'.timely && s'.timelyFails == s.timelyFails
            && Is(s'.db, p, r, Queued) && (forall x :: x in RunsOf(s'.db, p) ==> x <= r)
            && (forall x :: x in RunsOf(s'.db, p) && InFlight(s'.db.runs[x]) ==> x == r)
  {
    WholeRead(p, s, 0, list);
  }

  /** After some steps that start with k failures of timely reads, all is quiet. */
  ghost predicate FailedTimes(p: PortfolioId, now: Stamp, steps: seq<Step>, list: seq<Entry>, k: nat) {
    && RetainsTwo(steps) && Quiet(p, Exec(p, Fresh(p, 1, now), steps), list)
    && Exec(p, Fresh(p, 1, now), steps).timelyFails == k
  }

  lemma NextFailure(p: PortfolioId, now: Stamp, before: seq<Step>, shown: seq<Entry>, k: nat)
      returns (steps: seq<Step>, list: seq<Entry>)
    requires FailedTimes(p, now, before, shown, k)
    ensures FailedTimes(p, now, steps, list, k + 1)
  {
    var s0 := Fresh(p, 1, now);
    var r := Exec(p, s0, before).db.nextRun;
    OnceMore(p, Exec(p, s0, before), shown);
    var read := before + [Load(0)] + [List(0, shown)] + [ReadSubmit(0)];
    ExecThree(p, s0, before, Load(0), List(0, shown), ReadSubmit(0));
    ExecThree(p, s0, read, Start(r), Fail(r), Prune);
    steps, list := read + [Start(r)] + [Fail(r)] + [Prune], [Entry(r, RunStatus.Failed)];
  }

  lemma {:induction false} FailuresAtOne(p: PortfolioId, now: Stamp, k: nat)
      returns (steps: seq<Step>, list: seq<Entry>)
    ensures FailedTimes(p, now, steps, list, k)
  {
    if k == 0 {
      steps, list := [], [];
      assert RunsOf(Fresh(p, 1, now).db, p) == {};
    } else {
      steps, list := FailuresAtOne(p, now, k - 1);
      steps, list := NextFailure(p, now, steps, list, k - 1);
    }
  }

  /** A portfolio that retains one run has, for every k, an execution in which k
      reads one after the other submit a run that fails. */
  lemma UnboundedAtOne(p: PortfolioId, now: Stamp, k: nat)
    ensures exists steps :: RetainsTwo(steps) && Exec(p, Fresh(p, 1, now), steps).timelyFails == k
  {
    var steps, list := FailuresAtOne(p, now, k);
    assert FailedTimes(p, now, steps, list, k);
  }

  /** Where the cap holds: if and only if the portfolio retains at least two runs. */
  lemma CapIffTwoRetained(p: PortfolioId, retention: nat, now: Stamp)
    requires retention >= 1
    ensures retention >= 2 <==>
              forall steps :: RetainsTwo(steps) ==> Exec(p, Fresh(p, retention, now), steps).timelyFails <= 2
  {
    if retention >= 2 {
      forall steps | RetainsTwo(steps)
        ensures Exec(p, Fresh(p, retention, now), steps).timelyFails <= 2
      {
        AtMostTwoTimelyFailures(p, retention, now, steps);
      }
    } else {
      UnboundedAtOne(p, now, 3);
    }
  }
}
