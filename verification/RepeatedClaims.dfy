/** An endless execution, all of it at one instant, in which the scheduler claims
    and submits the same portfolio over and over: each run fails while its
    portfolio is loaded, so it never starts, and the portfolio is due again at once. */
module RepeatedClaims {
  import opened RunDb
  import opened RunProtocol
  import opened Scheduler

  // ------------------------------------------------------------------ phases

  /** Where the one worker's only portfolio, number 0, is in its cycle. */
  datatype Phase = AtSubmit | InChannel | AtWorker | Unloadable | MarkedFailed | NothingToDelete | Resting | JustClaimed

  predicate Unstarted(row: RunRow) {
    !InFlight(row) && row.startedAt.None? && row.snapshot.None?
  }

  /** One worker, one open-ended portfolio, nothing rejected, and the clock at now. */
  ghost predicate Setting(s: Sys, now: Stamp) {
    && s.up && s.maxConcurrency == 1 && s.db.now == now && s.rejected == {}
    && s.db.portfolios.Keys == {0} && s.db.portfolios[0].openEnded
    && (forall r :: r in s.db.runs ==> r < s.db.nextRun)
  }

  /** No run has ever started, and all are settled but possibly r. */
  ghost predicate OnlyOpen(db: Db, r: RunId) {
    && r in db.runs && db.runs[r].pid == 0 && db.runs[r].startedAt.None? && db.runs[r].snapshot.None?
    && (forall x :: x in db.runs && x != r ==> Unstarted(db.runs[x]))
  }

  ghost predicate AllUnstarted(db: Db) {
    forall x :: x in db.runs ==> Unstarted(db.runs[x])
  }

  /** The run is with l, which is at pc. */
  ghost predicate OneHolderAt(s: Sys, l: Loc, pc: Pc) {
    l in s.procs && s.procs == map[l := Proc(Task(0, s.procs[l].task.rid), pc)] && OnlyOpen(s.db, s.procs[l].task.rid)
  }

  ghost predicate InPhase(s: Sys, now: Stamp, ph: Phase) {
    && Setting(s, now)
    && s.claimed == (if ph.JustClaimed? then [0] else [])
    && (if ph.InChannel? then s.tail == s.head + 1 else s.tail == s.head)
    && match ph
       case AtSubmit => OneHolderAt(s, Submitter(0), Created)
       case InChannel => OneHolderAt(s, Slot(s.head), Waiting)
       case AtWorker => OneHolderAt(s, Worker(0), Taken)
       case Unloadable => OneHolderAt(s, Worker(0), Failing)
       case MarkedFailed => OneHolderAt(s, Worker(0), Pruning) && Settled(s)
       case NothingToDelete => OneHolder(s, Worker(0), Deleting([])) && Settled(s)
       case Resting => s.procs == map[] && Settled(s)
       case JustClaimed => s.procs == map[] && Settled(s)
  }

  ghost predicate OneHolder(s: Sys, l: Loc, pc: Pc) {
    l in s.procs && s.procs == map[l := Proc(s.procs[l].task, pc)]
  }

  ghost predicate Settled(s: Sys)
    requires 0 in s.db.portfolios
  {
    s.db.portfolios[0].status.Failed? && AllUnstarted(s.db)
  }

  function After(ph: Phase): Phase {
    match ph
    case AtSubmit => InChannel
    case InChannel => AtWorker
    case AtWorker => Unloadable
    case Unloadable => MarkedFailed
    case MarkedFailed => NothingToDelete
    case NothingToDelete => Resting
    case Resting => JustClaimed
    case JustClaimed => AtSubmit
  }

  function StepOf(ph: Phase): Step {
    match ph
    case AtSubmit => OfferS(0)
    case InChannel => TakeS(0)
    case AtWorker => LoadS(0, false)
    case Unloadable => MarkFailedS(0, true)
    case MarkedFailed => PruneS(0, true, [])
    case NothingToDelete => FinishS(0)
    case Resting => ClaimS([0])
    case JustClaimed => SubmitClaimedS(0)
  }

  ghost predicate Advances(s: Sys, s': Sys, now: Stamp, ph: Phase) {
    NextStep(s, s', StepOf(ph)) && InPhase(s', now, After(ph))
  }

  // ------------------------------------------------------- one lemma a phase

  lemma FromAtSubmit(s: Sys, now: Stamp) returns (s': Sys)
    requires InPhase(s, now, AtSubmit)
    ensures Advances(s, s', now, AtSubmit)
  {
    var t := s.procs[Submitter(0)].task;
    s' := s.(procs := (s.procs - {Submitter(0)})[Slot(s.tail) := Proc(t, Waiting)], tail := s.tail + 1);
    assert s'.procs == map[Slot(s.head) := Proc(t, Waiting)];
  }

  lemma FromInChannel(s: Sys, now: Stamp) returns (s': Sys)
    requires InPhase(s, now, InChannel)
    ensures Advances(s, s', now, InChannel)
  {
    var t := s.procs[Slot(s.head)].task;
    s' := s.(procs := (s.procs - {Slot(s.head)})[Worker(0) := Proc(t, Taken)],
             head := s.head + 1, executed := s.executed + [t.rid]);
    assert s'.procs == map[Worker(0) := Proc(t, Taken)];
  }

  /** The portfolio cannot be loaded. */
  lemma FromAtWorker(s: Sys, now: Stamp) returns (s': Sys)
    requires InPhase(s, now, AtWorker)
    ensures Advances(s, s', now, AtWorker)
  {
    s' := Goto(s, Worker(0), Failing);
    assert s'.procs == map[Worker(0) := Proc(s.procs[Worker(0)].task, Failing)];
  }

  lemma FromUnloadable(s: Sys, now: Stamp) returns (s': Sys)
    requires InPhase(s, now, Unloadable)
    ensures Advances(s, s', now, Unloadable)
  {
    var t := s.procs[Worker(0)].task;
    s' := Goto(s, Worker(0), Pruning).(db := MarkFailed(s.db, t.pid, t.rid));
    assert s'.procs == map[Worker(0) := Proc(t, Pruning)];
  }

  /** The prune finds no snapshot to remove. */
  lemma FromMarkedFailed(s: Sys, now: Stamp) returns (s': Sys)
    requires InPhase(s, now, MarkedFailed)
    ensures Advances(s, s', now, MarkedFailed)
  {
    var t := s.procs[Worker(0)].task;
    assert PrunedPaths(s.db, 0) == {};
    s' := Goto(s, Worker(0), Deleting([])).(db := PruneRuns(s.db, 0), evicted := s.evicted + Evictions(s.db, 0));
    assert s'.procs == map[Worker(0) := Proc(t, Deleting([]))];
  }

  lemma FromNothingToDelete(s: Sys, now: Stamp) returns (s': Sys)
    requires InPhase(s, now, NothingToDelete)
    ensures Advances(s, s', now, NothingToDelete)
  {
    s' := Leave(s, Worker(0));
    assert s'.procs == map[];
  }

  lemma FromResting(s: Sys, now: Stamp) returns (s': Sys)
    requires InPhase(s, now, Resting)
    ensures Advances(s, s', now, Resting)
  {
    s' := s.(claimed := [0]);
    assert Due(s.db, 0);
  }

  lemma FromJustClaimed(s: Sys, now: Stamp) returns (s': Sys)
    requires InPhase(s, now, JustClaimed)
    ensures Advances(s, s', now, JustClaimed)
  {
    var rest := s.(claimed := []);
    assert s.claimed[1..] == [];
    s' := Resubmitted(rest, now, Scheduled);
  }

  /** A submission into an idle server. */
  lemma Resubmitted(s: Sys, now: Stamp, trigger: Trigger) returns (s': Sys)
    requires Setting(s, now) && s.claimed == [] && s.procs == map[] && s.tail == s.head && AllUnstarted(s.db)
    ensures CreateRun(s.db, 0, trigger).Ok?
    ensures SubmitStep(s, s', 0, 0, trigger) && InPhase(s', now, AtSubmit)
  {
    var c := CreateRun(s.db, 0, trigger).value;
    s' := s.(db := c.0, procs := map[Submitter(0) := Proc(Task(0, c.1), Created)]);
    assert s'.procs == s.procs[Submitter(0) := Proc(Task(0, c.1), Created)];
  }

  lemma CanAdvance(s: Sys, now: Stamp, ph: Phase)
    requires InPhase(s, now, ph)
    ensures exists s' :: Advances(s, s', now, ph)
  {
    var s';
    match ph {
      case AtSubmit => s' := FromAtSubmit(s, now);
      case InChannel => s' := FromInChannel(s, now);
      case AtWorker => s' := FromAtWorker(s, now);
      case Unloadable => s' := FromUnloadable(s, now);
      case MarkedFailed => s' := FromMarkedFailed(s, now);
      case NothingToDelete => s' := FromNothingToDelete(s, now);
      case Resting => s' := FromResting(s, now);
      case JustClaimed => s' := FromJustClaimed(s, now);
    }
  }

  // ------------------------------------------------------ the endless execution

  function PhaseAt(n: nat): Phase {
    if n == 0 then AtSubmit else After(PhaseAt(n - 1))
  }

  /** Eight steps after a rest comes the next. */
  lemma {:induction false} RestsEvery8(k: nat)
    ensures PhaseAt(8 * k + 6) == Resting
  {
    if k == 0 {
      assert PhaseAt(1) == InChannel && PhaseAt(2) == AtWorker && PhaseAt(3) == Unloadable;
      assert PhaseAt(4) == MarkedFailed && PhaseAt(5) == NothingToDelete;
    } else {
      RestsEvery8(k - 1);
      var n := 8 * (k - 1) + 6;
      assert PhaseAt(n + 1) == JustClaimed && PhaseAt(n + 2) == AtSubmit && PhaseAt(n + 3) == InChannel;
      assert PhaseAt(n + 4) == AtWorker && PhaseAt(n + 5) == Unloadable && PhaseAt(n + 6) == MarkedFailed;
      assert PhaseAt(n + 7) == NothingToDelete && PhaseAt(n + 8) == Resting;
    }
  }

  function Empty(now: Stamp): Sys {
    Sys(Db(map[], map[], 0, 0, now), 1, map[], 0, 0, [], NotSweeping, {}, {}, true, {}, [], {}, {}, map[])
  }

  function OnePortfolio(now: Stamp): Sys {
    Empty(now).(db := InsertPortfolio(Empty(now).db, 1, true))
  }

  ghost predicate Begins(s: Sys, now: Stamp) {
    SubmitStep(OnePortfolio(now), s, 0, 0, Manual) && InPhase(s, now, AtSubmit)
  }

  lemma CanBegin(now: Stamp)
    ensures exists s :: Begins(s, now)
  {
    var s := Resubmitted(OnePortfolio(now), now, Manual);
    assert Begins(s, now);
  }

  /** After the first submission, a manual one. */
  ghost function Begun(now: Stamp): Sys {
    if exists s :: Begins(s, now) then var s :| Begins(s, now); s else Empty(now)
  }

  ghost function Advanced(s: Sys, now: Stamp, ph: Phase): Sys {
    if exists s' :: Advances(s, s', now, ph) then var s' :| Advances(s, s', now, ph); s' else s
  }

  /** n steps later. */
  ghost function Cycling(now: Stamp, n: nat): Sys {
    if n == 0 then Begun(now) else Advanced(Cycling(now, n - 1), now, PhaseAt(n - 1))
  }

  lemma {:induction false} CyclingPhase(now: Stamp, n: nat)
    ensures InPhase(Cycling(now, n), now, PhaseAt(n))
  {
    if n == 0 {
      CanBegin(now);
    } else {
      CyclingPhase(now, n - 1);
      CanAdvance(Cycling(now, n - 1), now, PhaseAt(n - 1));
    }
  }

  lemma CyclingBegins(now: Stamp)
    ensures SubmitStep(OnePortfolio(now), Cycling(now, 0), 0, 0, Manual)
  {
    CanBegin(now);
  }

  lemma CyclingGoesOn(now: Stamp, n: nat)
    ensures NextStep(Cycling(now, n), Cycling(now, n + 1), StepOf(PhaseAt(n)))
  {
    CyclingPhase(now, n);
    CanAdvance(Cycling(now, n), now, PhaseAt(n));
    assert Advances(Cycling(now, n), Cycling(now, n + 1), now, PhaseAt(n));
  }

  ghost function StateAt(now: Stamp, n: nat): Sys {
    if n == 0 then Empty(now) else if n == 1 then OnePortfolio(now) else Cycling(now, n - 2)
  }

  lemma Endless(now: Stamp, n: nat)
    ensures Next(StateAt(now, n), StateAt(now, n + 1))
  {
    if n == 0 {
      assert NextStep(Empty(now), OnePortfolio(now), InsertPortfolioS(1, true));
    } else if n == 1 {
      CyclingBegins(now);
      assert NextStep(OnePortfolio(now), Cycling(now, 0), SubmitS(0, 0));
    } else {
      CyclingGoesOn(now, n - 2);
    }
  }

  lemma AlwaysNow(now: Stamp, n: nat)
    ensures StateAt(now, n).db.now == now && StateAt(now, n).rejected == {}
  {
    if n >= 2 {
      CyclingPhase(now, n - 2);
    }
  }

  /** The state in which the k-th rest begins. */
  function RestAt(k: nat): nat {
    8 * k + 8
  }

  /** In step n the scheduler claims p alone, and in the next one submits it. */
  ghost predicate Dispatches(s: Sys, claimed: Sys, submitted: Sys, p: PortfolioId) {
    && ClaimStep(s, claimed, [p])
    && SubmitClaimedStep(claimed, submitted, 0)
    && CreateRun(claimed.db, p, Scheduled).Ok?
  }

  lemma DispatchesEachTime(now: Stamp, k: nat)
    ensures Dispatches(StateAt(now, RestAt(k)), StateAt(now, RestAt(k) + 1), StateAt(now, RestAt(k) + 2), 0)
  {
    RestsEvery8(k);
    DispatchesFrom(now, 8 * k + 6);
    StateIs(now, 8 * k + 6);
    StateIs(now, 8 * k + 7);
    StateIs(now, 8 * k + 8);
  }

  lemma StateIs(now: Stamp, n: nat)
    ensures StateAt(now, n + 2) == Cycling(now, n)
  {
  }

  lemma DispatchesFrom(now: Stamp, n: nat)
    requires PhaseAt(n) == Resting
    ensures Dispatches(Cycling(now, n), Cycling(now, n + 1), Cycling(now, n + 2), 0)
  {
    Claims(now, n);
    SubmitsNext(now, n + 1);
  }

  lemma Claims(now: Stamp, n: nat)
    requires PhaseAt(n) == Resting
    ensures ClaimStep(Cycling(now, n), Cycling(now, n + 1), [0]) && PhaseAt(n + 1) == JustClaimed
  {
    CyclingGoesOn(now, n);
  }

  lemma SubmitsNext(now: Stamp, n: nat)
    requires PhaseAt(n) == JustClaimed
    ensures SubmitClaimedStep(Cycling(now, n), Cycling(now, n + 1), 0)
    ensures CreateRun(Cycling(now, n).db, 0, Scheduled).Ok?
  {
    CyclingGoesOn(now, n);
    CyclingPhase(now, n);
    Claimable(Cycling(now, n), now);
  }

  lemma Claimable(s: Sys, now: Stamp)
    requires InPhase(s, now, JustClaimed)
    ensures CreateRun(s.db, 0, Scheduled).Ok?
  {
  }

  // -------------------------------------------------------------- the results

  ghost predicate AllAt(run: seq<Sys>, now: Stamp) {
    forall i :: 0 <= i < |run| ==> run[i].db.now == now
  }

  ghost predicate DispatchedAt(run: seq<Sys>, i: nat, p: PortfolioId) {
    i + 2 < |run| && Dispatches(run[i], run[i + 1], run[i + 2], p)
  }

  /** For every k there is an execution, all of it at one instant, in which the
      scheduler claims and submits the same portfolio k times. */
  lemma ClaimedAnyNumberOfTimes(now: Stamp, k: nat) returns (run: seq<Sys>)
    ensures IsRun(run) && AllAt(run, now)
    ensures forall j: nat :: j < k ==> DispatchedAt(run, RestAt(j), 0)
  {
    var state := (n: nat) => StateAt(now, n);
    EndlessExecution(now, state);
    run := Prefix(state, RestAt(k));
    PrefixIsRun(state, RestAt(k));
    forall i | 0 <= i < |run|
      ensures run[i].db.now == now
    {
      AlwaysNow(now, i);
    }
    forall j: nat | j < k
      ensures DispatchedAt(run, RestAt(j), 0)
    {
      DispatchesEachTime(now, j);
    }
  }

  lemma EndlessExecution(now: Stamp, state: nat -> Sys)
    requires forall n: nat :: state(n) == StateAt(now, n)
    ensures Execution(state)
  {
    forall n: nat
      ensures NextAt(state, n)
    {
      Endless(now, n);
    }
  }

  /** The loop in that execution. It is never told of a full queue or an error. */
  function SpinningWorld(state: nat -> Sys): World {
    World(state, (k: nat) => RestAt(k), (k: nat, i: nat) => RestAt(k) + 1, (k: nat) => RestAt(k),
          (k: nat) => Claimed([0]), (k: nat, i: nat) => Dispatched, (k: nat) => false)
  }

  /** Round k of w claims portfolio 0 alone and dispatches it. */
  ghost predicate SpinsAt(w: World, k: nat) {
    var n := w.claimAt(k);
    && n + 2 < w.claimAt(k + 1) && w.submitAt(k, 0) == n + 1
    && w.claim(k) == Claimed([0]) && w.submit(k, 0).Dispatched?
    && Dispatches(w.state(n), w.state(n + 1), w.state(n + 2), 0)
    && w.state(w.claimAt(k + 1)).rejected == {}
  }

  lemma SpinningFits(w: World, tick: int, until: int, k: nat)
    requires SpinsAt(w, k)
    ensures RoundFits(w, tick, k) && Round(w, k, until) == Continue
  {
    var n := w.claimAt(k);
    assert Submits(w.state(n + 1), w.state(n + 2));
    assert SubmissionFits(w, k, 0, 0);
    assert AnyDispatched(w, k, 1);
  }

  lemma SpinningSpins(state: nat -> Sys, k: nat)
    requires Dispatches(state(RestAt(k)), state(RestAt(k) + 1), state(RestAt(k) + 2), 0)
    requires state(RestAt(k + 1)).rejected == {}
    ensures SpinsAt(SpinningWorld(state), k)
  {
  }

  lemma StateDispatches(now: Stamp, state: nat -> Sys, k: nat)
    requires forall n: nat :: state(n) == StateAt(now, n)
    ensures Dispatches(state(RestAt(k)), state(RestAt(k) + 1), state(RestAt(k) + 2), 0)
    ensures state(RestAt(k + 1)).rejected == {}
  {
    DispatchesEachTime(now, k);
    AlwaysNow(now, RestAt(k + 1));
  }

  /** So the loop can run for ever: whatever the deadline, there is an execution,
      all of it at one instant, in which every round of it goes on to the next. */
  lemma SpinsForever(now: Stamp, tick: int, until: int) returns (w: World)
    requires tick > 0
    ensures Fits(w, tick)
    ensures forall k: nat :: Round(w, k, until) == Continue
    ensures forall n: nat :: w.state(n).db.now == now
    ensures forall limit: int :: !WithinLimit(w, until, limit)
  {
    var state := (n: nat) => StateAt(now, n);
    w := SpinningWorld(state);
    EndlessExecution(now, state);
    forall k: nat
      ensures RoundFits(w, tick, k) && Round(w, k, until) == Continue
    {
      StateDispatches(now, state, k);
      SpinningSpins(state, k);
      SpinningFits(w, tick, until, k);
    }
    forall n: nat
      ensures w.state(n).db.now == now
    {
      AlwaysNow(now, n);
    }
    EndsIffLimited(w, tick, until);
  }
}
