/** The backtest-run protocol as a transition system: submitters, the bounded
    task channel, the worker pool, the orchestrator's calls, the scheduler's
    claims, the orphan sweep, crashes and restarts, all interleaved one database
    statement or file operation at a time. */
module RunProtocol {
  import opened Prelude
  import opened RunDb

  datatype Task = Task(pid: PortfolioId, rid: RunId)

  /** Where a task is held: by a call of Dispatcher.Submit, in the channel (a
      slot is named by its send ticket), or by a worker goroutine. */
  datatype Loc = Submitter(id: nat) | Slot(ticket: nat) | Worker(index: nat)

  /** The program counter of whoever holds the task. */
  datatype Pc =
    | Created                        // row inserted, before the select
    | Rejecting                      // channel full, before UpdateRunFailed
    | Waiting                        // in the channel
    | Taken                          // received, before GetByID
    | Loaded                         // portfolio read, before MarkRunningTx
    | Duplicate                      // the "already running" guard fired
    | Marked                         // MarkRunningTx committed
    | DirReady                       // MkdirAll done, runner executing
    | Written                        // snapshot renamed, before MarkReadyTx
    | Failing                        // in fail(), before MarkFailedTx
    | Pruning                        // before PruneRuns
    | Deleting(paths: seq<Path>)     // removing pruned snapshot files

  datatype Proc = Proc(task: Task, pc: Pc)

  datatype Candidate = WholeDir(pid: PortfolioId) | SnapshotFile(path: Path)

  /** Progress of SweepOrphans. */
  datatype Sweep =
    | NotSweeping
    | Walking(todo: seq<PortfolioId>, found: seq<Candidate>)
    | KnowsPortfolios(found: seq<Candidate>, portfolios: set<PortfolioId>)
    | Reaping(found: seq<Candidate>, portfolios: set<PortfolioId>, runs: set<RunId>)

  /** How many newer rows existed, and the retention, when a row was pruned. */
  datatype Eviction = Eviction(newer: nat, retention: nat)

  datatype Sys = Sys(
    db: Db,
    maxConcurrency: nat,
    procs: map<Loc, Proc>,
    head: nat,                       // next ticket to be received
    tail: nat,                       // next ticket to be sent
    claimed: seq<PortfolioId>,       // rest of the scheduler's current batch
    sweep: Sweep,
    dirs: set<PortfolioId>,
    files: set<Path>,
    up: bool,
    // History.
    stuck: set<RunId>,               // in flight, but their last write was lost
    executed: seq<RunId>,            // runs received by a worker, in order
    rejected: set<RunId>,            // runs turned away by a full channel
    lost: set<RunId>,                // runs that never left submitter or channel before a crash
    evicted: map<RunId, Eviction>)   // rows deleted by PruneRuns

  ghost predicate Init(s: Sys) {
    && s.db.portfolios == map[] && s.db.runs == map[] && s.db.nextPortfolio == 0 && s.db.nextRun == 0
    && s.procs == map[] && s.head == s.tail == 0 && s.claimed == [] && s.sweep == NotSweeping
    && s.dirs == {} && s.files == {} && s.up
    && s.stuck == {} && s.executed == [] && s.rejected == {} && s.lost == {} && s.evicted == map[]
  }

  function QueueCapacity(s: Sys): nat {
    s.maxConcurrency * 4
  }

  ghost predicate At(s: Sys, l: Loc, pc: Pc) {
    s.up && l in s.procs && s.procs[l].pc == pc
  }

  function Goto(s: Sys, l: Loc, pc: Pc): Sys
    requires l in s.procs
  {
    s.(procs := s.procs[l := Proc(s.procs[l].task, pc)])
  }

  function Leave(s: Sys, l: Loc): Sys {
    s.(procs := s.procs - {l})
  }

  // -------------------------------------------------- requests and the clock

  ghost predicate InsertPortfolioStep(s: Sys, s': Sys, retention: nat, openEnded: bool) {
    s.up && retention >= 1 && s' == s.(db := InsertPortfolio(s.db, retention, openEnded))
  }

  ghost predicate DeletePortfolioStep(s: Sys, s': Sys, p: PortfolioId) {
    s.up && s' == s.(db := DeletePortfolio(s.db, p))
  }

  ghost predicate SetRetentionStep(s: Sys, s': Sys, p: PortfolioId, n: nat) {
    s.up && n >= 1 && s' == s.(db := SetRetention(s.db, p, n))
  }

  ghost predicate SetEndDateStep(s: Sys, s': Sys, p: PortfolioId) {
    s.up && s' == s.(db := SetEndDate(s.db, p))
  }

  /** After the row is gone the DELETE handler removes the portfolio's directory.
      RemoveAll may stop half way. */
  ghost predicate PurgeDirStep(s: Sys, s': Sys, p: PortfolioId, gone: set<Path>, dirGone: bool) {
    && s.up && p !in s.db.portfolios
    && (forall f :: f in gone ==> f.pid == p)
    && (dirGone ==> forall f :: f in s.files && f.pid == p ==> f in gone)
    && s' == s.(files := s.files - gone, dirs := if dirGone then s.dirs - {p} else s.dirs)
  }

  ghost predicate ApplyUpgradeStep(s: Sys, s': Sys, p: PortfolioId) {
    s.up && s' == s.(db := ApplyUpgrade(s.db, p))
  }

  ghost predicate TickStep(s: Sys, s': Sys, now: Stamp) {
    s.db.now.time <= now.time && s.db.now.day <= now.day && s' == s.(db := s.db.(now := now))
  }

  // ------------------------------------------------------- Dispatcher.Submit

  /** CreateRun inside Submit. When it is refused Submit returns the error and
      nothing has changed. */
  ghost predicate SubmitStep(s: Sys, s': Sys, i: nat, p: PortfolioId, trigger: Trigger) {
    && s.up && Submitter(i) !in s.procs
    && var c := CreateRun(s.db, p, trigger);
       c.Ok? && s' == s.(db := c.value.0, procs := s.procs[Submitter(i) := Proc(Task(p, c.value.1), Created)])
  }

  /** The select: send when the channel has room, otherwise give up. */
  ghost predicate OfferStep(s: Sys, s': Sys, i: nat) {
    && At(s, Submitter(i), Created)
    && if s.tail - s.head < QueueCapacity(s)
       then s' == s.(procs := (s.procs - {Submitter(i)})[Slot(s.tail) := Proc(s.procs[Submitter(i)].task, Waiting)],
                     tail := s.tail + 1)
       else s' == Goto(s, Submitter(i), Rejecting)
  }

  ghost predicate RejectStep(s: Sys, s': Sys, i: nat, ok: bool) {
    && At(s, Submitter(i), Rejecting)
    && var r := s.procs[Submitter(i)].task.rid;
       s' == Leave(s, Submitter(i)).(
               db := if ok then UpdateRunFailed(s.db, r) else s.db,
               stuck := if !ok && r in s.db.runs then s.stuck + {r} else s.stuck,
               rejected := s.rejected + {r})
  }

  // ------------------------------------------------ worker, orchestrator.Run

  ghost predicate TakeStep(s: Sys, s': Sys, w: nat) {
    && s.up && w < s.maxConcurrency && Worker(w) !in s.procs
    && s.head < s.tail && Slot(s.head) in s.procs
    && var t := s.procs[Slot(s.head)].task;
       s' == s.(procs := (s.procs - {Slot(s.head)})[Worker(w) := Proc(t, Taken)],
                head := s.head + 1,
                executed := s.executed + [t.rid])
  }

  /** GetByID, and the guard on the status it read. */
  ghost predicate LoadStep(s: Sys, s': Sys, w: nat, ok: bool) {
    && At(s, Worker(w), Taken)
    && var p := s.procs[Worker(w)].task.pid;
       s' == Goto(s, Worker(w),
                  if !ok || p !in s.db.portfolios then Failing
                  else if s.db.portfolios[p].status.Running? then Duplicate
                  else Loaded)
  }

  ghost predicate DuplicateStep(s: Sys, s': Sys, w: nat) {
    && At(s, Worker(w), Duplicate)
    && s' == Leave(s, Worker(w)).(db := UpdateRunFailed(s.db, s.procs[Worker(w)].task.rid))
  }

  ghost predicate MarkRunningStep(s: Sys, s': Sys, w: nat, ok: bool) {
    && At(s, Worker(w), Loaded)
    && var t := s.procs[Worker(w)].task;
       s' == if ok then Goto(s, Worker(w), Marked).(db := MarkRunning(s.db, t.pid, t.rid))
             else Goto(s, Worker(w), Failing)
  }

  ghost predicate MakeDirStep(s: Sys, s': Sys, w: nat) {
    && At(s, Worker(w), Marked)
    && s' == Goto(s, Worker(w), DirReady).(dirs := s.dirs + {s.procs[Worker(w)].task.pid})
  }

  /** The runner succeeds and the temporary file is renamed into place, which
      needs the directory to be there still. */
  ghost predicate WriteStep(s: Sys, s': Sys, w: nat) {
    && At(s, Worker(w), DirReady)
    && var t := s.procs[Worker(w)].task;
       t.pid in s.dirs && s' == Goto(s, Worker(w), Written).(files := s.files + {Path(t.pid, t.rid)})
  }

  /** Resolving, creating the directory, running, renaming or reading the KPIs fails. */
  ghost predicate AbortStep(s: Sys, s': Sys, w: nat) {
    && (At(s, Worker(w), Marked) || At(s, Worker(w), DirReady) || At(s, Worker(w), Written))
    && s' == Goto(s, Worker(w), Failing)
  }

  ghost predicate MarkReadyStep(s: Sys, s': Sys, w: nat, ok: bool) {
    && At(s, Worker(w), Written)
    && var t := s.procs[Worker(w)].task;
       s' == if ok then Goto(s, Worker(w), Pruning).(db := MarkReady(s.db, t.pid, t.rid, Path(t.pid, t.rid)))
             else Goto(s, Worker(w), Failing)
  }

  ghost predicate MarkFailedStep(s: Sys, s': Sys, w: nat, ok: bool) {
    && At(s, Worker(w), Failing)
    && var t := s.procs[Worker(w)].task;
       s' == Goto(s, Worker(w), Pruning).(
               db := if ok then MarkFailed(s.db, t.pid, t.rid) else s.db,
               stuck := if !ok && t.rid in s.db.runs then s.stuck + {t.rid} else s.stuck)
  }

  function Evictions(db: Db, p: PortfolioId): map<RunId, Eviction> {
    if p !in db.portfolios then map[]
    else
      map r | r in Expired(RunsOf(db, p), db.portfolios[p].retention)
        :: Eviction(|Newer(RunsOf(db, p), r)|, db.portfolios[p].retention)
  }

  /** PruneRuns. On an error, or for a deleted portfolio, the orchestrator
      skips the file deletions. */
  ghost predicate PruneStep(s: Sys, s': Sys, w: nat, ok: bool, paths: seq<Path>) {
    && At(s, Worker(w), Pruning)
    && var p := s.procs[Worker(w)].task.pid;
       if ok && p in s.db.portfolios then
         && (forall f :: f in paths <==> f in PrunedPaths(s.db, p))
         && s' == Goto(s, Worker(w), Deleting(paths)).(
                    db := PruneRuns(s.db, p), evicted := s.evicted + Evictions(s.db, p))
       else s' == Leave(s, Worker(w))
  }

  ghost predicate DeleteFileStep(s: Sys, s': Sys, w: nat, ok: bool) {
    && s.up && Worker(w) in s.procs && s.procs[Worker(w)].pc.Deleting?
    && var paths := s.procs[Worker(w)].pc.paths;
       && paths != []
       && s' == Goto(s, Worker(w), Deleting(paths[1..])).(files := if ok then s.files - {paths[0]} else s.files)
  }

  ghost predicate FinishStep(s: Sys, s': Sys, w: nat) {
    At(s, Worker(w), Deleting([])) && s' == Leave(s, Worker(w))
  }

  // ------------------------------------------------------- crash and restart

  function InFlightRuns(db: Db): set<RunId> {
    set r | r in db.runs && InFlight(db.runs[r])
  }

  function NeverTaken(s: Sys): set<RunId> {
    set l | l in s.procs && !l.Worker? :: s.procs[l].task.rid
  }

  ghost predicate CrashStep(s: Sys, s': Sys) {
    && s.up
    && s' == s.(procs := map[], head := s.tail, claimed := [], sweep := NotSweeping, up := false,
                stuck := InFlightRuns(s.db), lost := s.lost + NeverTaken(s))
  }

  /** StartupSweep runs before anything can submit. Its failure is only logged. */
  ghost predicate RestartStep(s: Sys, s': Sys, swept: bool) {
    && !s.up
    && s' == if swept then s.(up := true, db := MarkAllRunningAsFailed(s.db), stuck := {}) else s.(up := true)
  }

  // ------------------------------------------------------------ orphan sweep

  /** ReadDir of the snapshots directory. */
  ghost predicate StartWalkStep(s: Sys, s': Sys, todo: seq<PortfolioId>) {
    && s.up && s.sweep.NotSweeping? && (forall p :: p in todo ==> p in s.dirs)
    && s' == s.(sweep := Walking(todo, []))
  }

  function SnapshotFiles(listing: seq<Path>): (found: seq<Candidate>)
    ensures |found| == |listing|
    ensures forall i :: 0 <= i < |listing| ==> found[i] == SnapshotFile(listing[i])
  {
    if listing == [] then [] else [SnapshotFile(listing[0])] + SnapshotFiles(listing[1..])
  }

  /** ReadDir of one portfolio directory; it fails if the directory has gone. */
  ghost predicate WalkDirStep(s: Sys, s': Sys, listing: seq<Path>) {
    && s.up && s.sweep.Walking? && s.sweep.todo != []
    && (forall f :: f in listing ==> f in s.files && f.pid == s.sweep.todo[0])
    && s' == s.(sweep := Walking(s.sweep.todo[1..],
                                 s.sweep.found + [WholeDir(s.sweep.todo[0])] + SnapshotFiles(listing)))
  }

  ghost predicate QueryPortfoliosStep(s: Sys, s': Sys) {
    && s.up && s.sweep.Walking? && s.sweep.todo == []
    && s' == s.(sweep := KnowsPortfolios(s.sweep.found, s.db.portfolios.Keys))
  }

  ghost predicate QueryRunsStep(s: Sys, s': Sys) {
    && s.up && s.sweep.KnowsPortfolios?
    && s' == s.(sweep := Reaping(s.sweep.found, s.sweep.portfolios, s.db.runs.Keys))
  }

  /** One candidate. RemoveAll may stop half way, so any part of the directory
      may be gone afterwards. */
  ghost predicate ReapStep(s: Sys, s': Sys, gone: set<Path>, dirGone: bool) {
    && s.up && s.sweep.Reaping? && s.sweep.found != []
    && var c := s.sweep.found[0];
       var next := s.(sweep := s.sweep.(found := s.sweep.found[1..]));
       match c {
         case WholeDir(p) =>
           if p in s.sweep.portfolios then s' == next
           else
             && (forall f :: f in gone ==> f.pid == p)
             && (dirGone ==> forall f :: f in s.files && f.pid == p ==> f in gone)
             && s' == next.(files := s.files - gone, dirs := if dirGone then s.dirs - {p} else s.dirs)
         case SnapshotFile(f) =>
           if f.rid in s.sweep.runs then s' == next
           else gone <= {f} && s' == next.(files := s.files - gone)
       }
  }

  /** The sweep ends, or is abandoned on an error. */
  ghost predicate EndSweepStep(s: Sys, s': Sys) {
    s.up && s' == s.(sweep := NotSweeping)
  }

  // --------------------------------------------------------------- scheduler

  ghost predicate ClaimStep(s: Sys, s': Sys, ids: seq<PortfolioId>) {
    && s.up && s.claimed == [] && Distinct(ids) && (forall p :: p in ids ==> Due(s.db, p))
    && s' == s.(claimed := ids)
  }

  ghost predicate SubmitClaimedStep(s: Sys, s': Sys, i: nat) {
    && s.up && s.claimed != [] && Submitter(i) !in s.procs
    && var rest := s.(claimed := s.claimed[1..]);
       if CreateRun(s.db, s.claimed[0], Scheduled).Ok?
       then SubmitStep(rest, s', i, s.claimed[0], Scheduled)
       else s' == rest
  }

  /** The submission of a claimed portfolio fails in the store. */
  ghost predicate SkipClaimedStep(s: Sys, s': Sys) {
    s.up && s.claimed != [] && s' == s.(claimed := s.claimed[1..])
  }

  // -------------------------------------------------------------------- runs

  datatype Step =
    | InsertPortfolioS(retention: nat, openEnded: bool)
    | DeletePortfolioS(p: PortfolioId)
    | SetRetentionS(p: PortfolioId, n: nat)
    | SetEndDateS(p: PortfolioId)
    | PurgeDirS(p: PortfolioId, gone: set<Path>, dirGone: bool)
    | ApplyUpgradeS(p: PortfolioId)
    | TickS(now: Stamp)
    | SubmitS(i: nat, p: PortfolioId)
    | OfferS(i: nat)
    | RejectS(i: nat, ok: bool)
    | TakeS(w: nat)
    | LoadS(w: nat, ok: bool)
    | DuplicateS(w: nat)
    | MarkRunningS(w: nat, ok: bool)
    | MakeDirS(w: nat)
    | WriteS(w: nat)
    | AbortS(w: nat)
    | MarkReadyS(w: nat, ok: bool)
    | MarkFailedS(w: nat, ok: bool)
    | PruneS(w: nat, ok: bool, paths: seq<Path>)
    | DeleteFileS(w: nat, ok: bool)
    | FinishS(w: nat)
    | CrashS
    | RestartS(swept: bool)
    | StartWalkS(todo: seq<PortfolioId>)
    | WalkDirS(listing: seq<Path>)
    | QueryPortfoliosS
    | QueryRunsS
    | ReapS(gone: set<Path>, dirGone: bool)
    | EndSweepS
    | ClaimS(ids: seq<PortfolioId>)
    | SubmitClaimedS(i: nat)
    | SkipClaimedS

  // The steps by kind; the remaining ones stand alone.

  predicate IsTableStep(step: Step) {
    step.InsertPortfolioS? || step.DeletePortfolioS? || step.SetRetentionS? || step.SetEndDateS?
    || step.ApplyUpgradeS? || step.TickS?
  }

  predicate IsSubmission(step: Step) {
    step.SubmitS? || step.OfferS? || step.RejectS? || step.TakeS? || step.SubmitClaimedS?
  }

  predicate IsWorkerMove(step: Step) {
    step.LoadS? || step.MakeDirS? || step.WriteS? || step.AbortS? || step.DeleteFileS? || step.FinishS?
  }

  predicate IsWorkerWrite(step: Step) {
    step.MarkRunningS? || step.MarkReadyS? || step.MarkFailedS? || step.PruneS?
  }

  predicate IsSweepStep(step: Step) {
    step.StartWalkS? || step.WalkDirS? || step.QueryPortfoliosS? || step.QueryRunsS? || step.ReapS? || step.EndSweepS?
  }

  ghost predicate NextStep(s: Sys, s': Sys, step: Step) {
    match step
    case InsertPortfolioS(n, o) => InsertPortfolioStep(s, s', n, o)
    case DeletePortfolioS(p) => DeletePortfolioStep(s, s', p)
    case SetRetentionS(p, n) => SetRetentionStep(s, s', p, n)
    case SetEndDateS(p) => SetEndDateStep(s, s', p)
    case PurgeDirS(p, gone, dirGone) => PurgeDirStep(s, s', p, gone, dirGone)
    case ApplyUpgradeS(p) => ApplyUpgradeStep(s, s', p)
    case TickS(now) => TickStep(s, s', now)
    case SubmitS(i, p) => SubmitStep(s, s', i, p, Manual)
    case OfferS(i) => OfferStep(s, s', i)
    case RejectS(i, ok) => RejectStep(s, s', i, ok)
    case TakeS(w) => TakeStep(s, s', w)
    case LoadS(w, ok) => LoadStep(s, s', w, ok)
    case DuplicateS(w) => DuplicateStep(s, s', w)
    case MarkRunningS(w, ok) => MarkRunningStep(s, s', w, ok)
    case MakeDirS(w) => MakeDirStep(s, s', w)
    case WriteS(w) => WriteStep(s, s', w)
    case AbortS(w) => AbortStep(s, s', w)
    case MarkReadyS(w, ok) => MarkReadyStep(s, s', w, ok)
    case MarkFailedS(w, ok) => MarkFailedStep(s, s', w, ok)
    case PruneS(w, ok, paths) => PruneStep(s, s', w, ok, paths)
    case DeleteFileS(w, ok) => DeleteFileStep(s, s', w, ok)
    case FinishS(w) => FinishStep(s, s', w)
    case CrashS => CrashStep(s, s')
    case RestartS(swept) => RestartStep(s, s', swept)
    case StartWalkS(todo) => StartWalkStep(s, s', todo)
    case WalkDirS(listing) => WalkDirStep(s, s', listing)
    case QueryPortfoliosS => QueryPortfoliosStep(s, s')
    case QueryRunsS => QueryRunsStep(s, s')
    case ReapS(gone, dirGone) => ReapStep(s, s', gone, dirGone)
    case EndSweepS => EndSweepStep(s, s')
    case ClaimS(ids) => ClaimStep(s, s', ids)
    case SubmitClaimedS(i) => SubmitClaimedStep(s, s', i)
    case SkipClaimedS => SkipClaimedStep(s, s')
  }

  /** Only the sweep's own state, the claims and the snapshot directory differ. */
  ghost predicate Bystander(s: Sys, s': Sys) {
    s' == s.(sweep := s'.sweep, claimed := s'.claimed, files := s'.files, dirs := s'.dirs)
  }

  lemma SweepIsBystander(s: Sys, s': Sys, step: Step)
    requires NextStep(s, s', step) && IsSweepStep(step)
    ensures Bystander(s, s')
  {
  }

  lemma MoveKeepsTables(s: Sys, s': Sys, step: Step)
    requires NextStep(s, s', step) && IsWorkerMove(step)
    ensures s'.db == s.db && s'.claimed == s.claimed
  {
  }

  ghost predicate Next(s: Sys, s': Sys) {
    exists step :: NextStep(s, s', step)
  }

  ghost predicate NextIn(run: seq<Sys>, i: nat) {
    i + 1 < |run| && Next(run[i], run[i + 1])
  }

  /** A finite sequence of steps, from any state. */
  ghost predicate Steps(run: seq<Sys>) {
    run != [] && forall i: nat :: i < |run| - 1 ==> NextIn(run, i)
  }

  /** A finite execution from an initial state. */
  ghost predicate IsRun(run: seq<Sys>) {
    Steps(run) && Init(run[0])
  }

  /** One more step at the end. */
  lemma AppendStep(run: seq<Sys>, s: Sys, step: Step)
    requires Steps(run) && NextStep(run[|run| - 1], s, step)
    ensures Steps(run + [s])
  {
    var more := run + [s];
    forall i: nat | i < |more| - 1
      ensures NextIn(more, i)
    {
      if i < |run| - 1 {
        assert NextIn(run, i);
        SameNext(run, more, i, i);
      } else {
        assert NextStep(more[i], more[i + 1], step);
      }
    }
  }

  /** The same two states side by side in another sequence. */
  lemma SameNext(run: seq<Sys>, more: seq<Sys>, i: nat, j: nat)
    requires NextIn(run, i) && j + 1 < |more| && more[j] == run[i] && more[j + 1] == run[i + 1]
    ensures NextIn(more, j)
  {
  }
}
