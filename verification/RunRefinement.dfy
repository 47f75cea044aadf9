/** The object methods of RunStore are executions of the protocol: what an
    undisturbed Submit, Run or SweepOrphans does to tables and files is what a
    sequence of RunProtocol steps does. */
module RunRefinement {
  import opened Prelude
  import opened RunDb
  import opened RunProtocol
  import opened RunOwnership
  import RunStore

  /** Some sequence of steps takes s to s'. */
  ghost predicate Leads(s: Sys, s': Sys) {
    exists run :: Steps(run) && run[0] == s && run[|run| - 1] == s'
  }

  lemma Stay(s: Sys)
    ensures Leads(s, s)
  {
    assert Steps([s]);
  }

  lemma Take(s: Sys, m: Sys, s': Sys, step: Step)
    requires Leads(s, m) && NextStep(m, s', step)
    ensures Leads(s, s')
  {
    var run :| Steps(run) && run[0] == s && run[|run| - 1] == m;
    AppendStep(run, s', step);
    assert Steps(run + [s']);
  }

  lemma Chain(a: Sys, b: Sys, c: Sys)
    requires Leads(a, b) && Leads(b, c)
    ensures Leads(a, c)
  {
    var x :| Steps(x) && x[0] == a && x[|x| - 1] == b;
    var y :| Steps(y) && y[0] == b && y[|y| - 1] == c;
    var more := x + y[1..];
    forall i: nat | i < |more| - 1
      ensures NextIn(more, i)
    {
      if i < |x| - 1 {
        assert NextIn(x, i);
        SameNext(x, more, i, i);
      } else {
        var j := i - (|x| - 1);
        assert NextIn(y, j);
        SameNext(y, more, j, i);
      }
    }
    assert Steps(more);
  }

  // ------------------------------------------------------------------ submit

  /** The scheduler submits what it claimed, in order; anyone else submits manually. */
  ghost predicate MaySubmit(s: Sys, p: PortfolioId, trigger: Trigger) {
    s.up && (trigger.Scheduled? ==> s.claimed != [] && s.claimed[0] == p)
  }

  ghost function Claims(s: Sys, trigger: Trigger): seq<PortfolioId>
    requires trigger.Scheduled? ==> s.claimed != []
  {
    if trigger.Scheduled? then s.claimed[1..] else s.claimed
  }

  /** Dispatcher.Submit, whoever calls it: refused with nothing changed, or the
      row and then the channel, or the row and then the failed row, unless that
      write fails. */
  lemma SubmitIsSteps(s: Sys, i: nat, p: PortfolioId, trigger: Trigger, marksFailed: bool) returns (s': Sys)
    requires MaySubmit(s, p, trigger) && Submitter(i) !in s.procs
    ensures Leads(s, s') && s'.claimed == Claims(s, trigger) && s'.head == s.head
    ensures match CreateRun(s.db, p, trigger)
            case Err(_) => s'.db == s.db && s'.procs == s.procs && s'.tail == s.tail
            case Ok((db, r)) =>
              if s.tail - s.head < 4 * s.maxConcurrency
              then && s'.db == db && s'.tail == s.tail + 1
                   && s'.procs == s.procs[Slot(s.tail) := Proc(Task(p, r), Waiting)]
              else && s'.db == (if marksFailed then UpdateRunFailed(db, r) else db)
                   && s'.procs == s.procs && s'.tail == s.tail
  {
    Stay(s);
    if CreateRun(s.db, p, trigger).Err? {
      s' := s.(claimed := Claims(s, trigger));
      if trigger.Scheduled? {
        Take(s, s, s', SubmitClaimedS(i));
      }
    } else {
      var s1 := CreateIsStep(s, i, p, trigger);
      s' := OfferIsSteps(s1, i, marksFailed);
      Chain(s, s1, s');
      assert s1.procs - {Submitter(i)} == s.procs;
    }
  }

  lemma CreateIsStep(s: Sys, i: nat, p: PortfolioId, trigger: Trigger) returns (s': Sys)
    requires MaySubmit(s, p, trigger) && Submitter(i) !in s.procs && CreateRun(s.db, p, trigger).Ok?
    ensures Leads(s, s') && s'.claimed == Claims(s, trigger) && s'.head == s.head && s'.tail == s.tail && s'.up
    ensures s'.maxConcurrency == s.maxConcurrency
    ensures var (db, r) := CreateRun(s.db, p, trigger).value;
            s'.db == db && s'.procs == s.procs[Submitter(i) := Proc(Task(p, r), Created)]
  {
    var (db, r) := CreateRun(s.db, p, trigger).value;
    s' := s.(claimed := Claims(s, trigger), db := db, procs := s.procs[Submitter(i) := Proc(Task(p, r), Created)]);
    Stay(s);
    Take(s, s, s', if trigger.Scheduled? then SubmitClaimedS(i) else SubmitS(i, p));
  }

  lemma OfferIsSteps(s: Sys, i: nat, marksFailed: bool) returns (s': Sys)
    requires At(s, Submitter(i), Created)
    ensures Leads(s, s') && s'.claimed == s.claimed && s'.head == s.head
    ensures var t := s.procs[Submitter(i)].task;
            if s.tail - s.head < QueueCapacity(s)
            then && s'.db == s.db && s'.tail == s.tail + 1
                 && s'.procs == (s.procs - {Submitter(i)})[Slot(s.tail) := Proc(t, Waiting)]
            else && s'.db == (if marksFailed then UpdateRunFailed(s.db, t.rid) else s.db)
                 && s'.procs == s.procs - {Submitter(i)} && s'.tail == s.tail
  {
    var t := s.procs[Submitter(i)].task;
    Stay(s);
    if s.tail - s.head < QueueCapacity(s) {
      s' := s.(procs := (s.procs - {Submitter(i)})[Slot(s.tail) := Proc(t, Waiting)], tail := s.tail + 1);
      Take(s, s, s', OfferS(i));
    } else {
      var s1 := Goto(s, Submitter(i), Rejecting);
      Take(s, s, s1, OfferS(i));
      s' := Leave(s1, Submitter(i)).(
              db := if marksFailed then UpdateRunFailed(s.db, t.rid) else s.db,
              stuck := if !marksFailed && t.rid in s.db.runs then s.stuck + {t.rid} else s.stuck,
              rejected := s.rejected + {t.rid});
      Take(s, s1, s', RejectS(i, marksFailed));
      assert s1.procs - {Submitter(i)} == s.procs - {Submitter(i)};
    }
  }

  // --------------------------------------------------------------------- run

  lemma {:induction false} Enumerate<T(!new)>(xs: set<T>) returns (s: seq<T>)
    ensures forall x :: x in s <==> x in xs
    ensures Distinct(s)
  {
    if xs == {} {
      s := [];
    } else {
      var x :| x in xs;
      var rest := Enumerate(xs - {x});
      s := rest + [x];
    }
  }

  /** Only the worker's own place, tables and files differ. */
  ghost predicate Left(s: Sys, s': Sys, w: nat) {
    s'.procs == s.procs - {Worker(w)} && s'.up && s'.claimed == s.claimed && s'.sweep == s.sweep
  }

  ghost predicate Holds(s: Sys, w: nat, t: Task, pc: Pc) {
    s.up && Worker(w) in s.procs && s.procs[Worker(w)] == Proc(t, pc)
  }

  lemma {:induction false} DeletesAreSteps(s: Sys, w: nat, t: Task, paths: seq<Path>, stay: set<Path>) returns (s': Sys)
    requires Holds(s, w, t, Deleting(paths))
    ensures Leads(s, s') && Left(s, s', w) && s'.db == s.db && s'.dirs == s.dirs
    ensures s'.files == s.files - ((set f | f in paths) - stay)
    decreases |paths|
  {
    Stay(s);
    if paths == [] {
      s' := Leave(s, Worker(w));
      Take(s, s, s', FinishS(w));
    } else {
      var ok := paths[0] !in stay;
      var s1 := Goto(s, Worker(w), Deleting(paths[1..])).(files := if ok then s.files - {paths[0]} else s.files);
      s' := DeletesAreSteps(s1, w, t, paths[1..], stay);
      Prepend(s, s1, s', DeleteFileS(w, ok));
      assert paths == [paths[0]] + paths[1..];
      assert s1.procs - {Worker(w)} == s.procs - {Worker(w)};
    }
  }

  lemma Prepend(s: Sys, m: Sys, s': Sys, step: Step)
    requires NextStep(s, m, step) && Leads(m, s')
    ensures Leads(s, s')
  {
    var run :| Steps(run) && run[0] == m && run[|run| - 1] == s';
    var more := [s] + run;
    forall i: nat | i < |more| - 1
      ensures NextIn(more, i)
    {
      if i == 0 {
        assert NextStep(more[0], more[1], step);
      } else {
        assert NextIn(run, i - 1);
        SameNext(run, more, i - 1, i);
      }
    }
    assert Steps(more);
  }

  lemma PruneIsSteps(s: Sys, w: nat, t: Task, o: RunStore.Outcomes) returns (s': Sys)
    requires Holds(s, w, t, Pruning)
    ensures Leads(s, s') && Left(s, s', w) && s'.dirs == s.dirs
    ensures (s'.db, s'.files) == RunStore.PruneEffect(s.db, s.files, t.pid, o)
  {
    Stay(s);
    if o.prunes && t.pid in s.db.portfolios {
      var paths := Enumerate(PrunedPaths(s.db, t.pid));
      var s1 := Goto(s, Worker(w), Deleting(paths)).(
                  db := PruneRuns(s.db, t.pid), evicted := s.evicted + Evictions(s.db, t.pid));
      s' := DeletesAreSteps(s1, w, t, paths, o.stay);
      Prepend(s, s1, s', PruneS(w, true, paths));
      assert (set f | f in paths) == PrunedPaths(s.db, t.pid);
      assert s1.procs - {Worker(w)} == s.procs - {Worker(w)};
    } else {
      s' := Leave(s, Worker(w));
      Take(s, s, s', PruneS(w, o.prunes, []));
      assert o.prunes ==> s.files - (PrunedPaths(s.db, t.pid) - o.stay) == s.files;
    }
  }

  lemma FailIsSteps(s: Sys, w: nat, t: Task, o: RunStore.Outcomes) returns (s': Sys)
    requires Holds(s, w, t, Failing)
    ensures Leads(s, s') && Left(s, s', w) && s'.dirs == s.dirs
    ensures (s'.db, s'.files, RunStore.Errored) == RunStore.FailEffect(s.db, s.files, t.pid, t.rid, o)
  {
    var s1 := Goto(s, Worker(w), Pruning).(
                db := if o.marksFailed then MarkFailed(s.db, t.pid, t.rid) else s.db,
                stuck := if !o.marksFailed && t.rid in s.db.runs then s.stuck + {t.rid} else s.stuck);
    s' := PruneIsSteps(s1, w, t, o);
    Prepend(s, s1, s', MarkFailedS(w, o.marksFailed));
    assert s1.procs - {Worker(w)} == s.procs - {Worker(w)};
  }

  /** A step into fail(), and the rest of it. */
  lemma FailAfter(s: Sys, w: nat, t: Task, pc: Pc, o: RunStore.Outcomes, step: Step) returns (s': Sys)
    requires Holds(s, w, t, pc) && NextStep(s, Goto(s, Worker(w), Failing), step)
    ensures Leads(s, s') && Left(s, s', w) && s'.dirs == s.dirs
    ensures (s'.db, s'.files, RunStore.Errored) == RunStore.FailEffect(s.db, s.files, t.pid, t.rid, o)
  {
    var s1 := Goto(s, Worker(w), Failing);
    s' := FailIsSteps(s1, w, t, o);
    Prepend(s, s1, s', step);
    assert s1.procs - {Worker(w)} == s.procs - {Worker(w)};
  }

  /** From the written snapshot on. */
  lemma FromWritten(s: Sys, w: nat, t: Task, o: RunStore.Outcomes) returns (s': Sys)
    requires Holds(s, w, t, Written)
    ensures Leads(s, s') && Left(s, s', w) && s'.dirs == s.dirs
    ensures if o.kpis && o.marksReady
            then (s'.db, s'.files)
                 == RunStore.PruneEffect(MarkReady(s.db, t.pid, t.rid, Path(t.pid, t.rid)), s.files, t.pid, o)
            else (s'.db, s'.files, RunStore.Errored) == RunStore.FailEffect(s.db, s.files, t.pid, t.rid, o)
  {
    if !o.kpis {
      s' := FailAfter(s, w, t, Written, o, AbortS(w));
    } else if !o.marksReady {
      s' := FailAfter(s, w, t, Written, o, MarkReadyS(w, false));
    } else {
      var s1 := Goto(s, Worker(w), Pruning).(db := MarkReady(s.db, t.pid, t.rid, Path(t.pid, t.rid)));
      s' := PruneIsSteps(s1, w, t, o);
      Prepend(s, s1, s', MarkReadyS(w, true));
      assert s1.procs - {Worker(w)} == s.procs - {Worker(w)};
    }
  }

  /** From MarkRunningTx on. */
  lemma FromMarked(s: Sys, w: nat, t: Task, o: RunStore.Outcomes) returns (s': Sys)
    requires Holds(s, w, t, Marked)
    ensures Leads(s, s') && Left(s, s', w)
    ensures var files := s.files + {Path(t.pid, t.rid)};
            if !o.resolves || !o.mkdirs || !o.runs
            then (s'.db, s'.files, RunStore.Errored) == RunStore.FailEffect(s.db, s.files, t.pid, t.rid, o)
            else if o.kpis && o.marksReady
            then (s'.db, s'.files)
                 == RunStore.PruneEffect(MarkReady(s.db, t.pid, t.rid, Path(t.pid, t.rid)), files, t.pid, o)
            else (s'.db, s'.files, RunStore.Errored) == RunStore.FailEffect(s.db, files, t.pid, t.rid, o)
  {
    if !o.resolves || !o.mkdirs {
      s' := FailAfter(s, w, t, Marked, o, AbortS(w));
    } else {
      var s1 := Goto(s, Worker(w), DirReady).(dirs := s.dirs + {t.pid});
      assert s1.procs - {Worker(w)} == s.procs - {Worker(w)};
      if !o.runs {
        s' := FailAfter(s1, w, t, DirReady, o, AbortS(w));
      } else {
        var s2 := Goto(s1, Worker(w), Written).(files := s.files + {Path(t.pid, t.rid)});
        s' := FromWritten(s2, w, t, o);
        Prepend(s1, s2, s', WriteS(w));
        assert s2.procs - {Worker(w)} == s1.procs - {Worker(w)};
      }
      Prepend(s, s1, s', MakeDirS(w));
    }
  }

  /** Orchestrator.Run, for every outcome of its calls, is an execution of the
      worker's steps; the "already running" branch does not occur. */
  lemma RunIsSteps(s: Sys, w: nat, o: RunStore.Outcomes) returns (s': Sys)
    requires RunInv(s) && At(s, Worker(w), Taken)
    ensures Leads(s, s') && Left(s, s', w)
    ensures var t := s.procs[Worker(w)].task;
            var (db, files, res) := RunStore.RunEffect(s.db, s.files, t.pid, t.rid, o);
            s'.db == db && s'.files == files && res != RunStore.AlreadyRunning
  {
    var t := s.procs[Worker(w)].task;
    GuardSilent(s, w);
    if !o.loads || t.pid !in s.db.portfolios {
      s' := FailAfter(s, w, t, Taken, o, LoadS(w, o.loads));
    } else {
      var s1 := Goto(s, Worker(w), Loaded);
      assert s1.procs - {Worker(w)} == s.procs - {Worker(w)};
      s' := FromLoaded(s1, w, t, o);
      Prepend(s, s1, s', LoadS(w, true));
    }
  }

  /** From the portfolio row on. */
  lemma FromLoaded(s: Sys, w: nat, t: Task, o: RunStore.Outcomes) returns (s': Sys)
    requires Holds(s, w, t, Loaded)
    requires o.loads && t.pid in s.db.portfolios && !s.db.portfolios[t.pid].status.Running?
    ensures Leads(s, s') && Left(s, s', w)
    ensures var (db, files, res) := RunStore.RunEffect(s.db, s.files, t.pid, t.rid, o);
            s'.db == db && s'.files == files && res != RunStore.AlreadyRunning
  {
    if !o.marksRunning {
      s' := FailAfter(s, w, t, Loaded, o, MarkRunningS(w, false));
    } else {
      var s1 := Goto(s, Worker(w), Marked).(db := MarkRunning(s.db, t.pid, t.rid));
      s' := FromMarked(s1, w, t, o);
      Prepend(s, s1, s', MarkRunningS(w, true));
      assert s1.procs - {Worker(w)} == s.procs - {Worker(w)};
    }
  }

  // ------------------------------------------------------------------- sweep

  ghost predicate SweepOnly(s: Sys, s': Sys) {
    s' == s.(sweep := s'.sweep)
  }

  /** Walking the remaining directories finds them and their files. */
  lemma {:induction false} WalkIsSteps(s: Sys) returns (s': Sys)
    requires s.up && s.sweep.Walking?
    ensures Leads(s, s') && SweepOnly(s, s') && s'.sweep.Walking? && s'.sweep.todo == []
    ensures forall c :: c in s'.sweep.found <==>
              c in s.sweep.found || match c case WholeDir(p) => p in s.sweep.todo
                                            case SnapshotFile(f) => f in s.files && f.pid in s.sweep.todo
    decreases |s.sweep.todo|
  {
    var todo := s.sweep.todo;
    if todo == [] {
      Stay(s);
      s' := s;
    } else {
      var listing := Enumerate(FilesOf(s, todo[0]));
      var s1 := s.(sweep := Walking(todo[1..], s.sweep.found + [WholeDir(todo[0])] + SnapshotFiles(listing)));
      s' := WalkIsSteps(s1);
      Prepend(s, s1, s', WalkDirS(listing));
      FoundNext(s, s1, listing);
      assert todo == [todo[0]] + todo[1..];
    }
  }

  function FilesOf(s: Sys, p: PortfolioId): set<Path> {
    set f | f in s.files && f.pid == p
  }

  lemma FoundNext(s: Sys, s1: Sys, listing: seq<Path>)
    requires s.sweep.Walking? && s.sweep.todo != [] && forall f :: f in listing <==> f in FilesOf(s, s.sweep.todo[0])
    requires s1.sweep
             == Walking(s.sweep.todo[1..], s.sweep.found + [WholeDir(s.sweep.todo[0])] + SnapshotFiles(listing))
    ensures forall c :: c in s1.sweep.found <==>
              c in s.sweep.found || match c case WholeDir(p) => p == s.sweep.todo[0]
                                            case SnapshotFile(f) => f in s.files && f.pid == s.sweep.todo[0]
  {
    forall c
      ensures c in SnapshotFiles(listing) <==> c.SnapshotFile? && c.path in listing
    {
      if c.SnapshotFile? && c.path in listing {
        var i :| 0 <= i < |listing| && listing[i] == c.path;
        assert SnapshotFiles(listing)[i] == c;
      }
    }
  }

  /** Reaping the candidates one by one. */
  lemma {:induction false} ReapIsSteps(s: Sys, cs: seq<Candidate>, i: nat, dirs: set<PortfolioId>,
                                       files: set<Path>, k: RunStore.Reaper)
    returns (s': Sys)
    requires s.up && i <= |cs| && s.sweep == Reaping(cs[i..], k.portfolios, k.runs)
    requires s.dirs == RunStore.DirsLeft(dirs, cs[..i], k) && s.files == RunStore.FilesLeft(files, cs[..i], k)
    ensures Leads(s, s') && s'.db == s.db && s'.procs == s.procs && s'.sweep == NotSweeping
    ensures s'.dirs == RunStore.DirsLeft(dirs, cs, k) && s'.files == RunStore.FilesLeft(files, cs, k)
    decreases |cs| - i
  {
    if i == |cs| {
      assert cs[..i] == cs;
      Stay(s);
      s' := s.(sweep := NotSweeping);
      Take(s, s, s', EndSweepS);
    } else {
      RunStore.ReapNext(dirs, files, cs, i, k);
      var gone, dirGone := Gone(s, cs[i], k), RunStore.Succeeds(k, cs[i]);
      var s1 := s.(sweep := Reaping(cs[i + 1..], k.portfolios, k.runs), files := s.files - gone,
                   dirs := if cs[i].WholeDir? && dirGone then s.dirs - {cs[i].pid} else s.dirs);
      OneReap(s, s1, cs[i], k);
      assert cs[i..][1..] == cs[i + 1..];
      s' := ReapIsSteps(s1, cs, i + 1, dirs, files, k);
      Prepend(s, s1, s', ReapS(gone, dirGone));
    }
  }

  function Gone(s: Sys, c: Candidate, k: RunStore.Reaper): set<Path> {
    set f | f in s.files && RunStore.Takes(k, c, f)
  }

  lemma OneReap(s: Sys, s1: Sys, c: Candidate, k: RunStore.Reaper)
    requires s.up && s.sweep.Reaping? && s.sweep.found != [] && s.sweep.found[0] == c
    requires s.sweep.portfolios == k.portfolios && s.sweep.runs == k.runs
    requires s1 == s.(sweep := s.sweep.(found := s.sweep.found[1..]), files := s.files - Gone(s, c, k),
                      dirs := if c.WholeDir? && RunStore.Succeeds(k, c) then s.dirs - {c.pid} else s.dirs)
    ensures NextStep(s, s1, ReapS(Gone(s, c, k), RunStore.Succeeds(k, c)))
  {
    if !RunStore.Dead(k, c) {
      assert Gone(s, c, k) == {};
      assert s1.files == s.files;
    }
  }

  /** SweepOrphans, for all removals that fail, is an execution of the sweep's steps. */
  lemma SweepIsSteps(s: Sys, failing: set<Candidate>, part: set<Path>) returns (s': Sys)
    requires s.up && s.sweep == NotSweeping
    ensures Leads(s, s') && s'.db == s.db && s'.procs == s.procs && s'.sweep == NotSweeping
    ensures var k := RunStore.Reaper(s.db.portfolios.Keys, s.db.runs.Keys, failing, part);
            && s'.dirs == (set p | p in s.dirs && !RunStore.Succeeds(k, WholeDir(p)))
            && s'.files == (set f | f in s.files && !(f.pid in s.dirs && RunStore.Doomed(k, f)))
  {
    var k := RunStore.Reaper(s.db.portfolios.Keys, s.db.runs.Keys, failing, part);
    var todo := Enumerate(s.dirs);
    var s1 := s.(sweep := Walking(todo, []));
    Stay(s);
    Take(s, s, s1, StartWalkS(todo));
    var s2 := WalkIsSteps(s1);
    s' := FromWalked(s2, k);
    Chain(s1, s2, s');
    Chain(s, s1, s');
    RunStore.ReapedAll(s.dirs, s.files, s2.sweep.found, k);
  }

  /** The two queries and the removals. */
  lemma FromWalked(s: Sys, k: RunStore.Reaper) returns (s': Sys)
    requires s.up && s.sweep.Walking? && s.sweep.todo == []
    requires k.portfolios == s.db.portfolios.Keys && k.runs == s.db.runs.Keys
    ensures Leads(s, s') && s'.db == s.db && s'.procs == s.procs && s'.sweep == NotSweeping
    ensures s'.dirs == RunStore.DirsLeft(s.dirs, s.sweep.found, k)
    ensures s'.files == RunStore.FilesLeft(s.files, s.sweep.found, k)
  {
    var cs := s.sweep.found;
    var s1 := s.(sweep := KnowsPortfolios(cs, s.db.portfolios.Keys));
    var s2 := s1.(sweep := Reaping(cs, s.db.portfolios.Keys, s.db.runs.Keys));
    assert cs[0..] == cs;
    NothingReaped(s.dirs, s.files, cs, k);
    s' := ReapIsSteps(s2, cs, 0, s.dirs, s.files, k);
    Prepend(s1, s2, s', QueryRunsS);
    Prepend(s, s1, s', QueryPortfoliosS);
  }

  lemma NothingReaped(dirs: set<PortfolioId>, files: set<Path>, cs: seq<Candidate>, k: RunStore.Reaper)
    ensures RunStore.DirsLeft(dirs, cs[..0], k) == dirs && RunStore.FilesLeft(files, cs[..0], k) == files
  {
  }
}
