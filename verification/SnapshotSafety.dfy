/** Snapshot files against rows. A file is written before its run is marked
    successful and removed only after the row is gone, by the prune that follows
    a run as well as by the orphan sweep that races with everything else. */
module SnapshotSafety {
  import opened Prelude
  import opened RunDb
  import opened RunProtocol
  import opened RunOwnership

  // -------------------------------------------------------------- invariant

  /** Deleted ids do not come back. */
  ghost predicate NoRevival(db: Db, db': Db) {
    && db.nextRun <= db'.nextRun && db.nextPortfolio <= db'.nextPortfolio
    && (forall r :: r in db'.runs ==> r in db.runs || r >= db.nextRun)
    && (forall p :: p in db'.portfolios ==> p in db.portfolios || p >= db.nextPortfolio)
  }

  ghost predicate FilesKnown(s: Sys) {
    && (forall p :: p in s.dirs ==> p < s.db.nextPortfolio)
    && (forall f :: f in s.files ==>
          && f.pid < s.db.nextPortfolio && f.rid < s.db.nextRun
          && (f.rid in s.db.runs ==> s.db.runs[f.rid].pid == f.pid))
  }

  /** Exactly the successful rows name a snapshot: their own file, and it is on disk. */
  ghost predicate RowBacked(s: Sys, r: RunId)
    requires r in s.db.runs
  {
    var row := s.db.runs[r];
    if row.status.Success? then row.snapshot == Some(Path(row.pid, r)) && Path(row.pid, r) in s.files
    else row.snapshot == None
  }

  ghost predicate RowsBacked(s: Sys) {
    forall r :: r in s.db.runs ==> RowBacked(s, r)
  }

  /** The file of a worker about to call MarkReadyTx is on disk while its row exists. */
  ghost predicate WrittenBacked(s: Sys) {
    forall l :: l in s.procs && s.procs[l].pc.Written? && s.procs[l].task.rid in s.db.runs ==>
      Path(s.procs[l].task.pid, s.procs[l].task.rid) in s.files
  }

  ghost predicate Backed(s: Sys) {
    FilesKnown(s) && RowsBacked(s) && WrittenBacked(s)
  }

  /** A row of a surviving portfolio disappears only by being pruned. */
  ghost predicate Explained(s: Sys, f: Path) {
    f.rid !in s.db.runs && f.pid in s.db.portfolios ==> f.rid in s.evicted
  }

  ghost predicate EvictionsSound(s: Sys) {
    EvictedFrom(s.db, s.evicted)
  }

  ghost predicate EvictedFrom(db: Db, evicted: map<RunId, Eviction>) {
    forall r :: r in evicted ==>
      r < db.nextRun && r !in db.runs && evicted[r].newer >= evicted[r].retention >= 1
  }

  ghost predicate ActiveKnown(s: Sys, p: PortfolioId)
    requires p in s.db.portfolios
  {
    var q := s.db.portfolios[p];
    && (q.status.Ready? ==> q.snapshot.Some?)
    && (q.snapshot.Some? ==>
          && q.snapshot.value.pid == p && q.snapshot.value.rid < s.db.nextRun
          && (q.snapshot.value.rid in s.db.runs ==>
                s.db.runs[q.snapshot.value.rid].status.Success? && s.db.runs[q.snapshot.value.rid].pid == p)
          && Explained(s, q.snapshot.value))
  }

  /** The files a worker is removing belong to rows that are gone for good. */
  ghost predicate DeletingDead(s: Sys) {
    forall l, f :: l in s.procs && s.procs[l].pc.Deleting? && f in s.procs[l].pc.paths ==>
      f.rid < s.db.nextRun && f.rid !in s.db.runs
  }

  ghost predicate GoneInv(s: Sys) {
    && EvictionsSound(s)
    && (forall f :: f in s.files ==> Explained(s, f))
    && (forall p :: p in s.db.portfolios ==> ActiveKnown(s, p))
    && DeletingDead(s)
  }

  /** Whatever the walk found carries ids that had been handed out by then. */
  ghost predicate Known(db: Db, c: Candidate) {
    match c
    case WholeDir(p) => p < db.nextPortfolio
    case SnapshotFile(f) => f.rid < db.nextRun
  }

  /** Because the queries came after the walk, an id that was found on disk and
      is absent from the answer is dead. */
  ghost predicate SweepInv(s: Sys) {
    match s.sweep
    case NotSweeping => true
    case Walking(todo, found) =>
      && (forall p :: p in todo ==> p < s.db.nextPortfolio)
      && (forall c :: c in found ==> Known(s.db, c))
    case KnowsPortfolios(found, ps) =>
      && (forall c :: c in found ==> Known(s.db, c))
      && (forall c :: c in found && c.WholeDir? && c.pid !in ps ==> c.pid !in s.db.portfolios)
    case Reaping(found, ps, rs) =>
      && (forall c :: c in found ==> Known(s.db, c))
      && (forall c :: c in found && c.WholeDir? && c.pid !in ps ==> c.pid !in s.db.portfolios)
      && (forall c :: c in found && c.SnapshotFile? && c.path.rid !in rs ==> c.path.rid !in s.db.runs)
  }

  ghost predicate FileInv(s: Sys) {
    Backed(s) && GoneInv(s) && SweepInv(s)
  }

  // ----------------------------------------------------------- preservation

  lemma SweepSurvives(s: Sys, s': Sys)
    requires SweepInv(s) && s'.sweep == s.sweep && NoRevival(s.db, s'.db)
    ensures SweepInv(s')
  {
  }

  lemma DeletingSurvives(s: Sys, s': Sys)
    requires DeletingDead(s) && NoRevival(s.db, s'.db)
    requires forall l :: l in s'.procs && s'.procs[l].pc.Deleting? ==>
               && l in s.procs && s.procs[l].pc.Deleting?
               && forall f :: f in s'.procs[l].pc.paths ==> f in s.procs[l].pc.paths
    ensures DeletingDead(s')
  {
    forall l, f | l in s'.procs && s'.procs[l].pc.Deleting? && f in s'.procs[l].pc.paths
      ensures f.rid < s'.db.nextRun && f.rid !in s'.db.runs
    {
      assert f in s.procs[l].pc.paths;
    }
  }

  /** Rows disappear only with their portfolio, and no portfolio gains a snapshot. */
  ghost predicate TableChange(s: Sys, s': Sys) {
    && s' == s.(db := s'.db)
    && NoRevival(s.db, s'.db)
    && (forall r :: r in s'.db.runs ==> r in s.db.runs && s'.db.runs[r] == s.db.runs[r])
    && (forall r :: r in s.db.runs && r !in s'.db.runs ==> s.db.runs[r].pid !in s'.db.portfolios)
    && (forall p :: p in s'.db.portfolios ==>
          if p in s.db.portfolios then
            && s'.db.portfolios[p].snapshot == s.db.portfolios[p].snapshot
            && (s'.db.portfolios[p].status.Ready? ==> s.db.portfolios[p].status.Ready?)
          else s'.db.portfolios[p].snapshot == None && !s'.db.portfolios[p].status.Ready?)
  }

  lemma TableChangeSafe(s: Sys, s': Sys)
    requires FileInv(s) && TableChange(s, s')
    ensures FileInv(s')
  {
    forall r | r in s'.db.runs
      ensures RowBacked(s', r)
    {
      assert RowBacked(s, r);
    }
    forall p | p in s'.db.portfolios
      ensures ActiveKnown(s', p)
    {
      if p in s.db.portfolios {
        assert ActiveKnown(s, p);
      }
    }
    forall f | f in s'.files
      ensures Explained(s', f)
    {
      assert Explained(s, f);
    }
    SweepSurvives(s, s');
    DeletingSurvives(s, s');
  }

  lemma TableSafe(s: Sys, s': Sys, step: Step)
    requires RunInv(s) && FileInv(s) && NextStep(s, s', step) && IsTableStep(step)
    ensures FileInv(s')
  {
    TableChanges(s, s', step);
    TableChangeSafe(s, s');
  }

  lemma TableChanges(s: Sys, s': Sys, step: Step)
    requires RunInv(s) && NextStep(s, s', step) && IsTableStep(step)
    ensures TableChange(s, s')
  {
  }

  lemma SubmitSafe(s: Sys, s': Sys, i: nat, p: PortfolioId, trigger: Trigger)
    requires RunInv(s) && FileInv(s) && SubmitStep(s, s', i, p, trigger)
    ensures FileInv(s')
  {
    forall r | r in s'.db.runs
      ensures RowBacked(s', r)
    {
      if r != s.db.nextRun {
        assert RowBacked(s, r);
      }
    }
    forall q | q in s'.db.portfolios
      ensures ActiveKnown(s', q)
    {
      assert ActiveKnown(s, q);
    }
    forall f | f in s'.files
      ensures Explained(s', f)
    {
      assert Explained(s, f);
    }
    SweepSurvives(s, s');
    DeletingSurvives(s, s');
  }

  /** Steps after which the same rows exist, the same files are on disk, and no
      row or portfolio differs in success or snapshot. */
  ghost predicate SameSnapshots(s: Sys, s': Sys) {
    && s'.files == s.files && s'.dirs == s.dirs && s'.evicted == s.evicted && s'.sweep == s.sweep
    && s'.db.nextRun == s.db.nextRun && s'.db.nextPortfolio == s.db.nextPortfolio
    && s'.db.runs.Keys == s.db.runs.Keys && s'.db.portfolios.Keys == s.db.portfolios.Keys
    && (forall r :: r in s.db.runs ==>
          && s'.db.runs[r].pid == s.db.runs[r].pid && s'.db.runs[r].snapshot == s.db.runs[r].snapshot
          && (s'.db.runs[r].status.Success? <==> s.db.runs[r].status.Success?))
    && (forall p :: p in s.db.portfolios ==>
          && s'.db.portfolios[p].snapshot == s.db.portfolios[p].snapshot
          && (s'.db.portfolios[p].status.Ready? ==> s.db.portfolios[p].status.Ready?))
    && (forall l :: l in s'.procs && (s'.procs[l].pc.Written? || s'.procs[l].pc.Deleting?) ==>
          l in s.procs && s'.procs[l] == s.procs[l])
  }

  lemma SameSnapshotsSafe(s: Sys, s': Sys)
    requires FileInv(s) && SameSnapshots(s, s')
    ensures FileInv(s')
  {
    forall r | r in s'.db.runs
      ensures RowBacked(s', r)
    {
      assert RowBacked(s, r);
    }
    forall p | p in s'.db.portfolios
      ensures ActiveKnown(s', p)
    {
      assert ActiveKnown(s, p);
    }
    forall f | f in s'.files
      ensures Explained(s', f)
    {
      assert Explained(s, f);
    }
    SweepSurvives(s, s');
    DeletingSurvives(s, s');
  }

  lemma MakeDirSafe(s: Sys, s': Sys, w: nat)
    requires RunInv(s) && FileInv(s) && MakeDirStep(s, s', w)
    ensures FileInv(s')
  {
    var s0 := s'.(dirs := s.dirs);
    SameSnapshotsSafe(s, s0);
    assert RowMatches(s.db, s.stuck, s.procs[Worker(w)]);
    forall r | r in s'.db.runs
      ensures RowBacked(s', r)
    {
      assert RowBacked(s0, r);
    }
    forall p | p in s'.db.portfolios
      ensures ActiveKnown(s', p)
    {
      assert ActiveKnown(s0, p);
    }
    forall f | f in s'.files
      ensures Explained(s', f)
    {
      assert Explained(s0, f);
    }
  }

  /** The new file belongs to a row that exists, or to a deleted portfolio. */
  lemma WriteSafe(s: Sys, s': Sys, w: nat)
    requires RunInv(s) && FileInv(s) && WriteStep(s, s', w)
    ensures FileInv(s')
  {
    var t := s.procs[Worker(w)].task;
    assert RowMatches(s.db, s.stuck, s.procs[Worker(w)]);
    forall r | r in s'.db.runs
      ensures RowBacked(s', r)
    {
      assert RowBacked(s, r);
    }
    forall p | p in s'.db.portfolios
      ensures ActiveKnown(s', p)
    {
      assert ActiveKnown(s, p);
    }
    forall f | f in s'.files
      ensures Explained(s', f)
    {
      if f != Path(t.pid, t.rid) {
        assert Explained(s, f);
      }
    }
    SweepSurvives(s, s');
    DeletingSurvives(s, s');
  }

  /** Dropping files none of whose rows exists. */
  lemma RemovalSafe(s: Sys, s': Sys, gone: set<Path>)
    requires RunInv(s) && FileInv(s)
    requires s'.db == s.db && s'.evicted == s.evicted && s'.files == s.files - gone && s'.dirs <= s.dirs
    requires forall f :: f in gone ==> f.rid !in s.db.runs || f.pid !in s.db.portfolios
    requires forall l :: l in s'.procs && s'.procs[l].pc.Written? ==> l in s.procs && s'.procs[l] == s.procs[l]
    requires SweepInv(s') && DeletingDead(s')
    ensures FileInv(s')
  {
    forall r | r in s'.db.runs
      ensures RowBacked(s', r)
    {
      assert RowBacked(s, r);
    }
    forall l | l in s'.procs && s'.procs[l].pc.Written? && s'.procs[l].task.rid in s'.db.runs
      ensures Path(s'.procs[l].task.pid, s'.procs[l].task.rid) in s'.files
    {
      assert RowMatches(s.db, s.stuck, s.procs[l]);
    }
    forall p | p in s'.db.portfolios
      ensures ActiveKnown(s', p)
    {
      assert ActiveKnown(s, p);
    }
    forall f | f in s'.files
      ensures Explained(s', f)
    {
      assert Explained(s, f);
    }
  }

  lemma DeleteFileSafe(s: Sys, s': Sys, w: nat, ok: bool)
    requires RunInv(s) && FileInv(s) && DeleteFileStep(s, s', w, ok)
    ensures FileInv(s')
  {
    var paths := s.procs[Worker(w)].pc.paths;
    assert paths[0] in paths;
    SweepSurvives(s, s');
    DeletingSurvives(s, s');
    RemovalSafe(s, s', if ok then {paths[0]} else {});
  }

  /** What one candidate of the orphan sweep removes: files whose run row or
      whose portfolio row no longer exists. */
  lemma ReapRemovesOrphans(s: Sys, s': Sys, gone: set<Path>, dirGone: bool)
    requires SweepInv(s) && ReapStep(s, s', gone, dirGone)
    ensures forall f :: f in s.files - s'.files ==> f.rid !in s.db.runs || f.pid !in s.db.portfolios
  {
    var c := s.sweep.found[0];
    assert c in s.sweep.found;
  }

  lemma ReapSafe(s: Sys, s': Sys, gone: set<Path>, dirGone: bool)
    requires RunInv(s) && FileInv(s) && ReapStep(s, s', gone, dirGone)
    ensures FileInv(s')
  {
    ReapRemovesOrphans(s, s', gone, dirGone);
    assert forall c :: c in s'.sweep.found ==> c in s.sweep.found;
    DeletingSurvives(s, s');
    RemovalSafe(s, s', s.files - s'.files);
  }

  lemma PurgeDirSafe(s: Sys, s': Sys, p: PortfolioId, gone: set<Path>, dirGone: bool)
    requires RunInv(s) && FileInv(s) && PurgeDirStep(s, s', p, gone, dirGone)
    ensures FileInv(s')
  {
    SweepSurvives(s, s');
    DeletingSurvives(s, s');
    RemovalSafe(s, s', gone);
  }

  lemma WalkDirSafe(s: Sys, s': Sys, listing: seq<Path>)
    requires FileInv(s) && WalkDirStep(s, s', listing)
    ensures SweepInv(s')
  {
    var seen, listed := s.sweep.found, SnapshotFiles(listing);
    assert s'.sweep.found == seen + [WholeDir(s.sweep.todo[0])] + listed;
    assert s.sweep.todo[0] in s.sweep.todo && forall p :: p in s'.sweep.todo ==> p in s.sweep.todo;
    forall c | c in s'.sweep.found
      ensures Known(s'.db, c)
    {
      if c !in seen && c != WholeDir(s.sweep.todo[0]) {
        var i :| 0 <= i < |listed| && listed[i] == c;
        assert listing[i] in listing;
      }
    }
  }

  /** The walk and the queries of the sweep. */
  lemma SweepReadSafe(s: Sys, s': Sys, step: Step)
    requires FileInv(s) && NextStep(s, s', step)
    requires IsSweepStep(step) && !step.ReapS?
    ensures FileInv(s')
  {
    if step.WalkDirS? {
      WalkDirSafe(s, s', step.listing);
    }
    QuietSweepSafe(s, s');
  }

  lemma MarkReadySafe(s: Sys, s': Sys, w: nat)
    requires RunInv(s) && FileInv(s) && MarkReadyStep(s, s', w, true)
    ensures FileInv(s')
  {
    MarkReadyBacked(s, s', w);
    MarkReadyGone(s, s', w);
    SweepSurvives(s, s');
  }

  lemma MarkReadyBacked(s: Sys, s': Sys, w: nat)
    requires RunInv(s) && Backed(s) && MarkReadyStep(s, s', w, true)
    ensures Backed(s')
  {
    assert RowMatches(s.db, s.stuck, s.procs[Worker(w)]);
    forall r | r in s'.db.runs
      ensures RowBacked(s', r)
    {
      assert RowBacked(s, r);
    }
  }

  lemma MarkReadyGone(s: Sys, s': Sys, w: nat)
    requires RunInv(s) && GoneInv(s) && MarkReadyStep(s, s', w, true)
    ensures GoneInv(s')
  {
    assert RowMatches(s.db, s.stuck, s.procs[Worker(w)]);
    forall p | p in s'.db.portfolios
      ensures ActiveKnown(s', p)
    {
      assert ActiveKnown(s, p);
    }
    forall f | f in s'.files
      ensures Explained(s', f)
    {
      assert Explained(s, f);
    }
    DeletingSurvives(s, s');
  }

  lemma PrunedAreDead(s: Sys, p: PortfolioId, f: Path)
    requires RunInv(s) && FileInv(s) && f in PrunedPaths(s.db, p)
    ensures f.rid < s.db.nextRun && f.rid !in PruneRuns(s.db, p).runs
  {
    var r :| r in Expired(RunsOf(s.db, p), s.db.portfolios[p].retention)
             && r in s.db.runs && s.db.runs[r].snapshot.Some? && s.db.runs[r].snapshot.value == f;
    assert RowBacked(s, r);
  }

  lemma PruneDeletingDead(s: Sys, s': Sys, w: nat, paths: seq<Path>)
    requires RunInv(s) && FileInv(s) && PruneStep(s, s', w, true, paths)
    requires s.procs[Worker(w)].task.pid in s.db.portfolios
    ensures DeletingDead(s')
  {
    var p := s.procs[Worker(w)].task.pid;
    forall l, f | l in s'.procs && s'.procs[l].pc.Deleting? && f in s'.procs[l].pc.paths
      ensures f.rid < s'.db.nextRun && f.rid !in s'.db.runs
    {
      if l == Worker(w) {
        PrunedAreDead(s, p, f);
      } else {
        assert f in s.procs[l].pc.paths;
      }
    }
  }

  /** Exactly the pruned rows are new in the eviction record, each with at
      least as many newer rows as the retention asked to keep. */
  lemma PruneEvicts(s: Sys, s': Sys, w: nat, paths: seq<Path>)
    requires IdsBounded(s.db) && EvictionsSound(s) && PruneStep(s, s', w, true, paths)
    requires s.procs[Worker(w)].task.pid in s.db.portfolios
    ensures EvictionsSound(s') && s'.evicted.Keys >= s.evicted.Keys
    ensures forall r :: r in s.db.runs && r !in s'.db.runs ==> r in s'.evicted
  {
    MoreEvicted(s.db, s.procs[Worker(w)].task.pid, s.evicted);
  }

  lemma MoreEvicted(db: Db, p: PortfolioId, evicted: map<RunId, Eviction>)
    requires IdsBounded(db) && p in db.portfolios && EvictedFrom(db, evicted)
    ensures EvictedFrom(PruneRuns(db, p), evicted + Evictions(db, p))
    ensures forall r :: r in db.runs && r !in PruneRuns(db, p).runs ==> r in evicted + Evictions(db, p)
  {
    EvictionsArePruned(db, p);
    assert forall r :: r in PruneRuns(db, p).runs ==> r in db.runs;
  }

  lemma EvictionsArePruned(db: Db, p: PortfolioId)
    requires IdsBounded(db) && p in db.portfolios
    ensures forall r :: r in Evictions(db, p) <==> r in db.runs && r !in PruneRuns(db, p).runs
    ensures forall r :: r in Evictions(db, p) ==>
              r < db.nextRun && Evictions(db, p)[r].newer >= Evictions(db, p)[r].retention >= 1
  {
  }

  lemma PruneGone(s: Sys, s': Sys, w: nat, paths: seq<Path>)
    requires RunInv(s) && FileInv(s) && PruneStep(s, s', w, true, paths)
    requires s.procs[Worker(w)].task.pid in s.db.portfolios
    ensures GoneInv(s')
  {
    PruneEvicts(s, s', w, paths);
    PruneDeletingDead(s, s', w, paths);
    forall q | q in s'.db.portfolios
      ensures ActiveKnown(s', q)
    {
      assert ActiveKnown(s, q);
    }
    forall f | f in s'.files
      ensures Explained(s', f)
    {
      assert Explained(s, f);
    }
  }

  lemma PruneSafe(s: Sys, s': Sys, w: nat, paths: seq<Path>)
    requires RunInv(s) && FileInv(s) && PruneStep(s, s', w, true, paths)
    requires s.procs[Worker(w)].task.pid in s.db.portfolios
    ensures FileInv(s')
  {
    forall r | r in s'.db.runs
      ensures RowBacked(s', r)
    {
      assert RowBacked(s, r);
    }
    PruneGone(s, s', w, paths);
    SweepSurvives(s, s');
  }

  /** A step that touches neither rows nor files. */
  lemma QuietMoveSafe(s: Sys, s': Sys, step: Step)
    requires FileInv(s) && NextStep(s, s', step)
    requires step.LoadS? || step.AbortS? || step.FinishS? || step.OfferS? || step.TakeS?
    ensures FileInv(s')
  {
    assert SameSnapshots(s, s');
    SameSnapshotsSafe(s, s');
  }

  lemma WorkerMoveSafe(s: Sys, s': Sys, step: Step)
    requires RunInv(s) && FileInv(s) && NextStep(s, s', step) && IsWorkerMove(step)
    ensures FileInv(s')
  {
    if step.LoadS? || step.AbortS? || step.FinishS? {
      QuietMoveSafe(s, s', step);
    } else {
      FileMoveSafe(s, s', step);
    }
  }

  lemma FileMoveSafe(s: Sys, s': Sys, step: Step)
    requires RunInv(s) && FileInv(s) && NextStep(s, s', step)
    requires step.MakeDirS? || step.WriteS? || step.DeleteFileS?
    ensures FileInv(s')
  {
    match step {
      case MakeDirS(w) => MakeDirSafe(s, s', w);
      case WriteS(w) => WriteSafe(s, s', w);
      case DeleteFileS(w, ok) => DeleteFileSafe(s, s', w, ok);
    }
  }

  lemma MarkRunningSafe(s: Sys, s': Sys, w: nat, ok: bool)
    requires RunInv(s) && FileInv(s) && MarkRunningStep(s, s', w, ok)
    ensures FileInv(s')
  {
    assert RowMatches(s.db, s.stuck, s.procs[Worker(w)]);
    SameSnapshotsSafe(s, s');
  }

  lemma MarkFailedSafe(s: Sys, s': Sys, w: nat, ok: bool)
    requires RunInv(s) && FileInv(s) && MarkFailedStep(s, s', w, ok)
    ensures FileInv(s')
  {
    assert RowMatches(s.db, s.stuck, s.procs[Worker(w)]);
    SameSnapshotsSafe(s, s');
  }

  /** A completion or a prune that writes nothing. */
  lemma NoWriteSafe(s: Sys, s': Sys, step: Step)
    requires FileInv(s) && NextStep(s, s', step)
    requires (step.MarkReadyS? && !step.ok)
             || (step.PruneS? && !(step.ok && s.procs[Worker(step.w)].task.pid in s.db.portfolios))
    ensures FileInv(s')
  {
    SameSnapshotsSafe(s, s');
  }

  lemma WorkerWriteSafe(s: Sys, s': Sys, step: Step)
    requires RunInv(s) && FileInv(s) && NextStep(s, s', step) && IsWorkerWrite(step)
    ensures FileInv(s')
  {
    match step {
      case MarkRunningS(w, ok) => MarkRunningSafe(s, s', w, ok);
      case MarkFailedS(w, ok) => MarkFailedSafe(s, s', w, ok);
      case MarkReadyS(w, ok) => SettlingSafe(s, s', step);
      case PruneS(w, ok, paths) => SettlingSafe(s, s', step);
    }
  }

  lemma SettlingSafe(s: Sys, s': Sys, step: Step)
    requires RunInv(s) && FileInv(s) && NextStep(s, s', step) && (step.MarkReadyS? || step.PruneS?)
    ensures FileInv(s')
  {
    if step.MarkReadyS? && step.ok {
      MarkReadySafe(s, s', step.w);
    } else if step.PruneS? && step.ok && s.procs[Worker(step.w)].task.pid in s.db.portfolios {
      PruneSafe(s, s', step.w, step.paths);
    } else {
      NoWriteSafe(s, s', step);
    }
  }

  lemma RejectSafe(s: Sys, s': Sys, i: nat, ok: bool)
    requires RunInv(s) && FileInv(s) && RejectStep(s, s', i, ok)
    ensures FileInv(s')
  {
    assert RowMatches(s.db, s.stuck, s.procs[Submitter(i)]);
    SameSnapshotsSafe(s, s');
  }

  lemma SubmitClaimedSafe(s: Sys, s': Sys, i: nat)
    requires RunInv(s) && FileInv(s) && SubmitClaimedStep(s, s', i)
    ensures FileInv(s')
  {
    var rest := s.(claimed := s.claimed[1..]);
    SameView(s, rest);
    SameSnapshotsSafe(s, rest);
    if CreateRun(s.db, s.claimed[0], Scheduled).Ok? {
      SubmitSafe(rest, s', i, s.claimed[0], Scheduled);
    }
  }

  lemma SubmissionSafe(s: Sys, s': Sys, step: Step)
    requires RunInv(s) && FileInv(s) && NextStep(s, s', step) && IsSubmission(step)
    ensures FileInv(s')
  {
    match step {
      case SubmitS(i, p) => SubmitSafe(s, s', i, p, Manual);
      case SubmitClaimedS(i) => SubmitClaimedSafe(s, s', i);
      case RejectS(i, ok) => RejectSafe(s, s', i, ok);
      case OfferS(i) => QuietMoveSafe(s, s', step);
      case TakeS(w) => QuietMoveSafe(s, s', step);
    }
  }

  lemma CrashSafe(s: Sys, s': Sys)
    requires FileInv(s) && CrashStep(s, s')
    ensures FileInv(s')
  {
    SameSnapshotsSafe(s, s'.(sweep := s.sweep));
    QuietSweepSafe(s'.(sweep := s.sweep), s');
  }

  /** Only the sweep or the claims changed. */
  lemma QuietSweepSafe(s: Sys, s': Sys)
    requires FileInv(s) && SweepInv(s')
    requires s'.db == s.db && s'.procs == s.procs && s'.files == s.files && s'.dirs == s.dirs && s'.evicted == s.evicted
    ensures FileInv(s')
  {
    forall r | r in s'.db.runs
      ensures RowBacked(s', r)
    {
      assert RowBacked(s, r);
    }
    forall p | p in s'.db.portfolios
      ensures ActiveKnown(s', p)
    {
      assert ActiveKnown(s, p);
    }
    forall f | f in s'.files
      ensures Explained(s', f)
    {
      assert Explained(s, f);
    }
  }

  lemma RestartSafe(s: Sys, s': Sys, swept: bool)
    requires FileInv(s) && RestartStep(s, s', swept)
    ensures FileInv(s')
  {
    SameSnapshotsSafe(s, s');
  }

  /** Every step keeps files and rows consistent. */
  lemma StepSafe(s: Sys, s': Sys, step: Step)
    requires RunInv(s) && FileInv(s) && NextStep(s, s', step)
    ensures FileInv(s')
  {
    if IsTableStep(step) {
      TableSafe(s, s', step);
    } else if IsSubmission(step) {
      SubmissionSafe(s, s', step);
    } else if IsWorkerMove(step) {
      WorkerMoveSafe(s, s', step);
    } else if IsWorkerWrite(step) {
      WorkerWriteSafe(s, s', step);
    } else if step.CrashS? {
      CrashSafe(s, s');
    } else if step.RestartS? {
      RestartSafe(s, s', step.swept);
    } else if step.DuplicateS? {
      StepKeeps(s, s', step);
    } else if step.ReapS? {
      ReapSafe(s, s', step.gone, step.dirGone);
    } else if step.PurgeDirS? {
      PurgeDirSafe(s, s', step.p, step.gone, step.dirGone);
    } else if step.ClaimS? || step.SkipClaimedS? {
      QuietSweepSafe(s, s');
    } else {
      SweepReadSafe(s, s', step);
    }
  }
}
