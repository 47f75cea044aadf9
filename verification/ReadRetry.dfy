/** Snapshot reads that resubmit a missing backtest by themselves, for one
    portfolio: how often they can do so before they refuse.

    A read takes three separate steps: it loads the portfolio, lists the runs,
    and submits. Runs can finish in between. The cap of two failures holds for
    reads during which no started run of the portfolio finished; it does not
    hold for reads that such a completion overtook. */
module ReadRetry {
  import opened Prelude
  import opened RunDb

  // ---------------------------------------------------- the list of the runs

  datatype Entry = Entry(id: RunId, status: RunStatus)

  predicate IsInFlight(e: Entry) {
    e.status.Queued? || e.status.Running?
  }

  /** The first queued or running entry, if any. */
  method PickInflight(list: seq<Entry>) returns (found: Option<Entry>)
    ensures found.None? <==> forall e :: e in list ==> !IsInFlight(e)
    ensures found.Some? ==> exists i :: 0 <= i < |list| && list[i] == found.value && IsInFlight(list[i])
                                        && forall j :: 0 <= j < i ==> !IsInFlight(list[j])
  {
    for i := 0 to |list|
      invariant forall j :: 0 <= j < i ==> !IsInFlight(list[j])
    {
      if IsInFlight(list[i]) {
        return Some(list[i]);
      }
    }
    return None;
  }

  function FailedHead(list: seq<Entry>): nat {
    if list == [] || !list[0].status.Failed? then 0 else 1 + FailedHead(list[1..])
  }

  /** The number of failed entries before the first that is not failed. */
  method ConsecutiveFailedRuns(list: seq<Entry>) returns (n: nat)
    ensures n == FailedHead(list)
    ensures n <= |list| && (forall i :: 0 <= i < n ==> list[i].status.Failed?)
    ensures n < |list| ==> !list[n].status.Failed?
  {
    n := 0;
    while n < |list| && list[n].status.Failed?
      invariant n <= |list| && (forall i :: 0 <= i < n ==> list[i].status.Failed?)
      invariant FailedHead(list) == n + FailedHead(list[n..])
    {
      assert list[n..][1..] == list[n + 1..];
      n := n + 1;
    }
  }

  lemma {:induction false} FailedHeadAtLeast(list: seq<Entry>, n: nat)
    requires n <= |list| && forall i :: 0 <= i < n ==> list[i].status.Failed?
    ensures FailedHead(list) >= n
  {
    if n > 0 {
      FailedHeadAtLeast(list[1..], n - 1);
    }
  }

  /** COALESCE(started_at, year 1), as a sort key. */
  function StartKey(row: RunRow): nat {
    if row.startedAt.Some? then row.startedAt.value.time + 1 else 0
  }

  /** A possible answer of ListRuns: all rows of the portfolio, most recently
      started first; the order of rows that were never started is open. */
  ghost predicate IsListing(db: Db, p: PortfolioId, list: seq<Entry>) {
    && (forall i :: 0 <= i < |list| ==>
          list[i].id in RunsOf(db, p) && list[i].status == db.runs[list[i].id].status)
    && (forall r :: r in RunsOf(db, p) ==> exists i :: 0 <= i < |list| && list[i].id == r)
    && (forall i, j :: 0 <= i < j < |list| ==>
          list[i].id != list[j].id && StartKey(db.runs[list[j].id]) <= StartKey(db.runs[list[i].id]))
  }

  datatype Decision = Follow | Refuse | Resubmit

  /** The choice that respondRecalculating makes from the loaded status and the list. */
  function Decide(status: PortfolioStatus, list: seq<Entry>): Decision {
    if exists e :: e in list && IsInFlight(e) then Follow
    else if status.Failed? && FailedHead(list) >= 2 then Refuse
    else Resubmit
  }

  /** respondRecalculating up to the submission: point to the run in flight,
      answer 503, or submit a fresh run. */
  method RespondRecalculating(status: PortfolioStatus, list: seq<Entry>) returns (d: Decision, run: Option<Entry>)
    ensures d == Decide(status, list)
    ensures d == Follow <==> exists i :: 0 <= i < |list| && list[i].status in {RunStatus.Queued, RunStatus.Running}
    ensures d == Refuse <==>
              && (forall i :: 0 <= i < |list| ==> list[i].status !in {RunStatus.Queued, RunStatus.Running})
              && status == PortfolioStatus.Failed
              && |list| >= 2 && list[0].status == RunStatus.Failed && list[1].status == RunStatus.Failed
    ensures run.Some? <==> d == Follow
    ensures run.Some? ==> exists i :: 0 <= i < |list| && list[i] == run.value && IsInFlight(list[i])
                                      && forall j :: 0 <= j < i ==> !IsInFlight(list[j])
  {
    run := PickInflight(list);
    if run.Some? {
      return Follow, run;
    }
    assert forall i :: 0 <= i < |list| ==> !IsInFlight(list[i]);
    var failures := ConsecutiveFailedRuns(list);
    if status.Failed? && failures >= 2 {
      return Refuse, None;
    }
    return Resubmit, None;
  }

  // ----------------------------------------------------------- state machine

  datatype Reader =
    | Loaded(status: PortfolioStatus, epoch: nat)     // portfolio read
    | Deciding(epoch: nat)                            // runs listed, about to submit

  datatype State = State(
    db: Db,
    readers: map<nat, Reader>,
    current: Option<RunId>,      // the latest run submitted by a read
    timely: bool,                // whether no started run finished during that read
    // Counted since the last success:
    fails: nat,                  // runs that started and failed
    timelyFails: nat,             // those among them submitted by a timely read
    readFails: nat,              // those among them submitted by any read
    base: RunId,                 // rows from here on were created since
    finished: nat)               // started runs that finished, ever

  datatype Step =
    | Load(i: nat)
    | List(i: nat, list: seq<Entry>)
    | ReadSubmit(i: nat)
    | OtherSubmit(trigger: Trigger)  // scheduler or explicit request
    | Reject(r: RunId)               // channel full
    | Start(r: RunId)
    | Succeed(r: RunId)
    | Fail(r: RunId)
    | Prune
    | SetRetention(n: nat)
    | Restart
    | Tick(now: Stamp)

  ghost predicate Is(db: Db, p: PortfolioId, r: RunId, status: RunStatus) {
    r in db.runs && db.runs[r].pid == p && db.runs[r].status == status
  }

  function CountFailure(s: State, r: RunId): State {
    var mine := s.current == Some(r);
    s.(fails := s.fails + 1, finished := s.finished + 1,
       timelyFails := s.timelyFails + (if mine && s.timely then 1 else 0),
       readFails := s.readFails + (if mine then 1 else 0))
  }

  /** One step for portfolio p. A step that is not enabled changes nothing. */
  ghost function Apply(p: PortfolioId, s: State, step: Step): State {
    match step
    case Load(i) =>
      if p in s.db.portfolios
      then s.(readers := s.readers[i := Loaded(s.db.portfolios[p].status, s.finished)]) else s
    case List(i, list) =>
      if i in s.readers && s.readers[i].Loaded? && IsListing(s.db, p, list) then
        if Decide(s.readers[i].status, list).Resubmit?
        then s.(readers := s.readers[i := Deciding(s.readers[i].epoch)])
        else s.(readers := s.readers - {i})
      else s
    case ReadSubmit(i) =>
      if i in s.readers && s.readers[i].Deciding? then
        var done := s.(readers := s.readers - {i});
        var c := CreateRun(s.db, p, Manual);
        if c.Ok?
        then done.(db := c.value.0, current := Some(c.value.1), timely := s.readers[i].epoch == s.finished)
        else done
      else s
    case OtherSubmit(trigger) =>
      var c := CreateRun(s.db, p, trigger);
      if c.Ok? then s.(db := c.value.0) else s
    case Reject(r) =>
      if Is(s.db, p, r, Queued) then s.(db := UpdateRunFailed(s.db, r)) else s
    case Start(r) =>
      if Is(s.db, p, r, Queued) then s.(db := MarkRunning(s.db, p, r)) else s
    case Succeed(r) =>
      if Is(s.db, p, r, RunStatus.Running)
      then s.(db := MarkReady(s.db, p, r, Path(p, r)), finished := s.finished + 1,
              fails := 0, timelyFails := 0, readFails := 0, base := s.db.nextRun)
      else s
    case Fail(r) =>
      if Is(s.db, p, r, RunStatus.Running) then CountFailure(s, r).(db := MarkFailed(s.db, p, r))
      else if Is(s.db, p, r, Queued) then s.(db := MarkFailed(s.db, p, r))
      else s
    case Prune => s.(db := PruneRuns(s.db, p))
    case SetRetention(n) => if n >= 1 then s.(db := RunDb.SetRetention(s.db, p, n)) else s
    case Restart =>
      var after := s.(db := MarkAllRunningAsFailed(s.db), readers := map[]);
      if exists r :: Is(s.db, p, r, RunStatus.Running)
      then
        var r :| Is(s.db, p, r, RunStatus.Running);
        CountFailure(after, r)
      else after
    case Tick(now) =>
      if s.db.now.time <= now.time && s.db.now.day <= now.day then s.(db := s.db.(now := now)) else s
  }

  ghost function Exec(p: PortfolioId, s: State, steps: seq<Step>): State {
    if steps == [] then s else Apply(p, Exec(p, s, steps[..|steps| - 1]), steps[|steps| - 1])
  }

  // -------------------------------------------------------------- invariant

  /** Rows of p created since the last success. */
  function Since(s: State, p: PortfolioId): set<RunId> {
    set r | r in RunsOf(s.db, p) && r >= s.base
  }

  function StartedFailures(s: State, p: PortfolioId): set<RunId> {
    set r | r in Since(s, p) && s.db.runs[r].status.Failed? && s.db.runs[r].startedAt.Some?
  }

  /** Start times follow ids, and nothing succeeded since base. */
  ghost predicate RowsOrdered(s: State, p: PortfolioId) {
    && s.base <= s.db.nextRun
    && (forall r :: r in RunsOf(s.db, p) ==>
          && (s.db.runs[r].status.Queued? ==> s.db.runs[r].startedAt.None?)
          && (s.db.runs[r].status.Running? ==> s.db.runs[r].startedAt.Some?)
          && (InFlight(s.db.runs[r]) ==> r >= s.base)
          && (s.db.runs[r].startedAt.Some? ==> s.db.runs[r].startedAt.value.time < s.db.now.time)
          && (s.db.runs[r].status.Success? ==> r < s.base))
    && (forall r, x :: r in RunsOf(s.db, p) && x in RunsOf(s.db, p) && r < x
                       && s.db.runs[r].startedAt.Some? && s.db.runs[x].startedAt.Some? ==>
          s.db.runs[r].startedAt.value.time < s.db.runs[x].startedAt.value.time)
  }

  /** The failures are visible in the table: all of them while an older row
      remains, and otherwise at least two rows, counting one in flight. */
  ghost predicate FailuresShow(s: State, p: PortfolioId) {
    && ((exists r :: r in RunsOf(s.db, p) && r < s.base) ==> |StartedFailures(s, p)| == s.fails)
    && |Since(s, p)| >= Min(2, s.fails + (if HasInFlight(s.db, p) then 1 else 0))
  }

  ghost predicate StatusShows(s: State, p: PortfolioId)
    requires p in s.db.portfolios
  {
    if HasRunningRun(s.db, p) then s.db.portfolios[p].status.Running?
    else s.fails >= 1 ==> s.db.portfolios[p].status.Failed?
  }

  ghost predicate ReaderSound(s: State, p: PortfolioId, reader: Reader) {
    && reader.epoch <= s.finished
    && (reader.epoch == s.finished ==>
          match reader
          case Loaded(status, _) => s.fails >= 1 ==> status.Failed? || HasRunningRun(s.db, p)
          case Deciding(_) => s.fails <= 1)
  }

  ghost predicate CurrentSound(s: State, p: PortfolioId) {
    && s.timelyFails <= s.fails && s.timelyFails <= 2
    && (s.current.Some? ==>
          var r := s.current.value;
          && r < s.db.nextRun
          && (r in s.db.runs ==> s.db.runs[r].pid == p)
          && (s.timely && r in s.db.runs && InFlight(s.db.runs[r]) ==> s.fails <= 1))
  }

  ghost predicate Core(s: State, p: PortfolioId) {
    DbInv(s.db) && p in s.db.portfolios && RowsOrdered(s, p)
  }

  ghost predicate Inv(s: State, p: PortfolioId) {
    && Core(s, p) && s.db.portfolios[p].retention >= 2 && FailuresShow(s, p) && StatusShows(s, p)
    && (forall i :: i in s.readers ==> ReaderSound(s, p, s.readers[i]))
    && CurrentSound(s, p)
  }

  // ---------------------------------------- two failures make every read stop

  lemma TwoMembers(rs: set<RunId>) returns (a: RunId, b: RunId)
    requires |rs| >= 2
    ensures a in rs && b in rs && a != b
  {
    a :| a in rs;
    assert |rs - {a}| >= 1;
    b :| b in rs - {a};
  }

  /** Only started failures come before two started failures in the list. */
  lemma HeadIsFailure(s: State, p: PortfolioId, list: seq<Entry>, i: nat, j: nat, k: nat)
    requires Inv(s, p) && IsListing(s.db, p, list)
    requires forall r :: r in RunsOf(s.db, p) ==> !InFlight(s.db.runs[r])
    requires i < |list| && j < |list| && i != j && k < 2
    requires list[i].id in StartedFailures(s, p) && list[j].id in StartedFailures(s, p)
    ensures k < |list| && list[k].status.Failed?
  {
    var m := if i < j then j else i;
    assert k <= m;
    var a, b := s.db.runs[list[k].id], s.db.runs[list[m].id];
    assert StartKey(b) <= StartKey(a);
    assert list[k].id in RunsOf(s.db, p) && a.startedAt.Some?;
    assert list[k].id >= list[m].id;
  }

  lemma Indices(db: Db, p: PortfolioId, list: seq<Entry>, rs: set<RunId>) returns (i: nat, j: nat)
    requires IsListing(db, p, list) && rs <= RunsOf(db, p) && |rs| >= 2
    ensures i < |list| && j < |list| && i != j && list[i].id in rs && list[j].id in rs
  {
    var a, b := TwoMembers(rs);
    i :| 0 <= i < |list| && list[i].id == a;
    j :| 0 <= j < |list| && list[j].id == b;
  }

  lemma NoneInFlight(db: Db, p: PortfolioId, list: seq<Entry>, r: RunId)
    requires IsListing(db, p, list) && r in RunsOf(db, p)
    requires forall e :: e in list ==> !IsInFlight(e)
    ensures !InFlight(db.runs[r])
  {
    var i :| 0 <= i < |list| && list[i].id == r;
    assert list[i] in list;
  }

  lemma FailuresAhead(s: State, p: PortfolioId, list: seq<Entry>)
    requires Inv(s, p) && IsListing(s.db, p, list) && |StartedFailures(s, p)| >= 2
    requires forall r :: r in RunsOf(s.db, p) ==> !InFlight(s.db.runs[r])
    ensures |list| >= 2 && list[0].status.Failed? && list[1].status.Failed?
  {
    var i, j := Indices(s.db, p, list, StartedFailures(s, p));
    HeadIsFailure(s, p, list, i, j, 0);
    HeadIsFailure(s, p, list, i, j, 1);
  }

  /** With two started failures since the last success and nothing in flight,
      every answer ListRuns may give begins with two failed rows. */
  lemma TwoFailuresListed(s: State, p: PortfolioId, list: seq<Entry>)
    requires Inv(s, p) && s.fails >= 2 && IsListing(s.db, p, list)
    requires forall e :: e in list ==> !IsInFlight(e)
    ensures FailedHead(list) >= 2
  {
    forall r | r in RunsOf(s.db, p)
      ensures !InFlight(s.db.runs[r])
    {
      NoneInFlight(s.db, p, list, r);
    }
    if exists r :: r in RunsOf(s.db, p) && r < s.base {
      FailuresAhead(s, p, list);
    } else {
      OnlyFailures(s, p, list);
    }
    FailedHeadAtLeast(list, 2);
  }

  /** When every row is newer than the last success, every settled row failed. */
  lemma OnlyFailures(s: State, p: PortfolioId, list: seq<Entry>)
    requires RowsOrdered(s, p) && IsListing(s.db, p, list) && |Since(s, p)| >= 2
    requires forall r :: r in RunsOf(s.db, p) ==> !InFlight(s.db.runs[r]) && r >= s.base
    ensures |list| >= 2 && list[0].status.Failed? && list[1].status.Failed?
  {
    var i, j := Indices(s.db, p, list, Since(s, p));
    assert list[0].id in RunsOf(s.db, p) && list[1].id in RunsOf(s.db, p);
  }

  // ----------------------------------------------------------- preservation

  /** The rows and counters that the row invariants speak of are unchanged. */
  lemma SameRows(s: State, s': State, p: PortfolioId)
    requires Inv(s, p)
    requires s'.db.runs == s.db.runs && s'.db.nextRun == s.db.nextRun && s'.base == s.base && s'.fails == s.fails
    requires s.db.now.time <= s'.db.now.time
    ensures RowsOrdered(s', p) && FailuresShow(s', p)
  {
    assert Since(s', p) == Since(s, p) && StartedFailures(s', p) == StartedFailures(s, p);
  }

  lemma ReaderChangeKeeps(p: PortfolioId, s: State, s': State)
    requires Inv(s, p) && s' == s.(readers := s'.readers)
    requires forall i :: i in s'.readers ==> ReaderSound(s, p, s'.readers[i])
    ensures Inv(s', p)
  {
    SameRows(s, s', p);
    forall i | i in s'.readers
      ensures ReaderSound(s', p, s'.readers[i])
    {
      assert ReaderSound(s, p, s'.readers[i]);
    }
  }

  lemma LoadKeeps(p: PortfolioId, s: State, i: nat)
    requires Inv(s, p)
    ensures Inv(Apply(p, s, Load(i)), p)
  {
    ReaderChangeKeeps(p, s, Apply(p, s, Load(i)));
  }

  /** A read that decides to submit although nothing finished since it loaded
      the portfolio has seen at most one failure since the last success. */
  lemma ResubmitJustified(p: PortfolioId, s: State, reader: Reader, list: seq<Entry>)
    requires Inv(s, p) && ReaderSound(s, p, reader) && reader.Loaded? && reader.epoch == s.finished
    requires IsListing(s.db, p, list) && Decide(reader.status, list).Resubmit?
    ensures s.fails <= 1
  {
    if HasRunningRun(s.db, p) {
      var r :| r in s.db.runs && s.db.runs[r].pid == p && s.db.runs[r].status.Running?;
      NoneInFlight(s.db, p, list, r);
    } else if s.fails >= 2 {
      TwoFailuresListed(s, p, list);
    }
  }

  lemma ListKeeps(p: PortfolioId, s: State, i: nat, list: seq<Entry>)
    requires Inv(s, p)
    ensures Inv(Apply(p, s, List(i, list)), p)
  {
    if i in s.readers && s.readers[i].Loaded? && IsListing(s.db, p, list)
        && Decide(s.readers[i].status, list).Resubmit? {
      assert ReaderSound(s, p, s.readers[i]);
      if s.readers[i].epoch == s.finished {
        ResubmitJustified(p, s, s.readers[i], list);
      }
    }
    ReaderChangeKeeps(p, s, Apply(p, s, List(i, list)));
  }

  /** FailuresShow survives when no row since base is lost. */
  lemma ShowKept(s: State, s': State, p: PortfolioId)
    requires FailuresShow(s, p) && s'.base == s.base && s'.fails == s.fails
    requires Since(s, p) <= Since(s', p) && StartedFailures(s', p) == StartedFailures(s, p)
    requires HasInFlight(s'.db, p) ==> HasInFlight(s.db, p)
    requires forall r :: r in RunsOf(s'.db, p) && r < s.base ==> r in RunsOf(s.db, p)
    ensures FailuresShow(s', p)
  {
    SubsetCard(Since(s, p), Since(s', p));
  }

  lemma CreateRows(p: PortfolioId, s: State, s': State, trigger: Trigger)
    requires Core(s, p) && CreateRun(s.db, p, trigger).Ok?
    requires s'.db == CreateRun(s.db, p, trigger).value.0 && s'.base == s.base && s'.fails == s.fails
    ensures RowsOrdered(s', p)
  {
    assert forall r :: r in RunsOf(s'.db, p) ==> r == s.db.nextRun || r in RunsOf(s.db, p);
  }

  lemma CreateShows(p: PortfolioId, s: State, s': State, trigger: Trigger)
    requires IdsBounded(s.db) && FailuresShow(s, p) && s.base <= s.db.nextRun && CreateRun(s.db, p, trigger).Ok?
    requires s'.db == CreateRun(s.db, p, trigger).value.0 && s'.base == s.base && s'.fails == s.fails
    ensures FailuresShow(s', p)
  {
    var r := s.db.nextRun;
    assert r !in Since(s, p) && Since(s', p) == Since(s, p) + {r};
    assert |Since(s', p)| == |Since(s, p)| + 1;
    assert StartedFailures(s', p) == StartedFailures(s, p);
    assert forall x :: x in RunsOf(s'.db, p) && x < s.base ==> x in RunsOf(s.db, p);
  }

  /** Readers and counters do not notice a change that keeps whether a run is running. */
  ghost predicate SameCounters(s: State, s': State, p: PortfolioId) {
    && s'.fails == s.fails && s'.finished == s.finished && s'.timelyFails == s.timelyFails
    && (forall i :: i in s'.readers ==> i in s.readers && s'.readers[i] == s.readers[i])
    && (HasRunningRun(s.db, p) ==> HasRunningRun(s'.db, p))
  }

  lemma ReadersKept(s: State, s': State, p: PortfolioId)
    requires Inv(s, p) && SameCounters(s, s', p)
    ensures forall i :: i in s'.readers ==> ReaderSound(s', p, s'.readers[i])
  {
    forall i | i in s'.readers
      ensures ReaderSound(s', p, s'.readers[i])
    {
      assert ReaderSound(s, p, s.readers[i]);
    }
  }

  lemma CreateKeeps(p: PortfolioId, s: State, s': State, trigger: Trigger)
    requires Inv(s, p) && CreateRun(s.db, p, trigger).Ok?
    requires s'.db == CreateRun(s.db, p, trigger).value.0 && s'.base == s.base
    requires s'.fails == s.fails && s'.finished == s.finished && s'.timelyFails == s.timelyFails
    requires forall i :: i in s'.readers ==> i in s.readers && s'.readers[i] == s.readers[i]
    requires (s'.current == s.current && s'.timely == s.timely)
             || (s'.current == Some(s.db.nextRun) && (s'.timely ==> s.fails <= 1))
    ensures Inv(s', p)
  {
    CreateRunKeeps(s.db, p, trigger);
    CreateRows(p, s, s', trigger);
    CreateShows(p, s, s', trigger);
    assert forall r :: r in s.db.runs ==> r in s'.db.runs && s'.db.runs[r] == s.db.runs[r];
    ReadersKept(s, s', p);
  }

  lemma ReadSubmitKeeps(p: PortfolioId, s: State, i: nat)
    requires Inv(s, p)
    ensures Inv(Apply(p, s, ReadSubmit(i)), p)
  {
    var s' := Apply(p, s, ReadSubmit(i));
    if i in s.readers && s.readers[i].Deciding? {
      assert ReaderSound(s, p, s.readers[i]);
      if CreateRun(s.db, p, Manual).Ok? {
        CreateKeeps(p, s, s', Manual);
      } else {
        SameRows(s, s', p);
      }
    }
  }

  lemma OtherSubmitKeeps(p: PortfolioId, s: State, trigger: Trigger)
    requires Inv(s, p)
    ensures Inv(Apply(p, s, OtherSubmit(trigger)), p)
  {
    if CreateRun(s.db, p, trigger).Ok? {
      CreateKeeps(p, s, Apply(p, s, OtherSubmit(trigger)), trigger);
    }
  }

  /** A run that never started fails: no count changes, no running run is touched. */
  lemma UnstartedFailureRows(p: PortfolioId, s: State, db: Db, r: RunId)
    requires Core(s, p) && Is(s.db, p, r, Queued)
    requires db.runs == UpdateRunFailed(s.db, r).runs && db.nextRun == s.db.nextRun && db.now == s.db.now
    ensures RowsOrdered(s.(db := db), p) && !HasRunningRun(s.db, p) && !HasRunningRun(db, p)
  {
    OnlyQueued(s.db, p, r);
    assert RunsOf(db, p) == RunsOf(s.db, p);
    StillOrdered(p, s, db, r);
  }

  lemma OnlyQueued(db: Db, p: PortfolioId, r: RunId)
    requires InFlightIsNewest(db) && Is(db, p, r, Queued)
    ensures !HasRunningRun(db, p)
  {
    assert InFlight(db.runs[r]);
    assert forall x :: x in db.runs && db.runs[x].pid == p && InFlight(db.runs[x]) ==> x == r;
  }

  lemma StillOrdered(p: PortfolioId, s: State, db: Db, r: RunId)
    requires RowsOrdered(s, p) && Is(s.db, p, r, Queued) && RunsOf(db, p) == RunsOf(s.db, p)
    requires db.runs == UpdateRunFailed(s.db, r).runs && db.nextRun == s.db.nextRun && db.now == s.db.now
    ensures RowsOrdered(s.(db := db), p)
  {
  }

  lemma UnstartedFailureShows(p: PortfolioId, s: State, db: Db, r: RunId)
    requires RowsOrdered(s, p) && FailuresShow(s, p) && Is(s.db, p, r, Queued)
    requires db.runs == UpdateRunFailed(s.db, r).runs
    ensures FailuresShow(s.(db := db), p)
  {
    var s' := s.(db := db);
    assert InFlight(s.db.runs[r]);
    assert RunsOf(db, p) == RunsOf(s.db, p);
    assert StartedFailures(s', p) == StartedFailures(s, p);
    ShowKept(s, s', p);
  }

  lemma RejectKeeps(p: PortfolioId, s: State, r: RunId)
    requires Inv(s, p)
    ensures Inv(Apply(p, s, Reject(r)), p)
  {
    if Is(s.db, p, r, Queued) {
      var s' := Apply(p, s, Reject(r));
      UpdateRunFailedKeeps(s.db, p, r);
      UnstartedFailureRows(p, s, s'.db, r);
      UnstartedFailureShows(p, s, s'.db, r);
      ReadersKept(s, s', p);
    }
  }

  lemma StartRows(p: PortfolioId, s: State, s': State, r: RunId)
    requires Core(s, p) && Is(s.db, p, r, Queued) && s' == s.(db := MarkRunning(s.db, p, r))
    ensures RowsOrdered(s', p)
  {
    assert RunsOf(s'.db, p) == RunsOf(s.db, p);
  }

  lemma StartShows(p: PortfolioId, s: State, s': State, r: RunId)
    requires Core(s, p) && FailuresShow(s, p) && Is(s.db, p, r, Queued) && s' == s.(db := MarkRunning(s.db, p, r))
    ensures FailuresShow(s', p)
  {
    assert RunsOf(s'.db, p) == RunsOf(s.db, p);
    assert StartedFailures(s', p) == StartedFailures(s, p);
    assert InFlight(s.db.runs[r]);
    ShowKept(s, s', p);
  }

  lemma StartKeeps(p: PortfolioId, s: State, r: RunId)
    requires Inv(s, p)
    ensures Inv(Apply(p, s, Start(r)), p)
  {
    if Is(s.db, p, r, Queued) {
      var s' := Apply(p, s, Start(r));
      MarkRunningKeeps(s.db, p, r);
      StartRows(p, s, s', r);
      StartShows(p, s, s', r);
      assert r in s'.db.runs && s'.db.runs[r].pid == p && s'.db.runs[r].status.Running?;
      assert HasRunningRun(s'.db, p);
      ReadersKept(s, s', p);
    }
  }

  lemma SucceedRows(p: PortfolioId, s: State, s': State, r: RunId)
    requires IdsBounded(s.db) && InFlightIsNewest(s.db) && RowsOrdered(s, p)
    requires Is(s.db, p, r, RunStatus.Running) && s' == Apply(p, s, Succeed(r))
    ensures RowsOrdered(s', p)
  {
    assert RunsOf(s'.db, p) == RunsOf(s.db, p);
    assert forall x :: x in RunsOf(s.db, p) && InFlight(s.db.runs[x]) ==> x == r;
  }

  lemma SucceedShows(p: PortfolioId, s: State, s': State, r: RunId)
    requires IdsBounded(s.db) && InFlightIsNewest(s.db)
    requires Is(s.db, p, r, RunStatus.Running) && s' == Apply(p, s, Succeed(r))
    ensures FailuresShow(s', p)
  {
    assert RunsOf(s'.db, p) == RunsOf(s.db, p);
    assert Since(s', p) == {} && StartedFailures(s', p) == {};
    assert forall x :: x in RunsOf(s.db, p) && InFlight(s.db.runs[x]) ==> x == r;
    assert !HasInFlight(s'.db, p);
  }

  lemma SucceedKeeps(p: PortfolioId, s: State, r: RunId)
    requires Inv(s, p)
    ensures Inv(Apply(p, s, Succeed(r)), p)
  {
    if Is(s.db, p, r, RunStatus.Running) {
      var s' := Apply(p, s, Succeed(r));
      MarkReadyKeeps(s.db, p, r, Path(p, r));
      SucceedRows(p, s, s', r);
      SucceedShows(p, s, s', r);
      ReadersOvertaken(p, s, s');
    }
  }

  /** The running run r of p fails and every other row of p stays. */
  ghost predicate RunFails(p: PortfolioId, s: State, s': State, r: RunId) {
    && Is(s.db, p, r, RunStatus.Running)
    && RunsOf(s'.db, p) == RunsOf(s.db, p)
    && r in s'.db.runs && s'.db.runs[r] == s.db.runs[r].(status := RunStatus.Failed)
    && (forall x :: x in RunsOf(s.db, p) && x != r ==> x in s'.db.runs && s'.db.runs[x] == s.db.runs[x])
    && s'.db.nextRun == s.db.nextRun && s'.db.now == s.db.now && s'.base == s.base && s'.fails == s.fails + 1
  }

  lemma FailShows(p: PortfolioId, s: State, s': State, r: RunId)
    requires InFlightIsNewest(s.db) && RowsOrdered(s, p) && FailuresShow(s, p) && RunFails(p, s, s', r)
    ensures FailuresShow(s', p)
  {
    NothingLeftInFlight(p, s, s', r);
    OneMoreFailure(p, s, s', r);
    assert Since(s', p) == Since(s, p);
    assert HasInFlight(s.db, p) by { assert InFlight(s.db.runs[r]); }
  }

  lemma NothingLeftInFlight(p: PortfolioId, s: State, s': State, r: RunId)
    requires InFlightIsNewest(s.db) && RunFails(p, s, s', r)
    ensures !HasInFlight(s'.db, p)
  {
    OnlyInFlight(s.db, p, r);
    assert forall x :: x in s'.db.runs && s'.db.runs[x].pid == p ==> x in RunsOf(s'.db, p);
  }

  lemma OneMoreFailure(p: PortfolioId, s: State, s': State, r: RunId)
    requires RowsOrdered(s, p) && RunFails(p, s, s', r)
    ensures StartedFailures(s', p) == StartedFailures(s, p) + {r} && r !in StartedFailures(s, p)
  {
    assert InFlight(s.db.runs[r]);
  }

  lemma FailRows(p: PortfolioId, s: State, s': State, r: RunId)
    requires RowsOrdered(s, p) && RunFails(p, s, s', r)
    ensures RowsOrdered(s', p)
  {
  }

  lemma OnlyInFlight(db: Db, p: PortfolioId, r: RunId)
    requires InFlightIsNewest(db) && r in RunsOf(db, p) && InFlight(db.runs[r])
    ensures forall x :: x in RunsOf(db, p) && InFlight(db.runs[x]) ==> x == r
  {
  }

  lemma FailedStatus(p: PortfolioId, s: State, r: RunId)
    requires Core(s, p) && Is(s.db, p, r, RunStatus.Running)
    ensures !HasRunningRun(MarkFailed(s.db, p, r), p)
    ensures RunFails(p, s, CountFailure(s, r).(db := MarkFailed(s.db, p, r)), r)
  {
    OnlyInFlight(s.db, p, r);
    assert RunsOf(MarkFailed(s.db, p, r), p) == RunsOf(s.db, p);
  }

  lemma ReadersOvertaken(p: PortfolioId, s: State, s': State)
    requires forall i :: i in s.readers ==> ReaderSound(s, p, s.readers[i])
    requires s'.readers == s.readers && s'.finished == s.finished + 1
    ensures forall i :: i in s'.readers ==> ReaderSound(s', p, s'.readers[i])
  {
    forall i | i in s'.readers
      ensures ReaderSound(s', p, s'.readers[i])
    {
      assert ReaderSound(s, p, s.readers[i]);
    }
  }

  /** The failure of a run counts against its read, and nothing of p is in flight after it. */
  lemma CountSound(p: PortfolioId, s: State, s': State, r: RunId)
    requires InFlightIsNewest(s.db) && CurrentSound(s, p) && RunFails(p, s, s', r)
    requires s' == CountFailure(s, r).(db := s'.db, readers := s'.readers)
    requires s.current.Some? && s.current.value in s'.db.runs ==> s.current.value in s.db.runs
    ensures CurrentSound(s', p)
  {
    OnlyInFlight(s.db, p, r);
    if s.current.Some? && s.current.value in s.db.runs {
      assert s.current.value in RunsOf(s.db, p);
    }
  }

  lemma FailStartedKeeps(p: PortfolioId, s: State, r: RunId)
    requires Inv(s, p) && Is(s.db, p, r, RunStatus.Running)
    ensures Inv(CountFailure(s, r).(db := MarkFailed(s.db, p, r)), p)
  {
    var s' := CountFailure(s, r).(db := MarkFailed(s.db, p, r));
    MarkFailedKeeps(s.db, p, r);
    FailedStatus(p, s, r);
    FailShows(p, s, s', r);
    FailRows(p, s, s', r);
    CountSound(p, s, s', r);
    ReadersOvertaken(p, s, s');
  }

  lemma FailUnstartedKeeps(p: PortfolioId, s: State, r: RunId)
    requires Inv(s, p) && Is(s.db, p, r, Queued)
    ensures Inv(s.(db := MarkFailed(s.db, p, r)), p)
  {
    var s' := s.(db := MarkFailed(s.db, p, r));
    MarkFailedKeeps(s.db, p, r);
    UnstartedFailureRows(p, s, s'.db, r);
    UnstartedFailureShows(p, s, s'.db, r);
    ReadersKept(s, s', p);
  }

  lemma FailKeeps(p: PortfolioId, s: State, r: RunId)
    requires Inv(s, p)
    ensures Inv(Apply(p, s, Fail(r)), p)
  {
    if Is(s.db, p, r, RunStatus.Running) {
      FailStartedKeeps(p, s, r);
    } else if Is(s.db, p, r, Queued) {
      FailUnstartedKeeps(p, s, r);
    }
  }

  /** A prune that deletes anything keeps `retention` rows; while a row older
      than base survives it, all rows since base survive it too. */
  lemma PruneShows(p: PortfolioId, s: State, s': State)
    requires p in s.db.portfolios && s.db.portfolios[p].retention >= 2 && FailuresShow(s, p)
    requires s' == s.(db := PruneRuns(s.db, p))
    ensures FailuresShow(s', p)
  {
    PruneExact(s.db, p);
    assert forall r :: r in RunsOf(s'.db, p) ==> r in RunsOf(s.db, p) && s'.db.runs[r] == s.db.runs[r];
    if exists q :: q in RunsOf(s'.db, p) && q < s.base {
      var q :| q in RunsOf(s'.db, p) && q < s.base;
      assert Since(s', p) == Since(s, p);
      assert StartedFailures(s', p) == StartedFailures(s, p);
    } else {
      assert Since(s', p) == RunsOf(s'.db, p);
      SubsetCard(Since(s, p), RunsOf(s.db, p));
    }
  }

  lemma PruneRows(p: PortfolioId, s: State, s': State)
    requires RowsOrdered(s, p) && s' == s.(db := PruneRuns(s.db, p))
    ensures RowsOrdered(s', p)
  {
    assert forall r :: r in s'.db.runs ==> r in s.db.runs && s'.db.runs[r] == s.db.runs[r];
    assert forall r :: r in RunsOf(s'.db, p) ==> r in RunsOf(s.db, p);
  }

  lemma PruneKeeps(p: PortfolioId, s: State)
    requires Inv(s, p)
    ensures Inv(Apply(p, s, Prune), p)
  {
    var s' := Apply(p, s, Prune);
    PruneRunsKeeps(s.db, p);
    PruneRows(p, s, s');
    PruneShows(p, s, s');
    forall r | r in s.db.runs && InFlight(s.db.runs[r])
      ensures r in s'.db.runs
    {
      PruneSparesInFlight(s.db, p, r);
    }
    RunningSurvives(s, s', p);
    ReadersKept(s, s', p);
  }

  lemma RunningSurvives(s: State, s': State, p: PortfolioId)
    requires forall r :: r in s.db.runs && InFlight(s.db.runs[r]) ==> r in s'.db.runs && s'.db.runs[r] == s.db.runs[r]
    ensures HasRunningRun(s.db, p) ==> HasRunningRun(s'.db, p)
  {
    if HasRunningRun(s.db, p) {
      var r :| r in s.db.runs && s.db.runs[r].pid == p && s.db.runs[r].status.Running?;
      assert r in s'.db.runs && s'.db.runs[r].pid == p && s'.db.runs[r].status.Running?;
    }
  }

  lemma SetRetentionStepKeeps(p: PortfolioId, s: State, n: nat)
    requires Inv(s, p) && n >= 2
    ensures Inv(Apply(p, s, SetRetention(n)), p)
  {
    var s' := Apply(p, s, SetRetention(n));
    SetRetentionKeeps(s.db, p, n);
    SameRows(s, s', p);
    RunningSurvives(s, s', p);
    RunningSurvives(s', s, p);
    ReadersKept(s, s', p);
  }

  lemma TickKeeps(p: PortfolioId, s: State, now: Stamp)
    requires Inv(s, p)
    ensures Inv(Apply(p, s, Tick(now)), p)
  {
    var s' := Apply(p, s, Tick(now));
    RunningSurvives(s, s', p);
    RunningSurvives(s', s, p);
    TickDb(s.db, s'.db);
    SameRows(s, s', p);
    ReadersKept(s, s', p);
  }

  lemma TickDb(db: Db, db': Db)
    requires DbInv(db) && db' == db.(now := db'.now)
    ensures DbInv(db')
  {
    forall q | q in db'.portfolios && db'.portfolios[q].status.Running?
      ensures HasRunningRun(db', q)
    {
      assert HasRunningRun(db, q);
    }
  }

  /** A restart that finds no run of p executing. */
  lemma IdleRestartKeeps(p: PortfolioId, s: State, s': State)
    requires Inv(s, p) && !HasRunningRun(s.db, p)
    requires s' == s.(db := MarkAllRunningAsFailed(s.db), readers := map[])
    ensures Inv(s', p)
  {
    MarkAllKeeps(s.db);
    IdleRestartRows(p, s, s');
    IdleRestartShows(p, s, s');
  }

  lemma IdleRestartRows(p: PortfolioId, s: State, s': State)
    requires RowsOrdered(s, p) && !HasRunningRun(s.db, p)
    requires s' == s.(db := MarkAllRunningAsFailed(s.db), readers := map[])
    ensures RowsOrdered(s', p)
  {
    assert RunsOf(s'.db, p) == RunsOf(s.db, p);
  }

  lemma IdleRestartShows(p: PortfolioId, s: State, s': State)
    requires RowsOrdered(s, p) && FailuresShow(s, p) && !HasRunningRun(s.db, p)
    requires s' == s.(db := MarkAllRunningAsFailed(s.db), readers := map[])
    ensures FailuresShow(s', p)
  {
    assert RunsOf(s'.db, p) == RunsOf(s.db, p);
    assert StartedFailures(s', p) == StartedFailures(s, p);
    ShowKept(s, s', p);
  }

  /** A restart that interrupts the running run r of p. */
  lemma BusyRestartKeeps(p: PortfolioId, s: State, s': State, r: RunId)
    requires Inv(s, p) && Is(s.db, p, r, RunStatus.Running)
    requires s' == CountFailure(s.(db := MarkAllRunningAsFailed(s.db), readers := map[]), r)
    ensures Inv(s', p)
  {
    OnlyInFlight(s.db, p, r);
    assert RunsOf(s'.db, p) == RunsOf(s.db, p);
    MarkAllKeeps(s.db);
    FailShows(p, s, s', r);
    FailRows(p, s, s', r);
    CountSound(p, s, s', r);
    RestartStatus(p, s, s', r);
  }

  lemma RestartKeeps(p: PortfolioId, s: State)
    requires Inv(s, p)
    ensures Inv(Apply(p, s, Restart), p)
  {
    var s' := Apply(p, s, Restart);
    if exists r :: Is(s.db, p, r, RunStatus.Running) {
      var r :| Is(s.db, p, r, RunStatus.Running)
               && s' == CountFailure(s.(db := MarkAllRunningAsFailed(s.db), readers := map[]), r);
      BusyRestartKeeps(p, s, s', r);
    } else {
      assert forall r :: r in s.db.runs && s.db.runs[r].pid == p && s.db.runs[r].status.Running? ==>
               Is(s.db, p, r, RunStatus.Running);
      IdleRestartKeeps(p, s, s');
    }
  }

  lemma RestartStatus(p: PortfolioId, s: State, s': State, r: RunId)
    requires Inv(s, p) && Is(s.db, p, r, RunStatus.Running) && s'.db == MarkAllRunningAsFailed(s.db)
    ensures StatusShows(s', p)
  {
  }

  lemma StepKeeps(p: PortfolioId, s: State, step: Step)
    requires Inv(s, p) && (step.SetRetention? ==> step.n >= 2)
    ensures Inv(Apply(p, s, step), p)
  {
    match step {
      case Load(i) => LoadKeeps(p, s, i);
      case List(i, list) => ListKeeps(p, s, i, list);
      case ReadSubmit(i) => ReadSubmitKeeps(p, s, i);
      case OtherSubmit(trigger) => OtherSubmitKeeps(p, s, trigger);
      case Reject(r) => RejectKeeps(p, s, r);
      case Start(r) => StartKeeps(p, s, r);
      case Succeed(r) => SucceedKeeps(p, s, r);
      case Fail(r) => FailKeeps(p, s, r);
      case Prune => PruneKeeps(p, s);
      case SetRetention(n) => SetRetentionStepKeeps(p, s, n);
      case Restart => RestartKeeps(p, s);
      case Tick(now) => TickKeeps(p, s, now);
    }
  }

  // --------------------------------------------------------------- theorems

  /** Portfolio p right after it was created, with the given retention. */
  function Fresh(p: PortfolioId, retention: nat, now: Stamp): State {
    State(Db(map[p := Portfolio(Pending, None, retention, true, None)], map[], p + 1, 0, now),
          map[], None, false, 0, 0, 0, 0, 0)
  }

  /** No step sets a retention below two. */
  predicate RetainsTwo(steps: seq<Step>) {
    forall j :: 0 <= j < |steps| && steps[j].SetRetention? ==> steps[j].n >= 2
  }

  lemma {:induction false} InvExec(p: PortfolioId, s: State, steps: seq<Step>)
    requires Inv(s, p) && RetainsTwo(steps)
    ensures Inv(Exec(p, s, steps), p)
  {
    if steps != [] {
      var n := |steps| - 1;
      InvExec(p, s, steps[..n]);
      StepKeeps(p, Exec(p, s, steps[..n]), steps[n]);
    }
  }

  lemma ExecInv(p: PortfolioId, retention: nat, now: Stamp, steps: seq<Step>)
    requires retention >= 2 && RetainsTwo(steps)
    ensures Inv(Exec(p, Fresh(p, retention, now), steps), p)
  {
    FreshInv(p, retention, now);
    InvExec(p, Fresh(p, retention, now), steps);
  }

  lemma FreshInv(p: PortfolioId, retention: nat, now: Stamp)
    requires retention >= 2
    ensures Inv(Fresh(p, retention, now), p)
  {
    var s := Fresh(p, retention, now);
    assert RunsOf(s.db, p) == {};
  }

  /** With retention kept at two or more and no upgrade, in every interleaving of
      reads, other submissions, completions, rejections, prunes and restarts:
      since the last success at most two runs submitted by timely reads have
      started and failed. */
  lemma AtMostTwoTimelyFailures(p: PortfolioId, retention: nat, now: Stamp, steps: seq<Step>)
    requires retention >= 2 && RetainsTwo(steps)
    ensures Exec(p, Fresh(p, retention, now), steps).timelyFails <= 2
  {
    ExecInv(p, retention, now, steps);
  }

  /** A read about to submit after two started runs have failed is one that a
      completion overtook: some started run finished after the read began. */
  lemma PastTwoOnlyIfOvertaken(p: PortfolioId, retention: nat, now: Stamp, steps: seq<Step>, i: nat)
    requires retention >= 2 && RetainsTwo(steps)
    requires var s := Exec(p, Fresh(p, retention, now), steps);
             i in s.readers && s.readers[i].Deciding? && s.fails >= 2
    ensures var s := Exec(p, Fresh(p, retention, now), steps);
            s.readers[i].epoch < s.finished
  {
    ExecInv(p, retention, now, steps);
    var s := Exec(p, Fresh(p, retention, now), steps);
    assert ReaderSound(s, p, s.readers[i]);
  }

  /** What a read finds that lists the runs after two started failures, with
      nothing in flight: whatever order ListRuns gives to rows that were never
      started, it is refused if and only if it had loaded the portfolio as failed. */
  lemma DecisionPastTwo(p: PortfolioId, retention: nat, now: Stamp, steps: seq<Step>, status: PortfolioStatus,
                        list: seq<Entry>)
    requires retention >= 2 && RetainsTwo(steps)
    requires var s := Exec(p, Fresh(p, retention, now), steps);
             s.fails >= 2 && !HasInFlight(s.db, p) && IsListing(s.db, p, list)
    ensures Decide(status, list) == if status.Failed? then Refuse else Resubmit
  {
    var s := Exec(p, Fresh(p, retention, now), steps);
    ExecInv(p, retention, now, steps);
    forall e | e in list
      ensures !IsInFlight(e)
    {
      var i :| 0 <= i < |list| && list[i] == e;
      assert list[i].id in RunsOf(s.db, p);
    }
    TwoFailuresListed(s, p, list);
  }

  /** What a read loads after a started failure: the portfolio is failed if and
      only if none of its runs is running. */
  lemma LoadedFailedIff(p: PortfolioId, retention: nat, now: Stamp, steps: seq<Step>)
    requires retention >= 2 && RetainsTwo(steps) && Exec(p, Fresh(p, retention, now), steps).fails >= 1
    ensures var s := Exec(p, Fresh(p, retention, now), steps);
            p in s.db.portfolios && (s.db.portfolios[p].status.Failed? <==> !HasRunningRun(s.db, p))
  {
    ExecInv(p, retention, now, steps);
  }

  /** So a read that begins after two started failures with nothing in flight is
      refused. */
  lemma RefusedAfterTwo(p: PortfolioId, retention: nat, now: Stamp, steps: seq<Step>, list: seq<Entry>)
    requires retention >= 2 && RetainsTwo(steps)
    requires var s := Exec(p, Fresh(p, retention, now), steps);
             s.fails >= 2 && !HasInFlight(s.db, p) && IsListing(s.db, p, list)
    ensures var s := Exec(p, Fresh(p, retention, now), steps);
            p in s.db.portfolios && Decide(s.db.portfolios[p].status, list) == Refuse
  {
    LoadedFailedIff(p, retention, now, steps);
    DecisionPastTwo(p, retention, now, steps, Exec(p, Fresh(p, retention, now), steps).db.portfolios[p].status, list);
  }

  /** The step is not one of read i and no restart. */
  predicate LeavesReader(step: Step, i: nat) {
    && step != Load(i) && step != ReadSubmit(i) && !step.Restart?
    && (step.List? ==> step.i != i)
  }

  lemma StepLeavesReader(p: PortfolioId, s: State, step: Step, i: nat)
    requires LeavesReader(step, i)
    ensures i in Apply(p, s, step).readers <==> i in s.readers
    ensures i in s.readers ==> Apply(p, s, step).readers[i] == s.readers[i]
  {
  }

  lemma {:induction false} ReaderStays(p: PortfolioId, s: State, steps: seq<Step>, i: nat)
    requires forall j :: 0 <= j < |steps| ==> LeavesReader(steps[j], i)
    ensures i in Exec(p, s, steps).readers <==> i in s.readers
    ensures i in s.readers ==> Exec(p, s, steps).readers[i] == s.readers[i]
  {
    if steps != [] {
      var n := |steps| - 1;
      ReaderStays(p, s, steps[..n], i);
      StepLeavesReader(p, Exec(p, s, steps[..n]), steps[n], i);
    }
  }

  lemma {:induction false} PortfolioStays(p: PortfolioId, s: State, steps: seq<Step>)
    requires p in s.db.portfolios
    ensures p in Exec(p, s, steps).db.portfolios
  {
    if steps != [] {
      var n := |steps| - 1;
      PortfolioStays(p, s, steps[..n]);
      StepLeavesPortfolio(p, Exec(p, s, steps[..n]), steps[n]);
    }
  }

  lemma StepLeavesPortfolio(p: PortfolioId, s: State, step: Step)
    requires p in s.db.portfolios
    ensures p in Apply(p, s, step).db.portfolios
  {
  }

  /** A read that gets to submitting creates a run if and only if nothing is in flight. */
  lemma SubmitCreatesIff(p: PortfolioId, s: State, i: nat)
    requires p in s.db.portfolios
    ensures Apply(p, s, ReadSubmit(i)).db.nextRun > s.db.nextRun <==>
              i in s.readers && s.readers[i].Deciding? && !HasInFlight(s.db, p)
  {
  }

  /** When a read passes the cap: it lists the runs after two started failures
      with nothing in flight, anything else happens, and it comes to submit. It
      creates a run if and only if it had loaded the portfolio as not failed and
      nothing is in flight by then. */
  lemma PassesCapIff(p: PortfolioId, retention: nat, now: Stamp, steps: seq<Step>, i: nat, list: seq<Entry>,
                     more: seq<Step>)
    requires retention >= 2 && RetainsTwo(steps) && forall j :: 0 <= j < |more| ==> LeavesReader(more[j], i)
    requires var s := Exec(p, Fresh(p, retention, now), steps);
             && s.fails >= 2 && !HasInFlight(s.db, p) && IsListing(s.db, p, list)
             && i in s.readers && s.readers[i].Loaded?
    ensures var s := Exec(p, Fresh(p, retention, now), steps);
            var before := Exec(p, Apply(p, s, List(i, list)), more);
            Apply(p, before, ReadSubmit(i)).db.nextRun > before.db.nextRun <==>
              !s.readers[i].status.Failed? && !HasInFlight(before.db, p)
  {
    var s := Exec(p, Fresh(p, retention, now), steps);
    ExecInv(p, retention, now, steps);
    DecisionPastTwo(p, retention, now, steps, s.readers[i].status, list);
    var listed := Apply(p, s, List(i, list));
    ListedReader(p, s, i, list);
    PortfolioStays(p, listed, more);
    ReaderStays(p, listed, more, i);
    SubmitCreatesIff(p, Exec(p, listed, more), i);
  }

  lemma ListedReader(p: PortfolioId, s: State, i: nat, list: seq<Entry>)
    requires i in s.readers && s.readers[i].Loaded? && IsListing(s.db, p, list)
    ensures var s' := Apply(p, s, List(i, list));
            if Decide(s.readers[i].status, list).Resubmit? then i in s'.readers && s'.readers[i].Deciding?
            else i !in s'.readers
  {
  }

  // ------------------------------------------ reads that a completion overtook

  lemma ExecStep(p: PortfolioId, s: State, steps: seq<Step>, step: Step)
    ensures Exec(p, s, steps + [step]) == Apply(p, Exec(p, s, steps), step)
  {
    assert (steps + [step])[..|steps|] == steps;
  }

  function Waiting(lo: nat, hi: nat): (readers: map<nat, Reader>)
    ensures forall i :: i in readers <==> lo <= i < hi
    ensures forall i :: i in readers ==> readers[i] == Deciding(0)
  {
    if lo >= hi then map[] else Waiting(lo, hi - 1)[hi - 1 := Deciding(0)]
  }

  /** k reads load the portfolio and list its runs before any of them submits. */
  lemma {:induction false} ManyDeciding(p: PortfolioId, now: Stamp, k: nat) returns (steps: seq<Step>)
    ensures Exec(p, Fresh(p, 2, now), steps) == Fresh(p, 2, now).(readers := Waiting(0, k))
  {
    if k == 0 {
      steps := [];
      assert Waiting(0, 0) == map[];
    } else {
      var before := ManyDeciding(p, now, k - 1);
      ExecStep(p, Fresh(p, 2, now), before, Load(k - 1));
      ExecStep(p, Fresh(p, 2, now), before + [Load(k - 1)], List(k - 1, []));
      steps := before + [Load(k - 1)] + [List(k - 1, [])];
      LoadsAndLists(p, now, k - 1);
    }
  }

  lemma LoadsAndLists(p: PortfolioId, now: Stamp, i: nat)
    ensures var s := Fresh(p, 2, now).(readers := Waiting(0, i));
            Apply(p, Apply(p, s, Load(i)), List(i, [])) == Fresh(p, 2, now).(readers := Waiting(0, i + 1))
  {
    var s := Fresh(p, 2, now).(readers := Waiting(0, i));
    var loaded := s.(readers := s.readers[i := Loaded(Pending, 0)]);
    assert Apply(p, s, Load(i)) == loaded;
    assert RunsOf(s.db, p) == {};
    ListsNothing(p, loaded, i);
    assert loaded.readers[i := Deciding(0)] == Waiting(0, i + 1);
  }

  lemma ListsNothing(p: PortfolioId, s: State, i: nat)
    requires RunsOf(s.db, p) == {} && i in s.readers && s.readers[i] == Loaded(Pending, 0)
    ensures Apply(p, s, List(i, [])) == s.(readers := s.readers[i := Deciding(0)])
  {
    assert IsListing(s.db, p, []);
  }

  /** A read that has decided submits, and its run starts and fails. */
  lemma OneMore(p: PortfolioId, s: State, i: nat)
    requires IdsBounded(s.db) && p in s.db.portfolios && !HasInFlight(s.db, p)
    requires i in s.readers && s.readers[i].Deciding?
    ensures var r := s.db.nextRun;
            var s' := Apply(p, Apply(p, Apply(p, s, ReadSubmit(i)), Start(r)), Fail(r));
            && IdsBounded(s'.db) && p in s'.db.portfolios && !HasInFlight(s'.db, p)
            && s'.readers == s.readers - {i} && s'.readFails == s.readFails + 1
  {
  }

  /** m of k waiting reads have submitted a run that started and failed. */
  ghost predicate Stage(p: PortfolioId, s: State, m: nat, k: nat) {
    && IdsBounded(s.db) && p in s.db.portfolios && !HasInFlight(s.db, p)
    && s.readers == Waiting(m, k) && s.readFails == m
  }

  lemma {:induction false} AfterFailures(p: PortfolioId, now: Stamp, m: nat, k: nat) returns (steps: seq<Step>)
    requires m <= k
    ensures Stage(p, Exec(p, Fresh(p, 2, now), steps), m, k)
  {
    var s0 := Fresh(p, 2, now);
    if m == 0 {
      steps := ManyDeciding(p, now, k);
    } else {
      var before := AfterFailures(p, now, m - 1, k);
      steps := OneMoreRun(p, s0, before, m - 1);
      assert Waiting(m - 1, k) - {m - 1} == Waiting(m, k);
    }
  }

  lemma OneMoreRun(p: PortfolioId, s0: State, before: seq<Step>, i: nat) returns (steps: seq<Step>)
    requires var s := Exec(p, s0, before);
             && IdsBounded(s.db) && p in s.db.portfolios && !HasInFlight(s.db, p)
             && i in s.readers && s.readers[i].Deciding?
    ensures var s, s' := Exec(p, s0, before), Exec(p, s0, steps);
            && IdsBounded(s'.db) && p in s'.db.portfolios && !HasInFlight(s'.db, p)
            && s'.readers == s.readers - {i} && s'.readFails == s.readFails + 1
  {
    var r := Exec(p, s0, before).db.nextRun;
    OneMore(p, Exec(p, s0, before), i);
    steps := before + [ReadSubmit(i)] + [Start(r)] + [Fail(r)];
    ExecThree(p, s0, before, ReadSubmit(i), Start(r), Fail(r));
  }

  lemma ExecThree(p: PortfolioId, s: State, steps: seq<Step>, a: Step, b: Step, c: Step)
    ensures Exec(p, s, steps + [a] + [b] + [c]) == Apply(p, Apply(p, Apply(p, Exec(p, s, steps), a), b), c)
  {
    ExecStep(p, s, steps, a);
    ExecStep(p, s, steps + [a], b);
    ExecStep(p, s, steps + [a] + [b], c);
  }

  /** The cap does not bind reads that were overtaken: for every k some
      interleaving has k runs submitted by reads start and fail, with no
      success in between. */
  lemma OvertakenReadsUnbounded(p: PortfolioId, now: Stamp, k: nat)
    ensures exists steps :: Exec(p, Fresh(p, 2, now), steps).readFails == k
  {
    var steps := AfterFailures(p, now, k, k);
    assert Exec(p, Fresh(p, 2, now), steps).readFails == k;
  }
}
