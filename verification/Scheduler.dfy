/** The scheduler's dispatch loop as part of an execution of the backtest
    protocol, and its catch-up probe. */
module Scheduler {
  import opened Prelude
  import opened RunDb
  import opened RunProtocol
  import opened ScheduledClaims

  // ------------------------------------------------------------------- loop

  datatype Claim = ClaimFailed | Claimed(ids: seq<PortfolioId>)

  datatype SubmitResult = Dispatched | QueueFull | HardError

  /** An endless execution and the loop's place in it: the states in which round
      k claims, in which its i-th submission inserts the row, and in which it
      wakes from its wait, and what the loop is told each time. */
  datatype World = World(
    state: nat -> Sys,
    claimAt: nat -> nat,
    submitAt: (nat, nat) -> nat,
    wakeAt: nat -> nat,
    claim: nat -> Claim,
    submit: (nat, nat) -> SubmitResult,
    cancelled: nat -> bool)

  datatype Stop = ClaimError | NothingDue | Cancelled | Deadline | NoProgress

  datatype Verdict = Continue | Return(why: Stop)

  predicate AnyQueueFull(w: World, k: nat, n: nat) {
    exists i: nat :: i < n && w.submit(k, i).QueueFull?
  }

  predicate AnyDispatched(w: World, k: nat, n: nat) {
    exists i: nat :: i < n && w.submit(k, i).Dispatched?
  }

  function Time(w: World, n: nat): int {
    w.state(n).db.now.time
  }

  /** What round k ends with. The deadline is looked at only after a wait. */
  function Round(w: World, k: nat, until: int): Verdict {
    match w.claim(k)
    case ClaimFailed => Return(ClaimError)
    case Claimed(ids) =>
      if ids == [] then Return(NothingDue)
      else if AnyQueueFull(w, k, |ids|) then
        if w.cancelled(k) then Return(Cancelled)
        else if Time(w, w.wakeAt(k)) >= until then Return(Deadline)
        else Continue
      else if AnyDispatched(w, k, |ids|) then Continue
      else Return(NoProgress)
  }

  /** Round k goes on to another: it claimed something, and either the queue was
      full and the wait ended in time, or it was not and a run was dispatched. */
  ghost predicate GoesOn(w: World, k: nat, until: int) {
    && w.claim(k).Claimed? && |w.claim(k).ids| > 0
    && var n := |w.claim(k).ids|;
       || ((exists i: nat :: i < n && w.submit(k, i) == QueueFull)
           && !w.cancelled(k) && w.state(w.wakeAt(k)).db.now.time < until)
       || ((forall i: nat :: i < n ==> w.submit(k, i) != QueueFull)
           && (exists i: nat :: i < n && w.submit(k, i) == Dispatched))
  }

  /** Why round k is the last. */
  ghost predicate StopsFor(w: World, k: nat, until: int, why: Stop) {
    var n := if w.claim(k).Claimed? then |w.claim(k).ids| else 0;
    match why
    case ClaimError => w.claim(k).ClaimFailed?
    case NothingDue => w.claim(k).Claimed? && n == 0
    case Cancelled => (exists i: nat :: i < n && w.submit(k, i) == QueueFull) && w.cancelled(k)
    case Deadline =>
      && (exists i: nat :: i < n && w.submit(k, i) == QueueFull)
      && !w.cancelled(k) && w.state(w.wakeAt(k)).db.now.time >= until
    case NoProgress => n > 0 && forall i: nat :: i < n ==> w.submit(k, i) == HardError
  }

  /** Round k is the first that does not go on. */
  ghost predicate EndsWith(w: World, k: nat, until: int, why: Stop) {
    StopsFor(w, k, until, why) && forall j: nat :: j < k ==> GoesOn(w, j, until)
  }

  lemma RoundMeans(w: World, k: nat, until: int)
    ensures Round(w, k, until) == Continue <==> GoesOn(w, k, until)
    ensures forall why :: Round(w, k, until) == Return(why) <==> StopsFor(w, k, until, why)
  {
    forall why
      ensures Round(w, k, until) == Return(why) <==> StopsFor(w, k, until, why)
    {
      VerdictMeans(w, k, until, why);
    }
  }

  lemma VerdictMeans(w: World, k: nat, until: int, why: Stop)
    ensures Round(w, k, until) == Return(why) <==> StopsFor(w, k, until, why)
  {
  }

  ghost predicate Waits(w: World, k: nat) {
    w.claim(k).Claimed? && AnyQueueFull(w, k, |w.claim(k).ids|)
  }

  // ------------------------------------- the loop as part of the protocol

  ghost predicate Execution(state: nat -> Sys) {
    Init(state(0)) && forall n: nat :: NextAt(state, n)
  }

  ghost predicate NextAt(state: nat -> Sys, n: nat) {
    Next(state(n), state(n + 1))
  }

  ghost predicate Submits(s: Sys, s': Sys) {
    exists who: nat :: SubmitClaimedStep(s, s', who)
  }

  /** The i-th submission of round k: the scheduler's next claimed portfolio goes
      through CreateRun, or fails in the store, and the answer is what became of
      it by the next round. */
  ghost predicate SubmissionFits(w: World, k: nat, i: nat, p: PortfolioId) {
    var n := w.submitAt(k, i);
    var s := w.state(n);
    && w.claimAt(k) < n < w.claimAt(k + 1)
    && s.claimed != [] && s.claimed[0] == p
    && if w.submit(k, i).HardError? then SkipClaimedStep(s, w.state(n + 1))
       else
         && Submits(s, w.state(n + 1)) && CreateRun(s.db, p, Scheduled).Ok?
         && (w.submit(k, i).QueueFull? <==> s.db.nextRun in w.state(w.claimAt(k + 1)).rejected)
  }

  /** Round k is made of steps of the execution. ClaimDue returns nothing only
      when nothing is due, and a wait lasts a tick. */
  ghost predicate RoundFits(w: World, tick: int, k: nat) {
    && w.claimAt(k) < w.claimAt(k + 1)
    && (w.claim(k).Claimed? ==>
          var ids := w.claim(k).ids;
          && ClaimStep(w.state(w.claimAt(k)), w.state(w.claimAt(k) + 1), ids)
          && (ids == [] ==> forall p :: !Due(w.state(w.claimAt(k)).db, p))
          && (forall i: nat :: i < |ids| ==> SubmissionFits(w, k, i, ids[i])))
    && (Waits(w, k) ==>
          && w.claimAt(k) <= w.wakeAt(k) <= w.claimAt(k + 1)
          && Time(w, w.claimAt(k)) + tick <= Time(w, w.wakeAt(k)))
  }

  ghost predicate Fits(w: World, tick: int) {
    Execution(w.state) && forall k: nat :: RoundFits(w, tick, k)
  }

  // -------------------------------------------------- from here to finite runs

  ghost function Prefix(state: nat -> Sys, n: nat): (run: seq<Sys>)
    ensures |run| == n + 1 && forall i :: 0 <= i <= n ==> run[i] == state(i)
  {
    seq(n + 1, i requires 0 <= i <= n => state(i))
  }

  lemma PrefixIsRun(state: nat -> Sys, n: nat)
    requires Execution(state)
    ensures IsRun(Prefix(state, n))
  {
    var run := Prefix(state, n);
    forall i: nat | i < |run| - 1
      ensures NextIn(run, i)
    {
      assert NextAt(state, i);
    }
  }

  lemma {:induction false} RoundsInOrder(w: World, tick: int, a: nat, b: nat)
    requires Fits(w, tick) && a < b
    ensures w.claimAt(a + 1) <= w.claimAt(b)
    decreases b
  {
    if a + 1 < b {
      RoundsInOrder(w, tick, a, b - 1);
      assert RoundFits(w, tick, b - 1);
    }
  }

  lemma TimeForward(w: World, tick: int, m: nat, n: nat)
    requires Fits(w, tick) && m <= n
    ensures Time(w, m) <= Time(w, n) && w.state(m).db.now.day <= w.state(n).db.now.day
  {
    var run := Prefix(w.state, n);
    PrefixIsRun(w.state, n);
    AlwaysLater(run, m, n);
  }

  // ------------------------------------------------- what a round's runs become

  ghost function DayOf(w: World, k: nat): nat {
    w.state(w.claimAt(k)).db.now.day
  }

  /** The row that the i-th submission of round k inserted. */
  ghost function RowOf(w: World, k: nat, i: nat): RunId {
    w.state(w.submitAt(k, i)).db.nextRun
  }

  /** By the claim of round m, some run that round k dispatched is wasted: its row
      is gone, or it ended without having started. */
  ghost predicate AnyWasted(w: World, k: nat, m: nat) {
    w.claim(k).Claimed?
    && exists i: nat :: i < |w.claim(k).ids| && w.submit(k, i).Dispatched?
                        && Wasted(w.state(w.claimAt(m)).db, RowOf(w, k, i))
  }

  /** A dispatched run waits in its row right after the submission. */
  lemma RowWaits(w: World, tick: int, k: nat, i: nat)
    requires Fits(w, tick) && w.claim(k).Claimed? && i < |w.claim(k).ids| && w.submit(k, i).Dispatched?
    ensures WaitsAt(w.state(w.submitAt(k, i) + 1).db, RowOf(w, k, i), w.claim(k).ids[i])
    ensures RowOf(w, k, i) < w.state(w.submitAt(k, i) + 1).db.nextRun
    ensures w.claimAt(k) < w.submitAt(k, i) < w.claimAt(k + 1)
  {
    assert RoundFits(w, tick, k);
    assert SubmissionFits(w, k, i, w.claim(k).ids[i]);
  }

  /** Two rounds of one day dispatch the same portfolio only if the run of the
      first is wasted by the time of the second, and so ever after. */
  lemma SamePortfolioTwice(w: World, tick: int, a: nat, i: nat, b: nat, j: nat, m: nat)
    requires Fits(w, tick) && a < b <= m && w.claim(a).Claimed? && w.claim(b).Claimed?
    requires i < |w.claim(a).ids| && j < |w.claim(b).ids| && w.submit(a, i).Dispatched?
    requires w.claim(a).ids[i] == w.claim(b).ids[j] && DayOf(w, a) == DayOf(w, b)
    ensures AnyWasted(w, a, m)
  {
    var p, r, n := w.claim(a).ids[i], RowOf(w, a, i), w.submitAt(a, i) + 1;
    RowWaits(w, tick, a, i);
    RoundsInOrder(w, tick, a, b);
    if b < m {
      RoundsInOrder(w, tick, b, m);
      assert RoundFits(w, tick, b);
    }
    TimeForward(w, tick, w.claimAt(a), n);
    TimeForward(w, tick, n, w.claimAt(b));
    DueWhenClaimed(w, tick, b, j);
    WastedBy(w, tick, n, w.claimAt(b), w.claimAt(m), p, r);
  }

  lemma DueWhenClaimed(w: World, tick: int, k: nat, i: nat)
    requires Fits(w, tick) && w.claim(k).Claimed? && i < |w.claim(k).ids|
    ensures Due(w.state(w.claimAt(k)).db, w.claim(k).ids[i])
  {
    assert RoundFits(w, tick, k);
    assert w.claim(k).ids[i] in w.claim(k).ids;
  }

  lemma WastedBy(w: World, tick: int, n: nat, c: nat, d: nat, p: PortfolioId, r: RunId)
    requires Fits(w, tick) && n <= c <= d
    requires WaitsAt(w.state(n).db, r, p) && r < w.state(n).db.nextRun
    requires w.state(n).db.now.day == w.state(c).db.now.day && Due(w.state(c).db, p)
    ensures Wasted(w.state(d).db, r)
  {
    var run := Prefix(w.state, d);
    PrefixIsRun(w.state, d);
    NotDueAgain(run, n, c, p, r);
    AlwaysLater(run, n, c);
    WastedForever(run, c, d, r);
  }

  // ---------------------------------------------------------- counting rounds

  /** The rounds before k that dispatched something without meeting a full queue. */
  ghost function BusyRounds(w: World, until: int, k: nat): set<nat> {
    if k == 0 then {}
    else
      BusyRounds(w, until, k - 1)
      + (if Round(w, k - 1, until).Continue? && !Waits(w, k - 1) then {k - 1} else {})
  }

  lemma {:induction false} BusyRoundsAre(w: World, until: int, k: nat, j: nat)
    ensures j in BusyRounds(w, until, k) <==> j < k && Round(w, j, until).Continue? && !Waits(w, j)
  {
    if k > 0 {
      BusyRoundsAre(w, until, k - 1, j);
    }
  }

  /** Those among them of which some run is wasted by the claim of round k. */
  ghost function WastedRounds(w: World, until: int, k: nat): set<nat> {
    set j | j in BusyRounds(w, until, k) && AnyWasted(w, j, k)
  }

  ghost function OnDay(ps: set<PortfolioId>, day: nat): set<(PortfolioId, nat)> {
    set p | p in ps :: (p, day)
  }

  ghost function PortfoliosAt(w: World, k: nat): set<PortfolioId> {
    w.state(w.claimAt(k)).db.portfolios.Keys
  }

  /** Each portfolio that existed at a claim before round k, with the day of that claim. */
  ghost function PortfolioDays(w: World, k: nat): set<(PortfolioId, nat)> {
    if k == 0 then {} else PortfolioDays(w, k - 1) + OnDay(PortfoliosAt(w, k - 1), DayOf(w, k - 1))
  }

  lemma {:induction false} PortfolioDaysHas(w: World, k: nat, j: nat, p: PortfolioId)
    requires j < k && p in PortfoliosAt(w, j)
    ensures (p, DayOf(w, j)) in PortfolioDays(w, k)
  {
    if j < k - 1 {
      PortfolioDaysHas(w, k - 1, j, p);
    }
  }

  /** The portfolio that a busy round is remembered by: one that it dispatched. */
  ghost function Mark(w: World, k: nat): (PortfolioId, nat) {
    if w.claim(k).Claimed? && AnyDispatched(w, k, |w.claim(k).ids|) then
      var i: nat :| i < |w.claim(k).ids| && w.submit(k, i).Dispatched?;
      (w.claim(k).ids[i], DayOf(w, k))
    else (0, 0)
  }

  /** The mark is a portfolio that existed at the claim. */
  lemma MarkExists(w: World, tick: int, until: int, k: nat, j: nat)
    requires Fits(w, tick) && j in BusyRounds(w, until, k)
    ensures Mark(w, j) in PortfolioDays(w, k)
  {
    BusyRoundsAre(w, until, k, j);
    var i: nat :| i < |w.claim(j).ids| && w.submit(j, i).Dispatched? && Mark(w, j) == (w.claim(j).ids[i], DayOf(w, j));
    DueWhenClaimed(w, tick, j, i);
    PortfolioDaysHas(w, k, j, w.claim(j).ids[i]);
  }

  lemma MarksDiffer(w: World, tick: int, until: int, k: nat, a: nat, b: nat)
    requires Fits(w, tick) && a < b && a in BusyRounds(w, until, k) && b in BusyRounds(w, until, k)
    requires Mark(w, a) == Mark(w, b)
    ensures AnyWasted(w, a, k)
  {
    BusyRoundsAre(w, until, k, a);
    BusyRoundsAre(w, until, k, b);
    var i: nat :| i < |w.claim(a).ids| && w.submit(a, i).Dispatched? && Mark(w, a) == (w.claim(a).ids[i], DayOf(w, a));
    var j: nat :| j < |w.claim(b).ids| && w.submit(b, j).Dispatched? && Mark(w, b) == (w.claim(b).ids[j], DayOf(w, b));
    SamePortfolioTwice(w, tick, a, i, b, j, k);
  }

  /** What the rounds before k may use up: one for each day and portfolio that
      existed at a claim of that day, and one for each round of which a run was
      wasted. */
  ghost function Allowance(w: World, until: int, k: nat): nat {
    |PortfolioDays(w, k)| + |WastedRounds(w, until, k)|
  }

  /** A busy round of which no run is wasted. */
  ghost predicate Fruitful(w: World, until: int, k: nat, j: nat) {
    j in BusyRounds(w, until, k) && !AnyWasted(w, j, k)
  }

  /** Such rounds have different marks. */
  lemma {:induction false} FruitfulRounds(w: World, tick: int, until: int, k: nat, js: set<nat>,
                                          t: set<(PortfolioId, nat)>)
    requires Fits(w, tick) && forall j :: j in js ==> Fruitful(w, until, k, j)
    requires forall j :: j in js ==> Mark(w, j) in t
    ensures |js| <= |t|
  {
    if js != {} {
      var j :| j in js;
      forall i | i in js - {j}
        ensures Mark(w, i) in t - {Mark(w, j)}
      {
        MarksApart(w, tick, until, k, i, j);
      }
      FruitfulRounds(w, tick, until, k, js - {j}, t - {Mark(w, j)});
    }
  }

  lemma FruitfulCount(w: World, tick: int, until: int, k: nat, js: set<nat>)
    requires Fits(w, tick) && forall j :: j in js ==> Fruitful(w, until, k, j)
    ensures |js| <= |PortfolioDays(w, k)|
  {
    forall j | j in js
      ensures Mark(w, j) in PortfolioDays(w, k)
    {
      MarkExists(w, tick, until, k, j);
    }
    FruitfulRounds(w, tick, until, k, js, PortfolioDays(w, k));
  }

  lemma MarksApart(w: World, tick: int, until: int, k: nat, a: nat, b: nat)
    requires Fits(w, tick) && a != b && Fruitful(w, until, k, a) && Fruitful(w, until, k, b)
    ensures Mark(w, a) != Mark(w, b)
  {
    if Mark(w, a) == Mark(w, b) {
      if a < b {
        MarksDiffer(w, tick, until, k, a, b);
      } else {
        MarksDiffer(w, tick, until, k, b, a);
      }
    }
  }

  /** In every execution the busy rounds stay within their allowance. */
  lemma BusyRoundsBounded(w: World, tick: int, until: int, k: nat)
    requires Fits(w, tick)
    ensures |BusyRounds(w, until, k)| <= Allowance(w, until, k)
  {
    var busy, wasted := BusyRounds(w, until, k), WastedRounds(w, until, k);
    FruitfulCount(w, tick, until, k, busy - wasted);
    assert busy == wasted + (busy - wasted);
  }

  lemma DayOrder(w: World, tick: int, j: nat, k: nat)
    requires Fits(w, tick) && j <= k
    ensures DayOf(w, j) <= DayOf(w, k)
  {
    if j < k {
      RoundsInOrder(w, tick, j, k);
      assert RoundFits(w, tick, j);
      TimeForward(w, tick, w.claimAt(j), w.claimAt(k));
    }
  }

  // -------------------------------------------------------------- termination

  ghost predicate AllContinue(w: World, until: int, k: nat) {
    forall j: nat :: j < k ==> Round(w, j, until) == Continue
  }

  /** While the loop runs, its allowance stays within the limit. */
  ghost predicate WithinLimit(w: World, until: int, limit: int) {
    forall k: nat :: LimitedAt(w, until, limit, k)
  }

  ghost predicate LimitedAt(w: World, until: int, limit: int, k: nat) {
    AllContinue(w, until, k) ==> Allowance(w, until, k) <= limit
  }

  lemma BusyWithinLimit(w: World, tick: int, until: int, limit: int, k: nat)
    requires Fits(w, tick) && WithinLimit(w, until, limit) && AllContinue(w, until, k)
    ensures |BusyRounds(w, until, k)| <= limit
  {
    assert LimitedAt(w, until, limit, k);
    BusyRoundsBounded(w, tick, until, k);
  }

  ghost function TimeLeft(w: World, until: int, k: nat): nat {
    if Time(w, w.claimAt(k)) < until then until - Time(w, w.claimAt(k)) else 0
  }

  /** A round that continues brings the deadline nearer, or is busy and uses up
      part of the limit. */
  lemma RoundAdvances(w: World, tick: int, until: int, limit: int, k: nat)
    requires tick > 0 && Fits(w, tick) && WithinLimit(w, until, limit) && AllContinue(w, until, k + 1)
    ensures TimeLeft(w, until, k + 1) <= TimeLeft(w, until, k)
    ensures Waits(w, k) ==> TimeLeft(w, until, k + 1) < TimeLeft(w, until, k)
    ensures !Waits(w, k) ==> |BusyRounds(w, until, k)| < |BusyRounds(w, until, k + 1)| <= limit
  {
    ContinuesAt(w, until, k);
    TimeShrinks(w, tick, until, k);
    if !Waits(w, k) {
      BusyGrows(w, until, k);
      BusyWithinLimit(w, tick, until, limit, k + 1);
    }
  }

  lemma ContinuesAt(w: World, until: int, k: nat)
    requires AllContinue(w, until, k + 1)
    ensures Round(w, k, until) == Continue
  {
  }

  lemma TimeShrinks(w: World, tick: int, until: int, k: nat)
    requires tick > 0 && Fits(w, tick) && Round(w, k, until) == Continue
    ensures TimeLeft(w, until, k + 1) <= TimeLeft(w, until, k)
    ensures Waits(w, k) ==> TimeLeft(w, until, k + 1) < TimeLeft(w, until, k)
  {
    ClockAdvances(w, tick, k);
  }

  lemma BusyGrows(w: World, until: int, k: nat)
    requires Round(w, k, until) == Continue && !Waits(w, k)
    ensures |BusyRounds(w, until, k + 1)| == |BusyRounds(w, until, k)| + 1
  {
    BusyRoundsAre(w, until, k, k);
  }

  lemma ClockAdvances(w: World, tick: int, k: nat)
    requires Fits(w, tick)
    ensures Time(w, w.claimAt(k)) <= Time(w, w.claimAt(k + 1))
    ensures Waits(w, k) ==> Time(w, w.claimAt(k)) + tick <= Time(w, w.wakeAt(k)) <= Time(w, w.claimAt(k + 1))
  {
    assert RoundFits(w, tick, k);
    TimeForward(w, tick, w.claimAt(k), w.claimAt(k + 1));
    if Waits(w, k) {
      TimeForward(w, tick, w.wakeAt(k), w.claimAt(k + 1));
    }
  }

  lemma NothingIsDue(w: World, tick: int, k: nat)
    requires Fits(w, tick) && w.claim(k) == Claimed([])
    ensures forall p :: !Due(w.state(w.claimAt(k)).db, p)
  {
    assert RoundFits(w, tick, k);
  }

  /** Counts the submissions of one round. */
  method SubmitBatch(w: World, k: nat, ids: seq<PortfolioId>) returns (dispatched: nat, queueFull: bool)
    ensures dispatched > 0 <==> AnyDispatched(w, k, |ids|)
    ensures queueFull <==> exists i: nat :: i < |ids| && w.submit(k, i) == QueueFull
    ensures dispatched == |set i: nat | i < |ids| && w.submit(k, i).Dispatched?|
  {
    dispatched, queueFull := 0, false;
    ghost var sent: set<nat> := {};
    for i := 0 to |ids|
      invariant sent == set j: nat | j < i && w.submit(k, j).Dispatched?
      invariant dispatched == |sent|
      invariant dispatched > 0 <==> AnyDispatched(w, k, i)
      invariant queueFull <==> AnyQueueFull(w, k, i)
    {
      match w.submit(k, i) {
        case QueueFull => queueFull := true;
        case HardError =>
        case Dispatched =>
          dispatched := dispatched + 1;
          sent := sent + {i};
      }
    }
  }

  /** The loop returns in round k, the first that stops it. */
  lemma EndsAt(w: World, k: nat, until: int, why: Stop)
    requires AllContinue(w, until, k) && Round(w, k, until) == Return(why)
    ensures EndsWith(w, k, until, why)
  {
    RoundMeans(w, k, until);
    forall j: nat | j < k
      ensures GoesOn(w, j, until)
    {
      RoundMeans(w, j, until);
    }
  }

  /** The body of the loop: claim, submit, and wait when the queue was full. */
  method RunRound(w: World, k: nat, until: int) returns (v: Verdict)
    ensures v == Round(w, k, until)
  {
    var claim := w.claim(k);
    if claim.ClaimFailed? {
      return Return(ClaimError);
    }
    if claim.ids == [] {
      return Return(NothingDue);
    }
    var dispatched, queueFull := SubmitBatch(w, k, claim.ids);
    if queueFull {
      if w.cancelled(k) {
        return Return(Cancelled);
      }
      if Time(w, w.wakeAt(k)) >= until {
        return Return(Deadline);
      }
    } else if dispatched == 0 {
      return Return(NoProgress);
    }
    return Continue;
  }

  /** Terminates when the allowance is limited, at the first round that stops it
      and for that round's reason. */
  method DispatchDue(w: World, ghost tick: int, until: int, ghost limit: int) returns (rounds: nat, why: Stop)
    requires tick > 0 && Fits(w, tick) && WithinLimit(w, until, limit)
    ensures EndsWith(w, rounds, until, why)
    ensures why == NothingDue ==> forall p :: !Due(w.state(w.claimAt(rounds)).db, p)
  {
    var k: nat := 0;
    while true
      invariant AllContinue(w, until, k)
      decreases TimeLeft(w, until, k), limit - |BusyRounds(w, until, k)|
    {
      var v := RunRound(w, k, until);
      if v.Return? {
        EndsAt(w, k, until, v.why);
        if v.why == NothingDue {
          NothingIsDue(w, tick, k);
        }
        return k, v.why;
      }
      RoundAdvances(w, tick, until, limit, k);
      k := k + 1;
    }
  }

  lemma {:induction false} StopsFrom(w: World, tick: int, until: int, limit: int, k: nat) returns (rounds: nat)
    requires tick > 0 && Fits(w, tick) && WithinLimit(w, until, limit) && AllContinue(w, until, k)
    ensures Round(w, rounds, until) != Continue
    decreases TimeLeft(w, until, k), limit - |BusyRounds(w, until, k)|
  {
    rounds := k;
    if Round(w, k, until) == Continue {
      RoundAdvances(w, tick, until, limit, k);
      rounds := StopsFrom(w, tick, until, limit, k + 1);
    }
  }

  lemma {:induction false} LargestAllowance(w: World, until: int, k: nat) returns (limit: int)
    ensures forall j: nat :: j <= k ==> Allowance(w, until, j) <= limit
  {
    if k == 0 {
      limit := Allowance(w, until, 0);
    } else {
      limit := LargestAllowance(w, until, k - 1);
      var last := Allowance(w, until, k);
      limit := if limit < last then last else limit;
    }
  }

  /** The loop ends exactly when its allowance is limited while it runs, that is,
      unless portfolios keep being created, days keep passing, or runs keep
      being wasted. */
  lemma EndsIffLimited(w: World, tick: int, until: int)
    requires tick > 0 && Fits(w, tick)
    ensures (exists k: nat :: Round(w, k, until) != Continue) <==> exists limit: int :: WithinLimit(w, until, limit)
  {
    if limit: int :| WithinLimit(w, until, limit) {
      var k := StopsFrom(w, tick, until, limit, 0);
    }
    if k: nat :| Round(w, k, until) != Continue {
      var limit := LargestAllowance(w, until, k);
      assert forall j: nat :: AllContinue(w, until, j) ==> j <= k;
      assert WithinLimit(w, until, limit);
    }
  }

  /** The portfolios that existed at some claim before round k. */
  ghost function PortfoliosSeen(w: World, k: nat): set<PortfolioId> {
    if k == 0 then {} else PortfoliosSeen(w, k - 1) + PortfoliosAt(w, k - 1)
  }

  lemma {:induction false} OnDaySize(ps: set<PortfolioId>, day: nat)
    ensures |OnDay(ps, day)| == |ps|
  {
    if ps != {} {
      var p :| p in ps;
      OnDaySize(ps - {p}, day);
      assert OnDay(ps, day) == OnDay(ps - {p}, day) + {(p, day)};
    }
  }

  lemma {:induction false} DaysOfOneDay(w: World, k: nat, day: nat)
    requires forall j: nat :: j < k ==> DayOf(w, j) == day
    ensures PortfolioDays(w, k) == OnDay(PortfoliosSeen(w, k), day)
  {
    if k > 0 {
      DaysOfOneDay(w, k - 1, day);
      assert DayOf(w, k - 1) == day;
    }
  }

  /** With no run wasted and all claims on one day, there are no more busy rounds
      than portfolios that existed at some claim. */
  lemma BusyRoundsOfOneDay(w: World, tick: int, until: int, k: nat)
    requires Fits(w, tick) && DayOf(w, k) == DayOf(w, 0)
    requires forall j: nat :: j < k ==> !AnyWasted(w, j, k)
    ensures |BusyRounds(w, until, k)| <= |PortfoliosSeen(w, k)|
  {
    forall j | j in BusyRounds(w, until, k)
      ensures Fruitful(w, until, k, j)
    {
      BusyRoundsAre(w, until, k, j);
    }
    FruitfulCount(w, tick, until, k, BusyRounds(w, until, k));
    forall j: nat | j < k
      ensures DayOf(w, j) == DayOf(w, 0)
    {
      DayOrder(w, tick, 0, j);
      DayOrder(w, tick, j, k);
    }
    DaysOfOneDay(w, k, DayOf(w, 0));
    OnDaySize(PortfoliosSeen(w, k), DayOf(w, 0));
  }

  // ------------------------------------------------------------------- probe

  /** The next scheduled instant after t, as the calendar library gives it: it
      is later than t and the same for all instants up to it. */
  ghost predicate IsSchedule(next: int -> int) {
    && (forall t :: next(t) > t)
    && (forall t, u {:trigger next(t), next(u)} :: t <= u < next(t) ==> next(u) == next(t))
  }

  ghost predicate IsFire(next: int -> int, t: int) {
    next(t - 1) == t
  }

  /** Walks forward from the start of the look-back window to the latest fire
      at or before now. */
  method MostRecentFire(next: int -> int, now: int, lookback: nat) returns (last: Option<int>)
    requires IsSchedule(next)
    ensures last.Some? ==>
              && now - lookback < last.value <= now && IsFire(next, last.value)
              && forall t :: last.value < t <= now ==> !IsFire(next, t)
    ensures last.None? ==> forall t :: now - lookback < t <= now ==> !IsFire(next, t)
  {
    var probe := now - lookback;
    last := None;
    while next(probe) <= now
      invariant now - lookback <= probe <= now
      invariant last.None? ==> probe == now - lookback
      invariant last.Some? ==> last.value == probe && now - lookback < probe && IsFire(next, probe)
      decreases now - probe
    {
      var fire := next(probe);
      assert next(fire - 1) == next(probe);
      last, probe := Some(fire), fire;
    }
    forall t | probe < t <= now
      ensures !IsFire(next, t)
    {
      assert next(t - 1) == next(probe);
    }
  }
}
