/** Drawdown detection in one pass over an equity series, against the
    definition by maximal stretches below the running maximum. Amounts are
    real numbers. */
module Drawdowns {
  import opened Prelude
  import opened StableSort

  datatype Point = Point(d: int, v: real)

  /** A relative change. Division by a peak of zero gives minus infinity, since
      only lower values are divided by it. */
  datatype Depth = MinusInfinity | Finite(x: real)

  datatype Drawdown = Drawdown(start: int, trough: int, recovery: Option<int>, depth: Depth, days: int)

  const MIN_DEPTH := 0.05

  predicate Below(a: Depth, b: Depth) {
    b.Finite? && (a.MinusInfinity? || a.x < b.x)
  }

  predicate IsDeep(d: Depth) {
    d.MinusInfinity? || d.x <= -MIN_DEPTH
  }

  function Ratio(low: real, high: real): Depth {
    if high == 0.0 then MinusInfinity else Finite((low - high) / high)
  }

  // ------------------------------------------------------------ definitions

  ghost predicate NonNegative(s: seq<Point>) {
    forall i :: 0 <= i < |s| ==> s[i].v >= 0.0
  }

  /** The points come ordered by date; a date may occur more than once. */
  ghost predicate Dated(s: seq<Point>) {
    forall i, j :: 0 <= i < j < |s| ==> s[i].d <= s[j].d
  }

  /** Position j is a running maximum. */
  ghost predicate Peak(s: seq<Point>, j: int) {
    0 <= j < |s| && forall i :: 0 <= i < j ==> s[i].v <= s[j].v
  }

  /** Everything strictly between j and e is below the value at j. */
  ghost predicate Under(s: seq<Point>, j: int, e: int) {
    0 <= j < e <= |s| && forall i :: j < i < e ==> s[i].v < s[j].v
  }

  /** The stretch under j stops at e: the value is regained, or the series ends. */
  predicate Stops(s: seq<Point>, j: int, e: int) {
    0 <= j < e <= |s| && (e == |s| || s[e].v >= s[j].v)
  }

  /** The first lowest position strictly between j and e. */
  ghost predicate Lowest(s: seq<Point>, j: int, e: int, t: int) {
    && 0 <= j < t < e <= |s|
    && (forall i :: j < i < e ==> s[t].v <= s[i].v)
    && (forall i :: j < i < t ==> s[t].v < s[i].v)
  }

  /** A peak, its trough, and the end of the stretch below the peak. */
  datatype Cycle = Cycle(j: int, t: int, e: int)

  ghost predicate IsCycle(s: seq<Point>, c: Cycle) {
    Peak(s, c.j) && Under(s, c.j, c.e) && Stops(s, c.j, c.e) && Lowest(s, c.j, c.e, c.t)
  }

  /** The relative change from the value at j to the lower value at i. */
  function Change(s: seq<Point>, j: int, i: int): Depth
    requires 0 <= j < |s| && 0 <= i < |s|
  {
    Ratio(s[i].v, s[j].v)
  }

  ghost predicate DeepCycle(s: seq<Point>, c: Cycle) {
    IsCycle(s, c) && IsDeep(Change(s, c.j, c.t))
  }

  /** The first position with date d, or 0. */
  function DateIndex(s: seq<Point>, d: int): (i: int)
    ensures (exists k :: 0 <= k < |s| && s[k].d == d) ==>
              0 <= i < |s| && s[i].d == d && forall k :: 0 <= k < i ==> s[k].d != d
    ensures (forall k :: 0 <= k < |s| ==> s[k].d != d) ==> i == 0
  {
    DateIndexFrom(s, d, 0)
  }

  function DateIndexFrom(s: seq<Point>, d: int, n: nat): (i: int)
    requires n <= |s| && forall k :: 0 <= k < n ==> s[k].d != d
    ensures (exists k :: 0 <= k < |s| && s[k].d == d) ==>
              0 <= i < |s| && s[i].d == d && forall k :: 0 <= k < i ==> s[k].d != d
    ensures (forall k :: 0 <= k < |s| ==> s[k].d != d) ==> i == 0
    decreases |s| - n
  {
    if n == |s| then 0 else if s[n].d == d then n else DateIndexFrom(s, d, n + 1)
  }

  /** Days are counted from the first point with the date of the peak. */
  function Report(s: seq<Point>, c: Cycle): Drawdown
    requires 0 <= c.j < c.t < c.e <= |s|
  {
    Drawdown(s[c.j].d, s[c.t].d, if c.e < |s| then Some(s[c.e].d) else None, Change(s, c.j, c.t),
             c.e - DateIndex(s, s[c.j].d))
  }

  /** When no date is repeated, that is from the peak itself. */
  lemma DaysFromPeak(s: seq<Point>, j: int)
    requires 0 <= j < |s| && forall i, k :: 0 <= i < k < |s| ==> s[i].d != s[k].d
    ensures DateIndex(s, s[j].d) == j
  {
    assert s[j].d == s[j].d;
    var i := DateIndex(s, s[j].d);
  }

  /** dd reports a deep cycle that stops by position m. */
  ghost predicate Reported(s: seq<Point>, m: int, dd: Drawdown) {
    exists c :: DeepCycle(s, c) && c.e <= m && dd == Report(s, c)
  }

  ghost predicate IsDrawdown(s: seq<Point>, dd: Drawdown) {
    Reported(s, |s|, dd)
  }

  /** dd in terms of the series alone: from a running maximum at j down to the first
      lowest point at t, with nothing back at the level of j before e, where the
      value is regained or the series ends. The fall is at least a twentieth of
      a positive peak, or any fall from a peak of zero. */
  ghost predicate RecordsAt(s: seq<Point>, dd: Drawdown, j: int, t: int, e: int, f: int) {
    && 0 <= f <= j < t < e <= |s|
    && (forall i :: 0 <= i < j ==> s[i].v <= s[j].v)
    && (forall i :: j < i < e ==> s[i].v < s[j].v)
    && (e < |s| ==> s[e].v >= s[j].v)
    && (forall i :: j < i < t ==> s[i].v > s[t].v) && (forall i :: t <= i < e ==> s[i].v >= s[t].v)
    && dd.start == s[j].d && dd.trough == s[t].d
    && dd.recovery == (if e == |s| then None else Some(s[e].d))
    && (if s[j].v == 0.0 then dd.depth == MinusInfinity
        else dd.depth.Finite? && dd.depth.x * s[j].v == s[t].v - s[j].v && dd.depth.x <= -0.05)
    && dd.days == e - f && s[f].d == s[j].d && (forall i :: 0 <= i < f ==> s[i].d != s[j].d)
  }

  ghost predicate Records(s: seq<Point>, dd: Drawdown) {
    exists j, t, e, f :: RecordsAt(s, dd, j, t, e, f)
  }

  lemma RatioTimesPeak(low: real, high: real, x: real)
    requires high != 0.0
    ensures x * high == low - high <==> Ratio(low, high) == Finite(x)
  {
    var q := (low - high) / high;
    assert q * high == low - high;
    if x * high == low - high {
      CancelFactor(x, q, high);
    }
  }

  lemma ReportRecords(s: seq<Point>, c: Cycle)
    requires DeepCycle(s, c)
    ensures RecordsAt(s, Report(s, c), c.j, c.t, c.e, DateIndex(s, s[c.j].d))
  {
    var f := DateIndex(s, s[c.j].d);
    assert exists k :: 0 <= k < |s| && s[k].d == s[c.j].d;
    assert f <= c.j;
    if s[c.j].v != 0.0 {
      RatioTimesPeak(s[c.t].v, s[c.j].v, Report(s, c).depth.x);
    }
  }

  lemma RecordReports(s: seq<Point>, dd: Drawdown, j: int, t: int, e: int, f: int)
    requires RecordsAt(s, dd, j, t, e, f)
    ensures DeepCycle(s, Cycle(j, t, e)) && dd == Report(s, Cycle(j, t, e))
  {
    assert exists k :: 0 <= k < |s| && s[k].d == s[j].d;
    var f' := DateIndex(s, s[j].d);
    assert f == f';
    if s[j].v != 0.0 {
      RatioTimesPeak(s[t].v, s[j].v, dd.depth.x);
    }
  }

  /** What is reported is what the series records. */
  lemma DrawdownIsRecord(s: seq<Point>, dd: Drawdown)
    ensures IsDrawdown(s, dd) <==> Records(s, dd)
  {
    if IsDrawdown(s, dd) {
      var c :| DeepCycle(s, c) && dd == Report(s, c);
      ReportRecords(s, c);
    }
    if Records(s, dd) {
      var j, t, e, f :| RecordsAt(s, dd, j, t, e, f);
      RecordReports(s, dd, j, t, e, f);
    }
  }

  /** Each drawdown has ended by the time the next begins. */
  ghost predicate Disjoint(dds: seq<Drawdown>) {
    forall a, b :: 0 <= a < b < |dds| ==> dds[a].recovery.Some? && dds[a].recovery.value <= dds[b].start
  }

  // -------------------------------------------------------------- detection

  /** What the loop has found once the current peak is at position pk. */
  ghost predicate Found(s: seq<Point>, pk: int, dds: seq<Drawdown>) {
    (forall dd :: dd in dds <==> Reported(s, pk, dd)) && Disjoint(dds)
  }

  /** A stretch that stops after the current peak is the one under that peak. */
  lemma OnlyOpenCycle(s: seq<Point>, pk: int, i: int, c: Cycle)
    requires Peak(s, pk) && Under(s, pk, i) && Stops(s, pk, i)
    requires IsCycle(s, c) && pk < c.e <= i
    ensures c.j == pk && c.e == i
  {
    var here, there := s[pk].v, s[c.j].v;
    var stop := if c.e < |s| then s[c.e].v else there;
  }

  lemma OneTrough(s: seq<Point>, j: int, e: int, t: int, t': int)
    requires Lowest(s, j, e, t) && Lowest(s, j, e, t')
    ensures t == t'
  {
    var low, low' := s[t].v, s[t'].v;
  }

  method IndexOfDate(s: seq<Point>, d: int) returns (i: int)
    ensures i == DateIndex(s, d)
  {
    for n := 0 to |s|
      invariant forall k :: 0 <= k < n ==> s[k].d != d
      invariant DateIndex(s, d) == DateIndexFrom(s, d, n)
    {
      if s[n].d == d {
        return n;
      }
    }
    return 0;
  }

  /** The loop's view of the stretch under the current peak. */
  ghost predicate Open(s: seq<Point>, pk: int, i: int, t: int, inDrawdown: bool, depth: Depth) {
    && Peak(s, pk) && Under(s, pk, i)
    && (inDrawdown <==> pk + 1 < i)
    && (inDrawdown ==> Lowest(s, pk, i, t) && depth == Change(s, pk, t))
  }

  /** A reported stretch joins the findings. */
  lemma CloseDeep(s: seq<Point>, open: Cycle, dds: seq<Drawdown>)
    requires Dated(s) && Found(s, open.j, dds) && DeepCycle(s, open)
    ensures Found(s, open.e, dds + [Report(s, open)])
  {
    var dds' := dds + [Report(s, open)];
    forall dd
      ensures dd in dds' <==> Reported(s, open.e, dd)
    {
      if Reported(s, open.e, dd) {
        var c :| DeepCycle(s, c) && c.e <= open.e && dd == Report(s, c);
        if c.e > open.j {
          OnlyOpenCycle(s, open.j, open.e, c);
          OneTrough(s, open.j, open.e, c.t, open.t);
        }
      }
    }
    forall a | 0 <= a < |dds|
      ensures dds[a].recovery.Some? && dds[a].recovery.value <= s[open.j].d
    {
      assert dds[a] in dds;
      EndsBy(s, open.j, dds[a]);
    }
  }

  lemma EndsBy(s: seq<Point>, m: int, dd: Drawdown)
    requires Dated(s) && 0 <= m < |s| && Reported(s, m, dd)
    ensures dd.recovery.Some? && dd.recovery.value <= s[m].d
  {
    var c :| DeepCycle(s, c) && c.e <= m && dd == Report(s, c);
    assert c.e < m ==> s[c.e].d <= s[m].d;
  }

  /** A stretch that is empty or not deep leaves them as they are. */
  lemma CloseShallow(s: seq<Point>, pk: int, i: int, dds: seq<Drawdown>)
    requires Found(s, pk, dds) && Peak(s, pk) && Under(s, pk, i) && Stops(s, pk, i)
    requires forall t :: !DeepCycle(s, Cycle(pk, t, i))
    ensures Found(s, i, dds)
  {
    forall dd | Reported(s, i, dd)
      ensures Reported(s, pk, dd)
    {
      var c :| DeepCycle(s, c) && c.e <= i && dd == Report(s, c);
      var open := Cycle(pk, c.t, i);
      if c.e > pk {
        OnlyOpenCycle(s, pk, i, c);
      }
    }
  }

  lemma NotDeep(s: seq<Point>, pk: int, i: int, t: int, inDrawdown: bool, depth: Depth)
    requires Open(s, pk, i, t, inDrawdown, depth) && (inDrawdown ==> !IsDeep(depth))
    ensures forall t' :: !DeepCycle(s, Cycle(pk, t', i))
  {
    forall t' | DeepCycle(s, Cycle(pk, t', i))
      ensures false
    {
      OneTrough(s, pk, i, t', t);
    }
  }

  /** The stretch under pk stops at i: it is the only cycle that stops between
      the two, and it is reported exactly if it is deep. */
  lemma Close(s: seq<Point>, pk: int, i: int, t: int, inDrawdown: bool, depth: Depth, dds: seq<Drawdown>)
    requires Dated(s) && Open(s, pk, i, t, inDrawdown, depth) && Stops(s, pk, i) && Found(s, pk, dds)
    ensures Found(s, i, if inDrawdown && IsDeep(depth) then dds + [Report(s, Cycle(pk, t, i))] else dds)
  {
    if inDrawdown && IsDeep(depth) {
      CloseDeep(s, Cycle(pk, t, i), dds);
    } else {
      NotDeep(s, pk, i, t, inDrawdown, depth);
      CloseShallow(s, pk, i, dds);
    }
  }

  lemma NewPeak(s: seq<Point>, pk: int, i: int, t: int, inDrawdown: bool, depth: Depth)
    requires Open(s, pk, i, t, inDrawdown, depth) && i < |s| && s[i].v >= s[pk].v
    ensures Open(s, i, i + 1, t, false, depth)
  {
  }

  lemma StaysUnder(s: seq<Point>, pk: int, i: int, t: int, inDrawdown: bool, depth: Depth)
    requires Open(s, pk, i, t, inDrawdown, depth) && i < |s| && s[i].v < s[pk].v
    ensures inDrawdown && s[i].v >= s[t].v ==> Open(s, pk, i + 1, t, true, depth)
    ensures !inDrawdown || s[i].v < s[t].v ==> Open(s, pk, i + 1, i, true, Change(s, pk, i))
  {
  }

  /** One pass. What is reported is exactly what the definition by stretches
      asks for, in the order of the series. */
  method Detect(s: seq<Point>) returns (dds: seq<Drawdown>)
    requires s != [] && Dated(s)
    ensures forall dd :: dd in dds <==> IsDrawdown(s, dd)
    ensures Disjoint(dds)
  {
    dds := [];
    var peak := s[0];
    var inDrawdown := false;
    var trough := s[0];
    var depth := Finite(0.0);
    ghost var pk, t := 0, 0;
    for i := 1 to |s|
      invariant Open(s, pk, i, t, inDrawdown, depth) && s[pk] == peak
      invariant inDrawdown ==> s[t] == trough
      invariant Found(s, pk, dds)
    {
      var p := s[i];
      if p.v >= peak.v {
        Close(s, pk, i, t, inDrawdown, depth, dds);
        if inDrawdown && IsDeep(depth) {
          var at := IndexOfDate(s, peak.d);
          var days := i - at;
          assert Report(s, Cycle(pk, t, i)) == Drawdown(peak.d, trough.d, Some(p.d), depth, days);
          dds := dds + [Drawdown(peak.d, trough.d, Some(p.d), depth, days)];
        }
        NewPeak(s, pk, i, t, inDrawdown, depth);
        inDrawdown := false;
        peak := p;
        pk := i;
      } else {
        StaysUnder(s, pk, i, t, inDrawdown, depth);
        if !inDrawdown || p.v < trough.v {
          trough := p;
          depth := Ratio(p.v, peak.v);
          t := i;
        }
        inDrawdown := true;
      }
    }
    Close(s, pk, |s|, t, inDrawdown, depth, dds);
    if inDrawdown && IsDeep(depth) {
      var at := IndexOfDate(s, peak.d);
      var days := |s| - at;
      assert Report(s, Cycle(pk, t, |s|)) == Drawdown(peak.d, trough.d, None, depth, days);
      dds := dds + [Drawdown(peak.d, trough.d, None, depth, days)];
    }
  }

  // ---------------------------------------------------------------- sorting

  predicate Deeper(a: Drawdown, b: Drawdown) {
    Below(a.depth, b.depth)
  }

  /** x comes to rest behind the last element it does not precede. */
  lemma {:induction false} InsertSettles(s: seq<Drawdown>, j: nat, x: Drawdown)
    requires j <= |s| && (j > 0 ==> !Deeper(x, s[j - 1]))
    requires forall k :: j <= k < |s| ==> Deeper(x, s[k])
    ensures Insert(s, x, Deeper) == s[..j] + [x] + s[j..]
  {
    if j < |s| {
      var n := |s| - 1;
      InsertSettles(s[..n], j, x);
      assert s[..n][..j] == s[..j] && s[j..] == s[..n][j..] + [s[n]];
    }
  }

  lemma Pieces(b: seq<Drawdown>, s: seq<Drawdown>, j: nat, x: Drawdown)
    requires j <= |s| && |b| > |s| && b[j] == x
    requires forall k :: 0 <= k < j ==> b[k] == s[k]
    requires forall k :: j < k <= |s| ==> b[k] == s[k - 1]
    ensures b == s[..j] + [x] + s[j..] + b[|s| + 1..]
  {
    assert b[..j] == s[..j];
    assert b[j + 1..|s| + 1] == s[j..];
  }

  /** Moves element i left to its place in the sorted part before it. */
  method InsertAt(a: array<Drawdown>, i: nat)
    requires i < a.Length
    modifies a
    ensures a[..] == Insert(old(a[..i]), old(a[i]), Deeper) + old(a[i + 1..])
  {
    ghost var s, x := a[..i], a[i];
    var j := i;
    while j > 0 && Below(a[j].depth, a[j - 1].depth)
      invariant 0 <= j <= i && a[j] == x
      invariant forall k :: 0 <= k < j ==> a[k] == s[k]
      invariant forall k :: j < k <= i ==> a[k] == s[k - 1]
      invariant forall k :: j <= k < i ==> Deeper(x, s[k])
      invariant a[i + 1..] == old(a[i + 1..])
    {
      a[j], a[j - 1] := a[j - 1], a[j];
      j := j - 1;
    }
    InsertSettles(s, j, x);
    Pieces(a[..], s, j, x);
  }

  /** In-place insertion sort, deepest first. */
  method SortDrawdowns(a: array<Drawdown>)
    modifies a
    ensures a[..] == Sort(old(a[..]), Deeper)
  {
    ghost var s := a[..];
    SortSmall(s);
    var i := 1;
    while i < a.Length
      invariant 1 <= i && (i <= a.Length || s == [])
      invariant a.Length > 0 ==> a[..] == Sort(s[..i], Deeper) + s[i..]
    {
      SortStep(s, i);
      assert a[..i] == Sort(s[..i], Deeper) && a[i + 1..] == s[i + 1..];
      assert a[i] == a[..][i] == s[i];
      InsertAt(a, i);
      i := i + 1;
    }
    if a.Length > 0 {
      assert s[..i] == s;
    }
  }

  lemma SortSmall(s: seq<Drawdown>)
    ensures s == [] ==> Sort(s, Deeper) == s
    ensures s != [] ==> Sort(s[..1], Deeper) + s[1..] == s
  {
    if s != [] {
      assert s[..1] == [s[0]] && s[..1][..0] == [];
      assert Sort(s[..1], Deeper) == [s[0]];
    }
  }

  lemma SortStep(s: seq<Drawdown>, i: nat)
    requires i < |s|
    ensures Sort(s[..i + 1], Deeper) == Insert(Sort(s[..i], Deeper), s[i], Deeper)
    ensures |Sort(s[..i], Deeper)| == i
  {
    assert s[..i + 1][..i] == s[..i];
    SortOrders(s[..i], Deeper);
    assert |multiset(Sort(s[..i], Deeper))| == |multiset(s[..i])|;
  }

  // ------------------------------------------------------ the worst drawdown

  /** The last position up to i holding the largest value so far. */
  function LastPeak(s: seq<Point>, i: int): (p: int)
    requires 0 <= i < |s|
    ensures 0 <= p <= i && (forall k :: 0 <= k <= i ==> s[k].v <= s[p].v)
    ensures forall k :: p < k <= i ==> s[k].v < s[p].v
  {
    if i == 0 then 0
    else
      var p := LastPeak(s, i - 1);
      if s[i].v >= s[p].v then i else p
  }

  /** The first position after e where the value at j is regained, or the end. */
  function StopAfter(s: seq<Point>, j: int, e: int): (r: int)
    requires 0 <= j < e <= |s| && Under(s, j, e)
    ensures e <= r && Under(s, j, r) && Stops(s, j, r)
    decreases |s| - e
  {
    if e == |s| || s[e].v >= s[j].v then e else StopAfter(s, j, e + 1)
  }

  function Trough(s: seq<Point>, j: int, e: int): (t: int)
    requires 0 <= j && j + 1 < e <= |s|
    ensures Lowest(s, j, e, t)
    decreases e
  {
    if e == j + 2 then j + 1
    else
      var t := Trough(s, j, e - 1);
      if s[e - 1].v < s[t].v then e - 1 else t
  }

  lemma RatioOrder(low: real, high: real, low': real, high': real)
    requires 0.0 <= low <= low' && 0.0 < high' <= high
    ensures (low - high) / high <= (low' - high') / high'
  {
    QuotientMinusOne(low, high);
    QuotientMinusOne(low', high');
    QuotientOrder(low, high, low', high');
  }

  lemma QuotientOrder(low: real, high: real, low': real, high': real)
    requires 0.0 <= low <= low' && 0.0 < high' <= high
    ensures low / high <= low' / high'
  {
    var a, b := low / high, low' / high';
    assert a * high == low && b * high' == low';
    NonNegativeFactor(b, high');
    ProductGrows(b, high', high);
    assert (b - a) * high == b * high - low;
    NonNegativeFactor(b - a, high);
  }

  lemma NonNegativeFactor(x: real, y: real)
    requires y > 0.0 && x * y >= 0.0
    ensures x >= 0.0
  {
  }

  lemma ProductGrows(x: real, y: real, z: real)
    requires x >= 0.0 && y <= z
    ensures x * y <= x * z
  {
  }

  lemma QuotientMinusOne(low: real, high: real)
    requires high > 0.0
    ensures (low - high) / high == low / high - 1.0
  {
    var q, a := (low - high) / high, low / high;
    assert q * high == low - high && a * high == low;
    CancelFactor(q, a - 1.0, high);
  }

  /** The relative change from the positive value at j to the value at i. */
  function Loss(s: seq<Point>, j: int, i: int): real
    requires 0 <= j < |s| && 0 <= i < |s| && s[j].v > 0.0
  {
    (s[i].v - s[j].v) / s[j].v
  }

  /** Any loss between two dates lies in a cycle at least as deep. */
  lemma CycleAround(s: seq<Point>, j: int, i: int) returns (c: Cycle)
    requires NonNegative(s) && 0 <= j <= i < |s| && s[i].v < s[j].v
    ensures IsCycle(s, c) && s[c.j].v > 0.0 && Loss(s, c.j, c.t) <= Loss(s, j, i)
  {
    var p := LastPeak(s, i);
    var e := StopAfter(s, p, i + 1);
    var t := Trough(s, p, e);
    c := Cycle(p, t, e);
    RatioOrder(s[t].v, s[p].v, s[i].v, s[j].v);
  }

  /** Every drawdown of the series and nothing else, deepest first. */
  ghost predicate DeepestFirst(s: seq<Point>, dds: seq<Drawdown>) {
    && (forall dd :: dd in dds <==> Records(s, dd))
    && (forall a, b :: 0 <= a < b < |dds| ==>
          dds[a].depth.MinusInfinity? || (dds[b].depth.Finite? && dds[a].depth.x <= dds[b].depth.x))
  }

  lemma SortedFirst(s: seq<Point>, found: seq<Drawdown>)
    requires forall dd :: dd in found <==> IsDrawdown(s, dd)
    ensures DeepestFirst(s, Sort(found, Deeper)) && Ordered(Sort(found, Deeper), Deeper)
    ensures forall dd :: dd in Sort(found, Deeper) <==> IsDrawdown(s, dd)
  {
    var dds := Sort(found, Deeper);
    SortOrders(found, Deeper);
    forall dd
      ensures dd in dds <==> dd in found
      ensures dd in dds <==> Records(s, dd)
    {
      assert dd in dds <==> dd in multiset(dds);
      assert dd in found <==> dd in multiset(found);
      DrawdownIsRecord(s, dd);
    }
  }

  /** The reader: detection, then sorting. */
  method DrawdownsOf(s: seq<Point>) returns (dds: array<Drawdown>)
    requires Dated(s)
    ensures DeepestFirst(s, dds[..])
    ensures exists found :: Disjoint(found) && dds[..] == Sort(found, Deeper)
    ensures NonNegative(s) ==> WorstFirst(s, dds[..])
  {
    if s == [] {
      dds := new Drawdown[0];
      SortedFirst(s, []);
      assert dds[..] == [] == Sort([], Deeper) && Disjoint([]);
      if NonNegative(s) {
        DeepestIsWorst(s, []);
      }
      return;
    }
    var found := Detect(s);
    dds := new Drawdown[|found|](i requires 0 <= i < |found| => found[i]);
    assert dds[..] == found;
    SortDrawdowns(dds);
    SortedFirst(s, found);
    if NonNegative(s) {
      DeepestIsWorst(s, dds[..]);
    }
  }

  /** The first entry is the largest relative loss over all pairs of dates, and
      there is none exactly when no loss reaches the threshold. */
  ghost predicate WorstFirst(s: seq<Point>, dds: seq<Drawdown>) {
    && (dds == [] <==> forall j, i :: 0 <= j <= i < |s| && s[j].v > 0.0 ==> Loss(s, j, i) > -0.05)
    && (dds != [] ==>
          && dds[0].depth.Finite?
          && (forall j, i :: 0 <= j <= i < |s| && s[j].v > 0.0 ==> dds[0].depth.x <= Loss(s, j, i))
          && (exists j, i :: 0 <= j <= i < |s| && s[j].v > 0.0 && dds[0].depth.x == Loss(s, j, i)))
  }

  lemma DeepestIsWorst(s: seq<Point>, dds: seq<Drawdown>)
    requires NonNegative(s) && (forall dd :: dd in dds <==> IsDrawdown(s, dd)) && Ordered(dds, Deeper)
    ensures WorstFirst(s, dds)
  {
    if dds != [] {
      FirstIsLoss(s, dds);
    }
    forall j, i | 0 <= j <= i < |s| && s[j].v > 0.0
      ensures Loss(s, j, i) > -MIN_DEPTH || (dds != [] && dds[0].depth.Finite? && dds[0].depth.x <= Loss(s, j, i))
    {
      if Loss(s, j, i) <= -MIN_DEPTH {
        LossFound(s, dds, j, i);
      }
    }
  }

  /** Without negative values a peak that something is below is positive. */
  lemma FirstIsLoss(s: seq<Point>, dds: seq<Drawdown>)
    requires NonNegative(s) && (forall dd :: dd in dds <==> IsDrawdown(s, dd)) && dds != []
    ensures dds[0].depth.Finite? && dds[0].depth.x <= -MIN_DEPTH
    ensures exists j, i :: 0 <= j <= i < |s| && s[j].v > 0.0 && dds[0].depth.x == Loss(s, j, i)
  {
    assert dds[0] in dds;
    var c :| DeepCycle(s, c) && dds[0] == Report(s, c);
    assert s[c.t].v < s[c.j].v;
    assert dds[0].depth.x == Loss(s, c.j, c.t);
  }

  lemma LossFound(s: seq<Point>, dds: seq<Drawdown>, j: int, i: int)
    requires NonNegative(s) && (forall dd :: dd in dds <==> IsDrawdown(s, dd)) && Ordered(dds, Deeper)
    requires 0 <= j <= i < |s| && s[j].v > 0.0 && Loss(s, j, i) <= -MIN_DEPTH
    ensures dds != [] && dds[0].depth.Finite? && dds[0].depth.x <= Loss(s, j, i)
  {
    NegativeChange(s[i].v, s[j].v);
    var c := CycleAround(s, j, i);
    assert Change(s, c.j, c.t) == Finite(Loss(s, c.j, c.t));
    assert IsDrawdown(s, Report(s, c));
    var a :| 0 <= a < |dds| && dds[a] == Report(s, c);
    FirstIsLoss(s, dds);
    assert a > 0 ==> !Deeper(dds[a], dds[0]);
  }

  lemma NegativeChange(low: real, high: real)
    requires high > 0.0 && (low - high) / high < 0.0
    ensures low < high
  {
    var q := (low - high) / high;
    assert q * high == low - high;
  }
}
