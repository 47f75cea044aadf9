/** The canonical periods of the holdings-impact report, cut out of the timeline. */
module PeriodWindows {
  import opened Prelude
  import opened HoldingsTimeline

  // ------------------------------------------------------------------ dates

  predicate Leap(y: int) {
    y % 4 == 0 && (y % 100 != 0 || y % 400 == 0)
  }

  function DaysIn(y: int, m: int): int {
    if m == 2 then (if Leap(y) then 29 else 28)
    else if m == 4 || m == 6 || m == 9 || m == 11 then 30
    else 31
  }

  predicate IsDate(c: Civil) {
    1 <= c.m <= 12 && 1 <= c.d <= DaysIn(c.y, c.m)
  }

  /** Calendar order. */
  predicate NotAfter(a: Civil, b: Civil) {
    a.y < b.y || (a.y == b.y && (a.m < b.m || (a.m == b.m && a.d <= b.d)))
  }

  /** time.Date(year - n, month, day): a 29 February that does not exist becomes 1 March. */
  function YearsBack(c: Civil, n: int): (r: Civil)
    requires IsDate(c)
    ensures IsDate(r)
  {
    if c.m == 2 && c.d == 29 && !Leap(c.y - n) then Civil(c.y - n, 3, 1) else Civil(c.y - n, c.m, c.d)
  }

  /** The number of the last day before year y, in the proleptic Gregorian calendar. */
  function BeforeYear(y: int): int {
    365 * (y - 1) + (y - 1) / 4 - (y - 1) / 100 + (y - 1) / 400
  }

  function BeforeMonth(y: int, m: int): int {
    if m <= 1 then 0 else BeforeMonth(y, m - 1) + DaysIn(y, m - 1)
  }

  /** Days are numbered without gaps, so a difference is a number of days. */
  function DayNumber(c: Civil): int {
    BeforeYear(c.y) + BeforeMonth(c.y, c.m) + c.d
  }

  function YearLength(y: int): int {
    if Leap(y) then 366 else 365
  }

  lemma NextYear(y: int)
    ensures BeforeYear(y + 1) == BeforeYear(y) + YearLength(y)
  {
    By4(y);
    By100(y);
    By400(y);
    Multiples(y);
  }

  lemma By4(y: int)
    ensures y / 4 == (y - 1) / 4 + (if y % 4 == 0 then 1 else 0)
  {
  }

  lemma By100(y: int)
    ensures y / 100 == (y - 1) / 100 + (if y % 100 == 0 then 1 else 0)
  {
  }

  lemma By400(y: int)
    ensures y / 400 == (y - 1) / 400 + (if y % 400 == 0 then 1 else 0)
  {
  }

  lemma Multiples(y: int)
    ensures y % 400 == 0 ==> y % 100 == 0
    ensures y % 100 == 0 ==> y % 4 == 0
  {
    assert y % 100 == 0 ==> y == 4 * (25 * (y / 100));
    assert y % 400 == 0 ==> y == 100 * (4 * (y / 400));
  }

  lemma LaterYear(y: int, z: int)
    requires y < z
    ensures BeforeYear(y) + YearLength(y) <= BeforeYear(z)
  {
    NextYear(y);
    QuotientsGrow(y, z - 1);
  }

  lemma QuotientsGrow(m: int, n: int)
    requires m <= n
    ensures m / 4 <= n / 4 && m / 400 <= n / 400 && n / 100 - m / 100 <= n - m
  {
  }

  lemma TwelveMonths(y: int)
    ensures BeforeMonth(y, 13) == YearLength(y)
  {
    assert BeforeMonth(y, 2) == 31;
    assert BeforeMonth(y, 3) == 31 + DaysIn(y, 2);
    assert BeforeMonth(y, 4) == 62 + DaysIn(y, 2);
    assert BeforeMonth(y, 5) == 92 + DaysIn(y, 2);
    assert BeforeMonth(y, 6) == 123 + DaysIn(y, 2);
    assert BeforeMonth(y, 7) == 153 + DaysIn(y, 2);
    assert BeforeMonth(y, 8) == 184 + DaysIn(y, 2);
    assert BeforeMonth(y, 9) == 215 + DaysIn(y, 2);
    assert BeforeMonth(y, 10) == 245 + DaysIn(y, 2);
    assert BeforeMonth(y, 11) == 276 + DaysIn(y, 2);
    assert BeforeMonth(y, 12) == 306 + DaysIn(y, 2);
  }

  lemma {:induction false} LaterMonth(y: int, m: int, n: int)
    requires 1 <= m < n <= 13
    ensures BeforeMonth(y, m) + DaysIn(y, m) <= BeforeMonth(y, n)
    decreases n
  {
    if m < n - 1 {
      LaterMonth(y, m, n - 1);
    }
  }

  function DayAfter(c: Civil): Civil {
    if c.d < DaysIn(c.y, c.m) then Civil(c.y, c.m, c.d + 1)
    else if c.m < 12 then Civil(c.y, c.m + 1, 1)
    else Civil(c.y + 1, 1, 1)
  }

  lemma NextDay(c: Civil)
    requires IsDate(c)
    ensures IsDate(DayAfter(c)) && DayNumber(DayAfter(c)) == DayNumber(c) + 1
  {
    TwelveMonths(c.y);
    NextYear(c.y);
  }

  /** A later date has a larger number. */
  lemma DayNumberGrows(a: Civil, b: Civil)
    requires IsDate(a) && IsDate(b) && NotAfter(a, b) && a != b
    ensures DayNumber(a) < DayNumber(b)
  {
    TwelveMonths(a.y);
    LaterMonth(a.y, a.m, 13);
    if a.y < b.y {
      LaterYear(a.y, b.y);
      if 1 < b.m {
        LaterMonth(b.y, 1, b.m);
      }
    } else if a.m < b.m {
      LaterMonth(a.y, a.m, b.m);
    }
  }

  // ---------------------------------------------------------------- periods

  datatype PeriodId = Inception | FiveYears | ThreeYears | OneYear | YearToDate

  function Rank(id: PeriodId): int {
    match id
    case Inception => 0
    case FiveYears => 1
    case ThreeYears => 2
    case OneYear => 3
    case YearToDate => 4
  }

  datatype Window = Window(id: PeriodId, start: int, end: int)

  ghost predicate Chronological(timeline: seq<Day>) {
    && (forall i :: 0 <= i < |timeline| ==> IsDate(timeline[i].date))
    && (forall i, j :: 0 <= i < j < |timeline| ==> NotAfter(timeline[i].date, timeline[j].date))
  }

  /** The first day a period asks for. */
  function Wanted(timeline: seq<Day>, id: PeriodId): Civil
    requires timeline != [] && IsDate(timeline[|timeline| - 1].date)
  {
    var last := timeline[|timeline| - 1].date;
    match id
    case Inception => timeline[0].date
    case FiveYears => YearsBack(last, 5)
    case ThreeYears => YearsBack(last, 3)
    case OneYear => YearsBack(last, 1)
    case YearToDate => Civil(last.y, 1, 1)
  }

  /** The history reaches back far enough. Inception and year-to-date always apply. */
  predicate Offered(timeline: seq<Day>, id: PeriodId)
    requires timeline != [] && IsDate(timeline[|timeline| - 1].date)
  {
    id == Inception || id == YearToDate || NotAfter(timeline[0].date, Wanted(timeline, id))
  }

  /** i is the first funded day, before the last, on or after the wanted date. */
  ghost predicate IsStart(timeline: seq<Day>, want: Civil, i: int) {
    && 0 <= i < |timeline| - 1 && NotAfter(want, timeline[i].date) && timeline[i].v != 0.0
    && (forall k :: 0 <= k < i ==> !NotAfter(want, timeline[k].date) || timeline[k].v == 0.0)
  }

  ghost predicate IsWindow(timeline: seq<Day>, w: Window)
    requires timeline != [] && IsDate(timeline[|timeline| - 1].date)
  {
    Offered(timeline, w.id) && w.end == |timeline| - 1 && IsStart(timeline, Wanted(timeline, w.id), w.start)
  }

  /** The first day not before the wanted one, or -1. */
  method SnapForward(timeline: seq<Day>, want: Civil) returns (r: int)
    ensures -1 <= r < |timeline|
    ensures r == -1 ==> forall k :: 0 <= k < |timeline| ==> !NotAfter(want, timeline[k].date)
    ensures r >= 0 ==> NotAfter(want, timeline[r].date) && forall k :: 0 <= k < r ==> !NotAfter(want, timeline[k].date)
  {
    for i := 0 to |timeline|
      invariant forall k :: 0 <= k < i ==> !NotAfter(want, timeline[k].date)
    {
      if NotAfter(want, timeline[i].date) {
        return i;
      }
    }
    return -1;
  }

  /** The start of one period: snap to the wanted date, then skip unfunded days. */
  method FindStart(timeline: seq<Day>, want: Civil) returns (r: Option<int>)
    requires timeline != [] && Chronological(timeline)
    ensures r.Some? ==> IsStart(timeline, want, r.value)
    ensures r.None? ==> forall i :: !IsStart(timeline, want, i)
  {
    var end := |timeline| - 1;
    var idx := SnapForward(timeline, want);
    if idx < 0 || idx >= end {
      return None;
    }
    ghost var first := idx;
    while idx < end && timeline[idx].v == 0.0
      invariant first <= idx <= end
      invariant forall k :: first <= k < idx ==> timeline[k].v == 0.0
    {
      idx := idx + 1;
    }
    if idx >= end {
      return None;
    }
    LaterDays(timeline, want, first, idx);
    return Some(idx);
  }

  lemma LaterDays(timeline: seq<Day>, want: Civil, i: int, j: int)
    requires Chronological(timeline) && 0 <= i <= j < |timeline| && NotAfter(want, timeline[i].date)
    ensures NotAfter(want, timeline[j].date)
  {
  }

  const PERIODS: seq<PeriodId> := [Inception, FiveYears, ThreeYears, OneYear, YearToDate]

  /** All periods that apply, each once, in the canonical order. */
  ghost predicate AllWindows(timeline: seq<Day>, ws: seq<Window>)
    requires timeline != [] && IsDate(timeline[|timeline| - 1].date)
  {
    && (forall w :: w in ws <==> IsWindow(timeline, w))
    && (forall a, b :: 0 <= a < b < |ws| ==> Rank(ws[a].id) < Rank(ws[b].id))
  }

  method BuildPeriodWindows(timeline: seq<Day>) returns (out: seq<Window>)
    requires timeline != [] && Chronological(timeline)
    ensures AllWindows(timeline, out)
    ensures forall w :: w in out <==> Spans(timeline, w)
  {
    out := [];
    for n := 0 to |PERIODS|
      invariant forall w :: w in out <==> IsWindow(timeline, w) && Rank(w.id) < n
      invariant forall a, b :: 0 <= a < b < |out| ==> Rank(out[a].id) < Rank(out[b].id)
    {
      var id := PERIODS[n];
      assert Rank(id) == n && forall p :: Rank(p) == n ==> p == id;
      if Offered(timeline, id) {
        var start := FindStart(timeline, Wanted(timeline, id));
        if start.Some? {
          var w := Window(id, start.value, |timeline| - 1);
          assert forall a :: 0 <= a < |out| ==> out[a] in out;
          OneStart(timeline, w);
          out := out + [w];
        }
      }
    }
    forall w
      ensures w in out <==> Spans(timeline, w)
    {
      WindowSpans(timeline, w);
    }
  }

  // What the periods are, in terms of the dates alone.

  /** a is the same calendar day n years before c, or, where that year has no such
      day, the day after its 28 February. */
  ghost predicate IsAnniversary(c: Civil, n: int, a: Civil) {
    if IsDate(Civil(c.y - n, c.m, c.d)) then a == Civil(c.y - n, c.m, c.d)
    else IsDate(a) && DayNumber(a) == DayNumber(Civil(c.y - n, 2, 28)) + 1 && a.y == c.y - n
  }

  /** Day i is the first funded day not before the date. */
  ghost predicate FirstFunded(timeline: seq<Day>, want: Civil, i: int) {
    && 0 <= i < |timeline| && NotAfter(want, timeline[i].date) && timeline[i].v != 0.0
    && (forall k :: 0 <= k < i ==> timeline[k].v == 0.0 || !NotAfter(want, timeline[k].date))
  }

  /** The last n years, if the timeline reaches back that far. */
  ghost predicate LastYears(timeline: seq<Day>, n: int, i: int)
    requires timeline != []
  {
    exists want :: IsAnniversary(timeline[|timeline| - 1].date, n, want)
                   && NotAfter(timeline[0].date, want) && FirstFunded(timeline, want, i)
  }

  /** The window runs to the last day, from an earlier day that is the first funded
      one overall, of the last five, three or one years, or of the last day's year. */
  ghost predicate Spans(timeline: seq<Day>, w: Window)
    requires timeline != []
  {
    && w.end == |timeline| - 1 && w.start < w.end
    && match w.id
       case Inception =>
         0 <= w.start && timeline[w.start].v != 0.0 && forall k :: 0 <= k < w.start ==> timeline[k].v == 0.0
       case FiveYears => LastYears(timeline, 5, w.start)
       case ThreeYears => LastYears(timeline, 3, w.start)
       case OneYear => LastYears(timeline, 1, w.start)
       case YearToDate => FirstFunded(timeline, Civil(timeline[|timeline| - 1].date.y, 1, 1), w.start)
  }

  lemma AnniversaryIsYearsBack(c: Civil, n: int, a: Civil)
    requires IsDate(c)
    ensures IsAnniversary(c, n, a) <==> a == YearsBack(c, n)
  {
    if !IsDate(Civil(c.y - n, c.m, c.d)) {
      assert c.m == 2 && c.d == 29;
      MarchFirst(c.y - n);
      if IsAnniversary(c, n, a) {
        SameNumber(a, Civil(c.y - n, 3, 1));
      }
    }
  }

  lemma MarchFirst(y: int)
    requires !Leap(y)
    ensures DayNumber(Civil(y, 3, 1)) == DayNumber(Civil(y, 2, 28)) + 1
  {
    assert BeforeMonth(y, 3) == BeforeMonth(y, 2) + DaysIn(y, 2);
  }

  lemma SameNumber(a: Civil, b: Civil)
    requires IsDate(a) && IsDate(b) && DayNumber(a) == DayNumber(b)
    ensures a == b
  {
    if a != b {
      if NotAfter(a, b) {
        DayNumberGrows(a, b);
      } else {
        DayNumberGrows(b, a);
      }
    }
  }

  lemma WindowSpans(timeline: seq<Day>, w: Window)
    requires timeline != [] && Chronological(timeline)
    ensures IsWindow(timeline, w) <==> Spans(timeline, w)
  {
    var last := timeline[|timeline| - 1].date;
    match w.id {
      case Inception =>
        assert forall k :: 0 <= k < |timeline| ==> NotAfter(timeline[0].date, timeline[k].date);
      case FiveYears => LastYearsMean(timeline, 5, w.start);
      case ThreeYears => LastYearsMean(timeline, 3, w.start);
      case OneYear => LastYearsMean(timeline, 1, w.start);
      case YearToDate =>
    }
  }

  lemma LastYearsMean(timeline: seq<Day>, n: int, i: int)
    requires timeline != [] && Chronological(timeline)
    ensures var want := YearsBack(timeline[|timeline| - 1].date, n);
            LastYears(timeline, n, i) <==> NotAfter(timeline[0].date, want) && FirstFunded(timeline, want, i)
  {
    var last := timeline[|timeline| - 1].date;
    AnniversaryIsYearsBack(last, n, YearsBack(last, n));
    forall want | IsAnniversary(last, n, want)
      ensures want == YearsBack(last, n)
    {
      AnniversaryIsYearsBack(last, n, want);
    }
  }

  /** From 29 February 2024, the trailing periods begin on 1 March, and a period of
      four years would begin on 29 February. */
  lemma LeapDayPeriods()
    ensures YearsBack(Civil(2024, 2, 29), 5) == Civil(2019, 3, 1)
    ensures YearsBack(Civil(2024, 2, 29), 3) == Civil(2021, 3, 1)
    ensures YearsBack(Civil(2024, 2, 29), 1) == Civil(2023, 3, 1)
    ensures YearsBack(Civil(2024, 2, 29), 4) == Civil(2020, 2, 29)
  {
  }

  lemma OneStart(timeline: seq<Day>, w: Window)
    requires timeline != [] && IsDate(timeline[|timeline| - 1].date) && IsWindow(timeline, w)
    ensures forall w' :: IsWindow(timeline, w') && w'.id == w.id ==> w' == w
  {
    forall w' | IsWindow(timeline, w') && w'.id == w.id
      ensures w' == w
    {
      var here, there := timeline[w.start], timeline[w'.start];
    }
  }

  /** Later periods ask for later dates, once the first day is early enough. */
  lemma WantedGrows(timeline: seq<Day>, p: PeriodId, q: PeriodId)
    requires timeline != [] && Chronological(timeline) && Offered(timeline, p) && Offered(timeline, q)
    requires Rank(p) < Rank(q)
    ensures NotAfter(Wanted(timeline, p), Wanted(timeline, q)) || p == Inception
  {
  }

  /** A later wanted date starts no earlier. */
  lemma StartGrows(timeline: seq<Day>, want: Civil, want': Civil, i: int, i': int)
    requires IsStart(timeline, want, i) && IsStart(timeline, want', i')
    requires NotAfter(want, want') || forall k :: 0 <= k < |timeline| ==> NotAfter(want, timeline[k].date)
    ensures i <= i'
  {
    var here, there := timeline[i], timeline[i'];
  }

  /** Every period starts before it ends, on a funded day, and no period starts
      before the one listed ahead of it. */
  lemma WindowsSound(timeline: seq<Day>, ws: seq<Window>)
    requires timeline != [] && Chronological(timeline) && AllWindows(timeline, ws)
    ensures forall w :: w in ws ==> 0 <= w.start < w.end == |timeline| - 1 && timeline[w.start].v != 0.0
    ensures forall a, b :: 0 <= a < b < |ws| ==> ws[a].start <= ws[b].start
  {
    forall a, b | 0 <= a < b < |ws|
      ensures ws[a].start <= ws[b].start
    {
      var u, w := ws[a], ws[b];
      assert u in ws && w in ws;
      WantedGrows(timeline, u.id, w.id);
      if u.id == Inception {
        FirstIsFirst(timeline);
      }
      StartGrows(timeline, Wanted(timeline, u.id), Wanted(timeline, w.id), u.start, w.start);
    }
  }

  lemma FirstIsFirst(timeline: seq<Day>)
    requires timeline != [] && Chronological(timeline)
    ensures forall k :: 0 <= k < |timeline| ==> NotAfter(timeline[0].date, timeline[k].date)
  {
  }
}
