/** The daily spend curve: `spend_trend` in db.py. Costs are whole micro-dollars. */
module Spend {
  import opened Runs

  const DAY: Time := 24 * 60 * MINUTE
  const DEFAULT_DAYS: nat := 30
  const MAX_DAYS: nat := 366

  datatype Totals = Totals(cost: int, tokensIn: int, tokensOut: int, calls: int, unparsed: int)

  const ZERO: Totals := Totals(0, 0, 0, 0, 0)

  function Plus(a: Totals, b: Totals): Totals {
    Totals(a.cost + b.cost, a.tokensIn + b.tokensIn, a.tokensOut + b.tokensOut, a.calls + b.calls,
           a.unparsed + b.unparsed)
  }

  lemma {:induction false} PlusRegroups(a: Totals, b: Totals, c: Totals)
    ensures Plus(Plus(a, b), c) == Plus(Plus(a, c), b) == Plus(a, Plus(b, c))
    ensures Plus(a, ZERO) == a == Plus(ZERO, a)
  {
  }

  /** An `llm_usage` row that the filters let through. */
  datatype Usage = Usage(at: Time, totals: Totals)

  /** The UTC calendar day. */
  function DayOf(at: Time): int {
    at / DAY
  }

  function Window(days: Option<int>): (n: nat)
    ensures 1 <= n <= MAX_DAYS
  {
    match days
    case None => DEFAULT_DAYS
    case Some(d) => if d < 1 then 1 else if d > MAX_DAYS then MAX_DAYS else d
  }

  /** Thirty days unless another number is given, and never under one or over 366. */
  lemma {:induction false} WindowIs(days: Option<int>)
    ensures days == None ==> Window(days) == 30
    ensures days != None && 1 <= days.value <= 366 ==> Window(days) == days.value
    ensures days != None && days.value <= 0 ==> Window(days) == 1
    ensures days != None && days.value >= 367 ==> Window(days) == 366
  {
  }

  /** By age: what is under a window old is in it, what is under two windows old is read
      at all; and a day is a calendar day of UTC. */
  lemma {:induction false} AgeDecides(u: Usage, now: Time, window: nat)
    ensures Fetched(u, now, window) <==> now - u.at < window * 172_800_000_000
    ensures InWindow(u, now, window) <==> now - u.at < window * 86_400_000_000
    ensures 86_400_000_000 * DayOf(u.at) <= u.at < 86_400_000_000 * (DayOf(u.at) + 1)
  {
  }

  predicate Fetched(u: Usage, now: Time, window: nat) {
    u.at > now - 2 * window * DAY
  }

  predicate InWindow(u: Usage, now: Time, window: nat) {
    u.at > now - window * DAY
  }

  /** A choice of rows: the fetched ones of a day on one side of the cutoff, those of the
      window on some days, all of the window, all fetched before it, those of the window
      dated after today, all fetched. */
  datatype Part =
    | OnDay(day: int, inWindow: bool)
    | Days(from: int, to: int)
    | WholeWindow
    | Earlier
    | Later
    | AllFetched

  predicate In(u: Usage, part: Part, now: Time, window: nat) {
    match part
    case OnDay(day, inWindow) =>
      Fetched(u, now, window) && DayOf(u.at) == day && InWindow(u, now, window) == inWindow
    case Days(from, to) => InWindow(u, now, window) && from <= DayOf(u.at) < to
    case WholeWindow => InWindow(u, now, window)
    case Earlier => Fetched(u, now, window) && !InWindow(u, now, window)
    case Later => InWindow(u, now, window) && DayOf(u.at) > DayOf(now)
    case AllFetched => Fetched(u, now, window)
  }

  function Sum(usage: seq<Usage>, part: Part, now: Time, window: nat): Totals {
    if usage == [] then ZERO
    else
      var last := usage[|usage| - 1];
      Plus(Sum(usage[..|usage| - 1], part, now, window), if In(last, part, now, window) then last.totals else ZERO)
  }

  lemma {:induction false} SumSplits(usage: seq<Usage>, p: Part, q: Part, whole: Part, now: Time, window: nat)
    requires forall u :: u in usage ==>
      (In(u, whole, now, window) <==> In(u, p, now, window) || In(u, q, now, window)) &&
      !(In(u, p, now, window) && In(u, q, now, window))
    ensures Sum(usage, whole, now, window) == Plus(Sum(usage, p, now, window), Sum(usage, q, now, window))
  {
    hide In, Plus;
    PlusRegroups(ZERO, ZERO, ZERO);
    if usage != [] {
      var before, last := usage[..|usage| - 1], usage[|usage| - 1];
      SumSplits(before, p, q, whole, now, window);
      assert last in usage;
      var a, b := Sum(before, p, now, window), Sum(before, q, now, window);
      PlusRegroups(a, b, last.totals);
      PlusRegroups(a, b, ZERO);
      PlusRegroups(a, ZERO, ZERO);
      PlusRegroups(b, ZERO, ZERO);
    }
  }

  lemma {:induction false} SumOfNone(usage: seq<Usage>, part: Part, now: Time, window: nat)
    requires forall u :: u in usage ==> !In(u, part, now, window)
    ensures Sum(usage, part, now, window) == ZERO
  {
    hide In;
    if usage != [] {
      SumOfNone(usage[..|usage| - 1], part, now, window);
      assert usage[|usage| - 1] in usage;
    }
  }

  // ---- the grouped query --------------------------------------------------

  datatype Group = Group(day: int, inWindow: bool, totals: Totals)

  predicate Keyed(g: Group, day: int, inWindow: bool) {
    g.day == day && g.inWindow == inWindow
  }

  function AddTo(groups: seq<Group>, day: int, inWindow: bool, totals: Totals): seq<Group> {
    if groups == [] then [Group(day, inWindow, totals)]
    else
      var before, last := groups[..|groups| - 1], groups[|groups| - 1];
      if Keyed(last, day, inWindow) then before + [Group(day, inWindow, Plus(last.totals, totals))]
      else AddTo(before, day, inWindow, totals) + [last]
  }

  /** `group by 1, 2`. */
  function Grouped(usage: seq<Usage>, now: Time, window: nat): seq<Group> {
    if usage == [] then []
    else
      var last := usage[|usage| - 1];
      var rest := Grouped(usage[..|usage| - 1], now, window);
      if Fetched(last, now, window) then AddTo(rest, DayOf(last.at), InWindow(last, now, window), last.totals) else rest
  }

  ghost predicate DistinctKeys(groups: seq<Group>) {
    forall i, j :: 0 <= i < j < |groups| ==> !Keyed(groups[i], groups[j].day, groups[j].inWindow)
  }

  predicate Picked(g: Group, part: Part) {
    match part
    case OnDay(day, inWindow) => Keyed(g, day, inWindow)
    case Earlier => !g.inWindow
    case _ => false
  }

  /** The groups' share of a day, or of everything before the window. */
  function Share(groups: seq<Group>, part: Part): Totals {
    if groups == [] then ZERO
    else
      var last := groups[|groups| - 1];
      Plus(Share(groups[..|groups| - 1], part), if Picked(last, part) then last.totals else ZERO)
  }

  lemma {:induction false} AddToKeys(groups: seq<Group>, day: int, inWindow: bool, totals: Totals)
    requires DistinctKeys(groups)
    ensures DistinctKeys(AddTo(groups, day, inWindow, totals))
    ensures forall g :: g in AddTo(groups, day, inWindow, totals) && !Keyed(g, day, inWindow) ==> g in groups
  {
    hide Plus;
    if groups != [] {
      var before, last := groups[..|groups| - 1], groups[|groups| - 1];
      if !Keyed(last, day, inWindow) {
        var more := AddTo(before, day, inWindow, totals);
        AddToKeys(before, day, inWindow, totals);
        forall i | 0 <= i < |more|
          ensures !Keyed(more[i], last.day, last.inWindow)
        {
          if !Keyed(more[i], day, inWindow) {
            assert more[i] in before;
          }
        }
      }
    }
  }

  lemma {:induction false} AddToShares(groups: seq<Group>, day: int, inWindow: bool, totals: Totals, part: Part)
    requires part.OnDay? || part.Earlier?
    ensures Share(AddTo(groups, day, inWindow, totals), part) ==
            Plus(Share(groups, part), if Picked(Group(day, inWindow, totals), part) then totals else ZERO)
  {
    hide Plus;
    var more := AddTo(groups, day, inWindow, totals);
    var gain := if Picked(Group(day, inWindow, totals), part) then totals else ZERO;
    if groups == [] {
      assert more[..0] == [];
    } else {
      var before, last := groups[..|groups| - 1], groups[|groups| - 1];
      assert more[..|more| - 1] == if Keyed(last, day, inWindow) then before else AddTo(before, day, inWindow, totals);
      PlusRegroups(Share(before, part), if Picked(last, part) then last.totals else ZERO, gain);
      PlusRegroups(Share(before, part), ZERO, ZERO);
      if !Keyed(last, day, inWindow) {
        AddToShares(before, day, inWindow, totals, part);
      }
    }
  }

  /** The groups have distinct keys, and their shares are the sums over the rows. */
  lemma {:induction false} GroupedShares(usage: seq<Usage>, now: Time, window: nat, part: Part)
    requires part.OnDay? || part.Earlier?
    ensures DistinctKeys(Grouped(usage, now, window))
    ensures Share(Grouped(usage, now, window), part) == Sum(usage, part, now, window)
  {
    hide Plus, DayOf;
    if usage != [] {
      var before, last := usage[..|usage| - 1], usage[|usage| - 1];
      var groups := Grouped(before, now, window);
      GroupedShares(before, now, window, part);
      PlusRegroups(Sum(before, part, now, window), ZERO, ZERO);
      if Fetched(last, now, window) {
        AddToShares(groups, DayOf(last.at), InWindow(last, now, window), last.totals, part);
        AddToKeys(groups, DayOf(last.at), InWindow(last, now, window), last.totals);
      }
    }
  }

  lemma {:induction false} ShareOfNone(groups: seq<Group>, part: Part)
    requires forall g :: g in groups ==> !Picked(g, part)
    ensures Share(groups, part) == ZERO
  {
    if groups != [] {
      ShareOfNone(groups[..|groups| - 1], part);
      assert groups[|groups| - 1] in groups;
    }
  }

  lemma {:induction false} ShareOfOne(groups: seq<Group>, i: nat)
    requires DistinctKeys(groups) && i < |groups|
    ensures Share(groups, OnDay(groups[i].day, groups[i].inWindow)) == groups[i].totals
  {
    hide Plus;
    var n, part := |groups| - 1, OnDay(groups[i].day, groups[i].inWindow);
    PlusRegroups(groups[i].totals, ZERO, ZERO);
    if i < n {
      ShareOfOne(groups[..n], i);
    } else {
      ShareOfNone(groups[..n], part);
    }
  }

  // ---- the curve ----------------------------------------------------------

  datatype DaySpend = DaySpend(day: int, totals: Totals)

  function SumOf(series: seq<DaySpend>): Totals {
    if series == [] then ZERO else Plus(SumOf(series[..|series| - 1]), series[|series| - 1].totals)
  }

  function DayRow(usage: seq<Usage>, now: Time, window: nat, day: int): DaySpend {
    DaySpend(day, Sum(usage, OnDay(day, true), now, window))
  }

  /** Consecutive days from `window` days ago to today, each with its rows in the window. */
  ghost predicate CurveOf(series: seq<DaySpend>, usage: seq<Usage>, now: Time, window: nat) {
    |series| == window + 1 &&
    forall k :: 0 <= k <= window ==> series[k] == DayRow(usage, now, window, DayOf(now) - window + k)
  }

  /** `by_day`, once all groups are read. */
  ghost predicate Collects(byDay: map<int, Totals>, rows: seq<Group>) {
    (forall d :: d in byDay <==> exists k :: 0 <= k < |rows| && Keyed(rows[k], d, true)) &&
    forall k :: 0 <= k < |rows| && rows[k].inWindow ==> rows[k].day in byDay && byDay[rows[k].day] == rows[k].totals
  }

  lemma {:induction false} CollectsOneMore(byDay: map<int, Totals>, rows: seq<Group>, g: Group)
    requires Collects(byDay, rows) && DistinctKeys(rows + [g])
    ensures Collects(if g.inWindow then byDay[g.day := g.totals] else byDay, rows + [g])
  {
    var more := rows + [g];
    var after := if g.inWindow then byDay[g.day := g.totals] else byDay;
    forall d
      ensures d in after <==> exists k :: 0 <= k < |more| && Keyed(more[k], d, true)
    {
      if d in after {
        if d in byDay {
          var k :| 0 <= k < |rows| && Keyed(rows[k], d, true);
          assert more[k] == rows[k];
        } else {
          assert Keyed(more[|rows|], d, true);
        }
      }
      if k :| 0 <= k < |more| && Keyed(more[k], d, true) {
        assert k < |rows| ==> Keyed(rows[k], d, true);
      }
    }
    forall k | 0 <= k < |more| && more[k].inWindow
      ensures more[k].day in after && after[more[k].day] == more[k].totals
    {
      if k < |rows| {
        assert !Keyed(more[k], more[|rows|].day, more[|rows|].inWindow);
        assert more[k] == rows[k];
      }
    }
  }

  lemma {:induction false} CollectedIsSum(byDay: map<int, Totals>, usage: seq<Usage>, now: Time, window: nat, day: int)
    requires Collects(byDay, Grouped(usage, now, window))
    ensures (if day in byDay then byDay[day] else ZERO) == Sum(usage, OnDay(day, true), now, window)
  {
    hide Grouped, Sum, Plus;
    var rows := Grouped(usage, now, window);
    GroupedShares(usage, now, window, OnDay(day, true));
    if day in byDay {
      var k :| 0 <= k < |rows| && Keyed(rows[k], day, true);
      ShareOfOne(rows, k);
    } else {
      ShareOfNone(rows, OnDay(day, true));
    }
  }

  /** `spend_trend`: the curve, and the total of the window before. */
  method SpendTrend(usage: seq<Usage>, now: Time, days: Option<int>)
    returns (window: nat, series: seq<DaySpend>, previous: Totals)
    ensures window == Window(days) && CurveOf(series, usage, now, window)
    ensures previous == Sum(usage, Earlier, now, window)
  {
    hide Grouped, Sum, Plus, DayOf, DistinctKeys, Keyed, Picked;
    window := Window(days);
    var rows := Grouped(usage, now, window);
    GroupedShares(usage, now, window, Earlier);
    var byDay: map<int, Totals> := map[];
    previous := ZERO;
    for i := 0 to |rows|
      invariant previous == Share(rows[..i], Earlier) && Collects(byDay, rows[..i])
    {
      assert rows[..i + 1] == rows[..i] + [rows[i]];
      DistinctPrefix(rows, i + 1);
      CollectsOneMore(byDay, rows[..i], rows[i]);
      EarlierOneMore(rows[..i], rows[i]);
      if rows[i].inWindow {
        byDay := byDay[rows[i].day := rows[i].totals];
      } else {
        previous := Plus(previous, rows[i].totals);
      }
    }
    assert rows[..|rows|] == rows;
    var today := DayOf(now);
    var first := today - window;
    series := [];
    for offset := 0 to window + 1
      invariant |series| == offset
      invariant forall k :: 0 <= k < offset ==> series[k] == DayRow(usage, now, window, DayOf(now) - window + k)
    {
      var day := first + offset;
      CollectedIsSum(byDay, usage, now, window, day);
      series := series + [DaySpend(day, if day in byDay then byDay[day] else ZERO)];
    }
  }

  lemma {:induction false} DistinctPrefix(groups: seq<Group>, n: nat)
    requires DistinctKeys(groups) && n <= |groups|
    ensures DistinctKeys(groups[..n])
  {
  }

  lemma {:induction false} EarlierOneMore(groups: seq<Group>, g: Group)
    ensures Share(groups + [g], Earlier) ==
            if g.inWindow then Share(groups, Earlier) else Plus(Share(groups, Earlier), g.totals)
  {
    hide Plus;
    assert (groups + [g])[..|groups|] == groups;
    PlusRegroups(Share(groups, Earlier), ZERO, ZERO);
  }

  // ---- conservation -------------------------------------------------------

  lemma {:induction false} WindowIsOnTheCurve(u: Usage, now: Time, window: nat)
    requires InWindow(u, now, window)
    ensures DayOf(u.at) >= DayOf(now) - window && Fetched(u, now, window)
  {
    DaysBack(now, window);
    DayMonotonic(now - window * DAY, u.at);
  }

  lemma {:induction false} DayMonotonic(a: Time, b: Time)
    requires a <= b
    ensures DayOf(a) <= DayOf(b)
  {
  }

  lemma {:induction false} DaysBack(now: Time, n: nat)
    ensures DayOf(now - n * DAY) == DayOf(now) - n
  {
    if n > 0 {
      DaysBack(now, n - 1);
      var m := now - (n - 1) * DAY;
      assert now - n * DAY == m - DAY;
      assert DayOf(m - DAY) == DayOf(m) - 1;
    }
  }

  lemma {:induction false} FirstDaysAddUp(series: seq<DaySpend>, usage: seq<Usage>, now: Time, window: nat, n: nat)
    requires CurveOf(series, usage, now, window) && n <= window + 1
    ensures var first := DayOf(now) - window;
            SumOf(series[..n]) == Sum(usage, Days(first, first + n), now, window)
  {
    hide Sum, Plus, DayOf;
    var first := DayOf(now) - window;
    if n == 0 {
      SumOfNone(usage, Days(first, first), now, window);
    } else {
      FirstDaysAddUp(series, usage, now, window, n - 1);
      assert series[..n][..n - 1] == series[..n - 1];
      forall u | u in usage && InWindow(u, now, window)
        ensures Fetched(u, now, window)
      {
        WindowIsOnTheCurve(u, now, window);
      }
      SumSplits(usage, Days(first, first + (n - 1)), OnDay(first + (n - 1), true), Days(first, first + n), now, window);
    }
  }

  /** The curve loses only what is dated after today: with that added, its days add up
      to everything in the window. */
  lemma {:induction false} CurveAddsUp(series: seq<DaySpend>, usage: seq<Usage>, now: Time, window: nat)
    requires CurveOf(series, usage, now, window)
    ensures Sum(usage, WholeWindow, now, window) == Plus(SumOf(series), Sum(usage, Later, now, window))
  {
    hide Sum, Plus, DayOf, SumOf;
    var first := DayOf(now) - window;
    FirstDaysAddUp(series, usage, now, window, window + 1);
    assert series[..window + 1] == series;
    forall u | u in usage && InWindow(u, now, window)
      ensures DayOf(u.at) >= first
    {
      WindowIsOnTheCurve(u, now, window);
    }
    SumSplits(usage, Days(first, first + (window + 1)), Later, WholeWindow, now, window);
  }

  /** With no usage dated after now, the curve and the previous total together hold every
      row of the last two windows exactly once. */
  lemma {:induction false} NothingDroppedOrCountedTwice(series: seq<DaySpend>, usage: seq<Usage>, now: Time,
      window: nat)
    requires CurveOf(series, usage, now, window)
    requires forall u :: u in usage ==> u.at <= now
    ensures SumOf(series) == Sum(usage, WholeWindow, now, window)
    ensures Plus(SumOf(series), Sum(usage, Earlier, now, window)) == Sum(usage, AllFetched, now, window)
  {
    CurveAddsUp(series, usage, now, window);
    PlusRegroups(SumOf(series), ZERO, ZERO);
    forall u | u in usage
      ensures DayOf(u.at) <= DayOf(now) && (InWindow(u, now, window) ==> Fetched(u, now, window))
    {
      DayMonotonic(u.at, now);
      if InWindow(u, now, window) {
        WindowIsOnTheCurve(u, now, window);
      }
    }
    hide Sum, Plus, DayOf, SumOf, CurveOf;
    SumOfNone(usage, Later, now, window);
    SumSplits(usage, WholeWindow, Earlier, AllFetched, now, window);
  }
}
