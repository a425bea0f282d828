/**
 * The dense daily purchase series: orders whose timestamp parsed are grouped
 * by calendar day, distinct order ids are counted per day, and the counts are
 * laid out over every day from the earliest to the latest valid day, with
 * zero for days that have no orders.
 */
module DailyAggregation {
  import opened Basics

  /**
   * One input row: its order id and its purchase day, counted in days since
   * 1970-01-01; `None` when the timestamp could not be parsed.
   */
  datatype Order = Order(id: string, day: Option<int>)

  /** One entry of the dense series. */
  datatype DayTotal = DayTotal(date: int, total: nat)

  datatype SeriesError = NoValidTimestamps

  /** The days that carry at least one parsed order. */
  function ValidDays(orders: seq<Order>): set<int>
  {
    set o | o in orders && o.day.Some? :: o.day.value
  }

  /** The distinct order ids purchased on `day`. */
  function IdsOn(orders: seq<Order>, day: int): set<string>
  {
    set o | o in orders && o.day == Some(day) :: o.id
  }

  lemma ValidDaysSnoc(orders: seq<Order>, o: Order)
    ensures ValidDays(orders + [o]) == ValidDays(orders) + (if o.day.Some? then {o.day.value} else {})
  {
    var s := orders + [o];
    forall x | x in s
      ensures x in orders || x == o
    {
    }
  }

  lemma IdsOnSnoc(orders: seq<Order>, o: Order, day: int)
    ensures IdsOn(orders + [o], day) == IdsOn(orders, day) + (if o.day == Some(day) then {o.id} else {})
  {
    var s := orders + [o];
    forall x | x in s
      ensures x in orders || x == o
    {
    }
  }

  /** A day has some order id exactly when it is one of the valid days. */
  lemma IdsOnNonEmptyIffValid(orders: seq<Order>, day: int)
    ensures IdsOn(orders, day) != {} <==> day in ValidDays(orders)
  {
    if day in ValidDays(orders) {
      var o :| o in orders && o.day.Some? && o.day.value == day;
      assert o.id in IdsOn(orders, day);
    }
  }

  /** The earliest valid day, if any. */
  function EarliestDay(orders: seq<Order>): (r: Option<int>)
    ensures r.None? <==> ValidDays(orders) == {}
    ensures r.Some? ==> r.value in ValidDays(orders)
    ensures r.Some? ==> forall day :: day in ValidDays(orders) ==> r.value <= day
    decreases |orders|
  {
    if |orders| == 0 then None
    else
      var init := orders[..|orders| - 1];
      var last := orders[|orders| - 1];
      assert orders == init + [last];
      ValidDaysSnoc(init, last);
      var rest := EarliestDay(init);
      match last.day
      case None => rest
      case Some(day) => if rest.Some? && rest.value <= day then rest else Some(day)
  }

  /** The latest valid day, if any. */
  function LatestDay(orders: seq<Order>): (r: Option<int>)
    ensures r.None? <==> ValidDays(orders) == {}
    ensures r.Some? ==> r.value in ValidDays(orders)
    ensures r.Some? ==> forall day :: day in ValidDays(orders) ==> day <= r.value
    decreases |orders|
  {
    if |orders| == 0 then None
    else
      var init := orders[..|orders| - 1];
      var last := orders[|orders| - 1];
      assert orders == init + [last];
      ValidDaysSnoc(init, last);
      var rest := LatestDay(init);
      match last.day
      case None => rest
      case Some(day) => if rest.Some? && rest.value >= day then rest else Some(day)
  }

  /** `count` consecutive days starting at `first`, each with its number of distinct ids. */
  function Dense(orders: seq<Order>, first: int, count: nat): (s: seq<DayTotal>)
    ensures |s| == count
    ensures forall k :: 0 <= k < count ==> s[k].date == first + k
    ensures forall k :: 0 <= k < count ==> s[k].total == |IdsOn(orders, first + k)|
  {
    if count == 0 then []
    else Dense(orders, first, count - 1) + [DayTotal(first + count - 1, |IdsOn(orders, first + count - 1)|)]
  }

  /**
   * The dense series from the earliest to the latest valid day. Without any
   * valid day there is no date range to build, and the run stops.
   */
  function DailySeries(orders: seq<Order>): (r: Result<seq<DayTotal>, SeriesError>)
    ensures r.Failure? <==> ValidDays(orders) == {}
    ensures r.Success? ==>
      var s := r.value;
      && |s| > 0
      && s[0].date in ValidDays(orders)
      && s[|s| - 1].date in ValidDays(orders)
      && (forall day :: day in ValidDays(orders) ==> s[0].date <= day <= s[|s| - 1].date)
      && (forall k :: 0 <= k < |s| ==> s[k].date == s[0].date + k)
      && (forall k :: 0 <= k < |s| ==> s[k].total == |IdsOn(orders, s[k].date)|)
  {
    match (EarliestDay(orders), LatestDay(orders))
    case (Some(lo), Some(hi)) =>
      Success(Dense(orders, lo, hi - lo + 1))
    case _ => Failure(NoValidTimestamps)
  }

  /** A day of the series counts zero exactly when no valid order falls on it. */
  lemma ZeroExactlyOnEmptyDays(orders: seq<Order>, k: int)
    requires DailySeries(orders).Success?
    requires 0 <= k < |DailySeries(orders).value|
    ensures DailySeries(orders).value[k].total == 0 <==> DailySeries(orders).value[k].date !in ValidDays(orders)
  {
    IdsOnNonEmptyIffValid(orders, DailySeries(orders).value[k].date);
  }

  /** The rows whose timestamp parsed, in their original order. */
  function Parsed(orders: seq<Order>): (r: seq<Order>)
    ensures forall o :: o in r <==> o in orders && o.day.Some?
    ensures forall o :: multiset(r)[o] == (if o.day.Some? then multiset(orders)[o] else 0)
  {
    if |orders| == 0 then []
    else
      var rest := Parsed(orders[1..]);
      assert orders == [orders[0]] + orders[1..];
      assert multiset(orders) == multiset{orders[0]} + multiset(orders[1..]);
      if orders[0].day.Some? then
        assert multiset([orders[0]] + rest) == multiset{orders[0]} + multiset(rest);
        [orders[0]] + rest
      else rest
  }

  /** Filtering a concatenation filters each part in place: kept rows stay in their original order. */
  lemma {:induction false} ParsedKeepsOrder(a: seq<Order>, b: seq<Order>)
    ensures Parsed(a + b) == Parsed(a) + Parsed(b)
    decreases |a|
  {
    if |a| == 0 {
      assert a + b == b;
    } else {
      assert (a + b)[1..] == a[1..] + b;
      ParsedKeepsOrder(a[1..], b);
    }
  }

  /** The first and last valid day depend only on the set of valid days. */
  lemma RangeDependsOnlyOnDays(a: seq<Order>, b: seq<Order>)
    requires ValidDays(a) == ValidDays(b)
    ensures EarliestDay(a) == EarliestDay(b) && LatestDay(a) == LatestDay(b)
  {
    var ea, eb := EarliestDay(a), EarliestDay(b);
    var la, lb := LatestDay(a), LatestDay(b);
    if ea.Some? {
      assert ea.value <= eb.value && eb.value <= ea.value;
      assert la.value <= lb.value && lb.value <= la.value;
    }
  }

  lemma DenseDependsOnlyOnIds(a: seq<Order>, b: seq<Order>, first: int, count: nat)
    requires forall day :: IdsOn(a, day) == IdsOn(b, day)
    ensures Dense(a, first, count) == Dense(b, first, count)
  {
    var sa, sb := Dense(a, first, count), Dense(b, first, count);
    forall k | 0 <= k < count
      ensures sa[k] == sb[k]
    {
      assert IdsOn(a, first + k) == IdsOn(b, first + k);
    }
  }

  /** Two order tables with the same valid days and ids per day give the same series. */
  lemma SeriesDependsOnlyOnIdsPerDay(a: seq<Order>, b: seq<Order>)
    requires ValidDays(a) == ValidDays(b)
    requires forall day :: IdsOn(a, day) == IdsOn(b, day)
    ensures DailySeries(a) == DailySeries(b)
  {
    RangeDependsOnlyOnDays(a, b);
    var ea, la := EarliestDay(a), LatestDay(a);
    if ea.Some? {
      DenseDependsOnlyOnIds(a, b, ea.value, la.value - ea.value + 1);
    }
  }

  /** Rows with unparseable timestamps change nothing: neither the range nor any count. */
  lemma UnparsedRowsIgnored(orders: seq<Order>)
    ensures DailySeries(Parsed(orders)) == DailySeries(orders)
  {
    var p := Parsed(orders);
    assert ValidDays(p) == ValidDays(orders);
    forall day
      ensures IdsOn(p, day) == IdsOn(orders, day)
    {
    }
    SeriesDependsOnlyOnIdsPerDay(p, orders);
  }

  /** Distinct ids per valid day, with the first and last valid day. */
  datatype Groups = Groups(ids: map<int, set<string>>, first: Option<int>, last: Option<int>)

  /** The groups of a prefix of the table. */
  ghost predicate GroupsOf(orders: seq<Order>, g: Groups)
  {
    && g.ids.Keys == ValidDays(orders)
    && (forall day :: day in g.ids ==> g.ids[day] == IdsOn(orders, day))
    && g.first == EarliestDay(orders)
    && g.last == LatestDay(orders)
  }

  /** Adding one row to the groups of a table gives the groups of the extended table. */
  function AddRow(g: Groups, o: Order): Groups
  {
    match o.day
    case None => g
    case Some(day) =>
      var ids := if day in g.ids then g.ids[day] else {};
      Groups(
        g.ids[day := ids + {o.id}],
        if g.first.Some? && g.first.value <= day then g.first else Some(day),
        if g.last.Some? && g.last.value >= day then g.last else Some(day))
  }

  lemma AddRowKeepsGroups(orders: seq<Order>, g: Groups, o: Order)
    requires GroupsOf(orders, g)
    ensures GroupsOf(orders + [o], AddRow(g, o))
  {
    var s := orders + [o];
    var g' := AddRow(g, o);
    assert s[..|s| - 1] == orders && s[|s| - 1] == o;
    assert g'.first == EarliestDay(s) && g'.last == LatestDay(s);
    ValidDaysSnoc(orders, o);
    assert g'.ids.Keys == ValidDays(s);
    forall day | day in g'.ids
      ensures g'.ids[day] == IdsOn(s, day)
    {
      IdsOnSnoc(orders, o, day);
      if o.day == Some(day) {
        IdsOnNonEmptyIffValid(orders, day);
      }
    }
  }

  /** `groupby(day).nunique()` with the minimum and maximum day, in one pass over the rows. */
  method GroupByDay(orders: seq<Order>) returns (g: Groups)
    ensures g.ids.Keys == ValidDays(orders)
    ensures forall day :: day in g.ids ==> g.ids[day] == IdsOn(orders, day)
    ensures g.first == EarliestDay(orders) && g.last == LatestDay(orders)
  {
    g := Groups(map[], None, None);
    var i := 0;
    while i < |orders|
      invariant 0 <= i <= |orders|
      invariant GroupsOf(orders[..i], g)
    {
      assert orders[..i + 1] == orders[..i] + [orders[i]];
      AddRowKeepsGroups(orders[..i], g, orders[i]);
      g := AddRow(g, orders[i]);
      i := i + 1;
    }
    assert orders[..|orders|] == orders;
  }

  /** `reindex(all_dates, fill_value=0)`: one entry per day from `first` to `last`, zero where no group exists. */
  method Reindex(orders: seq<Order>, g: Groups, first: int, last: int) returns (series: seq<DayTotal>)
    requires first <= last
    requires g.ids.Keys == ValidDays(orders)
    requires forall day :: day in g.ids ==> g.ids[day] == IdsOn(orders, day)
    ensures series == Dense(orders, first, last - first + 1)
  {
    series := [];
    var date := first;
    while date <= last
      invariant first <= date <= last + 1
      invariant series == Dense(orders, first, date - first)
    {
      IdsOnNonEmptyIffValid(orders, date);
      var count := if date in g.ids then |g.ids[date]| else 0;
      series := series + [DayTotal(date, count)];
      date := date + 1;
    }
  }

  /**
   * The aggregation as the script does it: `groupby(day).nunique()`, then
   * `reindex` over the full range from the first to the last day, filling
   * days without a group with zero.
   */
  method Aggregate(orders: seq<Order>) returns (r: Result<seq<DayTotal>, SeriesError>)
    ensures r == DailySeries(orders)
  {
    var g := GroupByDay(orders);
    if g.first.None? || g.last.None? {
      return Failure(NoValidTimestamps);
    }
    var series := Reindex(orders, g, g.first.value, g.last.value);
    r := Success(series);
  }
}
