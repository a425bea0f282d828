/**
 * The whole run: load checks, the dense daily series, and for every day and
 * every channel one funnel row and one spend row, day by day in date order
 * and, within a day, in channel order.
 */
module Generator {
  import opened Basics
  import opened Channels
  import opened ChannelAllocation
  import opened Synthesis
  import opened DailyAggregation

  /** The column the input table must carry. */
  const TimestampColumn: string := "order_purchase_timestamp"

  /** The column holding the key whose distinct values are counted per day. */
  const IdColumn: string := "order_id"

  /** The input file as the loader sees it: absent, or a table with its column names and rows. */
  datatype Input = Absent | Table(columns: set<string>, orders: seq<Order>)

  datatype RunError = MissingInput | MissingTimestampColumn | EmptyDateRange | MissingIdColumn

  /** The two output tables. */
  datatype Tables = Tables(funnel: seq<FunnelRow>, spend: seq<SpendRow>)

  /** Monday-based weekday of a day counted from 1970-01-01, which was a Thursday. */
  function Weekday(day: int): (w: int)
    ensures 0 <= w < 7
  {
    (day + 3) % 7
  }

  /**
   * The rows for day `k` of the series and channel `j` of the channel order:
   * the channel's share of the day's purchases, synthesised with the draws
   * of row `5 * k + j`.
   */
  function RowsFor(series: seq<DayTotal>, draws: nat -> Draws, k: nat, j: nat): (r: ChannelDay)
    requires k < |series| && j < 5
    ensures r.funnel.date == series[k].date && r.funnel.channel == All[j]
    ensures r.spend.date == series[k].date && r.spend.channel == All[j]
  {
    var day := series[k];
    AllocationConserves(day.total);
    Synthesize(day.date, All[j], Allocation(day.total)[j], WeekendFactor(Weekday(day.date)), draws(5 * k + j))
  }

  /** The inner loop for day `n`: allocate its purchases and emit one row pair per channel, in order. */
  method EmitDay(series: seq<DayTotal>, draws: nat -> Draws, n: nat) returns (funnel: seq<FunnelRow>, spend: seq<SpendRow>)
    requires n < |series|
    ensures |funnel| == 5 && |spend| == 5
    ensures forall j :: 0 <= j < 5 ==> funnel[j] == RowsFor(series, draws, n, j).funnel
    ensures forall j :: 0 <= j < 5 ==> spend[j] == RowsFor(series, draws, n, j).spend
  {
    ChannelOrder();
    var day := series[n];
    var factor := WeekendFactor(Weekday(day.date));
    var alloc := Allocate(day.total);
    funnel, spend := [], [];
    var j := 0;
    while j < |All|
      invariant 0 <= j <= |All|
      invariant |funnel| == j && |spend| == j
      invariant forall m :: 0 <= m < j ==> funnel[m] == RowsFor(series, draws, n, m).funnel
      invariant forall m :: 0 <= m < j ==> spend[m] == RowsFor(series, draws, n, m).spend
    {
      var rows := Synthesize(day.date, All[j], alloc[j], factor, draws(5 * n + j));
      assert rows == RowsFor(series, draws, n, j);
      funnel := funnel + [rows.funnel];
      spend := spend + [rows.spend];
      j := j + 1;
    }
  }

  /** The tables are date-major: row `5 * k + j` is day `k`, channel `j`, in both tables. */
  ghost predicate IsGrid(series: seq<DayTotal>, draws: nat -> Draws, funnel: seq<FunnelRow>, spend: seq<SpendRow>, days: nat)
    requires days <= |series|
  {
    && |funnel| == 5 * days && |spend| == 5 * days
    && (forall k, j :: 0 <= k < days && 0 <= j < 5 ==> funnel[5 * k + j] == RowsFor(series, draws, k, j).funnel)
    && (forall k, j :: 0 <= k < days && 0 <= j < 5 ==> spend[5 * k + j] == RowsFor(series, draws, k, j).spend)
  }

  lemma GridExtend(series: seq<DayTotal>, draws: nat -> Draws, funnel: seq<FunnelRow>, spend: seq<SpendRow>,
                   n: nat, dayFunnel: seq<FunnelRow>, daySpend: seq<SpendRow>)
    requires n < |series| && IsGrid(series, draws, funnel, spend, n)
    requires |dayFunnel| == 5 && |daySpend| == 5
    requires forall j :: 0 <= j < 5 ==> dayFunnel[j] == RowsFor(series, draws, n, j).funnel
    requires forall j :: 0 <= j < 5 ==> daySpend[j] == RowsFor(series, draws, n, j).spend
    ensures IsGrid(series, draws, funnel + dayFunnel, spend + daySpend, n + 1)
  {
    var f, s := funnel + dayFunnel, spend + daySpend;
    forall k, j | 0 <= k < n + 1 && 0 <= j < 5
      ensures f[5 * k + j] == RowsFor(series, draws, k, j).funnel
      ensures s[5 * k + j] == RowsFor(series, draws, k, j).spend
    {
      if k < n {
        assert f[5 * k + j] == funnel[5 * k + j];
        assert s[5 * k + j] == spend[5 * k + j];
      } else {
        assert f[5 * k + j] == dayFunnel[j];
        assert s[5 * k + j] == daySpend[j];
      }
    }
  }

  /** The outer loop: the row pairs of every day of the series, day after day. */
  method Generate(series: seq<DayTotal>, draws: nat -> Draws) returns (funnel: seq<FunnelRow>, spend: seq<SpendRow>)
    ensures |funnel| == 5 * |series| && |spend| == 5 * |series|
    ensures forall k, j :: 0 <= k < |series| && 0 <= j < 5 ==> funnel[5 * k + j] == RowsFor(series, draws, k, j).funnel
    ensures forall k, j :: 0 <= k < |series| && 0 <= j < 5 ==> spend[5 * k + j] == RowsFor(series, draws, k, j).spend
  {
    funnel, spend := [], [];
    var n := 0;
    while n < |series|
      invariant 0 <= n <= |series|
      invariant IsGrid(series, draws, funnel, spend, n)
    {
      var dayFunnel, daySpend := EmitDay(series, draws, n);
      GridExtend(series, draws, funnel, spend, n, dayFunnel, daySpend);
      funnel := funnel + dayFunnel;
      spend := spend + daySpend;
      n := n + 1;
    }
  }

  /**
   * The program: abort when the input is missing, when it lacks the
   * timestamp column, when no timestamp parses (the date range cannot be
   * built), or when the id column to group on is absent, in that order;
   * otherwise build the series and emit both tables.
   */
  method Run(input: Input, draws: nat -> Draws) returns (r: Result<Tables, RunError>)
    ensures input.Absent? ==> r == Failure(MissingInput)
    ensures input.Table? && TimestampColumn !in input.columns ==> r == Failure(MissingTimestampColumn)
    ensures input.Table? && TimestampColumn in input.columns && ValidDays(input.orders) == {} ==>
      r == Failure(EmptyDateRange)
    ensures input.Table? && TimestampColumn in input.columns && ValidDays(input.orders) != {} ==>
      (IdColumn !in input.columns <==> r == Failure(MissingIdColumn))
    ensures r.Success? <==>
      input.Table? && TimestampColumn in input.columns && IdColumn in input.columns && ValidDays(input.orders) != {}
    ensures r.Success? ==>
      && input.Table?
      && DailySeries(input.orders).Success?
      && var series := DailySeries(input.orders).value;
      && |r.value.funnel| == 5 * |series| && |r.value.spend| == 5 * |series|
      && |series| == series[|series| - 1].date - series[0].date + 1
      && (forall k, j :: 0 <= k < |series| && 0 <= j < 5 ==> r.value.funnel[5 * k + j] == RowsFor(series, draws, k, j).funnel)
      && (forall k, j :: 0 <= k < |series| && 0 <= j < 5 ==> r.value.spend[5 * k + j] == RowsFor(series, draws, k, j).spend)
  {
    if input.Absent? {
      return Failure(MissingInput);
    }
    if TimestampColumn !in input.columns {
      return Failure(MissingTimestampColumn);
    }
    var aggregated := Aggregate(input.orders);
    if aggregated.Failure? {
      return Failure(EmptyDateRange);
    }
    if IdColumn !in input.columns {
      return Failure(MissingIdColumn);
    }
    var series := aggregated.value;
    var funnel, spend := Generate(series, draws);
    r := Success(Tables(funnel, spend));
  }

  /** The five funnel rows of a day carry exactly that day's purchase total between them. */
  lemma DayPurchasesConserved(series: seq<DayTotal>, draws: nat -> Draws, k: nat)
    requires k < |series|
    ensures RowsFor(series, draws, k, 0).funnel.purchases
      + RowsFor(series, draws, k, 1).funnel.purchases
      + RowsFor(series, draws, k, 2).funnel.purchases
      + RowsFor(series, draws, k, 3).funnel.purchases
      + RowsFor(series, draws, k, 4).funnel.purchases
      == series[k].total
  {
    var a := Allocation(series[k].total);
    AllocationConserves(series[k].total);
    SumOfFive(a);
  }

  /** On a day without purchases all five rows have no purchases, leads or sessions. */
  lemma EmptyDayEmptyFunnel(series: seq<DayTotal>, draws: nat -> Draws, k: nat, j: nat)
    requires k < |series| && j < 5 && series[k].total == 0
    ensures var f := RowsFor(series, draws, k, j).funnel;
      f.purchases == 0 && f.leads == 0 && f.sessions == 0
  {
    ZeroTotalAllocatesNothing();
    var day := series[k];
    ZeroPurchasesEmptyFunnel(day.date, All[j], WeekendFactor(Weekday(day.date)), draws(5 * k + j));
  }

  /** The Organic row of every day spends nothing, and no row has negative figures. */
  lemma RowsWellFormed(series: seq<DayTotal>, draws: nat -> Draws, k: nat, j: nat)
    requires k < |series| && j < 5
    ensures var rows := RowsFor(series, draws, k, j);
      && (j == 4 ==> rows.spend.channel == Organic && rows.spend.spend == 0.0)
      && rows.funnel.sessions >= 0 && rows.funnel.leads >= 0 && rows.funnel.purchases >= 0
      && rows.spend.spend >= 0.0
  {
  }
}
