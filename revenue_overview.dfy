/** The revenue summary of src/pages/RevenueOverview.tsx: the monthly or
    quarterly chart rows, the three totals (with JavaScript `||` fallbacks
    for fields a row does not have) and the rounded average order value. */
module RevenueOverviewPage {
  import opened Seqs
  import opened Rounding

  /** A chart row. Monthly rows carry `sales` and no `revenue`; quarterly rows
      carry `revenue` and no `sales`. A field the row does not have is `None`. */
  datatype ChartPoint = ChartPoint(
    name: string,
    revenue: Option<int>,
    sales: Option<int>,
    profit: Option<int>,
    orders: Option<int>,
    growth: real)

  function Month(name: string, sales: int, orders: int, profit: int, growth: real): ChartPoint
  {
    ChartPoint(name, None, Some(sales), Some(profit), Some(orders), growth)
  }

  function Quarter(name: string, revenue: int, profit: int, orders: int, growth: real): ChartPoint
  {
    ChartPoint(name, Some(revenue), None, Some(profit), Some(orders), growth)
  }

  /** `salesData`. */
  const SalesData: seq<ChartPoint> := [
    Month("Jan", 145000, 89, 29000, 5.2),
    Month("Feb", 198000, 124, 39600, 36.6),
    Month("Mar", 167000, 98, 33400, -15.7),
    Month("Apr", 234000, 156, 46800, 40.1),
    Month("May", 189000, 132, 37800, -19.2),
    Month("Jun", 267000, 178, 53400, 41.3),
    Month("Jul", 298000, 195, 59600, 11.6),
    Month("Aug", 245000, 167, 49000, -17.8),
    Month("Sep", 312000, 208, 62400, 27.3),
    Month("Oct", 356000, 234, 71200, 14.1),
    Month("Nov", 389000, 258, 77800, 9.3),
    Month("Dec", 423000, 289, 84600, 8.7)
  ]

  /** `quarterlyData`. */
  const QuarterlyData: seq<ChartPoint> := [
    Quarter("Q1", 510000, 102000, 311, 12.3),
    Quarter("Q2", 690000, 138000, 466, 35.3),
    Quarter("Q3", 855000, 171000, 570, 23.9),
    Quarter("Q4", 1168000, 233600, 781, 36.6)
  ]

  datatype ChartView = Monthly | Quarterly

  /** `chartData`. */
  function ChartData(view: ChartView): (rows: seq<ChartPoint>)
    ensures view == Monthly ==> rows == SalesData
    ensures view == Quarterly ==> rows == QuarterlyData
  {
    if view == Monthly then SalesData else QuarterlyData
  }

  /** `x || d` for a numeric field: a missing or zero value is falsy. */
  function OrElse(x: Option<int>, d: int): int
  {
    if x.Some? && x.value != 0 then x.value else d
  }

  /** `item.revenue || item.sales || 0`. */
  function ItemRevenue(p: ChartPoint): (v: int)
    ensures p.revenue.Some? && p.revenue.value != 0 ==> v == p.revenue.value
    ensures (p.revenue.None? || p.revenue.value == 0) && p.sales.Some? ==> v == p.sales.value
    ensures (p.revenue.None? || p.revenue.value == 0) && p.sales.None? ==> v == 0
  {
    OrElse(p.revenue, OrElse(p.sales, 0))
  }

  /** `item.profit || 0`. */
  function ItemProfit(p: ChartPoint): (v: int)
    ensures p.profit.Some? ==> v == p.profit.value
    ensures p.profit.None? ==> v == 0
  {
    OrElse(p.profit, 0)
  }

  /** `item.orders || 0`. */
  function ItemOrders(p: ChartPoint): (v: int)
    ensures p.orders.Some? ==> v == p.orders.value
    ensures p.orders.None? ==> v == 0
  {
    OrElse(p.orders, 0)
  }

  datatype Summary = Summary(totalRevenue: int, totalProfit: int, totalOrders: int, avgOrderValue: int)

  /** The four summary cards for a chart view's rows. */
  function Summarize(rows: seq<ChartPoint>): (s: Summary)
    ensures s.totalRevenue == Sum(rows, ItemRevenue)
    ensures s.totalProfit == Sum(rows, ItemProfit)
    ensures s.totalOrders == Sum(rows, ItemOrders)
    ensures s.totalOrders <= 0 ==> s.avgOrderValue == 0
    ensures s.totalOrders > 0 ==>
      s.totalOrders * (2 * s.avgOrderValue - 1) <= 2 * s.totalRevenue < s.totalOrders * (2 * s.avgOrderValue + 1)
  {
    var revenue := Sum(rows, ItemRevenue);
    var orders := Sum(rows, ItemOrders);
    var avg := if orders > 0 then RoundedQuotient(revenue, orders) else 0;
    Summary(revenue, Sum(rows, ItemProfit), orders, avg)
  }

  /** If every row's revenue per order lies in [lo, hi], so do the summed
      revenue per summed order. */
  lemma {:induction false} RevenueWithinOrderBounds(rows: seq<ChartPoint>, lo: int, hi: int)
    requires forall p :: p in rows ==> lo * ItemOrders(p) <= ItemRevenue(p) <= hi * ItemOrders(p)
    ensures lo * Sum(rows, ItemOrders) <= Sum(rows, ItemRevenue) <= hi * Sum(rows, ItemOrders)
  {
    if rows != [] {
      assert rows[0] in rows;
      RevenueWithinOrderBounds(rows[1..], lo, hi);
      var o, rest := ItemOrders(rows[0]), Sum(rows[1..], ItemOrders);
      assert lo * (o + rest) == lo * o + lo * rest;
      assert hi * (o + rest) == hi * o + hi * rest;
    }
  }

  /** The average order value lies within the per-row bounds on revenue per order. */
  lemma AvgOrderValueWithin(rows: seq<ChartPoint>, lo: int, hi: int)
    requires forall p :: p in rows ==> lo * ItemOrders(p) <= ItemRevenue(p) <= hi * ItemOrders(p)
    requires Sum(rows, ItemOrders) > 0
    ensures lo <= Summarize(rows).avgOrderValue <= hi
  {
    RevenueWithinOrderBounds(rows, lo, hi);
    var n := Sum(rows, ItemOrders);
    assert n * lo == lo * n && n * hi == hi * n;
    RoundedQuotientWithin(Sum(rows, ItemRevenue), n, lo, hi);
  }

  /** The two views add up to the same figures, because each quarter's row is
      the sum of its three months. */
  lemma ViewsAgree()
    ensures Summarize(ChartData(Monthly)) == Summarize(ChartData(Quarterly))
    ensures Summarize(ChartData(Monthly)) == Summary(3223000, 644600, 2128, 1515)
  {
    QuarterlySummary();
    MonthlySummary();
  }

  lemma QuarterlySummary()
    ensures Summarize(QuarterlyData) == Summary(3223000, 644600, 2128, 1515)
  {
    QuarterlySums();
    RoundedQuotientUnique(3223000, 2128, 1515);
  }

  lemma MonthlySummary()
    ensures Summarize(SalesData) == Summary(3223000, 644600, 2128, 1515)
  {
    MonthsAddUpToQuarters();
    QuarterlySums();
    RoundedQuotientUnique(3223000, 2128, 1515);
  }

  lemma MonthsAddUpToQuarters()
    ensures Sum(SalesData, ItemRevenue) == Sum(QuarterlyData, ItemRevenue)
    ensures Sum(SalesData, ItemProfit) == Sum(QuarterlyData, ItemProfit)
    ensures Sum(SalesData, ItemOrders) == Sum(QuarterlyData, ItemOrders)
  {
    var m, q := SalesData, QuarterlyData;
    forall i | 0 <= i < |q|
      ensures Sum(m[3 * i..3 * i + 3], ItemRevenue) == ItemRevenue(q[i])
      ensures Sum(m[3 * i..3 * i + 3], ItemProfit) == ItemProfit(q[i])
      ensures Sum(m[3 * i..3 * i + 3], ItemOrders) == ItemOrders(q[i])
    {
      QuarterIsItsMonths(i);
    }
    GroupedSums(m, q, ItemRevenue);
    GroupedSums(m, q, ItemProfit);
    GroupedSums(m, q, ItemOrders);
  }

  lemma QuarterlySums()
    ensures Sum(QuarterlyData, ItemRevenue) == 3223000
    ensures Sum(QuarterlyData, ItemProfit) == 644600
    ensures Sum(QuarterlyData, ItemOrders) == 2128
  {
    var q := QuarterlyData;
    assert q[1..][1..][1..][1..] == [];
  }

  /** Quarter `i` adds up its three months. */
  lemma QuarterIsItsMonths(i: nat)
    requires i < |QuarterlyData|
    ensures Sum(SalesData[3 * i..3 * i + 3], ItemRevenue) == ItemRevenue(QuarterlyData[i])
    ensures Sum(SalesData[3 * i..3 * i + 3], ItemProfit) == ItemProfit(QuarterlyData[i])
    ensures Sum(SalesData[3 * i..3 * i + 3], ItemOrders) == ItemOrders(QuarterlyData[i])
  {
    var b := SalesData[3 * i..3 * i + 3];
    assert b == [SalesData[3 * i], SalesData[3 * i + 1], SalesData[3 * i + 2]];
    Sum3(b, ItemRevenue);
    Sum3(b, ItemProfit);
    Sum3(b, ItemOrders);
  }

  lemma Sum3<T>(s: seq<T>, f: T -> int)
    requires |s| == 3
    ensures Sum(s, f) == f(s[0]) + f(s[1]) + f(s[2])
  {
    var t := s[1..];
    var u := t[1..];
    assert u[1..] == [];
    assert Sum(u, f) == f(s[2]) + Sum(u[1..], f);
    assert Sum(t, f) == f(s[1]) + Sum(u, f);
  }

  /** When every consecutive block of three in `m` sums to the matching element
      of `q`, the whole of `m` sums to the whole of `q`. */
  lemma {:induction false} GroupedSums<T>(m: seq<T>, q: seq<T>, f: T -> int)
    requires |m| == 3 * |q|
    requires forall i :: 0 <= i < |q| ==> Sum(m[3 * i..3 * i + 3], f) == f(q[i])
    ensures Sum(m, f) == Sum(q, f)
  {
    if q != [] {
      assert Sum(m[0..3], f) == f(q[0]);
      forall i | 0 <= i < |q[1..]|
        ensures Sum(m[3..][3 * i..3 * i + 3], f) == f(q[1..][i])
      {
        assert m[3..][3 * i..3 * i + 3] == m[3 * (i + 1)..3 * (i + 1) + 3];
      }
      GroupedSums(m[3..], q[1..], f);
      assert m == m[0..3] + m[3..];
      SumAppend(m[0..3], m[3..], f);
    }
  }
}
