/** The values the analytics dashboard (src/pages/Index.tsx) derives from the
    loaded sheet before rendering. The sheet record is modelled from the way
    the page reads it: besides `topProducts` it has courier and city delivery
    rows and profit bands. The current-period record comes from a helper
    that is not part of this model, so it is a parameter. */
module IndexPage {
  import opened Seqs
  import opened Sorting
  import opened GoogleSheet

  datatype CourierRow = CourierRow(partner: string, successfulDeliveries: int, totalOrders: int, successRate: real)

  datatype CityRow = CityRow(city: string, successfulDeliveries: int, totalOrders: int, successRate: real)

  /** One profit band row: five figures for each of six date windows. */
  datatype ProfitBand = ProfitBand(
    profitBand: string,
    resellerPay7d: int, moneyEarned7d: int, potentialEarnings7d: int, delivered7d: int, returnedLost7d: int,
    resellerPay30d: int, moneyEarned30d: int, potentialEarnings30d: int, delivered30d: int, returnedLost30d: int,
    resellerPay3m: int, moneyEarned3m: int, potentialEarnings3m: int, delivered3m: int, returnedLost3m: int,
    resellerPay6m: int, moneyEarned6m: int, potentialEarnings6m: int, delivered6m: int, returnedLost6m: int,
    resellerPay1y: int, moneyEarned1y: int, potentialEarnings1y: int, delivered1y: int, returnedLost1y: int,
    resellerPayAll: int, moneyEarnedAll: int, potentialEarningsAll: int, deliveredAll: int, returnedLostAll: int)

  /** The sheet as the dashboard reads it. */
  datatype DashboardData = DashboardData(
    topProducts: seq<TopProduct>,
    deliveryPerformanceCourier: seq<CourierRow>,
    deliveryPerformanceCity: seq<CityRow>,
    profitBand: seq<ProfitBand>)

  /** The date-range ids offered by the range picker. */
  const DateRangeIds: seq<string> := ["7days", "30days", "3months", "6months", "1year", "lifetime"]

  /** The period keys used by the top-products rows. */
  const ProductPeriodKeys: set<string> := {"7_DAYS", "30_DAYS", "3_MONTHS", "6_MONTHS", "1_YEAR", "ALL_TIME"}

  const ProductPeriodTable: map<string, string> := map[
    "7days" := "7_DAYS",
    "30days" := "30_DAYS",
    "3months" := "3_MONTHS",
    "6months" := "6_MONTHS",
    "1year" := "1_YEAR",
    "lifetime" := "ALL_TIME"]

  /** `getProductPeriod`: table lookup, "30_DAYS" for a range the table lacks. */
  function ProductPeriod(range: string): (r: string)
    ensures r in ProductPeriodKeys
    ensures range == "7days" ==> r == "7_DAYS"
    ensures range == "30days" ==> r == "30_DAYS"
    ensures range == "3months" ==> r == "3_MONTHS"
    ensures range == "6months" ==> r == "6_MONTHS"
    ensures range == "1year" ==> r == "1_YEAR"
    ensures range == "lifetime" ==> r == "ALL_TIME"
    ensures range !in DateRangeIds ==> r == "30_DAYS"
  {
    if range in ProductPeriodTable && ProductPeriodTable[range] != "" then ProductPeriodTable[range]
    else "30_DAYS"
  }

  /** Each offered range has its own product period, and an unknown range
      gets the same one as "30days". */
  lemma ProductPeriodTableShape(range: string, other: string)
    ensures range in DateRangeIds && other in DateRangeIds && range != other ==>
      ProductPeriod(range) != ProductPeriod(other)
    ensures range !in DateRangeIds ==> ProductPeriod(range) == ProductPeriod("30days")
  {
  }

  function DeliveryPct(p: TopProduct): real
  {
    p.deliveryPercentage
  }

  /** `filteredProducts`: the products of the selected period, sorted by
      delivery percentage, largest first, at most ten of them; none before
      the sheet has loaded. */
  function FilteredProducts(sheet: Option<DashboardData>, range: string): (r: seq<TopProduct>)
    ensures |r| <= 10
    ensures Descending(r, DeliveryPct)
    ensures forall p :: p in r ==> p.period == ProductPeriod(range)
    ensures sheet.None? ==> r == []
    ensures sheet.Some? ==> multiset(r) <= multiset(sheet.value.topProducts)
  {
    match sheet
    case None => []
    case Some(data) =>
      var candidates := FilterProductsByPeriod(data.topProducts, ProductPeriod(range));
      var r := Take(SortDescending(candidates, DeliveryPct), 10);
      TakeOfSorted(candidates, DeliveryPct, 10);
      FilterProductsByPeriodMembers(data.topProducts, ProductPeriod(range));
      assert forall p :: p in r ==> p in candidates by {
        forall p | p in r ensures p in candidates {
          assert p in multiset(r);
        }
      }
      r
  }

  /** The shown products are the first min(10, n) of the sorted candidates,
      and no candidate left out has a higher delivery percentage than one shown. */
  lemma FilteredProductsAreTheBest(data: DashboardData, range: string)
    ensures var candidates := FilterProductsByPeriod(data.topProducts, ProductPeriod(range));
      var r := FilteredProducts(Some(data), range);
      && |r| == (if |candidates| < 10 then |candidates| else 10)
      && r <= SortDescending(candidates, DeliveryPct)
      && forall x: TopProduct, y: TopProduct :: x in r && y in multiset(candidates) - multiset(r) ==>
           y.deliveryPercentage <= x.deliveryPercentage
  {
    var candidates := FilterProductsByPeriod(data.topProducts, ProductPeriod(range));
    TakeOfSorted(candidates, DeliveryPct, 10);
  }

  /** The five figures of one profit band for one date window. */
  datatype WindowFigures = WindowFigures(resellerPay: int, moneyEarned: int, potentialEarnings: int, delivered: int, returnedLost: int)

  function Figures7d(b: ProfitBand): WindowFigures
  {
    WindowFigures(b.resellerPay7d, b.moneyEarned7d, b.potentialEarnings7d, b.delivered7d, b.returnedLost7d)
  }

  function Figures30d(b: ProfitBand): WindowFigures
  {
    WindowFigures(b.resellerPay30d, b.moneyEarned30d, b.potentialEarnings30d, b.delivered30d, b.returnedLost30d)
  }

  function Figures3m(b: ProfitBand): WindowFigures
  {
    WindowFigures(b.resellerPay3m, b.moneyEarned3m, b.potentialEarnings3m, b.delivered3m, b.returnedLost3m)
  }

  function Figures6m(b: ProfitBand): WindowFigures
  {
    WindowFigures(b.resellerPay6m, b.moneyEarned6m, b.potentialEarnings6m, b.delivered6m, b.returnedLost6m)
  }

  function Figures1y(b: ProfitBand): WindowFigures
  {
    WindowFigures(b.resellerPay1y, b.moneyEarned1y, b.potentialEarnings1y, b.delivered1y, b.returnedLost1y)
  }

  function FiguresAll(b: ProfitBand): WindowFigures
  {
    WindowFigures(b.resellerPayAll, b.moneyEarnedAll, b.potentialEarningsAll, b.deliveredAll, b.returnedLostAll)
  }

  /** `getProfitBandData`: the `switch` on the date range, 30-day figures by default. */
  function ProfitBandData(band: ProfitBand, range: string): (r: WindowFigures)
    ensures range == "7days" ==> r == Figures7d(band)
    ensures range == "30days" ==> r == Figures30d(band)
    ensures range == "3months" ==> r == Figures3m(band)
    ensures range == "6months" ==> r == Figures6m(band)
    ensures range == "1year" ==> r == Figures1y(band)
    ensures range == "lifetime" ==> r == FiguresAll(band)
    ensures range !in DateRangeIds ==> r == Figures30d(band)
    ensures r in {Figures7d(band), Figures30d(band), Figures3m(band), Figures6m(band), Figures1y(band), FiguresAll(band)}
  {
    match range
    case "7days" => Figures7d(band)
    case "30days" => Figures30d(band)
    case "3months" => Figures3m(band)
    case "6months" => Figures6m(band)
    case "1year" => Figures1y(band)
    case "lifetime" => FiguresAll(band)
    case _ => Figures30d(band)
  }

  /** The product-period lookup and the profit-band switch are written
      separately; they pick the same window for every range, known or not. */
  lemma DateRangeChoicesAgree(band: ProfitBand, range: string)
    ensures ProductPeriod(range) == "7_DAYS" ==> ProfitBandData(band, range) == Figures7d(band)
    ensures ProductPeriod(range) == "30_DAYS" ==> ProfitBandData(band, range) == Figures30d(band)
    ensures ProductPeriod(range) == "3_MONTHS" ==> ProfitBandData(band, range) == Figures3m(band)
    ensures ProductPeriod(range) == "6_MONTHS" ==> ProfitBandData(band, range) == Figures6m(band)
    ensures ProductPeriod(range) == "1_YEAR" ==> ProfitBandData(band, range) == Figures1y(band)
    ensures ProductPeriod(range) == "ALL_TIME" ==> ProfitBandData(band, range) == FiguresAll(band)
  {
  }

  /** One bar of the delivery chart. */
  datatype DeliveryRow = DeliveryRow(name: string, delivered: int, total: int, percentage: real, color: string)

  const Palette: seq<string> := ["hsl(152, 69%, 45%)", "hsl(210, 90%, 55%)", "hsl(38, 92%, 50%)", "hsl(280, 65%, 55%)"]

  /** `deliveryDataPartners`: one row per courier; the rate is scaled to a
      percentage and the colours cycle through four; none before loading. */
  function PartnerRows(sheet: Option<DashboardData>): (r: seq<DeliveryRow>)
    ensures sheet.None? ==> r == []
    ensures sheet.Some? ==> |r| == |sheet.value.deliveryPerformanceCourier|
    ensures sheet.Some? ==> forall i :: 0 <= i < |r| ==>
      var c := sheet.value.deliveryPerformanceCourier[i];
      r[i] == DeliveryRow(c.partner, c.successfulDeliveries, c.totalOrders, c.successRate * 100.0, Palette[i % 4])
  {
    match sheet
    case None => []
    case Some(data) =>
      var rows := data.deliveryPerformanceCourier;
      seq(|rows|, i requires 0 <= i < |rows| =>
        DeliveryRow(rows[i].partner, rows[i].successfulDeliveries, rows[i].totalOrders, rows[i].successRate * 100.0, Palette[i % 4]))
  }

  /** `deliveryDataCities`: the same construction over the city rows. */
  function CityRows(sheet: Option<DashboardData>): (r: seq<DeliveryRow>)
    ensures sheet.None? ==> r == []
    ensures sheet.Some? ==> |r| == |sheet.value.deliveryPerformanceCity|
    ensures sheet.Some? ==> forall i :: 0 <= i < |r| ==>
      var c := sheet.value.deliveryPerformanceCity[i];
      r[i] == DeliveryRow(c.city, c.successfulDeliveries, c.totalOrders, c.successRate * 100.0, Palette[i % 4])
  {
    match sheet
    case None => []
    case Some(data) =>
      var rows := data.deliveryPerformanceCity;
      seq(|rows|, i requires 0 <= i < |rows| =>
        DeliveryRow(rows[i].city, rows[i].successfulDeliveries, rows[i].totalOrders, rows[i].successRate * 100.0, Palette[i % 4]))
  }

  datatype DeliveryView = Partners | Cities

  /** `deliveryData`: the rows of the selected view. */
  function DeliveryData(view: DeliveryView, sheet: Option<DashboardData>): (r: seq<DeliveryRow>)
    ensures view == Partners ==> r == PartnerRows(sheet)
    ensures view == Cities ==> r == CityRows(sheet)
  {
    if view == Partners then PartnerRows(sheet) else CityRows(sheet)
  }

  /** Neighbouring bars never share a colour, and colours repeat every four bars. */
  lemma DeliveryColoursCycle(view: DeliveryView, sheet: Option<DashboardData>, i: nat)
    requires i + 1 < |DeliveryData(view, sheet)|
    ensures DeliveryData(view, sheet)[i].color != DeliveryData(view, sheet)[i + 1].color
    ensures i + 4 < |DeliveryData(view, sheet)| ==>
      DeliveryData(view, sheet)[i].color == DeliveryData(view, sheet)[i + 4].color
  {
    var r := DeliveryData(view, sheet);
    assert r[i].color == Palette[i % 4] && r[i + 1].color == Palette[(i + 1) % 4];
    PaletteCycle(i);
    if i + 4 < |r| {
      assert r[i + 4].color == Palette[(i + 4) % 4];
    }
  }

  /** The colour index moves on by one per bar and wraps after four. */
  lemma PaletteCycle(i: nat)
    ensures Palette[i % 4] != Palette[(i + 1) % 4]
    ensures Palette[(i + 4) % 4] == Palette[i % 4]
  {
    assert (i + 4) % 4 == i % 4;
    assert (i + 1) % 4 == if i % 4 == 3 then 0 else i % 4 + 1;
  }

  /** The current-period record; its fields may be absent. */
  datatype PeriodData = PeriodData(avgOrders: Option<real>, pendingOrders: Option<int>)

  /** `Math.round(avgOrders * f) || 0` for f = 0.71, 0.15 and 0.03, computed in
      floating point and taken here as given. */
  datatype ScaledOrders = ScaledOrders(delivered: int, inTransit: int, cancelled: int)

  datatype StatusSlice = StatusSlice(name: string, value: int, color: string)

  /** `currentPeriodData?.pending_orders ?? 0`. */
  function PendingOrders(current: Option<PeriodData>): (n: int)
    ensures current.None? ==> n == 0
    ensures current.Some? && current.value.pendingOrders.None? ==> n == 0
    ensures current.Some? && current.value.pendingOrders.Some? ==> n == current.value.pendingOrders.value
  {
    match current
    case None => 0
    case Some(pd) => pd.pendingOrders.GetOr(0)
  }

  /** `orderStatusData`: four slices in a fixed order; the third is Pending. */
  function OrderStatusData(current: Option<PeriodData>, scaled: ScaledOrders): (r: seq<StatusSlice>)
    ensures |r| == 4
    ensures r[2].name == "Pending" && r[2].value == PendingOrders(current)
  {
    [
      StatusSlice("Delivered", scaled.delivered, "hsl(152, 69%, 45%)"),
      StatusSlice("In Transit", scaled.inTransit, "hsl(210, 90%, 55%)"),
      StatusSlice("Pending", PendingOrders(current), "hsl(38, 92%, 50%)"),
      StatusSlice("Cancelled", scaled.cancelled, "hsl(0, 72%, 51%)")
    ]
  }

  function SliceValue(s: StatusSlice): int
  {
    s.value
  }

  /** `totalOrdersForPie`: the sum of the slice values. */
  function TotalOrdersForPie(slices: seq<StatusSlice>): int
  {
    Sum(slices, SliceValue)
  }

  /** The pie total is the three scaled counts plus the pending count. */
  lemma PieTotal(current: Option<PeriodData>, scaled: ScaledOrders)
    ensures TotalOrdersForPie(OrderStatusData(current, scaled)) ==
      scaled.delivered + scaled.inTransit + PendingOrders(current) + scaled.cancelled
  {
    var s := OrderStatusData(current, scaled);
    assert s == [s[0]] + ([s[1]] + ([s[2]] + [s[3]]));
    SumAppend([s[0]], [s[1]] + ([s[2]] + [s[3]]), SliceValue);
    SumAppend([s[1]], [s[2]] + [s[3]], SliceValue);
    SumAppend([s[2]], [s[3]], SliceValue);
  }
}
