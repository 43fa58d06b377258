/** The spreadsheet data layer of src/lib/googlesheet.ts: how the fetch
    functions choose what to return from a parsed response (or a failure),
    and the two product helpers. The HTTP request and JSON parsing are not
    modelled; their outcome is the `Response` parameter. */
module GoogleSheet {
  import opened Seqs

  datatype BasicsData = BasicsData(
    totalRevenue: int,
    totalProfit: int,
    totalOrders: int,
    pendingInprogressOrders: int,
    customers: int)

  datatype TopProduct = TopProduct(
    period: string,
    category: string,
    subcategory: string,
    supplier: string,
    productCode: string,
    product: string,
    productStatus: string,
    totalOrders: int,
    deliveredOrders: int,
    deliveryPercentage: real)

  datatype DeliveryPerformanceData = DeliveryPerformanceData(
    partner: string,
    delivered: int,
    total: int,
    percentage: real)

  /** The `data` member of a parsed response, in the shapes the fetch
      functions tell apart: absent (or otherwise falsy), a basics record,
      or an array of delivery rows. */
  datatype Payload =
    | Absent
    | Record(basics: BasicsData)
    | Rows(rows: seq<DeliveryPerformanceData>)

  /** The outcome of `fetch` followed by `response.json()`. `Threw` stands for
      every exception raised before a field is read: a rejected request, a
      body that is not JSON, a `null` body. For a parsed body, `success` is the
      truthiness of `result.success`, and an absent (falsy) list is `None`. */
  datatype Response =
    | Threw
    | Parsed(
        success: bool,
        data: Payload,
        topProducts: Option<seq<TopProduct>>,
        deliveryPerformance: Option<seq<DeliveryPerformanceData>>)

  datatype SheetData = SheetData(
    basics: Payload,
    topProducts: seq<TopProduct>,
    deliveryPerformance: seq<DeliveryPerformanceData>)

  const ZeroBasics := BasicsData(0, 0, 0, 0, 0)

  /** `fetchSheetData`: a falsy `success` throws into the same handler as a
      failed request, which returns all-zero basics and empty lists. */
  function FetchSheetData(resp: Response): (r: SheetData)
    ensures resp.Threw? || !resp.success ==>
      r.basics == Record(ZeroBasics) && r.topProducts == [] && r.deliveryPerformance == []
    ensures resp.Parsed? && resp.success ==>
      && r.basics == resp.data
      && (resp.topProducts.Some? ==> r.topProducts == resp.topProducts.value)
      && (resp.topProducts.None? ==> r.topProducts == [])
      && (resp.deliveryPerformance.Some? ==> r.deliveryPerformance == resp.deliveryPerformance.value)
      && (resp.deliveryPerformance.None? ==> r.deliveryPerformance == [])
  {
    match resp
    case Threw => SheetData(Record(ZeroBasics), [], [])
    case Parsed(success, data, products, delivery) =>
      if success then SheetData(data, products.GetOr([]), delivery.GetOr([]))
      else SheetData(Record(ZeroBasics), [], [])
  }

  /** `fetchBasicsData`: the basics part of `fetchSheetData`. */
  function FetchBasicsData(resp: Response): (b: Payload)
    ensures resp.Threw? || !resp.success ==> b == Record(ZeroBasics)
    ensures resp.Parsed? && resp.success ==> b == resp.data
  {
    FetchSheetData(resp).basics
  }

  /** On any failure every basics figure is 0. */
  lemma FetchFailureIsZero(resp: Response)
    requires resp.Threw? || !resp.success
    ensures FetchBasicsData(resp).Record?
    ensures var b := FetchBasicsData(resp).basics;
      b.totalRevenue == 0 && b.totalProfit == 0 && b.totalOrders == 0 &&
      b.pendingInprogressOrders == 0 && b.customers == 0
  {
  }

  /** The lists `fetchSheetData` returns come from the response; nothing is invented. */
  lemma FetchSheetDataFromResponse(resp: Response)
    ensures forall p :: p in FetchSheetData(resp).topProducts ==>
      resp.Parsed? && resp.topProducts.Some? && p in resp.topProducts.value
    ensures forall d :: d in FetchSheetData(resp).deliveryPerformance ==>
      resp.Parsed? && resp.deliveryPerformance.Some? && d in resp.deliveryPerformance.value
  {
  }

  /** `fetchDeliveryPerformanceData`: the `deliveryPerformance` list when
      `success` is set and the list is present, else `data` if it is an array,
      else the empty list; the empty list on any exception. */
  function FetchDeliveryPerformanceData(resp: Response): (r: seq<DeliveryPerformanceData>)
    ensures resp.Threw? ==> r == []
    ensures resp.Parsed? && resp.success && resp.deliveryPerformance.Some? ==>
      r == resp.deliveryPerformance.value
    ensures resp.Parsed? && !(resp.success && resp.deliveryPerformance.Some?) ==>
      r == if resp.data.Rows? then resp.data.rows else []
  {
    match resp
    case Threw => []
    case Parsed(success, data, _, delivery) =>
      if success && delivery.Some? then delivery.value
      else if data.Rows? then data.rows
      else []
  }

  /** Where both fetch functions read the `deliveryPerformance` list they agree;
      only `fetchDeliveryPerformanceData` falls back to an array in `data`,
      and it does so even when `success` is falsy. */
  lemma DeliveryFetchesCompared(resp: Response)
    ensures resp.Parsed? && resp.success && resp.deliveryPerformance.Some? ==>
      FetchDeliveryPerformanceData(resp) == FetchSheetData(resp).deliveryPerformance
    ensures resp.Parsed? && !resp.success && resp.data.Rows? ==>
      FetchDeliveryPerformanceData(resp) == resp.data.rows &&
      FetchSheetData(resp).deliveryPerformance == []
  {
  }

  /** `products.filter(p => p.Period === period)`. */
  function FilterProductsByPeriod(products: seq<TopProduct>, period: string): (r: seq<TopProduct>)
    ensures IsSubsequence(r, products)
    ensures forall p {:trigger multiset(r)[p]} ::
      multiset(r)[p] == if p.period == period then multiset(products)[p] else 0
  {
    Filter(products, (p: TopProduct) => p.period == period)
  }

  /** A product is kept exactly when its period equals the key (no case folding). */
  lemma FilterProductsByPeriodMembers(products: seq<TopProduct>, period: string)
    ensures forall p :: p in FilterProductsByPeriod(products, period) <==>
      p in products && p.period == period
    ensures |FilterProductsByPeriod(products, period)| <= |products|
  {
    var r := FilterProductsByPeriod(products, period);
    forall p ensures p in r <==> p in products && p.period == period {
      assert p in r <==> multiset(r)[p] > 0;
      assert p in products <==> multiset(products)[p] > 0;
    }
  }

  /** A key that no product carries selects nothing. */
  lemma {:induction false} FilterProductsByUnknownPeriod(products: seq<TopProduct>, period: string)
    requires forall p :: p in products ==> p.period != period
    ensures FilterProductsByPeriod(products, period) == []
  {
    FilterKeepNone(products, (p: TopProduct) => p.period == period);
  }

  /** `products.map(p => p.Period)`. */
  function Periods(products: seq<TopProduct>): (r: seq<string>)
    ensures |r| == |products|
    ensures forall i :: 0 <= i < |products| ==> r[i] == products[i].period
  {
    seq(|products|, i requires 0 <= i < |products| => products[i].period)
  }

  /** `[...new Set(products.map(p => p.Period))]`. */
  function GetUniquePeriods(products: seq<TopProduct>): (r: seq<string>)
    ensures NoDuplicates(r)
    ensures forall s :: s in r <==> exists i :: 0 <= i < |products| && products[i].period == s
  {
    var all := Periods(products);
    assert forall s :: s in all <==> exists i :: 0 <= i < |products| && products[i].period == s by {
      forall s | s in all ensures exists i :: 0 <= i < |products| && products[i].period == s {
        var i :| 0 <= i < |all| && all[i] == s;
        assert products[i].period == s;
      }
    }
    Distinct(all)
  }

  /** The periods are listed in the order they first occur among the products. */
  lemma UniquePeriodsOrder(products: seq<TopProduct>)
    ensures forall i, j :: 0 <= i < j < |GetUniquePeriods(products)| ==>
      GetUniquePeriods(products)[i] in Periods(products) &&
      GetUniquePeriods(products)[j] in Periods(products) &&
      FirstIndex(Periods(products), GetUniquePeriods(products)[i]) <
      FirstIndex(Periods(products), GetUniquePeriods(products)[j])
  {
    assert GetUniquePeriods(products) == Distinct(Periods(products));
    DistinctFirstOccurrenceOrder(Periods(products));
  }
}
