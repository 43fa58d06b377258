/** The product ranking of src/pages/TopSellingProducts.tsx: a copy of the
    product list sorted, best first, by the selected key; the totals over it;
    and the delivery badge of each product. */
module TopSellingProductsPage {
  import opened Seqs
  import opened Sorting
  import DeliveryPerformancePage

  datatype Product = Product(
    id: int,
    name: string,
    category: string,
    sold: int,
    revenue: int,
    profit: int,
    rating: real,
    reviews: int,
    deliveryRate: real)

  function DeliveryRate(p: Product): real
  {
    p.deliveryRate
  }

  function ProfitKey(p: Product): real
  {
    p.profit as real
  }

  function RevenueKey(p: Product): real
  {
    p.revenue as real
  }

  function SoldKey(p: Product): real
  {
    p.sold as real
  }

  function RatingKey(p: Product): real
  {
    p.rating
  }

  /** The field the comparator compares for a sort option; any other option
      compares `deliveryRate`, as "delivery" does. */
  function SortKey(sortBy: string): (key: Product -> real)
    ensures sortBy == "profit" ==> forall p :: key(p) == p.profit as real
    ensures sortBy == "revenue" ==> forall p :: key(p) == p.revenue as real
    ensures sortBy == "sold" ==> forall p :: key(p) == p.sold as real
    ensures sortBy == "rating" ==> forall p :: key(p) == p.rating
    ensures sortBy !in {"profit", "revenue", "sold", "rating"} ==> forall p :: key(p) == p.deliveryRate
  {
    match sortBy
    case "profit" => ProfitKey
    case "revenue" => RevenueKey
    case "sold" => SoldKey
    case "rating" => RatingKey
    case _ => DeliveryRate
  }

  /** `sortedProducts`: `[...topProducts].sort((a, b) => key(b) - key(a))`.
      The sort is stable, so products with equal keys keep their order. */
  function SortedProducts(products: seq<Product>, sortBy: string): (r: seq<Product>)
    ensures multiset(r) == multiset(products)
    ensures Descending(r, SortKey(sortBy))
  {
    SortDescending(products, SortKey(sortBy))
  }

  /** For each option the result is non-increasing in the matching field. */
  lemma SortedByField(products: seq<Product>, sortBy: string)
    ensures var r := SortedProducts(products, sortBy);
      forall i, j :: 0 <= i < j < |r| ==>
        && (sortBy == "profit" ==> r[j].profit <= r[i].profit)
        && (sortBy == "revenue" ==> r[j].revenue <= r[i].revenue)
        && (sortBy == "sold" ==> r[j].sold <= r[i].sold)
        && (sortBy == "rating" ==> r[j].rating <= r[i].rating)
        && (sortBy !in {"profit", "revenue", "sold", "rating"} ==> r[j].deliveryRate <= r[i].deliveryRate)
  {
    var r := SortedProducts(products, sortBy);
    forall i, j | 0 <= i < j < |r|
      ensures SortKey(sortBy)(r[j]) <= SortKey(sortBy)(r[i])
    {
    }
  }

  /** Products whose keys tie appear in the order they had in the input. */
  lemma SortedProductsStable(products: seq<Product>, sortBy: string, v: real)
    ensures Filter(SortedProducts(products, sortBy), KeyIs(SortKey(sortBy), v)) ==
            Filter(products, KeyIs(SortKey(sortBy), v))
  {
    SortStable(products, SortKey(sortBy), v);
  }

  /** An option the switch does not list sorts exactly as "delivery". */
  lemma UnknownSortIsDelivery(products: seq<Product>, sortBy: string)
    requires sortBy !in {"delivery", "profit", "revenue", "sold", "rating"}
    ensures SortedProducts(products, sortBy) == SortedProducts(products, "delivery")
  {
  }

  function Revenue(p: Product): int
  {
    p.revenue
  }

  function Profit(p: Product): int
  {
    p.profit
  }

  function Sold(p: Product): int
  {
    p.sold
  }

  datatype Totals = Totals(totalRevenue: int, totalProfit: int, totalSold: int)

  /** `totalRevenue`, `totalProfit` and `totalSold` over the sorted list. */
  function SummaryTotals(products: seq<Product>, sortBy: string): (t: Totals)
    ensures t == Totals(Sum(products, Revenue), Sum(products, Profit), Sum(products, Sold))
  {
    var sorted := SortedProducts(products, sortBy);
    SumPermutation(sorted, products, Revenue);
    SumPermutation(sorted, products, Profit);
    SumPermutation(sorted, products, Sold);
    Totals(Sum(sorted, Revenue), Sum(sorted, Profit), Sum(sorted, Sold))
  }

  /** The totals do not depend on the sort option. */
  lemma TotalsIgnoreSort(products: seq<Product>, a: string, b: string)
    ensures SummaryTotals(products, a) == SummaryTotals(products, b)
  {
  }

  datatype Badge = Success | Warning | Destructive

  /** The delivery badge: success from 90, warning from 80, destructive below. */
  function BadgeOf(deliveryRate: real): (b: Badge)
    ensures b == Success <==> deliveryRate >= 90.0
    ensures b == Warning <==> 80.0 <= deliveryRate < 90.0
    ensures b == Destructive <==> deliveryRate < 80.0
  {
    if deliveryRate >= 90.0 then Success else if deliveryRate >= 80.0 then Warning else Destructive
  }

  /** The badge uses the same thresholds as the delivery page's tiers. */
  lemma BadgeAgreesWithTier(rate: real)
    ensures BadgeOf(rate) == Success <==> DeliveryPerformancePage.TierOf(rate) == DeliveryPerformancePage.Excellent
    ensures BadgeOf(rate) == Warning <==> DeliveryPerformancePage.TierOf(rate) == DeliveryPerformancePage.Good
    ensures BadgeOf(rate) == Destructive <==> DeliveryPerformancePage.TierOf(rate) == DeliveryPerformancePage.NeedsImprovement
  {
  }

  /** Sorted by "delivery", the badges run from success down to destructive. */
  lemma BadgesInDeliveryOrder(products: seq<Product>)
    ensures var r := SortedProducts(products, "delivery");
      forall i, j :: 0 <= i < j < |r| ==> Rank(BadgeOf(r[j].deliveryRate)) <= Rank(BadgeOf(r[i].deliveryRate))
  {
    var r := SortedProducts(products, "delivery");
    forall i, j | 0 <= i < j < |r|
      ensures Rank(BadgeOf(r[j].deliveryRate)) <= Rank(BadgeOf(r[i].deliveryRate))
    {
      assert DeliveryRate(r[j]) <= DeliveryRate(r[i]);
    }
  }

  function Rank(b: Badge): nat
  {
    match b
    case Destructive => 0
    case Warning => 1
    case Success => 2
  }
}
