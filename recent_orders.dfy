/** The order list of src/pages/RecentOrders.tsx: a status filter combined
    with a case-insensitive search, and the summary figures over the orders
    that remain. */
module RecentOrdersPage {
  import opened Seqs
  import opened Text
  import opened Rounding

  datatype Order = Order(
    id: string,
    customer: string,
    amount: int,
    profit: int,
    status: string,
    date: string,
    time: string,
    items: int)

  /** The status filter: "all" accepts every order, any other value only the
      orders whose status is exactly that value. */
  predicate MatchesFilter(order: Order, filter: string)
  {
    filter == "all" || order.status == filter
  }

  /** The search: an empty query matches; otherwise the lower-cased query must
      occur in the lower-cased id, customer or status. */
  predicate MatchesSearch(order: Order, query: string)
  {
    query == "" ||
    Contains(Lower(order.id), Lower(query)) ||
    Contains(Lower(order.customer), Lower(query)) ||
    Contains(Lower(order.status), Lower(query))
  }

  /** `filteredOrders`. */
  function FilteredOrders(orders: seq<Order>, filter: string, query: string): (r: seq<Order>)
    ensures IsSubsequence(r, orders)
    ensures forall o :: o in r <==> o in orders && MatchesFilter(o, filter) && MatchesSearch(o, query)
    ensures forall o {:trigger multiset(r)[o]} ::
      multiset(r)[o] == if MatchesFilter(o, filter) && MatchesSearch(o, query) then multiset(orders)[o] else 0
  {
    var keep := (o: Order) => MatchesFilter(o, filter) && MatchesSearch(o, query);
    FilterMembers(orders, keep);
    Filter(orders, keep)
  }

  /** The search ignores ASCII case: queries that lower-case alike select alike. */
  lemma SearchIgnoresCase(order: Order, q1: string, q2: string)
    requires Lower(q1) == Lower(q2)
    ensures MatchesSearch(order, q1) == MatchesSearch(order, q2)
  {
    assert |q1| == |Lower(q1)| == |Lower(q2)| == |q2|;
  }

  /** A query matches an order exactly when it occurs, ignoring case, at some
      position of one of the three searched fields. */
  lemma SearchMeansOccurrence(order: Order, query: string)
    ensures MatchesSearch(order, query) <==>
      exists i :: OccursAt(Lower(order.id), Lower(query), i) ||
                  OccursAt(Lower(order.customer), Lower(query), i) ||
                  OccursAt(Lower(order.status), Lower(query), i)
  {
    ContainsAt(Lower(order.id), Lower(query));
    ContainsAt(Lower(order.customer), Lower(query));
    ContainsAt(Lower(order.status), Lower(query));
    if query == "" {
      assert OccursAt(Lower(order.id), Lower(query), 0);
    }
  }

  /** Filter "all" with an empty search shows every order, in order. */
  lemma {:induction false} NoFilterShowsAll(orders: seq<Order>)
    ensures FilteredOrders(orders, "all", "") == orders
  {
    FilterKeepAll(orders, (o: Order) => MatchesFilter(o, "all") && MatchesSearch(o, ""));
  }

  function Amount(o: Order): int
  {
    o.amount
  }

  function Profit(o: Order): int
  {
    o.profit
  }

  /** `avgOrderValue`: 0 for no orders, else the revenue total divided by the
      order count and rounded to the nearest integer, halves up. */
  function AvgOrderValue(orders: seq<Order>): (v: int)
    ensures orders == [] ==> v == 0
    ensures orders != [] ==>
      |orders| * (2 * v - 1) <= 2 * Sum(orders, Amount) < |orders| * (2 * v + 1)
  {
    if |orders| > 0 then RoundedQuotient(Sum(orders, Amount), |orders|) else 0
  }

  /** The average lies between the smallest and largest order amounts. */
  lemma AvgOrderValueWithin(orders: seq<Order>, lo: int, hi: int)
    requires orders != []
    requires forall o :: o in orders ==> lo <= o.amount <= hi
    ensures lo <= AvgOrderValue(orders) <= hi
  {
    SumBounds(orders, Amount, lo, hi);
    RoundedQuotientWithin(Sum(orders, Amount), |orders|, lo, hi);
  }

  datatype Summary = Summary(totalRevenue: int, totalProfit: int, avgOrderValue: int)

  /** The three summary figures over the filtered orders. */
  function Summarize(orders: seq<Order>, filter: string, query: string): (s: Summary)
    ensures var shown := FilteredOrders(orders, filter, query);
      s.totalRevenue == Sum(shown, Amount) &&
      s.totalProfit == Sum(shown, Profit) &&
      s.avgOrderValue == AvgOrderValue(shown)
  {
    var shown := FilteredOrders(orders, filter, query);
    Summary(Sum(shown, Amount), Sum(shown, Profit), AvgOrderValue(shown))
  }
}
