/** The status breakdown of src/pages/OrderStatus.tsx: the status buckets, the
    filter buttons, the key derived from a bucket's display name, the
    filtered buckets and their total, and the icon/colour lookup. */
module OrderStatusPage {
  import opened Seqs
  import opened Text

  datatype StatusItem = StatusItem(name: string, value: int, color: string, description: string)

  datatype OrderFilter = OrderFilter(id: string, caption: string, count: int)

  /** The five status buckets. */
  const OrderStatusTable: seq<StatusItem> := [
    StatusItem("Delivered", 892, "hsl(152, 69%, 45%)", "Successfully completed orders"),
    StatusItem("In Transit", 186, "hsl(210, 90%, 55%)", "Orders currently being shipped"),
    StatusItem("Pending", 74, "hsl(38, 92%, 50%)", "Orders awaiting processing"),
    StatusItem("Cancelled", 43, "hsl(0, 72%, 51%)", "Orders that were cancelled"),
    StatusItem("Returned", 52, "hsl(280, 65%, 55%)", "Orders that were returned")
  ]

  /** The filter buttons with the counts they display. */
  const OrderFilters: seq<OrderFilter> := [
    OrderFilter("all", "All", 1247),
    OrderFilter("delivered", "Delivered", 892),
    OrderFilter("in-progress", "In Transit", 186),
    OrderFilter("pending", "Pending", 74),
    OrderFilter("cancelled", "Cancelled", 43),
    OrderFilter("returned", "Returned", 52)
  ]

  datatype Icon = CheckCircle2 | Clock | Package | XCircle | AlertCircle

  datatype StatusStyle = StatusStyle(icon: Icon, color: string)

  /** `statusConfig` without the labels, which are not read where it is looked up. */
  const StatusConfig: map<string, StatusStyle> := map[
    "delivered" := StatusStyle(CheckCircle2, "text-success"),
    "in-progress" := StatusStyle(Clock, "text-warning"),
    "pending" := StatusStyle(Package, "text-info"),
    "cancelled" := StatusStyle(XCircle, "text-destructive"),
    "returned" := StatusStyle(AlertCircle, "text-muted-foreground")
  ]

  /** `name.toLowerCase().replace(' ', '-')`: lower-cased, with only the first
      space turned into a hyphen. */
  function StatusKey(name: string): (k: string)
    ensures |k| == |name|
    ensures forall i :: 0 <= i < |k| ==> !IsAsciiUpper(k[i])
    ensures ' ' in Lower(name) ==>
      var i := FirstIndex(Lower(name), ' ');
      k == Lower(name)[..i] + "-" + Lower(name)[i + 1..]
    ensures ' ' !in Lower(name) ==> k == Lower(name)
  {
    var k := ReplaceFirst(Lower(name), ' ', '-');
    forall i | 0 <= i < |k| ensures !IsAsciiUpper(k[i]) {
      if ' ' in Lower(name) && i == FirstIndex(Lower(name), ' ') {
        assert k[i] == '-';
      } else if ' ' in Lower(name) && i < FirstIndex(Lower(name), ' ') {
        assert k[i] == Lower(name)[i];
      } else {
        assert k[i] == Lower(name)[i];
      }
    }
    k
  }

  /** The test `filteredStatusData` applies to a bucket for a filter id other than "all". */
  function KeyMatches(filter: string): StatusItem -> bool
  {
    (item: StatusItem) => StatusKey(item.name) == filter
  }

  /** `filteredStatusData` as written: "all" keeps every bucket, any other id
      keeps the buckets whose derived key equals the id. */
  function FilteredStatusData(items: seq<StatusItem>, filter: string): (r: seq<StatusItem>)
    ensures filter == "all" ==> r == items
    ensures IsSubsequence(r, items)
    ensures filter != "all" ==>
      forall item :: item in r <==> item in items && StatusKey(item.name) == filter
    ensures filter != "all" ==>
      forall item {:trigger multiset(r)[item]} :: multiset(r)[item] ==
        if StatusKey(item.name) == filter then multiset(items)[item] else 0
  {
    if filter == "all" then
      assert IsSubsequence(items, items) by { SubsequenceRefl(items); }
      items
    else
      FilterMembers(items, KeyMatches(filter));
      Filter(items, KeyMatches(filter))
  }

  function Value(item: StatusItem): int
  {
    item.value
  }

  /** The figure above the pie: the sum of `value` over the shown buckets. */
  function Total(items: seq<StatusItem>): int
  {
    Sum(items, Value)
  }

  /** The "all" button's count is the total of every bucket. */
  lemma AllCountIsTotal()
    ensures Total(FilteredStatusData(OrderStatusTable, "all")) == OrderFilters[0].count
  {
  }

  /** `statusConfig[statusKey]?.icon || Package` and `?.color || "text-muted-foreground"`. */
  function StyleFor(key: string): (s: StatusStyle)
    ensures key in StatusConfig ==> s == StatusConfig[key]
    ensures key !in StatusConfig ==> s == StatusStyle(Package, "text-muted-foreground")
  {
    if key in StatusConfig then StatusConfig[key] else StatusStyle(Package, "text-muted-foreground")
  }

  /** Every configured key has an icon of its own; only "pending" uses Package. */
  lemma StyleForKnownKeys(key: string)
    requires key in StatusConfig
    ensures StyleFor(key).icon == Package <==> key == "pending"
  {
  }

  /** The derived key of "In Transit" is not configured: the bucket is shown
      with the fallback icon and colour, not the Clock the table assigns to
      "in-progress". */
  lemma InTransitStyleFallsBack()
    ensures StyleFor(StatusKey("In Transit")) == StatusStyle(Package, "text-muted-foreground")
  {
    var k := StatusKey("In Transit");
    assert |k| == 10;
    assert forall c :: c in StatusConfig ==> |c| != 10;
  }

  /** As written, the "in-progress" button selects no bucket. */
  lemma InProgressSelectsNothing()
    ensures FilteredStatusData(OrderStatusTable, "in-progress") == []
  {
    NoBucketKeyIsInProgress();
  }

  /** As written, the total under the "in-progress" button is 0, although the
      button displays 186. */
  lemma InProgressTotalDisagrees()
    ensures Total(FilteredStatusData(OrderStatusTable, "in-progress")) == 0 < OrderFilters[2].count
  {
    InProgressSelectsNothing();
    assert Total([]) == 0;
    assert OrderFilters[2].count > 0 by { ButtonCountsPositive(); }
  }

  lemma ButtonCountsPositive()
    ensures forall i :: 0 <= i < |OrderFilters| ==> OrderFilters[i].count > 0
  {
  }

  /** The key test for "in-progress" rejects every bucket. */
  lemma NoBucketKeyIsInProgress()
    ensures Filter(OrderStatusTable, KeyMatches("in-progress")) == []
  {
    var t := OrderStatusTable;
    forall x | x in t ensures !KeyMatches("in-progress")(x) {
      var k :| 0 <= k < |t| && t[k] == x;
      BucketKeyIsNotInProgress(k);
    }
    FilterKeepNone(t, KeyMatches("in-progress"));
  }

  /** Every bucket name is shorter than "in-progress", and the key keeps the length. */
  lemma BucketKeyIsNotInProgress(k: nat)
    requires k < |OrderStatusTable|
    ensures !KeyMatches("in-progress")(OrderStatusTable[k])
  {
    var n := OrderStatusTable[k].name;
    assert |n| < 11;
    assert |StatusKey(n)| == |n|;
  }

  /** The label a filter id carries, if the id is one of the buttons. */
  function LabelOf(id: string): (l: Option<string>)
    ensures forall i :: 0 <= i < |OrderFilters| && OrderFilters[i].id == id ==> l == Some(OrderFilters[i].caption)
    ensures l.None? ==> forall i :: 0 <= i < |OrderFilters| ==> OrderFilters[i].id != id
  {
    if id == "all" then Some("All")
    else if id == "delivered" then Some("Delivered")
    else if id == "in-progress" then Some("In Transit")
    else if id == "pending" then Some("Pending")
    else if id == "cancelled" then Some("Cancelled")
    else if id == "returned" then Some("Returned")
    else None
  }

  /** The corrected test: a bucket matches a button whose label is its display name. */
  function LabelMatches(filter: string): StatusItem -> bool
  {
    (item: StatusItem) => Some(item.name) == LabelOf(filter)
  }

  /** The corrected filter: each button selects the bucket it is named after. */
  function FilteredStatusDataByLabel(items: seq<StatusItem>, filter: string): (r: seq<StatusItem>)
    ensures filter == "all" ==> r == items
    ensures IsSubsequence(r, items)
    ensures filter != "all" ==>
      forall item :: item in r <==> item in items && Some(item.name) == LabelOf(filter)
    ensures filter != "all" ==>
      forall item {:trigger multiset(r)[item]} :: multiset(r)[item] ==
        if Some(item.name) == LabelOf(filter) then multiset(items)[item] else 0
  {
    if filter == "all" then
      SubsequenceRefl(items);
      items
    else
      FilterMembers(items, LabelMatches(filter));
      Filter(items, LabelMatches(filter))
  }

  /** With the corrected filter, the total under every button equals the count
      the button displays. */
  lemma CorrectedTotalsMatchButtons()
    ensures forall i :: 0 <= i < |OrderFilters| ==>
      Total(FilteredStatusDataByLabel(OrderStatusTable, OrderFilters[i].id)) == OrderFilters[i].count
  {
    forall i | 0 <= i < |OrderFilters|
      ensures Total(FilteredStatusDataByLabel(OrderStatusTable, OrderFilters[i].id)) == OrderFilters[i].count
    {
      if i == 0 {
        assert Total(OrderStatusTable) == 1247;
      } else {
        ButtonSelectsOne(i);
      }
    }
  }

  /** Button `i` (other than "all") selects exactly bucket `i - 1`. */
  lemma ButtonSelectsOne(i: nat)
    requires 1 <= i < |OrderFilters|
    ensures FilteredStatusDataByLabel(OrderStatusTable, OrderFilters[i].id) == [OrderStatusTable[i - 1]]
    ensures Total(FilteredStatusDataByLabel(OrderStatusTable, OrderFilters[i].id)) == OrderFilters[i].count
  {
    var t := OrderStatusTable;
    var keep := LabelMatches(OrderFilters[i].id);
    forall k | 0 <= k < |t| ensures keep(t[k]) <==> k == i - 1 {
    }
    FilterOfTable(keep, i - 1);
    assert Sum([t[i - 1]], Value) == t[i - 1].value;
  }

  /** Filtering the five buckets with a predicate that holds for exactly one of them. */
  lemma FilterOfTable(keep: StatusItem -> bool, j: nat)
    requires j < |OrderStatusTable|
    requires forall k :: 0 <= k < |OrderStatusTable| ==> (keep(OrderStatusTable[k]) <==> k == j)
    ensures Filter(OrderStatusTable, keep) == [OrderStatusTable[j]]
  {
    var t := OrderStatusTable;
    assert t[1..][1..][1..][1..][1..] == [];
    assert Filter(t[1..][1..][1..][1..], keep) == if j == 4 then [t[4]] else [];
    assert Filter(t[1..][1..][1..], keep) == if j == 3 then [t[3]] else if j == 4 then [t[4]] else [];
    assert Filter(t[1..][1..], keep) == if j == 2 then [t[2]] else if j == 3 then [t[3]] else if j == 4 then [t[4]] else [];
    assert Filter(t[1..], keep) == if j == 1 then [t[1]] else if j == 2 then [t[2]] else if j == 3 then [t[3]] else if j == 4 then [t[4]] else [];
  }

  /** The popover text for a key: `statusDefinitions[statusKey]`, absent for an
      unknown key (the row is then shown without a popover). */
  function DefinitionFor(key: string): (d: Option<string>)
    ensures d.Some? <==> key in StatusConfig
  {
    if key == "delivered" then Some("Delivered Orders")
    else if key == "in-progress" then Some("In Transit Orders")
    else if key == "pending" then Some("Pending Orders")
    else if key == "cancelled" then Some("Cancelled Orders")
    else if key == "returned" then Some("Returned Orders")
    else None
  }
}
