/** The delivery page of src/pages/DeliveryPerformance.tsx: loading the rows
    (with the built-in city table as fallback), the colour table, the choice
    of partner rows, city rows or all rows, and the figures over that choice. */
module DeliveryPerformancePage {
  import opened Seqs
  import opened GoogleSheet

  datatype DeliveryRow = DeliveryRow(name: string, delivered: int, total: int, percentage: real, color: string)

  /** `deliveryByCities`, shown when nothing is fetched. */
  const DeliveryByCities: seq<DeliveryRow> := [
    DeliveryRow("Karachi", 389, 420, 92.6, "hsl(152, 69%, 45%)"),
    DeliveryRow("Lahore", 312, 350, 89.1, "hsl(210, 90%, 55%)"),
    DeliveryRow("Islamabad", 198, 225, 88.0, "hsl(38, 92%, 50%)"),
    DeliveryRow("Faisalabad", 154, 200, 77.0, "hsl(280, 65%, 55%)"),
    DeliveryRow("Rawalpindi", 142, 180, 78.9, "hsl(340, 75%, 55%)")
  ]

  const DefaultColor := "hsl(0, 72%, 51%)"

  /** The colour table inside `getColorForPartner`. */
  const Colors: map<string, string> := map[
    "TCS" := "hsl(152, 69%, 45%)",
    "PostEx" := "hsl(210, 90%, 55%)",
    "Leopards" := "hsl(38, 92%, 50%)",
    "M&P" := "hsl(280, 65%, 55%)",
    "Karachi" := "hsl(152, 69%, 45%)",
    "Lahore" := "hsl(210, 90%, 55%)",
    "Islamabad" := "hsl(38, 92%, 50%)",
    "Faisalabad" := "hsl(280, 65%, 55%)",
    "Rawalpindi" := "hsl(340, 75%, 55%)"
  ]

  /** `getColorForPartner`: the listed colour, else red. */
  function ColorForPartner(partner: string): (c: string)
    ensures partner in Colors ==> c == Colors[partner]
    ensures partner !in Colors ==> c == DefaultColor
  {
    if partner in Colors then Colors[partner] else DefaultColor
  }

  /** The fallback colour is not in the table, so a row is red exactly when
      its name is not listed. */
  lemma DefaultColorMeansUnlisted(partner: string)
    ensures ColorForPartner(partner) == DefaultColor <==> partner !in Colors
  {
    if partner in Colors {
      assert Colors[partner] != DefaultColor;
    }
  }

  /** The built-in city rows carry the colours the table gives their names. */
  lemma FallbackColorsAgree()
    ensures forall i :: 0 <= i < |DeliveryByCities| ==>
      DeliveryByCities[i].color == ColorForPartner(DeliveryByCities[i].name)
  {
  }

  /** The row transform applied to fetched data: fields copied, colour looked up. */
  function ToRow(item: DeliveryPerformanceData): DeliveryRow
  {
    DeliveryRow(item.partner, item.delivered, item.total, item.percentage, ColorForPartner(item.partner))
  }

  /** `loadDeliveryData`: the fetched rows transformed item by item, or the
      city table when the fetch yields nothing. The fetch catches its own
      errors and yields the empty list, so the page's own catch block ends in
      the same fallback. */
  function LoadDeliveryData(resp: Response): (rows: seq<DeliveryRow>)
    ensures var data := FetchDeliveryPerformanceData(resp);
      && (data == [] ==> rows == DeliveryByCities)
      && (data != [] ==> |rows| == |data|)
      && (data != [] ==> forall i :: 0 <= i < |data| ==>
            && rows[i].name == data[i].partner
            && rows[i].delivered == data[i].delivered
            && rows[i].total == data[i].total
            && rows[i].percentage == data[i].percentage
            && rows[i].color == ColorForPartner(data[i].partner))
  {
    var data := FetchDeliveryPerformanceData(resp);
    if |data| > 0 then seq(|data|, i requires 0 <= i < |data| => ToRow(data[i]))
    else DeliveryByCities
  }

  /** The page never has an empty row list after loading. */
  lemma LoadedDataNonEmpty(resp: Response)
    ensures LoadDeliveryData(resp) != []
    ensures resp.Threw? ==> LoadDeliveryData(resp) == DeliveryByCities
  {
  }

  const KnownPartners: seq<string> := ["TCS", "PostEx", "Leopards", "M&P"]
  const KnownCities: seq<string> := ["Karachi", "Lahore", "Islamabad", "Faisalabad", "Rawalpindi"]

  datatype DeliveryView = Partners | Cities

  function IsPartnerRow(d: DeliveryRow): bool
  {
    d.name in KnownPartners
  }

  function IsCityRow(d: DeliveryRow): bool
  {
    d.name in KnownCities
  }

  /** `currentData`: in the partners view the known-partner rows if there are
      any, in the cities view the known-city rows if there are any, and
      otherwise every row. */
  function CurrentData(view: DeliveryView, rows: seq<DeliveryRow>): (r: seq<DeliveryRow>)
    ensures IsSubsequence(r, rows)
    ensures view == Partners && (exists d :: d in rows && IsPartnerRow(d)) ==>
      forall d {:trigger multiset(r)[d]} :: multiset(r)[d] == if IsPartnerRow(d) then multiset(rows)[d] else 0
    ensures view == Cities && (exists d :: d in rows && IsCityRow(d)) ==>
      forall d {:trigger multiset(r)[d]} :: multiset(r)[d] == if IsCityRow(d) then multiset(rows)[d] else 0
    ensures view == Partners && (exists d :: d in rows && IsPartnerRow(d)) ==>
      forall d :: d in r <==> d in rows && IsPartnerRow(d)
    ensures view == Cities && (exists d :: d in rows && IsCityRow(d)) ==>
      forall d :: d in r <==> d in rows && IsCityRow(d)
    ensures (view == Partners ==> forall d :: d in rows ==> !IsPartnerRow(d)) &&
            (view == Cities ==> forall d :: d in rows ==> !IsCityRow(d)) ==>
      r == rows
  {
    FilterMembers(rows, IsPartnerRow);
    FilterMembers(rows, IsCityRow);
    SubsequenceRefl(rows);
    if view == Partners && exists d :: d in rows && IsPartnerRow(d) then Filter(rows, IsPartnerRow)
    else if view == Cities && exists d :: d in rows && IsCityRow(d) then Filter(rows, IsCityRow)
    else rows
  }

  /** The choice is empty exactly when there are no rows at all. */
  lemma CurrentDataEmpty(view: DeliveryView, rows: seq<DeliveryRow>)
    ensures CurrentData(view, rows) == [] <==> rows == []
  {
    if rows != [] {
      assert rows[0] in rows;
    }
  }

  /** On the built-in table both views show every city row: the partners view
      finds no partner and falls back to all rows. */
  lemma FallbackInBothViews(view: DeliveryView)
    ensures CurrentData(view, DeliveryByCities) == DeliveryByCities
  {
    FallbackRowsAreCities();
    CityRowsShownInBothViews(view, DeliveryByCities);
  }

  /** Rows that are all known cities, and no known partner, are shown whole in
      either view. */
  lemma CityRowsShownInBothViews(view: DeliveryView, rows: seq<DeliveryRow>)
    requires rows != []
    requires forall d :: d in rows ==> IsCityRow(d) && !IsPartnerRow(d)
    ensures CurrentData(view, rows) == rows
  {
    if view == Cities {
      assert rows[0] in rows;
      FilterKeepAll(rows, IsCityRow);
    }
  }

  /** Every built-in row is a known city and none is a known partner. */
  lemma FallbackRowsAreCities()
    ensures forall d :: d in DeliveryByCities ==> IsCityRow(d) && !IsPartnerRow(d)
  {
    forall d | d in DeliveryByCities ensures IsCityRow(d) && !IsPartnerRow(d) {
      var i :| 0 <= i < |DeliveryByCities| && DeliveryByCities[i] == d;
      assert d.name == KnownCities[i];
      assert d.name !in KnownPartners;
    }
  }

  function Delivered(d: DeliveryRow): int
  {
    d.delivered
  }

  function Total(d: DeliveryRow): int
  {
    d.total
  }

  function Failed(d: DeliveryRow): int
  {
    d.total - d.delivered
  }

  function Percentage(d: DeliveryRow): real
  {
    d.percentage
  }

  /** The "Total Deliveries" and "Failed Deliveries" figures. */
  datatype Figures = Figures(totalDeliveries: int, failedDeliveries: int)

  function DeliveryFigures(rows: seq<DeliveryRow>): (f: Figures)
    ensures f.failedDeliveries == Sum(rows, Total) - f.totalDeliveries
    ensures f.totalDeliveries == Sum(rows, Delivered)
  {
    SumDifference(rows, Total, Delivered, Failed);
    Figures(Sum(rows, Delivered), Sum(rows, Failed))
  }

  /** Failed deliveries are never negative when no row delivers more than it
      ships (the page itself does not require this). */
  lemma {:induction false} FailedNonNegative(rows: seq<DeliveryRow>)
    requires forall d :: d in rows ==> d.delivered <= d.total
    ensures DeliveryFigures(rows).failedDeliveries >= 0
  {
    if rows != [] {
      assert rows[0] in rows;
      FailedNonNegative(rows[1..]);
      assert Sum(rows, Failed) == Failed(rows[0]) + Sum(rows[1..], Failed);
    }
  }

  /** `avgDelivery` before formatting: the mean percentage, 0 for no rows. */
  function AvgDelivery(rows: seq<DeliveryRow>): (a: real)
    ensures rows == [] ==> a == 0.0
    ensures rows != [] ==> a * |rows| as real == SumReal(rows, Percentage)
  {
    if |rows| > 0 then SumReal(rows, Percentage) / |rows| as real else 0.0
  }

  /** The mean lies between the lowest and highest row percentage. */
  lemma AvgDeliveryWithin(rows: seq<DeliveryRow>, lo: real, hi: real)
    requires rows != []
    requires forall d :: d in rows ==> lo <= d.percentage <= hi
    ensures lo <= AvgDelivery(rows) <= hi
  {
    SumRealBounds(rows, Percentage, lo, hi);
    var n := |rows| as real;
    var a := AvgDelivery(rows);
    assert a * n == SumReal(rows, Percentage);
    MeanBounds(n, a, lo, hi);
  }

  /** Dividing the bounds n·lo <= a·n <= n·hi by a positive n. */
  lemma MeanBounds(n: real, a: real, lo: real, hi: real)
    requires n > 0.0 && n * lo <= a * n <= n * hi
    ensures lo <= a <= hi
  {
    assert n * (a - lo) >= 0.0 && n * (hi - a) >= 0.0;
  }

  datatype Tier = Excellent | Good | NeedsImprovement

  /** The badge of a row: Excellent from 90, Good from 80, else Needs Improvement. */
  function TierOf(percentage: real): (t: Tier)
    ensures t == Excellent <==> percentage >= 90.0
    ensures t == Good <==> 80.0 <= percentage < 90.0
    ensures t == NeedsImprovement <==> percentage < 80.0
  {
    if percentage >= 90.0 then Excellent else if percentage >= 80.0 then Good else NeedsImprovement
  }

  function Rank(t: Tier): nat
  {
    match t
    case NeedsImprovement => 0
    case Good => 1
    case Excellent => 2
  }

  /** A higher percentage never earns a lower badge. */
  lemma TierMonotone(p: real, q: real)
    requires p <= q
    ensures Rank(TierOf(p)) <= Rank(TierOf(q))
  {
  }
}
