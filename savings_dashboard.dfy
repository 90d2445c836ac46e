/** The dashboard step: the total shown per day, month or year, the breakdown
    of the entries with positive spending sorted by savings, the opportunity
    count, the annual figure and the widths of the top-six chart. Amounts are
    read as monthly ones. */
module SavingsDashboard {
  import Savings
  import StableSort

  /** The Daily/Monthly/Yearly switch; Monthly at first. */
  datatype ViewPeriod = Daily | Monthly | Yearly

  const InitialView: ViewPeriod := Monthly

  /** The dashboard opens on the monthly view, which shows the total itself. */
  lemma OpensOnMonthlyTotal(monthlySavings: real)
    ensures DisplaySavings(monthlySavings, InitialView) == monthlySavings
  {
  }

  /** `getDisplaySavings()`: the monthly total over 30 days, or times 12. */
  function DisplaySavings(monthlySavings: real, view: ViewPeriod): real {
    match view
    case Daily => monthlySavings / 30.0
    case Yearly => monthlySavings * 12.0
    case Monthly => monthlySavings
  }

  /** The three views show one amount at three scales: thirty days make the
      month, a year is 360 such days, and a non-negative total grows from the
      daily to the yearly view. */
  lemma DisplaySavingsSpec(monthlySavings: real)
    ensures DisplaySavings(monthlySavings, Monthly) == monthlySavings
    ensures DisplaySavings(monthlySavings, Daily) * 30.0 == monthlySavings
    ensures DisplaySavings(monthlySavings, Yearly) == DisplaySavings(monthlySavings, Daily) * 360.0
    ensures monthlySavings >= 0.0 ==>
              0.0 <= DisplaySavings(monthlySavings, Daily) <= DisplaySavings(monthlySavings, Monthly) <=
              DisplaySavings(monthlySavings, Yearly)
  {
  }

  /** One line of `getSavingsBreakdown()`. */
  datatype BreakdownItem = BreakdownItem(opportunity: string, spending: real, savings: real, percentage: nat)

  /** The `map` over `Object.entries(data.spending)`. */
  function Item(entry: (string, real)): BreakdownItem {
    BreakdownItem(entry.0, entry.1, Savings.CalculateSavings(entry.0, entry.1), Savings.SavingsPercentage(entry.0))
  }

  /** `.map(...).filter((item) => item.spending > 0)`, in entry order. */
  function PositiveItems(t: seq<(string, real)>): seq<BreakdownItem> {
    if t == [] then []
    else if t[0].1 > 0.0 then [Item(t[0])] + PositiveItems(t[1..])
    else PositiveItems(t[1..])
  }

  /** The filter keeps entry order: filtering two runs of entries one after
      the other gives the items of the first run, then those of the second. */
  lemma {:induction false} PositiveItemsAppend(t1: seq<(string, real)>, t2: seq<(string, real)>)
    ensures PositiveItems(t1 + t2) == PositiveItems(t1) + PositiveItems(t2)
  {
    if t1 == [] {
      assert t1 + t2 == t2;
    } else {
      assert (t1 + t2)[1..] == t1[1..] + t2;
      PositiveItemsAppend(t1[1..], t2);
    }
  }

  /** The sort key, `item.savings`. */
  function ItemSavings(item: BreakdownItem): real {
    item.savings
  }

  /** `getSavingsBreakdown()`: the positive entries sorted by savings, largest
      first, with the stable order of `Array.prototype.sort`. */
  function SavingsBreakdown(t: seq<(string, real)>): seq<BreakdownItem> {
    StableSort.SortDesc(PositiveItems(t), ItemSavings)
  }

  /** The number of entries with a positive amount. */
  function PositiveCount(t: seq<(string, real)>): nat {
    if t == [] then 0 else (if t[0].1 > 0.0 then 1 else 0) + PositiveCount(t[1..])
  }

  /** The filtered list holds one item per positive entry and nothing else;
      each item carries the savings and the benchmark of its entry, and since
      its spending is positive, so are its savings. */
  lemma {:induction false} PositiveItemsSpec(t: seq<(string, real)>)
    ensures |PositiveItems(t)| == PositiveCount(t)
    ensures forall x :: x in PositiveItems(t) <==> exists i :: 0 <= i < |t| && t[i].1 > 0.0 && x == Item(t[i])
    ensures forall x :: x in PositiveItems(t) ==>
              x.spending > 0.0 && x.savings > 0.0 && 50 <= x.percentage <= 85 &&
              x.savings == Savings.CalculateSavings(x.opportunity, x.spending) &&
              x.percentage == Savings.SavingsPercentage(x.opportunity)
  {
    if t != [] {
      PositiveItemsSpec(t[1..]);
      Savings.SavingsBounds(t[0].0, t[0].1);
      assert forall i :: 0 <= i < |t[1..]| ==> t[1..][i] == t[i + 1];
      forall x ensures x in PositiveItems(t) <==> exists i :: 0 <= i < |t| && t[i].1 > 0.0 && x == Item(t[i]) {
        if exists i :: 0 <= i < |t| && t[i].1 > 0.0 && x == Item(t[i]) {
          var i :| 0 <= i < |t| && t[i].1 > 0.0 && x == Item(t[i]);
          if i > 0 { assert t[1..][i - 1] == t[i]; }
        }
      }
    }
  }

  /** The breakdown is the filtered list rearranged and nothing else: sorted
      by savings from largest to smallest, the same items with the same
      multiplicities, and items with equal savings in their entry order. It
      holds exactly one item per positive entry. */
  lemma BreakdownSpec(t: seq<(string, real)>)
    ensures StableSort.SortedDesc(SavingsBreakdown(t), ItemSavings)
    ensures multiset(SavingsBreakdown(t)) == multiset(PositiveItems(t))
    ensures forall v :: StableSort.WithKey(SavingsBreakdown(t), ItemSavings, v) ==
                        StableSort.WithKey(PositiveItems(t), ItemSavings, v)
    ensures |SavingsBreakdown(t)| == PositiveCount(t)
    ensures forall x :: x in SavingsBreakdown(t) <==> exists i :: 0 <= i < |t| && t[i].1 > 0.0 && x == Item(t[i])
    ensures forall x :: x in SavingsBreakdown(t) ==> x.spending > 0.0 && x.savings > 0.0
  {
    StableSort.SortDescCorrect(PositiveItems(t), ItemSavings);
    PositiveItemsSpec(t);
    forall x ensures x in SavingsBreakdown(t) <==> x in PositiveItems(t) {
      assert x in SavingsBreakdown(t) <==> x in multiset(SavingsBreakdown(t));
    }
  }

  /** The "AI Opportunities" card, `getSavingsBreakdown().length`: the number
      of entries with positive spending. */
  function OpportunityCount(t: seq<(string, real)>): (n: nat)
    ensures n == PositiveCount(t)
  {
    BreakdownSpec(t);
    |SavingsBreakdown(t)|
  }

  /** Over non-negative amounts the breakdown adds up to the total savings:
      an entry of 0 saves nothing, and sorting keeps the sum. */
  lemma {:induction false} BreakdownAddsUp(t: seq<(string, real)>)
    requires Savings.NonNegative(t)
    ensures StableSort.SumKeys(SavingsBreakdown(t), ItemSavings) == Savings.TotalSavings(t)
  {
    StableSort.SortDescCorrect(PositiveItems(t), ItemSavings);
    PositiveItemsAddUp(t);
  }

  lemma {:induction false} PositiveItemsAddUp(t: seq<(string, real)>)
    requires Savings.NonNegative(t)
    ensures StableSort.SumKeys(PositiveItems(t), ItemSavings) == Savings.TotalSavings(t)
  {
    if t != [] {
      assert Savings.NonNegative(t[1..]) by {
        forall i | 0 <= i < |t[1..]| ensures t[1..][i].1 >= 0.0 { assert t[1..][i] == t[i + 1]; }
      }
      PositiveItemsAddUp(t[1..]);
      Savings.SavingsBounds(t[0].0, t[0].1);
    }
  }

  /** The "Annual Savings" card, `getTotalSavings() * 12`. */
  function AnnualSavings(t: seq<(string, real)>): real {
    Savings.TotalSavings(t) * 12.0
  }

  /** The annual card shows what the Yearly view shows. */
  lemma AnnualMatchesYearlyView(t: seq<(string, real)>)
    ensures AnnualSavings(t) == DisplaySavings(Savings.TotalSavings(t), Yearly)
  {
  }

  /** `Math.max(...getSavingsBreakdown().map((i) => i.savings))`. */
  function MaxSavings(items: seq<BreakdownItem>): (m: real)
    requires items != []
    ensures forall i :: 0 <= i < |items| ==> items[i].savings <= m
    ensures exists i :: 0 <= i < |items| && items[i].savings == m
  {
    if |items| == 1 then items[0].savings
    else
      var rest := MaxSavings(items[1..]);
      assert forall i :: 0 < i < |items| ==> items[i] == items[1..][i - 1];
      if items[0].savings >= rest then items[0].savings else rest
  }

  /** The chart shows at most this many breakdown items. */
  const ChartLimit: nat := 6

  /** `(item.savings / maxSavings) * 100` for each item. */
  function Widths(items: seq<BreakdownItem>, maxSavings: real): (w: seq<real>)
    requires maxSavings > 0.0
    ensures |w| == |items|
    ensures forall i :: 0 <= i < |w| ==> w[i] == items[i].savings / maxSavings * 100.0
  {
    if items == [] then [] else [items[0].savings / maxSavings * 100.0] + Widths(items[1..], maxSavings)
  }

  /** The breakdown is sorted and every item in it saves a positive amount. */
  lemma BreakdownShape(t: seq<(string, real)>)
    ensures StableSort.SortedDesc(SavingsBreakdown(t), ItemSavings)
    ensures forall i :: 0 <= i < |SavingsBreakdown(t)| ==> SavingsBreakdown(t)[i].savings > 0.0
  {
    BreakdownSpec(t);
    var b := SavingsBreakdown(t);
    forall i | 0 <= i < |b| ensures b[i].savings > 0.0 { assert b[i] in b; }
  }

  /** The maximum of a list sorted from largest to smallest is its head. */
  lemma MaxOfSorted(items: seq<BreakdownItem>)
    requires items != [] && StableSort.SortedDesc(items, ItemSavings)
    ensures MaxSavings(items) == items[0].savings
  {
    var m := MaxSavings(items);
    var i :| 0 <= i < |items| && items[i].savings == m;
    assert ItemSavings(items[0]) >= ItemSavings(items[i]) || i == 0;
  }

  /** The bar widths of `getSavingsBreakdown().slice(0, 6)`, each relative to
      the largest savings of the whole breakdown, which is positive whenever
      the breakdown is not empty. */
  function ChartWidths(t: seq<(string, real)>): seq<real> {
    var breakdown := SavingsBreakdown(t);
    if breakdown == [] then []
    else
      BreakdownShape(t);
      var shown := if |breakdown| < ChartLimit then |breakdown| else ChartLimit;
      Widths(breakdown[..shown], MaxSavings(breakdown))
  }

  /** A share of a positive maximum, in percent, lies in (0, 100]. */
  lemma WidthBounds(savings: real, maxSavings: real)
    requires 0.0 < savings <= maxSavings
    ensures 0.0 < savings / maxSavings * 100.0 <= 100.0
    ensures savings == maxSavings ==> savings / maxSavings * 100.0 == 100.0
  {
    Savings.DivMonotone(savings, maxSavings, maxSavings);
  }

  /** At most six bars, one per leading breakdown item; the first (largest)
      is 100% wide and every bar lies in (0, 100], each one the item's savings
      as a share of the first item's. */
  lemma ChartWidthsSpec(t: seq<(string, real)>)
    ensures |ChartWidths(t)| == if |SavingsBreakdown(t)| < ChartLimit then |SavingsBreakdown(t)| else ChartLimit
    ensures SavingsBreakdown(t) != [] ==> ChartWidths(t)[0] == 100.0
    ensures forall i :: 0 <= i < |SavingsBreakdown(t)| ==> SavingsBreakdown(t)[i].savings > 0.0
    ensures forall i :: 0 <= i < |ChartWidths(t)| ==>
              0.0 < ChartWidths(t)[i] <= 100.0 &&
              ChartWidths(t)[i] == SavingsBreakdown(t)[i].savings / SavingsBreakdown(t)[0].savings * 100.0
  {
    var b := SavingsBreakdown(t);
    BreakdownShape(t);
    if b != [] {
      MaxOfSorted(b);
      var w := ChartWidths(t);
      forall i | 0 <= i < |w|
        ensures 0.0 < w[i] <= 100.0 && w[i] == b[i].savings / b[0].savings * 100.0
      {
        assert ItemSavings(b[0]) >= ItemSavings(b[i]) || i == 0;
        WidthBounds(b[i].savings, b[0].savings);
      }
      WidthBounds(b[0].savings, b[0].savings);
    }
  }
}
