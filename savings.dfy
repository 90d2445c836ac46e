/** The savings engine shared by the spending, dashboard and consultation steps:
    the benchmark table (the same 36 entries in all three of them), the per-task
    savings and the totals over a spending record. Money is an exact `real`. */
module Savings {
  import opened Wrappers
  import Records

  /** The number of entries in `savingsData`. */
  const EntryCount: nat := 36

  /** Entry `i` of `savingsData`, in the order the table lists them: a task
      label and its industry benchmark savings percentage. */
  function Entry(i: nat): (e: (string, nat))
    requires i < EntryCount
  {
    match i
    case 0 => ("Lead Qualification & Scoring", 65)
    case 1 => ("Automated Appointment Scheduling", 80)
    case 2 => ("CRM Data Updates & Management", 70)
    case 3 => ("Email Marketing Automation", 75)
    case 4 => ("Client Follow-up Sequences", 85)
    case 5 => ("Document & Contract Review", 60)
    case 6 => ("Case Research & Analysis", 55)
    case 7 => ("Document Drafting & Review", 50)
    case 8 => ("Client Intake Automation", 70)
    case 9 => ("Appointment Scheduling", 80)
    case 10 => ("Invoice & Billing Management", 75)
    case 11 => ("Client Communication Follow-up", 85)
    case 12 => ("Patient Appointment Scheduling", 80)
    case 13 => ("Medical Record Management", 65)
    case 14 => ("Insurance Verification", 70)
    case 15 => ("Prescription Management", 60)
    case 16 => ("Patient Follow-up Communications", 85)
    case 17 => ("Billing & Claims Processing", 75)
    case 18 => ("Customer Service Chatbots", 70)
    case 19 => ("Inventory Management", 60)
    case 20 => ("Order Processing Automation", 75)
    case 21 => ("Personalized Marketing", 65)
    case 22 => ("Returns & Refunds Processing", 80)
    case 23 => ("Product Recommendation Engine", 55)
    case 24 => ("Quality Control Monitoring", 65)
    case 25 => ("Supply Chain Management", 50)
    case 26 => ("Production Scheduling", 60)
    case 27 => ("Inventory Optimization", 55)
    case 28 => ("Compliance Reporting", 70)
    case 29 => ("Equipment Maintenance Scheduling", 65)
    case 30 => ("Data Entry Automation", 85)
    case 31 => ("Invoice Processing", 80)
    case 32 => ("Tax Preparation Assistance", 60)
    case 33 => ("Client Communication", 75)
    case 34 => ("Report Generation", 70)
    case _ => ("Compliance Monitoring", 65)
  }

  /** Every benchmark lies in [50, 85]. */
  lemma EntriesInRange()
    ensures forall i :: 0 <= i < EntryCount ==> 50 <= Entry(i).1 <= 85
  {
  }

  /** The first entry from position `i` on whose label is `opportunity`, or
      None when no later entry carries it. */
  function LookupFrom(i: nat, opportunity: string): (r: Option<nat>)
    requires i <= EntryCount
    ensures r.Some? ==> 50 <= r.value <= 85
    decreases EntryCount - i
  {
    if i == EntryCount then None
    else if Entry(i).0 == opportunity then EntriesInRange(); Some(Entry(i).1)
    else LookupFrom(i + 1, opportunity)
  }

  /** `savingsData[opportunity]`: the industry benchmark savings percentage for
      a task, `undefined` (None) for a label the table does not list. Every
      listed value lies in [50, 85]. */
  function BenchmarkTable(opportunity: string): (r: Option<nat>)
    ensures r.Some? ==> 50 <= r.value <= 85
  {
    LookupFrom(0, opportunity)
  }

  /** A label that no entry from `i` on carries is not found. */
  lemma {:induction false} LookupMisses(i: nat, opportunity: string)
    requires i <= EntryCount
    requires forall j :: i <= j < EntryCount ==> Entry(j).0 != opportunity
    ensures LookupFrom(i, opportunity) == None
    decreases EntryCount - i
  {
    if i < EntryCount {
      LookupMisses(i + 1, opportunity);
    }
  }

  /** Position `j` holds the first entry labelled `opportunity`, so the
      lookup returns its percentage. */
  lemma {:induction false} LookupFinds(i: nat, j: nat, opportunity: string)
    requires i <= j < EntryCount && Entry(j).0 == opportunity
    requires forall j' :: i <= j' < j ==> Entry(j').0 != opportunity
    ensures LookupFrom(i, opportunity) == Some(Entry(j).1)
    decreases j - i
  {
    if i < j {
      LookupFinds(i + 1, j, opportunity);
    }
  }

  /** The percentage used when a task is not in the table. */
  const DefaultPercentage: nat := 60

  /** `savingsData[opportunity] || 60`. No listed value is 0, so the default
      applies exactly to unlisted labels. */
  function SavingsPercentage(opportunity: string): (p: nat)
    ensures 50 <= p <= 85
    ensures BenchmarkTable(opportunity).None? ==> p == DefaultPercentage
    ensures BenchmarkTable(opportunity).Some? ==> p == BenchmarkTable(opportunity).value
  {
    BenchmarkTable(opportunity).GetOr(DefaultPercentage)
  }

  /** `calculateSavings(opportunity, spending)`: the benchmark share of the
      spending; its properties are `SavingsBounds`. */
  function CalculateSavings(opportunity: string, spending: real): real {
    Share(spending, SavingsPercentage(opportunity))
  }

  /** `spending * percentage / 100`. */
  function Share(spending: real, percentage: nat): real {
    spending * percentage as real / 100.0
  }

  /** Nothing is saved on nothing spent; a positive spending saves a positive
      amount between half of it and 85% of it (the benchmark range), and the
      saving is exactly `percentage` hundredths of the spending. */
  lemma SavingsBounds(opportunity: string, spending: real)
    ensures spending == 0.0 ==> CalculateSavings(opportunity, spending) == 0.0
    ensures spending > 0.0 ==> CalculateSavings(opportunity, spending) > 0.0
    ensures spending >= 0.0 ==>
              spending / 2.0 <= CalculateSavings(opportunity, spending) <= spending * 0.85
    ensures spending < 0.0 ==>
              spending * 0.85 <= CalculateSavings(opportunity, spending) <= spending / 2.0
    ensures CalculateSavings(opportunity, spending) * 100.0 ==
            spending * SavingsPercentage(opportunity) as real
  {
    ShareBounds(spending, SavingsPercentage(opportunity));
  }

  /** A share of a percentage in [50, 85] lies between half of the amount and
      85% of it, on the side of zero the amount is on. */
  lemma ShareBounds(s: real, p: nat)
    requires 50 <= p <= 85
    ensures s == 0.0 ==> Share(s, p) == 0.0
    ensures s > 0.0 ==> Share(s, p) > 0.0
    ensures s >= 0.0 ==> s / 2.0 <= Share(s, p) <= s * 0.85
    ensures s < 0.0 ==> s * 0.85 <= Share(s, p) <= s / 2.0
    ensures Share(s, p) * 100.0 == s * p as real
  {
    if s >= 0.0 {
      NonNegativeBetween(s, p);
    } else {
      NegativeBetween(s, p);
    }
  }

  /** For `a >= 0`, the share lies in [a / 2, a * 0.85]. */
  lemma NonNegativeBetween(a: real, p: nat)
    requires a >= 0.0 && 50 <= p <= 85
    ensures a / 2.0 <= Share(a, p) <= a * 0.85
  {
    var q := p as real;
    var x := a * q;
    assert Share(a, p) == x / 100.0;
    MulNonNegative(a, q - 50.0);
    MulNonNegative(a, 85.0 - q);
    assert a * (q - 50.0) == x - a * 50.0;
    assert a * (85.0 - q) == a * 85.0 - x;
  }

  /** For `a < 0`, the share lies in [a * 0.85, a / 2]. */
  lemma NegativeBetween(a: real, p: nat)
    requires a < 0.0 && 50 <= p <= 85
    ensures a * 0.85 <= Share(a, p) <= a / 2.0
  {
    var q := p as real;
    var x := a * q;
    assert Share(a, p) == x / 100.0;
    MulNonPositive(a, q - 50.0);
    MulNonPositive(a, 85.0 - q);
    assert a * (q - 50.0) == x - a * 50.0;
    assert a * (85.0 - q) == a * 85.0 - x;
  }

  lemma MulNonPositive(a: real, b: real)
    requires a <= 0.0 && b >= 0.0
    ensures a * b <= 0.0
  {
  }

  lemma MulNonNegative(a: real, b: real)
    requires a >= 0.0 && b >= 0.0
    ensures a * b >= 0.0
  {
  }

  lemma DivMonotone(a: real, b: real, c: real)
    requires c > 0.0 && a <= b
    ensures a / c <= b / c
  {
    assert b / c - a / c == (b - a) / c;
  }

  /** `Object.values(spending).reduce((sum, value) => sum + value, 0)`. */
  function TotalSpending(t: seq<(string, real)>): real {
    if t == [] then 0.0 else t[0].1 + TotalSpending(t[1..])
  }

  /** `Object.entries(spending).reduce((sum, [o, s]) => sum + calculateSavings(o, s), 0)`. */
  function TotalSavings(t: seq<(string, real)>): real {
    if t == [] then 0.0 else CalculateSavings(t[0].0, t[0].1) + TotalSavings(t[1..])
  }

  /** Every entry of the record holds a non-negative amount. */
  predicate NonNegative(t: seq<(string, real)>) {
    forall i :: 0 <= i < |t| ==> t[i].1 >= 0.0
  }

  /** The savings share of the spending in percent, defined as 0 when nothing is
      spent instead of dividing by zero. */
  function PercentOfTotal(totalSavings: real, totalSpending: real): (r: real)
    ensures totalSpending <= 0.0 ==> r == 0.0
    ensures totalSpending > 0.0 ==> r * totalSpending == totalSavings * 100.0
  {
    if totalSpending > 0.0 then totalSavings / totalSpending * 100.0 else 0.0
  }

  /** Over non-negative spending the total savings lie between half and 85% of
      the total spending: every benchmark is in [50, 85]. */
  lemma {:induction false} TotalSavingsBounds(t: seq<(string, real)>)
    requires NonNegative(t)
    ensures TotalSpending(t) >= 0.0
    ensures TotalSpending(t) / 2.0 <= TotalSavings(t) <= TotalSpending(t) * 0.85
  {
    if t != [] {
      assert NonNegative(t[1..]) by {
        forall i | 0 <= i < |t[1..]| ensures t[1..][i].1 >= 0.0 { assert t[1..][i] == t[i + 1]; }
      }
      TotalSavingsBounds(t[1..]);
      SavingsBounds(t[0].0, t[0].1);
    }
  }

  /** The average savings percentage over non-negative spending is 0 when
      nothing is spent and otherwise a benchmark-range value in [50, 85]. */
  lemma AverageWithinBenchmarks(t: seq<(string, real)>)
    requires NonNegative(t)
    ensures var p := PercentOfTotal(TotalSavings(t), TotalSpending(t));
            if TotalSpending(t) > 0.0 then 50.0 <= p <= 85.0 else p == 0.0
  {
    TotalSavingsBounds(t);
    var sp, sv := TotalSpending(t), TotalSavings(t);
    if sp > 0.0 {
      var p := PercentOfTotal(sv, sp);
      assert p == sv / sp * 100.0;
      RatioBounds(sv, sp);
    }
  }

  /** A savings total between half and 85% of a positive spending total is
      between 50 and 85 percent of it. */
  lemma RatioBounds(sv: real, sp: real)
    requires sp > 0.0
    requires sp / 2.0 <= sv <= sp * 0.85
    ensures 50.0 <= sv / sp * 100.0 <= 85.0
  {
    DivMonotone(sp / 2.0, sv, sp);
    DivMonotone(sv, sp * 0.85, sp);
    assert (sp / 2.0) / sp == 0.5;
    assert (sp * 0.85) / sp == 0.85;
  }

  /** Appending an entry adds its amount and its savings to the totals. */
  lemma {:induction false} TotalsAppend(t: seq<(string, real)>, k: string, v: real)
    ensures TotalSpending(t + [(k, v)]) == TotalSpending(t) + v
    ensures TotalSavings(t + [(k, v)]) == TotalSavings(t) + CalculateSavings(k, v)
  {
    if t != [] {
      assert (t + [(k, v)])[1..] == t[1..] + [(k, v)];
      TotalsAppend(t[1..], k, v);
    }
  }

  /** Replacing the entry at position `i` by `(k, v)` swaps its amount and its
      savings in the totals. */
  lemma {:induction false} TotalsReplace(t: seq<(string, real)>, i: nat, k: string, v: real)
    requires i < |t|
    ensures TotalSpending(t[i := (k, v)]) == TotalSpending(t) - t[i].1 + v
    ensures TotalSavings(t[i := (k, v)]) ==
            TotalSavings(t) - CalculateSavings(t[i].0, t[i].1) + CalculateSavings(k, v)
  {
    if i > 0 {
      assert t[i := (k, v)][1..] == t[1..][i - 1 := (k, v)];
      TotalsReplace(t[1..], i - 1, k, v);
    }
  }

  /** Writing `v` under key `k` (`{ ...t, [k]: v }`) changes the totals by the
      difference between the new and the old entry for `k`, an absent key
      counting as 0. */
  lemma TotalsAfterSet(t: Records.Table, k: string, v: real)
    ensures TotalSpending(Records.Set(t, k, v)) == TotalSpending(t) - Records.GetOrZero(t, k) + v
    ensures TotalSavings(Records.Set(t, k, v)) ==
            TotalSavings(t) - CalculateSavings(k, Records.GetOrZero(t, k)) + CalculateSavings(k, v)
  {
    match Records.IndexOf(t, k)
    case Some(i) =>
      assert Records.Set(t, k, v) == t[i := (k, v)];
      TotalsReplace(t, i, k, v);
    case None =>
      TotalsAppend(t, k, v);
  }

  /** Neither "Custom Task" nor the catalog label "Property Valuation
      Automation" is a label of the table. */
  lemma Unlisted(opportunity: string)
    requires opportunity == "Custom Task" || opportunity == "Property Valuation Automation"
    ensures BenchmarkTable(opportunity) == None
    ensures SavingsPercentage(opportunity) == DefaultPercentage
  {
    NotInFirstThird(opportunity);
    NotInSecondThird(opportunity);
    NotInLastThird(opportunity);
    LookupMisses(0, opportunity);
  }

  lemma NotInFirstThird(opportunity: string)
    requires opportunity == "Custom Task" || opportunity == "Property Valuation Automation"
    ensures forall j :: 0 <= j < 12 ==> Entry(j).0 != opportunity
  {
  }

  lemma NotInSecondThird(opportunity: string)
    requires opportunity == "Custom Task" || opportunity == "Property Valuation Automation"
    ensures forall j :: 12 <= j < 24 ==> Entry(j).0 != opportunity
  {
  }

  lemma NotInLastThird(opportunity: string)
    requires opportunity == "Custom Task" || opportunity == "Property Valuation Automation"
    ensures forall j :: 24 <= j < EntryCount ==> Entry(j).0 != opportunity
  {
  }

  /** Worked values: 80% on "Patient Appointment Scheduling", the 60% default on
      a label the table lacks. */
  lemma BenchmarkExamples()
    ensures CalculateSavings("Patient Appointment Scheduling", 1000.0) == 800.0
    ensures CalculateSavings("Custom Task", 200.0) == 120.0
  {
    LookupFinds(0, 12, "Patient Appointment Scheduling");
    Unlisted("Custom Task");
  }
}
