/** The spending step: writing the amount typed for one task into the spending
    record, the per-task rows shown for the current opportunities, and the
    weekly or monthly annual projection. The live totals and the savings
    percentage are the shared ones in `Savings`. */
module SpendingInput {
  import opened Wrappers
  import opened AppShell
  import Records
  import Savings

  /** `Number.parseFloat(value) || 0`. The parse is a parameter: None stands
      for a failed parse (NaN), which reads as 0. */
  function ParsedOrZero(parsed: Option<real>): (v: real)
    ensures parsed.None? ==> v == 0.0
    ensures parsed.Some? ==> v == parsed.value
  {
    parsed.GetOr(0.0)
  }

  /** `handleSpendingChange(opportunity, value)`: `onUpdate({ spending:
      { ...data.spending, [opportunity]: numValue } })`. Only the entry for
      `opportunity` changes, and the total spending moves by the difference. */
  method HandleSpendingChange(shell: Shell, opportunity: string, parsed: Option<real>)
    requires shell.Valid()
    modifies shell
    ensures shell.Valid() && shell.step == old(shell.step)
    ensures shell.data ==
            old(shell.data).(spending := Records.Set(old(shell.data.spending), opportunity, ParsedOrZero(parsed)))
    ensures Records.Get(shell.data.spending, opportunity) == Some(ParsedOrZero(parsed))
    ensures forall k :: k != opportunity ==>
              Records.Get(shell.data.spending, k) == Records.Get(old(shell.data.spending), k)
    ensures Savings.TotalSpending(shell.data.spending) ==
            Savings.TotalSpending(old(shell.data.spending))
            - Records.GetOrZero(old(shell.data.spending), opportunity) + ParsedOrZero(parsed)
  {
    var amount := ParsedOrZero(parsed);
    Savings.TotalsAfterSet(shell.data.spending, opportunity, amount);
    shell.Update(NoChange.(spending := Some(Records.Set(shell.data.spending, opportunity, amount))));
  }

  /** One row of the input list: the amount entered (`spending[o] || 0`), the
      savings on it and the benchmark percentage shown beside it. */
  datatype SpendingRow = SpendingRow(opportunity: string, spending: real, savings: real, percentage: nat)

  function Row(opportunity: string, t: Records.Table): SpendingRow {
    var amount := Records.GetOrZero(t, opportunity);
    SpendingRow(opportunity, amount, Savings.CalculateSavings(opportunity, amount),
                Savings.SavingsPercentage(opportunity))
  }

  /** `data.aiOpportunities.map(...)`: one row per current opportunity, in
      their order, an amount never entered reading as 0. */
  function Rows(opportunities: seq<string>, t: Records.Table): (r: seq<SpendingRow>)
    ensures |r| == |opportunities|
    ensures forall i :: 0 <= i < |r| ==> r[i].opportunity == opportunities[i]
    ensures forall i :: 0 <= i < |r| ==>
              r[i].spending == Records.GetOrZero(t, opportunities[i]) &&
              r[i].savings == Savings.CalculateSavings(opportunities[i], r[i].spending) &&
              r[i].percentage == Savings.SavingsPercentage(opportunities[i])
  {
    if opportunities == [] then []
    else [Row(opportunities[0], t)] + Rows(opportunities[1..], t)
  }

  /** A row for a task with no entry shows 0 spent and 0 saved; an entered
      non-negative amount shows between half and 85% of it as savings. */
  lemma RowSpec(opportunity: string, t: Records.Table)
    ensures (forall i :: 0 <= i < |t| ==> t[i].0 != opportunity) ==>
              Row(opportunity, t).spending == 0.0 && Row(opportunity, t).savings == 0.0
    ensures Row(opportunity, t).spending >= 0.0 ==>
              Row(opportunity, t).spending / 2.0 <= Row(opportunity, t).savings <= Row(opportunity, t).spending * 0.85
    ensures 50 <= Row(opportunity, t).percentage <= 85
  {
    Savings.SavingsBounds(opportunity, Records.GetOrZero(t, opportunity));
  }

  /** The totals run over every entry of the record, also one the current
      opportunity list no longer shows: an entry of 100 left from an earlier
      niche still counts, with its own 65% benchmark. */
  lemma StaleEntriesCounted()
    ensures Rows([], [("Lead Qualification & Scoring", 100.0)]) == []
    ensures Savings.TotalSpending([("Lead Qualification & Scoring", 100.0)]) == 100.0
    ensures Savings.TotalSavings([("Lead Qualification & Scoring", 100.0)]) == 65.0
  {
  }

  /** The Weekly/Monthly switch; Monthly at first. It relabels the inputs and
      picks the projection factor. */
  datatype InputPeriod = Weekly | Monthly

  const InitialPeriod: InputPeriod := Monthly

  /** The step opens on monthly amounts, projected over twelve months. */
  lemma OpensOnMonthlyAmounts(totalSavings: real)
    ensures AnnualProjection(totalSavings, InitialPeriod) == totalSavings * 12.0
  {
  }

  /** `getTotalSavings() * (period === "weekly" ? 52 : 12)`: the period
      total times the number of such periods in a year. */
  function AnnualProjection(totalSavings: real, period: InputPeriod): real {
    match period
    case Weekly => totalSavings * 52.0
    case Monthly => totalSavings * 12.0
  }

  /** Over non-negative spending the projection is never negative and at most
      the projection of 85% of the spending; the two modes stand in the ratio
      52 : 12 for the same entered total. */
  lemma ProjectionSpec(t: seq<(string, real)>, period: InputPeriod)
    requires Savings.NonNegative(t)
    ensures 0.0 <= AnnualProjection(Savings.TotalSavings(t), period)
    ensures AnnualProjection(Savings.TotalSavings(t), period) <=
            AnnualProjection(Savings.TotalSpending(t) * 0.85, period)
    ensures AnnualProjection(Savings.TotalSavings(t), Weekly) * 12.0 ==
            AnnualProjection(Savings.TotalSavings(t), Monthly) * 52.0
  {
    Savings.TotalSavingsBounds(t);
    var savings, bound := Savings.TotalSavings(t), Savings.TotalSpending(t) * 0.85;
    assert 0.0 <= savings <= bound;
    match period
    case Weekly => assert savings * 52.0 <= bound * 52.0;
    case Monthly => assert savings * 12.0 <= bound * 12.0;
  }
}
