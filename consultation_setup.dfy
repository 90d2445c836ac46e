/** The consultation step: the current opportunities with positive spending
    sorted by savings, the toggle that adds or removes a focus area, the
    savings of the selected areas and the booking summary. */
module ConsultationSetup {
  import opened Wrappers
  import opened AppShell
  import Records
  import Savings
  import StableSort
  import AiOpportunities

  /** One candidate area: the amount entered for it and the savings on it. */
  datatype AreaItem = AreaItem(opportunity: string, spending: real, savings: real)

  /** `{ opportunity, spending: spending[o] || 0, savings: calculateSavings(...) }`. */
  function AreaOf(opportunity: string, t: Records.Table): AreaItem {
    var amount := Records.GetOrZero(t, opportunity);
    AreaItem(opportunity, amount, Savings.CalculateSavings(opportunity, amount))
  }

  /** `data.aiOpportunities.map(...).filter((item) => item.spending > 0)`. */
  function CandidateAreas(opportunities: seq<string>, t: Records.Table): seq<AreaItem> {
    if opportunities == [] then []
    else if Records.GetOrZero(t, opportunities[0]) > 0.0
    then [AreaOf(opportunities[0], t)] + CandidateAreas(opportunities[1..], t)
    else CandidateAreas(opportunities[1..], t)
  }

  /** The sort key, `item.savings`. */
  function AreaSavings(item: AreaItem): real {
    item.savings
  }

  /** `getOpportunitiesWithSavings()`: the candidates sorted by savings,
      largest first, ties in opportunity order. */
  function OpportunitiesWithSavings(opportunities: seq<string>, t: Records.Table): seq<AreaItem> {
    StableSort.SortDesc(CandidateAreas(opportunities, t), AreaSavings)
  }

  /** There are no more candidates than opportunities. */
  lemma {:induction false} CandidateAreasLength(opportunities: seq<string>, t: Records.Table)
    ensures |CandidateAreas(opportunities, t)| <= |opportunities|
  {
    if opportunities != [] {
      CandidateAreasLength(opportunities[1..], t);
    }
  }

  /** The candidates are the current opportunities with a positive amount,
      each with its amount and savings, and nothing else. */
  lemma {:induction false} CandidateAreasSpec(opportunities: seq<string>, t: Records.Table)
    ensures forall x :: x in CandidateAreas(opportunities, t) <==>
              x.opportunity in opportunities && Records.GetOrZero(t, x.opportunity) > 0.0 &&
              x == AreaOf(x.opportunity, t)
  {
    if opportunities != [] {
      var head := opportunities[0];
      var tail := opportunities[1..];
      CandidateAreasSpec(tail, t);
      assert opportunities == [head] + tail;
      forall x
        ensures x in CandidateAreas(opportunities, t) <==>
                x.opportunity in opportunities && Records.GetOrZero(t, x.opportunity) > 0.0 &&
                x == AreaOf(x.opportunity, t)
      {
        assert x.opportunity in opportunities <==> x.opportunity == head || x.opportunity in tail;
      }
    }
  }

  /** The candidates keep opportunity order: the candidates of two runs of
      opportunities one after the other are those of the first run, then those
      of the second. */
  lemma {:induction false} CandidateAreasAppend(o1: seq<string>, o2: seq<string>, t: Records.Table)
    ensures CandidateAreas(o1 + o2, t) == CandidateAreas(o1, t) + CandidateAreas(o2, t)
  {
    if o1 == [] {
      assert o1 + o2 == o2;
    } else {
      assert (o1 + o2)[1..] == o1[1..] + o2;
      CandidateAreasAppend(o1[1..], o2, t);
    }
  }

  /** Every candidate has a positive amount and so positive savings. */
  lemma {:induction false} CandidatesSavePositive(opportunities: seq<string>, t: Records.Table)
    ensures forall x :: x in CandidateAreas(opportunities, t) ==> x.spending > 0.0 && x.savings > 0.0
  {
    if opportunities != [] {
      CandidatesSavePositive(opportunities[1..], t);
      Savings.SavingsBounds(opportunities[0], Records.GetOrZero(t, opportunities[0]));
    }
  }

  /** The list offered on the consultation step is the candidate list
      rearranged and nothing else: sorted by savings from largest to
      smallest, the same items with the same multiplicities, equal savings in
      opportunity order; so every listed item is a current opportunity with a
      positive amount, and there are at most as many as opportunities. */
  lemma OpportunitiesWithSavingsSpec(opportunities: seq<string>, t: Records.Table)
    ensures StableSort.SortedDesc(OpportunitiesWithSavings(opportunities, t), AreaSavings)
    ensures multiset(OpportunitiesWithSavings(opportunities, t)) == multiset(CandidateAreas(opportunities, t))
    ensures forall v :: StableSort.WithKey(OpportunitiesWithSavings(opportunities, t), AreaSavings, v) ==
                        StableSort.WithKey(CandidateAreas(opportunities, t), AreaSavings, v)
    ensures |OpportunitiesWithSavings(opportunities, t)| <= |opportunities|
    ensures forall x :: x in OpportunitiesWithSavings(opportunities, t) <==>
              x.opportunity in opportunities && Records.GetOrZero(t, x.opportunity) > 0.0 &&
              x == AreaOf(x.opportunity, t)
    ensures forall x :: x in OpportunitiesWithSavings(opportunities, t) ==> x.spending > 0.0 && x.savings > 0.0
  {
    StableSort.SortDescCorrect(CandidateAreas(opportunities, t), AreaSavings);
    CandidateAreasLength(opportunities, t);
    CandidateAreasSpec(opportunities, t);
    CandidatesSavePositive(opportunities, t);
    forall x ensures x in OpportunitiesWithSavings(opportunities, t) <==> x in CandidateAreas(opportunities, t) {
      assert x in OpportunitiesWithSavings(opportunities, t) <==> x in multiset(OpportunitiesWithSavings(opportunities, t));
    }
  }

  /** `current.filter((area) => area !== opportunity)`. */
  function RemoveAll(areas: seq<string>, area: string): seq<string> {
    if areas == [] then []
    else if areas[0] == area then RemoveAll(areas[1..], area)
    else [areas[0]] + RemoveAll(areas[1..], area)
  }

  /** `handleAreaToggle`'s new list: every occurrence removed when the area is
      selected, the area appended at the end when it is not. */
  function Toggle(areas: seq<string>, area: string): seq<string> {
    if area in areas then RemoveAll(areas, area) else areas + [area]
  }

  /** No area is listed twice. */
  predicate NoDuplicates(s: seq<string>) {
    forall i, j :: 0 <= i < j < |s| ==> s[i] != s[j]
  }

  /** Removing drops every occurrence of the area and keeps every other area
      as many times as before. */
  lemma {:induction false} RemoveAllMultiset(areas: seq<string>, area: string)
    ensures multiset(RemoveAll(areas, area)) == multiset(areas)[area := 0]
  {
    if areas != [] {
      RemoveAllMultiset(areas[1..], area);
      assert areas == [areas[0]] + areas[1..];
    }
  }

  /** Removing an area that is not listed changes nothing. */
  lemma {:induction false} RemoveAllAbsent(areas: seq<string>, area: string)
    requires area !in areas
    ensures RemoveAll(areas, area) == areas
  {
    if areas != [] {
      assert areas[1..] == areas[1..];
      assert area !in areas[1..] by {
        forall j | 0 <= j < |areas[1..]| ensures areas[1..][j] != area { assert areas[1..][j] == areas[j + 1]; }
      }
      RemoveAllAbsent(areas[1..], area);
      assert areas == [areas[0]] + areas[1..];
    }
  }

  /** Dropping the first element of a duplicate-free list leaves one, and does
      not bring back the element dropped. */
  lemma TailNoDuplicates(areas: seq<string>)
    requires areas != [] && NoDuplicates(areas)
    ensures NoDuplicates(areas[1..])
    ensures areas[0] !in areas[1..]
  {
    forall i, j | 0 <= i < j < |areas[1..]| ensures areas[1..][i] != areas[1..][j] {
      assert areas[1..][i] == areas[i + 1] && areas[1..][j] == areas[j + 1];
    }
    forall j | 0 <= j < |areas[1..]| ensures areas[1..][j] != areas[0] {
      assert areas[1..][j] == areas[j + 1];
    }
  }

  /** Removing from a duplicate-free list leaves a duplicate-free list. */
  lemma {:induction false} RemoveAllNoDuplicates(areas: seq<string>, area: string)
    requires NoDuplicates(areas)
    ensures NoDuplicates(RemoveAll(areas, area))
  {
    if areas != [] {
      TailNoDuplicates(areas);
      RemoveAllNoDuplicates(areas[1..], area);
      if areas[0] != area {
        var rest := RemoveAll(areas[1..], area);
        RemoveAllMultiset(areas[1..], area);
        assert areas[0] !in multiset(areas[1..]);
        assert areas[0] !in rest by {
          assert multiset(rest)[areas[0]] == multiset(areas[1..])[areas[0]];
        }
        var r := [areas[0]] + rest;
        forall i, j | 0 <= i < j < |r| ensures r[i] != r[j] {
          if i == 0 { assert r[j] == rest[j - 1]; assert r[j] in rest; }
          else { assert r[i] == rest[i - 1] && r[j] == rest[j - 1]; }
        }
      }
    }
  }

  /** Removing from a list with one more area at the end removes from the
      list and then handles that last area. */
  lemma {:induction false} RemoveAllAppend(areas: seq<string>, x: string, area: string)
    ensures RemoveAll(areas + [x], area) == RemoveAll(areas, area) + (if x == area then [] else [x])
  {
    if areas != [] {
      assert (areas + [x])[1..] == areas[1..] + [x];
      RemoveAllAppend(areas[1..], x, area);
    }
  }

  /** Toggling flips the area's membership and leaves every other area where
      it was: removing the toggled area from the old and from the new list
      gives the same list. A duplicate-free list stays duplicate-free. */
  lemma ToggleSpec(areas: seq<string>, area: string)
    ensures area in Toggle(areas, area) <==> area !in areas
    ensures forall a :: a != area ==> (a in Toggle(areas, area) <==> a in areas)
    ensures RemoveAll(Toggle(areas, area), area) == RemoveAll(areas, area)
    ensures area !in areas ==> Toggle(areas, area) == areas + [area]
    ensures NoDuplicates(areas) ==> NoDuplicates(Toggle(areas, area))
  {
    RemoveAllMultiset(areas, area);
    if area in areas {
      assert area !in multiset(RemoveAll(areas, area));
      RemoveAllAbsent(RemoveAll(areas, area), area);
      forall a | a != area ensures a in Toggle(areas, area) <==> a in areas {
        assert a in areas <==> a in multiset(areas);
        assert a in RemoveAll(areas, area) <==> a in multiset(RemoveAll(areas, area));
      }
      if NoDuplicates(areas) { RemoveAllNoDuplicates(areas, area); }
    } else {
      RemoveAllAbsent(areas, area);
      RemoveAllAppend(areas, area, area);
      var r := areas + [area];
      if NoDuplicates(areas) {
        forall i, j | 0 <= i < j < |r| ensures r[i] != r[j] {
          if j == |areas| { assert r[i] == areas[i]; assert areas[i] in areas; }
        }
      }
    }
  }

  /** Toggling an area that is not selected twice gives the list back. */
  lemma ToggleTwice(areas: seq<string>, area: string)
    requires area !in areas
    ensures Toggle(Toggle(areas, area), area) == areas
  {
    RemoveAllAppend(areas, area, area);
    RemoveAllAbsent(areas, area);
  }

  /** `handleAreaToggle(opportunity)`: only `selectedConsultationAreas`
      changes, to the toggled list. */
  method HandleAreaToggle(shell: Shell, opportunity: string)
    requires shell.Valid()
    modifies shell
    ensures shell.Valid() && shell.step == old(shell.step)
    ensures shell.data == old(shell.data).(selectedConsultationAreas :=
              Toggle(old(shell.data.selectedConsultationAreas), opportunity))
  {
    var updated := Toggle(shell.data.selectedConsultationAreas, opportunity);
    shell.Update(NoChange.(selectedConsultationAreas := Some(updated)));
  }

  /** `getTotalSelectedSavings()`: the savings of every selected area, an
      area with no amount counting 0. */
  function TotalSelectedSavings(areas: seq<string>, t: Records.Table): real {
    if areas == [] then 0.0 else AreaOf(areas[0], t).savings + TotalSelectedSavings(areas[1..], t)
  }

  lemma {:induction false} TotalSelectedAppend(areas: seq<string>, x: string, t: Records.Table)
    ensures TotalSelectedSavings(areas + [x], t) == TotalSelectedSavings(areas, t) + AreaOf(x, t).savings
  {
    if areas != [] {
      assert (areas + [x])[1..] == areas[1..] + [x];
      TotalSelectedAppend(areas[1..], x, t);
    }
  }

  /** Removing an area listed once takes its savings off the total. */
  lemma {:induction false} TotalSelectedRemoveOnce(areas: seq<string>, area: string, t: Records.Table)
    requires NoDuplicates(areas) && area in areas
    ensures TotalSelectedSavings(RemoveAll(areas, area), t) == TotalSelectedSavings(areas, t) - AreaOf(area, t).savings
  {
    TailNoDuplicates(areas);
    if areas[0] == area {
      RemoveAllAbsent(areas[1..], area);
    } else {
      assert area in areas[1..] by {
        var i :| 0 <= i < |areas| && areas[i] == area;
        assert areas[1..][i - 1] == area;
      }
      TotalSelectedRemoveOnce(areas[1..], area, t);
    }
  }

  /** Selecting an area adds its savings to the selected total; deselecting
      one listed once takes them off again. */
  lemma TotalAfterToggle(areas: seq<string>, area: string, t: Records.Table)
    ensures area !in areas ==>
              TotalSelectedSavings(Toggle(areas, area), t) == TotalSelectedSavings(areas, t) + AreaOf(area, t).savings
    ensures area in areas && NoDuplicates(areas) ==>
              TotalSelectedSavings(Toggle(areas, area), t) == TotalSelectedSavings(areas, t) - AreaOf(area, t).savings
  {
    if area in areas {
      if NoDuplicates(areas) {
        TotalSelectedRemoveOnce(areas, area, t);
      }
    } else {
      TotalSelectedAppend(areas, area, t);
    }
  }

  /** The annual focus-area figure, `getTotalSelectedSavings() * 12`. */
  function AnnualSelectedSavings(areas: seq<string>, t: Records.Table): real {
    TotalSelectedSavings(areas, t) * 12.0
  }

  /** Over non-negative amounts the selected savings, monthly and annual, are
      never negative. */
  lemma {:induction false} SelectedSavingsNonNegative(areas: seq<string>, t: Records.Table)
    requires Savings.NonNegative(t)
    ensures TotalSelectedSavings(areas, t) >= 0.0
    ensures AnnualSelectedSavings(areas, t) == TotalSelectedSavings(areas, t) * 12.0 >= 0.0
  {
    if areas != [] {
      SelectedSavingsNonNegative(areas[1..], t);
      Savings.SavingsBounds(areas[0], Records.GetOrZero(t, areas[0]));
    }
  }

  /** The summary `handleBookConsultation` logs. */
  datatype BookingPayload = BookingPayload(
    businessName: string,
    ownerName: string,
    email: string,
    selectedAreas: seq<string>,
    totalPotentialSavings: real)

  function BookingData(d: BusinessData): BookingPayload {
    BookingPayload(d.businessName, d.ownerName, d.email, d.selectedConsultationAreas,
                   StableSort.SumKeys(OpportunitiesWithSavings(d.aiOpportunities, d.spending), AreaSavings))
  }

  /** The booking total is the savings over every current opportunity with a
      positive amount, whatever is selected; sorting does not change it, and
      it is never negative. */
  lemma BookingTotalSpec(d: BusinessData, selected: seq<string>)
    ensures BookingData(d).totalPotentialSavings ==
            StableSort.SumKeys(CandidateAreas(d.aiOpportunities, d.spending), AreaSavings)
    ensures BookingData(d.(selectedConsultationAreas := selected)).totalPotentialSavings ==
            BookingData(d).totalPotentialSavings
    ensures BookingData(d).selectedAreas == d.selectedConsultationAreas
    ensures BookingData(d).totalPotentialSavings >= 0.0
  {
    StableSort.SortDescCorrect(CandidateAreas(d.aiOpportunities, d.spending), AreaSavings);
    CandidatesSumNonNegative(d.aiOpportunities, d.spending);
  }

  lemma {:induction false} CandidatesSumNonNegative(opportunities: seq<string>, t: Records.Table)
    ensures StableSort.SumKeys(CandidateAreas(opportunities, t), AreaSavings) >= 0.0
  {
    if opportunities != [] {
      CandidatesSumNonNegative(opportunities[1..], t);
      Savings.SavingsBounds(opportunities[0], Records.GetOrZero(t, opportunities[0]));
    }
  }

  /** `disabled={(data.selectedConsultationAreas || []).length === 0}`. */
  predicate BookDisabled(areas: seq<string>) {
    |areas| == 0
  }

  /** The button is disabled exactly when nothing is selected: selecting any
      area enables it, and deselecting the only one disables it again. */
  lemma BookGuard(areas: seq<string>, area: string)
    ensures BookDisabled(areas) <==> areas == []
    ensures area !in areas ==> !BookDisabled(Toggle(areas, area))
    ensures BookDisabled(Toggle([area], area))
  {
    assert RemoveAll([area], area) == [];
  }

  /** Going back and choosing another industry or niche, then letting the
      opportunities effect run, leaves the selected areas and the amounts as
      they were: the selection and its savings total survive, whatever the new
      niche offers. */
  lemma SelectionSurvivesNicheChange(d: BusinessData, industry: string, niche: string)
    ensures var e := AiOpportunities.Sync(Merge(d, NoChange.(industry := Some(industry), niche := Some(niche))));
            e.selectedConsultationAreas == d.selectedConsultationAreas && e.spending == d.spending &&
            TotalSelectedSavings(e.selectedConsultationAreas, e.spending) ==
            TotalSelectedSavings(d.selectedConsultationAreas, d.spending)
  {
    var m := Merge(d, NoChange.(industry := Some(industry), niche := Some(niche)));
    MergeFields(d, NoChange.(industry := Some(industry), niche := Some(niche)));
    AiOpportunities.SyncSpec(m);
  }

  /** No opportunity with nothing entered becomes a candidate. */
  lemma {:induction false} NoCandidates(opportunities: seq<string>, t: Records.Table)
    requires forall i :: 0 <= i < |opportunities| ==> Records.GetOrZero(t, opportunities[i]) == 0.0
    ensures CandidateAreas(opportunities, t) == []
  {
    if opportunities != [] {
      NoCandidates(opportunities[1..], t);
    }
  }

  /** A stale selection: with 1000 entered for a healthcare task that stays
      selected after a switch to Family Law, no area is offered, yet the
      selected total is 800 and booking stays enabled. */
  lemma StaleSelectionCounted()
    ensures OpportunitiesWithSavings(AiOpportunities.FamilyLawTasks, [("Patient Appointment Scheduling", 1000.0)]) == []
    ensures TotalSelectedSavings(["Patient Appointment Scheduling"], [("Patient Appointment Scheduling", 1000.0)]) == 800.0
    ensures !BookDisabled(["Patient Appointment Scheduling"])
  {
    var task := "Patient Appointment Scheduling";
    var t: Records.Table := [(task, 1000.0)];
    var labels := AiOpportunities.FamilyLawTasks;
    forall i | 0 <= i < |labels|
      ensures Records.GetOrZero(t, labels[i]) == 0.0
    {
      assert labels[i] != task;
    }
    NoCandidates(labels, t);
    Savings.LookupFinds(0, 12, task);
    assert Savings.SavingsPercentage(task) == 80;
    assert AreaOf(task, t).savings == 800.0;
    assert TotalSelectedSavings([task], t) == AreaOf(task, t).savings + TotalSelectedSavings([], t);
  }
}
