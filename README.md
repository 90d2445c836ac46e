# AI savings calculator: funnel core

A Dafny model of the core of a six-step lead funnel. The funnel estimates how
much a business could save by automating routine tasks:

1. lead capture;
2. industry and niche;
3. AI opportunities;
4. current spending;
5. savings dashboard;
6. consultation setup.

The model covers these parts:

- **The shell** (`AppShell`). It holds the shared `BusinessData` record, its
  shallow-merge `update` (`{ ...p, ...d }`), and the step counter. `next` and
  `back` clamp the counter to 1..6, and the counter picks the view shown.
  - The record is a datatype.
  - `Partial<BusinessData>` is a datatype with one `Option` per key.
  - The stateful part is `class Shell` with the fields `step` and `data`.
    Each step's handlers are methods that receive the shell and call its
    `Update`, `Next` and `Back`, as the step views receive `onUpdate`,
    `onNext` and `onPrev`.
- **Industry selection** (`IndustrySelection`). It covers:
  - the six industries and their niches;
  - `find` by name;
  - the case-insensitive niche search;
  - the handlers that set or clear the industry and the niche;
  - the guarded Continue.
- **The opportunity catalog** (`AiOpportunities`). It covers:
  - the nine industry/niche task lists;
  - the lookup with its `|| []` fallback;
  - the effect that writes `aiOpportunities` only when `join("|")` of the
    lookup differs from `join("|")` of the stored list.
- **The savings engine** (`Savings`, `StableSort`, `Records`). It covers:
  - the 36-entry benchmark table;
  - `calculateSavings` with its 60% default;
  - the totals over the spending record, and the savings percentage of the
    total.
  - `Records` models a `Record<string, number>` as an association list in
    insertion order, which is the order `Object.entries` reports.
  - `StableSort` models `sort((a, b) => b.savings - a.savings)`. That sort is
    stable, so it is modelled as a stable insertion sort.
- **The three steps that use the engine**:
  - `SpendingInput`: the amount handler, the per-task rows, and the
    weekly/monthly annual projection;
  - `SavingsDashboard`: the daily/monthly/yearly view, the sorted breakdown,
    the cards, and the bar widths of the top-six chart;
  - `ConsultationSetup`: the candidate areas, the toggle, the selected totals,
    the booking summary, and the disabled guard of the booking button.

Notes on the model:

- **Numbers.** Amounts are exact `real`s. `Number.parseFloat` is a parameter:
  `None` stands for a NaN result, which `|| 0` turns into 0.
- **One benchmark table.** The three step files carry the same table
  (spending-input.tsx:14-51, savings-dashboard.tsx:12-49 and
  consultation-setup.tsx:12-49). It is modelled once, in `Savings`.
- **Unbenchmarked labels.** Seventeen of the catalog's labels have no
  benchmark entry and so fall back to 60%. `CommercialLabelFallsBack` proves
  this for one of them.
- **The sync compares joins.** The effect compares the two lists by their
  `join("|")` strings, not element by element as sequences. The model follows
  the code. `JoinInjective` proves that on the catalog's labels the two
  comparisons agree: no label is empty and none contains `|`.
  `SyncStoresLookup` shows that after the effect the stored list is exactly
  the lookup, provided the stored list was itself a lookup of some pair. That
  holds in the component because only this effect writes `aiOpportunities`
  after the empty start; the model does not prove that about the
  funnel as a whole.
- **Stale spending entries.** They are kept, as in the code. The spending
  totals and the dashboard run over every entry of `spending`, including
  entries for tasks of an earlier niche (`StaleEntriesCounted`). On the
  consultation step only the offered candidates and the booking total read
  the current opportunities. Nothing prunes the selected areas when the
  industry or the niche changes. They therefore survive a change made after
  going back (`SelectionSurvivesNicheChange`). The "n selected" count, the
  selected savings total, the booking payload and the book guard can all
  name tasks the new niche no longer offers (`StaleSelectionCounted`).

## Model

| member | source | states |
|---|---|---|
| Records.Get | app-shell.tsx:19 | a key is found exactly when some entry has it, and then its value is that entry's |
| Records.GetOrZero | spending-input.tsx:119 | `spending[o] \|\| 0`: an absent key reads 0, a present one its stored value |
| Records.Set | spending-input.tsx:58-63 | `{ ...spending, [o]: v }`: after it `o` maps to `v` and every other key maps to what it did; an existing key keeps its position, a new one is appended |
| Savings.BenchmarkTable | spending-input.tsx:14-51 | every benchmark percentage in the table lies in [50, 85] |
| Savings.LookupMisses | spending-input.tsx:14-51 | a label carried by no table entry is not found |
| Savings.LookupFinds | spending-input.tsx:14-51 | the lookup returns the percentage of the first entry with the label |
| Savings.SavingsPercentage | spending-input.tsx:67 | `savingsData[o] \|\| 60`: the table value when the label is listed, 60 otherwise, always in [50, 85] |
| Savings.CalculateSavings | spending-input.tsx:66-69 | `spending * (savingsData[o] \|\| 60) / 100`; `SavingsBounds` states its sign, its [50%, 85%] bounds and that it is the percentage's share |
| Savings.Share | spending-input.tsx:68 | `spending * percentage / 100`; `ShareBounds` bounds it between half and 85% of the spending |
| Savings.SavingsBounds | spending-input.tsx:66-69 | 0 saved on 0, a positive saving on a positive amount, between half of it and 85% of it (mirrored for a negative amount), and exactly `percentage` hundredths of it |
| Savings.ShareBounds | spending-input.tsx:68 | `spending * p / 100` for p in [50, 85] lies between half and 85% of the spending, on its side of zero |
| Savings.NonNegativeBetween | spending-input.tsx:68 | for a non-negative amount the share lies in [a / 2, a * 0.85] |
| Savings.NegativeBetween | spending-input.tsx:68 | for a negative amount the share lies in [a * 0.85, a / 2] |
| Savings.PercentOfTotal | spending-input.tsx:186-188 | 0 when nothing is spent, otherwise the percentage `p` with `p * spending == savings * 100` |
| Savings.TotalSpending | spending-input.tsx:71-73 | the sum of the amounts over the entries; `TotalsAppend`, `TotalsReplace`, `TotalsAfterSet` and `TotalSavingsBounds` state how it moves and its sign |
| Savings.TotalSavings | savings-dashboard.tsx:60-64 | the sum of the savings over the entries (also spending-input.tsx:75-79); `TotalSavingsBounds` puts it between half and 85% of the total spending |
| Savings.TotalSavingsBounds | spending-input.tsx:71-79 | over non-negative entries the total spending is non-negative and the total savings lie between half and 85% of it |
| Savings.AverageWithinBenchmarks | savings-dashboard.tsx:158-160 | over non-negative entries the average savings percentage is 0 with nothing spent and otherwise lies in [50, 85] |
| Savings.RatioBounds | spending-input.tsx:187 | savings between half and 85% of a positive total are 50 to 85 percent of it |
| Savings.TotalsAppend | spending-input.tsx:71-79 | appending an entry adds its amount and its savings to the two totals |
| Savings.TotalsReplace | spending-input.tsx:71-79 | replacing an entry swaps its amount and its savings in the two totals |
| Savings.TotalsAfterSet | spending-input.tsx:56-79 | after `{ ...spending, [o]: v }` each total moves by the new minus the old contribution of `o`, an absent `o` counting 0 |
| Savings.Unlisted | spending-input.tsx:67 | "Custom Task" and "Property Valuation Automation" are not in the table and get the 60% default |
| Savings.NotInFirstThird | spending-input.tsx:15-26 | neither label is one of the first twelve entries |
| Savings.NotInSecondThird | spending-input.tsx:27-38 | neither label is one of entries 13 to 24 |
| Savings.NotInLastThird | spending-input.tsx:39-50 | neither label is one of the last twelve entries |
| Savings.BenchmarkExamples | spending-input.tsx:66-69 | 1000 spent on "Patient Appointment Scheduling" saves 800 (80%); 200 on an unlisted label saves 120 (60%) |
| StableSort.Insert | savings-dashboard.tsx:87 | inserting adds exactly one element |
| StableSort.SortDesc | savings-dashboard.tsx:87 | sorting keeps the length |
| StableSort.InsertMultiset | savings-dashboard.tsx:87 | inserting adds the element to the multiset and nothing else |
| StableSort.InsertSum | savings-dashboard.tsx:87 | inserting adds the element's key to the key sum |
| StableSort.InsertSorted | savings-dashboard.tsx:87 | inserting into a descending list keeps it descending |
| StableSort.InsertWithKey | savings-dashboard.tsx:87 | among the elements sharing the inserted element's key, it comes first; the order of every key's elements is otherwise unchanged |
| StableSort.SortDescCorrect | savings-dashboard.tsx:87 | `sort((a, b) => b.savings - a.savings)` gives a descending permutation of its input with the same key sum, and for every key the items with it stay in input order (stability) |
| AppShell.Merge | app-shell.tsx:36 | `spending` is replaced whole by the partial's value when given, kept otherwise |
| AppShell.MergeFields | app-shell.tsx:36 | field by field: every key of the partial overwrites, every other field keeps its value |
| AppShell.MergeNoChange | app-shell.tsx:36 | `update({})` changes nothing |
| AppShell.MergeIdempotent | app-shell.tsx:36 | the same update applied twice equals it applied once |
| AppShell.MergeCombine | app-shell.tsx:36 | two updates in a row equal one update with the combined partial, the later winning |
| AppShell.NextStep | app-shell.tsx:38 | `Math.min(step + 1, 6)`; `NextStepSpec` and `NextTimesSpec` state what it does |
| AppShell.BackStep | app-shell.tsx:39 | `Math.max(step - 1, 1)`; `BackStepSpec` and `BackTimesSpec` state what it does |
| AppShell.NextStepSpec | app-shell.tsx:38 | next moves one step forward below step 6, stays at 6, and never leaves 1..6 |
| AppShell.BackStepSpec | app-shell.tsx:39 | back moves one step back above step 1, stays at 1, and never leaves 1..6 |
| AppShell.RunStaysValid | app-shell.tsx:38-48 | no sequence of next and back presses leaves 1..6, so `[...][step - 1]` always finds a view |
| AppShell.NextTimesSpec | app-shell.tsx:38 | n presses of next reach `min(step + n, 6)` |
| AppShell.BackTimesSpec | app-shell.tsx:39 | n presses of back reach `max(step - n, 1)` |
| AppShell.RepeatedMoves | app-shell.tsx:38-39 | from step 1, n nexts reach min(1 + n, 6); from step 6, n backs reach max(6 - n, 1) |
| AppShell.SegmentAt | app-shell.tsx:41-48 | the view at step s has key s, so the six steps show six different views |
| AppShell.ProgressWidth | app-shell.tsx:59 | `(step / 6) * 100`; `ProgressWidthSpec` states its range and growth |
| AppShell.ProgressWidthSpec | app-shell.tsx:59 | the bar width `(step / 6) * 100` is in (0, 100], is 100 exactly at step 6, and grows with every step |
| AppShell.Shell.constructor | app-shell.tsx:24-34 | the funnel starts at step 1 with every text empty and every list and record empty |
| AppShell.Shell.Update | app-shell.tsx:36 | the record becomes the merge of the old record with the partial; the step stays |
| AppShell.Shell.Next | app-shell.tsx:38 | the step becomes `min(step + 1, 6)`; the record stays |
| AppShell.Shell.Back | app-shell.tsx:39 | the step becomes `max(step - 1, 1)`; the record stays |
| AppShell.Shell.Segment | app-shell.tsx:41-48 | the view shown is the one keyed by the current step |
| IndustrySelection.FindIndustry | industry-selection.tsx:43 | `find` returns the first industry with the name, and `undefined` exactly when none has it |
| IndustrySelection.NamesDistinct | industry-selection.tsx:13-38 | no two listed industries share a name |
| IndustrySelection.NichesOf | industry-selection.tsx:43 | the niches of the named industry, none for an unknown one; `NichesOfListed` states them for every listed industry |
| IndustrySelection.NichesOfListed | industry-selection.tsx:13-43 | selecting a listed industry offers exactly the niches listed with it |
| IndustrySelection.ToLower | industry-selection.tsx:45 | lower-casing keeps the length and maps each character on its own |
| IndustrySelection.FilterNiches | industry-selection.tsx:44-45 | `niches.filter(n => n.toLowerCase().includes(search.toLowerCase()))`; `FilterNichesSpec` states which niches it keeps and in what order |
| IndustrySelection.FilteredNiches | industry-selection.tsx:43-45 | the filter applied to the selected industry's niches; `FilteredNichesSpec` states it |
| IndustrySelection.FilterNichesSpec | industry-selection.tsx:44-45 | the filter keeps exactly the niches whose lower-cased name contains the lower-cased search, as a subsequence in their order |
| IndustrySelection.IncludesEmpty | industry-selection.tsx:45 | every text includes the empty text |
| IndustrySelection.EmptySearchKeepsAll | industry-selection.tsx:44-45 | an empty search keeps every niche |
| IndustrySelection.FilteredNichesSpec | industry-selection.tsx:43-45 | the listed niches are the selected industry's niches filtered: all of them for an empty search, none for an empty or unknown industry (`?. ... \|\| []`) |
| IndustrySelection.CanContinue | industry-selection.tsx:48 | both the industry and the niche are set; `HandleNext` advances exactly when it holds |
| IndustrySelection.SelectIndustry | industry-selection.tsx:69 | clicking an industry sets it and clears the niche; nothing else changes |
| IndustrySelection.ChangeIndustry | industry-selection.tsx:83 | "Change Industry" clears the industry and the niche; nothing else changes |
| IndustrySelection.SelectNiche | industry-selection.tsx:104 | clicking a niche sets it; nothing else changes |
| IndustrySelection.HandleNext | industry-selection.tsx:47-51 | the step advances exactly when both the industry and the niche are set; the record never changes |
| AiOpportunities.Catalog | ai-opportunities.tsx:13-98 | every listed industry/niche pair offers six task labels |
| AiOpportunities.LookupOpportunities | ai-opportunities.tsx:102 | `aiOpportunities[industry]?.[niche] \|\| []`: the listed labels for a catalog pair, `[]` otherwise, always clean |
| AiOpportunities.Join | ai-opportunities.tsx:103 | `join("\|")`; `JoinStartsWithHead` and `JoinInjective` state its shape and when it tells lists apart |
| AiOpportunities.JoinStartsWithHead | ai-opportunities.tsx:103 | a joined list starts with its first label, followed by `"\|"` and the join of the rest when there is more |
| AiOpportunities.JoinInjective | ai-opportunities.tsx:103 | on lists of non-empty labels without `"\|"`, equal joins imply equal lists |
| AiOpportunities.ResidentialSalesTasksClean | ai-opportunities.tsx:15-22 | the Residential Sales labels are non-empty and free of `"\|"` |
| AiOpportunities.CommercialTasksClean | ai-opportunities.tsx:23-30 | the Commercial labels are non-empty and free of `"\|"` |
| AiOpportunities.PersonalInjuryTasksClean | ai-opportunities.tsx:33-40 | the Personal Injury labels are non-empty and free of `"\|"` |
| AiOpportunities.FamilyLawTasksClean | ai-opportunities.tsx:41-48 | the Family Law labels are non-empty and free of `"\|"` |
| AiOpportunities.GeneralPracticeTasksClean | ai-opportunities.tsx:51-58 | the General Practice labels are non-empty and free of `"\|"` |
| AiOpportunities.DentalTasksClean | ai-opportunities.tsx:59-66 | the Dental labels are non-empty and free of `"\|"` |
| AiOpportunities.ECommerceTasksClean | ai-opportunities.tsx:69-76 | the E-commerce labels are non-empty and free of `"\|"` |
| AiOpportunities.FoodProcessingTasksClean | ai-opportunities.tsx:79-86 | the Food Processing labels are non-empty and free of `"\|"` |
| AiOpportunities.AccountingTasksClean | ai-opportunities.tsx:89-96 | the Accounting labels are non-empty and free of `"\|"` |
| AiOpportunities.CatalogClean | ai-opportunities.tsx:13-98 | every label of every catalog list is non-empty and free of `"\|"` |
| AiOpportunities.SyncWrites | ai-opportunities.tsx:101-105 | the effect writes when the joined lookup differs from the joined stored list; `SyncStoresLookup` states when that is |
| AiOpportunities.Sync | ai-opportunities.tsx:101-105 | the record after one run of the effect; `SyncSpec`, `SyncIdempotent` and `SyncStoresLookup` state it |
| AiOpportunities.SyncSpec | ai-opportunities.tsx:101-107 | the effect changes only `aiOpportunities`, stores the lookup when it writes, changes nothing when it does not, and leaves the join equal to the lookup's |
| AiOpportunities.SyncIdempotent | ai-opportunities.tsx:101-107 | run again on its own result, the effect does not write: it cannot loop |
| AiOpportunities.SyncStoresLookup | ai-opportunities.tsx:102-105 | when the stored list came from a lookup, the effect skips exactly when the stored list equals the new lookup, and afterwards the stored list is that lookup |
| AiOpportunities.InitialNeedsNoSync | ai-opportunities.tsx:101-105 | in the start state (no industry, no niche, no list) the effect does not write |
| AiOpportunities.SyncOpportunities | ai-opportunities.tsx:101-107 | the effect on the shell: it writes exactly when the joins differ, the new record is the synced one, and the step stays |
| AiOpportunities.CatalogPairsSelectable | ai-opportunities.tsx:13-98 | every catalog pair names an industry and one of its niches on the industry step |
| AiOpportunities.CommercialLabelFallsBack | ai-opportunities.tsx:25 | "Property Valuation Automation", offered for Real Estate / Commercial, has no benchmark and is computed at 60% |
| AiOpportunities.GeneralPracticeOpportunities | ai-opportunities.tsx:51-58 | Healthcare / General Practice offers these six tasks, in this order |
| SpendingInput.ParsedOrZero | spending-input.tsx:57 | a failed parse reads 0, a successful one its value |
| SpendingInput.HandleSpendingChange | spending-input.tsx:56-64 | only `spending` changes; it maps the task to the parsed amount and every other key as before, and the total spending moves by the new minus the old amount |
| SpendingInput.Row | spending-input.tsx:119-121 | one task's row: its amount, savings and benchmark; `RowSpec` states their bounds |
| SpendingInput.Rows | spending-input.tsx:118-121 | one row per current opportunity, in order, each with `spending[o] \|\| 0`, its savings and its benchmark |
| SpendingInput.RowSpec | spending-input.tsx:118-121 | a task with no entry shows 0 spent and 0 saved; a non-negative amount saves between half and 85% of itself; the shown percentage is in [50, 85] |
| SpendingInput.StaleEntriesCounted | spending-input.tsx:71-79 | an entry no current opportunity shows still counts in both totals |
| SpendingInput.AnnualProjection | spending-input.tsx:195 | the total savings times 52 or 12; `ProjectionSpec` states its bounds and the ratio of the two modes |
| SpendingInput.OpensOnMonthlyAmounts | spending-input.tsx:54 | the step opens on monthly amounts, projected over twelve months |
| SpendingInput.ProjectionSpec | spending-input.tsx:195 | the annual projection (52 weeks or 12 months) is non-negative, at most the projection of 85% of the spending, and the two modes stand in the ratio 52 : 12 |
| SavingsDashboard.DisplaySavingsSpec | savings-dashboard.tsx:66-76 | the monthly view is the total, the daily view is a thirtieth of it, the yearly view is 360 daily views, and a non-negative total grows from the daily to the yearly view |
| SavingsDashboard.OpensOnMonthlyTotal | savings-dashboard.tsx:52 | the dashboard opens on the monthly view, which shows the savings total itself |
| SavingsDashboard.DisplaySavings | savings-dashboard.tsx:66-76 | the total for the chosen view; `DisplaySavingsSpec` states the three views |
| SavingsDashboard.Item | savings-dashboard.tsx:80-85 | one breakdown item: the entry's amount, savings and benchmark; `PositiveItemsSpec` states them |
| SavingsDashboard.PositiveItems | savings-dashboard.tsx:79-86 | the items of the positive entries, in entry order; `PositiveItemsSpec`, `PositiveItemsAppend` and `PositiveItemsAddUp` state it |
| SavingsDashboard.SavingsBreakdown | savings-dashboard.tsx:78-88 | the positive items sorted by savings; `BreakdownSpec`, `BreakdownShape` and `BreakdownAddsUp` state it |
| SavingsDashboard.PositiveItemsSpec | savings-dashboard.tsx:79-86 | the filtered list has one item per positive entry and nothing else; each one saves a positive amount at its own benchmark |
| SavingsDashboard.PositiveItemsAppend | savings-dashboard.tsx:79-86 | the filter keeps entry order: over two runs of entries it gives the first run's items, then the second's |
| SavingsDashboard.BreakdownSpec | savings-dashboard.tsx:78-88 | the breakdown is the filtered list sorted by savings, largest first, stable for ties; it is a permutation of that list with one item per positive entry |
| SavingsDashboard.OpportunityCount | savings-dashboard.tsx:153 | the "AI Opportunities" card counts the entries with positive spending |
| SavingsDashboard.BreakdownAddsUp | savings-dashboard.tsx:60-88 | over non-negative entries the breakdown's savings add up to the total savings |
| SavingsDashboard.PositiveItemsAddUp | savings-dashboard.tsx:79-86 | over non-negative entries, leaving out the zero entries keeps the savings total |
| SavingsDashboard.AnnualMatchesYearlyView | savings-dashboard.tsx:149 | the "Annual Savings" card equals the Yearly view |
| SavingsDashboard.AnnualSavings | savings-dashboard.tsx:149 | twelve times the total savings; `AnnualMatchesYearlyView` ties it to the Yearly view |
| SavingsDashboard.MaxSavings | savings-dashboard.tsx:201 | `Math.max` over the items bounds every item's savings and is attained |
| SavingsDashboard.Widths | savings-dashboard.tsx:202 | one width per item, each the item's savings as a percentage of the maximum |
| SavingsDashboard.BreakdownShape | savings-dashboard.tsx:78-88 | the breakdown is sorted and every item saves a positive amount |
| SavingsDashboard.MaxOfSorted | savings-dashboard.tsx:201 | the maximum of a descending list is its first element |
| SavingsDashboard.WidthBounds | savings-dashboard.tsx:202 | a positive share of a maximum is in (0, 100], and is 100 for the maximum |
| SavingsDashboard.ChartWidthsSpec | savings-dashboard.tsx:198-202 | at most six bars, one per leading breakdown item; the first is 100% wide and every one is in (0, 100] |
| SavingsDashboard.ChartWidths | savings-dashboard.tsx:198-202 | the bar widths of the first six breakdown items; `ChartWidthsSpec` states them |
| ConsultationSetup.CandidateAreasLength | consultation-setup.tsx:64-71 | there are no more candidates than current opportunities |
| ConsultationSetup.CandidateAreasSpec | consultation-setup.tsx:64-71 | the candidates are exactly the current opportunities with a positive amount, each with its amount and savings |
| ConsultationSetup.CandidateAreasAppend | consultation-setup.tsx:64-71 | the candidates keep opportunity order: over two runs of opportunities they are the first run's, then the second's |
| ConsultationSetup.NoCandidates | consultation-setup.tsx:64-71 | opportunities with nothing entered offer no candidate |
| ConsultationSetup.CandidatesSavePositive | consultation-setup.tsx:64-71 | every candidate has positive spending and positive savings |
| ConsultationSetup.AreaOf | consultation-setup.tsx:66-70 | one opportunity with its amount and savings; `CandidateAreasSpec` states them |
| ConsultationSetup.CandidateAreas | consultation-setup.tsx:65-71 | the opportunities with a positive amount, in order; `CandidateAreasSpec`, `CandidateAreasAppend` and `CandidateAreasLength` state it |
| ConsultationSetup.OpportunitiesWithSavings | consultation-setup.tsx:64-73 | the candidates sorted by savings; `OpportunitiesWithSavingsSpec` states it |
| ConsultationSetup.OpportunitiesWithSavingsSpec | consultation-setup.tsx:64-73 | the offered list is the candidates sorted by savings, largest first, stable for ties, a permutation of them, and no longer than the opportunity list |
| ConsultationSetup.RemoveAllMultiset | consultation-setup.tsx:78 | the filter drops every occurrence of the area and keeps every other area as many times as before |
| ConsultationSetup.RemoveAllAbsent | consultation-setup.tsx:78 | filtering out an area that is not listed changes nothing |
| ConsultationSetup.TailNoDuplicates | consultation-setup.tsx:76-79 | the tail of a duplicate-free list is duplicate-free and lacks the head |
| ConsultationSetup.RemoveAllNoDuplicates | consultation-setup.tsx:78 | filtering a duplicate-free list leaves a duplicate-free list |
| ConsultationSetup.RemoveAllAppend | consultation-setup.tsx:78-79 | filtering a list with one more area at the end filters the list and then that area |
| ConsultationSetup.RemoveAll | consultation-setup.tsx:78 | `filter((a) => a !== area)`; `RemoveAllMultiset`, `RemoveAllAbsent` and `RemoveAllNoDuplicates` state it |
| ConsultationSetup.Toggle | consultation-setup.tsx:76-79 | remove a selected area, append an unselected one; `ToggleSpec` and `ToggleTwice` state it |
| ConsultationSetup.ToggleSpec | consultation-setup.tsx:75-82 | toggling flips the area's membership, keeps every other area selected or not as before, leaves the list without the area unchanged, appends a new area last, and keeps a duplicate-free list duplicate-free |
| ConsultationSetup.ToggleTwice | consultation-setup.tsx:75-82 | toggling an unselected area twice gives the list back |
| ConsultationSetup.HandleAreaToggle | consultation-setup.tsx:75-82 | only `selectedConsultationAreas` changes, to the toggled list; the step stays |
| ConsultationSetup.TotalSelectedAppend | consultation-setup.tsx:106-111 | selecting one more area adds its savings to the selected total |
| ConsultationSetup.TotalSelectedRemoveOnce | consultation-setup.tsx:106-111 | removing an area listed once takes its savings off the selected total |
| ConsultationSetup.TotalAfterToggle | consultation-setup.tsx:106-111 | a toggle adds the area's savings when it selects and takes them off when it deselects |
| ConsultationSetup.TotalSelectedSavings | consultation-setup.tsx:106-111 | the savings summed over the selected areas; `TotalSelectedAppend`, `TotalSelectedRemoveOnce` and `TotalAfterToggle` state how it moves |
| ConsultationSetup.AnnualSelectedSavings | consultation-setup.tsx:147 | twelve times the selected savings; `SelectedSavingsNonNegative` bounds it |
| ConsultationSetup.SelectedSavingsNonNegative | consultation-setup.tsx:147 | over non-negative amounts the selected savings, monthly and annual (×12), are never negative |
| ConsultationSetup.BookingTotalSpec | consultation-setup.tsx:89-95 | the booking summary passes the selected areas through, and its total is the savings over all candidates whatever is selected, is unchanged by sorting, and is never negative |
| ConsultationSetup.BookingData | consultation-setup.tsx:89-95 | the booking summary; `BookingTotalSpec` states its fields and total |
| ConsultationSetup.CandidatesSumNonNegative | consultation-setup.tsx:94 | the candidates' savings sum is never negative |
| ConsultationSetup.BookDisabled | consultation-setup.tsx:205 | `selectedAreas.length === 0`; `BookGuard` states when it holds |
| ConsultationSetup.BookGuard | consultation-setup.tsx:205 | the booking button is disabled exactly when nothing is selected; selecting any area enables it, and deselecting the only one disables it |
| ConsultationSetup.SelectionSurvivesNicheChange | industry-selection.tsx:69-104 | a new industry or niche, followed by the opportunities effect, leaves the selected areas, the amounts and the selected total unchanged |
| ConsultationSetup.StaleSelectionCounted | consultation-setup.tsx:64-111 | 1000 entered for "Patient Appointment Scheduling", still selected under Family Law: no area is offered, yet 800 is counted as selected and booking is enabled |

## Left out

- Lead capture (`lead-capture.tsx`), the API route (`route.ts`) and the page
  (`page.tsx`) are not part of this model. They are the contact form and its
  network request. The model starts from the record they fill in:
  `businessName`, `ownerName` and `email` are fields of `BusinessData`, and
  `Update` writes them.
- The dashboard's animated counter (savings-dashboard.tsx:91-109) is left
  out. It is a timer that steps a display value towards `getDisplaySavings()`
  over two seconds; only its target is modelled.
- The booking flow around the summary (consultation-setup.tsx:85-104) is left
  out:
  - the `isBooking`, `bookingComplete` and `showCalendar` flags;
  - the console logging;
  - the external scheduling widget.

  These are UI state and I/O. Only the summary it builds (`BookingData`) and
  the disabled guard are modelled.
- Rendering is left out: JSX, CSS classes, `toFixed` formatting, the "Step n
  of 6" label, and the theme toggle. The theme toggle and the animated
  background are not part of this model.
- IEEE floating point: amounts are exact reals. There is no rounding, no
  `Infinity`, and no `-0`, so `x || 0` differs from `x` only on NaN, which the model does not have.
- `Number.parseFloat` is a parameter of `HandleSpendingChange`, because its
  string grammar is not modelled. Negative amounts, which it accepts, are
  modelled: `SavingsBounds` states the mirrored bounds for them. The
  `min="0"` attribute does not stop them. With a negative entry the average
  percentage card can leave [50, 85]: with 100 on "Data Entry Automation"
  and -50 on "Supply Chain Management" it shows 120. This is why the
  percentage bounds are stated over non-negative entries.
- React scheduling: when renders and effects run, batched state updates, and
  effect dependency tracking. The effect is modelled as one call,
  `SyncOpportunities`, that the shell can run at any time.
- JavaScript object-key ordering for integer-like keys is not modelled. None
  of the task labels is integer-like, so insertion order is the
  `Object.entries` order.
- `AiOpportunities.Catalog`: names inherited from `Object.prototype` are not
  modelled. In the component `aiOpportunities["constructor"]?.[...]` finds a
  built-in function, and `.join` can then throw. The model finds only the
  listed industries and niches. The UI passes only names from its fixed lists.
- `Savings.BenchmarkTable`: inherited names such as `"toString"` are not
  modelled. In the component `savingsData["toString"] || 60` is a function,
  so the savings become NaN. The model finds only the 36 listed labels, and
  the labels the UI passes all come from the catalog.
- `Records.Get`: the `spending` record is modelled without a prototype, so a
  key such as `"constructor"` is absent unless it was written. No task label
  is such a name.
- `IndustrySelection.ToLower`: only ASCII `A`–`Z` are lowered. All labels
  are ASCII; full Unicode case mapping is out of scope.
- `StableSort.SortDesc`: the sort is modelled as an insertion sort. Only its
  result is claimed, not the comparison sequence the engine performs. The
  comparator `b.savings - a.savings` is modelled as `>=` on the exact
  savings.
- `AppShell.Merge`: the function's own contract states only the `spending`
  key. `MergeFields` states every field.
