/** The opportunities step: the catalog industry -> niche -> ordered task labels,
    its lookup, and the effect that copies the looked-up list into
    `aiOpportunities` when it differs from the stored one. */
module AiOpportunities {
  import opened Wrappers
  import opened AppShell
  import IndustrySelection
  import Savings

  // The nine task lists, in the order they are displayed.

  const ResidentialSalesTasks: seq<string> := [
    "Lead Qualification & Scoring",
    "Automated Appointment Scheduling",
    "CRM Data Updates & Management",
    "Email Marketing Automation",
    "Client Follow-up Sequences",
    "Document & Contract Review"]

  const CommercialTasks: seq<string> := [
    "Market Analysis & Reporting",
    "Property Valuation Automation",
    "Client Communication Management",
    "Deal Pipeline Tracking",
    "Financial Analysis Automation",
    "Lease Agreement Processing"]

  const PersonalInjuryTasks: seq<string> := [
    "Case Research & Analysis",
    "Document Drafting & Review",
    "Client Intake Automation",
    "Appointment Scheduling",
    "Invoice & Billing Management",
    "Client Communication Follow-up"]

  const FamilyLawTasks: seq<string> := [
    "Document Preparation",
    "Case Timeline Management",
    "Client Consultation Scheduling",
    "Court Filing Automation",
    "Client Progress Updates",
    "Legal Research Assistance"]

  const GeneralPracticeTasks: seq<string> := [
    "Patient Appointment Scheduling",
    "Medical Record Management",
    "Insurance Verification",
    "Prescription Management",
    "Patient Follow-up Communications",
    "Billing & Claims Processing"]

  const DentalTasks: seq<string> := [
    "Appointment Scheduling & Reminders",
    "Treatment Plan Creation",
    "Insurance Claims Processing",
    "Patient Communication",
    "Inventory Management",
    "Follow-up Care Coordination"]

  const ECommerceTasks: seq<string> := [
    "Customer Service Chatbots",
    "Inventory Management",
    "Order Processing Automation",
    "Personalized Marketing",
    "Returns & Refunds Processing",
    "Product Recommendation Engine"]

  const FoodProcessingTasks: seq<string> := [
    "Quality Control Monitoring",
    "Supply Chain Management",
    "Production Scheduling",
    "Inventory Optimization",
    "Compliance Reporting",
    "Equipment Maintenance Scheduling"]

  const AccountingTasks: seq<string> := [
    "Data Entry Automation",
    "Invoice Processing",
    "Tax Preparation Assistance",
    "Client Communication",
    "Report Generation",
    "Compliance Monitoring"]

  /** `aiOpportunities[industry]?.[niche]`: the six task labels listed for a
      niche, `undefined` (None) when the industry or the niche is not listed.
      Every label is non-empty and free of the `"|"` separator. */
  function Catalog(industry: string, niche: string): (r: Option<seq<string>>)
    ensures r.Some? ==> |r.value| == 6
  {
    match industry
    case "Real Estate" => (
      match niche
      case "Residential Sales" => Some(ResidentialSalesTasks)
      case "Commercial" => Some(CommercialTasks)
      case _ => None)
    case "Legal" => (
      match niche
      case "Personal Injury" => Some(PersonalInjuryTasks)
      case "Family Law" => Some(FamilyLawTasks)
      case _ => None)
    case "Healthcare" => (
      match niche
      case "General Practice" => Some(GeneralPracticeTasks)
      case "Dental" => Some(DentalTasks)
      case _ => None)
    case "Retail" => (
      match niche
      case "E-commerce" => Some(ECommerceTasks)
      case _ => None)
    case "Manufacturing" => (
      match niche
      case "Food Processing" => Some(FoodProcessingTasks)
      case _ => None)
    case "Professional Services" => (
      match niche
      case "Accounting" => Some(AccountingTasks)
      case _ => None)
    case _ => None
  }

  /** `aiOpportunities[industry]?.[niche] || []`: the listed labels, `[]` when
      the pair is not in the catalog. */
  function LookupOpportunities(industry: string, niche: string): (r: seq<string>)
    ensures Catalog(industry, niche).Some? ==> r == Catalog(industry, niche).value
    ensures Catalog(industry, niche).None? ==> r == []
    ensures Clean(r)
  {
    if Catalog(industry, niche).Some? then
      CatalogClean(industry, niche);
      Catalog(industry, niche).value
    else []
  }

  /** The separator the effect joins with. */
  const Separator: char := '|'

  /** A label without the separator character. */
  predicate NoSeparator(s: string) {
    forall k :: 0 <= k < |s| ==> s[k] != Separator
  }

  /** Labels that are non-empty and do not contain the separator. */
  predicate Clean(xs: seq<string>) {
    forall i :: 0 <= i < |xs| ==> xs[i] != "" && NoSeparator(xs[i])
  }

  /** `xs.join("|")`. */
  function Join(xs: seq<string>): string {
    if xs == [] then ""
    else if |xs| == 1 then xs[0]
    else xs[0] + [Separator] + Join(xs[1..])
  }

  /** A joined non-empty list starts with its first label. */
  lemma JoinStartsWithHead(xs: seq<string>)
    requires xs != []
    ensures |Join(xs)| >= |xs[0]| && Join(xs)[..|xs[0]|] == xs[0]
    ensures |xs| == 1 ==> Join(xs) == xs[0]
    ensures |xs| > 1 ==> Join(xs)[|xs[0]|..] == [Separator] + Join(xs[1..])
  {
    if |xs| > 1 {
      assert Join(xs) == xs[0] + ([Separator] + Join(xs[1..]));
    }
  }

  /** On lists of clean labels, `join("|")` loses nothing: equal joins come
      from equal lists. */
  lemma {:induction false} JoinInjective(xs: seq<string>, ys: seq<string>)
    requires Clean(xs) && Clean(ys)
    requires Join(xs) == Join(ys)
    ensures xs == ys
  {
    if xs != [] && ys != [] {
      var j, a, b := Join(xs), xs[0], ys[0];
      JoinStartsWithHead(xs);
      JoinStartsWithHead(ys);
      assert forall k :: 0 <= k < |a| ==> j[k] == j[..|a|][k] == a[k];
      assert forall k :: 0 <= k < |b| ==> j[k] == j[..|b|][k] == b[k];
      assert NoSeparator(a) && NoSeparator(b);
      if |xs| > 1 { assert j[|a|] == j[|a|..][0] == Separator; }
      if |ys| > 1 { assert j[|b|] == j[|b|..][0] == Separator; }
      assert |a| == |b|;
      assert a == b;
      if |xs| > 1 && |ys| > 1 {
        assert [Separator] + Join(xs[1..]) == [Separator] + Join(ys[1..]);
        assert Join(xs[1..]) == ([Separator] + Join(xs[1..]))[1..];
        assert Join(ys[1..]) == ([Separator] + Join(ys[1..]))[1..];
        assert Clean(xs[1..]) by {
          forall i | 0 <= i < |xs[1..]| ensures xs[1..][i] != "" && NoSeparator(xs[1..][i]) {
            assert xs[1..][i] == xs[i + 1];
          }
        }
        assert Clean(ys[1..]) by {
          forall i | 0 <= i < |ys[1..]| ensures ys[1..][i] != "" && NoSeparator(ys[1..][i]) {
            assert ys[1..][i] == ys[i + 1];
          }
        }
        JoinInjective(xs[1..], ys[1..]);
        assert xs == [a] + xs[1..] && ys == [b] + ys[1..];
      }
    } else if xs != [] {
      JoinStartsWithHead(xs);
    } else if ys != [] {
      JoinStartsWithHead(ys);
    }
  }

  lemma ResidentialSalesTasksClean()
    ensures Clean(ResidentialSalesTasks)
  {
    assert NoSeparator(ResidentialSalesTasks[0]);
    assert NoSeparator(ResidentialSalesTasks[1]);
    assert NoSeparator(ResidentialSalesTasks[2]);
    assert NoSeparator(ResidentialSalesTasks[3]);
    assert NoSeparator(ResidentialSalesTasks[4]);
    assert NoSeparator(ResidentialSalesTasks[5]);
  }

  lemma CommercialTasksClean()
    ensures Clean(CommercialTasks)
  {
    assert NoSeparator(CommercialTasks[0]);
    assert NoSeparator(CommercialTasks[1]);
    assert NoSeparator(CommercialTasks[2]);
    assert NoSeparator(CommercialTasks[3]);
    assert NoSeparator(CommercialTasks[4]);
    assert NoSeparator(CommercialTasks[5]);
  }

  lemma PersonalInjuryTasksClean()
    ensures Clean(PersonalInjuryTasks)
  {
    assert NoSeparator(PersonalInjuryTasks[0]);
    assert NoSeparator(PersonalInjuryTasks[1]);
    assert NoSeparator(PersonalInjuryTasks[2]);
    assert NoSeparator(PersonalInjuryTasks[3]);
    assert NoSeparator(PersonalInjuryTasks[4]);
    assert NoSeparator(PersonalInjuryTasks[5]);
  }

  lemma FamilyLawTasksClean()
    ensures Clean(FamilyLawTasks)
  {
    assert NoSeparator(FamilyLawTasks[0]);
    assert NoSeparator(FamilyLawTasks[1]);
    assert NoSeparator(FamilyLawTasks[2]);
    assert NoSeparator(FamilyLawTasks[3]);
    assert NoSeparator(FamilyLawTasks[4]);
    assert NoSeparator(FamilyLawTasks[5]);
  }

  lemma GeneralPracticeTasksClean()
    ensures Clean(GeneralPracticeTasks)
  {
    assert NoSeparator(GeneralPracticeTasks[0]);
    assert NoSeparator(GeneralPracticeTasks[1]);
    assert NoSeparator(GeneralPracticeTasks[2]);
    assert NoSeparator(GeneralPracticeTasks[3]);
    assert NoSeparator(GeneralPracticeTasks[4]);
    assert NoSeparator(GeneralPracticeTasks[5]);
  }

  lemma DentalTasksClean()
    ensures Clean(DentalTasks)
  {
    assert NoSeparator(DentalTasks[0]);
    assert NoSeparator(DentalTasks[1]);
    assert NoSeparator(DentalTasks[2]);
    assert NoSeparator(DentalTasks[3]);
    assert NoSeparator(DentalTasks[4]);
    assert NoSeparator(DentalTasks[5]);
  }

  lemma ECommerceTasksClean()
    ensures Clean(ECommerceTasks)
  {
    assert NoSeparator(ECommerceTasks[0]);
    assert NoSeparator(ECommerceTasks[1]);
    assert NoSeparator(ECommerceTasks[2]);
    assert NoSeparator(ECommerceTasks[3]);
    assert NoSeparator(ECommerceTasks[4]);
    assert NoSeparator(ECommerceTasks[5]);
  }

  lemma FoodProcessingTasksClean()
    ensures Clean(FoodProcessingTasks)
  {
    assert NoSeparator(FoodProcessingTasks[0]);
    assert NoSeparator(FoodProcessingTasks[1]);
    assert NoSeparator(FoodProcessingTasks[2]);
    assert NoSeparator(FoodProcessingTasks[3]);
    assert NoSeparator(FoodProcessingTasks[4]);
    assert NoSeparator(FoodProcessingTasks[5]);
  }

  lemma AccountingTasksClean()
    ensures Clean(AccountingTasks)
  {
    assert NoSeparator(AccountingTasks[0]);
    assert NoSeparator(AccountingTasks[1]);
    assert NoSeparator(AccountingTasks[2]);
    assert NoSeparator(AccountingTasks[3]);
    assert NoSeparator(AccountingTasks[4]);
    assert NoSeparator(AccountingTasks[5]);
  }

  /** Every listed label is non-empty and free of the separator. */
  lemma CatalogClean(industry: string, niche: string)
    requires Catalog(industry, niche).Some?
    ensures Clean(Catalog(industry, niche).value)
  {
    ResidentialSalesTasksClean();
    CommercialTasksClean();
    PersonalInjuryTasksClean();
    FamilyLawTasksClean();
    GeneralPracticeTasksClean();
    DentalTasksClean();
    ECommerceTasksClean();
    FoodProcessingTasksClean();
    AccountingTasksClean();
  }

  /** The effect writes when the joined lookup differs from the joined
      stored list. */
  predicate SyncWrites(d: BusinessData) {
    Join(LookupOpportunities(d.industry, d.niche)) != Join(d.aiOpportunities)
  }

  /** The record after the effect has run once. */
  function Sync(d: BusinessData): BusinessData {
    if SyncWrites(d)
    then Merge(d, NoChange.(aiOpportunities := Some(LookupOpportunities(d.industry, d.niche))))
    else d
  }

  /** The effect touches nothing but `aiOpportunities`, stores the lookup when
      it writes, and leaves the joined value equal to the joined lookup. */
  lemma SyncSpec(d: BusinessData)
    ensures Sync(d).(aiOpportunities := d.aiOpportunities) == d
    ensures SyncWrites(d) ==> Sync(d).aiOpportunities == LookupOpportunities(d.industry, d.niche)
    ensures !SyncWrites(d) ==> Sync(d) == d
    ensures Join(Sync(d).aiOpportunities) == Join(LookupOpportunities(d.industry, d.niche))
  {
  }

  /** Run again with the same industry and niche, the effect writes nothing. */
  lemma SyncIdempotent(d: BusinessData)
    ensures !SyncWrites(Sync(d))
    ensures Sync(Sync(d)) == Sync(d)
  {
    SyncSpec(d);
  }

  /** When the stored list is itself a catalog lookup, as every value the
      effect writes is, comparing joins decides sequence equality: after the
      effect the stored list is exactly the lookup for the current pair. */
  lemma SyncStoresLookup(d: BusinessData, previousIndustry: string, previousNiche: string)
    requires d.aiOpportunities == LookupOpportunities(previousIndustry, previousNiche)
    ensures Sync(d).aiOpportunities == LookupOpportunities(d.industry, d.niche)
    ensures !SyncWrites(d) <==> d.aiOpportunities == LookupOpportunities(d.industry, d.niche)
  {
    if !SyncWrites(d) {
      JoinInjective(LookupOpportunities(d.industry, d.niche), d.aiOpportunities);
    }
  }

  /** The start state (both strings empty, no list) needs no write. */
  lemma InitialNeedsNoSync()
    ensures !SyncWrites(InitialData)
  {
  }

  /** The effect in the shell: writes `aiOpportunities` through `update` only
      when the joined lookup differs, and says whether it wrote. */
  method SyncOpportunities(shell: Shell) returns (wrote: bool)
    requires shell.Valid()
    modifies shell
    ensures shell.Valid() && shell.step == old(shell.step)
    ensures wrote == SyncWrites(old(shell.data))
    ensures shell.data == Sync(old(shell.data))
  {
    if SyncWrites(shell.data) {
      var opportunities := LookupOpportunities(shell.data.industry, shell.data.niche);
      shell.Update(NoChange.(aiOpportunities := Some(opportunities)));
      wrote := true;
    } else {
      wrote := false;
    }
  }

  /** Every pair the catalog lists can be picked on the industry step. */
  lemma CatalogPairsSelectable(industry: string, niche: string)
    requires Catalog(industry, niche).Some?
    ensures niche in IndustrySelection.NichesOf(industry)
  {
    var k: nat :=
      match industry
      case "Healthcare" => 0
      case "Real Estate" => 1
      case "Legal" => 2
      case "Retail" => 3
      case "Manufacturing" => 4
      case _ => 5;
    assert IndustrySelection.Industries[k].name == industry;
    assert niche in IndustrySelection.Industries[k].niches;
    IndustrySelection.NichesOfListed(k);
  }

  /** Not every catalog label has a benchmark: Real Estate / Commercial lists
      "Property Valuation Automation", which the benchmark table lacks, so
      its savings are computed with the 60% default. */
  lemma CommercialLabelFallsBack()
    ensures LookupOpportunities("Real Estate", "Commercial")[1] == "Property Valuation Automation"
    ensures Savings.BenchmarkTable(LookupOpportunities("Real Estate", "Commercial")[1]) == None
    ensures Savings.SavingsPercentage(LookupOpportunities("Real Estate", "Commercial")[1]) == 60
  {
    Savings.Unlisted("Property Valuation Automation");
  }

  /** Healthcare / General Practice offers these six tasks, in this order. */
  lemma GeneralPracticeOpportunities()
    ensures LookupOpportunities("Healthcare", "General Practice") == [
      "Patient Appointment Scheduling", "Medical Record Management", "Insurance Verification",
      "Prescription Management", "Patient Follow-up Communications", "Billing & Claims Processing"]
  {
  }
}
