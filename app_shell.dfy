/** The funnel's shell: the one `BusinessData` record every step reads, its
    shallow-merge `update`, and the step counter that `next` and `back` move
    between 1 and 6 and that picks which step view is shown. */
module AppShell {
  import opened Wrappers
  import Records

  /** The shared form record. `spending` is a `Record<string, number>`. */
  datatype BusinessData = BusinessData(
    businessName: string,
    ownerName: string,
    email: string,
    industry: string,
    niche: string,
    aiOpportunities: seq<string>,
    spending: Records.Table,
    selectedConsultationAreas: seq<string>)

  /** The record the funnel starts from: every text empty, every list and the
      spending record empty. */
  const InitialData: BusinessData := BusinessData("", "", "", "", "", [], [], [])

  /** `Partial<BusinessData>`: a field is `Some` exactly when the object passed
      to `update` has that key. */
  datatype Partial = Partial(
    businessName: Option<string>,
    ownerName: Option<string>,
    email: Option<string>,
    industry: Option<string>,
    niche: Option<string>,
    aiOpportunities: Option<seq<string>>,
    spending: Option<Records.Table>,
    selectedConsultationAreas: Option<seq<string>>)

  /** `{}`: the partial with no keys. */
  const NoChange: Partial := Partial(None, None, None, None, None, None, None, None)

  /** `{ ...d, ...p }`: every key present in `p` takes its value from `p`
      (a sub-object such as `spending` is replaced whole), every other one
      keeps its value from `d`. */
  function Merge(d: BusinessData, p: Partial): (r: BusinessData)
    ensures p.spending.Some? ==> r.spending == p.spending.value
    ensures p.spending.None? ==> r.spending == d.spending
  {
    BusinessData(
      p.businessName.GetOr(d.businessName),
      p.ownerName.GetOr(d.ownerName),
      p.email.GetOr(d.email),
      p.industry.GetOr(d.industry),
      p.niche.GetOr(d.niche),
      p.aiOpportunities.GetOr(d.aiOpportunities),
      p.spending.GetOr(d.spending),
      p.selectedConsultationAreas.GetOr(d.selectedConsultationAreas))
  }

  /** `{ ...p, ...q }`: the keys of both partials, `q` winning where both have one. */
  function Combine(p: Partial, q: Partial): Partial {
    Partial(
      if q.businessName.Some? then q.businessName else p.businessName,
      if q.ownerName.Some? then q.ownerName else p.ownerName,
      if q.email.Some? then q.email else p.email,
      if q.industry.Some? then q.industry else p.industry,
      if q.niche.Some? then q.niche else p.niche,
      if q.aiOpportunities.Some? then q.aiOpportunities else p.aiOpportunities,
      if q.spending.Some? then q.spending else p.spending,
      if q.selectedConsultationAreas.Some? then q.selectedConsultationAreas else p.selectedConsultationAreas)
  }

  /** Field by field: a key of the partial overwrites, the others keep their old value. */
  lemma MergeFields(d: BusinessData, p: Partial)
    ensures var r := Merge(d, p);
      && r.businessName == (if p.businessName.Some? then p.businessName.value else d.businessName)
      && r.ownerName == (if p.ownerName.Some? then p.ownerName.value else d.ownerName)
      && r.email == (if p.email.Some? then p.email.value else d.email)
      && r.industry == (if p.industry.Some? then p.industry.value else d.industry)
      && r.niche == (if p.niche.Some? then p.niche.value else d.niche)
      && r.aiOpportunities == (if p.aiOpportunities.Some? then p.aiOpportunities.value else d.aiOpportunities)
      && r.spending == (if p.spending.Some? then p.spending.value else d.spending)
      && r.selectedConsultationAreas ==
         (if p.selectedConsultationAreas.Some? then p.selectedConsultationAreas.value else d.selectedConsultationAreas)
  {
  }

  /** `update({})` changes nothing. */
  lemma MergeNoChange(d: BusinessData)
    ensures Merge(d, NoChange) == d
  {
  }

  /** Applying the same partial twice is the same as applying it once. */
  lemma MergeIdempotent(d: BusinessData, p: Partial)
    ensures Merge(Merge(d, p), p) == Merge(d, p)
  {
  }

  /** Two updates in a row are one update with the combined partial. */
  lemma MergeCombine(d: BusinessData, p: Partial, q: Partial)
    ensures Merge(Merge(d, p), q) == Merge(d, Combine(p, q))
  {
  }

  /** The number of steps of the funnel. */
  const StepCount: int := 6

  /** `Math.min(step + 1, 6)`. */
  function NextStep(step: int): int {
    if step + 1 < StepCount then step + 1 else StepCount
  }

  /** `Math.max(step - 1, 1)`. */
  function BackStep(step: int): int {
    if step - 1 > 1 then step - 1 else 1
  }

  /** A step is a position of the six-step funnel. */
  predicate ValidStep(step: int) {
    1 <= step <= StepCount
  }

  /** A press of a forward or of a back button. */
  datatype Move = Forward | Backward

  /** The step reached from `step` by a sequence of moves. */
  function Run(step: int, moves: seq<Move>): int
    decreases moves
  {
    if moves == [] then step
    else Run(if moves[0] == Forward then NextStep(step) else BackStep(step), moves[1..])
  }

  /** `n` presses of next in a row. */
  function NextTimes(step: int, n: nat): int
    decreases n
  {
    if n == 0 then step else NextTimes(NextStep(step), n - 1)
  }

  /** `n` presses of back in a row. */
  function BackTimes(step: int, n: nat): int
    decreases n
  {
    if n == 0 then step else BackTimes(BackStep(step), n - 1)
  }

  /** Next advances by one below the last step and does nothing at it. */
  lemma NextStepSpec(step: int)
    requires ValidStep(step)
    ensures ValidStep(NextStep(step))
    ensures step < StepCount ==> NextStep(step) == step + 1
    ensures step == StepCount ==> NextStep(step) == step
  {
  }

  /** Back retreats by one above the first step and does nothing at it. */
  lemma BackStepSpec(step: int)
    requires ValidStep(step)
    ensures ValidStep(BackStep(step))
    ensures step > 1 ==> BackStep(step) == step - 1
    ensures step == 1 ==> BackStep(step) == step
  {
  }

  /** No sequence of next and back presses leaves the range 1..6, so `step - 1`
      always indexes the six-element segment array. */
  lemma {:induction false} RunStaysValid(step: int, moves: seq<Move>)
    requires ValidStep(step)
    ensures ValidStep(Run(step, moves))
    decreases moves
  {
    if moves != [] {
      RunStaysValid(if moves[0] == Forward then NextStep(step) else BackStep(step), moves[1..]);
    }
  }

  /** `n` presses of next move forward by `n`, stopping at the last step. */
  lemma {:induction false} NextTimesSpec(step: int, n: nat)
    requires ValidStep(step)
    ensures NextTimes(step, n) == if step + n < StepCount then step + n else StepCount
    decreases n
  {
    if n > 0 {
      NextTimesSpec(NextStep(step), n - 1);
    }
  }

  /** `n` presses of back move backward by `n`, stopping at the first step. */
  lemma {:induction false} BackTimesSpec(step: int, n: nat)
    requires ValidStep(step)
    ensures BackTimes(step, n) == if step - n > 1 then step - n else 1
    decreases n
  {
    if n > 0 {
      BackTimesSpec(BackStep(step), n - 1);
    }
  }

  /** From the first step, `n` nexts reach `min(1 + n, 6)`; from the last,
      `n` backs reach `max(6 - n, 1)`; a hundred of either ends at the bound. */
  lemma RepeatedMoves(n: nat)
    ensures NextTimes(1, n) == if 1 + n < 6 then 1 + n else 6
    ensures BackTimes(6, n) == if 6 - n > 1 then 6 - n else 1
    ensures NextTimes(1, 100) == 6 && BackTimes(6, 100) == 1
  {
    NextTimesSpec(1, n);
    BackTimesSpec(6, n);
    NextTimesSpec(1, 100);
    BackTimesSpec(6, 100);
  }

  /** The six step views, in funnel order. */
  datatype Segment = LeadCaptureView | IndustryView | OpportunitiesView
                   | SpendingView | DashboardView | ConsultationView

  /** The segment array indexed by `step - 1`. */
  const Segments: seq<Segment> :=
    [LeadCaptureView, IndustryView, OpportunitiesView, SpendingView, DashboardView, ConsultationView]

  /** The step at which a segment is shown (its key in the array). */
  function StepOf(s: Segment): int {
    match s
    case LeadCaptureView => 1
    case IndustryView => 2
    case OpportunitiesView => 3
    case SpendingView => 4
    case DashboardView => 5
    case ConsultationView => 6
  }

  /** `[...][step - 1]`: the view shown at a step; the step it is shown at is
      that step again, so every step shows a different view. */
  function SegmentAt(step: int): (s: Segment)
    requires ValidStep(step)
    ensures StepOf(s) == step
  {
    Segments[step - 1]
  }

  /** Width of the progress bar in percent, `(step / 6) * 100`. */
  function ProgressWidth(step: int): real {
    step as real / StepCount as real * 100.0
  }

  /** The bar is never empty and never overfull, grows with every step, and is
      full exactly at the last step. */
  lemma ProgressWidthSpec(step: int)
    requires ValidStep(step)
    ensures 0.0 < ProgressWidth(step) <= 100.0
    ensures ProgressWidth(step) == 100.0 <==> step == StepCount
    ensures step < StepCount ==> ProgressWidth(step) < ProgressWidth(step + 1)
  {
  }

  /** `AppShell`'s state: the current step and the form record. */
  class Shell {
    var step: int
    var data: BusinessData

    ghost predicate Valid()
      reads this
    {
      ValidStep(step)
    }

    /** The state the funnel starts in: step 1 and the empty record. */
    constructor ()
      ensures Valid()
      ensures step == 1 && data == InitialData
    {
      step := 1;
      data := InitialData;
    }

    /** `update(d)`: merge a partial into the record; the step stays. */
    method Update(p: Partial)
      requires Valid()
      modifies this
      ensures Valid()
      ensures data == Merge(old(data), p)
      ensures step == old(step)
    {
      data := Merge(data, p);
    }

    /** `next()`: one step forward, at most to step 6; the record stays. */
    method Next()
      requires Valid()
      modifies this
      ensures Valid()
      ensures step == NextStep(old(step))
      ensures data == old(data)
    {
      step := NextStep(step);
    }

    /** `back()`: one step back, at least to step 1; the record stays. */
    method Back()
      requires Valid()
      modifies this
      ensures Valid()
      ensures step == BackStep(old(step))
      ensures data == old(data)
    {
      step := BackStep(step);
    }

    /** The view shown at the current step. */
    function Segment(): (s: Segment)
      reads this
      requires Valid()
      ensures StepOf(s) == step
    {
      SegmentAt(step)
    }
  }
}
