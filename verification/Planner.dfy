/** What the conversation still has to collect before it shows an advisory. */
module Readiness {
  import opened Wrappers
  import opened SessionModels

  datatype Item = ProposedBusiness | Location | OwnedAssets | TradeExperience | Years | LiquidCash

  const COLLECTION_ORDER: seq<Item> := [ProposedBusiness, Location, OwnedAssets, TradeExperience, Years, LiquidCash]

  predicate Answered(state: SlotState) {
    state == UserProvided || state == Declined
  }

  predicate ItemSatisfied(f: Facts, item: Item) {
    match item
    case ProposedBusiness => f.Satisfied(ProposedBusinessText)
    case Location => f.Satisfied(LocationText)
    case LiquidCash => f.Satisfied(LiquidCashInr)
    case OwnedAssets => Answered(f.assets.current.state)
    case TradeExperience => Answered(f.experience.current.state)
    case Years => f.Satisfied(YearsExperience) || f.State(YearsExperience) == Declined
  }

  function NextAsk(f: Facts, order: seq<Item>): (item: Option<Item>)
    ensures item.Some? ==> item.value in order && !ItemSatisfied(f, item.value)
    ensures item.None? <==> forall i :: i in order ==> ItemSatisfied(f, i)
  {
    if order == [] then None
    else if !ItemSatisfied(f, order[0]) then Some(order[0])
    else NextAsk(f, order[1..])
  }

  /** The four financial drivers in the order the finance engine reports them missing. */
  const DRIVERS: seq<SlotName> := [MonthlyRevenueInr, CogsPct, ProjectCostInr, FixedOpexInr]

  /** A plan has the driver only if the user stated a number for it. */
  predicate DriverGiven(f: Facts, driver: SlotName) {
    f.State(driver) == UserProvided && f.Of(driver).current.value.Some? && !f.Of(driver).current.value.value.Text?
  }

  predicate DriverOpen(f: Facts, driver: SlotName) {
    !DriverGiven(f, driver) && f.State(driver) != Declined
  }

  function NextDriver(f: Facts, drivers: seq<SlotName>): (driver: Option<SlotName>)
    ensures driver.Some? ==> driver.value in drivers && DriverOpen(f, driver.value)
    ensures driver.None? <==> forall d :: d in drivers ==> !DriverOpen(f, d)
  {
    if drivers == [] then None
    else if DriverOpen(f, drivers[0]) then Some(drivers[0])
    else NextDriver(f, drivers[1..])
  }

  // ---- figures the plan's input models take ----

  function Numeric(v: Option<Value>): Option<real> {
    match v
    case Some(Amount(a)) => Some(a)
    case Some(Count(n)) => Some(n as real)
    case _ => None
  }

  /** The number the user stated for a slot. */
  function Figure(f: Facts, name: SlotName): Option<real> {
    if f.State(name) == UserProvided then Numeric(f.Of(name).current.value) else None
  }

  predicate NotNegative(f: Facts, name: SlotName) {
    Figure(f, name).Some? ==> Figure(f, name).value >= 0.0
  }

  /** The profile holds whole numbers, cut towards zero before they are checked. */
  predicate NotNegativeWhole(f: Facts, name: SlotName) {
    Figure(f, name).Some? ==> Figure(f, name).value > -1.0
  }

  /** The slots whose figures go into the plan as they are. */
  const PLAN_FIGURES: set<SlotName> := {
    MonthlyRevenueInr, CogsPct, ProjectCostInr, FixedOpexInr, PromoterCashContributionInr,
    LoanPrincipalInr, LoanInterestRatePct, LoanTenureMonths, LoanMoratoriumMonths}

  /** `build_profile` succeeds. */
  predicate ProfileBuilds(f: Facts) {
    NotNegativeWhole(f, LiquidCashInr) && NotNegativeWhole(f, YearsExperience)
  }

  /** `build_plan_input` succeeds: the cash stands in for the contribution when none was stated. */
  predicate PlanBuilds(f: Facts) {
    && ProfileBuilds(f)
    && (forall n :: n in PLAN_FIGURES ==> NotNegative(f, n))
    && (Figure(f, PromoterCashContributionInr).None? ==> NotNegative(f, LiquidCashInr))
  }

  /** Every answer that goes into the plan as it stands must not be negative, and so must not the cash that stands in. */
  lemma PlanTakesNoNegative(f: Facts, n: SlotName)
    requires Figure(f, n).Some? && Figure(f, n).value < 0.0
    requires n !in {LocationText, ProposedBusinessText, RadiusM, LiquidCashInr, YearsExperience}
             || (n == LiquidCashInr && Figure(f, PromoterCashContributionInr).None?)
             || ((n == LiquidCashInr || n == YearsExperience) && Figure(f, n).value <= -1.0)
    ensures !PlanBuilds(f)
  {
  }

  /** And nothing else keeps the plan from being built. */
  lemma PlanBuildsOtherwise(f: Facts)
    requires forall n :: Figure(f, n).Some? && n != LiquidCashInr && n != YearsExperience ==> Figure(f, n).value >= 0.0
    requires forall n :: Figure(f, n).Some? ==> Figure(f, n).value > -1.0
    requires Figure(f, LiquidCashInr).Some? && Figure(f, LiquidCashInr).value < 0.0 ==>
               Figure(f, PromoterCashContributionInr).Some?
    ensures PlanBuilds(f)
  {
  }

  /** The four facts that make a loan; a plan has all of them or no loan of the user's. */
  const LOAN_FIGURES: seq<SlotName> := [LoanPrincipalInr, LoanInterestRatePct, LoanTenureMonths, LoanMoratoriumMonths]

  /** There is no loan to repay over no whole month, or no calculation yet because a driver is missing. */
  predicate LoanRepays(f: Facts) {
    (forall d :: d in DRIVERS ==> DriverGiven(f, d)) && (forall n :: n in LOAN_FIGURES ==> Figure(f, n).Some?) ==>
      Figure(f, LoanTenureMonths).value >= 1.0
  }

  /** `q_money`: to the paisa, halves away from zero; counted in paise. */
  function Paise(x: real): int {
    if x < 0.0 then -((-x * 100.0 + 0.5).Floor) else (x * 100.0 + 0.5).Floor
  }

  /** The nearest paise, of two the one further from nothing. */
  lemma PaiseIsNearest(x: real)
    ensures x >= 0.0 ==> Paise(x) as real - 0.5 <= x * 100.0 < Paise(x) as real + 0.5
    ensures Paise(-x) == -Paise(x)
  {
  }

  /**
   The loan indicated for the stated capital is not negative. The capital is a tenth of the cost and the loan the rest,
   and the micro-finance band covers negative costs too.
   */
  predicate CapacityComputes(f: Facts) {
    Figure(f, LiquidCashInr).Some? ==>
      Paise(Paise(Figure(f, LiquidCashInr).value / 0.1) as real / 100.0 * 0.9) >= 0
  }

  /** Any capital below nothing is too little, but for what rounding forgives. */
  lemma CapacityComputesExactlyWhenNotNegative(f: Facts)
    requires Figure(f, LiquidCashInr).Some?
    ensures CapacityComputes(f) <==> Figure(f, LiquidCashInr).value > -0.0005
  {
    var cash := Figure(f, LiquidCashInr).value;
    var cost := Paise(cash / 0.1);
    if cash <= -0.0005 { assert cost <= -1; }
  }

  /** The radius to search, cut to whole metres, is positive and within the limit; a refused radius is no number. */
  predicate RadiusSearches(f: Facts, defaultRadius: int, maxRadius: int) {
    if f.State(RadiusM) == Missing then 0 < defaultRadius <= maxRadius
    else
      var radius := Numeric(f.Of(RadiusM).current.value);
      radius.Some? && 1.0 <= radius.value < (maxRadius + 1) as real
  }
}

/** The turn-level decision ladder. */
module Planner {
  import opened Wrappers
  import opened SessionModels
  import opened Workflow
  import opened StepCache
  import opened Artifacts
  import opened Readiness

  type Advice = Session<StepId, Facts, Own, Reading, Payload>

  datatype Mode = Developer | Normal

  datatype NextAction =
    | End
    | AskContradiction
    | AskDisambiguation(slot: SlotName, options: seq<string>)
    | RunNext(step: StepId)
    | StageFailed(status: DiscoveryStatus)
    | AskBlocker(slot: SlotName)
    | AskItem(item: Item)
    | AskDriver(driver: SlotName)
    | DeliverFinal
    | DeliverPartial

  function SatisfiedSlots(f: Facts): set<SlotName> {
    set n | n in f.slots && f.Satisfied(n)
  }

  function DiscoverFailure(st: Advice): Option<DiscoveryStatus> {
    if Discover in st.artifacts && st.artifacts[Discover].payload.status in {LocationNotFound, SourceUnavailable}
    then Some(st.artifacts[Discover].payload.status) else None
  }

  function FirstMissingBlocker(f: Facts): Option<SlotName> {
    if f.State(ProposedBusinessText) == Missing then Some(ProposedBusinessText)
    else if f.State(LocationText) == Missing then Some(LocationText)
    else None
  }

  /** `isinstance(value, int | float)`: a money amount is a `Decimal`, which is neither. */
  predicate IsPlainNumber(v: Option<Value>) {
    v.Some? && v.value.Count?
  }

  predicate CashContradiction(f: Facts) {
    var cash, contribution := f.Of(LiquidCashInr).current.value, f.Of(PromoterCashContributionInr).current.value;
    && f.Satisfied(LiquidCashInr) && f.Satisfied(PromoterCashContributionInr)
    && IsPlainNumber(cash) && IsPlainNumber(contribution) && contribution.value.count > cash.value.count
  }

  predicate RadiusContradiction(f: Facts, maxRadius: int) {
    var radius := f.Of(RadiusM).current.value;
    f.State(RadiusM) == UserProvided && IsPlainNumber(radius) && radius.value.count > maxRadius
  }

  predicate Contradiction(f: Facts, maxRadius: int) {
    CashContradiction(f) || RadiusContradiction(f, maxRadius)
  }

  /** Runnable in rung 5: ready, and not resting directly on a failed discovery. */
  predicate Runnable(st: Advice, s: StepId) {
    && IsReady(st.artifacts.Keys, SatisfiedSlots(st.inputs), s)
    && (DiscoverFailure(st).Some? ==> Discover !in RequiredSteps(s))
  }

  /** `min(ready, key=DAG_ORDER.index)`. */
  function FirstRunnable(st: Advice, n: nat): (r: Option<StepId>)
    requires n <= |DAG_ORDER|
    ensures r.Some? ==> Runnable(st, r.value) && Index(r.value) >= n
                        && forall t :: Runnable(st, t) && Index(t) >= n ==> Index(r.value) <= Index(t)
    ensures r.None? <==> forall t :: Index(t) >= n ==> !Runnable(st, t)
    decreases |DAG_ORDER| - n
  {
    if n == |DAG_ORDER| then None
    else if Runnable(st, DAG_ORDER[n]) then IndexInverse(n); Some(DAG_ORDER[n])
    else IndexInverse(n); FirstRunnable(st, n + 1)
  }

  function Chosen(st: Advice, requested: Option<StepId>): (r: Option<StepId>)
    ensures r.Some? ==> Runnable(st, r.value)
    ensures r.None? <==> forall t :: !Runnable(st, t)
  {
    if requested.Some? && Runnable(st, requested.value) then requested else FirstRunnable(st, 0)
  }

  function Decide(st: Advice, requested: Option<StepId>, maxRadius: int, mode: Mode): NextAction {
    var f := st.inputs;
    if f.ended then End
    else if Contradiction(f, maxRadius) then AskContradiction
    else
      var ambiguous := FirstAmbiguous(f, f.slotOrder);
      if ambiguous.Some? then AskDisambiguation(ambiguous.value, f.Of(ambiguous.value).current.options)
      else
        var chosen := Chosen(st, requested);
        if chosen.Some? then RunNext(chosen.value)
        else if DiscoverFailure(st).Some? then StageFailed(DiscoverFailure(st).value)
        else if FirstMissingBlocker(f).Some? then AskBlocker(FirstMissingBlocker(f).value)
        else if mode == Normal && NextAsk(f, COLLECTION_ORDER).Some? then
          AskItem(NextAsk(f, COLLECTION_ORDER).value)
        else if mode == Normal && NextDriver(f, DRIVERS).Some? then AskDriver(NextDriver(f, DRIVERS).value)
        else if Recommend in st.artifacts then DeliverFinal
        else DeliverPartial
  }

  lemma DecideNames(st: Advice, requested: Option<StepId>, maxRadius: int, mode: Mode)
    requires Decide(st, requested, maxRadius, mode).RunNext?
    ensures Runnable(st, Decide(st, requested, maxRadius, mode).step)
    ensures requested == None ==>
              forall t :: Runnable(st, t) ==> Index(Decide(st, requested, maxRadius, mode).step) <= Index(t)
  {
    hide Runnable, Index;
  }

  // ---- the ladder never expands what is ready ----

  lemma RequestOnlyNarrows(st: Advice, requested: Option<StepId>, maxRadius: int, mode: Mode)
    requires Decide(st, requested, maxRadius, mode).RunNext?
    ensures var s := Decide(st, requested, maxRadius, mode).step;
            && Runnable(st, s) && Decide(st, None, maxRadius, mode).RunNext?
            && Index(Decide(st, None, maxRadius, mode).step) <= Index(s)
  {
    hide Runnable, Index, Contradiction, FirstAmbiguous, Chosen, NextAsk, NextDriver;
    ChoiceNarrows(st, requested);
  }

  lemma ChoiceNarrows(st: Advice, requested: Option<StepId>)
    requires Chosen(st, requested).Some?
    ensures Chosen(st, None).Some? && Index(Chosen(st, None).value) <= Index(Chosen(st, requested).value)
  {
    hide Runnable, Index;
  }

  // ---- delivery ----

  ghost predicate Opened(f: Facts) {
    f.Satisfied(ProposedBusinessText) && f.Satisfied(LocationText)
  }

  /** With both structural facts known and no failed discovery, the earliest missing step is always runnable. */
  lemma {:induction false} NothingRunnableMeansDone(st: Advice, s: StepId)
    requires Opened(st.inputs) && DiscoverFailure(st).None?
    requires forall t :: !Runnable(st, t)
    ensures s in st.artifacts
    decreases Index(s)
  {
    forall d | d in RequiredSteps(s) ensures d in st.artifacts {
      DependenciesPrecede(s, d);
      NothingRunnableMeansDone(st, d);
    }
    assert !Runnable(st, s);
  }

  /** A partial advisory is delivered only when the user declined to name the business or the place. */
  lemma PartialMeansDeclined(st: Advice, requested: Option<StepId>, maxRadius: int, mode: Mode)
    requires st.inputs.Valid()
    requires Decide(st, requested, maxRadius, mode) == DeliverPartial
    ensures mode == Developer
    ensures st.inputs.State(ProposedBusinessText) == Declined || st.inputs.State(LocationText) == Declined
  {
    hide Runnable, Index, Decide, FirstAmbiguous, NextAsk, Opened;
    var f := st.inputs;
    PartialParts(st, requested, maxRadius, mode);
    NothingPending(f);
    if mode == Normal { CollectedMeansOpened(f); }
    if Opened(f) { NothingRunnableMeansDone(st, Recommend); }
    NotOpenedMeansDeclined(f);
  }

  lemma PartialParts(st: Advice, requested: Option<StepId>, maxRadius: int, mode: Mode)
    requires Decide(st, requested, maxRadius, mode) == DeliverPartial
    ensures FirstAmbiguous(st.inputs, st.inputs.slotOrder).None? && DiscoverFailure(st).None?
    ensures FirstMissingBlocker(st.inputs).None? && Recommend !in st.artifacts && forall t :: !Runnable(st, t)
    ensures mode == Normal ==> NextAsk(st.inputs, COLLECTION_ORDER).None?
  {
    hide Runnable, Index, Contradiction, FirstAmbiguous, NextAsk, NextDriver, DiscoverFailure, FirstMissingBlocker;
  }

  lemma NotOpenedMeansDeclined(f: Facts)
    requires FirstMissingBlocker(f).None? && forall n :: f.State(n) != Ambiguous
    ensures Opened(f) || f.State(ProposedBusinessText) == Declined || f.State(LocationText) == Declined
  {
  }

  lemma CollectedMeansOpened(f: Facts)
    requires NextAsk(f, COLLECTION_ORDER).None?
    ensures Opened(f)
  {
  }

  /** A final advisory with both structural facts known rests on all twenty steps. */
  lemma FinalMeansEverythingRan(st: Advice, requested: Option<StepId>, maxRadius: int, mode: Mode, s: StepId)
    requires Decide(st, requested, maxRadius, mode) == DeliverFinal && Opened(st.inputs)
    ensures s in st.artifacts
  {
    NothingRunnableMeansDone(st, s);
  }

  // ---- the contribution check ----

  /** What the rung is there to catch. */
  predicate ContributionExceedsCash(f: Facts) {
    var cash, contribution := f.Of(LiquidCashInr).current.value, f.Of(PromoterCashContributionInr).current.value;
    && f.Satisfied(LiquidCashInr) && f.Satisfied(PromoterCashContributionInr)
    && cash.Some? && contribution.Some?
    && match (cash.value, contribution.value)
       case (Amount(a), Amount(b)) => b > a
       case (Amount(a), Count(b)) => b as real > a
       case (Count(a), Amount(b)) => b > a as real
       case (Count(a), Count(b)) => b > a
       case _ => false
  }

  /** The rung catches an excess contribution exactly when both figures are stored as plain integers. */
  lemma ContributionCaughtExactlyWhenPlain(f: Facts)
    ensures CashContradiction(f) <==>
              ContributionExceedsCash(f)
              && IsPlainNumber(f.Of(LiquidCashInr).current.value)
              && IsPlainNumber(f.Of(PromoterCashContributionInr).current.value)
  {
  }
}
