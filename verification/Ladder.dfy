/** What the planner decides, rung by rung, told from the slots and the results. */
module Ladder {
  import opened Wrappers
  import opened SessionModels
  import opened Workflow
  import opened Artifacts
  import opened Readiness
  import opened Planner
  import opened Dialogue
  import Q = Questions

  // ---- what each rung looks for ----

  /** The user stated a whole number of metres above the limit. */
  predicate TooFar(f: Facts, maxRadius: int) {
    f.State(RadiusM) == UserProvided &&
    match f.Of(RadiusM).current.value
    case Some(Count(metres)) => metres > maxRadius
    case _ => false
  }

  /** Cash and contribution are known as whole numbers, and the contribution is the greater. */
  predicate TooMuch(f: Facts) {
    Known(f, LiquidCashInr) && Known(f, PromoterCashContributionInr) &&
    match (f.Of(LiquidCashInr).current.value, f.Of(PromoterCashContributionInr).current.value)
    case (Some(Count(cash)), Some(Count(contribution))) => contribution > cash
    case _ => false
  }

  predicate Known(f: Facts, name: SlotName) {
    f.State(name) in {UserProvided, Sourced, Assumed, Calculated}
  }

  ghost predicate Pending(f: Facts) {
    exists n :: f.State(n) == Ambiguous
  }

  predicate Failed(st: Advice) {
    Discover in st.artifacts &&
    (st.artifacts[Discover].payload.status == LocationNotFound
     || st.artifacts[Discover].payload.status == SourceUnavailable)
  }

  /** The step has no result, everything it needs has one, its gate is open, and discovery did not fail beneath it. */
  ghost predicate CanRun(st: Advice, s: StepId) {
    && s !in st.artifacts && (forall d :: d in RequiredSteps(s) ==> d in st.artifacts)
    && (s == ResolveProposed ==> Known(st.inputs, ProposedBusinessText))
    && (s == Discover ==> Known(st.inputs, LocationText))
    && (Failed(st) ==> Discover !in RequiredSteps(s))
  }

  /** The item was neither told nor, where that is allowed, refused. */
  predicate Wanting(f: Facts, item: Item) {
    match item
    case ProposedBusiness => !Known(f, ProposedBusinessText)
    case Location => !Known(f, LocationText)
    case OwnedAssets => f.assets.current.state != UserProvided && f.assets.current.state != Declined
    case TradeExperience => f.experience.current.state != UserProvided && f.experience.current.state != Declined
    case Years => !Known(f, YearsExperience) && f.State(YearsExperience) != Declined
    case LiquidCash => !Known(f, LiquidCashInr)
  }

  /** The user gave no number for the driver and did not refuse one. */
  predicate Lacking(f: Facts, driver: SlotName) {
    f.State(driver) != Declined &&
    (f.State(driver) == UserProvided ==>
       match f.Of(driver).current.value
       case Some(Amount(_)) => false
       case Some(Count(_)) => false
       case _ => true)
  }

  // ---- the rungs ----

  /** Nothing is wrong and nothing is to be chosen. */
  ghost predicate PastQuestions(st: Advice, maxRadius: int) {
    !st.inputs.ended && !TooFar(st.inputs, maxRadius) && !TooMuch(st.inputs) && !Pending(st.inputs)
  }

  /** Besides, nothing can run, discovery has not failed, and business and place have been spoken of. */
  ghost predicate PastRuns(st: Advice, maxRadius: int) {
    && PastQuestions(st, maxRadius) && (forall s :: !CanRun(st, s)) && !Failed(st)
    && st.inputs.State(ProposedBusinessText) != Missing && st.inputs.State(LocationText) != Missing
  }

  lemma ContradictionIsTold(f: Facts, maxRadius: int)
    ensures Contradiction(f, maxRadius) <==> TooFar(f, maxRadius) || TooMuch(f)
  {
  }

  lemma ChosenIsTold(st: Advice, requested: Option<StepId>)
    ensures Chosen(st, requested).None? <==> forall s :: !CanRun(st, s)
  {
    hide Runnable, CanRun;
    forall s ensures Runnable(st, s) <==> CanRun(st, s) { RunnableIsTold(st, s); }
  }

  lemma RunnableIsTold(st: Advice, s: StepId)
    ensures Runnable(st, s) <==> CanRun(st, s)
  {
    hide RequiredSteps;
    forall n ensures n in SatisfiedSlots(st.inputs) <==> Known(st.inputs, n) { }
    if s == ResolveProposed { assert RequiredSlots(s) == [ProposedBusinessText]; }
    if s == Discover { assert RequiredSlots(s) == [LocationText]; }
  }

  lemma FailureIsTold(st: Advice)
    ensures DiscoverFailure(st) == if Failed(st) then Some(st.artifacts[Discover].payload.status) else None
  {
  }

  lemma {:induction false} PendingIsFirst(f: Facts, order: seq<SlotName>) returns (k: nat)
    requires FirstAmbiguous(f, order).Some?
    ensures k < |order| && order[k] == FirstAmbiguous(f, order).value
    ensures forall j :: 0 <= j < k ==> f.State(order[j]) != Ambiguous
  {
    if f.State(order[0]) == Ambiguous {
      k := 0;
    } else {
      var rest := PendingIsFirst(f, order[1..]);
      k := rest + 1;
      assert forall j :: 1 <= j < k ==> order[j] == order[1..][j - 1];
    }
  }

  lemma PendingIsTold(f: Facts)
    requires f.Valid()
    ensures FirstAmbiguous(f, f.slotOrder).Some? <==> Pending(f)
  {
    if FirstAmbiguous(f, f.slotOrder).None? { NothingPending(f); }
  }

  /** An ended session, then a contradiction, then a pending choice, each outranking what comes after it. */
  lemma FirstRungs(st: Advice, requested: Option<StepId>, maxRadius: int, mode: Mode)
    requires st.inputs.Valid()
    ensures var f, action := st.inputs, Decide(st, requested, maxRadius, mode);
            && (action.End? <==> f.ended)
            && (action.AskContradiction? <==> !f.ended && (TooFar(f, maxRadius) || TooMuch(f)))
            && (action.AskDisambiguation? <==> !f.ended && !TooFar(f, maxRadius) && !TooMuch(f) && Pending(f))
            && (action.AskDisambiguation? ==>
                  && f.State(action.slot) == Ambiguous && action.options == f.Of(action.slot).current.options
                  && exists k :: 0 <= k < |f.slotOrder| && f.slotOrder[k] == action.slot
                                 && forall j :: 0 <= j < k ==> f.State(f.slotOrder[j]) != Ambiguous)
  {
    hide Contradiction, TooFar, TooMuch, FirstAmbiguous, Chosen, DiscoverFailure, FirstMissingBlocker, NextAsk,
      NextDriver, Pending;
    var f := st.inputs;
    ContradictionIsTold(f, maxRadius);
    PendingIsTold(f);
    if FirstAmbiguous(f, f.slotOrder).Some? { var k := PendingIsFirst(f, f.slotOrder); }
  }

  /** Then the requested step if it can run, and else the earliest that can. */
  lemma RunRung(st: Advice, requested: Option<StepId>, maxRadius: int, mode: Mode)
    requires st.inputs.Valid()
    ensures var action := Decide(st, requested, maxRadius, mode);
            && (action.RunNext? <==> PastQuestions(st, maxRadius) && exists s :: CanRun(st, s))
            && (action.RunNext? ==>
                  && CanRun(st, action.step)
                  && if requested.Some? && CanRun(st, requested.value) then action.step == requested.value
                     else forall s :: CanRun(st, s) ==> Index(action.step) <= Index(s))
  {
    hide Contradiction, TooFar, TooMuch, FirstAmbiguous, DiscoverFailure, FirstMissingBlocker, NextAsk, NextDriver,
      Pending, Runnable, CanRun, Index;
    ContradictionIsTold(st.inputs, maxRadius);
    PendingIsTold(st.inputs);
    forall s ensures Runnable(st, s) <==> CanRun(st, s) { RunnableIsTold(st, s); }
  }

  /** Then a failed discovery, and a business or a place nobody has spoken of. */
  lemma StopRungs(st: Advice, requested: Option<StepId>, maxRadius: int, mode: Mode)
    requires st.inputs.Valid()
    ensures var f, action := st.inputs, Decide(st, requested, maxRadius, mode);
            var stops := PastQuestions(st, maxRadius) && forall s :: !CanRun(st, s);
            && (action.StageFailed? <==> stops && Failed(st))
            && (action.StageFailed? ==> action.status == st.artifacts[Discover].payload.status)
            && (action.AskBlocker? <==>
                  stops && !Failed(st) && (f.State(ProposedBusinessText) == Missing || f.State(LocationText) == Missing))
            && (action.AskBlocker? ==>
                  action.slot == if f.State(ProposedBusinessText) == Missing then ProposedBusinessText else LocationText)
  {
    hide Contradiction, TooFar, TooMuch, FirstAmbiguous, DiscoverFailure, NextAsk, NextDriver, Pending, Chosen, CanRun,
      Failed, Index;
    ContradictionIsTold(st.inputs, maxRadius);
    PendingIsTold(st.inputs);
    FailureIsTold(st);
    ChosenIsTold(st, requested);
  }

  lemma WantingIsTold(f: Facts, item: Item)
    ensures ItemSatisfied(f, item) <==> !Wanting(f, item)
  {
  }

  lemma LackingIsTold(f: Facts, driver: SlotName)
    ensures DriverOpen(f, driver) <==> Lacking(f, driver)
  {
  }

  lemma CollectionIsTold(f: Facts)
    ensures var ask := NextAsk(f, COLLECTION_ORDER);
            && (ask.None? <==> forall i :: i in COLLECTION_ORDER ==> !Wanting(f, i))
            && (ask.Some? ==> FirstWanting(f, ask.value))
    ensures var next := NextDriver(f, DRIVERS);
            && (next.None? <==> forall d :: d in DRIVERS ==> !Lacking(f, d))
            && (next.Some? ==> FirstLacking(f, next.value))
  {
    hide ItemSatisfied, Wanting, DriverOpen, Lacking;
    forall i ensures ItemSatisfied(f, i) <==> !Wanting(f, i) { WantingIsTold(f, i); }
    forall d ensures DriverOpen(f, d) <==> Lacking(f, d) { LackingIsTold(f, d); }
    if NextAsk(f, COLLECTION_ORDER).Some? { var k := Q.NextAskIsFirst(f, COLLECTION_ORDER); }
    if NextDriver(f, DRIVERS).Some? { var k := Q.NextDriverIsFirst(f, DRIVERS); }
  }

  /** The first item, in the order of collection, that is wanting. */
  ghost predicate FirstWanting(f: Facts, item: Item) {
    exists k :: 0 <= k < |COLLECTION_ORDER| && COLLECTION_ORDER[k] == item && Wanting(f, item)
                && forall j :: 0 <= j < k ==> !Wanting(f, COLLECTION_ORDER[j])
  }

  ghost predicate FirstLacking(f: Facts, driver: SlotName) {
    exists k :: 0 <= k < |DRIVERS| && DRIVERS[k] == driver && Lacking(f, driver)
                && forall j :: 0 <= j < k ==> !Lacking(f, DRIVERS[j])
  }

  /** Last, in NORMAL mode, the first item wanting or else the first driver lacking; and else what there is is delivered. */
  lemma LastRungs(st: Advice, requested: Option<StepId>, maxRadius: int, mode: Mode)
    requires st.inputs.Valid()
    ensures var f, action := st.inputs, Decide(st, requested, maxRadius, mode);
            var collected := forall i :: i in COLLECTION_ORDER ==> !Wanting(f, i);
            var driven := forall d :: d in DRIVERS ==> !Lacking(f, d);
            && (action.AskItem? <==> PastRuns(st, maxRadius) && mode == Normal && !collected)
            && (action.AskItem? ==> FirstWanting(f, action.item))
            && (action.AskDriver? <==> PastRuns(st, maxRadius) && mode == Normal && collected && !driven)
            && (action.AskDriver? ==> FirstLacking(f, action.driver))
            && (action.DeliverFinal? <==>
                  PastRuns(st, maxRadius) && (mode == Normal ==> collected && driven) && Recommend in st.artifacts)
            && (action.DeliverPartial? <==>
                  PastRuns(st, maxRadius) && (mode == Normal ==> collected && driven) && Recommend !in st.artifacts)
  {
    hide Contradiction, TooFar, TooMuch, FirstAmbiguous, DiscoverFailure, NextAsk, NextDriver, Pending, Chosen, CanRun,
      Failed, Index, Wanting, Lacking, FirstWanting, FirstLacking;
    ContradictionIsTold(st.inputs, maxRadius);
    PendingIsTold(st.inputs);
    FailureIsTold(st);
    CollectionIsTold(st.inputs);
    ChosenIsTold(st, requested);
  }

  // ---- conversations ----

  /**
   In any conversation the planner objects exactly when the present radius, as a whole number the user stated, exceeds the
   limit, whether or not a choice is pending; and asks for a choice exactly when one is pending and it does not.
   */
  lemma ObjectsExactlyWhenTooFar(
    number: Number, e: Engine, said: seq<Said>, requested: Option<StepId>, maxRadius: int, mode: Mode)
    ensures var st := Talk(number, e, FirstSession(e), said);
            var f, action := st.inputs, Decide(st, requested, maxRadius, mode);
            && (action.AskContradiction? <==> !f.ended && TooFar(f, maxRadius))
            && (action.AskDisambiguation? <==> !f.ended && !TooFar(f, maxRadius) && Pending(f))
  {
    hide *;
    var st := Talk(number, e, FirstSession(e), said);
    BlankIsSincere(number);
    FirstIsBlank(e);
    TalkContinues(number, e, FirstSession(e), said);
    Q.SincereIsValid(number, st.inputs);
    FirstRungs(st, requested, maxRadius, mode);
    ContributionRungNeverFires(number, e, said);
    CashIsTold(st.inputs);
  }

  lemma CashIsTold(f: Facts)
    ensures CashContradiction(f) <==> TooMuch(f)
  {
  }
}
