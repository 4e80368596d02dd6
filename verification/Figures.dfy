/**
 Which messages of a conversation are lost over their figures; and how a loan over no whole month, taken while a driver
 is missing, stands in the way of every answer to the last one.
 */
module Figures {
  import opened Wrappers
  import opened SessionModels
  import opened Workflow
  import opened Artifacts
  import opened Readiness
  import opened Planner
  import opened Turn
  import opened Raising
  import opened Dialogue
  import opened Questions
  import opened CoreSteps
  import C = Containment
  import D = Deltas

  // ---- what is kept rests on no refused figure ----

  /** A plan is there only if the present figures make one, an assessment only if the present loan, if any, repays. */
  ghost predicate Supported(st: Advice) {
    && (BuildPlan in st.artifacts ==> PlanBuilds(st.inputs))
    && (AssessFinance in st.artifacts ==> LoanRepays(st.inputs))
  }

  ghost predicate Standing(e: Engine, st: Advice) {
    C.Swept(e, st) && Supported(st)
  }

  /** The plan declares every figure that its models and the debt engine check. */
  lemma PlanDeclaresFigures(e: Engine, f: Facts, g: Facts)
    requires OwnInputs(e, BuildPlan, f) == OwnInputs(e, BuildPlan, g)
    ensures SameChecks(f, g)
  {
    hide SameChecks;
    forall n | n !in {LocationText, RadiusM, ProposedBusinessText}
      ensures Figure(f, n) == Figure(g, n) && DriverGiven(f, n) == DriverGiven(g, n)
    {
      PlanDeclares(n);
      SameDeclaredSameSlot(e, f, g, n);
    }
    FiguresDecide(f, g);
  }

  lemma PlanDeclares(n: SlotName)
    requires n !in {LocationText, RadiusM, ProposedBusinessText}
    ensures n in StepInputSlots(BuildPlan)
  {
  }

  lemma SameDeclaredSameSlot(e: Engine, f: Facts, g: Facts, n: SlotName)
    requires OwnInputs(e, BuildPlan, f) == OwnInputs(e, BuildPlan, g) && n in StepInputSlots(BuildPlan)
    ensures f.State(n) == g.State(n) && f.Of(n).current.value == g.Of(n).current.value
  {
    hide StepInputSlots;
    var names := StepInputSlots(BuildPlan);
    var k :| 0 <= k < |names| && names[k] == n;
    assert OwnInputs(e, BuildPlan, f).slots[k] == OwnInputs(e, BuildPlan, g).slots[k];
  }

  lemma AssessmentReadsPlan(e: Engine)
    ensures Advisor(e).WellOrdered() && AssessFinance in Advisor(e).order
    ensures Reads(Advisor(e), AssessFinance, BuildPlan)
  {
    hide *;
    AdvisorIsWellOrdered(e);
    AdvisorParts(e);
    EveryStepIsListed(AssessFinance);
    FinanceEdges();
    C.ReadsOn(e, BindPlan, BuildPlan, BuildPlan);
    C.ReadsOn(e, AssessFinance, BindPlan, BuildPlan);
  }

  lemma FinanceEdges()
    ensures BuildPlan in FingerprintUpstream(BindPlan) && BindPlan in FingerprintUpstream(AssessFinance)
    ensures BuildPlan in C.CORE
  {
  }

  lemma SweepStaysSupported(e: Engine, st: Advice, f: Facts)
    requires Standing(e, st)
    ensures Advisor(e).Known(st.(inputs := f)) && Standing(e, Advisor(e).Invalidated(st.(inputs := f)))
  {
    hide Advisor, C.CORE, C.MARKET_STEPS, PlanBuilds, LoanRepays, OwnInputs, Reads, SameChecks, C.Contained;
    C.SweepKeeps(e, st, f);
    FinanceEdges();
    AssessmentReadsPlan(e);
    var kept := Advisor(e).Invalidated(st.(inputs := f));
    if BuildPlan in kept.artifacts {
      FreshDeclares(e, st, BuildPlan);
      FreshDeclares(e, kept, BuildPlan);
      PlanDeclaresFigures(e, st.inputs, f);
      SameChecksParts(st.inputs, f);
    }
  }

  lemma SameChecksParts(f: Facts, g: Facts)
    requires SameChecks(f, g)
    ensures PlanBuilds(g) == PlanBuilds(f) && LoanRepays(g) == LoanRepays(f)
  {
    hide PlanBuilds, LoanRepays, ProfileBuilds;
  }

  lemma FreshDeclares(e: Engine, st: Advice, t: StepId)
    requires Advisor(e).Known(st) && t in st.artifacts && Advisor(e).IsFresh(st, t)
    ensures st.artifacts[t].fingerprint.own == OwnInputs(e, t, st.inputs)
  {
    AdvisorParts(e);
  }

  lemma {:induction false} LoopStaysSupported(c: Context, st: Advice, requested: Option<StepId>)
    requires Standing(c.engine, st) && Proper(c, st) && !Raises(c, st, requested)
    ensures Standing(c.engine, Loop(c, st, requested))
    decreases ALL_STEPS - st.artifacts.Keys
  {
    hide Advisor, Decide, Runnable, Raises, Loop, C.Swept, Supported, StepRaises;
    var p, action := Advisor(c.engine), Decide(st, requested, c.maxRadius, c.mode);
    LoopUnfolds(c, st, requested);
    RaisesUnfolds(c, st, requested);
    if action.RunNext? && !c.fails(action.step) {
      var s := action.step;
      StepIsNew(c, st, requested);
      C.RunKeeps(c.engine, st, s);
      RunStaysSupported(c, st, s);
      LoopStaysSupported(c, p.RunStep(st, s), None);
    }
  }

  lemma RunStaysSupported(c: Context, st: Advice, s: StepId)
    requires Supported(st) && !StepRaises(c, st.inputs, s)
    requires Advisor(c.engine).WellOrdered() && Advisor(c.engine).Loadable(st, s)
    ensures Supported(Advisor(c.engine).RunStep(st, s))
  {
    hide Advisor, PlanBuilds, LoanRepays, ProfileBuilds, Write, RadiusSearches;
    var p := Advisor(c.engine);
    p.RunStepShape(st, s);
    AdvisorParts(c.engine);
    WriteKeepsFigures(c.engine, s, st.inputs, p.Answer(st, s));
  }

  lemma ReplyStaysSupported(number: Number, e: Engine, st: Advice, m: Said)
    requires Advisor(e).Known(st) && Standing(e, st)
    ensures Standing(e, SweptBy(number, e, st, m)) && Standing(e, Reply(number, e, st, m))
  {
    hide Advisor, Standing, Raises, Loop, Heard;
    SweepStaysSupported(e, st, Heard(number, st.inputs, m));
    if !Lost(number, e, st, m) {
      LoopStaysSupported(Circumstances(e, m), SweptBy(number, e, st, m), m.requested);
    }
  }

  lemma {:induction false} TalkStaysSupported(number: Number, e: Engine, st: Advice, said: seq<Said>)
    requires Advisor(e).Known(st) && Standing(e, st)
    ensures Standing(e, Talk(number, e, st, said))
    decreases |said|
  {
    hide Advisor, Standing, Reply;
    if said != [] {
      ReplyStaysSupported(number, e, st, said[0]);
      TalkStaysSupported(number, e, Reply(number, e, st, said[0]), said[1..]);
    }
  }

  /** In every conversation: no plan is kept over a refused figure, and no assessment over a loan without a month. */
  lemma NothingRestsOnRefused(number: Number, e: Engine, said: seq<Said>, m: Said)
    ensures var st := Talk(number, e, FirstSession(e), said);
            Supported(st) && Supported(SweptBy(number, e, st, m))
  {
    hide Advisor, Reply, C.CORE, C.MARKET_STEPS, Supported, SweptBy, Talk;
    FirstStands(e);
    TalkStaysSupported(number, e, FirstSession(e), said);
    ReplyStaysSupported(number, e, Talk(number, e, FirstSession(e), said), m);
  }

  lemma FirstStands(e: Engine)
    ensures Standing(e, FirstSession(e))
  {
    hide Advisor, C.CORE, C.MARKET_STEPS;
    C.StartIsKept(e, BLANK);
  }

  // ---- what the models and engines see ----

  lemma CutTowardsZero(x: real, limit: int)
    requires limit >= 0
    ensures D.Truncate(x) < 0 <==> x <= -1.0
    ensures D.Truncate(x) <= limit <==> x < (limit + 1) as real
  {
  }

  /** The figure stated for a slot, or nothing. */
  function Told(f: Facts, n: SlotName): real {
    if Figure(f, n).Some? then Figure(f, n).value else 0.0
  }

  /** The plan's models take no such figure for the slot. */
  predicate Objectionable(f: Facts, n: SlotName) {
    Told(f, n) < 0.0 &&
    match n
    case LocationText => false
    case ProposedBusinessText => false
    case RadiusM => false
    case YearsExperience => D.Truncate(Told(f, n)) < 0
    case LiquidCashInr => D.Truncate(Told(f, n)) < 0 || Figure(f, PromoterCashContributionInr).None?
    case _ => true
  }

  /** The four drivers and the four terms of a loan are stated. */
  predicate CompleteLoan(f: Facts) {
    && Figure(f, MonthlyRevenueInr).Some? && Figure(f, CogsPct).Some? && Figure(f, ProjectCostInr).Some?
    && Figure(f, FixedOpexInr).Some? && Figure(f, LoanPrincipalInr).Some? && Figure(f, LoanInterestRatePct).Some?
    && Figure(f, LoanTenureMonths).Some? && Figure(f, LoanMoratoriumMonths).Some?
  }

  /** Step by step, which stated figures its runner raises on. */
  lemma RaisesExactlyWhenTold(c: Context, f: Facts, s: StepId)
    ensures StepRaises(c, f, s) <==>
              match s
              case SchemeCapacity => Told(f, LiquidCashInr) <= -0.0005
              case Discover =>
                if f.State(RadiusM) == Missing then !(0 < c.engine.defaultRadius <= c.maxRadius)
                else Numeric(f.Of(RadiusM).current.value).None?
                     || !(0 < D.Truncate(Numeric(f.Of(RadiusM).current.value).value) <= c.maxRadius)
              case FinanceKnowledge => Told(f, LoanPrincipalInr) < 0.0
              case BuildPlan => exists n :: Objectionable(f, n)
              case AssessFinance =>
                CompleteLoan(f) && D.Truncate(Told(f, LoanTenureMonths)) < 1
              case Opportunity => D.Truncate(Told(f, LiquidCashInr)) < 0 || D.Truncate(Told(f, YearsExperience)) < 0
              case _ => false
  {
    hide CapacityComputes, PlanBuilds, Objectionable, DriverGiven, D.Truncate, Numeric;
    CutTowardsZero(Told(f, LiquidCashInr), 0);
    CutTowardsZero(Told(f, YearsExperience), 0);
    match s
    case SchemeCapacity => CapacityIsTold(f);
    case BuildPlan => PlanIsTold(f);
    case Discover => RadiusIsTold(f, c.engine.defaultRadius, c.maxRadius);
    case AssessFinance => LoanIsTold(f);
    case _ =>
  }

  lemma CapacityIsTold(f: Facts)
    ensures CapacityComputes(f) <==> Told(f, LiquidCashInr) > -0.0005
  {
    hide CapacityComputes;
    if Figure(f, LiquidCashInr).Some? {
      CapacityComputesExactlyWhenNotNegative(f);
    } else {
      NothingIsCapital(f);
    }
  }

  lemma NothingIsCapital(f: Facts)
    requires Figure(f, LiquidCashInr).None?
    ensures CapacityComputes(f)
  {
  }

  lemma PlanIsTold(f: Facts)
    ensures PlanBuilds(f) <==> forall n :: !Objectionable(f, n)
  {
    hide Figure, D.Truncate;
    CutTowardsZero(Told(f, LiquidCashInr), 0);
    CutTowardsZero(Told(f, YearsExperience), 0);
    if n :| Objectionable(f, n) {
      PlanTakesNoNegative(f, n);
    } else {
      assert !Objectionable(f, LiquidCashInr) && !Objectionable(f, YearsExperience);
      forall n | n in PLAN_FIGURES ensures NotNegative(f, n) { assert !Objectionable(f, n); }
    }
  }

  lemma RadiusIsTold(f: Facts, defaultRadius: int, maxRadius: int)
    ensures RadiusSearches(f, defaultRadius, maxRadius) <==>
              if f.State(RadiusM) == Missing then 0 < defaultRadius <= maxRadius
              else Numeric(f.Of(RadiusM).current.value).Some?
                   && 0 < D.Truncate(Numeric(f.Of(RadiusM).current.value).value) <= maxRadius
  {
    hide D.Truncate, Numeric;
    var radius := Numeric(f.Of(RadiusM).current.value);
    if radius.Some? {
      CutTowardsZero(radius.value, 0);
      if maxRadius >= 0 { CutTowardsZero(radius.value, maxRadius); }
    }
  }

  lemma LoanIsTold(f: Facts)
    ensures LoanRepays(f) <==> (CompleteLoan(f) ==> D.Truncate(Told(f, LoanTenureMonths)) >= 1)
  {
    hide D.Truncate, DriverGiven, Figure;
    CutTowardsZero(Told(f, LoanTenureMonths), 0);
    forall d ensures DriverGiven(f, d) <==> Figure(f, d).Some? { GivenIsFigure(f, d); }
  }

  lemma GivenIsFigure(f: Facts, d: SlotName)
    ensures DriverGiven(f, d) <==> Figure(f, d).Some?
  {
  }

  // ---- what is lost ----

  /** With the business known, whatever needs no place would run. */
  lemma AssessmentWouldRun(st: Advice)
    requires st.inputs.Satisfied(ProposedBusinessText)
    ensures BuildPlan in st.artifacts || WouldRun(st, BuildPlan)
    ensures AssessFinance in st.artifacts || WouldRun(st, AssessFinance)
  {
    hide WouldRun, DiscoverFailure;
    if ResolveProposed !in st.artifacts { MakesWouldRun(st, ResolveProposed); }
    if BuildPlan !in st.artifacts { MakesWouldRun(st, BuildPlan); }
    if FinanceKnowledge !in st.artifacts { MakesWouldRun(st, FinanceKnowledge); }
    if BindPlan !in st.artifacts { MakesWouldRun(st, BindPlan); }
    if StructureFinance !in st.artifacts { MakesWouldRun(st, StructureFinance); }
    if AssessFinance !in st.artifacts { MakesWouldRun(st, AssessFinance); }
  }

  lemma DiscoveryWouldRun(st: Advice)
    requires st.inputs.Satisfied(ProposedBusinessText)
    ensures WouldRun(st, Discover) <==> Discover !in st.artifacts && st.inputs.Satisfied(LocationText)
  {
    hide WouldRun, DiscoverFailure;
    if ResolveProposed !in st.artifacts { MakesWouldRun(st, ResolveProposed); }
    if Discover !in st.artifacts && st.inputs.Satisfied(LocationText) {
      NoResultNoFailure(st);
      MakesWouldRun(st, Discover);
    }
    if WouldRun(st, Discover) {
      WouldRunParts(st, Discover);
      assert LocationText in RequiredSlots(Discover);
    }
  }

  lemma CapacityWouldRun(st: Advice)
    ensures WouldRun(st, SchemeCapacity) <==> SchemeCapacity !in st.artifacts
  {
    hide WouldRun, DiscoverFailure;
    if SchemeCapacity in st.artifacts {
      if WouldRun(st, SchemeCapacity) { WouldRunParts(st, SchemeCapacity); }
    } else {
      MakesWouldRun(st, SchemeCapacity);
    }
  }

  lemma NoResultNoFailure(st: Advice)
    requires Discover !in st.artifacts
    ensures DiscoverFailure(st).None?
  {
  }

  /**
   The plan can be built, the loan, if any, has a month to run, a scheme capacity still to be computed has a capital, and
   a search still to be made a radius.
   */
  predicate FiguresHold(c: Context, st: Advice) {
    var f := st.inputs;
    && PlanBuilds(f) && LoanRepays(f)
    && (SchemeCapacity !in st.artifacts ==> CapacityComputes(f))
    && (Discover !in st.artifacts && f.Satisfied(LocationText) ==> RadiusSearches(f, c.engine.defaultRadius, c.maxRadius))
  }

  /** Once the business is known, that is all that matters. */
  lemma AcceptedExactlyWhenFiguresHold(c: Context, st: Advice)
    requires Supported(st) && Unstopped(st.inputs, c.maxRadius) && st.inputs.Satisfied(ProposedBusinessText)
    ensures Accepts(c, st) <==> FiguresHold(c, st)
  {
    hide WouldRun, PlanBuilds, ProfileBuilds, LoanRepays, Unstopped, DiscoverFailure, RadiusSearches, Supported,
      CapacityComputes;
    AssessmentWouldRun(st);
    CapacityWouldRun(st);
    DiscoveryWouldRun(st);
    AcceptsMeans(c, st);
    SupportedParts(st);
    if FiguresHold(c, st) {
      BuildingPlanTakes(st.inputs);
    } else {
      assert StepRaises(c, st.inputs, if !PlanBuilds(st.inputs) then BuildPlan
                                      else if !LoanRepays(st.inputs) then AssessFinance
                                      else if SchemeCapacity !in st.artifacts && !CapacityComputes(st.inputs)
                                      then SchemeCapacity else Discover);
    }
  }

  lemma SupportedParts(st: Advice)
    requires Supported(st)
    ensures BuildPlan in st.artifacts ==> PlanBuilds(st.inputs)
    ensures AssessFinance in st.artifacts ==> LoanRepays(st.inputs)
  {
    hide PlanBuilds, LoanRepays;
  }

  lemma BuildingPlanTakes(f: Facts)
    requires PlanBuilds(f)
    ensures ProfileBuilds(f) && NotNegative(f, LoanPrincipalInr)
  {
    assert LoanPrincipalInr in PLAN_FIGURES;
  }

  /** The business is known after the message, and nothing keeps the turn from running what it can. */
  ghost predicate Runs(number: Number, f: Facts, m: Said) {
    Unstopped(Heard(number, f, m), m.maxRadius) && Heard(number, f, m).Satisfied(ProposedBusinessText)
  }

  /** What is known of the session a message leaves, whatever was said before. */
  lemma HeardInTalk(number: Number, e: Engine, said: seq<Said>, m: Said)
    ensures var st := Talk(number, e, FirstSession(e), said);
            && Sincere(number, st.inputs) && Heard(number, st.inputs, m).Valid()
            && SweptBy(number, e, st, m).inputs == Heard(number, st.inputs, m) && Supported(SweptBy(number, e, st, m))
  {
    hide *;
    var st := Talk(number, e, FirstSession(e), said);
    NothingRestsOnRefused(number, e, said, m);
    BlankIsSincere(number);
    FirstIsBlank(e);
    TalkContinues(number, e, FirstSession(e), said);
    HeardIsValid(number, st.inputs, m);
    SweptByHears(number, e, st, m);
  }

  lemma RunsParts(number: Number, f: Facts, m: Said)
    requires Runs(number, f, m)
    ensures Unstopped(Heard(number, f, m), m.maxRadius) && Heard(number, f, m).Satisfied(ProposedBusinessText)
  {
    hide Heard, Unstopped;
  }

  /**
   In any conversation, once the business is known: a message is saved, whatever the engines answer and whichever sources
   are down, if and only if the plan can be built on the figures it leaves, the loan, if all drivers and all its terms are
   stated, has a month to run, a scheme capacity still to be computed has a capital, and a search still to be made a
   radius.
   */
  lemma MessageIsSavedExactlyWhenFiguresHold(number: Number, e: Engine, said: seq<Said>, m: Said)
    requires Runs(number, Talk(number, e, FirstSession(e), said).inputs, m) && NothingBreaks(Circumstances(e, m))
    ensures (forall run, fails :: IsSaved(number, e, Talk(number, e, FirstSession(e), said), m, run, fails))
       <==> FiguresHold(Circumstances(e, m), SweptBy(number, e, Talk(number, e, FirstSession(e), said), m))
  {
    hide *;
    var st := Talk(number, e, FirstSession(e), said);
    CircumstancesAre(e, m);
    HeardInTalk(number, e, said, m);
    RunsParts(number, st.inputs, m);
    AcceptedExactlyWhenFiguresHold(Circumstances(e, m), SweptBy(number, e, st, m));
    MessageIsSavedExactlyWhenAccepted(number, e, st, m);
  }

  /**
   So in any conversation, once the business is known, an answer settles its question for good, whatever the engines answer
   and whichever sources are down, exactly when the message does not refuse it and the figures it leaves hold.
   */
  lemma AnswerIsKeptExactlyWhenFiguresHold(number: Number, e: Engine, said: seq<Said>, m: Said, q: Question)
    requires Runs(number, Talk(number, e, FirstSession(e), said).inputs, m) && NothingBreaks(Circumstances(e, m))
    requires IsQuestion(q) && IsOpen(Talk(number, e, FirstSession(e), said).inputs, q) && Answers(number, m.understood, q)
    requires q != OfItem(ProposedBusiness) && q != OfItem(Location)
    ensures (forall run, fails :: IsKept(number, e, Talk(number, e, FirstSession(e), said), m, q, run, fails))
       <==> && !Refuses(m.understood, q)
            && FiguresHold(Circumstances(e, m), SweptBy(number, e, Talk(number, e, FirstSession(e), said), m))
  {
    hide *;
    var st := Talk(number, e, FirstSession(e), said);
    CircumstancesAre(e, m);
    HeardInTalk(number, e, said, m);
    RunsParts(number, st.inputs, m);
    AcceptedExactlyWhenFiguresHold(Circumstances(e, m), SweptBy(number, e, st, m));
    AnswerIsKeptExactlyWhenAccepted(number, e, st, m, q);
  }

  /** With agreeable engines and every source up, a message that leaves other figures is lost. */
  lemma RefusedFigureIsLost(number: Number, e: Engine, said: seq<Said>, m: Said)
    requires Agreeable(e) && (forall s :: !m.fails(s)) && Runs(number, Talk(number, e, FirstSession(e), said).inputs, m)
    requires !FiguresHold(Circumstances(e, m), SweptBy(number, e, Talk(number, e, FirstSession(e), said), m))
    ensures Lost(number, e, Talk(number, e, FirstSession(e), said), m)
  {
    hide *;
    var st := Talk(number, e, FirstSession(e), said);
    var c, swept := Circumstances(e, m), SweptBy(number, e, st, m);
    CircumstancesAre(e, m);
    HeardInTalk(number, e, said, m);
    RunsParts(number, st.inputs, m);
    AcceptedExactlyWhenFiguresHold(c, swept);
    LostMeans(number, e, st, m);
    if !Raises(c, swept, m.requested) { NothingRaisedWasAccepted(c, swept, m.requested); }
  }

  lemma CircumstancesAre(e: Engine, m: Said)
    ensures var c := Circumstances(e, m); c.engine == e && c.maxRadius == m.maxRadius && c.fails == m.fails
  {
  }

  lemma LostMeans(number: Number, e: Engine, st: Advice, m: Said)
    requires Advisor(e).Known(st)
    ensures Lost(number, e, st, m) <==> Raises(Circumstances(e, m), SweptBy(number, e, st, m), m.requested)
  {
    hide Advisor, Raises, SweptBy;
  }

  // ---- asked for ever ----

  /** Three drivers and a loan over no whole month are stated, the fourth driver is not. */
  predicate OneDriverShort(f: Facts, d: SlotName) {
    && d in DRIVERS && DriverOpen(f, d) && (forall other :: other in DRIVERS && other != d ==> DriverGiven(f, other))
    && (forall n :: n in LOAN_FIGURES ==> Figure(f, n).Some?) && Figure(f, LoanTenureMonths).value < 1.0
  }

  /** The message answers the question about `d` and says nothing of any other slot. */
  predicate GivesOnly(number: Number, f: Facts, m: Said, d: SlotName) {
    var g := Heard(number, f, m);
    DriverGiven(g, d) && g.ended == f.ended && forall n :: n != d ==> g.Of(n) == f.Of(n)
  }

  lemma AnswerCompletesNoLoan(f: Facts, g: Facts, d: SlotName)
    requires OneDriverShort(f, d) && DriverGiven(g, d) && forall n :: n != d ==> g.Of(n) == f.Of(n)
    ensures !LoanRepays(g)
  {
    forall n | n in LOAN_FIGURES ensures Figure(g, n) == Figure(f, n) { }
    forall n | n in DRIVERS ensures DriverGiven(g, n) { if n != d { assert g.Of(n) == f.Of(n); } }
  }

  lemma AnswerStopsNothing(f: Facts, g: Facts, d: SlotName, maxRadius: int)
    requires d in DRIVERS && Unstopped(f, maxRadius) && f.Satisfied(ProposedBusinessText)
    requires DriverGiven(g, d) && g.ended == f.ended && forall n :: n != d ==> g.Of(n) == f.Of(n)
    ensures Unstopped(g, maxRadius) && g.Satisfied(ProposedBusinessText)
  {
    forall n ensures g.State(n) != Ambiguous { assert f.State(n) != Ambiguous; }
  }

  lemma NoMonthDoesNotHold(number: Number, e: Engine, said: seq<Said>, m: Said)
    requires var f := Heard(number, Talk(number, e, FirstSession(e), said).inputs, m);
             !LoanRepays(f) && Unstopped(f, m.maxRadius) && f.Satisfied(ProposedBusinessText)
    ensures Runs(number, Talk(number, e, FirstSession(e), said).inputs, m)
    ensures !FiguresHold(Circumstances(e, m), SweptBy(number, e, Talk(number, e, FirstSession(e), said), m))
  {
    hide Advisor, Talk, FirstSession, Heard, SweptBy, LoanRepays, PlanBuilds, Unstopped, Supported, Sincere, RadiusSearches;
    HeardInTalk(number, e, said, m);
  }

  lemma ShortOf(f: Facts, d: SlotName)
    requires OneDriverShort(f, d)
    ensures d in DRIVERS
  {
  }

  lemma {:induction false} LostTalk(number: Number, e: Engine, st: Advice, said: seq<Said>)
    requires Advisor(e).Known(st) && forall m :: m in said ==> Lost(number, e, st, m)
    ensures Talk(number, e, st, said) == st
    decreases |said|
  {
    hide Advisor, Lost, Loop;
    if said != [] {
      assert said[0] in said;
      LostTalk(number, e, st, said[1..]);
    }
  }

  /**
   From then on every answer to the last driver is lost: however often it is given, the session stays as it was, with
   the same driver to be asked for.
   */
  lemma LastDriverIsAskedForEver(number: Number, e: Engine, said: seq<Said>, answers: seq<Said>, d: SlotName)
    requires Agreeable(e)
    requires var f := Talk(number, e, FirstSession(e), said).inputs;
             && OneDriverShort(f, d) && f.Satisfied(ProposedBusinessText)
             && forall m :: m in answers ==>
                  GivesOnly(number, f, m, d) && Unstopped(f, m.maxRadius) && forall s :: !m.fails(s)
    ensures Talk(number, e, FirstSession(e), said + answers) == Talk(number, e, FirstSession(e), said)
  {
    hide Advisor, Lost, Reply, Talk, FirstSession, Heard, Agreeable, LoanRepays, PlanBuilds, Unstopped, OneDriverShort;
    var st := Talk(number, e, FirstSession(e), said);
    forall m | m in answers ensures Lost(number, e, st, m) {
      ShortOf(st.inputs, d);
      AnswerCompletesNoLoan(st.inputs, Heard(number, st.inputs, m), d);
      AnswerStopsNothing(st.inputs, Heard(number, st.inputs, m), d, m.maxRadius);
      NoMonthDoesNotHold(number, e, said, m);
      RefusedFigureIsLost(number, e, said, m);
    }
    LostTalk(number, e, st, answers);
    TalkSplits(number, e, FirstSession(e), said, answers);
  }
}
