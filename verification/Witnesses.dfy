/** Sessions and messages of which the main statements speak do arise. */
module Witnesses {
  import opened Wrappers
  import opened SessionModels
  import opened Workflow
  import opened StepCache
  import opened Artifacts
  import opened Readiness
  import opened Planner
  import opened Turn
  import opened Raising
  import opened Dialogue
  import opened Exactness
  import opened Foresight
  import opened Records
  import opened Agreement
  import opened Endings
  import opened UndeclaredProfile
  import opened Figures
  import L = LateLocation
  import Q = Questions
  import D = Deltas
  import Text

  // ---- a place that comes late ----

  lemma {:induction false} LoopKeepsValid(c: Context, st: Advice)
    requires Proper(c, st) && st.inputs.Valid()
    ensures Loop(c, st, None).inputs.Valid()
    decreases ALL_STEPS - st.artifacts.Keys
  {
    hide Advisor, Decide, Runnable;
    var action := Decide(st, None, c.maxRadius, c.mode);
    if action.RunNext? && !c.fails(action.step) {
      StepIsNew(c, st, None);
      RunKeepsValid(c, st, action.step);
      LoopKeepsValid(c, Advisor(c.engine).RunStep(st, action.step));
    }
  }

  lemma PlaceKeepsValid(f: Facts, place: SlotValue)
    requires f.Valid()
    ensures L.AddPlace(f, place).Valid()
  {
  }

  lemma BusinessTurnIsExact(f: Facts)
    requires f.Valid()
    ensures Advisor(L.ENGINE).Sound(L.AfterBusiness(f)) && L.AfterBusiness(f).inputs.Valid()
  {
    hide Advisor, Loop;
    EmptyIsProper(L.CONTEXT, f);
    NothingStarts(L.ENGINE, f);
    NothingToSweep(L.CONTEXT, f);
    ColdLoopIsExact(L.CONTEXT, Session(f, map[]));
    LoopKeepsValid(L.CONTEXT, Session(f, map[]));
    ExactParts(L.ENGINE, Loop(L.CONTEXT, Session(f, map[]), None));
  }

  lemma NothingSearched(st: Advice, base: Advice)
    requires base.artifacts == st.artifacts && forall t :: t in st.artifacts ==> !L.NeedsPlace(t)
    ensures Searched(base) && Discover !in base.artifacts
  {
    assert L.NeedsPlace(Discover) && L.NeedsPlace(DemandEvidence);
  }

  lemma AssessmentNeedsNoPlace()
    ensures !L.NeedsPlace(AssessFinance)
  {
  }

  lemma PlaceTurnIsLoop(f: Facts, place: SlotValue)
    requires var base := L.AfterBusiness(f).(inputs := L.AddPlace(L.AfterBusiness(f).inputs, place));
             Advisor(L.ENGINE).Known(base) && Advisor(L.ENGINE).Invalidated(base) == base
    ensures var base := L.AfterBusiness(f).(inputs := L.AddPlace(L.AfterBusiness(f).inputs, place));
            Proper(L.CONTEXT, base) && Loop(L.CONTEXT, base, None) == L.AfterPlace(f, place)
  {
    hide Advisor, Loop, L.AfterBusiness, L.AddPlace;
    L.ProperAfterBusiness(f);
  }

  lemma ContextLimit()
    ensures L.CONTEXT.maxRadius == L.LIMIT && L.CONTEXT.engine == L.ENGINE
  {
  }

  lemma MakesRunsEverything(c: Context, base: Advice)
    requires Proper(c, base) && (forall t :: t in Loop(c, base, None).artifacts) && Unasked(Loop(c, base, None).inputs)
    ensures RunsEverything(c, base, None)
  {
    hide Loop, Unasked, Proper;
  }

  /** Finances assessed without a place, then a place: the sessions of which `Foresight.LatePlaceIsInexact` speaks. */
  lemma LatePlaceArises(f: Facts, place: SlotValue)
    requires L.OpensWithoutPlace(f) && f.Valid() && place.state == UserProvided
    ensures var base := L.AfterBusiness(f).(inputs := L.AddPlace(L.AfterBusiness(f).inputs, place));
            && Proper(L.CONTEXT, base) && Opening(L.ENGINE, base) && RunsEverything(L.CONTEXT, base, None)
            && AssessFinance in base.artifacts && Discover !in base.artifacts
  {
    hide *;
    var st := L.AfterBusiness(f);
    var base := st.(inputs := L.AddPlace(st.inputs, place));
    L.BusinessTurn(f);
    L.FirstTurnParts(st);
    L.PlaceTurn(f, place);
    L.SweepKeepsFirstTurn(st, place);
    BusinessTurnIsExact(f);
    PlaceKeepsValid(st.inputs, place);
    Advisor(L.ENGINE).EditKeepsSound(st, base.inputs);
    SoundIsEmbedded(L.ENGINE, base);
    Advisor(L.ENGINE).OnePassLeavesNothingStale(base);
    ProperIsKnown(L.CONTEXT, base);
    NothingSearched(st, base);
    MakesOpening(L.ENGINE, base);
    AssessmentNeedsNoPlace();
    PlaceTurnIsLoop(f, place);
    L.SecondTurnParts(st, L.AfterPlace(f, place));
    ContextLimit();
    QuietIsUnasked(L.CONTEXT, L.AfterPlace(f, place).inputs);
    MakesRunsEverything(L.CONTEXT, base);
  }

  // ---- one message that names business and place ----

  function Says(slot: SlotName, text: string): D.SlotUpdate {
    D.SlotUpdate(slot, text, text, AsStated)
  }

  /** Business, place, profile and every figure but the fixed costs, with a loan over zero months. */
  const ALMOST_ALL: D.Understanding := D.Understanding(
    [Says(ProposedBusinessText, "tea shop"), Says(LocationText, "Pune"), Says(YearsExperience, "5"),
     Says(LiquidCashInr, "5"), Says(MonthlyRevenueInr, "5"), Says(CogsPct, "5"), Says(ProjectCostInr, "5"),
     Says(LoanPrincipalInr, "5"), Says(LoanInterestRatePct, "5"), Says(LoanTenureMonths, "0"),
     Says(LoanMoratoriumMonths, "5")],
    None, None, [], [], [], true, true, None)

  lemma DigitResolves(number: Number, slot: SlotName, n: nat)
    requires n < 10 && D.Kind(slot) != D.TextKind
    ensures var v := if D.Kind(slot) == D.CountKind || D.Kind(slot) == D.Months then Count(n) else Amount(n as real);
            D.ResolveSlotValue(number, Says(slot, [D.NumberFormat.DigitOf(n)])) == D.Resolved.Value(v)
  {
    hide D.DecimalOf, D.FirstNumeral, D.Truncate;
    D.DigitNumeral(n);
    D.DigitDecimal(n);
    var s := [D.NumberFormat.DigitOf(n)];
    assert Text.Occurs(s, s) by { assert s[0..0 + |s|] == s; }
    WholeIsItself(n);
  }

  lemma WholeIsItself(n: nat)
    ensures D.Truncate(n as real) == n
  {
  }

  lemma WordStrips(text: string)
    requires text != "" && !Text.IsSpace(text[0]) && !Text.IsSpace(text[|text| - 1])
    ensures Text.Strip(text) == text && Text.Occurs(text, text)
  {
    hide Text.IsSpace;
  }

  lemma PlaceResolves(number: Number)
    ensures D.ResolveSlotValue(number, Says(LocationText, "Pune")) == D.Resolved.Value(D.StoredText(number, "Pune"))
  {
    hide Text.Strip, Text.Occurs, D.StoredText;
    WordStrips("Pune");
  }

  /** A slot that the message does not speak of stays as it was. */
  lemma Unmentioned(number: Number, f: Facts, u: D.Understanding, turn: int, name: SlotName)
    requires u.selectedChoice == None && name !in u.declinedSlots && forall x :: x in u.slotUpdates ==> x.slot != name
    ensures D.Applied(number, f, u, turn).Of(name) == f.Of(name) && D.Applied(number, f, u, turn).ended == f.ended
  {
    hide D.Stated, D.Declines, D.PutAll, D.AssetsAfter, D.ExperienceAfter;
    var es := D.Stated(number, u.slotUpdates, turn) + D.Declines(u.declinedSlots, turn);
    forall e | e in es ensures e.slot != name {
      if e in D.Stated(number, u.slotUpdates, turn) {
        D.StatedAreUserProvided(number, u.slotUpdates, turn, e);
      } else {
        D.DeclinesAreDeclined(u.declinedSlots, turn, e);
      }
    }
    Q.PutAllCurrent(f, es, name);
    D.PutTouchesSlotsOnly(f, es);
    D.NothingPut(D.Edited(number, f, u, turn));
  }

  /** Place in the list above. */
  function Rank(slot: SlotName): int {
    match slot
    case ProposedBusinessText => 0 case LocationText => 1 case YearsExperience => 2 case LiquidCashInr => 3
    case MonthlyRevenueInr => 4 case CogsPct => 5 case ProjectCostInr => 6 case LoanPrincipalInr => 7
    case LoanInterestRatePct => 8 case LoanTenureMonths => 9 case LoanMoratoriumMonths => 10 case _ => 11
  }

  lemma RanksAreThose()
    ensures |ALMOST_ALL.slotUpdates| == 11 && forall k :: 0 <= k < 11 ==> Rank(ALMOST_ALL.slotUpdates[k].slot) == k
  {
  }

  lemma RankTells(k: nat, slot: SlotName)
    requires k < |ALMOST_ALL.slotUpdates| && Rank(slot) == k
    ensures ALMOST_ALL.slotUpdates[k].slot == slot
  {
  }

  lemma IsSaid(number: Number, slot: SlotName, v: Value)
    requires Rank(slot) < |ALMOST_ALL.slotUpdates|
    requires D.ResolveSlotValue(number, ALMOST_ALL.slotUpdates[Rank(slot)]) == D.Resolved.Value(v)
    ensures var now := D.Applied(number, BLANK, ALMOST_ALL, 1).Of(slot).current;
            now.state == UserProvided && now.value == Some(v)
  {
    hide D.Applied, D.ResolveSlotValue;
    RanksAreThose();
    RankTells(Rank(slot), slot);
    D.LastStatementStands(number, BLANK, ALMOST_ALL, 1, Rank(slot), v);
  }

  lemma AllDigitsResolve(number: Number, slot: SlotName)
    requires 2 <= Rank(slot) < 11
    ensures Rank(slot) < |ALMOST_ALL.slotUpdates|
    ensures var x := if slot == LoanTenureMonths then 0 else 5;
            var v := if D.Kind(slot) == D.CountKind || D.Kind(slot) == D.Months then Count(x) else Amount(x as real);
            D.ResolveSlotValue(number, ALMOST_ALL.slotUpdates[Rank(slot)]) == D.Resolved.Value(v)
  {
    hide D.ResolveSlotValue;
    var x := if slot == LoanTenureMonths then 0 else 5;
    DigitResolves(number, slot, x);
    DigitWords();
    assert ALMOST_ALL.slotUpdates[Rank(slot)] == Says(slot, [D.NumberFormat.DigitOf(x)]);
  }

  lemma DigitWords()
    ensures [D.NumberFormat.DigitOf(0)] == "0" && [D.NumberFormat.DigitOf(5)] == "5"
  {
  }

  /** What the message leaves. */
  ghost predicate OneShort(f: Facts) {
    && !f.ended && f.assets.current == SetValue(Declined, {}, [], None, 1)
    && f.experience.current == SetValue(Declined, {}, [], None, 1)
    && f.State(ProposedBusinessText) == UserProvided && f.State(LocationText) == UserProvided
    && (forall n :: 2 <= Rank(n) < 11 ==> Figure(f, n) == Some(if n == LoanTenureMonths then 0.0 else 5.0))
    && f.Of(FixedOpexInr) == EMPTY_SLOT && f.Of(PromoterCashContributionInr) == EMPTY_SLOT
  }

  lemma AlmostAllLeavesOneShort(number: Number)
    ensures OneShort(D.Applied(number, BLANK, ALMOST_ALL, 1))
    ensures D.Applied(number, BLANK, ALMOST_ALL, 1).Of(RadiusM) == EMPTY_SLOT
  {
    hide D.Applied, D.ResolveSlotValue, D.Kind, D.StoredText, Rank;
    var f := D.Applied(number, BLANK, ALMOST_ALL, 1);
    TeaShopResolves(number);
    PlaceResolves(number);
    FirstTwo();
    IsSaid(number, ProposedBusinessText, D.StoredText(number, "tea shop"));
    IsSaid(number, LocationText, D.StoredText(number, "Pune"));
    forall n | 2 <= Rank(n) < 11 ensures Figure(f, n) == Some(if n == LoanTenureMonths then 0.0 else 5.0) {
      AllDigitsResolve(number, n);
      var x := if n == LoanTenureMonths then 0 else 5;
      IsSaid(number, n, if D.Kind(n) == D.CountKind || D.Kind(n) == D.Months then Count(x) else Amount(x as real));
    }
    LastThree();
    OthersUnsaid(number, FixedOpexInr);
    OthersUnsaid(number, PromoterCashContributionInr);
    OthersUnsaid(number, RadiusM);
    ProfileIsDeclined(number);
  }

  lemma FirstTwo()
    ensures Rank(ProposedBusinessText) == 0 && Rank(LocationText) == 1 && |ALMOST_ALL.slotUpdates| == 11
    ensures ALMOST_ALL.slotUpdates[0] == TEA_SHOP.understood.slotUpdates[0]
    ensures ALMOST_ALL.slotUpdates[1] == Says(LocationText, "Pune")
  {
  }

  lemma LastThree()
    ensures Rank(FixedOpexInr) == 11 && Rank(PromoterCashContributionInr) == 11 && Rank(RadiusM) == 11
  {
  }

  lemma OthersUnsaid(number: Number, n: SlotName)
    requires Rank(n) == 11
    ensures D.Applied(number, BLANK, ALMOST_ALL, 1).Of(n) == EMPTY_SLOT
  {
    hide D.Applied, Rank;
    RanksAreThose();
    Unmentioned(number, BLANK, ALMOST_ALL, 1, n);
  }

  lemma ProfileIsDeclined(number: Number)
    ensures var f := D.Applied(number, BLANK, ALMOST_ALL, 1);
            && !f.ended && f.assets.current == SetValue(Declined, {}, [], None, 1)
            && f.experience.current == SetValue(Declined, {}, [], None, 1)
  {
    hide D.Stated, D.PutAll, D.Declines;
    D.PutTouchesSlotsOnly(BLANK, D.Stated(number, ALMOST_ALL.slotUpdates, 1) + D.Declines([], 1));
    D.NothingPut(D.Edited(number, BLANK, ALMOST_ALL, 1));
  }

  const OPENS := Said(ALMOST_ALL, None, 25000, Normal, s => false, (s, st) => false)

  lemma OneShortTells(f: Facts, n: SlotName)
    requires OneShort(f) && 2 <= Rank(n) < 11
    ensures f.State(n) == UserProvided && Figure(f, n) == Some(if n == LoanTenureMonths then 0.0 else 5.0)
  {
    hide Rank;
    assert Figure(f, n).Some?;
  }

  lemma OneShortTenure(f: Facts)
    requires OneShort(f)
    ensures Figure(f, LoanTenureMonths) == Some(0.0)
  {
    hide OneShort;
    OneShortTells(f, LoanTenureMonths);
  }

  lemma OneShortIsQuiet(f: Facts)
    requires OneShort(f) && (f.Of(RadiusM) == EMPTY_SLOT || f.State(RadiusM) == Assumed)
    ensures Quiet(f, 25000) && Opened(f)
  {
    forall n ensures f.State(n) != Ambiguous { if 2 <= Rank(n) < 11 { OneShortTells(f, n); } }
  }

  lemma OneShortStands(c: Context, f: Facts)
    requires OneShort(f) && f.Of(RadiusM) == EMPTY_SLOT && 0 < c.engine.defaultRadius <= c.maxRadius
    ensures FiguresStand(c, f)
  {
    hide PlanBuilds, LoanRepays, OneShort, CapacityComputes;
    OneShortBuilds(f);
    OneShortTells(f, LiquidCashInr);
    CapacityComputesExactlyWhenNotNegative(f);
    OneShortOwesNothing(f);
    assert f.State(RadiusM) == Missing;
  }

  lemma OneShortBuilds(f: Facts)
    requires OneShort(f)
    ensures PlanBuilds(f)
  {
    hide OneShort;
    forall n | n in PLAN_FIGURES || n == LiquidCashInr || n == YearsExperience ensures NotNegative(f, n) {
      if 2 <= Rank(n) < 11 { OneShortTells(f, n); } else { OneShortLacks(f, n); }
    }
    assert NotNegative(f, LiquidCashInr) && NotNegative(f, YearsExperience);
  }

  lemma OneShortLacks(f: Facts, n: SlotName)
    requires OneShort(f) && (n == FixedOpexInr || n == PromoterCashContributionInr)
    ensures Figure(f, n) == None && f.State(n) == Missing
  {
    hide Rank;
  }

  lemma OneShortOwesNothing(f: Facts)
    requires OneShort(f)
    ensures LoanRepays(f) && DriverOpen(f, FixedOpexInr)
  {
    hide OneShort;
    OneShortLacks(f, FixedOpexInr);
    assert FixedOpexInr in DRIVERS && !DriverGiven(f, FixedOpexInr);
  }

  lemma OpensNamesBusiness(number: Number, e: Engine)
    requires 0 < e.defaultRadius <= 25000
    ensures var f := Heard(number, BLANK, OPENS); OneShort(f) && Opened(f) && NamesBusiness(number, e, OPENS)
  {
    hide D.Applied, Quiet, FiguresStand, Opened;
    AlmostAllLeavesOneShort(number);
    var f := Heard(number, BLANK, OPENS);
    TurnShiftsNothing(D.Applied(number, BLANK, ALMOST_ALL, 1), 1);
    OneShortIsQuiet(f);
    OneShortStands(Circumstances(e, OPENS), f);
  }

  lemma TurnShiftsNothing(f: Facts, turn: int)
    requires OneShort(f)
    ensures OneShort(f.(turn := turn)) && f.(turn := turn).Of(RadiusM) == f.Of(RadiusM)
  {
    hide Rank;
    var g := f.(turn := turn);
    forall n | 2 <= Rank(n) < 11 ensures Figure(g, n) == Figure(f, n) { }
  }

  lemma AgreeableFailsNothing(e: Engine, st: Advice)
    requires Agreeable(e) && Advisor(e).Known(st) && Advisor(e).Sound(st)
    ensures DiscoverFailure(st).None?
  {
    hide Advisor;
    AdvisorReads(e);
    if Discover in st.artifacts { assert Advisor(e).HonestAt(st, Discover); }
  }

  /** One message that names business and place settles: the conversations of which `Endings.ConversationsAgree` speaks. */
  lemma OneMessageSettles(number: Number, e: Engine)
    requires Agreeable(e) && 0 < e.defaultRadius <= 25000
    ensures ExactTalk(number, e, FirstSession(e), [OPENS]) && Settled(e, Talk(number, e, FirstSession(e), [OPENS]))
  {
    hide *;
    OpensNamesBusiness(number, e);
    NamingBuildsPlan(number, e, OPENS);
    var st := Reply(number, e, FirstSession(e), OPENS);
    ExactParts(e, st);
    AgreeableFailsNothing(e, st);
    StaysOpened(Heard(number, BLANK, OPENS), st.inputs);
    MakesSettled(e, st);
    TalkOfOne(number, e, OPENS);
  }

  lemma StaysOpened(f: Facts, g: Facts)
    requires Opened(f) && forall n :: n != RadiusM ==> g.Of(n) == f.Of(n)
    ensures Opened(g)
  {
  }

  lemma MakesSettled(e: Engine, st: Advice)
    requires Opened(st.inputs) && DiscoverFailure(st).None? && (forall t :: !Runnable(st, t))
    requires Advisor(e).AllFresh(st) && Unasked(st.inputs) && ProfileStands(st)
    ensures Settled(e, st)
  {
    hide Advisor, Opened, DiscoverFailure, Runnable, Unasked, ProfileStands;
  }

  lemma TalkOfOne(number: Number, e: Engine, m: Said)
    ensures Talk(number, e, FirstSession(e), [m]) == Reply(number, e, FirstSession(e), m)
    ensures ExactReply(number, e, FirstSession(e), m) ==> ExactTalk(number, e, FirstSession(e), [m])
  {
    hide Advisor, Reply, ExactReply;
    assert [m][1..] == [];
  }

  // ---- a loan over zero months ----

  lemma OneShortAsksLast(st: Advice)
    requires OneShort(st.inputs) && Opened(st.inputs) && Quiet(st.inputs, 25000)
    requires DiscoverFailure(st).None? && forall t :: !Runnable(st, t)
    ensures Decide(st, None, 25000, Normal) == AskDriver(FixedOpexInr)
  {
    hide Runnable, OneShort, DiscoverFailure, Quiet, Contradiction;
    var f := st.inputs;
    OneShortCollects(f);
    OneShortOwesNothing(f);
    UnstoppedReaches(st);
  }

  lemma UnstoppedReaches(st: Advice)
    requires Quiet(st.inputs, 25000) && DiscoverFailure(st).None? && (forall t :: !Runnable(st, t))
    requires Opened(st.inputs) && NextAsk(st.inputs, COLLECTION_ORDER).None?
    requires NextDriver(st.inputs, DRIVERS) == Some(FixedOpexInr)
    ensures Decide(st, None, 25000, Normal) == AskDriver(FixedOpexInr)
  {
    hide Runnable, DiscoverFailure, Contradiction, NextAsk, NextDriver;
  }

  lemma OneShortCollects(f: Facts)
    requires OneShort(f) && Opened(f)
    ensures NextAsk(f, COLLECTION_ORDER).None? && NextDriver(f, DRIVERS) == Some(FixedOpexInr)
  {
    hide OneShort, NextAsk, NextDriver;
    OneShortTells(f, YearsExperience);
    OneShortTells(f, LiquidCashInr);
    OneShortProfile(f);
    forall i | i in COLLECTION_ORDER ensures ItemSatisfied(f, i) { }
    IsOneDriverShort(f);
    assert FixedOpexInr in DRIVERS && forall d :: d in DRIVERS && DriverOpen(f, d) ==> d == FixedOpexInr;
  }

  lemma IsOneDriverShort(f: Facts)
    requires OneShort(f)
    ensures OneDriverShort(f, FixedOpexInr)
  {
    hide OneShort, DriverGiven, Figure;
    OneShortOwesNothing(f);
    forall n | n in DRIVERS && n != FixedOpexInr ensures DriverGiven(f, n) { OneShortGives(f, n); }
    forall n | n in LOAN_FIGURES ensures Figure(f, n).Some? { OneShortTells(f, n); }
    OneShortTenure(f);
  }

  lemma OneShortGives(f: Facts, n: SlotName)
    requires OneShort(f) && 2 <= Rank(n) < 11
    ensures DriverGiven(f, n)
  {
    hide OneShort, Rank;
    OneShortTells(f, n);
  }

  lemma OneShortProfile(f: Facts)
    requires OneShort(f)
    ensures Answered(f.assets.current.state) && Answered(f.experience.current.state)
  {
    hide Rank, Figure;
  }

  /** A message that states one amount and nothing else. */
  function Amounts(slot: SlotName, text: string): D.Understanding {
    D.Understanding([Says(slot, text)], None, None, [], [], [], false, false, None)
  }

  lemma AmountGivesOnly(number: Number, f: Facts, m: Said, text: string)
    requires m.understood == Amounts(FixedOpexInr, text)
    requires D.ResolveSlotValue(number, Says(FixedOpexInr, text)).Value?
    ensures GivesOnly(number, f, m, FixedOpexInr) && Q.Answers(number, m.understood, Q.OfDriver(FixedOpexInr))
  {
    hide D.Applied, D.ResolveSlotValue;
    var u := m.understood;
    D.LastStatementStands(number, f, u, f.turn + 1, 0, D.ResolveSlotValue(number, Says(FixedOpexInr, text)).value);
    Q.DriversAreNumbers(number, Says(FixedOpexInr, text));
    forall n | n != FixedOpexInr ensures D.Applied(number, f, u, f.turn + 1).Of(n) == f.Of(n) {
      Unmentioned(number, f, u, f.turn + 1, n);
    }
    Unmentioned(number, f, u, f.turn + 1, LocationText);
  }

  lemma OpensIsSaved(number: Number, e: Engine)
    requires Agreeable(e) && 0 < e.defaultRadius <= 25000
    ensures !Lost(number, e, FirstSession(e), OPENS)
    ensures var st := Reply(number, e, FirstSession(e), OPENS);
            && OneShort(st.inputs) && Opened(st.inputs) && Quiet(st.inputs, 25000)
            && DiscoverFailure(st).None? && forall t :: !Runnable(st, t)
  {
    hide *;
    var st, heard := Reply(number, e, FirstSession(e), OPENS), Heard(number, BLANK, OPENS);
    OpensNamesBusiness(number, e);
    NamingBuildsPlan(number, e, OPENS);
    NamingParts(number, e, OPENS);
    FirstIsBlank(e);
    Q.StandingIsNotLost(number, e, FirstSession(e), OPENS);
    ExactParts(e, st);
    AgreeableFailsNothing(e, st);
    StaysOpened(heard, st.inputs);
    Q.SweptByHears(number, e, FirstSession(e), OPENS);
    LostMeans(number, e, FirstSession(e), OPENS);
    SavedIsLoop(number, e, FirstSession(e), OPENS);
    Q.LoopKeepsOthers(Circumstances(e, OPENS), SweptBy(number, e, FirstSession(e), OPENS), None);
    QuietEnds(st.inputs);
    StaysOneShort(heard, st.inputs);
    OpensLimit();
  }

  lemma OpensLimit()
    ensures OPENS.maxRadius == 25000 && OPENS.requested == None
  {
  }

  lemma SavedIsLoop(number: Number, e: Engine, st: Advice, m: Said)
    requires Advisor(e).Known(st) && !Lost(number, e, st, m)
    ensures Reply(number, e, st, m) == Loop(Circumstances(e, m), SweptBy(number, e, st, m), m.requested)
  {
    hide Advisor, Loop, SweptBy, Lost;
  }

  lemma StaysOneShort(f: Facts, g: Facts)
    requires OneShort(f) && !g.ended && g.assets == f.assets && g.experience == f.experience
    requires forall n :: n != RadiusM ==> g.Of(n) == f.Of(n)
    ensures OneShort(g)
  {
    forall n | 2 <= Rank(n) < 11 ensures Figure(g, n) == Figure(f, n) { assert g.Of(n) == f.Of(n); }
  }

  lemma QuietEnds(f: Facts)
    ensures Quiet(f, OPENS.maxRadius) ==> !f.ended
  {
    hide Contradiction;
  }

  /**
   A conversation: "a tea shop in Pune", the profile and every figure but the fixed costs, with a loan over 0 months. It
   is saved, and the fixed costs are asked for; whatever amount is then given, however often, nothing of it is saved and
   the fixed costs are asked for again.
   */
  lemma ZeroMonthsAskForEver(number: Number, e: Engine, answers: seq<Said>)
    requires Agreeable(e) && 0 < e.defaultRadius <= 25000
    requires forall m :: m in answers ==>
               && m.maxRadius == 25000 && (forall s :: !m.fails(s))
               && exists text :: m.understood == Amounts(FixedOpexInr, text)
                                 && D.ResolveSlotValue(number, Says(FixedOpexInr, text)).Value?
    ensures !Lost(number, e, FirstSession(e), OPENS)
    ensures var st := Talk(number, e, FirstSession(e), [OPENS] + answers);
            && Figure(st.inputs, LoanTenureMonths) == Some(0.0) && Q.AsksAt(st, Q.OfDriver(FixedOpexInr))
            && forall m :: m in answers ==> Q.Answers(number, m.understood, Q.OfDriver(FixedOpexInr))
  {
    hide *;
    var st := Reply(number, e, FirstSession(e), OPENS);
    OpensIsSaved(number, e);
    TalkOfOne(number, e, OPENS);
    IsOneDriverShort(st.inputs);
    OneShortTenure(st.inputs);
    OneShortAsksLast(st);
    AsksLast(st);
    QuietParts(st.inputs);
    forall m | m in answers
      ensures GivesOnly(number, st.inputs, m, FixedOpexInr) && Q.Answers(number, m.understood, Q.OfDriver(FixedOpexInr))
    {
      var text :| m.understood == Amounts(FixedOpexInr, text)
                  && D.ResolveSlotValue(number, Says(FixedOpexInr, text)).Value?;
      AmountGivesOnly(number, st.inputs, m, text);
    }
    LastDriverIsAskedForEver(number, e, [OPENS], answers, FixedOpexInr);
  }

  lemma QuietParts(f: Facts)
    requires Quiet(f, 25000)
    ensures Unstopped(f, 25000) && f.Satisfied(ProposedBusinessText)
  {
    hide Unstopped;
  }

  lemma AsksLast(st: Advice)
    requires Decide(st, None, 25000, Normal) == AskDriver(FixedOpexInr)
    ensures Q.AsksAt(st, Q.OfDriver(FixedOpexInr))
  {
    hide Decide;
    assert Q.Asked(Decide(st, None, 25000, Normal)) == Some(Q.OfDriver(FixedOpexInr));
  }
}
