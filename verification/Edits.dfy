/** Which results an edit of the session costs. */
module Edits {
  import opened Wrappers
  import opened SessionModels
  import opened Workflow
  import opened CoreSteps
  import opened Artifacts
  import opened Planner
  import opened Dialogue
  import opened Foresight
  import opened Records
  import C = Containment

  // ---- whatever was said before ----

  lemma EditStaysConsistent(e: Engine, st: Advice, f: Facts)
    requires Advisor(e).Known(st) && Consistent(e, st)
    requires f.category == st.inputs.category && f.subtypes == st.inputs.subtypes
    ensures Advisor(e).Known(st.(inputs := f)) && Consistent(e, st.(inputs := f))
  {
    hide Advisor, C.CORE, C.MARKET_STEPS, Anchored, Recorded;
    EditKeepsAnchored(Advisor(e), C.CORE, st, f);
    var edited := st.(inputs := f);
    forall t | t in edited.artifacts ensures Recorded(e, edited, t) {
      assert Recorded(e, st, t);
      SameRecords(e, st, edited, t);
    }
  }

  lemma SameRecords(e: Engine, st: Advice, edited: Advice, t: StepId)
    requires edited.artifacts == st.artifacts && t in st.artifacts && Recorded(e, st, t)
    ensures Recorded(e, edited, t)
  {
    hide LooksAtCategory, Covered;
  }

  /** An edit that changes what a step's runner takes makes the sweep drop its result, the plan's profile sets apart. */
  lemma EditDropsWhatItChanges(e: Engine, st: Advice, f: Facts, t: StepId)
    requires Advisor(e).Known(st) && Consistent(e, st) && t in st.artifacts
    requires f.category == st.inputs.category && f.subtypes == st.inputs.subtypes
    requires !HasQuestion(OwnInputs(e, t, f)) && Read(e, t, f) != st.artifacts[t].seen
    requires t == BuildPlan ==> ProfileStands(st.(inputs := f))
    ensures Advisor(e).Known(st.(inputs := f)) && t !in Advisor(e).Invalidated(st.(inputs := f)).artifacts
  {
    hide Advisor, Consistent, ProfileStands, OwnInputs, Read, HasQuestion;
    var edited := st.(inputs := f);
    EditStaysConsistent(e, st, f);
    if t in Advisor(e).Invalidated(edited).artifacts {
      KeptIsFresh(e, edited, t);
      SeenIsCurrent(e, edited, t);
    }
  }

  lemma KeptIsFresh(e: Engine, st: Advice, t: StepId)
    requires Advisor(e).Known(st) && t in Advisor(e).Invalidated(st).artifacts
    ensures t in st.artifacts && Advisor(e).IsFresh(st, t)
  {
    hide Advisor;
  }

  /** So in any conversation, whatever is said next. */
  lemma MessageDropsWhatItChanges(number: Number, e: Engine, said: seq<Said>, m: Said, t: StepId)
    requires var st := Talk(number, e, FirstSession(e), said);
             && t in st.artifacts && !HasQuestion(OwnInputs(e, t, Heard(number, st.inputs, m)))
             && Read(e, t, Heard(number, st.inputs, m)) != st.artifacts[t].seen
             && (t == BuildPlan ==> ProfileStands(st.(inputs := Heard(number, st.inputs, m))))
    ensures t !in SweptBy(number, e, Talk(number, e, FirstSession(e), said), m).artifacts
  {
    hide Advisor, Consistent, ProfileStands, OwnInputs, Read, HasQuestion, Heard, Talk, FirstSession;
    var st := Talk(number, e, FirstSession(e), said);
    FirstIsConsistent(e);
    TalkIsConsistent(number, e, FirstSession(e), said);
    HeardKeepsResolved(number, st.inputs, m);
    EditDropsWhatItChanges(e, st, Heard(number, st.inputs, m), t);
  }

  // ---- what one answer costs ----

  /** What rests on the place. */
  predicate OnPlace(s: StepId) {
    s != ResolveProposed && s != BuildPlan && s != SchemeCapacity
  }

  /** What rests on the plan. */
  predicate OnPlan(s: StepId) {
    match s
    case BuildPlan => true case BindPlan => true case StructureFinance => true case AssessFinance => true
    case FinancialFit => true case Opportunity => true case Recommend => true case Swot => true
    case _ => false
  }

  /** The results that a new answer for a slot costs a complete session. */
  predicate Costs(n: SlotName, s: StepId) {
    match n
    case ProposedBusinessText => s != DemandEvidence && s != SchemeCapacity
    case LocationText => OnPlace(s)
    case RadiusM => OnPlace(s)
    case LiquidCashInr => OnPlan(s) || s == SchemeCapacity
    case LoanPrincipalInr => OnPlan(s) || s == FinanceKnowledge
    case _ => OnPlan(s)
  }

  predicate OnOpportunity(s: StepId) {
    s == Opportunity || s == Recommend || s == Swot
  }

  predicate Feeds(d: StepId, s: StepId) {
    d in FingerprintUpstream(s) || d in OptionalSteps(s)
  }

  /** The set holds whatever rests on it. */
  ghost predicate ClosedAbove(cost: set<StepId>) {
    forall d, s {:trigger Feeds(d, s)} :: d in cost && Feeds(d, s) ==> s in cost
  }

  /** Each step of the set is hit itself or rests on another. */
  ghost predicate Spreads(cost: set<StepId>, hit: set<StepId>) {
    hit <= cost && forall s :: s in cost && s !in hit ==> exists d :: d in cost && Feeds(d, s)
  }

  /** The inputs of exactly the steps in `hit` differ. */
  ghost predicate Hits(e: Engine, f: Facts, g: Facts, hit: set<StepId>) {
    forall s {:trigger OwnInputs(e, s, f)} :: s in hit <==> OwnInputs(e, s, f) != OwnInputs(e, s, g)
  }

  ghost predicate Everything(e: Engine, st: Advice) {
    Advisor(e).AllFresh(st) && st.artifacts.Keys == ALL_STEPS
  }

  lemma {:induction false} CostIsStale(e: Engine, f: Facts, g: Facts, hit: set<StepId>, cost: set<StepId>, s: StepId)
    requires Hits(e, f, g, hit) && Spreads(cost, hit) && s in cost
    ensures Advisor(e).WellOrdered() && s in Advisor(e).order
    ensures Advisor(e).Fresh(f, ALL_STEPS, s) != Advisor(e).Fresh(g, ALL_STEPS, s)
    decreases Index(s)
  {
    hide *;
    AdvisorIsWellOrdered(e);
    AdvisorParts(e);
    EveryStepIsListed(s);
    if s in hit {
      HitDiffers(e, f, g, hit, s);
      OwnTells(e, f, g, s);
    } else {
      var d := Behind(cost, hit, s);
      FeedsPrecede(d, s);
      CostIsStale(e, f, g, hit, cost, d);
      FeedTells(e, f, g, d, s);
    }
  }

  lemma HitDiffers(e: Engine, f: Facts, g: Facts, hit: set<StepId>, s: StepId)
    requires Hits(e, f, g, hit)
    ensures s in hit <==> OwnInputs(e, s, f) != OwnInputs(e, s, g)
  {
    hide OwnInputs;
    assert OwnInputs(e, s, f) == OwnInputs(e, s, f);
  }

  lemma Behind(cost: set<StepId>, hit: set<StepId>, s: StepId) returns (d: StepId)
    requires Spreads(cost, hit) && s in cost && s !in hit
    ensures d in cost && Feeds(d, s)
  {
    hide Feeds;
    d :| d in cost && Feeds(d, s);
  }

  lemma FeedsPrecede(d: StepId, s: StepId)
    requires Feeds(d, s)
    ensures Index(d) < Index(s)
  {
    DependenciesPrecede(s, d);
  }

  lemma OwnTells(e: Engine, f: Facts, g: Facts, s: StepId)
    requires Advisor(e).WellOrdered() && s in Advisor(e).order && OwnInputs(e, s, f) != OwnInputs(e, s, g)
    ensures Advisor(e).Fresh(f, ALL_STEPS, s) != Advisor(e).Fresh(g, ALL_STEPS, s)
  {
    hide Advisor, OwnInputs;
    AdvisorParts(e);
  }

  lemma RequiredAt(e: Engine, f: Facts, s: StepId, k: nat)
    requires Advisor(e).WellOrdered() && s in Advisor(e).order && k < |FingerprintUpstream(s)|
    ensures FingerprintUpstream(s)[k] in Advisor(e).order && k < |Advisor(e).Fresh(f, ALL_STEPS, s).required|
    ensures Advisor(e).Fresh(f, ALL_STEPS, s).required[k] == Advisor(e).Fresh(f, ALL_STEPS, FingerprintUpstream(s)[k])
  {
    hide Advisor, OwnInputs, FingerprintUpstream;
    AdvisorParts(e);
    EveryStepIsListed(FingerprintUpstream(s)[k]);
  }

  lemma OptionalAt(e: Engine, f: Facts, s: StepId, k: nat)
    requires Advisor(e).WellOrdered() && s in Advisor(e).order && k < |OptionalSteps(s)|
    ensures OptionalSteps(s)[k] in Advisor(e).order && k < |Advisor(e).Fresh(f, ALL_STEPS, s).optional|
    ensures Advisor(e).Fresh(f, ALL_STEPS, s).optional[k] == Some(Advisor(e).Fresh(f, ALL_STEPS, OptionalSteps(s)[k]))
  {
    hide Advisor, OwnInputs, OptionalSteps;
    AdvisorParts(e);
    EveryStepIsListed(OptionalSteps(s)[k]);
  }

  lemma FeedTells(e: Engine, f: Facts, g: Facts, d: StepId, s: StepId)
    requires Advisor(e).WellOrdered() && s in Advisor(e).order && d in Advisor(e).order && Feeds(d, s)
    requires Advisor(e).Fresh(f, ALL_STEPS, d) != Advisor(e).Fresh(g, ALL_STEPS, d)
    ensures Advisor(e).Fresh(f, ALL_STEPS, s) != Advisor(e).Fresh(g, ALL_STEPS, s)
  {
    hide Advisor, FingerprintUpstream, OptionalSteps;
    if d in FingerprintUpstream(s) {
      var k :| 0 <= k < |FingerprintUpstream(s)| && FingerprintUpstream(s)[k] == d;
      RequiredAt(e, f, s, k);
      RequiredAt(e, g, s, k);
    } else {
      var k :| 0 <= k < |OptionalSteps(s)| && OptionalSteps(s)[k] == d;
      OptionalAt(e, f, s, k);
      OptionalAt(e, g, s, k);
    }
  }

  lemma RestIsClosedBelow(cost: set<StepId>)
    requires ClosedAbove(cost)
    ensures forall t, d :: t in ALL_STEPS - cost && d in FingerprintUpstream(t) ==> d in ALL_STEPS - cost
    ensures forall t, d :: t in ALL_STEPS - cost && d in OptionalSteps(t) ==> d in ALL_STEPS - cost
  {
    hide FingerprintUpstream, OptionalSteps;
    forall t, d | t in ALL_STEPS - cost && (d in FingerprintUpstream(t) || d in OptionalSteps(t))
      ensures d in ALL_STEPS - cost
    {
      EveryStepIsListed(d);
      assert Feeds(d, t);
    }
  }

  lemma OthersAreFresh(e: Engine, f: Facts, g: Facts, hit: set<StepId>, cost: set<StepId>, s: StepId)
    requires Hits(e, f, g, hit) && hit <= cost && ClosedAbove(cost) && s !in cost
    ensures Advisor(e).WellOrdered() && s in Advisor(e).order
    ensures Advisor(e).Fresh(f, ALL_STEPS, s) == Advisor(e).Fresh(g, ALL_STEPS, s)
  {
    hide *;
    AdvisorIsWellOrdered(e);
    AdvisorParts(e);
    EveryStepIsListed(s);
    var below := ALL_STEPS - cost;
    RestIsClosedBelow(cost);
    MakesClosedBelow(e, ALL_STEPS, below);
    forall t | t in below ensures OwnInputs(e, t, f) == OwnInputs(e, t, g) { HitDiffers(e, f, g, hit, t); }
    SameBelowSameFresh(e, f, g, ALL_STEPS, below, s);
  }

  /** From a complete, up-to-date session the sweep after an edit drops exactly the steps it costs. */
  lemma EditCosts(e: Engine, st: Advice, g: Facts, hit: set<StepId>, cost: set<StepId>, s: StepId)
    requires Everything(e, st) && Hits(e, st.inputs, g, hit) && Spreads(cost, hit) && ClosedAbove(cost)
    ensures Advisor(e).Known(st.(inputs := g))
    ensures s !in Advisor(e).Invalidated(st.(inputs := g)).artifacts <==> s in cost
  {
    hide Advisor, OwnInputs, Feeds;
    EveryStepIsListed(s);
    assert s in st.artifacts && Advisor(e).IsFresh(st, s);
    if s in cost {
      CostIsStale(e, st.inputs, g, hit, cost, s);
    } else {
      OthersAreFresh(e, st.inputs, g, hit, cost, s);
    }
  }

  /** Nothing but the slot's present answer differs. */
  ghost predicate OneAnswerDiffers(f: Facts, g: Facts, n: SlotName) {
    && (forall m :: m != n ==> f.Of(m) == g.Of(m))
    && (f.State(n) != g.State(n) || f.Of(n).current.value != g.Of(n).current.value)
    && SameBesides(f, g)
  }

  ghost predicate SameBesides(f: Facts, g: Facts) {
    && f.assets.current.items == g.assets.current.items && f.experience.current.items == g.experience.current.items
    && f.candidate == g.candidate && f.category == g.category && f.subtypes == g.subtypes
  }

  /** The steps whose own inputs a new answer for a slot changes. */
  predicate Touches(n: SlotName, s: StepId) {
    match n
    case ProposedBusinessText => s == ResolveProposed
    case LocationText => s == Discover || s == DemandEvidence
    case RadiusM => s == Discover || s == DemandEvidence
    case LiquidCashInr => s == BuildPlan || s == StructureFinance || s == SchemeCapacity || s == Opportunity
    case PromoterCashContributionInr => s == BuildPlan || s == StructureFinance
    case LoanPrincipalInr => s == BuildPlan || s == FinanceKnowledge
    case _ => s == BuildPlan
  }

  lemma TouchesDeclared(n: SlotName, s: StepId)
    ensures Touches(n, s) <==> n in StepInputSlots(s)
  {
  }

  function Touched(n: SlotName): set<StepId> {
    set s | s in ALL_STEPS && Touches(n, s)
  }

  lemma OnlySlotsTell(e: Engine, f: Facts, g: Facts, s: StepId)
    requires SameBesides(f, g)
    ensures OwnInputs(e, s, f) == OwnInputs(e, s, g) <==> Repr(f, StepInputSlots(s)) == Repr(g, StepInputSlots(s))
  {
    hide StepInputSlots, Repr;
  }

  lemma OneAnswerTells(f: Facts, g: Facts, n: SlotName, names: seq<SlotName>)
    requires OneAnswerDiffers(f, g, n)
    ensures n in names <==> Repr(f, names) != Repr(g, names)
  {
    if n in names {
      var k :| 0 <= k < |names| && names[k] == n;
      assert Repr(f, names)[k] != Repr(g, names)[k];
    } else {
      SameAnswersSameRepr(f, g, names);
    }
  }

  lemma OneAnswerHits(e: Engine, f: Facts, g: Facts, n: SlotName)
    requires OneAnswerDiffers(f, g, n)
    ensures Hits(e, f, g, Touched(n))
  {
    hide StepInputSlots, OwnInputs, Repr, SameBesides, Touches;
    forall s ensures s in Touched(n) <==> OwnInputs(e, s, f) != OwnInputs(e, s, g) {
      EveryStepIsListed(s);
      TouchesDeclared(n, s);
      OnlySlotsTell(e, f, g, s);
      OneAnswerTells(f, g, n, StepInputSlots(s));
    }
  }

  lemma {:induction false} SameAnswersSameRepr(f: Facts, g: Facts, names: seq<SlotName>)
    requires forall n :: n in names ==> f.Of(n) == g.Of(n)
    ensures Repr(f, names) == Repr(g, names)
  {
    if names != [] {
      assert names[0] in names;
      SameAnswersSameRepr(f, g, names[1..]);
    }
  }

  // ---- the twenty steps, one by one ----

  lemma BusinessLink(s: StepId) returns (d: StepId)
    requires s != DemandEvidence && s != SchemeCapacity && s != ResolveProposed
    ensures Feeds(d, s) && d != DemandEvidence && d != SchemeCapacity
  {
    d := if s == DemandSignals then Metrics else RequiredSteps(s)[0];
  }

  lemma PlaceLink(s: StepId) returns (d: StepId)
    requires OnPlace(s) && s != Discover && s != DemandEvidence
    ensures Feeds(d, s) && OnPlace(d)
  {
    if s == MarketPriceEvidence || s == FinanceKnowledge {
      d := Discover;
    } else if s == BindPlan {
      d := FinanceKnowledge;
    } else {
      d := RequiredSteps(s)[0];
    }
  }

  lemma PlanLink(s: StepId) returns (d: StepId)
    requires OnPlan(s) && s != BuildPlan
    ensures Feeds(d, s) && OnPlan(d)
  {
    d := if s == Opportunity then FinancialFit else RequiredSteps(s)[0];
  }

  lemma NothingFeedsThese(d: StepId, s: StepId)
    requires Feeds(d, s)
    ensures s != DemandEvidence && s != SchemeCapacity && s != ResolveProposed && d != SchemeCapacity
    ensures !OnPlace(s) ==> !OnPlace(d)
    ensures OnOpportunity(d) ==> OnOpportunity(s)
  {
  }

  lemma PlanStaysBelow(d: StepId, s: StepId)
    requires Feeds(d, s)
    ensures OnPlan(d) || d == FinanceKnowledge ==> OnPlan(s)
  {
  }

  function CostOf(n: SlotName): set<StepId> {
    set s | s in ALL_STEPS && Costs(n, s)
  }

  lemma CostIsClosed(n: SlotName)
    ensures ClosedAbove(CostOf(n))
  {
    hide Feeds, OnPlace, OnPlan, OnOpportunity;
    forall d, s | d in CostOf(n) && Feeds(d, s) ensures s in CostOf(n) {
      NothingFeedsThese(d, s);
      PlanStaysBelow(d, s);
      EveryStepIsListed(s);
    }
  }

  lemma TouchedCosts(n: SlotName, s: StepId)
    ensures Touches(n, s) ==> Costs(n, s)
    ensures Costs(n, s) && !Touches(n, s) ==> exists d :: Feeds(d, s) && Costs(n, d)
  {
    hide Feeds;
    if Costs(n, s) && !Touches(n, s) {
      if n == ProposedBusinessText {
        var d := BusinessLink(s);
      } else if n == LocationText || n == RadiusM {
        var d := PlaceLink(s);
      } else {
        var d := PlanLink(s);
      }
    }
  }

  lemma CostSpreads(n: SlotName)
    ensures Spreads(CostOf(n), Touched(n))
  {
    hide Feeds, Costs, Touches;
    forall s | s in Touched(n) ensures s in CostOf(n) { TouchedCosts(n, s); }
    forall s | s in CostOf(n) && s !in Touched(n) ensures exists d :: d in CostOf(n) && Feeds(d, s) {
      TouchedCosts(n, s);
      var d :| Feeds(d, s) && Costs(n, d);
      EveryStepIsListed(d);
    }
  }

  /**
   A new answer costs a complete, up-to-date session exactly the steps listed for its slot: the sweep drops them and
   keeps all others.
   */
  lemma NewAnswerCosts(e: Engine, st: Advice, g: Facts, n: SlotName, s: StepId)
    requires Everything(e, st) && OneAnswerDiffers(st.inputs, g, n)
    ensures Advisor(e).Known(st.(inputs := g))
    ensures s !in Advisor(e).Invalidated(st.(inputs := g)).artifacts <==> Costs(n, s)
  {
    hide *;
    OneAnswerHits(e, st.inputs, g, n);
    CostIsClosed(n);
    CostSpreads(n);
    EditCosts(e, st, g, Touched(n), CostOf(n), s);
    InCost(n, s);
  }

  lemma InCost(n: SlotName, s: StepId)
    ensures s in CostOf(n) <==> Costs(n, s)
  {
    hide Costs;
    EveryStepIsListed(s);
  }

  /** New assets or experience cost the opportunity, the recommendation and the SWOT analysis. */
  lemma NewProfileCosts(e: Engine, st: Advice, g: Facts, s: StepId)
    requires Everything(e, st) && g == st.inputs.(assets := g.assets, experience := g.experience)
    requires g.assets.current.items != st.inputs.assets.current.items
             || g.experience.current.items != st.inputs.experience.current.items
    ensures Advisor(e).Known(st.(inputs := g))
    ensures s !in Advisor(e).Invalidated(st.(inputs := g)).artifacts <==> OnOpportunity(s)
  {
    hide Advisor, Everything, ClosedAbove, Spreads, StepInputSlots;
    var cost := {Opportunity, Recommend, Swot};
    ProfileSpreads(cost);
    forall t ensures t == Opportunity <==> OwnInputs(e, t, st.inputs) != OwnInputs(e, t, g) {
      SameSlotsSameRepr(st.inputs, g, StepInputSlots(t));
    }
    EditCosts(e, st, g, {Opportunity}, cost, s);
  }

  /** Another geocoding candidate costs what another place does. */
  lemma NewCandidateCosts(e: Engine, st: Advice, g: Facts, s: StepId)
    requires Everything(e, st) && g == st.inputs.(candidate := g.candidate) && g.candidate != st.inputs.candidate
    ensures Advisor(e).Known(st.(inputs := g))
    ensures s !in Advisor(e).Invalidated(st.(inputs := g)).artifacts <==> OnPlace(s)
  {
    hide Advisor, Everything, ClosedAbove, Spreads, StepInputSlots, Costs, OnPlace;
    CostIsClosed(LocationText);
    CostSpreads(LocationText);
    PlaceIsDeclared();
    forall t ensures t in {Discover, DemandEvidence} <==> OwnInputs(e, t, st.inputs) != OwnInputs(e, t, g) {
      SameSlotsSameRepr(st.inputs, g, StepInputSlots(t));
    }
    EditCosts(e, st, g, {Discover, DemandEvidence}, CostOf(LocationText), s);
    PlaceCosts(s);
  }

  lemma ProfileSpreads(cost: set<StepId>)
    requires cost == {Opportunity, Recommend, Swot}
    ensures ClosedAbove(cost) && Spreads(cost, {Opportunity})
  {
    assert Feeds(Opportunity, Recommend) && Feeds(Opportunity, Swot);
    forall d, s | d in cost && Feeds(d, s) ensures s in cost { NothingFeedsThese(d, s); }
  }

  lemma PlaceIsDeclared()
    ensures Touched(LocationText) == {Discover, DemandEvidence}
  {
  }

  lemma PlaceCosts(s: StepId)
    ensures s in CostOf(LocationText) <==> OnPlace(s)
  {
    EveryStepIsListed(s);
  }
}
