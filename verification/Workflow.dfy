/** The twenty steps, their dependency table, and the fixed order derived from it. */
module Workflow {
  import opened Wrappers
  import opened SessionModels
  import TopologicalOrder

  datatype StepId =
    | ResolveProposed | Discover | Analyze | Metrics | DemandEvidence | DemandSignals
    | MarketPriceEvidence | MarketPriceSignal | AssessMarket | OpportunityEvidence | Opportunity
    | FinanceKnowledge | BuildPlan | BindPlan | SchemeCapacity | StructureFinance | AssessFinance
    | FinancialFit | Recommend | Swot

  function RequiredSteps(s: StepId): seq<StepId> {
    match s
    case ResolveProposed => []
    case Discover => [ResolveProposed]
    case Analyze => [Discover, ResolveProposed]
    case Metrics => [Analyze, Discover]
    case DemandEvidence => [Discover]
    case DemandSignals => [DemandEvidence]
    case AssessMarket => [Metrics, DemandSignals]
    case MarketPriceEvidence => [ResolveProposed]
    case MarketPriceSignal => [MarketPriceEvidence]
    case OpportunityEvidence => [Discover, ResolveProposed, DemandEvidence]
    case Opportunity => [OpportunityEvidence]
    case FinanceKnowledge => [ResolveProposed]
    case BuildPlan => [ResolveProposed]
    case BindPlan => [BuildPlan, FinanceKnowledge]
    case SchemeCapacity => []
    case StructureFinance => [BindPlan]
    case AssessFinance => [BindPlan, StructureFinance]
    case FinancialFit => [AssessFinance]
    case Recommend => [Opportunity, AssessFinance]
    case Swot => [Opportunity, AssessFinance, StructureFinance]
  }

  function OptionalSteps(s: StepId): seq<StepId> {
    match s
    case DemandSignals => [Metrics]
    case AssessMarket => [Analyze]
    case MarketPriceEvidence => [Discover]
    case Opportunity => [FinancialFit]
    case FinanceKnowledge => [Discover]
    case Recommend => [AssessMarket]
    case Swot => [AssessMarket]
    case _ => []
  }

  /** The runners that load a step's result and fail without it. */
  predicate IsLoadedBy(d: StepId, s: StepId) {
    match d
    case ResolveProposed => s == Analyze || s == MarketPriceEvidence
    case Discover => s == Analyze || s == Metrics || s == DemandEvidence || s == OpportunityEvidence
    case Analyze => s == Metrics
    case Metrics => s == AssessMarket
    case DemandEvidence => s == DemandSignals || s == OpportunityEvidence
    case DemandSignals => s == AssessMarket
    case MarketPriceEvidence => s == MarketPriceSignal
    case OpportunityEvidence => s == Opportunity
    case Opportunity => s == Recommend || s == Swot
    case FinanceKnowledge => s == BindPlan
    case BuildPlan => s == BindPlan
    case BindPlan => s == StructureFinance || s == AssessFinance
    case StructureFinance => s == AssessFinance || s == Swot
    case AssessFinance => s == FinancialFit || s == Recommend || s == Swot
    case _ => false
  }

  /** The runners that load a step's result if it is there. */
  predicate IsTriedBy(d: StepId, s: StepId) {
    match d
    case Discover => s == MarketPriceEvidence || s == FinanceKnowledge
    case Analyze => s == AssessMarket
    case Metrics => s == DemandSignals
    case FinancialFit => s == Opportunity
    case AssessMarket => s == Recommend || s == Swot
    case _ => false
  }

  /**
   A step requires what its runner loads, and lists as optional what its runner tries to load. Four steps require the
   resolver only for the category it leaves in the session.
   */
  lemma EdgesAreLoads(d: StepId, s: StepId)
    ensures d in RequiredSteps(s) <==>
              IsLoadedBy(d, s)
              || (d == ResolveProposed
                  && (s == Discover || s == OpportunityEvidence || s == FinanceKnowledge || s == BuildPlan))
    ensures d in OptionalSteps(s) <==> IsTriedBy(d, s)
  {
    hide RequiredSteps, IsLoadedBy;
    if d in RequiredSteps(s) { RequiredAreLoaded(d, s); }
    if IsLoadedBy(d, s) { LoadedAreRequired(d, s); }
    CategoryIsRequired(s);
  }

  lemma RequiredAreLoaded(d: StepId, s: StepId)
    requires d in RequiredSteps(s)
    ensures IsLoadedBy(d, s)
            || (d == ResolveProposed
                && (s == Discover || s == OpportunityEvidence || s == FinanceKnowledge || s == BuildPlan))
  {
  }

  lemma LoadedAreRequired(d: StepId, s: StepId)
    requires IsLoadedBy(d, s)
    ensures d in RequiredSteps(s)
  {
  }

  lemma CategoryIsRequired(s: StepId)
    ensures s == Discover || s == OpportunityEvidence || s == FinanceKnowledge || s == BuildPlan ==>
              ResolveProposed in RequiredSteps(s)
  {
  }

  /** The two structural preconditions. */
  function RequiredSlots(s: StepId): seq<SlotName> {
    match s
    case ResolveProposed => [ProposedBusinessText]
    case Discover => [LocationText]
    case _ => []
  }

  const ALL_STEPS: set<StepId> := {
    ResolveProposed, Discover, Analyze, Metrics, DemandEvidence, DemandSignals, MarketPriceEvidence,
    MarketPriceSignal, AssessMarket, OpportunityEvidence, Opportunity, FinanceKnowledge, BuildPlan, BindPlan,
    SchemeCapacity, StructureFinance, AssessFinance, FinancialFit, Recommend, Swot}

  const DAG_ORDER: seq<StepId> := [
    ResolveProposed, SchemeCapacity, BuildPlan, Discover, Analyze, DemandEvidence, FinanceKnowledge,
    MarketPriceEvidence, BindPlan, MarketPriceSignal, Metrics, OpportunityEvidence, DemandSignals,
    StructureFinance, AssessFinance, AssessMarket, FinancialFit, Opportunity, Recommend, Swot]

  /** Alphabetical rank of a step's name. */
  function NameRank(s: StepId): int {
    match s
    case Analyze => 0 case AssessFinance => 1 case AssessMarket => 2 case BindPlan => 3 case BuildPlan => 4
    case DemandEvidence => 5 case DemandSignals => 6 case Discover => 7 case FinanceKnowledge => 8
    case FinancialFit => 9 case MarketPriceEvidence => 10 case MarketPriceSignal => 11 case Metrics => 12
    case Opportunity => 13 case OpportunityEvidence => 14 case Recommend => 15 case ResolveProposed => 16
    case SchemeCapacity => 17 case StructureFinance => 18 case Swot => 19
  }

  /** Index in `DAG_ORDER`. */
  function Index(s: StepId): (i: nat)
    ensures i < |DAG_ORDER| && DAG_ORDER[i] == s
  {
    match s
    case ResolveProposed => 0 case SchemeCapacity => 1 case BuildPlan => 2 case Discover => 3 case Analyze => 4
    case DemandEvidence => 5 case FinanceKnowledge => 6 case MarketPriceEvidence => 7 case BindPlan => 8
    case MarketPriceSignal => 9 case Metrics => 10 case OpportunityEvidence => 11 case DemandSignals => 12
    case StructureFinance => 13 case AssessFinance => 14 case AssessMarket => 15 case FinancialFit => 16
    case Opportunity => 17 case Recommend => 18 case Swot => 19
  }

  /** Longest dependency chain below a step. */
  ghost function Depth(s: StepId): nat {
    match s
    case ResolveProposed => 0 case SchemeCapacity => 0
    case BuildPlan => 1 case Discover => 1
    case Analyze => 2 case DemandEvidence => 2 case FinanceKnowledge => 2 case MarketPriceEvidence => 2
    case BindPlan => 3 case MarketPriceSignal => 3 case Metrics => 3 case OpportunityEvidence => 3
    case DemandSignals => 4 case StructureFinance => 4
    case AssessFinance => 5 case AssessMarket => 5
    case FinancialFit => 6 case Opportunity => 7 case Recommend => 8 case Swot => 8
  }

  function AllDependencies(s: StepId): set<StepId> {
    (set d | d in RequiredSteps(s)) + (set d | d in OptionalSteps(s))
  }

  /** `remaining` as the algorithm starts with it. */
  function DependencyMap(steps: seq<StepId>): (m: map<StepId, set<StepId>>)
    ensures forall s :: s in m <==> s in steps
    ensures forall s :: s in m ==> m[s] == AllDependencies(s)
  {
    if steps == [] then map[] else DependencyMap(steps[1..])[steps[0] := AllDependencies(steps[0])]
  }

  lemma EveryStepIsListed(s: StepId)
    ensures s in DAG_ORDER && s in ALL_STEPS
  {
  }

  lemma DependenciesPrecede(s: StepId, d: StepId)
    requires d in RequiredSteps(s) || d in OptionalSteps(s)
    ensures Index(d) < Index(s) && Depth(d) < Depth(s)
  {
  }

  lemma DepthIsAttained(s: StepId) returns (d: StepId)
    requires Depth(s) > 0
    ensures d in AllDependencies(s) && Depth(d) == Depth(s) - 1
  {
    match s
    case Discover => d := ResolveProposed;
    case Analyze => d := Discover;
    case Metrics => d := Analyze;
    case DemandEvidence => d := Discover;
    case DemandSignals => d := Metrics;
    case AssessMarket => d := DemandSignals;
    case MarketPriceEvidence => d := Discover;
    case MarketPriceSignal => d := MarketPriceEvidence;
    case OpportunityEvidence => d := DemandEvidence;
    case Opportunity => d := FinancialFit;
    case FinanceKnowledge => d := Discover;
    case BuildPlan => d := ResolveProposed;
    case BindPlan => d := FinanceKnowledge;
    case StructureFinance => d := BindPlan;
    case AssessFinance => d := StructureFinance;
    case FinancialFit => d := AssessFinance;
    case Recommend => d := Opportunity;
    case Swot => d := Opportunity;
    assert d in RequiredSteps(s) || d in OptionalSteps(s);
  }

  ghost function Levels(steps: seq<StepId>): (m: map<StepId, nat>)
    ensures forall s :: s in m <==> s in steps
    ensures forall s :: s in m ==> m[s] == Depth(s)
  {
    if steps == [] then map[] else Levels(steps[1..])[steps[0] := Depth(steps[0])]
  }

  lemma DagOrderIsSorted(i: nat, j: nat)
    requires i < j < |DAG_ORDER|
    ensures Depth(DAG_ORDER[i]) < Depth(DAG_ORDER[j])
         || (Depth(DAG_ORDER[i]) == Depth(DAG_ORDER[j]) && NameRank(DAG_ORDER[i]) < NameRank(DAG_ORDER[j]))
  {
  }

  ghost predicate IsTable(deps: map<StepId, set<StepId>>) {
    forall s: StepId {:trigger s in deps} {:trigger deps[s]} :: s in deps && deps[s] == AllDependencies(s)
  }

  ghost predicate IsDepthMap(level: map<StepId, nat>) {
    forall s: StepId {:trigger s in level} {:trigger level[s]} :: s in level && level[s] == Depth(s)
  }

  ghost predicate ListsAll(order: seq<StepId>) {
    forall s: StepId {:trigger s in order} :: s in order
  }

  lemma DepthsAreLevels(deps: map<StepId, set<StepId>>, level: map<StepId, nat>)
    requires IsTable(deps) && IsDepthMap(level)
    ensures TopologicalOrder.IsLevelling(deps, level)
  {
    forall s ensures s in deps && s in level && TopologicalOrder.Levelled(deps, level, s) {
      assert deps[s] == AllDependencies(s) && level[s] == Depth(s);
      forall d | d in deps[s] ensures d in level && level[d] < level[s] { DependenciesPrecede(s, d); }
      if Depth(s) > 0 {
        var d := DepthIsAttained(s);
        assert level[d] == level[s] - 1;
      }
    }
  }

  lemma OrderIsByDepth(level: map<StepId, nat>, order: seq<StepId>)
    requires IsDepthMap(level) && ListsAll(order)
    requires forall i, j :: 0 <= i < j < |order| ==> Shallower(order[i], order[j])
    ensures TopologicalOrder.SameMembers(level.Keys, order)
    ensures TopologicalOrder.SortedByLevel(level, NameRank, order)
  {
  }

  ghost predicate Shallower(a: StepId, b: StepId) {
    Depth(a) < Depth(b) || (Depth(a) == Depth(b) && NameRank(a) < NameRank(b))
  }

  lemma DagOrderListsAll()
    ensures ListsAll(DAG_ORDER)
    ensures forall i, j :: 0 <= i < j < |DAG_ORDER| ==> Shallower(DAG_ORDER[i], DAG_ORDER[j])
  {
    forall s: StepId ensures s in DAG_ORDER { EveryStepIsListed(s); }
    forall i, j | 0 <= i < j < |DAG_ORDER| ensures Shallower(DAG_ORDER[i], DAG_ORDER[j]) { DagOrderIsSorted(i, j); }
  }

  lemma NamesDiffer(steps: set<StepId>)
    ensures TopologicalOrder.NamesAreUnique(steps, NameRank)
  {
  }

  lemma LevelsAreDepths(order: seq<StepId>)
    requires ListsAll(order)
    ensures IsDepthMap(Levels(order))
  {
  }

  method KahnOfTable(deps: map<StepId, set<StepId>>, ghost order: seq<StepId>) returns (result: Option<seq<StepId>>)
    requires IsTable(deps) && ListsAll(order)
    requires forall i, j :: 0 <= i < j < |order| ==> Shallower(order[i], order[j])
    ensures result == Some(order)
  {
    hide *;
    ghost var level;
    NamesDiffer(deps.Keys);
    result, level := TopologicalOrder.KahnOrder(deps, NameRank);
    TableHasOrder(deps);
    ghost var depths := Levels(order);
    LevelsAreDepths(order);
    DepthsAreLevels(deps, depths);
    OrderIsByDepth(depths, order);
    AllStepsAreKeys(deps, depths, level, result.value);
    TopologicalOrder.KahnIsDeterministic(deps, NameRank, result.value, level, order, depths);
  }

  lemma AllStepsAreKeys(deps: map<StepId, set<StepId>>, depths: map<StepId, nat>, level: map<StepId, nat>,
                        found: seq<StepId>)
    requires IsTable(deps) && IsDepthMap(depths)
    requires TopologicalOrder.SameMembers(deps.Keys, found) && TopologicalOrder.SameMembers(level.Keys, found)
    ensures level.Keys == depths.Keys
  {
  }

  /** The constant the rest of the program uses is what the algorithm computes from the dependency table. */
  method ComputeDagOrder() returns (order: Option<seq<StepId>>)
    ensures order == Some(DAG_ORDER)
  {
    DagOrderListsAll();
    var deps := Table(DAG_ORDER);
    order := KahnOfTable(deps, DAG_ORDER);
  }

  function Table(steps: seq<StepId>): (m: map<StepId, set<StepId>>)
    requires ListsAll(steps)
    ensures IsTable(m)
  {
    DependencyMap(steps)
  }

  lemma TableHasOrder(deps: map<StepId, set<StepId>>)
    requires IsTable(deps)
    ensures TopologicalOrder.Closed(deps)
    ensures !exists walk :: TopologicalOrder.IsCycle(deps, walk)
  {
    forall s: StepId ensures s in deps { assert deps[s] == AllDependencies(s); }
    forall walk | TopologicalOrder.IsCycle(deps, walk) ensures false { TableHasNoCycle(deps, walk, |walk| - 1); }
  }

  lemma {:induction false} TableHasNoCycle(deps: map<StepId, set<StepId>>, walk: seq<StepId>, n: nat)
    requires IsTable(deps) && TopologicalOrder.IsWalk(deps, walk) && 0 < n < |walk|
    ensures Index(walk[n]) < Index(walk[0])
  {
    assert TopologicalOrder.Edge(deps, walk[n - 1], walk[n]);
    assert walk[n] in AllDependencies(walk[n - 1]);
    DependenciesPrecede(walk[n - 1], walk[n]);
    if n > 1 {
      TableHasNoCycle(deps, walk, n - 1);
    }
  }

  // ---- readiness ----

  predicate IsReady(completed: set<StepId>, satisfied: set<SlotName>, s: StepId) {
    && s !in completed
    && (forall d :: d in RequiredSteps(s) ==> d in completed)
    && (forall n :: n in RequiredSlots(s) ==> n in satisfied)
  }

  method ReadySteps(completed: set<StepId>, satisfied: set<SlotName>) returns (ready: set<StepId>)
    ensures forall s :: s in ready <==> IsReady(completed, satisfied, s)
  {
    ready := {};
    for n := 0 to |DAG_ORDER|
      invariant forall s :: s in ready <==> Index(s) < n && IsReady(completed, satisfied, s)
    {
      var s := DAG_ORDER[n];
      IndexInverse(n);
      assert forall t: StepId :: Index(t) == n ==> t == s;
      if IsReady(completed, satisfied, s) {
        ready := ready + {s};
      }
    }
  }

  lemma IndexInverse(n: nat)
    requires n < |DAG_ORDER|
    ensures Index(DAG_ORDER[n]) == n
  {
  }
}
