/** One turn: apply the edit, sweep once, run whatever the planner names until it stops naming steps. */
module Turn {
  import opened Wrappers
  import opened SessionModels
  import opened Workflow
  import opened StepCache
  import opened Artifacts
  import opened Readiness
  import opened Planner

  /**
   What stays fixed during a turn. `fails` marks the steps whose sources are down, `breaks` the sessions on which a
   runner meets an error that turns do not handle, other than those of `StepRaises`.
   */
  datatype Context = Context(engine: Engine, maxRadius: int, mode: Mode, fails: StepId -> bool,
                             breaks: (StepId, Advice) -> bool)

  const MAX_STEPS_PER_TURN: nat := 22

  ghost predicate Proper(c: Context, st: Advice) {
    Advisor(c.engine).Known(st)
  }

  lemma EmptyIsProper(c: Context, f: Facts)
    ensures Proper(c, Session(f, map[]))
  {
    AdvisorIsWellOrdered(c.engine);
  }

  lemma RunnableIsReady(c: Context, st: Advice, s: StepId)
    requires Proper(c, st) && Runnable(st, s)
    ensures Advisor(c.engine).Ready(st, s) && Advisor(c.engine).Loadable(st, s)
    ensures Proper(c, Advisor(c.engine).RunStep(st, s))
  {
    EveryStepIsListed(s);
  }

  /** The state in which the step loop of a turn stops. */
  ghost function Loop(c: Context, st: Advice, requested: Option<StepId>): Advice
    requires Proper(c, st)
    ensures Proper(c, Loop(c, st, requested))
    decreases ALL_STEPS - st.artifacts.Keys
  {
    hide *;
    var action := Decide(st, requested, c.maxRadius, c.mode);
    if action.RunNext? && !c.fails(action.step) then
      StepIsNew(c, st, requested);
      Loop(c, Advisor(c.engine).RunStep(st, action.step), None)
    else st
  }

  lemma StepIsNew(c: Context, st: Advice, requested: Option<StepId>)
    requires Proper(c, st) && Decide(st, requested, c.maxRadius, c.mode).RunNext?
    ensures var s := Decide(st, requested, c.maxRadius, c.mode).step;
            && Runnable(st, s) && s in ALL_STEPS && s !in st.artifacts
            && Advisor(c.engine).WellOrdered() && Advisor(c.engine).Ready(st, s) && Advisor(c.engine).Loadable(st, s)
            && Proper(c, Advisor(c.engine).RunStep(st, s))
            && ALL_STEPS - Advisor(c.engine).RunStep(st, s).artifacts.Keys < ALL_STEPS - st.artifacts.Keys
  {
    hide *;
    DecideNames(st, requested, c.maxRadius, c.mode);
    var s := Decide(st, requested, c.maxRadius, c.mode).step;
    RunnableIsReady(c, st, s);
    ReadyParts(c, st, s);
    EveryStepIsListed(s);
    Advisor(c.engine).RunStepShape(st, s);
  }

  lemma ReadyParts(c: Context, st: Advice, s: StepId)
    requires Proper(c, st) && Advisor(c.engine).Ready(st, s)
    ensures s !in st.artifacts && Advisor(c.engine).WellOrdered()
  {
    hide Advisor;
  }

  ghost function TurnOf(c: Context, st: Advice, edited: Facts, requested: Option<StepId>): Advice
    requires Proper(c, st)
  {
    Loop(c, Advisor(c.engine).Invalidated(st.(inputs := edited)), requested)
  }

  // ---- turns that raise ----

  /** The figures the user stated are such that the runner of the step raises, whatever its sources. */
  predicate StepRaises(c: Context, f: Facts, s: StepId) {
    match s
    case SchemeCapacity => !CapacityComputes(f)
    case Discover => !RadiusSearches(f, c.engine.defaultRadius, c.maxRadius)
    case FinanceKnowledge => !NotNegative(f, LoanPrincipalInr)
    case BuildPlan => !PlanBuilds(f)
    case AssessFinance => !LoanRepays(f)
    case Opportunity => !ProfileBuilds(f)
    case _ => false
  }

  predicate RunnerRaises(c: Context, st: Advice, s: StepId) {
    StepRaises(c, st.inputs, s) || c.breaks(s, st)
  }

  /** The rungs from collection on build the plan to see what is missing. */
  predicate DecisionRaises(f: Facts, action: NextAction, mode: Mode) {
    && mode == Normal && !PlanBuilds(f)
    && (action.AskItem? || action.AskDriver? || action.DeliverFinal? || action.DeliverPartial?)
  }

  /** The step loop ends in an error that the turn does not catch. */
  ghost predicate Raises(c: Context, st: Advice, requested: Option<StepId>)
    requires Proper(c, st)
    decreases ALL_STEPS - st.artifacts.Keys
  {
    hide *;
    var action := Decide(st, requested, c.maxRadius, c.mode);
    if action.RunNext? then
      RunnerRaises(c, st, action.step) ||
      (!c.fails(action.step) &&
       (StepIsNew(c, st, requested); Raises(c, Advisor(c.engine).RunStep(st, action.step), None)))
    else DecisionRaises(st.inputs, action, c.mode)
  }

  ghost predicate Increasing(executed: seq<StepId>) {
    forall i, j :: 0 <= i < j < |executed| ==> Index(executed[i]) < Index(executed[j])
  }

  /** What the loop has done: nothing but add the executed steps. */
  ghost predicate Ran(before: Advice, st: Advice, executed: seq<StepId>) {
    && st.artifacts.Keys == before.artifacts.Keys + (set s | s in executed)
    && (forall s :: s in before.artifacts ==> st.artifacts[s] == before.artifacts[s])
    && (forall s :: s in executed ==> s !in before.artifacts)
    && forall i, j :: 0 <= i < j < |executed| ==> executed[i] != executed[j]
  }

  /**
   The bound on steps per turn never cuts a turn short: the loop ends because the planner stops naming steps, a source
   is down, or a figure is refused. A turn that raises leaves the session that was saved before it. In any other no step
   runs twice, nothing recorded earlier is touched, and after the first step the positions in the fixed order strictly
   increase.
   */
  method RunTurn(c: Context, st: Advice, edited: Facts, requested: Option<StepId>)
    returns (after: Advice, action: NextAction, executed: seq<StepId>, dropped: seq<StepId>, raised: bool)
    requires Proper(c, st)
    ensures raised == Raises(c, Advisor(c.engine).Invalidated(st.(inputs := edited)), requested)
    ensures after == if raised then st else TurnOf(c, st, edited, requested)
    ensures !raised ==>
              && Ran(Advisor(c.engine).Invalidated(st.(inputs := edited)), after, executed)
              && action == Decide(after, if executed == [] then requested else None, c.maxRadius, c.mode)
              && (action.RunNext? ==> c.fails(action.step))
              && (|executed| > 0 ==> Increasing(executed[1..]))
    ensures forall s :: s in dropped <==>
              s in st.artifacts && s !in Advisor(c.engine).Invalidated(st.(inputs := edited)).artifacts
    ensures |executed| <= 20
  {
    hide Decide, Runnable, Advisor, Index, Loop, Ran, Increasing, Raises, RunnerRaises, DecisionRaises;
    var p := Advisor(c.engine);
    after, dropped := p.Invalidate(st.(inputs := edited));
    ghost var swept := after;
    executed, raised := [], false;
    action := Decide(after, requested, c.maxRadius, c.mode);
    ghost var wanted := requested;
    NothingRan(swept);
    while action.RunNext? && |executed| < MAX_STEPS_PER_TURN
      invariant Proper(c, after) && Ran(swept, after, executed)
      invariant action == Decide(after, wanted, c.maxRadius, c.mode)
      invariant Loop(c, after, wanted) == TurnOf(c, st, edited, requested)
      invariant Raises(c, after, wanted) == Raises(c, swept, requested)
      invariant wanted == if executed == [] then requested else None
      invariant |executed| > 0 ==> Increasing(executed[1..])
      invariant |executed| > 1 ==> NothingRunnableUpTo(after, executed[|executed| - 1])
      decreases MAX_STEPS_PER_TURN - |executed|
    {
      var s := action.step;
      LoopUnfolds(c, after, wanted);
      RaisesUnfolds(c, after, wanted);
      RanAtMostTwenty(swept, after, executed);
      if RunnerRaises(c, after, s) {
        after, raised := st, true;
        return;
      }
      if c.fails(s) { return; }
      StepIsNew(c, after, wanted);
      ghost var before := after;
      after := p.Execute(after, s);
      Extends(swept, before, after, executed, s);
      if |executed| > 0 {
        DecideNames(before, None, c.maxRadius, c.mode);
        NextIsLater(c, before, s);
        Appends(executed, before, s);
      } else {
        OneIsIncreasing(s);
      }
      executed := executed + [s];
      action := Decide(after, None, c.maxRadius, c.mode);
      wanted := None;
    }
    LoopUnfolds(c, after, wanted);
    RaisesUnfolds(c, after, wanted);
    RanAtMostTwenty(swept, after, executed);
    if DecisionRaises(after.inputs, action, c.mode) {
      after, raised := st, true;
    }
  }

  lemma RaisesUnfolds(c: Context, st: Advice, requested: Option<StepId>)
    requires Proper(c, st)
    ensures var action := Decide(st, requested, c.maxRadius, c.mode);
            if action.RunNext? then
              if RunnerRaises(c, st, action.step) then Raises(c, st, requested)
              else if c.fails(action.step) then !Raises(c, st, requested)
              else
                && Advisor(c.engine).WellOrdered() && Advisor(c.engine).Loadable(st, action.step)
                && Proper(c, Advisor(c.engine).RunStep(st, action.step))
                && Raises(c, st, requested) == Raises(c, Advisor(c.engine).RunStep(st, action.step), None)
            else Raises(c, st, requested) == DecisionRaises(st.inputs, action, c.mode)
  {
    hide Decide, Runnable, Advisor, Index, RunnerRaises, DecisionRaises;
    var action := Decide(st, requested, c.maxRadius, c.mode);
    if action.RunNext? { StepIsNew(c, st, requested); }
  }

  /** Every figure that a step or the planner looks at is one it takes. */
  predicate FiguresStand(c: Context, f: Facts) {
    && PlanBuilds(f) && LoanRepays(f) && CapacityComputes(f)
    && RadiusSearches(f, c.engine.defaultRadius, c.maxRadius)
  }

  ghost predicate NothingBreaks(c: Context) {
    forall s, st :: !c.breaks(s, st)
  }

  /** Only a refused figure makes a turn raise, short of runners that break. */
  lemma {:induction false} RaisesMeansRefused(c: Context, st: Advice, requested: Option<StepId>)
    requires Proper(c, st) && FiguresStand(c, st.inputs) && NothingBreaks(c)
    ensures !Raises(c, st, requested) && FiguresStand(c, Loop(c, st, requested).inputs)
    decreases ALL_STEPS - st.artifacts.Keys
  {
    hide Advisor, Decide, Runnable, FiguresStand, Write, Index, StepRaises;
    var p := Advisor(c.engine);
    var action := Decide(st, requested, c.maxRadius, c.mode);
    StandingFiguresRaiseNothing(c, st.inputs, action);
    if action.RunNext? && !c.fails(action.step) {
      StepIsNew(c, st, requested);
      p.RunStepShape(st, action.step);
      AdvisorParts(c.engine);
      WriteKeepsStanding(c, action.step, st.inputs, p.Answer(st, action.step));
      RaisesMeansRefused(c, p.RunStep(st, action.step), None);
    }
  }

  lemma StandingFiguresRaiseNothing(c: Context, f: Facts, action: NextAction)
    requires FiguresStand(c, f)
    ensures !DecisionRaises(f, action, c.mode) && forall s :: !StepRaises(c, f, s)
  {
    hide LoanRepays, RadiusSearches, CapacityComputes;
    assert LoanPrincipalInr in PLAN_FIGURES;
  }

  lemma WriteKeepsStanding(c: Context, s: StepId, f: Facts, x: Payload)
    requires FiguresStand(c, f)
    ensures FiguresStand(c, Write(c.engine, s, f, x))
  {
    hide Write, PlanBuilds, LoanRepays, RadiusSearches, CapacityComputes;
    WriteKeepsFigures(c.engine, s, f, x);
    WriteKeepsSearching(c, s, f, x);
  }

  lemma WriteKeepsSearching(c: Context, s: StepId, f: Facts, x: Payload)
    requires RadiusSearches(f, c.engine.defaultRadius, c.maxRadius)
    ensures RadiusSearches(Write(c.engine, s, f, x), c.engine.defaultRadius, c.maxRadius)
  {
    WriteToRadius(c.engine, s, f, x);
  }

  /** The radius is written by discovery alone, and only where none was stated. */
  lemma WriteToRadius(e: Engine, s: StepId, f: Facts, x: Payload)
    ensures var g := Write(e, s, f, x);
            if s == Discover && f.State(RadiusM) == Missing
            then g.State(RadiusM) == Assumed && g.Of(RadiusM).current.value == Some(Count(e.defaultRadius))
            else g.Of(RadiusM) == f.Of(RadiusM)
  {
  }

  lemma WriteKeepsFigures(e: Engine, s: StepId, f: Facts, x: Payload)
    ensures var g := Write(e, s, f, x); SameChecks(f, g)
  {
    hide Write, SameChecks;
    WriteKeepsOthers(e, s, f, x);
    SameFigures(f, Write(e, s, f, x));
  }

  /** What the models and the debt engine check comes out the same. */
  predicate SameChecks(f: Facts, g: Facts) {
    && PlanBuilds(g) == PlanBuilds(f) && ProfileBuilds(g) == ProfileBuilds(f) && LoanRepays(g) == LoanRepays(f)
    && NotNegative(g, LoanPrincipalInr) == NotNegative(f, LoanPrincipalInr) && CapacityComputes(g) == CapacityComputes(f)
  }

  lemma WriteKeepsOthers(e: Engine, s: StepId, f: Facts, x: Payload)
    ensures forall n :: n !in {LocationText, RadiusM, ProposedBusinessText} ==> Write(e, s, f, x).Of(n) == f.Of(n)
  {
  }

  lemma SameFigures(f: Facts, g: Facts)
    requires forall n :: n !in {LocationText, RadiusM, ProposedBusinessText} ==> g.Of(n) == f.Of(n)
    ensures SameChecks(f, g)
  {
    hide SameChecks;
    forall n | n !in {LocationText, RadiusM, ProposedBusinessText}
      ensures Figure(f, n) == Figure(g, n) && DriverGiven(f, n) == DriverGiven(g, n) { }
    FiguresDecide(f, g);
  }

  lemma FiguresDecide(f: Facts, g: Facts)
    requires forall n :: n !in {LocationText, RadiusM, ProposedBusinessText} ==>
               Figure(f, n) == Figure(g, n) && DriverGiven(f, n) == DriverGiven(g, n)
    ensures SameChecks(f, g)
  {
    hide Figure, DriverGiven, Paise;
  }

  lemma LoopUnfolds(c: Context, st: Advice, requested: Option<StepId>)
    requires Proper(c, st)
    ensures var action := Decide(st, requested, c.maxRadius, c.mode);
            if action.RunNext? && !c.fails(action.step) then
              && Advisor(c.engine).WellOrdered() && Advisor(c.engine).Loadable(st, action.step)
              && Proper(c, Advisor(c.engine).RunStep(st, action.step))
              && Loop(c, st, requested) == Loop(c, Advisor(c.engine).RunStep(st, action.step), None)
            else Loop(c, st, requested) == st
  {
    hide Decide, Runnable, Advisor, Index;
    var action := Decide(st, requested, c.maxRadius, c.mode);
    if action.RunNext? { StepIsNew(c, st, requested); }
  }

  lemma NothingRan(st: Advice)
    ensures Ran(st, st, [])
  {
  }

  lemma OneIsIncreasing(s: StepId)
    ensures Increasing(([] + [s])[1..])
  {
  }

  lemma RanAtMostTwenty(before: Advice, st: Advice, executed: seq<StepId>)
    requires Ran(before, st, executed)
    ensures |executed| <= 20
  {
    AtMostTwenty(executed);
  }

  ghost predicate NothingRunnableUpTo(st: Advice, s: StepId) {
    forall t :: Runnable(st, t) ==> Index(t) > Index(s)
  }

  /** Running the first runnable step makes nothing before it runnable. */
  lemma NextIsLater(c: Context, st: Advice, s: StepId)
    requires Proper(c, st) && Runnable(st, s) && forall t :: Runnable(st, t) ==> Index(s) <= Index(t)
    requires Advisor(c.engine).Loadable(st, s)
    ensures NothingRunnableUpTo(Advisor(c.engine).RunStep(st, s), s)
  {
    hide *;
    AdvisorIsWellOrdered(c.engine);
    var after := Advisor(c.engine).RunStep(st, s);
    forall t | Runnable(after, t) ensures Index(t) > Index(s) {
      if s in RequiredSteps(t) {
        DependenciesPrecede(t, s);
      } else {
        GatesDoNotOpen(c, st, s, t);
        if Index(t) == Index(s) { SameIndexSameStep(s, t); JustRun(c, st, s); }
      }
    }
    DefinesUpTo(after, s);
  }

  lemma DefinesUpTo(st: Advice, s: StepId)
    requires forall t :: Runnable(st, t) ==> Index(t) > Index(s)
    ensures NothingRunnableUpTo(st, s)
  {
    hide Runnable, Index;
  }

  lemma JustRun(c: Context, st: Advice, s: StepId)
    requires Proper(c, st) && Advisor(c.engine).Loadable(st, s)
    ensures !Runnable(Advisor(c.engine).RunStep(st, s), s)
  {
    hide RequiredSteps, RequiredSlots, Write;
  }

  lemma SameIndexSameStep(s: StepId, t: StepId)
    requires Index(s) == Index(t)
    ensures s == t
  {
  }

  lemma GatesDoNotOpen(c: Context, st: Advice, s: StepId, t: StepId)
    requires Proper(c, st) && Runnable(st, s) && Advisor(c.engine).Loadable(st, s)
    requires Runnable(Advisor(c.engine).RunStep(st, s), t) && s !in RequiredSteps(t)
    ensures Runnable(st, t)
  {
    hide *;
    AdvisorIsWellOrdered(c.engine);
    var after := Advisor(c.engine).RunStep(st, s);
    Advisor(c.engine).RunStepShape(st, s);
    AdvisorParts(c.engine);
    var x := Advisor(c.engine).Answer(st, s);
    WritesSatisfyNoGate(c.engine, s, st.inputs, x);
    RunnableParts(after, t);
    ReadyBefore(st.artifacts.Keys, after.artifacts.Keys, SatisfiedSlots(st.inputs), SatisfiedSlots(after.inputs), s, t);
    FailurePersists(st, after, s, t);
  }

  lemma RunnableParts(st: Advice, t: StepId)
    requires Runnable(st, t)
    ensures IsReady(st.artifacts.Keys, SatisfiedSlots(st.inputs), t)
    ensures DiscoverFailure(st).Some? ==> Discover !in RequiredSteps(t)
  {
    hide IsReady, SatisfiedSlots, RequiredSteps, DiscoverFailure;
  }

  lemma FailurePersists(st: Advice, after: Advice, s: StepId, t: StepId)
    requires Runnable(st, s) && after.artifacts.Keys == st.artifacts.Keys + {s}
    requires forall u :: u in st.artifacts && u != s ==> after.artifacts[u] == st.artifacts[u]
    requires IsReady(st.artifacts.Keys, SatisfiedSlots(st.inputs), t)
    requires DiscoverFailure(after).Some? ==> Discover !in RequiredSteps(t)
    ensures Runnable(st, t)
  {
    hide SatisfiedSlots, RequiredSteps, RequiredSlots;
    assert s !in st.artifacts;
  }

  lemma ReadyBefore(done: set<StepId>, later: set<StepId>, open: set<SlotName>, open': set<SlotName>, s: StepId, t: StepId)
    requires later == done + {s} && s !in RequiredSteps(t) && IsReady(later, open', t)
    requires forall n :: n in {ProposedBusinessText, LocationText} && n in open' ==> n in open
    ensures IsReady(done, open, t)
  {
    hide RequiredSteps;
  }

  lemma WritesSatisfyNoGate(e: Engine, s: StepId, f: Facts, x: Payload)
    ensures forall n :: n in {ProposedBusinessText, LocationText} && n in SatisfiedSlots(Write(e, s, f, x)) ==>
              n in SatisfiedSlots(f)
  {
  }

  lemma Extends(swept: Advice, before: Advice, after: Advice, executed: seq<StepId>, s: StepId)
    requires Ran(swept, before, executed) && s !in before.artifacts
    requires after.artifacts.Keys == before.artifacts.Keys + {s}
    requires forall t :: t in before.artifacts ==> after.artifacts[t] == before.artifacts[t]
    ensures Ran(swept, after, executed + [s])
  {
  }

  lemma Appends(executed: seq<StepId>, st: Advice, s: StepId)
    requires |executed| > 0 && Increasing(executed[1..]) && Runnable(st, s)
    requires |executed| > 1 ==> NothingRunnableUpTo(st, executed[|executed| - 1])
    ensures Increasing((executed + [s])[1..])
  {
    var longer := (executed + [s])[1..];
    assert longer == executed[1..] + [s];
    if |executed| > 1 {
      assert executed[1..][|executed| - 2] == executed[|executed| - 1];
    }
  }

  lemma AtMostTwenty(executed: seq<StepId>)
    requires forall i, j :: 0 <= i < j < |executed| ==> executed[i] != executed[j]
    ensures |executed| <= 20
  {
    DistinctAreFew(executed, 20);
  }

  lemma {:induction false} DistinctAreFew(executed: seq<StepId>, n: nat)
    requires forall i, j :: 0 <= i < j < |executed| ==> executed[i] != executed[j]
    requires forall s :: s in executed ==> Index(s) < n
    ensures |executed| <= n
  {
    hide Index;
    if executed != [] {
      assert executed[0] in executed;
      if k :| 0 <= k < |executed| && Index(executed[k]) == n - 1 {
        var others := executed[..k] + executed[k + 1..];
        forall s | s in others ensures Index(s) < n - 1 { OthersDiffer(executed, k, s); }
        DistinctAreFew(others, n - 1);
      } else {
        DistinctAreFew(executed, n - 1);
      }
    }
  }

  lemma OthersDiffer(executed: seq<StepId>, k: nat, s: StepId)
    requires forall i, j :: 0 <= i < j < |executed| ==> executed[i] != executed[j]
    requires k < |executed| && s in executed[..k] + executed[k + 1..]
    ensures s in executed && Index(s) != Index(executed[k])
  {
    hide Index;
    var others := executed[..k] + executed[k + 1..];
    var m :| 0 <= m < |others| && others[m] == s;
    assert s == if m < k then executed[m] else executed[m + 1];
    if Index(s) == Index(executed[k]) { SameIndexSameStep(s, executed[k]); }
  }

  // ---- open gates ----

  /** `s` is the step the planner names when nothing is requested. */
  ghost predicate IsNext(st: Advice, s: StepId) {
    Runnable(st, s) && forall t :: Runnable(st, t) ==> Index(s) <= Index(t)
  }

  /** Everything earlier in the order has a result. */
  ghost predicate AllBefore(st: Advice, s: StepId) {
    forall u :: Index(u) < Index(s) ==> u in st.artifacts
  }

  lemma {:induction false} NextIsFirstMissing(st: Advice, s: StepId, u: StepId)
    requires Opened(st.inputs) && DiscoverFailure(st).None? && IsNext(st, s) && Index(u) < Index(s)
    ensures u in st.artifacts
    decreases Index(u)
  {
    forall d | d in RequiredSteps(u) ensures d in st.artifacts {
      DependenciesPrecede(u, d);
      NextIsFirstMissing(st, s, d);
    }
    if u !in st.artifacts { OpenMeansRunnable(st, u); }
  }

  lemma OpenMeansRunnable(st: Advice, u: StepId)
    requires Opened(st.inputs) && DiscoverFailure(st).None? && u !in st.artifacts
    requires forall d :: d in RequiredSteps(u) ==> d in st.artifacts
    ensures Runnable(st, u)
  {
    hide RequiredSteps, DiscoverFailure;
  }

  lemma NextComesAfterAll(st: Advice, s: StepId)
    requires Opened(st.inputs) && DiscoverFailure(st).None? && IsNext(st, s)
    ensures AllBefore(st, s)
  {
    forall u | Index(u) < Index(s) ensures u in st.artifacts { NextIsFirstMissing(st, s, u); }
  }

  // ---- quiet facts ----

  /** Nothing stops the loop but that nothing is left to run. */
  ghost predicate Unstopped(f: Facts, maxRadius: int) {
    !f.ended && !Contradiction(f, maxRadius) && forall n :: f.State(n) != Ambiguous
  }

  ghost predicate Quiet(f: Facts, maxRadius: int) {
    Unstopped(f, maxRadius) && f.Satisfied(ProposedBusinessText)
  }

  lemma UnstoppedDecides(st: Advice, requested: Option<StepId>, maxRadius: int, mode: Mode)
    requires Unstopped(st.inputs, maxRadius)
    ensures Decide(st, requested, maxRadius, mode).RunNext? <==> exists t :: Runnable(st, t)
  {
    hide Runnable, Index, Contradiction;
  }

  /** A resolved business and an unambiguous place stop nothing, and move nothing but the radius. */
  lemma UnstoppedWrite(e: Engine, s: StepId, f: Facts, x: Payload, maxRadius: int)
    requires Unstopped(f, maxRadius) && x.resolved && x.status == Ok
    ensures var g := Write(e, s, f, x); Unstopped(g, maxRadius) && forall n :: n != RadiusM ==> g.Of(n) == f.Of(n)
  {
    var g := Write(e, s, f, x);
    forall n ensures g.State(n) != Ambiguous && (n != RadiusM ==> g.Of(n) == f.Of(n)) { assert f.State(n) != Ambiguous; }
  }

  lemma QuietWrite(e: Engine, s: StepId, f: Facts, x: Payload, maxRadius: int)
    requires Quiet(f, maxRadius) && x.resolved && x.status == Ok
    ensures var g := Write(e, s, f, x); Quiet(g, maxRadius) && forall n :: n != RadiusM ==> g.Of(n) == f.Of(n)
  {
    hide Write, Unstopped;
    UnstoppedWrite(e, s, f, x, maxRadius);
  }
}
