/**
 What an inexact turn can lead to: three consecutive turns in DEVELOPER mode that name the business, add the place and
 say nothing, with engines chosen to show the damage.

 The finance steps run in the first turn without a place. In the second turn discovery appears, and the
 recommendation is computed in the same turn from the finance results of the first one, but recorded under the
 fingerprint they would have by then. The third turn repairs the finance steps and keeps the recommendation.
 */
module LateLocation {
  import opened Wrappers
  import opened SessionModels
  import opened Workflow
  import opened StepCache
  import opened Artifacts
  import opened Readiness
  import opened Planner
  import opened Turn
  import opened Gaps
  import opened Foresight

  /** The one answer that depends on the place is the knowledge looked up for it; everything else adds up its inputs. */
  function Total(us: seq<Payload>): nat {
    if us == [] then 0 else us[0].detail + Total(us[1..])
  }

  function Plain(detail: nat): Payload {
    Payload(Ok, true, 0, [], [], detail)
  }

  function Compute(s: StepId, us: seq<Payload>, os: seq<Option<Payload>>): Payload {
    if s == FinanceKnowledge then Plain(if |os| == 1 && os[0].Some? then 1 else 0) else Plain(Total(us))
  }

  const ENGINE := Engine((s, r, us, os) => Compute(s, us, os), s => 0, 5000)

  const LIMIT: int := 25000

  const CONTEXT := Context(ENGINE, LIMIT, Developer, s => false, (s, st) => false)

  lemma AnswerIsComputed(st: Advice, s: StepId)
    requires Advisor(ENGINE).Loadable(st, s)
    ensures Advisor(ENGINE).Answer(st, s)
         == Compute(s, Advisor(ENGINE).LoadRequired(st, s), Advisor(ENGINE).LoadOptional(st, s))
  {
  }

  lemma PlainWrite(s: StepId, f: Facts, detail: nat)
    requires Quiet(f, LIMIT)
    ensures var g := Write(ENGINE, s, f, Plain(detail));
            && Quiet(g, LIMIT) && g.State(LocationText) == f.State(LocationText)
            && (s == ResolveProposed ==> g == f.(category := Some(0), subtypes := []))
            && (s != ResolveProposed && s != Discover ==> g == f)
            && g.slotOrder == if s == Discover then g.slotOrder else f.slotOrder
  {
    hide Quiet;
    QuietWrite(ENGINE, s, f, Plain(detail), LIMIT);
  }

  // ---- steps that can run before a place is known ----

  predicate NeedsPlace(s: StepId) {
    match s
    case Discover => true case Analyze => true case Metrics => true case DemandEvidence => true
    case DemandSignals => true case AssessMarket => true case OpportunityEvidence => true case Opportunity => true
    case Recommend => true case Swot => true
    case _ => false
  }

  lemma PlaceSpreads(s: StepId)
    ensures !NeedsPlace(s) ==> forall d :: d in RequiredSteps(s) ==> !NeedsPlace(d)
    ensures !NeedsPlace(s) ==> forall d :: d in OptionalSteps(s) ==> d == Discover
    ensures NeedsPlace(s) && s != Discover ==> exists d :: d in RequiredSteps(s) && NeedsPlace(d)
  {
    if NeedsPlace(s) && s != Discover { assert NeedsPlace(RequiredSteps(s)[0]); }
  }

  lemma DiscoverNeedsPlace()
    ensures NeedsPlace(Discover)
  {
  }

  /** Inputs that agree for the steps that need no place give those steps the same fingerprints. */
  lemma FreshWithoutPlace(i: Facts, a: set<StepId>, j: Facts, b: set<StepId>, t: StepId)
    requires Advisor(ENGINE).WellOrdered() && t in DAG_ORDER && !NeedsPlace(t) && Discover !in a && Discover !in b
    requires forall s :: !NeedsPlace(s) ==> OwnInputs(ENGINE, s, i) == OwnInputs(ENGINE, s, j)
    ensures Advisor(ENGINE).Fresh(i, a, t) == Advisor(ENGINE).Fresh(j, b, t)
  {
    var p := Advisor(ENGINE);
    AdvisorParts(ENGINE);
    var below := set s | s in ALL_STEPS && !NeedsPlace(s);
    forall s, d | s in below && d in p.upstream(s) ensures d in below {
      PlaceSpreads(s);
      EveryStepIsListed(d);
    }
    forall s, d | s in below && d in p.optional(s) ensures d == Discover { PlaceSpreads(s); }
    p.FreshFrame(i, a, j, b, t, below);
  }

  lemma {:induction false} ZerosAddUp(us: seq<Payload>)
    requires forall k :: 0 <= k < |us| ==> us[k] == Plain(0)
    ensures Total(us) == 0
  {
    if us != [] { ZerosAddUp(us[1..]); }
  }

  /** Over payloads that are all zero, every answer but a place-aware lookup is zero. */
  lemma ZeroAnswer(st: Advice, s: StepId)
    requires Advisor(ENGINE).Known(st) && Advisor(ENGINE).Loadable(st, s)
    requires forall t :: t in st.artifacts ==> st.artifacts[t].payload == Plain(0)
    requires s == FinanceKnowledge ==> Discover !in st.artifacts
    ensures Advisor(ENGINE).Answer(st, s) == Plain(0)
  {
    hide Advisor, Compute, Total;
    AnswerIsComputed(st, s);
    var p := Advisor(ENGINE);
    var us := p.LoadRequired(st, s);
    forall k | 0 <= k < |us| ensures us[k] == Plain(0) { assert p.upstream(s)[k] in p.upstream(s); }
    ZerosAddUp(us);
    if s == FinanceKnowledge {
      AdvisorParts(ENGINE);
      KnowledgeLooksUpPlace();
    }
    ComputeOverZeros(s, us, p.LoadOptional(st, s));
  }

  lemma ComputeOverZeros(s: StepId, us: seq<Payload>, os: seq<Option<Payload>>)
    requires Total(us) == 0 && (s == FinanceKnowledge ==> |os| == 0 || os[0].None?)
    ensures Compute(s, us, os) == Plain(0)
  {
  }

  // ---- the step every turn takes next ----

  /** Unrolling the loop of a quiet session by one step. */
  lemma LoopStep(st: Advice) returns (next: Option<StepId>)
    requires Proper(CONTEXT, st) && Quiet(st.inputs, LIMIT)
    ensures next.None? ==> Loop(CONTEXT, st, None) == st && forall t :: !Runnable(st, t)
    ensures next.Some? ==> IsNext(st, next.value) && Advisor(ENGINE).Loadable(st, next.value)
                           && next.value in ALL_STEPS && next.value !in st.artifacts && Advisor(ENGINE).WellOrdered()
                           && Proper(CONTEXT, Advisor(ENGINE).RunStep(st, next.value))
                           && Loop(CONTEXT, st, None) == Loop(CONTEXT, Advisor(ENGINE).RunStep(st, next.value), None)
  {
    UnstoppedDecides(st, None, LIMIT, Developer);
    var action := Decide(st, None, LIMIT, Developer);
    if action.RunNext? {
      next := Some(action.step);
      StepIsNew(CONTEXT, st, None);
      DecideNames(st, None, LIMIT, Developer);
    } else {
      next := None;
    }
  }

  // ---- turn one: no place yet ----

  ghost predicate RecordedWithoutPlace(st: Advice, t: StepId)
    requires Proper(CONTEXT, st) && t in st.artifacts
  {
    !NeedsPlace(t) && st.artifacts[t].payload == Plain(0) && Advisor(ENGINE).IsFresh(st, t)
  }

  ghost predicate FirstTurn(st: Advice) {
    && Proper(CONTEXT, st) && Quiet(st.inputs, LIMIT) && st.inputs.State(LocationText) == Missing
    && (forall t {:trigger RecordedWithoutPlace(st, t)} :: t in st.artifacts ==> RecordedWithoutPlace(st, t))
    && (ResolveProposed in st.artifacts || st.artifacts == map[])
  }

  lemma NextNeedsNoPlace(st: Advice, s: StepId)
    requires FirstTurn(st) && Runnable(st, s)
    ensures !NeedsPlace(s)
  {
    hide IsReady;
    FirstTurnParts(st);
    if NeedsPlace(s) {
      PlaceSpreads(s);
      if s == Discover {
        DiscoverIsClosed(st);
      } else {
        var d :| d in RequiredSteps(s) && NeedsPlace(d);
        RequiredAreThere(st, s, d);
      }
    }
  }

  lemma DiscoverIsClosed(st: Advice)
    requires st.inputs.State(LocationText) == Missing
    ensures !Runnable(st, Discover)
  {
    assert LocationText in RequiredSlots(Discover);
  }

  lemma RequiredAreThere(st: Advice, s: StepId, d: StepId)
    requires Runnable(st, s) && d in RequiredSteps(s)
    ensures d in st.artifacts
  {
    hide RequiredSteps, RequiredSlots, DiscoverFailure;
  }

  lemma ProperIsKnown(st: Advice)
    requires Proper(CONTEXT, st)
    ensures Advisor(ENGINE).Known(st)
  {
    hide Advisor;
  }

  lemma FirstStepIsResolve(st: Advice, s: StepId)
    requires FirstTurn(st) && IsNext(st, s) && st.artifacts == map[]
    ensures s == ResolveProposed
  {
    hide Proper;
    assert Runnable(st, ResolveProposed);
  }

  lemma FirstStep(st: Advice, s: StepId)
    requires FirstTurn(st) && IsNext(st, s) && Advisor(ENGINE).Loadable(st, s) && s !in st.artifacts
    requires Advisor(ENGINE).WellOrdered() && Proper(CONTEXT, Advisor(ENGINE).RunStep(st, s))
    ensures FirstTurn(Advisor(ENGINE).RunStep(st, s))
  {
    hide Advisor, Index, OwnInputs, Compute, Quiet, Write, NeedsPlace, Runnable;
    var p := Advisor(ENGINE);
    var after := p.RunStep(st, s);
    FirstTurnParts(st);
    p.RunStepShape(st, s);
    AdvisorParts(ENGINE);
    NextNeedsNoPlace(st, s);
    DiscoverNeedsPlace();
    if st.artifacts == map[] { FirstStepIsResolve(st, s); }
    ZeroAnswer(st, s);
    PlainWrite(s, st.inputs, 0);
    forall t | t in after.artifacts ensures RecordedWithoutPlace(after, t) {
      if t == s {
        p.RunIsFresh(st, s);
      } else {
        StaysWithoutPlace(st, after, s, t);
      }
    }
  }

  lemma FirstTurnParts(st: Advice)
    requires FirstTurn(st)
    ensures Proper(CONTEXT, st) && Advisor(ENGINE).Known(st) && Quiet(st.inputs, LIMIT) && st.inputs.State(LocationText) == Missing
    ensures ResolveProposed in st.artifacts || st.artifacts == map[]
    ensures Discover !in st.artifacts
    ensures forall t :: t in st.artifacts ==>
              !NeedsPlace(t) && st.artifacts[t].payload == Plain(0) && Advisor(ENGINE).IsFresh(st, t)
  {
    hide Quiet, NeedsPlace, Advisor;
    DiscoverNeedsPlace();
    forall t | t in st.artifacts ensures RecordedWithoutPlace(st, t) { }
  }

  lemma StaysWithoutPlace(st: Advice, after: Advice, s: StepId, t: StepId)
    requires Advisor(ENGINE).Known(st) && Advisor(ENGINE).Known(after) && t in st.artifacts && t in after.artifacts
    requires Advisor(ENGINE).IsFresh(st, t) && !NeedsPlace(t) && Discover !in st.artifacts && s != Discover
    requires after.inputs == st.inputs && after.artifacts.Keys == st.artifacts.Keys + {s}
    requires after.artifacts[t] == st.artifacts[t]
    ensures Advisor(ENGINE).IsFresh(after, t)
  {
    hide NeedsPlace, Advisor, OwnInputs;
    FreshWithoutPlace(st.inputs, st.artifacts.Keys, after.inputs, after.artifacts.Keys, t);
  }

  lemma {:induction false} FirstLoop(st: Advice)
    requires FirstTurn(st)
    ensures Proper(CONTEXT, st) && FirstTurn(Loop(CONTEXT, st, None))
    ensures forall t :: !Runnable(Loop(CONTEXT, st, None), t)
    decreases ALL_STEPS - st.artifacts.Keys
  {
    var next := LoopStep(st);
    if next.Some? {
      var s := next.value;
      FirstStep(st, s);
      Advisor(ENGINE).RunStepShape(st, s);
      FirstLoop(Advisor(ENGINE).RunStep(st, s));
    }
  }

  lemma {:induction false} FirstTurnFinishes(st: Advice, s: StepId)
    requires FirstTurn(st) && !NeedsPlace(s) && forall t :: !Runnable(st, t)
    ensures s in st.artifacts
    decreases Index(s)
  {
    FirstTurnParts(st);
    PlaceSpreads(s);
    forall d | d in RequiredSteps(s) ensures d in st.artifacts {
      DependenciesPrecede(s, d);
      FirstTurnFinishes(st, d);
    }
    if s !in st.artifacts { NoPlaceRunnable(st, s); }
  }

  lemma NoPlaceRunnable(st: Advice, s: StepId)
    requires Quiet(st.inputs, LIMIT) && Discover !in st.artifacts && !NeedsPlace(s) && s !in st.artifacts
    requires forall d :: d in RequiredSteps(s) ==> d in st.artifacts
    ensures Runnable(st, s)
  {
    hide RequiredSteps, Contradiction;
  }

  // ---- turn two: the place is named ----

  function AddPlace(f: Facts, place: SlotValue): Facts {
    f.With(LocationText, f.Of(LocationText).Updated(place))
  }

  lemma AddPlaceEffects(f: Facts, place: SlotValue)
    requires Quiet(f, LIMIT) && place.state == UserProvided
    ensures Quiet(AddPlace(f, place), LIMIT) && Opened(AddPlace(f, place))
    ensures forall s :: !NeedsPlace(s) ==> OwnInputs(ENGINE, s, AddPlace(f, place)) == OwnInputs(ENGINE, s, f)
  {
    hide OwnInputs, NeedsPlace;
    var g := AddPlace(f, place);
    forall n ensures g.State(n) != Ambiguous && (n != LocationText ==> g.Of(n) == f.Of(n)) {
      assert f.State(n) != Ambiguous;
    }
    forall s | !NeedsPlace(s) ensures OwnInputs(ENGINE, s, g) == OwnInputs(ENGINE, s, f) { PlaceDoesNotMatter(f, place, s); }
  }

  lemma PlaceDoesNotMatter(f: Facts, place: SlotValue, s: StepId)
    requires !NeedsPlace(s)
    ensures OwnInputs(ENGINE, s, AddPlace(f, place)) == OwnInputs(ENGINE, s, f)
  {
    hide NeedsPlace, StepInputSlots, Repr;
    PlaceIsNotRead(s);
    WithFrames(f, LocationText, f.Of(LocationText).Updated(place), StepInputSlots(s));
  }

  lemma PlaceIsNotRead(s: StepId)
    requires !NeedsPlace(s)
    ensures LocationText !in StepInputSlots(s) && s != Discover && s != DemandEvidence && s != Opportunity
  {
  }

  /** Naming the place invalidates nothing recorded so far. */
  lemma SweepKeepsFirstTurn(st: Advice, place: SlotValue)
    requires FirstTurn(st) && place.state == UserProvided
    ensures Proper(CONTEXT, st)
    ensures var named := st.(inputs := AddPlace(st.inputs, place));
            Advisor(ENGINE).Known(named) && Advisor(ENGINE).Invalidated(named) == named
  {
    hide Advisor, AddPlace, OwnInputs, NeedsPlace, Quiet, Opened, FirstTurn;
    FirstTurnParts(st);
    AddPlaceEffects(st.inputs, place);
    var named := st.(inputs := AddPlace(st.inputs, place));
    forall t | t in named.artifacts ensures Advisor(ENGINE).IsFresh(named, t) {
      EveryStepIsListed(t);
      FreshWithoutPlace(st.inputs, st.artifacts.Keys, named.inputs, st.artifacts.Keys, t);
    }
  }

  lemma NothingStale(st: Advice)
    requires Advisor(ENGINE).Known(st)
    requires forall t :: t in st.artifacts ==> Advisor(ENGINE).IsFresh(st, t)
    ensures Advisor(ENGINE).Invalidated(st) == st
  {
    hide Advisor;
    assert Advisor(ENGINE).Stale(st) == {};
  }

  /** Recorded under the fingerprint the step has once every step is present. */
  ghost predicate Final(st: Advice, t: StepId)
    requires Advisor(ENGINE).WellOrdered() && t in st.artifacts && t in DAG_ORDER
  {
    st.artifacts[t].fingerprint == Advisor(ENGINE).Fresh(st.inputs, ALL_STEPS, t)
  }

  ghost predicate Done(st: Advice, t: StepId)
    requires Advisor(ENGINE).WellOrdered() && t in st.artifacts && t in DAG_ORDER
  {
    Final(st, t) && AllBefore(st, t)
  }

  ghost predicate Running(st: Advice) {
    Proper(CONTEXT, st) && Advisor(ENGINE).Known(st) && Quiet(st.inputs, LIMIT) && Opened(st.inputs)
  }

  ghost predicate Kept(base: Advice, st: Advice, t: StepId) {
    t in base.artifacts && t in st.artifacts && st.artifacts[t] == base.artifacts[t]
  }

  ghost predicate SecondTurn(base: Advice, st: Advice) {
    && Running(st)
    && (forall t {:trigger Kept(base, st, t)} :: !NeedsPlace(t) ==> Kept(base, st, t))
    && (forall t {:trigger st.artifacts[t]} :: t in st.artifacts ==> st.artifacts[t].payload == Plain(0))
    && (forall t {:trigger Done(st, t)} :: t in st.artifacts && t in DAG_ORDER && (NeedsPlace(t) || t == ResolveProposed) ==>
          Done(st, t))
  }

  lemma SecondTurnParts(base: Advice, st: Advice)
    requires SecondTurn(base, st)
    ensures Running(st) && Proper(CONTEXT, st) && Advisor(ENGINE).Known(st) && Advisor(ENGINE).WellOrdered()
    ensures Quiet(st.inputs, LIMIT) && Opened(st.inputs) && DiscoverFailure(st).None?
    ensures forall t :: t in st.artifacts ==> st.artifacts[t].payload == Plain(0)
    ensures forall t :: !NeedsPlace(t) ==> Kept(base, st, t)
    ensures forall t :: t in st.artifacts && t in DAG_ORDER && (NeedsPlace(t) || t == ResolveProposed) ==> Done(st, t)
  {
  }

  /** A step run when everything before it is present is recorded under its final fingerprint. */
  lemma RunIsFinal(st: Advice, s: StepId)
    requires Advisor(ENGINE).Known(st) && Advisor(ENGINE).Loadable(st, s) && s !in st.artifacts && s in DAG_ORDER
    requires AllBefore(st, s)
    ensures Final(Advisor(ENGINE).RunStep(st, s), s)
  {
    var p := Advisor(ENGINE);
    var after := p.RunStep(st, s);
    forall d | d in p.Below(s) ensures d in st.artifacts.Keys && d in ALL_STEPS {
      BelowIsLess(s, d);
    }
    SameBelow(after.inputs, st.artifacts.Keys, after.inputs, s);
  }

  lemma BelowIsLess(s: StepId, d: StepId)
    requires d in Advisor(ENGINE).Below(s)
    ensures Index(d) < Index(s)
  {
    hide Index;
    EarlierIsIndex(d, s);
  }

  lemma SameBelow(i: Facts, present: set<StepId>, j: Facts, s: StepId)
    requires Advisor(ENGINE).WellOrdered() && s in DAG_ORDER
    requires forall d :: d in Advisor(ENGINE).Below(s) ==> d in present && d in ALL_STEPS
    requires forall d :: d in DAG_ORDER && d in Advisor(ENGINE).Below(s) + {s} ==> Advisor(ENGINE).own(d, i) == Advisor(ENGINE).own(d, j)
    ensures Advisor(ENGINE).Fresh(i, present, s) == Advisor(ENGINE).Fresh(j, ALL_STEPS, s)
  {
    hide Advisor;
    var p := Advisor(ENGINE);
    AdvisorParts(ENGINE);
    p.FreshFromBelow(i, present, j, ALL_STEPS, s, p.Below(s) + {s});
  }

  /** Running a later step leaves a final fingerprint final. */
  lemma StaysFinal(st: Advice, s: StepId, t: StepId)
    requires Advisor(ENGINE).Known(st) && Advisor(ENGINE).Loadable(st, s) && t in st.artifacts && t in DAG_ORDER
    requires Final(st, t) && Index(t) < Index(s)
    ensures t in Advisor(ENGINE).RunStep(st, s).artifacts && Final(Advisor(ENGINE).RunStep(st, s), t)
  {
    hide Advisor, Index;
    var p := Advisor(ENGINE);
    AdvisorParts(ENGINE);
    var after := p.RunStep(st, s);
    var x := p.Answer(st, s);
    forall d | d in DAG_ORDER && d in p.Below(t) + {t} ensures p.own(d, after.inputs) == p.own(d, st.inputs) {
      if d != t { BelowIsLess(t, d); }
      EarlierWriteIsInvisible(ENGINE, s, d, st.inputs, x);
    }
    SameBelow(after.inputs, ALL_STEPS, st.inputs, t);
  }

  lemma SecondStep(base: Advice, st: Advice, s: StepId)
    requires SecondTurn(base, st) && IsNext(st, s) && Advisor(ENGINE).Loadable(st, s) && s !in st.artifacts
    requires Advisor(ENGINE).WellOrdered() && Proper(CONTEXT, Advisor(ENGINE).RunStep(st, s))
    ensures SecondTurn(base, Advisor(ENGINE).RunStep(st, s))
  {
    hide *;
    var p := Advisor(ENGINE);
    var after := p.RunStep(st, s);
    SecondTurnParts(base, st);
    p.RunStepShape(st, s);
    ProperIsKnown(after);
    EveryStepIsListed(s);
    AdvisorParts(ENGINE);
    NextComesAfterAll(st, s);
    if !NeedsPlace(s) { KeptParts(base, st, s); }
    FinanceNeedsNoPlace();
    ZeroAnswer(st, s);
    PlainWrite(s, st.inputs, 0);
    StillOpened(st.inputs, after.inputs);
    RunIsDone(st, s);
    forall t | t in after.artifacts && t in DAG_ORDER && (NeedsPlace(t) || t == ResolveProposed) ensures Done(after, t) {
      if t != s { StaysDone(st, s, t); }
    }
    forall t | !NeedsPlace(t) ensures Kept(base, after, t) {
      KeptParts(base, st, t);
      MakesKept(base, after, t);
    }
    MakesSecondTurn(base, after);
  }

  lemma FinanceNeedsNoPlace()
    ensures !NeedsPlace(FinanceKnowledge)
  {
  }

  lemma KeptParts(base: Advice, st: Advice, t: StepId)
    requires Kept(base, st, t)
    ensures t in base.artifacts && t in st.artifacts && st.artifacts[t] == base.artifacts[t]
  {
  }

  lemma MakesKept(base: Advice, st: Advice, t: StepId)
    requires t in base.artifacts && t in st.artifacts && st.artifacts[t] == base.artifacts[t]
    ensures Kept(base, st, t)
  {
  }

  lemma StillOpened(f: Facts, g: Facts)
    requires Opened(f) && Quiet(g, LIMIT) && g.State(LocationText) == f.State(LocationText)
    ensures Opened(g)
  {
    hide Contradiction;
  }

  lemma RunIsDone(st: Advice, s: StepId)
    requires Advisor(ENGINE).Known(st) && Advisor(ENGINE).Loadable(st, s) && s !in st.artifacts && s in DAG_ORDER
    requires AllBefore(st, s) && Advisor(ENGINE).WellOrdered()
    ensures s in Advisor(ENGINE).RunStep(st, s).artifacts && Done(Advisor(ENGINE).RunStep(st, s), s)
  {
    RunIsFinal(st, s);
  }

  lemma StaysDone(st: Advice, s: StepId, t: StepId)
    requires Advisor(ENGINE).Known(st) && Advisor(ENGINE).Loadable(st, s) && t in st.artifacts && t in DAG_ORDER
    requires Advisor(ENGINE).WellOrdered() && Done(st, t) && s !in st.artifacts
    ensures t in Advisor(ENGINE).RunStep(st, s).artifacts && Done(Advisor(ENGINE).RunStep(st, s), t)
  {
    StaysFinal(st, s, t);
  }

  lemma MakesSecondTurn(base: Advice, st: Advice)
    requires Proper(CONTEXT, st) && Advisor(ENGINE).Known(st) && Quiet(st.inputs, LIMIT) && Opened(st.inputs)
    requires Advisor(ENGINE).WellOrdered()
    requires forall t :: t in st.artifacts ==> st.artifacts[t].payload == Plain(0)
    requires forall t :: !NeedsPlace(t) ==> Kept(base, st, t)
    requires forall t :: t in st.artifacts && t in DAG_ORDER && (NeedsPlace(t) || t == ResolveProposed) ==> Done(st, t)
    ensures SecondTurn(base, st)
  {
  }

  lemma {:induction false} SecondLoop(base: Advice, st: Advice)
    requires SecondTurn(base, st)
    ensures Proper(CONTEXT, st) && SecondTurn(base, Loop(CONTEXT, st, None))
    ensures forall t :: t in Loop(CONTEXT, st, None).artifacts
    decreases ALL_STEPS - st.artifacts.Keys
  {
    hide *;
    SecondTurnParts(base, st);
    var next := LoopStep(st);
    if next.Some? {
      var s := next.value;
      SecondStep(base, st, s);
      Advisor(ENGINE).RunStepShape(st, s);
      SecondLoop(base, Advisor(ENGINE).RunStep(st, s));
    } else {
      forall t ensures t in st.artifacts { NothingRunnableMeansDone(st, t); }
    }
  }

  // ---- turn three: nothing new is said ----

  predicate Finance(t: StepId) {
    t == FinanceKnowledge || t == BindPlan || t == StructureFinance || t == AssessFinance
  }

  /** Which upstream step carries the finance result on. */
  lemma FinanceLink(t: StepId) returns (k: nat)
    requires (Finance(t) && t != FinanceKnowledge) || t == Recommend
    ensures k < |FingerprintUpstream(t)| && Finance(FingerprintUpstream(t)[k])
    ensures FingerprintUpstream(t)[k] in FingerprintUpstream(t) && Index(FingerprintUpstream(t)[k]) < Index(t)
  {
    k := if t == BindPlan || t == Recommend then 1 else 0;
  }

  lemma KnowledgeLooksUpPlace()
    ensures OptionalSteps(FinanceKnowledge) == [Discover] && OptionalSteps(FinanceKnowledge)[0] == Discover
  {
  }

  /** Without discovery the finance steps rest on a gap. */
  lemma FinanceRestsOnGap(keys: set<StepId>, t: StepId)
    requires Finance(t) && Discover !in keys
    ensures OnGap(keys, t)
  {
    assert Discover in OptionalSteps(FinanceKnowledge) && FinanceKnowledge in FingerprintUpstream(BindPlan);
    assert BindPlan in FingerprintUpstream(StructureFinance) && BindPlan in FingerprintUpstream(AssessFinance);
    assert OnGap(keys, FinanceKnowledge) && OnGap(keys, BindPlan);
  }

  ghost predicate Later(st: Advice, t: StepId)
    requires Advisor(ENGINE).WellOrdered() && t in st.artifacts && t in DAG_ORDER
  {
    && Final(st, t) && st.artifacts[t].payload == Plain(st.artifacts[t].payload.detail)
    && (Finance(t) ==> st.artifacts[t].payload.detail > 0)
  }

  ghost predicate ThirdTurn(st: Advice) {
    && Running(st)
    && (forall t {:trigger Later(st, t)} :: t in st.artifacts && t in DAG_ORDER ==> Later(st, t))
    && ResolveProposed in st.artifacts && Discover in st.artifacts
    && Recommend in st.artifacts && st.artifacts[Recommend].payload == Plain(0)
  }

  lemma ThirdTurnParts(st: Advice)
    requires ThirdTurn(st)
    ensures Proper(CONTEXT, st) && Advisor(ENGINE).Known(st) && Advisor(ENGINE).WellOrdered()
    ensures Quiet(st.inputs, LIMIT) && Opened(st.inputs) && DiscoverFailure(st).None?
    ensures forall t :: t in st.artifacts && t in DAG_ORDER ==> Later(st, t)
    ensures ResolveProposed in st.artifacts && Discover in st.artifacts
    ensures Recommend in st.artifacts && st.artifacts[Recommend].payload == Plain(0)
  {
    assert Later(st, Discover);
  }

  lemma LaterParts(st: Advice, t: StepId)
    requires Advisor(ENGINE).WellOrdered() && t in st.artifacts && t in DAG_ORDER
    ensures Later(st, t) <==> Final(st, t) && st.artifacts[t].payload == Plain(st.artifacts[t].payload.detail)
                              && (Finance(t) ==> st.artifacts[t].payload.detail > 0)
  {
    hide Advisor, Final, Finance;
  }

  lemma MakesThirdTurn(st: Advice)
    requires Proper(CONTEXT, st) && Advisor(ENGINE).Known(st) && Advisor(ENGINE).WellOrdered()
    requires Quiet(st.inputs, LIMIT) && Opened(st.inputs)
    requires forall t :: t in st.artifacts && t in DAG_ORDER ==> Later(st, t)
    requires ResolveProposed in st.artifacts && Discover in st.artifacts
    requires Recommend in st.artifacts && st.artifacts[Recommend].payload == Plain(0)
    ensures ThirdTurn(st)
  {
  }

  lemma {:induction false} TotalAtLeast(us: seq<Payload>, k: nat)
    requires k < |us|
    ensures Total(us) >= us[k].detail
  {
    if k > 0 { TotalAtLeast(us[1..], k - 1); }
  }

  /** With discovery present, the finance steps see the place. */
  lemma PlacedAnswer(st: Advice, s: StepId)
    requires Advisor(ENGINE).Known(st) && Advisor(ENGINE).Loadable(st, s) && Discover in st.artifacts
    requires forall t :: t in st.artifacts && Finance(t) ==> st.artifacts[t].payload.detail > 0
    ensures Advisor(ENGINE).Answer(st, s) == Plain(Advisor(ENGINE).Answer(st, s).detail)
    ensures Finance(s) || s == Recommend ==> Advisor(ENGINE).Answer(st, s).detail > 0
  {
    var p := Advisor(ENGINE);
    AnswerIsComputed(st, s);
    ComputeIsPlain(s, p.LoadRequired(st, s), p.LoadOptional(st, s));
    if s == FinanceKnowledge {
      LookupSeesPlace(st);
      ComputeLookup(p.LoadRequired(st, s), p.LoadOptional(st, s));
    } else if Finance(s) || s == Recommend {
      var k := FinanceLink(s);
      AdvisorParts(ENGINE);
      TotalAtLeast(p.LoadRequired(st, s), k);
    }
  }

  lemma ComputeIsPlain(s: StepId, us: seq<Payload>, os: seq<Option<Payload>>)
    ensures Compute(s, us, os) == Plain(Compute(s, us, os).detail)
    ensures s != FinanceKnowledge ==> Compute(s, us, os).detail == Total(us)
  {
  }

  lemma ComputeLookup(us: seq<Payload>, os: seq<Option<Payload>>)
    requires |os| == 1 && os[0].Some?
    ensures Compute(FinanceKnowledge, us, os).detail > 0
  {
  }

  lemma LookupSeesPlace(st: Advice)
    requires Discover in st.artifacts
    ensures var os := Advisor(ENGINE).LoadOptional(st, FinanceKnowledge); |os| == 1 && os[0].Some?
  {
  }

  lemma ThirdStep(st: Advice, s: StepId)
    requires ThirdTurn(st) && IsNext(st, s) && Advisor(ENGINE).Loadable(st, s) && s !in st.artifacts
    requires Advisor(ENGINE).WellOrdered() && Proper(CONTEXT, Advisor(ENGINE).RunStep(st, s))
    ensures ThirdTurn(Advisor(ENGINE).RunStep(st, s))
    ensures Advisor(ENGINE).RunStep(st, s).inputs == st.inputs
    ensures Advisor(ENGINE).RunStep(st, s).artifacts.Keys == st.artifacts.Keys + {s}
  {
    hide IsReady, Later, Running, Quiet, Final;
    var p := Advisor(ENGINE);
    var after := p.RunStep(st, s);
    ThirdTurnParts(st);
    p.RunStepShape(st, s);
    AdvisorParts(ENGINE);
    NextComesAfterAll(st, s);
    forall t | t in st.artifacts && Finance(t) ensures st.artifacts[t].payload.detail > 0 {
      LaterParts(st, t);
    }
    PlacedAnswer(st, s);
    PlainWrite(s, st.inputs, p.Answer(st, s).detail);
    RunIsFinal(st, s);
    LaterParts(after, s);
    forall t | t in after.artifacts && t in DAG_ORDER ensures Later(after, t) {
      if t != s { StaysLater(st, after, t); }
    }
    MakesThirdTurn(after);
  }

  lemma StaysLater(st: Advice, after: Advice, t: StepId)
    requires Advisor(ENGINE).WellOrdered() && t in st.artifacts && t in after.artifacts && t in DAG_ORDER && Later(st, t)
    requires after.inputs == st.inputs && after.artifacts[t] == st.artifacts[t]
    ensures Later(after, t)
  {
  }

  lemma {:induction false} ThirdLoop(st: Advice)
    requires ThirdTurn(st)
    ensures Proper(CONTEXT, st) && ThirdTurn(Loop(CONTEXT, st, None))
    ensures Loop(CONTEXT, st, None).inputs == st.inputs
    ensures forall t :: t in Loop(CONTEXT, st, None).artifacts
    ensures forall t :: !Runnable(Loop(CONTEXT, st, None), t)
    decreases ALL_STEPS - st.artifacts.Keys
  {
    ThirdTurnParts(st);
    var next := LoopStep(st);
    if next.Some? {
      var s := next.value;
      ThirdStep(st, s);
      ThirdLoop(Advisor(ENGINE).RunStep(st, s));
    } else {
      forall t ensures t in st.artifacts { NothingRunnableMeansDone(st, t); }
    }
  }

  lemma SweepDropsFinance(base: Advice, st: Advice, t: StepId)
    requires FirstTurn(base) && SecondTurn(base, st) && (forall t :: t in st.artifacts) && Finance(t)
    ensures Advisor(ENGINE).Known(st) && t !in Advisor(ENGINE).Invalidated(st).artifacts
  {
    hide Advisor, Index, NeedsPlace, Finance, Quiet, Opened, Done, FirstTurn, SecondTurn;
    var p := Advisor(ENGINE);
    FirstTurnParts(base);
    SecondTurnParts(base, st);
    KeysAreAll(st);
    SweepShape(st);
    EveryStepIsListed(t);
    FinanceNeedsNoPlaceEither(t);
    KeptParts(base, st, t);
    FinanceRestsOnGap(base.artifacts.Keys, t);
    OnGapRests(ENGINE, base.artifacts.Keys, t);
    AdvisorParts(ENGINE);
    forall d | Earlier(p.order, d, t) ensures d in ALL_STEPS { EveryStepIsListed(d); }
    GapShows(p, base.inputs, base.artifacts.Keys, st.inputs, ALL_STEPS, t);
    assert p.IsFresh(base, t);
  }

  /** The sweep that opens the third turn drops the finance steps and keeps the recommendation. */
  lemma ThirdSweep(base: Advice, st: Advice)
    requires FirstTurn(base) && SecondTurn(base, st) && forall t :: t in st.artifacts
    ensures Advisor(ENGINE).Known(st) && ThirdTurn(Advisor(ENGINE).Invalidated(st))
    ensures Advisor(ENGINE).Invalidated(st).inputs == st.inputs
  {
    var p := Advisor(ENGINE);
    AdvisorParts(ENGINE);
    var kept := p.Invalidated(st);
    SweepShape(st);
    forall t | t in kept.artifacts && t in DAG_ORDER ensures Later(kept, t) {
      if Finance(t) { SweepDropsFinance(base, st, t); }
    }
    DoneIsKept(st, ResolveProposed);
    DiscoverNeedsPlace();
    DoneIsKept(st, Discover);
    RecommendNeedsPlace();
    DoneIsKept(st, Recommend);
    MakesThirdTurn(kept);
  }

  lemma KeysAreAll(st: Advice)
    requires forall t :: t in st.artifacts
    ensures st.artifacts.Keys == ALL_STEPS
  {
    forall t: StepId ensures t in ALL_STEPS { EveryStepIsListed(t); }
  }

  lemma RecommendNeedsPlace()
    ensures NeedsPlace(Recommend)
  {
  }

  lemma FinanceNeedsNoPlaceEither(t: StepId)
    requires Finance(t)
    ensures !NeedsPlace(t)
  {
  }

  lemma SweepShape(st: Advice)
    requires Advisor(ENGINE).Known(st) && Advisor(ENGINE).WellOrdered() && st.artifacts.Keys == ALL_STEPS
    ensures var kept := Advisor(ENGINE).Invalidated(st);
            && kept.inputs == st.inputs
            && forall t :: t in kept.artifacts && t in DAG_ORDER ==>
                 && t in st.artifacts && kept.artifacts[t] == st.artifacts[t]
                 && kept.artifacts[t].fingerprint == Advisor(ENGINE).Fresh(st.inputs, ALL_STEPS, t)
  {
    hide Advisor;
  }

  lemma DoneIsKept(st: Advice, t: StepId)
    requires Advisor(ENGINE).Known(st) && Advisor(ENGINE).WellOrdered() && st.artifacts.Keys == ALL_STEPS
    requires t in st.artifacts && t in DAG_ORDER ==> Done(st, t)
    ensures t in Advisor(ENGINE).Invalidated(st).artifacts
    ensures Advisor(ENGINE).Invalidated(st).artifacts[t] == st.artifacts[t]
  {
  }

  // ---- the whole conversation ----

  /** The business is known, the place not yet mentioned. */
  ghost predicate OpensWithoutPlace(f: Facts) {
    Quiet(f, LIMIT) && f.State(LocationText) == Missing
  }

  /** Stating the business and nothing else is such an opening. */
  lemma StatingTheBusinessOpens(text: string)
    ensures var said := SlotValue(UserProvided, Some(Text(text)), Some(text), Some(text), None, [], "profile", 1);
            OpensWithoutPlace(BLANK.With(ProposedBusinessText, Slot(said, [])))
  {
  }

  ghost function AfterBusiness(f: Facts): Advice {
    EmptyIsProper(CONTEXT, f);
    TurnOf(CONTEXT, Session(f, map[]), f, None)
  }

  ghost function AfterPlace(f: Facts, place: SlotValue): Advice {
    ProperAfterBusiness(f);
    var st := AfterBusiness(f);
    TurnOf(CONTEXT, st, AddPlace(st.inputs, place), None)
  }

  ghost function AfterNothing(f: Facts, place: SlotValue): Advice {
    ProperAfterPlace(f, place);
    var st := AfterPlace(f, place);
    TurnOf(CONTEXT, st, st.inputs, None)
  }

  lemma ProperAfterBusiness(f: Facts)
    ensures Proper(CONTEXT, AfterBusiness(f))
  {
    hide Loop, Advisor;
    EmptyIsProper(CONTEXT, f);
  }

  lemma ProperAfterPlace(f: Facts, place: SlotValue)
    ensures Proper(CONTEXT, AfterPlace(f, place))
  {
    hide Loop, Advisor, AfterBusiness;
  }

  lemma BusinessTurn(f: Facts)
    requires OpensWithoutPlace(f)
    ensures FirstTurn(AfterBusiness(f))
    ensures forall t :: !NeedsPlace(t) ==> t in AfterBusiness(f).artifacts
  {
    EmptyIsProper(CONTEXT, f);
    var empty: Advice := Session(f, map[]);
    FirstLoop(empty);
    forall t | !NeedsPlace(t) ensures t in AfterBusiness(f).artifacts { FirstTurnFinishes(AfterBusiness(f), t); }
  }

  lemma PlaceTurn(f: Facts, place: SlotValue)
    requires OpensWithoutPlace(f) && place.state == UserProvided
    ensures SecondTurn(AfterBusiness(f), AfterPlace(f, place)) && forall t :: t in AfterPlace(f, place).artifacts
  {
    BusinessTurn(f);
    var st := AfterBusiness(f);
    SweepKeepsFirstTurn(st, place);
    AddPlaceEffects(st.inputs, place);
    var named := st.(inputs := AddPlace(st.inputs, place));
    StartsSecondTurn(st, named);
    SecondLoop(st, named);
  }

  lemma StartsSecondTurn(st: Advice, named: Advice)
    requires FirstTurn(st) && named.artifacts == st.artifacts && Advisor(ENGINE).Known(named)
    requires Quiet(named.inputs, LIMIT) && Opened(named.inputs)
    requires forall t :: !NeedsPlace(t) ==> t in st.artifacts
    requires forall s :: !NeedsPlace(s) ==> OwnInputs(ENGINE, s, named.inputs) == OwnInputs(ENGINE, s, st.inputs)
    ensures SecondTurn(st, named)
  {
    hide SatisfiedSlots;
    FirstTurnParts(st);
    forall t | t in named.artifacts && t in DAG_ORDER && (NeedsPlace(t) || t == ResolveProposed) ensures Done(named, t) {
      ResolveIsDone(st, named);
    }
  }

  lemma ResolveIsDone(st: Advice, named: Advice)
    requires FirstTurn(st) && named.artifacts == st.artifacts && Advisor(ENGINE).WellOrdered()
    requires ResolveProposed in st.artifacts && ResolveProposed in DAG_ORDER && !NeedsPlace(ResolveProposed)
    requires forall s :: !NeedsPlace(s) ==> OwnInputs(ENGINE, s, named.inputs) == OwnInputs(ENGINE, s, st.inputs)
    ensures Done(named, ResolveProposed)
  {
    hide Advisor, Index, OwnInputs, NeedsPlace, FirstTurn, Quiet;
    FirstTurnParts(st);
    SameResolve(st.inputs, st.artifacts.Keys, named.inputs);
    ResolveIsFirst();
  }

  lemma SameResolve(i: Facts, present: set<StepId>, j: Facts)
    requires Advisor(ENGINE).WellOrdered() && ResolveProposed in DAG_ORDER
    requires OwnInputs(ENGINE, ResolveProposed, i) == OwnInputs(ENGINE, ResolveProposed, j)
    ensures Advisor(ENGINE).Fresh(i, present, ResolveProposed) == Advisor(ENGINE).Fresh(j, ALL_STEPS, ResolveProposed)
  {
    hide Advisor, OwnInputs;
    AdvisorParts(ENGINE);
    NothingBelowResolve();
    SameBelow(i, present, j, ResolveProposed);
  }

  lemma ResolveIsFirst()
    ensures forall u :: Index(u) >= Index(ResolveProposed)
  {
  }

  lemma NothingBelowResolve()
    ensures Advisor(ENGINE).Below(ResolveProposed) == {}
  {
    forall d | d in Advisor(ENGINE).Below(ResolveProposed) ensures false { BelowIsLess(ResolveProposed, d); }
  }

  /**
   Whatever business the first of the three turns names and whatever place the second adds, they end, with every artifact
   up to date and a final advisory on offer, holding a recommendation its own inputs no longer give; and further turns
   that say nothing change nothing.
   */
  lemma RecommendationStaysStale(f: Facts, place: SlotValue)
    requires OpensWithoutPlace(f) && place.state == UserProvided
    ensures var st := AfterNothing(f, place);
            && Proper(CONTEXT, st) && Advisor(ENGINE).AllFresh(st) && Advisor(ENGINE).Loadable(st, Recommend)
            && Recommend in st.artifacts
            && st.artifacts[Recommend].payload != Advisor(ENGINE).Answer(st, Recommend)
            && Decide(st, None, LIMIT, Developer) == DeliverFinal
            && TurnOf(CONTEXT, st, st.inputs, None) == st
  {
    BusinessTurn(f);
    PlaceTurn(f, place);
    FirstTurnParts(AfterBusiness(f));
    var placed := AfterPlace(f, place);
    ThirdSweep(AfterBusiness(f), placed);
    ThirdLoop(Advisor(ENGINE).Invalidated(placed));
    var st := AfterNothing(f, place);
    ThirdTurnParts(st);
    KeysAreAll(st);
    forall t | t in st.artifacts ensures Advisor(ENGINE).IsFresh(st, t) {
      FinalIsFresh(st, t);
    }
    forall t | t in st.artifacts && Finance(t) ensures st.artifacts[t].payload.detail > 0 {
      LaterParts(st, t);
    }
    PlacedAnswer(st, Recommend);
    NothingStale(st);
    StopsWithFinal(st);
  }

  lemma AssessmentIsFinance()
    ensures Finance(AssessFinance) && AssessFinance in RequiredSteps(Recommend)
  {
  }

  /** On the way, the sweep that opens the third turn keeps the recommendation without the assessment it requires. */
  lemma SweepOpensAGap(f: Facts, place: SlotValue)
    requires OpensWithoutPlace(f) && place.state == UserProvided
    ensures var placed := AfterPlace(f, place);
            && Advisor(ENGINE).Known(placed) && AssessFinance in RequiredSteps(Recommend)
            && Recommend in Advisor(ENGINE).Invalidated(placed).artifacts
            && AssessFinance !in Advisor(ENGINE).Invalidated(placed).artifacts
  {
    hide *;
    AssessmentIsFinance();
    BusinessTurn(f);
    PlaceTurn(f, place);
    FirstTurnParts(AfterBusiness(f));
    ThirdSweep(AfterBusiness(f), AfterPlace(f, place));
    ThirdTurnParts(Advisor(ENGINE).Invalidated(AfterPlace(f, place)));
    SweepDropsFinance(AfterBusiness(f), AfterPlace(f, place), AssessFinance);
  }

  lemma FinalIsFresh(st: Advice, t: StepId)
    requires Advisor(ENGINE).Known(st) && Advisor(ENGINE).WellOrdered() && t in st.artifacts && t in DAG_ORDER
    requires st.artifacts.Keys == ALL_STEPS
    requires st.artifacts[t].fingerprint == Advisor(ENGINE).Fresh(st.inputs, ALL_STEPS, t)
    ensures Advisor(ENGINE).IsFresh(st, t)
  {
    hide Advisor;
  }

  lemma StopsWithFinal(st: Advice)
    requires Proper(CONTEXT, st) && Quiet(st.inputs, LIMIT) && Opened(st.inputs) && DiscoverFailure(st).None?
    requires Recommend in st.artifacts && forall t :: !Runnable(st, t)
    requires Advisor(ENGINE).Known(st) && Advisor(ENGINE).Invalidated(st) == st
    ensures Decide(st, None, LIMIT, Developer) == DeliverFinal
    ensures TurnOf(CONTEXT, st, st.inputs, None) == st
  {
    hide Runnable, Advisor;
  }

  /** On standing figures none of the three turns raises. */
  lemma LateTurnsDoNotRaise(f: Facts, place: SlotValue)
    requires FiguresStand(CONTEXT, f)
    ensures Proper(CONTEXT, Session(f, map[])) && Proper(CONTEXT, AfterBusiness(f)) && Proper(CONTEXT, AfterPlace(f, place))
    ensures var p, named := Advisor(ENGINE), AfterBusiness(f).(inputs := AddPlace(AfterBusiness(f).inputs, place));
            && !Raises(CONTEXT, p.Invalidated(Session(f, map[])), None)
            && !Raises(CONTEXT, p.Invalidated(named), None)
            && !Raises(CONTEXT, p.Invalidated(AfterPlace(f, place)), None)
  {
    hide Loop, Advisor, Raises, FiguresStand, AddPlace;
    var p := Advisor(ENGINE);
    EmptyIsProper(CONTEXT, f);
    var empty: Advice := Session(f, map[]);
    assert empty.(inputs := f) == empty;
    RaisesMeansRefused(CONTEXT, p.Invalidated(empty), None);
    ProperAfterBusiness(f);
    PlaceKeepsFigures(AfterBusiness(f).inputs, place);
    var named := AfterBusiness(f).(inputs := AddPlace(AfterBusiness(f).inputs, place));
    RaisesMeansRefused(CONTEXT, p.Invalidated(named), None);
    ProperAfterPlace(f, place);
    RaisesMeansRefused(CONTEXT, p.Invalidated(AfterPlace(f, place)), None);
  }

  lemma PlaceKeepsFigures(f: Facts, place: SlotValue)
    ensures FiguresStand(CONTEXT, AddPlace(f, place)) == FiguresStand(CONTEXT, f)
  {
    hide PlanBuilds, LoanRepays, ProfileBuilds, CapacityComputes;
    SameFigures(f, AddPlace(f, place));
  }
}
