/** Exactly when the figures stated cost a turn its result, told before it runs. */
module Raising {
  import opened Wrappers
  import opened SessionModels
  import opened Workflow
  import opened Artifacts
  import opened Readiness
  import opened Planner
  import opened Turn
  import opened Exactness

  /** The step has no result, and no gate or failed discovery keeps it or a step it needs from getting one. */
  predicate WouldRun(st: Advice, s: StepId)
    decreases Index(s)
  {
    && s !in st.artifacts && (forall n :: n in RequiredSlots(s) ==> st.inputs.Satisfied(n))
    && (DiscoverFailure(st).Some? ==> Discover !in RequiredSteps(s))
    && forall d :: d in RequiredSteps(s) ==> (DependenciesPrecede(s, d); d in st.artifacts || WouldRun(st, d))
  }

  /** In NORMAL mode, once nothing is left to run the planner builds the plan to see what is missing. */
  predicate PlannerRaises(c: Context, st: Advice) {
    && c.mode == Normal && DiscoverFailure(st).None? && FirstMissingBlocker(st.inputs).None?
    && !PlanBuilds(st.inputs)
  }

  /** Nothing runs, or no step that may and no rung that may follow looks at a figure it refuses. */
  ghost predicate Accepts(c: Context, st: Advice) {
    || !Unstopped(st.inputs, c.maxRadius)
    || ((forall s :: WouldRun(st, s) ==> !StepRaises(c, st.inputs, s)) && !PlannerRaises(c, st))
  }

  lemma WouldRunParts(st: Advice, s: StepId)
    requires WouldRun(st, s)
    ensures s !in st.artifacts && (forall n :: n in RequiredSlots(s) ==> st.inputs.Satisfied(n))
    ensures DiscoverFailure(st).Some? ==> Discover !in RequiredSteps(s)
    ensures forall d :: d in RequiredSteps(s) && d !in st.artifacts ==> WouldRun(st, d)
  {
    hide RequiredSteps, RequiredSlots, DiscoverFailure, Index;
  }

  lemma MakesWouldRun(st: Advice, s: StepId)
    requires s !in st.artifacts && (forall n :: n in RequiredSlots(s) ==> st.inputs.Satisfied(n))
    requires DiscoverFailure(st).Some? ==> Discover !in RequiredSteps(s)
    requires forall d :: d in RequiredSteps(s) && d !in st.artifacts ==> WouldRun(st, d)
    ensures WouldRun(st, s)
  {
    hide RequiredSteps, RequiredSlots, DiscoverFailure, Index;
  }

  // ---- what a run does to the steps that may still run ----

  lemma RunnableWouldRun(st: Advice, s: StepId)
    requires Runnable(st, s)
    ensures WouldRun(st, s)
  {
    hide RequiredSteps, RequiredSlots, DiscoverFailure;
    forall n | n in RequiredSlots(s) ensures st.inputs.Satisfied(n) { assert n in SatisfiedSlots(st.inputs); }
  }

  /** Some step is runnable while any would run. */
  lemma {:induction false} WouldRunMeansRunnable(st: Advice, s: StepId)
    requires WouldRun(st, s)
    ensures exists t :: Runnable(st, t)
    decreases Index(s)
  {
    hide RequiredSteps, RequiredSlots, DiscoverFailure, Index;
    if d :| d in RequiredSteps(s) && d !in st.artifacts {
      DependenciesPrecede(s, d);
      WouldRunMeansRunnable(st, d);
    } else {
      forall n | n in RequiredSlots(s) ensures n in SatisfiedSlots(st.inputs) { SatisfiedIsStated(st.inputs, n); }
      assert Runnable(st, s);
    }
  }

  lemma NothingRunnableNothingWould(st: Advice)
    requires forall t :: !Runnable(st, t)
    ensures forall s :: !WouldRun(st, s)
  {
    hide Runnable, WouldRun;
    if s :| WouldRun(st, s) { WouldRunMeansRunnable(st, s); }
  }

  lemma SatisfiedIsStated(f: Facts, n: SlotName)
    requires f.Satisfied(n)
    ensures n in SatisfiedSlots(f)
  {
  }

  /** Nothing more would run after a step has run. */
  lemma {:induction false} RunAddsNothing(st: Advice, after: Advice, s: StepId, t: StepId)
    requires Runnable(st, s) && after.artifacts.Keys == st.artifacts.Keys + {s}
    requires forall n :: n in {ProposedBusinessText, LocationText} && after.inputs.Satisfied(n) ==> st.inputs.Satisfied(n)
    requires DiscoverFailure(st).Some? ==> DiscoverFailure(after).Some?
    requires WouldRun(after, t)
    ensures WouldRun(st, t)
    decreases Index(t)
  {
    hide *;
    WouldRunParts(after, t);
    RunnableWouldRun(st, s);
    forall n | n in RequiredSlots(t) ensures st.inputs.Satisfied(n) { GatesAreTwo(t, n); }
    forall d | d in RequiredSteps(t) ensures d in st.artifacts || WouldRun(st, d) {
      DependenciesPrecede(t, d);
      if d !in after.artifacts { RunAddsNothing(st, after, s, d); }
    }
    MakesWouldRun(st, t);
  }

  lemma GatesAreTwo(s: StepId, n: SlotName)
    requires n in RequiredSlots(s)
    ensures n in {ProposedBusinessText, LocationText}
  {
  }

  /** Nor does a run that asks nothing and fails no discovery keep anything from running. */
  lemma {:induction false} RunLosesNothing(st: Advice, after: Advice, s: StepId, t: StepId)
    requires after.artifacts.Keys == st.artifacts.Keys + {s} && s != t
    requires forall n :: n in {ProposedBusinessText, LocationText} && st.inputs.Satisfied(n) ==> after.inputs.Satisfied(n)
    requires DiscoverFailure(after).Some? ==> DiscoverFailure(st).Some?
    requires WouldRun(st, t)
    ensures WouldRun(after, t)
    decreases Index(t)
  {
    hide *;
    WouldRunParts(st, t);
    forall n | n in RequiredSlots(t) ensures after.inputs.Satisfied(n) { GatesAreTwo(t, n); }
    forall d | d in RequiredSteps(t) ensures d in after.artifacts || WouldRun(after, d) {
      DependenciesPrecede(t, d);
      if d !in after.artifacts { RunLosesNothing(st, after, s, d); }
    }
    MakesWouldRun(after, t);
  }

  lemma SameStepRaises(c: Context, s: StepId, f: Facts, x: Payload, t: StepId)
    requires t == Discover ==> s != Discover
    ensures StepRaises(c, Write(c.engine, s, f, x), t) == StepRaises(c, f, t)
  {
    hide Write, PlanBuilds, ProfileBuilds, LoanRepays;
    WriteKeepsFigures(c.engine, s, f, x);
    WriteToRadius(c.engine, s, f, x);
  }

  /** The two structural facts are as they were, or a choice is pending. */
  lemma WriteAsksOrKeepsBoth(e: Engine, s: StepId, f: Facts, x: Payload)
    requires forall n :: Write(e, s, f, x).State(n) != Ambiguous
    ensures var g := Write(e, s, f, x);
            g.State(ProposedBusinessText) == f.State(ProposedBusinessText) && g.State(LocationText) == f.State(LocationText)
  {
  }

  lemma WriteSatisfiesNoGate(e: Engine, s: StepId, f: Facts, x: Payload)
    ensures forall n :: n in {ProposedBusinessText, LocationText} && Write(e, s, f, x).Satisfied(n) ==> f.Satisfied(n)
  {
  }

  lemma FailureStays(st: Advice, after: Advice, s: StepId)
    requires s !in st.artifacts
    requires forall t :: t in st.artifacts ==> t in after.artifacts && after.artifacts[t] == st.artifacts[t]
    ensures DiscoverFailure(st).Some? ==> DiscoverFailure(after).Some?
  {
  }

  lemma UnstoppedAsksNothing(f: Facts, maxRadius: int)
    requires Unstopped(f, maxRadius)
    ensures forall n :: f.State(n) != Ambiguous
  {
    hide Contradiction;
  }

  lemma AcceptsMeans(c: Context, st: Advice)
    ensures Accepts(c, st) <==>
              (Unstopped(st.inputs, c.maxRadius) ==>
                 (forall s :: WouldRun(st, s) ==> !StepRaises(c, st.inputs, s)) && !PlannerRaises(c, st))
  {
    hide Unstopped, WouldRun, StepRaises, PlannerRaises;
  }

  /** The planner's own look at the plan depends on the figures, on what was asked for, and on discovery. */
  lemma SameRung(c: Context, st: Advice, after: Advice)
    requires PlanBuilds(after.inputs) == PlanBuilds(st.inputs)
    requires after.inputs.State(ProposedBusinessText) == st.inputs.State(ProposedBusinessText)
    requires after.inputs.State(LocationText) == st.inputs.State(LocationText)
    ensures PlannerRaises(c, after) && DiscoverFailure(st).None? ==> PlannerRaises(c, st)
    ensures PlannerRaises(c, st) && DiscoverFailure(after).None? ==> PlannerRaises(c, after)
  {
    hide PlanBuilds, DiscoverFailure;
  }

  lemma PlannerRaisesParts(c: Context, st: Advice)
    requires PlannerRaises(c, st)
    ensures DiscoverFailure(st).None?
  {
    hide PlanBuilds, DiscoverFailure;
  }

  // ---- accepted figures raise nothing ----

  lemma RunStaysAccepted(c: Context, st: Advice, s: StepId)
    requires Proper(c, st) && Runnable(st, s) && Accepts(c, st) && Unstopped(st.inputs, c.maxRadius)
    requires Advisor(c.engine).Ready(st, s) && Advisor(c.engine).Loadable(st, s) && Advisor(c.engine).WellOrdered()
    ensures Accepts(c, Advisor(c.engine).RunStep(st, s))
  {
    hide *;
    var p := Advisor(c.engine);
    var after, x := p.RunStep(st, s), p.Answer(st, s);
    p.RunStepShape(st, s);
    AdvisorParts(c.engine);
    ReadyParts(c, st, s);
    AcceptsMeans(c, st);
    AcceptsMeans(c, after);
    if Unstopped(after.inputs, c.maxRadius) {
      UnstoppedAsksNothing(after.inputs, c.maxRadius);
      WriteSatisfiesNoGate(c.engine, s, st.inputs, x);
      WriteAsksOrKeepsBoth(c.engine, s, st.inputs, x);
      FailureStays(st, after, s);
      forall t | WouldRun(after, t) ensures !StepRaises(c, after.inputs, t) {
        RunAddsNothing(st, after, s, t);
        WouldRunParts(after, t);
        SameStepRaises(c, s, st.inputs, x, t);
      }
      FiguresCarryOver(c, s, st.inputs, x);
      SameRung(c, st, after);
      if PlannerRaises(c, after) { PlannerRaisesParts(c, after); }
    }
  }

  lemma FiguresCarryOver(c: Context, s: StepId, f: Facts, x: Payload)
    ensures PlanBuilds(Write(c.engine, s, f, x)) == PlanBuilds(f)
  {
    hide Write, PlanBuilds, ProfileBuilds, LoanRepays;
    WriteKeepsFigures(c.engine, s, f, x);
  }

  /** Whatever the engines answer and whichever sources are down, accepted figures make no turn raise. */
  lemma {:induction false} AcceptedRaisesNothing(c: Context, st: Advice, requested: Option<StepId>)
    requires Proper(c, st) && st.inputs.Valid() && NothingBreaks(c) && Accepts(c, st)
    ensures !Raises(c, st, requested)
    decreases ALL_STEPS - st.artifacts.Keys
  {
    hide *;
    var action := Decide(st, requested, c.maxRadius, c.mode);
    RaisesUnfolds(c, st, requested);
    AcceptsMeans(c, st);
    if action.RunNext? {
      var s := action.step;
      StepIsNew(c, st, requested);
      RunIsUnstopped(c, st, requested);
      RunnableWouldRun(st, s);
      RunnerMeans(c, st, s);
      if !c.fails(s) {
        RunKeepsValid(c, st, s);
        RunStaysAccepted(c, st, s);
        AcceptedRaisesNothing(c, Advisor(c.engine).RunStep(st, s), None);
      }
    } else if DecisionRaises(st.inputs, action, c.mode) {
      DecisionMeansRung(c, st, requested);
    }
  }

  lemma RunnerMeans(c: Context, st: Advice, s: StepId)
    requires NothingBreaks(c)
    ensures RunnerRaises(c, st, s) == StepRaises(c, st.inputs, s)
  {
    hide StepRaises;
  }

  lemma RunIsUnstopped(c: Context, st: Advice, requested: Option<StepId>)
    requires st.inputs.Valid() && Decide(st, requested, c.maxRadius, c.mode).RunNext?
    ensures Unstopped(st.inputs, c.maxRadius)
  {
    hide Runnable, Index, Contradiction, Chosen;
    NothingPending(st.inputs);
  }

  lemma DecisionMeansRung(c: Context, st: Advice, requested: Option<StepId>)
    requires st.inputs.Valid()
    requires DecisionRaises(st.inputs, Decide(st, requested, c.maxRadius, c.mode), c.mode)
    ensures Unstopped(st.inputs, c.maxRadius) && PlannerRaises(c, st)
  {
    hide Runnable, Index, Contradiction, Chosen, PlanBuilds, DiscoverFailure, FirstMissingBlocker, NextAsk, NextDriver;
    NothingPending(st.inputs);
  }

  // ---- and nothing else is safe ----

  /** The engines always resolve the business and never leave a question. */
  ghost predicate Agreeable(e: Engine) {
    forall s, r, us, os {:trigger e.run(s, r, us, os)} ::
      e.run(s, r, us, os).resolved && e.run(s, r, us, os).status == Ok
  }

  lemma AnswerIsAgreeable(e: Engine, st: Advice, s: StepId)
    requires Agreeable(e) && Advisor(e).Loadable(st, s)
    ensures Advisor(e).Answer(st, s).resolved && Advisor(e).Answer(st, s).status == Ok
  {
    hide Advisor;
    AdvisorReads(e);
  }

  lemma AgreeableRunFailsNothing(e: Engine, st: Advice, after: Advice, s: StepId)
    requires s !in st.artifacts && s in after.artifacts && after.artifacts[s].payload.status == Ok
    requires after.artifacts.Keys == st.artifacts.Keys + {s}
    requires forall t :: t in st.artifacts ==> after.artifacts[t] == st.artifacts[t]
    ensures DiscoverFailure(after).Some? ==> DiscoverFailure(st).Some?
  {
  }

  /** A step back: what is accepted once an agreeable engine has answered was accepted before. */
  lemma RunWasAccepted(c: Context, st: Advice, s: StepId)
    requires Proper(c, st) && Runnable(st, s) && Unstopped(st.inputs, c.maxRadius) && Agreeable(c.engine)
    requires Advisor(c.engine).Ready(st, s) && Advisor(c.engine).Loadable(st, s) && Advisor(c.engine).WellOrdered()
    requires Accepts(c, Advisor(c.engine).RunStep(st, s)) && !StepRaises(c, st.inputs, s)
    ensures Accepts(c, st)
  {
    hide *;
    var p := Advisor(c.engine);
    var after, x := p.RunStep(st, s), p.Answer(st, s);
    p.RunStepShape(st, s);
    AdvisorParts(c.engine);
    ReadyParts(c, st, s);
    AnswerIsAgreeable(c.engine, st, s);
    UnstoppedWrite(c.engine, s, st.inputs, x, c.maxRadius);
    AgreeableRunFailsNothing(c.engine, st, after, s);
    AcceptsMeans(c, after);
    SameSatisfied(st.inputs, after.inputs);
    forall t | WouldRun(st, t) ensures !StepRaises(c, st.inputs, t) {
      if t != s {
        RunLosesNothing(st, after, s, t);
        SameStepRaises(c, s, st.inputs, x, t);
      }
    }
    FiguresCarryOver(c, s, st.inputs, x);
    SameRung(c, st, after);
    if PlannerRaises(c, st) { PlannerRaisesParts(c, st); }
    AcceptsMeans(c, st);
  }

  lemma SameSatisfied(f: Facts, g: Facts)
    requires forall n :: n != RadiusM ==> g.Of(n) == f.Of(n)
    ensures forall n :: n in {ProposedBusinessText, LocationText} && f.Satisfied(n) ==> g.Satisfied(n)
    ensures g.State(ProposedBusinessText) == f.State(ProposedBusinessText)
    ensures g.State(LocationText) == f.State(LocationText)
  {
    assert ProposedBusinessText != RadiusM && LocationText != RadiusM;
  }

  /** With agreeable engines and every source up, only accepted figures come through. */
  lemma {:induction false} NothingRaisedWasAccepted(c: Context, st: Advice, requested: Option<StepId>)
    requires Proper(c, st) && st.inputs.Valid() && Agreeable(c.engine) && forall s :: !c.fails(s)
    requires !Raises(c, st, requested)
    ensures Accepts(c, st)
    decreases ALL_STEPS - st.artifacts.Keys
  {
    hide *;
    AcceptsMeans(c, st);
    if Unstopped(st.inputs, c.maxRadius) {
      RaisesUnfolds(c, st, requested);
      UnstoppedDecides(st, requested, c.maxRadius, c.mode);
      var action := Decide(st, requested, c.maxRadius, c.mode);
      if action.RunNext? {
        var s := action.step;
        StepIsNew(c, st, requested);
        FiguresRaise(c, st, s);
        RunKeepsValid(c, st, s);
        NothingRaisedWasAccepted(c, Advisor(c.engine).RunStep(st, s), None);
        RunWasAccepted(c, st, s);
      } else {
        NothingRunnableNothingWould(st);
        if PlannerRaises(c, st) { RungMeansDecision(c, st, requested); }
      }
    }
  }

  lemma FiguresRaise(c: Context, st: Advice, s: StepId)
    ensures StepRaises(c, st.inputs, s) ==> RunnerRaises(c, st, s)
  {
    hide StepRaises;
  }

  lemma RungMeansDecision(c: Context, st: Advice, requested: Option<StepId>)
    requires PlannerRaises(c, st) && Unstopped(st.inputs, c.maxRadius) && forall t :: !Runnable(st, t)
    ensures DecisionRaises(st.inputs, Decide(st, requested, c.maxRadius, c.mode), c.mode)
  {
    hide Runnable, Index, Contradiction, PlanBuilds, DiscoverFailure, FirstMissingBlocker, NextAsk, NextDriver;
  }

  // ---- whatever the engines answer ----

  type Runner = (StepId, Reading, seq<Payload>, seq<Option<Payload>>) -> Payload

  function With(c: Context, run: Runner, fails: StepId -> bool): Context {
    c.(engine := c.engine.(run := run), fails := fails)
  }

  /** With these answers and these sources down, the turn does not raise. */
  ghost predicate ComesThrough(c: Context, st: Advice, requested: Option<StepId>, run: Runner, fails: StepId -> bool) {
    Proper(With(c, run, fails), st) && !Raises(With(c, run, fails), st, requested)
  }

  /**
   Told before the turn from the figures and the steps that have results: it comes through whatever the engines answer
   and whichever sources are down if and only if no step that may run, and no rung after them, refuses a figure.
   */
  lemma TurnComesThroughExactlyWhenAccepted(c: Context, st: Advice, requested: Option<StepId>)
    requires Proper(c, st) && st.inputs.Valid() && NothingBreaks(c)
    ensures (forall run, fails :: ComesThrough(c, st, requested, run, fails)) <==> Accepts(c, st)
  {
    hide *;
    if Accepts(c, st) {
      forall run, fails ensures ComesThrough(c, st, requested, run, fails) {
        WithParts(c, st, run, fails);
        AcceptedRaisesNothing(With(c, run, fails), st, requested);
        MakesComeThrough(c, st, requested, run, fails);
      }
    }
    if forall run, fails :: ComesThrough(c, st, requested, run, fails) {
      var run: Runner, fails := (s, r, us, os) => Payload(Ok, true, 0, [], [], 0), (s: StepId) => false;
      assert ComesThrough(c, st, requested, run, fails);
      ComesThroughParts(c, st, requested, run, fails);
      WithParts(c, st, run, fails);
      WithFails(c, run, fails);
      AlwaysOkIsAgreeable(With(c, run, fails).engine);
      NothingRaisedWasAccepted(With(c, run, fails), st, requested);
    }
  }

  lemma WithFails(c: Context, run: Runner, fails: StepId -> bool)
    ensures With(c, run, fails).fails == fails && With(c, run, fails).engine.run == run
  {
  }

  lemma AlwaysOkIsAgreeable(e: Engine)
    requires forall s, r, us, os :: e.run(s, r, us, os) == Payload(Ok, true, 0, [], [], 0)
    ensures Agreeable(e)
  {
  }

  lemma WithParts(c: Context, st: Advice, run: Runner, fails: StepId -> bool)
    requires Proper(c, st)
    ensures Proper(With(c, run, fails), st) && Accepts(With(c, run, fails), st) == Accepts(c, st)
    ensures NothingBreaks(c) ==> NothingBreaks(With(c, run, fails))
  {
    hide WouldRun, PlanBuilds, Contradiction, LoanRepays, ProfileBuilds;
    AdvisorIsWellOrdered(With(c, run, fails).engine);
  }

  lemma MakesComeThrough(c: Context, st: Advice, requested: Option<StepId>, run: Runner, fails: StepId -> bool)
    requires Proper(With(c, run, fails), st) && !Raises(With(c, run, fails), st, requested)
    ensures ComesThrough(c, st, requested, run, fails)
  {
    hide Proper, Raises, With;
  }

  lemma ComesThroughParts(c: Context, st: Advice, requested: Option<StepId>, run: Runner, fails: StepId -> bool)
    requires ComesThrough(c, st, requested, run, fails)
    ensures Proper(With(c, run, fails), st) && !Raises(With(c, run, fails), st, requested)
  {
    hide Proper, Raises, With;
  }

  /** What the engines answer shows in no fingerprint, only what they have written. */
  lemma {:induction false} FreshIgnoresRunner(e: Engine, d: Engine, i: Facts, present: set<StepId>, s: StepId)
    requires d == e.(run := d.run)
    ensures Advisor(e).WellOrdered() && Advisor(d).WellOrdered() && s in Advisor(e).order && s in Advisor(d).order
    ensures Advisor(e).Fresh(i, present, s) == Advisor(d).Fresh(i, present, s)
    decreases Index(s)
  {
    hide Advisor, OwnInputs, Index, FingerprintUpstream, OptionalSteps;
    AdvisorIsWellOrdered(e);
    AdvisorIsWellOrdered(d);
    AdvisorParts(e);
    AdvisorParts(d);
    EveryStepIsListed(s);
    OwnIgnoresRunner(e, d, s, i);
    var us, os := FingerprintUpstream(s), OptionalSteps(s);
    forall u | u in us || u in os
      ensures u in DAG_ORDER && Advisor(e).Fresh(i, present, u) == Advisor(d).Fresh(i, present, u)
    {
      UpstreamComesFirst(s, u);
      FreshIgnoresRunner(e, d, i, present, u);
    }
    assert Advisor(e).FreshRequired(i, present, s) == Advisor(d).FreshRequired(i, present, s);
    assert Advisor(e).FreshOptional(i, present, s) == Advisor(d).FreshOptional(i, present, s);
  }

  lemma OwnIgnoresRunner(e: Engine, d: Engine, s: StepId, f: Facts)
    requires d == e.(run := d.run)
    ensures OwnInputs(e, s, f) == OwnInputs(d, s, f)
  {
  }

  lemma UpstreamComesFirst(s: StepId, u: StepId)
    requires u in FingerprintUpstream(s) || u in OptionalSteps(s)
    ensures Index(u) < Index(s)
  {
    DependenciesPrecede(s, u);
  }

  lemma SweepIgnoresRunner(e: Engine, d: Engine, st: Advice)
    requires d == e.(run := d.run) && Advisor(e).Known(st)
    ensures Advisor(d).Known(st) && Advisor(e).Invalidated(st) == Advisor(d).Invalidated(st)
  {
    hide Advisor;
    AdvisorIsWellOrdered(d);
    AdvisorParts(e);
    AdvisorParts(d);
    forall s | s in st.artifacts ensures Advisor(e).IsFresh(st, s) == Advisor(d).IsFresh(st, s) {
      FreshIgnoresRunner(e, d, st.inputs, st.artifacts.Keys, s);
    }
    assert Advisor(e).Stale(st) == Advisor(d).Stale(st);
  }
}
