/** What can be told about a turn before it runs, from the steps that are present when it starts. */
module Foresight {
  import opened Wrappers
  import opened SessionModels
  import opened Workflow
  import opened StepCache
  import opened Artifacts
  import opened Readiness
  import opened Planner
  import opened Turn
  import opened Exactness
  import opened Gaps

  // ---- the condition ----

  /** Among `keys`, the fingerprint of `s` is built over a step that lists an absent one as optional. */
  predicate OnGap(keys: set<StepId>, s: StepId)
    decreases Index(s)
  {
    || (exists d :: d in OptionalSteps(s) && (DependenciesPrecede(s, d); d !in keys || OnGap(keys, d)))
    || (exists d :: d in FingerprintUpstream(s) && (DependenciesPrecede(s, d); OnGap(keys, d)))
  }

  predicate Gapless(keys: set<StepId>) {
    forall t, d :: t in keys && d in OptionalSteps(t) ==> d in keys
  }

  /**
   Once the step `first`, if any, has run beside `keys`, no step still to run loads a present one whose record, made
   beside `keys`, rests on a gap.
   */
  ghost predicate LoadsNoGap(keys: set<StepId>, first: Option<StepId>) {
    SpareNoGap(keys, Joined(keys, first))
  }

  function Joined(keys: set<StepId>, first: Option<StepId>): set<StepId> {
    if first.Some? then keys + {first.value} else keys
  }

  ghost predicate SpareNoGap(seen: set<StepId>, keys: set<StepId>) {
    forall u, d {:trigger WouldLoad(keys, u, d)} :: WouldLoad(keys, u, d) ==> !OnGap(seen, d)
  }

  /** The requested step, if the planner will run it first. */
  function FirstOf(st: Advice, requested: Option<StepId>): Option<StepId> {
    if requested.Some? && Runnable(st, requested.value) then requested else None
  }

  predicate WouldLoad(keys: set<StepId>, u: StepId, d: StepId) {
    u !in keys && d in keys && (d in FingerprintUpstream(u) || d in OptionalSteps(u))
  }

  lemma {:induction false} OnGapRests(e: Engine, keys: set<StepId>, s: StepId)
    ensures Advisor(e).WellOrdered() && s in Advisor(e).order
    ensures OnGap(keys, s) <==> RestsOnGap(Advisor(e), keys, s)
    decreases Index(s)
  {
    hide Advisor, Index, OptionalSteps, FingerprintUpstream;
    AdvisorIsWellOrdered(e);
    AdvisorParts(e);
    EveryStepIsListed(s);
    var p := Advisor(e);
    forall d | d in OptionalSteps(s) || d in FingerprintUpstream(s)
      ensures d in p.order && (OnGap(keys, d) <==> RestsOnGap(p, keys, d))
    {
      UpstreamPrecedes(s, d);
      OnGapRests(e, keys, d);
    }
  }

  lemma UpstreamPrecedes(s: StepId, d: StepId)
    requires d in OptionalSteps(s) || d in FingerprintUpstream(s)
    ensures Index(d) < Index(s)
  {
    DependenciesPrecede(s, d);
  }

  /** Without gaps among the present steps none of them rests on one. */
  lemma {:induction false} GaplessIsNotOnGap(keys: set<StepId>, s: StepId)
    requires Gapless(keys) && s in keys
    requires forall t, d :: t in keys && d in FingerprintUpstream(t) ==> d in keys
    ensures !OnGap(keys, s)
    decreases Index(s)
  {
    hide Index, OptionalSteps, FingerprintUpstream;
    forall d | d in OptionalSteps(s) || d in FingerprintUpstream(s) ensures d in keys && !OnGap(keys, d) {
      UpstreamPrecedes(s, d);
      GaplessIsNotOnGap(keys, d);
    }
  }

  // ---- along a turn without a request ----

  /**
   How the loop leaves the session it started from while no question is open: what was there stays as it was, what ran
   is up to date and precedes whatever can still run, and no declared input moved except the scheme capacity's category.
   */
  ghost predicate Settling(e: Engine, base: Advice, cur: Advice) {
    && Advisor(e).Known(cur)
    && (forall t :: t in base.artifacts ==> t in cur.artifacts && cur.artifacts[t] == base.artifacts[t])
    && (forall t {:trigger Advisor(e).IsFresh(cur, t)} :: t in cur.artifacts && t !in base.artifacts ==> Advisor(e).IsFresh(cur, t))
    && (forall t :: t in base.artifacts && (t == SchemeCapacity ==> ResolveProposed in base.artifacts) ==>
          OwnInputs(e, t, cur.inputs) == OwnInputs(e, t, base.inputs))
    && (forall t, u :: t in cur.artifacts && t !in base.artifacts && Runnable(cur, u) ==> Index(t) < Index(u))
  }

  /** Discovery and demand evidence are kept only beside a search radius. */
  ghost predicate Searched(st: Advice) {
    DemandEvidence in st.artifacts || Discover in st.artifacts ==> st.inputs.State(RadiusM) != Missing
  }

  /** A swept session in which everything is built over everything else. */
  ghost predicate Opening(e: Engine, st: Advice) {
    Advisor(e).Sound(st) && Advisor(e).AllFresh(st) && Searched(st) && st.inputs.Valid()
  }

  /** The same, but for records made while only the steps of `seen` were present. */
  ghost predicate Poised(e: Engine, seen: set<StepId>, st: Advice)
    requires Advisor(e).Known(st)
  {
    && Advisor(e).Sound(st) && Searched(st) && st.inputs.Valid() && seen <= st.artifacts.Keys
    && forall t :: t in st.artifacts && t != SchemeCapacity ==> SeenFresh(e, seen, st, t)
  }

  ghost predicate SeenFresh(e: Engine, seen: set<StepId>, st: Advice, t: StepId)
    requires Advisor(e).Known(st) && t in st.artifacts
  {
    st.artifacts[t].fingerprint == Advisor(e).Fresh(st.inputs, seen, t)
  }

  lemma OpeningIsPoised(e: Engine, st: Advice)
    requires Advisor(e).Known(st) && Opening(e, st)
    ensures Poised(e, st.artifacts.Keys, st)
    ensures forall t :: t in st.artifacts ==> SeenFresh(e, st.artifacts.Keys, st, t)
  {
    hide Advisor, Searched;
    forall t | t in st.artifacts ensures SeenFresh(e, st.artifacts.Keys, st, t) { assert Advisor(e).IsFresh(st, t); }
  }

  lemma PoisedParts(e: Engine, seen: set<StepId>, st: Advice)
    requires Advisor(e).Known(st) && Poised(e, seen, st)
    ensures Advisor(e).Sound(st) && Searched(st) && st.inputs.Valid() && seen <= st.artifacts.Keys
    ensures forall t :: t in st.artifacts && t != SchemeCapacity ==> SeenFresh(e, seen, st, t)
  {
    hide Advisor, Searched, SeenFresh;
  }

  lemma PresentAreClosed(e: Engine, st: Advice)
    requires Advisor(e).Known(st) && Advisor(e).Sound(st)
    ensures forall t, d :: t in st.artifacts && d in FingerprintUpstream(t) ==> d in st.artifacts
  {
    hide Advisor, FingerprintUpstream;
    AdvisorParts(e);
    forall t, d | t in st.artifacts && d in FingerprintUpstream(t) ensures d in st.artifacts {
      Advisor(e).EmbeddedIsLoadable(st, t);
    }
  }

  /** What a run writes moves the declared inputs of no present step, short of a question. */
  lemma WriteMovesNothingPresent(e: Engine, base: Advice, f: Facts, s: StepId, x: Payload, t: StepId)
    requires forall t, d :: t in base.artifacts && d in FingerprintUpstream(t) ==> d in base.artifacts
    requires s !in base.artifacts && t in base.artifacts && (t == SchemeCapacity ==> ResolveProposed in base.artifacts)
    requires t == DemandEvidence ==> f.State(RadiusM) != Missing
    requires forall n :: Write(e, s, f, x).State(n) != Ambiguous
    ensures OwnInputs(e, t, Write(e, s, f, x)) == OwnInputs(e, t, f)
  {
    hide OwnInputs, Write;
    if s == ResolveProposed {
      ResolveMovesOnlyReaders(e, f, x, t);
    } else if s == Discover {
      DiscoverMovesOnlyRadius(e, f, x, t);
    } else {
      OthersWriteNothing(e, s, f, x);
    }
  }

  lemma ResolveMovesOnlyReaders(e: Engine, f: Facts, x: Payload, t: StepId)
    requires t != ResolveProposed && t != SchemeCapacity && ResolveProposed !in FingerprintUpstream(t)
    ensures OwnInputs(e, t, Write(e, ResolveProposed, f, x)) == OwnInputs(e, t, f)
  {
    hide Repr;
    WriteFrames(e, ResolveProposed, f, x, StepInputSlots(t));
  }

  lemma DiscoverMovesOnlyRadius(e: Engine, f: Facts, x: Payload, t: StepId)
    requires t != Discover && (t == DemandEvidence ==> f.State(RadiusM) != Missing)
    requires forall n :: Write(e, Discover, f, x).State(n) != Ambiguous
    ensures OwnInputs(e, t, Write(e, Discover, f, x)) == OwnInputs(e, t, f)
  {
    hide Repr, Write;
    if t == DemandEvidence {
      DiscoverWritesNothingTwice(e, f, x);
    } else {
      WriteFrames(e, Discover, f, x, StepInputSlots(t));
      DiscoverKeepsProfile(e, f, x);
    }
  }

  lemma DiscoverWritesNothingTwice(e: Engine, f: Facts, x: Payload)
    requires f.State(RadiusM) != Missing && Write(e, Discover, f, x).State(LocationText) != Ambiguous
    ensures Write(e, Discover, f, x) == f
  {
  }

  ghost predicate Unasked(f: Facts) {
    forall n :: f.State(n) != Ambiguous
  }

  lemma RunMeansUnasked(st: Advice, requested: Option<StepId>, maxRadius: int, mode: Mode)
    requires st.inputs.Valid() && Decide(st, requested, maxRadius, mode).RunNext?
    ensures Unasked(st.inputs)
  {
    hide Runnable, Index;
    NothingPending(st.inputs);
  }

  lemma SettlingStarts(e: Engine, base: Advice)
    requires Advisor(e).Known(base)
    ensures Settling(e, base, base)
  {
  }

  lemma SettlingParts(e: Engine, base: Advice, cur: Advice)
    requires Settling(e, base, cur)
    ensures Advisor(e).Known(cur)
    ensures forall t :: t in base.artifacts ==> t in cur.artifacts && cur.artifacts[t] == base.artifacts[t]
    ensures forall t :: t in cur.artifacts && t !in base.artifacts ==> Advisor(e).IsFresh(cur, t)
    ensures forall t :: t in base.artifacts && (t == SchemeCapacity ==> ResolveProposed in base.artifacts) ==>
              OwnInputs(e, t, cur.inputs) == OwnInputs(e, t, base.inputs)
    ensures forall t, u :: t in cur.artifacts && t !in base.artifacts && Runnable(cur, u) ==> Index(t) < Index(u)
  {
    hide Advisor, OwnInputs, Runnable, Index;
  }

  lemma MakesSettling(e: Engine, base: Advice, cur: Advice)
    requires Advisor(e).Known(cur)
    requires forall t :: t in base.artifacts ==> t in cur.artifacts && cur.artifacts[t] == base.artifacts[t]
    requires forall t :: t in cur.artifacts && t !in base.artifacts ==> Advisor(e).IsFresh(cur, t)
    requires forall t :: t in base.artifacts && (t == SchemeCapacity ==> ResolveProposed in base.artifacts) ==>
               OwnInputs(e, t, cur.inputs) == OwnInputs(e, t, base.inputs)
    requires forall t, u :: t in cur.artifacts && t !in base.artifacts && Runnable(cur, u) ==> Index(t) < Index(u)
    ensures Settling(e, base, cur)
  {
    hide Advisor, OwnInputs, Runnable, Index;
  }

  lemma RadiusStays(e: Engine, base: Advice, cur: Advice)
    requires Settling(e, base, cur) && Searched(base) && DemandEvidence in base.artifacts
    ensures cur.inputs.State(RadiusM) != Missing
  {
    hide *;
    SettlingParts(e, base, cur);
    SearchedParts(base);
    DemandDeclaresRadius(e, cur.inputs);
    DemandDeclaresRadius(e, base.inputs);
  }

  lemma SearchedParts(st: Advice)
    requires Searched(st) && (DemandEvidence in st.artifacts || Discover in st.artifacts)
    ensures st.inputs.State(RadiusM) != Missing
  {
  }

  lemma DiscoverDeclaresRadius(e: Engine, f: Facts)
    ensures |OwnInputs(e, Discover, f).slots| == 2 && OwnInputs(e, Discover, f).slots[1].state == f.State(RadiusM)
  {
  }

  lemma DemandDeclaresRadius(e: Engine, f: Facts)
    ensures |OwnInputs(e, DemandEvidence, f).slots| == 2
    ensures OwnInputs(e, DemandEvidence, f).slots[1].state == f.State(RadiusM)
  {
  }

  lemma SettlingRuns(c: Context, seen: set<StepId>, base: Advice, cur: Advice, s: StepId)
    requires Advisor(c.engine).Known(base) && Poised(c.engine, seen, base) && Settling(c.engine, base, cur)
    requires Runnable(cur, s) && forall t :: Runnable(cur, t) ==> Index(s) <= Index(t)
    requires Advisor(c.engine).Loadable(cur, s) && Advisor(c.engine).Ready(cur, s)
    requires Unasked(Advisor(c.engine).RunStep(cur, s).inputs)
    ensures Settling(c.engine, base, Advisor(c.engine).RunStep(cur, s))
  {
    hide *;
    var e, p := c.engine, Advisor(c.engine);
    AdvisorIsWellOrdered(e);
    var after := p.RunStep(cur, s);
    PoisedParts(e, seen, base);
    SettlingParts(e, base, cur);
    AdvisorParts(e);
    p.RunStepShape(cur, s);
    EveryStepIsListed(s);
    NewIsNotPresent(e, cur, s);
    StaysKnown(e, cur, s);
    PresentAreClosed(e, base);
    forall t | t in base.artifacts && (t == SchemeCapacity ==> ResolveProposed in base.artifacts)
      ensures OwnInputs(e, t, after.inputs) == OwnInputs(e, t, base.inputs)
    {
      if t == DemandEvidence { RadiusStays(e, base, cur); }
      UnaskedParts(after.inputs);
      WriteMovesNothingPresent(e, base, cur.inputs, s, p.Answer(cur, s), t);
    }
    forall t | t in after.artifacts && t !in base.artifacts ensures p.IsFresh(after, t) {
      if t == s { p.RunIsFresh(cur, s); } else { EarlierStaysFresh(e, cur, s, t); }
    }
    ProperIsKnown(c, cur);
    NextIsLater(c, cur, s);
    NothingRunnableParts(after, s);
    MakesSettling(e, base, after);
  }

  lemma UnaskedParts(f: Facts)
    requires Unasked(f)
    ensures forall n :: f.State(n) != Ambiguous
  {
  }

  lemma NothingRunnableParts(st: Advice, s: StepId)
    requires NothingRunnableUpTo(st, s)
    ensures forall t :: Runnable(st, t) ==> Index(t) > Index(s)
  {
    hide Runnable, Index;
  }

  lemma OpeningParts(e: Engine, st: Advice)
    requires Advisor(e).Known(st) && Opening(e, st)
    ensures Advisor(e).Sound(st) && Advisor(e).AllFresh(st) && Searched(st) && st.inputs.Valid()
  {
    hide Advisor, Searched;
  }

  lemma NewIsNotPresent(e: Engine, st: Advice, s: StepId)
    requires Advisor(e).Ready(st, s)
    ensures s !in st.artifacts
  {
    hide Advisor;
  }

  lemma StaysKnown(e: Engine, st: Advice, s: StepId)
    requires Advisor(e).Known(st) && Advisor(e).WellOrdered() && Advisor(e).Loadable(st, s)
    ensures Advisor(e).Known(Advisor(e).RunStep(st, s))
  {
    hide Advisor;
  }

  /** A step that is up to date stays so while only later ones run. */
  lemma EarlierStaysFresh(e: Engine, st: Advice, s: StepId, t: StepId)
    requires Advisor(e).Known(st) && Advisor(e).Loadable(st, s) && t in st.artifacts && Advisor(e).IsFresh(st, t)
    requires Advisor(e).Known(Advisor(e).RunStep(st, s)) && s !in st.artifacts && Index(t) < Index(s)
    ensures Advisor(e).IsFresh(Advisor(e).RunStep(st, s), t)
  {
    hide Advisor, Index;
    AdvisorIsWellOrdered(e);
    AdvisorWritesForward(e);
    AdvisorParts(e);
    EarlierIsIndex(t, s);
    Advisor(e).EarlierStaysFresh(st, s, t);
  }

  // ---- a load is up to date exactly when it does not rest on a gap ----

  lemma LoadIsFresh(e: Engine, seen: set<StepId>, base: Advice, cur: Advice, s: StepId, d: StepId)
    requires Advisor(e).Known(base) && Poised(e, seen, base) && Settling(e, base, cur)
    requires SpareNoGap(seen, base.artifacts.Keys) && s !in cur.artifacts
    requires Advisor(e).Known(cur) && Advisor(e).Loads(cur, s, d)
    ensures Advisor(e).IsFresh(cur, d)
  {
    hide *;
    PoisedParts(e, seen, base);
    SettlingParts(e, base, cur);
    LoadsParts(e, cur, s, d);
    if d in base.artifacts {
      NobodyLoadsCapacity(s, d);
      GapIsNotLoaded(seen, base.artifacts.Keys, s, d);
      KeptStaysFresh(e, seen, base, cur, d);
    }
  }

  lemma LoadsParts(e: Engine, st: Advice, s: StepId, d: StepId)
    requires Advisor(e).Loads(st, s, d)
    ensures d in st.artifacts && (d in FingerprintUpstream(s) || d in OptionalSteps(s))
  {
    hide FingerprintUpstream, OptionalSteps;
  }

  lemma NobodyLoadsCapacity(s: StepId, d: StepId)
    requires d in FingerprintUpstream(s) || d in OptionalSteps(s)
    ensures d != SchemeCapacity
  {
  }

  lemma GapIsNotLoaded(seen: set<StepId>, keys: set<StepId>, s: StepId, d: StepId)
    requires SpareNoGap(seen, keys) && s !in keys && d in keys && (d in FingerprintUpstream(s) || d in OptionalSteps(s))
    ensures !OnGap(seen, d)
  {
    hide OnGap, FingerprintUpstream, OptionalSteps;
    assert WouldLoad(keys, s, d);
  }

  lemma KeptStaysFresh(e: Engine, seen: set<StepId>, base: Advice, cur: Advice, d: StepId)
    requires Advisor(e).Known(base) && Advisor(e).Sound(base) && seen <= base.artifacts.Keys && Settling(e, base, cur)
    requires d in base.artifacts && d in cur.artifacts && !OnGap(seen, d) && SeenFresh(e, seen, base, d)
    requires d != SchemeCapacity || OwnInputs(e, d, cur.inputs) == OwnInputs(e, d, base.inputs)
    ensures Advisor(e).Known(cur) && Advisor(e).IsFresh(cur, d)
  {
    hide *;
    var p, keys := Advisor(e), base.artifacts.Keys;
    SettlingParts(e, base, cur);
    AdvisorParts(e);
    PresentAreClosed(e, base);
    OnGapRests(e, seen, d);
    var below := if d == SchemeCapacity then {SchemeCapacity} else keys - {SchemeCapacity};
    BelowIsClosed(e, seen, keys, below, d);
    forall t | t in below && t in p.order ensures p.own(t, base.inputs) == p.own(t, cur.inputs) { }
    WithoutGapNothingShows(p, base.inputs, seen, cur.inputs, cur.artifacts.Keys, d, below);
    FreshCarriesOver(e, seen, base, cur, d);
  }

  lemma FreshCarriesOver(e: Engine, seen: set<StepId>, base: Advice, cur: Advice, d: StepId)
    requires Advisor(e).Known(base) && Advisor(e).Known(cur) && d in base.artifacts && SeenFresh(e, seen, base, d)
    requires d in cur.artifacts && cur.artifacts[d] == base.artifacts[d] && d in Advisor(e).order
    ensures Advisor(e).IsFresh(cur, d) <==>
              Advisor(e).Fresh(base.inputs, seen, d) == Advisor(e).Fresh(cur.inputs, cur.artifacts.Keys, d)
  {
    hide Advisor;
  }

  lemma BelowIsClosed(e: Engine, seen: set<StepId>, keys: set<StepId>, below: set<StepId>, d: StepId)
    requires Advisor(e).WellOrdered() && seen <= keys
    requires forall t, u :: t in keys && u in FingerprintUpstream(t) ==> u in keys
    requires below == if d == SchemeCapacity then {SchemeCapacity} else keys - {SchemeCapacity}
    ensures Advisor(e).ClosedBelow(below, seen)
  {
    hide *;
    AdvisorParts(e);
    CapacityStandsAlone();
    forall t, u | t in below && u in FingerprintUpstream(t) ensures u in below { NobodyLoadsCapacity(t, u); }
    forall t, u | t in below && u in OptionalSteps(t) && u in seen ensures u in below { NobodyLoadsCapacity(t, u); }
    MakesClosedBelow(e, seen, below);
  }

  lemma MakesClosedBelow(e: Engine, seen: set<StepId>, below: set<StepId>)
    requires Advisor(e).WellOrdered()
    requires forall t, u :: t in below && u in FingerprintUpstream(t) ==> u in below
    requires forall t, u :: t in below && u in OptionalSteps(t) && u in seen ==> u in below
    ensures Advisor(e).ClosedBelow(below, seen)
  {
    hide Advisor, FingerprintUpstream, OptionalSteps;
    AdvisorParts(e);
  }

  lemma CapacityStandsAlone()
    ensures FingerprintUpstream(SchemeCapacity) == [] && OptionalSteps(SchemeCapacity) == []
  {
  }

  /** Once everything before it is present, a kept step that rested on a gap is stale. */
  lemma GapIsStale(e: Engine, seen: set<StepId>, base: Advice, cur: Advice, d: StepId)
    requires Advisor(e).Known(base) && Settling(e, base, cur)
    requires d in base.artifacts && d in cur.artifacts && OnGap(seen, d) && SeenFresh(e, seen, base, d)
    requires forall v :: Index(v) < Index(d) ==> v in cur.artifacts
    ensures Advisor(e).Known(cur) && !Advisor(e).IsFresh(cur, d)
  {
    hide *;
    var p := Advisor(e);
    SettlingParts(e, base, cur);
    AdvisorParts(e);
    OnGapRests(e, seen, d);
    forall v | Earlier(p.order, v, d) ensures v in cur.artifacts.Keys { EarlierIsIndex(v, d); }
    GapShows(p, base.inputs, seen, cur.inputs, cur.artifacts.Keys, d);
    FreshCarriesOver(e, seen, base, cur, d);
  }

  // ---- the turn ----

  lemma {:induction false} NothingStaleIsLoaded(c: Context, seen: set<StepId>, base: Advice, cur: Advice)
    requires Advisor(c.engine).Known(base) && Poised(c.engine, seen, base) && SpareNoGap(seen, base.artifacts.Keys)
    requires Settling(c.engine, base, cur) && cur.inputs.Valid()
    ensures Proper(c, cur) && EveryLoadFresh(c, cur, None)
    decreases ALL_STEPS - cur.artifacts.Keys
  {
    hide Advisor, Decide, Runnable, Index, Settling, Poised, SpareNoGap, OnGap, Unasked;
    var e, p := c.engine, Advisor(c.engine);
    SettlingParts(e, base, cur);
    ProperIsKnown(c, cur);
    var action := Decide(cur, None, c.maxRadius, c.mode);
    if action.RunNext? && !c.fails(action.step) {
      var s := action.step;
      StepIsNew(c, cur, None);
      DecideNames(cur, None, c.maxRadius, c.mode);
      forall d | p.Loads(cur, s, d) ensures p.IsFresh(cur, d) { LoadIsFresh(e, seen, base, cur, s, d); }
      RunKeepsValid(c, cur, s);
      var after := p.RunStep(cur, s);
      if Decide(after, None, c.maxRadius, c.mode).RunNext? {
        RunMeansUnasked(after, None, c.maxRadius, c.mode);
        SettlingRuns(c, seen, base, cur, s);
        NothingStaleIsLoaded(c, seen, base, after);
      }
    }
  }

  /** Following a request, or not, the loop goes on as one without a request. */
  lemma RequestRunsFirst(c: Context, base: Advice, requested: Option<StepId>)
    requires Proper(c, base)
    ensures FirstOf(base, requested).None? ==> Decide(base, requested, c.maxRadius, c.mode) == Decide(base, None, c.maxRadius, c.mode)
    ensures Decide(base, requested, c.maxRadius, c.mode).RunNext? && FirstOf(base, requested).Some? ==>
              Decide(base, requested, c.maxRadius, c.mode).step == FirstOf(base, requested).value
  {
    hide Runnable, Index, Contradiction, FirstAmbiguous, NextAsk, NextDriver, DiscoverFailure;
  }

  /** A requested step runs beside what the sweep left; its own record and the others' were made beside that. */
  lemma FirstLeavesPoised(c: Context, base: Advice, s: StepId)
    requires Proper(c, base) && Advisor(c.engine).Known(base) && Opening(c.engine, base) && Runnable(base, s)
    requires Advisor(c.engine).Loadable(base, s) && Advisor(c.engine).Ready(base, s)
    requires Unasked(Advisor(c.engine).RunStep(base, s).inputs)
    ensures var after := Advisor(c.engine).RunStep(base, s);
            Advisor(c.engine).Known(after) && Poised(c.engine, base.artifacts.Keys, after)
  {
    hide *;
    var e, p := c.engine, Advisor(c.engine);
    AdvisorIsWellOrdered(e);
    AdvisorWritesForward(e);
    AdvisorParts(e);
    EveryStepIsListed(s);
    var after, keys := p.RunStep(base, s), base.artifacts.Keys;
    OpeningParts(e, base);
    OpeningIsPoised(e, base);
    p.RunStepShape(base, s);
    NewIsNotPresent(e, base, s);
    StaysKnown(e, base, s);
    FreshLoads(e, base, s);
    p.RunKeepsSound(base, s);
    RunKeepsValid(c, base, s);
    RunStaysSearched(e, base, s);
    MakesSeenFresh(e, keys, after, s);
    PresentAreClosed(e, base);
    UnaskedParts(after.inputs);
    forall t | t in after.artifacts && t != SchemeCapacity ensures SeenFresh(e, keys, after, t) {
      if t != s { RunKeepsSeenFresh(e, base, s, t); }
    }
    MakesPoised(e, keys, after);
  }

  lemma MakesPoised(e: Engine, seen: set<StepId>, st: Advice)
    requires Advisor(e).Known(st) && Advisor(e).Sound(st) && Searched(st) && st.inputs.Valid() && seen <= st.artifacts.Keys
    requires forall t :: t in st.artifacts && t != SchemeCapacity ==> SeenFresh(e, seen, st, t)
    ensures Poised(e, seen, st)
  {
    hide Advisor, Searched, SeenFresh;
  }

  lemma FreshLoads(e: Engine, st: Advice, s: StepId)
    requires Advisor(e).Known(st) && Advisor(e).AllFresh(st)
    ensures Advisor(e).LoadsFresh(st, s)
  {
    hide Advisor;
    forall d | Advisor(e).Loads(st, s, d) ensures Advisor(e).IsFresh(st, d) { }
  }

  lemma MakesSeenFresh(e: Engine, seen: set<StepId>, st: Advice, t: StepId)
    requires Advisor(e).Known(st) && t in st.artifacts
    requires st.artifacts[t].fingerprint == Advisor(e).Fresh(st.inputs, seen, t)
    ensures SeenFresh(e, seen, st, t)
  {
  }

  lemma RunStaysSearched(e: Engine, st: Advice, s: StepId)
    requires Advisor(e).Known(st) && Advisor(e).Loadable(st, s) && Advisor(e).Ready(st, s) && Searched(st)
    ensures Searched(Advisor(e).RunStep(st, s))
  {
    hide Advisor, Write;
    AdvisorParts(e);
    Advisor(e).RunStepShape(st, s);
    DemandNeedsDiscovery(e, st, s);
    WriteKeepsRadius(e, s, st.inputs, Advisor(e).Answer(st, s));
  }

  lemma DemandNeedsDiscovery(e: Engine, st: Advice, s: StepId)
    requires Advisor(e).Ready(st, s)
    ensures s == DemandEvidence ==> Discover in st.artifacts
  {
    assert Discover in RequiredSteps(DemandEvidence);
  }

  lemma WriteKeepsRadius(e: Engine, s: StepId, f: Facts, x: Payload)
    ensures f.State(RadiusM) != Missing || s == Discover ==> Write(e, s, f, x).State(RadiusM) != Missing
  {
  }

  lemma RunKeepsSeenFresh(e: Engine, base: Advice, s: StepId, t: StepId)
    requires Advisor(e).Known(base) && Opening(e, base) && Advisor(e).Loadable(base, s) && s !in base.artifacts
    requires Advisor(e).Known(Advisor(e).RunStep(base, s)) && t in base.artifacts && t != SchemeCapacity
    requires forall u, d :: u in base.artifacts && d in FingerprintUpstream(u) ==> d in base.artifacts
    requires forall n :: Advisor(e).RunStep(base, s).inputs.State(n) != Ambiguous
    ensures t in Advisor(e).RunStep(base, s).artifacts
    ensures SeenFresh(e, base.artifacts.Keys, Advisor(e).RunStep(base, s), t)
  {
    hide *;
    var p, keys := Advisor(e), base.artifacts.Keys;
    AdvisorIsWellOrdered(e);
    var after := p.RunStep(base, s);
    OpeningParts(e, base);
    AdvisorParts(e);
    p.RunStepShape(base, s);
    EveryStepIsListed(t);
    var below := keys - {SchemeCapacity};
    BelowIsClosed(e, keys, keys, below, t);
    forall u | u in below && u in p.order ensures p.own(u, base.inputs) == p.own(u, after.inputs) {
      if u == DemandEvidence { SearchedParts(base); }
      WriteMovesNothingPresent(e, base, base.inputs, s, p.Answer(base, s), u);
    }
    SameBelowSameFresh(e, base.inputs, after.inputs, keys, below, t);
    CarrySeenFresh(e, base, after, t);
  }

  lemma SameBelowSameFresh(e: Engine, i: Facts, j: Facts, keys: set<StepId>, below: set<StepId>, t: StepId)
    requires Advisor(e).WellOrdered() && t in Advisor(e).order && t in below && Advisor(e).ClosedBelow(below, keys)
    requires forall u :: u in below && u in Advisor(e).order ==> Advisor(e).own(u, i) == Advisor(e).own(u, j)
    ensures Advisor(e).Fresh(i, keys, t) == Advisor(e).Fresh(j, keys, t)
  {
    hide Advisor;
    Advisor(e).FreshFrame(i, keys, j, keys, t, below);
  }

  lemma CarrySeenFresh(e: Engine, base: Advice, after: Advice, t: StepId)
    requires Advisor(e).Known(base) && Advisor(e).AllFresh(base) && Advisor(e).Known(after)
    requires t in base.artifacts && t in after.artifacts && after.artifacts[t] == base.artifacts[t] && t in Advisor(e).order
    requires Advisor(e).Fresh(base.inputs, base.artifacts.Keys, t) == Advisor(e).Fresh(after.inputs, base.artifacts.Keys, t)
    ensures SeenFresh(e, base.artifacts.Keys, after, t)
  {
    hide Advisor;
    assert Advisor(e).IsFresh(base, t);
  }

  /**
   Whatever the engines answer, whichever sources fail and wherever it stops: a turn that starts from a swept, sound
   session loads nothing stale if, once a requested step has run, no step still to run loads one that rests on a gap.
   */
  lemma TurnLoadsNothingStale(c: Context, base: Advice, requested: Option<StepId>)
    requires Proper(c, base) && Opening(c.engine, base) && LoadsNoGap(base.artifacts.Keys, FirstOf(base, requested))
    ensures EveryLoadFresh(c, base, requested)
  {
    hide *;
    ProperIsKnown(c, base);
    OpeningParts(c.engine, base);
    OpeningIsPoised(c.engine, base);
    RequestRunsFirst(c, base, requested);
    LoadsFreshUnfolds(c, base, requested);
    LoadsFreshUnfolds(c, base, None);
    var action := Decide(base, requested, c.maxRadius, c.mode);
    if FirstOf(base, requested).None? {
      NoRequestParts(base.artifacts.Keys);
      SettlingStarts(c.engine, base);
      NothingStaleIsLoaded(c, base.artifacts.Keys, base, base);
      SameDecisionSameLoads(c, base, requested);
    } else if action.RunNext? && !c.fails(action.step) {
      var s := action.step;
      StepIsNew(c, base, requested);
      FreshLoads(c.engine, base, s);
      RequestParts(base.artifacts.Keys, s);
      AfterRequest(c, base, s);
    } else {
      NothingRuns(c, base, requested);
    }
  }

  lemma NoRequestParts(keys: set<StepId>)
    ensures LoadsNoGap(keys, None) <==> SpareNoGap(keys, keys)
  {
    hide SpareNoGap;
  }

  lemma RequestParts(keys: set<StepId>, s: StepId)
    ensures LoadsNoGap(keys, Some(s)) <==> SpareNoGap(keys, keys + {s})
  {
    hide SpareNoGap;
  }

  lemma SameDecisionSameLoads(c: Context, st: Advice, requested: Option<StepId>)
    requires Proper(c, st)
    requires Decide(st, requested, c.maxRadius, c.mode) == Decide(st, None, c.maxRadius, c.mode)
    ensures EveryLoadFresh(c, st, requested) == EveryLoadFresh(c, st, None)
    ensures Loop(c, st, requested) == Loop(c, st, None)
  {
    hide Advisor, Decide, Runnable;
    LoopUnfolds(c, st, requested);
    LoopUnfolds(c, st, None);
  }

  lemma NothingRuns(c: Context, st: Advice, requested: Option<StepId>)
    requires Proper(c, st)
    requires var action := Decide(st, requested, c.maxRadius, c.mode); !action.RunNext? || c.fails(action.step)
    ensures EveryLoadFresh(c, st, requested) && Loop(c, st, requested) == st
  {
    hide Advisor, Decide, Runnable;
    LoopUnfolds(c, st, requested);
  }

  lemma AfterRequest(c: Context, base: Advice, s: StepId)
    requires Proper(c, base) && Advisor(c.engine).Known(base) && Opening(c.engine, base) && Runnable(base, s)
    requires Advisor(c.engine).Loadable(base, s) && Advisor(c.engine).Ready(base, s)
    requires Proper(c, Advisor(c.engine).RunStep(base, s))
    requires SpareNoGap(base.artifacts.Keys, base.artifacts.Keys + {s})
    ensures EveryLoadFresh(c, Advisor(c.engine).RunStep(base, s), None)
  {
    hide *;
    AdvisorIsWellOrdered(c.engine);
    var after := Advisor(c.engine).RunStep(base, s);
    OpeningParts(c.engine, base);
    Advisor(c.engine).RunStepShape(base, s);
    RunKeepsValid(c, base, s);
    if Decide(after, None, c.maxRadius, c.mode).RunNext? {
      RunMeansUnasked(after, None, c.maxRadius, c.mode);
      FirstLeavesPoised(c, base, s);
      SettlingStarts(c.engine, after);
      NothingStaleIsLoaded(c, base.artifacts.Keys, after, after);
    } else {
      NothingRuns(c, after, None);
    }
  }

  /** So it ends sound. */
  lemma TurnIsExactWithoutGaps(c: Context, base: Advice, requested: Option<StepId>)
    requires Proper(c, base) && Opening(c.engine, base) && LoadsNoGap(base.artifacts.Keys, FirstOf(base, requested))
    ensures Advisor(c.engine).Sound(Loop(c, base, requested))
  {
    hide *;
    ProperIsKnown(c, base);
    OpeningParts(c.engine, base);
    TurnLoadsNothingStale(c, base, requested);
    TurnIsExactWhenLoadsAreFresh(c, base, requested);
  }

  /** The turn leaves every step with a result and no choice pending. */
  ghost predicate RunsEverything(c: Context, base: Advice, requested: Option<StepId>)
    requires Proper(c, base)
  {
    (forall t :: t in Loop(c, base, requested).artifacts) && Unasked(Loop(c, base, requested).inputs)
  }

  lemma {:induction false} LoopRunsLater(c: Context, st: Advice, s: StepId, t: StepId)
    requires Proper(c, st) && NothingRunnableUpTo(st, s)
    ensures t in st.artifacts ==> t in Loop(c, st, None).artifacts
    ensures t in Loop(c, st, None).artifacts ==> t in st.artifacts || Index(t) > Index(s)
    decreases ALL_STEPS - st.artifacts.Keys
  {
    hide Advisor, Decide, Runnable, Index;
    var p := Advisor(c.engine);
    var action := Decide(st, None, c.maxRadius, c.mode);
    if action.RunNext? && !c.fails(action.step) {
      StepIsNew(c, st, None);
      DecideNames(st, None, c.maxRadius, c.mode);
      p.RunStepShape(st, action.step);
      NextIsLater(c, st, action.step);
      LoopRunsLater(c, p.RunStep(st, action.step), action.step, t);
    }
  }

  /** When the loop comes to a step that it will run, and everything is run in the end, all earlier ones are there. */
  lemma EarlierAreThere(c: Context, st: Advice, s: StepId, v: StepId)
    requires Proper(c, st) && Advisor(c.engine).Loadable(st, s) && Runnable(st, s)
    requires forall t :: Runnable(st, t) ==> Index(s) <= Index(t)
    requires Proper(c, Advisor(c.engine).RunStep(st, s)) && v in Loop(c, Advisor(c.engine).RunStep(st, s), None).artifacts
    ensures Index(v) < Index(s) ==> v in st.artifacts
  {
    hide Advisor, Runnable, Index, Loop;
    var after := Advisor(c.engine).RunStep(st, s);
    Advisor(c.engine).RunStepShape(st, s);
    NextIsLater(c, st, s);
    LoopRunsLater(c, after, s, v);
  }

  lemma GapIsStaleNow(c: Context, seen: set<StepId>, base: Advice, cur: Advice, u: StepId, d: StepId)
    requires Proper(c, cur) && Advisor(c.engine).Known(base) && Poised(c.engine, seen, base)
    requires Settling(c.engine, base, cur) && WouldLoad(base.artifacts.Keys, u, d) && OnGap(seen, d)
    requires Advisor(c.engine).Loadable(cur, u) && Runnable(cur, u) && Proper(c, Advisor(c.engine).RunStep(cur, u))
    requires forall t :: Runnable(cur, t) ==> Index(u) <= Index(t)
    requires forall t :: t in Loop(c, Advisor(c.engine).RunStep(cur, u), None).artifacts
    ensures Advisor(c.engine).Known(cur) && !Advisor(c.engine).LoadsFresh(cur, u)
  {
    hide *;
    SettlingParts(c.engine, base, cur);
    WouldLoadParts(base.artifacts.Keys, u, d);
    UpstreamPrecedes(u, d);
    forall v | Index(v) < Index(d) ensures v in cur.artifacts { EarlierAreThere(c, cur, u, v); }
    PoisedParts(c.engine, seen, base);
    NobodyLoadsCapacity(u, d);
    GapIsStale(c.engine, seen, base, cur, d);
    LoadedStale(c.engine, cur, u, d);
  }

  lemma LoadedStale(e: Engine, st: Advice, u: StepId, d: StepId)
    requires Advisor(e).Known(st) && d in st.artifacts && !Advisor(e).IsFresh(st, d)
    requires d in FingerprintUpstream(u) || d in OptionalSteps(u)
    ensures !Advisor(e).LoadsFresh(st, u)
  {
    hide Advisor, FingerprintUpstream, OptionalSteps;
    AdvisorParts(e);
    assert Advisor(e).Loads(st, u, d);
  }

  lemma {:induction false} GapIsLoaded(
    c: Context, seen: set<StepId>, base: Advice, cur: Advice, u: StepId, d: StepId)
    requires Advisor(c.engine).Known(base) && Poised(c.engine, seen, base)
    requires Settling(c.engine, base, cur) && cur.inputs.Valid() && Proper(c, cur)
    requires WouldLoad(base.artifacts.Keys, u, d) && OnGap(seen, d) && u !in cur.artifacts
    requires forall t :: t in Loop(c, cur, None).artifacts
    ensures !EveryLoadFresh(c, cur, None)
    decreases ALL_STEPS - cur.artifacts.Keys
  {
    hide *;
    var e, p := c.engine, Advisor(c.engine);
    SettlingParts(e, base, cur);
    LoopUnfolds(c, cur, None);
    LoadsFreshUnfolds(c, cur, None);
    var s := Decide(cur, None, c.maxRadius, c.mode).step;
    StepIsNew(c, cur, None);
    DecideNames(cur, None, c.maxRadius, c.mode);
    var after := p.RunStep(cur, s);
    if s == u {
      GapIsStaleNow(c, seen, base, cur, u, d);
    } else {
      p.RunStepShape(cur, s);
      RunKeepsValid(c, cur, s);
      LoopUnfolds(c, after, None);
      RunMeansUnasked(after, None, c.maxRadius, c.mode);
      SettlingRuns(c, seen, base, cur, s);
      GapIsLoaded(c, seen, base, after, u, d);
    }
  }

  /** If the turn runs everything, it ends sound exactly when no step still to run loaded one that rested on a gap. */
  lemma TurnIsExactExactlyWithoutGaps(c: Context, base: Advice, requested: Option<StepId>)
    requires Proper(c, base) && Opening(c.engine, base) && RunsEverything(c, base, requested)
    ensures Advisor(c.engine).Sound(Loop(c, base, requested)) <==>
              LoadsNoGap(base.artifacts.Keys, FirstOf(base, requested))
  {
    hide *;
    if LoadsNoGap(base.artifacts.Keys, FirstOf(base, requested)) {
      TurnIsExactWithoutGaps(c, base, requested);
    } else {
      ProperIsKnown(c, base);
      OpeningParts(c.engine, base);
      GapMakesInexact(c, base, requested);
      TurnIsExactWhenLoadsAreFresh(c, base, requested);
    }
  }

  lemma GapMakesInexact(c: Context, base: Advice, requested: Option<StepId>)
    requires Proper(c, base) && Advisor(c.engine).Known(base) && Opening(c.engine, base)
    requires RunsEverything(c, base, requested) && !LoadsNoGap(base.artifacts.Keys, FirstOf(base, requested))
    ensures !EveryLoadFresh(c, base, requested)
  {
    hide *;
    var keys := base.artifacts.Keys;
    EverythingParts(c, base, requested);
    OpeningParts(c.engine, base);
    RequestRunsFirst(c, base, requested);
    LoopUnfolds(c, base, requested);
    LoadsFreshUnfolds(c, base, requested);
    if FirstOf(base, requested).None? {
      NoRequestParts(keys);
      SameDecisionSameLoads(c, base, requested);
      OpeningIsPoised(c.engine, base);
      SettlingStarts(c.engine, base);
      var u, d := GapLoaded(keys, keys);
      WouldLoadParts(keys, u, d);
      GapIsLoaded(c, keys, base, base, u, d);
    } else {
      var s := FirstOf(base, requested).value;
      FirstIsRunnable(base, requested);
      RequestParts(keys, s);
      var u, d := GapLoaded(keys, keys + {s});
      WouldLoadParts(keys + {s}, u, d);
      assert Decide(base, requested, c.maxRadius, c.mode).step == s;
      StepIsNew(c, base, requested);
      var after := Advisor(c.engine).RunStep(base, s);
      Advisor(c.engine).RunStepShape(base, s);
      RunKeepsValid(c, base, s);
      LoopUnfolds(c, after, None);
      if Decide(after, None, c.maxRadius, c.mode).RunNext? { RunMeansUnasked(after, None, c.maxRadius, c.mode); }
      FirstLeavesPoised(c, base, s);
      SettlingStarts(c.engine, after);
      GapIsLoaded(c, keys, after, after, u, d);
    }
  }

  lemma FirstIsRunnable(st: Advice, requested: Option<StepId>)
    requires FirstOf(st, requested).Some?
    ensures requested == FirstOf(st, requested) && Runnable(st, requested.value)
  {
    hide Runnable;
  }

  lemma GapLoaded(seen: set<StepId>, keys: set<StepId>) returns (u: StepId, d: StepId)
    requires !SpareNoGap(seen, keys)
    ensures WouldLoad(keys, u, d) && OnGap(seen, d)
  {
    hide WouldLoad, OnGap;
    u, d :| WouldLoad(keys, u, d) && OnGap(seen, d);
  }

  lemma WouldLoadParts(keys: set<StepId>, u: StepId, d: StepId)
    requires WouldLoad(keys, u, d)
    ensures u !in keys && d in keys && (d in FingerprintUpstream(u) || d in OptionalSteps(u))
  {
    hide FingerprintUpstream, OptionalSteps;
  }

  lemma EverythingParts(c: Context, base: Advice, requested: Option<StepId>)
    requires Proper(c, base) && RunsEverything(c, base, requested)
    ensures forall t :: t in Loop(c, base, requested).artifacts
    ensures Unasked(Loop(c, base, requested).inputs)
  {
    hide Loop, Unasked, Proper;
  }

  lemma {:induction false} LoopSettles(c: Context, seen: set<StepId>, base: Advice, cur: Advice)
    requires Advisor(c.engine).Known(base) && Poised(c.engine, seen, base)
    requires Settling(c.engine, base, cur) && cur.inputs.Valid() && Proper(c, cur) && Unasked(Loop(c, cur, None).inputs)
    ensures Settling(c.engine, base, Loop(c, cur, None))
    decreases ALL_STEPS - cur.artifacts.Keys
  {
    hide Advisor, Decide, Runnable, Index, Settling, Poised, Unasked;
    var action := Decide(cur, None, c.maxRadius, c.mode);
    if action.RunNext? && !c.fails(action.step) {
      var s := action.step;
      StepIsNew(c, cur, None);
      DecideNames(cur, None, c.maxRadius, c.mode);
      RunKeepsValid(c, cur, s);
      var after := Advisor(c.engine).RunStep(cur, s);
      LoopUnfolds(c, after, None);
      if Decide(after, None, c.maxRadius, c.mode).RunNext? { RunMeansUnasked(after, None, c.maxRadius, c.mode); }
      SettlingRuns(c, seen, base, cur, s);
      LoopSettles(c, seen, base, after);
    }
  }

  // ---- the scheme capacity ----

  /**
   Where the business is still to be resolved and a scheme capacity is kept: the resolver will answer, on what it reads
   now, with the category that the capacity was looked up for.
   */
  ghost predicate CapacityForeseen(e: Engine, base: Advice) {
    SchemeCapacity in base.artifacts && ResolveProposed !in base.artifacts ==>
      && Advisor(e).Loadable(base, ResolveProposed)
      && CategoryOf(Advisor(e).Answer(base, ResolveProposed)) == base.inputs.category
  }

  lemma WriteMovesCategory(e: Engine, s: StepId, f: Facts, x: Payload)
    ensures Write(e, s, f, x).Of(LiquidCashInr) == f.Of(LiquidCashInr)
    ensures Write(e, s, f, x).category == if s == ResolveProposed then CategoryOf(x) else f.category
  {
  }

  lemma {:induction false} LoopMovesCategory(c: Context, st: Advice)
    requires Proper(c, st)
    ensures Loop(c, st, None).inputs.Of(LiquidCashInr) == st.inputs.Of(LiquidCashInr)
    ensures ResolveProposed in st.artifacts ==> Loop(c, st, None).inputs.category == st.inputs.category
    decreases ALL_STEPS - st.artifacts.Keys
  {
    hide Advisor, Decide, Runnable, Write, CategoryOf;
    var p, action := Advisor(c.engine), Decide(st, None, c.maxRadius, c.mode);
    if action.RunNext? && !c.fails(action.step) {
      StepIsNew(c, st, None);
      p.RunStepShape(st, action.step);
      AdvisorParts(c.engine);
      WriteMovesCategory(c.engine, action.step, st.inputs, p.Answer(st, action.step));
      LoopMovesCategory(c, p.RunStep(st, action.step));
    }
  }

  lemma FirstInOrder(s: StepId)
    requires s != ResolveProposed
    ensures Index(ResolveProposed) < Index(s)
  {
  }

  /** A turn that runs everything runs a missing resolver first, and what it answers there is the category at the end. */
  lemma ResolverAnswersFirst(c: Context, base: Advice)
    requires Proper(c, base) && ResolveProposed !in base.artifacts && ResolveProposed in Loop(c, base, None).artifacts
    ensures Advisor(c.engine).Loadable(base, ResolveProposed)
    ensures Loop(c, base, None).inputs.category == CategoryOf(Advisor(c.engine).Answer(base, ResolveProposed))
  {
    hide *;
    var p := Advisor(c.engine);
    LoopUnfolds(c, base, None);
    var s := Decide(base, None, c.maxRadius, c.mode).step;
    StepIsNew(c, base, None);
    DecideNames(base, None, c.maxRadius, c.mode);
    if s != ResolveProposed {
      FirstInOrder(s);
      EarlierAreThere(c, base, s, ResolveProposed);
    }
    p.RunStepShape(base, s);
    AdvisorParts(c.engine);
    WriteMovesCategory(c.engine, s, base.inputs, p.Answer(base, s));
    LoopMovesCategory(c, p.RunStep(base, s));
  }

  lemma CapacityDeclares(e: Engine, f: Facts, g: Facts)
    requires f.Of(LiquidCashInr) == g.Of(LiquidCashInr)
    ensures OwnInputs(e, SchemeCapacity, f) == OwnInputs(e, SchemeCapacity, g) <==> f.category == g.category
  {
  }

  lemma CapacityStandsAsForeseen(c: Context, base: Advice)
    requires Proper(c, base) && Settling(c.engine, base, Loop(c, base, None))
    requires ResolveProposed in Loop(c, base, None).artifacts
    ensures CapacityStands(c.engine, base, Loop(c, base, None)) <==> CapacityForeseen(c.engine, base)
  {
    hide Advisor, Loop, OwnInputs, Settling, CategoryOf;
    var st := Loop(c, base, None);
    SettlingParts(c.engine, base, st);
    LoopMovesCategory(c, base);
    CapacityDeclares(c.engine, st.inputs, base.inputs);
    if ResolveProposed !in base.artifacts { ResolverAnswersFirst(c, base); }
  }

  /**
   Told before the turn: if one without a request runs everything, it ends up to date exactly when no step present at its
   start lists an absent one as optional, and the resolver, if it is to run, will find the kept capacity's category.
   */
  lemma TurnIsUpToDateExactlyWhenGapless(c: Context, base: Advice)
    requires Proper(c, base) && Opening(c.engine, base) && RunsEverything(c, base, None)
    ensures Advisor(c.engine).AllFresh(Loop(c, base, None)) <==>
              Gapless(base.artifacts.Keys) && CapacityForeseen(c.engine, base)
  {
    hide *;
    var e, st := c.engine, Loop(c, base, None);
    ProperIsKnown(c, base);
    OpeningParts(e, base);
    OpeningIsPoised(e, base);
    SettlingStarts(e, base);
    EverythingParts(c, base, None);
    LoopSettles(c, base.artifacts.Keys, base, base);
    SettlingParts(e, base, st);
    CapacityMeans(e, base, st);
    CapacityStandsAsForeseen(c, base);
    if Gapless(base.artifacts.Keys) && CapacityStands(e, base, st) {
      PresentAreClosed(e, base);
      forall t | t in st.artifacts ensures Advisor(e).IsFresh(st, t) {
        if t in base.artifacts {
          GaplessIsNotOnGap(base.artifacts.Keys, t);
          KeptStaysFresh(e, base.artifacts.Keys, base, st, t);
        }
      }
      MakesAllFresh(e, st);
    }
    if Advisor(e).AllFresh(st) {
      if !Gapless(base.artifacts.Keys) {
        var t := GapOpen(base.artifacts.Keys);
        GapIsStale(e, base.artifacts.Keys, base, st, t);
        AllFreshParts(e, st, t);
      }
      if SchemeCapacity in base.artifacts {
        AllFreshParts(e, st, SchemeCapacity);
        AllFreshParts(e, base, SchemeCapacity);
        FreshOwn(e, base, SchemeCapacity);
        FreshOwn(e, st, SchemeCapacity);
      }
    }
  }

  ghost predicate CapacityStands(e: Engine, base: Advice, st: Advice) {
    SchemeCapacity in base.artifacts ==>
      OwnInputs(e, SchemeCapacity, st.inputs) == OwnInputs(e, SchemeCapacity, base.inputs)
  }

  lemma CapacityMeans(e: Engine, base: Advice, st: Advice)
    ensures CapacityStands(e, base, st) <==>
              (SchemeCapacity in base.artifacts ==>
                 OwnInputs(e, SchemeCapacity, st.inputs) == OwnInputs(e, SchemeCapacity, base.inputs))
  {
    hide OwnInputs;
  }

  lemma GapOpen(keys: set<StepId>) returns (t: StepId)
    requires !Gapless(keys)
    ensures t in keys && OnGap(keys, t)
  {
    hide OptionalSteps, FingerprintUpstream, Index;
    var d;
    t, d :| t in keys && d in OptionalSteps(t) && d !in keys;
  }

  lemma MakesAllFresh(e: Engine, st: Advice)
    requires Advisor(e).Known(st) && forall t :: t in st.artifacts ==> Advisor(e).IsFresh(st, t)
    ensures Advisor(e).AllFresh(st)
  {
    hide Advisor;
  }

  lemma AllFreshParts(e: Engine, st: Advice, t: StepId)
    requires Advisor(e).AllFresh(st) && t in st.artifacts
    ensures Advisor(e).Known(st) && Advisor(e).IsFresh(st, t)
  {
    hide Advisor;
  }

  lemma FreshOwn(e: Engine, st: Advice, t: StepId)
    requires Advisor(e).Known(st) && t in st.artifacts && Advisor(e).IsFresh(st, t)
    ensures st.artifacts[t].fingerprint.own == OwnInputs(e, t, st.inputs)
  {
    AdvisorParts(e);
  }

  // ---- the family with a gap ----

  lemma KnowledgeLeavesGap(keys: set<StepId>)
    requires Discover !in keys && AssessFinance in keys
    requires forall t, d :: t in keys && d in FingerprintUpstream(t) ==> d in keys
    ensures WouldLoad(keys, Recommend, AssessFinance) && OnGap(keys, AssessFinance)
    ensures FinanceKnowledge in keys && !Gapless(keys)
  {
    assert BindPlan in FingerprintUpstream(AssessFinance) && FinanceKnowledge in FingerprintUpstream(BindPlan);
    assert Discover in OptionalSteps(FinanceKnowledge) && OnGap(keys, FinanceKnowledge) && OnGap(keys, BindPlan);
    assert Opportunity in FingerprintUpstream(Recommend) && OpportunityEvidence in FingerprintUpstream(Opportunity);
    assert Discover in FingerprintUpstream(OpportunityEvidence);
  }

  /**
   For every engine: once the finances were assessed without a place, the turn that brings discovery and runs everything
   ends with a cache that is neither exact nor up to date.
   */
  lemma LatePlaceIsInexact(c: Context, base: Advice)
    requires Proper(c, base) && Opening(c.engine, base) && RunsEverything(c, base, None)
    requires AssessFinance in base.artifacts && Discover !in base.artifacts
    ensures !Advisor(c.engine).Sound(Loop(c, base, None)) && !Advisor(c.engine).AllFresh(Loop(c, base, None))
  {
    hide *;
    var keys := base.artifacts.Keys;
    ProperIsKnown(c, base);
    OpeningParts(c.engine, base);
    PresentAreClosed(c.engine, base);
    KnowledgeLeavesGap(keys);
    WouldLoadParts(keys, Recommend, AssessFinance);
    NoRequestParts(keys);
    NoRequestNoFirst(base);
    if SpareNoGap(keys, keys) { GapIsNotLoaded(keys, keys, Recommend, AssessFinance); }
    TurnIsExactExactlyWithoutGaps(c, base, None);
    TurnIsUpToDateExactlyWhenGapless(c, base);
  }

  lemma NoRequestNoFirst(st: Advice)
    ensures FirstOf(st, None) == None
  {
  }

  // ---- the family without ----

  lemma GaplessLoadsNoGap(e: Engine, st: Advice)
    requires Advisor(e).Known(st) && Advisor(e).Sound(st) && Gapless(st.artifacts.Keys)
    ensures LoadsNoGap(st.artifacts.Keys, None)
  {
    hide Advisor, OnGap, Gapless;
    PresentAreClosed(e, st);
    forall u, d | WouldLoad(st.artifacts.Keys, u, d) ensures !OnGap(st.artifacts.Keys, d) {
      GaplessIsNotOnGap(st.artifacts.Keys, d);
    }
  }

  /** Whatever is edited, the sweep opens no gap in a sound session. */
  lemma SweepOpensNoGap(e: Engine, st: Advice)
    requires Advisor(e).Known(st) && Advisor(e).Sound(st) && Gapless(st.artifacts.Keys)
    ensures Gapless(Advisor(e).Invalidated(st).artifacts.Keys)
  {
    hide Advisor, OptionalSteps;
    var kept := Advisor(e).Invalidated(st);
    AdvisorParts(e);
    forall t, d | t in kept.artifacts && d in OptionalSteps(t) ensures d in kept.artifacts {
      Advisor(e).KeptIsClosed(st, t);
    }
  }

  lemma WriteKeepsOpened(e: Engine, s: StepId, f: Facts, x: Payload)
    requires Opened(f) && Unasked(Write(e, s, f, x))
    ensures Opened(Write(e, s, f, x))
  {
    hide Unasked;
    UnaskedParts(Write(e, s, f, x));
    WriteAsksOrKeeps(e, s, f, x, ProposedBusinessText);
    WriteAsksOrKeeps(e, s, f, x, LocationText);
  }

  lemma WriteAsksOrKeeps(e: Engine, s: StepId, f: Facts, x: Payload, n: SlotName)
    requires n != RadiusM && Write(e, s, f, x).State(n) != Ambiguous
    ensures Write(e, s, f, x).Of(n) == f.Of(n)
  {
  }

  lemma {:induction false} LoopKeepsRecords(c: Context, st: Advice, requested: Option<StepId>, t: StepId)
    requires Proper(c, st) && t in st.artifacts
    ensures t in Loop(c, st, requested).artifacts && Loop(c, st, requested).artifacts[t] == st.artifacts[t]
    decreases ALL_STEPS - st.artifacts.Keys
  {
    hide Advisor, Decide, Runnable;
    var action := Decide(st, requested, c.maxRadius, c.mode);
    if action.RunNext? && !c.fails(action.step) {
      StepIsNew(c, st, requested);
      Advisor(c.engine).RunStepShape(st, action.step);
      LoopKeepsRecords(c, Advisor(c.engine).RunStep(st, action.step), None, t);
    }
  }

  /** With business and place known, a turn that meets no failed discovery opens no gap either. */
  lemma {:induction false} OpenTurnOpensNoGap(c: Context, st: Advice)
    requires Proper(c, st) && st.inputs.Valid() && Gapless(st.artifacts.Keys) && Opened(st.inputs)
    requires DiscoverFailure(Loop(c, st, None)).None?
    ensures Gapless(Loop(c, st, None).artifacts.Keys)
    decreases ALL_STEPS - st.artifacts.Keys
  {
    hide Advisor, Decide, Runnable, Index, Gapless, Opened, Unasked, DiscoverFailure;
    var action := Decide(st, None, c.maxRadius, c.mode);
    if action.RunNext? && !c.fails(action.step) {
      var s := action.step;
      StepIsNew(c, st, None);
      DecideNames(st, None, c.maxRadius, c.mode);
      var after := Advisor(c.engine).RunStep(st, s);
      Advisor(c.engine).RunStepShape(st, s);
      AdvisorParts(c.engine);
      NoFailureYet(c, st);
      NextComesAfterAll(st, s);
      OneMoreIsGapless(st.artifacts.Keys, s);
      RunKeepsValid(c, st, s);
      LoopUnfolds(c, after, None);
      if Decide(after, None, c.maxRadius, c.mode).RunNext? {
        RunMeansUnasked(after, None, c.maxRadius, c.mode);
        WriteKeepsOpened(c.engine, s, st.inputs, Advisor(c.engine).Answer(st, s));
        OpenTurnOpensNoGap(c, after);
      }
    }
  }

  lemma NoFailureYet(c: Context, st: Advice)
    requires Proper(c, st) && DiscoverFailure(Loop(c, st, None)).None?
    ensures DiscoverFailure(st).None?
  {
    hide Loop, Proper;
    if Discover in st.artifacts { LoopKeepsRecords(c, st, None, Discover); }
  }

  lemma OneMoreIsGapless(keys: set<StepId>, s: StepId)
    requires Gapless(keys) && forall u :: Index(u) < Index(s) ==> u in keys
    ensures Gapless(keys + {s})
  {
    hide Index, OptionalSteps;
    forall d | d in OptionalSteps(s) ensures d in keys { UpstreamPrecedes(s, d); }
  }
}
