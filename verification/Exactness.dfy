/** When the shipped turn keeps the cache exact. */
module Exactness {
  import opened Wrappers
  import opened SessionModels
  import opened Workflow
  import opened StepCache
  import opened Artifacts
  import opened Planner
  import opened Turn
  import C = Containment

  lemma WithKeepsValid(f: Facts, name: SlotName, slot: Slot)
    requires f.Valid()
    ensures f.With(name, slot).Valid()
  {
  }

  lemma WriteKeepsValid(e: Engine, s: StepId, f: Facts, x: Payload)
    requires f.Valid()
    ensures Write(e, s, f, x).Valid()
  {
    if s == ResolveProposed {
      WithKeepsValid(f, ProposedBusinessText, Write(e, s, f, x).Of(ProposedBusinessText));
    } else if s == Discover {
      var g := if f.State(RadiusM) == Missing
               then SetSlotAssumed(f, RadiusM, Count(e.defaultRadius), "config:default_radius_m") else f;
      WithKeepsValid(f, RadiusM, g.Of(RadiusM));
      WithKeepsValid(g, LocationText, Write(e, s, f, x).Of(LocationText));
    }
  }

  // ---- one turn, exactly ----

  /** Along the turn, nothing that runs loads an artifact that has gone stale since the sweep. */
  ghost predicate EveryLoadFresh(c: Context, st: Advice, requested: Option<StepId>)
    requires Proper(c, st)
    decreases ALL_STEPS - st.artifacts.Keys
  {
    hide *;
    ProperIsKnown(c, st);
    var action := Decide(st, requested, c.maxRadius, c.mode);
    action.RunNext? && !c.fails(action.step) ==>
      && Advisor(c.engine).LoadsFresh(st, action.step)
      && (StepIsNew(c, st, requested); EveryLoadFresh(c, Advisor(c.engine).RunStep(st, action.step), None))
  }

  lemma LoadsFreshUnfolds(c: Context, st: Advice, requested: Option<StepId>)
    requires Proper(c, st)
    ensures var action := Decide(st, requested, c.maxRadius, c.mode);
            action.RunNext? && !c.fails(action.step) ==>
              && Advisor(c.engine).Known(st) && Advisor(c.engine).WellOrdered()
              && Advisor(c.engine).Loadable(st, action.step)
              && Proper(c, Advisor(c.engine).RunStep(st, action.step))
              && (EveryLoadFresh(c, st, requested) <==>
                    Advisor(c.engine).LoadsFresh(st, action.step)
                    && EveryLoadFresh(c, Advisor(c.engine).RunStep(st, action.step), None))
  {
    hide Decide, Runnable, Advisor, Index;
    ProperIsKnown(c, st);
    if Decide(st, requested, c.maxRadius, c.mode).RunNext? { StepIsNew(c, st, requested); }
  }

  lemma ProperIsKnown(c: Context, st: Advice)
    ensures Proper(c, st) <==> Advisor(c.engine).Known(st)
  {
    hide Advisor;
  }

  /** A turn that starts with an exact cache ends with one exactly when no step loaded a stale artifact on the way. */
  lemma {:induction false} TurnIsExactWhenLoadsAreFresh(c: Context, st: Advice, requested: Option<StepId>)
    requires Proper(c, st) && st.inputs.Valid() && Advisor(c.engine).Sound(st)
    ensures Advisor(c.engine).Sound(Loop(c, st, requested)) <==> EveryLoadFresh(c, st, requested)
    decreases ALL_STEPS - st.artifacts.Keys
  {
    hide Advisor, Decide, Runnable;
    var p := Advisor(c.engine);
    AdvisorIsWellFormed(c.engine);
    var action := Decide(st, requested, c.maxRadius, c.mode);
    if action.RunNext? && !c.fails(action.step) {
      var s := action.step;
      StepIsNew(c, st, requested);
      p.RunKeepsEmbeddedExactlyWhenLoadsFresh(st, s);
      if p.LoadsFresh(st, s) {
        p.RunKeepsSound(st, s);
        RunKeepsValid(c, st, s);
        TurnIsExactWhenLoadsAreFresh(c, p.RunStep(st, s), None);
      } else {
        var d := StaleLoadConflicts(c, st, s);
        ConflictStays(c, p.RunStep(st, s), None, s, d);
        if p.Sound(Loop(c, st, requested)) { SoundHasNoConflict(p, Loop(c, st, requested), s, d); }
      }
    }
  }

  lemma RunKeepsValid(c: Context, st: Advice, s: StepId)
    requires Proper(c, st) && st.inputs.Valid() && Advisor(c.engine).Loadable(st, s) && Advisor(c.engine).WellOrdered()
    ensures Advisor(c.engine).RunStep(st, s).inputs.Valid()
  {
    hide *;
    AdvisorParts(c.engine);
    Advisor(c.engine).RunStepShape(st, s);
    WriteKeepsValid(c.engine, s, st.inputs, Advisor(c.engine).Answer(st, s));
  }

  /** The fingerprint stored for `s` names another fingerprint for `d` than the one stored for `d`. */
  ghost predicate Conflict(p: Pipeline<StepId, Facts, Own, Reading, Payload>, st: Advice, s: StepId, d: StepId) {
    && s in st.artifacts && d in st.artifacts
    && var f, g := st.artifacts[s].fingerprint, st.artifacts[d].fingerprint;
       || (exists k :: 0 <= k < |f.required| && k < |p.upstream(s)| && p.upstream(s)[k] == d && f.required[k] != g)
       || (exists k :: 0 <= k < |f.optional| && k < |p.optional(s)| && p.optional(s)[k] == d && f.optional[k].Some?
                       && f.optional[k].value != g)
  }

  lemma StaleLoadConflicts(c: Context, st: Advice, s: StepId) returns (d: StepId)
    requires Proper(c, st) && Advisor(c.engine).WellFormed() && Advisor(c.engine).Known(st)
    requires Advisor(c.engine).Ready(st, s) && Advisor(c.engine).Loadable(st, s)
    requires !Advisor(c.engine).LoadsFresh(st, s)
    ensures Conflict(Advisor(c.engine), Advisor(c.engine).RunStep(st, s), s, d)
  {
    hide Advisor;
    var p := Advisor(c.engine);
    p.RecordedOver(st, s);
    p.RunStepShape(st, s);
    d :| p.Loads(st, s, d) && !p.IsFresh(st, d);
    var f := p.RunStep(st, s).artifacts[s].fingerprint;
    if d in p.upstream(s) {
      var k :| 0 <= k < |p.upstream(s)| && p.upstream(s)[k] == d;
      assert f.required[k] == p.FreshIn(st, d);
    } else {
      var k :| 0 <= k < |p.optional(s)| && p.optional(s)[k] == d;
      assert f.optional[k] == Some(p.FreshIn(st, d));
    }
  }

  lemma SoundHasNoConflict(p: Pipeline<StepId, Facts, Own, Reading, Payload>, st: Advice, s: StepId, d: StepId)
    requires p.Sound(st)
    ensures !Conflict(p, st, s, d)
  {
    if s in st.artifacts && d in st.artifacts {
      assert p.EmbedsAt(st, s);
      var f, g := st.artifacts[s].fingerprint, st.artifacts[d].fingerprint;
      forall k | 0 <= k < |f.required| && p.upstream(s)[k] == d ensures f.required[k] == g {
        assert p.Holds(st, d, f.required[k]);
      }
      forall k | 0 <= k < |f.optional| && p.optional(s)[k] == d && f.optional[k].Some? ensures f.optional[k].value == g {
        assert p.Holds(st, d, f.optional[k].value);
      }
    }
  }

  /** Nothing recorded is touched again before the next sweep. */
  lemma {:induction false} ConflictStays(c: Context, st: Advice, requested: Option<StepId>, s: StepId, d: StepId)
    requires Proper(c, st) && Conflict(Advisor(c.engine), st, s, d)
    ensures Conflict(Advisor(c.engine), Loop(c, st, requested), s, d)
    decreases ALL_STEPS - st.artifacts.Keys
  {
    hide Advisor, Decide, Runnable;
    var p := Advisor(c.engine);
    var action := Decide(st, requested, c.maxRadius, c.mode);
    if action.RunNext? && !c.fails(action.step) {
      StepIsNew(c, st, requested);
      p.RunStepShape(st, action.step);
      ConflictStays(c, p.RunStep(st, action.step), None, s, d);
    }
  }

  // ---- a cold start is always exact ----

  ghost predicate AllPresentPrecede(st: Advice) {
    forall t, u :: t in st.artifacts && Runnable(st, u) ==> Index(t) < Index(u)
  }

  /** Over a prefix of the fixed order, a run disturbs nothing. */
  lemma RunAfterAllIsUndisturbed(e: Engine, st: Advice, s: StepId)
    requires Advisor(e).WellFormed() && Advisor(e).Known(st) && Advisor(e).Ready(st, s) && Advisor(e).Loadable(st, s)
    requires forall t :: t in st.artifacts ==> Index(t) < Index(s)
    ensures Advisor(e).Undisturbed(st, s)
  {
    hide Advisor, Index;
    var p := Advisor(e);
    AdvisorParts(e);
    p.RunStepShape(st, s);
    forall t | t in st.artifacts ensures s !in p.optional(t) && p.own(t, p.RunStep(st, s).inputs) == p.own(t, st.inputs) {
      EarlierIsIndex(t, s);
      if s in OptionalSteps(t) { DependenciesPrecede(t, s); }
    }
  }

  /** Every result is up to date, built over the others, and of a runner that would read the same now. */
  ghost predicate Exact(p: Pipeline<StepId, Facts, Own, Reading, Payload>, st: Advice) {
    p.Sound(st) && p.AllFresh(st) && p.AllCurrent(st)
  }

  lemma PresentAreEarlier(e: Engine, st: Advice, s: StepId)
    requires Advisor(e).WellOrdered() && AllPresentPrecede(st) && Runnable(st, s)
    ensures forall t :: t in st.artifacts ==> Earlier(Advisor(e).order, t, s)
  {
    hide Runnable, Index;
    AdvisorParts(e);
    forall t | t in st.artifacts ensures Earlier(Advisor(e).order, t, s) { EarlierIsIndex(t, s); }
  }

  lemma {:induction false} ColdLoopIsExact(c: Context, st: Advice)
    requires Proper(c, st) && st.inputs.Valid() && AllPresentPrecede(st)
    requires Exact(Advisor(c.engine), st)
    ensures Exact(Advisor(c.engine), Loop(c, st, None))
    decreases ALL_STEPS - st.artifacts.Keys
  {
    hide Advisor, Decide, Runnable, Index;
    var p := Advisor(c.engine);
    AdvisorIsWellFormed(c.engine);
    var action := Decide(st, None, c.maxRadius, c.mode);
    if action.RunNext? && !c.fails(action.step) {
      var s := action.step;
      StepIsNew(c, st, None);
      DecideNames(st, None, c.maxRadius, c.mode);
      p.RunKeepsSound(st, s);
      PresentAreEarlier(c.engine, st, s);
      p.RunKeepsEarlierCurrent(st, s);
      RunAfterAllIsUndisturbed(c.engine, st, s);
      p.RunLeavesAllFreshExactlyWhen(st, s);
      RunKeepsValid(c, st, s);
      NextIsLater(c, st, s);
      StillPrecede(c, st, s);
      ColdLoopIsExact(c, p.RunStep(st, s));
    }
  }

  lemma StillPrecede(c: Context, st: Advice, s: StepId)
    requires Proper(c, st) && Advisor(c.engine).WellOrdered() && Advisor(c.engine).Loadable(st, s)
    requires AllPresentPrecede(st) && Runnable(st, s) && NothingRunnableUpTo(Advisor(c.engine).RunStep(st, s), s)
    ensures AllPresentPrecede(Advisor(c.engine).RunStep(st, s))
  {
    hide Advisor, Runnable, Index;
    Advisor(c.engine).RunStepShape(st, s);
  }

  /**
   A turn that starts with no results and asks for no particular step ends with an exact cache, whatever the facts:
   every result is up to date and what its engine would answer now, and once nothing is asked each is what a
   from-scratch evaluation gives.
   */
  lemma ColdTurnIsExact(c: Context, f: Facts, s: StepId)
    requires f.Valid()
    ensures Proper(c, Session(f, map[]))
    ensures var p, st := Advisor(c.engine), TurnOf(c, Session(f, map[]), f, None);
            && p.Known(st) && Exact(p, st)
            && (s in st.artifacts && p.NothingAsked(st.inputs) ==>
                  && p.Loadable(st, s) && st.artifacts[s].payload == p.Answer(st, s)
                  && st.artifacts[s].payload == p.Value(st.inputs, st.artifacts.Keys, s))
  {
    hide Advisor, Decide, Runnable, Loop;
    var p := Advisor(c.engine);
    var empty: Advice := Session(f, map[]);
    EmptyIsProper(c, f);
    assert empty.(inputs := f) == empty;
    assert p.Invalidated(empty).artifacts == map[];
    ColdLoopIsExact(c, empty);
    var st := TurnOf(c, empty, f, None);
    if s in st.artifacts && p.NothingAsked(st.inputs) {
      p.FreshAgrees(st, s);
      assert p.CurrentAt(st, s);
    }
  }

  // ---- whole conversations ----

  ghost function Swept(e: Engine, st: Advice, m: C.Message): (swept: Advice)
    requires Advisor(e).Known(st)
    ensures Advisor(e).Known(swept)
  {
    hide Advisor;
    Advisor(e).Invalidated(st.(inputs := m.edited))
  }

  /** In every turn, nothing that runs loads an artifact that has gone stale since that turn's sweep. */
  ghost predicate ExactThroughout(e: Engine, st: Advice, messages: seq<C.Message>)
    requires Advisor(e).Known(st)
    decreases |messages|
  {
    hide Advisor, Loop, EveryLoadFresh;
    messages == [] ||
    (var m := messages[0];
     var c := Context(e, m.maxRadius, m.mode, m.fails, (t, st) => false);
     ProperIsKnown(c, st);
     ProperIsKnown(c, Swept(e, st, m));
     C.TurnIsKnown(c, st, m.edited, m.requested);
     && m.edited.Valid()
     && EveryLoadFresh(c, Swept(e, st, m), m.requested)
     && ExactThroughout(e, TurnOf(c, st, m.edited, m.requested), messages[1..]))
  }

  lemma {:induction false} ExactConversationIsSound(e: Engine, st: Advice, messages: seq<C.Message>)
    requires Advisor(e).Known(st) && Advisor(e).Sound(st) && ExactThroughout(e, st, messages)
    ensures Advisor(e).Sound(C.Converse(e, st, messages))
    decreases |messages|
  {
    hide Advisor, Loop, EveryLoadFresh;
    if messages != [] {
      var m := messages[0];
      var c := Context(e, m.maxRadius, m.mode, m.fails, (t, st) => false);
      var p := Advisor(e);
      ProperIsKnown(c, Swept(e, st, m));
      p.EditKeepsSound(st, m.edited);
      p.InvalidateKeepsSound(st.(inputs := m.edited));
      TurnIsExactWhenLoadsAreFresh(c, Swept(e, st, m), m.requested);
      ExactConversationIsSound(e, TurnOf(c, st, m.edited, m.requested), messages[1..]);
    }
  }

  /**
   After any such conversation, whatever is edited next, each result the sweep keeps is its engine's answer on what was
   seen when it ran and what would be loaded now: the answer now if its runner would read the same, and the
   from-scratch value if every kept runner would.
   */
  lemma ConversationAgrees(e: Engine, f: Facts, messages: seq<C.Message>, edited: Facts, s: StepId)
    requires Advisor(e).Known(Session(f, map[])) && ExactThroughout(e, Session(f, map[]), messages)
    ensures var p := Advisor(e);
            var st := C.Converse(e, Session(f, map[]), messages).(inputs := edited);
            && p.Known(st)
            && (s in p.Invalidated(st).artifacts ==> p.Agrees(p.Invalidated(st), s))
  {
    hide Advisor, ExactThroughout;
    var p := Advisor(e);
    ExactConversationIsSound(e, Session(f, map[]), messages);
    var after := C.Converse(e, Session(f, map[]), messages);
    p.EditKeepsSound(after, edited);
    var st := after.(inputs := edited);
    p.InvalidateKeepsSound(st);
    p.OnePassLeavesNothingStale(st);
    if s in p.Invalidated(st).artifacts { p.FreshAgrees(p.Invalidated(st), s); }
  }

  // ---- finished conversations ----

  /** Stopped with both structural facts known and discovery not failed: there is nothing left to run. */
  ghost predicate Finished(st: Advice) {
    Opened(st.inputs) && DiscoverFailure(st).None? && forall t :: !Runnable(st, t)
  }

  lemma FinishedIsComplete(e: Engine, st: Advice)
    requires Finished(st) && Exact(Advisor(e), st) && Advisor(e).NothingAsked(st.inputs)
    ensures Advisor(e).Complete(st)
  {
    hide Advisor, Runnable;
    FinishedHasAll(e, st);
  }

  lemma FinishedHasAll(e: Engine, st: Advice)
    requires Finished(st)
    ensures st.artifacts.Keys == Advisor(e).AllSteps()
  {
    hide Runnable;
    forall t ensures t in st.artifacts && t in Advisor(e).AllSteps() {
      NothingRunnableMeansDone(st, t);
      EveryStepIsListed(t);
    }
  }
}
