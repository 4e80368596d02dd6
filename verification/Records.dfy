/**
 What the records of a conversation say about the session fields their steps read. Of everything a runner takes from the
 session without declaring it, all but two things can be told from the fingerprint it was recorded under.
 */
module Records {
  import opened Wrappers
  import opened SessionModels
  import opened Workflow
  import opened CoreSteps
  import opened Artifacts
  import opened Planner
  import opened Turn
  import opened Dialogue
  import C = Containment
  import D = Deltas

  /** The resolver is the only source of the session's category and subtypes. */
  ghost predicate Rooted(st: Advice) {
    ResolveProposed in st.artifacts ==>
      var x := st.artifacts[ResolveProposed].payload;
      st.inputs.category == CategoryOf(x) && st.inputs.subtypes == x.subtypes
  }

  predicate LooksAtResolved(s: StepId) {
    LooksAtCategory(s) || s == BuildPlan
  }

  /** What was seen of the resolver's fields is what the resolver recorded. */
  ghost predicate SawResolved(st: Advice, t: StepId)
    requires t in st.artifacts
  {
    var seen := st.artifacts[t].seen.undeclared;
    LooksAtResolved(t) ==>
      && ResolveProposed in st.artifacts
      && var x := st.artifacts[ResolveProposed].payload;
         && (LooksAtCategory(t) ==> seen.category == Some(CategoryOf(x)))
         && (t == BuildPlan ==> seen.subtypes == Some(x.subtypes))
  }

  /** What was seen of slots is what the fingerprints a record is built over say of them. */
  ghost predicate SawSlots(st: Advice, t: StepId)
    requires t in st.artifacts
  {
    var seen, f := st.artifacts[t].seen.undeclared, st.artifacts[t].fingerprint;
    match t
    case BuildPlan => |f.required| == 1 && seen.slots == f.required[0].own.slots
    case BindPlan => |f.required| == 2 && |f.required[0].own.slots| == 11 && seen.slots == [f.required[0].own.slots[7]]
    case _ => seen.slots == []
  }

  /** A record has just the undeclared parts that its step reads. */
  ghost predicate SawItsOwn(st: Advice, t: StepId)
    requires t in st.artifacts
  {
    var seen := st.artifacts[t].seen.undeclared;
    && (seen.assets.Some? <==> t == BuildPlan) && (seen.experience.Some? <==> t == BuildPlan)
    && (seen.subtypes.Some? <==> t == BuildPlan) && (seen.category.Some? <==> LooksAtCategory(t))
  }

  /** What was seen of the declared inputs is what the record declares, and its write left what it declares. */
  ghost predicate SawDeclared(e: Engine, st: Advice, t: StepId)
    requires t in st.artifacts
  {
    var a := st.artifacts[t];
    var o := a.fingerprint.own;
    && (!HasQuestion(o) ==> a.seen.declared == Covered(e, t, o))
    && (t == ResolveProposed && !HasQuestion(o) ==> a.payload.resolved || a.payload.choices == [])
    && (t == Discover && !HasQuestion(o) ==> a.payload.status != LocationAmbiguous)
    && (t == Discover || t == DemandEvidence ==> |o.slots| == 2 && o.slots[1].state != Missing)
  }

  ghost predicate Recorded(e: Engine, st: Advice, t: StepId)
    requires t in st.artifacts
  {
    SawResolved(st, t) && SawSlots(st, t) && SawItsOwn(st, t) && SawDeclared(e, st, t)
  }

  ghost predicate AllRecorded(e: Engine, st: Advice) {
    forall t {:trigger Recorded(e, st, t)} :: t in st.artifacts ==> Recorded(e, st, t)
  }

  // ---- running a step ----

  /** A record names, for each step its fingerprint reads, what that step declared when it ran. */
  lemma RecordNamesDeclared(e: Engine, st: Advice, s: StepId)
    requires Advisor(e).Known(st) && Advisor(e).Ready(st, s) && Advisor(e).Loadable(st, s)
    ensures var f := Advisor(e).RunStep(st, s).artifacts[s].fingerprint;
            && |f.required| == |FingerprintUpstream(s)|
            && forall k :: 0 <= k < |f.required| ==> f.required[k].own == OwnInputs(e, FingerprintUpstream(s)[k], st.inputs)
  {
    hide Advisor, OwnInputs, FingerprintUpstream;
    var p := Advisor(e);
    AdvisorWritesForward(e);
    p.RecordedOver(st, s);
    AdvisorParts(e);
    FreshNamesDeclared(e, st, s);
  }

  lemma FreshNamesDeclared(e: Engine, st: Advice, s: StepId)
    requires Advisor(e).Known(st) && s in Advisor(e).order
    ensures var fs := Advisor(e).FreshRequired(st.inputs, st.artifacts.Keys, s);
            && |fs| == |FingerprintUpstream(s)|
            && forall k :: 0 <= k < |fs| ==> fs[k].own == OwnInputs(e, FingerprintUpstream(s)[k], st.inputs)
  {
    hide Advisor, OwnInputs, FingerprintUpstream;
    AdvisorParts(e);
  }

  lemma RunRecordsSlots(e: Engine, st: Advice, s: StepId)
    requires Advisor(e).Known(st) && Advisor(e).Ready(st, s) && Advisor(e).Loadable(st, s)
    ensures SawSlots(Advisor(e).RunStep(st, s), s)
  {
    hide Advisor, OwnInputs, Covered, Write, Repr;
    RecordNamesDeclared(e, st, s);
    Advisor(e).RunStepShape(st, s);
    AdvisorReads(e);
    PlanUpstream();
    if s == BuildPlan {
      PlanSlotsBehind(e, st.inputs);
    } else if s == BindPlan {
      BindSlotsBehind(e, st.inputs);
    }
  }

  lemma PlanUpstream()
    ensures FingerprintUpstream(BuildPlan) == [ResolveProposed]
    ensures FingerprintUpstream(BindPlan) == [BuildPlan, FinanceKnowledge]
  {
  }

  lemma PlanSlotsBehind(e: Engine, f: Facts)
    ensures UndeclaredReads(BuildPlan, f).slots == OwnInputs(e, ResolveProposed, f).slots
  {
    hide Repr;
  }

  lemma BindSlotsBehind(e: Engine, f: Facts)
    ensures |OwnInputs(e, BuildPlan, f).slots| == 11
    ensures UndeclaredReads(BindPlan, f).slots == [OwnInputs(e, BuildPlan, f).slots[7]]
  {
    hide Repr;
  }

  lemma RunRecordsOwn(e: Engine, st: Advice, s: StepId)
    requires Advisor(e).Known(st) && Advisor(e).Loadable(st, s)
    ensures SawItsOwn(Advisor(e).RunStep(st, s), s)
  {
    hide Advisor, OwnInputs, Covered, Write;
    Advisor(e).RunStepShape(st, s);
    AdvisorReads(e);
  }

  lemma ResolvedIsThere(e: Engine, st: Advice, s: StepId)
    requires forall d :: d in RequiredSteps(s) ==> d in st.artifacts
    requires AllRecorded(e, st) && LooksAtResolved(s)
    ensures ResolveProposed in st.artifacts
  {
    hide Covered, SawSlots, SawItsOwn, SawDeclared;
    if s == Opportunity {
      assert OpportunityEvidence in RequiredSteps(s) && Recorded(e, st, OpportunityEvidence);
    } else {
      assert ResolveProposed in RequiredSteps(s);
    }
  }

  lemma RunRecordsResolved(e: Engine, st: Advice, s: StepId)
    requires Advisor(e).Known(st) && Advisor(e).Ready(st, s) && Advisor(e).Loadable(st, s)
    requires AllRecorded(e, st) && Rooted(st)
    ensures SawResolved(Advisor(e).RunStep(st, s), s)
  {
    hide Advisor, OwnInputs, Covered, Write, RequiredSteps, AllRecorded, LooksAtCategory, Repr;
    AdvisorParts(e);
    AdvisorReads(e);
    Advisor(e).RunStepShape(st, s);
    ResolverIsNotReader();
    if LooksAtResolved(s) { ResolvedIsThere(e, st, s); }
  }

  lemma ResolverIsNotReader()
    ensures !LooksAtResolved(ResolveProposed)
  {
  }

  lemma RunRecordsDeclared(e: Engine, st: Advice, s: StepId)
    requires Advisor(e).Known(st) && Advisor(e).Ready(st, s) && Advisor(e).Loadable(st, s)
    requires s == DemandEvidence ==> st.inputs.State(RadiusM) != Missing
    ensures SawDeclared(e, Advisor(e).RunStep(st, s), s)
  {
    hide Advisor, Takes, Covered, OwnInputs, Write, HasQuestion;
    var p, after := Advisor(e), Advisor(e).RunStep(st, s);
    AdvisorParts(e);
    AdvisorReads(e);
    p.RunStepShape(st, s);
    var x := p.Answer(st, s);
    var o := OwnInputs(e, s, Write(e, s, st.inputs, x));
    assert after.artifacts[s].fingerprint.own == o;
    assert after.artifacts[s].seen == Read(e, s, st.inputs);
    if !HasQuestion(o) {
      WriteSettles(e, s, st.inputs, x);
      DeclaredCoversTaken(e, s, Write(e, s, st.inputs, x));
    }
    WriteLeaves(e, s, st.inputs, x);
  }

  lemma WriteLeaves(e: Engine, s: StepId, f: Facts, x: Payload)
    requires s == DemandEvidence ==> f.State(RadiusM) != Missing
    ensures var o := OwnInputs(e, s, Write(e, s, f, x));
            && (s == ResolveProposed && !HasQuestion(o) ==> x.resolved || x.choices == [])
            && (s == Discover && !HasQuestion(o) ==> x.status != LocationAmbiguous)
            && (s == Discover || s == DemandEvidence ==> |o.slots| == 2 && o.slots[1].state != Missing)
  {
    var g := Write(e, s, f, x);
    var o := OwnInputs(e, s, g);
    if s == ResolveProposed {
      assert o.slots[0].state == g.State(ProposedBusinessText);
    } else if s == Discover {
      assert o.slots[0].state == g.State(LocationText) && o.slots[1].state == g.State(RadiusM);
    }
  }

  lemma OthersStayRecorded(e: Engine, st: Advice, s: StepId, t: StepId)
    requires Advisor(e).Known(st) && Advisor(e).Loadable(st, s) && s !in st.artifacts
    requires t in st.artifacts && Recorded(e, st, t)
    ensures Recorded(e, Advisor(e).RunStep(st, s), t)
  {
    hide Advisor, Covered, LooksAtCategory;
    Advisor(e).RunStepShape(st, s);
  }

  lemma RunStaysRooted(e: Engine, st: Advice, s: StepId)
    requires Advisor(e).Known(st) && Advisor(e).Loadable(st, s) && s !in st.artifacts && Rooted(st)
    ensures Rooted(Advisor(e).RunStep(st, s))
  {
    hide Advisor;
    AdvisorParts(e);
    Advisor(e).RunStepShape(st, s);
    WriteResolves(e, s, st.inputs, Advisor(e).Answer(st, s));
  }

  lemma WriteResolves(e: Engine, s: StepId, f: Facts, x: Payload)
    ensures var g := Write(e, s, f, x);
            && (s == ResolveProposed ==> g.category == CategoryOf(x) && g.subtypes == x.subtypes)
            && (s != ResolveProposed ==> g.category == f.category && g.subtypes == f.subtypes)
  {
  }

  /** Demand evidence is acquired beside an up-to-date discovery, which has settled the radius. */
  lemma RadiusIsSettled(e: Engine, st: Advice)
    requires C.Swept(e, st) && AllRecorded(e, st) && Discover in st.artifacts
    ensures st.inputs.State(RadiusM) != Missing
  {
    hide Advisor, Covered;
    AdvisorParts(e);
    assert Advisor(e).IsFresh(st, Discover) && Recorded(e, st, Discover);
    assert OwnInputs(e, Discover, st.inputs).slots[1].state == st.inputs.State(RadiusM);
  }

  lemma RunStaysRecorded(e: Engine, st: Advice, s: StepId)
    requires C.Swept(e, st) && AllRecorded(e, st) && Rooted(st) && Runnable(st, s)
    ensures Advisor(e).Known(st) && Advisor(e).Loadable(st, s)
    ensures AllRecorded(e, Advisor(e).RunStep(st, s)) && Rooted(Advisor(e).RunStep(st, s))
  {
    hide Advisor, Runnable, Recorded, SawResolved, SawSlots, SawItsOwn, SawDeclared, Rooted, C.CORE, RequiredSteps;
    C.RunKeeps(e, st, s);
    RunnableIsReady(Context(e, 0, Developer, t => false, (t, st) => false), st, s);
    Advisor(e).RunStepShape(st, s);
    ReadyIsNew(e, st, s);
    RunStaysRooted(e, st, s);
    forall t | t in st.artifacts ensures Recorded(e, Advisor(e).RunStep(st, s), t) { OthersStayRecorded(e, st, s, t); }
    if s == DemandEvidence {
      RadiusIsSettled(e, st);
    }
    RunRecordsResolved(e, st, s);
    RunRecordsSlots(e, st, s);
    RunRecordsOwn(e, st, s);
    RunRecordsDeclared(e, st, s);
    MakesRecorded(e, Advisor(e).RunStep(st, s), s);
  }

  lemma MakesRecorded(e: Engine, st: Advice, t: StepId)
    requires t in st.artifacts && SawResolved(st, t) && SawSlots(st, t) && SawItsOwn(st, t) && SawDeclared(e, st, t)
    ensures Recorded(e, st, t)
  {
    hide SawResolved, SawSlots, SawItsOwn, SawDeclared;
  }

  lemma ReadyIsNew(e: Engine, st: Advice, s: StepId)
    requires Advisor(e).Ready(st, s)
    ensures s !in st.artifacts && (s == DemandEvidence ==> Discover in st.artifacts)
  {
    assert Discover in RequiredSteps(DemandEvidence);
  }

  // ---- whole conversations ----

  /** Between turns. */
  ghost predicate Consistent(e: Engine, st: Advice) {
    C.Kept(e, st) && AllRecorded(e, st) && Rooted(st)
  }

  lemma ResolvedIsRead(e: Engine, t: StepId)
    requires LooksAtResolved(t)
    ensures Advisor(e).WellOrdered() && t in Advisor(e).order && Reads(Advisor(e), t, ResolveProposed)
  {
    hide *;
    AdvisorIsWellOrdered(e);
    AdvisorParts(e);
    EveryStepIsListed(t);
    ResolvedIsUpstream(t);
    if t == Opportunity {
      EveryStepIsListed(OpportunityEvidence);
      C.ReadsOn(e, OpportunityEvidence, ResolveProposed, ResolveProposed);
      C.ReadsOn(e, t, OpportunityEvidence, ResolveProposed);
    } else {
      C.ReadsOn(e, t, ResolveProposed, ResolveProposed);
    }
  }

  lemma ResolvedIsUpstream(t: StepId)
    requires LooksAtResolved(t)
    ensures t != Opportunity ==> ResolveProposed in FingerprintUpstream(t)
    ensures ResolveProposed in FingerprintUpstream(OpportunityEvidence)
    ensures OpportunityEvidence in FingerprintUpstream(Opportunity)
  {
  }

  lemma AnchoredHasResolved(e: Engine, st: Advice, t: StepId)
    requires C.Kept(e, st) && t in st.artifacts && LooksAtResolved(t)
    ensures ResolveProposed in st.artifacts
  {
    hide Advisor, Reads, C.Contained, LooksAtResolved;
    ResolvedIsRead(e, t);
    assert ResolveProposed in C.CORE;
  }

  lemma SweepStaysRecorded(e: Engine, st: Advice, edited: Facts)
    requires Consistent(e, st) && edited.category == st.inputs.category && edited.subtypes == st.inputs.subtypes
    ensures Advisor(e).Known(st.(inputs := edited))
    ensures var swept := Advisor(e).Invalidated(st.(inputs := edited));
            C.Swept(e, swept) && AllRecorded(e, swept) && Rooted(swept)
  {
    hide Advisor, C.Kept, C.Contained, Anchored, CoreFresh, LooksAtResolved, Covered;
    C.SweepKeeps(e, st, edited);
    SweptIsKept(e, Advisor(e).Invalidated(st.(inputs := edited)));
    var swept := Advisor(e).Invalidated(st.(inputs := edited));
    forall t | t in swept.artifacts ensures Recorded(e, swept, t) {
      assert Recorded(e, st, t);
      if LooksAtResolved(t) { AnchoredHasResolved(e, swept, t); }
    }
  }

  lemma SweptIsKept(e: Engine, st: Advice)
    requires C.Swept(e, st)
    ensures C.Kept(e, st)
  {
  }

  lemma {:induction false} LoopStaysRecorded(c: Context, st: Advice, requested: Option<StepId>)
    requires C.Swept(c.engine, st) && AllRecorded(c.engine, st) && Rooted(st)
    ensures Proper(c, st) && Consistent(c.engine, Loop(c, st, requested))
    decreases ALL_STEPS - st.artifacts.Keys
  {
    hide Advisor, Decide, Runnable, AllRecorded, Rooted, C.Swept, C.Kept;
    SweptIsKept(c.engine, st);
    KeptIsProper(c, st);
    var action := Decide(st, requested, c.maxRadius, c.mode);
    if action.RunNext? && !c.fails(action.step) {
      StepIsNew(c, st, requested);
      RunStaysRecorded(c.engine, st, action.step);
      C.RunKeeps(c.engine, st, action.step);
      LoopStaysRecorded(c, Advisor(c.engine).RunStep(st, action.step), None);
    }
  }

  lemma KeptIsProper(c: Context, st: Advice)
    requires C.Kept(c.engine, st)
    ensures Proper(c, st) && Advisor(c.engine).Known(st)
  {
    hide Advisor, C.CORE, C.Contained;
  }

  lemma HeardKeepsResolved(number: Number, f: Facts, m: Said)
    ensures Heard(number, f, m).category == f.category && Heard(number, f, m).subtypes == f.subtypes
  {
    hide D.Stated, D.Declines, D.PutAll, D.AssetsAfter, D.ExperienceAfter, D.ChoiceMade;
    var turn := f.turn + 1;
    D.PutTouchesSlotsOnly(f, D.Stated(number, m.understood.slotUpdates, turn) + D.Declines(m.understood.declinedSlots, turn));
    var g := D.Edited(number, f, m.understood, turn);
    D.PutTouchesSlotsOnly(g.(candidate := if m.understood.selectedChoice.Some? then m.understood.selectedChoice else g.candidate),
                          D.ChoiceMade(number, g, m.understood, turn));
  }

  lemma SweptByIsRecorded(number: Number, e: Engine, st: Advice, m: Said)
    requires Advisor(e).Known(st) && Consistent(e, st)
    ensures var swept := SweptBy(number, e, st, m);
            C.Swept(e, swept) && AllRecorded(e, swept) && Rooted(swept)
  {
    hide Advisor, Consistent, AllRecorded, Rooted, Heard;
    HeardKeepsResolved(number, st.inputs, m);
    SweepStaysRecorded(e, st, Heard(number, st.inputs, m));
  }

  lemma ReplyIsConsistent(number: Number, e: Engine, st: Advice, m: Said)
    requires Advisor(e).Known(st) && Consistent(e, st)
    ensures Consistent(e, Reply(number, e, st, m))
  {
    hide Advisor, Consistent, Loop, SweptBy, Lost, AllRecorded, Rooted;
    SweptByIsRecorded(number, e, st, m);
    LoopStaysRecorded(Circumstances(e, m), SweptBy(number, e, st, m), m.requested);
  }

  lemma {:induction false} TalkIsConsistent(number: Number, e: Engine, st: Advice, said: seq<Said>)
    requires Advisor(e).Known(st) && Consistent(e, st)
    ensures Consistent(e, Talk(number, e, st, said))
    decreases |said|
  {
    hide Advisor, Consistent, Reply;
    if said != [] {
      ReplyIsConsistent(number, e, st, said[0]);
      TalkIsConsistent(number, e, Reply(number, e, st, said[0]), said[1..]);
    }
  }

  lemma FirstIsConsistent(e: Engine)
    ensures Consistent(e, FirstSession(e))
  {
    hide Advisor, C.Kept;
    C.StartIsKept(e, BLANK);
  }

  // ---- what can be told, and what cannot ----

  /** The two sets that `BUILD_PLAN` copies are as it saw them. */
  ghost predicate ProfileStands(st: Advice) {
    BuildPlan in st.artifacts ==>
      && st.artifacts[BuildPlan].seen.undeclared.assets == Some(st.inputs.assets.current.items)
      && st.artifacts[BuildPlan].seen.undeclared.experience == Some(st.inputs.experience.current.items)
  }

  /**
   In any conversation: the runner of an up-to-date result would take the same from the session now as it did, and for
   `BUILD_PLAN` that is so exactly when the asset and experience sets are those it saw.
   */
  lemma SeenIsCurrent(e: Engine, st: Advice, t: StepId)
    requires Advisor(e).Known(st) && Consistent(e, st) && t in st.artifacts && Advisor(e).IsFresh(st, t)
    requires !HasQuestion(OwnInputs(e, t, st.inputs))
    ensures st.artifacts[t].seen == Read(e, t, st.inputs) <==> (t == BuildPlan ==> ProfileStands(st))
  {
    hide Advisor, C.Kept, Covered, OwnInputs, Takes;
    assert Recorded(e, st, t);
    DeclaredCoversTaken(e, t, st.inputs);
    AdvisorParts(e);
    SeenSlotsStand(e, st, t);
    var a := st.artifacts[t];
    assert a.fingerprint.own == OwnInputs(e, t, st.inputs);
    assert a.seen.declared == Read(e, t, st.inputs).declared;
  }

  lemma SeenSlotsStand(e: Engine, st: Advice, t: StepId)
    requires Advisor(e).Known(st) && t in st.artifacts && Advisor(e).IsFresh(st, t) && SawSlots(st, t)
    ensures st.artifacts[t].seen.undeclared.slots == UndeclaredReads(t, st.inputs).slots
  {
    hide Advisor, OwnInputs, Repr;
    EveryStepIsListed(t);
    AdvisorParts(e);
    FreshNamesDeclared(e, st, t);
    PlanUpstream();
    assert st.artifacts[t].fingerprint.required == Advisor(e).FreshRequired(st.inputs, st.artifacts.Keys, t);
    if t == BuildPlan {
      PlanSlotsBehind(e, st.inputs);
    } else if t == BindPlan {
      BindSlotsBehind(e, st.inputs);
    }
  }

  /** So of everything a session holds, only the plan can have been made from something else than would be read now. */
  lemma CurrentExactlyWhenProfileStands(e: Engine, st: Advice)
    requires Advisor(e).Known(st) && Consistent(e, st) && Advisor(e).AllFresh(st) && Advisor(e).NothingAsked(st.inputs)
    ensures Advisor(e).AllCurrent(st) <==> ProfileStands(st)
  {
    hide Advisor, Consistent, ProfileStands, Read, OwnInputs, HasQuestion;
    var p := Advisor(e);
    AdvisorParts(e);
    AdvisorReads(e);
    forall t | t in st.artifacts ensures p.CurrentAt(st, t) <==> (t == BuildPlan ==> ProfileStands(st)) {
      EveryStepIsListed(t);
      assert p.IsFresh(st, t) && !p.asks(p.own(t, st.inputs));
      SeenIsCurrent(e, st, t);
    }
    if BuildPlan !in st.artifacts { NoPlanStands(st); }
    if p.AllCurrent(st) && BuildPlan in st.artifacts { assert p.CurrentAt(st, BuildPlan); }
  }

  lemma NoPlanStands(st: Advice)
    requires BuildPlan !in st.artifacts
    ensures ProfileStands(st)
  {
  }
}
