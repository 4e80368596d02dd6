/** Whole conversations and their results: when they are exact, what is kept, and how they end. */
module Agreement {
  import opened Wrappers
  import opened SessionModels
  import opened Workflow
  import opened Artifacts
  import opened Planner
  import opened Turn
  import opened Raising
  import opened Dialogue
  import opened Exactness
  import opened Foresight
  import opened Records
  import C = Containment
  import D = Deltas

  /** Between turns of an exact conversation. */
  ghost predicate InOrder(number: Number, e: Engine, st: Advice) {
    Advisor(e).Known(st) && Advisor(e).Sound(st) && Consistent(e, st) && Sincere(number, st.inputs)
  }

  lemma InOrderParts(number: Number, e: Engine, st: Advice)
    requires InOrder(number, e, st)
    ensures Advisor(e).Known(st) && Advisor(e).Sound(st) && Consistent(e, st) && Sincere(number, st.inputs)
  {
    hide Advisor, Consistent, Sincere;
  }

  /** The sweep that opens a turn leaves a session that everything said about turns applies to. */
  lemma SweptByIsOpening(number: Number, e: Engine, st: Advice, m: Said)
    requires InOrder(number, e, st)
    ensures Advisor(e).Known(st)
    ensures var swept := SweptBy(number, e, st, m);
            Advisor(e).Known(swept) && Opening(e, swept) && C.Swept(e, swept) && AllRecorded(e, swept) && Rooted(swept)
  {
    hide *;
    InOrderParts(number, e, st);
    SweptByShape(number, e, st, m);
    HeardIsValid(number, st.inputs, m);
    var heard := st.(inputs := Heard(number, st.inputs, m));
    Advisor(e).EditKeepsSound(st, Heard(number, st.inputs, m));
    Advisor(e).InvalidateKeepsSound(heard);
    SoundIsEmbedded(e, heard);
    Advisor(e).OnePassLeavesNothingStale(heard);
    SweptByIsRecorded(number, e, st, m);
    RadiusIsKept(e, SweptBy(number, e, st, m));
    MakesOpening(e, SweptBy(number, e, st, m));
  }

  lemma SweptByShape(number: Number, e: Engine, st: Advice, m: Said)
    requires Advisor(e).Known(st)
    ensures Advisor(e).Known(st.(inputs := Heard(number, st.inputs, m)))
    ensures SweptBy(number, e, st, m) == Advisor(e).Invalidated(st.(inputs := Heard(number, st.inputs, m)))
    ensures SweptBy(number, e, st, m).inputs == Heard(number, st.inputs, m)
    ensures Advisor(e).Known(SweptBy(number, e, st, m)) && Proper(Circumstances(e, m), SweptBy(number, e, st, m))
  {
    hide Advisor, Heard;
    ProperIsKnown(Circumstances(e, m), SweptBy(number, e, st, m));
  }

  lemma SoundIsEmbedded(e: Engine, st: Advice)
    requires Advisor(e).Sound(st)
    ensures Advisor(e).Embedded(st)
  {
    hide Advisor;
  }

  lemma MakesOpening(e: Engine, st: Advice)
    requires Advisor(e).Known(st) && Advisor(e).Sound(st) && Advisor(e).AllFresh(st) && Searched(st) && st.inputs.Valid()
    ensures Opening(e, st)
  {
    hide Advisor, Searched;
  }

  lemma RadiusIsKept(e: Engine, st: Advice)
    requires Advisor(e).Known(st) && Advisor(e).AllFresh(st) && AllRecorded(e, st)
    ensures Searched(st)
  {
    hide Advisor, Covered;
    AdvisorParts(e);
    if DemandEvidence in st.artifacts {
      assert Recorded(e, st, DemandEvidence) && Advisor(e).IsFresh(st, DemandEvidence);
      DemandDeclaresRadius(e, st.inputs);
    }
    if Discover in st.artifacts {
      assert Recorded(e, st, Discover) && Advisor(e).IsFresh(st, Discover);
      DiscoverDeclaresRadius(e, st.inputs);
    }
  }

  // ---- exact conversations ----

  /** The turn saves nothing, or nothing it runs loads a result that went stale since its sweep. */
  ghost predicate ExactReply(number: Number, e: Engine, st: Advice, m: Said)
    requires Advisor(e).Known(st)
  {
    Lost(number, e, st, m) || EveryLoadFresh(Circumstances(e, m), SweptBy(number, e, st, m), m.requested)
  }

  ghost predicate ExactTalk(number: Number, e: Engine, st: Advice, said: seq<Said>)
    requires Advisor(e).Known(st)
    decreases |said|
  {
    hide Advisor, Reply, ExactReply;
    said == [] || (ExactReply(number, e, st, said[0]) && ExactTalk(number, e, Reply(number, e, st, said[0]), said[1..]))
  }

  lemma ReplyIsInOrder(number: Number, e: Engine, st: Advice, m: Said)
    requires InOrder(number, e, st) && Advisor(e).Known(st) && ExactReply(number, e, st, m)
    ensures InOrder(number, e, Reply(number, e, st, m))
  {
    hide Advisor, Loop, EveryLoadFresh, Consistent, Sincere, SweptBy, Lost, Opening, C.Swept, AllRecorded, Rooted;
    var c, swept := Circumstances(e, m), SweptBy(number, e, st, m);
    ReplyContinues(number, e, st, m);
    ReplyIsConsistent(number, e, st, m);
    if !Lost(number, e, st, m) {
      SweptByIsOpening(number, e, st, m);
      OpeningParts(e, swept);
      TurnIsExactWhenLoadsAreFresh(c, swept, m.requested);
    }
  }

  lemma {:induction false} ExactTalkIsInOrder(number: Number, e: Engine, st: Advice, said: seq<Said>)
    requires InOrder(number, e, st) && Advisor(e).Known(st) && ExactTalk(number, e, st, said)
    ensures InOrder(number, e, Talk(number, e, st, said))
    decreases |said|
  {
    hide Advisor, InOrder, Reply, ExactReply;
    if said != [] {
      ReplyIsInOrder(number, e, st, said[0]);
      ExactTalkIsInOrder(number, e, Reply(number, e, st, said[0]), said[1..]);
    }
  }

  lemma FirstIsInOrder(number: Number, e: Engine)
    ensures InOrder(number, e, FirstSession(e))
  {
    hide Advisor, C.Kept, Consistent, Sincere;
    FirstIsConsistent(e);
    BlankIsSincere(number);
    EmptyIsSound(e);
  }

  lemma EmptyIsSound(e: Engine)
    ensures Advisor(e).Sound(FirstSession(e))
  {
    hide Advisor;
  }

  /** Before the turn: no step still to run, after the requested one, would load a result that rests on a gap. */
  ghost predicate Foreseen(number: Number, e: Engine, st: Advice, m: Said)
    requires Advisor(e).Known(st)
  {
    var swept := SweptBy(number, e, st, m);
    LoadsNoGap(swept.artifacts.Keys, FirstOf(swept, m.requested))
  }

  lemma ForeseenIsExact(number: Number, e: Engine, st: Advice, m: Said)
    requires InOrder(number, e, st) && Advisor(e).Known(st) && Foreseen(number, e, st, m)
    ensures ExactReply(number, e, st, m)
  {
    hide Advisor, EveryLoadFresh, SweptBy, Lost, InOrder, LoadsNoGap, C.Swept, AllRecorded, Rooted, Opening, FirstOf;
    SweptByIsOpening(number, e, st, m);
    TurnLoadsNothingStale(Circumstances(e, m), SweptBy(number, e, st, m), m.requested);
  }

  /** The reply has a result for every step and leaves no choice pending. */
  ghost predicate Completes(number: Number, e: Engine, st: Advice, m: Said)
    requires Advisor(e).Known(st)
  {
    (forall t :: t in Reply(number, e, st, m).artifacts) && Unasked(Reply(number, e, st, m).inputs)
  }

  lemma CompletesRunsEverything(number: Number, e: Engine, st: Advice, m: Said)
    requires Advisor(e).Known(st) && Completes(number, e, st, m) && !Lost(number, e, st, m)
    ensures RunsEverything(Circumstances(e, m), SweptBy(number, e, st, m), m.requested)
    ensures Reply(number, e, st, m) == Loop(Circumstances(e, m), SweptBy(number, e, st, m), m.requested)
  {
    hide Advisor, Loop, SweptBy, Lost, Unasked;
  }

  /**
   Told before the turn from the steps that are present: a message whose turn runs everything leaves an exact conversation
   exact if and only if no step still to run, after the requested one, would load a result that rests on a gap.
   */
  lemma ReplyIsExactExactlyWhenForeseen(number: Number, e: Engine, st: Advice, m: Said)
    requires InOrder(number, e, st) && Advisor(e).Known(st)
    requires !Lost(number, e, st, m) && Completes(number, e, st, m)
    ensures Advisor(e).Sound(Reply(number, e, st, m)) <==> Foreseen(number, e, st, m)
  {
    hide *;
    EngineOf(e, m);
    SweptByIsOpening(number, e, st, m);
    CompletesRunsEverything(number, e, st, m);
    ForeseenMeans(number, e, st, m);
    TurnIsExactExactlyWithoutGaps(Circumstances(e, m), SweptBy(number, e, st, m), m.requested);
  }

  lemma ForeseenMeans(number: Number, e: Engine, st: Advice, m: Said)
    requires Advisor(e).Known(st)
    ensures var swept := SweptBy(number, e, st, m);
            Foreseen(number, e, st, m) <==> LoadsNoGap(swept.artifacts.Keys, FirstOf(swept, m.requested))
  {
    hide Advisor, SweptBy, LoadsNoGap, FirstOf;
  }

  /** Whatever the engines: if finances were assessed and the place was not known, the turn that completes is not exact. */
  lemma LatePlaceReplyIsInexact(number: Number, e: Engine, st: Advice, m: Said)
    requires InOrder(number, e, st) && Advisor(e).Known(st) && m.requested == None
    requires !Lost(number, e, st, m) && Completes(number, e, st, m)
    requires AssessFinance in SweptBy(number, e, st, m).artifacts && Discover !in SweptBy(number, e, st, m).artifacts
    ensures !Advisor(e).Sound(Reply(number, e, st, m)) && !Advisor(e).AllFresh(Reply(number, e, st, m))
  {
    hide *;
    EngineOf(e, m);
    SweptByIsOpening(number, e, st, m);
    CompletesRunsEverything(number, e, st, m);
    LatePlaceIsInexact(Circumstances(e, m), SweptBy(number, e, st, m));
  }

  lemma EngineOf(e: Engine, m: Said)
    ensures Circumstances(e, m).engine == e
  {
  }

  /** The business is not known, and nothing that needs it is there. */
  ghost predicate Unnamed(st: Advice) {
    !st.inputs.Satisfied(ProposedBusinessText) && st.artifacts.Keys <= {SchemeCapacity}
  }

  /**
   The message saves nothing, or leaves a choice or a contradiction pending, so that nothing runs; or no particular step
   is asked for, and either the business is still to be named, or business and place are known and discovery does not
   fail for good.
   */
  ghost predicate OpenReply(number: Number, e: Engine, st: Advice, m: Said)
    requires Advisor(e).Known(st)
  {
    Lost(number, e, st, m) || !Unstopped(Heard(number, st.inputs, m), m.maxRadius) ||
    (m.requested == None &&
     (Unnamed(SweptBy(number, e, st, m)) ||
      (Opened(Heard(number, st.inputs, m)) && DiscoverFailure(Reply(number, e, st, m)).None?)))
  }

  ghost predicate OpenTalk(number: Number, e: Engine, st: Advice, said: seq<Said>)
    requires Advisor(e).Known(st)
    decreases |said|
  {
    hide Advisor, Reply, OpenReply;
    said == [] || (OpenReply(number, e, st, said[0]) && OpenTalk(number, e, Reply(number, e, st, said[0]), said[1..]))
  }

  lemma OpenReplyIsGapless(number: Number, e: Engine, st: Advice, m: Said)
    requires InOrder(number, e, st) && Advisor(e).Known(st) && OpenReply(number, e, st, m) && Gapless(st.artifacts.Keys)
    ensures ExactReply(number, e, st, m) && Gapless(Reply(number, e, st, m).artifacts.Keys)
  {
    hide *;
    OpenReplyParts(number, e, st, m);
    if !Lost(number, e, st, m) {
      InOrderParts(number, e, st);
      SweptByShape(number, e, st, m);
      SweptByIsOpening(number, e, st, m);
      Advisor(e).EditKeepsSound(st, Heard(number, st.inputs, m));
      SweepOpensNoGap(e, st.(inputs := Heard(number, st.inputs, m)));
      if Unstopped(Heard(number, st.inputs, m), m.maxRadius) {
        RunningReplyIsGapless(number, e, st, m);
      } else {
        HeardIsValid(number, st.inputs, m);
        StoppedReplyRunsNothing(number, e, st, m);
      }
    }
  }

  lemma RunningReplyIsGapless(number: Number, e: Engine, st: Advice, m: Said)
    requires InOrder(number, e, st) && Advisor(e).Known(st) && OpenReply(number, e, st, m) && !Lost(number, e, st, m)
    requires Unstopped(Heard(number, st.inputs, m), m.maxRadius) && Gapless(SweptBy(number, e, st, m).artifacts.Keys)
    ensures ExactReply(number, e, st, m) && Gapless(Reply(number, e, st, m).artifacts.Keys)
  {
    hide *;
    var c, swept := Circumstances(e, m), SweptBy(number, e, st, m);
    OpenReplyParts(number, e, st, m);
    SweptByShape(number, e, st, m);
    SweptByIsOpening(number, e, st, m);
    EngineOf(e, m);
    OpeningParts(e, swept);
    GaplessLoadsNoGap(e, swept);
    NoRequestNoFirst(swept);
    ForeseenMeans(number, e, st, m);
    ForeseenIsExact(number, e, st, m);
    if Unnamed(swept) {
      UnnamedStays(c, swept);
      UnnamedIsGapless(Loop(c, swept, None));
    } else {
      OpenTurnOpensNoGap(c, swept);
    }
  }

  /** With a choice or a contradiction pending the turn runs no step. */
  lemma StoppedReplyRunsNothing(number: Number, e: Engine, st: Advice, m: Said)
    requires Advisor(e).Known(st) && !Lost(number, e, st, m) && Heard(number, st.inputs, m).Valid()
    requires !Unstopped(Heard(number, st.inputs, m), m.maxRadius)
    ensures ExactReply(number, e, st, m) && Reply(number, e, st, m) == SweptBy(number, e, st, m)
  {
    hide Advisor, SweptBy, Loop, Lost, EveryLoadFresh, Heard, Unstopped, Decide;
    SweptByShape(number, e, st, m);
    var c, swept := Circumstances(e, m), SweptBy(number, e, st, m);
    if Decide(swept, m.requested, c.maxRadius, c.mode).RunNext? {
      RunIsUnstopped(c, swept, m.requested);
    } else {
      NothingRuns(c, swept, m.requested);
    }
  }

  lemma OpenReplyParts(number: Number, e: Engine, st: Advice, m: Said)
    requires Advisor(e).Known(st) && OpenReply(number, e, st, m)
    ensures if Lost(number, e, st, m) then Reply(number, e, st, m) == st && ExactReply(number, e, st, m)
            else Unstopped(Heard(number, st.inputs, m), m.maxRadius) ==>
                 && m.requested == None
                 && Reply(number, e, st, m) == Loop(Circumstances(e, m), SweptBy(number, e, st, m), None)
                 && (Unnamed(SweptBy(number, e, st, m)) ||
                     (Opened(Heard(number, st.inputs, m))
                      && DiscoverFailure(Loop(Circumstances(e, m), SweptBy(number, e, st, m), None)).None?))
  {
    hide Advisor, SweptBy, Loop, Lost, Opened, DiscoverFailure, EveryLoadFresh, Heard, Unnamed, Unstopped;
  }

  /** Before the business is named only the scheme capacity can run. */
  lemma {:induction false} UnnamedStays(c: Context, st: Advice)
    requires Proper(c, st) && Unnamed(st)
    ensures Unnamed(Loop(c, st, None))
    decreases ALL_STEPS - st.artifacts.Keys
  {
    hide Advisor, Decide, Runnable, Unnamed;
    var action := Decide(st, None, c.maxRadius, c.mode);
    if action.RunNext? && !c.fails(action.step) {
      StepIsNew(c, st, None);
      var after := Advisor(c.engine).RunStep(st, action.step);
      Advisor(c.engine).RunStepShape(st, action.step);
      AdvisorParts(c.engine);
      UnnamedRunsCapacity(st, after, action.step);
      OthersWriteNothing(c.engine, action.step, st.inputs, Advisor(c.engine).Answer(st, action.step));
      UnnamedStays(c, after);
    }
  }

  lemma UnnamedRunsCapacity(st: Advice, after: Advice, s: StepId)
    requires Unnamed(st) && Runnable(st, s) && after.artifacts.Keys == st.artifacts.Keys + {s}
    ensures s == SchemeCapacity && (after.inputs == st.inputs ==> Unnamed(after))
  {
    hide SatisfiedSlots;
    assert s == ResolveProposed ==> ProposedBusinessText !in SatisfiedSlots(st.inputs) by { NotSatisfied(st.inputs); }
    if s != ResolveProposed && s != SchemeCapacity { NeedsAnother(s); }
  }

  lemma NotSatisfied(f: Facts)
    requires !f.Satisfied(ProposedBusinessText)
    ensures ProposedBusinessText !in SatisfiedSlots(f)
  {
  }

  lemma NeedsAnother(s: StepId)
    requires s != ResolveProposed && s != SchemeCapacity
    ensures exists d :: d in RequiredSteps(s) && d != SchemeCapacity
  {
    assert RequiredSteps(s)[0] in RequiredSteps(s);
  }

  lemma UnnamedIsGapless(st: Advice)
    requires Unnamed(st)
    ensures Gapless(st.artifacts.Keys)
  {
    CapacityStandsAlone();
  }

  lemma {:induction false} OpenTalkIsExact(number: Number, e: Engine, st: Advice, said: seq<Said>)
    requires InOrder(number, e, st) && Gapless(st.artifacts.Keys)
    requires Advisor(e).Known(st) && OpenTalk(number, e, st, said)
    ensures ExactTalk(number, e, st, said) && Gapless(Talk(number, e, st, said).artifacts.Keys)
    decreases |said|
  {
    hide Advisor, InOrder, Gapless, Reply, OpenReply, ExactReply;
    if said != [] {
      OpenReplyIsGapless(number, e, st, said[0]);
      ReplyIsInOrder(number, e, st, said[0]);
      OpenTalkIsExact(number, e, Reply(number, e, st, said[0]), said[1..]);
    }
  }

  /**
   A conversation in which the place is known from the message on that names the business, that asks for no particular
   step and meets no failed discovery is exact throughout, whatever else is said, asked back, corrected or down on the way.
   */
  lemma OpenConversationIsExact(number: Number, e: Engine, said: seq<Said>)
    requires OpenTalk(number, e, FirstSession(e), said)
    ensures ExactTalk(number, e, FirstSession(e), said)
    ensures Gapless(Talk(number, e, FirstSession(e), said).artifacts.Keys)
  {
    hide *;
    FirstIsInOrder(number, e);
    FirstIsGapless(e);
    OpenTalkIsExact(number, e, FirstSession(e), said);
  }

  lemma FirstIsGapless(e: Engine)
    ensures Gapless(FirstSession(e).artifacts.Keys)
  {
  }

  // ---- what a sweep keeps ----

  /**
   After any exact conversation, whatever is said next: once nothing is asked, each result the sweep keeps is its
   engine's answer now; the plan is if the asset and experience sets are those it was made with, and then every result
   is the from-scratch value.
   */
  lemma KeptResultsAgree(number: Number, e: Engine, said: seq<Said>, m: Said, s: StepId)
    requires ExactTalk(number, e, FirstSession(e), said)
    ensures var p, swept := Advisor(e), SweptBy(number, e, Talk(number, e, FirstSession(e), said), m);
            p.Known(swept) &&
            (s in swept.artifacts && p.NothingAsked(swept.inputs) ==>
               && p.Loadable(swept, s)
               && (s != BuildPlan || ProfileStands(swept) ==> swept.artifacts[s].payload == p.Answer(swept, s))
               && (ProfileStands(swept) ==>
                     swept.artifacts[s].payload == p.Value(swept.inputs, swept.artifacts.Keys, s)))
  {
    hide *;
    var p := Advisor(e);
    FirstIsInOrder(number, e);
    ExactTalkIsInOrder(number, e, FirstSession(e), said);
    var st := Talk(number, e, FirstSession(e), said);
    InOrderParts(number, e, st);
    SweptByIsOpening(number, e, st, m);
    var swept := SweptBy(number, e, st, m);
    OpeningParts(e, swept);
    if s in swept.artifacts && p.NothingAsked(swept.inputs) {
      MakesConsistent(e, swept);
      OpeningAgrees(e, swept, s);
    }
  }

  lemma MakesConsistent(e: Engine, st: Advice)
    requires C.Swept(e, st) && AllRecorded(e, st) && Rooted(st)
    ensures Consistent(e, st)
  {
    hide AllRecorded, Rooted, C.Kept;
    SweptIsKept(e, st);
  }

  lemma OpeningAgrees(e: Engine, st: Advice, s: StepId)
    requires Advisor(e).Known(st) && Advisor(e).Sound(st) && Advisor(e).AllFresh(st) && Consistent(e, st)
    requires s in st.artifacts && Advisor(e).NothingAsked(st.inputs)
    ensures Advisor(e).Loadable(st, s)
    ensures s != BuildPlan || ProfileStands(st) ==> st.artifacts[s].payload == Advisor(e).Answer(st, s)
    ensures ProfileStands(st) ==> st.artifacts[s].payload == Advisor(e).Value(st.inputs, st.artifacts.Keys, s)
  {
    hide Advisor, Consistent, ProfileStands, OwnInputs, Read, HasQuestion;
    var p := Advisor(e);
    AdvisorParts(e);
    AdvisorReads(e);
    EveryStepIsListed(s);
    p.FreshAgrees(st, s);
    CurrentExactlyWhenProfileStands(e, st);
    assert p.IsFresh(st, s) && !p.asks(p.own(s, st.inputs));
    SeenIsCurrent(e, st, s);
  }

  /** Whatever function of its reading and its loads stands behind the plan, it gives the same on both readings. */
  ghost predicate SameForEveryEngine(r: Reading, q: Reading, us: seq<Payload>, os: seq<Option<Payload>>) {
    forall run: (StepId, Reading, seq<Payload>, seq<Option<Payload>>) -> Payload ::
      run(BuildPlan, r, us, os) == run(BuildPlan, q, us, os)
  }

  lemma SameForEveryEngineExactlyWhenEqual(r: Reading, q: Reading, us: seq<Payload>, os: seq<Option<Payload>>)
    ensures SameForEveryEngine(r, q, us, os) <==> r == q
  {
    var tells := (s: StepId, x: Reading, us: seq<Payload>, os: seq<Option<Payload>>) =>
      Payload(Ok, true, 0, [], [], if x == r then 1 else 0);
    if SameForEveryEngine(r, q, us, os) {
      assert tells(BuildPlan, r, us, os) == tells(BuildPlan, q, us, os);
    }
  }

  /** A kept plan agrees for every engine exactly when the asset and experience sets are those it was made with. */
  lemma PlanAgreesExactlyWhenProfileStands(e: Engine, st: Advice)
    requires Advisor(e).Known(st) && Advisor(e).AllFresh(st) && Consistent(e, st) && Advisor(e).NothingAsked(st.inputs)
    requires BuildPlan in st.artifacts && Advisor(e).Loadable(st, BuildPlan)
    ensures SameForEveryEngine(st.artifacts[BuildPlan].seen, Read(e, BuildPlan, st.inputs),
                               Advisor(e).LoadRequired(st, BuildPlan), Advisor(e).LoadOptional(st, BuildPlan))
       <==> ProfileStands(st)
  {
    hide Advisor, Consistent, ProfileStands, OwnInputs, Read, HasQuestion, SameForEveryEngine;
    var p := Advisor(e);
    AdvisorParts(e);
    AdvisorReads(e);
    EveryStepIsListed(BuildPlan);
    assert p.IsFresh(st, BuildPlan) && !p.asks(p.own(BuildPlan, st.inputs));
    SeenIsCurrent(e, st, BuildPlan);
    SameForEveryEngineExactlyWhenEqual(st.artifacts[BuildPlan].seen, Read(e, BuildPlan, st.inputs),
                                       p.LoadRequired(st, BuildPlan), p.LoadOptional(st, BuildPlan));
  }
}
