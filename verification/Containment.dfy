/** What a failed discovery cannot reach, over whole conversations. */
module Containment {
  import opened Wrappers
  import opened SessionModels
  import opened Workflow
  import opened StepCache
  import opened CoreSteps
  import opened Artifacts
  import opened Planner
  import opened Turn

  /** Steps that nothing can leave stale within a turn. */
  const CORE: set<StepId> := {ResolveProposed, BuildPlan, Discover, Analyze, Metrics}

  /** Steps whose results rest on the discovered competitors. */
  const MARKET_STEPS: set<StepId> := {
    Analyze, Metrics, AssessMarket, OpportunityEvidence, Opportunity, Recommend, Swot}

  // ---- who reads discovery ----

  lemma ReadsOn(e: Engine, t: StepId, u: StepId, d: StepId)
    requires Advisor(e).WellOrdered() && u in FingerprintUpstream(t) && (u == d || Reads(Advisor(e), u, d))
    ensures Reads(Advisor(e), t, d)
  {
    hide FingerprintUpstream;
    EveryStepIsListed(t);
    assert u in Advisor(e).upstream(t);
  }

  lemma {:induction false} OthersDoNotRead(e: Engine, t: StepId)
    requires Advisor(e).WellOrdered() && t !in MARKET_STEPS
    ensures !Reads(Advisor(e), t, Discover)
    decreases Index(t)
  {
    hide Index, Advisor, FingerprintUpstream;
    AdvisorParts(e);
    EveryStepIsListed(t);
    if Reads(Advisor(e), t, Discover) {
      var u :| u in Advisor(e).upstream(t) && (u == Discover || Reads(Advisor(e), u, Discover));
      OutsideMarket(t, u);
      OthersDoNotRead(e, u);
    }
  }

  lemma OutsideMarket(t: StepId, u: StepId)
    requires t !in MARKET_STEPS && u in FingerprintUpstream(t)
    ensures u != Discover && u !in MARKET_STEPS && Index(u) < Index(t)
  {
  }

  lemma MarketLink(t: StepId) returns (u: StepId)
    requires t in MARKET_STEPS
    ensures u in FingerprintUpstream(t) && (u == Discover || (u in MARKET_STEPS && Index(u) < Index(t)))
  {
    u := RequiredSteps(t)[0];
  }

  lemma {:induction false} MarketReads(e: Engine, t: StepId)
    requires Advisor(e).WellOrdered() && t in MARKET_STEPS
    ensures Reads(Advisor(e), t, Discover)
    decreases Index(t)
  {
    hide *;
    var u := MarketLink(t);
    if u != Discover { MarketReads(e, u); }
    ReadsOn(e, t, u, Discover);
  }

  /** The market steps are exactly the ones whose fingerprints rest on discovery. */
  lemma MarketStepsReadDiscovery(e: Engine, t: StepId)
    ensures Advisor(e).WellOrdered() && t in Advisor(e).order
    ensures t in MARKET_STEPS <==> Reads(Advisor(e), t, Discover)
  {
    hide *;
    AdvisorIsWellOrdered(e);
    AdvisorParts(e);
    EveryStepIsListed(t);
    if t in MARKET_STEPS { MarketReads(e, t); } else { OthersDoNotRead(e, t); }
  }

  lemma CoreReadsResolved(e: Engine, c: StepId)
    requires Advisor(e).WellOrdered() && c in CORE && c != ResolveProposed
    ensures Reads(Advisor(e), c, ResolveProposed)
  {
    hide Advisor, Reads;
    ReadsOn(e, BuildPlan, ResolveProposed, ResolveProposed);
    ReadsOn(e, Discover, ResolveProposed, ResolveProposed);
    ReadsOn(e, Analyze, ResolveProposed, ResolveProposed);
    ReadsOn(e, Metrics, Discover, ResolveProposed);
  }

  lemma CoreIsClosed(c: StepId)
    requires c in CORE
    ensures OptionalSteps(c) == [] && forall d :: d in FingerprintUpstream(c) ==> d in CORE
  {
  }

  lemma CoreIsCore(e: Engine)
    requires Advisor(e).WellOrdered()
    ensures IsCore(Advisor(e), CORE)
  {
    hide *;
    AdvisorParts(e);
    var p := Advisor(e);
    forall c | c in CORE ensures c in p.order && p.optional(c) == [] {
      EveryStepIsListed(c);
      CoreIsClosed(c);
    }
    forall c, d | c in CORE && d in p.upstream(c) ensures d in CORE { CoreIsClosed(c); }
    forall c, s, i, x | c in CORE && c in p.order && s in p.order && c != s && !Reads(p, c, s)
      ensures p.own(c, p.write(s, i, x)) == p.own(c, i)
    {
      CoreInputsSurvive(e, c, s, i, x);
    }
    MakesCore(p);
  }

  lemma MakesCore(p: Pipeline<StepId, Facts, Own, Reading, Payload>)
    requires p.WellOrdered()
    requires forall c :: c in CORE ==> c in p.order && p.optional(c) == []
    requires forall c, d :: c in CORE && d in p.upstream(c) ==> d in CORE
    requires forall c, s, i, x :: c in CORE && c in p.order && s in p.order && c != s && !Reads(p, c, s) ==>
                p.own(c, p.write(s, i, x)) == p.own(c, i)
    ensures IsCore(p, CORE)
  {
    hide CORE, Reads;
  }

  lemma CoreInputsSurvive(e: Engine, c: StepId, s: StepId, f: Facts, x: Payload)
    requires Advisor(e).WellOrdered() && c in CORE && c != s && !Reads(Advisor(e), c, s)
    ensures OwnInputs(e, c, Write(e, s, f, x)) == OwnInputs(e, c, f)
  {
    hide OwnInputs;
    if s == ResolveProposed {
      CoreReadsResolved(e, c);
    } else if s == Discover {
      if c in MARKET_STEPS { MarketStepsReadDiscovery(e, c); }
      EarlierWriteIsInvisible(e, s, c, f, x);
    } else {
      assert Write(e, s, f, x) == f;
    }
  }

  // ---- the invariant ----

  ghost predicate Contained(st: Advice) {
    DiscoverFailure(st).Some? ==> forall t :: t in MARKET_STEPS ==> t !in st.artifacts
  }

  /** Between turns. */
  ghost predicate Kept(e: Engine, st: Advice) {
    Anchored(Advisor(e), CORE, st) && Contained(st)
  }

  /** Once a turn has swept. */
  ghost predicate Swept(e: Engine, st: Advice) {
    Kept(e, st) && CoreFresh(Advisor(e), CORE, st)
  }

  lemma SweepKeeps(e: Engine, st: Advice, edited: Facts)
    requires Kept(e, st)
    ensures Advisor(e).Known(st.(inputs := edited)) && Swept(e, Advisor(e).Invalidated(st.(inputs := edited)))
  {
    hide Advisor, CORE, MARKET_STEPS;
    CoreIsCore(e);
    EditKeepsAnchored(Advisor(e), CORE, st, edited);
    SweepRestoresCore(Advisor(e), CORE, st.(inputs := edited));
  }

  /** A step the planner may run never carries a failure further, and a failing discovery finds nothing above it. */
  lemma RunKeeps(e: Engine, st: Advice, s: StepId)
    requires Swept(e, st) && Runnable(st, s)
    ensures Advisor(e).Loadable(st, s) && Swept(e, Advisor(e).RunStep(st, s))
  {
    hide Advisor, CORE, Runnable, RequiredSteps, Write;
    var p := Advisor(e);
    AdvisorIsWellFormed(e);
    CoreIsCore(e);
    RunnableIsReady(Context(e, 0, Developer, t => false, (t, st) => false), st, s);
    RunKeepsCore(p, CORE, st, s);
    p.RunStepShape(st, s);
    RunKeepsContained(e, st, p.RunStep(st, s), s);
  }

  lemma RunKeepsContained(e: Engine, st: Advice, after: Advice, s: StepId)
    requires Swept(e, st) && Runnable(st, s) && s !in st.artifacts
    requires after.artifacts.Keys == st.artifacts.Keys + {s}
    requires forall t :: t in st.artifacts && t != s ==> after.artifacts[t] == st.artifacts[t]
    ensures Contained(after)
  {
    hide Advisor, Runnable, RequiredSteps;
    if DiscoverFailure(after).Some? {
      forall t | t in MARKET_STEPS ensures t !in after.artifacts {
        if s == Discover {
          MarketStepsReadDiscovery(e, t);
        } else if t == s {
          BlockedByFailure(e, st, s);
        }
      }
    }
  }

  lemma BlockedByFailure(e: Engine, st: Advice, s: StepId)
    requires Contained(st) && DiscoverFailure(st).Some? && s in MARKET_STEPS
    ensures !Runnable(st, s)
  {
    hide DiscoverFailure;
    if Discover !in RequiredSteps(s) {
      assert exists d :: d in RequiredSteps(s) && d in MARKET_STEPS by { assert RequiredSteps(s)[0] in MARKET_STEPS; }
    }
  }

  lemma {:induction false} LoopKeeps(c: Context, st: Advice, requested: Option<StepId>)
    requires Swept(c.engine, st)
    ensures Proper(c, st) && Swept(c.engine, Loop(c, st, requested))
    decreases ALL_STEPS - st.artifacts.Keys
  {
    hide Advisor, CORE, Runnable, Decide, MARKET_STEPS, Contained;
    var action := Decide(st, requested, c.maxRadius, c.mode);
    if action.RunNext? && !c.fails(action.step) {
      StepIsNew(c, st, requested);
      RunKeeps(c.engine, st, action.step);
      LoopKeeps(c, Advisor(c.engine).RunStep(st, action.step), None);
    }
  }

  // ---- whole conversations ----

  /** One message: the facts after it, the step it asks for, and the circumstances it arrives in. */
  datatype Message = Message(edited: Facts, requested: Option<StepId>, maxRadius: int, mode: Mode, fails: StepId -> bool)

  ghost function Converse(e: Engine, st: Advice, messages: seq<Message>): (after: Advice)
    requires Advisor(e).Known(st)
    ensures Advisor(e).Known(after)
    decreases |messages|
  {
    hide Loop, Advisor, Decide;
    if messages == [] then st
    else
      var m := messages[0];
      var c := Context(e, m.maxRadius, m.mode, m.fails, (t, st) => false);
      ProperMeansKnown(c, st);
      var next := TurnOf(c, st, m.edited, m.requested);
      TurnIsKnown(c, st, m.edited, m.requested);
      Converse(e, next, messages[1..])
  }

  /** The session a conversation leads to, from its first message on. */
  ghost function Conversation(e: Engine, f: Facts, messages: seq<Message>): (after: Advice)
    ensures Advisor(e).Known(after)
  {
    hide Advisor, Converse;
    StartIsKept(e, f);
    Converse(e, Session(f, map[]), messages)
  }

  lemma TurnIsKnown(c: Context, st: Advice, edited: Facts, requested: Option<StepId>)
    requires Proper(c, st)
    ensures Advisor(c.engine).Known(TurnOf(c, st, edited, requested))
  {
    hide Loop, Advisor;
    assert Proper(c, TurnOf(c, st, edited, requested));
  }

  lemma ProperMeansKnown(c: Context, st: Advice)
    ensures Proper(c, st) <==> Advisor(c.engine).Known(st)
  {
    hide Advisor;
  }

  lemma {:induction false} ConverseKeeps(e: Engine, st: Advice, messages: seq<Message>)
    requires Kept(e, st)
    ensures Advisor(e).Known(st) && Kept(e, Converse(e, st, messages))
    decreases |messages|
  {
    hide Advisor, CORE, Runnable, Decide, MARKET_STEPS, Contained, Loop;
    if messages != [] {
      var m := messages[0];
      var c := Context(e, m.maxRadius, m.mode, m.fails, (t, st) => false);
      SweepKeeps(e, st, m.edited);
      LoopKeeps(c, Advisor(e).Invalidated(st.(inputs := m.edited)), m.requested);
      ConverseKeeps(e, TurnOf(c, st, m.edited, m.requested), messages[1..]);
    }
  }

  /**
   After any conversation that leaves a failed discovery behind, no market step has a result, none would be run, and
   no advisory would be delivered, whatever is asked for next.
   */
  lemma FailureIsContained(
    e: Engine, f: Facts, messages: seq<Message>, t: StepId, requested: Option<StepId>, maxRadius: int, mode: Mode)
    requires t in MARKET_STEPS
    ensures var st := Conversation(e, f, messages);
            var action := Decide(st, requested, maxRadius, mode);
            DiscoverFailure(st).Some? ==>
              t !in st.artifacts && action != RunNext(t) && !action.DeliverFinal? && !action.DeliverPartial?
  {
    hide Advisor, CORE, Runnable, Anchored, Converse, MARKET_STEPS, Decide, DiscoverFailure;
    StartIsKept(e, f);
    ConverseKeeps(e, Session(f, map[]), messages);
    var st := Conversation(e, f, messages);
    if DiscoverFailure(st).Some? {
      BlockedByFailure(e, st, t);
      FailureDeliversNothing(st, requested, maxRadius, mode);
    }
  }

  lemma FailureDeliversNothing(st: Advice, requested: Option<StepId>, maxRadius: int, mode: Mode)
    requires DiscoverFailure(st).Some?
    ensures var action := Decide(st, requested, maxRadius, mode);
            !action.DeliverFinal? && !action.DeliverPartial? && (action.RunNext? ==> Runnable(st, action.step))
  {
    hide Runnable, Index, Contradiction, FirstAmbiguous, DiscoverFailure;
  }

  lemma StartIsKept(e: Engine, f: Facts)
    ensures Advisor(e).Known(Session(f, map[])) && Kept(e, Session(f, map[]))
  {
    hide Advisor, CORE, MARKET_STEPS;
    AdvisorIsWellOrdered(e);
  }

  /** After any conversation, a step that rests on a core step has that core step's result beside it. */
  lemma CoreIsNeverMissing(e: Engine, f: Facts, messages: seq<Message>, t: StepId, c: StepId)
    requires c in CORE
    ensures Advisor(e).WellOrdered() && t in Advisor(e).order
    ensures Reads(Advisor(e), t, c) && t in Conversation(e, f, messages).artifacts ==>
              c in Conversation(e, f, messages).artifacts
  {
    hide Advisor, CORE, MARKET_STEPS, Converse;
    AdvisorIsWellOrdered(e);
    AdvisorParts(e);
    EveryStepIsListed(t);
    StartIsKept(e, f);
    ConverseKeeps(e, Session(f, map[]), messages);
  }
}
