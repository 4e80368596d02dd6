/** How exact conversations end: with what one turn from nothing would give, whatever led there. */
module Endings {
  import opened Wrappers
  import opened SessionModels
  import opened Workflow
  import opened StepCache
  import opened Artifacts
  import opened Planner
  import opened Turn
  import opened Dialogue
  import opened Exactness
  import opened Foresight
  import opened Records
  import opened Agreement
  import C = Containment

  /**
   Nothing is left to run or to settle: business and place are known, discovery has not failed, every result is up to
   date, no choice is pending, and the plan was made with the present assets and experience.
   */
  ghost predicate Settled(e: Engine, st: Advice) {
    Finished(st) && Advisor(e).AllFresh(st) && Unasked(st.inputs) && ProfileStands(st)
  }

  lemma SettledIsComplete(number: Number, e: Engine, st: Advice)
    requires InOrder(number, e, st) && Settled(e, st)
    ensures Advisor(e).Known(st) && Advisor(e).Complete(st) && Consistent(e, st)
  {
    hide Advisor, Consistent, Sincere, Finished, ProfileStands;
    InOrderParts(number, e, st);
    UnaskedMeansNothingAsked(e, st.inputs);
    CurrentExactlyWhenProfileStands(e, st);
    FinishedIsComplete(e, st);
  }

  lemma UnaskedMeansNothingAsked(e: Engine, f: Facts)
    requires Unasked(f)
    ensures Advisor(e).NothingAsked(f)
  {
    hide OwnInputs, Unasked;
    forall s ensures !HasQuestion(OwnInputs(e, s, f)) { UnaskedAsksNothing(e, f, s); }
  }

  // ---- two conversations ----

  /** Every step declares the same in both. */
  ghost predicate DeclareAlike(e: Engine, f: Facts, g: Facts) {
    forall s {:trigger OwnInputs(e, s, f)} :: OwnInputs(e, s, f) == OwnInputs(e, s, g)
  }

  /** Taken together, the steps declare everything that any runner reads. */
  lemma DeclaredCoversRead(e: Engine, f: Facts, g: Facts, s: StepId)
    requires DeclareAlike(e, f, g)
    ensures Read(e, s, f) == Read(e, s, g)
  {
    hide Covered, OwnInputs, Takes;
    assert OwnInputs(e, s, f) == OwnInputs(e, s, g);
    DeclaredCoversTaken(e, s, f);
    DeclaredCoversTaken(e, s, g);
    OpportunityDeclaresProfile(e, f, g);
    PriceDeclaresResolved(e, f, g);
    if s == BuildPlan {
      assert OwnInputs(e, ResolveProposed, f) == OwnInputs(e, ResolveProposed, g);
      PlanSlotsBehind(e, f);
      PlanSlotsBehind(e, g);
    } else if s == BindPlan {
      assert OwnInputs(e, BuildPlan, f) == OwnInputs(e, BuildPlan, g);
      BindSlotsBehind(e, f);
      BindSlotsBehind(e, g);
    }
  }

  lemma OpportunityDeclaresProfile(e: Engine, f: Facts, g: Facts)
    requires DeclareAlike(e, f, g)
    ensures f.assets.current.items == g.assets.current.items && f.experience.current.items == g.experience.current.items
  {
    assert OwnInputs(e, Opportunity, f) == OwnInputs(e, Opportunity, g);
  }

  lemma PriceDeclaresResolved(e: Engine, f: Facts, g: Facts)
    requires DeclareAlike(e, f, g)
    ensures f.category == g.category && f.subtypes == g.subtypes
  {
    assert OwnInputs(e, MarketPriceEvidence, f) == OwnInputs(e, MarketPriceEvidence, g);
  }

  /**
   Two exact sessions that stopped with the same declared inputs hold the same results, whatever was edited, requested or
   failed on the way to them, in however many turns.
   */
  lemma FinishedSessionsAgree(e: Engine, a: Advice, b: Advice)
    requires Finished(a) && Finished(b) && Exact(Advisor(e), a) && Exact(Advisor(e), b)
    requires Advisor(e).NothingAsked(a.inputs) && Advisor(e).NothingAsked(b.inputs)
    requires DeclareAlike(e, a.inputs, b.inputs)
    ensures a.artifacts == b.artifacts
  {
    hide *;
    FinishedIsComplete(e, a);
    FinishedIsComplete(e, b);
    MakesLookAlike(e, a.inputs, b.inputs);
    Advisor(e).Confluence(a, b);
  }

  /** Two exact conversations that settled with the same declared inputs hold the same results, whatever was said. */
  lemma ConversationsAgree(number: Number, e: Engine, said: seq<Said>, others: seq<Said>)
    requires ExactTalk(number, e, FirstSession(e), said) && ExactTalk(number, e, FirstSession(e), others)
    requires Settled(e, Talk(number, e, FirstSession(e), said)) && Settled(e, Talk(number, e, FirstSession(e), others))
    requires DeclareAlike(e, Talk(number, e, FirstSession(e), said).inputs, Talk(number, e, FirstSession(e), others).inputs)
    ensures Talk(number, e, FirstSession(e), said).artifacts == Talk(number, e, FirstSession(e), others).artifacts
  {
    hide *;
    SettledTalkIsComplete(number, e, said);
    SettledTalkIsComplete(number, e, others);
    var a, b := Talk(number, e, FirstSession(e), said), Talk(number, e, FirstSession(e), others);
    MakesLookAlike(e, a.inputs, b.inputs);
    Advisor(e).Confluence(a, b);
  }

  lemma SettledTalkIsComplete(number: Number, e: Engine, said: seq<Said>)
    requires ExactTalk(number, e, FirstSession(e), said) && Settled(e, Talk(number, e, FirstSession(e), said))
    ensures var st := Talk(number, e, FirstSession(e), said);
            Advisor(e).Known(st) && Advisor(e).Complete(st) && Consistent(e, st)
  {
    hide *;
    FirstIsInOrder(number, e);
    ExactTalkIsInOrder(number, e, FirstSession(e), said);
    SettledIsComplete(number, e, Talk(number, e, FirstSession(e), said));
  }

  lemma MakesLookAlike(e: Engine, f: Facts, g: Facts)
    requires DeclareAlike(e, f, g)
    ensures Advisor(e).LookAlike(f, g)
  {
    hide Advisor, OwnInputs, Read;
    AdvisorParts(e);
    AdvisorReads(e);
    forall s ensures OwnInputs(e, s, f) == OwnInputs(e, s, g) && Read(e, s, f) == Read(e, s, g) {
      DeclaredCoversRead(e, f, g, s);
    }
  }

  // ---- one turn from nothing ----

  /** In a settled session no runner has anything left to write. */
  lemma SettledWritesAreDone(e: Engine, st: Advice)
    requires Advisor(e).Known(st) && Advisor(e).Complete(st) && Consistent(e, st) && Unasked(st.inputs)
    ensures Advisor(e).WritesDone(st.inputs)
  {
    hide Advisor, Consistent, Write, Unasked;
    var p := Advisor(e);
    AdvisorParts(e);
    forall s | s in p.order ensures p.write(s, st.inputs, p.Scratch(st.inputs, s).payload) == st.inputs {
      p.FinishedIsScratch(st, s);
      SettledWritesNothing(e, st, s);
    }
  }

  lemma SettledWritesNothing(e: Engine, st: Advice, s: StepId)
    requires Advisor(e).Known(st) && Advisor(e).AllFresh(st) && Consistent(e, st) && Unasked(st.inputs) && s in st.artifacts
    ensures Write(e, s, st.inputs, st.artifacts[s].payload) == st.inputs
  {
    hide Advisor, Covered, SawResolved, SawSlots, SawItsOwn, Write, OwnInputs, Unasked, C.Kept;
    AdvisorParts(e);
    assert Recorded(e, st, s) && Advisor(e).IsFresh(st, s);
    UnaskedAsksNothing(e, st.inputs, s);
    DiscoverDeclaresRadius(e, st.inputs);
    WriteIsDone(e, s, st.inputs, st.artifacts[s].payload);
  }

  lemma UnaskedAsksNothing(e: Engine, f: Facts, s: StepId)
    requires Unasked(f)
    ensures !HasQuestion(OwnInputs(e, s, f))
  {
    hide StepInputSlots;
  }

  lemma WriteIsDone(e: Engine, s: StepId, f: Facts, x: Payload)
    requires s == ResolveProposed ==>
               f.category == CategoryOf(x) && f.subtypes == x.subtypes && (x.resolved || x.choices == [])
    requires s == Discover ==> f.State(RadiusM) != Missing && x.status != LocationAmbiguous
    ensures Write(e, s, f, x) == f
  {
  }

  /** Nothing stands in the way of a turn. */
  ghost predicate Clear(c: Context, f: Facts) {
    !f.ended && !Contradiction(f, c.maxRadius) && Unasked(f) && Opened(f) && forall s :: !c.fails(s)
  }

  lemma ClearRunsNext(c: Context, st: Advice, n: nat)
    requires Clear(c, st.inputs) && DiscoverFailure(st).None? && n < |DAG_ORDER|
    requires forall s :: s in st.artifacts <==> Index(s) < n
    ensures Decide(st, None, c.maxRadius, c.mode) == RunNext(DAG_ORDER[n])
  {
    hide Contradiction, DiscoverFailure, Index, Runnable;
    IndexInverse(n);
    var s := DAG_ORDER[n];
    forall d | d in RequiredSteps(s) ensures d in st.artifacts { DependenciesPrecede(s, d); }
    OpenMeansRunnable(st, s);
    forall t | Runnable(st, t) ensures t !in st.artifacts { RunnableIsNew(st, t); }
    if FirstRunnable(st, 0).Some? && FirstRunnable(st, 0).value != s {
      SameIndexSameStep(FirstRunnable(st, 0).value, s);
    }
  }

  lemma RunnableIsNew(st: Advice, t: StepId)
    requires Runnable(st, t)
    ensures t !in st.artifacts
  {
  }

  lemma AllThereStops(c: Context, st: Advice)
    requires Proper(c, st) && forall t :: t in st.artifacts
    ensures Loop(c, st, None) == st
  {
    hide Runnable, Index, Advisor;
    LoopUnfolds(c, st, None);
    if Decide(st, None, c.maxRadius, c.mode).RunNext? {
      DecideNames(st, None, c.maxRadius, c.mode);
      RunnableIsNew(st, Decide(st, None, c.maxRadius, c.mode).step);
    }
  }

  lemma ScratchPrefix(e: Engine, f: Facts, n: nat, st: Advice)
    requires Advisor(e).WellOrdered() && n <= |Advisor(e).order| && Advisor(e).ScratchUpTo(f, n, st)
    ensures st.inputs == f && n <= |DAG_ORDER| && forall s :: s in st.artifacts <==> Index(s) < n
    ensures forall s :: s in st.artifacts && s in DAG_ORDER ==> st.artifacts[s] == Advisor(e).Scratch(f, s)
    ensures Advisor(e).Known(st)
  {
    hide Advisor, Index;
    AdvisorParts(e);
    forall s ensures s in DAG_ORDER[..n] <==> Index(s) < n {
      if Index(s) < n { assert DAG_ORDER[..n][Index(s)] == s; }
      if s in DAG_ORDER[..n] {
        var k :| 0 <= k < n && DAG_ORDER[k] == s;
        IndexInverse(k);
      }
    }
    forall s | s in st.artifacts ensures s in DAG_ORDER { EveryStepIsListed(s); }
  }

  /** From nothing, the loop computes the from-scratch results one by one. */
  lemma {:induction false} LoopIsScratch(c: Context, done: Advice, n: nat, st: Advice)
    requires Advisor(c.engine).Known(done) && Advisor(c.engine).Complete(done) && DiscoverFailure(done).None?
    requires Advisor(c.engine).WritesDone(done.inputs) && Clear(c, done.inputs)
    requires n <= |Advisor(c.engine).order| && Advisor(c.engine).ScratchUpTo(done.inputs, n, st)
    ensures Proper(c, st) && Loop(c, st, None) == done
    decreases |DAG_ORDER| - n
  {
    hide *;
    var p := Advisor(c.engine);
    AdvisorIsWellOrdered(c.engine);
    AdvisorParts(c.engine);
    ScratchPrefix(c.engine, done.inputs, n, st);
    ProperIsKnown(c, st);
    if n == |DAG_ORDER| {
      forall s ensures s in st.artifacts { IndexIsSmall(s); }
      AllThereStops(c, st);
      ScratchIsDone(c.engine, done, st);
    } else {
      NoFailureInScratch(c.engine, done, st);
      ClearRunsNext(c, st, n);
      LoopUnfolds(c, st, None);
      NothingFails(c, done.inputs, DAG_ORDER[n]);
      MakesFollow(c.engine, st, DAG_ORDER[n]);
      p.PassAdds(done.inputs, n, st, p.RunStep(st, DAG_ORDER[n]));
      LoopIsScratch(c, done, n + 1, p.RunStep(st, DAG_ORDER[n]));
    }
  }

  lemma IndexIsSmall(s: StepId)
    ensures Index(s) < |DAG_ORDER|
  {
  }

  lemma NothingFails(c: Context, f: Facts, s: StepId)
    requires Clear(c, f)
    ensures !c.fails(s)
  {
    hide Contradiction, Unasked, Opened;
  }

  lemma MakesFollow(e: Engine, st: Advice, s: StepId)
    requires Advisor(e).WellOrdered() && Advisor(e).Loadable(st, s)
    ensures Advisor(e).Follows(st, s, Advisor(e).RunStep(st, s))
  {
    hide Advisor;
  }

  lemma ScratchIsDone(e: Engine, done: Advice, st: Advice)
    requires Advisor(e).Known(done) && Advisor(e).Complete(done) && st.inputs == done.inputs
    requires forall s :: s in st.artifacts
    requires forall s :: s in st.artifacts && s in DAG_ORDER ==> st.artifacts[s] == Advisor(e).Scratch(done.inputs, s)
    ensures st == done
  {
    hide Advisor;
    AdvisorParts(e);
    forall s ensures s in done.artifacts && st.artifacts[s] == done.artifacts[s] {
      EveryStepIsListed(s);
      assert s in Advisor(e).AllSteps();
      Advisor(e).FinishedIsScratch(done, s);
    }
    assert st.artifacts == done.artifacts;
  }

  lemma NoFailureInScratch(e: Engine, done: Advice, st: Advice)
    requires Advisor(e).Known(done) && Advisor(e).Complete(done) && DiscoverFailure(done).None?
    requires forall s :: s in st.artifacts && s in DAG_ORDER ==> st.artifacts[s] == Advisor(e).Scratch(done.inputs, s)
    ensures DiscoverFailure(st).None?
  {
    hide Advisor;
    AdvisorParts(e);
    EveryStepIsListed(Discover);
    assert Discover in Advisor(e).AllSteps();
    Advisor(e).FinishedIsScratch(done, Discover);
  }

  /**
   A settled exact conversation is what a single turn from nothing makes of its facts, with no source down and no
   contradiction in the way.
   */
  lemma ConversationIsOneTurn(number: Number, c: Context, said: seq<Said>)
    requires ExactTalk(number, c.engine, FirstSession(c.engine), said)
    requires Settled(c.engine, Talk(number, c.engine, FirstSession(c.engine), said))
    requires Clear(c, Talk(number, c.engine, FirstSession(c.engine), said).inputs)
    ensures var st := Talk(number, c.engine, FirstSession(c.engine), said);
            Proper(c, Session(st.inputs, map[])) && TurnOf(c, Session(st.inputs, map[]), st.inputs, None) == st
  {
    hide *;
    var e := c.engine;
    SettledTalkIsComplete(number, e, said);
    var st := Talk(number, e, FirstSession(e), said);
    SettledParts(e, st);
    SettledWritesAreDone(e, st);
    EmptyIsProper(c, st.inputs);
    NothingIsScratch(e, st.inputs);
    LoopIsScratch(c, st, 0, Session(st.inputs, map[]));
    NothingToSweep(c, st.inputs);
  }

  lemma SettledParts(e: Engine, st: Advice)
    requires Settled(e, st)
    ensures Unasked(st.inputs) && DiscoverFailure(st).None?
  {
    hide Advisor, Unasked, DiscoverFailure, ProfileStands;
  }

  lemma NothingIsScratch(e: Engine, f: Facts)
    ensures Advisor(e).WellOrdered() && Advisor(e).ScratchUpTo(f, 0, Session(f, map[]))
  {
    hide Advisor;
    AdvisorIsWellOrdered(e);
  }

  lemma NothingToSweep(c: Context, f: Facts)
    requires Proper(c, Session(f, map[]))
    ensures TurnOf(c, Session(f, map[]), f, None) == Loop(c, Session(f, map[]), None)
  {
    hide Loop, Advisor;
    var empty: Advice := Session(f, map[]);
    assert empty.(inputs := f) == empty;
    assert Advisor(c.engine).Invalidated(empty).artifacts == map[];
    assert Advisor(c.engine).Invalidated(empty) == empty;
  }
}
