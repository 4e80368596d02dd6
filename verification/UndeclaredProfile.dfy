/**
 The one result a sweep keeps although its runner would now give another: the plan, once an owned asset is added. Its
 step declares neither the assets nor the trade experience that the plan carries.
 */
module UndeclaredProfile {
  import opened Wrappers
  import opened SessionModels
  import opened Workflow
  import opened StepCache
  import opened Artifacts
  import opened Readiness
  import opened Planner
  import opened Turn
  import opened Raising
  import opened Dialogue
  import opened Exactness
  import opened Foresight
  import opened Records
  import opened Agreement
  import opened Endings
  import D = Deltas
  import Text

  // ---- a message that only adds assets ----

  function Adding(added: D.AssetUpdate): D.Understanding {
    D.Understanding([], Some(added), None, [], [], [], false, false, None)
  }

  lemma AddingMovesAssetsOnly(number: Number, f: Facts, m: Said, added: D.AssetUpdate)
    requires m.understood == Adding(added)
    ensures var g := Heard(number, f, m);
            && g == f.(assets := g.assets, turn := g.turn)
            && g.assets.current.items == f.assets.current.items + added.items
  {
    assert D.Stated(number, [], f.turn + 1) + D.Declines([], f.turn + 1) == [];
    D.NothingPut(f);
    assert f.declined + (set n | n in m.understood.declinedSlots) == f.declined;
    var g := D.Edited(number, f, m.understood, f.turn + 1);
    D.NothingPut(g);
    assert f.assets.current.items + added.items - (set k | k in m.understood.assetsRemoved)
        == f.assets.current.items + added.items;
  }

  /** Whatever the engines: an up-to-date plan survives the addition of an asset, made with the assets as they were. */
  lemma AddingKeepsPlan(number: Number, e: Engine, st: Advice, m: Said, added: D.AssetUpdate)
    requires Advisor(e).Known(st) && BuildPlan in st.artifacts && Advisor(e).IsFresh(st, BuildPlan)
    requires m.understood == Adding(added)
    ensures var swept := SweptBy(number, e, st, m);
            && BuildPlan in swept.artifacts && swept.artifacts[BuildPlan] == st.artifacts[BuildPlan]
            && swept.inputs.assets.current.items == st.inputs.assets.current.items + added.items
  {
    hide Advisor, Heard, SweptBy, OwnInputs;
    var p, g := Advisor(e), Heard(number, st.inputs, m);
    AdvisorParts(e);
    AddingMovesAssetsOnly(number, st.inputs, m, added);
    SweptByShape(number, e, st, m);
    var below := {BuildPlan, ResolveProposed};
    PlanRestsOnResolver();
    forall t | t in below ensures OwnInputs(e, t, st.inputs) == OwnInputs(e, t, g) {
      AssetsAreNotDeclared(e, st.inputs, g, t);
    }
    EveryStepIsListed(BuildPlan);
    p.FreshFrame(st.inputs, st.artifacts.Keys, g, st.artifacts.Keys, BuildPlan, below);
    StillFresh(e, st, g, BuildPlan);
  }

  lemma PlanRestsOnResolver()
    ensures FingerprintUpstream(BuildPlan) == [ResolveProposed] && OptionalSteps(BuildPlan) == []
    ensures FingerprintUpstream(ResolveProposed) == [] && OptionalSteps(ResolveProposed) == []
  {
  }

  lemma AssetsAreNotDeclared(e: Engine, f: Facts, g: Facts, t: StepId)
    requires g == f.(assets := g.assets, turn := g.turn) && t in {BuildPlan, ResolveProposed}
    ensures OwnInputs(e, t, f) == OwnInputs(e, t, g)
  {
    hide StepInputSlots;
    SameSlotsSameRepr(f, g, StepInputSlots(t));
  }

  lemma StillFresh(e: Engine, st: Advice, g: Facts, t: StepId)
    requires Advisor(e).Known(st) && t in st.artifacts && Advisor(e).IsFresh(st, t) && Advisor(e).Known(st.(inputs := g))
    requires Advisor(e).Fresh(st.inputs, st.artifacts.Keys, t) == Advisor(e).Fresh(g, st.artifacts.Keys, t)
    ensures var swept := Advisor(e).Invalidated(st.(inputs := g));
            t in swept.artifacts && swept.artifacts[t] == st.artifacts[t]
  {
    hide Advisor;
    assert Advisor(e).IsFresh(st.(inputs := g), t);
  }

  // ---- first messages after which there is a plan ----

  lemma {:induction false} QuietLoopRunsOut(c: Context, st: Advice)
    requires Proper(c, st) && Quiet(st.inputs, c.maxRadius) && Agreeable(c.engine) && forall s :: !c.fails(s)
    ensures forall t :: !Runnable(Loop(c, st, None), t)
    ensures Quiet(Loop(c, st, None).inputs, c.maxRadius)
    ensures forall n :: n != RadiusM ==> Loop(c, st, None).inputs.Of(n) == st.inputs.Of(n)
    decreases ALL_STEPS - st.artifacts.Keys
  {
    hide Advisor, Decide, Runnable, Index, Unstopped, Write;
    UnstoppedDecides(st, None, c.maxRadius, c.mode);
    var p, action := Advisor(c.engine), Decide(st, None, c.maxRadius, c.mode);
    if action.RunNext? {
      StepIsNew(c, st, None);
      p.RunStepShape(st, action.step);
      AdvisorParts(c.engine);
      AnswerIsAgreeable(c.engine, st, action.step);
      QuietWrite(c.engine, action.step, st.inputs, p.Answer(st, action.step), c.maxRadius);
      QuietLoopRunsOut(c, p.RunStep(st, action.step));
    }
  }

  lemma RunOutHasPlan(c: Context, st: Advice)
    requires Quiet(st.inputs, c.maxRadius) && forall t :: !Runnable(st, t)
    ensures BuildPlan in st.artifacts
  {
    assert ProposedBusinessText in SatisfiedSlots(st.inputs);
    assert !Runnable(st, ResolveProposed) && !Runnable(st, BuildPlan);
  }

  /** Every source is up and no runner breaks. */
  ghost predicate Undisturbed(m: Said) {
    (forall s :: !m.fails(s)) && forall s, st :: !m.breaks(s, st)
  }

  /** A first message that names the business, states no refused figure, and says nothing of assets. */
  ghost predicate NamesBusiness(number: Number, e: Engine, m: Said) {
    var f := Heard(number, BLANK, m);
    && Quiet(f, m.maxRadius) && FiguresStand(Circumstances(e, m), f) && m.requested == None && Undisturbed(m)
    && f.assets.current.items == {}
  }

  /** After such a message the plan is there, up to date and made with no assets. */
  lemma NamingBuildsPlan(number: Number, e: Engine, m: Said)
    requires Agreeable(e) && NamesBusiness(number, e, m)
    ensures var st := Reply(number, e, FirstSession(e), m);
            && InOrder(number, e, st) && Advisor(e).Known(st) && Exact(Advisor(e), st) && Unasked(st.inputs)
            && BuildPlan in st.artifacts && ProfileStands(st) && st.inputs.assets.current.items == {}
            && ExactReply(number, e, FirstSession(e), m) && (forall t :: !Runnable(st, t)) && Quiet(st.inputs, m.maxRadius)
            && forall n :: n != RadiusM ==> st.inputs.Of(n) == Heard(number, BLANK, m).Of(n)
  {
    hide *;
    var c, f := Circumstances(e, m), Heard(number, BLANK, m);
    NamingParts(number, e, m);
    EngineOf(e, m);
    FirstIsInOrder(number, e);
    FirstParts(number, e, m);
    EmptyIsProper(c, f);
    BlankIsSincere(number);
    HeardIsValid(number, BLANK, m);
    RaisesMeansRefused(c, Session(f, map[]), None);
    NothingStarts(e, f);
    ColdLoopIsExact(c, Session(f, map[]));
    ExactParts(e, Loop(c, Session(f, map[]), None));
    TurnIsExactWhenLoadsAreFresh(c, Session(f, map[]), None);
    MakesExactReply(number, e, FirstSession(e), m);
    ReplyIsInOrder(number, e, FirstSession(e), m);
    var st := Reply(number, e, FirstSession(e), m);
    InOrderParts(number, e, st);
    QuietLoopRunsOut(c, Session(f, map[]));
    QuietIsUnasked(c, st.inputs);
    RunOutHasPlan(c, st);
    LoopKeepsProfile(c, Session(f, map[]));
    ExactParts(e, st);
    UnaskedMeansNothingAsked(e, st.inputs);
    CurrentExactlyWhenProfileStands(e, st);
  }

  lemma NamingParts(number: Number, e: Engine, m: Said)
    requires NamesBusiness(number, e, m)
    ensures var c, f := Circumstances(e, m), Heard(number, BLANK, m);
            && Quiet(f, c.maxRadius) && FiguresStand(c, f) && m.requested == None
            && (forall s :: !c.fails(s)) && NothingBreaks(c)
            && c.maxRadius == m.maxRadius
            && f.assets.current.items == {}
  {
    hide Quiet, FiguresStand, Heard;
  }

  lemma FirstParts(number: Number, e: Engine, m: Said)
    requires m.requested == None
    ensures FirstSession(e) == Session(BLANK, map[])
    ensures var c, start := Circumstances(e, m), Session(Heard(number, BLANK, m), map[]);
            && Proper(c, start) && SweptBy(number, e, FirstSession(e), m) == start
            && Lost(number, e, FirstSession(e), m) == Raises(c, start, None)
            && (!Raises(c, start, None) ==> Reply(number, e, FirstSession(e), m) == Loop(c, start, None))
  {
    hide Advisor, Heard, Loop, Raises;
    var c, start: Advice := Circumstances(e, m), Session(Heard(number, BLANK, m), map[]);
    EmptyIsProper(c, Heard(number, BLANK, m));
    SweptByShape(number, e, FirstSession(e), m);
    assert Advisor(e).Invalidated(start).artifacts == map[];
    assert Advisor(e).Invalidated(start) == start;
  }

  lemma NothingStarts(e: Engine, f: Facts)
    ensures Exact(Advisor(e), Session(f, map[])) && AllPresentPrecede(Session(f, map[]))
    ensures Advisor(e).Sound(Session(f, map[]))
  {
    hide Advisor;
    AdvisorIsWellOrdered(e);
  }

  lemma MakesExactReply(number: Number, e: Engine, st: Advice, m: Said)
    requires Advisor(e).Known(st)
    requires EveryLoadFresh(Circumstances(e, m), SweptBy(number, e, st, m), m.requested)
    ensures ExactReply(number, e, st, m)
  {
    hide Advisor, EveryLoadFresh, SweptBy, Lost;
  }

  lemma QuietIsUnasked(c: Context, f: Facts)
    requires Quiet(f, c.maxRadius)
    ensures Unasked(f)
  {
    hide Contradiction;
  }

  lemma ExactParts(e: Engine, st: Advice)
    requires Exact(Advisor(e), st)
    ensures Advisor(e).Sound(st) && Advisor(e).AllFresh(st) && Advisor(e).AllCurrent(st)
  {
    hide Advisor;
  }

  lemma {:induction false} LoopKeepsProfile(c: Context, st: Advice)
    requires Proper(c, st)
    ensures Loop(c, st, None).inputs.assets == st.inputs.assets
    decreases ALL_STEPS - st.artifacts.Keys
  {
    hide Advisor, Decide, Runnable, Write;
    var p, action := Advisor(c.engine), Decide(st, None, c.maxRadius, c.mode);
    if action.RunNext? && !c.fails(action.step) {
      StepIsNew(c, st, None);
      p.RunStepShape(st, action.step);
      AdvisorParts(c.engine);
      WriteKeepsProfile(c.engine, action.step, st.inputs, p.Answer(st, action.step));
      LoopKeepsProfile(c, p.RunStep(st, action.step));
    }
  }

  lemma WriteKeepsProfile(e: Engine, s: StepId, f: Facts, x: Payload)
    ensures Write(e, s, f, x).assets == f.assets
  {
  }

  // ---- the failing conversations ----

  /** Engines that tell a plan made without assets from one made with some. */
  const PLAN_ENGINE := Engine(
    (s: StepId, r: Reading, us, os) =>
      Payload(Ok, true, 0, [], [], if s == BuildPlan && r.undeclared.assets != Some({}) then 1 else 0),
    s => 0, 5000)

  lemma PlanTellsAssets(st: Advice)
    requires Advisor(PLAN_ENGINE).Known(st) && Advisor(PLAN_ENGINE).Sound(st) && BuildPlan in st.artifacts
    ensures Advisor(PLAN_ENGINE).Loadable(st, BuildPlan)
    ensures st.artifacts[BuildPlan].payload.detail == 0 <==> st.artifacts[BuildPlan].seen.undeclared.assets == Some({})
    ensures Advisor(PLAN_ENGINE).Answer(st, BuildPlan).detail == 0 <==> st.inputs.assets.current.items == {}
  {
    hide Advisor, Covered, OwnInputs;
    AdvisorReads(PLAN_ENGINE);
    assert Advisor(PLAN_ENGINE).HonestAt(st, BuildPlan);
  }

  /**
   Two messages are enough: name the business, then mention something one owns. The sweep keeps the plan made without it,
   and the plan's runner would now give another.
   */
  lemma AddedAssetLeavesPlanBehind(number: Number, named: Said, m: Said, added: D.AssetUpdate)
    requires NamesBusiness(number, PLAN_ENGINE, named) && m.understood == Adding(added) && added.items != {}
    ensures var p, st := Advisor(PLAN_ENGINE), Reply(number, PLAN_ENGINE, FirstSession(PLAN_ENGINE), named);
            p.Known(st) &&
            var swept := SweptBy(number, PLAN_ENGINE, st, m);
            && BuildPlan in swept.artifacts && p.Loadable(swept, BuildPlan)
            && swept.artifacts[BuildPlan].payload != p.Answer(swept, BuildPlan)
  {
    hide *;
    var p, st := Advisor(PLAN_ENGINE), Reply(number, PLAN_ENGINE, FirstSession(PLAN_ENGINE), named);
    PlanEngineAgrees();
    NamingBuildsPlan(number, PLAN_ENGINE, named);
    ExactParts(PLAN_ENGINE, st);
    AllFreshParts(PLAN_ENGINE, st, BuildPlan);
    AddingKeepsPlan(number, PLAN_ENGINE, st, m, added);
    var swept := SweptBy(number, PLAN_ENGINE, st, m);
    SweptByIsOpening(number, PLAN_ENGINE, st, m);
    OpeningParts(PLAN_ENGINE, swept);
    PlanTellsAssets(st);
    PlanTellsAssets(swept);
    StandingAssets(st);
  }

  lemma PlanEngineAgrees()
    ensures Agreeable(PLAN_ENGINE)
  {
  }

  lemma StandingAssets(st: Advice)
    requires ProfileStands(st) && BuildPlan in st.artifacts
    ensures st.artifacts[BuildPlan].seen.undeclared.assets == Some(st.inputs.assets.current.items)
  {
  }

  /** "A tea shop" is such a first message. */
  const TEA_SHOP := Said(
    D.Understanding([D.SlotUpdate(ProposedBusinessText, "tea shop", "tea shop", AsStated)],
                    None, None, [], [], [], false, false, None),
    None, 25000, Normal, s => false, (s, st) => false)

  lemma TeaShopNamesBusiness(number: Number)
    ensures NamesBusiness(number, PLAN_ENGINE, TEA_SHOP)
  {
    hide Heard, Quiet, FiguresStand;
    TeaShopEdits(number);
    OnlyBusinessIsQuiet(Heard(number, BLANK, TEA_SHOP), TEA_SHOP.maxRadius);
    OnlyBusinessStands(Circumstances(PLAN_ENGINE, TEA_SHOP), Heard(number, BLANK, TEA_SHOP));
  }

  /** The business is stated and no other slot is. */
  ghost predicate OnlyBusiness(f: Facts) {
    ProposedBusinessText in f.slots && f.State(ProposedBusinessText) == UserProvided
    && forall n :: n in f.slots ==> n == ProposedBusinessText
  }

  lemma OnlyBusinessIsQuiet(f: Facts, maxRadius: int)
    requires OnlyBusiness(f) && !f.ended
    ensures Quiet(f, maxRadius)
  {
  }

  lemma OnlyBusinessStands(c: Context, f: Facts)
    requires OnlyBusiness(f) && 0 < c.engine.defaultRadius <= c.maxRadius
    ensures FiguresStand(c, f)
  {
    forall n | n != ProposedBusinessText ensures Figure(f, n) == None && f.State(n) == Missing { }
    assert MonthlyRevenueInr in DRIVERS && Figure(f, LiquidCashInr) == None;
  }

  lemma TeaShopResolves(number: Number)
    ensures D.ResolveSlotValue(number, TEA_SHOP.understood.slotUpdates[0])
         == D.Resolved.Value(D.StoredText(number, "tea shop"))
  {
    assert Text.StripLeft("tea shop") == "tea shop";
    assert Text.StripRight("tea shop") == "tea shop";
  }

  lemma TeaShopStates(number: Number)
    ensures D.Stated(number, TEA_SHOP.understood.slotUpdates, 1)
         == [D.UserProvidedEntry(TEA_SHOP.understood.slotUpdates[0], D.StoredText(number, "tea shop"), 1)]
  {
    hide D.ResolveSlotValue, D.StoredText;
    var us := TEA_SHOP.understood.slotUpdates;
    TeaShopResolves(number);
    assert us[..0] == [];
  }

  lemma TeaShopEdits(number: Number)
    ensures var f := Heard(number, BLANK, TEA_SHOP);
            OnlyBusiness(f) && f.assets == BLANK.assets && !f.ended
  {
    hide D.Stated, D.StoredText;
    var u := TEA_SHOP.understood;
    var entry := D.UserProvidedEntry(u.slotUpdates[0], D.StoredText(number, "tea shop"), 1);
    TeaShopStates(number);
    StatedAlone(number, u, [entry]);
    D.NothingPut(BLANK);
    assert [entry] == [] + [entry];
    D.PutOneMore(BLANK, [], entry);
    TeaShopEditsNoProfile(number);
  }

  lemma TeaShopEditsNoProfile(number: Number)
    ensures var f := Heard(number, BLANK, TEA_SHOP); f.assets == BLANK.assets && !f.ended
  {
    hide D.Stated, D.PutAll, D.Declines;
    var u := TEA_SHOP.understood;
    D.PutTouchesSlotsOnly(BLANK, D.Stated(number, u.slotUpdates, 1) + D.Declines(u.declinedSlots, 1));
    D.NothingPut(D.Edited(number, BLANK, u, 1));
  }
}
