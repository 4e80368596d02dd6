/** The step cache instantiated to the twenty steps: declared inputs, override, runner writes. */
module Artifacts {
  import opened Wrappers
  import opened SessionModels
  import opened Workflow
  import opened StepCache

  datatype DiscoveryStatus = Ok | NoResults | LocationAmbiguous | LocationNotFound | SourceUnavailable

  /** What the planner and the runners' own writes look at in a result; `detail` stands for the rest of it. */
  datatype Payload = Payload(
    status: DiscoveryStatus,
    resolved: bool,
    category: Category,
    subtypes: seq<string>,
    choices: seq<string>,
    detail: nat)

  datatype SlotRepr = SlotRepr(name: SlotName, state: SlotState, value: Option<Value>)

  /** The step's own part of the hashed blob; `None` for a key the step does not include. */
  datatype Own = Own(
    slots: seq<SlotRepr>,
    assets: Option<set<AssetKind>>,
    experience: Option<set<Category>>,
    candidate: Option<Option<int>>,
    category: Option<Option<Category>>,
    subtypes: Option<seq<string>>,
    config: int)

  /**
   What runners take from the session although their steps do not declare it. Of the profile, `OPPORTUNITY` is scored on
   cash, assets, experience and category alone.
   */
  datatype Undeclared = Undeclared(
    assets: Option<set<AssetKind>>,
    experience: Option<set<Category>>,
    category: Option<Option<Category>>,
    subtypes: Option<seq<string>>,
    slots: seq<SlotRepr>)

  /** Everything a runner takes from the session: what its step has to declare, and what it does not declare. */
  datatype Reading = Reading(declared: Own, undeclared: Undeclared)

  /** The engines behind the steps, left uninterpreted, with the configuration they were built with. */
  datatype Engine = Engine(
    run: (StepId, Reading, seq<Payload>, seq<Option<Payload>>) -> Payload,
    config: StepId -> int,
    defaultRadius: int)

  function StepInputSlots(s: StepId): seq<SlotName> {
    match s
    case ResolveProposed => [ProposedBusinessText]
    case Discover => [LocationText, RadiusM]
    case DemandEvidence => [LocationText, RadiusM]
    case Opportunity => [LiquidCashInr]
    case FinanceKnowledge => [LoanPrincipalInr]
    case SchemeCapacity => [LiquidCashInr]
    case StructureFinance => [LiquidCashInr, PromoterCashContributionInr]
    case BuildPlan => [LiquidCashInr, PromoterCashContributionInr, YearsExperience, MonthlyRevenueInr, CogsPct,
                       ProjectCostInr, FixedOpexInr, LoanPrincipalInr, LoanInterestRatePct, LoanTenureMonths,
                       LoanMoratoriumMonths]
    case _ => []
  }

  /** `DEMAND_EVIDENCE` reads only the location, so it does not inherit the category-sensitive fingerprint. */
  function FingerprintUpstream(s: StepId): seq<StepId> {
    if s == DemandEvidence then [] else RequiredSteps(s)
  }

  function Repr(f: Facts, names: seq<SlotName>): (r: seq<SlotRepr>)
    ensures |r| == |names|
    ensures forall k :: 0 <= k < |r| ==> r[k] == SlotRepr(names[k], f.State(names[k]), f.Of(names[k]).current.value)
  {
    if names == [] then [] else
      [SlotRepr(names[0], f.State(names[0]), f.Of(names[0]).current.value)] + Repr(f, names[1..])
  }

  predicate ReadsCategory(s: StepId) {
    s in {BuildPlan, FinanceKnowledge, SchemeCapacity, MarketPriceEvidence}
  }

  function OwnInputs(e: Engine, s: StepId, f: Facts): Own {
    Own(Repr(f, StepInputSlots(s)),
        if s == Opportunity then Some(f.assets.current.items) else None,
        if s == Opportunity then Some(f.experience.current.items) else None,
        if s == Discover || s == DemandEvidence then Some(f.candidate) else None,
        if ReadsCategory(s) then Some(f.category) else None,
        if s == MarketPriceEvidence then Some(f.subtypes) else None,
        e.config(s))
  }

  predicate HasQuestion(o: Own) {
    exists k :: 0 <= k < |o.slots| && o.slots[k].state == Ambiguous
  }

  // ---- what the runners take ----

  /** The slots whose answers a runner looks at; demand evidence takes the place through the discovery it was made with. */
  function TakenSlots(s: StepId): seq<SlotName> {
    match s
    case ResolveProposed => [ProposedBusinessText]
    case Discover => [LocationText, RadiusM]
    case DemandEvidence => [LocationText, RadiusM]
    case Opportunity => [LiquidCashInr]
    case FinanceKnowledge => [LoanPrincipalInr]
    case SchemeCapacity => [LiquidCashInr]
    case BuildPlan => [LiquidCashInr, PromoterCashContributionInr, YearsExperience, MonthlyRevenueInr, CogsPct,
                       ProjectCostInr, FixedOpexInr, LoanPrincipalInr, LoanInterestRatePct, LoanTenureMonths,
                       LoanMoratoriumMonths]
    case _ => []
  }

  /** The discovery runner searches the default radius when none was stated. */
  function WithRadius(e: Engine, s: StepId, slots: seq<SlotRepr>): seq<SlotRepr> {
    if s == Discover && |slots| == 2 && slots[1].state == Missing
    then [slots[0], SlotRepr(RadiusM, Assumed, Some(Count(e.defaultRadius)))]
    else slots
  }

  /** What a runner takes from the session that its step has to declare. */
  function Takes(e: Engine, s: StepId, f: Facts): Own {
    Own(WithRadius(e, s, Repr(f, TakenSlots(s))),
        if s == Opportunity then Some(f.assets.current.items) else None,
        if s == Opportunity then Some(f.experience.current.items) else None,
        if s == Discover || s == DemandEvidence then Some(f.candidate) else None,
        if s == BuildPlan || s == FinanceKnowledge || s == SchemeCapacity then Some(f.category) else None,
        None,
        e.config(s))
  }

  /** Of what a step declares, the part its runner takes from the session; the rest reaches it through other results. */
  function Covered(e: Engine, s: StepId, o: Own): Own {
    o.(slots := if s == StructureFinance then [] else WithRadius(e, s, o.slots),
       category := if s == MarketPriceEvidence then None else o.category, subtypes := None)
  }

  /** Whatever a runner takes of what has to be declared, its step declares. */
  lemma DeclaredCoversTaken(e: Engine, s: StepId, f: Facts)
    ensures Takes(e, s, f) == Covered(e, s, OwnInputs(e, s, f))
  {
    hide Repr, WithRadius, TakenSlots, StepInputSlots;
    SlotsAreDeclared(s);
    if s == StructureFinance { NothingRepresented(e, s, f); }
  }

  lemma SlotsAreDeclared(s: StepId)
    ensures TakenSlots(s) == if s == StructureFinance then [] else StepInputSlots(s)
  {
  }

  lemma NothingRepresented(e: Engine, s: StepId, f: Facts)
    ensures WithRadius(e, s, Repr(f, [])) == []
  {
  }

  /** `BUILD_PLAN` copies the business text into its plan, and `BIND_PLAN` looks at the loan principal. */
  function UndeclaredSlots(s: StepId): seq<SlotName> {
    match s
    case BuildPlan => [ProposedBusinessText]
    case BindPlan => [LoanPrincipalInr]
    case _ => []
  }

  predicate LooksAtCategory(s: StepId) {
    s in {Discover, OpportunityEvidence, Opportunity}
  }

  function UndeclaredReads(s: StepId, f: Facts): Undeclared {
    Undeclared(if s == BuildPlan then Some(f.assets.current.items) else None,
               if s == BuildPlan then Some(f.experience.current.items) else None,
               if LooksAtCategory(s) then Some(f.category) else None,
               if s == BuildPlan then Some(f.subtypes) else None,
               Repr(f, UndeclaredSlots(s)))
  }

  function Read(e: Engine, s: StepId, f: Facts): Reading {
    Reading(Takes(e, s, f), UndeclaredReads(s, f))
  }

  /** Besides answers, these are the fields of the session on which what a runner takes depends. */
  lemma RunnersTake(e: Engine, s: StepId, f: Facts, g: Facts)
    requires f.slots == g.slots
    ensures Read(e, s, f) == Read(e, s, g) <==>
              && (s in {Discover, OpportunityEvidence, Opportunity, FinanceKnowledge, BuildPlan, SchemeCapacity} ==>
                    f.category == g.category)
              && (s == BuildPlan ==> f.subtypes == g.subtypes)
              && (s == Discover || s == DemandEvidence ==> f.candidate == g.candidate)
              && (s == BuildPlan || s == Opportunity ==>
                    f.assets.current.items == g.assets.current.items
                    && f.experience.current.items == g.experience.current.items)
  {
    hide TakenSlots, UndeclaredSlots, WithRadius, Repr;
    SameSlotsSameRepr(f, g, TakenSlots(s));
    SameSlotsSameRepr(f, g, UndeclaredSlots(s));
  }

  /** The category an answer of the resolver leaves. */
  function CategoryOf(x: Payload): Option<Category> {
    if x.resolved then Some(x.category) else None
  }

  /** The text a slot's answer is asked about again; a number is asked about in the words it was given in. */
  function Quoted(v: SlotValue): Option<string> {
    match v.value
    case Some(Text(text)) => Some(text)
    case _ => v.rawText
  }

  /** The session fields a runner writes besides its artifact. */
  function Write(e: Engine, s: StepId, f: Facts, x: Payload): Facts {
    if s == ResolveProposed then
      var g := f.(category := CategoryOf(x), subtypes := x.subtypes);
      if !x.resolved && x.choices != [] then
        SetSlotAmbiguous(g, ProposedBusinessText, x.choices + ["None of these"], Quoted(g.Of(ProposedBusinessText).current))
      else g
    else if s == Discover then
      var g := if f.State(RadiusM) == Missing
               then SetSlotAssumed(f, RadiusM, Count(e.defaultRadius), "config:default_radius_m")
               else f;
      if x.status == LocationAmbiguous then
        SetSlotAmbiguous(g, LocationText, x.choices, Quoted(g.Of(LocationText).current))
      else g
    else f
  }

  /** The choice is about the text on record, or else about the words that gave what is on record. */
  ghost predicate AsksAbout(was: SlotValue, now: SlotValue) {
    if was.value.Some? && was.value.value.Text? then now.rawText == Some(was.value.value.text)
    else now.rawText == was.rawText
  }

  /**
   The resolver leaves its category and subtypes, and asks for a choice exactly when it did not resolve the business but
   has candidates, offering each and one way out.
   */
  lemma ResolverWrites(e: Engine, f: Facts, x: Payload)
    ensures var g := Write(e, ResolveProposed, f, x);
            && g.category == (if x.resolved then Some(x.category) else None) && g.subtypes == x.subtypes
            && (forall n :: n != ProposedBusinessText ==> g.Of(n) == f.Of(n))
            && g.assets == f.assets && g.experience == f.experience && g.candidate == f.candidate && g.ended == f.ended
            && if !x.resolved && |x.choices| > 0
               then var now := g.Of(ProposedBusinessText).current;
                    && now.state == Ambiguous && now.value == None
                    && |now.options| == |x.choices| + 1 && x.choices <= now.options
                    && AsksAbout(f.Of(ProposedBusinessText).current, now)
                    && g.Of(ProposedBusinessText).Timeline() == f.Of(ProposedBusinessText).Timeline() + [now]
               else g.Of(ProposedBusinessText) == f.Of(ProposedBusinessText)
  {
  }

  /** Discovery leaves the default radius where there was none, and asks for a choice exactly when the place is ambiguous. */
  lemma DiscoveryWrites(e: Engine, f: Facts, x: Payload)
    ensures var g := Write(e, Discover, f, x);
            && (forall n :: n != LocationText && n != RadiusM ==> g.Of(n) == f.Of(n))
            && (if f.State(RadiusM) == Missing
                then g.State(RadiusM) == Assumed && g.Of(RadiusM).current.value == Some(Count(e.defaultRadius))
                else g.Of(RadiusM) == f.Of(RadiusM))
            && (if x.status == LocationAmbiguous
                then var now := g.Of(LocationText).current;
                     && now.state == Ambiguous && now.value == None && now.options == x.choices
                     && AsksAbout(f.Of(LocationText).current, now)
                     && g.Of(LocationText).Timeline() == f.Of(LocationText).Timeline() + [now]
                else g.Of(LocationText) == f.Of(LocationText))
            && g.category == f.category && g.subtypes == f.subtypes && g.candidate == f.candidate && g.ended == f.ended
  {
  }

  function Advisor(e: Engine): (p: Pipeline<StepId, Facts, Own, Reading, Payload>) {
    Pipeline(DAG_ORDER, s => RequiredSteps(s), s => FingerprintUpstream(s), s => OptionalSteps(s),
             (s, f) => OwnInputs(e, s, f), o => HasQuestion(o),
             (s, f) => Read(e, s, f), e.run,
             (s, f, x) => Write(e, s, f, x))
  }

  lemma AdvisorParts(e: Engine)
    ensures forall s :: Advisor(e).required(s) == RequiredSteps(s)
    ensures forall s :: Advisor(e).upstream(s) == FingerprintUpstream(s)
    ensures forall s :: Advisor(e).optional(s) == OptionalSteps(s)
    ensures forall s, f, x :: Advisor(e).write(s, f, x) == Write(e, s, f, x)
    ensures forall s, f :: Advisor(e).own(s, f) == OwnInputs(e, s, f)
    ensures Advisor(e).order == DAG_ORDER
  {
  }

  lemma AdvisorReads(e: Engine)
    ensures forall s, f :: Advisor(e).sees(s, f) == Read(e, s, f)
    ensures forall s, r, us, os :: Advisor(e).run(s, r, us, os) == e.run(s, r, us, os)
    ensures forall o :: Advisor(e).asks(o) == HasQuestion(o)
  {
  }

  lemma PosIsIndex(s: StepId)
    ensures s in DAG_ORDER && Pos(DAG_ORDER, s) == Index(s)
  {
  }

  lemma EarlierIsIndex(d: StepId, s: StepId)
    ensures Earlier(DAG_ORDER, d, s) <==> Index(d) < Index(s)
  {
    PosIsIndex(d);
    PosIsIndex(s);
  }

  lemma AdvisorIsWellOrdered(e: Engine)
    ensures Advisor(e).WellOrdered()
  {
    forall i, j | 0 <= i < j < |DAG_ORDER| ensures DAG_ORDER[i] != DAG_ORDER[j] {
      IndexInverse(i);
      IndexInverse(j);
    }
    forall s, d | d in RequiredSteps(s) || d in OptionalSteps(s) ensures Earlier(DAG_ORDER, d, s) {
      DependenciesPrecede(s, d);
      EarlierIsIndex(d, s);
    }
  }

  /** Replacing or adding one slot leaves every other slot as it was. */
  lemma WithFrames(f: Facts, name: SlotName, slot: Slot, names: seq<SlotName>)
    requires name !in names
    ensures Repr(f.With(name, slot), names) == Repr(f, names)
  {
  }

  lemma WriteFrames(e: Engine, s: StepId, f: Facts, x: Payload, names: seq<SlotName>)
    requires s == ResolveProposed ==> ProposedBusinessText !in names
    requires s == Discover ==> RadiusM !in names && LocationText !in names
    ensures Repr(Write(e, s, f, x), names) == Repr(f, names)
  {
  }

  lemma AdvisorWritesForward(e: Engine)
    ensures Advisor(e).WritesForward()
  {
    hide OwnInputs, Read, Write, Index;
    var p := Advisor(e);
    forall s, d, f, x | Earlier(p.order, d, s)
      ensures p.own(d, p.write(s, f, x)) == p.own(d, f) && p.sees(d, p.write(s, f, x)) == p.sees(d, f)
    {
      EarlierIsIndex(d, s);
      EarlierWriteIsInvisible(e, s, d, f, x);
      EarlierWriteIsNotRead(e, s, d, f, x);
    }
  }

  lemma NothingBeforeResolve(d: StepId)
    ensures Index(ResolveProposed) <= Index(d)
  {
  }

  lemma EarlierThanDiscover(d: StepId)
    requires Index(d) < Index(Discover)
    ensures RadiusM !in StepInputSlots(d) && LocationText !in StepInputSlots(d)
  {
  }

  lemma DiscoverKeepsProfile(e: Engine, f: Facts, x: Payload)
    ensures var g := Write(e, Discover, f, x);
            && g.assets == f.assets && g.experience == f.experience && g.candidate == f.candidate
            && g.category == f.category && g.subtypes == f.subtypes
  {
  }

  lemma OthersWriteNothing(e: Engine, s: StepId, f: Facts, x: Payload)
    requires s != ResolveProposed && s != Discover
    ensures Write(e, s, f, x) == f
  {
  }

  lemma EarlierWriteIsInvisible(e: Engine, s: StepId, d: StepId, f: Facts, x: Payload)
    requires Index(d) < Index(s)
    ensures OwnInputs(e, d, Write(e, s, f, x)) == OwnInputs(e, d, f)
  {
    hide Index, StepInputSlots, Repr, Write;
    if s == ResolveProposed {
      NothingBeforeResolve(d);
    } else if s == Discover {
      EarlierThanDiscover(d);
      WriteFrames(e, s, f, x, StepInputSlots(d));
      DiscoverKeepsProfile(e, f, x);
    } else {
      OthersWriteNothing(e, s, f, x);
    }
  }

  /** Nor does it enter anything else an earlier runner takes from the session. */
  lemma EarlierWriteIsNotRead(e: Engine, s: StepId, d: StepId, f: Facts, x: Payload)
    requires Index(d) < Index(s)
    ensures Read(e, d, Write(e, s, f, x)) == Read(e, d, f)
  {
    hide Index, StepInputSlots, Repr, Write, OwnInputs, Takes, Covered;
    EarlierWriteIsInvisible(e, s, d, f, x);
    DeclaredCoversTaken(e, d, f);
    DeclaredCoversTaken(e, d, Write(e, s, f, x));
    if s == ResolveProposed {
      NothingBeforeResolve(d);
    } else if s == Discover {
      WriteFrames(e, s, f, x, UndeclaredSlots(d));
      DiscoverKeepsProfile(e, f, x);
    } else {
      OthersWriteNothing(e, s, f, x);
    }
  }

  lemma AdvisorWritesSettle(e: Engine)
    ensures Advisor(e).WritesSettle()
  {
    hide OwnInputs, Read, Write, HasQuestion;
    var p := Advisor(e);
    forall s, f, x | s in p.order && !p.asks(p.own(s, p.write(s, f, x)))
      ensures p.sees(s, p.write(s, f, x)) == p.sees(s, f)
    {
      WriteSettles(e, s, f, x);
    }
  }

  /** A runner would read the same after its own write, unless that leaves a question open. */
  lemma WriteSettles(e: Engine, s: StepId, f: Facts, x: Payload)
    requires !HasQuestion(OwnInputs(e, s, Write(e, s, f, x)))
    ensures Read(e, s, Write(e, s, f, x)) == Read(e, s, f)
  {
    var before, after := OwnInputs(e, s, f), OwnInputs(e, s, Write(e, s, f, x));
    if s == ResolveProposed {
      assert after.slots[0].state != Ambiguous;
    } else if s == Discover {
      assert after.slots[0].state != Ambiguous;
      assert before.slots == [before.slots[0], before.slots[1]];
      assert after.slots == [after.slots[0], after.slots[1]];
    }
  }

  /**
   The twenty steps are a well-formed pipeline, whatever the engines compute: what a runner writes is declared or read
   by no earlier step, and changes nothing the runner itself would read. That a runner reads no more than its step
   declares is not part of this.
   */
  lemma AdvisorIsWellFormed(e: Engine)
    ensures Advisor(e).WellFormed()
  {
    AdvisorIsWellOrdered(e);
    AdvisorWritesForward(e);
    AdvisorWritesSettle(e);
  }

  /** Two fields of the session that `BUILD_PLAN` copies into its plan can change without a trace in its declared inputs. */
  lemma ProfileIsUndeclared(e: Engine, f: Facts, g: Facts)
    requires g == f.(assets := g.assets, experience := g.experience)
    ensures OwnInputs(e, BuildPlan, f) == OwnInputs(e, BuildPlan, g)
    ensures Read(e, BuildPlan, f) == Read(e, BuildPlan, g) <==>
              f.assets.current.items == g.assets.current.items && f.experience.current.items == g.experience.current.items
  {
    hide StepInputSlots;
    SameSlotsSameRepr(f, g, StepInputSlots(BuildPlan));
    SameSlotsSameRepr(f, g, UndeclaredSlots(BuildPlan));
  }

  lemma {:induction false} SameSlotsSameRepr(f: Facts, g: Facts, names: seq<SlotName>)
    requires f.slots == g.slots
    ensures Repr(f, names) == Repr(g, names)
  {
    if names != [] { SameSlotsSameRepr(f, g, names[1..]); }
  }
}
