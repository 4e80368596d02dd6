/** The questions a NORMAL conversation asks before it delivers, and why it stops asking. */
module Questions {
  import opened Wrappers
  import opened SessionModels
  import opened Workflow
  import opened Artifacts
  import opened Readiness
  import opened Planner
  import opened Turn
  import opened Dialogue
  import opened Raising
  import D = Deltas

  datatype Question = OfItem(item: Item) | OfDriver(driver: SlotName)

  /** In the order they are asked. */
  const QUESTIONS: seq<Question> := [
    OfItem(ProposedBusiness), OfItem(Location), OfItem(OwnedAssets), OfItem(TradeExperience), OfItem(Years),
    OfItem(LiquidCash),
    OfDriver(MonthlyRevenueInr), OfDriver(CogsPct), OfDriver(ProjectCostInr), OfDriver(FixedOpexInr)]

  predicate IsOpen(f: Facts, q: Question) {
    match q
    case OfItem(item) => !ItemSatisfied(f, item)
    case OfDriver(driver) => DriverOpen(f, driver)
  }

  /** The question the planner's answer puts to the user. */
  function Asked(action: NextAction): Option<Question> {
    match action
    case AskItem(item) => Some(OfItem(item))
    case AskDriver(driver) => Some(OfDriver(driver))
    case _ => None
  }

  /** Place in the order of asking. */
  function Place(q: Question): int {
    match q
    case OfItem(ProposedBusiness) => 0 case OfItem(Location) => 1 case OfItem(OwnedAssets) => 2
    case OfItem(TradeExperience) => 3 case OfItem(Years) => 4 case OfItem(LiquidCash) => 5
    case OfDriver(MonthlyRevenueInr) => 6 case OfDriver(CogsPct) => 7 case OfDriver(ProjectCostInr) => 8
    case OfDriver(FixedOpexInr) => 9 case _ => 10
  }

  lemma {:induction false} NextAskIsFirst(f: Facts, order: seq<Item>) returns (k: nat)
    requires NextAsk(f, order).Some?
    ensures k < |order| && order[k] == NextAsk(f, order).value && forall j :: 0 <= j < k ==> ItemSatisfied(f, order[j])
  {
    if !ItemSatisfied(f, order[0]) {
      k := 0;
    } else {
      var rest := NextAskIsFirst(f, order[1..]);
      k := rest + 1;
      assert forall j :: 1 <= j < k ==> order[j] == order[1..][j - 1];
    }
  }

  lemma {:induction false} NextDriverIsFirst(f: Facts, order: seq<SlotName>) returns (k: nat)
    requires NextDriver(f, order).Some?
    ensures k < |order| && order[k] == NextDriver(f, order).value && forall j :: 0 <= j < k ==> !DriverOpen(f, order[j])
  {
    if DriverOpen(f, order[0]) {
      k := 0;
    } else {
      var rest := NextDriverIsFirst(f, order[1..]);
      k := rest + 1;
      assert forall j :: 1 <= j < k ==> order[j] == order[1..][j - 1];
    }
  }

  /** The planner asks the first question still open, and only when no choice is pending. */
  lemma AsksTheFirstOpen(st: Advice, requested: Option<StepId>, maxRadius: int, mode: Mode, q: Question)
    requires st.inputs.Valid() && Asked(Decide(st, requested, maxRadius, mode)) == Some(q)
    ensures IsOpen(st.inputs, q) && 0 <= Place(q) < 10 && QUESTIONS[Place(q)] == q
    ensures forall r :: Place(r) < Place(q) ==> !IsOpen(st.inputs, r)
    ensures forall n :: st.inputs.State(n) != Ambiguous
  {
    hide Decide, ItemSatisfied, DriverOpen, Place, FirstAmbiguous;
    var f := st.inputs;
    AskedParts(st, requested, maxRadius, mode, q);
    NothingPending(f);
    if q.OfItem? {
      var k := NextAskIsFirst(f, COLLECTION_ORDER);
      ItemPlaces(f, k);
    } else {
      var k := NextDriverIsFirst(f, DRIVERS);
      DriverPlaces(f, k);
    }
  }

  lemma AskedParts(st: Advice, requested: Option<StepId>, maxRadius: int, mode: Mode, q: Question)
    requires Asked(Decide(st, requested, maxRadius, mode)) == Some(q)
    ensures FirstAmbiguous(st.inputs, st.inputs.slotOrder).None?
    ensures q.OfItem? ==> NextAsk(st.inputs, COLLECTION_ORDER) == Some(q.item)
    ensures q.OfDriver? ==> NextAsk(st.inputs, COLLECTION_ORDER).None? && NextDriver(st.inputs, DRIVERS) == Some(q.driver)
  {
    hide Chosen, Contradiction, FirstAmbiguous, NextAsk, NextDriver, DiscoverFailure, FirstMissingBlocker;
  }

  lemma ItemPlaces(f: Facts, k: nat)
    requires k < |COLLECTION_ORDER| && forall j :: 0 <= j < k ==> ItemSatisfied(f, COLLECTION_ORDER[j])
    ensures Place(OfItem(COLLECTION_ORDER[k])) == k && QUESTIONS[k] == OfItem(COLLECTION_ORDER[k])
    ensures forall r :: Place(r) < k ==> !IsOpen(f, r)
  {
    hide ItemSatisfied;
    forall r | Place(r) < k ensures !IsOpen(f, r) { assert r.item == COLLECTION_ORDER[Place(r)]; }
  }

  lemma DriverPlaces(f: Facts, k: nat)
    requires NextAsk(f, COLLECTION_ORDER).None?
    requires k < |DRIVERS| && forall j :: 0 <= j < k ==> !DriverOpen(f, DRIVERS[j])
    ensures Place(OfDriver(DRIVERS[k])) == 6 + k && QUESTIONS[6 + k] == OfDriver(DRIVERS[k])
    ensures forall r :: Place(r) < 6 + k ==> !IsOpen(f, r)
  {
    hide ItemSatisfied, DriverOpen, NextAsk;
    forall r | Place(r) < 6 + k ensures !IsOpen(f, r) {
      if r.OfItem? { assert COLLECTION_ORDER[Place(r)] == r.item; } else { assert DRIVERS[Place(r) - 6] == r.driver; }
    }
  }

  // ---- answers ----

  /** The slot behind a question about one. */
  function SlotOf(q: Question): Option<SlotName> {
    match q
    case OfItem(ProposedBusiness) => Some(ProposedBusinessText)
    case OfItem(Location) => Some(LocationText)
    case OfItem(LiquidCash) => Some(LiquidCashInr)
    case OfItem(Years) => Some(YearsExperience)
    case OfItem(OwnedAssets) => None
    case OfItem(TradeExperience) => None
    case OfDriver(driver) => Some(driver)
  }

  /** The understanding has a well-formed update for the slot. */
  ghost predicate States(number: Number, u: D.Understanding, name: SlotName) {
    exists k :: 0 <= k < |u.slotUpdates| && u.slotUpdates[k].slot == name
                && D.ResolveSlotValue(number, u.slotUpdates[k]).Value?
  }

  /** A valid answer, or a refusal where the question may be refused. */
  ghost predicate Answers(number: Number, u: D.Understanding, q: Question) {
    match q
    case OfItem(ProposedBusiness) => States(number, u, ProposedBusinessText)
    case OfItem(Location) => States(number, u, LocationText)
    case OfItem(LiquidCash) => States(number, u, LiquidCashInr)
    case OfItem(Years) => States(number, u, YearsExperience) || YearsExperience in u.declinedSlots
    case OfItem(OwnedAssets) => u.assetUpdate.Some? || u.assetsRemoved != [] || u.assetsDeclined
    case OfItem(TradeExperience) => u.experienceUpdate.Some? || u.experienceRemoved != [] || u.experienceDeclined
    case OfDriver(driver) => States(number, u, driver) || driver in u.declinedSlots
  }

  /** The three facts a refusal does not settle. */
  predicate IsHard(q: Question) {
    q == OfItem(ProposedBusiness) || q == OfItem(Location) || q == OfItem(LiquidCash)
  }

  predicate Refuses(u: D.Understanding, q: Question) {
    IsHard(q) && SlotOf(q).value in u.declinedSlots
  }

  ghost predicate RefusesNoHardFact(u: D.Understanding) {
    forall q :: !Refuses(u, q)
  }

  /** A slot ends up holding the value of some entry put into it, if there is one. */
  lemma {:induction false} PutAllCurrent(f: Facts, es: seq<D.Entry>, name: SlotName)
    ensures (exists e :: e in es && e.slot == name && D.PutAll(f, es).Of(name).current == e.value)
            || ((forall e :: e in es ==> e.slot != name) && D.PutAll(f, es).Of(name) == f.Of(name))
  {
    hide D.Put;
    if es != [] {
      var most, last := es[..|es| - 1], es[|es| - 1];
      PutAllCurrent(f, most, name);
      PutCurrent(D.PutAll(f, most), last, name);
      assert es == most + [last] && last in es;
    }
  }

  lemma PutCurrent(f: Facts, e: D.Entry, name: SlotName)
    ensures if e.slot == name then D.Put(f, e).Of(name).current == e.value else D.Put(f, e).Of(name) == f.Of(name)
  {
  }

  lemma {:induction false} StatesIsStated(number: Number, us: seq<D.SlotUpdate>, turn: int, k: nat)
    requires k < |us| && D.ResolveSlotValue(number, us[k]).Value?
    ensures exists e :: e in D.Stated(number, us, turn) && e.slot == us[k].slot
  {
    hide D.ResolveSlotValue;
    if k == |us| - 1 {
      var e := D.UserProvidedEntry(us[k], D.ResolveSlotValue(number, us[k]).value, turn);
      assert e in D.Stated(number, us, turn);
    } else {
      StatesIsStated(number, us[..|us| - 1], turn, k);
    }
  }

  lemma {:induction false} DeclinedIsDeclined(names: seq<SlotName>, turn: int, name: SlotName)
    requires name in names
    ensures D.DeclinedEntry(name, turn) in D.Declines(names, turn)
  {
    if names[|names| - 1] != name { DeclinedIsDeclined(names[..|names| - 1], turn, name); }
  }

  /** What one message can leave in a numeric slot it mentions. */
  ghost predicate Settled(v: SlotValue, u: D.Understanding, name: SlotName) {
    || (v.state == Declined && name in u.declinedSlots)
    || (v.state == UserProvided && (name in DRIVERS ==> v.value.Some? && !v.value.value.Text?))
  }

  lemma DriversAreNumbers(number: Number, u: D.SlotUpdate)
    requires u.slot in DRIVERS && D.ResolveSlotValue(number, u).Value?
    ensures !D.ResolveSlotValue(number, u).value.Text?
  {
    hide Text.Occurs, Text.Strip, D.NormalizeValue, D.Allowed, D.Kind, DRIVERS;
    NormalizedIsNumber(u.valueToken, u.normalization);
    DriversAreNumeric(u.slot);
  }

  lemma DriversAreNumeric(name: SlotName)
    requires name in DRIVERS
    ensures D.Kind(name) == D.MoneyInr || D.Kind(name) == D.PercentRatio
  {
  }

  lemma NormalizedIsNumber(token: string, n: Normalization)
    ensures D.NormalizeValue(token, n).Some? ==> !D.NormalizeValue(token, n).value.Text?
  {
    hide D.FirstNumeral, D.DecimalOf, D.Truncate;
  }

  lemma EntriesSettle(number: Number, u: D.Understanding, turn: int, e: D.Entry)
    requires e in D.Stated(number, u.slotUpdates, turn) + D.Declines(u.declinedSlots, turn)
    ensures Settled(e.value, u, e.slot)
  {
    hide D.Stated, D.Declines, D.ResolveSlotValue, D.Kind, DRIVERS;
    if e in D.Stated(number, u.slotUpdates, turn) {
      D.StatedAreUserProvided(number, u.slotUpdates, turn, e);
      var x :| x in u.slotUpdates && D.ResolveSlotValue(number, x).Value?
               && e == D.UserProvidedEntry(x, D.ResolveSlotValue(number, x).value, turn);
      if x.slot in DRIVERS { DriversAreNumbers(number, x); }
    } else {
      D.DeclinesAreDeclined(u.declinedSlots, turn, e);
    }
  }

  predicate IsQuestion(q: Question) {
    q.OfDriver? ==> q.driver in DRIVERS
  }

  /** Before the choice: answered questions are closed and closed ones stay so. */
  lemma EditCloses(number: Number, f: Facts, u: D.Understanding, turn: int, q: Question)
    requires !Refuses(u, q) && IsQuestion(q) && (Answers(number, u, q) || !IsOpen(f, q))
    ensures !IsOpen(D.Edited(number, f, u, turn), q)
  {
    hide D.Stated, D.Declines, D.PutAll, D.ResolveSlotValue;
    var es := D.Stated(number, u.slotUpdates, turn) + D.Declines(u.declinedSlots, turn);
    var g := D.Edited(number, f, u, turn);
    if SlotOf(q).Some? {
      var name := SlotOf(q).value;
      assert g.Of(name) == D.PutAll(f, es).Of(name);
      PutAllCurrent(f, es, name);
      if e :| e in es && e.slot == name && D.PutAll(f, es).Of(name).current == e.value {
        EntriesSettle(number, u, turn, e);
        SettledCloses(g, u, q, name);
      } else {
        if Answers(number, u, q) { AnswersAreEntries(number, u, turn, q, name); }
        SameSlotSameAnswer(f, g, q, name);
      }
    } else {
      ProfileCloses(number, f, u, turn, q);
    }
  }

  lemma SettledCloses(g: Facts, u: D.Understanding, q: Question, name: SlotName)
    requires !Refuses(u, q) && IsQuestion(q) && SlotOf(q) == Some(name) && Settled(g.Of(name).current, u, name)
    ensures !IsOpen(g, q)
  {
  }

  lemma AnswersAreEntries(number: Number, u: D.Understanding, turn: int, q: Question, name: SlotName)
    requires Answers(number, u, q) && SlotOf(q) == Some(name)
    ensures exists e :: e in D.Stated(number, u.slotUpdates, turn) + D.Declines(u.declinedSlots, turn) && e.slot == name
  {
    hide D.Stated, D.Declines, D.ResolveSlotValue;
    if States(number, u, name) {
      var k :| 0 <= k < |u.slotUpdates| && u.slotUpdates[k].slot == name
               && D.ResolveSlotValue(number, u.slotUpdates[k]).Value?;
      StatesIsStated(number, u.slotUpdates, turn, k);
    } else {
      DeclinedIsDeclined(u.declinedSlots, turn, name);
    }
  }

  lemma SameSlotSameAnswer(f: Facts, g: Facts, q: Question, name: SlotName)
    requires SlotOf(q) == Some(name) && f.Of(name) == g.Of(name) && !IsOpen(f, q)
    ensures !IsOpen(g, q)
  {
  }

  lemma ProfileCloses(number: Number, f: Facts, u: D.Understanding, turn: int, q: Question)
    requires SlotOf(q) == None && (Answers(number, u, q) || !IsOpen(f, q))
    ensures !IsOpen(D.Edited(number, f, u, turn), q)
  {
    hide D.Stated, D.Declines, D.PutAll;
    assert q == OfItem(OwnedAssets) || q == OfItem(TradeExperience);
  }

  /** A message closes what it answers and reopens nothing, short of refusing one of the three hard facts. */
  lemma AnswerClosesAndReopensNothing(number: Number, f: Facts, u: D.Understanding, turn: int, q: Question)
    requires !Refuses(u, q) && IsQuestion(q) && (Answers(number, u, q) || !IsOpen(f, q))
    ensures !IsOpen(D.Applied(number, f, u, turn), q)
  {
    hide D.Stated, D.Declines, D.Edited;
    EditCloses(number, f, u, turn, q);
    var g := D.Edited(number, f, u, turn);
    var h := D.Applied(number, f, u, turn);
    ChoiceTouchesPending(number, g, u, turn);
    if SlotOf(q).Some? {
      var name := SlotOf(q).value;
      ClosedIsNotPending(g, q, name);
      SameSlotSameAnswer(g, h, q, name);
    }
  }

  lemma {:induction false} PutAllJoins(f: Facts, a: seq<D.Entry>, b: seq<D.Entry>)
    ensures D.PutAll(f, a + b) == D.PutAll(D.PutAll(f, a), b)
  {
    if b == [] {
      assert a + b == a;
    } else {
      assert (a + b)[..|a + b| - 1] == a + b[..|b| - 1];
      PutAllJoins(f, a, b[..|b| - 1]);
    }
  }

  /** A refusal takes effect after every statement of the same message, so a refused hard fact is open whatever was said. */
  lemma RefusedHardFactIsOpen(number: Number, f: Facts, u: D.Understanding, turn: int, q: Question)
    requires Refuses(u, q)
    ensures IsOpen(D.Applied(number, f, u, turn), q)
  {
    hide D.Stated, D.Declines, D.PutAll, D.ChoiceMade, D.AssetsAfter, D.ExperienceAfter;
    var name := SlotOf(q).value;
    var stated, declines := D.Stated(number, u.slotUpdates, turn), D.Declines(u.declinedSlots, turn);
    var g := D.Edited(number, f, u, turn);
    PutAllJoins(f, stated, declines);
    PutAllCurrent(D.PutAll(f, stated), declines, name);
    DeclinedIsDeclined(u.declinedSlots, turn, name);
    var e :| e in declines && e.slot == name && D.PutAll(f, stated + declines).Of(name).current == e.value;
    D.DeclinesAreDeclined(u.declinedSlots, turn, e);
    assert g.Of(name) == D.PutAll(f, stated + declines).Of(name);
    ChoiceTouchesPending(number, g, u, turn);
  }

  /** An answered question is closed afterwards exactly when the message does not also refuse a hard fact. */
  lemma AnswerClosesExactlyWhenNotRefused(number: Number, f: Facts, u: D.Understanding, turn: int, q: Question)
    requires IsQuestion(q) && Answers(number, u, q)
    ensures !IsOpen(D.Applied(number, f, u, turn), q) <==> !Refuses(u, q)
  {
    hide D.Applied, IsOpen, Answers;
    if Refuses(u, q) {
      RefusedHardFactIsOpen(number, f, u, turn, q);
    } else {
      AnswerClosesAndReopensNothing(number, f, u, turn, q);
    }
  }

  lemma ClosedIsNotPending(g: Facts, q: Question, name: SlotName)
    requires SlotOf(q) == Some(name) && !IsOpen(g, q)
    ensures g.State(name) != Ambiguous
  {
  }

  lemma ChoiceTouchesPending(number: Number, g: Facts, u: D.Understanding, turn: int)
    ensures var h := D.PutAll(g.(candidate := if u.selectedChoice.Some? then u.selectedChoice else g.candidate),
                              D.ChoiceMade(number, g, u, turn));
            && (forall n :: g.State(n) != Ambiguous ==> h.Of(n) == g.Of(n))
            && h.assets == g.assets && h.experience == g.experience
  {
    D.NothingPut(g.(candidate := if u.selectedChoice.Some? then u.selectedChoice else g.candidate));
  }

  // ---- what engines may do to answers meanwhile ----

  /** Apart from the assumed radius, a turn's runs leave a slot alone or open a choice on it. */
  ghost predicate OnlyAsks(f: Facts, g: Facts) {
    && (forall n :: n != RadiusM ==> g.Of(n) == f.Of(n) || g.State(n) == Ambiguous)
    && g.assets == f.assets && g.experience == f.experience
  }

  lemma WriteOnlyAsks(e: Engine, s: StepId, f: Facts, x: Payload)
    ensures OnlyAsks(f, Write(e, s, f, x))
  {
    hide OnlyAsks, SetSlotAmbiguous, SetSlotAssumed;
    OnlyAsksItself(f);
    if s == ResolveProposed {
      var g := f.(category := CategoryOf(x), subtypes := x.subtypes);
      ResolvedOnlyAsks(f, g.category, g.subtypes);
      AskOnlyAsks(g, ProposedBusinessText, x.choices + ["None of these"], Quoted(g.Of(ProposedBusinessText).current));
      OnlyAsksComposes(f, g, SetSlotAmbiguous(g, ProposedBusinessText, x.choices + ["None of these"],
                                              Quoted(g.Of(ProposedBusinessText).current)));
    } else if s == Discover {
      var g := if f.State(RadiusM) == Missing
               then SetSlotAssumed(f, RadiusM, Count(e.defaultRadius), "config:default_radius_m") else f;
      AssumeOnlyAsks(f, Count(e.defaultRadius), "config:default_radius_m");
      AskOnlyAsks(g, LocationText, x.choices, Quoted(g.Of(LocationText).current));
      OnlyAsksComposes(f, g, SetSlotAmbiguous(g, LocationText, x.choices, Quoted(g.Of(LocationText).current)));
    }
  }

  lemma ResolvedOnlyAsks(f: Facts, category: Option<Category>, subtypes: seq<string>)
    ensures OnlyAsks(f, f.(category := category, subtypes := subtypes))
  {
  }

  lemma AskOnlyAsks(f: Facts, name: SlotName, options: seq<string>, rawText: Option<string>)
    ensures OnlyAsks(f, SetSlotAmbiguous(f, name, options, rawText))
  {
  }

  lemma AssumeOnlyAsks(f: Facts, value: Value, source: string)
    ensures OnlyAsks(f, SetSlotAssumed(f, RadiusM, value, source))
  {
  }

  lemma {:induction false} LoopOnlyAsks(c: Context, st: Advice, requested: Option<StepId>)
    requires Proper(c, st)
    ensures OnlyAsks(st.inputs, Loop(c, st, requested).inputs)
    decreases ALL_STEPS - st.artifacts.Keys
  {
    hide Advisor, Decide, Runnable, Write, OnlyAsks;
    var p := Advisor(c.engine);
    var action := Decide(st, requested, c.maxRadius, c.mode);
    if action.RunNext? && !c.fails(action.step) {
      StepIsNew(c, st, requested);
      var after := p.RunStep(st, action.step);
      p.RunStepShape(st, action.step);
      AdvisorParts(c.engine);
      WriteOnlyAsks(c.engine, action.step, st.inputs, p.Answer(st, action.step));
      LoopOnlyAsks(c, after, None);
      OnlyAsksComposes(st.inputs, after.inputs, Loop(c, st, requested).inputs);
    } else {
      OnlyAsksItself(st.inputs);
    }
  }

  lemma OnlyAsksItself(f: Facts)
    ensures OnlyAsks(f, f)
  {
  }

  lemma OnlyAsksComposes(f: Facts, g: Facts, h: Facts)
    requires OnlyAsks(f, g) && OnlyAsks(g, h)
    ensures OnlyAsks(f, h)
  {
  }

  lemma ClosedSurvives(f: Facts, g: Facts, q: Question)
    requires OnlyAsks(f, g) && IsQuestion(q) && !IsOpen(f, q) && forall n :: g.State(n) != Ambiguous
    ensures !IsOpen(g, q)
  {
  }

  // ---- figures that make the turn raise ----

  /** With these answers and these sources down, the message is saved. */
  ghost predicate IsSaved(number: Number, e: Engine, st: Advice, m: Said, run: Runner, fails: StepId -> bool) {
    Advisor(e.(run := run)).Known(st) && !Lost(number, e.(run := run), st, m.(fails := fails))
  }

  lemma HeardIgnoresSources(number: Number, f: Facts, m: Said, fails: StepId -> bool)
    ensures Heard(number, f, m.(fails := fails)) == Heard(number, f, m)
  {
    hide D.Applied;
  }

  lemma SavedMeansComesThrough(number: Number, e: Engine, st: Advice, m: Said, run: Runner, fails: StepId -> bool)
    requires Advisor(e).Known(st)
    ensures IsSaved(number, e, st, m, run, fails)
       <==> ComesThrough(Circumstances(e, m), SweptBy(number, e, st, m), m.requested, run, fails)
  {
    hide Advisor, Heard, Raises;
    var d := e.(run := run);
    HeardIgnoresSources(number, st.inputs, m, fails);
    SweepIgnoresRunner(e, d, st.(inputs := Heard(number, st.inputs, m)));
    assert With(Circumstances(e, m), run, fails) == Circumstances(d, m.(fails := fails));
    KnownIsProper(Circumstances(d, m.(fails := fails)), SweptBy(number, e, st, m));
  }

  /**
   Told from the session and the message before the turn: the message is saved, whatever the engines answer and whichever
   sources are down, if and only if no step that may run, and no rung after them, refuses a figure it leaves.
   */
  lemma MessageIsSavedExactlyWhenAccepted(number: Number, e: Engine, st: Advice, m: Said)
    requires Advisor(e).Known(st) && Sincere(number, st.inputs) && NothingBreaks(Circumstances(e, m))
    ensures (forall run, fails :: IsSaved(number, e, st, m, run, fails))
       <==> Accepts(Circumstances(e, m), SweptBy(number, e, st, m))
  {
    hide *;
    var c, swept := Circumstances(e, m), SweptBy(number, e, st, m);
    HeardIsValid(number, st.inputs, m);
    SweptByHears(number, e, st, m);
    TurnComesThroughExactlyWhenAccepted(c, swept, m.requested);
    forall run, fails
      ensures IsSaved(number, e, st, m, run, fails) <==> ComesThrough(c, swept, m.requested, run, fails)
    {
      SavedMeansComesThrough(number, e, st, m, run, fails);
    }
  }

  /** A message after which every figure is one the plan, the loan and the search take is never lost. */
  lemma StandingIsNotLost(number: Number, e: Engine, st: Advice, m: Said)
    requires Advisor(e).Known(st) && FiguresStand(Circumstances(e, m), Heard(number, st.inputs, m))
    requires NothingBreaks(Circumstances(e, m))
    ensures !Lost(number, e, st, m)
  {
    hide Advisor, FiguresStand, Heard, Loop, Raises;
    RaisesMeansRefused(Circumstances(e, m), SweptBy(number, e, st, m), m.requested);
  }

  predicate IsNegative(v: Value) {
    (v.Amount? && v.amount < 0.0) || (v.Count? && v.count < 0)
  }

  /** A message whose one statement about a plan slot is negative leaves facts from which no plan can be built. */
  lemma NegativeAnswerIsRefused(number: Number, f: Facts, u: D.Understanding, turn: int, k: nat, v: Value)
    requires k < |u.slotUpdates| && D.ResolveSlotValue(number, u.slotUpdates[k]) == D.Resolved.Value(v) && IsNegative(v)
    requires u.slotUpdates[k].slot !in u.declinedSlots
    requires u.slotUpdates[k].slot !in {LocationText, ProposedBusinessText, RadiusM, LiquidCashInr, YearsExperience}
    requires forall j :: 0 <= j < |u.slotUpdates| && j != k ==> u.slotUpdates[j].slot != u.slotUpdates[k].slot
    ensures !PlanBuilds(D.Applied(number, f, u, turn))
  {
    hide D.Applied, D.ResolveSlotValue;
    D.LastStatementStands(number, f, u, turn, k, v);
    PlanTakesNoNegative(D.Applied(number, f, u, turn), u.slotUpdates[k].slot);
  }

  /** "-5" is such a statement: the numeral pattern takes a leading minus. */
  lemma MinusIsTaken(number: Number, name: SlotName)
    requires D.Kind(name) == D.MoneyInr
    ensures D.ResolveSlotValue(number, D.SlotUpdate(name, "-5", "-5", AsStated)) == D.Resolved.Value(Amount(-5.0))
  {
    hide D.FirstNumeral, D.DecimalOf, Text.Occurs, Text.Strip;
    MinusNumeral();
    FrontOccurs("-5", "-5");
  }

  lemma MinusNumeral()
    ensures D.FirstNumeral("-5") == Some("-5") && D.Numerals.StripCommas("-5") == "-5" && D.DecimalOf("-5") == -5.0
  {
    hide D.UnsignedOf, D.Numerals.MatchLength, D.NumberFormat.DigitOf;
    D.DigitNumeral(5);
    D.DigitDecimal(5);
    FiveIsDigit();
    assert "-5"[1..] == [D.NumberFormat.DigitOf(5)] && "-5"[..2] == "-5";
    assert D.Numerals.StripCommas("-5") == "-" + D.Numerals.StripCommas("-5"[1..]);
  }

  lemma FiveIsDigit()
    ensures D.NumberFormat.DigitOf(5) == '5'
  {
  }

  /** In NORMAL mode nothing saved on a refused figure asks for a further fact or delivers an advisory. */
  lemma {:induction false} RefusedFigureStopsTheInterview(c: Context, st: Advice, requested: Option<StepId>)
    requires Proper(c, st) && c.mode == Normal && !PlanBuilds(st.inputs) && !Raises(c, st, requested)
    ensures var action := Decide(Loop(c, st, requested), None, c.maxRadius, c.mode);
            !action.AskItem? && !action.AskDriver? && !action.DeliverFinal? && !action.DeliverPartial?
    decreases ALL_STEPS - st.artifacts.Keys
  {
    hide Advisor, Decide, Runnable, PlanBuilds, Write, Index;
    var p := Advisor(c.engine);
    var action := Decide(st, requested, c.maxRadius, c.mode);
    RaisesUnfolds(c, st, requested);
    LoopUnfolds(c, st, requested);
    if action.RunNext? && !c.fails(action.step) {
      StepIsNew(c, st, requested);
      p.RunStepShape(st, action.step);
      AdvisorParts(c.engine);
      WriteKeepsFigures(c.engine, action.step, st.inputs, p.Answer(st, action.step));
      RefusedFigureStopsTheInterview(c, p.RunStep(st, action.step), None);
    } else {
      RequestDoesNotMatter(st, requested, c.maxRadius, c.mode);
    }
  }

  lemma RequestDoesNotMatter(st: Advice, requested: Option<StepId>, maxRadius: int, mode: Mode)
    ensures var a, b := Decide(st, requested, maxRadius, mode), Decide(st, None, maxRadius, mode);
            if a.RunNext? then b.RunNext? else b == a
  {
    hide Runnable, Index, Contradiction, FirstAmbiguous, NextAsk, NextDriver;
  }

  /** Engines leave a question other than that for business and place as the message left it. */
  lemma RepliedIsHeard(number: Number, e: Engine, st: Advice, m: Said, q: Question)
    requires Advisor(e).Known(st) && Sincere(number, st.inputs) && !Lost(number, e, st, m)
    requires q != OfItem(ProposedBusiness) && q != OfItem(Location) && IsQuestion(q)
    ensures IsOpen(Reply(number, e, st, m).inputs, q)
       <==> IsOpen(D.Applied(number, st.inputs, m.understood, st.inputs.turn + 1), q)
  {
    hide Advisor, Loop, D.Applied, Lost, SweptBy, IsOpen;
    var after, heard := Reply(number, e, st, m), Heard(number, st.inputs, m);
    SweptByHears(number, e, st, m);
    LoopKeepsOthers(Circumstances(e, m), SweptBy(number, e, st, m), m.requested);
    SameAnswers(heard, after.inputs, q);
    TurnDoesNotMatter(D.Applied(number, st.inputs, m.understood, st.inputs.turn + 1), st.inputs.turn + 1, q);
  }

  lemma SweptByHears(number: Number, e: Engine, st: Advice, m: Said)
    requires Advisor(e).Known(st)
    ensures SweptBy(number, e, st, m).inputs == Heard(number, st.inputs, m)
  {
    hide Advisor, Heard;
  }

  lemma SameAnswers(f: Facts, g: Facts, q: Question)
    requires q != OfItem(ProposedBusiness) && q != OfItem(Location) && IsQuestion(q)
    requires forall n :: n !in {LocationText, RadiusM, ProposedBusinessText} ==> g.Of(n) == f.Of(n)
    requires g.assets == f.assets && g.experience == f.experience
    ensures IsOpen(f, q) <==> IsOpen(g, q)
  {
  }

  lemma {:induction false} LoopKeepsOthers(c: Context, st: Advice, requested: Option<StepId>)
    requires Proper(c, st)
    ensures var f, g := st.inputs, Loop(c, st, requested).inputs;
            && (forall n :: n !in {LocationText, RadiusM, ProposedBusinessText} ==> g.Of(n) == f.Of(n))
            && g.assets == f.assets && g.experience == f.experience
    decreases ALL_STEPS - st.artifacts.Keys
  {
    hide Advisor, Decide, Runnable, Write;
    var p, action := Advisor(c.engine), Decide(st, requested, c.maxRadius, c.mode);
    if action.RunNext? && !c.fails(action.step) {
      StepIsNew(c, st, requested);
      p.RunStepShape(st, action.step);
      AdvisorParts(c.engine);
      WriteKeepsOthers(c.engine, action.step, st.inputs, p.Answer(st, action.step));
      WriteKeepsSets(c.engine, action.step, st.inputs, p.Answer(st, action.step));
      LoopKeepsOthers(c, p.RunStep(st, action.step), None);
    }
  }

  lemma WriteKeepsSets(e: Engine, s: StepId, f: Facts, x: Payload)
    ensures Write(e, s, f, x).assets == f.assets && Write(e, s, f, x).experience == f.experience
  {
  }

  /** An answer settles its question for good exactly when the message does not refuse it and the turn does not raise. */
  lemma AnswerIsKeptExactlyWhenSaved(number: Number, e: Engine, st: Advice, m: Said, q: Question)
    requires Advisor(e).Known(st) && Sincere(number, st.inputs) && IsQuestion(q) && IsOpen(st.inputs, q)
    requires q != OfItem(ProposedBusiness) && q != OfItem(Location) && Answers(number, m.understood, q)
    ensures !IsOpen(Reply(number, e, st, m).inputs, q) <==> !Refuses(m.understood, q) && !Lost(number, e, st, m)
  {
    hide Advisor, D.Applied, IsOpen, Answers, Lost, Sincere, Loop;
    if !Lost(number, e, st, m) {
      AnswerClosesExactlyWhenNotRefused(number, st.inputs, m.understood, st.inputs.turn + 1, q);
      RepliedIsHeard(number, e, st, m, q);
    }
  }

  /** With these answers and these sources down, the question is closed after the turn. */
  ghost predicate IsKept(
    number: Number, e: Engine, st: Advice, m: Said, q: Question, run: Runner, fails: StepId -> bool)
  {
    var d := e.(run := run);
    Advisor(d).Known(st) && !IsOpen(Reply(number, d, st, m.(fails := fails)).inputs, q)
  }

  lemma KeptMeansSaved(number: Number, e: Engine, st: Advice, m: Said, q: Question, run: Runner, fails: StepId -> bool)
    requires Advisor(e).Known(st) && Sincere(number, st.inputs) && IsQuestion(q) && IsOpen(st.inputs, q)
    requires q != OfItem(ProposedBusiness) && q != OfItem(Location) && Answers(number, m.understood, q)
    ensures IsKept(number, e, st, m, q, run, fails)
       <==> !Refuses(m.understood, q) && IsSaved(number, e, st, m, run, fails)
  {
    hide Advisor, IsOpen, Answers, Lost, Sincere, Reply;
    var d := e.(run := run);
    SweepIgnoresRunner(e, d, st);
    AnswerIsKeptExactlyWhenSaved(number, d, st, m.(fails := fails), q);
  }

  /**
   So an answer settles its question for good, whatever the engines answer and whichever sources are down, exactly when
   the message does not refuse it and leaves accepted figures.
   */
  lemma AnswerIsKeptExactlyWhenAccepted(number: Number, e: Engine, st: Advice, m: Said, q: Question)
    requires Advisor(e).Known(st) && Sincere(number, st.inputs) && IsQuestion(q) && IsOpen(st.inputs, q)
    requires q != OfItem(ProposedBusiness) && q != OfItem(Location) && Answers(number, m.understood, q)
    requires NothingBreaks(Circumstances(e, m))
    ensures (forall run, fails :: IsKept(number, e, st, m, q, run, fails))
       <==> !Refuses(m.understood, q) && Accepts(Circumstances(e, m), SweptBy(number, e, st, m))
  {
    hide *;
    MessageIsSavedExactlyWhenAccepted(number, e, st, m);
    forall run, fails
      ensures IsKept(number, e, st, m, q, run, fails)
         <==> !Refuses(m.understood, q) && IsSaved(number, e, st, m, run, fails)
    {
      KeptMeansSaved(number, e, st, m, q, run, fails);
    }
    if forall run, fails :: IsKept(number, e, st, m, q, run, fails) {
      assert IsKept(number, e, st, m, q, (s, r, us, os) => Payload(Ok, true, 0, [], [], 0), s => false);
    }
  }

  // ---- interviews ----

  ghost predicate AsksAt(st: Advice, q: Question) {
    exists requested, maxRadius :: Asked(Decide(st, requested, maxRadius, Normal)) == Some(q)
  }

  /** After a valid answer on which the turn does not raise, the next question asked, if any, is a later one. */
  lemma NextQuestionIsLater(number: Number, e: Engine, st: Advice, m: Said, q: Question, next: Question)
    requires Advisor(e).Known(st) && Sincere(number, st.inputs)
    requires AsksAt(st, q) && Answers(number, m.understood, q) && RefusesNoHardFact(m.understood)
    requires !Lost(number, e, st, m) && AsksAt(Reply(number, e, st, m), next)
    ensures Place(q) < Place(next) < 10
  {
    hide Advisor, Decide, Loop, Answers, D.Applied, IsOpen, Continues, AsksAt, Lost;
    var after := Reply(number, e, st, m);
    ReplyContinues(number, e, st, m);
    AskedIsFirst(st, q);
    AskedIsFirst(after, next);
    var heard := Heard(number, st.inputs, m);
    LoopOnlyAsks(Circumstances(e, m), SweptBy(number, e, st, m), m.requested);
    forall r | IsQuestion(r) && Place(r) <= Place(q) ensures !IsOpen(after.inputs, r) {
      if Place(r) == Place(q) { SamePlace(q, r); }
      AnswerClosesAndReopensNothing(number, st.inputs, m.understood, st.inputs.turn + 1, r);
      TurnDoesNotMatter(D.Applied(number, st.inputs, m.understood, st.inputs.turn + 1), st.inputs.turn + 1, r);
      ClosedSurvives(heard, after.inputs, r);
    }
    PlacedIsQuestion(next);
  }

  lemma AskedIsFirst(st: Advice, q: Question)
    requires st.inputs.Valid() && AsksAt(st, q)
    ensures IsOpen(st.inputs, q) && 0 <= Place(q) < 10 && QUESTIONS[Place(q)] == q
    ensures forall r :: Place(r) < Place(q) ==> !IsOpen(st.inputs, r)
    ensures forall n :: st.inputs.State(n) != Ambiguous
  {
    hide Decide, IsOpen;
    var requested, maxRadius :| Asked(Decide(st, requested, maxRadius, Normal)) == Some(q);
    AsksTheFirstOpen(st, requested, maxRadius, Normal, q);
  }

  lemma SamePlace(q: Question, r: Question)
    requires IsQuestion(r) && Place(r) == Place(q) && 0 <= Place(q) < 10
    ensures q == r
  {
  }

  lemma PlacedIsQuestion(q: Question)
    requires 0 <= Place(q) < 10
    ensures IsQuestion(q)
  {
  }

  lemma TurnDoesNotMatter(f: Facts, turn: int, q: Question)
    ensures IsOpen(f.(turn := turn), q) == IsOpen(f, q)
  {
  }

  /**
   A stretch of a conversation in which every reply is a collection question, every message answers it, and no turn
   raises.
   */
  ghost predicate Interview(number: Number, e: Engine, met: seq<Advice>, said: seq<Said>, asked: seq<Question>) {
    && 0 < |met| == |asked| == |said| + 1
    && Sincere(number, met[0].inputs)
    && (forall k :: 0 <= k < |met| ==> Advisor(e).Known(met[k]) && AsksAt(met[k], asked[k]))
    && forall k, l :: 0 <= k && l == k + 1 && l < |met| ==>
         && met[l] == Reply(number, e, met[k], said[k]) && !Lost(number, e, met[k], said[k])
         && Answers(number, said[k].understood, asked[k]) && RefusesNoHardFact(said[k].understood)
  }

  lemma {:induction false} InterviewIsSincere(
    number: Number, e: Engine, met: seq<Advice>, said: seq<Said>, asked: seq<Question>, k: nat)
    requires Interview(number, e, met, said, asked) && k < |met|
    ensures Sincere(number, met[k].inputs)
  {
    hide Advisor, Sincere, Reply, Lost, AsksAt, Answers, RefusesNoHardFact;
    if k > 0 {
      InterviewIsSincere(number, e, met, said, asked, k - 1);
      ReplyContinues(number, e, met[k - 1], said[k - 1]);
    }
  }

  lemma {:induction false} PlacesIncrease(
    number: Number, e: Engine, met: seq<Advice>, said: seq<Said>, asked: seq<Question>, i: nat, j: nat)
    requires Interview(number, e, met, said, asked) && i < j < |asked|
    ensures Place(asked[i]) + (j - i) <= Place(asked[j]) < 10
    decreases j
  {
    hide Advisor, Sincere, Reply, Lost, AsksAt, Answers, RefusesNoHardFact, Place;
    InterviewIsSincere(number, e, met, said, asked, j - 1);
    NextQuestionIsLater(number, e, met[j - 1], said[j - 1], asked[j - 1], asked[j]);
    if i < j - 1 { PlacesIncrease(number, e, met, said, asked, i, j - 1); }
  }

  /** Questioning ends: at most ten questions, each asked once, in the fixed order. */
  lemma InterviewIsShort(number: Number, e: Engine, met: seq<Advice>, said: seq<Said>, asked: seq<Question>)
    requires Interview(number, e, met, said, asked)
    ensures |asked| <= 10
    ensures forall i, j :: 0 <= i < j < |asked| ==> Place(asked[i]) < Place(asked[j])
  {
    hide Advisor, Sincere, Reply, Lost, AsksAt, Answers, RefusesNoHardFact, Place;
    forall i, j | 0 <= i < j < |asked| ensures Place(asked[i]) < Place(asked[j]) {
      PlacesIncrease(number, e, met, said, asked, i, j);
    }
    if |asked| > 1 {
      PlacesIncrease(number, e, met, said, asked, 0, |asked| - 1);
      PlaceIsNatural(asked[0]);
    }
  }

  lemma PlaceIsNatural(q: Question)
    ensures Place(q) >= 0
  {
  }

  // ---- whole conversations, whatever comes between the questions ----

  /** Answered and not taken back: at most a choice is pending on it. */
  ghost predicate Closed(f: Facts, q: Question) {
    !IsOpen(f, q) || (SlotOf(q).Some? && f.State(SlotOf(q).value) == Ambiguous)
  }

  lemma EditKeepsClosed(number: Number, f: Facts, u: D.Understanding, turn: int, q: Question)
    requires IsQuestion(q) && Closed(f, q) && !Refuses(u, q)
    ensures Closed(D.Edited(number, f, u, turn), q)
  {
    hide D.Stated, D.Declines, D.PutAll, D.Edited;
    if !IsOpen(f, q) {
      EditCloses(number, f, u, turn, q);
    } else {
      PendingIsSettledOrStays(number, f, u, turn, q, SlotOf(q).value);
    }
  }

  lemma PendingIsSettledOrStays(number: Number, f: Facts, u: D.Understanding, turn: int, q: Question, name: SlotName)
    requires IsQuestion(q) && SlotOf(q) == Some(name) && f.State(name) == Ambiguous && !Refuses(u, q)
    ensures Closed(D.Edited(number, f, u, turn), q)
  {
    hide D.Stated, D.Declines, D.PutAll;
    var es := D.Stated(number, u.slotUpdates, turn) + D.Declines(u.declinedSlots, turn);
    var g := D.Edited(number, f, u, turn);
    assert g.Of(name) == D.PutAll(f, es).Of(name);
    PutAllCurrent(f, es, name);
    if e :| e in es && e.slot == name && D.PutAll(f, es).Of(name).current == e.value {
      EntriesSettle(number, u, turn, e);
      SettledCloses(g, u, q, name);
    }
  }

  lemma ChoiceKeepsClosed(number: Number, g: Facts, u: D.Understanding, turn: int, q: Question)
    requires Sincere(number, g) && IsQuestion(q) && Closed(g, q)
    ensures var h := D.PutAll(g.(candidate := if u.selectedChoice.Some? then u.selectedChoice else g.candidate),
                              D.ChoiceMade(number, g, u, turn));
            Closed(h, q)
  {
    hide Recordable, Sincere;
    var start := g.(candidate := if u.selectedChoice.Some? then u.selectedChoice else g.candidate);
    var h := D.PutAll(start, D.ChoiceMade(number, g, u, turn));
    ChoiceTouchesPending(number, g, u, turn);
    if SlotOf(q).Some? {
      var name := SlotOf(q).value;
      if g.State(name) == Ambiguous {
        PendingIsText(number, g, name);
        D.NothingPut(start);
        TextIsHard(q, name);
      } else {
        SameSlotSameAnswer(g, h, q, name);
      }
    }
  }

  lemma PendingIsText(number: Number, g: Facts, name: SlotName)
    requires Sincere(number, g) && g.State(name) == Ambiguous
    ensures name == LocationText || name == ProposedBusinessText
  {
    CurrentIsRecordable(number, g, name);
  }

  lemma TextIsHard(q: Question, name: SlotName)
    requires SlotOf(q) == Some(name) && IsQuestion(q) && (name == LocationText || name == ProposedBusinessText)
    ensures q == OfItem(Location) || q == OfItem(ProposedBusiness)
  {
  }

  lemma EditIsSincere(number: Number, f: Facts, u: D.Understanding, turn: int)
    requires Sincere(number, f)
    ensures Sincere(number, D.Edited(number, f, u, turn))
  {
    hide Recordable, Continues, Sincere, D.Stated, D.Declines, D.PutAll, D.AssetsAfter, D.ExperienceAfter;
    var es := D.Stated(number, u.slotUpdates, turn) + D.Declines(u.declinedSlots, turn);
    forall e | e in es ensures Recordable(number, e.slot, e.value) {
      if e in D.Stated(number, u.slotUpdates, turn) {
        StatedIsRecordable(number, u.slotUpdates, turn, e);
      } else {
        DeclineIsRecordable(number, u.declinedSlots, turn, e);
      }
    }
    PutAllContinues(number, f, es);
    D.PutTouchesSlotsOnly(f, es);
    ProfileGrows(f, u, turn);
    SameContinues(number, D.PutAll(f, es), D.Edited(number, f, u, turn));
    ContinuesComposes(number, f, D.PutAll(f, es), D.Edited(number, f, u, turn));
    ContinuesKeepsSincere(number, f, D.Edited(number, f, u, turn));
  }

  lemma RunsKeepClosed(f: Facts, g: Facts, q: Question)
    requires OnlyAsks(f, g) && IsQuestion(q) && Closed(f, q)
    ensures Closed(g, q)
  {
  }

  lemma ClosedIgnoresTurn(f: Facts, turn: int, q: Question)
    ensures Closed(f.(turn := turn), q) == Closed(f, q)
  {
    hide IsOpen;
    TurnDoesNotMatter(f, turn, q);
  }

  /** Nothing that is said or run reopens an answered question, short of refusing one of the three hard facts. */
  lemma ReplyKeepsClosed(number: Number, e: Engine, st: Advice, m: Said, q: Question)
    requires Advisor(e).Known(st) && Sincere(number, st.inputs) && IsQuestion(q)
    requires Closed(st.inputs, q) && !Refuses(m.understood, q)
    ensures Closed(Reply(number, e, st, m).inputs, q)
  {
    hide Advisor, Loop, D.Edited, Lost, SweptBy, Closed, Refuses, Sincere;
    var turn := st.inputs.turn + 1;
    if !Lost(number, e, st, m) {
      EditKeepsClosed(number, st.inputs, m.understood, turn, q);
      EditIsSincere(number, st.inputs, m.understood, turn);
      ChoiceKeepsClosed(number, D.Edited(number, st.inputs, m.understood, turn), m.understood, turn, q);
      ClosedIgnoresTurn(D.Applied(number, st.inputs, m.understood, turn), turn, q);
      SweptByHears(number, e, st, m);
      LoopOnlyAsks(Circumstances(e, m), SweptBy(number, e, st, m), m.requested);
      RunsKeepClosed(Heard(number, st.inputs, m), Reply(number, e, st, m).inputs, q);
    }
  }

  lemma AnswerCloses(number: Number, e: Engine, st: Advice, m: Said, q: Question)
    requires Advisor(e).Known(st) && Sincere(number, st.inputs) && IsQuestion(q)
    requires Answers(number, m.understood, q) && !Refuses(m.understood, q) && !Lost(number, e, st, m)
    ensures Closed(Reply(number, e, st, m).inputs, q)
  {
    hide Advisor, Loop, D.Applied, Lost, SweptBy, Answers, Refuses, Sincere;
    var turn := st.inputs.turn + 1;
    AnswerClosesAndReopensNothing(number, st.inputs, m.understood, turn, q);
    TurnDoesNotMatter(D.Applied(number, st.inputs, m.understood, turn), turn, q);
    SweptByHears(number, e, st, m);
    LoopOnlyAsks(Circumstances(e, m), SweptBy(number, e, st, m), m.requested);
    RunsKeepClosed(Heard(number, st.inputs, m), Reply(number, e, st, m).inputs, q);
  }

  lemma ClosedIsNotAsked(st: Advice, q: Question)
    requires st.inputs.Valid() && Closed(st.inputs, q)
    ensures !AsksAt(st, q)
  {
    hide Decide, IsOpen, AsksAt;
    if AsksAt(st, q) { AskedIsFirst(st, q); }
  }

  /** Any stretch of a conversation: each session is the reply to what was said to the one before. */
  ghost predicate Stretch(number: Number, e: Engine, met: seq<Advice>, said: seq<Said>) {
    && |met| == |said| + 1 && Sincere(number, met[0].inputs)
    && (forall k :: 0 <= k < |met| ==> Advisor(e).Known(met[k]))
    && forall k, l :: 0 <= k && l == k + 1 && l < |met| ==> met[l] == Reply(number, e, met[k], said[k])
  }

  /** The question asked at `k` is answered there, in a turn that is saved. */
  ghost predicate AnsweredAt(number: Number, e: Engine, met: seq<Advice>, said: seq<Said>, k: nat, q: Question)
    requires Stretch(number, e, met, said) && k < |said|
  {
    AsksAt(met[k], q) && Answers(number, said[k].understood, q) && !Lost(number, e, met[k], said[k])
  }

  lemma {:induction false} StretchIsSincere(number: Number, e: Engine, met: seq<Advice>, said: seq<Said>, k: nat)
    requires Stretch(number, e, met, said) && k < |met|
    ensures Sincere(number, met[k].inputs)
  {
    hide Advisor, Sincere, Reply;
    if k > 0 {
      StretchIsSincere(number, e, met, said, k - 1);
      ReplyContinues(number, e, met[k - 1], said[k - 1]);
    }
  }

  lemma {:induction false} StaysClosed(
    number: Number, e: Engine, met: seq<Advice>, said: seq<Said>, i: nat, j: nat, q: Question)
    requires Stretch(number, e, met, said) && i < j < |met| && AnsweredAt(number, e, met, said, i, q)
    requires forall k :: 0 <= k < |said| ==> !Refuses(said[k].understood, q)
    ensures Closed(met[j].inputs, q) && IsQuestion(q)
    decreases j
  {
    hide Advisor, Sincere, Reply, Lost, AsksAt, Answers, Closed, Refuses, IsQuestion, Continues;
    StretchIsSincere(number, e, met, said, j - 1);
    if j == i + 1 {
      SincereIsValid(number, met[i].inputs);
      AskedIsQuestion(met[i], q);
      AnswerCloses(number, e, met[i], said[i], q);
    } else {
      StaysClosed(number, e, met, said, i, j - 1, q);
      ReplyKeepsClosed(number, e, met[j - 1], said[j - 1], q);
    }
  }

  lemma SincereIsValid(number: Number, f: Facts)
    requires Sincere(number, f)
    ensures f.Valid()
  {
  }

  lemma AskedIsQuestion(st: Advice, q: Question)
    requires st.inputs.Valid() && AsksAt(st, q)
    ensures IsQuestion(q) && 0 <= Place(q) < 10
  {
    hide AsksAt, IsOpen;
    AskedIsFirst(st, q);
    PlacedIsQuestion(q);
  }

  /**
   Whatever else is said, chosen, down or asked in between: a question that was answered is not asked again, unless some
   message refuses the hard fact it is about.
   */
  lemma AnsweredIsNotAskedAgain(
    number: Number, e: Engine, met: seq<Advice>, said: seq<Said>, i: nat, j: nat, q: Question)
    requires Stretch(number, e, met, said) && i < j < |met| && AnsweredAt(number, e, met, said, i, q)
    requires forall k :: 0 <= k < |said| ==> !Refuses(said[k].understood, q)
    ensures !AsksAt(met[j], q)
  {
    hide Advisor, Sincere, Reply, Lost, AsksAt, Answers, Closed, Refuses, IsQuestion;
    StaysClosed(number, e, met, said, i, j, q);
    StretchIsSincere(number, e, met, said, j);
    SincereIsValid(number, met[j].inputs);
    ClosedIsNotAsked(met[j], q);
  }

  /** The moments `ks`, in order, at which the questions `asked` are put and answered. */
  ghost predicate AnsweredInTurn(
    number: Number, e: Engine, met: seq<Advice>, said: seq<Said>, ks: seq<nat>, asked: seq<Question>)
    requires Stretch(number, e, met, said)
  {
    && |ks| == |asked| && (forall i, j :: 0 <= i < j < |ks| ==> ks[i] < ks[j])
    && (forall i :: 0 <= i < |ks| ==> ks[i] < |said|)
    && forall i :: 0 <= i < |ks| ==> AnsweredAt(number, e, met, said, ks[i], asked[i])
  }

  lemma {:induction false} FewPlaces(asked: seq<Question>, low: nat, high: nat)
    requires low <= high <= 10
    requires forall i, j :: 0 <= i < j < |asked| ==> Place(asked[i]) != Place(asked[j])
    requires forall q :: q in asked ==> low <= Place(q) < high
    ensures |asked| <= high - low
    decreases high
  {
    hide Place;
    if asked != [] {
      assert asked[0] in asked;
      if k :| 0 <= k < |asked| && Place(asked[k]) == high - 1 {
        var others := asked[..k] + asked[k + 1..];
        forall q | q in others ensures low <= Place(q) < high - 1 { OtherPlaces(asked, k, q); }
        FewPlaces(others, low, high - 1);
      } else {
        FewPlaces(asked, low, high - 1);
      }
    }
  }

  lemma OtherPlaces(asked: seq<Question>, k: nat, q: Question)
    requires forall i, j :: 0 <= i < j < |asked| ==> Place(asked[i]) != Place(asked[j])
    requires k < |asked| && q in asked[..k] + asked[k + 1..]
    ensures q in asked && Place(q) != Place(asked[k])
  {
    hide Place;
    var others := asked[..k] + asked[k + 1..];
    var m :| 0 <= m < |others| && others[m] == q;
    assert q == if m < k then asked[m] else asked[m + 1];
  }

  /**
   Questioning ends in every conversation: at most ten questions are ever answered if no hard fact is refused, and
   whatever is refused at most four of them are drivers.
   */
  lemma QuestioningEnds(
    number: Number, e: Engine, met: seq<Advice>, said: seq<Said>, ks: seq<nat>, asked: seq<Question>)
    requires Stretch(number, e, met, said) && AnsweredInTurn(number, e, met, said, ks, asked)
    requires forall k, q :: 0 <= k < |said| && q in asked ==> !Refuses(said[k].understood, q)
    ensures |asked| <= 10 && ((forall q :: q in asked ==> q.OfDriver?) ==> |asked| <= 4)
    ensures forall i, j :: 0 <= i < j < |asked| ==> asked[i] != asked[j]
  {
    hide *;
    AnsweredParts(number, e, met, said, ks, asked);
    forall i | 0 <= i < |asked| ensures asked[i] in asked && IsQuestion(asked[i]) && 0 <= Place(asked[i]) < 10 {
      MetIsValid(number, e, met, said, ks[i]);
      AskedIsQuestion(met[ks[i]], asked[i]);
    }
    forall i, j | 0 <= i < j < |asked| ensures Place(asked[i]) != Place(asked[j]) {
      if Place(asked[i]) == Place(asked[j]) {
        SamePlace(asked[i], asked[j]);
        assert asked[i] in asked;
        AnsweredIsNotAskedAgain(number, e, met, said, ks[i], ks[j], asked[i]);
      }
    }
    FewPlaces(asked, 0, 10);
    if forall q :: q in asked ==> q.OfDriver? {
      forall q | q in asked ensures 6 <= Place(q) { DriversComeLast(q); }
      FewPlaces(asked, 6, 10);
    }
  }

  lemma AnsweredParts(
    number: Number, e: Engine, met: seq<Advice>, said: seq<Said>, ks: seq<nat>, asked: seq<Question>)
    requires Stretch(number, e, met, said) && AnsweredInTurn(number, e, met, said, ks, asked)
    ensures |ks| == |asked| && |met| == |said| + 1 && (forall i, j :: 0 <= i < j < |ks| ==> ks[i] < ks[j])
    ensures forall i :: 0 <= i < |ks| ==>
              ks[i] < |said| && AnsweredAt(number, e, met, said, ks[i], asked[i]) && AsksAt(met[ks[i]], asked[i])
  {
    hide Advisor, Sincere, Reply, Lost, AsksAt, Answers;
  }

  lemma MetIsValid(number: Number, e: Engine, met: seq<Advice>, said: seq<Said>, k: nat)
    requires Stretch(number, e, met, said) && k < |met|
    ensures met[k].inputs.Valid()
  {
    hide Advisor, Sincere, Reply;
    StretchIsSincere(number, e, met, said, k);
    SincereIsValid(number, met[k].inputs);
  }

  lemma DriversComeLast(q: Question)
    requires q.OfDriver?
    ensures 6 <= Place(q)
  {
  }
}
