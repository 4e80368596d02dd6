/** Whole conversations: what is recorded stays recorded, and every figure comes from the user's words. */
module Dialogue {
  import opened Wrappers
  import opened SessionModels
  import opened Workflow
  import opened StepCache
  import opened Artifacts
  import opened Planner
  import opened Turn
  import Text
  import D = Deltas

  type Number = string -> Option<real>

  // ---- what one record may look like ----

  /** The value is the one the quoted words give, and the quotation is in the recorded text. */
  predicate Backed(number: Number, name: SlotName, v: SlotValue) {
    && v.valueToken.Some? && v.rawText.Some? && v.value.Some? && Text.Occurs(v.valueToken.value, v.rawText.value)
    && (D.Kind(name) != D.TextKind ==>
          && v.normalization.Some? && D.Allowed(D.Kind(name), v.normalization.value)
          && var derived := D.NormalizeValue(v.valueToken.value, v.normalization.value);
             && derived.Some?
             && v.value.value == (if D.Kind(name) == D.CountKind || D.Kind(name) == D.Months
                                  then D.AsWhole(derived.value) else derived.value))
  }

  /** Outside free text, a slot holds the user's own figure, a refusal, or the configured radius. */
  predicate Recordable(number: Number, name: SlotName, v: SlotValue) {
    match v.state
    case UserProvided => D.Kind(name) == D.TextKind || Backed(number, name, v)
    case Declined => v.value == None
    case Ambiguous => D.Kind(name) == D.TextKind
    case Assumed => name == RadiusM
    case _ => false
  }

  ghost predicate Sincere(number: Number, f: Facts) {
    f.Valid() && forall n :: SlotSincere(number, f, n)
  }

  ghost predicate SlotSincere(number: Number, f: Facts, n: SlotName) {
    forall v :: v in f.Of(n).Timeline() ==> Recordable(number, n, v)
  }

  /** Every history in `g` continues the one in `f`. */
  ghost predicate Grows(f: Facts, g: Facts) {
    && (forall n :: f.Of(n).Timeline() <= g.Of(n).Timeline())
    && f.assets.Timeline() <= g.assets.Timeline() && f.experience.Timeline() <= g.experience.Timeline()
    && f.declined <= g.declined && f.slotOrder <= g.slotOrder
  }

  ghost predicate Continues(number: Number, f: Facts, g: Facts) {
    Grows(f, g) && (Sincere(number, f) ==> Sincere(number, g))
  }

  lemma ContinuesComposes(number: Number, f: Facts, g: Facts, h: Facts)
    requires Continues(number, f, g) && Continues(number, g, h)
    ensures Continues(number, f, h)
  {
    hide Sincere;
  }

  lemma PutContinues(number: Number, f: Facts, e: D.Entry)
    requires Recordable(number, e.slot, e.value)
    ensures Continues(number, f, D.Put(f, e))
  {
    hide Recordable, D.Put;
    NotMissing(number, e);
    forall n ensures f.Of(n).Timeline() <= D.Put(f, e).Of(n).Timeline()
                  && (SlotSincere(number, f, n) ==> SlotSincere(number, D.Put(f, e), n)) {
      D.PutAppends(f, e, n);
    }
    PutTouchesOneSlot(f, e);
  }

  lemma NotMissing(number: Number, e: D.Entry)
    requires Recordable(number, e.slot, e.value)
    ensures e.value.state != Missing
  {
  }

  lemma PutTouchesOneSlot(f: Facts, e: D.Entry)
    ensures D.Put(f, e).assets == f.assets && D.Put(f, e).experience == f.experience && D.Put(f, e).declined == f.declined
    ensures f.slotOrder <= D.Put(f, e).slotOrder
    ensures f.Valid() ==> D.Put(f, e).Valid()
  {
  }

  lemma {:induction false} PutAllContinues(number: Number, f: Facts, es: seq<D.Entry>)
    requires forall e :: e in es ==> Recordable(number, e.slot, e.value)
    ensures Continues(number, f, D.PutAll(f, es))
  {
    hide Recordable, D.Put, Continues, D.PutAll;
    if es == [] {
      D.NothingPut(f);
      SameContinues(number, f, f);
    } else {
      var most, e := es[..|es| - 1], es[|es| - 1];
      assert e in es && es == most + [e];
      PutAllContinues(number, f, most);
      PutContinues(number, D.PutAll(f, most), e);
      D.PutOneMore(f, most, e);
      ContinuesComposes(number, f, D.PutAll(f, most), D.PutAll(f, es));
    }
  }

  /** Fields other than the histories do not matter. */
  lemma SameContinues(number: Number, f: Facts, g: Facts)
    requires f.slots == g.slots && f.slotOrder == g.slotOrder && f.declined <= g.declined
    requires f.assets.Timeline() <= g.assets.Timeline() && f.experience.Timeline() <= g.experience.Timeline()
    ensures Continues(number, f, g)
  {
    hide Recordable;
    forall n ensures f.Of(n) == g.Of(n) && (SlotSincere(number, f, n) ==> SlotSincere(number, g, n)) { }
  }

  // ---- the user's turn ----

  lemma StatedIsRecordable(number: Number, us: seq<D.SlotUpdate>, turn: int, e: D.Entry)
    requires e in D.Stated(number, us, turn)
    ensures Recordable(number, e.slot, e.value)
  {
    hide D.Stated, D.NormalizeValue, D.Kind, D.Allowed, D.AsWhole, Text.Occurs;
    D.StatedAreUserProvided(number, us, turn, e);
  }

  lemma CurrentIsRecordable(number: Number, f: Facts, name: SlotName)
    requires Sincere(number, f) && f.State(name) != Missing
    ensures Recordable(number, name, f.Of(name).current)
  {
    hide Recordable;
    assert SlotSincere(number, f, name);
    var slot := f.Of(name);
    assert slot.Timeline()[|slot.history|] == slot.current;
  }

  lemma ChoiceIsRecordable(number: Number, f: Facts, u: D.Understanding, turn: int, e: D.Entry)
    requires Sincere(number, f) && e in D.ChoiceMade(number, f, u, turn)
    ensures Recordable(number, e.slot, e.value)
  {
    hide D.Kind, Backed;
    var pending := FirstAmbiguous(f, f.slotOrder).value;
    CurrentIsRecordable(number, f, pending);
  }

  lemma AppliedContinues(number: Number, f: Facts, u: D.Understanding, turn: int)
    requires Sincere(number, f)
    ensures Continues(number, f, D.Applied(number, f, u, turn))
  {
    hide Recordable, Sincere, Continues, D.Stated, D.Declines, D.PutAll, D.ChoiceMade, D.AssetsAfter, D.ExperienceAfter;
    var early := D.Stated(number, u.slotUpdates, turn) + D.Declines(u.declinedSlots, turn);
    forall e | e in early ensures Recordable(number, e.slot, e.value) {
      if e in D.Stated(number, u.slotUpdates, turn) {
        StatedIsRecordable(number, u.slotUpdates, turn, e);
      } else {
        DeclineIsRecordable(number, u.declinedSlots, turn, e);
      }
    }
    PutAllContinues(number, f, early);
    var put := D.PutAll(f, early);
    D.PutTouchesSlotsOnly(f, early);
    var g := D.Edited(number, f, u, turn);
    ProfileGrows(f, u, turn);
    SameContinues(number, put, g);
    ContinuesComposes(number, f, put, g);
    ContinuesKeepsSincere(number, f, g);
    var h := g.(candidate := if u.selectedChoice.Some? then u.selectedChoice else g.candidate);
    SameContinues(number, g, h);
    ContinuesComposes(number, f, g, h);
    var chosen := D.ChoiceMade(number, g, u, turn);
    forall e | e in chosen ensures Recordable(number, e.slot, e.value) { ChoiceIsRecordable(number, g, u, turn, e); }
    PutAllContinues(number, h, chosen);
    ContinuesComposes(number, f, h, D.Applied(number, f, u, turn));
  }

  lemma ContinuesKeepsSincere(number: Number, f: Facts, g: Facts)
    requires Continues(number, f, g) && Sincere(number, f)
    ensures Sincere(number, g)
  {
    hide Sincere, Grows;
  }

  lemma DeclineIsRecordable(number: Number, names: seq<SlotName>, turn: int, e: D.Entry)
    requires e in D.Declines(names, turn)
    ensures Recordable(number, e.slot, e.value)
  {
    D.DeclinesAreDeclined(names, turn, e);
  }

  lemma ProfileGrows(f: Facts, u: D.Understanding, turn: int)
    ensures f.assets.Timeline() <= D.AssetsAfter(f.assets, u, turn).Timeline()
    ensures f.experience.Timeline() <= D.ExperienceAfter(f.experience, u, turn).Timeline()
  {
  }

  // ---- choices and discovery ----

  /** The number is one of those on offer for the first slot that awaits a choice, and that slot is `name`. */
  predicate Settles(g: Facts, u: D.Understanding, name: SlotName) {
    && u.selectedChoice.Some? && FirstAmbiguous(g, g.slotOrder) == Some(name)
    && 1 <= u.selectedChoice.value <= |g.Of(name).current.options|
  }

  /**
   A choice changes what discovery declares and reads exactly when it settles the place or the radius, or is not the
   number chosen last, even if it was a choice between businesses.
   */
  lemma ChoiceMovesDiscoveryExactlyWhen(number: Number, e: Engine, f: Facts, u: D.Understanding, turn: int)
    requires u.selectedChoice.Some?
    ensures var g, h := D.Edited(number, f, u, turn), D.Applied(number, f, u, turn);
            var moves := g.candidate != u.selectedChoice || Settles(g, u, LocationText) || Settles(g, u, RadiusM);
            && (OwnInputs(e, Discover, h) != OwnInputs(e, Discover, g) <==> moves)
            && (Read(e, Discover, h) != Read(e, Discover, g) <==> moves)
  {
    hide D.Edited, FirstAmbiguous, D.StoredText;
    var g, h := D.Edited(number, f, u, turn), D.Applied(number, f, u, turn);
    var start := g.(candidate := u.selectedChoice);
    D.NothingPut(start);
    forall n ensures h.Of(n) == g.Of(n) || (Settles(g, u, n) && g.State(n) == Ambiguous && h.State(n) == UserProvided) { }
    forall n ensures Settles(g, u, n) ==> h.State(n) == UserProvided && g.State(n) == Ambiguous { }
    D.PutTouchesSlotsOnly(start, D.ChoiceMade(number, g, u, turn));
    DiscoveryParts(e, g);
    DiscoveryParts(e, h);
  }

  lemma DiscoveryParts(e: Engine, f: Facts)
    ensures var o := OwnInputs(e, Discover, f);
            && o.slots == [SlotRepr(LocationText, f.State(LocationText), f.Of(LocationText).current.value),
                           SlotRepr(RadiusM, f.State(RadiusM), f.Of(RadiusM).current.value)]
            && o == Own(o.slots, None, None, Some(f.candidate), None, None, e.config(Discover))
    ensures UndeclaredReads(Discover, f) == Undeclared(None, None, Some(f.category), None, [])
  {
  }

  // ---- the engines' writes ----

  lemma WriteContinues(number: Number, e: Engine, s: StepId, f: Facts, x: Payload)
    ensures Continues(number, f, Write(e, s, f, x))
  {
    hide Continues, D.Put;
    if s == ResolveProposed {
      var g := f.(category := CategoryOf(x), subtypes := x.subtypes);
      SameContinues(number, f, g);
      var asked := D.Entry(ProposedBusinessText,
        SlotValue(Ambiguous, None, Quoted(g.Of(ProposedBusinessText).current), None, None,
                  x.choices + ["None of these"], "", g.turn));
      PutContinues(number, g, asked);
      ContinuesComposes(number, f, g, D.Put(g, asked));
      AmbiguousIsPut(g, ProposedBusinessText, x.choices + ["None of these"], Quoted(g.Of(ProposedBusinessText).current));
    } else if s == Discover {
      DiscoverContinues(number, e, f, x);
    } else {
      SameContinues(number, f, f);
    }
  }

  lemma DiscoverContinues(number: Number, e: Engine, f: Facts, x: Payload)
    ensures Continues(number, f, Write(e, Discover, f, x))
  {
    hide Continues, D.Put;
    var radius := D.Entry(RadiusM, SlotValue(Assumed, Some(Count(e.defaultRadius)), None, None, None, [],
                                             "config:default_radius_m", f.turn));
    SameContinues(number, f, f);
    PutContinues(number, f, radius);
    AssumedIsPut(f, RadiusM, Count(e.defaultRadius), "config:default_radius_m");
    var g := if f.State(RadiusM) == Missing
             then SetSlotAssumed(f, RadiusM, Count(e.defaultRadius), "config:default_radius_m") else f;
    var asked := D.Entry(LocationText, SlotValue(Ambiguous, None, Quoted(g.Of(LocationText).current), None, None,
                                                 x.choices, "", g.turn));
    PutContinues(number, g, asked);
    AmbiguousIsPut(g, LocationText, x.choices, Quoted(g.Of(LocationText).current));
    ContinuesComposes(number, f, g, D.Put(g, asked));
  }

  lemma AmbiguousIsPut(f: Facts, name: SlotName, options: seq<string>, rawText: Option<string>)
    ensures SetSlotAmbiguous(f, name, options, rawText)
         == D.Put(f, D.Entry(name, SlotValue(Ambiguous, None, rawText, None, None, options, "", f.turn)))
  {
  }

  lemma AssumedIsPut(f: Facts, name: SlotName, value: Value, source: string)
    ensures SetSlotAssumed(f, name, value, source)
         == D.Put(f, D.Entry(name, SlotValue(Assumed, Some(value), None, None, None, [], source, f.turn)))
  {
  }

  lemma {:induction false} LoopContinues(number: Number, c: Context, st: Advice, requested: Option<StepId>)
    requires Proper(c, st)
    ensures Continues(number, st.inputs, Loop(c, st, requested).inputs)
    decreases ALL_STEPS - st.artifacts.Keys
  {
    hide Advisor, Decide, Runnable, Continues, Write;
    var p := Advisor(c.engine);
    var action := Decide(st, requested, c.maxRadius, c.mode);
    if action.RunNext? && !c.fails(action.step) {
      var s := action.step;
      StepIsNew(c, st, requested);
      var after := p.RunStep(st, s);
      p.RunStepShape(st, s);
      AdvisorParts(c.engine);
      WriteContinues(number, c.engine, s, st.inputs, p.Answer(st, s));
      LoopContinues(number, c, after, None);
      ContinuesComposes(number, st.inputs, after.inputs, Loop(c, st, requested).inputs);
    } else {
      SameContinues(number, st.inputs, st.inputs);
    }
  }

  // ---- conversations ----

  /** One message and the circumstances it arrives in. */
  datatype Said = Said(understood: D.Understanding, requested: Option<StepId>, maxRadius: int, mode: Mode,
                       fails: StepId -> bool, breaks: (StepId, Advice) -> bool)

  function Circumstances(e: Engine, m: Said): Context {
    Context(e, m.maxRadius, m.mode, m.fails, m.breaks)
  }

  /** The facts a message leaves before anything runs. */
  function Heard(number: Number, f: Facts, m: Said): Facts {
    D.Applied(number, f, m.understood, f.turn + 1).(turn := f.turn + 1)
  }

  lemma HeardIsValid(number: Number, f: Facts, m: Said)
    requires Sincere(number, f)
    ensures Heard(number, f, m).Valid()
  {
    hide D.Applied, Grows;
    AppliedContinues(number, f, m.understood, f.turn + 1);
  }

  /** The session the turn's steps start from. */
  ghost function SweptBy(number: Number, e: Engine, st: Advice, m: Said): (swept: Advice)
    requires Advisor(e).Known(st)
    ensures Proper(Circumstances(e, m), swept)
  {
    hide Advisor, Heard;
    var swept := Advisor(e).Invalidated(st.(inputs := Heard(number, st.inputs, m)));
    KnownIsProper(Circumstances(e, m), swept);
    swept
  }

  /** The message makes the turn raise, so that nothing of it is saved. */
  ghost predicate Lost(number: Number, e: Engine, st: Advice, m: Said)
    requires Advisor(e).Known(st)
  {
    hide Advisor, Raises, SweptBy;
    Raises(Circumstances(e, m), SweptBy(number, e, st, m), m.requested)
  }

  ghost function Reply(number: Number, e: Engine, st: Advice, m: Said): (after: Advice)
    requires Advisor(e).Known(st)
    ensures Advisor(e).Known(after)
  {
    hide Loop, Advisor, SweptBy, Lost;
    var after := Loop(Circumstances(e, m), SweptBy(number, e, st, m), m.requested);
    KnownIsProper(Circumstances(e, m), after);
    if Lost(number, e, st, m) then st else after
  }

  lemma KnownIsProper(c: Context, st: Advice)
    ensures Proper(c, st) <==> Advisor(c.engine).Known(st)
  {
    hide Advisor;
  }

  ghost function Talk(number: Number, e: Engine, st: Advice, said: seq<Said>): (after: Advice)
    requires Advisor(e).Known(st)
    ensures Advisor(e).Known(after)
    decreases |said|
  {
    if said == [] then st else Talk(number, e, Reply(number, e, st, said[0]), said[1..])
  }

  lemma ReplyContinues(number: Number, e: Engine, st: Advice, m: Said)
    requires Advisor(e).Known(st) && Sincere(number, st.inputs)
    ensures Continues(number, st.inputs, Reply(number, e, st, m).inputs)
    ensures Sincere(number, Reply(number, e, st, m).inputs)
  {
    hide Advisor, Loop, Continues, Sincere, D.Applied, Lost;
    var f := st.inputs;
    if Lost(number, e, st, m) {
      SameContinues(number, f, f);
    } else {
      var applied := D.Applied(number, f, m.understood, f.turn + 1);
      AppliedContinues(number, f, m.understood, f.turn + 1);
      SameContinues(number, applied, Heard(number, f, m));
      ContinuesComposes(number, f, applied, Heard(number, f, m));
      LoopContinues(number, Circumstances(e, m), SweptBy(number, e, st, m), m.requested);
      ContinuesComposes(number, f, Heard(number, f, m), Reply(number, e, st, m).inputs);
    }
    ContinuesKeepsSincere(number, f, Reply(number, e, st, m).inputs);
  }

  lemma {:induction false} TalkContinues(number: Number, e: Engine, st: Advice, said: seq<Said>)
    requires Advisor(e).Known(st) && Sincere(number, st.inputs)
    ensures Continues(number, st.inputs, Talk(number, e, st, said).inputs)
    ensures Sincere(number, Talk(number, e, st, said).inputs)
    decreases |said|
  {
    hide Advisor, Continues, Sincere, Reply;
    if said == [] {
      SameContinues(number, st.inputs, st.inputs);
    } else {
      var next := Reply(number, e, st, said[0]);
      ReplyContinues(number, e, st, said[0]);
      TalkContinues(number, e, next, said[1..]);
      ContinuesComposes(number, st.inputs, next.inputs, Talk(number, e, st, said).inputs);
    }
  }

  ghost function FirstSession(e: Engine): (st: Advice)
    ensures Advisor(e).Known(st) && st == Session(BLANK, map[])
  {
    AdvisorIsWellOrdered(e);
    Session(BLANK, map[])
  }

  lemma FirstIsBlank(e: Engine)
    ensures FirstSession(e).inputs == BLANK
  {
  }

  lemma BlankIsSincere(number: Number)
    ensures Sincere(number, BLANK)
  {
  }

  /** Whatever is said in whatever order, the longer conversation's histories continue the shorter one's. */
  lemma NothingStatedIsLost(number: Number, e: Engine, said: seq<Said>, more: seq<Said>)
    ensures Grows(Talk(number, e, FirstSession(e), said).inputs, Talk(number, e, FirstSession(e), said + more).inputs)
  {
    hide Advisor, Sincere, Reply, FirstSession;
    BlankIsSincere(number);
    TalkContinues(number, e, FirstSession(e), said);
    TalkContinues(number, e, Talk(number, e, FirstSession(e), said), more);
    TalkSplits(number, e, FirstSession(e), said, more);
  }

  lemma {:induction false} TalkSplits(number: Number, e: Engine, st: Advice, said: seq<Said>, more: seq<Said>)
    requires Advisor(e).Known(st)
    ensures Talk(number, e, st, said + more) == Talk(number, e, Talk(number, e, st, said), more)
    decreases |said|
  {
    hide Advisor, Reply;
    if said == [] {
      assert said + more == more;
    } else {
      assert (said + more)[1..] == said[1..] + more;
      TalkSplits(number, e, Reply(number, e, st, said[0]), said[1..], more);
    }
  }

  /**
   No figure is invented: at any point of any conversation, everything ever recorded in a numeric slot is what the
   user's quoted words give, a refusal, or the configured search radius.
   */
  lemma NoFigureIsInvented(number: Number, e: Engine, said: seq<Said>, name: SlotName, v: SlotValue)
    requires D.Kind(name) != D.TextKind
    requires v in Talk(number, e, FirstSession(e), said).inputs.Of(name).Timeline()
    ensures v.value.Some? ==> Backed(number, name, v) || (name == RadiusM && v.state == Assumed)
  {
    hide Advisor, Reply, Talk, FirstSession, Continues, Backed, D.Kind;
    BlankIsSincere(number);
    TalkContinues(number, e, FirstSession(e), said);
    assert SlotSincere(number, Talk(number, e, FirstSession(e), said).inputs, name);
    assert Recordable(number, name, v);
  }

  // ---- the contribution rung ----

  lemma BackedMoneyIsDecimal(number: Number, name: SlotName, v: SlotValue)
    requires D.Kind(name) == D.MoneyInr && Recordable(number, name, v) && v.value.Some?
    ensures v.value.value.Amount?
  {
  }

  /** In no conversation does the contribution rung fire. */
  lemma ContributionRungNeverFires(number: Number, e: Engine, said: seq<Said>)
    ensures !CashContradiction(Talk(number, e, FirstSession(e), said).inputs)
  {
    hide Advisor, Reply, Talk, FirstSession, Continues, Recordable;
    BlankIsSincere(number);
    TalkContinues(number, e, FirstSession(e), said);
    var f := Talk(number, e, FirstSession(e), said).inputs;
    if CashContradiction(f) {
      CurrentIsRecordable(number, f, LiquidCashInr);
      BackedMoneyIsDecimal(number, LiquidCashInr, f.Of(LiquidCashInr).current);
    }
  }

  /** "I have 1 lakh, I will put in 5": the contribution exceeds the cash, and the planner sees no contradiction. */
  const OVERSPENDS := D.Understanding(
    [D.SlotUpdate(LiquidCashInr, "1 lakh", "1", LakhToInr),
     D.SlotUpdate(PromoterCashContributionInr, "5 lakh", "5", LakhToInr)],
    None, None, [], [], [], false, false, None)

  lemma OneDigit(n: nat)
    requires n < 10
    ensures D.NormalizeValue([D.NumberFormat.DigitOf(n)], LakhToInr) == Some(Amount(n as real * 100000.0))
  {
    hide D.FirstNumeral, D.DecimalOf;
    D.DigitNumeral(n);
    D.DigitDecimal(n);
  }

  lemma OverspendingResolves(number: Number)
    ensures D.ResolveSlotValue(number, OVERSPENDS.slotUpdates[0]) == D.Resolved.Value(Amount(100000.0))
    ensures D.ResolveSlotValue(number, OVERSPENDS.slotUpdates[1]) == D.Resolved.Value(Amount(500000.0))
  {
    hide D.NormalizeValue, Text.Occurs, Text.Strip;
    OneDigit(1);
    OneDigit(5);
    assert [D.NumberFormat.DigitOf(1)] == "1" && [D.NumberFormat.DigitOf(5)] == "5";
    FrontOccurs("1", "1 lakh");
    FrontOccurs("5", "5 lakh");
  }

  lemma FrontOccurs(token: string, text: string)
    requires token <= text
    ensures Text.Occurs(token, text)
  {
  }

  lemma OverspendingGoesUnnoticed(number: Number, maxRadius: int)
    ensures var f := D.Applied(number, BLANK, OVERSPENDS, 1);
            ContributionExceedsCash(f) && !Contradiction(f, maxRadius)
  {
    hide D.ResolveSlotValue;
    OverspendingResolves(number);
    var us := OVERSPENDS.slotUpdates;
    assert us[..1] == [us[0]] && us[..1][..0] == [];
    var cash := D.UserProvidedEntry(us[0], Amount(100000.0), 1);
    var contribution := D.UserProvidedEntry(us[1], Amount(500000.0), 1);
    assert D.Stated(number, us[..1], 1) == [cash];
    assert D.Stated(number, us, 1) == [cash, contribution];
    assert [cash, contribution][..1] == [cash];
    StatedAlone(number, OVERSPENDS, [cash, contribution]);
    TwoPuts(cash, contribution);
  }

  lemma StatedAlone(number: Number, u: D.Understanding, es: seq<D.Entry>)
    requires u.declinedSlots == [] && u.selectedChoice == None && D.Stated(number, u.slotUpdates, 1) == es
    ensures D.Applied(number, BLANK, u, 1).slots == D.PutAll(BLANK, es).slots
  {
    hide D.Stated, D.AssetsAfter, D.ExperienceAfter;
    assert es + D.Declines([], 1) == es;
  }

  lemma TwoPuts(a: D.Entry, b: D.Entry)
    requires a.slot != b.slot
    ensures var f := D.PutAll(BLANK, [a, b]); f.slots == map[a.slot := Slot(a.value, []), b.slot := Slot(b.value, [])]
  {
    D.NothingPut(BLANK);
    assert [a, b] == [a] + [b] && [a] == [] + [a];
    D.PutOneMore(BLANK, [a], b);
    D.PutOneMore(BLANK, [], a);
  }
}
