/** Folding one turn's understanding into the session. */
module Deltas {
  import opened Wrappers
  import opened SessionModels
  import opened Text
  import opened Numerals
  import opened NumberFormat

  // ---- amounts derived from the user's own words ----

  datatype SlotKind = TextKind | MoneyInr | PercentRatio | PercentAnnual | Months | CountKind

  function Kind(name: SlotName): SlotKind {
    match name
    case LocationText => TextKind
    case ProposedBusinessText => TextKind
    case RadiusM => CountKind
    case YearsExperience => CountKind
    case CogsPct => PercentRatio
    case LoanInterestRatePct => PercentAnnual
    case LoanTenureMonths => Months
    case LoanMoratoriumMonths => Months
    case _ => MoneyInr
  }

  predicate Allowed(kind: SlotKind, n: Normalization) {
    match kind
    case MoneyInr => n == AsStated || n == ThousandToInr || n == LakhToInr || n == CroreToInr
    case PercentRatio => n == PercentToRatio || n == AsStated
    case PercentAnnual => n == PercentAsAnnualRate || n == AsStated
    case Months => n == AsStated || n == YearsToMonths
    case _ => n == AsStated
  }

  /** The leftmost match of `-?[0-9][0-9,]*(?:\.[0-9]+)?`. */
  function FirstNumeral(s: string): Option<string> {
    if s == "" then None
    else if IsDigit(s[0]) then Some(s[..MatchLength(IsDigit, s)])
    else if s[0] == '-' && |s| > 1 && IsDigit(s[1]) then Some(s[..1 + MatchLength(IsDigit, s[1..])])
    else FirstNumeral(s[1..])
  }

  /** `Decimal(numeral)` for a comma-free numeral. */
  function DecimalOf(numeral: string): real {
    if numeral != "" && numeral[0] == '-' then -UnsignedOf(numeral[1..]) else UnsignedOf(numeral)
  }

  function UnsignedOf(numeral: string): real {
    var w := DigitRun(IsDigit, numeral);
    if w == |numeral| then Parse(numeral) as real
    else Parse(numeral[..w]) as real + Parse(numeral[w + 1..]) as real / Pow10(|numeral| - w - 1) as real
  }

  /** `int(x)`. */
  function Truncate(x: real): int { if x >= 0.0 then x.Floor else -((-x).Floor) }

  /** A digit by itself is a numeral. */
  lemma DigitNumeral(n: nat)
    requires n < 10
    ensures var s := [DigitOf(n)]; FirstNumeral(s) == Some(s) && StripCommas(s) == s && MatchLength(IsDigit, s) == 1
  {
    var s := [DigitOf(n)];
    assert s[1..] == "" && s[..1] == s && s[..0] == "";
    assert GroupRun(IsDigit, s) == 1;
  }

  lemma DigitDecimal(n: nat)
    requires n < 10
    ensures UnsignedOf([DigitOf(n)]) == n as real && DecimalOf([DigitOf(n)]) == n as real
  {
    var s := [DigitOf(n)];
    assert s[1..] == "" && s[..1] == s && s[..0] == "";
    assert DigitRun(IsDigit, s) == 1;
    assert Parse(s) == n;
  }

  function NormalizeValue(token: string, n: Normalization): Option<Value> {
    match FirstNumeral(token)
    case None => None
    case Some(numeral) =>
      var x := DecimalOf(StripCommas(numeral));
      match n
      case AsStated => Some(Amount(x))
      case PercentToRatio => Some(Amount(x / 100.0))
      case PercentAsAnnualRate => Some(Amount(x))
      case ThousandToInr => Some(Amount(x * 1000.0))
      case LakhToInr => Some(Amount(x * 100000.0))
      case CroreToInr => Some(Amount(x * 10000000.0))
      case YearsToMonths => Some(Count(Truncate(x * 12.0)))
  }

  function AsWhole(v: Value): Value {
    if v.Amount? then Count(Truncate(v.amount)) else v
  }

  datatype Refusal = TokenNotInText | EmptyText | NormalizationNotPermitted | NoNumeral

  datatype Resolved = Value(value: SessionModels.Value) | Refused(why: Refusal)

  /** The value model re-reads a text that looks like a number as that number; `number` is the `Decimal` constructor. */
  function StoredText(number: string -> Option<real>, text: string): SessionModels.Value {
    if number(text).Some? then Amount(number(text).value) else SessionModels.Value.Text(text)
  }

  datatype SlotUpdate = SlotUpdate(slot: SlotName, rawText: string, valueToken: string, normalization: Normalization)

  function ResolveSlotValue(number: string -> Option<real>, u: SlotUpdate): Resolved {
    if !Occurs(u.valueToken, u.rawText) then Refused(TokenNotInText)
    else if Kind(u.slot) == TextKind then
      if Strip(u.valueToken) == "" then Refused(EmptyText)
      else Resolved.Value(StoredText(number, Strip(u.valueToken)))
    else if !Allowed(Kind(u.slot), u.normalization) then Refused(NormalizationNotPermitted)
    else match NormalizeValue(u.valueToken, u.normalization)
         case None => Refused(NoNumeral)
         case Some(v) => Resolved.Value(if Kind(u.slot) == CountKind || Kind(u.slot) == Months then AsWhole(v) else v)
  }

  // ---- what a stated amount means ----

  /** A thousand thousands are ten lakh, a hundred lakh a crore, and a year is twelve months. */
  lemma UnitsAgree(token: string, n: Normalization)
    ensures NormalizeValue(token, n).Some? <==> NormalizeValue(token, AsStated).Some?
    ensures NormalizeValue(token, AsStated).Some? ==>
              && NormalizeValue(token, AsStated).value.Amount?
              && var x := NormalizeValue(token, AsStated).value.amount;
                 && NormalizeValue(token, ThousandToInr) == Some(Amount(x * 1000.0))
                 && NormalizeValue(token, LakhToInr) == Some(Amount(x * 1000.0 * 100.0))
                 && NormalizeValue(token, CroreToInr) == Some(Amount(x * 1000.0 * 100.0 * 100.0))
                 && (exists ratio: real :: NormalizeValue(token, PercentToRatio) == Some(Amount(ratio)) && ratio * 100.0 == x)
                 && NormalizeValue(token, PercentAsAnnualRate) == NormalizeValue(token, AsStated)
                 && exists months: int :: NormalizeValue(token, YearsToMonths) == Some(Count(months))
                                          && if x >= 0.0 then months as real <= 12.0 * x < (months + 1) as real
                                             else (months - 1) as real < 12.0 * x <= months as real
  {
    hide FirstNumeral, DecimalOf;
    if FirstNumeral(token).Some? {
      var x := DecimalOf(StripCommas(FirstNumeral(token).value));
      assert NormalizeValue(token, PercentToRatio) == Some(Amount(x / 100.0));
      TruncateCuts(x * 12.0);
      assert NormalizeValue(token, YearsToMonths) == Some(Count(Truncate(x * 12.0)));
    }
  }

  /** `int` cuts towards zero. */
  lemma TruncateCuts(x: real)
    ensures var n := Truncate(x);
            if x >= 0.0 then n as real <= x < (n + 1) as real else (n - 1) as real < x <= n as real
  {
  }

  /** The numeral read is the leftmost one, taken whole, with a minus right before it. */
  lemma {:induction false} FirstNumeralIsLeftmost(s: string) returns (i: nat)
    requires exists j :: 0 <= j < |s| && IsDigit(s[j])
    ensures FirstNumeral(s).Some? && i < |s| && IsDigit(s[i]) && forall j :: 0 <= j < i ==> !IsDigit(s[j])
    ensures FirstNumeral(s).value == (if i > 0 && s[i - 1] == '-' then "-" else "")
                                     + s[i..][..MatchLength(IsDigit, s[i..])]
  {
    hide MatchLength;
    if IsDigit(s[0]) {
      i := 0;
      assert s[0..] == s;
    } else if s[0] == '-' && |s| > 1 && IsDigit(s[1]) {
      i := 1;
      assert s[..1 + MatchLength(IsDigit, s[1..])] == "-" + s[1..][..MatchLength(IsDigit, s[1..])];
    } else {
      var j :| 0 <= j < |s| && IsDigit(s[j]);
      assert s[1..][j - 1] == s[j];
      var k := FirstNumeralIsLeftmost(s[1..]);
      i := k + 1;
      assert s[1..][k..] == s[i..];
    }
  }

  lemma {:induction false} NoDigitNoNumeral(s: string)
    requires forall j :: 0 <= j < |s| ==> !IsDigit(s[j])
    ensures FirstNumeral(s).None?
  {
    if s != "" { NoDigitNoNumeral(s[1..]); }
  }

  /** The units that an answer for a slot may come in. */
  function Units(name: SlotName): set<Normalization> {
    match name
    case LocationText => {}
    case ProposedBusinessText => {}
    case RadiusM => {AsStated}
    case YearsExperience => {AsStated}
    case CogsPct => {AsStated, PercentToRatio}
    case LoanInterestRatePct => {AsStated, PercentAsAnnualRate}
    case LoanTenureMonths => {AsStated, YearsToMonths}
    case LoanMoratoriumMonths => {AsStated, YearsToMonths}
    case _ => {AsStated, ThousandToInr, LakhToInr, CroreToInr}
  }

  predicate HoldsWhole(name: SlotName) {
    name == RadiusM || name == YearsExperience || name == LoanTenureMonths || name == LoanMoratoriumMonths
  }

  /**
   An update is taken if and only if its token stands in the quoted text and, for business and place, is not blank, or
   for any other slot has a digit and comes in one of the slot's units; then radius, years and months become whole
   numbers, and other figures are kept as stated.
   */
  lemma TakenExactlyWhen(number: string -> Option<real>, u: SlotUpdate)
    ensures var quoted := exists i: nat :: StandsAt(u.valueToken, u.rawText, i);
            var free := u.slot == LocationText || u.slot == ProposedBusinessText;
            && (ResolveSlotValue(number, u).Value? <==>
                  quoted && if free then Strip(u.valueToken) != ""
                            else u.normalization in Units(u.slot) && exists j :: 0 <= j < |u.valueToken| && IsDigit(u.valueToken[j]))
            && (ResolveSlotValue(number, u).Value? && free ==>
                  match number(Strip(u.valueToken))
                  case Some(x) => ResolveSlotValue(number, u).value == Amount(x)
                  case None => ResolveSlotValue(number, u).value == SessionModels.Value.Text(Strip(u.valueToken)))
            && (ResolveSlotValue(number, u).Value? && !free ==>
                  var v, stated := ResolveSlotValue(number, u).value, NormalizeValue(u.valueToken, u.normalization);
                  && (v.Count? <==> HoldsWhole(u.slot)) && stated.Some?
                  && (!HoldsWhole(u.slot) ==> Some(v) == stated)
                  && (HoldsWhole(u.slot) && stated.value.Amount? ==> v.count == Truncate(stated.value.amount))
                  && (HoldsWhole(u.slot) && stated.value.Count? ==> Some(v) == stated))
  {
    hide Occurs, Strip, FirstNumeral, DecimalOf, Truncate, StandsAt;
    OccursExactlyWhenSlice(u.valueToken, u.rawText);
    if u.slot != LocationText && u.slot != ProposedBusinessText { UnitsAreAllowed(u.slot, u.normalization); }
    if exists j :: 0 <= j < |u.valueToken| && IsDigit(u.valueToken[j]) {
      var i := FirstNumeralIsLeftmost(u.valueToken);
    } else {
      NoDigitNoNumeral(u.valueToken);
    }
  }

  lemma UnitsAreAllowed(name: SlotName, n: Normalization)
    requires name != LocationText && name != ProposedBusinessText
    ensures Allowed(Kind(name), n) <==> n in Units(name)
    ensures Kind(name) != TextKind && (Kind(name) == CountKind || Kind(name) == Months <==> HoldsWhole(name))
  {
  }

  // ---- one understanding ----

  datatype AssetUpdate = AssetUpdate(items: set<AssetKind>, rawText: string, notes: seq<string>)

  datatype ExperienceUpdate = ExperienceUpdate(items: set<Category>, rawText: string)

  datatype Understanding = Understanding(
    slotUpdates: seq<SlotUpdate>,
    assetUpdate: Option<AssetUpdate>,
    experienceUpdate: Option<ExperienceUpdate>,
    assetsRemoved: seq<AssetKind>,
    experienceRemoved: seq<Category>,
    declinedSlots: seq<SlotName>,
    assetsDeclined: bool,
    experienceDeclined: bool,
    selectedChoice: Option<int>)

  datatype Warning = NotApplied(slot: SlotName, why: Refusal) | ChoiceOutOfRange(choice: int, available: nat)

  /** One snapshot to append to one slot. */
  datatype Entry = Entry(slot: SlotName, value: SlotValue)

  function UserProvidedEntry(u: SlotUpdate, v: SessionModels.Value, turn: int): Entry {
    Entry(u.slot, SlotValue(UserProvided, Some(v), Some(u.rawText), Some(u.valueToken),
                            if Kind(u.slot) == TextKind then None else Some(u.normalization), [], "profile", turn))
  }

  function DeclinedEntry(name: SlotName, turn: int): Entry {
    Entry(name, SlotValue(Declined, None, None, None, None, [], "", turn))
  }

  function ChosenEntry(number: string -> Option<real>, name: SlotName, option: string, turn: int): Entry {
    Entry(name, SlotValue(UserProvided, Some(StoredText(number, option)), Some(option), None, None, [], "profile", turn))
  }

  function Put(f: Facts, e: Entry): Facts {
    f.With(e.slot, f.Of(e.slot).Updated(e.value))
  }

  function PutAll(f: Facts, es: seq<Entry>): Facts {
    if es == [] then f else Put(PutAll(f, es[..|es| - 1]), es[|es| - 1])
  }

  /** What a list of updates contributes: the well-formed ones, in order. */
  function Stated(number: string -> Option<real>, us: seq<SlotUpdate>, turn: int): seq<Entry> {
    if us == [] then [] else
      var u := us[|us| - 1];
      Stated(number, us[..|us| - 1], turn)
      + match ResolveSlotValue(number, u)
        case Value(v) => [UserProvidedEntry(u, v, turn)]
        case Refused(_) => []
  }

  function RefusalsOf(number: string -> Option<real>, us: seq<SlotUpdate>): seq<Warning> {
    if us == [] then [] else
      var u := us[|us| - 1];
      RefusalsOf(number, us[..|us| - 1])
      + match ResolveSlotValue(number, u)
        case Value(_) => []
        case Refused(why) => [NotApplied(u.slot, why)]
  }

  function Declines(names: seq<SlotName>, turn: int): seq<Entry> {
    if names == [] then [] else Declines(names[..|names| - 1], turn) + [DeclinedEntry(names[|names| - 1], turn)]
  }

  /** An explicit addition or removal wins over a stray decline in the same turn; additions come before removals. */
  function AssetsAfter(s: SetSlot<AssetKind>, u: Understanding, turn: int): SetSlot<AssetKind> {
    if u.assetUpdate.Some? || u.assetsRemoved != [] then
      var added := if u.assetUpdate.Some? then u.assetUpdate.value.items else {};
      s.Updated(SetValue(UserProvided, s.current.items + added - (set k | k in u.assetsRemoved),
                         s.current.notes + (if u.assetUpdate.Some? then u.assetUpdate.value.notes else []),
                         if u.assetUpdate.Some? then Some(u.assetUpdate.value.rawText) else s.current.rawText, turn))
    else if u.assetsDeclined then s.Updated(SetValue(Declined, {}, [], None, turn))
    else s
  }

  function ExperienceAfter(s: SetSlot<Category>, u: Understanding, turn: int): SetSlot<Category> {
    if u.experienceUpdate.Some? || u.experienceRemoved != [] then
      var added := if u.experienceUpdate.Some? then u.experienceUpdate.value.items else {};
      s.Updated(SetValue(UserProvided, s.current.items + added - (set k | k in u.experienceRemoved), [],
                         if u.experienceUpdate.Some? then Some(u.experienceUpdate.value.rawText) else s.current.rawText,
                         turn))
    else if u.experienceDeclined then s.Updated(SetValue(Declined, {}, [], None, turn))
    else s
  }

  /** The session before the choice is looked at. */
  function Edited(number: string -> Option<real>, f: Facts, u: Understanding, turn: int): Facts {
    PutAll(f, Stated(number, u.slotUpdates, turn) + Declines(u.declinedSlots, turn)).(
      declined := f.declined + (set n | n in u.declinedSlots),
      assets := AssetsAfter(f.assets, u, turn),
      experience := ExperienceAfter(f.experience, u, turn))
  }

  /** The choice resolves the first slot awaiting one, if its number is on offer. */
  function ChoiceMade(number: string -> Option<real>, f: Facts, u: Understanding, turn: int): seq<Entry> {
    var pending := FirstAmbiguous(f, f.slotOrder);
    if u.selectedChoice.None? || pending.None? then []
    else
      var options := f.Of(pending.value).current.options;
      var k := u.selectedChoice.value - 1;
      if 0 <= k < |options| then [ChosenEntry(number, pending.value, options[k], turn)] else []
  }

  function ChoiceWarning(f: Facts, u: Understanding): seq<Warning> {
    var pending := FirstAmbiguous(f, f.slotOrder);
    if u.selectedChoice.None? || pending.None? then []
    else
      var options := f.Of(pending.value).current.options;
      var k := u.selectedChoice.value - 1;
      if 0 <= k < |options| then [] else [ChoiceOutOfRange(u.selectedChoice.value, |options|)]
  }

  function Applied(number: string -> Option<real>, f: Facts, u: Understanding, turn: int): Facts {
    var g := Edited(number, f, u, turn);
    PutAll(g.(candidate := if u.selectedChoice.Some? then u.selectedChoice else g.candidate),
           ChoiceMade(number, g, u, turn))
  }

  method ApplyUnderstanding(number: string -> Option<real>, f: Facts, u: Understanding, turn: int)
    returns (g: Facts, warnings: seq<Warning>)
    ensures g == Applied(number, f, u, turn)
    ensures warnings == RefusalsOf(number, u.slotUpdates) + ChoiceWarning(Edited(number, f, u, turn), u)
  {
    hide Put, AssetsAfter, ExperienceAfter, FirstAmbiguous, Stated, Declines, RefusalsOf;
    g, warnings := ApplyUpdates(number, f, u.slotUpdates, turn);
    PutTouchesSlotsOnly(f, Stated(number, u.slotUpdates, turn));
    assert warnings + [] == warnings;
    var declined;
    g, declined := ApplyDeclines(f, Stated(number, u.slotUpdates, turn), g, u.declinedSlots, turn);
    PutTouchesSlotsOnly(f, Stated(number, u.slotUpdates, turn) + Declines(u.declinedSlots, turn));
    g := g.(declined := declined, assets := AssetsAfter(f.assets, u, turn),
            experience := ExperienceAfter(f.experience, u, turn));
    assert g == Edited(number, f, u, turn);
    if u.selectedChoice.Some? {
      var pending := FirstAmbiguous(g, g.slotOrder);
      g := g.(candidate := u.selectedChoice);
      if pending.Some? {
        var options := g.Of(pending.value).current.options;
        var k := u.selectedChoice.value - 1;
        if 0 <= k < |options| {
          PutOneMore(g, [], ChosenEntry(number, pending.value, options[k], turn));
          g := Put(g, ChosenEntry(number, pending.value, options[k], turn));
        } else {
          warnings := warnings + [ChoiceOutOfRange(u.selectedChoice.value, |options|)];
        }
      }
    }
  }

  method ApplyUpdates(number: string -> Option<real>, f: Facts, us: seq<SlotUpdate>, turn: int)
    returns (g: Facts, warnings: seq<Warning>)
    ensures g == PutAll(f, Stated(number, us, turn)) && warnings == RefusalsOf(number, us)
  {
    hide ResolveSlotValue, Put, PutAll, UserProvidedEntry;
    g, warnings := f, [];
    NothingPut(f);
    for i := 0 to |us|
      invariant g == PutAll(f, Stated(number, us[..i], turn))
      invariant warnings == RefusalsOf(number, us[..i])
    {
      assert us[..i + 1][..i] == us[..i] && us[..i + 1][i] == us[i];
      assert Stated(number, us[..i], turn) + [] == Stated(number, us[..i], turn);
      match ResolveSlotValue(number, us[i]) {
        case Refused(why) =>
          warnings := warnings + [NotApplied(us[i].slot, why)];
        case Value(v) =>
          PutOneMore(f, Stated(number, us[..i], turn), UserProvidedEntry(us[i], v, turn));
          g := Put(g, UserProvidedEntry(us[i], v, turn));
      }
    }
    assert us[..|us|] == us;
  }

  method ApplyDeclines(ghost f: Facts, ghost before: seq<Entry>, start: Facts, names: seq<SlotName>, turn: int)
    returns (g: Facts, declined: set<SlotName>)
    requires start == PutAll(f, before)
    ensures g == PutAll(f, before + Declines(names, turn))
    ensures declined == start.declined + set n | n in names
  {
    hide Put, PutAll, DeclinedEntry;
    g, declined := start, start.declined;
    assert before + Declines(names[..0], turn) == before;
    for i := 0 to |names|
      invariant g == PutAll(f, before + Declines(names[..i], turn))
      invariant declined == start.declined + set n | n in names[..i]
    {
      assert names[..i + 1] == names[..i] + [names[i]];
      declined := declined + {names[i]};
      var e := DeclinedEntry(names[i], turn);
      PutOneMore(f, before + Declines(names[..i], turn), e);
      assert before + Declines(names[..i + 1], turn) == before + Declines(names[..i], turn) + [e];
      g := Put(g, e);
    }
    assert names[..|names|] == names;
  }

  lemma NothingPut(f: Facts)
    ensures PutAll(f, []) == f
  {
  }

  lemma PutOneMore(f: Facts, es: seq<Entry>, e: Entry)
    ensures PutAll(f, es + [e]) == Put(PutAll(f, es), e)
  {
    assert (es + [e])[..|es|] == es;
  }

  lemma {:induction false} PutTouchesSlotsOnly(f: Facts, es: seq<Entry>)
    ensures PutAll(f, es) == f.(slots := PutAll(f, es).slots, slotOrder := PutAll(f, es).slotOrder)
  {
    if es != [] { PutTouchesSlotsOnly(f, es[..|es| - 1]); }
  }

  // ---- what a message does to the profile sets ----

  /**
   An owned asset stays, is added or goes, as the message says; a refusal empties the set unless the message changes it.
   What was recorded before stays on record.
   */
  lemma AssetsAreEdited(number: string -> Option<real>, f: Facts, u: Understanding, turn: int, k: AssetKind)
    ensures var slot, edited := f.assets, Applied(number, f, u, turn).assets;
            var before, after := slot.current, edited.current;
            var says := u.assetUpdate.Some? || u.assetsRemoved != [];
            && (says ==> after.state == UserProvided && after.setOnTurn == turn
                         && (k in after.items <==>
                               (k in before.items || (u.assetUpdate.Some? && k in u.assetUpdate.value.items))
                               && k !in u.assetsRemoved)
                         && match u.assetUpdate
                            case Some(new_) => after.rawText == Some(new_.rawText) && after.notes == before.notes + new_.notes
                            case None => after.rawText == before.rawText && after.notes == before.notes)
            && (!says && u.assetsDeclined ==> after == SetValue(Declined, {}, [], None, turn))
            && (says || u.assetsDeclined ==> edited.Timeline() == slot.Timeline() + [after])
            && (!says && !u.assetsDeclined ==> edited == slot)
  {
    hide Stated, Declines, PutAll, ChoiceMade, ExperienceAfter;
    ProfileOutlivesSlots(number, f, u, turn);
  }

  /** So does a trade the user has experience in. */
  lemma ExperienceIsEdited(number: string -> Option<real>, f: Facts, u: Understanding, turn: int, k: Category)
    ensures var slot, edited := f.experience, Applied(number, f, u, turn).experience;
            var before, after := slot.current, edited.current;
            var says := u.experienceUpdate.Some? || u.experienceRemoved != [];
            && (says ==> after.state == UserProvided && after.setOnTurn == turn && after.notes == []
                         && (k in after.items <==>
                               (k in before.items || (u.experienceUpdate.Some? && k in u.experienceUpdate.value.items))
                               && k !in u.experienceRemoved)
                         && match u.experienceUpdate
                            case Some(new_) => after.rawText == Some(new_.rawText)
                            case None => after.rawText == before.rawText)
            && (!says && u.experienceDeclined ==> after == SetValue(Declined, {}, [], None, turn))
            && (says || u.experienceDeclined ==> edited.Timeline() == slot.Timeline() + [after])
            && (!says && !u.experienceDeclined ==> edited == slot)
  {
    hide Stated, Declines, PutAll, ChoiceMade, AssetsAfter;
    ProfileOutlivesSlots(number, f, u, turn);
  }

  lemma ProfileOutlivesSlots(number: string -> Option<real>, f: Facts, u: Understanding, turn: int)
    ensures Applied(number, f, u, turn).assets == AssetsAfter(f.assets, u, turn)
    ensures Applied(number, f, u, turn).experience == ExperienceAfter(f.experience, u, turn)
  {
    hide Stated, Declines, PutAll, ChoiceMade, AssetsAfter, ExperienceAfter;
    var g := Edited(number, f, u, turn);
    PutTouchesSlotsOnly(g.(candidate := if u.selectedChoice.Some? then u.selectedChoice else g.candidate),
                        ChoiceMade(number, g, u, turn));
  }

  // ---- what a message leaves in a slot ----

  lemma {:induction false} StatedJoins(number: string -> Option<real>, a: seq<SlotUpdate>, b: seq<SlotUpdate>, turn: int)
    ensures Stated(number, a + b, turn) == Stated(number, a, turn) + Stated(number, b, turn)
  {
    hide ResolveSlotValue, UserProvidedEntry;
    if b == [] {
      assert a + b == a;
    } else {
      assert (a + b)[..|a + b| - 1] == a + b[..|b| - 1];
      StatedJoins(number, a, b[..|b| - 1], turn);
    }
  }

  lemma {:induction false} PutAllJoins(f: Facts, a: seq<Entry>, b: seq<Entry>)
    ensures PutAll(f, a + b) == PutAll(PutAll(f, a), b)
  {
    hide Put;
    if b == [] {
      assert a + b == a;
    } else {
      assert (a + b)[..|a + b| - 1] == a + b[..|b| - 1];
      PutAllJoins(f, a, b[..|b| - 1]);
    }
  }

  lemma {:induction false} OthersStay(f: Facts, es: seq<Entry>, name: SlotName)
    requires forall e :: e in es ==> e.slot != name
    ensures PutAll(f, es).Of(name) == f.Of(name)
  {
    if es != [] {
      assert es[|es| - 1] in es;
      OthersStay(f, es[..|es| - 1], name);
    }
  }

  lemma OnlyPendingIsChosen(number: string -> Option<real>, f: Facts, u: Understanding, turn: int, name: SlotName)
    requires Edited(number, f, u, turn).State(name) != Ambiguous
    ensures Applied(number, f, u, turn).Of(name) == Edited(number, f, u, turn).Of(name)
  {
    hide Edited;
    var g := Edited(number, f, u, turn);
    NothingPut(g.(candidate := if u.selectedChoice.Some? then u.selectedChoice else g.candidate));
  }

  /** The last well-formed statement about a slot stands, as it was quoted, unless the message also refuses an answer. */
  lemma LastStatementStands(
    number: string -> Option<real>, f: Facts, u: Understanding, turn: int, k: nat, v: SessionModels.Value)
    requires k < |u.slotUpdates| && ResolveSlotValue(number, u.slotUpdates[k]) == Resolved.Value(v)
    requires u.slotUpdates[k].slot !in u.declinedSlots
    requires forall j :: k < j < |u.slotUpdates| && u.slotUpdates[j].slot == u.slotUpdates[k].slot ==>
                           ResolveSlotValue(number, u.slotUpdates[j]).Refused?
    ensures var s := u.slotUpdates[k];
            Applied(number, f, u, turn).Of(s.slot).current ==
              SlotValue(UserProvided, Some(v), Some(s.rawText), Some(s.valueToken),
                        if s.slot == LocationText || s.slot == ProposedBusinessText then None else Some(s.normalization),
                        [], "profile", turn)
  {
    hide Stated, Declines, PutAll, Put, ResolveSlotValue, Applied;
    var us, s := u.slotUpdates, u.slotUpdates[k];
    var early, late := Stated(number, us[..k + 1], turn), Stated(number, us[k + 1..], turn) + Declines(u.declinedSlots, turn);
    StatementIsLast(number, us[..k + 1], turn, v);
    assert us == us[..k + 1] + us[k + 1..];
    StatedJoins(number, us[..k + 1], us[k + 1..], turn);
    assert Stated(number, us, turn) + Declines(u.declinedSlots, turn) == early + late;
    PutAllJoins(f, early, late);
    forall e | e in late ensures e.slot != s.slot { LateIsOther(number, us[k + 1..], u.declinedSlots, turn, s.slot, e); }
    OthersStay(PutAll(f, early), late, s.slot);
    LastPutStands(f, early);
    OnlyPendingIsChosen(number, f, u, turn, s.slot);
  }

  lemma StatementIsLast(number: string -> Option<real>, us: seq<SlotUpdate>, turn: int, v: SessionModels.Value)
    requires us != [] && ResolveSlotValue(number, us[|us| - 1]) == Resolved.Value(v)
    ensures var es := Stated(number, us, turn); es != [] && es[|es| - 1] == UserProvidedEntry(us[|us| - 1], v, turn)
  {
    hide ResolveSlotValue, UserProvidedEntry;
  }

  lemma LateIsOther(number: string -> Option<real>, us: seq<SlotUpdate>, names: seq<SlotName>, turn: int, name: SlotName,
                    e: Entry)
    requires e in Stated(number, us, turn) + Declines(names, turn) && name !in names
    requires forall j :: 0 <= j < |us| && us[j].slot == name ==> ResolveSlotValue(number, us[j]).Refused?
    ensures e.slot != name
  {
    hide Stated, Declines, ResolveSlotValue;
    if e in Stated(number, us, turn) {
      StatedAreUserProvided(number, us, turn, e);
    } else {
      DeclinesAreDeclined(names, turn, e);
    }
  }

  lemma LastPutStands(f: Facts, es: seq<Entry>)
    requires es != []
    ensures PutAll(f, es).Of(es[|es| - 1].slot).current == es[|es| - 1].value
  {
  }

  /** A refused slot is left refused, whatever else is said of it, and the refusal is remembered. */
  lemma RefusalStands(number: string -> Option<real>, f: Facts, u: Understanding, turn: int, name: SlotName)
    requires name in u.declinedSlots
    ensures var g := Applied(number, f, u, turn);
            && g.Of(name).current == SlotValue(Declined, None, None, None, None, [], "", turn)
            && forall n :: n in g.declined <==> n in f.declined || n in u.declinedSlots
  {
    hide Stated, PutAll, Put, FirstAmbiguous;
    var es := Stated(number, u.slotUpdates, turn);
    PutAllJoins(f, es, Declines(u.declinedSlots, turn));
    DeclineStands(PutAll(f, es), u.declinedSlots, turn, name);
    OnlyPendingIsChosen(number, f, u, turn, name);
    var g := Edited(number, f, u, turn);
    PutTouchesSlotsOnly(g.(candidate := if u.selectedChoice.Some? then u.selectedChoice else g.candidate),
                        ChoiceMade(number, g, u, turn));
  }

  lemma {:induction false} DeclineStands(f: Facts, names: seq<SlotName>, turn: int, name: SlotName)
    requires name in names
    ensures PutAll(f, Declines(names, turn)).Of(name).current == SlotValue(Declined, None, None, None, None, [], "", turn)
  {
    var es, most := Declines(names, turn), names[..|names| - 1];
    assert es[..|es| - 1] == Declines(most, turn);
    if names[|names| - 1] != name { DeclineStands(f, most, turn, name); }
  }

  // ---- malformed updates ----

  function WellFormedOnly(number: string -> Option<real>, us: seq<SlotUpdate>): seq<SlotUpdate> {
    if us == [] then [] else
      var u := us[|us| - 1];
      WellFormedOnly(number, us[..|us| - 1]) + if ResolveSlotValue(number, u).Value? then [u] else []
  }

  lemma {:induction false} StatedIgnoresMalformed(number: string -> Option<real>, us: seq<SlotUpdate>, turn: int)
    ensures Stated(number, WellFormedOnly(number, us), turn) == Stated(number, us, turn)
    ensures RefusalsOf(number, WellFormedOnly(number, us)) == []
    ensures |Stated(number, us, turn)| + |RefusalsOf(number, us)| == |us|
  {
    hide ResolveSlotValue, UserProvidedEntry;
    if us != [] {
      var most, u := us[..|us| - 1], us[|us| - 1];
      StatedIgnoresMalformed(number, most, turn);
      var kept := WellFormedOnly(number, most);
      if ResolveSlotValue(number, u).Value? {
        assert (kept + [u])[..|kept|] == kept;
      } else {
        assert kept + [] == kept;
      }
    }
  }

  /** Updates that cannot be applied are reported one by one and change nothing: the rest applies as if they were absent. */
  lemma MalformedUpdatesChangeNothing(number: string -> Option<real>, f: Facts, u: Understanding, turn: int)
    ensures Applied(number, f, u.(slotUpdates := WellFormedOnly(number, u.slotUpdates)), turn)
         == Applied(number, f, u, turn)
    ensures |Stated(number, u.slotUpdates, turn)| + |RefusalsOf(number, u.slotUpdates)| == |u.slotUpdates|
  {
    hide Stated, Put, FirstAmbiguous, WellFormedOnly, PutAll, RefusalsOf, Declines;
    StatedIgnoresMalformed(number, u.slotUpdates, turn);
  }

  // ---- timelines ----

  function ValuesFor(name: SlotName, es: seq<Entry>): seq<SlotValue> {
    if es == [] then [] else
      ValuesFor(name, es[..|es| - 1]) + if es[|es| - 1].slot == name then [es[|es| - 1].value] else []
  }

  /** Everything one turn adds, in the order it is added. */
  function Additions(number: string -> Option<real>, f: Facts, u: Understanding, turn: int): seq<Entry> {
    Stated(number, u.slotUpdates, turn) + Declines(u.declinedSlots, turn)
    + ChoiceMade(number, Edited(number, f, u, turn), u, turn)
  }

  lemma {:induction false} PutAllAppends(f: Facts, es: seq<Entry>, name: SlotName)
    requires forall e :: e in es ==> e.value.state != Missing
    ensures PutAll(f, es).Of(name).Timeline() == f.Of(name).Timeline() + ValuesFor(name, es)
  {
    if es == [] {
      assert f.Of(name).Timeline() + [] == f.Of(name).Timeline();
    } else {
      var most, e := es[..|es| - 1], es[|es| - 1];
      PutAllAppends(f, most, name);
      assert e in es;
      PutAppends(PutAll(f, most), e, name);
      assert f.Of(name).Timeline() + ValuesFor(name, es)
          == f.Of(name).Timeline() + ValuesFor(name, most) + if e.slot == name then [e.value] else [];
    }
  }

  lemma PutAppends(f: Facts, e: Entry, name: SlotName)
    requires e.value.state != Missing
    ensures Put(f, e).Of(name).Timeline() == f.Of(name).Timeline() + if e.slot == name then [e.value] else []
  {
    assert f.Of(name).Timeline() + [] == f.Of(name).Timeline();
  }

  lemma {:induction false} StatedAreUserProvided(number: string -> Option<real>, us: seq<SlotUpdate>, turn: int, e: Entry)
    requires e in Stated(number, us, turn)
    ensures exists u :: u in us && ResolveSlotValue(number, u).Value?
                        && e == UserProvidedEntry(u, ResolveSlotValue(number, u).value, turn)
  {
    hide ResolveSlotValue, UserProvidedEntry;
    var u := us[|us| - 1];
    if e in Stated(number, us[..|us| - 1], turn) {
      StatedAreUserProvided(number, us[..|us| - 1], turn, e);
    }
  }

  lemma {:induction false} DeclinesAreDeclined(names: seq<SlotName>, turn: int, e: Entry)
    requires e in Declines(names, turn)
    ensures exists n :: n in names && e == DeclinedEntry(n, turn)
  {
    if e in Declines(names[..|names| - 1], turn) { DeclinesAreDeclined(names[..|names| - 1], turn, e); }
  }

  lemma NothingMissingIsAdded(number: string -> Option<real>, f: Facts, u: Understanding, turn: int)
    ensures forall e :: e in Additions(number, f, u, turn) ==> e.value.state != Missing
  {
    hide Stated, Declines, ResolveSlotValue;
    forall e | e in Additions(number, f, u, turn) ensures e.value.state != Missing {
      if e in Stated(number, u.slotUpdates, turn) {
        StatedAreUserProvided(number, u.slotUpdates, turn, e);
      } else if e in Declines(u.declinedSlots, turn) {
        DeclinesAreDeclined(u.declinedSlots, turn, e);
      }
    }
  }

  /**
   A turn appends to each slot exactly what it says about that slot: nothing recorded is lost or reordered, and a
   slot it does not mention is untouched.
   */
  lemma TimelineGrowsByAdditions(number: string -> Option<real>, f: Facts, u: Understanding, turn: int, name: SlotName)
    ensures Applied(number, f, u, turn).Of(name).Timeline()
         == f.Of(name).Timeline() + ValuesFor(name, Additions(number, f, u, turn))
  {
    hide *;
    var early := Stated(number, u.slotUpdates, turn) + Declines(u.declinedSlots, turn);
    var g := Edited(number, f, u, turn);
    var start := g.(candidate := if u.selectedChoice.Some? then u.selectedChoice else g.candidate);
    var chosen := ChoiceMade(number, g, u, turn);
    AppliedInTwo(number, f, u, turn, name);
    NothingMissingIsAdded(number, f, u, turn);
    PutAllAppends(f, early, name);
    PutAllAppends(start, chosen, name);
    ValuesForJoins(name, early, chosen);
    assert f.Of(name).Timeline() + (ValuesFor(name, early) + ValuesFor(name, chosen))
        == (f.Of(name).Timeline() + ValuesFor(name, early)) + ValuesFor(name, chosen);
  }

  lemma AppliedInTwo(number: string -> Option<real>, f: Facts, u: Understanding, turn: int, name: SlotName)
    ensures var early := Stated(number, u.slotUpdates, turn) + Declines(u.declinedSlots, turn);
            var g := Edited(number, f, u, turn);
            var start := g.(candidate := if u.selectedChoice.Some? then u.selectedChoice else g.candidate);
            && start.Of(name) == PutAll(f, early).Of(name)
            && Applied(number, f, u, turn) == PutAll(start, ChoiceMade(number, g, u, turn))
            && Additions(number, f, u, turn) == early + ChoiceMade(number, g, u, turn)
  {
    hide Stated, Declines, PutAll, ChoiceMade, AssetsAfter, ExperienceAfter;
  }

  lemma {:induction false} ValuesForJoins(name: SlotName, a: seq<Entry>, b: seq<Entry>)
    ensures ValuesFor(name, a + b) == ValuesFor(name, a) + ValuesFor(name, b)
  {
    if b == [] {
      assert a + b == a;
    } else {
      assert (a + b)[..|a + b| - 1] == a + b[..|b| - 1];
      ValuesForJoins(name, a, b[..|b| - 1]);
    }
  }

  // ---- choices ----

  /**
   A choice settles the first pending slot exactly when its number is on offer, touches no other slot, and warns
   otherwise. Whatever it was about and whether on offer or not, it becomes the geocoding candidate.
   */
  lemma ChoiceSettlesExactlyWhenOnOffer(
    number: string -> Option<real>, f: Facts, u: Understanding, turn: int, name: SlotName, other: SlotName)
    requires u.selectedChoice.Some?
    requires FirstAmbiguous(Edited(number, f, u, turn), Edited(number, f, u, turn).slotOrder) == Some(name)
    ensures var g, h := Edited(number, f, u, turn), Applied(number, f, u, turn);
            var onOffer := 1 <= u.selectedChoice.value <= |g.Of(name).current.options|;
            && (h.State(name) != Ambiguous <==> onOffer) && (ChoiceWarning(g, u) == [] <==> onOffer)
            && (onOffer ==>
                  var option, now := g.Of(name).current.options[u.selectedChoice.value - 1], h.Of(name).current;
                  && now.state == UserProvided && now.rawText == Some(option) && now.options == []
                  && now.value == (match number(option) case Some(x) => Some(Amount(x))
                                                        case None => Some(SessionModels.Value.Text(option)))
                  && h.Of(name).Timeline() == g.Of(name).Timeline() + [now])
            && (other != name ==> h.Of(other) == g.Of(other))
            && h.candidate == u.selectedChoice
  {
    hide Edited, FirstAmbiguous;
    var g := Edited(number, f, u, turn);
    NothingPut(g.(candidate := u.selectedChoice));
  }
}
