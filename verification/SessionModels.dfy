/** Slots, their correction histories, and the fields a conversation carries from turn to turn. */
module SessionModels {
  import opened Wrappers

  datatype SlotState = Missing | Ambiguous | Declined | UserProvided | Sourced | Assumed | Calculated

  datatype SlotName =
    | LocationText | RadiusM | ProposedBusinessText
    | LiquidCashInr | PromoterCashContributionInr | YearsExperience
    | MonthlyRevenueInr | CogsPct | ProjectCostInr | FixedOpexInr
    | LoanPrincipalInr | LoanInterestRatePct | LoanTenureMonths | LoanMoratoriumMonths

  /** `Decimal | int | str`. */
  datatype Value = Amount(amount: real) | Count(count: int) | Text(text: string)

  datatype Normalization =
    | AsStated | PercentToRatio | PercentAsAnnualRate | ThousandToInr | LakhToInr | CroreToInr | YearsToMonths

  datatype SlotValue = SlotValue(
    state: SlotState,
    value: Option<Value>,
    rawText: Option<string>,
    valueToken: Option<string>,
    normalization: Option<Normalization>,
    options: seq<string>,
    source: string,
    setOnTurn: int)

  const MISSING_VALUE := SlotValue(Missing, None, None, None, None, [], "", 0)

  datatype Slot = Slot(current: SlotValue, history: seq<SlotValue>)
  {
    /** Corrections append, never overwrite. */
    function Updated(new_: SlotValue): Slot {
      if current.state == Missing && history == [] then Slot(new_, [])
      else Slot(new_, history + [current])
    }

    /** Everything ever recorded for this slot, oldest first; the unpopulated slot has recorded nothing. */
    function Timeline(): seq<SlotValue> {
      if current.state == Missing && history == [] then [] else history + [current]
    }
  }

  const EMPTY_SLOT := Slot(MISSING_VALUE, [])

  /** A set-valued profile fact (owned assets, trade experience) and its history. */
  datatype SetValue<K> = SetValue(state: SlotState, items: set<K>, notes: seq<string>, rawText: Option<string>,
                                  setOnTurn: int)

  datatype SetSlot<K> = SetSlot(current: SetValue<K>, history: seq<SetValue<K>>)
  {
    function Updated(new_: SetValue<K>): SetSlot<K> {
      if current.state == Missing && history == [] then SetSlot(new_, [])
      else SetSlot(new_, history + [current])
    }

    function Timeline(): seq<SetValue<K>> {
      if current.state == Missing && history == [] then [] else history + [current]
    }
  }

  type AssetKind = nat
  type Category = nat

  /** The session without its artifacts. `slotOrder` is the insertion order of the slot dictionary. */
  datatype Facts = Facts(
    ended: bool,
    turn: int,
    slots: map<SlotName, Slot>,
    slotOrder: seq<SlotName>,
    assets: SetSlot<AssetKind>,
    experience: SetSlot<Category>,
    category: Option<Category>,
    subtypes: seq<string>,
    candidate: Option<int>,
    declined: set<SlotName>)
  {
    /** A slot nobody mentioned is a missing one. */
    function Of(name: SlotName): Slot {
      if name in slots then slots[name] else EMPTY_SLOT
    }

    function State(name: SlotName): SlotState {
      Of(name).current.state
    }

    /** Assign into the slot dictionary; a new key goes last. */
    function With(name: SlotName, slot: Slot): Facts {
      this.(slots := slots[name := slot], slotOrder := if name in slots then slotOrder else slotOrder + [name])
    }

    predicate Satisfied(name: SlotName) {
      var st := State(name);
      st == UserProvided || st == Sourced || st == Assumed || st == Calculated
    }

    ghost predicate Valid() {
      && (forall name :: name in slots <==> name in slotOrder)
      && forall i, j :: 0 <= i < j < |slotOrder| ==> slotOrder[i] != slotOrder[j]
    }
  }

  const BLANK := Facts(false, 0, map[], [], SetSlot(SetValue(Missing, {}, [], None, 0), []),
                       SetSlot(SetValue(Missing, {}, [], None, 0), []), None, [], None, {})

  /** Used after an engine reports an ambiguity. */
  function SetSlotAmbiguous(f: Facts, name: SlotName, options: seq<string>, rawText: Option<string>): Facts {
    f.With(name, f.Of(name).Updated(SlotValue(Ambiguous, None, rawText, None, None, options, "", f.turn)))
  }

  /** A configured default. */
  function SetSlotAssumed(f: Facts, name: SlotName, value: Value, source: string): Facts {
    f.With(name, f.Of(name).Updated(SlotValue(Assumed, Some(value), None, None, None, [], source, f.turn)))
  }

  /** The first slot, in dictionary order, that awaits a choice. */
  function FirstAmbiguous(f: Facts, order: seq<SlotName>): (r: Option<SlotName>)
    ensures r.Some? ==> r.value in order && f.State(r.value) == Ambiguous
    ensures r.None? <==> forall n :: n in order ==> f.State(n) != Ambiguous
  {
    if order == [] then None
    else if f.State(order[0]) == Ambiguous then Some(order[0])
    else FirstAmbiguous(f, order[1..])
  }

  lemma NothingPending(f: Facts)
    requires f.Valid() && FirstAmbiguous(f, f.slotOrder).None?
    ensures forall n :: f.State(n) != Ambiguous
  {
    forall n ensures f.State(n) != Ambiguous {
      if n in f.slots { assert n in f.slotOrder; }
    }
  }
}
