/** When things were said: the session counts the saved messages, and its histories are in that order. */
module Chronology {
  import opened Wrappers
  import opened SessionModels
  import opened Workflow
  import opened Artifacts
  import opened Planner
  import opened Turn
  import opened Dialogue
  import D = Deltas

  /** No entry is older than the one before it, and none is of a turn to come. */
  ghost predicate InOrder(t: seq<SlotValue>, now: int) {
    forall i, j :: 0 <= i <= j < |t| ==> t[i].setOnTurn <= t[j].setOnTurn <= now
  }

  ghost predicate SetInOrder<K>(t: seq<SetValue<K>>, now: int) {
    forall i, j :: 0 <= i <= j < |t| ==> t[i].setOnTurn <= t[j].setOnTurn <= now
  }

  ghost predicate Dated(f: Facts, now: int) {
    && (forall n :: InOrder(f.Of(n).Timeline(), now))
    && SetInOrder(f.assets.Timeline(), now) && SetInOrder(f.experience.Timeline(), now)
  }

  lemma NewestGoesLast(t: seq<SlotValue>, more: seq<SlotValue>, was: int, now: int)
    requires InOrder(t, was) && was <= now && forall v :: v in more ==> v.setOnTurn == now
    ensures InOrder(t + more, now)
  {
  }

  lemma NewestSetGoesLast<K>(t: seq<SetValue<K>>, v: SetValue<K>, was: int, now: int)
    requires SetInOrder(t, was) && was <= now && v.setOnTurn == now
    ensures SetInOrder(t + [v], now)
  {
  }

  // ---- the user's part ----

  lemma AdditionsAreOfTheTurn(number: Number, f: Facts, u: D.Understanding, turn: int, e: D.Entry)
    requires e in D.Additions(number, f, u, turn)
    ensures e.value.setOnTurn == turn
  {
    hide D.Stated, D.Declines, D.ResolveSlotValue, D.Edited, FirstAmbiguous;
    if e in D.Stated(number, u.slotUpdates, turn) {
      D.StatedAreUserProvided(number, u.slotUpdates, turn, e);
    } else if e in D.Declines(u.declinedSlots, turn) {
      D.DeclinesAreDeclined(u.declinedSlots, turn, e);
    }
  }

  lemma {:induction false} ValuesAreEntries(name: SlotName, es: seq<D.Entry>, now: int)
    requires forall e :: e in es ==> e.value.setOnTurn == now
    ensures forall v :: v in D.ValuesFor(name, es) ==> v.setOnTurn == now
  {
    if es != [] {
      assert es[|es| - 1] in es;
      ValuesAreEntries(name, es[..|es| - 1], now);
    }
  }

  lemma HeardIsDated(number: Number, f: Facts, m: Said)
    requires Dated(f, f.turn)
    ensures Heard(number, f, m).turn == f.turn + 1 && Dated(Heard(number, f, m), f.turn + 1)
  {
    hide D.Applied, D.Additions, D.ValuesFor, InOrder, SetInOrder;
    var u, now := m.understood, f.turn + 1;
    var g, es := D.Applied(number, f, u, now), D.Additions(number, f, u, now);
    forall e | e in es ensures e.value.setOnTurn == now { AdditionsAreOfTheTurn(number, f, u, now, e); }
    forall n ensures InOrder(Heard(number, f, m).Of(n).Timeline(), now) {
      assert Heard(number, f, m).Of(n) == g.Of(n);
      D.TimelineGrowsByAdditions(number, f, u, now, n);
      ValuesAreEntries(n, es, now);
      NewestGoesLast(f.Of(n).Timeline(), D.ValuesFor(n, es), f.turn, now);
    }
    ProfileIsDated(number, f, u);
  }

  lemma ProfileIsDated(number: Number, f: Facts, u: D.Understanding)
    requires SetInOrder(f.assets.Timeline(), f.turn) && SetInOrder(f.experience.Timeline(), f.turn)
    ensures var g := D.Applied(number, f, u, f.turn + 1);
            SetInOrder(g.assets.Timeline(), f.turn + 1) && SetInOrder(g.experience.Timeline(), f.turn + 1)
  {
    hide D.Applied, SetInOrder;
    var g, now := D.Applied(number, f, u, f.turn + 1), f.turn + 1;
    D.AssetsAreEdited(number, f, u, now, 0);
    D.ExperienceIsEdited(number, f, u, now, 0);
    if u.assetUpdate.Some? || u.assetsRemoved != [] || u.assetsDeclined {
      NewestSetGoesLast(f.assets.Timeline(), g.assets.current, f.turn, now);
    }
    if u.experienceUpdate.Some? || u.experienceRemoved != [] || u.experienceDeclined {
      NewestSetGoesLast(f.experience.Timeline(), g.experience.current, f.turn, now);
    }
    LaterIsInOrder(f.assets.Timeline(), f.turn, now);
    LaterIsInOrder(f.experience.Timeline(), f.turn, now);
  }

  lemma LaterIsInOrder<K>(t: seq<SetValue<K>>, was: int, now: int)
    requires SetInOrder(t, was) && was <= now
    ensures SetInOrder(t, now)
  {
  }

  // ---- the engines' part ----

  lemma PutIsDated(f: Facts, e: D.Entry)
    requires Dated(f, f.turn) && e.value.setOnTurn == f.turn && e.value.state != Missing
    ensures Dated(D.Put(f, e), f.turn) && D.Put(f, e).turn == f.turn
  {
    hide InOrder, SetInOrder;
    forall n ensures InOrder(D.Put(f, e).Of(n).Timeline(), f.turn) {
      D.PutAppends(f, e, n);
      NewestGoesLast(f.Of(n).Timeline(), if e.slot == n then [e.value] else [], f.turn, f.turn);
    }
  }

  lemma WriteIsDated(e: Engine, s: StepId, f: Facts, x: Payload)
    requires Dated(f, f.turn)
    ensures Write(e, s, f, x).turn == f.turn && Dated(Write(e, s, f, x), f.turn)
  {
    hide Dated, D.Put;
    if s == ResolveProposed {
      var g := f.(category := CategoryOf(x), subtypes := x.subtypes);
      CategoryIsUndated(f, g);
      AskedIsDated(g, ProposedBusinessText, x.choices + ["None of these"], Quoted(g.Of(ProposedBusinessText).current));
    } else if s == Discover {
      AssumedIsDated(f, RadiusM, Count(e.defaultRadius), "config:default_radius_m");
      var g := if f.State(RadiusM) == Missing
               then SetSlotAssumed(f, RadiusM, Count(e.defaultRadius), "config:default_radius_m") else f;
      AskedIsDated(g, LocationText, x.choices, Quoted(g.Of(LocationText).current));
    }
  }

  lemma CategoryIsUndated(f: Facts, g: Facts)
    requires Dated(f, f.turn) && g == f.(category := g.category, subtypes := g.subtypes)
    ensures Dated(g, g.turn)
  {
    hide InOrder;
    forall n ensures InOrder(g.Of(n).Timeline(), g.turn) { assert g.Of(n) == f.Of(n); }
  }

  lemma AskedIsDated(f: Facts, name: SlotName, options: seq<string>, rawText: Option<string>)
    requires Dated(f, f.turn)
    ensures var g := SetSlotAmbiguous(f, name, options, rawText); g.turn == f.turn && Dated(g, f.turn)
  {
    hide Dated, D.Put;
    AmbiguousIsPut(f, name, options, rawText);
    PutIsDated(f, D.Entry(name, SlotValue(Ambiguous, None, rawText, None, None, options, "", f.turn)));
  }

  lemma AssumedIsDated(f: Facts, name: SlotName, value: Value, source: string)
    requires Dated(f, f.turn)
    ensures var g := SetSlotAssumed(f, name, value, source); g.turn == f.turn && Dated(g, f.turn)
  {
    hide Dated, D.Put;
    AssumedIsPut(f, name, value, source);
    PutIsDated(f, D.Entry(name, SlotValue(Assumed, Some(value), None, None, None, [], source, f.turn)));
  }

  lemma {:induction false} LoopIsDated(c: Context, st: Advice, requested: Option<StepId>)
    requires Proper(c, st) && Dated(st.inputs, st.inputs.turn)
    ensures var f := Loop(c, st, requested).inputs; f.turn == st.inputs.turn && Dated(f, f.turn)
    decreases ALL_STEPS - st.artifacts.Keys
  {
    hide Advisor, Decide, Runnable, Dated, Write;
    var p := Advisor(c.engine);
    var action := Decide(st, requested, c.maxRadius, c.mode);
    if action.RunNext? && !c.fails(action.step) {
      var s := action.step;
      StepIsNew(c, st, requested);
      p.RunStepShape(st, s);
      AdvisorParts(c.engine);
      WriteIsDated(c.engine, s, st.inputs, p.Answer(st, s));
      LoopIsDated(c, p.RunStep(st, s), None);
    }
  }

  // ---- conversations ----

  /** How many of the messages are saved. */
  ghost function SavedCount(number: Number, e: Engine, st: Advice, said: seq<Said>): nat
    requires Advisor(e).Known(st)
    decreases |said|
  {
    if said == [] then 0
    else (if Lost(number, e, st, said[0]) then 0 else 1) + SavedCount(number, e, Reply(number, e, st, said[0]), said[1..])
  }

  lemma ReplyIsDated(number: Number, e: Engine, st: Advice, m: Said)
    requires Advisor(e).Known(st) && Dated(st.inputs, st.inputs.turn)
    ensures var f := Reply(number, e, st, m).inputs;
            Dated(f, f.turn) && f.turn == st.inputs.turn + if Lost(number, e, st, m) then 0 else 1
  {
    hide Advisor, Loop, Dated, Heard, Lost;
    if !Lost(number, e, st, m) {
      HeardIsDated(number, st.inputs, m);
      LoopIsDated(Circumstances(e, m), SweptBy(number, e, st, m), m.requested);
    }
  }

  lemma {:induction false} TalkIsDated(number: Number, e: Engine, st: Advice, said: seq<Said>)
    requires Advisor(e).Known(st) && Dated(st.inputs, st.inputs.turn)
    ensures var f := Talk(number, e, st, said).inputs;
            Dated(f, f.turn) && f.turn == st.inputs.turn + SavedCount(number, e, st, said)
    decreases |said|
  {
    hide Advisor, Dated, Reply, Lost;
    if said != [] {
      ReplyIsDated(number, e, st, said[0]);
      TalkIsDated(number, e, Reply(number, e, st, said[0]), said[1..]);
    }
  }

  /**
   In every conversation: the turn is the number of messages that were saved, every history is in the order of turns, and
   no entry is of a turn to come.
   */
  lemma HistoriesAreChronological(number: Number, e: Engine, said: seq<Said>)
    ensures var f := Talk(number, e, FirstSession(e), said).inputs;
            Dated(f, f.turn) && f.turn == SavedCount(number, e, FirstSession(e), said)
  {
    hide Advisor, Talk, SavedCount, FirstSession;
    FirstIsBlank(e);
    TalkIsDated(number, e, FirstSession(e), said);
  }
}
