/**
 Fingerprints and cascade invalidation over an arbitrary acyclic step graph.

 A fingerprint is kept as the tree that the program hashes: the step's name, its own declared inputs, and the
 fingerprints of the upstream steps it was computed over. Equal hashes are read as equal trees.
 */
module StepCache {
  import opened Wrappers

  datatype Fingerprint<S, O> = Fingerprint(
    step: S,
    own: O,
    required: seq<Fingerprint<S, O>>,
    optional: seq<Option<Fingerprint<S, O>>>)

  /** `seen` is what the runner took from the session; the program does not store it, the model does to compare with. */
  datatype Artifact<S, O, R, P> = Artifact(fingerprint: Fingerprint<S, O>, seen: R, payload: P)

  datatype Session<S, I, O, R, P> = Session(inputs: I, artifacts: map<S, Artifact<S, O, R, P>>)

  /** The user edits the session, `invalidate` sweeps it, or a step runs. */
  datatype Event<S, I> = Edited(inputs: I) | Swept | Ran(step: S)

  ghost function Pow2(n: nat): nat {
    if n == 0 then 1 else 2 * Pow2(n - 1)
  }

  ghost function Pos<S(!new)>(order: seq<S>, s: S): (i: nat)
    requires s in order
    ensures i < |order| && order[i] == s
  {
    var i :| 0 <= i < |order| && order[i] == s; i
  }

  ghost predicate Earlier<S(!new)>(order: seq<S>, d: S, s: S) {
    d in order && s in order && Pos(order, d) < Pos(order, s)
  }

  ghost predicate Distinct<S(!new)>(s: seq<S>) {
    forall i, j :: 0 <= i < j < |s| ==> s[i] != s[j]
  }

  /**
   A step graph together with what its steps do. `required` gates readiness, `upstream` is what the fingerprint
   reads of it, `optional` joins the fingerprint only when present. `own` selects a step's declared inputs, `asks`
   says that one of them awaits the user, `sees` is what the runner takes from the session, declared or not, `run`
   is the engine behind a step and `write` its effect on the session fields.
   */
  datatype Pipeline<!S(==, !new), !I(!new), !O(==, !new), !R(!new), !P(!new)> = Pipeline(
    order: seq<S>,
    required: S -> seq<S>,
    upstream: S -> seq<S>,
    optional: S -> seq<S>,
    own: (S, I) -> O,
    asks: O -> bool,
    sees: (S, I) -> R,
    run: (S, R, seq<P>, seq<Option<P>>) -> P,
    write: (S, I, P) -> I)
  {
    // ---- well-formed pipelines ----

    ghost predicate WellOrdered() {
      && Distinct(order)
      && (forall s, d {:trigger d in required(s)} :: s in order && d in required(s) ==> Earlier(order, d, s))
      && (forall s, d {:trigger d in upstream(s)} :: s in order && d in upstream(s) ==> d in required(s))
      && (forall s, d {:trigger d in optional(s)} :: s in order && d in optional(s) ==> Earlier(order, d, s))
    }

    /** A step writes only session fields that itself or later steps declare or read. */
    ghost predicate WritesForward() {
      forall s, d, i, x {:trigger own(d, write(s, i, x))} {:trigger sees(d, write(s, i, x))} ::
        Earlier(order, d, s) ==> own(d, write(s, i, x)) == own(d, i) && sees(d, write(s, i, x)) == sees(d, i)
    }

    /** Unless its write leaves a question open, a step would read the same on the inputs it leaves behind. */
    ghost predicate WritesSettle() {
      forall s, i, x {:trigger write(s, i, x)} ::
        s in order && !asks(own(s, write(s, i, x))) ==> sees(s, write(s, i, x)) == sees(s, i)
    }

    ghost predicate WellFormed() {
      WellOrdered() && WritesForward() && WritesSettle()
    }

    // ---- fingerprints ----

    /** The fingerprint `s` would have if it ran now, given which steps have an artifact. */
    ghost function Fresh(i: I, present: set<S>, s: S): Fingerprint<S, O>
      requires WellOrdered() && s in order
      decreases Pos(order, s), 1
    {
      Fingerprint(s, own(s, i), FreshRequired(i, present, s), FreshOptional(i, present, s))
    }

    ghost function FreshRequired(i: I, present: set<S>, s: S): (fs: seq<Fingerprint<S, O>>)
      requires WellOrdered() && s in order
      ensures |fs| == |upstream(s)|
      decreases Pos(order, s), 0
    {
      seq(|upstream(s)|, k requires 0 <= k < |upstream(s)| =>
        assert upstream(s)[k] in upstream(s); Fresh(i, present, upstream(s)[k]))
    }

    ghost function FreshOptional(i: I, present: set<S>, s: S): (fs: seq<Option<Fingerprint<S, O>>>)
      requires WellOrdered() && s in order
      ensures |fs| == |optional(s)|
      decreases Pos(order, s), 0
    {
      seq(|optional(s)|, k requires 0 <= k < |optional(s)| =>
        assert optional(s)[k] in optional(s);
        if optional(s)[k] in present then Some(Fresh(i, present, optional(s)[k])) else None)
    }

    /** The value a step has from scratch, on one set of inputs and with one set of steps present. */
    ghost function Value(i: I, present: set<S>, s: S): P
      requires WellOrdered() && s in order
      decreases Pos(order, s), 1
    {
      run(s, sees(s, i), ValueRequired(i, present, s), ValueOptional(i, present, s))
    }

    ghost function ValueRequired(i: I, present: set<S>, s: S): (ps: seq<P>)
      requires WellOrdered() && s in order
      ensures |ps| == |upstream(s)|
      decreases Pos(order, s), 0
    {
      seq(|upstream(s)|, k requires 0 <= k < |upstream(s)| =>
        assert upstream(s)[k] in upstream(s); Value(i, present, upstream(s)[k]))
    }

    ghost function ValueOptional(i: I, present: set<S>, s: S): (ps: seq<Option<P>>)
      requires WellOrdered() && s in order
      ensures |ps| == |optional(s)|
      decreases Pos(order, s), 0
    {
      seq(|optional(s)|, k requires 0 <= k < |optional(s)| =>
        assert optional(s)[k] in optional(s);
        if optional(s)[k] in present then Some(Value(i, present, optional(s)[k])) else None)
    }

    /** `_fingerprint_one`: the fingerprint of `s` over already computed upstream fingerprints. */
    function FingerprintOne(i: I, present: set<S>, computed: map<S, Fingerprint<S, O>>, s: S): Fingerprint<S, O>
      requires forall d :: d in upstream(s) || d in optional(s) ==> d in computed
    {
      Fingerprint(s, own(s, i),
                  seq(|upstream(s)|, k requires 0 <= k < |upstream(s)| =>
                    assert upstream(s)[k] in upstream(s); computed[upstream(s)[k]]),
                  seq(|optional(s)|, k requires 0 <= k < |optional(s)| =>
                    assert optional(s)[k] in optional(s);
                    if optional(s)[k] in present then Some(computed[optional(s)[k]]) else None))
    }

    method ComputeFingerprints(i: I, present: set<S>) returns (computed: map<S, Fingerprint<S, O>>)
      requires WellOrdered()
      ensures forall s :: s in computed <==> s in order
      ensures forall s :: s in order ==> computed[s] == Fresh(i, present, s)
    {
      computed := map[];
      for n := 0 to |order|
        invariant forall s :: s in computed <==> s in order[..n]
        invariant Computed(i, present, computed)
      {
        var s := order[n];
        DependenciesComeFirst(n);
        OneIsFresh(i, present, computed, s);
        computed := computed[s := FingerprintOne(i, present, computed, s)];
        assert order[..n + 1] == order[..n] + [s];
      }
      assert order[..|order|] == order;
    }

    ghost predicate Computed(i: I, present: set<S>, computed: map<S, Fingerprint<S, O>>)
      requires WellOrdered()
    {
      forall s {:trigger computed[s]} :: s in computed ==> s in order && computed[s] == Fresh(i, present, s)
    }

    lemma OneIsFresh(i: I, present: set<S>, computed: map<S, Fingerprint<S, O>>, s: S)
      requires WellOrdered() && s in order
      requires forall d :: d in upstream(s) || d in optional(s) ==> d in computed
      requires Computed(i, present, computed)
      ensures FingerprintOne(i, present, computed, s) == Fresh(i, present, s)
    {
    }

    lemma UpstreamEarlier(s: S)
      requires WellOrdered() && s in order
      ensures forall k :: 0 <= k < |upstream(s)| ==> Earlier(order, upstream(s)[k], s)
      ensures forall k :: 0 <= k < |optional(s)| ==> Earlier(order, optional(s)[k], s)
    {
      forall k | 0 <= k < |upstream(s)| ensures Earlier(order, upstream(s)[k], s) {
        assert upstream(s)[k] in upstream(s);
      }
      forall k | 0 <= k < |optional(s)| ensures Earlier(order, optional(s)[k], s) {
        assert optional(s)[k] in optional(s);
      }
    }

    lemma DependenciesComeFirst(n: nat)
      requires WellOrdered() && n < |order|
      ensures forall d :: d in upstream(order[n]) || d in optional(order[n]) ==> d in order[..n]
    {
    }

    // ---- sessions ----

    ghost predicate Known(st: Session<S, I, O, R, P>) {
      WellOrdered() && forall s :: s in st.artifacts ==> s in order
    }

    ghost function FreshIn(st: Session<S, I, O, R, P>, s: S): Fingerprint<S, O>
      requires WellOrdered() && s in order
    {
      Fresh(st.inputs, st.artifacts.Keys, s)
    }

    ghost predicate IsFresh(st: Session<S, I, O, R, P>, s: S)
      requires Known(st) && s in st.artifacts
    {
      st.artifacts[s].fingerprint == FreshIn(st, s)
    }

    ghost predicate AllFresh(st: Session<S, I, O, R, P>) {
      Known(st) && forall s {:trigger IsFresh(st, s)} :: s in st.artifacts ==> IsFresh(st, s)
    }

    /** The fingerprint stored for `s` was built over the fingerprints stored for its upstream steps. */
    ghost predicate EmbedsAt(st: Session<S, I, O, R, P>, s: S)
      requires Known(st) && s in st.artifacts
    {
      var f := st.artifacts[s].fingerprint;
      && f.step == s
      && |f.required| == |upstream(s)|
      && |f.optional| == |optional(s)|
      && (forall k {:trigger f.required[k]} :: 0 <= k < |upstream(s)| ==> Holds(st, upstream(s)[k], f.required[k]))
      && (forall k {:trigger f.optional[k]} :: 0 <= k < |optional(s)| && f.optional[k].Some? ==>
            Holds(st, optional(s)[k], f.optional[k].value))
    }

    /** The session has an artifact for `d`, stored under the fingerprint `f`. */
    ghost predicate Holds(st: Session<S, I, O, R, P>, d: S, f: Fingerprint<S, O>) {
      d in st.artifacts && st.artifacts[d].fingerprint == f
    }

    ghost predicate Embedded(st: Session<S, I, O, R, P>) {
      Known(st) && forall s {:trigger EmbedsAt(st, s)} :: s in st.artifacts ==> EmbedsAt(st, s)
    }

    /** The payload stored for `s` is the engine's answer on what was seen and on the payloads it was recorded over. */
    ghost predicate HonestAt(st: Session<S, I, O, R, P>, s: S)
      requires s in st.artifacts
    {
      Loadable(st, s) &&
      st.artifacts[s].payload == run(s, st.artifacts[s].seen, LoadRequired(st, s), LoadRecorded(st, s))
    }

    /** The payloads of those optional steps that the stored fingerprint of `s` names. */
    ghost function LoadRecorded(st: Session<S, I, O, R, P>, s: S): (ps: seq<Option<P>>)
      requires s in st.artifacts
      ensures |ps| == |optional(s)|
    {
      var f := st.artifacts[s].fingerprint;
      seq(|optional(s)|, k requires 0 <= k < |optional(s)| =>
        if k < |f.optional| && f.optional[k].Some? && optional(s)[k] in st.artifacts
        then Some(st.artifacts[optional(s)[k]].payload) else None)
    }

    ghost predicate Honest(st: Session<S, I, O, R, P>) {
      forall s {:trigger HonestAt(st, s)} :: s in st.artifacts ==> HonestAt(st, s)
    }

    /** What the runner of `s` saw is what it would read now, unless one of its inputs awaits the user. */
    ghost predicate CurrentAt(st: Session<S, I, O, R, P>, s: S)
      requires s in st.artifacts
    {
      asks(own(s, st.inputs)) || st.artifacts[s].seen == sees(s, st.inputs)
    }

    ghost predicate AllCurrent(st: Session<S, I, O, R, P>) {
      forall s {:trigger CurrentAt(st, s)} :: s in st.artifacts ==> CurrentAt(st, s)
    }

    ghost predicate Sound(st: Session<S, I, O, R, P>) {
      Embedded(st) && Honest(st)
    }

    // ---- invalidation ----

    ghost function Stale(st: Session<S, I, O, R, P>): set<S>
      requires Known(st)
    {
      set s | s in st.artifacts && !IsFresh(st, s)
    }

    ghost function Invalidated(st: Session<S, I, O, R, P>): Session<S, I, O, R, P>
      requires Known(st)
    {
      st.(artifacts := st.artifacts - Stale(st))
    }

    method Invalidate(st: Session<S, I, O, R, P>) returns (kept: Session<S, I, O, R, P>, dropped: seq<S>)
      requires Known(st)
      ensures kept == Invalidated(st)
      ensures forall s :: s in dropped <==> s in st.artifacts && s !in kept.artifacts
      ensures forall i, j :: 0 <= i < j < |dropped| ==> Earlier(order, dropped[i], dropped[j])
    {
      hide Fresh, Pos;
      var computed := ComputeFingerprints(st.inputs, st.artifacts.Keys);
      var artifacts := st.artifacts;
      dropped := [];
      for n := 0 to |order|
        invariant artifacts == st.artifacts - set s | s in dropped
        invariant forall s :: s in dropped <==>
                    s in st.artifacts && s in order[..n] && st.artifacts[s].fingerprint != computed[s]
        invariant forall i, j :: 0 <= i < j < |dropped| ==> Earlier(order, dropped[i], dropped[j])
      {
        var s := order[n];
        assert order[..n + 1] == order[..n] + [s];
        AtPosition(n);
        if s in artifacts && artifacts[s].fingerprint != computed[s] {
          artifacts := artifacts - {s};
          dropped := dropped + [s];
        }
      }
      assert order[..|order|] == order;
      DroppedIsStale(st, computed, dropped);
      kept := st.(artifacts := artifacts);
    }

    lemma DroppedIsStale(st: Session<S, I, O, R, P>, computed: map<S, Fingerprint<S, O>>, dropped: seq<S>)
      requires Known(st) && forall s :: s in order ==> s in computed && computed[s] == FreshIn(st, s)
      requires forall s :: s in dropped <==> s in st.artifacts && s in order && st.artifacts[s].fingerprint != computed[s]
      ensures (set s | s in dropped) == Stale(st)
    {
      hide Fresh;
    }

    lemma AtPosition(n: nat)
      requires WellOrdered() && n < |order|
      ensures order[n] !in order[..n]
      ensures forall d :: d in order[..n] ==> Earlier(order, d, order[n])
    {
    }

    // ---- what one invalidation pass leaves behind ----

    /** `below` contains the upstream steps of its members, and their optional ones that are present. */
    ghost predicate ClosedBelow(below: set<S>, present: set<S>)
      requires WellOrdered()
    {
      && (forall t, d {:trigger d in upstream(t)} :: t in below && t in order && d in upstream(t) ==> d in below)
      && (forall t, d {:trigger d in optional(t)} ::
            t in below && t in order && d in optional(t) && d in present ==> d in below)
    }

    /** Inside `below`, the two sets of inputs look alike and the same optional steps are present. */
    ghost predicate AgreeBelow(i: I, a: set<S>, j: I, b: set<S>, below: set<S>)
      requires WellOrdered()
    {
      && (forall t {:trigger own(t, i)} :: t in below && t in order ==> own(t, i) == own(t, j))
      && (forall t, d {:trigger d in optional(t)} ::
            t in below && t in order && d in optional(t) ==> (d in a <==> d in b))
    }

    lemma {:induction false} FreshFrame(i: I, a: set<S>, j: I, b: set<S>, s: S, below: set<S>)
      requires WellOrdered() && s in order && s in below
      requires ClosedBelow(below, a) && AgreeBelow(i, a, j, b, below)
      ensures Fresh(i, a, s) == Fresh(j, b, s)
      decreases Pos(order, s)
    {
      UpstreamEarlier(s);
      forall k | 0 <= k < |upstream(s)| ensures FreshRequired(i, a, s)[k] == FreshRequired(j, b, s)[k] {
        assert upstream(s)[k] in upstream(s);
        FreshFrame(i, a, j, b, upstream(s)[k], below);
      }
      forall k | 0 <= k < |optional(s)| ensures FreshOptional(i, a, s)[k] == FreshOptional(j, b, s)[k] {
        assert optional(s)[k] in optional(s);
        if optional(s)[k] in a { FreshFrame(i, a, j, b, optional(s)[k], below); }
      }
      assert FreshRequired(i, a, s) == FreshRequired(j, b, s);
      assert FreshOptional(i, a, s) == FreshOptional(j, b, s);
    }

    /** In an embedded session, a kept step's upstream steps are kept with it. */
    lemma KeptIsClosed(st: Session<S, I, O, R, P>, s: S)
      requires Embedded(st) && s in Invalidated(st).artifacts
      ensures forall d {:trigger d in upstream(s)} :: d in upstream(s) ==> d in Invalidated(st).artifacts
      ensures forall d {:trigger d in optional(s)} :: d in optional(s) && d in st.artifacts ==>
                d in Invalidated(st).artifacts
    {
      assert IsFresh(st, s) && EmbedsAt(st, s);
      var f := st.artifacts[s].fingerprint;
      forall d | d in upstream(s) ensures d in Invalidated(st).artifacts {
        var k :| 0 <= k < |upstream(s)| && upstream(s)[k] == d;
        assert f.required[k] == FreshRequired(st.inputs, st.artifacts.Keys, s)[k] == FreshIn(st, d);
        assert Holds(st, d, f.required[k]);
      }
      forall d | d in optional(s) && d in st.artifacts ensures d in Invalidated(st).artifacts {
        var k :| 0 <= k < |optional(s)| && optional(s)[k] == d;
        assert f.optional[k] == FreshOptional(st.inputs, st.artifacts.Keys, s)[k] == Some(FreshIn(st, d));
        assert Holds(st, d, f.optional[k].value);
      }
    }

    /** One pass is enough: whatever survives it is fresh in the session it leaves. */
    lemma OnePassLeavesNothingStale(st: Session<S, I, O, R, P>)
      requires Embedded(st)
      ensures AllFresh(Invalidated(st)) && Invalidated(Invalidated(st)) == Invalidated(st)
    {
      var kept := Invalidated(st);
      var keys := kept.artifacts.Keys;
      forall t, d | t in keys && d in upstream(t) ensures d in keys { KeptIsClosed(st, t); }
      forall t, d | t in keys && d in optional(t) ensures d in st.artifacts <==> d in keys { KeptIsClosed(st, t); }
      forall s | s in kept.artifacts ensures IsFresh(kept, s) {
        assert IsFresh(st, s);
        FreshFrame(st.inputs, st.artifacts.Keys, st.inputs, keys, s, keys);
      }
      assert Stale(kept) == {};
    }

    lemma InvalidateKeepsSound(st: Session<S, I, O, R, P>)
      requires Sound(st)
      ensures Sound(Invalidated(st))
    {
      var kept := Invalidated(st);
      forall s | s in kept.artifacts ensures EmbedsAt(kept, s) && HonestAt(kept, s) {
        KeptEmbeds(st, s);
        KeptIsHonest(st, s);
      }
    }

    lemma KeptIsHonest(st: Session<S, I, O, R, P>, s: S)
      requires Sound(st) && s in Invalidated(st).artifacts
      ensures HonestAt(Invalidated(st), s)
    {
      var kept := Invalidated(st);
      assert HonestAt(st, s) && EmbedsAt(st, s);
      KeptIsClosed(st, s);
      var f := st.artifacts[s].fingerprint;
      forall k | 0 <= k < |optional(s)| ensures LoadRecorded(kept, s)[k] == LoadRecorded(st, s)[k] {
        assert optional(s)[k] in optional(s);
        if f.optional[k].Some? { assert Holds(st, optional(s)[k], f.optional[k].value); }
      }
      forall k | 0 <= k < |upstream(s)| ensures LoadRequired(kept, s)[k] == LoadRequired(st, s)[k] {
        assert upstream(s)[k] in upstream(s);
      }
      assert LoadRequired(kept, s) == LoadRequired(st, s) && LoadRecorded(kept, s) == LoadRecorded(st, s);
    }

    lemma KeptEmbeds(st: Session<S, I, O, R, P>, s: S)
      requires Embedded(st) && s in Invalidated(st).artifacts
      ensures EmbedsAt(Invalidated(st), s)
    {
      assert EmbedsAt(st, s);
      KeptIsClosed(st, s);
      forall k | 0 <= k < |upstream(s)| ensures upstream(s)[k] in upstream(s) { }
      forall k | 0 <= k < |optional(s)| ensures optional(s)[k] in optional(s) { }
    }

    // ---- running a step ----

    ghost predicate Ready(st: Session<S, I, O, R, P>, s: S) {
      s in order && s !in st.artifacts && forall d :: d in required(s) ==> d in st.artifacts
    }

    /** Everything the runner of `s` must load is there. */
    ghost predicate Loadable(st: Session<S, I, O, R, P>, s: S) {
      s in order && forall d :: d in upstream(s) ==> d in st.artifacts
    }

    /** The runner of `s` loads the artifact of `d`: a step its fingerprint reads, or an optional one if present. */
    ghost predicate Loads(st: Session<S, I, O, R, P>, s: S, d: S) {
      d in st.artifacts && (d in upstream(s) || d in optional(s))
    }

    function LoadRequired(st: Session<S, I, O, R, P>, s: S): (ps: seq<P>)
      requires Loadable(st, s)
      ensures |ps| == |upstream(s)|
    {
      seq(|upstream(s)|, k requires 0 <= k < |upstream(s)| =>
        assert upstream(s)[k] in upstream(s); st.artifacts[upstream(s)[k]].payload)
    }

    function LoadOptional(st: Session<S, I, O, R, P>, s: S): (ps: seq<Option<P>>)
      ensures |ps| == |optional(s)|
    {
      seq(|optional(s)|, k requires 0 <= k < |optional(s)| =>
        if optional(s)[k] in st.artifacts then Some(st.artifacts[optional(s)[k]].payload) else None)
    }

    /** The answer the engine behind `s` gives on the present session. */
    function Answer(st: Session<S, I, O, R, P>, s: S): P
      requires Loadable(st, s)
    {
      run(s, sees(s, st.inputs), LoadRequired(st, s), LoadOptional(st, s))
    }

    /** Run `s`, apply its write, and record its artifact under the fingerprint computed afterwards. */
    ghost function RunStep(st: Session<S, I, O, R, P>, s: S): Session<S, I, O, R, P>
      requires WellOrdered() && Loadable(st, s)
    {
      var x := Answer(st, s);
      var inputs := write(s, st.inputs, x);
      Session(inputs, st.artifacts[s := Artifact(Fresh(inputs, st.artifacts.Keys, s), sees(s, st.inputs), x)])
    }

    /** Running a step touches nothing but the inputs it writes and its own artifact. */
    lemma RunStepShape(st: Session<S, I, O, R, P>, s: S)
      requires WellOrdered() && Loadable(st, s)
      ensures var after := RunStep(st, s);
              && after.inputs == write(s, st.inputs, Answer(st, s))
              && after.artifacts.Keys == st.artifacts.Keys + {s}
              && after.artifacts[s].payload == Answer(st, s)
              && after.artifacts[s].seen == sees(s, st.inputs)
              && after.artifacts[s].fingerprint == Fresh(after.inputs, st.artifacts.Keys, s)
              && forall t :: t in st.artifacts && t != s ==> after.artifacts[t] == st.artifacts[t]
    {
    }

    /** `run_step`: runner, then all fingerprints of the session it left, then the record. */
    method Execute(st: Session<S, I, O, R, P>, s: S) returns (after: Session<S, I, O, R, P>)
      requires WellOrdered() && Loadable(st, s)
      ensures after == RunStep(st, s)
    {
      var x := Answer(st, s);
      var inputs := write(s, st.inputs, x);
      var computed := ComputeFingerprints(inputs, st.artifacts.Keys);
      after := Session(inputs, st.artifacts[s := Artifact(computed[s], sees(s, st.inputs), x)]);
    }

    /** Everything `s` would load is up to date. */
    ghost predicate LoadsFresh(st: Session<S, I, O, R, P>, s: S)
      requires Known(st)
    {
      forall d {:trigger IsFresh(st, d)} :: Loads(st, s, d) ==> IsFresh(st, d)
    }

    ghost predicate NothingAsked(i: I) {
      forall s {:trigger own(s, i)} :: s in order ==> !asks(own(s, i))
    }

    ghost function Below(s: S): set<S> {
      set d | d in order && Earlier(order, d, s)
    }

    /** Only inputs and presence of earlier steps matter to a fingerprint. */
    lemma FreshFromBelow(i: I, a: set<S>, j: I, b: set<S>, s: S, below: set<S>)
      requires WellOrdered() && s in order
      requires below == Below(s) + {s} && AgreeBelow(i, a, j, b, below)
      ensures Fresh(i, a, s) == Fresh(j, b, s)
    {
      FreshFrame(i, a, j, b, s, below);
    }

    /** A step's write cannot change what is recorded below it. */
    lemma WriteLeavesEarlierFresh(st: Session<S, I, O, R, P>, s: S, x: P, d: S)
      requires WellOrdered() && WritesForward() && Earlier(order, d, s)
      ensures Fresh(write(s, st.inputs, x), st.artifacts.Keys, d) == Fresh(st.inputs, st.artifacts.Keys, d)
    {
      var keys := st.artifacts.Keys;
      FreshFromBelow(write(s, st.inputs, x), keys, st.inputs, keys, d, Below(d) + {d});
    }

    /** The recorded fingerprint names the fingerprint each loaded step would have now. */
    lemma RecordedOver(st: Session<S, I, O, R, P>, s: S)
      requires WellOrdered() && WritesForward() && Ready(st, s)
      ensures Loadable(st, s)
      ensures var f := RunStep(st, s).artifacts[s].fingerprint;
              && f.required == FreshRequired(st.inputs, st.artifacts.Keys, s)
              && f.optional == FreshOptional(st.inputs, st.artifacts.Keys, s)
    {
      UpstreamEarlier(s);
      var keys, i, j := st.artifacts.Keys, st.inputs, RunStep(st, s).inputs;
      forall k | 0 <= k < |upstream(s)| ensures FreshRequired(j, keys, s)[k] == FreshRequired(i, keys, s)[k] {
        WriteLeavesEarlierFresh(st, s, Answer(st, s), upstream(s)[k]);
      }
      forall k | 0 <= k < |optional(s)| ensures FreshOptional(j, keys, s)[k] == FreshOptional(i, keys, s)[k] {
        WriteLeavesEarlierFresh(st, s, Answer(st, s), optional(s)[k]);
      }
      assert FreshRequired(j, keys, s) == FreshRequired(i, keys, s);
      assert FreshOptional(j, keys, s) == FreshOptional(i, keys, s);
    }

    /**
     Running a ready step keeps stored fingerprints built over stored fingerprints exactly when everything it
     loads is up to date at that moment.
     */
    lemma RunKeepsEmbeddedExactlyWhenLoadsFresh(st: Session<S, I, O, R, P>, s: S)
      requires WellOrdered() && WritesForward() && Embedded(st) && Ready(st, s)
      ensures Embedded(RunStep(st, s)) <==> LoadsFresh(st, s)
    {
      var after := RunStep(st, s);
      RecordedOver(st, s);
      forall t | t in st.artifacts ensures EmbedsAt(after, t) { OthersStayEmbedded(st, s, t); }
      if LoadsFresh(st, s) {
        RunEmbeds(st, s);
      }
      if Embedded(after) {
        assert EmbedsAt(after, s);
        forall d | Loads(st, s, d) ensures IsFresh(st, d) { EmbeddedMeansFresh(st, s, d); }
      }
    }

    lemma OthersStayEmbedded(st: Session<S, I, O, R, P>, s: S, t: S)
      requires WellOrdered() && Embedded(st) && Ready(st, s) && t in st.artifacts
      ensures Known(RunStep(st, s)) && EmbedsAt(RunStep(st, s), t)
    {
      assert EmbedsAt(st, t);
      var f := st.artifacts[t].fingerprint;
      forall k | 0 <= k < |upstream(t)| ensures Holds(RunStep(st, s), upstream(t)[k], f.required[k]) {
        assert Holds(st, upstream(t)[k], f.required[k]);
      }
      forall k | 0 <= k < |optional(t)| && f.optional[k].Some?
        ensures Holds(RunStep(st, s), optional(t)[k], f.optional[k].value)
      {
        assert Holds(st, optional(t)[k], f.optional[k].value);
      }
    }

    lemma EmbeddedMeansFresh(st: Session<S, I, O, R, P>, s: S, d: S)
      requires WellOrdered() && WritesForward() && Known(st) && Ready(st, s) && Loads(st, s, d)
      requires Known(RunStep(st, s)) && EmbedsAt(RunStep(st, s), s)
      ensures IsFresh(st, d)
    {
      RecordedOver(st, s);
      var f := RunStep(st, s).artifacts[s].fingerprint;
      if d in upstream(s) {
        var k :| 0 <= k < |upstream(s)| && upstream(s)[k] == d;
        assert Holds(RunStep(st, s), d, f.required[k]);
      } else {
        var k :| 0 <= k < |optional(s)| && optional(s)[k] == d;
        assert f.optional[k].Some? && Holds(RunStep(st, s), d, f.optional[k].value);
      }
    }

    lemma RunEmbeds(st: Session<S, I, O, R, P>, s: S)
      requires WellOrdered() && WritesForward() && Known(st) && Ready(st, s) && LoadsFresh(st, s)
      ensures Known(RunStep(st, s)) && EmbedsAt(RunStep(st, s), s)
    {
      RecordedOver(st, s);
      UpstreamEarlier(s);
      var after := RunStep(st, s);
      var f := after.artifacts[s].fingerprint;
      forall k | 0 <= k < |upstream(s)| ensures Holds(after, upstream(s)[k], f.required[k]) {
        assert upstream(s)[k] in upstream(s);
        assert Loads(st, s, upstream(s)[k]) && IsFresh(st, upstream(s)[k]);
      }
      forall k | 0 <= k < |optional(s)| && f.optional[k].Some? ensures Holds(after, optional(s)[k], f.optional[k].value) {
        assert optional(s)[k] in optional(s);
        assert Loads(st, s, optional(s)[k]) && IsFresh(st, optional(s)[k]);
      }
    }

    /** What the runner loaded is what its record names. */
    lemma RunIsHonest(st: Session<S, I, O, R, P>, s: S)
      requires WellOrdered() && WritesForward() && Known(st) && Ready(st, s)
      ensures HonestAt(RunStep(st, s), s)
    {
      RecordedOver(st, s);
      UpstreamEarlier(s);
      var after := RunStep(st, s);
      forall k | 0 <= k < |upstream(s)| ensures LoadRequired(after, s)[k] == LoadRequired(st, s)[k] {
        assert upstream(s)[k] in upstream(s);
      }
      assert LoadRequired(after, s) == LoadRequired(st, s) && LoadRecorded(after, s) == LoadOptional(st, s);
    }

    lemma OthersStayHonest(st: Session<S, I, O, R, P>, s: S, t: S)
      requires WellOrdered() && Sound(st) && Ready(st, s) && t in st.artifacts
      ensures HonestAt(RunStep(st, s), t)
    {
      assert HonestAt(st, t) && EmbedsAt(st, t);
      var after, f := RunStep(st, s), st.artifacts[t].fingerprint;
      forall k | 0 <= k < |optional(t)| ensures LoadRecorded(after, t)[k] == LoadRecorded(st, t)[k] {
        if f.optional[k].Some? { assert Holds(st, optional(t)[k], f.optional[k].value); }
      }
      forall k | 0 <= k < |upstream(t)| ensures LoadRequired(after, t)[k] == LoadRequired(st, t)[k] {
        assert upstream(t)[k] in upstream(t);
      }
      assert LoadRequired(after, t) == LoadRequired(st, t) && LoadRecorded(after, t) == LoadRecorded(st, t);
    }

    lemma RunKeepsSound(st: Session<S, I, O, R, P>, s: S)
      requires WellOrdered() && WritesForward() && Sound(st) && Ready(st, s) && LoadsFresh(st, s)
      ensures Sound(RunStep(st, s))
    {
      RunKeepsEmbeddedExactlyWhenLoadsFresh(st, s);
      RunIsHonest(st, s);
      forall t | t in st.artifacts ensures HonestAt(RunStep(st, s), t) { OthersStayHonest(st, s, t); }
    }

    /** A run leaves what earlier steps would read untouched, and its own record current. */
    lemma RunKeepsEarlierCurrent(st: Session<S, I, O, R, P>, s: S)
      requires WellFormed() && Known(st) && AllCurrent(st) && Ready(st, s) && Loadable(st, s)
      requires forall t :: t in st.artifacts ==> Earlier(order, t, s)
      ensures AllCurrent(RunStep(st, s))
    {
      var after, x := RunStep(st, s), Answer(st, s);
      RunStepShape(st, s);
      forall t | t in after.artifacts ensures CurrentAt(after, t) {
        if t != s {
          assert CurrentAt(st, t) && own(t, write(s, st.inputs, x)) == own(t, st.inputs);
        } else {
          assert write(s, st.inputs, x) == after.inputs;
        }
      }
    }

    // ---- whole histories ----

    ghost predicate Possible(st: Session<S, I, O, R, P>, e: Event<S, I>) {
      e.Ran? ==> Ready(st, e.step)
    }

    ghost function Apply(st: Session<S, I, O, R, P>, e: Event<S, I>): Session<S, I, O, R, P>
      requires Known(st) && Possible(st, e)
      ensures Known(Apply(st, e))
    {
      match e
      case Edited(i) => st.(inputs := i)
      case Swept => Invalidated(st)
      case Ran(s) => RunStep(st, s)
    }

    /** Edits and sweeps are free; a step runs only when ready, over up-to-date artifacts. */
    ghost predicate Permitted(st: Session<S, I, O, R, P>, e: Event<S, I>)
      requires Known(st)
    {
      Possible(st, e) && (e.Ran? ==> LoadsFresh(st, e.step))
    }

    ghost predicate Legal(st: Session<S, I, O, R, P>, history: seq<Event<S, I>>)
      requires Known(st)
      decreases |history|
    {
      history == [] || (Permitted(st, history[0]) && Legal(Apply(st, history[0]), history[1..]))
    }

    ghost function After(st: Session<S, I, O, R, P>, history: seq<Event<S, I>>): Session<S, I, O, R, P>
      requires Known(st) && Legal(st, history)
      ensures Known(After(st, history))
      decreases |history|
    {
      if history == [] then st else After(Apply(st, history[0]), history[1..])
    }

    lemma {:induction false} HistoryIsSound(st: Session<S, I, O, R, P>, history: seq<Event<S, I>>)
      requires WellOrdered() && WritesForward() && Sound(st) && Legal(st, history)
      ensures Sound(After(st, history))
      decreases |history|
    {
      if history != [] {
        var e := history[0];
        match e {
          case Edited(i) => EditKeepsSound(st, i);
          case Swept => InvalidateKeepsSound(st);
          case Ran(s) => RunKeepsSound(st, s);
        }
        HistoryIsSound(Apply(st, e), history[1..]);
      }
    }

    lemma EditKeepsSound(st: Session<S, I, O, R, P>, i: I)
      requires Sound(st)
      ensures Sound(st.(inputs := i))
    {
      forall s | s in st.artifacts ensures EmbedsAt(st.(inputs := i), s) && HonestAt(st.(inputs := i), s) {
        assert EmbedsAt(st, s) && HonestAt(st, s);
        EditKeepsEmbeds(st, i, s);
        EditKeepsHonest(st, i, s);
      }
    }

    lemma EditKeepsHonest(st: Session<S, I, O, R, P>, i: I, s: S)
      requires Known(st) && s in st.artifacts && HonestAt(st, s)
      ensures HonestAt(st.(inputs := i), s)
    {
      assert LoadRequired(st.(inputs := i), s) == LoadRequired(st, s);
      assert LoadRecorded(st.(inputs := i), s) == LoadRecorded(st, s);
    }

    lemma EditKeepsEmbeds(st: Session<S, I, O, R, P>, i: I, s: S)
      requires Known(st) && s in st.artifacts && EmbedsAt(st, s)
      ensures EmbedsAt(st.(inputs := i), s)
    {
    }

    /**
     After any permitted history, an artifact a sweep keeps is its engine's answer on what was seen when it ran and on
     what would be loaded now. It is the answer now if its runner would still read the same, and the from-scratch
     value if every kept runner would.
     */
    lemma CacheAgreement(inputs: I, history: seq<Event<S, I>>, s: S)
      requires WellOrdered() && WritesForward() && Legal(Session(inputs, map[]), history)
      requires s in Invalidated(After(Session(inputs, map[]), history)).artifacts
      ensures Agrees(Invalidated(After(Session(inputs, map[]), history)), s)
    {
      HistoryIsSound(Session(inputs, map[]), history);
      var st := After(Session(inputs, map[]), history);
      InvalidateKeepsSound(st);
      OnePassLeavesNothingStale(st);
      FreshAgrees(Invalidated(st), s);
    }

    ghost predicate Agrees(st: Session<S, I, O, R, P>, s: S)
      requires WellOrdered() && s in st.artifacts && s in order
    {
      && Loadable(st, s)
      && st.artifacts[s].payload == run(s, st.artifacts[s].seen, LoadRequired(st, s), LoadOptional(st, s))
      && (CurrentAt(st, s) && !asks(own(s, st.inputs)) ==> st.artifacts[s].payload == Answer(st, s))
      && (AllCurrent(st) && NothingAsked(st.inputs) ==>
            st.artifacts[s].payload == Value(st.inputs, st.artifacts.Keys, s))
    }

    lemma FreshAgrees(st: Session<S, I, O, R, P>, s: S)
      requires Sound(st) && AllFresh(st) && s in st.artifacts
      ensures Agrees(st, s)
    {
      FreshIsRecorded(st, s);
      if AllCurrent(st) && NothingAsked(st.inputs) { CurrentIsValue(st, s); }
    }

    /** In an up-to-date session the optional steps a record names are the ones that are there. */
    lemma FreshIsRecorded(st: Session<S, I, O, R, P>, s: S)
      requires Sound(st) && AllFresh(st) && s in st.artifacts
      ensures Loadable(st, s)
      ensures st.artifacts[s].payload == run(s, st.artifacts[s].seen, LoadRequired(st, s), LoadOptional(st, s))
    {
      assert HonestAt(st, s) && IsFresh(st, s);
      var f := st.artifacts[s].fingerprint;
      forall k | 0 <= k < |optional(s)| ensures LoadRecorded(st, s)[k] == LoadOptional(st, s)[k] {
        assert f.optional[k] == FreshOptional(st.inputs, st.artifacts.Keys, s)[k];
      }
      assert LoadRecorded(st, s) == LoadOptional(st, s);
    }

    /** With nothing asked, up-to-date results of runners that would read the same now are the from-scratch values. */
    lemma {:induction false} CurrentIsValue(st: Session<S, I, O, R, P>, s: S)
      requires Sound(st) && AllFresh(st) && AllCurrent(st) && NothingAsked(st.inputs) && s in st.artifacts
      ensures st.artifacts[s].payload == Value(st.inputs, st.artifacts.Keys, s)
      decreases Pos(order, s)
    {
      var keys := st.artifacts.Keys;
      FreshIsRecorded(st, s);
      UpstreamEarlier(s);
      assert CurrentAt(st, s) && !asks(own(s, st.inputs));
      forall k | 0 <= k < |upstream(s)| ensures LoadRequired(st, s)[k] == ValueRequired(st.inputs, keys, s)[k] {
        assert upstream(s)[k] in upstream(s);
        CurrentIsValue(st, upstream(s)[k]);
      }
      forall k | 0 <= k < |optional(s)| ensures LoadOptional(st, s)[k] == ValueOptional(st.inputs, keys, s)[k] {
        if optional(s)[k] in keys { CurrentIsValue(st, optional(s)[k]); }
      }
      assert LoadRequired(st, s) == ValueRequired(st.inputs, keys, s);
      assert LoadOptional(st, s) == ValueOptional(st.inputs, keys, s);
    }

    lemma EmbeddedIsLoadable(st: Session<S, I, O, R, P>, s: S)
      requires Embedded(st) && s in st.artifacts
      ensures Loadable(st, s)
    {
      assert EmbedsAt(st, s);
      forall d | d in upstream(s) ensures d in st.artifacts {
        var k :| 0 <= k < |upstream(s)| && upstream(s)[k] == d;
        assert Holds(st, d, st.artifacts[s].fingerprint.required[k]);
      }
    }

    // ---- what can go stale while steps run ----

    /**
     With everything up to date, running `s` leaves everything up to date exactly when no present step counts `s`
     among its optional ones and the write touches no present step's inputs.
     */
    lemma RunLeavesAllFreshExactlyWhen(st: Session<S, I, O, R, P>, s: S)
      requires WellOrdered() && WritesForward() && Embedded(st) && AllFresh(st) && Ready(st, s)
      ensures AllFresh(RunStep(st, s)) <==> Undisturbed(st, s)
    {
      var after := RunStep(st, s);
      if Undisturbed(st, s) {
        forall t | t in after.artifacts ensures IsFresh(after, t) {
          if t == s { RunIsFresh(st, s); } else { UndisturbedStaysFresh(st, s, t); }
        }
      }
      if AllFresh(after) {
        forall t | t in st.artifacts ensures s !in optional(t) && own(t, after.inputs) == own(t, st.inputs) {
          assert IsFresh(st, t) && IsFresh(after, t);
          if s in optional(t) { OptionalAppears(st, s, t); }
        }
      }
    }

    ghost predicate Undisturbed(st: Session<S, I, O, R, P>, s: S)
      requires WellOrdered() && Loadable(st, s)
    {
      forall t {:trigger optional(t)} {:trigger own(t, st.inputs)} :: t in st.artifacts ==>
        s !in optional(t) && own(t, RunStep(st, s).inputs) == own(t, st.inputs)
    }

    /** The first appearance of an optional step makes the steps that list it stale. */
    lemma OptionalAppears(st: Session<S, I, O, R, P>, s: S, t: S)
      requires Known(st) && Loadable(st, s) && s !in st.artifacts
      requires t in st.artifacts && IsFresh(st, t) && s in optional(t)
      ensures !IsFresh(RunStep(st, s), t)
    {
      var after := RunStep(st, s);
      var k :| 0 <= k < |optional(t)| && optional(t)[k] == s;
      assert FreshIn(after, t).optional[k] == FreshOptional(after.inputs, after.artifacts.Keys, t)[k];
      assert FreshIn(st, t).optional[k] == FreshOptional(st.inputs, st.artifacts.Keys, t)[k];
    }

    lemma UndisturbedStaysFresh(st: Session<S, I, O, R, P>, s: S, t: S)
      requires Embedded(st) && AllFresh(st) && Ready(st, s) && t in st.artifacts && Loadable(st, s)
      requires Undisturbed(st, s)
      ensures IsFresh(RunStep(st, s), t)
    {
      var after, keys := RunStep(st, s), st.artifacts.Keys;
      assert IsFresh(st, t);
      forall u, d | u in keys && d in upstream(u) ensures d in keys { EmbeddedIsLoadable(st, u); }
      FreshFrame(st.inputs, keys, after.inputs, after.artifacts.Keys, t, keys);
    }

    /** A step just run is fresh: its own presence does not enter its fingerprint. */
    lemma RunIsFresh(st: Session<S, I, O, R, P>, s: S)
      requires Known(st) && Loadable(st, s) && s !in st.artifacts
      ensures IsFresh(RunStep(st, s), s)
    {
      var after := RunStep(st, s);
      FreshFromBelow(after.inputs, st.artifacts.Keys, after.inputs, after.artifacts.Keys, s, Below(s) + {s});
    }

    /** A step that is up to date stays so while a later one runs. */
    lemma EarlierStaysFresh(st: Session<S, I, O, R, P>, s: S, t: S)
      requires WellOrdered() && WritesForward() && Known(st) && Loadable(st, s)
      requires t in st.artifacts && IsFresh(st, t) && Earlier(order, t, s)
      ensures IsFresh(RunStep(st, s), t)
    {
      var after := RunStep(st, s);
      assert after.artifacts[t] == st.artifacts[t];
      FreshFromBelow(st.inputs, st.artifacts.Keys, after.inputs, after.artifacts.Keys, t, Below(t) + {t});
    }

    /** Running `s` and sweeping drops only steps after `s`, and keeps `s`. */
    lemma RunDropsOnlyLater(st: Session<S, I, O, R, P>, s: S, t: S)
      requires WellOrdered() && WritesForward() && AllFresh(st) && Ready(st, s) && Loadable(st, s)
      requires t in RunStep(st, s).artifacts && t !in Invalidated(RunStep(st, s)).artifacts
      ensures Earlier(order, s, t)
    {
      var after := RunStep(st, s);
      if t == s {
        RunIsFresh(st, s);
      } else if Earlier(order, t, s) {
        assert IsFresh(st, t);
        EarlierStaysFresh(st, s, t);
      } else {
        assert order[Pos(order, s)] != order[Pos(order, t)];
      }
    }

    /**
     The sweep after a step ran always keeps that step, and drops exactly those artifacts it loaded that were
     already stale: a stale load is repaired on its own, never in the step that used it.
     */
    lemma SweepKeepsTheUserOfAStaleLoad(st: Session<S, I, O, R, P>, s: S, d: S)
      requires WellOrdered() && WritesForward() && Known(st) && Ready(st, s) && Loadable(st, s) && Loads(st, s, d)
      ensures s in Invalidated(RunStep(st, s)).artifacts
      ensures d in Invalidated(RunStep(st, s)).artifacts <==> IsFresh(st, d)
    {
      var after := RunStep(st, s);
      RunIsFresh(st, s);
      assert Earlier(order, d, s);
      FreshFromBelow(st.inputs, st.artifacts.Keys, after.inputs, after.artifacts.Keys, d, Below(d) + {d});
    }

    // ---- run-and-sweep terminates ----

    /** The first `n` steps' presence read as a binary number, earliest step most significant. */
    ghost function Bits(present: set<S>, n: nat): nat
      requires n <= |order|
    {
      if n == 0 then 0 else 2 * Bits(present, n - 1) + if order[n - 1] in present then 1 else 0
    }

    lemma {:induction false} BitsBounded(present: set<S>, n: nat)
      requires n <= |order|
      ensures Bits(present, n) < Pow2(n)
    {
      if n > 0 { BitsBounded(present, n - 1); }
    }

    lemma {:induction false} BitsMonotone(a: set<S>, b: set<S>, n: nat)
      requires n <= |order| && forall m :: 0 <= m < n && order[m] in a ==> order[m] in b
      ensures Bits(a, n) <= Bits(b, n)
    {
      if n > 0 { BitsMonotone(a, b, n - 1); }
    }

    lemma {:induction false} BitsIncrease(a: set<S>, b: set<S>, k: nat, n: nat)
      requires k < n <= |order| && order[k] !in a && order[k] in b
      requires forall m :: 0 <= m < k && order[m] in a ==> order[m] in b
      ensures Bits(a, n) < Bits(b, n)
    {
      if n - 1 == k { BitsMonotone(a, b, k); } else { BitsIncrease(a, b, k, n - 1); }
    }

    /** Each run-and-sweep strictly increases a number below 2^n: at most 2^n - 1 of them can follow each other. */
    lemma RunAndSweepProgresses(st: Session<S, I, O, R, P>, s: S)
      requires WellOrdered() && WritesForward() && AllFresh(st) && Ready(st, s) && Loadable(st, s)
      ensures Bits(st.artifacts.Keys, |order|)
            < Bits(Invalidated(RunStep(st, s)).artifacts.Keys, |order|) < Pow2(|order|)
    {
      var after := RunStep(st, s);
      var kept := Invalidated(after);
      var k := Pos(order, s);
      if s !in kept.artifacts { RunDropsOnlyLater(st, s, s); }
      forall m | 0 <= m < k && order[m] in st.artifacts.Keys ensures order[m] in kept.artifacts.Keys {
        if order[m] !in kept.artifacts.Keys { RunDropsOnlyLater(st, s, order[m]); }
      }
      BitsIncrease(st.artifacts.Keys, kept.artifacts.Keys, k, |order|);
      BitsBounded(kept.artifacts.Keys, |order|);
    }

    // ---- exactly what one edit drops ----

    /** `d` enters the fingerprint of `t`. */
    ghost predicate Feeds(present: set<S>, d: S, t: S) {
      t in order && (d in upstream(t) || (d in optional(t) && d in present))
    }

    /** A chain of fingerprint edges ending in `s`. */
    ghost predicate Chain(present: set<S>, path: seq<S>, s: S) {
      && |path| > 0 && path[|path| - 1] == s
      && forall k, l :: 0 <= k && l == k + 1 && l < |path| ==> Feeds(present, path[k], path[l])
    }

    ghost predicate ReachedByChange(i: I, j: I, present: set<S>, s: S) {
      exists path :: Chain(present, path, s) && path[0] in order && own(path[0], i) != own(path[0], j)
    }

    /** An edit changes a fingerprint exactly when a changed input reaches it along fingerprint edges. */
    lemma FingerprintChangesExactlyWhenReached(i: I, j: I, present: set<S>, s: S)
      requires WellOrdered() && s in order
      ensures Fresh(i, present, s) != Fresh(j, present, s) <==> ReachedByChange(i, j, present, s)
    {
      if Fresh(i, present, s) != Fresh(j, present, s) { ChangeHasSource(i, j, present, s); }
      if ReachedByChange(i, j, present, s) {
        var path :| Chain(present, path, s) && path[0] in order && own(path[0], i) != own(path[0], j);
        ChangeSpreads(i, j, present, path, |path| - 1);
      }
    }

    lemma {:induction false} ChangeSpreads(i: I, j: I, present: set<S>, path: seq<S>, k: nat)
      requires WellOrdered() && k < |path| && Chain(present, path, path[|path| - 1])
      requires path[0] in order && own(path[0], i) != own(path[0], j)
      ensures path[k] in order && Fresh(i, present, path[k]) != Fresh(j, present, path[k])
    {
      if k > 0 {
        ChangeSpreads(i, j, present, path, k - 1);
        assert Feeds(present, path[k - 1], path[k]);
        OneEdge(i, j, present, path[k - 1], path[k]);
      }
    }

    lemma OneEdge(i: I, j: I, present: set<S>, d: S, t: S)
      requires WellOrdered() && d in order && Feeds(present, d, t)
      requires Fresh(i, present, d) != Fresh(j, present, d)
      ensures Fresh(i, present, t) != Fresh(j, present, t)
    {
      if d in upstream(t) {
        var k :| 0 <= k < |upstream(t)| && upstream(t)[k] == d;
        assert FreshRequired(i, present, t)[k] != FreshRequired(j, present, t)[k];
      } else {
        var k :| 0 <= k < |optional(t)| && optional(t)[k] == d;
        assert FreshOptional(i, present, t)[k] != FreshOptional(j, present, t)[k];
      }
    }

    lemma {:induction false} ChangeHasSource(i: I, j: I, present: set<S>, s: S)
      requires WellOrdered() && s in order && Fresh(i, present, s) != Fresh(j, present, s)
      ensures ReachedByChange(i, j, present, s)
      decreases Pos(order, s)
    {
      if own(s, i) != own(s, j) {
        assert Chain(present, [s], s);
      } else {
        var d := ChangedUpstream(i, j, present, s);
        ChangeHasSource(i, j, present, d);
        var path :| Chain(present, path, d) && path[0] in order && own(path[0], i) != own(path[0], j);
        assert Chain(present, path + [s], s);
        assert (path + [s])[0] == path[0];
      }
    }

    lemma ChangedUpstream(i: I, j: I, present: set<S>, s: S) returns (d: S)
      requires WellOrdered() && s in order && own(s, i) == own(s, j)
      requires Fresh(i, present, s) != Fresh(j, present, s)
      ensures Earlier(order, d, s) && Feeds(present, d, s) && Fresh(i, present, d) != Fresh(j, present, d)
    {
      UpstreamEarlier(s);
      if FreshRequired(i, present, s) != FreshRequired(j, present, s) {
        var k :| 0 <= k < |upstream(s)| && FreshRequired(i, present, s)[k] != FreshRequired(j, present, s)[k];
        d := upstream(s)[k];
      } else {
        var k :| 0 <= k < |optional(s)| && FreshOptional(i, present, s)[k] != FreshOptional(j, present, s)[k];
        d := optional(s)[k];
      }
    }

    /** From an up-to-date session, an edit makes the sweep drop exactly the steps the edit reaches. */
    lemma SweepDropsExactlyWhatTheEditReaches(st: Session<S, I, O, R, P>, j: I, s: S)
      requires AllFresh(st) && s in st.artifacts
      ensures s !in Invalidated(st.(inputs := j)).artifacts <==> ReachedByChange(st.inputs, j, st.artifacts.Keys, s)
    {
      assert IsFresh(st, s);
      FingerprintChangesExactlyWhenReached(st.inputs, j, st.artifacts.Keys, s);
    }

    // ---- the final state does not depend on the history ----

    ghost function AllSteps(): set<S> {
      set s | s in order
    }

    /** A step evaluated from scratch on one set of inputs, with every step present. */
    ghost function Scratch(i: I, s: S): Artifact<S, O, R, P>
      requires WellOrdered() && s in order
    {
      Artifact(Fresh(i, AllSteps(), s), sees(s, i), Value(i, AllSteps(), s))
    }

    ghost predicate Complete(a: Session<S, I, O, R, P>) {
      && Sound(a) && AllFresh(a) && AllCurrent(a)
      && a.artifacts.Keys == AllSteps() && NothingAsked(a.inputs)
    }

    /** No step declares or reads anything that differs between the two. */
    ghost predicate LookAlike(i: I, j: I) {
      forall s {:trigger own(s, i)} {:trigger sees(s, i)} :: s in order ==>
        own(s, i) == own(s, j) && sees(s, i) == sees(s, j)
    }

    /** Complete sessions whose steps declare and read the same hold the same artifacts, whatever led to them. */
    lemma Confluence(a: Session<S, I, O, R, P>, b: Session<S, I, O, R, P>)
      requires Complete(a) && Complete(b) && LookAlike(a.inputs, b.inputs)
      ensures a.artifacts == b.artifacts
    {
      forall s | s in order ensures a.artifacts[s] == b.artifacts[s] {
        FinishedIsScratch(a, s);
        FinishedIsScratch(b, s);
        ScratchFrame(a.inputs, b.inputs, s);
      }
      assert a.artifacts == b.artifacts;
    }

    lemma {:induction false} ScratchFrame(i: I, j: I, s: S)
      requires WellOrdered() && s in order && LookAlike(i, j)
      ensures Scratch(i, s) == Scratch(j, s)
      decreases Pos(order, s)
    {
      UpstreamEarlier(s);
      FreshFrame(i, AllSteps(), j, AllSteps(), s, AllSteps());
      forall k | 0 <= k < |upstream(s)| ensures ValueRequired(i, AllSteps(), s)[k] == ValueRequired(j, AllSteps(), s)[k] {
        assert upstream(s)[k] in upstream(s);
        ScratchFrame(i, j, upstream(s)[k]);
      }
      forall k | 0 <= k < |optional(s)| ensures ValueOptional(i, AllSteps(), s)[k] == ValueOptional(j, AllSteps(), s)[k] {
        assert optional(s)[k] in optional(s);
        ScratchFrame(i, j, optional(s)[k]);
      }
      assert ValueRequired(i, AllSteps(), s) == ValueRequired(j, AllSteps(), s);
      assert ValueOptional(i, AllSteps(), s) == ValueOptional(j, AllSteps(), s);
      assert own(s, i) == own(s, j) && sees(s, i) == sees(s, j);
    }

    lemma FinishedIsScratch(a: Session<S, I, O, R, P>, s: S)
      requires Complete(a) && s in order
      ensures a.artifacts[s] == Scratch(a.inputs, s)
    {
      assert IsFresh(a, s) && CurrentAt(a, s) && !asks(own(s, a.inputs));
      CurrentIsValue(a, s);
    }

    lemma ScratchIsComplete(a: Session<S, I, O, R, P>)
      requires WellOrdered() && a.artifacts.Keys == AllSteps() && NothingAsked(a.inputs)
      requires forall s :: s in order ==> a.artifacts[s] == Scratch(a.inputs, s)
      ensures Complete(a)
    {
      forall s | s in a.artifacts ensures IsFresh(a, s) && EmbedsAt(a, s) && HonestAt(a, s) && CurrentAt(a, s) {
        ScratchEmbeds(a, s);
        ScratchIsHonest(a, s);
      }
    }

    lemma ScratchEmbeds(a: Session<S, I, O, R, P>, s: S)
      requires WellOrdered() && a.artifacts.Keys == AllSteps() && s in order
      requires forall s :: s in order ==> a.artifacts[s] == Scratch(a.inputs, s)
      ensures Known(a) && EmbedsAt(a, s)
    {
      UpstreamEarlier(s);
      var f := a.artifacts[s].fingerprint;
      forall k | 0 <= k < |upstream(s)| ensures Holds(a, upstream(s)[k], f.required[k]) {
        assert f.required[k] == FreshRequired(a.inputs, AllSteps(), s)[k];
      }
      forall k | 0 <= k < |optional(s)| && f.optional[k].Some? ensures Holds(a, optional(s)[k], f.optional[k].value) {
        assert f.optional[k] == FreshOptional(a.inputs, AllSteps(), s)[k];
      }
    }

    lemma ScratchIsHonest(a: Session<S, I, O, R, P>, s: S)
      requires WellOrdered() && a.artifacts.Keys == AllSteps() && s in order
      requires forall s :: s in order ==> a.artifacts[s] == Scratch(a.inputs, s)
      ensures HonestAt(a, s)
    {
      UpstreamEarlier(s);
      var f := a.artifacts[s].fingerprint;
      forall k | 0 <= k < |upstream(s)| ensures LoadRequired(a, s)[k] == ValueRequired(a.inputs, AllSteps(), s)[k] {
        assert upstream(s)[k] in upstream(s);
      }
      forall k | 0 <= k < |optional(s)| ensures LoadRecorded(a, s)[k] == ValueOptional(a.inputs, AllSteps(), s)[k] {
        assert optional(s)[k] in optional(s);
        assert f.optional[k] == FreshOptional(a.inputs, AllSteps(), s)[k];
      }
      assert LoadRequired(a, s) == ValueRequired(a.inputs, AllSteps(), s);
      assert LoadRecorded(a, s) == ValueOptional(a.inputs, AllSteps(), s);
    }

    /**
     A finished session holds the from-scratch results exactly when it is sound, up to date, and no runner would read
     anything else now.
     */
    lemma FinishedIsScratchExactlyWhenComplete(a: Session<S, I, O, R, P>)
      requires WellOrdered() && a.artifacts.Keys == AllSteps() && NothingAsked(a.inputs)
      ensures (forall s :: s in order ==> a.artifacts[s] == Scratch(a.inputs, s)) <==> Complete(a)
    {
      if Complete(a) {
        forall s | s in order ensures a.artifacts[s] == Scratch(a.inputs, s) { FinishedIsScratch(a, s); }
      }
      if forall s :: s in order ==> a.artifacts[s] == Scratch(a.inputs, s) { ScratchIsComplete(a); }
    }

    /** Re-running any step on these inputs writes nothing new. */
    ghost predicate WritesDone(i: I)
      requires WellOrdered()
    {
      forall s {:trigger Scratch(i, s)} :: s in order ==> write(s, i, Scratch(i, s).payload) == i
    }

    ghost predicate Follows(before: Session<S, I, O, R, P>, s: S, st: Session<S, I, O, R, P>)
      requires WellOrdered()
    {
      Loadable(before, s) && st == RunStep(before, s)
    }

    /** The sessions met when the steps run one after the other in the fixed order, starting with no artifacts. */
    ghost predicate IsPass(i: I, met: seq<Session<S, I, O, R, P>>)
      requires WellOrdered()
    {
      && 0 < |met| <= |order| + 1 && met[0] == Session(i, map[])
      && forall k, l :: 0 <= k && l == k + 1 && l < |met| ==> Follows(met[k], order[k], met[l])
    }

    ghost predicate ScratchUpTo(i: I, n: nat, st: Session<S, I, O, R, P>)
      requires WellOrdered() && n <= |order|
    {
      && st.inputs == i
      && (forall s :: s in st.artifacts <==> s in order[..n])
      && forall s :: s in st.artifacts && s in order ==> st.artifacts[s] == Scratch(i, s)
    }

    lemma {:induction false} PassIsScratch(i: I, met: seq<Session<S, I, O, R, P>>, n: nat)
      requires WellOrdered() && WritesDone(i) && IsPass(i, met) && n < |met|
      ensures ScratchUpTo(i, n, met[n])
    {
      if n > 0 {
        PassIsScratch(i, met, n - 1);
        assert Follows(met[n - 1], order[n - 1], met[n]);
        PassAdds(i, n - 1, met[n - 1], met[n]);
      }
    }

    lemma PassAdds(i: I, n: nat, before: Session<S, I, O, R, P>, st: Session<S, I, O, R, P>)
      requires WellOrdered() && WritesDone(i) && n < |order| && ScratchUpTo(i, n, before)
      requires Follows(before, order[n], st)
      ensures ScratchUpTo(i, n + 1, st)
    {
      PassStep(i, n, before);
      assert Scratch(i, order[n]) == Scratch(i, order[n]);
      assert st.artifacts == before.artifacts[order[n] := Scratch(i, order[n])];
      assert order[..n + 1] == order[..n] + [order[n]];
    }

    lemma PassStep(i: I, n: nat, before: Session<S, I, O, R, P>)
      requires WellOrdered() && n < |order| && ScratchUpTo(i, n, before)
      ensures Loadable(before, order[n])
      ensures Answer(before, order[n]) == Scratch(i, order[n]).payload
      ensures Fresh(i, before.artifacts.Keys, order[n]) == Scratch(i, order[n]).fingerprint
    {
      DependenciesComeFirst(n);
      PassPresence(i, n, before);
      PassLoads(i, n, before);
    }

    lemma PassPresence(i: I, n: nat, before: Session<S, I, O, R, P>)
      requires WellOrdered() && n < |order| && ScratchUpTo(i, n, before)
      ensures Fresh(i, before.artifacts.Keys, order[n]) == Fresh(i, AllSteps(), order[n])
    {
      var s := order[n];
      assert Pos(order, s) == n;
      forall d | Earlier(order, d, s) ensures d in before.artifacts.Keys && d in AllSteps() {
        assert order[..n][Pos(order, d)] == d;
      }
      FreshFromBelow(i, before.artifacts.Keys, i, AllSteps(), s, Below(s) + {s});
    }

    lemma PassLoads(i: I, n: nat, before: Session<S, I, O, R, P>)
      requires WellOrdered() && n < |order| && ScratchUpTo(i, n, before) && Loadable(before, order[n])
      requires forall d :: d in optional(order[n]) ==> d in before.artifacts
      ensures Answer(before, order[n]) == Scratch(i, order[n]).payload
    {
      var s := order[n];
      UpstreamEarlier(s);
      forall k | 0 <= k < |upstream(s)| ensures ValueRequired(i, AllSteps(), s)[k] == LoadRequired(before, s)[k] {
        assert upstream(s)[k] in upstream(s);
      }
      forall k | 0 <= k < |optional(s)| ensures ValueOptional(i, AllSteps(), s)[k] == LoadOptional(before, s)[k] {
        assert optional(s)[k] in optional(s);
      }
      assert ValueRequired(i, AllSteps(), s) == LoadRequired(before, s);
      assert ValueOptional(i, AllSteps(), s) == LoadOptional(before, s);
    }

    lemma {:induction false} PassExists(i: I, n: nat) returns (met: seq<Session<S, I, O, R, P>>)
      requires WellOrdered() && WritesDone(i) && n <= |order|
      ensures IsPass(i, met) && |met| == n + 1
    {
      hide Fresh, Value, Scratch, WritesDone, ScratchUpTo, RunStep;
      met := [Session(i, map[])];
      if n > 0 {
        var shorter := PassExists(i, n - 1);
        PassIsScratch(i, shorter, n - 1);
        PassStep(i, n - 1, shorter[n - 1]);
        met := ExtendPass(i, shorter);
      }
    }

    lemma ExtendPass(i: I, shorter: seq<Session<S, I, O, R, P>>) returns (met: seq<Session<S, I, O, R, P>>)
      requires WellOrdered() && IsPass(i, shorter) && |shorter| <= |order|
      requires Loadable(shorter[|shorter| - 1], order[|shorter| - 1])
      ensures IsPass(i, met) && |met| == |shorter| + 1
    {
      var n := |shorter| - 1;
      met := shorter + [RunStep(shorter[n], order[n])];
      forall k, l | 0 <= k && l == k + 1 && l < |met| ensures Follows(met[k], order[k], met[l]) {
        if l <= n { assert Follows(shorter[k], order[k], shorter[l]); }
      }
    }

    /** The state every finished session agrees on is the one a from-scratch pass in the fixed order produces. */
    lemma FinishedIsOnePass(st: Session<S, I, O, R, P>)
      requires Complete(st) && WritesDone(st.inputs)
      ensures exists met :: IsPass(st.inputs, met) && |met| == |order| + 1 && met[|order|] == st
    {
      var met := PassExists(st.inputs, |order|);
      PassIsScratch(st.inputs, met, |order|);
      assert order[..|order|] == order;
      forall s | s in order ensures st.artifacts[s] == met[|order|].artifacts[s] { FinishedIsScratch(st, s); }
      assert st.artifacts == met[|order|].artifacts;
    }
  }
}
