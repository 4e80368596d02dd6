/**
 Steps that a sweep-once turn cannot leave behind. A core is closed under fingerprint edges, has no optional edges,
 and is written to only from inside. However stale the rest of a session becomes, a core step is up to date for
 the whole turn, and nothing that reads a core step outlives it.
 */
module CoreSteps {
  import opened StepCache

  /** `d` lies below `t` along fingerprint edges that are always followed. */
  ghost predicate Reads<S(!new), I(!new), O(!new), R(!new), P(!new)>(p: Pipeline<S, I, O, R, P>, t: S, d: S)
    requires p.WellOrdered() && t in p.order
    decreases Pos(p.order, t)
  {
    exists u {:trigger u in p.upstream(t)} :: u in p.upstream(t) && (u == d || Reads(p, u, d))
  }

  /** `g` is `f` or one of the upstream fingerprints it was computed over. */
  ghost predicate Inside<S, O>(f: Fingerprint<S, O>, g: Fingerprint<S, O>)
    decreases f
  {
    g == f || exists k {:trigger f.required[k]} :: 0 <= k < |f.required| && Inside(f.required[k], g)
  }

  ghost predicate IsCore<S(!new), I(!new), O(!new), R(!new), P(!new)>(p: Pipeline<S, I, O, R, P>, core: set<S>)
    requires p.WellOrdered()
  {
    && (forall c :: c in core ==> c in p.order && p.optional(c) == [])
    && (forall c, d {:trigger d in p.upstream(c)} :: c in core && d in p.upstream(c) ==> d in core)
    && (forall c, s, i, x {:trigger p.own(c, p.write(s, i, x))} ::
          c in core && c in p.order && s in p.order && c != s && !Reads(p, c, s) ==>
            p.own(c, p.write(s, i, x)) == p.own(c, i))
  }

  /** A present step finds every core step it reads, stored under the fingerprint it was computed over. */
  ghost predicate Anchored<S(!new), I(!new), O(!new), R(!new), P(!new)>(
    p: Pipeline<S, I, O, R, P>, core: set<S>, st: Session<S, I, O, R, P>)
  {
    && p.Known(st)
    && (forall t, c {:trigger Reads(p, t, c)} :: t in st.artifacts && c in core && Reads(p, t, c) ==> c in st.artifacts)
    && forall t, g {:trigger Inside(st.artifacts[t].fingerprint, g)} ::
         t in st.artifacts && Inside(st.artifacts[t].fingerprint, g) && g.step in core ==> p.Holds(st, g.step, g)
  }

  ghost predicate CoreFresh<S(!new), I(!new), O(!new), R(!new), P(!new)>(
    p: Pipeline<S, I, O, R, P>, core: set<S>, st: Session<S, I, O, R, P>)
    requires p.Known(st)
  {
    forall c {:trigger p.IsFresh(st, c)} :: c in core && c in st.artifacts ==> p.IsFresh(st, c)
  }

  lemma {:induction false} InsideFresh<S(!new), I(!new), O(!new), R(!new), P(!new)>(
    p: Pipeline<S, I, O, R, P>, i: I, a: set<S>, t: S, g: Fingerprint<S, O>)
    requires p.WellOrdered() && t in p.order && Inside(p.Fresh(i, a, t), g)
    ensures g.step in p.order && g == p.Fresh(i, a, g.step) && (g.step == t || Reads(p, t, g.step))
    decreases Pos(p.order, t)
  {
    var f := p.Fresh(i, a, t);
    if g != f {
      var k :| 0 <= k < |f.required| && Inside(f.required[k], g);
      assert f.required[k] == p.FreshRequired(i, a, t)[k];
      assert p.upstream(t)[k] in p.upstream(t);
      InsideFresh(p, i, a, p.upstream(t)[k], g);
    }
  }

  lemma {:induction false} ReadsInside<S(!new), I(!new), O(!new), R(!new), P(!new)>(
    p: Pipeline<S, I, O, R, P>, i: I, a: set<S>, t: S, c: S)
    requires p.WellOrdered() && t in p.order && Reads(p, t, c)
    ensures Earlier(p.order, c, t) && Inside(p.Fresh(i, a, t), p.Fresh(i, a, c))
    decreases Pos(p.order, t)
  {
    var u :| u in p.upstream(t) && (u == c || Reads(p, u, c));
    if u != c { ReadsInside(p, i, a, u, c); }
    var k :| 0 <= k < |p.upstream(t)| && p.upstream(t)[k] == u;
    assert p.Fresh(i, a, t).required[k] == p.FreshRequired(i, a, t)[k] == p.Fresh(i, a, u);
  }

  lemma {:induction false} ReadsStaysInCore<S(!new), I(!new), O(!new), R(!new), P(!new)>(
    p: Pipeline<S, I, O, R, P>, core: set<S>, c: S, d: S)
    requires p.WellOrdered() && IsCore(p, core) && c in core && Reads(p, c, d)
    ensures d in core
    decreases Pos(p.order, c)
  {
    var u :| u in p.upstream(c) && (u == d || Reads(p, u, d));
    if u != d { ReadsStaysInCore(p, core, u, d); }
  }

  /** Which steps are present never shows in the fingerprint of a core step. */
  lemma CoreIgnoresPresence<S(!new), I(!new), O(!new), R(!new), P(!new)>(
    p: Pipeline<S, I, O, R, P>, core: set<S>, i: I, a: set<S>, b: set<S>, c: S)
    requires p.WellOrdered() && IsCore(p, core) && c in core
    ensures p.Fresh(i, a, c) == p.Fresh(i, b, c)
  {
    p.FreshFrame(i, a, i, b, c, core);
  }

  // ---- the sweep that opens a turn ----

  lemma EditKeepsAnchored<S(!new), I(!new), O(!new), R(!new), P(!new)>(
    p: Pipeline<S, I, O, R, P>, core: set<S>, st: Session<S, I, O, R, P>, i: I)
    requires Anchored(p, core, st)
    ensures Anchored(p, core, st.(inputs := i))
  {
    forall t, g | t in st.artifacts && Inside(st.artifacts[t].fingerprint, g) && g.step in core
      ensures p.Holds(st.(inputs := i), g.step, g)
    {
      assert p.Holds(st, g.step, g);
    }
  }

  /** Whatever the inputs became, the sweep brings the core up to date and drops every reader of a dropped core step. */
  lemma SweepRestoresCore<S(!new), I(!new), O(!new), R(!new), P(!new)>(
    p: Pipeline<S, I, O, R, P>, core: set<S>, st: Session<S, I, O, R, P>)
    requires p.WellOrdered() && IsCore(p, core) && Anchored(p, core, st)
    ensures Anchored(p, core, p.Invalidated(st)) && CoreFresh(p, core, p.Invalidated(st))
  {
    var kept := p.Invalidated(st);
    forall t, g | t in kept.artifacts && Inside(kept.artifacts[t].fingerprint, g) && g.step in core
      ensures p.Holds(kept, g.step, g)
    {
      KeptHolds(p, core, st, t, g);
    }
    forall t, c | t in kept.artifacts && c in core && Reads(p, t, c) ensures c in kept.artifacts {
      ReadsInside(p, st.inputs, st.artifacts.Keys, t, c);
      assert p.IsFresh(st, t);
      KeptHolds(p, core, st, t, p.FreshIn(st, c));
    }
    forall c | c in core && c in kept.artifacts ensures p.IsFresh(kept, c) {
      assert p.IsFresh(st, c);
      CoreIgnoresPresence(p, core, st.inputs, st.artifacts.Keys, kept.artifacts.Keys, c);
    }
  }

  lemma KeptHolds<S(!new), I(!new), O(!new), R(!new), P(!new)>(
    p: Pipeline<S, I, O, R, P>, core: set<S>, st: Session<S, I, O, R, P>, t: S, g: Fingerprint<S, O>)
    requires p.WellOrdered() && Anchored(p, core, st)
    requires t in p.Invalidated(st).artifacts && Inside(st.artifacts[t].fingerprint, g) && g.step in core
    ensures p.Holds(p.Invalidated(st), g.step, g)
  {
    assert p.IsFresh(st, t) && p.Holds(st, g.step, g);
    InsideFresh(p, st.inputs, st.artifacts.Keys, t, g);
  }

  // ---- the steps that run in it ----

  /** Any ready step may run, over artifacts however stale, and the core stays up to date and anchored. */
  lemma RunKeepsCore<S(!new), I(!new), O(!new), R(!new), P(!new)>(
    p: Pipeline<S, I, O, R, P>, core: set<S>, st: Session<S, I, O, R, P>, s: S)
    requires p.WellOrdered() && p.WritesForward() && IsCore(p, core)
    requires Anchored(p, core, st) && CoreFresh(p, core, st) && p.Ready(st, s)
    ensures p.Loadable(st, s)
    ensures Anchored(p, core, p.RunStep(st, s)) && CoreFresh(p, core, p.RunStep(st, s))
  {
    var after := p.RunStep(st, s);
    p.RunStepShape(st, s);
    forall c | c in core && c in after.artifacts ensures p.IsFresh(after, c) {
      if c == s { p.RunIsFresh(st, s); } else { CoreStaysFresh(p, core, st, s, c); }
    }
    forall t, c | t in after.artifacts && c in core && Reads(p, t, c) ensures c in after.artifacts {
      if t == s { ReadyFindsCore(p, core, st, s, c); }
    }
    forall t, g | t in after.artifacts && Inside(after.artifacts[t].fingerprint, g) && g.step in core
      ensures p.Holds(after, g.step, g)
    {
      if t == s { RecordedHolds(p, core, st, s, g); } else { assert p.Holds(st, g.step, g); }
    }
  }

  lemma ReadyFindsCore<S(!new), I(!new), O(!new), R(!new), P(!new)>(
    p: Pipeline<S, I, O, R, P>, core: set<S>, st: Session<S, I, O, R, P>, s: S, c: S)
    requires p.WellOrdered() && Anchored(p, core, st) && p.Ready(st, s) && c in core && Reads(p, s, c)
    ensures c in st.artifacts
  {
    var u :| u in p.upstream(s) && (u == c || Reads(p, u, c));
    assert u in st.artifacts;
  }

  lemma CoreStaysFresh<S(!new), I(!new), O(!new), R(!new), P(!new)>(
    p: Pipeline<S, I, O, R, P>, core: set<S>, st: Session<S, I, O, R, P>, s: S, c: S)
    requires p.WellOrdered() && IsCore(p, core) && Anchored(p, core, st) && CoreFresh(p, core, st)
    requires p.Ready(st, s) && p.Loadable(st, s) && c in core && c in st.artifacts
    ensures p.IsFresh(p.RunStep(st, s), c)
  {
    var after := p.RunStep(st, s);
    var below := core * st.artifacts.Keys;
    var a, b := st.artifacts.Keys, after.artifacts.Keys;
    assert p.IsFresh(st, c);
    forall u, d | u in below && d in p.upstream(u) ensures d in below { assert Reads(p, u, d); }
    forall u | u in below ensures p.own(u, st.inputs) == p.own(u, after.inputs) {
      if Reads(p, u, s) { ReadsStaysInCore(p, core, u, s); }
    }
    p.FreshFrame(st.inputs, a, after.inputs, b, c, below);
  }

  lemma RecordedHolds<S(!new), I(!new), O(!new), R(!new), P(!new)>(
    p: Pipeline<S, I, O, R, P>, core: set<S>, st: Session<S, I, O, R, P>, s: S, g: Fingerprint<S, O>)
    requires p.WellOrdered() && p.WritesForward() && IsCore(p, core)
    requires Anchored(p, core, st) && CoreFresh(p, core, st) && p.Ready(st, s) && p.Loadable(st, s)
    requires Inside(p.RunStep(st, s).artifacts[s].fingerprint, g) && g.step in core
    ensures p.Holds(p.RunStep(st, s), g.step, g)
  {
    var after := p.RunStep(st, s);
    InsideFresh(p, after.inputs, st.artifacts.Keys, s, g);
    var c := g.step;
    if c != s {
      ReadyFindsCore(p, core, st, s, c);
      ReadsInside(p, st.inputs, st.artifacts.Keys, s, c);
      assert p.IsFresh(st, c);
      p.WriteLeavesEarlierFresh(st, s, p.Answer(st, s), c);
    }
  }
}
