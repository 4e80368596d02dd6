/**
 What the steps that are present, and nothing else, say about a turn to come. A present step with an absent optional
 one has a gap: when the optional step appears, its fingerprint changes, and so does every fingerprint built over it.
 */
module Gaps {
  import opened StepCache

  /** The fingerprint of `s` is built over one with a gap. */
  ghost predicate RestsOnGap<S(!new), I(!new), O(!new), R(!new), P(!new)>(
    p: Pipeline<S, I, O, R, P>, present: set<S>, s: S)
    requires p.WellOrdered() && s in p.order
    decreases Pos(p.order, s)
  {
    || (exists d {:trigger d in p.optional(s)} :: d in p.optional(s) && (d !in present || RestsOnGap(p, present, d)))
    || (exists d {:trigger d in p.upstream(s)} :: d in p.upstream(s) && RestsOnGap(p, present, d))
  }

  /** Steps may appear, but a fingerprint that rests on no gap does not show it. */
  lemma {:induction false} WithoutGapNothingShows<S(!new), I(!new), O(!new), R(!new), P(!new)>(
    p: Pipeline<S, I, O, R, P>, i: I, a: set<S>, j: I, b: set<S>, s: S, below: set<S>)
    requires p.WellOrdered() && s in p.order && s in below && !RestsOnGap(p, a, s)
    requires a <= b && p.ClosedBelow(below, a)
    requires forall t {:trigger p.own(t, i)} :: t in below && t in p.order ==> p.own(t, i) == p.own(t, j)
    ensures p.Fresh(i, a, s) == p.Fresh(j, b, s)
    decreases Pos(p.order, s)
  {
    p.UpstreamEarlier(s);
    forall k | 0 <= k < |p.upstream(s)| ensures p.FreshRequired(i, a, s)[k] == p.FreshRequired(j, b, s)[k] {
      assert p.upstream(s)[k] in p.upstream(s);
      WithoutGapNothingShows(p, i, a, j, b, p.upstream(s)[k], below);
    }
    forall k | 0 <= k < |p.optional(s)| ensures p.FreshOptional(i, a, s)[k] == p.FreshOptional(j, b, s)[k] {
      assert p.optional(s)[k] in p.optional(s);
      WithoutGapNothingShows(p, i, a, j, b, p.optional(s)[k], below);
    }
    assert p.own(s, i) == p.own(s, j);
    assert p.FreshRequired(i, a, s) == p.FreshRequired(j, b, s);
    assert p.FreshOptional(i, a, s) == p.FreshOptional(j, b, s);
  }

  /** Once everything before it is present, a fingerprint that rested on a gap has changed, whatever the inputs. */
  lemma {:induction false} GapShows<S(!new), I(!new), O(!new), R(!new), P(!new)>(
    p: Pipeline<S, I, O, R, P>, i: I, a: set<S>, j: I, b: set<S>, s: S)
    requires p.WellOrdered() && s in p.order && RestsOnGap(p, a, s)
    requires forall d {:trigger Earlier(p.order, d, s)} :: Earlier(p.order, d, s) ==> d in b
    ensures p.Fresh(i, a, s) != p.Fresh(j, b, s)
    decreases Pos(p.order, s)
  {
    if d :| d in p.optional(s) && (d !in a || RestsOnGap(p, a, d)) {
      var k :| 0 <= k < |p.optional(s)| && p.optional(s)[k] == d;
      assert Earlier(p.order, d, s);
      if d in a {
        EarlierIsTransitive(p.order, d, s);
        GapShows(p, i, a, j, b, d);
      }
      assert p.FreshOptional(i, a, s)[k] != p.FreshOptional(j, b, s)[k];
    } else {
      var d :| d in p.upstream(s) && RestsOnGap(p, a, d);
      var k :| 0 <= k < |p.upstream(s)| && p.upstream(s)[k] == d;
      EarlierIsTransitive(p.order, d, s);
      GapShows(p, i, a, j, b, d);
      assert p.FreshRequired(i, a, s)[k] != p.FreshRequired(j, b, s)[k];
    }
  }

  lemma EarlierIsTransitive<S(!new)>(order: seq<S>, d: S, s: S)
    requires Earlier(order, d, s)
    ensures forall c {:trigger Earlier(order, c, d)} :: Earlier(order, c, d) ==> Earlier(order, c, s)
  {
  }
}
