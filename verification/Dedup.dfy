/** Conservative deduplication: greedy clustering in which a record must match every member it joins. */
module Dedup {
  import opened Wrappers

  type Key = (int, int)

  /** One observation: which source, under which id, when. */
  datatype Entry = Entry(source: int, sourceId: int, retrievedAt: int)
  {
    function Key(): Key { (source, sourceId) }
  }

  datatype Business = Business(
    sourceId: int,
    name: Option<string>,
    normalizedName: string,
    category: Option<int>,
    address: Option<string>,
    firstSeen: int,
    lastUpdated: int,
    quality: real,
    provenance: seq<Entry>)

  type Pairing = (Business, Business) -> bool

  datatype MergeDecision = MergeDecision(kept: Business, absorbed: Business)

  type Clusters = seq<seq<Business>>

  // ---- the deterministic order ----

  /** `(-data_quality, source_id)`. */
  predicate Better(a: Business, b: Business) {
    a.quality > b.quality || (a.quality == b.quality && a.sourceId < b.sourceId)
  }

  function Insert(b: Business, sorted: seq<Business>): seq<Business> {
    if sorted == [] || Better(b, sorted[0]) then [b] + sorted
    else [sorted[0]] + Insert(b, sorted[1..])
  }

  /** A stable sort, best record first. */
  function Ordered(bs: seq<Business>): seq<Business> {
    if bs == [] then [] else Insert(bs[|bs| - 1], Ordered(bs[..|bs| - 1]))
  }

  ghost predicate SortedBest(bs: seq<Business>) {
    forall i, j :: 0 <= i < j < |bs| ==> !Better(bs[j], bs[i])
  }

  /** No two records share both quality and source id. */
  ghost predicate KeysDistinct(bs: multiset<Business>) {
    && (forall x :: x in bs ==> bs[x] == 1)
    && forall x, y :: x in bs && y in bs && x.quality == y.quality && x.sourceId == y.sourceId ==> x == y
  }

  lemma {:induction false} InsertAdds(b: Business, sorted: seq<Business>)
    ensures multiset(Insert(b, sorted)) == multiset(sorted) + multiset{b}
  {
    hide Better;
    if sorted != [] {
      InsertAdds(b, sorted[1..]);
      assert sorted == [sorted[0]] + sorted[1..];
    }
  }

  lemma BestInFront(b: Business, sorted: seq<Business>)
    requires SortedBest(sorted) && forall x :: x in sorted ==> !Better(x, b)
    ensures SortedBest([b] + sorted)
  {
    hide Better;
    var longer := [b] + sorted;
    forall i, j | 0 <= i < j < |longer| ensures !Better(longer[j], longer[i]) {
      assert longer[j] == sorted[j - 1] && longer[j] in sorted;
      if i > 0 { assert longer[i] == sorted[i - 1]; }
    }
  }

  lemma {:induction false} InsertSorts(b: Business, sorted: seq<Business>)
    requires SortedBest(sorted)
    ensures SortedBest(Insert(b, sorted)) && multiset(Insert(b, sorted)) == multiset(sorted) + multiset{b}
  {
    InsertAdds(b, sorted);
    if sorted == [] {
    } else if Better(b, sorted[0]) {
      BestInFront(b, sorted);
    } else {
      var rest := Insert(b, sorted[1..]);
      InsertSorts(b, sorted[1..]);
      forall x | x in rest ensures !Better(x, sorted[0]) { assert x in multiset(rest); }
      BestInFront(sorted[0], rest);
    }
  }

  lemma {:induction false} OrderedSorts(bs: seq<Business>)
    ensures SortedBest(Ordered(bs)) && multiset(Ordered(bs)) == multiset(bs)
  {
    if bs != [] {
      OrderedSorts(bs[..|bs| - 1]);
      InsertSorts(bs[|bs| - 1], Ordered(bs[..|bs| - 1]));
      assert bs == bs[..|bs| - 1] + [bs[|bs| - 1]];
    }
  }

  lemma {:induction false} SortedUnique(a: seq<Business>, b: seq<Business>)
    requires multiset(a) == multiset(b) && SortedBest(a) && SortedBest(b) && KeysDistinct(multiset(a))
    ensures a == b
  {
    hide Better, SortedBest, KeysDistinct;
    assert |multiset(a)| == |a| && |multiset(b)| == |b|;
    if a != [] {
      SameBest(a, b);
      Rest(a);
      Rest(b);
      RestIsDistinct(multiset(a), a[0]);
      SortedUnique(a[1..], b[1..]);
      assert a == [a[0]] + a[1..] && b == [b[0]] + b[1..];
    }
  }

  lemma SameBest(a: seq<Business>, b: seq<Business>)
    requires multiset(a) == multiset(b) && SortedBest(a) && SortedBest(b) && KeysDistinct(multiset(a)) && |a| == |b| > 0
    ensures a[0] == b[0]
  {
    BestIsFirst(a, b[0], b);
    BestIsFirst(b, a[0], a);
    assert a[0] in multiset(a) && b[0] in multiset(a);
  }

  lemma Rest(a: seq<Business>)
    requires SortedBest(a) && a != []
    ensures SortedBest(a[1..]) && multiset(a[1..]) == multiset(a) - multiset{a[0]}
  {
    assert a == [a[0]] + a[1..];
  }

  lemma RestIsDistinct(bs: multiset<Business>, x: Business)
    requires KeysDistinct(bs)
    ensures KeysDistinct(bs - multiset{x})
  {
    assert forall y :: y in bs - multiset{x} ==> y in bs;
  }

  lemma BestIsFirst(a: seq<Business>, x: Business, b: seq<Business>)
    requires SortedBest(a) && |a| > 0 && |b| > 0 && multiset(a) == multiset(b) && x == b[0]
    ensures !Better(x, a[0])
  {
    assert x in multiset(b);
    var j :| 0 <= j < |a| && a[j] == x;
  }

  // ---- greedy clustering ----

  predicate MatchesAll(m: Pairing, b: Business, cluster: seq<Business>) {
    forall k :: 0 <= k < |cluster| ==> m(b, cluster[k])
  }

  /** Join the first cluster all of whose members match, else open a new one. */
  function Place(m: Pairing, clusters: Clusters, b: Business): Clusters {
    if clusters == [] then [[b]]
    else if MatchesAll(m, b, clusters[0]) then [clusters[0] + [b]] + clusters[1..]
    else [clusters[0]] + Place(m, clusters[1..], b)
  }

  function PlaceAll(m: Pairing, bs: seq<Business>): Clusters {
    if bs == [] then [] else Place(m, PlaceAll(m, bs[..|bs| - 1]), bs[|bs| - 1])
  }

  ghost function Union(clusters: Clusters): multiset<Business> {
    if clusters == [] then multiset{} else multiset(clusters[0]) + Union(clusters[1..])
  }

  /** Within a cluster every record matched every record that was there before it. */
  ghost predicate Clique(m: Pairing, cluster: seq<Business>) {
    |cluster| > 0 && forall i, j :: 0 <= i < j < |cluster| ==> m(cluster[j], cluster[i])
  }

  /** `b` fails to match some member of `cluster`. */
  ghost predicate Barred(m: Pairing, b: Business, cluster: seq<Business>) {
    exists k :: 0 <= k < |cluster| && !m(b, cluster[k])
  }

  /** No record of a later cluster could join an earlier one. */
  ghost predicate Maximal(m: Pairing, clusters: Clusters) {
    forall i, j, k {:trigger Barred(m, clusters[j][k], clusters[i])} ::
      0 <= i < j < |clusters| && 0 <= k < |clusters[j]| ==> Barred(m, clusters[j][k], clusters[i])
  }

  lemma {:induction false} PlaceConserves(m: Pairing, clusters: Clusters, b: Business)
    ensures Union(Place(m, clusters, b)) == Union(clusters) + multiset{b}
  {
    if clusters != [] && !MatchesAll(m, b, clusters[0]) { PlaceConserves(m, clusters[1..], b); }
  }

  lemma BarredFromLonger(m: Pairing, b: Business, cluster: seq<Business>, more: seq<Business>)
    requires Barred(m, b, cluster)
    ensures Barred(m, b, cluster + more)
  {
    var k :| 0 <= k < |cluster| && !m(b, cluster[k]);
    assert (cluster + more)[k] == cluster[k];
  }

  /** Where placing a record leaves the clusters: one of them grew, or one was added, and the record was barred before it. */
  lemma {:induction false} PlaceShape(m: Pairing, clusters: Clusters, b: Business) returns (at: nat)
    ensures at <= |clusters|
    ensures forall i :: 0 <= i < at ==> Barred(m, b, clusters[i])
    ensures Place(m, clusters, b) ==
            if at == |clusters| then clusters + [[b]] else clusters[at := clusters[at] + [b]]
    ensures at < |clusters| ==> MatchesAll(m, b, clusters[at])
  {
    if clusters == [] || MatchesAll(m, b, clusters[0]) {
      at := 0;
    } else {
      var rest := PlaceShape(m, clusters[1..], b);
      at := rest + 1;
      assert clusters == [clusters[0]] + clusters[1..];
      forall i | 0 <= i < at ensures Barred(m, b, clusters[i]) {
        if i > 0 { assert clusters[i] == clusters[1..][i - 1]; }
      }
    }
  }

  lemma PlaceKeepsMaximal(m: Pairing, clusters: Clusters, b: Business)
    requires Maximal(m, clusters)
    ensures Maximal(m, Place(m, clusters, b))
  {
    var at := PlaceShape(m, clusters, b);
    var after := Place(m, clusters, b);
    forall i, j, k | 0 <= i < j < |after| && 0 <= k < |after[j]| ensures Barred(m, after[j][k], after[i]) {
      var x := after[j][k];
      if j == at && k == |after[j]| - 1 {
        assert x == b;
      } else {
        assert clusters[j][k] == x && Barred(m, clusters[j][k], clusters[i]);
        if i == at { BarredFromLonger(m, x, clusters[i], [b]); }
      }
    }
  }

  lemma PlaceKeepsCliques(m: Pairing, clusters: Clusters, b: Business)
    requires forall c :: c in clusters ==> Clique(m, c)
    ensures forall c :: c in Place(m, clusters, b) ==> Clique(m, c)
  {
    var at := PlaceShape(m, clusters, b);
    forall c | c in Place(m, clusters, b) ensures Clique(m, c) {
      if at < |clusters| && c == clusters[at] + [b] {
        assert Clique(m, clusters[at]);
      } else if at == |clusters| && c == [b] {
      } else {
        assert c in clusters;
      }
    }
  }

  /** The clusters partition the input, each is a clique, and no record of a later one could join an earlier one. */
  lemma {:induction false} ClusteringIsSound(m: Pairing, bs: seq<Business>)
    ensures Union(PlaceAll(m, bs)) == multiset(bs)
    ensures forall c :: c in PlaceAll(m, bs) ==> Clique(m, c)
    ensures Maximal(m, PlaceAll(m, bs))
  {
    if bs != [] {
      var most, b := bs[..|bs| - 1], bs[|bs| - 1];
      ClusteringIsSound(m, most);
      PlaceConserves(m, PlaceAll(m, most), b);
      PlaceKeepsCliques(m, PlaceAll(m, most), b);
      PlaceKeepsMaximal(m, PlaceAll(m, most), b);
      assert bs == most + [b];
    }
  }

  /** No two final clusters could be combined: some pair across them does not match. */
  lemma ClustersCannotBeCombined(m: Pairing, bs: seq<Business>, i: nat, j: nat)
    requires i < j < |PlaceAll(m, bs)|
    ensures !Clique(m, PlaceAll(m, bs)[i] + PlaceAll(m, bs)[j])
  {
    ClusteringIsSound(m, bs);
    var a, b := PlaceAll(m, bs)[i], PlaceAll(m, bs)[j];
    assert b in PlaceAll(m, bs);
    assert Barred(m, b[0], a);
    var k :| 0 <= k < |a| && !m(b[0], a[k]);
    assert (a + b)[k] == a[k] && (a + b)[|a|] == b[0];
  }

  /** With distinct sort keys, the clusters do not depend on the order in which the records arrived. */
  lemma ArrivalOrderIsIrrelevant(m: Pairing, a: seq<Business>, b: seq<Business>)
    requires multiset(a) == multiset(b) && KeysDistinct(multiset(a))
    ensures PlaceAll(m, Ordered(a)) == PlaceAll(m, Ordered(b))
  {
    OrderedSorts(a);
    OrderedSorts(b);
    SortedUnique(Ordered(a), Ordered(b));
  }

  // ---- merge decisions ----

  ghost function Pairs(k: nat): nat {
    k * (k - 1) / 2
  }

  ghost function PairCount(clusters: Clusters): nat {
    if clusters == [] then 0 else Pairs(|clusters[0]|) + PairCount(clusters[1..])
  }

  lemma PairsGrow(k: nat)
    ensures Pairs(k + 1) == Pairs(k) + k
  {
  }

  lemma {:induction false} PairCountAt(clusters: Clusters, at: nat, b: Business)
    requires at < |clusters|
    ensures PairCount(clusters[at := clusters[at] + [b]]) == PairCount(clusters) + |clusters[at]|
  {
    var after := clusters[at := clusters[at] + [b]];
    if at == 0 {
      PairsGrow(|clusters[0]|);
      assert after[1..] == clusters[1..];
    } else {
      PairCountAt(clusters[1..], at - 1, b);
      assert after[1..] == clusters[1..][at - 1 := clusters[1..][at - 1] + [b]];
    }
  }

  lemma {:induction false} PairCountNew(clusters: Clusters, b: Business)
    ensures PairCount(clusters + [[b]]) == PairCount(clusters)
  {
    if clusters == [] {
      assert clusters + [[b]] == [[b]];
    } else {
      PairCountNew(clusters[1..], b);
      assert (clusters + [[b]])[1..] == clusters[1..] + [[b]];
    }
  }

  /** A decision joins two records of the same cluster, the absorbed one having come later and matched. */
  ghost predicate Justified(m: Pairing, clusters: Clusters, d: MergeDecision) {
    exists c, i, j {:trigger clusters[c][i], clusters[c][j]} ::
      0 <= c < |clusters| && 0 <= i < j < |clusters[c]| && clusters[c][i] == d.kept && clusters[c][j] == d.absorbed
      && m(d.absorbed, d.kept)
  }

  lemma StaysJustified(m: Pairing, clusters: Clusters, at: nat, b: Business, d: MergeDecision)
    requires Justified(m, clusters, d) && at < |clusters|
    ensures Justified(m, clusters[at := clusters[at] + [b]], d)
  {
    var c, i, j :| 0 <= c < |clusters| && 0 <= i < j < |clusters[c]| && clusters[c][i] == d.kept
                   && clusters[c][j] == d.absorbed && m(d.absorbed, d.kept);
    var after := clusters[at := clusters[at] + [b]];
    assert after[c][i] == d.kept && after[c][j] == d.absorbed;
  }

  lemma StaysJustifiedNew(m: Pairing, clusters: Clusters, b: Business, d: MergeDecision)
    requires Justified(m, clusters, d)
    ensures Justified(m, clusters + [[b]], d)
  {
    var c, i, j :| 0 <= c < |clusters| && 0 <= i < j < |clusters[c]| && clusters[c][i] == d.kept
                   && clusters[c][j] == d.absorbed && m(d.absorbed, d.kept);
    var after := clusters + [[b]];
    assert after[c][i] == d.kept && after[c][j] == d.absorbed;
  }

  ghost predicate AllJustified(m: Pairing, clusters: Clusters, merges: seq<MergeDecision>) {
    forall k :: 0 <= k < |merges| ==> Justified(m, clusters, merges[k])
  }

  /** Every pair inside a cluster has its decision. */
  ghost predicate Decided(clusters: Clusters, merges: seq<MergeDecision>) {
    forall c, i, j {:trigger clusters[c][i], clusters[c][j]} ::
      0 <= c < |clusters| && 0 <= i < j < |clusters[c]| ==> MergeDecision(clusters[c][i], clusters[c][j]) in merges
  }

  /** One decision for each pair inside a cluster, and no others. */
  ghost predicate Accounted(m: Pairing, clusters: Clusters, merges: seq<MergeDecision>) {
    |merges| == PairCount(clusters) && AllJustified(m, clusters, merges) && Decided(clusters, merges)
  }

  lemma JoinIsDecided(clusters: Clusters, at: nat, b: Business, merges: seq<MergeDecision>, decisions: seq<MergeDecision>)
    requires at < |clusters| && Decided(clusters, merges) && |decisions| == |clusters[at]|
    requires forall k :: 0 <= k < |decisions| ==> decisions[k] == MergeDecision(clusters[at][k], b)
    ensures Decided(clusters[at := clusters[at] + [b]], merges + decisions)
  {
    var after := clusters[at := clusters[at] + [b]];
    forall c, i, j | 0 <= c < |after| && 0 <= i < j < |after[c]|
      ensures MergeDecision(after[c][i], after[c][j]) in merges + decisions
    {
      if c == at && j == |clusters[at]| {
        assert decisions[i] in decisions;
      } else {
        assert after[c][i] == clusters[c][i] && after[c][j] == clusters[c][j];
      }
    }
  }

  lemma JoinIsAccounted(m: Pairing, clusters: Clusters, at: nat, b: Business, merges: seq<MergeDecision>,
                        decisions: seq<MergeDecision>)
    requires at < |clusters| && MatchesAll(m, b, clusters[at]) && Accounted(m, clusters, merges)
    requires |decisions| == |clusters[at]|
    requires forall k :: 0 <= k < |decisions| ==> decisions[k] == MergeDecision(clusters[at][k], b)
    ensures Accounted(m, clusters[at := clusters[at] + [b]], merges + decisions)
  {
    hide Justified, MatchesAll, Decided, PairCount, AllJustified;
    PairCountAt(clusters, at, b);
    JoinJustified(m, clusters, at, b, merges, decisions);
    JoinIsDecided(clusters, at, b, merges, decisions);
  }

  lemma NewIsDecided(clusters: Clusters, b: Business, merges: seq<MergeDecision>)
    requires Decided(clusters, merges)
    ensures Decided(clusters + [[b]], merges)
  {
    var after := clusters + [[b]];
    forall c, i, j | 0 <= c < |after| && 0 <= i < j < |after[c]| ensures MergeDecision(after[c][i], after[c][j]) in merges {
      assert after[c][i] == clusters[c][i] && after[c][j] == clusters[c][j];
    }
  }

  lemma NewIsAccounted(m: Pairing, clusters: Clusters, b: Business, merges: seq<MergeDecision>)
    requires Accounted(m, clusters, merges)
    ensures Accounted(m, clusters + [[b]], merges)
  {
    hide Justified, Decided, PairCount;
    PairCountNew(clusters, b);
    NewIsDecided(clusters, b, merges);
    forall k | 0 <= k < |merges| ensures Justified(m, clusters + [[b]], merges[k]) {
      StaysJustifiedNew(m, clusters, b, merges[k]);
    }
  }

  lemma NothingAccounted(m: Pairing)
    ensures Accounted(m, [], [])
  {
  }

  lemma PlaceOneMore(m: Pairing, ordered: seq<Business>, n: nat)
    requires n < |ordered|
    ensures PlaceAll(m, ordered[..n + 1]) == Place(m, PlaceAll(m, ordered[..n]), ordered[n])
  {
    assert ordered[..n + 1][..n] == ordered[..n];
  }

  /** The clustering loop of `dedupe`: one decision per pair inside a cluster, each of them a matching pair. */
  method Cluster(m: Pairing, businesses: seq<Business>) returns (clusters: Clusters, merges: seq<MergeDecision>)
    ensures clusters == PlaceAll(m, Ordered(businesses))
    ensures Accounted(m, clusters, merges) && |merges| >= |businesses| - |clusters|
  {
    hide MatchesAll, Place, Accounted, Ordered;
    var ordered := Ordered(businesses);
    clusters, merges := [], [];
    NothingAccounted(m);
    for n := 0 to |ordered|
      invariant clusters == PlaceAll(m, ordered[..n]) && Accounted(m, clusters, merges)
    {
      var b := ordered[n];
      PlaceOneMore(m, ordered, n);
      var at := 0;
      while at < |clusters| && !MatchesAll(m, b, clusters[at])
        invariant at <= |clusters|
        invariant forall i :: 0 <= i < at ==> !MatchesAll(m, b, clusters[i])
      {
        at := at + 1;
      }
      FirstMatchIsPlace(m, clusters, b, at);
      if at < |clusters| {
        var decisions := Decisions(clusters[at], b);
        JoinIsAccounted(m, clusters, at, b, merges, decisions);
        merges := merges + decisions;
        clusters := clusters[at := clusters[at] + [b]];
      } else {
        NewIsAccounted(m, clusters, b, merges);
        clusters := clusters + [[b]];
      }
    }
    assert ordered[..|ordered|] == ordered;
    ReductionIsCovered(m, businesses);
    AccountedParts(m, clusters, merges);
  }

  lemma AccountedParts(m: Pairing, clusters: Clusters, merges: seq<MergeDecision>)
    requires Accounted(m, clusters, merges)
    ensures |merges| == PairCount(clusters) && AllJustified(m, clusters, merges) && Decided(clusters, merges)
  {
    hide AllJustified, Decided, PairCount;
  }

  lemma ReductionIsCovered(m: Pairing, businesses: seq<Business>)
    ensures var clusters := PlaceAll(m, Ordered(businesses)); PairCount(clusters) >= |businesses| - |clusters|
  {
    OrderedSorts(businesses);
    ClusteringIsSound(m, Ordered(businesses));
    DecisionsCoverReduction(PlaceAll(m, Ordered(businesses)));
    assert |multiset(businesses)| == |businesses|;
  }

  method Decisions(cluster: seq<Business>, b: Business) returns (decisions: seq<MergeDecision>)
    ensures |decisions| == |cluster|
    ensures forall k :: 0 <= k < |cluster| ==> decisions[k] == MergeDecision(cluster[k], b)
  {
    decisions := [];
    for k := 0 to |cluster|
      invariant |decisions| == k
      invariant forall i :: 0 <= i < k ==> decisions[i] == MergeDecision(cluster[i], b)
    {
      decisions := decisions + [MergeDecision(cluster[k], b)];
    }
  }

  lemma JoinJustified(m: Pairing, clusters: Clusters, at: nat, b: Business, merges: seq<MergeDecision>,
                      decisions: seq<MergeDecision>)
    requires at < |clusters| && MatchesAll(m, b, clusters[at]) && AllJustified(m, clusters, merges)
    requires |decisions| == |clusters[at]|
    requires forall k :: 0 <= k < |decisions| ==> decisions[k] == MergeDecision(clusters[at][k], b)
    ensures AllJustified(m, clusters[at := clusters[at] + [b]], merges + decisions)
  {
    var after := clusters[at := clusters[at] + [b]];
    forall k | 0 <= k < |merges + decisions| ensures Justified(m, after, (merges + decisions)[k]) {
      if k < |merges| {
        assert Justified(m, clusters, merges[k]);
        StaysJustified(m, clusters, at, b, merges[k]);
      } else {
        var i := k - |merges|;
        assert (merges + decisions)[k] == MergeDecision(clusters[at][i], b);
        assert after[at][i] == clusters[at][i] && after[at][|clusters[at]|] == b;
      }
    }
  }

  lemma {:induction false} FirstMatchIsPlace(m: Pairing, clusters: Clusters, b: Business, at: nat)
    requires at <= |clusters| && forall i :: 0 <= i < at ==> !MatchesAll(m, b, clusters[i])
    requires at < |clusters| ==> MatchesAll(m, b, clusters[at])
    ensures Place(m, clusters, b) ==
            if at < |clusters| then clusters[at := clusters[at] + [b]] else clusters + [[b]]
  {
    if clusters != [] && at > 0 {
      FirstMatchIsPlace(m, clusters[1..], b, at - 1);
      assert clusters == [clusters[0]] + clusters[1..];
    }
  }

  /** At least as many decisions as records that disappeared. */
  lemma {:induction false} DecisionsCoverReduction(clusters: Clusters)
    requires forall c :: c in clusters ==> |c| > 0
    ensures PairCount(clusters) >= |Union(clusters)| - |clusters|
  {
    if clusters != [] {
      DecisionsCoverReduction(clusters[1..]);
      var k := |clusters[0]|;
      assert clusters[0] in clusters;
      assert (k - 1) * (k - 2) >= 0;
      assert k * (k - 1) >= 2 * (k - 1);
    }
  }

  // ---- combining a cluster ----

  ghost function KeysOf(provenance: seq<Entry>): set<Key> {
    set e | e in provenance :: e.Key()
  }

  ghost function ClusterKeys(cluster: seq<Business>): set<Key> {
    KeysOf(Flat(cluster))
  }

  /** All observations of the members, in order. */
  ghost function Flat(cluster: seq<Business>): seq<Entry> {
    if cluster == [] then [] else Flat(cluster[..|cluster| - 1]) + cluster[|cluster| - 1].provenance
  }

  /** Each key's first observation. */
  ghost function FirstByKey(entries: seq<Entry>): seq<Entry> {
    if entries == [] then [] else
      var kept, e := FirstByKey(entries[..|entries| - 1]), entries[|entries| - 1];
      if e.Key() in KeysOf(kept) then kept else kept + [e]
  }

  /** The entry is the first of its key. */
  ghost predicate FirstOfKey(entries: seq<Entry>, e: Entry) {
    exists k :: 0 <= k < |entries| && entries[k] == e && forall i :: 0 <= i < k ==> entries[i].Key() != e.Key()
  }

  lemma FirstOfKeyStays(entries: seq<Entry>, e: Entry, last: Entry)
    requires FirstOfKey(entries, e)
    ensures FirstOfKey(entries + [last], e)
  {
    var k :| 0 <= k < |entries| && entries[k] == e && forall i :: 0 <= i < k ==> entries[i].Key() != e.Key();
    assert (entries + [last])[k] == e;
  }

  lemma FreshIsFirstOfKey(entries: seq<Entry>, last: Entry)
    requires last.Key() !in KeysOf(entries)
    ensures FirstOfKey(entries + [last], last)
  {
    var longer := entries + [last];
    assert longer[|entries|] == last;
    forall i | 0 <= i < |entries| ensures longer[i].Key() != last.Key() { assert entries[i] in entries; }
  }

  lemma {:induction false} FirstByKeyKeeps(entries: seq<Entry>)
    ensures KeysOf(FirstByKey(entries)) == KeysOf(entries) && NoKeyTwice(FirstByKey(entries))
    ensures forall e :: e in FirstByKey(entries) ==> FirstOfKey(entries, e)
  {
    hide FirstOfKey;
    if entries != [] {
      var most, e := entries[..|entries| - 1], entries[|entries| - 1];
      FirstByKeyKeeps(most);
      assert entries == most + [e];
      KeysOfAppend(most, e);
      forall x | x in FirstByKey(most) ensures FirstOfKey(entries, x) { FirstOfKeyStays(most, x, e); }
      if e.Key() !in KeysOf(FirstByKey(most)) {
        KeysOfAppend(FirstByKey(most), e);
        FreshKeyOnce(FirstByKey(most), e);
        FreshIsFirstOfKey(most, e);
      }
    }
  }

  ghost predicate NoKeyTwice(provenance: seq<Entry>) {
    forall i, j :: 0 <= i < j < |provenance| ==> provenance[i].Key() != provenance[j].Key()
  }

  /** The provenance loop of `_combine`: every key of every member once, at its first occurrence. */
  method CombineProvenance(cluster: seq<Business>) returns (provenance: seq<Entry>)
    ensures provenance == FirstByKey(Flat(cluster))
    ensures KeysOf(provenance) == ClusterKeys(cluster) && NoKeyTwice(provenance)
    ensures forall e :: e in provenance ==> FirstOfKey(Flat(cluster), e)
  {
    hide FirstOfKey;
    provenance := [];
    var seen: set<Key> := {};
    for n := 0 to |cluster|
      invariant provenance == FirstByKey(Flat(cluster[..n])) && seen == KeysOf(provenance)
    {
      var entries := cluster[n].provenance;
      ghost var before := Flat(cluster[..n]);
      assert before + entries[..0] == before;
      for k := 0 to |entries|
        invariant provenance == FirstByKey(before + entries[..k]) && seen == KeysOf(provenance)
      {
        var e := entries[k];
        OneMoreEntry(before, entries, k);
        KeysOfAppend(provenance, e);
        if e.Key() !in seen {
          seen := seen + {e.Key()};
          provenance := provenance + [e];
        }
      }
      assert entries[..|entries|] == entries;
      assert cluster[..n + 1][..n] == cluster[..n] && cluster[..n + 1][n] == cluster[n];
    }
    assert cluster[..|cluster|] == cluster;
    FirstByKeyKeeps(Flat(cluster));
  }

  lemma OneMoreEntry(before: seq<Entry>, entries: seq<Entry>, k: nat)
    requires k < |entries|
    ensures var kept := FirstByKey(before + entries[..k]);
            FirstByKey(before + entries[..k + 1]) == if entries[k].Key() in KeysOf(kept) then kept else kept + [entries[k]]
  {
    var longer := before + entries[..k + 1];
    assert longer[..|longer| - 1] == before + entries[..k] && longer[|longer| - 1] == entries[k];
  }

  lemma KeysOfAppend(provenance: seq<Entry>, e: Entry)
    ensures KeysOf(provenance + [e]) == KeysOf(provenance) + {e.Key()}
  {
  }

  lemma FreshKeyOnce(provenance: seq<Entry>, e: Entry)
    requires NoKeyTwice(provenance) && e.Key() !in KeysOf(provenance)
    ensures NoKeyTwice(provenance + [e])
  {
  }

  predicate Named(b: Business) { b.name.Some? && b.name.value != "" }
  predicate Addressed(b: Business) { b.address.Some? && b.address.value != "" }

  /** `next((b for b in cluster if p(b)), None)`. */
  function First(cluster: seq<Business>, p: Business -> bool): (r: Option<Business>)
    ensures r.None? <==> forall b :: b in cluster ==> !p(b)
    ensures r.Some? ==> exists k :: 0 <= k < |cluster| && cluster[k] == r.value && p(r.value)
                                    && forall i :: 0 <= i < k ==> !p(cluster[i])
  {
    if cluster == [] then None
    else if p(cluster[0]) then
      assert cluster[0] == cluster[0]; Some(cluster[0])
    else
      var r := First(cluster[1..], p);
      assert r.Some? ==> exists k :: 0 <= k < |cluster| && cluster[k] == r.value && p(r.value)
                                     && forall i :: 0 <= i < k ==> !p(cluster[i]) by {
        if r.Some? {
          var k :| 0 <= k < |cluster[1..]| && cluster[1..][k] == r.value && p(r.value)
                   && forall i :: 0 <= i < k ==> !p(cluster[1..][i]);
          assert cluster[k + 1] == r.value;
          assert forall i :: 0 <= i < k + 1 ==> !p(cluster[i]) by {
            forall i | 0 <= i < k + 1 ensures !p(cluster[i]) { if i > 0 { assert cluster[i] == cluster[1..][i - 1]; } }
          }
        }
      }
      r
  }

  predicate Categorised(b: Business) { b.category.Some? }

  /** The first member with `p`, or the best one if none has it. */
  function Giver(cluster: seq<Business>, p: Business -> bool): (giver: Business)
    requires |cluster| > 0
    ensures (forall b :: b in cluster ==> !p(b)) ==> giver == cluster[0]
    ensures (exists b :: b in cluster && p(b)) ==> p(giver)
    ensures exists k :: 0 <= k < |cluster| && cluster[k] == giver
                        && (p(giver) ==> forall i :: 0 <= i < k ==> !p(cluster[i]))
  {
    var first := First(cluster, p);
    if first.Some? then first.value else cluster[0]
  }

  function Sources(provenance: seq<Entry>): set<int> {
    set e | e in provenance :: e.source
  }

  /** The widest time span, and the best quality, lifted a little but not above one if several sources agree. */
  ghost predicate Spanned(cluster: seq<Business>, merged: Business) {
    && (forall b :: b in cluster ==> merged.firstSeen <= b.firstSeen && b.lastUpdated <= merged.lastUpdated)
    && (exists b :: b in cluster && b.firstSeen == merged.firstSeen)
    && (exists b :: b in cluster && b.lastUpdated == merged.lastUpdated)
    && (exists b :: b in cluster && (forall c :: c in cluster ==> c.quality <= b.quality)
                    && merged.quality == if !Several(merged.provenance) then b.quality
                                         else if b.quality > 0.95 then 1.0 else b.quality + 0.05)
  }

  ghost predicate Several(provenance: seq<Entry>) {
    exists i, j :: 0 <= i < j < |provenance| && provenance[i].source != provenance[j].source
  }

  /** `at` is the first member for which `has` tells true. */
  ghost predicate IsFirst(cluster: seq<Business>, has: Business -> bool, at: nat) {
    at < |cluster| && has(cluster[at]) && forall i :: 0 <= i < at ==> !has(cluster[i])
  }

  /** What goes out for a cluster of several, told field by field. */
  ghost predicate Merged(cluster: seq<Business>, s: Business)
    requires |cluster| > 0
  {
    var hasName := (b: Business) => b.name.Some? && b.name.value != "";
    var hasAddress := (b: Business) => b.address.Some? && b.address.value != "";
    var hasCategory := (b: Business) => b.category.Some?;
    && s.sourceId == cluster[0].sourceId
    && (forall k: nat :: IsFirst(cluster, hasName, k) ==>
          s.name == cluster[k].name && s.normalizedName == cluster[k].normalizedName)
    && ((forall k: nat :: !IsFirst(cluster, hasName, k)) ==>
          s.name == cluster[0].name && s.normalizedName == cluster[0].normalizedName)
    && (forall k: nat :: IsFirst(cluster, hasCategory, k) ==> s.category == cluster[k].category)
    && ((forall k: nat :: !IsFirst(cluster, hasCategory, k)) ==> s.category == cluster[0].category)
    && (forall k: nat :: IsFirst(cluster, hasAddress, k) ==> s.address == cluster[k].address)
    && ((forall k: nat :: !IsFirst(cluster, hasAddress, k)) ==> s.address == cluster[0].address)
    && Spanned(cluster, s)
    && KeysOf(s.provenance) == ClusterKeys(cluster) && NoKeyTwice(s.provenance)
    && forall e :: e in s.provenance ==> FirstOfKey(Flat(cluster), e)
  }

  /** A record alone goes out as it came in. */
  ghost predicate Survives(cluster: seq<Business>, s: Business)
    requires |cluster| > 0
  {
    if |cluster| == 1 then s == cluster[0] else Merged(cluster, s)
  }

  lemma GiverIsFirst(cluster: seq<Business>, p: Business -> bool, has: Business -> bool)
    requires |cluster| > 0 && forall b :: p(b) == has(b)
    ensures forall k: nat :: IsFirst(cluster, has, k) ==> Giver(cluster, p) == cluster[k]
    ensures (forall k: nat :: !IsFirst(cluster, has, k)) ==> Giver(cluster, p) == cluster[0]
  {
    var giver := Giver(cluster, p);
    var k :| 0 <= k < |cluster| && cluster[k] == giver && (p(giver) ==> forall i :: 0 <= i < k ==> !p(cluster[i]));
    if p(giver) {
      assert IsFirst(cluster, has, k);
      forall j: nat | IsFirst(cluster, has, j) ensures j == k { }
    } else {
      NobodyIsFirst(cluster, has);
    }
  }

  lemma NobodyIsFirst(cluster: seq<Business>, has: Business -> bool)
    requires forall b :: b in cluster ==> !has(b)
    ensures forall k: nat :: !IsFirst(cluster, has, k)
  {
  }

  lemma SeveralSources(provenance: seq<Entry>)
    ensures |Sources(provenance)| > 1 <==> Several(provenance)
  {
    var sources := Sources(provenance);
    if i, j :| 0 <= i < j < |provenance| && provenance[i].source != provenance[j].source {
      assert provenance[i] in provenance && provenance[j] in provenance;
      assert {provenance[i].source, provenance[j].source} <= sources;
      SubsetIsSmaller({provenance[i].source, provenance[j].source}, sources);
    } else if provenance != [] {
      forall x | x in sources ensures x == provenance[0].source {
        var e :| e in provenance && e.source == x;
        var k :| 0 <= k < |provenance| && provenance[k] == e;
        if k > 0 { assert provenance[0].source == provenance[k].source; }
      }
      SubsetIsSmaller(sources, {provenance[0].source});
    } else {
      assert sources == {};
    }
  }

  lemma SubsetIsSmaller(a: set<int>, b: set<int>)
    requires a <= b
    ensures |a| <= |b|
  {
    assert b == a + (b - a);
  }

  /**
   The surviving record is the best member's, with the name, category and address of the first member that has one, the
   widest time span, and every observation once.
   */
  method Combine(cluster: seq<Business>) returns (merged: Business)
    requires |cluster| > 0
    ensures Merged(cluster, merged)
  {
    hide *;
    var rep := cluster[0];
    var named, categorised, addressed := Giver(cluster, Named), Giver(cluster, Categorised), Giver(cluster, Addressed);
    var provenance := CombineProvenance(cluster);
    var first, last, best := Spans(cluster);
    var quality := best;
    if |Sources(provenance)| > 1 {
      quality := if quality + 0.05 < 1.0 then quality + 0.05 else 1.0;
    }
    merged := rep.(
      name := named.name, normalizedName := named.normalizedName, category := categorised.category,
      address := addressed.address, firstSeen := first, lastUpdated := last, quality := quality,
      provenance := provenance);
    SeveralSources(provenance);
    MakesSpanned(cluster, merged, best);
    MakesMerged(cluster, merged);
  }

  lemma MakesMerged(cluster: seq<Business>, s: Business)
    requires |cluster| > 0 && s.sourceId == cluster[0].sourceId && Spanned(cluster, s)
    requires s.name == Giver(cluster, Named).name && s.normalizedName == Giver(cluster, Named).normalizedName
    requires s.category == Giver(cluster, Categorised).category && s.address == Giver(cluster, Addressed).address
    requires KeysOf(s.provenance) == ClusterKeys(cluster) && NoKeyTwice(s.provenance)
    requires forall e :: e in s.provenance ==> FirstOfKey(Flat(cluster), e)
    ensures Merged(cluster, s)
  {
    hide Giver, Spanned, NoKeyTwice, FirstOfKey, IsFirst;
    GiverIsFirst(cluster, Named, (b: Business) => b.name.Some? && b.name.value != "");
    GiverIsFirst(cluster, Categorised, (b: Business) => b.category.Some?);
    GiverIsFirst(cluster, Addressed, (b: Business) => b.address.Some? && b.address.value != "");
  }

  lemma MakesSpanned(cluster: seq<Business>, merged: Business, best: real)
    requires forall b :: b in cluster ==> merged.firstSeen <= b.firstSeen && b.lastUpdated <= merged.lastUpdated
    requires exists b :: b in cluster && b.firstSeen == merged.firstSeen
    requires exists b :: b in cluster && b.lastUpdated == merged.lastUpdated
    requires forall b :: b in cluster ==> b.quality <= best
    requires exists b :: b in cluster && b.quality == best
    requires merged.quality == if !Several(merged.provenance) then best
                               else if best + 0.05 < 1.0 then best + 0.05 else 1.0
    ensures Spanned(cluster, merged)
  {
    hide Several;
  }

  /** `min(first_seen)`, `max(last_updated)` and `max(data_quality)` over the cluster. */
  method Spans(cluster: seq<Business>) returns (first: int, last: int, quality: real)
    requires |cluster| > 0
    ensures forall b :: b in cluster ==> first <= b.firstSeen && b.lastUpdated <= last && b.quality <= quality
    ensures exists b :: b in cluster && b.firstSeen == first
    ensures exists b :: b in cluster && b.lastUpdated == last
    ensures exists b :: b in cluster && b.quality == quality
  {
    first, last, quality := cluster[0].firstSeen, cluster[0].lastUpdated, cluster[0].quality;
    for k := 1 to |cluster|
      invariant forall b :: b in cluster[..k] ==> first <= b.firstSeen && b.lastUpdated <= last && b.quality <= quality
      invariant exists b :: b in cluster && b.firstSeen == first
      invariant exists b :: b in cluster && b.lastUpdated == last
      invariant exists b :: b in cluster && b.quality == quality
    {
      var b := cluster[k];
      assert cluster[..k + 1] == cluster[..k] + [b];
      if b.firstSeen < first { first := b.firstSeen; }
      if b.lastUpdated > last { last := b.lastUpdated; }
      if b.quality > quality { quality := b.quality; }
    }
    assert cluster[..|cluster|] == cluster;
  }

  // ---- the whole pass ----

  ghost predicate Observed(bs: seq<Business>, k: Key) {
    exists b :: b in bs && k in KeysOf(b.provenance)
  }

  lemma {:induction false} ClusterKeysAre(cluster: seq<Business>, k: Key)
    ensures k in ClusterKeys(cluster) <==> exists b :: b in cluster && k in KeysOf(b.provenance)
  {
    if cluster != [] {
      var most, last := cluster[..|cluster| - 1], cluster[|cluster| - 1];
      ClusterKeysAre(most, k);
      assert cluster == most + [last];
      KeysOfJoin(Flat(most), last.provenance);
    }
  }

  lemma KeysOfJoin(a: seq<Entry>, b: seq<Entry>)
    ensures KeysOf(a + b) == KeysOf(a) + KeysOf(b)
  {
  }

  lemma {:induction false} UnionMembers(clusters: Clusters, b: Business)
    ensures b in Union(clusters) <==> exists c :: 0 <= c < |clusters| && b in clusters[c]
  {
    if clusters != [] {
      UnionMembers(clusters[1..], b);
      if c :| 0 <= c < |clusters| && b in clusters[c] {
        if c > 0 { assert clusters[1..][c - 1] == clusters[c]; }
      }
      if b in Union(clusters[1..]) {
        var c :| 0 <= c < |clusters[1..]| && b in clusters[1..][c];
        assert clusters[c + 1] == clusters[1..][c];
      }
    }
  }

  /** A record alone holds its own observations only. */
  lemma SurvivorKeepsKeys(cluster: seq<Business>, s: Business)
    requires |cluster| > 0 && Survives(cluster, s)
    ensures KeysOf(s.provenance) == ClusterKeys(cluster)
  {
    hide Spanned, IsFirst, NoKeyTwice, FirstOfKey;
    if |cluster| == 1 {
      assert cluster[..0] == [] && Flat(cluster) == [] + s.provenance == s.provenance;
    }
  }

  method Survivors(clusters: Clusters) returns (survivors: seq<Business>)
    requires forall c :: c in clusters ==> |c| > 0
    ensures |survivors| == |clusters|
    ensures forall c :: 0 <= c < |clusters| ==> clusters[c] in clusters && Survives(clusters[c], survivors[c])
  {
    hide Merged;
    survivors := [];
    for c := 0 to |clusters|
      invariant |survivors| == c
      invariant forall i :: 0 <= i < c ==> clusters[i] in clusters && Survives(clusters[i], survivors[i])
    {
      assert clusters[c] in clusters;
      var survivor := clusters[c][0];
      if |clusters[c]| > 1 { survivor := Combine(clusters[c]); }
      survivors := survivors + [survivor];
    }
  }

  /** The first member has the best quality, and of those the lowest source id. */
  ghost predicate LedByBest(cluster: seq<Business>) {
    forall i :: 0 < i < |cluster| ==>
      cluster[0].quality > cluster[i].quality
      || (cluster[0].quality == cluster[i].quality && cluster[0].sourceId <= cluster[i].sourceId)
  }

  /** The members of a cluster stand in the order in which they were placed. */
  lemma {:induction false} ClustersAreSorted(m: Pairing, bs: seq<Business>)
    requires SortedBest(bs)
    ensures forall c :: c in PlaceAll(m, bs) ==> LedByBest(c) && forall b :: b in c ==> b in bs
    ensures forall c :: c in PlaceAll(m, bs) ==> |c| > 0
  {
    hide LedByBest, SortedBest;
    if bs != [] {
      var most, b := bs[..|bs| - 1], bs[|bs| - 1];
      SortedFront(bs);
      ClustersAreSorted(m, most);
      var clusters := PlaceAll(m, most);
      var at := PlaceShape(m, clusters, b);
      forall c | c in PlaceAll(m, bs) ensures LedByBest(c) && |c| > 0 && forall x :: x in c ==> x in bs {
        assert bs == most + [b];
        if at < |clusters| && c == clusters[at] + [b] {
          assert clusters[at] in clusters && clusters[at][0] in clusters[at];
          LaterIsNoBetter(bs, clusters[at][0]);
          StaysLed(clusters[at], b);
        } else if c == [b] {
          AloneIsLed(b);
        } else {
          assert c in clusters;
        }
      }
    }
  }

  lemma SortedFront(bs: seq<Business>)
    requires SortedBest(bs) && bs != []
    ensures SortedBest(bs[..|bs| - 1])
  {
    hide Better;
  }

  lemma LaterIsNoBetter(bs: seq<Business>, x: Business)
    requires SortedBest(bs) && bs != [] && x in bs[..|bs| - 1]
    ensures !Better(bs[|bs| - 1], x)
  {
    hide Better;
    var i :| 0 <= i < |bs| - 1 && bs[i] == x;
  }

  lemma StaysLed(cluster: seq<Business>, b: Business)
    requires |cluster| > 0 && LedByBest(cluster) && !Better(b, cluster[0])
    ensures LedByBest(cluster + [b])
  {
  }

  lemma AloneIsLed(b: Business)
    ensures LedByBest([b])
  {
  }

  /**
   `dedupe`: one surviving record per cluster, the record itself if it is alone and else the merger of its members onto
   the best one, together carrying exactly the observations that came in.
   */
  method Dedupe(m: Pairing, businesses: seq<Business>) returns (survivors: seq<Business>, merges: seq<MergeDecision>,
                                                                ghost clusters: Clusters)
    ensures clusters == PlaceAll(m, Ordered(businesses)) && |survivors| == |clusters|
    ensures forall c :: 0 <= c < |clusters| ==>
              |clusters[c]| > 0 && LedByBest(clusters[c]) && Survives(clusters[c], survivors[c])
    ensures Accounted(m, clusters, merges) && |merges| >= |businesses| - |survivors|
    ensures forall k :: Observed(survivors, k) <==> Observed(businesses, k)
  {
    hide *;
    var found;
    found, merges := Cluster(m, businesses);
    clusters := found;
    OrderedSorts(businesses);
    ClusteringIsSound(m, Ordered(businesses));
    ClustersAreSorted(m, Ordered(businesses));
    survivors := Survivors(found);
    forall c | 0 <= c < |clusters| ensures KeysOf(survivors[c].provenance) == ClusterKeys(clusters[c]) {
      SurvivorKeepsKeys(clusters[c], survivors[c]);
    }
    forall k ensures Observed(survivors, k) <==> Observed(businesses, k) {
      KeysAreConserved(businesses, found, survivors, k);
    }
  }

  lemma KeysAreConserved(businesses: seq<Business>, clusters: Clusters, survivors: seq<Business>, k: Key)
    requires Union(clusters) == multiset(businesses) && |survivors| == |clusters|
    requires forall c :: 0 <= c < |clusters| ==> KeysOf(survivors[c].provenance) == ClusterKeys(clusters[c])
    ensures Observed(survivors, k) <==> Observed(businesses, k)
  {
    if Observed(survivors, k) {
      var s :| s in survivors && k in KeysOf(s.provenance);
      var c :| 0 <= c < |survivors| && survivors[c] == s;
      ClusterKeysAre(clusters[c], k);
      var b :| b in clusters[c] && k in KeysOf(b.provenance);
      UnionMembers(clusters, b);
      assert b in multiset(businesses);
    }
    if Observed(businesses, k) {
      var b :| b in businesses && k in KeysOf(b.provenance);
      assert b in multiset(businesses);
      UnionMembers(clusters, b);
      var c :| 0 <= c < |clusters| && b in clusters[c];
      ClusterKeysAre(clusters[c], k);
      assert survivors[c] in survivors;
    }
  }

  // ---- pairs left for review ----

  /** `_collect_uncertain` over the representatives: exactly the cross-cluster pairs that are suggestive but do not match. */
  method CollectUncertain(m: Pairing, u: Pairing, reps: seq<Business>) returns (pairs: seq<(nat, nat)>)
    ensures forall i: nat, j: nat :: (i, j) in pairs <==> i < j < |reps| && !m(reps[i], reps[j]) && u(reps[i], reps[j])
    ensures forall k, l :: 0 <= k < l < |pairs| ==> pairs[k] != pairs[l]
  {
    pairs := [];
    for i := 0 to |reps|
      invariant forall p :: p in pairs <==>
                  p.0 < i && p.0 < p.1 < |reps| && !m(reps[p.0], reps[p.1]) && u(reps[p.0], reps[p.1])
      invariant forall k, l :: 0 <= k < l < |pairs| ==> pairs[k] != pairs[l]
    {
      for j := i + 1 to |reps|
        invariant forall p :: p in pairs <==>
                    && (p.0 < i || (p.0 == i && p.1 < j))
                    && p.0 < p.1 < |reps| && !m(reps[p.0], reps[p.1]) && u(reps[p.0], reps[p.1])
        invariant forall k, l :: 0 <= k < l < |pairs| ==> pairs[k] != pairs[l]
      {
        if !m(reps[i], reps[j]) && u(reps[i], reps[j]) {
          assert (i, j) !in pairs;
          pairs := pairs + [(i, j)];
        }
      }
    }
  }
}
