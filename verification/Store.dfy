/** The business store: one table of businesses, one of source observations pointing at their business. */
module Store {
  import opened Wrappers

  type Id = nat
  type Key = (int, int)

  datatype Entry = Entry(key: Key, retrievedAt: int)

  /** `detail` stands for the descriptive columns. */
  datatype Business = Business(id: Id, source: Key, lastUpdated: int, detail: int, provenance: seq<Entry>)

  datatype Row = Row(source: Key, lastUpdated: int, detail: int)

  datatype Record = Record(owner: Id, retrievedAt: int)

  /** The two tables; `(source, source_id)` is unique in the second. */
  datatype Tables = Tables(rows: map<Id, Row>, records: map<Key, Record>)

  const EMPTY := Tables(map[], map[])

  /** A business without provenance counts as its own observation. */
  function Entries(b: Business): (es: seq<Entry>)
    ensures |es| > 0
  {
    if b.provenance != [] then b.provenance else [Entry(b.source, b.lastUpdated)]
  }

  function RowOf(b: Business): Row {
    Row(b.source, b.lastUpdated, b.detail)
  }

  ghost predicate Mentions(es: seq<Entry>, k: Key) {
    exists e :: e in es && e.key == k
  }

  ghost predicate Owns(records: map<Key, Record>, id: Id) {
    exists k :: k in records && records[k].owner == id
  }

  /** No dangling observation, no business without one. */
  ghost predicate Consistent(t: Tables) {
    forall id :: id in t.rows <==> Owns(t.records, id)
  }

  // ---- what a save does to the observations ----

  function OwnedBy(records: map<Key, Record>, id: Id): set<Key> {
    set k | k in records && records[k].owner == id
  }

  function Claim(records: map<Key, Record>, id: Id, es: seq<Entry>): map<Key, Record> {
    if es == [] then records
    else Claim(records, id, es[..|es| - 1])[es[|es| - 1].key := Record(id, es[|es| - 1].retrievedAt)]
  }

  function Claimed(records: map<Key, Record>, b: Business): map<Key, Record> {
    Claim(records - OwnedBy(records, b.id), b.id, Entries(b))
  }

  lemma {:induction false} ClaimOwns(records: map<Key, Record>, id: Id, es: seq<Entry>, k: Key)
    ensures Mentions(es, k) ==> k in Claim(records, id, es) && Claim(records, id, es)[k].owner == id
    ensures !Mentions(es, k) ==> (k in Claim(records, id, es) <==> k in records)
                                 && (k in records ==> Claim(records, id, es)[k] == records[k])
  {
    if es != [] {
      var most, last := es[..|es| - 1], es[|es| - 1];
      ClaimOwns(records, id, most, k);
      assert es == most + [last];
      if last.key == k { assert last in es; }
    }
  }

  /** Drop this business's keys, then claim its entries: who holds `k` afterwards. */
  lemma ClaimedOwner(records: map<Key, Record>, b: Business, k: Key)
    ensures Mentions(Entries(b), k) ==> k in Claimed(records, b) && Claimed(records, b)[k].owner == b.id
    ensures !Mentions(Entries(b), k) ==>
              && (k in Claimed(records, b) <==> k in records && records[k].owner != b.id)
              && (k in Claimed(records, b) ==> Claimed(records, b)[k] == records[k])
  {
    ClaimOwns(records - OwnedBy(records, b.id), b.id, Entries(b), k);
  }

  /** What a save does to both tables. */
  ghost predicate Saved(t: Tables, b: Business, u: Tables) {
    && u.records == Claimed(t.records, b)
    && (forall id :: id in u.rows <==> id == b.id || (id in t.rows && Owns(u.records, id)))
    && forall id :: id in u.rows ==> u.rows[id] == if id == b.id then RowOf(b) else t.rows[id]
  }

  /** The key is one of the business's own: in its provenance, or its source if it has none. */
  ghost predicate Recorded(b: Business, k: Key) {
    if b.provenance == [] then k == b.source else exists i :: 0 <= i < |b.provenance| && b.provenance[i].key == k
  }

  /** The last entry for its key in the provenance. */
  ghost predicate LastFor(b: Business, i: nat) {
    i < |b.provenance| && forall j :: i < j < |b.provenance| ==> b.provenance[j].key != b.provenance[i].key
  }

  /**
   A save leaves the business with exactly its own keys, each with the time of the last entry for it, or with the time of
   the last update if there is no provenance; what others hold of the rest stays as it was.
   */
  lemma SaveClaimsProvenance(t: Tables, b: Business, u: Tables, k: Key)
    requires Saved(t, b, u)
    ensures k in u.records && u.records[k].owner == b.id <==> Recorded(b, k)
    ensures b.provenance == [] && k == b.source ==> k in u.records && u.records[k].retrievedAt == b.lastUpdated
    ensures forall i: nat :: LastFor(b, i) && b.provenance[i].key == k ==>
              k in u.records && u.records[k].retrievedAt == b.provenance[i].retrievedAt
    ensures !Recorded(b, k) ==>
              && (k in u.records <==> k in t.records && t.records[k].owner != b.id)
              && (k in u.records ==> u.records[k] == t.records[k])
  {
    ClaimedOwner(t.records, b, k);
    if b.provenance == [] {
      assert [Entry(b.source, b.lastUpdated)][..0] == [];
    } else {
      if i :| 0 <= i < |b.provenance| && b.provenance[i].key == k { assert b.provenance[i] in Entries(b); }
      forall i: nat | LastFor(b, i) && b.provenance[i].key == k
        ensures k in u.records && u.records[k].retrievedAt == b.provenance[i].retrievedAt
      {
        LastClaimCounts(t.records - OwnedBy(t.records, b.id), b.id, b.provenance, i);
      }
    }
  }

  lemma {:induction false} LastClaimCounts(records: map<Key, Record>, id: Id, es: seq<Entry>, i: nat)
    requires i < |es| && forall j :: i < j < |es| ==> es[j].key != es[i].key
    ensures es[i].key in Claim(records, id, es) && Claim(records, id, es)[es[i].key] == Record(id, es[i].retrievedAt)
  {
    if i < |es| - 1 { LastClaimCounts(records, id, es[..|es| - 1], i); }
  }

  lemma SaveKeepsConsistent(t: Tables, b: Business, u: Tables)
    requires Consistent(t) && Saved(t, b, u)
    ensures Consistent(u)
  {
    var e := Entries(b)[0];
    assert e in Entries(b);
    ClaimedOwner(t.records, b, e.key);
    assert Owns(u.records, b.id);
    forall id | id != b.id && Owns(u.records, id) ensures id in t.rows {
      var k :| k in u.records && u.records[k].owner == id;
      ClaimedOwner(t.records, b, k);
      assert Owns(t.records, id);
    }
  }

  // ---- the repository ----

  class Repository {
    var rows: map<Id, Row>
    var records: map<Key, Record>

    ghost function View(): Tables
      reads this
    {
      Tables(rows, records)
    }

    ghost predicate Valid()
      reads this
    {
      Consistent(View())
    }

    constructor ()
      ensures Valid() && View() == EMPTY
    {
      rows, records := map[], map[];
    }

    /**
     Rebuild this business's observations, reassigning any that another business owns, and drop the businesses
     that lost their last one.
     */
    method Upsert(b: Business)
      requires Valid()
      modifies this
      ensures Valid() && Saved(old(View()), b, View())
    {
      rows := rows[b.id := RowOf(b)];
      records := records - OwnedBy(records, b.id);
      var donors := ClaimEntries(b.id, Entries(b));
      DropEmptied(donors - {b.id}, b.id);
      OthersKeepTheirs(old(View()), b, donors);
      SaveKeepsConsistent(old(View()), b, View());
    }

    /** The loop over the entries: take each observation over or add it, remembering whom it was taken from. */
    method ClaimEntries(key: Id, entries: seq<Entry>) returns (donors: set<Id>)
      modifies this`records
      ensures records == Claim(old(records), key, entries)
      ensures forall id :: id in donors <==> Gives(old(records), key, entries, id)
    {
      donors := {};
      for n := 0 to |entries|
        invariant records == Claim(old(records), key, entries[..n])
        invariant forall id :: id in donors <==> Gives(old(records), key, entries[..n], id)
      {
        var e := entries[n];
        assert entries[..n + 1][..n] == entries[..n] && entries[..n + 1] == entries[..n] + [e];
        GivesMore(old(records), key, entries[..n], e);
        if e.key in records && records[e.key].owner != key {
          donors := donors + {records[e.key].owner};
        }
        records := records[e.key := Record(key, e.retrievedAt)];
      }
      assert entries[..|entries|] == entries;
    }

    /** `for donor_id in donor_ids - {key}`: delete the donor if it has no observation left. */
    method DropEmptied(donors: set<Id>, key: Id)
      requires key !in donors
      modifies this`rows
      ensures forall id :: id in rows <==> id in old(rows) && (id in donors ==> Owns(records, id))
      ensures forall id :: id in rows ==> rows[id] == old(rows)[id]
    {
      var rest := donors;
      while |rest| > 0
        invariant rest <= donors
        invariant forall id :: id in rows <==> id in old(rows) && (id in donors && id !in rest ==> Owns(records, id))
        invariant forall id :: id in rows ==> rows[id] == old(rows)[id]
        decreases rest
      {
        var donor: Id :| donor in rest;
        rest := rest - {donor};
        var remaining := OwnedBy(records, donor);
        if |remaining| == 0 {
          assert forall k :: k in records && records[k].owner == donor ==> k in remaining;
          rows := rows - {donor};
        } else {
          assert Owns(records, donor) by { var k :| k in remaining; }
        }
      }
    }

    method SaveBusinesses(businesses: seq<Business>)
      requires Valid()
      modifies this
      ensures Valid() && AllSaved(old(View()), businesses, View())
    {
      ghost var start := View();
      for n := 0 to |businesses|
        invariant Valid() && AllSaved(start, businesses[..n], View())
      {
        ghost var before := View();
        Upsert(businesses[n]);
        OneMoreSaved(start, businesses[..n], before, businesses[n], View());
        assert businesses[..n + 1] == businesses[..n] + [businesses[n]];
      }
      assert businesses[..|businesses|] == businesses;
    }
  }

  lemma MentionsMore(es: seq<Entry>, e: Entry)
    ensures forall k :: Mentions(es + [e], k) <==> Mentions(es, k) || k == e.key
  {
  }

  /** Another business loses an observation to these entries. */
  ghost predicate Gives(records: map<Key, Record>, key: Id, es: seq<Entry>, id: Id) {
    id != key && exists k :: k in records && records[k].owner == id && Mentions(es, k)
  }

  lemma GivesMore(records: map<Key, Record>, key: Id, es: seq<Entry>, e: Entry)
    ensures forall id :: Gives(records, key, es + [e], id) <==>
              Gives(records, key, es, id)
              || (e.key in Claim(records, key, es) && Claim(records, key, es)[e.key].owner == id != key)
  {
    MentionsMore(es, e);
    ClaimOwns(records, key, es, e.key);
    forall id | e.key in records && records[e.key].owner == id != key ensures Gives(records, key, es + [e], id) { }
  }

  /** A business that gave nothing away still owns what it owned. */
  lemma OthersKeepTheirs(t: Tables, b: Business, donors: set<Id>)
    requires Consistent(t)
    requires forall id :: id in donors <==> Gives(t.records - OwnedBy(t.records, b.id), b.id, Entries(b), id)
    ensures forall id :: id in t.rows && id != b.id && id !in donors ==> Owns(Claimed(t.records, b), id)
  {
    forall id | id in t.rows && id != b.id && id !in donors ensures Owns(Claimed(t.records, b), id) {
      var k :| k in t.records && t.records[k].owner == id;
      assert k in t.records - OwnedBy(t.records, b.id);
      ClaimedOwner(t.records, b, k);
    }
  }

  // ---- any sequence of saves ----

  ghost predicate AllSaved(t: Tables, bs: seq<Business>, u: Tables)
    decreases |bs|
  {
    if bs == [] then u == t
    else exists mid {:trigger Saved(mid, bs[|bs| - 1], u)} ::
           AllSaved(t, bs[..|bs| - 1], mid) && Saved(mid, bs[|bs| - 1], u)
  }

  lemma OneMoreSaved(t: Tables, bs: seq<Business>, mid: Tables, b: Business, u: Tables)
    requires AllSaved(t, bs, mid) && Saved(mid, b, u)
    ensures AllSaved(t, bs + [b], u)
  {
    assert (bs + [b])[..|bs + [b]| - 1] == bs && (bs + [b])[|bs + [b]| - 1] == b;
  }

  /** The plain ownership rule: the last save to mention a key owns it, until it saves again without it. */
  ghost function Owner(bs: seq<Business>, k: Key): Option<Id> {
    if bs == [] then None else
      var before, b := Owner(bs[..|bs| - 1], k), bs[|bs| - 1];
      if Mentions(Entries(b), k) then Some(b.id)
      else if before == Some(b.id) then None
      else before
  }

  ghost function LastSave(bs: seq<Business>, id: Id): Option<Business> {
    if bs == [] then None
    else if bs[|bs| - 1].id == id then Some(bs[|bs| - 1])
    else LastSave(bs[..|bs| - 1], id)
  }

  /** After any saves the tables are consistent and hold exactly the plain ownership map. */
  lemma {:induction false} TablesRefineOwnership(bs: seq<Business>, u: Tables, k: Key)
    requires AllSaved(EMPTY, bs, u)
    ensures Consistent(u)
    ensures k in u.records <==> Owner(bs, k).Some?
    ensures k in u.records ==> Some(u.records[k].owner) == Owner(bs, k)
    decreases |bs|
  {
    if bs != [] {
      var b := bs[|bs| - 1];
      var mid :| AllSaved(EMPTY, bs[..|bs| - 1], mid) && Saved(mid, b, u);
      TablesRefineOwnership(bs[..|bs| - 1], mid, k);
      SaveKeepsConsistent(mid, b, u);
      ClaimedOwner(mid.records, b, k);
    }
  }

  /** A business that is still there is as its last save described it. */
  lemma {:induction false} RowsAreLastSaves(bs: seq<Business>, u: Tables, id: Id)
    requires AllSaved(EMPTY, bs, u) && id in u.rows
    ensures LastSave(bs, id).Some?
    ensures var b, row := LastSave(bs, id).value, u.rows[id];
            row.source == b.source && row.lastUpdated == b.lastUpdated && row.detail == b.detail
    decreases |bs|
  {
    if bs != [] {
      var b := bs[|bs| - 1];
      var mid :| AllSaved(EMPTY, bs[..|bs| - 1], mid) && Saved(mid, b, u);
      if id != b.id { RowsAreLastSaves(bs[..|bs| - 1], mid, id); }
    }
  }

  /** Saving the same business twice in a row is saving it once. */
  lemma SaveIsIdempotent(t: Tables, b: Business, u: Tables, v: Tables)
    requires Consistent(t) && Saved(t, b, u) && Saved(u, b, v)
    ensures u == v
  {
    SaveKeepsConsistent(t, b, u);
    SaveKeepsConsistent(u, b, v);
    forall k ensures k in u.records <==> k in v.records { ClaimedOwner(t.records, b, k); ClaimedOwner(u.records, b, k); }
    forall k | k in u.records ensures u.records[k] == v.records[k] {
      ClaimedOwner(t.records, b, k);
      ClaimedOwner(u.records, b, k);
      if Mentions(Entries(b), k) {
        ClaimTime(t.records - OwnedBy(t.records, b.id), u.records - OwnedBy(u.records, b.id), b.id, Entries(b), k);
      }
    }
    assert u.records == v.records;
    forall id ensures id in u.rows <==> id in v.rows { assert id in u.rows <==> Owns(u.records, id); }
    assert v.rows.Keys == u.rows.Keys;
    forall id | id in u.rows ensures u.rows[id] == v.rows[id] { assert id in v.rows; }
    assert u.rows == v.rows;
  }

  lemma {:induction false} ClaimTime(r: map<Key, Record>, s: map<Key, Record>, id: Id, es: seq<Entry>, k: Key)
    requires Mentions(es, k)
    ensures k in Claim(r, id, es) && k in Claim(s, id, es) && Claim(r, id, es)[k] == Claim(s, id, es)[k]
  {
    var most, last := es[..|es| - 1], es[|es| - 1];
    if last.key != k {
      var e :| e in es && e.key == k;
      assert e in most by { assert es == most + [last]; }
      ClaimTime(r, s, id, most, k);
    }
  }
}
