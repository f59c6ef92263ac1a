/**
 The cumulative ledger of rejected rows: merging records, planning and applying the
 normalization of one region, and what the ledger holds after any number of applies.
 */
module RejectionLedger {
  import opened Wrappers
  import opened Sorting
  import opened WikidataQids

  datatype Identity = Identity(
    shard: string, table: string, identifier: string, wikidata: string, expected: Option<string>)

  datatype Record = Record(id: Identity, reason: string, cascaded: nat)

  const SUPPORTED_SOURCE_TABLES: set<string> := {"polygon_articles", "wikivoyage_documents"}

  predicate ValidRecord(r: Record, u: Unicode) {
    && r.id.shard != "" && r.id.identifier != "" && r.reason != ""
    && r.id.table in SUPPORTED_SOURCE_TABLES
    && QidsFromTag(r.id.wikidata, u) != []
    && (r.id.expected.Some? ==> QidsFromTag(r.id.expected.value, u) != [])
  }

  // What every recorded rejection must have.
  ghost predicate Complete(r: Record, u: Unicode) {
    && |r.id.shard| > 0 && |r.id.identifier| > 0 && |r.reason| > 0
    && (r.id.table == "polygon_articles" || r.id.table == "wikivoyage_documents")
    && (exists q :: q in QidsFromTag(r.id.wikidata, u))
    && (r.id.expected == None || exists q :: q in QidsFromTag(r.id.expected.value, u))
  }

  lemma ValidIsComplete(r: Record, u: Unicode)
    ensures ValidRecord(r, u) <==> Complete(r, u)
  {
    hide QidsFromTag;
    if ValidRecord(r, u) {
      assert QidsFromTag(r.id.wikidata, u)[0] in QidsFromTag(r.id.wikidata, u);
      assert r.id.expected.Some? ==>
          QidsFromTag(r.id.expected.value, u)[0] in QidsFromTag(r.id.expected.value, u);
    }
  }

  /******* Merging *******/

  function Max(a: nat, b: nat): nat {
    if a < b then b else a
  }

  function Raised(r: Record, cascaded: nat): Record {
    r.(cascaded := Max(r.cascaded, cascaded))
  }

  // The sort key leaves the expected QID out.
  predicate KeyLeq(a: Record, b: Record) {
    if a.id.shard != b.id.shard then TextLeq(a.id.shard, b.id.shard)
    else if a.id.table != b.id.table then TextLeq(a.id.table, b.id.table)
    else if a.id.identifier != b.id.identifier then TextLeq(a.id.identifier, b.id.identifier)
    else TextLeq(a.id.wikidata, b.id.wikidata)
  }

  predicate Holds(records: seq<Record>, id: Identity) {
    exists i :: 0 <= i < |records| && records[i].id == id
  }

  // A record joins the one of its identity, or goes to the end.
  function Absorb(out: seq<Record>, r: Record): seq<Record> {
    if Holds(out, r.id) then
      seq(|out|, i requires 0 <= i < |out| => if out[i].id == r.id then Raised(out[i], r.cascaded) else out[i])
    else out + [r]
  }

  function Folded(records: seq<Record>): seq<Record> {
    if records == [] then [] else Absorb(Folded(records[..|records| - 1]), records[|records| - 1])
  }

  function Merged(records: seq<Record>): seq<Record> {
    StableSort(Folded(records), KeyLeq)
  }

  /******* What merging gives *******/

  // The first record of an identity, with the largest cascade count of all of them.
  function Best(records: seq<Record>, id: Identity): Option<Record> {
    if records == [] then None
    else Combined(Best(records[..|records| - 1], id), BestOfOne(records[|records| - 1], id))
  }

  function BestOfOne(r: Record, id: Identity): Option<Record> {
    if r.id == id then Some(r) else None
  }

  function Combined(a: Option<Record>, b: Option<Record>): Option<Record> {
    if a.None? then b else if b.None? then a else Some(Raised(a.value, b.value.cascaded))
  }

  // Where an identity first occurs.
  function Rank(records: seq<Record>, id: Identity): nat {
    if records == [] then 0
    else if records[0].id == id then 0
    else 1 + Rank(records[1..], id)
  }

  lemma {:induction false} BestHolds(records: seq<Record>, id: Identity)
    ensures Best(records, id).Some? <==> Holds(records, id)
    ensures Best(records, id).Some? ==> Best(records, id).value.id == id
  {
    if records != [] {
      var front := records[..|records| - 1];
      BestHolds(front, id);
      if i :| 0 <= i < |front| && front[i].id == id {
        assert records[i].id == id;
      }
    }
  }

  // Exactly one record carries each identity's first reason and largest count.
  lemma {:induction false} BestIsFirstAndLargest(records: seq<Record>, i: nat)
    requires i < |records|
    ensures var b := Best(records, records[i].id);
            && b.Some? && records[i].cascaded <= b.value.cascaded
            && (exists j ::
                  0 <= j < |records| && records[j].id == records[i].id && records[j].cascaded == b.value.cascaded)
            && ((forall j | 0 <= j < i :: records[j].id != records[i].id) ==> b.value.reason == records[i].reason)
  {
    var front, last := records[..|records| - 1], records[|records| - 1];
    var id := records[i].id;
    BestHolds(front, id);
    if i < |front| {
      BestIsFirstAndLargest(front, i);
      var j :| 0 <= j < |front| && front[j].id == front[i].id && front[j].cascaded == Best(front, id).value.cascaded;
      assert records[j].cascaded == Best(front, id).value.cascaded;
    } else if j :| 0 <= j < |front| && front[j].id == id {
      assert records[j].id == id;
      BestIsFirstAndLargest(front, j);
      var k :| 0 <= k < |front| && front[k].id == front[j].id && front[k].cascaded == Best(front, id).value.cascaded;
      assert records[k].cascaded == Best(front, id).value.cascaded;
    }
  }

  lemma {:induction false} RankHolds(records: seq<Record>, id: Identity)
    ensures Rank(records, id) <= |records|
    ensures Holds(records, id) <==> Rank(records, id) < |records|
    ensures Holds(records, id) ==> records[Rank(records, id)].id == id
  {
    if records != [] && records[0].id != id {
      RankHolds(records[1..], id);
      if i :| 0 <= i < |records| && records[i].id == id {
        assert records[1..][i - 1].id == id;
      }
    }
  }

  lemma {:induction false} RankJoins(a: seq<Record>, b: seq<Record>, id: Identity)
    ensures Rank(a + b, id) == if Holds(a, id) then Rank(a, id) else |a| + Rank(b, id)
  {
    if a == [] {
      assert a + b == b;
    } else {
      assert (a + b)[1..] == a[1..] + b;
      RankJoins(a[1..], b, id);
      RankHolds(a, id);
      RankHolds(a[1..], id);
    }
  }

  lemma {:induction false} BestJoins(a: seq<Record>, b: seq<Record>, id: Identity)
    ensures Best(a + b, id) == Combined(Best(a, id), Best(b, id))
  {
    if b == [] {
      assert a + b == a;
    } else {
      assert (a + b)[..|a + b| - 1] == a + b[..|b| - 1];
      BestJoins(a, b[..|b| - 1], id);
    }
  }

  // One record for each identity, in the order of first occurrence.
  ghost predicate FoldOf(out: seq<Record>, records: seq<Record>) {
    && (forall m :: m in out <==> Best(records, m.id) == Some(m))
    && forall i, j | 0 <= i < j < |out| :: Rank(records, out[i].id) < Rank(records, out[j].id)
  }

  lemma {:induction false} FoldedHolds(records: seq<Record>)
    ensures FoldOf(Folded(records), records)
  {
    if records != [] {
      var front, last := records[..|records| - 1], records[|records| - 1];
      FoldedHolds(front);
      assert records == front + [last];
      AbsorbHolds(Folded(front), front, last);
    }
  }

  lemma HeldByFold(out: seq<Record>, records: seq<Record>, id: Identity)
    requires FoldOf(out, records)
    ensures Holds(out, id) <==> Holds(records, id)
    ensures forall i | 0 <= i < |out| :: Best(records, out[i].id) == Some(out[i])
  {
    BestHolds(records, id);
    assert forall i | 0 <= i < |out| :: out[i] in out;
    if Holds(records, id) {
      assert Best(records, id).value in out;
    }
  }

  lemma AbsorbHolds(out: seq<Record>, records: seq<Record>, r: Record)
    requires FoldOf(out, records)
    ensures FoldOf(Absorb(out, r), records + [r])
  {
    hide Best, Rank;
    var more := Absorb(out, r);
    HeldByFold(out, records, r.id);
    forall m
      ensures m in more <==> Best(records + [r], m.id) == Some(m)
    {
      BestJoins(records, [r], m.id);
      BestOne(r, m.id);
      AbsorbMember(out, records, r, m);
    }
    forall i, j | 0 <= i < j < |more|
      ensures Rank(records + [r], more[i].id) < Rank(records + [r], more[j].id)
    {
      RankJoins(records, [r], more[i].id);
      RankJoins(records, [r], more[j].id);
      HeldByFold(out, records, more[i].id);
      HeldByFold(out, records, more[j].id);
      RankHolds(records, more[i].id);
      assert out[i].id == more[i].id;
      assert j < |out| ==> out[j].id == more[j].id;
    }
  }

  lemma BestOne(r: Record, id: Identity)
    ensures Best([r], id) == BestOfOne(r, id)
  {
    assert [r][..0] == [];
  }

  lemma AbsorbMember(out: seq<Record>, records: seq<Record>, r: Record, m: Record)
    requires FoldOf(out, records)
    ensures m in Absorb(out, r) <==> Combined(Best(records, m.id), BestOfOne(r, m.id)) == Some(m)
  {
    hide Best;
    HeldByFold(out, records, r.id);
    BestHolds(records, m.id);
    if Holds(out, r.id) {
      RaisedMember(out, r, m);
      var k :| 0 <= k < |out| && out[k].id == r.id;
      assert Best(records, r.id) == Some(out[k]);
    }
  }

  // The members after a record joined the one of its identity.
  lemma RaisedMember(out: seq<Record>, r: Record, m: Record)
    requires Holds(out, r.id)
    ensures m.id != r.id ==> (m in Absorb(out, r) <==> m in out)
    ensures m.id == r.id ==>
              (m in Absorb(out, r) <==>
                  exists k :: 0 <= k < |out| && out[k].id == r.id && m == Raised(out[k], r.cascaded))
  {
    var more := Absorb(out, r);
    if m in more {
      var i :| 0 <= i < |more| && more[i] == m;
      assert out[i] in out;
    }
    if m.id != r.id && m in out {
      var i :| 0 <= i < |out| && out[i] == m;
      assert more[i] == m;
    }
    if k :| 0 <= k < |out| && out[k].id == r.id && m == Raised(out[k], r.cascaded) {
      assert more[k] == m;
    }
  }

  /******* The order of merged records *******/

  lemma KeysCompare(a: Record, b: Record)
    ensures KeyLeq(a, b) || KeyLeq(b, a)
    ensures KeyLeq(a, b) && KeyLeq(b, a) ==>
              a.id.shard == b.id.shard && a.id.table == b.id.table && a.id.identifier == b.id.identifier &&
                  a.id.wikidata == b.id.wikidata
  {
    hide TextLeq;
    TextsCompare(a.id.shard, b.id.shard);
    TextsCompare(a.id.table, b.id.table);
    TextsCompare(a.id.identifier, b.id.identifier);
    TextsCompare(a.id.wikidata, b.id.wikidata);
  }

  lemma KeysChain(a: Record, b: Record, c: Record)
    requires KeyLeq(a, b) && KeyLeq(b, c)
    ensures KeyLeq(a, c)
  {
    hide TextLeq;
    TextsChain(a.id.shard, b.id.shard, c.id.shard);
    TextsChain(a.id.table, b.id.table, c.id.table);
    TextsChain(a.id.identifier, b.id.identifier, c.id.identifier);
    TextsChain(a.id.wikidata, b.id.wikidata, c.id.wikidata);
    TextsCompare(a.id.shard, b.id.shard);
    TextsCompare(b.id.shard, c.id.shard);
    TextsCompare(a.id.table, b.id.table);
    TextsCompare(b.id.table, c.id.table);
    TextsCompare(a.id.identifier, b.id.identifier);
    TextsCompare(b.id.identifier, c.id.identifier);
  }

  lemma KeysAreOrdered()
    ensures TotalPreorder(KeyLeq)
  {
    forall a, b
      ensures KeyLeq(a, b) || KeyLeq(b, a)
    {
      KeysCompare(a, b);
    }
    forall a, b, c | KeyLeq(a, b) && KeyLeq(b, c)
      ensures KeyLeq(a, c)
    {
      KeysChain(a, b, c);
    }
  }

  // By region, table, identifier and QID.
  ghost predicate InKeyOrder(records: seq<Record>) {
    forall i, j | 0 <= i < j < |records| ::
      var a, b := records[i].id, records[j].id;
      && TextLeq(a.shard, b.shard)
      && (a.shard == b.shard ==> TextLeq(a.table, b.table))
      && (a.shard == b.shard && a.table == b.table ==> TextLeq(a.identifier, b.identifier))
      && (a.shard == b.shard && a.table == b.table && a.identifier == b.identifier ==> TextLeq(a.wikidata, b.wikidata))
  }

  lemma OrderedByKey(records: seq<Record>)
    ensures InKeyOrder(StableSort(records, KeyLeq))
  {
    var sorted := StableSort(records, KeyLeq);
    KeysAreOrdered();
    SortOrders(records, KeyLeq);
    forall i, j | 0 <= i < j < |sorted|
      ensures var a, b := sorted[i].id, sorted[j].id;
              && TextLeq(a.shard, b.shard)
              && (a.shard == b.shard ==> TextLeq(a.table, b.table))
              && (a.shard == b.shard && a.table == b.table ==> TextLeq(a.identifier, b.identifier))
              && (a.shard == b.shard && a.table == b.table && a.identifier == b.identifier ==>
                    TextLeq(a.wikidata, b.wikidata))
    {
      KeyLeqGives(sorted[i], sorted[j]);
    }
  }

  lemma KeyLeqGives(a: Record, b: Record)
    requires KeyLeq(a, b)
    ensures TextLeq(a.id.shard, b.id.shard)
    ensures a.id.shard == b.id.shard ==> TextLeq(a.id.table, b.id.table)
    ensures a.id.shard == b.id.shard && a.id.table == b.id.table ==> TextLeq(a.id.identifier, b.id.identifier)
    ensures a.id.shard == b.id.shard && a.id.table == b.id.table && a.id.identifier == b.id.identifier ==>
              TextLeq(a.id.wikidata, b.id.wikidata)
  {
    TextsCompare(a.id.shard, b.id.shard);
    TextsCompare(a.id.table, b.id.table);
    TextsCompare(a.id.identifier, b.id.identifier);
  }

  // By key, then by first occurrence.
  ghost predicate Earlier(records: seq<Record>, a: Record, b: Record) {
    KeyLeq(a, b) && (KeyLeq(b, a) ==> Rank(records, a.id) < Rank(records, b.id))
  }

  ghost function Before(records: seq<Record>): (Record, Record) -> bool {
    (a: Record, b: Record) => Earlier(records, a, b)
  }

  lemma BeforeIsAsymmetric(records: seq<Record>)
    ensures Asymmetric(Before(records))
  {
    forall a, b | Before(records)(a, b)
      ensures !Before(records)(b, a)
    {
      assert Earlier(records, a, b);
    }
  }

  // The merged records: one of each identity held, by key, ties by first occurrence.
  ghost predicate MergeOf(out: seq<Record>, records: seq<Record>) {
    (forall m :: m in out <==> Best(records, m.id) == Some(m)) && Ascends(out, Before(records))
  }

  lemma MergedHolds(records: seq<Record>)
    ensures MergeOf(Merged(records), records) && InKeyOrder(Merged(records))
  {
    OrderedByKey(Folded(records));
    hide InKeyOrder;
    var folded, rank := Folded(records), (m: Record) => Rank(records, m.id);
    FoldedHolds(records);
    KeysAreOrdered();
    SortKeeps(folded, KeyLeq);
    SortRanks(folded, KeyLeq, rank);
    var out := Merged(records);
    forall i, j | 0 <= i < j < |out|
      ensures Before(records)(out[i], out[j])
    {
      assert RankedBefore(out[i], out[j], KeyLeq, rank);
      assert Earlier(records, out[i], out[j]);
    }
  }

  /******* Merging in stages *******/

  // Ties broken alike by two lists.
  ghost predicate SameTies(r: seq<Record>, r': seq<Record>) {
    forall a: Record, b: Record | Holds(r, a.id) && Holds(r, b.id) && KeyLeq(a, b) && KeyLeq(b, a) ::
      Rank(r, a.id) < Rank(r, b.id) <==> Rank(r', a.id) < Rank(r', b.id)
  }

  lemma SameMerge(r: seq<Record>, r': seq<Record>)
    requires forall id :: Best(r, id) == Best(r', id)
    requires SameTies(r, r')
    ensures Merged(r) == Merged(r')
  {
    hide Rank, Best, KeyLeq, Merged;
    MergedHolds(r);
    MergedHolds(r');
    BeforeIsAsymmetric(r);
    var out, out' := Merged(r), Merged(r');
    assert SameElements(out, out');
    forall i, j | 0 <= i < j < |out'|
      ensures Before(r)(out'[i], out'[j])
    {
      var a, b := out'[i], out'[j];
      assert Before(r')(a, b);
      assert Earlier(r', a, b);
      assert a in out' && b in out';
      BestHolds(r, a.id);
      BestHolds(r, b.id);
    }
    AscendingIsUnique(out, out', Before(r));
  }

  lemma {:induction false} BestOfDistinct(records: seq<Record>, m: Record)
    requires forall i, j | 0 <= i < j < |records| :: records[i].id != records[j].id
    ensures m in records ==> Best(records, m.id) == Some(m)
  {
    if m in records {
      var front, last := records[..|records| - 1], records[|records| - 1];
      BestHolds(front, last.id);
      BestOfDistinct(front, m);
      assert records == front + [last];
    }
  }

  lemma MergedIsDistinct(records: seq<Record>)
    ensures forall i, j | 0 <= i < j < |Merged(records)| :: Merged(records)[i].id != Merged(records)[j].id
  {
    var out := Merged(records);
    MergedHolds(records);
    BeforeIsAsymmetric(records);
    forall i, j | 0 <= i < j < |out|
      ensures out[i].id != out[j].id
    {
      assert out[i] in out && out[j] in out;
      assert Before(records)(out[i], out[j]);
      assert Earlier(records, out[i], out[j]);
    }
  }

  // A merged list speaks for the list it was merged from.
  lemma BestOfMerged(records: seq<Record>, id: Identity)
    ensures Best(Merged(records), id) == Best(records, id)
  {
    var out := Merged(records);
    MergedHolds(records);
    MergedIsDistinct(records);
    BestHolds(records, id);
    BestHolds(out, id);
    assert forall i | 0 <= i < |out| :: out[i] in out;
    if Best(records, id).Some? {
      BestOfDistinct(out, Best(records, id).value);
    }
  }

  lemma HeldByMerged(records: seq<Record>, id: Identity)
    ensures Holds(Merged(records), id) <==> Holds(records, id)
  {
    BestOfMerged(records, id);
    BestHolds(records, id);
    BestHolds(Merged(records), id);
  }

  // Merging breaks ties as before.
  lemma TiesOfMerged(records: seq<Record>, a: Record, b: Record)
    requires Holds(records, a.id) && Holds(records, b.id) && KeyLeq(a, b) && KeyLeq(b, a)
    ensures Rank(records, a.id) < Rank(records, b.id) <==> Rank(Merged(records), a.id) < Rank(Merged(records), b.id)
  {
    hide KeyLeq;
    var out := Merged(records);
    HeldByMerged(records, a.id);
    HeldByMerged(records, b.id);
    RankHolds(out, a.id);
    RankHolds(out, b.id);
    RankHolds(records, a.id);
    RankHolds(records, b.id);
    TieAscends(records, Rank(out, a.id), Rank(out, b.id), a, b);
    TieAscends(records, Rank(out, b.id), Rank(out, a.id), b, a);
    if Rank(out, a.id) == Rank(out, b.id) {
      assert a.id == b.id;
    }
  }

  lemma TieAscends(records: seq<Record>, i: nat, j: nat, a: Record, b: Record)
    requires i < |Merged(records)| && j < |Merged(records)|
    requires Merged(records)[i].id == a.id && Merged(records)[j].id == b.id && KeyLeq(a, b) && KeyLeq(b, a)
    ensures i < j ==> Rank(records, a.id) < Rank(records, b.id)
  {
    if i < j {
      MergedHolds(records);
      assert Before(records)(Merged(records)[i], Merged(records)[j]);
      assert Earlier(records, Merged(records)[i], Merged(records)[j]);
    }
  }

  function Around(first: seq<Record>, middle: seq<Record>, last: seq<Record>): seq<Record> {
    first + middle + last
  }

  // Merging any part first changes nothing, order included.
  lemma MergeInStages(first: seq<Record>, middle: seq<Record>, last: seq<Record>)
    ensures Merged(Around(first, Merged(middle), last)) == Merged(Around(first, middle, last))
  {
    hide Merged, KeyLeq;
    var r, r' := Around(first, middle, last), Around(first, Merged(middle), last);
    forall id
      ensures Best(r, id) == Best(r', id)
    {
      BestAround(first, middle, last, id);
      BestAround(first, Merged(middle), last, id);
      BestOfMerged(middle, id);
    }
    forall a: Record, b: Record | Holds(r, a.id) && Holds(r, b.id) && KeyLeq(a, b) && KeyLeq(b, a)
      ensures Rank(r, a.id) < Rank(r, b.id) <==> Rank(r', a.id) < Rank(r', b.id)
    {
      TiesAround(first, middle, last, a, b);
    }
    SameMerge(r, r');
  }

  lemma BestAround(first: seq<Record>, middle: seq<Record>, last: seq<Record>, id: Identity)
    ensures Best(Around(first, middle, last), id)
         == Combined(Combined(Best(first, id), Best(middle, id)), Best(last, id))
  {
    BestJoins(first + middle, last, id);
    BestJoins(first, middle, id);
  }

  lemma RankAround(first: seq<Record>, middle: seq<Record>, last: seq<Record>, id: Identity)
    ensures Rank(Around(first, middle, last), id) ==
              if Holds(first, id) then Rank(first, id)
              else if Holds(middle, id) then |first| + Rank(middle, id)
              else |first| + |middle| + Rank(last, id)
  {
    RankJoins(first + middle, last, id);
    RankJoins(first, middle, id);
    BestJoins(first, middle, id);
    BestHolds(first, id);
    BestHolds(middle, id);
    BestHolds(first + middle, id);
  }

  lemma TiesAround(first: seq<Record>, middle: seq<Record>, last: seq<Record>, a: Record, b: Record)
    requires KeyLeq(a, b) && KeyLeq(b, a)
    ensures var r, r' := Around(first, middle, last), Around(first, Merged(middle), last);
            Rank(r, a.id) < Rank(r, b.id) <==> Rank(r', a.id) < Rank(r', b.id)
  {
    hide KeyLeq, Merged, Rank;
    RankAround(first, middle, last, a.id);
    RankAround(first, middle, last, b.id);
    RankAround(first, Merged(middle), last, a.id);
    RankAround(first, Merged(middle), last, b.id);
    HeldByMerged(middle, a.id);
    HeldByMerged(middle, b.id);
    RankHolds(first, a.id);
    RankHolds(first, b.id);
    RankHolds(middle, a.id);
    RankHolds(middle, b.id);
    RankHolds(Merged(middle), a.id);
    RankHolds(Merged(middle), b.id);
    if Holds(middle, a.id) && Holds(middle, b.id) {
      TiesOfMerged(middle, a, b);
    }
  }

  lemma MergedIsOrdered(records: seq<Record>)
    ensures Ordered(Merged(records), KeyLeq) && StableSort(Merged(records), KeyLeq) == Merged(records)
  {
    KeysAreOrdered();
    SortOrders(Folded(records), KeyLeq);
    SortLeavesOrdered(Merged(records), KeyLeq);
  }

  // The dictionary the code merges through, its keys in order of insertion.
  ghost predicate Dictionary(byIdentity: map<Identity, Record>, keys: seq<Identity>, values: seq<Record>) {
    && |keys| == |values| && NoDuplicates(keys)
    && (forall j | 0 <= j < |keys| ::
        keys[j] in byIdentity && byIdentity[keys[j]] == values[j] && keys[j] == values[j].id)
    && forall id | id in byIdentity :: id in keys
  }

  lemma HeldByDictionary(byIdentity: map<Identity, Record>, keys: seq<Identity>, values: seq<Record>, id: Identity)
    requires Dictionary(byIdentity, keys, values)
    ensures id in byIdentity <==> Holds(values, id)
  {
    if id in byIdentity {
      var j :| 0 <= j < |keys| && keys[j] == id;
      assert values[j].id == id;
    }
  }

  method MergeRecord(byIdentity: map<Identity, Record>, keys: seq<Identity>, ghost values: seq<Record>, record: Record)
    returns (byIdentity': map<Identity, Record>, keys': seq<Identity>)
    requires Dictionary(byIdentity, keys, values)
    ensures Dictionary(byIdentity', keys', Absorb(values, record))
  {
    HeldByDictionary(byIdentity, keys, values, record.id);
    if record.id !in byIdentity {
      return byIdentity[record.id := record], keys + [record.id];
    }
    var merged := Raised(byIdentity[record.id], record.cascaded);
    return byIdentity[record.id := merged], keys;
  }

  method MergeRecords(records: seq<Record>) returns (merged: seq<Record>)
    ensures merged == Merged(records) && MergeOf(merged, records) && InKeyOrder(merged)
  {
    hide Dictionary, Absorb, MergeOf, InKeyOrder;
    var byIdentity: map<Identity, Record> := map[];
    var keys: seq<Identity> := [];
    EmptyDictionary();
    for i := 0 to |records|
      invariant Dictionary(byIdentity, keys, Folded(records[..i]))
    {
      assert records[..i + 1][..i] == records[..i];
      byIdentity, keys := MergeRecord(byIdentity, keys, Folded(records[..i]), records[i]);
    }
    assert records[..|records|] == records;
    DictionaryValues(byIdentity, keys, Folded(records));
    merged := StableSort(Values(byIdentity, keys), KeyLeq);
    MergedHolds(records);
  }

  lemma EmptyDictionary()
    ensures Dictionary(map[], [], [])
  {}

  function Values(byIdentity: map<Identity, Record>, keys: seq<Identity>): seq<Record>
    requires forall j | 0 <= j < |keys| :: keys[j] in byIdentity
  {
    seq(|keys|, j requires 0 <= j < |keys| => byIdentity[keys[j]])
  }

  lemma DictionaryValues(byIdentity: map<Identity, Record>, keys: seq<Identity>, values: seq<Record>)
    requires Dictionary(byIdentity, keys, values)
    ensures forall j | 0 <= j < |keys| :: keys[j] in byIdentity
    ensures Values(byIdentity, keys) == values
  {}

  /******* Planning *******/

  datatype DocumentRow = DocumentRow(documentId: string, wikidata: string, rest: string)

  datatype SectionRow = SectionRow(documentId: string, rest: string)

  datatype Plan = Plan(stem: string, documents: seq<DocumentRow>, sections: seq<SectionRow>, rejections: seq<Record>)

  datatype IntegrityError = PolygonsMissing | DocumentsMissing | InvalidRecord(r: Record)
      | InvalidLedger(version: string)

  const SOURCE_TABLE := "wikivoyage_documents"
  const REASON := "wikidata_absent_from_polygons"

  function ValidQids(tags: seq<string>, u: Unicode): set<string> {
    set tag, q | tag in tags && q in QidsFromTag(tag, u) :: q
  }

  function KeptDocuments(rows: seq<DocumentRow>, valid: set<string>, k: nat): seq<DocumentRow>
    requires k <= |rows|
  {
    if k == 0 then []
    else KeptDocuments(rows, valid, k - 1) + if rows[k - 1].wikidata in valid then [rows[k - 1]] else []
  }

  function RejectedDocuments(rows: seq<DocumentRow>, valid: set<string>, k: nat): seq<DocumentRow>
    requires k <= |rows|
  {
    if k == 0 then []
    else RejectedDocuments(rows, valid, k - 1) + if rows[k - 1].wikidata in valid then [] else [rows[k - 1]]
  }

  function IdsOf(rows: seq<DocumentRow>): set<string> {
    set d | d in rows :: d.documentId
  }

  function KeptSections(rows: seq<SectionRow>, rejected: set<string>, k: nat): seq<SectionRow>
    requires k <= |rows|
  {
    if k == 0 then []
    else KeptSections(rows, rejected, k - 1) + if rows[k - 1].documentId in rejected then [] else [rows[k - 1]]
  }

  function SectionsOf(rows: seq<SectionRow>, documentId: string, k: nat): nat
    requires k <= |rows|
  {
    if k == 0 then 0
    else SectionsOf(rows, documentId, k - 1) + if rows[k - 1].documentId == documentId then 1 else 0
  }

  function Rejection(stem: string, d: DocumentRow, cascaded: nat): Record {
    Record(Identity(stem, SOURCE_TABLE, d.documentId, d.wikidata, None), REASON, cascaded)
  }

  function Rejections(stem: string, rejected: seq<DocumentRow>, sections: seq<SectionRow>): seq<Record> {
    seq(|rejected|, i requires 0 <= i < |rejected| =>
      Rejection(stem, rejected[i], SectionsOf(sections, rejected[i].documentId, |sections|)))
  }

  // Drops the documents whose QID no polygon has, and with them their sections.
  function PlanOf(stem: string, tags: seq<string>, documents: seq<DocumentRow>, sections: seq<SectionRow>,
                  u: Unicode): Plan
  {
    var valid := ValidQids(tags, u);
    var rejected := RejectedDocuments(documents, valid, |documents|);
    Plan(
      stem, KeptDocuments(documents, valid, |documents|), KeptSections(sections, IdsOf(rejected), |sections|),
      Merged(Rejections(stem, rejected, sections)))
  }

  // Every rejection can be recorded.
  ghost predicate Recordable(stem: string, rejected: seq<DocumentRow>, u: Unicode) {
    rejected != [] ==>
      stem != ""
      && forall d | d in rejected :: d.documentId != "" && exists q :: q in QidsFromTag(d.wikidata, u)
  }

  lemma RecordableIs(stem: string, d: DocumentRow, u: Unicode)
    ensures ValidRecord(Rejection(stem, d, 0), u) <==>
              stem != "" && d.documentId != "" && exists q :: q in QidsFromTag(d.wikidata, u)
  {
    hide QidsFromTag;
    ValidIsComplete(Rejection(stem, d, 0), u);
  }

  // What is recorded of a rejected document.
  ghost predicate Records(r: Record, stem: string, d: DocumentRow, sections: seq<SectionRow>) {
    && r.id.shard == stem && r.id.table == "wikivoyage_documents" && r.id.identifier == d.documentId
    && r.id.wikidata == d.wikidata && r.id.expected == None && r.reason == "wikidata_absent_from_polygons"
    && r.cascaded == SectionsOf(sections, d.documentId, |sections|)
  }

  lemma {:induction false} KeptAreValid(rows: seq<DocumentRow>, valid: set<string>, k: nat)
    requires k <= |rows|
    ensures forall d :: d in KeptDocuments(rows, valid, k) <==> d in rows[..k] && d.wikidata in valid
  {
    if k > 0 {
      KeptAreValid(rows, valid, k - 1);
      assert rows[..k] == rows[..k - 1] + [rows[k - 1]];
    }
  }

  lemma {:induction false} AllKept(rows: seq<DocumentRow>, valid: set<string>, k: nat)
    requires k <= |rows| && forall d | d in rows :: d.wikidata in valid
    ensures KeptDocuments(rows, valid, k) == rows[..k] && RejectedDocuments(rows, valid, k) == []
  {
    if k > 0 {
      AllKept(rows, valid, k - 1);
      assert rows[..k] == rows[..k - 1] + [rows[k - 1]];
    }
  }

  lemma {:induction false} AllSectionsKept(rows: seq<SectionRow>, k: nat)
    requires k <= |rows|
    ensures KeptSections(rows, {}, k) == rows[..k]
  {
    if k > 0 {
      AllSectionsKept(rows, k - 1);
      assert rows[..k] == rows[..k - 1] + [rows[k - 1]];
    }
  }

  // Planning over what a plan retains rejects nothing and retains it all.
  lemma PlanAgain(stem: string, tags: seq<string>, documents: seq<DocumentRow>, sections: seq<SectionRow>, u: Unicode)
    ensures var plan := PlanOf(stem, tags, documents, sections, u);
            && RejectedDocuments(plan.documents, ValidQids(tags, u), |plan.documents|) == []
            && PlanOf(stem, tags, plan.documents, plan.sections, u) == plan.(rejections := [])
  {
    var plan, valid := PlanOf(stem, tags, documents, sections, u), ValidQids(tags, u);
    KeptAreValid(documents, valid, |documents|);
    AllKept(plan.documents, valid, |plan.documents|);
    assert plan.documents[..|plan.documents|] == plan.documents;
    AllSectionsKept(plan.sections, |plan.sections|);
    assert plan.sections[..|plan.sections|] == plan.sections;
    assert IdsOf([]) == {};
    assert Rejections(stem, [], plan.sections) == [];
    assert Merged([]) == [];
  }

  /******* The ledger files *******/

  datatype LedgerFile = LedgerFile(version: string, records: seq<Record>)

  type Ledgers = map<string, LedgerFile>

  const LEDGER_CONTRACT_VERSION := "rejection-ledger-v1"

  // The cumulative ledger is the file of this name; a region's own ledger is named
  // after its stem.
  const LEDGER_NAME := "rejection_ledger"

  function Saved(records: seq<Record>): LedgerFile {
    LedgerFile(LEDGER_CONTRACT_VERSION, StableSort(records, KeyLeq))
  }

  ghost predicate Loadable(f: LedgerFile, u: Unicode) {
    f.version == "rejection-ledger-v1" && forall r | r in f.records :: Complete(r, u)
  }

  // A ledger file with these records, by key.
  ghost predicate Stores(f: LedgerFile, records: seq<Record>) {
    f.version == "rejection-ledger-v1" && multiset(f.records) == multiset(records) && InKeyOrder(f.records)
  }

  lemma SavedStores(records: seq<Record>)
    ensures Stores(Saved(records), records)
  {
    hide InKeyOrder;
    SortKeeps(records, KeyLeq);
    OrderedByKey(records);
  }

  function Cumulative(ledgers: Ledgers): seq<Record> {
    if LEDGER_NAME in ledgers then ledgers[LEDGER_NAME].records else []
  }

  // A region's ledger is written first; then it and the cumulative one are merged.
  function WithOwn(ledgers: Ledgers, stem: string, rejections: seq<Record>): Ledgers {
    ledgers[stem := Saved(rejections)]
  }

  function LedgersAfter(ledgers: Ledgers, stem: string, rejections: seq<Record>): Ledgers {
    var own := WithOwn(ledgers, stem, rejections);
    own[LEDGER_NAME := Saved(Merged(own[stem].records + Cumulative(own)))]
  }

  // The region's new rejections and everything recorded before, merged; unless the
  // region bears the ledger's own name, when its file replaces the history.
  lemma CumulativeAfter(ledgers: Ledgers, stem: string, rejections: seq<Record>)
    ensures stem != LEDGER_NAME && Ordered(rejections, KeyLeq) ==>
              Cumulative(LedgersAfter(ledgers, stem, rejections)) == Merged(rejections + Cumulative(ledgers))
    ensures stem == LEDGER_NAME && Ordered(rejections, KeyLeq) ==>
              Cumulative(LedgersAfter(ledgers, stem, rejections)) == Merged(rejections)
  {
    var own := WithOwn(ledgers, stem, rejections);
    MergedIsOrdered(own[stem].records + Cumulative(own));
    if Ordered(rejections, KeyLeq) {
      SortLeavesOrdered(rejections, KeyLeq);
      if stem == LEDGER_NAME {
        MergedTwice(rejections);
      }
    }
  }

  lemma MergedTwice(records: seq<Record>)
    ensures Merged(records + records) == Merged(records)
  {
    forall id
      ensures Best(records + records, id) == Best(records, id)
    {
      BestJoins(records, records, id);
    }
    forall a: Record, b: Record | Holds(records + records, a.id) && Holds(records + records, b.id)
      ensures Rank(records + records, a.id) < Rank(records + records, b.id) <==>
                Rank(records, a.id) < Rank(records, b.id)
    {
      RankJoins(records, records, a.id);
      RankJoins(records, records, b.id);
      BestHolds(records, a.id);
      BestHolds(records, b.id);
      BestHolds(records + records, a.id);
      BestHolds(records + records, b.id);
    }
    SameMerge(records + records, records);
  }

  // A concrete loss: a region named like the ledger, with nothing rejected, empties it.
  lemma NamesakeErasesHistory(r: Record)
    ensures var ledgers: Ledgers := map[LEDGER_NAME := LedgerFile(LEDGER_CONTRACT_VERSION, [r])];
            Cumulative(LedgersAfter(ledgers, LEDGER_NAME, [])) == []
  {
    var ledgers: Ledgers := map[LEDGER_NAME := LedgerFile(LEDGER_CONTRACT_VERSION, [r])];
    CumulativeAfter(ledgers, LEDGER_NAME, []);
  }

  ghost predicate KeepsHistory(ledgers: Ledgers, stem: string, rejections: seq<Record>) {
    Cumulative(LedgersAfter(ledgers, stem, rejections)) == Merged(rejections + Cumulative(ledgers))
  }

  lemma NamesakeLosesHistory(r: Record) returns (ledgers: Ledgers)
    ensures !KeepsHistory(ledgers, LEDGER_NAME, [])
  {
    ledgers := map[LEDGER_NAME := LedgerFile(LEDGER_CONTRACT_VERSION, [r])];
    NamesakeErasesHistory(r);
    hide KeyLeq, LedgersAfter, Merged;
    assert [] + [r] == [r];
    OneIsMerged(r);
  }

  lemma OneIsMerged(r: Record)
    ensures Merged([r]) != []
  {
    hide KeyLeq;
    assert Folded([r][..0]) == [];
    SortKeeps(Folded([r]), KeyLeq);
  }

  lemma OthersKeepHistory(ledgers: Ledgers, stem: string, rejections: seq<Record>)
    requires stem != LEDGER_NAME && Ordered(rejections, KeyLeq)
    ensures KeepsHistory(ledgers, stem, rejections)
  {
    hide KeyLeq, LedgersAfter, Merged;
    CumulativeAfter(ledgers, stem, rejections);
  }

  // Whatever was recorded before and is rejected now, applying a plan keeps the history:
  // exactly for the regions not named like the ledger.
  lemma HistoryIsKept(stem: string)
    ensures stem != LEDGER_NAME
       <==> forall ledgers: Ledgers, rejections | Ordered(rejections, KeyLeq) :: KeepsHistory(ledgers, stem, rejections)
  {
    hide KeyLeq, KeepsHistory;
    if stem == LEDGER_NAME {
      var r: Record := *;
      var ledgers := NamesakeLosesHistory(r);
      assert Ordered<Record>([], KeyLeq);
    } else {
      forall ledgers: Ledgers, rejections | Ordered(rejections, KeyLeq)
        ensures KeepsHistory(ledgers, stem, rejections)
      {
        OthersKeepHistory(ledgers, stem, rejections);
      }
    }
  }

  /******* Any number of applies *******/

  datatype Applied = Applied(stem: string, rejections: seq<Record>)

  ghost predicate Applies(before: Ledgers, a: Applied, after: Ledgers) {
    a.stem != LEDGER_NAME && Ordered(a.rejections, KeyLeq) && after == LedgersAfter(before, a.stem, a.rejections)
  }

  // Everything rejected so far, the latest first.
  function Rejected(applies: seq<Applied>, k: nat): seq<Record>
    requires k <= |applies|
  {
    if k == 0 then [] else applies[k - 1].rejections + Rejected(applies, k - 1)
  }

  // After any number of applies the cumulative ledger is the merge of every rejection
  // ever planned and of what the ledger held to begin with.
  lemma {:induction false} CumulativeIsHistory(history: seq<Ledgers>, applies: seq<Applied>, k: nat)
    requires |history| == |applies| + 1 && 0 < k <= |applies|
    requires forall i | 0 <= i < |applies| :: Applies(history[i], applies[i], history[i + 1])
    ensures Cumulative(history[k]) == Merged(Rejected(applies, k) + Cumulative(history[0]))
  {
    hide Merged, LedgersAfter, Cumulative, KeyLeq;
    var a, c0 := applies[k - 1], Cumulative(history[0]);
    assert Applies(history[k - 1], a, history[k]);
    CumulativeAfter(history[k - 1], a.stem, a.rejections);
    var earlier := Rejected(applies, k - 1) + c0;
    assert Rejected(applies, k) + c0 == a.rejections + earlier;
    if k == 1 {
      assert earlier == c0;
    } else {
      CumulativeIsHistory(history, applies, k - 1);
      MergeInStages(a.rejections, earlier, []);
      assert Around(a.rejections, Merged(earlier), []) == a.rejections + Merged(earlier);
      assert Around(a.rejections, earlier, []) == a.rejections + earlier;
    }
  }

  // One record for every identity ever rejected, with the largest count seen.
  lemma CumulativeHoldsAll(history: seq<Ledgers>, applies: seq<Applied>, k: nat, i: nat)
    requires |history| == |applies| + 1 && 0 < k <= |applies|
    requires forall i | 0 <= i < |applies| :: Applies(history[i], applies[i], history[i + 1])
    requires i < |Rejected(applies, k) + Cumulative(history[0])|
    ensures var r := (Rejected(applies, k) + Cumulative(history[0]))[i];
            && Holds(Cumulative(history[k]), r.id)
            && forall m | m in Cumulative(history[k]) && m.id == r.id :: r.cascaded <= m.cascaded
    ensures forall a, b | 0 <= a < b < |Cumulative(history[k])| ::
              Cumulative(history[k])[a].id != Cumulative(history[k])[b].id
    ensures forall m | m in Cumulative(history[k]) :: Holds(Rejected(applies, k) + Cumulative(history[0]), m.id)
  {
    var all := Rejected(applies, k) + Cumulative(history[0]);
    CumulativeIsHistory(history, applies, k);
    MergedHolds(all);
    MergedIsDistinct(all);
    BestIsFirstAndLargest(all, i);
    HeldByMerged(all, all[i].id);
    forall m | m in Merged(all)
      ensures Holds(all, m.id)
    {
      BestHolds(all, m.id);
    }
  }

  // Applying to a region already normalized changes nothing in the cumulative ledger.
  lemma NothingMoreRejected(before: Ledgers, a: Applied, stem: string)
    requires a.stem != LEDGER_NAME && stem != LEDGER_NAME && Ordered(a.rejections, KeyLeq)
    ensures var after := LedgersAfter(before, a.stem, a.rejections);
            Cumulative(LedgersAfter(after, stem, [])) == Cumulative(after)
  {
    hide Merged, LedgersAfter, Cumulative, KeyLeq;
    var after := LedgersAfter(before, a.stem, a.rejections);
    CumulativeAfter(before, a.stem, a.rejections);
    CumulativeAfter(after, stem, []);
    var all := a.rejections + Cumulative(before);
    MergeInStages([], all, []);
    assert Around([], Merged(all), []) == [] + Merged(all) == Merged(all);
    assert Around([], all, []) == all;
  }

  /******* The stages *******/

  method PartitionDocuments(rows: seq<DocumentRow>, valid: set<string>)
    returns (kept: seq<DocumentRow>, rejected: seq<DocumentRow>)
    ensures kept == KeptDocuments(rows, valid, |rows|) && rejected == RejectedDocuments(rows, valid, |rows|)
  {
    kept, rejected := [], [];
    for i := 0 to |rows|
      invariant kept == KeptDocuments(rows, valid, i) && rejected == RejectedDocuments(rows, valid, i)
    {
      if rows[i].wikidata in valid {
        kept := kept + [rows[i]];
      } else {
        rejected := rejected + [rows[i]];
      }
    }
  }

  method RetainSections(rows: seq<SectionRow>, rejected: set<string>)
    returns (kept: seq<SectionRow>, cascades: map<string, nat>)
    ensures kept == KeptSections(rows, rejected, |rows|)
    ensures forall id | id in rejected ::
              (if id in cascades then cascades[id] else 0) == SectionsOf(rows, id, |rows|)
  {
    kept, cascades := [], map[];
    for i := 0 to |rows|
      invariant kept == KeptSections(rows, rejected, i)
      invariant forall id | id in rejected ::
                  (if id in cascades then cascades[id] else 0) == SectionsOf(rows, id, i)
    {
      var id := rows[i].documentId;
      if id in rejected {
        cascades := cascades[id := (if id in cascades then cascades[id] else 0) + 1];
      } else {
        kept := kept + [rows[i]];
      }
    }
  }

  // Rejection records for the rejected rows, each with its section count.
  method RecordRejections(stem: string, rejected: seq<DocumentRow>, sections: seq<SectionRow>,
                          cascades: map<string, nat>, u: Unicode)
    returns (r: Result<seq<Record>, IntegrityError>)
    requires forall id | id in IdsOf(rejected) ::
               (if id in cascades then cascades[id] else 0) == SectionsOf(sections, id, |sections|)
    ensures r.Success? <==> Recordable(stem, rejected, u)
    ensures r.Success? ==> r.value == Rejections(stem, rejected, sections)
    ensures r.Success? ==> forall i | 0 <= i < |rejected| :: Records(r.value[i], stem, rejected[i], sections)
  {
    hide QidsFromTag, ValidRecord;
    var records: seq<Record> := [];
    for i := 0 to |rejected|
      invariant |records| == i
      invariant forall j | 0 <= j < i ::
                  && stem != "" && rejected[j].documentId != ""
                  && (exists q :: q in QidsFromTag(rejected[j].wikidata, u))
                  && records[j] == Rejection(stem, rejected[j],
                      SectionsOf(sections, rejected[j].documentId, |sections|))
    {
      var d := rejected[i];
      var record := Rejection(stem, d, 0);
      assert d in rejected;
      RecordableIs(stem, d, u);
      if !ValidRecord(record, u) {
        return Failure(InvalidRecord(record));
      }
      assert d.documentId in IdsOf(rejected);
      records := records + [record.(cascaded := if d.documentId in cascades then cascades[d.documentId] else 0)];
    }
    assert records == Rejections(stem, rejected, sections);
    forall d | d in rejected
      ensures stem != "" && d.documentId != "" && exists q :: q in QidsFromTag(d.wikidata, u)
    {
      var j :| 0 <= j < |rejected| && rejected[j] == d;
    }
    assert rejected != [] ==> rejected[0] in rejected;
    r := Success(records);
  }

  // The processed tables and ledgers of every region.
  class DataRoot {
    var polygons: map<string, seq<string>>
    var documents: map<string, seq<DocumentRow>>
    var sections: map<string, seq<SectionRow>>
    var ledgers: Ledgers

    function SectionsOn(stem: string): seq<SectionRow>
      reads this
    {
      if stem in sections then sections[stem] else []
    }

    method PlanIntegrity(stem: string, u: Unicode) returns (r: Result<Plan, IntegrityError>)
      ensures r.Success? <==>
                && stem in polygons && stem in documents
                && Recordable(stem,
                    RejectedDocuments(documents[stem], ValidQids(polygons[stem], u), |documents[stem]|), u)
      ensures r.Success? ==> r.value == PlanOf(stem, polygons[stem], documents[stem], SectionsOn(stem), u)
    {
      if stem !in polygons {
        return Failure(PolygonsMissing);
      }
      var tags := polygons[stem];
      var valid: set<string> := {};
      for i := 0 to |tags|
        invariant forall q :: q in valid <==> exists j :: 0 <= j < i && q in QidsFromTag(tags[j], u)
      {
        valid := valid + set q | q in QidsFromTag(tags[i], u);
      }
      assert valid == ValidQids(tags, u);
      if stem !in documents {
        return Failure(DocumentsMissing);
      }
      var rows := SectionsOn(stem);
      var kept, rejected := PartitionDocuments(documents[stem], valid);
      var ids := set d | d in rejected :: d.documentId;
      assert ids == IdsOf(rejected);
      var keptSections, cascades := RetainSections(rows, ids);
      var records := RecordRejections(stem, rejected, rows, cascades, u);
      if records.Failure? {
        return Failure(records.error);
      }
      var merged := MergeRecords(records.value);
      r := Success(Plan(stem, kept, keptSections, merged));
    }

    method LoadLedger(name: string, u: Unicode) returns (r: Result<seq<Record>, IntegrityError>)
      ensures name !in ledgers ==> r == Success([])
      ensures name in ledgers ==>
                (r.Success? <==> Loadable(ledgers[name], u)) && (r.Success? ==> r.value == ledgers[name].records)
    {
      hide Complete, ValidRecord;
      if name !in ledgers {
        return Success([]);
      }
      var f := ledgers[name];
      if f.version != LEDGER_CONTRACT_VERSION {
        return Failure(InvalidLedger(f.version));
      }
      var records: seq<Record> := [];
      for i := 0 to |f.records|
        invariant records == f.records[..i]
        invariant forall j | 0 <= j < i :: Complete(f.records[j], u)
      {
        ValidIsComplete(f.records[i], u);
        assert f.records[i] in f.records;
        if !ValidRecord(f.records[i], u) {
          return Failure(InvalidRecord(f.records[i]));
        }
        records := records + [f.records[i]];
      }
      r := Success(records);
    }

    method MergeLedgerFiles(sources: seq<string>, target: string, u: Unicode) returns (r: Result<(), IntegrityError>)
      modifies this`ledgers
      ensures r.Success? <==>
                forall i | 0 <= i < |sources| :: sources[i] in old(ledgers) ==> Loadable(old(ledgers)[sources[i]], u)
      ensures r.Success? ==>
                ledgers == old(ledgers)[target := Saved(Merged(Gathered(old(ledgers), sources, |sources|)))]
      ensures r.Success? ==> Stores(ledgers[target], Merged(Gathered(old(ledgers), sources, |sources|)))
      ensures r.Failure? ==> ledgers == old(ledgers)
    {
      hide Stores, Loadable;
      var records: seq<Record> := [];
      for i := 0 to |sources|
        invariant ledgers == old(ledgers)
        invariant records == Gathered(ledgers, sources, i)
        invariant forall j | 0 <= j < i :: sources[j] in ledgers ==> Loadable(ledgers[sources[j]], u)
      {
        var loaded := LoadLedger(sources[i], u);
        if loaded.Failure? {
          return Failure(loaded.error);
        }
        records := records + loaded.value;
      }
      var merged := MergeRecords(records);
      SavedStores(merged);
      ledgers := ledgers[target := Saved(merged)];
      r := Success(());
    }

    // Tables first, the cumulative ledger last.
    method ApplyIntegrity(plan: Plan, u: Unicode) returns (r: Result<(), IntegrityError>)
      requires forall r | r in plan.rejections :: Complete(r, u)
      modifies this
      ensures polygons == old(polygons)
      ensures documents == old(documents)[plan.stem := plan.documents]
      ensures sections == old(sections)[plan.stem := plan.sections]
      ensures r.Success? <==>
                plan.stem != LEDGER_NAME && LEDGER_NAME in old(ledgers) ==> Loadable(old(ledgers)[LEDGER_NAME], u)
      ensures r.Success? ==> ledgers == LedgersAfter(old(ledgers), plan.stem, plan.rejections)
      ensures r.Failure? ==> ledgers == WithOwn(old(ledgers), plan.stem, plan.rejections)
      ensures plan.stem in ledgers && (plan.stem != LEDGER_NAME ==> Stores(ledgers[plan.stem], plan.rejections))
    {
      SavedStores(plan.rejections);
      documents := documents[plan.stem := plan.documents];
      sections := sections[plan.stem := plan.sections];
      ledgers := ledgers[plan.stem := Saved(plan.rejections)];
      SavedIsLoadable(plan.rejections, u);
      var sources := [plan.stem];
      if LEDGER_NAME in ledgers {
        sources := sources + [LEDGER_NAME];
      }
      GatheredBoth(ledgers, plan.stem, sources);
      r := MergeLedgerFiles(sources, LEDGER_NAME, u);
    }
  }

  function Gathered(ledgers: Ledgers, sources: seq<string>, k: nat): seq<Record>
    requires k <= |sources|
  {
    if k == 0 then []
    else Gathered(ledgers, sources, k - 1) + if sources[k - 1] in ledgers then ledgers[sources[k - 1]].records else []
  }

  lemma GatheredBoth(ledgers: Ledgers, stem: string, sources: seq<string>)
    requires stem in ledgers && sources == [stem] + if LEDGER_NAME in ledgers then [LEDGER_NAME] else []
    ensures Gathered(ledgers, sources, |sources|) == ledgers[stem].records + Cumulative(ledgers)
  {
    assert Gathered(ledgers, sources, 0) == [];
    assert Gathered(ledgers, sources, 1) == ledgers[stem].records;
  }

  lemma SavedIsLoadable(records: seq<Record>, u: Unicode)
    requires forall r | r in records :: Complete(r, u)
    ensures Loadable(Saved(records), u)
  {
    SortKeeps(records, KeyLeq);
  }
}
