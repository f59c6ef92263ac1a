/**
 Linking polygons to documents by QID: an index built once answers every document as
 the nested loop would, and the validated rows depend only on what was joined.
 */
module DocumentLinks {
  import opened Wrappers
  import opened Sorting
  import opened WikidataQids

  datatype Polygon = Polygon(
    id: string, tag: string, source: string, region: string, osmType: string, osmId: int)

  datatype Document = Document(
    id: string, project: string, wikidata: string, language: string, pageId: int, revisionId: int)

  datatype Link = Link(
    polygonId: string, documentId: string, project: string, wikidata: string, language: string,
    source: string, region: string, osmType: string, osmId: int, pageId: int, revisionId: int)
  {
    function Key(): Key {
      LinkKey(polygonId, project, documentId)
    }
  }

  datatype Key = LinkKey(polygonId: string, project: string, documentId: string)

  datatype LinkError = InvalidPolygon(p: Polygon) | InvalidDocument(d: Document) | InvalidLink(l: Link)
      | Conflict(key: Key)

  const PROJECTS: set<string> := {"wikipedia", "wikivoyage"}

  /******* What is valid *******/

  predicate SafeStem(s: string) {
    s != "" && s != "." && s != ".." && '/' !in s && '\\' !in s
  }

  function DeclaredProject(documentId: string): Option<string> {
    var parts := Split(documentId, ':');
    if |parts| >= 2 && parts[1] in PROJECTS then Some(parts[1]) else None
  }

  function DeclaredWikidata(documentId: string, u: Unicode): Option<string> {
    var parts := Split(documentId, ':');
    if ValidQid(parts[0], u) then Some(parts[0]) else None
  }

  function DeclaredLanguage(documentId: string): Option<string> {
    var parts := Split(documentId, ':');
    if |parts| < 4 then None else Some(parts[2])
  }

  predicate ValidPolygon(p: Polygon, u: Unicode) {
    SafeStem(p.id) && QidsFromTag(p.tag, u) != []
  }

  predicate ValidDocument(d: Document, u: Unicode) {
    d.id != "" && d.project in PROJECTS && DeclaredProject(d.id) == Some(d.project) && ValidQid(d.wikidata, u)
  }

  predicate ValidLink(l: Link, u: Unicode) {
    && SafeStem(l.polygonId)
    && l.project in PROJECTS && DeclaredProject(l.documentId) == Some(l.project)
    && (DeclaredLanguage(l.documentId) == None || DeclaredLanguage(l.documentId) == Some(l.language))
    && ValidQid(l.wikidata, u)
    && (DeclaredWikidata(l.documentId, u) == None || DeclaredWikidata(l.documentId, u) == Some(l.wikidata))
  }

  // What the rules above ask for, column by column. A document identifier names the
  // Wikidata item, the project, the language and the page, separated by colons; what it
  // leaves out is not checked.
  ghost predicate SafeName(s: string) {
    s !in {"", ".", ".."} && forall i | 0 <= i < |s| :: s[i] != '/' && s[i] != '\\'
  }

  ghost predicate SoundPolygon(p: Polygon, u: Unicode) {
    SafeName(p.id) && exists qid :: qid in QidsFromTag(p.tag, u)
  }

  ghost predicate SoundDocument(d: Document, u: Unicode) {
    && d.id != "" && (d.project == "wikipedia" || d.project == "wikivoyage") && ValidQid(d.wikidata, u)
    && var parts := Split(d.id, ':'); |parts| >= 2 && parts[1] == d.project
  }

  ghost predicate SoundLink(l: Link, u: Unicode) {
    && SafeName(l.polygonId) && (l.project == "wikipedia" || l.project == "wikivoyage") && ValidQid(l.wikidata, u)
    && var parts := Split(l.documentId, ':');
    && |parts| >= 2 && parts[1] == l.project
    && (|parts| >= 4 ==> parts[2] == l.language)
    && (ValidQid(parts[0], u) ==> parts[0] == l.wikidata)
  }

  lemma SafeIs(s: string)
    ensures SafeStem(s) <==> SafeName(s)
  {}

  lemma PolygonIs(p: Polygon, u: Unicode)
    ensures ValidPolygon(p, u) <==> SoundPolygon(p, u)
  {
    hide SafeStem, SafeName, QidsFromTag;
    SafeIs(p.id);
    if QidsFromTag(p.tag, u) != [] {
      assert QidsFromTag(p.tag, u)[0] in QidsFromTag(p.tag, u);
    }
  }

  lemma DocumentIs(d: Document, u: Unicode)
    ensures ValidDocument(d, u) <==> SoundDocument(d, u)
  {
    hide Split, ValidQid;
  }

  lemma LinkIs(l: Link, u: Unicode)
    ensures ValidLink(l, u) <==> SoundLink(l, u)
  {
    hide SafeStem, SafeName, Split, ValidQid;
    SafeIs(l.polygonId);
  }

  /******* Validating rows *******/

  predicate KeyLeq(a: Key, b: Key) {
    if a.polygonId != b.polygonId then TextLeq(a.polygonId, b.polygonId)
    else if a.project != b.project then TextLeq(a.project, b.project)
    else TextLeq(a.documentId, b.documentId)
  }

  predicate KeyBefore(a: Link, b: Link) {
    KeyLeq(a.Key(), b.Key()) && a.Key() != b.Key()
  }

  lemma KeysAreOrdered()
    ensures TotalPreorder(KeyLeq)
    ensures forall a, b :: KeyLeq(a, b) && KeyLeq(b, a) ==> a == b
  {
    forall a, b
      ensures KeyLeq(a, b) || KeyLeq(b, a)
      ensures KeyLeq(a, b) && KeyLeq(b, a) ==> a == b
    {
      KeysCompare(a, b);
    }
    forall a, b, c | KeyLeq(a, b) && KeyLeq(b, c)
      ensures KeyLeq(a, c)
    {
      KeysChain(a, b, c);
    }
  }

  lemma KeysCompare(a: Key, b: Key)
    ensures KeyLeq(a, b) || KeyLeq(b, a)
    ensures KeyLeq(a, b) && KeyLeq(b, a) ==> a == b
  {
    TextsCompare(a.polygonId, b.polygonId);
    TextsCompare(a.project, b.project);
    TextsCompare(a.documentId, b.documentId);
  }

  lemma KeysChain(a: Key, b: Key, c: Key)
    requires KeyLeq(a, b) && KeyLeq(b, c)
    ensures KeyLeq(a, c)
  {
    hide TextLeq;
    TextsChain(a.polygonId, b.polygonId, c.polygonId);
    TextsChain(a.project, b.project, c.project);
    TextsChain(a.documentId, b.documentId, c.documentId);
    TextsCompare(a.polygonId, b.polygonId);
    TextsCompare(b.polygonId, c.polygonId);
    TextsCompare(a.project, b.project);
    TextsCompare(b.project, c.project);
  }

  // All rows valid, and no two different rows under one key.
  ghost predicate Acceptable(rows: seq<Link>, u: Unicode) {
    && (forall l | l in rows :: SoundLink(l, u))
    && forall l, m | l in rows && m in rows && SameKey(l, m) :: l == m
  }

  ghost predicate SameKey(l: Link, m: Link) {
    l.polygonId == m.polygonId && l.project == m.project && l.documentId == m.documentId
  }

  // By polygon, project and document, each key once.
  ghost predicate InKeyOrder(links: seq<Link>) {
    forall i, j | 0 <= i < j < |links| ::
      var a, b := links[i], links[j];
      && TextLeq(a.polygonId, b.polygonId)
      && (a.polygonId == b.polygonId ==> TextLeq(a.project, b.project))
      && (a.polygonId == b.polygonId && a.project == b.project ==>
            a.documentId != b.documentId && TextLeq(a.documentId, b.documentId))
  }

  lemma AscendingKeys(links: seq<Link>)
    requires Ascends(links, KeyBefore)
    ensures InKeyOrder(links)
  {
    hide TextLeq;
    forall i, j | 0 <= i < j < |links|
      ensures TextLeq(links[i].polygonId, links[j].polygonId)
      ensures links[i].polygonId == links[j].polygonId ==> TextLeq(links[i].project, links[j].project)
      ensures SameKey(links[i], links[j].(documentId := links[i].documentId)) ==>
                links[i].documentId != links[j].documentId && TextLeq(links[i].documentId, links[j].documentId)
    {
      assert KeyBefore(links[i], links[j]);
      TextsCompare(links[i].polygonId, links[j].polygonId);
      TextsCompare(links[i].project, links[j].project);
    }
  }

  // The same rows, each once, by key.
  ghost predicate Canonical(sorted: seq<Link>, rows: seq<Link>) {
    SameElements(sorted, rows) && Ascends(sorted, KeyBefore) && InKeyOrder(sorted)
  }

  method MergeLinkRow(out: map<Key, Link>, keys: seq<Key>, row: Link)
    returns (r: Result<(map<Key, Link>, seq<Key>), LinkError>)
    requires forall k :: k in keys <==> k in out
    requires NoDuplicates(keys)
    ensures r.Failure? <==> row.Key() in out && out[row.Key()] != row
    ensures r.Success? ==> r.value.0 == out[row.Key() := row] && NoDuplicates(r.value.1)
    ensures r.Success? ==> forall k :: k in r.value.1 <==> k in r.value.0
  {
    var key := row.Key();
    if key !in out {
      return Success((out[key := row], keys + [key]));
    }
    if out[key] != row {
      return Failure(Conflict(key));
    }
    assert out[key := row] == out;
    r := Success((out, keys));
  }

  method ValidateLinks(rows: seq<Link>, u: Unicode) returns (r: Result<seq<Link>, LinkError>)
    ensures r.Success? <==> Acceptable(rows, u)
    ensures r.Success? ==> Canonical(r.value, rows)
  {
    hide ValidLink, SoundLink, KeyLeq;
    forall l ensures ValidLink(l, u) <==> SoundLink(l, u) {
      LinkIs(l, u);
    }
    var out: map<Key, Link> := map[];
    var keys: seq<Key> := [];
    for i := 0 to |rows|
      invariant forall k :: k in keys <==> k in out
      invariant NoDuplicates(keys)
      invariant forall j | 0 <= j < i :: ValidLink(rows[j], u) && rows[j].Key() in out && out[rows[j].Key()] == rows[j]
      invariant forall k | k in out :: k == out[k].Key() && out[k] in rows
    {
      assert rows[i] in rows;
      if !ValidLink(rows[i], u) {
        return Failure(InvalidLink(rows[i]));
      }
      var merged := MergeLinkRow(out, keys, rows[i]);
      if merged.Failure? {
        return Failure(merged.error);
      }
      out, keys := merged.value.0, merged.value.1;
    }
    r := Success(SortedRows(out, keys));
    SortedRowsAreCanonical(out, keys, rows);
  }

  // The rows of a dictionary by their sorted keys.
  function SortedRows(out: map<Key, Link>, keys: seq<Key>): seq<Link>
    requires forall k | k in keys :: k in out
  {
    SortKeeps(keys, KeyLeq);
    var sorted := StableSort(keys, KeyLeq);
    seq(|sorted|, i requires 0 <= i < |sorted| => assert sorted[i] in sorted; out[sorted[i]])
  }

  lemma SortedRowsAreCanonical(out: map<Key, Link>, keys: seq<Key>, rows: seq<Link>)
    requires NoDuplicates(keys) && forall k :: k in keys <==> k in out
    requires forall l | l in rows :: l.Key() in out && out[l.Key()] == l
    requires forall k | k in out :: k == out[k].Key() && out[k] in rows
    ensures Canonical(SortedRows(out, keys), rows)
  {
    hide KeyLeq;
    var sorted, links := StableSort(keys, KeyLeq), SortedRows(out, keys);
    KeysAreOrdered();
    SortKeeps(keys, KeyLeq);
    SortAscends(keys, KeyLeq);
    forall l
      ensures l in links <==> l in rows
    {
      if l in links {
        var i :| 0 <= i < |links| && links[i] == l;
        assert sorted[i] in sorted;
      }
      if l in rows {
        var k :| k in sorted && k == l.Key();
        var i :| 0 <= i < |sorted| && sorted[i] == k;
        assert links[i] == l;
      }
    }
    forall i, j | 0 <= i < j < |links|
      ensures KeyBefore(links[i], links[j])
    {
      assert sorted[i] in sorted && sorted[j] in sorted;
    }
    AscendingKeys(links);
  }

  // Rows with the same elements validate to the same result, and a validated result
  // validates to itself.
  lemma CanonicalIsUnique(a: seq<Link>, b: seq<Link>, rows: seq<Link>, rows': seq<Link>)
    requires SameElements(rows, rows') && Canonical(a, rows) && Canonical(b, rows')
    ensures a == b
  {
    KeysAreOrdered();
    assert Asymmetric(KeyBefore);
    AscendingIsUnique(a, b, KeyBefore);
  }

  lemma ValidatedAgain(sorted: seq<Link>, rows: seq<Link>, u: Unicode)
    requires Acceptable(rows, u) && Canonical(sorted, rows)
    ensures Acceptable(sorted, u) && forall again | Canonical(again, sorted) :: again == sorted
  {
    forall again | Canonical(again, sorted)
      ensures again == sorted
    {
      CanonicalIsUnique(again, sorted, sorted, rows);
    }
  }

  /******* The join *******/

  function LinkOf(p: Polygon, d: Document): Link {
    Link(p.id, d.id, d.project, d.wikidata, d.language, p.source, p.region, p.osmType, p.osmId, d.pageId, d.revisionId)
  }

  // The row of some polygon and document that share a QID.
  ghost predicate Linked(polygons: seq<Polygon>, documents: seq<Document>, l: Link, u: Unicode) {
    exists p, d :: p in polygons && d in documents && Joins(p, d, l, u)
  }

  ghost predicate Joins(p: Polygon, d: Document, l: Link, u: Unicode) {
    && d.wikidata in QidsFromTag(p.tag, u) && l.wikidata == d.wikidata
    && l.polygonId == p.id && l.source == p.source && l.region == p.region
    && l.osmType == p.osmType && l.osmId == p.osmId
    && l.documentId == d.id && l.project == d.project && l.language == d.language
    && l.pageId == d.pageId && l.revisionId == d.revisionId
  }

  lemma JoinIs(p: Polygon, d: Document, l: Link, u: Unicode)
    ensures Joins(p, d, l, u) <==> d.wikidata in QidsFromTag(p.tag, u) && l == LinkOf(p, d)
  {}

  // Every polygon and document valid, every linked pair's row valid, no conflicts.
  ghost predicate Buildable(polygons: seq<Polygon>, documents: seq<Document>, u: Unicode) {
    && (forall p | p in polygons :: SoundPolygon(p, u))
    && (forall d | d in documents :: SoundDocument(d, u))
    && (forall l | Linked(polygons, documents, l, u) :: SoundLink(l, u))
    && (forall l, m | Linked(polygons, documents, l, u) && Linked(polygons, documents, m, u) && SameKey(l, m) ::
        l == m)
  }

  ghost predicate JoinsTo(polygons: seq<Polygon>, documents: seq<Document>, r: Result<seq<Link>, LinkError>, u: Unicode)
  {
    && (r.Success? <==> Buildable(polygons, documents, u))
    && (r.Success? ==>
          && Ascends(r.value, KeyBefore) && InKeyOrder(r.value)
          && forall l :: l in r.value <==> Linked(polygons, documents, l, u))
  }

  // Whether the join succeeds, and with which rows, does not depend on the order or
  // repetition of polygons and documents.
  lemma JoinIsOrderFree(polygons: seq<Polygon>, documents: seq<Document>, r: Result<seq<Link>, LinkError>,
                        polygons': seq<Polygon>, documents': seq<Document>, r': Result<seq<Link>, LinkError>,
                        u: Unicode)
    requires SameElements(polygons, polygons') && SameElements(documents, documents')
    requires JoinsTo(polygons, documents, r, u) && JoinsTo(polygons', documents', r', u)
    ensures r.Success? == r'.Success? && (r.Success? ==> r.value == r'.value)
  {
    forall l
      ensures Linked(polygons, documents, l, u) <==> Linked(polygons', documents', l, u)
    {
      LinkedBySome(polygons, documents, polygons', documents', l, u);
      LinkedBySome(polygons', documents', polygons, documents, l, u);
    }
    if r.Success? {
      KeysAreOrdered();
      assert Asymmetric(KeyBefore);
      assert SameElements(r.value, r'.value);
      AscendingIsUnique(r.value, r'.value, KeyBefore);
    }
  }

  lemma LinkedBySome(polygons: seq<Polygon>, documents: seq<Document>, polygons': seq<Polygon>,
                     documents': seq<Document>,
                     l: Link, u: Unicode)
    requires forall p | p in polygons :: p in polygons'
    requires forall d | d in documents :: d in documents'
    ensures Linked(polygons, documents, l, u) ==> Linked(polygons', documents', l, u)
  {}

  type Index = map<string, seq<Polygon>>

  function Lookup(index: Index, qid: string): seq<Polygon> {
    if qid in index then index[qid] else []
  }

  // The index holds each of the polygons under each of its QIDs, and nothing else.
  ghost predicate Indexes(index: Index, polygons: seq<Polygon>, u: Unicode) {
    forall qid, p :: p in Lookup(index, qid) <==> p in polygons && qid in QidsFromTag(p.tag, u)
  }

  method AddToIndex(index: Index, p: Polygon, ghost before: seq<Polygon>, u: Unicode) returns (index': Index)
    requires Indexes(index, before, u)
    ensures Indexes(index', before + [p], u)
  {
    hide QidsFromTag;
    var qids := QidsFromTag(p.tag, u);
    index' := index;
    for j := 0 to |qids|
      invariant forall qid, q :: q in Lookup(index', qid) <==> q in Lookup(index, qid) || (q == p && qid in qids[..j])
    {
      assert forall qid :: qid in qids[..j + 1] <==> qid in qids[..j] || qid == qids[j];
      index' := index'[qids[j] := Lookup(index', qids[j]) + [p]];
    }
    assert qids[..|qids|] == qids;
  }

  method BuildIndex(polygons: seq<Polygon>, u: Unicode) returns (r: Result<Index, LinkError>)
    ensures r.Success? <==> forall p | p in polygons :: SoundPolygon(p, u)
    ensures r.Success? ==> Indexes(r.value, polygons, u)
  {
    hide QidsFromTag, ValidPolygon, SoundPolygon;
    var index: Index := map[];
    for i := 0 to |polygons|
      invariant forall j | 0 <= j < i :: SoundPolygon(polygons[j], u)
      invariant Indexes(index, polygons[..i], u)
    {
      assert polygons[i] in polygons;
      PolygonIs(polygons[i], u);
      if !ValidPolygon(polygons[i], u) {
        return Failure(InvalidPolygon(polygons[i]));
      }
      index := AddToIndex(index, polygons[i], polygons[..i], u);
      assert polygons[..i + 1] == polygons[..i] + [polygons[i]];
    }
    assert polygons[..|polygons|] == polygons;
    r := Success(index);
  }

  function LinksFor(polygons: seq<Polygon>, d: Document): seq<Link> {
    seq(|polygons|, i requires 0 <= i < |polygons| => LinkOf(polygons[i], d))
  }

  lemma LinkedOneMore(polygons: seq<Polygon>, documents: seq<Document>, d: Document, index: Index, l: Link, u: Unicode)
    requires Indexes(index, polygons, u)
    ensures Linked(polygons, documents + [d], l, u)
       <==> Linked(polygons, documents, l, u) || l in LinksFor(Lookup(index, d.wikidata), d)
  {
    hide QidsFromTag;
    var matched := Lookup(index, d.wikidata);
    if l in LinksFor(matched, d) {
      var i :| 0 <= i < |matched| && l == LinkOf(matched[i], d);
      assert matched[i] in matched && d in documents + [d];
      JoinIs(matched[i], d, l, u);
    }
    if Linked(polygons, documents, l, u) {
      LinkedBySome(polygons, documents, polygons, documents + [d], l, u);
    }
    if Linked(polygons, documents + [d], l, u) && !Linked(polygons, documents, l, u) {
      var p, e :| p in polygons && e in documents + [d] && Joins(p, e, l, u);
      JoinIs(p, e, l, u);
      assert e == d && p in matched;
      var i :| 0 <= i < |matched| && matched[i] == p;
      assert LinksFor(matched, d)[i] == l;
    }
  }

  method BuildPolygonDocumentLinks(polygons: seq<Polygon>, wikipedia: seq<Document>, wikivoyage: seq<Document>,
                                   u: Unicode)
    returns (r: Result<seq<Link>, LinkError>)
    ensures JoinsTo(polygons, wikipedia + wikivoyage, r, u)
  {
    hide QidsFromTag, ValidDocument, SoundDocument, SoundPolygon, SoundLink, KeyBefore, Indexes, LinksFor, InKeyOrder;
    var indexed := BuildIndex(polygons, u);
    if indexed.Failure? {
      return Failure(indexed.error);
    }
    var index, documents := indexed.value, wikipedia + wikivoyage;
    var links: seq<Link> := [];
    for k := 0 to |documents|
      invariant forall j | 0 <= j < k :: SoundDocument(documents[j], u)
      invariant forall l :: l in links <==> Linked(polygons, documents[..k], l, u)
    {
      var d := documents[k];
      assert d in documents;
      DocumentIs(d, u);
      if !ValidDocument(d, u) {
        return Failure(InvalidDocument(d));
      }
      assert documents[..k + 1] == documents[..k] + [d];
      ghost var before := links;
      links := links + LinksFor(Lookup(index, d.wikidata), d);
      forall l
        ensures l in links <==> Linked(polygons, documents[..k + 1], l, u)
      {
        LinkedOneMore(polygons, documents[..k], d, index, l, u);
      }
    }
    assert documents[..|documents|] == documents;
    r := ValidateLinks(links, u);
  }
}
