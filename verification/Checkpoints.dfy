/**
 Section checkpoints of an augmentation run: directories replaced as a whole, loaded
 only when they fit the documents at hand, and a run that reuses whatever earlier runs
 left behind ending as an uninterrupted one would.
 */
module Checkpoints {
  import opened Wrappers
  import opened Sorting

  const SECTION_CHECKPOINT_BATCH_SIZE: nat := 50

  datatype Project = Wikipedia | Wikivoyage

  // A document is known by the identity that checkpoints record; its other columns
  // follow from its identifier.
  datatype Document = Document(id: string, revision: int, hash: string)

  // A section's identifier is a digest of its document, index and heading, taken to be
  // as distinct as they are.
  datatype Section = Section(documentId: string, index: nat, heading: string, project: Project, text: string) {
    predicate SameId(other: Section) {
      documentId == other.documentId && index == other.index && heading == other.heading
    }
  }

  // Fetching and parsing the HTML of a document revision, taken to be deterministic.
  datatype Client = Client(render: Document -> seq<Section>, project: Document -> Project) {
    ghost predicate Proper() {
      && (forall d, i | 0 <= i < |render(d)| :: render(d)[i].documentId == d.id && render(d)[i].project == project(d))
      && forall d, i, j | 0 <= i < j < |render(d)| :: render(d)[i].index != render(d)[j].index
    }
  }

  /******* Sections in order *******/

  predicate SectionLeq(a: Section, b: Section) {
    if a.documentId != b.documentId then TextLeq(a.documentId, b.documentId) else a.index <= b.index
  }

  predicate SectionBefore(a: Section, b: Section) {
    SectionLeq(a, b) && !(a.documentId == b.documentId && a.index == b.index)
  }

  lemma SectionsAreOrdered()
    ensures TotalPreorder(SectionLeq)
    ensures Asymmetric(SectionBefore)
  {
    forall a, b
      ensures SectionLeq(a, b) || SectionLeq(b, a)
      ensures SectionBefore(a, b) ==> !SectionBefore(b, a)
    {
      TextsCompare(a.documentId, b.documentId);
    }
    forall a, b, c | SectionLeq(a, b) && SectionLeq(b, c)
      ensures SectionLeq(a, c)
    {
      SectionsChain(a, b, c);
    }
  }

  // By document and, within one, by index, no two alike.
  ghost predicate InTurn(sections: seq<Section>) {
    forall i, j | 0 <= i < j < |sections| ::
      var a, b := sections[i], sections[j];
      if a.documentId == b.documentId then a.index < b.index else TextLeq(a.documentId, b.documentId)
  }

  lemma AscendingInTurn(sections: seq<Section>)
    requires Ascends(sections, SectionBefore)
    ensures InTurn(sections)
  {
    hide TextLeq;
    forall i, j | 0 <= i < j < |sections|
      ensures var a, b := sections[i], sections[j];
              if a.documentId == b.documentId then a.index < b.index else TextLeq(a.documentId, b.documentId)
    {
      assert SectionBefore(sections[i], sections[j]);
    }
  }

  lemma SectionsChain(a: Section, b: Section, c: Section)
    requires SectionLeq(a, b) && SectionLeq(b, c)
    ensures SectionLeq(a, c)
  {
    hide TextLeq;
    TextsChain(a.documentId, b.documentId, c.documentId);
    TextsCompare(a.documentId, b.documentId);
    TextsCompare(b.documentId, c.documentId);
  }

  function OfProject(sections: seq<Section>, p: Project): seq<Section> {
    if sections == [] then []
    else
      OfProject(sections[..|sections| - 1], p)
      + if sections[|sections| - 1].project == p then [sections[|sections| - 1]] else []
  }

  lemma {:induction false} OfProjectJoins(a: seq<Section>, b: seq<Section>, p: Project)
    ensures OfProject(a + b, p) == OfProject(a, p) + OfProject(b, p)
  {
    if b == [] {
      assert a + b == a;
    } else {
      assert (a + b)[..|a + b| - 1] == a + b[..|b| - 1];
      OfProjectJoins(a, b[..|b| - 1], p);
    }
  }

  lemma {:induction false} OfProjectCounts(sections: seq<Section>, p: Project, x: Section)
    ensures multiset(OfProject(sections, p))[x] == if x.project == p then multiset(sections)[x] else 0
  {
    if sections != [] {
      var front, last := sections[..|sections| - 1], sections[|sections| - 1];
      assert sections == front + [last];
      OfProjectCounts(front, p, x);
    }
  }

  // Filtering the same sections gives the same sections.
  lemma OfProjectSame(a: seq<Section>, b: seq<Section>, p: Project)
    requires multiset(a) == multiset(b)
    ensures multiset(OfProject(a, p)) == multiset(OfProject(b, p))
  {
    forall x
      ensures multiset(OfProject(a, p))[x] == multiset(OfProject(b, p))[x]
    {
      OfProjectCounts(a, p, x);
      OfProjectCounts(b, p, x);
    }
  }

  // Document and index tell sections apart.
  ghost predicate Told(sections: seq<Section>) {
    forall i, j | 0 <= i < j < |sections| ::
      !(sections[i].documentId == sections[j].documentId && sections[i].index == sections[j].index)
  }

  lemma ToldAscends(sections: seq<Section>)
    requires Told(sections)
    ensures Ascends(StableSort(sections, SectionLeq), SectionBefore)
  {
    hide TextLeq;
    var sorted := StableSort(sections, SectionLeq);
    SectionsAreOrdered();
    SortKeeps(sections, SectionLeq);
    SortAscends(sections, SectionLeq);
    forall i, j | 0 <= i < j < |sorted|
      ensures SectionBefore(sorted[i], sorted[j])
    {
      assert sorted[i] in sorted && sorted[j] in sorted;
      assert SectionLeq(sorted[i], sorted[j]) && sorted[i] != sorted[j];
    }
  }

  // The same sections in any order sort to the same list.
  lemma SameSorted(a: seq<Section>, b: seq<Section>)
    requires multiset(a) == multiset(b) && Told(b)
    ensures StableSort(a, SectionLeq) == StableSort(b, SectionLeq)
  {
    ToldStays(b, a);
    ToldAscends(a);
    ToldAscends(b);
    SectionsAreOrdered();
    SortKeeps(a, SectionLeq);
    SortKeeps(b, SectionLeq);
    forall x
      ensures x in StableSort(a, SectionLeq) <==> x in StableSort(b, SectionLeq)
    {
      assert x in a <==> x in multiset(a);
      assert x in b <==> x in multiset(b);
    }
    AscendingIsUnique(StableSort(a, SectionLeq), StableSort(b, SectionLeq), SectionBefore);
  }

  lemma ToldStays(a: seq<Section>, b: seq<Section>)
    requires multiset(a) == multiset(b) && Told(a)
    ensures Told(b)
  {
    forall i, j | 0 <= i < j < |b|
      ensures !(b[i].documentId == b[j].documentId && b[i].index == b[j].index)
    {
      assert b[i] in multiset(a) && b[j] in multiset(a);
      AtMostOnce(a, b[i]);
      if b[i] == b[j] {
        Twice(b, i, j);
      }
    }
  }

  lemma {:induction false} OfProjectTold(sections: seq<Section>, p: Project)
    requires Told(sections)
    ensures Told(OfProject(sections, p))
    ensures forall x | x in OfProject(sections, p) :: x in sections
  {
    if sections != [] {
      var front, last := sections[..|sections| - 1], sections[|sections| - 1];
      OfProjectTold(front, p);
      var kept := OfProject(front, p);
      forall i | 0 <= i < |kept|
        ensures !(kept[i].documentId == last.documentId && kept[i].index == last.index)
      {
        assert kept[i] in kept;
        assert kept[i] in front;
      }
    }
  }

  /******* Rendering *******/

  function Rendered(documents: seq<Document>, client: Client): seq<Section> {
    if documents == [] then []
    else Rendered(documents[..|documents| - 1], client) + client.render(documents[|documents| - 1])
  }

  lemma {:induction false} RenderedJoins(a: seq<Document>, b: seq<Document>, client: Client)
    ensures Rendered(a + b, client) == Rendered(a, client) + Rendered(b, client)
  {
    if b == [] {
      assert a + b == a;
    } else {
      assert (a + b)[..|a + b| - 1] == a + b[..|b| - 1];
      RenderedJoins(a, b[..|b| - 1], client);
    }
  }

  ghost predicate DistinctIds(documents: seq<Document>) {
    forall i, j | 0 <= i < j < |documents| :: documents[i].id != documents[j].id
  }

  predicate OfDocument(s: Section, documents: seq<Document>) {
    exists i :: 0 <= i < |documents| && s.documentId == documents[i].id
  }

  lemma {:induction false} RenderedTold(documents: seq<Document>, client: Client)
    requires client.Proper() && DistinctIds(documents)
    ensures Told(Rendered(documents, client))
    ensures forall s | s in Rendered(documents, client) :: OfDocument(s, documents)
  {
    if documents != [] {
      var front, last := documents[..|documents| - 1], documents[|documents| - 1];
      RenderedTold(front, client);
      var first, second := Rendered(front, client), client.render(last);
      forall i | 0 <= i < |first|
        ensures first[i].documentId != last.id
      {
        assert first[i] in first;
        assert OfDocument(first[i], front);
      }
      forall s | s in first + second
        ensures OfDocument(s, documents)
      {
        if s in first {
          var i :| 0 <= i < |front| && s.documentId == front[i].id;
          assert documents[i].id == s.documentId;
        } else {
          assert documents[|front|].id == s.documentId;
        }
      }
    }
  }

  function Without(documents: seq<Document>, j: nat): seq<Document>
    requires j < |documents|
  {
    documents[..j] + documents[j + 1..]
  }

  // Rendering in another order gives the same sections.
  lemma {:induction false} RenderedSame(a: seq<Document>, b: seq<Document>, client: Client)
    requires multiset(a) == multiset(b)
    ensures multiset(Rendered(a, client)) == multiset(Rendered(b, client))
    decreases |a|
  {
    hide Without;
    assert |a| == |multiset(a)| == |multiset(b)| == |b|;
    if a == [] {
      assert b == [];
    } else {
      assert a[0] in multiset(b);
      var j :| 0 <= j < |b| && b[j] == a[0];
      RenderedWithout(a, 0, client);
      RenderedWithout(b, j, client);
      RenderedSame(Without(a, 0), Without(b, j), client);
    }
  }

  lemma RenderedWithout(documents: seq<Document>, j: nat, client: Client)
    requires j < |documents|
    ensures multiset(Without(documents, j)) == multiset(documents) - multiset{documents[j]}
    ensures |Without(documents, j)| == |documents| - 1
    ensures multiset(Rendered(documents, client))
         == multiset(Rendered(Without(documents, j), client)) + multiset(client.render(documents[j]))
  {
    assert documents == documents[..j] + [documents[j]] + documents[j + 1..];
    RenderedJoins(documents[..j] + [documents[j]], documents[j + 1..], client);
    RenderedJoins(documents[..j], [documents[j]], client);
    RenderedJoins(documents[..j], documents[j + 1..], client);
    assert [documents[j]][..0] == [];
    assert Rendered([documents[j]], client) == Rendered([], client) + client.render(documents[j]);
  }

  // What a run without checkpoints gives: each project's sections, sorted.
  function FreshSections(documents: seq<Document>, p: Project, client: Client): seq<Section> {
    StableSort(OfProject(Rendered(documents, client), p), SectionLeq)
  }

  ghost predicate IsRendered(s: Section, documents: seq<Document>, client: Client) {
    exists d :: d in documents && s in client.render(d)
  }

  lemma {:induction false} RenderedIs(s: Section, documents: seq<Document>, client: Client)
    ensures s in Rendered(documents, client) <==> IsRendered(s, documents, client)
  {
    if documents != [] {
      RenderedIs(s, documents[..|documents| - 1], client);
      assert documents == documents[..|documents| - 1] + [documents[|documents| - 1]];
    }
  }

  // They are the sections of the project that rendering any of the documents gives, in
  // the order of document and index.
  lemma FreshIs(documents: seq<Document>, p: Project, client: Client)
    requires client.Proper() && DistinctIds(documents)
    ensures InTurn(FreshSections(documents, p, client))
    ensures forall s :: s in FreshSections(documents, p, client) <==>
                          s.project == p && IsRendered(s, documents, client)
  {
    var rendered := Rendered(documents, client);
    RenderedTold(documents, client);
    OfProjectTold(rendered, p);
    ToldAscends(OfProject(rendered, p));
    AscendingInTurn(FreshSections(documents, p, client));
    SortKeeps(OfProject(rendered, p), SectionLeq);
    forall s
      ensures s in OfProject(rendered, p) <==> s.project == p && IsRendered(s, documents, client)
    {
      OfProjectCounts(rendered, p, s);
      RenderedIs(s, documents, client);
      assert s in OfProject(rendered, p) <==> multiset(OfProject(rendered, p))[s] > 0;
      assert s in rendered <==> multiset(rendered)[s] > 0;
    }
  }

  datatype Sections = Sections(wikipedia: seq<Section>, wikivoyage: seq<Section>) {
    function Of(p: Project): seq<Section> {
      if p.Wikipedia? then wikipedia else wikivoyage
    }

    function Add(sections: seq<Section>): Sections {
      Sections(wikipedia + OfProject(sections, Wikipedia), wikivoyage + OfProject(sections, Wikivoyage))
    }
  }

  function SortedSections(s: Sections): Sections {
    Sections(StableSort(s.wikipedia, SectionLeq), StableSort(s.wikivoyage, SectionLeq))
  }

  /******* Fetching a batch *******/

  // Workers finish in the order given, or one of them fails.
  method FetchDocumentSectionsBatch(documents: seq<Document>, finished: seq<Document>, fails: bool, client: Client)
    returns (r: Option<Sections>)
    requires multiset(finished) == multiset(documents)
    ensures r.None? <==> fails && documents != []
    ensures r.Some? ==>
              multiset(r.value.wikipedia) == multiset(OfProject(Rendered(documents, client), Wikipedia))
              && multiset(r.value.wikivoyage) == multiset(OfProject(Rendered(documents, client), Wikivoyage))
              && Ordered(r.value.wikipedia, SectionLeq) && Ordered(r.value.wikivoyage, SectionLeq)
  {
    assert |finished| == |multiset(finished)| == |multiset(documents)| == |documents|;
    if fails && finished != [] {
      return None;
    }
    var found := Sections([], []);
    for i := 0 to |finished|
      invariant found.wikipedia == OfProject(Rendered(finished[..i], client), Wikipedia)
      invariant found.wikivoyage == OfProject(Rendered(finished[..i], client), Wikivoyage)
    {
      var html := client.render(finished[i]);
      assert finished[..i + 1][..i] == finished[..i];
      OfProjectJoins(Rendered(finished[..i], client), html, Wikipedia);
      OfProjectJoins(Rendered(finished[..i], client), html, Wikivoyage);
      found := found.Add(html);
    }
    assert finished[..|finished|] == finished;
    RenderedSame(finished, documents, client);
    OfProjectSame(Rendered(finished, client), Rendered(documents, client), Wikipedia);
    OfProjectSame(Rendered(finished, client), Rendered(documents, client), Wikivoyage);
    SortKeeps(found.wikipedia, SectionLeq);
    SortKeeps(found.wikivoyage, SectionLeq);
    SectionsAreOrdered();
    SortOrders(found.wikipedia, SectionLeq);
    SortOrders(found.wikivoyage, SectionLeq);
    r := Some(SortedSections(found));
  }

  // Both projects' rows together are all of them.
  lemma {:induction false} ProjectsTogether(sections: seq<Section>)
    ensures multiset(OfProject(sections, Wikipedia)) + multiset(OfProject(sections, Wikivoyage)) == multiset(sections)
  {
    forall x
      ensures multiset(OfProject(sections, Wikipedia))[x] + multiset(OfProject(sections, Wikivoyage))[x] ==
                multiset(sections)[x]
    {
      OfProjectCounts(sections, Wikipedia, x);
      OfProjectCounts(sections, Wikivoyage, x);
    }
  }

  /******* Checkpoint directories *******/

  // A table cut off while being written cannot be read.
  datatype Table = Rows(sections: seq<Section>) | Unreadable

  datatype Directory = Directory(table: Option<Table>, documents: Option<seq<Document>>)

  // One save: which batch, for which documents, with which rows.
  datatype Save = Save(index: nat, documents: seq<Document>, sections: seq<Section>) {
    function Complete(): Directory {
      Directory(Some(Rows(sections)), Some(documents))
    }
  }

  // What is left of a save's directory while it is being removed.
  predicate PartOf(d: Directory, s: Save) {
    (d.table == None || d.table == Some(Rows(s.sections))) && (d.documents == None || d.documents == Some(s.documents))
  }

  ghost predicate Backed(index: nat, d: Directory, saves: seq<Save>) {
    exists k :: 0 <= k < |saves| && saves[k].index == index && PartOf(d, saves[k])
  }

  lemma BackedStill(index: nat, d: Directory, saves: seq<Save>, save: Save)
    requires Backed(index, d, saves)
    ensures Backed(index, d, saves + [save])
  {
    var k :| 0 <= k < |saves| && saves[k].index == index && PartOf(d, saves[k]);
    assert (saves + [save])[k] == saves[k];
  }

  lemma BackedByLast(saves: seq<Save>, save: Save)
    ensures Backed(save.index, save.Complete(), saves + [save])
  {
    assert (saves + [save])[|saves|] == save;
  }

  // Removing a file leaves part of what was there.
  lemma BackedLess(index: nat, d: Directory, less: Directory, saves: seq<Save>)
    requires Backed(index, d, saves)
    requires (less.table == None || less.table == d.table) && (less.documents == None || less.documents == d.documents)
    ensures Backed(index, less, saves)
  {
    var k :| 0 <= k < |saves| && saves[k].index == index && PartOf(d, saves[k]);
    assert PartOf(less, saves[k]);
  }

  // Loading accepts only sections of the expected documents, each once.
  predicate Acceptable(sections: seq<Section>, expected: seq<Document>) {
    && (forall i | 0 <= i < |sections| :: OfDocument(sections[i], expected))
    && forall i, j | 0 <= i < j < |sections| ::
         !sections[i].SameId(sections[j])
  }

  // Every section is of an expected document, and no two have document, index and heading
  // in common.
  ghost predicate Fitting(sections: seq<Section>, expected: seq<Document>) {
    && (forall s | s in sections :: exists d :: d in expected && d.id == s.documentId)
    && forall i, j | 0 <= i < j < |sections| ::
         || sections[i].documentId != sections[j].documentId
         || sections[i].index != sections[j].index || sections[i].heading != sections[j].heading
  }

  lemma AcceptableIs(sections: seq<Section>, expected: seq<Document>)
    ensures Acceptable(sections, expected) <==> Fitting(sections, expected)
  {
    if Fitting(sections, expected) {
      forall i | 0 <= i < |sections| ensures OfDocument(sections[i], expected) {
        assert sections[i] in sections;
      }
    }
  }

  // A save holds what rendering its documents gives.
  ghost predicate Honest(s: Save, client: Client) {
    multiset(s.sections) == multiset(Rendered(s.documents, client))
  }

  // A save makes a directory and two files (the table in two steps), removes up to two
  // files and a directory, and renames.
  const STEPS_OF_SAVE: nat := 8

  // The checkpoint root of one region and plan; left counts the steps on it that the
  // process lives to make.
  class CheckpointStore {
    var targets: map<nat, Directory>
    var temporaries: map<nat, Directory>
    var serial: nat
    var left: nat
    ghost var saves: seq<Save>

    // Whatever stands under a batch's name is all or part of one save of that batch.
    ghost predicate Valid()
      reads this
    {
      && (forall i | i in targets :: Backed(i, targets[i], saves))
      && forall name | name in temporaries :: name < serial
    }

    constructor ()
      ensures Valid() && saves == []
    {
      targets, temporaries, serial, left, saves := map[], map[], 0, 0, [];
    }

    // A process starts over what an earlier one left, and will make some steps.
    method Restart(steps: nat)
      requires Valid()
      modifies this`left
      ensures Valid() && left == steps
    {
      left := steps;
    }

    method Step() returns (alive: bool)
      modifies this`left
      ensures alive <==> old(left) > 0
      ensures left == if alive then old(left) - 1 else old(left)
    {
      alive := left > 0;
      if alive {
        left := left - 1;
      }
    }

    // Writes a complete directory beside the target.
    method WriteTemporary(save: Save) returns (alive: bool, name: nat)
      requires Valid()
      modifies this`temporaries, this`serial, this`left
      ensures Valid() && left <= old(left)
      ensures old(left) >= 4 ==> alive && left == old(left) - 4
      ensures alive ==> name in temporaries && temporaries[name] == save.Complete()
    {
      name := serial;
      alive := Step();
      if !alive { return; }
      temporaries := temporaries[name := Directory(None, None)];
      serial := serial + 1;
      alive := Step();
      if !alive { return; }
      temporaries := temporaries[name := Directory(Some(Unreadable), None)];
      alive := Step();
      if !alive { return; }
      temporaries := temporaries[name := Directory(Some(Rows(save.sections)), None)];
      alive := Step();
      if !alive { return; }
      temporaries := temporaries[name := save.Complete()];
    }

    // Removes a directory file by file, in either order.
    method RemoveTarget(index: nat, tableFirst: bool) returns (alive: bool)
      requires Valid()
      modifies this`targets, this`left
      ensures Valid() && left <= old(left)
      ensures forall i | i != index ::
                (i in targets <==> i in old(targets)) && (i in targets ==> targets[i] == old(targets)[i])
      ensures old(left) >= 3 ==> alive && left >= old(left) - 3
      ensures alive ==> index !in targets
    {
      if index !in targets {
        return true;
      }
      hide Backed;
      alive := Step();
      if !alive { return; }
      var less := if tableFirst then targets[index].(table := None) else targets[index].(documents := None);
      BackedLess(index, targets[index], less, saves);
      targets := targets[index := less];
      alive := Step();
      if !alive { return; }
      BackedLess(index, targets[index], Directory(None, None), saves);
      targets := targets[index := Directory(None, None)];
      alive := Step();
      if !alive { return; }
      targets := targets - {index};
    }

    method SaveSectionBatch(index: nat, documents: seq<Document>, sections: seq<Section>, tableFirst: bool)
      returns (alive: bool)
      requires Valid()
      modifies this
      ensures Valid() && saves == old(saves) + [Save(index, documents, sections)] && left <= old(left)
      ensures forall i | i != index ::
                (i in targets <==> i in old(targets)) && (i in targets ==> targets[i] == old(targets)[i])
      ensures old(left) >= STEPS_OF_SAVE ==> alive && left >= old(left) - STEPS_OF_SAVE
      ensures alive ==> index in targets && targets[index] == Save(index, documents, sections).Complete()
    {
      hide Backed;
      var save := Save(index, documents, sections);
      forall i | i in targets
        ensures Backed(i, targets[i], saves + [save])
      {
        BackedStill(i, targets[i], saves, save);
      }
      BackedByLast(saves, save);
      saves := saves + [save];
      var name;
      alive, name := WriteTemporary(save);
      if !alive { return; }
      alive := RemoveTarget(index, tableFirst);
      if !alive { return; }
      alive := Step();
      if !alive { return; }
      targets := targets[index := temporaries[name]];
      temporaries := temporaries - {name};
    }

    // A load gives nothing, or all rows of one earlier save for these very documents.
    method LoadSectionBatch(index: nat, expected: seq<Document>) returns (r: Option<seq<Section>>)
      requires Valid()
      ensures r.Some? ==> exists k :: 0 <= k < |saves| && saves[k].index == index && saves[k].documents == expected
                                      && r.value == StableSort(saves[k].sections, SectionLeq)
      ensures r.Some? <==>
                && index in targets && targets[index].documents == Some(expected)
                && targets[index].table.Some? && targets[index].table.value.Rows?
                && Fitting(targets[index].table.value.sections, expected)
      ensures r.Some? ==>
                && multiset(r.value) == multiset(targets[index].table.value.sections)
                && Ordered(r.value, SectionLeq)
    {
      if index !in targets || targets[index].documents != Some(expected) {
        return None;
      }
      var table := targets[index].table;
      if table.Some? && table.value.Rows? {
        AcceptableIs(table.value.sections, expected);
      }
      if table.None? || table.value.Unreadable? || !Acceptable(table.value.sections, expected) {
        return None;
      }
      r := Some(StableSort(table.value.sections, SectionLeq));
      SectionsAreOrdered();
      SortKeeps(table.value.sections, SectionLeq);
      SortOrders(table.value.sections, SectionLeq);
    }

    ghost predicate HonestSaves(client: Client)
      reads this
    {
      forall k | 0 <= k < |saves| :: Honest(saves[k], client)
    }

    // The sections of one batch, from its checkpoint or fetched and saved.
    method SectionsOfBatch(index: nat, batch: seq<Document>, finished: seq<Document>, fails: bool, tableFirst: bool,
                           client: Client)
      returns (r: Option<seq<Section>>)
      requires Valid() && HonestSaves(client) && multiset(finished) == multiset(batch)
      modifies this
      ensures Valid() && HonestSaves(client) && left <= old(left)
      ensures r.Some? ==> multiset(r.value) == multiset(Rendered(batch, client))
      ensures !fails && old(left) >= STEPS_OF_SAVE ==> r.Some? && left >= old(left) - STEPS_OF_SAVE
    {
      hide Rendered;
      var rows := LoadSectionBatch(index, batch);
      if rows.Some? {
        ghost var k :| 0 <= k < |saves| && saves[k].documents == batch &&
            rows.value == StableSort(saves[k].sections, SectionLeq);
        assert Honest(saves[k], client);
        SortKeeps(saves[k].sections, SectionLeq);
        return rows;
      }
      var fetched := FetchDocumentSectionsBatch(batch, finished, fails, client);
      if fetched.None? {
        return None;
      }
      var sections := fetched.value.wikipedia + fetched.value.wikivoyage;
      ProjectsTogether(Rendered(batch, client));
      assert Honest(Save(index, batch, sections), client);
      var alive := SaveSectionBatch(index, batch, sections, tableFirst);
      r := if alive then Some(sections) else None;
    }

    // A run from whatever checkpoints there are, with workers finishing in any order:
    // if it ends, then with what a run without checkpoints gives.
    method CheckpointedDocumentSections(documents: seq<Document>, finish: (nat, seq<Document>) -> seq<Document>,
                                        fails: nat -> bool,
                                        tableFirst: nat -> bool, client: Client)
      returns (r: Option<Sections>)
      requires Valid() && HonestSaves(client) && client.Proper() && DistinctIds(documents)
      requires forall k, batch :: multiset(finish(k, batch)) == multiset(batch)
      modifies this
      ensures Valid() && HonestSaves(client)
      ensures r.Some? ==> forall p :: r.value.Of(p) == FreshSections(documents, p, client)
      ensures r.Some? ==> InTurn(r.value.wikipedia) && InTurn(r.value.wikivoyage)
      ensures r.Some? ==> forall s ::
                && (s in r.value.wikipedia <==> s.project == Wikipedia && IsRendered(s, documents, client))
                && (s in r.value.wikivoyage <==> s.project == Wikivoyage && IsRendered(s, documents, client))
      ensures (forall i :: !fails(i)) && old(left) >= StepsFor(|documents|) ==> r.Some?
    {
      hide OfProject, SortedSections, StepsFor, Gathers, IsRendered, InTurn, FreshSections;
      var found := Sections([], []);
      var start, index: nat := 0, 0;
      NothingGathered(found, documents, client);
      while start < |documents|
        invariant start <= |documents| && Valid() && HonestSaves(client)
        invariant Gathers(found, documents[..start], client)
        invariant (forall i :: !fails(i)) && old(left) >= StepsFor(|documents|) ==>
                    left >= StepsFor(|documents| - start)
      {
        var end := start + SECTION_CHECKPOINT_BATCH_SIZE;
        if |documents| < end {
          end := |documents|;
        }
        var batch := documents[start..end];
        NextBatch(|documents| - start, end - start);
        var rows := SectionsOfBatch(index, batch, finish(index, batch), fails(index), tableFirst(index), client);
        if rows.None? {
          return None;
        }
        GathersMore(found, documents[..start], batch, rows.value, client);
        assert documents[..end] == documents[..start] + batch;
        found := found.Add(rows.value);
        start, index := end, index + 1;
      }
      assert documents[..start] == documents;
      GatheredSorts(found, documents, client);
      FreshIs(documents, Wikipedia, client);
      FreshIs(documents, Wikivoyage, client);
      r := Some(SortedSections(found));
    }

    // Any number of runs, each over what the earlier ones left, each cut off anywhere, the
    // workers of every batch of every run finishing in an order of their own: every run that ends gives what a fresh
    // run gives.
    method Runs(inputs: seq<seq<Document>>, budgets: seq<nat>, finish: (nat, nat, seq<Document>) -> seq<Document>,
                fails: (nat, nat) -> bool, tableFirst: (nat, nat) -> bool, client: Client)
      returns (results: seq<Option<Sections>>)
      requires Valid() && HonestSaves(client) && client.Proper() && |inputs| == |budgets|
      requires forall i | 0 <= i < |inputs| :: DistinctIds(inputs[i])
      requires forall i, k, batch :: multiset(finish(i, k, batch)) == multiset(batch)
      modifies this
      ensures Valid() && HonestSaves(client) && |results| == |inputs|
      ensures forall i, p | 0 <= i < |inputs| && results[i].Some? ::
                results[i].value.Of(p) == FreshSections(inputs[i], p, client)
    {
      hide FreshSections;
      results := [];
      for i := 0 to |inputs|
        invariant Valid() && HonestSaves(client) && |results| == i
        invariant forall j, p | 0 <= j < i && results[j].Some? ::
            results[j].value.Of(p) == FreshSections(inputs[j], p, client)
      {
        Restart(budgets[i]);
        var r := CheckpointedDocumentSections(inputs[i], (k: nat, batch) => finish(i, k, batch),
            (k: nat) => fails(i, k),
                                              (k: nat) => tableFirst(i, k), client);
        results := results + [r];
      }
    }
  }

  // The most steps a run over n documents makes: one save for each batch.
  function StepsFor(n: nat): nat {
    STEPS_OF_SAVE * ((n + SECTION_CHECKPOINT_BATCH_SIZE - 1) / SECTION_CHECKPOINT_BATCH_SIZE)
  }

  lemma NextBatch(left: nat, taken: nat)
    requires 0 < left && taken == if left < SECTION_CHECKPOINT_BATCH_SIZE then left else SECTION_CHECKPOINT_BATCH_SIZE
    ensures StepsFor(left) == StepsFor(left - taken) + STEPS_OF_SAVE
  {}

  // The collected sections, before they are sorted.
  ghost predicate Gathers(found: Sections, documents: seq<Document>, client: Client) {
    forall p :: multiset(found.Of(p)) == multiset(OfProject(Rendered(documents, client), p))
  }

  lemma NothingGathered(found: Sections, documents: seq<Document>, client: Client)
    requires found == Sections([], [])
    ensures Gathers(found, documents[..0], client)
  {
    assert documents[..0] == [];
  }

  lemma GathersMore(found: Sections, documents: seq<Document>, batch: seq<Document>, rows: seq<Section>, client: Client)
    requires Gathers(found, documents, client) && multiset(rows) == multiset(Rendered(batch, client))
    ensures Gathers(found.Add(rows), documents + batch, client)
  {
    RenderedJoins(documents, batch, client);
    forall p
      ensures multiset(found.Add(rows).Of(p)) == multiset(OfProject(Rendered(documents + batch, client), p))
    {
      OfProjectSame(rows, Rendered(batch, client), p);
      OfProjectJoins(Rendered(documents, client), Rendered(batch, client), p);
      assert found.Add(rows).Of(p) == found.Of(p) + OfProject(rows, p);
    }
  }

  lemma GatheredSorts(found: Sections, documents: seq<Document>, client: Client)
    requires Gathers(found, documents, client) && client.Proper() && DistinctIds(documents)
    ensures forall p :: SortedSections(found).Of(p) == FreshSections(documents, p, client)
  {
    RenderedTold(documents, client);
    forall p
      ensures SortedSections(found).Of(p) == FreshSections(documents, p, client)
    {
      OfProjectTold(Rendered(documents, client), p);
      SameSorted(found.Of(p), OfProject(Rendered(documents, client), p));
    }
  }
}
