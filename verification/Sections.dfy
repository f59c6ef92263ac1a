/**
 Building the section tree of an article with a stack: every kept section is linked to
 the nearest earlier kept section of smaller level, and its path lists the headings
 above it.
 */
module Sections {
  import opened Wrappers

  // A section as the HTML parser delivers it, level 0 being the lead.
  datatype Parsed = Parsed(heading: string, anchor: string, level: nat, text: string)

  // Stable identifiers are digests, taken here to be as distinct as what they digest.
  datatype SectionId = SectionId(document: string, index: nat, heading: string)

  datatype Section = Section(
    id: SectionId,
    index: nat,
    heading: string,
    anchor: string,
    level: nat,
    parent: Option<SectionId>,
    path: seq<string>,
    text: string)

  const EXCLUDED: set<string> := {"references", "external links", "bibliography", "notes", "further reading"}

  // A document to split, and how the platform folds case.
  datatype Source = Source(document: string, parsed: seq<Parsed>, casefold: string -> string) {
    predicate Kept(i: nat)
      requires i < |parsed|
    {
      casefold(parsed[i].heading) !in EXCLUDED && parsed[i].text != ""
    }

    function Id(i: nat): SectionId
      requires i < |parsed|
    {
      SectionId(document, i, parsed[i].heading)
    }

    /******* The tree, without a stack *******/

    // The last kept section before k whose level is below the given one.
    function Nearest(k: nat, level: nat): (r: Option<nat>)
      requires k <= |parsed|
      ensures r.Some? ==> r.value < k && Kept(r.value) && parsed[r.value].level < level
    {
      if k == 0 then None
      else if Kept(k - 1) && parsed[k - 1].level < level then Some(k - 1)
      else Nearest(k - 1, level)
    }

    lemma {:induction false} NoneNearer(k: nat, level: nat)
      requires k <= |parsed|
      ensures var r := Nearest(k, level);
              forall j | (if r.Some? then r.value + 1 else 0) <= j < k && Kept(j) :: level <= parsed[j].level
    {
      if k > 0 {
        NoneNearer(k - 1, level);
      }
    }

    function Parent(i: nat): (r: Option<nat>)
      requires i < |parsed|
      ensures r.Some? ==> r.value < i && Kept(r.value)
    {
      Nearest(i, parsed[i].level)
    }

    predicate InRange(chain: seq<nat>) {
      forall a | 0 <= a < |chain| :: chain[a] < |parsed|
    }

    // A section and everything above it, outermost first.
    function Chain(top: Option<nat>): (chain: seq<nat>)
      requires top.Some? ==> top.value < |parsed|
      ensures InRange(chain)
      ensures chain == [] <==> top.None?
      ensures top.Some? ==> chain[|chain| - 1] == top.value
      decreases if top.Some? then top.value + 1 else 0
    {
      if top.None? then [] else Chain(Parent(top.value)) + [top.value]
    }

    function Headings(chain: seq<nat>): seq<string>
      requires InRange(chain)
    {
      if chain == [] then []
      else
        var last := parsed[chain[|chain| - 1]].heading;
        Headings(chain[..|chain| - 1]) + if last == "" then [] else [last]
    }

    function SectionAt(i: nat): Section
      requires i < |parsed|
    {
      var p := parsed[i];
      Section(
        Id(i), i, p.heading, p.anchor, p.level,
        if Parent(i).Some? then Some(Id(Parent(i).value)) else None,
        Headings(Chain(Some(i))), p.text)
    }

    function SectionsUpTo(k: nat): seq<Section>
      requires k <= |parsed|
    {
      if k == 0 then []
      else SectionsUpTo(k - 1) + if Kept(k - 1) then [SectionAt(k - 1)] else []
    }

    // The last kept section before k.
    function Latest(k: nat): (r: Option<nat>)
      requires k <= |parsed|
      ensures r.Some? ==> r.value < k && Kept(r.value)
    {
      if k == 0 then None else if Kept(k - 1) then Some(k - 1) else Latest(k - 1)
    }

    /******* What the tree is *******/

    // The parent is the nearest earlier kept section of smaller level, and there is
    // one exactly when any such section exists.
    lemma ParentIsNearest(i: nat, j: nat)
      requires i < |parsed| && j < i
      ensures Parent(i) == Some(j) <==>
                && Kept(j) && parsed[j].level < parsed[i].level
                && forall k | j < k < i && Kept(k) :: parsed[i].level <= parsed[k].level
    {
      var r := Parent(i);
      NoneNearer(i, parsed[i].level);
      if r.Some? && r.value < j {
        assert Kept(j) ==> parsed[i].level <= parsed[j].level;
      }
    }

    lemma OrphanIsLowest(i: nat)
      requires i < |parsed|
      ensures Parent(i).None? <==> forall k: nat | k < i && Kept(k) :: parsed[i].level <= parsed[k].level
    {
      var r := Parent(i);
      NoneNearer(i, parsed[i].level);
      assert r.Some? ==> r.value < i && Kept(r.value) && parsed[r.value].level < parsed[i].level;
    }

    // A section stands above another exactly when its level is below that of
    // everything kept after it up to and including the other.
    ghost predicate Above(k: nat, i: nat)
      requires i < |parsed|
    {
      k < i && Kept(k) && parsed[k].level < parsed[i].level
      && forall j | k < j < i && Kept(j) :: parsed[k].level < parsed[j].level
    }

    lemma AboveThroughParent(i: nat, q: nat, k: nat)
      requires i < |parsed| && Parent(i) == Some(q)
      ensures Above(k, i) <==> k == q || Above(k, q)
    {
      hide Parent;
      ParentIsNearest(i, q);
      if Above(k, q) {
        assert parsed[k].level < parsed[q].level < parsed[i].level;
        forall j | k < j < i && Kept(j)
          ensures parsed[k].level < parsed[j].level
        {
          assert j > q ==> parsed[i].level <= parsed[j].level;
        }
      }
    }

    lemma {:induction false} AncestorsAreAbove(i: nat, k: nat)
      requires i < |parsed|
      ensures k in Chain(Parent(i)) <==> Above(k, i)
      decreases i
    {
      hide Above, Parent;
      var p := Parent(i);
      if p.None? {
        OrphanHasNoneAbove(i, k);
      } else {
        AncestorsAreAbove(p.value, k);
        AboveThroughParent(i, p.value, k);
        assert Chain(p) == Chain(Parent(p.value)) + [p.value];
      }
    }

    lemma OrphanHasNoneAbove(i: nat, k: nat)
      requires i < |parsed| && Parent(i).None?
      ensures !Above(k, i)
    {
      OrphanIsLowest(i);
    }

    // Along a chain both positions and levels rise strictly.
    lemma {:induction false} ChainRises(top: Option<nat>, a: nat, b: nat)
      requires top.Some? ==> top.value < |parsed|
      requires a < b < |Chain(top)|
      ensures Chain(top)[a] < Chain(top)[b] < |parsed|
      ensures parsed[Chain(top)[a]].level < parsed[Chain(top)[b]].level
      decreases if top.Some? then top.value else 0
    {
      var rest := Chain(Parent(top.value));
      if b < |rest| {
        ChainRises(Parent(top.value), a, b);
      } else {
        assert Chain(top)[b] == top.value && rest[a] in rest;
        AncestorsAreAbove(top.value, rest[a]);
      }
    }

    // A path is the parent's path and the section's own heading, if it has one.
    lemma PathFollowsParent(i: nat)
      requires i < |parsed|
      ensures SectionAt(i).path ==
                (if Parent(i).Some? then SectionAt(Parent(i).value).path else [])
                + if parsed[i].heading == "" then [] else [parsed[i].heading]
    {
      hide Parent;
      var chain, above := Chain(Some(i)), Chain(Parent(i));
      assert chain == above + [i];
      assert chain[..|chain| - 1] == above;
      assert SectionAt(i).path == Headings(above) + if parsed[i].heading == "" then [] else [parsed[i].heading];
      if Parent(i).None? {
        assert above == [];
      } else {
        assert Parent(i) == Some(Parent(i).value);
        assert SectionAt(Parent(i).value).path == Headings(above);
      }
    }

    // The rows are the kept sections, each once, in the order of the article.
    lemma {:induction false} KeptHasRow(k: nat, i: nat)
      requires k <= |parsed| && i < |parsed|
      ensures SectionAt(i) in SectionsUpTo(k) <==>
                && i < k && parsed[i].text != ""
                && casefold(parsed[i].heading) !in
                     ["references", "external links", "bibliography", "notes", "further reading"]
    {
      if k > 0 {
        KeptHasRow(k - 1, i);
        assert SectionAt(k - 1).index == k - 1;
      }
    }

    lemma {:induction false} RowsInOrder(k: nat, a: nat)
      requires k <= |parsed| && a < |SectionsUpTo(k)|
      ensures SectionsUpTo(k)[a].index < k && SectionsUpTo(k)[a] == SectionAt(SectionsUpTo(k)[a].index)
      ensures forall b | a < b < |SectionsUpTo(k)| :: SectionsUpTo(k)[a].index < SectionsUpTo(k)[b].index
    {
      if a < |SectionsUpTo(k - 1)| {
        RowsInOrder(k - 1, a);
      }
    }

    /******* The stack *******/

    // Looking further back than a section of at least the wanted level may start at
    // that section's own parent.
    lemma {:induction false} SkipToParent(k: nat, level: nat, own: nat)
      requires k <= |parsed| && level <= own
      ensures Nearest(k, level) == NearestFrom(Nearest(k, own), level)
    {
      if k > 0 && !(Kept(k - 1) && parsed[k - 1].level < own) {
        SkipToParent(k - 1, level, own);
      }
    }

    lemma {:induction false} SkipToLatest(k: nat, level: nat)
      requires k <= |parsed|
      ensures Nearest(k, level) == NearestFrom(Latest(k), level)
    {
      if k > 0 && !Kept(k - 1) {
        SkipToLatest(k - 1, level);
      }
    }

    // What a search for a smaller level finds from there on down.
    function NearestFrom(top: Option<nat>, level: nat): Option<nat>
      requires top.Some? ==> top.value < |parsed|
    {
      if top.None? then None else Nearest(top.value + 1, level)
    }

    // The stack holds the sections of a chain.
    ghost predicate Holds(stack: seq<Section>, top: Option<nat>)
      requires top.Some? ==> top.value < |parsed|
    {
      && |stack| == |Chain(top)|
      && forall k | 0 <= k < |stack| :: stack[k] == SectionAt(Chain(top)[k])
    }

    lemma StackLevelsRise(stack: seq<Section>, top: Option<nat>, a: nat, b: nat)
      requires top.Some? ==> top.value < |parsed|
      requires Holds(stack, top) && a < b < |stack|
      ensures stack[a].level < stack[b].level
    {
      ChainRises(top, a, b);
    }

    lemma {:induction false} HeadingsOfStack(stack: seq<Section>, chain: seq<nat>)
      requires |stack| == |chain| && InRange(chain)
      requires forall k | 0 <= k < |stack| :: stack[k].heading == parsed[chain[k]].heading
      ensures NonEmptyHeadings(stack) == Headings(chain)
    {
      if stack != [] {
        HeadingsOfStack(stack[..|stack| - 1], chain[..|chain| - 1]);
      }
    }

    lemma NothingHeld()
      ensures Holds([], None)
    {}

    lemma TopOfStack(stack: seq<Section>, top: Option<nat>)
      requires top.Some? ==> top.value < |parsed|
      requires Holds(stack, top)
      ensures stack == [] <==> top.None?
      ensures stack != [] ==> stack[|stack| - 1] == SectionAt(top.value)
    {}

    lemma PopStack(stack: seq<Section>, p: nat)
      requires p < |parsed| && Holds(stack, Some(p))
      ensures stack != [] && Holds(stack[..|stack| - 1], Parent(p))
    {
      assert Chain(Some(p)) == Chain(Parent(p)) + [p];
    }

    lemma PushStack(stack: seq<Section>, i: nat)
      requires i < |parsed| && Holds(stack, Parent(i))
      ensures Holds(stack + [SectionAt(i)], Some(i))
    {
      assert Chain(Some(i)) == Chain(Parent(i)) + [i];
    }

    // Pops until the top is of smaller level: what remains is the parent's chain.
    method TrimStack(stack: seq<Section>, i: nat) returns (rest: seq<Section>)
      requires i < |parsed| && Holds(stack, Latest(i))
      ensures Holds(rest, Parent(i))
    {
      hide Holds, Chain, Headings;
      rest := stack;
      ghost var at: Option<nat> := Latest(i);
      var level := parsed[i].level;
      SkipToLatest(i, level);
      TopOfStack(rest, at);
      while rest != [] && rest[|rest| - 1].level >= level
        invariant at.Some? ==> at.value < i && Kept(at.value)
        invariant Holds(rest, at) && (rest == [] <==> at.None?)
        invariant rest != [] ==> rest[|rest| - 1] == SectionAt(at.value)
        invariant Parent(i) == NearestFrom(at, level)
        decreases |rest|
      {
        ghost var p := at.value;
        SkipToParent(p, level, parsed[p].level);
        PopStack(rest, p);
        rest := rest[..|rest| - 1];
        at := Parent(p);
        TopOfStack(rest, at);
      }
      assert at == Parent(i);
    }

    method MakeSection(i: nat, stack: seq<Section>) returns (row: Section)
      requires i < |parsed| && Holds(stack, Parent(i))
      ensures row == SectionAt(i)
    {
      var p := parsed[i];
      var path := NonEmptyHeadings(stack) + if p.heading != "" then [p.heading] else [];
      HeadingsOfStack(stack, Chain(Parent(i)));
      assert Chain(Some(i))[..|Chain(Some(i))| - 1] == Chain(Parent(i));
      var parent := if stack != [] then Some(stack[|stack| - 1].id) else None;
      row := Section(Id(i), i, p.heading, p.anchor, p.level, parent, path, p.text);
    }

    // What a row repeats of its section.
    ghost predicate Repeats(row: Section) {
      && row.index < |parsed| && row.id == SectionId(document, row.index, parsed[row.index].heading)
      && row.heading == parsed[row.index].heading && row.anchor == parsed[row.index].anchor
      && row.level == parsed[row.index].level && row.text == parsed[row.index].text
    }

    lemma RowRepeats(i: nat)
      requires i < |parsed|
      ensures Repeats(SectionAt(i))
    {}

    method BuildSections() returns (rows: seq<Section>)
      ensures rows == SectionsUpTo(|parsed|)
      ensures forall row | row in rows :: Repeats(row)
    {
      hide Holds, SectionAt, Repeats;
      rows := [];
      NothingHeld();
      var stack: seq<Section> := [];
      for i := 0 to |parsed|
        invariant rows == SectionsUpTo(i) && forall row | row in rows :: Repeats(row)
        invariant Holds(stack, Latest(i))
      {
        if !Kept(i) {
          continue;
        }
        stack := TrimStack(stack, i);
        var row := MakeSection(i, stack);
        PushStack(stack, i);
        RowRepeats(i);
        rows := rows + [row];
        stack := stack + [row];
      }
    }
  }

  function NonEmptyHeadings(stack: seq<Section>): seq<string> {
    if stack == [] then []
    else
      var last := stack[|stack| - 1].heading;
      NonEmptyHeadings(stack[..|stack| - 1]) + if last != "" then [last] else []
  }
}
