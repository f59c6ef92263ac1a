/**
 Splitting rows by language: the rule that names a row's partition, and the fast
 groupings (dictionary codes, one stable sort, bulk counts) that must agree with
 looking at one row after another.
 */
module LanguageGrouping {
  import opened Wrappers
  import opened Sorting
  import opened WikidataQids

  /******* The rule *******/

  datatype Value = Null | NotText(tag: nat) | Text(text: string)

  datatype Disposition = Canonical | LegacyAlias | Missing | Blank | Malformed | LegacyUnusable

  datatype Resolution = Resolution(language: Option<string>, partition: string, disposition: Disposition)

  // How the platform strips and lowers text.
  datatype Platform = Platform(strip: string -> string, lower: string -> string)

  const UNKNOWN_LANGUAGE := "unknown"
  const LEGACY_ALIASES: map<string, string> := map["be_x_old" := "be-tarask"]
  const LEGACY_UNUSABLE_VALUES: set<string> := {"abstract", "simple"}

  function Unknown(d: Disposition): Resolution {
    Resolution(None, UNKNOWN_LANGUAGE, d)
  }

  // The letters that a case-insensitive a-z matches: both cases of the ASCII letters
  // and four others that fold to them.
  predicate Letter(c: char) {
    'a' <= c <= 'z' || 'A' <= c <= 'Z' || c in {'\U{0130}', '\U{0131}', '\U{017F}', '\U{212A}'}
  }

  predicate Letters(s: string) {
    forall c | c in s :: Letter(c)
  }

  predicate LettersOrDigits(s: string) {
    forall c | c in s :: Letter(c) || '0' <= c <= '9'
  }

  predicate SubtagOf(s: string, n: nat) {
    2 <= n <= 8 && n < |s| && LettersOrDigits(s[1..n + 1])
  }

  predicate Subtags(s: string)
    decreases |s|
  {
    s == "" || (s[0] == '-' && exists n: nat :: n < |s| && SubtagOf(s, n) && Subtags(s[n + 1..]))
  }

  predicate PrimaryOf(s: string, n: nat) {
    2 <= n <= 3 && n <= |s| && Letters(s[..n])
  }

  // Two or three letters, then any number of dashed subtags of two to eight characters.
  predicate LanguageTag(s: string) {
    exists n: nat :: n <= |s| && PrimaryOf(s, n) && Subtags(s[n..])
  }

  function Underscores(s: string): string {
    seq(|s|, i requires 0 <= i < |s| => if s[i] == '_' then '-' else s[i])
  }

  function NormalizeText(text: string, p: Platform): Resolution {
    var lowered := p.lower(text);
    if lowered in LEGACY_ALIASES then
      Resolution(Some(LEGACY_ALIASES[lowered]), LEGACY_ALIASES[lowered], LegacyAlias)
    else
      var candidate := Underscores(lowered);
      if candidate in LEGACY_UNUSABLE_VALUES then Unknown(LegacyUnusable)
      else if !LanguageTag(candidate) then Unknown(Malformed)
      else Resolution(Some(candidate), candidate, Canonical)
  }

  function Normalize(v: Value, p: Platform): Resolution {
    match v
    case Null => Unknown(Missing)
    case NotText(_) => Unknown(Malformed)
    case Text(text) =>
      var stripped := p.strip(text);
      if stripped == "" then Unknown(Blank) else NormalizeText(stripped, p)
  }

  /******* The rule by its parts *******/

  // The parts between dashes: two or three letters, then two to eight letters or digits.
  ghost predicate TagParts(parts: seq<string>) {
    && |parts| > 0 && 2 <= |parts[0]| <= 3 && (forall c | c in parts[0] :: IsLetter(c))
    && forall i | 1 <= i < |parts| :: IsSubtag(parts[i])
  }

  ghost predicate IsSubtag(part: string) {
    2 <= |part| <= 8 && forall c | c in part :: IsLetter(c) || '0' <= c <= '9'
  }

  ghost predicate IsLetter(c: char) {
    'a' <= c <= 'z' || 'A' <= c <= 'Z'
    || c == '\U{0130}' || c == '\U{0131}' || c == '\U{017F}' || c == '\U{212A}'
  }

  ghost predicate AreSubtags(parts: seq<string>) {
    forall i | 0 <= i < |parts| :: IsSubtag(parts[i])
  }

  lemma SubtagsJoin(part: string, rest: seq<string>)
    ensures AreSubtags([part] + rest) <==> IsSubtag(part) && AreSubtags(rest)
  {
    var all := [part] + rest;
    if AreSubtags(all) {
      assert all[0] == part && forall i | 0 <= i < |rest| :: rest[i] == all[i + 1];
    }
  }

  // The part before the first dash, and what follows it.
  lemma {:induction false} FirstPart(s: string) returns (part: string, rest: string)
    ensures '-' !in part && (s == part || s == part + "-" + rest)
    ensures Split(s, '-') == if s == part then [part] else [part] + Split(rest, '-')
  {
    if s == "" {
      part, rest := "", "";
    } else if s[0] == '-' {
      part, rest := "", s[1..];
      assert s == part + "-" + rest;
    } else {
      part, rest := FirstPart(s[1..]);
      part := [s[0]] + part;
      assert s == [s[0]] + s[1..];
      SplitPart(part, rest, '-');
    }
  }

  // Whatever else is cut off before a dash or at the end is that part.
  lemma CutIsFirst(s: string, part: string, rest: string, n: nat)
    requires '-' !in part && (s == part || s == part + "-" + rest)
    requires n <= |s| && '-' !in s[..n] && (n < |s| ==> s[n] == '-')
    ensures n == |part| && s[..n] == part
  {
    assert forall k | 0 <= k < |part| :: s[k] == part[k] != '-';
    assert forall k | 0 <= k < n :: s[k] == s[..n][k] != '-';
    assert s[..|part|] == part && (|part| < |s| ==> s[|part|] == '-');
  }

  lemma SubtagIs(s: string, n: nat)
    requires n < |s|
    ensures SubtagOf(s, n) <==> IsSubtag(s[1..n + 1])
    ensures SubtagOf(s, n) ==> '-' !in s[1..n + 1]
  {}

  lemma SubtagsByFirst(s: string, part: string, rest: string)
    requires s != "" && s[0] == '-' && '-' !in part && (s[1..] == part || s[1..] == part + "-" + rest)
    ensures Subtags(s) <==> IsSubtag(part) && Subtags(s[|part| + 1..])
  {
    hide SubtagOf, IsSubtag;
    var t, n := s[1..], |part|;
    assert t[..n] == part == s[1..n + 1];
    SubtagIs(s, n);
    if Subtags(s) {
      var m: nat :| m < |s| && SubtagOf(s, m) && Subtags(s[m + 1..]);
      SubtagIs(s, m);
      assert t[..m] == s[1..m + 1] && t[m..] == s[m + 1..];
      CutIsFirst(t, part, rest, m);
    }
  }

  lemma {:induction false} SubtagsAre(s: string)
    ensures Subtags(s) <==> s == "" || (s[0] == '-' && AreSubtags(Split(s[1..], '-')))
    decreases |s|
  {
    if s != "" && s[0] == '-' {
      hide IsSubtag, AreSubtags, Split;
      var part, rest := FirstPart(s[1..]);
      var after := s[|part| + 1..];
      SubtagsByFirst(s, part, rest);
      SubtagsAre(after);
      hide Subtags;
      if s[1..] == part {
        assert after == "" && [part] == [part] + [];
        SubtagsJoin(part, []);
        NoSubtags();
      } else {
        assert after[0] == '-' && after[1..] == rest;
        SubtagsJoin(part, Split(rest, '-'));
      }
    } else {
      hide Split, AreSubtags;
    }
  }

  lemma NoSubtags()
    ensures AreSubtags([])
  {}

  lemma TagIsParts(s: string)
    ensures LanguageTag(s) <==> TagParts(Split(s, '-'))
  {
    var part, rest := FirstPart(s);
    var n := |part|;
    assert s[..n] == part && s[n..] == if s == part then "" else "-" + rest;
    PartsOfTag(s, part, rest);
    SubtagsAre(s[n..]);
    hide Subtags, Split, TagParts, AreSubtags;
    if s != part {
      assert s[n..][1..] == rest;
    }
    PrimaryIs(s, n);
    if LanguageTag(s) {
      var m: nat :| m <= |s| && PrimaryOf(s, m) && Subtags(s[m..]);
      SubtagsAre(s[m..]);
      PrimaryIs(s, m);
      CutIsFirst(s, part, rest, m);
    }
  }

  lemma PrimaryIs(s: string, n: nat)
    requires n <= |s|
    ensures PrimaryOf(s, n) <==> 2 <= n <= 3 && forall c | c in s[..n] :: IsLetter(c)
    ensures PrimaryOf(s, n) ==> '-' !in s[..n]
  {}

  lemma PartsOfTag(s: string, part: string, rest: string)
    requires Split(s, '-') == if s == part then [part] else [part] + Split(rest, '-')
    ensures TagParts(Split(s, '-')) <==>
              2 <= |part| <= 3 && (forall c | c in part :: IsLetter(c))
              && (s == part || AreSubtags(Split(rest, '-')))
  {
    var parts := Split(s, '-');
    if s != part {
      assert forall i | 1 <= i < |parts| :: parts[i] == Split(rest, '-')[i - 1];
      assert forall i | 0 <= i < |Split(rest, '-')| :: Split(rest, '-')[i] == parts[i + 1];
    }
  }

  // What a value normalizes to, case by case.
  lemma NormalizedIs(v: Value, p: Platform)
    ensures var r := Normalize(v, p);
            if v == Null then r == Resolution(None, "unknown", Missing)
            else if v.NotText? then r == Resolution(None, "unknown", Malformed)
            else if p.strip(v.text) == "" then r == Resolution(None, "unknown", Blank)
            else
              var lowered := p.lower(p.strip(v.text));
              if lowered == "be_x_old" then r == Resolution(Some("be-tarask"), "be-tarask", LegacyAlias)
              else
                var code := Underscores(lowered);
                && |code| == |lowered|
                && (forall i | 0 <= i < |code| :: code[i] == if lowered[i] == '_' then '-' else lowered[i])
                && if code == "abstract" || code == "simple" then r == Resolution(None, "unknown", LegacyUnusable)
                   else if TagParts(Split(code, '-')) then r == Resolution(Some(code), code, Canonical)
                   else r == Resolution(None, "unknown", Malformed)
  {
    if v.Text? {
      var code := Underscores(p.lower(p.strip(v.text)));
      TagIsParts(code);
      assert forall i | 0 <= i < |code| :: code[i] == if p.lower(p.strip(v.text))[i] == '_' then '-' else
          p.lower(p.strip(v.text))[i];
    }
  }

  lemma UnknownIsNoTag()
    ensures !LanguageTag(UNKNOWN_LANGUAGE)
  {
    assert forall n: nat | PrimaryOf(UNKNOWN_LANGUAGE, n) ::
        UNKNOWN_LANGUAGE[n..] != "" && UNKNOWN_LANGUAGE[n..][0] != '-';
  }

  // The unknown partition collects exactly the rows without a usable language; no
  // language is ever called that.
  lemma UnknownIsUnusable(v: Value, p: Platform)
    ensures var r := Normalize(v, p);
            && (r.partition == UNKNOWN_LANGUAGE <==> r.disposition != Canonical && r.disposition != LegacyAlias)
            && (r.partition == UNKNOWN_LANGUAGE <==> r.language == None)
            && (r.language.Some? ==> r.language.value == r.partition && LanguageTag(r.partition))
  {
    UnknownIsNoTag();
    AliasIsTag();
  }

  lemma AliasIsTag()
    ensures LanguageTag("be-tarask")
  {
    hide Letters, Subtags;
    var s, rest := "be-tarask", "-tarask";
    AliasEnds();
    assert s[..2] == "be" && s[2..] == rest;
    BeIsPrimary(s);
  }

  lemma BeIsPrimary(s: string)
    requires |s| >= 2 && s[..2] == "be"
    ensures PrimaryOf(s, 2)
  {}

  lemma AliasEnds()
    ensures Subtags("-tarask")
  {
    var rest := "-tarask";
    assert Subtags("");
    assert rest[1..7] == "tarask" && rest[7..] == "";
    TaraskIsSubtag();
  }

  lemma TaraskIsSubtag()
    ensures SubtagOf("-tarask", 6)
  {
    hide Letter;
    assert "-tarask"[1..7] == "tarask";
    assert forall c | c in "tarask" :: Letter(c) by {
      SmallLetters("tarask");
    }
  }

  lemma SmallLetters(s: string)
    requires forall c | c in s :: 'a' <= c <= 'z'
    ensures forall c | c in s :: Letter(c)
  {}

  /******* Row by row *******/

  type Groups<T> = seq<(T, seq<nat>)>

  function Names(column: seq<Value>, p: Platform): seq<string> {
    seq(|column|, i requires 0 <= i < |column| => Normalize(column[i], p).partition)
  }

  predicate HasGroup<T(==)>(groups: Groups<T>, name: T) {
    exists i :: 0 <= i < |groups| && groups[i].0 == name
  }

  // Appends the row to its group, or opens a group at the end.
  function AddRow<T(==)>(groups: Groups<T>, name: T, row: nat): Groups<T> {
    if HasGroup(groups, name) then
      seq(|groups|, i requires 0 <= i < |groups| =>
        if groups[i].0 == name then (name, groups[i].1 + [row]) else groups[i])
    else groups + [(name, [row])]
  }

  function RowByRow<T(==)>(names: seq<T>, k: nat): Groups<T>
    requires k <= |names|
  {
    if k == 0 then [] else AddRow(RowByRow(names, k - 1), names[k - 1], k - 1)
  }

  // The rows before k that hold a value, ascending.
  function Rows<T(==)>(s: seq<T>, value: T, k: nat): (rows: seq<nat>)
    requires k <= |s|
    ensures forall i, j | 0 <= i < j < |rows| :: rows[i] < rows[j]
    ensures forall i: nat :: i in rows <==> i < k && s[i] == value
  {
    if k == 0 then []
    else
      var rows := Rows(s, value, k - 1);
      assert forall i | 0 <= i < |rows| :: rows[i] in rows;
      if s[k - 1] == value then rows + [k - 1] else rows
  }

  ghost predicate FirstBefore<T>(a: (T, seq<nat>), b: (T, seq<nat>)) {
    a.1 != [] && b.1 != [] && a.1[0] < b.1[0]
  }

  // One group for each name in use, holding exactly its rows, in order of first use.
  ghost predicate Grouping<T(!new)>(groups: Groups<T>, names: seq<T>, k: nat)
    requires k <= |names|
  {
    && Ascends(groups, FirstBefore<T>)
    && forall g :: g in groups <==> g.1 != [] && g.1 == Rows(names, g.0, k)
  }

  lemma GroupingIsUnique<T(!new)>(a: Groups<T>, b: Groups<T>, names: seq<T>, k: nat)
    requires k <= |names| && Grouping(a, names, k) && Grouping(b, names, k)
    ensures a == b
  {
    assert SameElements(a, b);
    AscendingIsUnique(a, b, FirstBefore<T>);
  }

  lemma GroupIsOfUse<T(!new)>(groups: Groups<T>, names: seq<T>, k: nat, name: T)
    requires k <= |names| && Grouping(groups, names, k)
    ensures HasGroup(groups, name) <==> Rows(names, name, k) != []
    ensures forall i | 0 <= i < |groups| :: groups[i].1 != [] && groups[i].1 == Rows(names, groups[i].0, k)
  {
    assert forall i | 0 <= i < |groups| :: groups[i] in groups;
    if Rows(names, name, k) != [] {
      assert (name, Rows(names, name, k)) in groups;
    }
  }

  lemma AddRowGroups<T(!new)>(groups: Groups<T>, names: seq<T>, k: nat)
    requires k < |names| && Grouping(groups, names, k)
    ensures Grouping(AddRow(groups, names[k], k), names, k + 1)
  {
    var name, more := names[k], AddRow(groups, names[k], k);
    GroupIsOfUse(groups, names, k, name);
    forall i, j | 0 <= i < j < |more|
      ensures FirstBefore(more[i], more[j])
    {
      if j < |groups| {
        assert FirstBefore(groups[i], groups[j]);
      } else {
        assert groups[i].1[0] in groups[i].1;
      }
    }
    forall g
      ensures g in more <==> g.1 != [] && g.1 == Rows(names, g.0, k + 1)
    {
      GroupAfterRow(groups, names, k, g);
    }
  }

  lemma GroupAfterRow<T(!new)>(groups: Groups<T>, names: seq<T>, k: nat, g: (T, seq<nat>))
    requires k < |names| && Grouping(groups, names, k)
    ensures g in AddRow(groups, names[k], k) <==> g.1 != [] && g.1 == Rows(names, g.0, k + 1)
  {
    var name, rows, more := names[k], Rows(names, names[k], k), AddRow(groups, names[k], k);
    GroupIsOfUse(groups, names, k, name);
    InAddRow(groups, name, k, g);
    if g.0 != name {
      assert Rows(names, g.0, k + 1) == Rows(names, g.0, k);
    } else if rows != [] {
      var front := if g.1 == [] then [] else g.1[..|g.1| - 1];
      assert Rows(names, name, k + 1) == rows + [k];
      assert (name, front) in groups <==> front != [] && front == rows;
      assert g.1 == rows + [k] <==> g.1 != [] && g.1[|g.1| - 1] == k && front == rows;
    } else {
      assert Rows(names, name, k + 1) == [k];
      assert g !in groups;
    }
  }

  // The members of the groups after one more row.
  lemma InAddRow<T(!new)>(groups: Groups<T>, name: T, row: nat, g: (T, seq<nat>))
    ensures HasGroup(groups, name) ==>
              (g in AddRow(groups, name, row) <==>
                 (g in groups && g.0 != name)
                 || (g.0 == name && g.1 != [] && g.1[|g.1| - 1] == row && (name, g.1[..|g.1| - 1]) in groups))
    ensures !HasGroup(groups, name) ==> (g in AddRow(groups, name, row) <==> g in groups || g == (name, [row]))
  {
    if HasGroup(groups, name) {
      var more := AddRow(groups, name, row);
      if g in more {
        var i :| 0 <= i < |more| && more[i] == g;
        assert groups[i] in groups;
        assert g.0 == name ==> g.1[..|g.1| - 1] == groups[i].1;
      }
      if g in groups && g.0 != name {
        var i :| 0 <= i < |groups| && groups[i] == g;
        assert more[i] == g;
      }
      if g.0 == name && g.1 != [] && g.1[|g.1| - 1] == row && (name, g.1[..|g.1| - 1]) in groups {
        var i :| 0 <= i < |groups| && groups[i] == (name, g.1[..|g.1| - 1]);
        assert g.1 == g.1[..|g.1| - 1] + [row];
        assert more[i] == g;
      }
    }
  }

  lemma NothingGroups<T(!new)>(names: seq<T>)
    ensures Grouping([], names, 0)
  {
    forall g: (T, seq<nat>)
      ensures !(g.1 != [] && g.1 == Rows(names, g.0, 0))
    {
      assert Rows(names, g.0, 0) == [];
    }
  }

  // Row by row gives the one grouping there is.
  lemma {:induction false} RowByRowGroups<T(!new)>(names: seq<T>, k: nat)
    requires k <= |names|
    ensures Grouping(RowByRow(names, k), names, k)
  {
    hide AddRow;
    if k == 0 {
      NothingGroups(names);
    } else {
      hide Grouping;
      RowByRowGroups(names, k - 1);
      AddRowGroups(RowByRow(names, k - 1), names, k - 1);
    }
  }

  /******* Columnar kernels *******/

  // A dictionary encoding of a column: any dictionary, in any order, with nulls apart.
  ghost predicate Encodes(column: seq<Value>, dictionary: seq<Value>, codes: seq<Option<nat>>) {
    |codes| == |column|
    && forall i | 0 <= i < |column| ::
         if codes[i].None? then column[i] == Null
             else codes[i].value < |dictionary| && dictionary[codes[i].value] == column[i]
  }

  // Distinct values with their numbers of occurrences, in order of first occurrence.
  function ValueCounts<T(==)>(s: seq<T>): seq<(T, nat)> {
    Sizes(RowByRow(s, |s|))
  }

  function Sizes<T>(groups: Groups<T>): (sizes: seq<(T, nat)>)
    ensures |sizes| == |groups| && forall i | 0 <= i < |groups| :: sizes[i] == (groups[i].0, |groups[i].1|)
  {
    seq(|groups|, i requires 0 <= i < |groups| => (groups[i].0, |groups[i].1|))
  }

  lemma GroupsAreDistinct<T(!new)>(groups: Groups<T>, s: seq<T>, k: nat)
    requires k <= |s| && Grouping(groups, s, k)
    ensures forall i, j | 0 <= i < j < |groups| :: groups[i].0 != groups[j].0
  {
    forall i, j | 0 <= i < j < |groups|
      ensures groups[i].0 != groups[j].0
    {
      assert FirstBefore(groups[i], groups[j]);
      assert groups[i] in groups && groups[j] in groups;
    }
  }

  lemma ValueCountsCount<T(!new)>(s: seq<T>, x: (T, nat))
    ensures x in ValueCounts(s) <==> x.1 == |Rows(s, x.0, |s|)| > 0
  {
    var groups := RowByRow(s, |s|);
    RowByRowGroups(s, |s|);
    if x in ValueCounts(s) {
      var i :| 0 <= i < |groups| && ValueCounts(s)[i] == x;
      assert groups[i] in groups;
    }
    if x.1 == |Rows(s, x.0, |s|)| > 0 {
      var g := (x.0, Rows(s, x.0, |s|));
      assert g in groups;
      var i :| 0 <= i < |groups| && groups[i] == g;
      assert ValueCounts(s)[i] == x;
    }
  }

  // The order of positions by their identifiers; nothing is said of other positions.
  function KeyAt(ids: seq<nat>, i: nat): nat {
    if i < |ids| then ids[i] else 0
  }

  function ByIdentifier(ids: seq<nat>): (nat, nat) -> bool {
    (i: nat, j: nat) => KeyAt(ids, i) <= KeyAt(ids, j)
  }

  ghost function Precedes(ids: seq<nat>): (nat, nat) -> bool {
    (i: nat, j: nat) => KeyAt(ids, i) < KeyAt(ids, j) || (KeyAt(ids, i) == KeyAt(ids, j) && i < j)
  }

  function Positions(n: nat): seq<nat> {
    seq(n, i => i)
  }

  // The positions sorted by identifier, equal identifiers in their original order.
  function SortIndices(ids: seq<nat>): seq<nat> {
    StableSort(Positions(|ids|), ByIdentifier(ids))
  }

  lemma SortIndicesPrecede(ids: seq<nat>)
    ensures Ascends(SortIndices(ids), Precedes(ids))
    ensures forall i: nat :: i in SortIndices(ids) <==> i < |ids|
  {
    var positions, leq := Positions(|ids|), ByIdentifier(ids);
    assert TotalPreorder(leq);
    SortRanks(positions, leq, (i: nat) => i);
    SortKeeps(positions, leq);
    forall i, j | 0 <= i < j < |SortIndices(ids)|
      ensures Precedes(ids)(SortIndices(ids)[i], SortIndices(ids)[j])
    {
      assert RankedBefore(SortIndices(ids)[i], SortIndices(ids)[j], leq, (i: nat) => i);
    }
    forall i: nat
      ensures i in positions <==> i < |ids|
    {
      assert i < |ids| ==> positions[i] == i;
    }
  }

  // The rows of the first k runs, one run after another.
  function Concatenated(ids: seq<nat>, runs: seq<(nat, nat)>, k: nat): seq<nat>
    requires k <= |runs|
  {
    if k == 0 then [] else Concatenated(ids, runs, k - 1) + Rows(ids, runs[k - 1].0, |ids|)
  }

  ghost predicate RunsAscend(runs: seq<(nat, nat)>) {
    forall i, j | 0 <= i < j < |runs| :: runs[i].0 < runs[j].0
  }

  ghost predicate InRuns(id: nat, runs: seq<(nat, nat)>, k: nat)
    requires k <= |runs|
  {
    exists j :: 0 <= j < k && runs[j].0 == id
  }

  lemma {:induction false} ConcatenatedHolds(ids: seq<nat>, runs: seq<(nat, nat)>, k: nat, i: nat)
    requires k <= |runs|
    ensures i in Concatenated(ids, runs, k) <==> i < |ids| && InRuns(ids[i], runs, k)
  {
    if k > 0 {
      ConcatenatedHolds(ids, runs, k - 1, i);
      assert i in Rows(ids, runs[k - 1].0, |ids|) <==> i < |ids| && runs[k - 1].0 == ids[i];
      if i < |ids| {
        assert InRuns(ids[i], runs, k) <==> InRuns(ids[i], runs, k - 1) || runs[k - 1].0 == ids[i];
      }
    }
  }

  lemma {:induction false} ConcatenatedPrecede(ids: seq<nat>, runs: seq<(nat, nat)>, k: nat)
    requires k <= |runs| && RunsAscend(runs)
    ensures Ascends(Concatenated(ids, runs, k), Precedes(ids))
  {
    hide Rows, RunsAscend, Precedes;
    if k > 0 {
      ConcatenatedPrecede(ids, runs, k - 1);
      var first, second := Concatenated(ids, runs, k - 1), Rows(ids, runs[k - 1].0, |ids|);
      forall a, b | 0 <= a < |first| && 0 <= b < |second|
        ensures Precedes(ids)(first[a], second[b])
      {
        assert first[a] in first && second[b] in second;
        RunsPrecede(ids, runs, k - 1, first[a], second[b]);
      }
      RowsPrecede(ids, runs[k - 1].0);
      JoinAscends(first, second, Precedes(ids));
    }
  }

  lemma RunsPrecede(ids: seq<nat>, runs: seq<(nat, nat)>, k: nat, i: nat, j: nat)
    requires k < |runs| && RunsAscend(runs)
    requires i in Concatenated(ids, runs, k) && j in Rows(ids, runs[k].0, |ids|)
    ensures Precedes(ids)(i, j)
  {
    ConcatenatedHolds(ids, runs, k, i);
  }

  lemma RowsPrecede(ids: seq<nat>, id: nat)
    ensures Ascends(Rows(ids, id, |ids|), Precedes(ids))
  {
    var rows := Rows(ids, id, |ids|);
    assert forall a | 0 <= a < |rows| :: rows[a] in rows;
  }

  lemma JoinAscends<T>(first: seq<T>, second: seq<T>, less: (T, T) -> bool)
    requires Ascends(first, less) && Ascends(second, less)
    requires forall a, b | 0 <= a < |first| && 0 <= b < |second| :: less(first[a], second[b])
    ensures Ascends(first + second, less)
  {}

  function RunLeq(a: (nat, nat), b: (nat, nat)): bool {
    a.0 < b.0 || (a.0 == b.0 && a.1 <= b.1)
  }

  // The identifiers in use, ascending, each with its number of rows.
  function Runs(ids: seq<nat>): seq<(nat, nat)> {
    StableSort(ValueCounts(ids), RunLeq)
  }

  lemma RunsAre(ids: seq<nat>)
    ensures RunsAscend(Runs(ids))
    ensures forall x :: x in Runs(ids) <==> x.1 == |Rows(ids, x.0, |ids|)| > 0
  {
    var counts, runs := ValueCounts(ids), Runs(ids);
    RowByRowGroups(ids, |ids|);
    GroupsAreDistinct(RowByRow(ids, |ids|), ids, |ids|);
    assert TotalPreorder(RunLeq);
    SortKeeps(counts, RunLeq);
    SortAscends(counts, RunLeq);
    forall x
      ensures x in runs <==> x.1 == |Rows(ids, x.0, |ids|)| > 0
    {
      ValueCountsCount(ids, x);
    }
    forall i, j | 0 <= i < j < |runs|
      ensures runs[i].0 < runs[j].0
    {
      assert RunLeq(runs[i], runs[j]) && runs[i] != runs[j];
      assert runs[i] in runs && runs[j] in runs;
    }
  }

  lemma EveryRowRuns(ids: seq<nat>, i: nat)
    requires i < |ids|
    ensures InRuns(ids[i], Runs(ids), |Runs(ids)|)
  {
    RunsAre(ids);
    var rows := Rows(ids, ids[i], |ids|);
    assert i in rows;
    assert (ids[i], |rows|) in Runs(ids);
  }

  lemma SortIndicesConcatenate(ids: seq<nat>)
    ensures SortIndices(ids) == Concatenated(ids, Runs(ids), |Runs(ids)|)
  {
    var runs := Runs(ids);
    RunsAre(ids);
    SortIndicesPrecede(ids);
    ConcatenatedPrecede(ids, runs, |runs|);
    forall i: nat
      ensures i in SortIndices(ids) <==> i in Concatenated(ids, runs, |runs|)
    {
      ConcatenatedHolds(ids, runs, |runs|, i);
      if i < |ids| {
        EveryRowRuns(ids, i);
      }
    }
    AscendingIsUnique(SortIndices(ids), Concatenated(ids, runs, |runs|), Precedes(ids));
  }

  /******* Grouping with codes and one sort *******/

  method PartitionNamesByCode(column: seq<Value>, dictionary: seq<Value>, codes: seq<Option<nat>>, p: Platform)
    returns (names: seq<string>, filled: seq<nat>)
    requires Encodes(column, dictionary, codes)
    ensures |filled| == |column|
    ensures forall i | 0 <= i < |column| :: filled[i] < |names| && names[filled[i]] == Names(column, p)[i]
  {
    names := seq(|dictionary|, c requires 0 <= c < |dictionary| => Normalize(dictionary[c], p).partition);
    var nulls := None in codes;
    if nulls {
      names := names + [Normalize(Null, p).partition];
    }
    filled := seq(|codes|, i requires 0 <= i < |codes| => if codes[i].Some? then codes[i].value else |names| - 1);
    forall i | 0 <= i < |column|
      ensures filled[i] < |names| && names[filled[i]] == Names(column, p)[i]
    {
      assert codes[i] in codes;
    }
  }

  // Identifiers are handed out densely, one to each name.
  method AssignIdentifiers(names: seq<string>) returns (idsByName: map<string, nat>, idOfCode: seq<nat>)
    ensures |idOfCode| == |names|
    ensures forall c | 0 <= c < |names| :: names[c] in idsByName && idOfCode[c] == idsByName[names[c]]
    ensures forall a, b | a in idsByName && b in idsByName && idsByName[a] == idsByName[b] :: a == b
  {
    idsByName, idOfCode := map[], [];
    for c := 0 to |names|
      invariant |idOfCode| == c
      invariant forall d | 0 <= d < c :: names[d] in idsByName && idOfCode[d] == idsByName[names[d]]
      invariant forall a | a in idsByName :: idsByName[a] < |idsByName|
      invariant forall a, b | a in idsByName && b in idsByName && idsByName[a] == idsByName[b] :: a == b
    {
      var name := names[c];
      if name !in idsByName {
        idsByName := idsByName[name := |idsByName|];
      }
      idOfCode := idOfCode + [idsByName[name]];
    }
  }

  // Each run takes up its own stretch of the sorted positions.
  lemma RunIsSlice(ids: seq<nat>, j: nat)
    requires j < |Runs(ids)|
    ensures var runs, order := Runs(ids), SortIndices(ids);
            var offset := |Concatenated(ids, runs, j)|;
            && offset + runs[j].1 == |Concatenated(ids, runs, j + 1)| <= |order|
            && order[offset..offset + runs[j].1] == Rows(ids, runs[j].0, |ids|)
    ensures Runs(ids)[j].0 in ids
  {
    var runs := Runs(ids);
    RunsAre(ids);
    SortIndicesConcatenate(ids);
    ConcatenatedPrefix(ids, runs, j + 1);
    assert runs[j] in runs;
    var rows := Rows(ids, runs[j].0, |ids|);
    assert rows[0] in rows;
  }

  lemma NothingConcatenated(ids: seq<nat>, runs: seq<(nat, nat)>)
    ensures Concatenated(ids, runs, 0) == []
  {}

  // Cuts the sorted positions into the runs of equal identifiers.
  method GroupedRowIndices(ids: seq<nat>, nameById: map<nat, string>) returns (grouped: Groups<string>)
    requires forall id | id in ids :: id in nameById
    ensures |grouped| == |Runs(ids)|
    ensures forall j | 0 <= j < |grouped| ::
              Runs(ids)[j].0 in nameById && grouped[j] == (nameById[Runs(ids)[j].0], Rows(ids, Runs(ids)[j].0, |ids|))
  {
    hide SortIndices, Runs, Rows, Concatenated;
    var order := SortIndices(ids);
    var runs := Runs(ids);
    grouped := [];
    var offset := 0;
    NothingConcatenated(ids, runs);
    for j := 0 to |runs|
      invariant |grouped| == j && offset == |Concatenated(ids, runs, j)|
      invariant forall k | 0 <= k < j ::
                  runs[k].0 in nameById && grouped[k] == (nameById[runs[k].0], Rows(ids, runs[k].0, |ids|))
    {
      var (id, count) := runs[j];
      RunIsSlice(ids, j);
      grouped := grouped + [(nameById[id], order[offset..offset + count])];
      offset := offset + count;
    }
  }

  lemma {:induction false} ConcatenatedPrefix(ids: seq<nat>, runs: seq<(nat, nat)>, k: nat)
    requires k <= |runs|
    ensures Concatenated(ids, runs, k) <= Concatenated(ids, runs, |runs|)
    decreases |runs| - k
  {
    if k < |runs| {
      ConcatenatedPrefix(ids, runs, k + 1);
    }
  }

  function FirstLeq(a: (string, seq<nat>), b: (string, seq<nat>)): bool {
    FirstRow(a) <= FirstRow(b)
  }

  function FirstRow(g: (string, seq<nat>)): int {
    if g.1 == [] then -1 else g.1[0]
  }

  // Numbering names by identifiers that tell them apart leaves their rows as they are.
  lemma {:induction false} SameRows(names: seq<string>, ids: seq<nat>, idOf: map<string, nat>, name: string, k: nat)
    requires |names| == |ids| && k <= |names| && name in idOf
    requires forall i | 0 <= i < |names| :: names[i] in idOf && ids[i] == idOf[names[i]]
    requires forall a, b | a in idOf && b in idOf && idOf[a] == idOf[b] :: a == b
    ensures Rows(ids, idOf[name], k) == Rows(names, name, k)
  {
    if k > 0 {
      SameRows(names, ids, idOf, name, k - 1);
    }
  }

  // The members of what the runs give.
  lemma RunsGroup(names: seq<string>, ids: seq<nat>, idOf: map<string, nat>, nameById: map<nat, string>,
                  grouped: Groups<string>)
    requires |names| == |ids|
    requires forall i | 0 <= i < |names| :: names[i] in idOf && ids[i] == idOf[names[i]]
    requires forall a, b | a in idOf && b in idOf && idOf[a] == idOf[b] :: a == b
    requires forall id :: id in nameById <==> exists name :: name in idOf && idOf[name] == id
    requires forall name | name in idOf :: nameById[idOf[name]] == name
    requires |grouped| == |Runs(ids)|
    requires forall j | 0 <= j < |grouped| ::
               Runs(ids)[j].0 in nameById && grouped[j] == (nameById[Runs(ids)[j].0], Rows(ids, Runs(ids)[j].0, |ids|))
    ensures forall g :: g in grouped <==> g.1 != [] && g.1 == Rows(names, g.0, |names|)
    ensures NoDuplicates(grouped)
  {
    var runs := Runs(ids);
    RunsAre(ids);
    forall g
      ensures g in grouped <==> g.1 != [] && g.1 == Rows(names, g.0, |names|)
    {
      if g in grouped {
        var j :| 0 <= j < |grouped| && grouped[j] == g;
        assert runs[j] in runs;
        var name :| name in idOf && idOf[name] == runs[j].0;
        SameRows(names, ids, idOf, name, |names|);
      }
      if g.1 != [] && g.1 == Rows(names, g.0, |names|) {
        assert g.1[0] in g.1;
        assert names[g.1[0]] == g.0;
        SameRows(names, ids, idOf, g.0, |names|);
        var run := (idOf[g.0], |g.1|);
        assert run in runs;
        var j :| 0 <= j < |runs| && runs[j] == run;
        assert grouped[j] == g;
      }
    }
    forall i, j | 0 <= i < j < |grouped|
      ensures grouped[i] != grouped[j]
    {
      assert runs[i].0 < runs[j].0;
      assert runs[i] in runs && runs[j] in runs;
      var a, b := grouped[i].1, grouped[j].1;
      assert a[0] in a && b[0] in b;
    }
  }

  // Groups of rows that are told apart by their first rows.
  lemma FirstRowsDiffer(groups: Groups<string>, names: seq<string>)
    requires forall g :: g in groups <==> g.1 != [] && g.1 == Rows(names, g.0, |names|)
    requires NoDuplicates(groups)
    ensures Grouping(StableSort(groups, FirstLeq), names, |names|)
  {
    var sorted := StableSort(groups, FirstLeq);
    assert TotalPreorder(FirstLeq);
    SortKeeps(groups, FirstLeq);
    SortAscends(groups, FirstLeq);
    forall i, j | 0 <= i < j < |sorted|
      ensures FirstBefore(sorted[i], sorted[j])
    {
      assert sorted[i] in sorted && sorted[j] in sorted;
      FirstRowsTell(names, sorted[i], sorted[j]);
    }
  }

  lemma FirstRowsTell(names: seq<string>, a: (string, seq<nat>), b: (string, seq<nat>))
    requires a.1 != [] && a.1 == Rows(names, a.0, |names|) && b.1 != [] && b.1 == Rows(names, b.0, |names|)
    requires FirstLeq(a, b) && a != b
    ensures FirstBefore(a, b)
  {
    hide Rows;
    FirstRowHolds(names, a);
    FirstRowHolds(names, b);
  }

  lemma FirstRowHolds(names: seq<string>, g: (string, seq<nat>))
    requires g.1 != [] && g.1 == Rows(names, g.0, |names|)
    ensures g.1[0] < |names| && names[g.1[0]] == g.0
  {
    assert g.1[0] in g.1;
  }

  // Codes, identifiers and one stable sort give what going row by row gives.
  method PartitionRowIndices(column: seq<Value>, dictionary: seq<Value>, codes: seq<Option<nat>>, p: Platform)
    returns (groups: Groups<string>)
    requires Encodes(column, dictionary, codes)
    ensures groups == RowByRow(Names(column, p), |column|)
  {
    if |column| == 0 {
      return [];
    }
    var names, filled := PartitionNamesByCode(column, dictionary, codes, p);
    var idsByName, idOfCode := AssignIdentifiers(names);
    var ids := seq(|filled|, i requires 0 <= i < |filled| => idOfCode[filled[i]]);
    var nameById := map name | name in idsByName :: idsByName[name] := name;
    ghost var rowNames := Names(column, p);
    forall id | id in ids
      ensures id in nameById
    {
      var i :| 0 <= i < |ids| && ids[i] == id;
      assert rowNames[i] in idsByName && idsByName[rowNames[i]] == id;
    }
    var grouped := GroupedRowIndices(ids, nameById);
    groups := StableSort(grouped, FirstLeq);
    RunsGroup(rowNames, ids, idsByName, nameById, grouped);
    FirstRowsDiffer(grouped, rowNames);
    RowByRowGroups(rowNames, |rowNames|);
    GroupingIsUnique(groups, RowByRow(rowNames, |rowNames|), rowNames, |rowNames|);
  }

  /******* Counting by distinct value *******/

  datatype Counter = Counter(
    rows: nat, canonical: nat, legacyAlias: nat, missing: nat, blank: nat, malformed: nat, legacyUnusable: nat)
  {
    function Plus(d: Disposition, n: nat): Counter {
      var more := this.(rows := rows + n);
      match d
      case Canonical => more.(canonical := canonical + n)
      case LegacyAlias => more.(legacyAlias := legacyAlias + n)
      case Missing => more.(missing := missing + n)
      case Blank => more.(blank := blank + n)
      case Malformed => more.(malformed := malformed + n)
      case LegacyUnusable => more.(legacyUnusable := legacyUnusable + n)
    }
  }

  type Buckets = map<string, Counter>

  const NO_ROWS := Counter(0, 0, 0, 0, 0, 0, 0)

  function Observed(b: Buckets, r: Resolution, n: nat): Buckets {
    b[r.partition := (if r.partition in b then b[r.partition] else NO_ROWS).Plus(r.disposition, n)]
  }

  // One row at a time.
  function PerRow(b: Buckets, column: seq<Value>, p: Platform, k: nat): Buckets
    requires k <= |column|
  {
    if k == 0 then b else Observed(PerRow(b, column, p, k - 1), Normalize(column[k - 1], p), 1)
  }

  // One distinct value at a time.
  function InBulk(b: Buckets, counts: seq<(Value, nat)>, p: Platform, k: nat): Buckets
    requires k <= |counts|
  {
    if k == 0 then b
    else Observed(InBulk(b, counts, p, k - 1), Normalize(counts[k - 1].0, p), counts[k - 1].1)
  }

  lemma ObservedCommutes(b: Buckets, r: Resolution, n: nat, r': Resolution, n': nat)
    ensures Observed(Observed(b, r, n), r', n') == Observed(Observed(b, r', n'), r, n)
  {
    hide Counter.Plus;
    var c := if r.partition in b then b[r.partition] else NO_ROWS;
    PlusCommutes(c, r.disposition, n, r'.disposition, n');
    var one, other := Observed(Observed(b, r, n), r', n'), Observed(Observed(b, r', n'), r, n);
    if r.partition == r'.partition {
      assert one == b[r.partition := c.Plus(r.disposition, n).Plus(r'.disposition, n')];
    } else {
      assert one.Keys == other.Keys;
    }
  }

  lemma PlusCommutes(c: Counter, d: Disposition, n: nat, d': Disposition, n': nat)
    ensures c.Plus(d, n).Plus(d', n') == c.Plus(d', n').Plus(d, n)
  {}

  lemma ObservedAdds(b: Buckets, r: Resolution, n: nat, n': nat)
    ensures Observed(Observed(b, r, n), r, n') == Observed(b, r, n + n')
  {
    var c := if r.partition in b then b[r.partition] else NO_ROWS;
    assert c.Plus(r.disposition, n).Plus(r.disposition, n') == c.Plus(r.disposition, n + n');
  }

  // One more occurrence of the i-th value.
  lemma {:induction false} BulkBumped(b: Buckets, counts: seq<(Value, nat)>, p: Platform, i: nat, k: nat)
    requires i < k <= |counts|
    ensures InBulk(b, counts[i := (counts[i].0, counts[i].1 + 1)], p, k)
         == Observed(InBulk(b, counts, p, k), Normalize(counts[i].0, p), 1)
  {
    hide Normalize, Observed;
    var more := counts[i := (counts[i].0, counts[i].1 + 1)];
    if k == i + 1 {
      BulkSame(b, counts, more, p, i);
      ObservedAdds(InBulk(b, counts, p, i), Normalize(counts[i].0, p), counts[i].1, 1);
    } else {
      BulkBumped(b, counts, p, i, k - 1);
      ObservedCommutes(InBulk(b, counts, p, k - 1), Normalize(counts[i].0, p), 1, Normalize(counts[k - 1].0, p),
          counts[k - 1].1);
    }
  }

  lemma {:induction false} BulkSame(b: Buckets, counts: seq<(Value, nat)>, more: seq<(Value, nat)>, p: Platform, k: nat)
    requires k <= |counts| && k <= |more| && counts[..k] == more[..k]
    ensures InBulk(b, counts, p, k) == InBulk(b, more, p, k)
  {
    if k > 0 {
      assert counts[..k - 1] == counts[..k][..k - 1] && more[..k - 1] == more[..k][..k - 1];
      assert counts[k - 1] == counts[..k][k - 1] && more[k - 1] == more[..k][k - 1];
      BulkSame(b, counts, more, p, k - 1);
    }
  }

  lemma BulkAfterRow(b: Buckets, groups: Groups<Value>, v: Value, row: nat, p: Platform)
    requires forall i, j | 0 <= i < j < |groups| :: groups[i].0 != groups[j].0
    ensures var sizes, more := Sizes(groups), Sizes(AddRow(groups, v, row));
            InBulk(b, more, p, |more|) == Observed(InBulk(b, sizes, p, |sizes|), Normalize(v, p), 1)
  {
    hide Normalize, Observed;
    var sizes, more := Sizes(groups), Sizes(AddRow(groups, v, row));
    if i :| 0 <= i < |groups| && groups[i].0 == v {
      assert more == sizes[i := (v, sizes[i].1 + 1)];
      BulkBumped(b, sizes, p, i, |sizes|);
    } else {
      assert more == sizes + [(v, 1)];
      BulkSame(b, sizes, more, p, |sizes|);
    }
  }

  // Counting by distinct value gives what counting row by row gives.
  lemma {:induction false} BulkIsPerRow(b: Buckets, column: seq<Value>, p: Platform, k: nat)
    requires k <= |column|
    ensures var sizes := Sizes(RowByRow(column, k)); InBulk(b, sizes, p, |sizes|) == PerRow(b, column, p, k)
  {
    hide Normalize, Observed, AddRow, Grouping, Sizes;
    if k > 0 {
      BulkIsPerRow(b, column, p, k - 1);
      RowByRowGroups(column, k - 1);
      GroupsAreDistinct(RowByRow(column, k - 1), column, k - 1);
      BulkAfterRow(b, RowByRow(column, k - 1), column[k - 1], k - 1, p);
    }
  }

  function RowsIn(b: Buckets, name: string): nat {
    if name in b then b[name].rows else 0
  }

  lemma RowsInObserved(b: Buckets, r: Resolution, n: nat, name: string)
    ensures RowsIn(Observed(b, r, n), name) == RowsIn(b, name) + if r.partition == name then n else 0
  {}

  // Every row is counted once, in the bucket of its partition.
  lemma {:induction false} RowsAreCounted(b: Buckets, column: seq<Value>, p: Platform, name: string, k: nat)
    requires k <= |column|
    ensures RowsIn(PerRow(b, column, p, k), name) == RowsIn(b, name) + |Rows(Names(column, p), name, k)|
  {
    hide Normalize, Observed;
    if k > 0 {
      RowsAreCounted(b, column, p, name, k - 1);
      RowsInObserved(PerRow(b, column, p, k - 1), Normalize(column[k - 1], p), 1, name);
    }
  }

  // How many rows a counter has of one disposition.
  ghost function Of(c: Counter, d: Disposition): nat {
    match d
    case Canonical => c.canonical
    case LegacyAlias => c.legacyAlias
    case Missing => c.missing
    case Blank => c.blank
    case Malformed => c.malformed
    case LegacyUnusable => c.legacyUnusable
  }

  ghost function CountedAs(b: Buckets, name: string, d: Disposition): nat {
    if name in b then Of(b[name], d) else 0
  }

  // The rows before k that go to a bucket for a reason.
  ghost function RowsFor(column: seq<Value>, p: Platform, name: string, d: Disposition, k: nat): set<nat>
    requires k <= |column|
  {
    set i: nat | i < k && Normalize(column[i], p).partition == name && Normalize(column[i], p).disposition == d
  }

  lemma CountedOneMore(b: Buckets, r: Resolution, name: string, d: Disposition)
    ensures CountedAs(Observed(b, r, 1), name, d)
            == CountedAs(b, name, d) + if r.partition == name && r.disposition == d then 1 else 0
  {}

  lemma RowsForMore(column: seq<Value>, p: Platform, name: string, d: Disposition, k: nat)
    requires 0 < k <= |column|
    ensures |RowsFor(column, p, name, d, k)|
            == |RowsFor(column, p, name, d, k - 1)|
            + var r := Normalize(column[k - 1], p); if r.partition == name && r.disposition == d then 1 else 0
  {
    hide Normalize;
    var r, before := Normalize(column[k - 1], p), RowsFor(column, p, name, d, k - 1);
    assert RowsFor(column, p, name, d, k)
        == if r.partition == name && r.disposition == d then before + {k - 1} else before;
  }

  lemma NoRowsFor(column: seq<Value>, p: Platform, name: string, d: Disposition)
    ensures |RowsFor(column, p, name, d, 0)| == 0
  {
    hide Normalize;
    assert RowsFor(column, p, name, d, 0) == {};
  }

  // Every row is counted for its own reason.
  lemma {:induction false} ReasonsAreCounted(b: Buckets, column: seq<Value>, p: Platform, name: string, d: Disposition,
                                             k: nat)
    requires k <= |column|
    ensures CountedAs(PerRow(b, column, p, k), name, d)
            == CountedAs(b, name, d) + |RowsFor(column, p, name, d, k)|
  {
    hide Normalize, Observed, CountedAs, RowsFor;
    if k == 0 {
      NoRowsFor(column, p, name, d);
    } else {
      ReasonsAreCounted(b, column, p, name, d, k - 1);
      CountedOneMore(PerRow(b, column, p, k - 1), Normalize(column[k - 1], p), name, d);
      RowsForMore(column, p, name, d, k);
    }
  }

  // The reasons add up, and tell the unknown bucket from the languages.
  ghost predicate WellCounted(b: Buckets) {
    forall name | name in b :: FairCounter(b[name], name == UNKNOWN_LANGUAGE)
  }

  predicate FairCounter(c: Counter, unknown: bool) {
    && c.rows == c.canonical + c.legacyAlias + c.missing + c.blank + c.malformed + c.legacyUnusable
    && (if unknown then c.canonical + c.legacyAlias == 0
        else c.missing + c.blank + c.malformed + c.legacyUnusable == 0)
  }

  lemma FairPlus(c: Counter, d: Disposition, n: nat, unknown: bool)
    requires FairCounter(c, unknown) && (unknown <==> d != Canonical && d != LegacyAlias)
    ensures FairCounter(c.Plus(d, n), unknown)
  {}

  lemma ObservedStaysWell(b: Buckets, v: Value, p: Platform, n: nat)
    requires WellCounted(b)
    ensures WellCounted(Observed(b, Normalize(v, p), n))
  {
    hide Normalize, Counter.Plus, FairCounter;
    var r := Normalize(v, p);
    UnknownIsUnusable(v, p);
    NoRowsIsFair();
    FairPlus(if r.partition in b then b[r.partition] else NO_ROWS, r.disposition, n, r.partition == UNKNOWN_LANGUAGE);
  }

  lemma NoRowsIsFair()
    ensures forall unknown :: FairCounter(NO_ROWS, unknown)
  {
    forall unknown
      ensures FairCounter(NO_ROWS, unknown)
    {
      ZeroIsFair(NO_ROWS, unknown);
    }
  }

  lemma ZeroIsFair(c: Counter, unknown: bool)
    requires c.rows == c.canonical == c.legacyAlias == c.missing == c.blank == c.malformed == c.legacyUnusable == 0
    ensures FairCounter(c, unknown)
  {}

  lemma {:induction false} CountsStayWell(b: Buckets, column: seq<Value>, p: Platform, k: nat)
    requires k <= |column| && WellCounted(b)
    ensures WellCounted(PerRow(b, column, p, k))
  {
    hide Normalize, Observed;
    if k > 0 {
      CountsStayWell(b, column, p, k - 1);
      ObservedStaysWell(PerRow(b, column, p, k - 1), column[k - 1], p, 1);
    }
  }

  function Flattened(batches: seq<seq<Value>>, k: nat): seq<Value>
    requires k <= |batches|
  {
    if k == 0 then [] else Flattened(batches, k - 1) + batches[k - 1]
  }

  lemma {:induction false} PerRowJoins(b: Buckets, first: seq<Value>, second: seq<Value>, p: Platform, k: nat)
    requires k <= |second|
    ensures PerRow(b, first + second, p, |first| + k) == PerRow(PerRow(b, first, p, |first|), second, p, k)
  {
    hide Normalize, Observed;
    if k == 0 {
      PerRowSame(b, first + second, first, p, |first|);
    } else {
      PerRowJoins(b, first, second, p, k - 1);
      assert (first + second)[|first| + k - 1] == second[k - 1];
    }
  }

  lemma {:induction false} PerRowSame(b: Buckets, column: seq<Value>, first: seq<Value>, p: Platform, k: nat)
    requires k <= |first| <= |column| && column[..|first|] == first
    ensures PerRow(b, column, p, k) == PerRow(b, first, p, k)
  {
    hide Normalize, Observed;
    if k > 0 {
      PerRowSame(b, column, first, p, k - 1);
      assert column[k - 1] == column[..|first|][k - 1];
    }
  }

  class LanguageScan {
    var buckets: Buckets

    constructor ()
      ensures buckets == map[] && WellCounted(buckets)
    {
      buckets := map[];
    }

    method ObserveBatch(column: seq<Value>, p: Platform)
      modifies this
      ensures buckets == PerRow(old(buckets), column, p, |column|)
    {
      var counts := ValueCounts(column);
      BulkIsPerRow(buckets, column, p, |column|);
      for i := 0 to |counts|
        invariant buckets == InBulk(old(buckets), counts, p, i)
      {
        buckets := Observed(buckets, Normalize(counts[i].0, p), counts[i].1);
      }
    }

    // Reads a file batch by batch; the footer's number of rows must come out.
    method ScanFile(batches: seq<seq<Value>>, expectedRows: nat, p: Platform) returns (ok: bool)
      modifies this
      ensures ok <==> |Flattened(batches, |batches|)| == expectedRows
      ensures buckets == PerRow(old(buckets), Flattened(batches, |batches|), p, |Flattened(batches, |batches|)|)
    {
      hide Normalize, Observed;
      var observed := 0;
      ghost var before := buckets;
      for i := 0 to |batches|
        invariant observed == |Flattened(batches, i)|
        invariant buckets == PerRow(before, Flattened(batches, i), p, |Flattened(batches, i)|)
      {
        observed := observed + |batches[i]|;
        ghost var so := Flattened(batches, i);
        var batch := batches[i];
        PerRowJoins(before, so, batch, p, |batch|);
        ObserveBatch(batch, p);
        assert Flattened(batches, i + 1) == so + batch;
      }
      ok := observed == expectedRows;
    }
  }
}
