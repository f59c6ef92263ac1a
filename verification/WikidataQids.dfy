/** Wikidata identifiers, and the semicolon lists of them in OSM tags. */
module WikidataQids {
  import opened Sorting

  // What the platform calls a decimal digit and whitespace; either may hold outside ASCII.
  datatype Unicode = Unicode(decimal: char -> bool, space: char -> bool) {
    ghost predicate Sane() {
      && !space('Q')
      && (forall c | '1' <= c <= '9' :: !space(c) && decimal(c))
      && (forall c | decimal(c) :: !space(c) && c != ';')
    }
  }

  predicate ValidQid(q: string, u: Unicode) {
    |q| >= 2 && q[0] == 'Q' && '1' <= q[1] <= '9' && forall i | 2 <= i < |q| :: u.decimal(q[i])
  }

  /******* Splitting *******/

  function Split(s: string, sep: char): (parts: seq<string>)
    ensures |parts| > 0
  {
    if s == "" then [""]
    else
      var rest := Split(s[1..], sep);
      if s[0] == sep then [""] + rest else [[s[0]] + rest[0]] + rest[1..]
  }

  function Join(parts: seq<string>, sep: char): string
    requires |parts| > 0
  {
    if |parts| == 1 then parts[0] else parts[0] + [sep] + Join(parts[1..], sep)
  }

  lemma {:induction false} JoinSplit(s: string, sep: char)
    ensures Join(Split(s, sep), sep) == s
  {
    if s != "" {
      var rest := Split(s[1..], sep);
      JoinSplit(s[1..], sep);
      if s[0] == sep {
        assert ([""] + rest)[1..] == rest;
      } else {
        assert ([[s[0]] + rest[0]] + rest[1..])[1..] == rest[1..];
        assert s == [s[0]] + s[1..];
      }
    }
  }

  lemma {:induction false} SplitPart(part: string, rest: string, sep: char)
    requires sep !in part
    ensures Split(part + [sep] + rest, sep) == [part] + Split(rest, sep)
    ensures Split(part, sep) == [part]
  {
    if part == "" {
      assert (part + [sep] + rest)[1..] == rest;
    } else {
      SplitPart(part[1..], rest, sep);
      assert (part + [sep] + rest)[1..] == part[1..] + [sep] + rest;
      assert [part[0]] + part[1..] == part;
    }
  }

  lemma {:induction false} SplitJoin(parts: seq<string>, sep: char)
    requires |parts| > 0 && forall part | part in parts :: sep !in part
    ensures Split(Join(parts, sep), sep) == parts
  {
    if |parts| == 1 {
      SplitPart(parts[0], "", sep);
    } else {
      SplitPart(parts[0], Join(parts[1..], sep), sep);
      SplitJoin(parts[1..], sep);
    }
  }

  /******* Trimming and duplicates *******/

  function TrimLeft(s: string, u: Unicode): string {
    if s != "" && u.space(s[0]) then TrimLeft(s[1..], u) else s
  }

  function TrimRight(s: string, u: Unicode): string {
    if s != "" && u.space(s[|s| - 1]) then TrimRight(s[..|s| - 1], u) else s
  }

  function Strip(s: string, u: Unicode): string {
    TrimRight(TrimLeft(s, u), u)
  }

  predicate Blank(s: string, u: Unicode) {
    forall c | c in s :: u.space(c)
  }

  // First occurrences, in order.
  function Distinct<T(==)>(s: seq<T>): seq<T> {
    if s == [] then []
    else
      var rest := Distinct(s[..|s| - 1]);
      if s[|s| - 1] in rest then rest else rest + [s[|s| - 1]]
  }

  lemma {:induction false} DistinctHolds<T(!new)>(s: seq<T>)
    ensures SameElements(Distinct(s), s) && NoDuplicates(Distinct(s))
  {
    if s != [] {
      var front := s[..|s| - 1];
      DistinctHolds(front);
      assert s == front + [s[|s| - 1]];
    }
  }

  lemma {:induction false} DistinctKeeps<T(!new)>(s: seq<T>)
    requires NoDuplicates(s)
    ensures Distinct(s) == s
  {
    if s != [] {
      var front := s[..|s| - 1];
      DistinctKeeps(front);
      assert s == front + [s[|s| - 1]];
      assert s[|s| - 1] !in front;
    }
  }

  /******* Tags *******/

  function Components(value: string, u: Unicode): seq<string> {
    var parts := Split(value, ';');
    seq(|parts|, i requires 0 <= i < |parts| => Strip(parts[i], u))
  }

  // The distinct QIDs of a tag in order; one bad component spoils the whole tag.
  function QidsFromTag(value: string, u: Unicode): seq<string> {
    var components := Components(value, u);
    if exists i :: 0 <= i < |components| && !ValidQid(components[i], u) then [] else Distinct(components)
  }

  // A Q, a digit from one to nine, and any more decimal digits.
  ghost predicate IsQid(q: string, u: Unicode) {
    |q| > 1 && q[..1] == "Q" && q[1] in "123456789" && forall c | c in q[2..] :: u.decimal(c)
  }

  lemma ValidIsQid(q: string, u: Unicode)
    ensures ValidQid(q, u) <==> IsQid(q, u)
  {
    if ValidQid(q, u) {
      assert q[..1] == "Q";
      var c := q[1];
      assert c == '1' || c == '2' || c == '3' || c == '4' || c == '5' || c == '6' || c == '7' || c == '8' || c == '9';
    }
    if IsQid(q, u) {
      assert q[..1][0] == 'Q';
      assert forall i | 2 <= i < |q| :: q[i] == q[2..][i - 2];
    }
  }

  lemma QidsAreValid(value: string, u: Unicode)
    ensures NoDuplicates(QidsFromTag(value, u))
    ensures forall q | q in QidsFromTag(value, u) :: IsQid(q, u)
    ensures QidsFromTag(value, u) != [] <==> forall q | q in Components(value, u) :: IsQid(q, u)
  {
    var components := Components(value, u);
    DistinctHolds(components);
    forall q ensures ValidQid(q, u) <==> IsQid(q, u) {
      ValidIsQid(q, u);
    }
    hide ValidQid, IsQid;
    if forall i | 0 <= i < |components| :: ValidQid(components[i], u) {
      assert components[0] in Distinct(components);
    } else {
      var i :| 0 <= i < |components| && !ValidQid(components[i], u);
      assert components[i] in components;
    }
  }

  lemma {:induction false} TrimPadding(before: string, q: string, after: string, u: Unicode)
    requires Blank(before, u) && Blank(after, u) && q != "" && !u.space(q[0]) && !u.space(q[|q| - 1])
    ensures Strip(before + q + after, u) == q
    decreases |before| + |after|
  {
    var s := before + q + after;
    if before != "" {
      TrimPadding(before[1..], q, after, u);
      assert before[0] in before && s[1..] == before[1..] + q + after;
    } else {
      assert TrimLeft(s, u) == s;
      if after != "" {
        TrimPadding(before, q, after[..|after| - 1], u);
        assert after[|after| - 1] in after && s[..|s| - 1] == before + q + after[..|after| - 1];
        assert s[0] == q[0];
      } else {
        assert s == q;
      }
    }
  }

  lemma QidHasNoPadding(q: string, u: Unicode)
    requires ValidQid(q, u) && u.Sane()
    ensures ';' !in q && !u.space(q[0]) && !u.space(q[|q| - 1])
  {}

  datatype Padded = Padded(before: string, qid: string, after: string) {
    function Text(): string {
      before + qid + after
    }

    predicate Valid(u: Unicode) {
      ValidQid(qid, u) && Blank(before, u) && Blank(after, u) && ';' !in before && ';' !in after
    }

    lemma Reads(u: Unicode)
      requires Valid(u) && u.Sane()
      ensures ';' !in Text() && Strip(Text(), u) == qid && ValidQid(qid, u)
    {
      QidHasNoPadding(qid, u);
      TrimPadding(before, qid, after, u);
    }
  }

  function Texts(parts: seq<Padded>): seq<string> {
    seq(|parts|, i requires 0 <= i < |parts| => parts[i].Text())
  }

  function Qids(parts: seq<Padded>): seq<string> {
    seq(|parts|, i requires 0 <= i < |parts| => parts[i].qid)
  }

  // Writing QIDs with semicolons, and any blanks around them, and reading them back.
  lemma TagRoundTrip(parts: seq<Padded>, u: Unicode)
    requires parts != [] && u.Sane()
    requires forall i | 0 <= i < |parts| :: parts[i].Valid(u)
    ensures QidsFromTag(Join(Texts(parts), ';'), u) == Distinct(Qids(parts))
    ensures NoDuplicates(Qids(parts)) ==> QidsFromTag(Join(Texts(parts), ';'), u) == Qids(parts)
  {
    hide Padded.Valid, Padded.Text, Strip, ValidQid, Unicode.Sane;
    var texts, qids := Texts(parts), Qids(parts);
    forall i | 0 <= i < |parts|
      ensures ';' !in texts[i] && Strip(texts[i], u) == qids[i] && ValidQid(qids[i], u)
    {
      parts[i].Reads(u);
    }
    forall part | part in texts
      ensures ';' !in part
    {
      var i :| 0 <= i < |texts| && texts[i] == part;
    }
    SplitJoin(texts, ';');
    assert Components(Join(texts, ';'), u) == qids;
    if NoDuplicates(qids) {
      DistinctKeeps(qids);
    }
  }
}
