/**
 Batch planning for sentence splitting: which regions are still pending, and the
 greedy packing of them into bounded batches.
 */
module SentencePlan {
  import opened Wrappers

  datatype Region = Region(stem: string, bytes: nat)

  datatype SentenceBatch = SentenceBatch(index: nat, stems: seq<string>, inputBytes: nat)

  datatype PlanError = InvalidLimits | MissingSource(stem: string)

  function Bytes(rs: seq<Region>): nat
    decreases |rs|
  {
    if rs == [] then 0 else Bytes(rs[..|rs| - 1]) + rs[|rs| - 1].bytes
  }

  function Stems(rs: seq<Region>): seq<string> {
    seq(|rs|, i requires 0 <= i < |rs| => rs[i].stem)
  }

  function Batch(i: nat, rs: seq<Region>): SentenceBatch {
    SentenceBatch(i, Stems(rs), Bytes(rs))
  }

  function Batches(groups: seq<seq<Region>>): seq<SentenceBatch> {
    seq(|groups|, i requires 0 <= i < |groups| => Batch(i, groups[i]))
  }

  function Concat(groups: seq<seq<Region>>): seq<Region>
    decreases |groups|
  {
    if groups == [] then [] else Concat(groups[..|groups| - 1]) + groups[|groups| - 1]
  }

  datatype Limits = Limits(maxStems: nat, maxBytes: nat) {
    predicate Fit(rs: seq<Region>) {
      |rs| <= maxStems && Bytes(rs) <= maxBytes
    }

    // The rule of a planned batch: within both limits, unless it is one region.
    predicate Obeys(rs: seq<Region>) {
      |rs| == 1 || (|rs| > 0 && Fit(rs))
    }

    // An order-preserving split of the pending regions into batches by the rule.
    ghost predicate Split(groups: seq<seq<Region>>, pending: seq<Region>) {
      Concat(groups) == pending && forall i | 0 <= i < |groups| :: Obeys(groups[i])
    }

    // No batch could have taken one region more.
    ghost predicate Greedy(groups: seq<seq<Region>>) {
      forall i | 0 < i < |groups| :: Full(groups, i)
    }

    // The batch before `i` had no room for the first region of batch `i`.
    ghost predicate Full(groups: seq<seq<Region>>, i: nat)
      requires 0 < i < |groups|
    {
      groups[i] != [] && !Obeys(groups[i - 1] + [groups[i][0]])
    }

    // The numbered batches of some greedy split.
    ghost predicate Plans(batches: seq<SentenceBatch>, pending: seq<Region>) {
      exists groups :: PlansAs(groups, batches, pending)
    }

    ghost predicate PlansAs(groups: seq<seq<Region>>, batches: seq<SentenceBatch>, pending: seq<Region>) {
      Split(groups, pending) && Greedy(groups) && batches == Batches(groups)
    }

    predicate ShouldFlush(current: seq<Region>, currentBytes: nat, next: Region) {
      current != [] && (|current| >= maxStems || currentBytes + next.bytes > maxBytes)
    }
  }

  method PackBatches(pending: seq<Region>, limits: Limits) returns (batches: seq<SentenceBatch>)
    requires limits.maxStems >= 1
    ensures limits.Plans(batches, pending)
  {
    hide Underway, Batches, Bytes, Stems, Limits.Plans, Limits.PlansAs;
    ghost var groups: seq<seq<Region>> := [];
    batches := [];
    var current: seq<Region>, currentBytes := [], 0;
    NothingUnderway(limits);
    for i := 0 to |pending|
      invariant Underway(limits, groups, current, pending[..i])
      invariant currentBytes == Bytes(current) && batches == Batches(groups)
    {
      var next := pending[i];
      assert pending[..i + 1] == pending[..i] + [next];
      if limits.ShouldFlush(current, currentBytes, next) {
        Flushed(limits, groups, current, pending[..i], next);
        BatchesGrow(groups, current);
        batches := batches + [Batch(|batches|, current)];
        groups := groups + [current];
        current, currentBytes := [next], next.bytes;
      } else {
        Taken(limits, groups, current, pending[..i], next);
        current, currentBytes := current + [next], currentBytes + next.bytes;
      }
    }
    assert pending[..|pending|] == pending;
    Finished(limits, groups, current, pending);
    if current != [] {
      BatchesGrow(groups, current);
      batches := batches + [Batch(|batches|, current)];
    }
  }

  // The batches made so far, and the one being filled, of the regions seen so far.
  ghost predicate Underway(limits: Limits, groups: seq<seq<Region>>, current: seq<Region>, seen: seq<Region>) {
    && Concat(groups) + current == seen
    && (seen != [] ==> current != [] && limits.Obeys(current))
    && (forall k | 0 <= k < |groups| :: limits.Obeys(groups[k]))
    && limits.Greedy(groups)
    && (groups != [] ==> current != [] && !limits.Obeys(groups[|groups| - 1] + [current[0]]))
  }

  lemma NothingUnderway(limits: Limits)
    ensures Underway(limits, [], [], []) && Bytes([]) == 0 && Batches([]) == []
  {}

  lemma BatchesGrow(groups: seq<seq<Region>>, current: seq<Region>)
    ensures Batches(groups + [current]) == Batches(groups) + [Batch(|Batches(groups)|, current)]
  {}

  lemma GrowGreedy(limits: Limits, groups: seq<seq<Region>>, current: seq<Region>)
    requires limits.Greedy(groups) && current != []
    requires groups != [] ==> !limits.Obeys(groups[|groups| - 1] + [current[0]])
    ensures limits.Greedy(groups + [current])
  {
    forall i | 0 < i < |groups + [current]| ensures limits.Full(groups + [current], i) {
      if i < |groups| {
        assert limits.Full(groups, i);
      }
    }
  }

  lemma Taken(limits: Limits, groups: seq<seq<Region>>, current: seq<Region>, seen: seq<Region>, next: Region)
    requires limits.maxStems >= 1 && Underway(limits, groups, current, seen)
    requires !limits.ShouldFlush(current, Bytes(current), next)
    ensures Underway(limits, groups, current + [next], seen + [next])
    ensures Bytes(current + [next]) == Bytes(current) + next.bytes
  {
    assert (current + [next])[..|current|] == current;
    assert current == [] ==> groups == [];
    assert limits.Obeys(current + [next]);
  }

  lemma Flushed(limits: Limits, groups: seq<seq<Region>>, current: seq<Region>, seen: seq<Region>, next: Region)
    requires limits.maxStems >= 1 && Underway(limits, groups, current, seen)
    requires limits.ShouldFlush(current, Bytes(current), next)
    ensures Underway(limits, groups + [current], [next], seen + [next])
    ensures Bytes([next]) == next.bytes
  {
    assert (groups + [current])[..|groups|] == groups;
    assert (current + [next])[..|current|] == current;
    GrowGreedy(limits, groups, current);
    assert !limits.Obeys(current + [next]);
    assert limits.Obeys([next]);
  }

  lemma Finished(limits: Limits, groups: seq<seq<Region>>, current: seq<Region>, pending: seq<Region>)
    requires Underway(limits, groups, current, pending)
    ensures limits.Plans(Batches(if current == [] then groups else groups + [current]), pending)
  {
    var all := if current == [] then groups else groups + [current];
    if current != [] {
      assert all[..|groups|] == groups;
      GrowGreedy(limits, groups, current);
    }
    assert limits.PlansAs(all, Batches(all), pending);
  }

  /******* The greedy plan uses the fewest batches *******/

  function Offset(groups: seq<seq<Region>>, k: nat): nat
    requires k <= |groups|
  {
    if k == 0 then 0 else Offset(groups, k - 1) + |groups[k - 1]|
  }

  lemma {:induction false} GroupIsSlice(groups: seq<seq<Region>>, k: nat)
    requires k < |groups|
    ensures Offset(groups, k + 1) <= Offset(groups, |groups|) == |Concat(groups)|
    ensures groups[k] == Concat(groups)[Offset(groups, k)..Offset(groups, k + 1)]
    decreases |groups|
  {
    var front := groups[..|groups| - 1];
    OffsetsOfFront(groups, |groups| - 1);
    OffsetsOfFront(groups, k);
    if k < |groups| - 1 {
      GroupIsSlice(front, k);
      OffsetsOfFront(groups, k + 1);
    } else if front != [] {
      GroupIsSlice(front, 0);
    }
  }

  lemma {:induction false} OffsetsOfFront(groups: seq<seq<Region>>, k: nat)
    requires k < |groups|
    ensures Offset(groups, k) == Offset(groups[..|groups| - 1], k)
  {
    if k > 0 {
      OffsetsOfFront(groups, k - 1);
    }
  }

  lemma {:induction false} OffsetsRise(groups: seq<seq<Region>>, j: nat, k: nat)
    requires j <= k <= |groups|
    ensures Offset(groups, j) <= Offset(groups, k)
    decreases k
  {
    if j < k {
      OffsetsRise(groups, j, k - 1);
    }
  }

  lemma {:induction false} BytesAppend(a: seq<Region>, b: seq<Region>)
    ensures Bytes(a + b) == Bytes(a) + Bytes(b)
    decreases |b|
  {
    if b == [] {
      assert a + b == a;
    } else {
      BytesAppend(a, b[..|b| - 1]);
      assert (a + b)[..|a + b| - 1] == a + b[..|b| - 1];
    }
  }

  lemma BytesOfSlice(rs: seq<Region>, i: nat, j: nat, k: nat, l: nat)
    requires i <= j <= k <= l <= |rs|
    ensures Bytes(rs[j..k]) <= Bytes(rs[i..l])
  {
    assert rs[i..l] == rs[i..j] + rs[j..k] + rs[k..l];
    BytesAppend(rs[i..j] + rs[j..k], rs[k..l]);
    BytesAppend(rs[i..j], rs[j..k]);
  }

  lemma PartOfObeying(limits: Limits, rs: seq<Region>, i: nat, j: nat, k: nat, l: nat)
    requires i <= j < k <= l <= |rs|
    requires limits.Obeys(rs[i..l])
    ensures limits.Obeys(rs[j..k])
  {
    BytesOfSlice(rs, i, j, k, l);
  }

  // After the same number of batches, the greedy split has covered at least as much.
  lemma {:induction false} GreedyStaysAhead(limits: Limits, pending: seq<Region>, greedy: seq<seq<Region>>,
                                            other: seq<seq<Region>>, k: nat)
    requires limits.Split(greedy, pending) && limits.Greedy(greedy) && limits.Split(other, pending)
    requires k <= |greedy| && k <= |other|
    ensures Offset(other, k) <= Offset(greedy, k)
  {
    hide Limits.Split, Limits.Greedy;
    if k > 0 {
      GreedyStaysAhead(limits, pending, greedy, other, k - 1);
      AheadByOneMore(limits, pending, greedy, other, k);
    }
  }

  lemma AheadByOneMore(limits: Limits, pending: seq<Region>, greedy: seq<seq<Region>>, other: seq<seq<Region>>, k: nat)
    requires limits.Split(greedy, pending) && limits.Greedy(greedy) && limits.Split(other, pending)
    requires 0 < k <= |greedy| && k <= |other| && Offset(other, k - 1) <= Offset(greedy, k - 1)
    ensures Offset(other, k) <= Offset(greedy, k)
  {
    hide Limits.Obeys;
    var a, a', b, b' := Offset(greedy, k - 1), Offset(greedy, k), Offset(other, k - 1), Offset(other, k);
    GroupIsSlice(greedy, k - 1);
    GroupIsSlice(other, k - 1);
    if a' < b' {
      GroupIsSlice(greedy, k);
      assert limits.Full(greedy, k);
      assert greedy[k - 1] + [greedy[k][0]] == pending[a..a' + 1];
      PartOfObeying(limits, pending, b, a, a' + 1, b');
    }
  }

  // No split that keeps the order and obeys the rule has fewer batches.
  lemma GreedyIsFewest(limits: Limits, pending: seq<Region>, greedy: seq<seq<Region>>, other: seq<seq<Region>>)
    requires limits.Split(greedy, pending) && limits.Greedy(greedy) && limits.Split(other, pending)
    ensures |greedy| <= |other|
  {
    if |other| < |greedy| {
      GreedyStaysAhead(limits, pending, greedy, other, |other|);
      if other != [] {
        GroupIsSlice(other, 0);
      }
      GroupIsSlice(greedy, |other|);
    }
  }

  // So a plan has the fewest batches there can be.
  lemma PlanIsFewest(limits: Limits, pending: seq<Region>, batches: seq<SentenceBatch>, other: seq<seq<Region>>)
    requires limits.Plans(batches, pending) && limits.Split(other, pending)
    ensures |batches| <= |other|
  {
    var groups :| limits.PlansAs(groups, batches, pending);
    GreedyIsFewest(limits, pending, groups, other);
  }

  /******* Pending regions *******/

  // Finalized regions with their source files, and the completed (stem, project) pairs.
  datatype Catalog = Catalog(
    finalized: seq<string>,
    wikipedia: map<string, nat>,
    wikivoyage: map<string, nat>,
    completed: set<(string, string)>)
  {
    predicate IsComplete(stem: string) {
      (stem, "wikipedia") in completed && (stem in wikivoyage ==> (stem, "wikivoyage") in completed)
    }

    function InputBytes(stem: string): nat
      requires stem in wikipedia
    {
      wikipedia[stem] + if stem in wikivoyage then wikivoyage[stem] else 0
    }

    // The incomplete ones among the first `k` finalized regions, in order.
    function PendingUpTo(k: nat): seq<Region>
      requires k <= |finalized| && forall i | 0 <= i < k :: finalized[i] in wikipedia
    {
      if k == 0 then []
      else
        PendingUpTo(k - 1)
        + if IsComplete(finalized[k - 1]) then [] else [Region(finalized[k - 1], InputBytes(finalized[k - 1]))]
    }
  }

  // Plans the pending regions; every finalized region needs its Wikipedia source,
  // also a complete one.
  method PlanSentenceBatches(catalog: Catalog, maxStems: int, maxBytes: int)
    returns (r: Result<seq<SentenceBatch>, PlanError>)
    ensures r.Success? <==>
            maxStems >= 1 && maxBytes >= 1 && forall s | s in catalog.finalized :: s in catalog.wikipedia
    ensures r.Success? ==>
              Limits(maxStems, maxBytes).Plans(r.value, catalog.PendingUpTo(|catalog.finalized|))
  {
    if maxStems < 1 || maxBytes < 1 {
      return Failure(InvalidLimits);
    }
    var pending: seq<Region> := [];
    for i := 0 to |catalog.finalized|
      invariant forall k | 0 <= k < i :: catalog.finalized[k] in catalog.wikipedia
      invariant pending == catalog.PendingUpTo(i)
    {
      var stem := catalog.finalized[i];
      if stem !in catalog.wikipedia {
        return Failure(MissingSource(stem));
      }
      if !catalog.IsComplete(stem) {
        pending := pending + [Region(stem, catalog.InputBytes(stem))];
      }
    }
    var batches := PackBatches(pending, Limits(maxStems, maxBytes));
    r := Success(batches);
  }

  // Across all batches the stems are the pending ones, each once and in order.
  lemma {:induction false} BatchesKeepStems(groups: seq<seq<Region>>)
    ensures StemsOfBatches(Batches(groups)) == Stems(Concat(groups))
    ensures forall i | 0 <= i < |groups| :: Batches(groups)[i].index == i
    decreases |groups|
  {
    if groups == [] {
      assert Stems(Concat(groups)) == [];
    } else {
      var k := |groups| - 1;
      BatchesKeepStems(groups[..k]);
      assert Batches(groups)[..k] == Batches(groups[..k]);
      assert Stems(Concat(groups)) == Stems(Concat(groups[..k])) + Stems(groups[k]);
    }
  }

  function StemsOfBatches(batches: seq<SentenceBatch>): seq<string>
    decreases |batches|
  {
    if batches == [] then [] else StemsOfBatches(batches[..|batches| - 1]) + batches[|batches| - 1].stems
  }

  ghost predicate DistinctStems(rs: seq<Region>) {
    forall i, j | 0 <= i < j < |rs| :: rs[i].stem != rs[j].stem
  }

  // A pending region comes from an incomplete finalized one, with its input size.
  ghost predicate PendingFrom(catalog: Catalog, r: Region, i: nat)
    requires forall s | s in catalog.finalized :: s in catalog.wikipedia
  {
    && i < |catalog.finalized| && catalog.finalized[i] == r.stem
    && !AllSplit(catalog, r.stem)
    && r.bytes == catalog.wikipedia[r.stem] + (if r.stem in catalog.wikivoyage then catalog.wikivoyage[r.stem] else 0)
  }

  // Every source file the region has is completed.
  ghost predicate AllSplit(catalog: Catalog, stem: string) {
    forall p | p == "wikipedia" || (p == "wikivoyage" && stem in catalog.wikivoyage) :: (stem, p) in catalog.completed
  }

  lemma CompleteIs(catalog: Catalog, stem: string)
    ensures catalog.IsComplete(stem) <==> AllSplit(catalog, stem)
  {
    if AllSplit(catalog, stem) {
      assert (stem, "wikipedia") in catalog.completed;
    }
  }

  // Where each pending region stands in the finalized list: in the same order.
  lemma {:induction false} PendingInOrder(catalog: Catalog, k: nat) returns (places: seq<nat>)
    requires k <= |catalog.finalized| && forall s | s in catalog.finalized :: s in catalog.wikipedia
    ensures var pending := catalog.PendingUpTo(k);
            && |places| == |pending| && (forall i | 0 <= i < |places| :: places[i] < k)
            && (forall i, j | 0 <= i < j < |places| :: places[i] < places[j])
            && forall i | 0 <= i < |places| :: PendingFrom(catalog, pending[i], places[i])
  {
    places := [];
    if k > 0 {
      places := PendingInOrder(catalog, k - 1);
      CompleteIs(catalog, catalog.finalized[k - 1]);
      if !catalog.IsComplete(catalog.finalized[k - 1]) {
        places := places + [k - 1];
      }
    }
  }

  // Pending is exactly the incomplete regions, so none is lost or planned twice
  // when the finalized list has no duplicate.
  lemma {:induction false} PendingIsIncomplete(catalog: Catalog, k: nat)
    requires k <= |catalog.finalized| && forall i | 0 <= i < k :: catalog.finalized[i] in catalog.wikipedia
    requires forall i, j | 0 <= i < j < |catalog.finalized| :: catalog.finalized[i] != catalog.finalized[j]
    ensures forall s :: s in Stems(catalog.PendingUpTo(k)) <==>
                        !AllSplit(catalog, s) && exists i :: 0 <= i < k && catalog.finalized[i] == s
    ensures DistinctStems(catalog.PendingUpTo(k))
  {
    if k > 0 {
      PendingIsIncomplete(catalog, k - 1);
      var p, s := catalog.PendingUpTo(k - 1), catalog.finalized[k - 1];
      if catalog.IsComplete(s) {
        assert catalog.PendingUpTo(k) == p;
      } else {
        assert Stems(catalog.PendingUpTo(k)) == Stems(p) + [s];
        assert forall t :: t in Stems(p) + [s] <==> t in Stems(p) || t == s;
        forall i | 0 <= i < |p| ensures p[i].stem != s {
          assert Stems(p)[i] in Stems(p);
        }
      }
    }
  }
}
