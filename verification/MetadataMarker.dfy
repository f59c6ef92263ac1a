/**
 Publishing a directory of regions with repository-wide metadata deferred to one
 refresh at the end, and the durable marker that names the regions still owed to it.
 A background worker uploads queued jobs at any time; a run may be cut off anywhere.
 */
module MetadataMarker {
  import opened Wrappers

  type Stem = string
  type Fingerprint = string

  // A durable upload job for one region; deferred when it leaves out the metadata.
  datatype Job = Job(stem: Stem, deferred: bool)

  datatype Phase =
    | Processing
    | Recorded(stem: Stem, ready: bool)  // in the callback: marker written if it is to be
    | Submitted(stem: Stem)              // job persisted and queued
    | Draining(completed: bool)
    | Refreshing
    | Clearing

  datatype Run = Run(
    defer: bool,
    dry: bool,
    phase: Phase,
    queue: seq<nat>,
    uploaded: Option<nat>,       // head job uploaded, its envelope not yet deleted
    failures: nat,
    published: set<Stem>,
    recorded: map<Stem, Fingerprint>)

  // marker and pending survive a crash; owed collects the regions committed with
  // deferred metadata since the last refresh.
  datatype World = World(
    marker: Option<map<Stem, Fingerprint>>, pending: map<nat, Job>, run: Option<Run>, owed: set<Stem>)
  {
    function Named(): set<Stem> {
      if marker.None? then {} else marker.value.Keys
    }

    function With(r: Run): World {
      this.(run := Some(r))
    }
  }

  datatype Step =
    | Begin(defer: bool, dry: bool, resumed: seq<nat>, lost: nat)
    | Callback(stem: Stem, polygons: Option<Fingerprint>)
    | Submit(number: nat)
    | SubmitFails
    | Publish
    | ProcessingEnds(completed: bool)
    | WorkUpload
    | WorkDelete
    | WorkDeleteFails            // uploaded, but deleting its envelope raised
    | WorkFail
    | Drained
    | RefreshUpload
    | RefreshFail
    | Clear
    | Crash

  predicate RefreshRequested(w: World, r: Run) {
    r.published != {} && (w.marker.None? || w.marker.value.Keys <= r.published)
  }

  predicate Enabled(w: World, s: Step) {
    if s.Begin? then
      w.run.None? && (forall n | n in s.resumed :: n in w.pending)
      && (s.lost == 0 ==> forall n | n in w.pending :: n in s.resumed)
    else
      w.run.Some? &&
      var r := w.run.value;
      match s
      case Callback(_, _) => r.phase.Processing?
      // assembling the upload raises when the polygons are missing
      case Submit(n) => r.phase.Recorded? && r.phase.ready && n !in w.pending && n !in r.queue
      case SubmitFails => r.phase.Recorded?
      case Publish => r.phase.Submitted?
      case ProcessingEnds(_) => r.phase.Processing?
      case WorkUpload => r.queue != [] && r.uploaded.None? && r.queue[0] in w.pending
      case WorkDelete => r.uploaded.Some? && r.queue != [] && r.queue[0] == r.uploaded.value
      case WorkDeleteFails => r.uploaded.Some? && r.queue != [] && r.queue[0] == r.uploaded.value
      case WorkFail => r.queue != [] && r.uploaded.None?
      case Drained => r.phase.Draining? && r.queue == [] && r.uploaded.None?
      case RefreshUpload => r.phase.Refreshing?
      case RefreshFail => r.phase.Refreshing?
      case Clear => r.phase.Clearing?
      case Crash => true
      case Begin(_, _, _, _) => true
  }

  // The callback writes the marker only when metadata is deferred for real and the
  // region's polygons are there.
  predicate Records(r: Run, polygons: Option<Fingerprint>) {
    r.defer && !r.dry && polygons.Some?
  }

  function Apply(w: World, s: Step): World
    requires Enabled(w, s)
  {
    if s.Begin? then w.With(Run(s.defer, s.dry, Processing, s.resumed, None, s.lost, {}, map[]))
    else
      var r := w.run.value;
      match s
      case Callback(stem, polygons) =>
        if Records(r, polygons) then
          var recorded := r.recorded[stem := polygons.value];
          w.(marker := Some((if w.marker.None? then map[] else w.marker.value) + recorded))
           .With(r.(recorded := recorded, phase := Recorded(stem, true)))
        else w.With(r.(phase := Recorded(stem, polygons.Some?)))
      case Submit(n) =>
        w.(pending := w.pending[n := Job(r.phase.stem, r.defer)])
         .With(r.(queue := r.queue + [n], phase := Submitted(r.phase.stem)))
      case SubmitFails => w.With(r.(phase := Draining(false)))
      case Publish => w.With(r.(published := r.published + {r.phase.stem}, phase := Processing))
      case ProcessingEnds(completed) => w.With(r.(phase := Draining(completed)))
      case WorkUpload =>
        var job := w.pending[r.queue[0]];
        w.(owed := if job.deferred && !r.dry then w.owed + {job.stem} else w.owed)
         .With(r.(uploaded := Some(r.queue[0])))
      case WorkDelete => w.(pending := w.pending - {r.queue[0]}).With(r.(queue := r.queue[1..], uploaded := None))
      case WorkDeleteFails => w.With(r.(queue := r.queue[1..], uploaded := None, failures := r.failures + 1))
      case WorkFail => w.With(r.(queue := r.queue[1..], failures := r.failures + 1))
      case Drained =>
        if r.failures > 0 || !(r.defer && r.phase.completed) || !RefreshRequested(w, r) then w.(run := None)
        else w.With(r.(phase := Refreshing))
      case RefreshUpload => w.(owed := if r.dry then w.owed else {}).With(r.(phase := Clearing))
      case RefreshFail => w.(run := None)
      case Clear => w.(marker := if r.dry then w.marker else None, run := None)
      case Crash => w.(run := None)
      case Begin(_, _, _, _) => w
  }

  /******* What every step keeps *******/

  // Without failures, what is pending is still in the queue; a refresh only starts when
  // everything it needs holds, and nothing disturbs it.
  predicate Orderly(w: World) {
    w.run.Some? ==>
      var r := w.run.value;
      && (r.failures == 0 ==> forall n | n in w.pending :: n in r.queue)
      && (r.uploaded.Some? ==> r.queue != [] && r.queue[0] == r.uploaded.value)
      && (r.phase.Refreshing? || r.phase.Clearing? ==>
            && r.defer && r.failures == 0 && r.queue == [] && r.uploaded.None?
            && RefreshRequested(w, r))
      && (r.phase.Clearing? && !r.dry ==> w.owed == {})
  }

  // Every region owed a refresh, and every region whose pending job will be, or whose job
  // is about to be queued, is named.
  predicate Marked(w: World) {
    && w.owed <= w.Named()
    && (forall n | n in w.pending && w.pending[n].deferred :: w.pending[n].stem in w.Named())
    && (w.run.Some? && w.run.value.defer && w.run.value.phase.Recorded? && w.run.value.phase.ready ==>
          w.run.value.phase.stem in w.Named())
  }

  lemma StepKeepsOrderly(w: World, s: Step)
    requires Orderly(w) && Enabled(w, s)
    ensures Orderly(Apply(w, s))
  {}

  // A dry run that defers metadata does not record a region, so it must be named already,
  // unless it has no polygons and is never queued.
  predicate Sound(w: World, s: Step) {
    s.Callback? && w.run.Some? && w.run.value.defer && w.run.value.dry && s.polygons.Some? ==> s.stem in w.Named()
  }

  lemma StepKeepsMarked(w: World, s: Step)
    requires Orderly(w) && Marked(w) && Enabled(w, s) && Sound(w, s)
    ensures Marked(Apply(w, s))
  {}

  /******* Over all runs *******/

  ghost predicate Follows(worlds: seq<World>, steps: seq<Step>) {
    && |worlds| == |steps| + 1 && Orderly(worlds[0]) && Marked(worlds[0])
    && forall i | 0 <= i < |steps| :: Enabled(worlds[i], steps[i]) && worlds[i + 1] == Apply(worlds[i], steps[i])
  }

  lemma {:induction false} EveryWorldOrderly(worlds: seq<World>, steps: seq<Step>, i: nat)
    requires Follows(worlds, steps) && i < |worlds|
    ensures Orderly(worlds[i])
  {
    if i > 0 {
      EveryWorldOrderly(worlds, steps, i - 1);
      StepKeepsOrderly(worlds[i - 1], steps[i - 1]);
    }
  }

  // Over any runs with any crashes, failures and resumed jobs, every region committed
  // since the last refresh is named in the marker, if every deferring callback was sound.
  lemma {:induction false} EveryOwedIsNamed(worlds: seq<World>, steps: seq<Step>, i: nat)
    requires Follows(worlds, steps) && i < |worlds|
    requires forall k | 0 <= k < i :: Sound(worlds[k], steps[k])
    ensures worlds[i].owed <= worlds[i].Named() && Marked(worlds[i])
  {
    if i > 0 {
      EveryOwedIsNamed(worlds, steps, i - 1);
      EveryWorldOrderly(worlds, steps, i - 1);
      StepKeepsMarked(worlds[i - 1], steps[i - 1]);
    }
  }

  lemma {:induction false} FreshNumber(used: set<nat>) returns (n: nat)
    ensures forall k | k in used :: k < n
    decreases |used|
  {
    n := 0;
    if used != {} {
      var k :| k in used;
      var m := FreshNumber(used - {k});
      n := if m <= k then k + 1 else m;
      forall j | j in used ensures j < n {
        assert j == k || j in used - {k};
      }
    }
  }

  lemma UnsoundIsQueued(w: World, s: Step, n: nat)
    requires Enabled(w, s) && !Sound(w, s) && n !in w.pending && n !in w.run.value.queue
    ensures Enabled(Apply(w, s), Submit(n))
    ensures var w' := Apply(Apply(w, s), Submit(n));
            && w'.run.Some? && w'.pending == w.pending[n := Job(s.stem, true)]
            && s.stem !in w'.Named()
  {}

  lemma PendingGoesUnnamed(w: World, n: nat) returns (steps: seq<Step>)
    requires w.run.Some? && n in w.pending && w.pending[n].deferred && w.pending[n].stem !in w.Named()
    ensures steps == [Crash, Begin(true, false, [n], |w.pending|), WorkUpload]
    ensures Enabled(w, steps[0]) && Enabled(Apply(w, steps[0]), steps[1])
    ensures Enabled(Apply(Apply(w, steps[0]), steps[1]), steps[2])
    ensures var w' := Apply(Apply(Apply(w, steps[0]), steps[1]), steps[2]);
            w.pending[n].stem in w'.owed && w.pending[n].stem !in w'.Named()
  {
    steps := [Crash, Begin(true, false, [n], |w.pending|), WorkUpload];
  }

  // Sound callbacks are needed: after any other one there is a lawful continuation, cut
  // off and resumed for real, that leaves its region committed and not named.
  lemma UnsoundGoesUnnamed(w: World, s: Step) returns (worlds: seq<World>, steps: seq<Step>)
    requires Orderly(w) && Marked(w) && Enabled(w, s) && !Sound(w, s)
    ensures Follows(worlds, steps) && worlds[0] == w && |steps| == 5 && steps[0] == s
    ensures s.stem in worlds[5].owed && s.stem !in worlds[5].Named()
  {
    hide Orderly, Marked;
    var n := FreshNumber(w.pending.Keys + set k | k in w.run.value.queue);
    UnsoundIsQueued(w, s, n);
    hide Enabled, Apply, Sound;
    var w1 := Apply(w, s);
    var w2 := Apply(w1, Submit(n));
    var rest := PendingGoesUnnamed(w2, n);
    var w3 := Apply(w2, rest[0]);
    var w4 := Apply(w3, rest[1]);
    worlds, steps := [w, w1, w2, w3, w4, Apply(w4, rest[2])], [s, Submit(n), rest[0], rest[1], rest[2]];
  }

  // A refresh is uploaded only by a deferring run that finished processing, drained its
  // queue without a failure, left no job pending and published every named region.
  lemma RefreshOnlyWhenComplete(worlds: seq<World>, steps: seq<Step>, i: nat)
    requires Follows(worlds, steps) && i < |steps| && steps[i].RefreshUpload?
    ensures var r := worlds[i].run.value;
            && r.defer && r.failures == 0 && r.queue == [] && worlds[i].pending == map[]
            && r.published != {} && worlds[i].Named() <= r.published
  {
    EveryWorldOrderly(worlds, steps, i);
    var w := worlds[i];
    assert forall n :: n !in w.pending;
  }

  predicate Completed(w: World) {
    w.run.Some? && (w.run.value.phase == Draining(true) || w.run.value.phase.Refreshing? || w.run.value.phase.Clearing?)
  }

  // Only a run that finished processing refreshes: some earlier step said so, and neither
  // a crash nor another run came in between.
  lemma {:induction false} RefreshAfterProcessing(worlds: seq<World>, steps: seq<Step>, i: nat) returns (j: nat)
    requires Follows(worlds, steps) && worlds[0].run.None? && i < |worlds| && Completed(worlds[i])
    ensures j < i && steps[j] == ProcessingEnds(true)
    ensures forall k | j <= k < i :: worlds[k].run.Some? && !steps[k].Begin? && !steps[k].Crash?
  {
    if i > 0 && steps[i - 1] != ProcessingEnds(true) {
      CompletedBefore(worlds[i - 1], steps[i - 1]);
      j := RefreshAfterProcessing(worlds, steps, i - 1);
    } else {
      j := i - 1;
    }
  }

  lemma CompletedBefore(w: World, s: Step)
    requires Enabled(w, s) && Completed(Apply(w, s)) && s != ProcessingEnds(true)
    ensures Completed(w) && !s.Begin? && !s.Crash?
  {}

  // With sound callbacks, such a run published every region the refresh pays for.
  lemma RefreshPaysForPublished(worlds: seq<World>, steps: seq<Step>, i: nat)
    requires Follows(worlds, steps) && i < |steps| && steps[i].RefreshUpload?
    requires forall k | 0 <= k < i :: Sound(worlds[k], steps[k])
    ensures worlds[i].owed <= worlds[i].run.value.published
  {
    RefreshOnlyWhenComplete(worlds, steps, i);
    EveryOwedIsNamed(worlds, steps, i);
  }

  // A dry run that is cut off leaves a job that a later run uploads for real, unnamed.
  lemma DryRunGoesUnnamed(stem: Stem, polygons: Fingerprint) returns (worlds: seq<World>, steps: seq<Step>)
    ensures Follows(worlds, steps) && worlds[0] == World(None, map[], None, {})
    ensures steps == [Begin(true, true, [], 0), Callback(stem, Some(polygons)), Submit(0), Crash,
                      Begin(true, false, [0], 0), WorkUpload]
    ensures worlds[6].owed == {stem} && worlds[6].Named() == {}
  {
    steps := [Begin(true, true, [], 0), Callback(stem, Some(polygons)), Submit(0), Crash,
              Begin(true, false, [0], 0), WorkUpload];
    var w0 := World(None, map[], None, {});
    var w1 := Apply(w0, steps[0]);
    var w2 := Apply(w1, steps[1]);
    var w3 := Apply(w2, steps[2]);
    var w4 := Apply(w3, steps[3]);
    var w5 := Apply(w4, steps[4]);
    worlds := [w0, w1, w2, w3, w4, w5, Apply(w5, steps[5])];
  }

  /******* One run *******/

  // One region that processing finished, and the hash of its polygons if they exist.
  datatype ProcessResult = ProcessResult(stem: Stem, polygons: Option<Fingerprint>)

  // Everything outside the main thread, given in advance: what the worker does during
  // each callback (the steps it can make), the job numbers handed out, whether jobs can
  // be persisted, whether the last uploads and deletions work, and whether the refresh does.
  datatype Outside = Outside(
    worker: nat -> seq<Step>, number: nat -> nat, persists: nat -> bool, uploads: nat -> bool,
    deletes: nat -> bool, refreshes: bool)

  datatype Ended = Finished(failures: nat, refreshed: bool) | Died

  predicate IsWork(s: Step) {
    s.WorkUpload? || s.WorkDelete? || s.WorkDeleteFails? || s.WorkFail?
  }

  // The worker changes jobs, failures and what is owed, nothing else.
  predicate OnlyWorked(w: World, w': World) {
    && w.run.Some? && w'.run.Some? && w'.marker == w.marker
    && w'.run.value ==
        w.run.value.(queue := w'.run.value.queue, uploaded := w'.run.value.uploaded, failures := w'.run.value.failures)
    && w.run.value.failures <= w'.run.value.failures
  }

  function Stems(results: seq<ProcessResult>): set<Stem> {
    set r | r in results :: r.stem
  }

  predicate SameMarking(w: World, w': World) {
    && w.run.Some? && w'.run.Some? && w'.marker == w.marker
    && w'.run.value.defer == w.run.value.defer && w'.run.value.dry == w.run.value.dry
    && w'.run.value.recorded == w.run.value.recorded
  }

  // What one callback leaves of the marker.
  predicate CallbackDone(w: World, w': World, result: ProcessResult) {
    && w.run.Some? && w'.run.Some?
    && w'.run.value.defer == w.run.value.defer && w'.run.value.dry == w.run.value.dry
    && w'.run.value.recorded.Keys <= w.run.value.recorded.Keys + {result.stem}
    && w.Named() <= w'.Named() <= w.Named() + w'.run.value.recorded.Keys
    && (if w.run.value.defer && !w.run.value.dry && result.polygons != None then
          w'.marker != None && result.stem in w'.marker.value
          && w'.marker.value[result.stem] == result.polygons.value
        else w'.marker == w.marker)
  }

  lemma RecordedDone(w: World, result: ProcessResult)
    requires Enabled(w, Callback(result.stem, result.polygons))
    ensures CallbackDone(w, Apply(w, Callback(result.stem, result.polygons)), result)
  {}

  lemma StillDone(w: World, w': World, w'': World, result: ProcessResult)
    requires CallbackDone(w, w', result) && SameMarking(w', w'')
    ensures CallbackDone(w, w'', result)
  {}

  // Every region named in the marker is among the processed ones.
  ghost predicate PublishesAll(marker: Option<map<Stem, Fingerprint>>, results: seq<ProcessResult>) {
    marker != None ==>
      forall stem | stem in marker.value :: exists result :: result in results && result.stem == stem
  }

  lemma PublishesAllIs(w: World, results: seq<ProcessResult>)
    ensures PublishesAll(w.marker, results) <==> w.Named() <= Stems(results)
  {
    if w.marker.Some? && PublishesAll(w.marker, results) {
      forall stem | stem in w.marker.value ensures stem in Stems(results) {
        var result :| result in results && result.stem == stem;
      }
    }
  }

  class CorePublication {
    var world: World
    var left: nat
    ghost var worlds: seq<World>
    ghost var steps: seq<Step>

    // What happened so far is one of the runs above.
    ghost predicate Valid()
      reads this
    {
      Follows(worlds, steps) && worlds[|steps|] == world
    }

    constructor (marker: Option<map<Stem, Fingerprint>>)
      ensures Valid() && world == World(marker, map[], None, {}) && steps == []
    {
      world := World(marker, map[], None, {});
      left := 0;
      worlds, steps := [World(marker, map[], None, {})], [];
    }

    method Restart(steps: nat)
      requires Valid()
      modifies this`left
      ensures Valid() && left == steps
    {
      left := steps;
    }

    // Makes one step, or dies instead.
    method Perform(s: Step) returns (alive: bool)
      requires Valid() && Enabled(world, s)
      modifies this
      ensures Valid() && alive == (old(left) > 0)
      ensures alive ==> world == Apply(old(world), s) && steps == old(steps) + [s] && left == old(left) - 1
      ensures !alive ==> world == old(world).(run := None) && left == 0
    {
      alive := left > 0;
      if alive {
        left := left - 1;
        Advance(s);
      } else if world.run.Some? {
        Advance(Crash);
      }
    }

    method Advance(s: Step)
      requires Valid() && Enabled(world, s)
      modifies this`world, this`worlds, this`steps
      ensures Valid() && world == Apply(old(world), s) && steps == old(steps) + [s]
    {
      ghost var before, made := worlds, steps;
      world := Apply(world, s);
      worlds, steps := worlds + [world], steps + [s];
      FollowsOneMore(before, made, s);
    }

    // Whatever the worker gets done at one point.
    method Work(moves: seq<Step>) returns (alive: bool)
      requires Valid() && world.run.Some?
      modifies this
      ensures Valid() && left <= old(left)
      ensures if alive then OnlyWorked(old(world), world) else world.run.None?
    {
      hide Follows, Orderly;
      alive := true;
      for i := 0 to |moves|
        invariant Valid() && left <= old(left) && alive && OnlyWorked(old(world), world)
      {
        if IsWork(moves[i]) && Enabled(world, moves[i]) {
          alive := Perform(moves[i]);
          if !alive { return; }
        }
      }
    }

    // The callback of one processed region: recorded if it is to be, then submitted,
    // then counted as published. Without its polygons it is never submitted.
    method EnqueueUpload(result: ProcessResult, k: nat, outside: Outside) returns (ok: bool)
      requires Valid() && world.run.Some? && world.run.value.phase.Processing?
      modifies this
      ensures Valid() && left <= old(left)
      ensures !ok ==> world.run.None? || world.run.value.phase == Draining(false)
      ensures world.run.Some? ==> CallbackDone(old(world), world, result)
      ensures ok ==>
                && result.polygons.Some?
                && world.run.Some? && world.run.value.phase.Processing?
                && world.run.value.published == old(world).run.value.published + {result.stem}
    {
      hide Follows, Orderly, CallbackDone;
      ghost var before := world;
      RecordedDone(before, result);
      ok := Perform(Callback(result.stem, result.polygons));
      if !ok { return; }
      ghost var recorded := world;
      ok := Work(outside.worker(2 * k));
      if !ok { return; }
      StillDone(before, recorded, world, result);
      ghost var worked := world;
      var n := outside.number(k);
      if !outside.persists(k) || !Enabled(world, Submit(n)) {
        ok := Perform(SubmitFails);
        if world.run.Some? {
          StillDone(before, worked, world, result);
        }
        return false;
      }
      ok := SubmitAndPublish(n, outside.worker(2 * k + 1));
      if world.run.Some? {
        StillDone(before, worked, world, result);
      }
    }

    method SubmitAndPublish(n: nat, moves: seq<Step>) returns (ok: bool)
      requires Valid() && world.run.Some? && Enabled(world, Submit(n))
      modifies this
      ensures Valid() && left <= old(left)
      ensures !ok ==> world.run.None?
      ensures ok ==> SameMarking(old(world), world)
                     && world.run.value.phase.Processing?
                     && world.run.value.published == old(world).run.value.published + {old(world).run.value.phase.stem}
    {
      hide Follows, Orderly;
      ok := Perform(Submit(n));
      if !ok { return; }
      ok := Work(moves);
      if !ok { return; }
      ok := Perform(Publish);
    }

    // Waits for the worker to go through the whole queue.
    method CloseAndWait(outside: Outside) returns (alive: bool)
      requires Valid() && world.run.Some?
      modifies this
      ensures Valid() && left <= old(left)
      ensures if alive then OnlyWorked(old(world), world) && world.run.value.queue == [] &&
                world.run.value.uploaded.None?
              else world.run.None?
    {
      hide Follows;
      LastIsOrderly();
      var before := world;
      while world.run.value.queue != []
        invariant Valid() && left <= old(left) && OnlyWorked(before, world) && Orderly(world)
        decreases |world.run.value.queue|, world.run.value.uploaded.None?
      {
        var n := world.run.value.queue[0];
        var s := if world.run.value.uploaded.Some? then (if outside.deletes(n) then WorkDelete else WorkDeleteFails)
                 else if outside.uploads(n) && n in world.pending then WorkUpload
                 else WorkFail;
        StepKeepsOrderly(world, s);
        alive := Perform(s);
        if !alive { return; }
      }
      alive := true;
    }

    lemma LastIsOrderly()
      requires Valid()
      ensures Orderly(world)
    {
      EveryWorldOrderly(worlds, steps, |steps|);
    }

    // The queue is drained; the refresh follows when nothing failed and every named
    // region was published.
    method DrainUploads(outside: Outside) returns (e: Ended)
      requires Valid() && world.run.Some? && world.run.value.phase.Draining?
      modifies this
      ensures Valid() && world.run.None?
      ensures e.Finished? && e.refreshed ==>
                e.failures == 0 && (!old(world).run.value.dry ==> world.marker.None? && world.owed == {})
      ensures e.Finished? && (!e.refreshed || old(world).run.value.dry) ==> world.marker == old(world).marker
      ensures e.Finished? && e.failures == 0 ==>
                (e.refreshed <==>
                    old(world).run.value.defer && old(world).run.value.phase.completed &&
                        RefreshRequested(old(world), old(world).run.value))
    {
      hide Follows, Orderly;
      ghost var start := world;
      var alive := CloseAndWait(outside);
      if !alive {
        return Died;
      }
      var r := world.run.value;
      alive := Perform(Drained);
      if !alive {
        return Died;
      }
      if world.run.None? {
        return Finished(r.failures, false);
      }
      if !outside.refreshes {
        alive := Perform(RefreshFail);
        return if alive then Finished(1, false) else Died;
      }
      alive := Perform(RefreshUpload);
      if !alive {
        return Died;
      }
      alive := Perform(Clear);
      return if alive then Finished(0, true) else Died;
    }

    // A whole run; aborted when processing broke off or a job could not be persisted.
    // When it ends without a failed upload, the metadata was refreshed exactly if the
    // run deferred it, was not aborted, published something, and published every region
    // that earlier runs left in the marker.
    method RunCorePublication(results: seq<ProcessResult>, completes: bool, defer: bool, dry: bool,
                              resumed: seq<nat>, lost: nat, outside: Outside)
      returns (e: Ended, aborted: bool)
      requires Valid() && Enabled(world, Begin(defer, dry, resumed, lost))
      modifies this
      ensures Valid() && world.run.None?
      ensures e.Finished? && e.refreshed ==> e.failures == 0 && (!dry ==> world.marker.None? && world.owed == {})
      ensures !aborted && e.Finished? ==> forall result | result in results :: result.polygons.Some?
      ensures e.Finished? && e.failures == 0 ==>
                (e.refreshed <==> defer && !aborted && results != [] && PublishesAll(old(world).marker, results))
    {
      hide Follows, Orderly, CallbackDone, PublishesAll;
      PublishesAllIs(world, results);
      aborted := !completes;
      var alive := Perform(Begin(defer, dry, resumed, lost));
      if !alive {
        return Died, aborted;
      }
      for k := 0 to |results|
        invariant Valid() && world.run.Some? && world.run.value.phase.Processing?
        invariant Published(old(world), world, defer, dry, results[..k])
        invariant forall result | result in results[..k] :: result.polygons.Some?
      {
        ghost var before := world;
        var ok := EnqueueUpload(results[k], k, outside);
        if !ok {
          aborted := true;
          if world.run.None? {
            return Died, aborted;
          }
          e := DrainUploads(outside);
          return;
        }
        assert results[..k + 1] == results[..k] + [results[k]];
        PublishedMore(old(world), before, world, defer, dry, results[..k], results[k]);
      }
      assert results[..|results|] == results;
      alive := Perform(ProcessingEnds(completes));
      if !alive {
        return Died, aborted;
      }
      PublishedAsks(old(world), world, defer, dry, results);
      e := DrainUploads(outside);
    }
  }

  // What the callbacks so far have made of the marker and of the published regions.
  ghost predicate Published(start: World, w: World, defer: bool, dry: bool, results: seq<ProcessResult>) {
    && w.run.Some? && w.run.value.defer == defer && w.run.value.dry == dry
    && w.run.value.published == Stems(results) && w.run.value.recorded.Keys <= Stems(results)
    && start.Named() <= w.Named() <= start.Named() + Stems(results)
  }

  lemma PublishedMore(start: World, w: World, w': World, defer: bool, dry: bool, results: seq<ProcessResult>,
                      result: ProcessResult)
    requires Published(start, w, defer, dry, results) && CallbackDone(w, w', result)
    requires w'.run.value.published == w.run.value.published + {result.stem}
    ensures Published(start, w', defer, dry, results + [result])
  {
    assert Stems(results + [result]) == Stems(results) + {result.stem};
  }

  lemma PublishedAsks(start: World, w: World, defer: bool, dry: bool, results: seq<ProcessResult>)
    requires Published(start, w, defer, dry, results)
    ensures RefreshRequested(w, w.run.value) <==> results != [] && start.Named() <= Stems(results)
  {
    if results != [] {
      assert results[0].stem in Stems(results);
    }
  }

  lemma FollowsOneMore(worlds: seq<World>, steps: seq<Step>, s: Step)
    requires Follows(worlds, steps) && Enabled(worlds[|steps|], s)
    ensures Follows(worlds + [Apply(worlds[|steps|], s)], steps + [s])
  {
    hide Enabled, Apply, Orderly, Marked;
  }
}
