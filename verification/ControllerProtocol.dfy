/**
 The Grid5000 sentence controller as a protocol: the ledger in memory, the ledger
 on disk, and the remote actions that may happen between writes.  A crash or a
 new run is the step `Restart`, which forgets everything but the disk, so the
 theorems below hold over any number of runs cut off anywhere.
 */
module ControllerProtocol {
  import opened Wrappers

  datatype BatchState = Planned | Submitted | Running | ReadyToPublish | Published | Failed | Cancelled

  datatype Record = Record(
    index: nat,
    stems: seq<string>,
    inputBytes: nat,
    state: BatchState,
    attempt: nat,
    jobId: Option<string>,
    remoteRoot: Option<(nat, nat)>,   // batch index and attempt name the directory
    remoteCleaned: bool,
    hfCommit: Option<string>,
    error: Option<string>)

  datatype Ledger = Ledger(
    runId: string,
    config: string,                   // every other immutable field
    sourceCommit: string,
    commitUpdates: seq<(string, string)>,
    readmeHash: string,
    mapHash: string,
    cleanupComplete: bool,
    batches: seq<Record>)

  // What a receipt says, and how its job ended.
  datatype Evidence = Evidence(
    commit: string, jobId: string, stems: seq<string>, succeeded: bool, terminated: bool, exitCode: Option<int>)

  // What this run has done for the batch it began.
  datatype Phase = Idle | Begun(i: nat) | StagedFor(i: nat) | Queued(i: nat)

  datatype World = World(
    memory: Option<Ledger>,
    disk: Option<Ledger>,
    phase: Phase,
    staged: set<(nat, nat)>,          // remote directories ever uploaded to
    queued: set<(nat, nat)>,          // attempts for which oarsub was ever called
    accepted: map<nat, Evidence>)     // what the last result accepted for a batch rested on

  datatype Step =
    | Restart
    | Load
    | Create(ledger: Ledger)
    | Migrate(commit: string)
    | Flush
    | Begin(i: nat)
    | Stage(i: nat, attempt: nat)
    | Oarsub(i: nat, attempt: nat)
    | RecordJob(i: nat, jobId: string)
    | Fail(i: nat, error: string)
    | Accept(i: nat, evidence: Evidence)
    | Publish(i: nat, hfCommit: string)
    | NoteError(i: nat, error: string)
    | Cancel(i: nat)
    | RemoveJobRoot(i: nat)
    | MarkCleaned(i: nat)
    | RemoveRunRoot
    | SetCleanup(complete: bool)

  predicate IsActive(s: BatchState) {
    s == Submitted || s == Running
  }

  predicate IsAccepted(s: BatchState) {
    s == ReadyToPublish || s == Published
  }

  predicate Untouched(b: Record) {
    b.state == Planned && b.attempt == 0 && b.jobId.None? && b.remoteRoot.None? && b.hfCommit.None?
  }

  predicate PublishedBelow(l: Ledger, i: nat)
    requires i <= |l.batches|
  {
    forall j | 0 <= j < i :: l.batches[j].state == Published
  }

  predicate AllPublished(l: Ledger) {
    PublishedBelow(l, |l.batches|)
  }

  // The source commit may move only while no batch has a result or a live job.
  predicate CommitBatchIsSafe(b: Record) {
    && (|| (b.state == Planned && b.jobId.None?)
        || (b.state == Failed &&
            (b.jobId.None? || b.error == Some("missing_receipt") || b.error == Some("invalid_receipt"))))
    && b.hfCommit.None?
  }

  predicate MigrationSafe(l: Ledger) {
    l.batches != [] && forall b | b in l.batches :: CommitBatchIsSafe(b)
  }

  predicate Fresh(l: Ledger) {
    !l.cleanupComplete && forall i | 0 <= i < |l.batches| :: Untouched(l.batches[i]) && l.batches[i].index == i
  }

  predicate Has(l: Option<Ledger>, i: nat) {
    l.Some? && i < |l.value.batches|
  }

  predicate InState(l: Option<Ledger>, i: nat, s: BatchState) {
    Has(l, i) && l.value.batches[i].state == s
  }

  // The batch is on disk exactly as in memory.
  predicate OnDisk(w: World, i: nat) {
    Has(w.memory, i) && Has(w.disk, i) && w.disk.value.batches[i] == w.memory.value.batches[i]
  }

  // A receipt of this batch's own job, at this commit and for these regions, that reports
  // success, of a job that ended without a failing exit code.
  ghost predicate Attests(e: Evidence, b: Record, commit: string) {
    && e.commit == commit && b.jobId == Some(e.jobId) && e.stems == b.stems
    && e.succeeded && e.terminated && (e.exitCode == None || e.exitCode == Some(0))
  }

  ghost predicate Enabled(w: World, s: Step) {
    match s
    case Restart => true
    case Load => w.memory.None? && w.disk.Some?
    case Create(l) => w.memory.None? && w.disk.None? && Fresh(l)
    case Migrate(_) => w.memory.Some? && MigrationSafe(w.memory.value)
    case Flush => w.memory.Some?
    case Begin(i) =>
      && (InState(w.memory, i, Planned) || InState(w.memory, i, Failed))
      && PublishedBelow(w.memory.value, i)
    case Stage(i, a) =>
      w.phase == Begun(i) && OnDisk(w, i) && InState(w.disk, i, Submitted) && a == w.disk.value.batches[i].attempt
    case Oarsub(i, a) =>
      w.phase == StagedFor(i) && OnDisk(w, i) && InState(w.disk, i, Submitted) && a == w.disk.value.batches[i].attempt
    case RecordJob(i, _) => w.phase == Queued(i) && InState(w.memory, i, Submitted)
    case Fail(i, _) => InState(w.memory, i, Running) ||
        (InState(w.memory, i, Submitted) && !w.phase.Idle? && w.phase.i == i)
    case Accept(i, e) =>
      InState(w.memory, i, Running) && Attests(e, w.memory.value.batches[i], w.memory.value.sourceCommit)
    case Publish(i, _) => InState(w.memory, i, ReadyToPublish)
    case NoteError(i, _) => InState(w.memory, i, ReadyToPublish)
    case Cancel(i) => InState(w.memory, i, Submitted) || InState(w.memory, i, Running)
    case RemoveJobRoot(i) => OnDisk(w, i) && (InState(w.disk, i, Failed) || InState(w.disk, i, Published))
    case MarkCleaned(i) => InState(w.memory, i, Failed) || InState(w.memory, i, Published)
    case RemoveRunRoot => w.disk.Some? && AllPublished(w.disk.value)
    case SetCleanup(_) => w.memory.Some?
  }

  function Began(b: Record): Record {
    b.(state := Submitted, attempt := b.attempt + 1, jobId := None, remoteRoot := Some((b.index, b.attempt + 1)),
       remoteCleaned := false, error := None)
  }

  function Change(w: World, i: nat, b: Record): World
    requires Has(w.memory, i)
  {
    w.(memory := Some(w.memory.value.(batches := w.memory.value.batches[i := b])))
  }

  function Apply(w: World, s: Step): World
    requires Enabled(w, s)
  {
    match s
    case Restart => w.(memory := None, phase := Idle)
    case Load => w.(memory := w.disk)
    case Create(l) => w.(memory := Some(l))
    case Migrate(c) =>
      var l := w.memory.value;
      w.(memory := Some(l.(sourceCommit := c, commitUpdates := l.commitUpdates + [(l.sourceCommit, c)])))
    case Flush => w.(disk := w.memory)
    case Begin(i) => Change(w, i, Began(w.memory.value.batches[i])).(phase := Begun(i))
    case Stage(i, a) => w.(staged := w.staged + {(i, a)}, phase := StagedFor(i))
    case Oarsub(i, a) => w.(queued := w.queued + {(i, a)}, phase := Queued(i))
    case RecordJob(i, job) => Change(w, i, w.memory.value.batches[i].(jobId := Some(job), state := Running))
    case Fail(i, e) => Change(w, i, w.memory.value.batches[i].(state := Failed, error := Some(e)))
    case Accept(i, e) =>
      Change(w, i, w.memory.value.batches[i].(state := ReadyToPublish)).(accepted := w.accepted[i := e])
    case Publish(i, c) =>
      Change(w, i, w.memory.value.batches[i].(state := Published, hfCommit := Some(c), error := None))
    case NoteError(i, e) => Change(w, i, w.memory.value.batches[i].(error := Some(e)))
    case Cancel(i) =>
      Change(w, i, w.memory.value.batches[i].(state := Cancelled, error := Some("cancelled_by_interrupt")))
    case RemoveJobRoot(i) => w
    case MarkCleaned(i) => Change(w, i, w.memory.value.batches[i].(remoteCleaned := true))
    case RemoveRunRoot => w
    case SetCleanup(b) => w.(memory := Some(w.memory.value.(cleanupComplete := b)))
  }

  /******* What every state keeps *******/

  // Published batches first, then at most one batch under way, then untouched ones.
  ghost predicate Serial(batches: seq<Record>) {
    forall i, j | 0 <= i < j < |batches| :: batches[i].state == Published || Untouched(batches[j])
  }

  predicate RecordOk(b: Record, i: nat) {
    && b.index == i
    && (b.state == Planned ==> Untouched(b))
    && (b.state == Submitted ==> b.jobId.None?)
    && (b.state == Running ==> b.jobId.Some?)
    && (b.state != Planned ==> b.remoteRoot == Some((i, b.attempt)))
    && (b.hfCommit.Some? <==> b.state == Published)
  }

  ghost predicate LedgerOk(l: Ledger, accepted: map<nat, Evidence>) {
    && Serial(l.batches)
    && (forall i | 0 <= i < |l.batches| :: RecordOk(l.batches[i], i))
    && (forall i | 0 <= i < |l.batches| && IsAccepted(l.batches[i].state) ::
          i in accepted && Attests(accepted[i], l.batches[i], l.sourceCommit))
  }

  // Memory has only moved on from the disk.
  ghost predicate Ahead(disk: Ledger, memory: Ledger) {
    && |disk.batches| == |memory.batches|
    && (forall i | 0 <= i < |disk.batches| ::
          && disk.batches[i].attempt <= memory.batches[i].attempt
          && (IsAccepted(disk.batches[i].state) ==> IsAccepted(memory.batches[i].state))
          && (disk.batches[i].state == Published ==> memory.batches[i].state == Published))
    && (forall i | 0 <= i < |disk.batches| :: IsAccepted(disk.batches[i].state) ==>
        disk.sourceCommit == memory.sourceCommit)
  }

  ghost predicate AttemptsStored(w: World, used: set<(nat, nat)>) {
    forall p | p in used :: Has(w.disk, p.0) && p.1 <= w.disk.value.batches[p.0].attempt
  }

  ghost predicate Safe(w: World) {
    && (w.memory.Some? ==> LedgerOk(w.memory.value, w.accepted))
    && (w.disk.Some? ==> LedgerOk(w.disk.value, w.accepted))
    && (w.memory.Some? && w.disk.Some? ==> Ahead(w.disk.value, w.memory.value))
    && AttemptsStored(w, w.staged) && AttemptsStored(w, w.queued)
    && (!w.phase.Idle? ==> Has(w.memory, w.phase.i))
    && (w.phase.Begun? ==> (w.phase.i, w.memory.value.batches[w.phase.i].attempt) !in w.staged)
    && ((w.phase.Begun? || w.phase.StagedFor?) ==>
          (w.phase.i, w.memory.value.batches[w.phase.i].attempt) !in w.queued)
  }

  lemma ChangeKeepsLedger(l: Ledger, i: nat, b: Record, accepted: map<nat, Evidence>)
    requires LedgerOk(l, accepted) && i < |l.batches| && RecordOk(b, i) && b.state != Planned
    requires l.batches[i].state != Planned || PublishedBelow(l, i)
    requires l.batches[i].state == Published ==> b.state == Published
    requires IsAccepted(b.state) ==> i in accepted && Attests(accepted[i], b, l.sourceCommit)
    ensures LedgerOk(l.(batches := l.batches[i := b]), accepted)
  {
    var bs := l.batches[i := b];
    forall j, k | 0 <= j < k < |bs| ensures bs[j].state == Published || Untouched(bs[k]) {
      assert l.batches[j].state == Published || Untouched(l.batches[k]);
    }
  }

  lemma AcceptKeepsLedger(l: Ledger, i: nat, accepted: map<nat, Evidence>, e: Evidence)
    requires LedgerOk(l, accepted)
    requires i < |l.batches| ==> !IsAccepted(l.batches[i].state)
    ensures LedgerOk(l, accepted[i := e])
  {}

  // The attempt counter reached the disk before the attempt used anything remote.
  lemma AttemptIsNew(w: World, s: Step)
    requires Safe(w) && Enabled(w, s)
    ensures s.Begin? ==>
              && (s.i, w.memory.value.batches[s.i].attempt + 1) !in w.staged
              && (s.i, w.memory.value.batches[s.i].attempt + 1) !in w.queued
  {
    if s.Begin? {
      var p := (s.i, w.memory.value.batches[s.i].attempt + 1);
      assert p in w.staged || p in w.queued ==> Has(w.disk, s.i);
    }
  }

  // How a step may replace the record of one batch.
  ghost predicate Advances(w: World, i: nat, b: Record)
    requires Has(w.memory, i)
  {
    var b0 := w.memory.value.batches[i];
    && RecordOk(b, i) && b.state != Planned && b0.attempt <= b.attempt
    && (b0.state != Planned || PublishedBelow(w.memory.value, i))
    && (b0.state == Published ==> b.state == Published)
    && (IsAccepted(b0.state) ==> IsAccepted(b.state))
  }

  lemma ChangeKeepsSafe(w: World, i: nat, b: Record)
    requires Safe(w) && Has(w.memory, i) && Advances(w, i, b)
    requires IsAccepted(b.state) ==> i in w.accepted && Attests(w.accepted[i], b, w.memory.value.sourceCommit)
    requires b.attempt == w.memory.value.batches[i].attempt
    ensures Safe(Change(w, i, b))
  {
    ChangeKeepsLedger(w.memory.value, i, b, w.accepted);
    if w.disk.Some? {
      ChangeKeepsAhead(w.disk.value, w.memory.value, i, b);
    }
  }

  lemma BeginKeepsSafe(w: World, i: nat)
    requires Safe(w) && Enabled(w, Begin(i))
    ensures Safe(Apply(w, Begin(i)))
  {
    hide Serial;
    AttemptIsNew(w, Begin(i));
    var b := Began(w.memory.value.batches[i]);
    ChangeKeepsLedger(w.memory.value, i, b, w.accepted);
    if w.disk.Some? {
      ChangeKeepsAhead(w.disk.value, w.memory.value, i, b);
    }
  }

  lemma AcceptKeepsSafe(w: World, i: nat, e: Evidence)
    requires Safe(w) && Enabled(w, Accept(i, e))
    ensures Safe(Apply(w, Accept(i, e)))
  {
    hide Serial;
    AcceptKeepsLedger(w.memory.value, i, w.accepted, e);
    if w.disk.Some? {
      AcceptKeepsLedger(w.disk.value, i, w.accepted, e);
    }
    ChangeKeepsSafe(w.(accepted := w.accepted[i := e]), i, w.memory.value.batches[i].(state := ReadyToPublish));
  }

  lemma BatchStepKeepsSafe(w: World, s: Step)
    requires Safe(w) && Enabled(w, s)
    requires s.RecordJob? || s.Fail? || s.Publish? || s.NoteError? || s.Cancel? || s.MarkCleaned?
    ensures Safe(Apply(w, s))
  {
    hide Ahead, AttemptsStored, Serial;
    ChangeKeepsSafe(w, s.i, Apply(w, s).memory.value.batches[s.i]);
  }

  lemma ChangeKeepsAhead(disk: Ledger, memory: Ledger, i: nat, b: Record)
    requires Ahead(disk, memory) && i < |memory.batches|
    requires memory.batches[i].attempt <= b.attempt
    requires IsAccepted(memory.batches[i].state) ==> IsAccepted(b.state)
    requires memory.batches[i].state == Published ==> b.state == Published
    ensures Ahead(disk, memory.(batches := memory.batches[i := b]))
  {}

  lemma MigrateKeepsSafe(w: World, c: string)
    requires Safe(w) && Enabled(w, Migrate(c))
    ensures Safe(Apply(w, Migrate(c)))
  {
    var l := w.memory.value;
    forall i | 0 <= i < |l.batches| ensures !IsAccepted(l.batches[i].state) {
      assert CommitBatchIsSafe(l.batches[i]);
    }
  }

  lemma StepKeepsSafe(w: World, s: Step)
    requires Safe(w) && Enabled(w, s)
    ensures Safe(Apply(w, s))
  {
    if s.Migrate? {
      MigrateKeepsSafe(w, s.commit);
    } else if s.Begin? {
      BeginKeepsSafe(w, s.i);
    } else if s.Accept? {
      AcceptKeepsSafe(w, s.i, s.evidence);
    } else if s.RecordJob? || s.Fail? || s.Publish? || s.NoteError? || s.Cancel? || s.MarkCleaned? {
      BatchStepKeepsSafe(w, s);
    }
  }

  /******* Runs *******/

  // The worlds a run goes through: one more than it has steps.
  ghost predicate Run(worlds: seq<World>, steps: seq<Step>) {
    && |worlds| == |steps| + 1
    && forall k | 0 <= k < |steps| :: Moves(worlds[k], steps[k], worlds[k + 1])
  }

  ghost predicate Moves(w: World, s: Step, w': World) {
    Enabled(w, s) && w' == Apply(w, s)
  }

  const Nothing: World := World(None, None, Idle, {}, {}, map[])

  lemma {:induction false} EveryStateSafe(worlds: seq<World>, steps: seq<Step>, k: nat)
    requires Run(worlds, steps) && Safe(worlds[0]) && k < |worlds|
    ensures Safe(worlds[k])
  {
    hide Safe, Enabled;
    if k > 0 {
      EveryStateSafe(worlds, steps, k - 1);
      assert Moves(worlds[k - 1], steps[k - 1], worlds[k]);
      StepKeepsSafe(worlds[k - 1], steps[k - 1]);
    }
  }

  // Every ledger that is ever on disk: published batches, then at most one batch
  // in another state, then only planned batches that were never attempted.
  lemma WrittenLedgersAreSerial(worlds: seq<World>, steps: seq<Step>, k: nat) returns (frontier: nat)
    requires Run(worlds, steps) && worlds[0] == Nothing && k < |worlds|
    requires worlds[k].disk.Some?
    ensures var batches := worlds[k].disk.value.batches;
            && frontier <= |batches|
            && (forall i | 0 <= i < frontier :: batches[i].state == Published)
            && (frontier < |batches| ==> batches[frontier].state != Published)
            && (forall i | frontier < i < |batches| :: Untouched(batches[i]))
  {
    EveryStateSafe(worlds, steps, k);
    var batches := worlds[k].disk.value.batches;
    frontier := 0;
    while frontier < |batches| && batches[frontier].state == Published
      invariant frontier <= |batches| && forall i | 0 <= i < frontier :: batches[i].state == Published
    {
      frontier := frontier + 1;
    }
  }

  // Every published batch was accepted on a receipt of its own job and regions that names
  // the source commit the ledger has at the end, over all runs, and says that it succeeded,
  // and its job had terminated without a failing exit code.
  lemma PublishedUnderLedgerCommit(worlds: seq<World>, steps: seq<Step>, i: nat)
    requires Run(worlds, steps) && worlds[0] == Nothing
    requires InState(worlds[|steps|].disk, i, Published)
    ensures i in worlds[|steps|].accepted
    ensures var e, l := worlds[|steps|].accepted[i], worlds[|steps|].disk.value;
            && e.commit == l.sourceCommit && Some(e.jobId) == l.batches[i].jobId && e.stems == l.batches[i].stems
            && e.succeeded && e.terminated && (e.exitCode == None || e.exitCode == Some(0))
  {
    EveryStateSafe(worlds, steps, |steps|);
  }

  // A batch that a new run must not submit: cancelled, or submitted without a job
  // identifier by a run that is over.
  ghost predicate Stuck(w: World, i: nat) {
    && Has(w.disk, i) && (w.phase.Idle? || w.phase.i != i)
    && (InState(w.disk, i, Cancelled) || (InState(w.disk, i, Submitted) && w.disk.value.batches[i].jobId.None?))
    && (w.memory.Some? ==>
          InState(w.memory, i, Cancelled) || (InState(w.memory, i, Submitted) && w.memory.value.batches[i].jobId.None?))
  }

  lemma StepKeepsStuck(w: World, s: Step, i: nat)
    requires Stuck(w, i) && Enabled(w, s)
    ensures Stuck(Apply(w, s), i)
    ensures s != Begin(i) && !(s.Oarsub? && s.i == i) && !(s.Stage? && s.i == i)
  {
    hide MigrationSafe, Fresh, AllPublished, PublishedBelow;
  }

  // From there on no run calls oarsub, or even stages files, for that batch.
  lemma {:induction false} StuckBatchIsNeverSubmitted(worlds: seq<World>, steps: seq<Step>, i: nat, j: nat, k: nat)
    requires Run(worlds, steps)
    requires j < k < |worlds| && steps[j] == Restart
    requires InState(worlds[j].disk, i, Cancelled)
          || (InState(worlds[j].disk, i, Submitted) && worlds[j].disk.value.batches[i].jobId.None?)
    ensures Stuck(worlds[k], i)
    ensures k < |steps| ==> !(steps[k].Oarsub? && steps[k].i == i) && !(steps[k].Stage? && steps[k].i == i)
    decreases k
  {
    hide Enabled;
    if k == j + 1 {
      assert Moves(worlds[j], steps[j], worlds[j + 1]);
    } else {
      StuckBatchIsNeverSubmitted(worlds, steps, i, j, k - 1);
      assert Moves(worlds[k - 1], steps[k - 1], worlds[k]);
      StepKeepsStuck(worlds[k - 1], steps[k - 1], i);
    }
    if k < |steps| {
      assert Moves(worlds[k], steps[k], worlds[k + 1]);
      StepKeepsStuck(worlds[k], steps[k], i);
    }
  }

  lemma {:induction false} UsedOnlyGrows(worlds: seq<World>, steps: seq<Step>, j: nat, k: nat)
    requires Run(worlds, steps) && j <= k < |worlds|
    ensures worlds[j].staged <= worlds[k].staged && worlds[j].queued <= worlds[k].queued
    decreases k
  {
    hide Enabled;
    if j < k {
      UsedOnlyGrows(worlds, steps, j, k - 1);
      assert Moves(worlds[k - 1], steps[k - 1], worlds[k]);
    }
  }

  // No two attempts share a remote directory or a submission, over all runs.
  lemma AttemptsNeverRepeat(worlds: seq<World>, steps: seq<Step>, j: nat, k: nat)
    requires Run(worlds, steps) && Safe(worlds[0]) && j < k < |steps|
    ensures steps[j].Stage? && steps[k].Stage? ==> steps[j] != steps[k]
    ensures steps[j].Oarsub? && steps[k].Oarsub? ==> steps[j] != steps[k]
  {
    hide LedgerOk, Ahead;
    EveryStateSafe(worlds, steps, k);
    UsedOnlyGrows(worlds, steps, j + 1, k);
    assert Moves(worlds[j], steps[j], worlds[j + 1]) && Moves(worlds[k], steps[k], worlds[k + 1]);
  }

  lemma JoinRuns(worlds: seq<World>, steps: seq<Step>, worlds': seq<World>, steps': seq<Step>)
    requires Run(worlds, steps) && Run(worlds', steps') && worlds[|steps|] == worlds'[0]
    ensures Run(worlds[..|steps|] + worlds', steps + steps')
    ensures (worlds[..|steps|] + worlds')[|steps + steps'|] == worlds'[|steps'|]
  {
    hide Moves;
    var ws, ss := worlds[..|steps|] + worlds', steps + steps';
    forall k | 0 <= k < |ss| ensures Moves(ws[k], ss[k], ws[k + 1]) {
      if k < |steps| {
        assert Moves(worlds[k], steps[k], worlds[k + 1]);
      } else {
        assert Moves(worlds'[k - |steps|], steps'[k - |steps|], worlds'[k - |steps| + 1]);
      }
    }
  }

  lemma SubmitsAttempt(w: World, i: nat) returns (worlds: seq<World>, steps: seq<Step>)
    requires Enabled(w, Begin(i))
    ensures var b := Began(w.memory.value.batches[i]);
            && steps == [Begin(i), Flush, Stage(i, b.attempt), Oarsub(i, b.attempt)]
            && Run(worlds, steps) && worlds[0] == w
            && worlds[4] == Change(w, i, b).(disk := Change(w, i, b).memory, phase := Queued(i),
                                             staged := w.staged + {(i, b.attempt)},
                                             queued := w.queued + {(i, b.attempt)})
  {
    var a := w.memory.value.batches[i].attempt + 1;
    steps := [Begin(i), Flush, Stage(i, a), Oarsub(i, a)];
    var w1 := Apply(w, steps[0]);
    var w2 := Apply(w1, steps[1]);
    var w3 := Apply(w2, steps[2]);
    worlds := [w, w1, w2, w3, Apply(w3, steps[3])];
  }

  lemma FailsAfterwards(w: World, i: nat) returns (worlds: seq<World>, steps: seq<Step>)
    requires w.phase == Queued(i) && InState(w.memory, i, Submitted) && PublishedBelow(w.memory.value, i)
    ensures steps == [RecordJob(i, "1"), Flush, Fail(i, "submission_failed"), Flush, Restart, Load]
    ensures Run(worlds, steps) && worlds[0] == w
    ensures Enabled(worlds[6], Begin(i)) && worlds[6].queued == w.queued
    ensures worlds[6].memory.value.batches[i].attempt == w.memory.value.batches[i].attempt
  {
    steps := [RecordJob(i, "1"), Flush, Fail(i, "submission_failed"), Flush, Restart, Load];
    var w1 := Apply(w, steps[0]);
    var w2 := Apply(w1, steps[1]);
    var w3 := Apply(w2, steps[2]);
    var w4 := Apply(w3, steps[3]);
    var w5 := Apply(w4, steps[4]);
    worlds := [w, w1, w2, w3, w4, w5, Apply(w5, steps[5])];
  }

  // A submission whose last policy check fails once oarsub has queued the job, and the next run.
  lemma AttemptThatFails(w: World, i: nat) returns (worlds: seq<World>, steps: seq<Step>)
    requires Enabled(w, Begin(i))
    ensures Run(worlds, steps) && |worlds| == |steps| + 1 && worlds[0] == w
    ensures var a, w' := w.memory.value.batches[i].attempt, worlds[|steps|];
            && Enabled(w', Begin(i)) && w'.memory.value.batches[i].attempt == a + 1
            && w'.queued == w.queued + {(i, a + 1)}
    ensures forall s | s in steps :: !s.RemoveJobRoot? && !s.RemoveRunRoot?
  {
    hide Moves;
    var ws, ss := SubmitsAttempt(w, i);
    var ws', ss' := FailsAfterwards(ws[4], i);
    JoinRuns(ws, ss, ws', ss');
    worlds, steps := ws[..|ss|] + ws', ss + ss';
  }

  // Any batch that may be begun may come to have two jobs queued, with nothing removed.
  lemma TwoJobsForOneBatch(w: World, i: nat) returns (worlds: seq<World>, steps: seq<Step>)
    requires Enabled(w, Begin(i))
    ensures Run(worlds, steps) && worlds[0] == w
    ensures var a := w.memory.value.batches[i].attempt; {(i, a + 1), (i, a + 2)} <= worlds[|steps|].queued
    ensures forall s | s in steps :: !s.RemoveJobRoot? && !s.RemoveRunRoot?
  {
    hide Enabled, Run;
    var ws, ss := AttemptThatFails(w, i);
    var ws', ss' := AttemptThatFails(ws[|ss|], i);
    JoinRuns(ws, ss, ws', ss');
    worlds, steps := ws[..|ss|] + ws', ss + ss';
  }

  ghost predicate Finished(w: World) {
    && w.disk.Some? && AllPublished(w.disk.value)
    && (w.memory.Some? ==> AllPublished(w.memory.value))
  }

  lemma RemovalMeansFinished(w: World)
    requires Safe(w) && Enabled(w, RemoveRunRoot)
    ensures Finished(w)
  {}

  lemma StepKeepsFinished(w: World, s: Step)
    requires Safe(w) && Finished(w) && Enabled(w, s)
    ensures Finished(Apply(w, s))
    ensures !s.Begin? && !s.Stage? && !s.Oarsub? && !s.Cancel?
  {}

  // Once the run directory may be removed, no later step of any run uses it.
  lemma {:induction false} RunRootIsRemovedLast(worlds: seq<World>, steps: seq<Step>, j: nat, k: nat)
    requires Run(worlds, steps) && Safe(worlds[0]) && j <= k < |worlds|
    requires j < |steps| && steps[j] == RemoveRunRoot
    ensures Finished(worlds[k])
    ensures k < |steps| ==> !steps[k].Begin? && !steps[k].Stage? && !steps[k].Oarsub?
    decreases k
  {
    hide Safe, Finished, Enabled;
    if k == j {
      EveryStateSafe(worlds, steps, j);
      assert Moves(worlds[j], steps[j], worlds[j + 1]);
      RemovalMeansFinished(worlds[j]);
    } else {
      RunRootIsRemovedLast(worlds, steps, j, k - 1);
      EveryStateSafe(worlds, steps, k - 1);
      assert Moves(worlds[k - 1], steps[k - 1], worlds[k]);
      StepKeepsFinished(worlds[k - 1], steps[k - 1]);
    }
    if k < |steps| {
      EveryStateSafe(worlds, steps, k);
      assert Moves(worlds[k], steps[k], worlds[k + 1]);
      StepKeepsFinished(worlds[k], steps[k]);
    }
  }
}
