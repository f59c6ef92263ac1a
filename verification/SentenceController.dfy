/**
 The Grid5000 sentence controller.  Its environment answers every command, write,
 receipt and poll as it likes, and every ledger write and remote action the
 controller performs is an enabled step of `ControllerProtocol`.
 */
module SentenceController {
  import opened Wrappers
  import opened ControllerProtocol

  /******* The environment *******/

  // How a call ends: normally, with a controller error, with a command timeout,
  // with another exception, or with a keyboard interrupt.
  datatype Outcome = Done | RunError | Timeout | OtherError | Interrupt

  datatype JobStatus = Unknown | Pending | Terminated | JobError

  datatype Receipt = Receipt(
    jobId: string, sourceCommit: string, model: string, stems: seq<string>, succeeded: bool, errorType: string)

  // One answer carries whatever the call it answers may return.
  datatype Reply = Reply(
    outcome: Outcome,
    happened: bool,                // an interrupted write: did it reach the disk
    text: Option<string>,          // a job identifier, or a Hub commit
    status: JobStatus,
    exitCode: Option<int>,
    receipt: Option<Receipt>,      // none: missing or unreadable
    readmeHash: string,
    mapHash: string)

  // Answers are arbitrary, except that a run that goes on long enough is interrupted.
  class Environment {
    const replies: nat -> Reply
    const horizon: nat
    var clock: nat

    constructor (replies: nat -> Reply, horizon: nat) {
      this.replies := replies;
      this.horizon := horizon;
      clock := 0;
    }

    // The answer to the k-th call.
    function Answer(k: nat): (r: Reply)
      ensures k < horizon ==> r == replies(k)
      ensures k >= horizon ==> r.outcome == Interrupt
    {
      if k >= horizon then replies(k).(outcome := Interrupt) else replies(k)
    }

    // How the first of n calls that does not end normally ends.
    function FirstFailure(k: nat, n: nat): Outcome
      decreases n
    {
      if n == 0 then Done
      else if Answer(k).outcome != Done then Answer(k).outcome
      else FirstFailure(k + 1, n - 1)
    }

    // A submission whose batch is on disk: the namespace, the staging directory, the
    // upload, the policy check, oarsub with the job it reports, a ledger write, and the
    // policy check again.
    predicate Queues(k: nat) {
      FirstFailure(k, 5) == Done && Answer(k + 4).text.Some?
    }

    function Submission(k: nat): Outcome {
      if FirstFailure(k, 5) != Done then FirstFailure(k, 5)
      else if Answer(k + 4).text.None? then RunError
      else FirstFailure(k + 5, 2)
    }

    // The k-th call was a poll that found the job at its end.
    predicate Polled(k: nat) {
      Answer(k).outcome == Done && (Answer(k).status == Terminated || Answer(k).status == JobError)
    }

    // The poll, of those made from the k-th call on with a wait after each, that finds the
    // job at its end, if all calls before it let the polling go on.
    ghost function JobEnd(k: nat): (end: Option<nat>)
      ensures end.Some? ==> k <= end.value && Polled(end.value)
      decreases horizon - k
    {
      if Answer(k).outcome == Interrupt || Answer(k).outcome == RunError then None
      else if Polled(k) then Some(k)
      else if Answer(k + 1).outcome != Done then None
      else JobEnd(k + 2)
    }

    method Call() returns (r: Reply)
      modifies this
      ensures clock == old(clock) + 1 && r == Answer(old(clock))
    {
      r := Answer(clock);
      clock := clock + 1;
    }
  }

  /******* Ledger and remote state *******/

  class RunState {
    var world: World
    ghost var worlds: seq<World>
    ghost var steps: seq<Step>

    ghost predicate Valid()
      reads this
    {
      Run(worlds, steps) && worlds[0] == Nothing && world == worlds[|steps|]
    }

    constructor ()
      ensures Valid() && world == Nothing
    {
      world, worlds, steps := Nothing, [Nothing], [];
    }

    lemma IsSafe()
      requires Valid()
      ensures Safe(world)
    {
      EveryStateSafe(worlds, steps, |steps|);
    }

    lemma EndsHere()
      requires Valid()
      ensures |worlds| == |steps| + 1 && worlds[|steps|] == world
    {}

    method Perform(s: Step)
      requires Valid() && Enabled(world, s)
      modifies this
      ensures Valid() && world == Apply(old(world), s)
      ensures steps == old(steps) + [s] && worlds == old(worlds) + [world]
    {
      ExtendRun(worlds, steps, s);
      world := Apply(world, s);
      worlds, steps := worlds + [world], steps + [s];
    }
  }

  lemma ExtendRun(worlds: seq<World>, steps: seq<Step>, s: Step)
    requires Run(worlds, steps) && Enabled(worlds[|steps|], s)
    ensures Run(worlds + [Apply(worlds[|steps|], s)], steps + [s])
  {
    hide Enabled;
    var ws, ss := worlds + [Apply(worlds[|steps|], s)], steps + [s];
    forall k | 0 <= k < |ss| ensures Moves(ws[k], ss[k], ws[k + 1]) {
      if k < |steps| {
        assert Moves(worlds[k], steps[k], worlds[k + 1]);
      }
    }
  }

  // Nothing but batch `i` differs, and that batch keeps its identity.
  ghost predicate OnlyBatch(w: World, w': World, i: nat) {
    && Has(w.memory, i) && Has(w'.memory, i)
    && w'.memory.value == w.memory.value.(batches := w'.memory.value.batches)
    && |w'.memory.value.batches| == |w.memory.value.batches|
    && (forall j | 0 <= j < |w.memory.value.batches| && j != i ::
          w'.memory.value.batches[j] == w.memory.value.batches[j])
  }

  lemma OnlyBatchAgain(w: World, w': World, w'': World, i: nat)
    requires OnlyBatch(w, w', i) && OnlyBatch(w', w'', i)
    ensures OnlyBatch(w, w'', i)
  {}

  lemma OnlyBatchHas(w: World, w': World, i: nat)
    requires OnlyBatch(w, w', i)
    ensures Has(w'.memory, i)
  {}

  lemma OnlyBatchItself(w: World, i: nat)
    requires Has(w.memory, i)
    ensures OnlyBatch(w, w, i)
  {}

  // Everything before batch `i` is published; everything after it is as before.
  ghost predicate StoppedAt(before: Ledger, after: Ledger, i: nat) {
    && i <= |after.batches| == |before.batches|
    && PublishedBelow(after, i)
    && forall j | i < j < |after.batches| :: after.batches[j] == before.batches[j]
  }

  // What was on disk when the run's directory was removed.
  ghost predicate RemovesSafely(worlds: seq<World>, p: int) {
    0 <= p < |worlds| && worlds[p].disk.Some? && AllPublished(worlds[p].disk.value) &&
        !worlds[p].disk.value.cleanupComplete
  }

  predicate RemoteBatchSucceeded(status: JobStatus, exitCode: Option<int>, receipt: Receipt) {
    status == Terminated && (exitCode.None? || exitCode == Some(0)) && receipt.succeeded
  }

  class Controller {
    const state: RunState
    const env: Environment
    const sourceCommit: string
    const config: string
    const model: string
    const requestedRunId: Option<string>
    var currentBatch: Option<nat>

    constructor (state: RunState, env: Environment, sourceCommit: string, config: string, model: string,
                 requestedRunId: Option<string>)
      requires state.Valid()
      modifies state
      ensures this.state == state && this.env == env && Valid()
      ensures state.world == old(state.world).(memory := None, phase := Idle)
    {
      this.state, this.env := state, env;
      this.sourceCommit, this.config, this.model, this.requestedRunId := sourceCommit, config, model, requestedRunId;
      currentBatch := None;
      new;
      state.Perform(Restart);
    }

    ghost predicate Valid()
      reads this, state, env
    {
      state.Valid() && (currentBatch.Some? ==> Has(state.world.memory, currentBatch.value))
    }

    // A loaded ledger that passed the checks on its immutable fields.
    ghost predicate Loaded()
      reads this, state, env
    {
      && Valid() && state.world.memory.Some?
      && state.world.memory.value.sourceCommit == sourceCommit && state.world.memory.value.config == config
    }

    // Atomically writes the ledger in memory.
    method WriteLedger() returns (e: Outcome)
      requires Valid() && state.world.memory.Some?
      modifies state, env
      ensures Valid() && env.clock == old(env.clock) + 1 && e == env.Answer(old(env.clock)).outcome
      ensures state.steps == old(state.steps) || state.steps == old(state.steps) + [Flush]
      ensures old(state.worlds) <= state.worlds
      ensures state.world == old(state.world) || state.world == old(state.world).(disk := old(state.world.memory))
      ensures e == Done ==> state.world == old(state.world).(disk := old(state.world.memory))
    {
      var r := env.Call();
      if r.outcome == Done || (r.outcome == Interrupt && r.happened) {
        state.Perform(Flush);
      }
      e := r.outcome;
    }

    // A batch step followed by the write that makes it durable.
    method Store(s: Step) returns (e: Outcome)
      requires Loaded() && Enabled(state.world, s)
      requires s.Begin? || s.RecordJob? || s.Fail? || s.Accept? || s.Publish? || s.NoteError? || s.Cancel? ||
                s.MarkCleaned?
      modifies state, env
      ensures Loaded() && old(state.steps) <= state.steps
      ensures env.clock == old(env.clock) + 1 && e == env.Answer(old(env.clock)).outcome
      ensures OnlyBatch(old(state.world), state.world, s.i)
      ensures var w := Apply(old(state.world), s);
              (state.world == w || state.world == w.(disk := w.memory))
              && (e == Done ==> state.world == w.(disk := w.memory))
    {
      hide RunState.Valid;
      state.Perform(s);
      e := WriteLedger();
    }

    /******* One batch *******/

    method ProcessBatch(i: nat) returns (e: Outcome)
      requires Loaded() && Has(state.world.memory, i)
      requires PublishedBelow(state.world.memory.value, i)
      modifies state, env
      ensures Loaded() && old(state.steps) <= state.steps
      ensures OnlyBatch(old(state.world), state.world, i)
      ensures e == Done ==> InState(state.world.memory, i, Published)
      ensures e == Done ==> state.world == old(state.world) || state.world.disk == state.world.memory
    {
      hide RunState.Valid, SubmissionEnds, Proven, FailsFor;
      hide Environment.Answer, Environment.FirstFailure, Environment.Polled;
      var b := state.world.memory.value.batches[i];
      match b.state {
        case Published =>
          return Done;
        case ReadyToPublish =>
          e := PublishBatch(i);
          return;
        case Submitted | Running =>
          e := ReconcileBatch(i);
        case Planned | Failed =>
          e := SubmitBatch(i);
          if e == Done {
            e := ReconcileBatch(i);
          }
        case Cancelled =>
          return RunError;
      }
      if e == Done {
        e := PublishBatch(i);
      }
    }

    // Nothing is staged unless the new attempt is on disk. A timeout leaves the batch
    // active, so that it is never submitted again: submitted without a job, or running when
    // oarsub had already reported one. Any other error marks it failed.
    method SubmitBatch(i: nat) returns (e: Outcome)
      requires Loaded() && Enabled(state.world, Begin(i))
      modifies state, env
      ensures Loaded() && old(state.steps) <= state.steps && env.clock > old(env.clock)
      ensures OnlyBatch(old(state.world), state.world, i)
      ensures Resubmitted(old(state.world.memory.value.batches[i]), state.world.memory.value.batches[i])
      ensures env.Answer(old(env.clock)).outcome != Done ==>
                var b := state.world.memory.value.batches[i];
                && e == env.Answer(old(env.clock)).outcome && b.state == Submitted && b.jobId.None?
                && state.world.staged == old(state.world).staged && state.world.queued == old(state.world).queued
      ensures env.Answer(old(env.clock)).outcome == Done ==>
                SubmissionEnds(old(env.clock) + 1, state.world.memory.value.batches[i], e)
      ensures e == Done ==> InState(state.world.memory, i, Running) && OnDisk(state.world, i)
      ensures InState(state.world.memory, i, Failed) && env.Answer(env.clock - 1).outcome == Done ==>
                e == RunError && state.world.disk == state.world.memory
    {
      hide RunState.Valid, Enabled, Apply, Environment.FirstFailure, PublishedBelow;
      e := StoreBegin(i);
      if e != Done {
        return;
      }
      ghost var k := env.clock;
      e := TrySubmit(i);
      if e == Interrupt || e == Done {
        return;
      }
      // A timed-out oarsub may still have queued a job: leave the batch as it is.
      if e != Timeout {
        e := StoreFail(i, "submission_failed");
        if e != Done {
          return;
        }
      }
      e := RunError;
    }

    // A new attempt, in a directory of its own that is not removed yet, with nothing left of
    // earlier ones.
    ghost predicate Resubmitted(before: Record, b: Record) {
      && b.index == before.index && b.stems == before.stems && b.inputBytes == before.inputBytes
      && b.hfCommit == before.hfCommit && b.attempt == before.attempt + 1
      && b.remoteRoot == Some((before.index, before.attempt + 1)) && !b.remoteCleaned
      && (b.state != Failed ==> b.error == None)
    }

    // How a batch is left by a submission whose first call is the k-th.
    predicate SubmissionEnds(k: nat, b: Record, e: Outcome) {
      var job := if env.Queues(k) then env.Answer(k + 4).text else None;
      match env.Submission(k)
      case Done => e == Done && b.state == Running && b.jobId == job && job.Some?
      case Interrupt => e == Interrupt && b.state == (if job.Some? then Running else Submitted) && b.jobId == job
      case Timeout => e == RunError && b.state == (if job.Some? then Running else Submitted) && b.jobId == job
      case _ => e != Done && b.state == Failed && b.jobId == job && b.error == Some("submission_failed")
    }

    method StoreBegin(i: nat) returns (e: Outcome)
      requires Loaded() && Enabled(state.world, Begin(i))
      modifies state, env
      ensures Loaded() && old(state.steps) <= state.steps
      ensures env.clock == old(env.clock) + 1 && e == env.Answer(old(env.clock)).outcome
      ensures OnlyBatch(old(state.world), state.world, i)
      ensures state.world.memory.value.batches[i] == Began(old(state.world.memory.value.batches[i]))
      ensures state.world.staged == old(state.world).staged && state.world.queued == old(state.world).queued
      ensures state.world.phase == Begun(i)
      ensures e == Done ==> OnDisk(state.world, i)
    {
      hide RunState.Valid;
      e := Store(Begin(i));
    }

    method StoreFail(i: nat, error: string) returns (e: Outcome)
      requires Loaded()
      requires InState(state.world.memory, i, Running)
            || (InState(state.world.memory, i, Submitted) && !state.world.phase.Idle? && state.world.phase.i == i)
      modifies state, env
      ensures Loaded() && old(state.steps) <= state.steps
      ensures env.clock == old(env.clock) + 1 && e == env.Answer(old(env.clock)).outcome
      ensures OnlyBatch(old(state.world), state.world, i)
      ensures state.world.memory.value.batches[i]
              == old(state.world.memory.value.batches[i]).(state := Failed, error := Some(error))
      ensures e == Done ==> state.world.disk == state.world.memory
    {
      hide RunState.Valid;
      e := Store(Fail(i, error));
    }

    // The guarded part of a submission, up to the policy check after oarsub.
    method TrySubmit(i: nat) returns (e: Outcome)
      requires Loaded() && state.world.phase == Begun(i) && OnDisk(state.world, i)
      requires InState(state.world.memory, i, Submitted) && state.world.memory.value.batches[i].jobId.None?
      modifies state, env
      ensures Loaded() && old(state.steps) <= state.steps && env.clock > old(env.clock)
      ensures OnlyBatch(old(state.world), state.world, i)
      ensures !state.world.phase.Idle? && state.world.phase.i == i
      ensures e == env.Submission(old(env.clock))
      ensures state.world.memory.value.batches[i]
              == (if env.Queues(old(env.clock)) then
                    old(state.world.memory.value.batches[i]).(jobId := env.Answer(old(env.clock) + 4).text,
                        state := Running)
                  else old(state.world.memory.value.batches[i]))
      ensures e == Done ==> OnDisk(state.world, i)
    {
      hide RunState.Valid, Environment.FirstFailure, Enabled, Apply;
      ghost var k := env.clock;
      OneMoreCall(env, k, 4);
      TwoCalls(env, k + 5);
      e := Prepare(i);
      if e != Done { return; }
      var r := Launch(i);
      if r.outcome != Done { return r.outcome; }
      if r.text.None? {
        return RunError;
      }
      e := StoreJob(i, r.text.value);
      if e != Done {
        return;
      }
      r := env.Call();
      e := r.outcome;
    }

    // oarsub: a job may be queued even if the call fails.
    method Launch(i: nat) returns (r: Reply)
      requires Loaded() && state.world.phase == StagedFor(i) && OnDisk(state.world, i)
      requires InState(state.world.memory, i, Submitted)
      modifies state, env
      ensures Loaded() && old(state.steps) <= state.steps
      ensures env.clock == old(env.clock) + 1 && r == env.Answer(old(env.clock))
      ensures state.world == old(state.world).(phase := Queued(i), queued := state.world.queued)
    {
      hide RunState.Valid;
      state.Perform(Oarsub(i, state.world.memory.value.batches[i].attempt));
      r := env.Call();
    }

    method StoreJob(i: nat, job: string) returns (e: Outcome)
      requires Loaded() && state.world.phase == Queued(i) && InState(state.world.memory, i, Submitted)
      modifies state, env
      ensures Loaded() && old(state.steps) <= state.steps && state.world.phase == old(state.world.phase)
      ensures env.clock == old(env.clock) + 1 && e == env.Answer(old(env.clock)).outcome
      ensures OnlyBatch(old(state.world), state.world, i)
      ensures state.world.memory.value.batches[i]
              == old(state.world.memory.value.batches[i]).(jobId := Some(job), state := Running)
      ensures e == Done ==> OnDisk(state.world, i)
    {
      hide RunState.Valid;
      e := Store(RecordJob(i, job));
    }

    // Everything before oarsub.
    method Prepare(i: nat) returns (e: Outcome)
      requires Loaded() && state.world.phase == Begun(i) && OnDisk(state.world, i)
      requires InState(state.world.memory, i, Submitted)
      modifies state, env
      ensures Loaded() && old(state.steps) <= state.steps && env.clock > old(env.clock)
      ensures e == env.FirstFailure(old(env.clock), 4) && (e == Done ==> env.clock == old(env.clock) + 4)
      ensures state.world == old(state.world).(phase := state.world.phase, staged := state.world.staged)
      ensures state.world.phase == Begun(i) || state.world.phase == StagedFor(i)
      ensures e == Done ==> state.world.phase == StagedFor(i)
    {
      hide RunState.Valid;
      // create the namespace, stage locally
      var r := env.Call();
      if r.outcome != Done { return r.outcome; }
      r := env.Call();
      if r.outcome != Done { return r.outcome; }
      // upload: the directory may be used even if the call fails
      state.Perform(Stage(i, state.world.memory.value.batches[i].attempt));
      TwoCalls(env, env.clock);
      r := env.Call();
      if r.outcome != Done { return r.outcome; }
      r := env.Call();
      e := r.outcome;
    }

    lemma {:induction false} OneMoreCall(env: Environment, k: nat, n: nat)
      ensures env.FirstFailure(k, n + 1)
              == if env.FirstFailure(k, n) != Done then env.FirstFailure(k, n) else env.Answer(k + n).outcome
      decreases n
    {
      if n > 0 {
        OneMoreCall(env, k + 1, n - 1);
      }
    }

    // Without a job identifier it stops and asks nothing. It changes the batch only once a
    // poll has found the job at its end, and accepts it only over a receipt of that job.
    method ReconcileBatch(i: nat) returns (e: Outcome)
      requires Loaded() && Has(state.world.memory, i) && IsActive(state.world.memory.value.batches[i].state)
      modifies state, env
      ensures Loaded() && old(state.steps) <= state.steps
      ensures OnlyBatch(old(state.world), state.world, i)
      ensures old(state.world.memory.value.batches[i]).jobId.None? ==>
                e == RunError && state.world == old(state.world) && env.clock == old(env.clock)
      ensures state.world != old(state.world) ==> env.JobEnd(old(env.clock)).Some?
      ensures e == Done ==> InState(state.world.memory, i, ReadyToPublish)
      ensures InState(state.world.memory, i, ReadyToPublish) <==>
                var b, end := old(state.world.memory.value.batches[i]), env.JobEnd(old(env.clock));
                && b.jobId.Some? && end.Some? && env.FirstFailure(end.value + 1, 2) == Done
                && Proven(b, env.Answer(end.value).status, env.Answer(end.value).exitCode,
                          env.Answer(end.value + 1).receipt)
      ensures InState(state.world.memory, i, ReadyToPublish) ==>
                var end := env.JobEnd(old(env.clock)).value;
                i in state.world.accepted
                && RestsOn(state.world.accepted[i], env.Answer(end).status, env.Answer(end).exitCode,
                           env.Answer(end + 1).receipt.value)
    {
      hide RunState.Valid, Proven, FailsFor, RestsOn, OnlyBatch, Environment.FirstFailure;
      OnlyBatchItself(state.world, i);
      ghost var before := state.world;
      ActiveIs(i);
      if state.world.memory.value.batches[i].jobId.None? {
        return RunError;
      }
      while true
        invariant Loaded() && state.world == before && old(state.steps) <= state.steps && old(env.clock) <= env.clock
        invariant env.JobEnd(old(env.clock)) == env.JobEnd(env.clock)
        decreases env.horizon - env.clock
      {
        ghost var k := env.clock;
        var r := env.Call();
        if r.outcome == Interrupt || r.outcome == RunError {
          return r.outcome;
        }
        var status := if r.outcome == Done then r.status else Unknown;
        if status == Terminated || status == JobError {
          assert env.JobEnd(k) == Some(k);
          e := RetrieveBatch(i, status, r.exitCode);
          OnlyBatchHas(before, state.world, i);
          return;
        }
        r := env.Call();
        if r.outcome != Done {
          return r.outcome;
        }
      }
    }

    lemma ActiveIs(i: nat)
      requires Valid() && Has(state.world.memory, i) && IsActive(state.world.memory.value.batches[i].state)
      ensures InState(state.world.memory, i, Running) <==> state.world.memory.value.batches[i].jobId.Some?
    {
      state.IsSafe();
    }

    predicate ReceiptMatches(b: Record, receipt: Receipt) {
      && Some(receipt.jobId) == b.jobId && receipt.sourceCommit == sourceCommit
      && receipt.model == model && receipt.stems == b.stems
    }

    // A receipt of this very job, at this source commit, that reports success.
    predicate Succeeded(b: Record, status: JobStatus, exitCode: Option<int>, receipt: Option<Receipt>) {
      receipt.Some? && ReceiptMatches(b, receipt.value) && RemoteBatchSucceeded(status, exitCode, receipt.value)
    }

    // The same, field by field.
    ghost predicate Proven(b: Record, status: JobStatus, exitCode: Option<int>, receipt: Option<Receipt>) {
      && status == Terminated && (exitCode == None || exitCode == Some(0)) && receipt != None
      && receipt.value.succeeded && Some(receipt.value.jobId) == b.jobId && receipt.value.stems == b.stems
      && receipt.value.model == model && receipt.value.sourceCommit == sourceCommit
    }

    // What is recorded of an accepted result is what was found.
    ghost predicate RestsOn(e: Evidence, status: JobStatus, exitCode: Option<int>, receipt: Receipt) {
      && e.jobId == receipt.jobId && e.commit == receipt.sourceCommit && e.stems == receipt.stems
      && e.succeeded == receipt.succeeded && e.terminated == (status == Terminated) && e.exitCode == exitCode
    }

    ghost predicate FailsFor(b: Record, receipt: Option<Receipt>, error: string) {
      if receipt == None then error == "missing_receipt"
      else if Some(receipt.value.jobId) != b.jobId || receipt.value.stems != b.stems
              || receipt.value.model != model || receipt.value.sourceCommit != sourceCommit then
        error == "invalid_receipt"
      else error == (if receipt.value.errorType == "" then "remote_job_failed" else receipt.value.errorType)
    }

    ghost predicate HasFailed(b: Record, b': Record, receipt: Option<Receipt>) {
      && b'.error.Some? && FailsFor(b, receipt, b'.error.value)
      && b'.(remoteCleaned := b.remoteCleaned) == b.(state := Failed, error := b'.error)
    }

    function Reason(b: Record, receipt: Option<Receipt>): string {
      if receipt.None? then "missing_receipt"
      else if !ReceiptMatches(b, receipt.value) then "invalid_receipt"
      else if receipt.value.errorType != "" then receipt.value.errorType
      else "remote_job_failed"
    }

    // The calls are the download, which brings the receipt, the import of what may be kept,
    // and, unless one of them fails, the ledger write; after a failed job also the removal of
    // its directory and the write that records it.
    method RetrieveBatch(i: nat, status: JobStatus, exitCode: Option<int>) returns (e: Outcome)
      requires Loaded() && InState(state.world.memory, i, Running)
      modifies state, env
      ensures Loaded() && old(state.steps) <= state.steps && env.clock > old(env.clock)
      ensures OnlyBatch(old(state.world), state.world, i)
      ensures var k, b := old(env.clock), old(state.world.memory.value.batches[i]);
              if env.FirstFailure(k, 2) != Done then e == env.FirstFailure(k, 2) && state.world == old(state.world)
              else if Proven(b, status, exitCode, env.Answer(k).receipt) then
                && state.world.memory.value.batches[i] == b.(state := ReadyToPublish)
                && i in state.world.accepted
                && RestsOn(state.world.accepted[i], status, exitCode, env.Answer(k).receipt.value)
                && e == env.Answer(k + 2).outcome && (e == Done ==> state.world.disk == state.world.memory)
              else
                && e != Done && HasFailed(b, state.world.memory.value.batches[i], env.Answer(k).receipt)
                && (env.FirstFailure(k, 5) == Done ==>
                      && e == RunError && state.world.memory.value.batches[i].remoteCleaned
                      && state.world.disk == state.world.memory)
    {
      hide RunState.Valid, Succeeded, Proven, FailsFor, Attests, RestsOn, EvidenceOf, OnlyBatch;
      OnlyBatchItself(state.world, i);
      ghost var k := env.clock;
      FiveCalls(env, k);
      state.IsSafe();
      var r := env.Call();
      if r.outcome != Done { return r.outcome; }
      var b := state.world.memory.value.batches[i];
      ItAttests(b, status, exitCode, r.receipt);
      if Succeeded(b, status, exitCode, r.receipt) {
        // verify and copy the artifacts
        var imported := env.Call();
        if imported.outcome != Done { return imported.outcome; }
        e := StoreAccept(i, EvidenceOf(status, exitCode, r.receipt.value));
        return;
      }
      e := MarkBatchFailed(i, r.receipt);
      if e != Done { return; }
      label Marked:
      e := CleanupRemoteJob(i);
      OnlyBatchAgain(old(state.world), old@Marked(state.world), state.world, i);
      if e != Done { return; }
      e := RunError;
    }

    // Keeps the checkpoints of an unsuccessful job and records why it is taken to have failed.
    method MarkBatchFailed(i: nat, receipt: Option<Receipt>) returns (e: Outcome)
      requires Loaded() && InState(state.world.memory, i, Running)
      modifies state, env
      ensures Loaded() && old(state.steps) <= state.steps && env.clock > old(env.clock)
      ensures OnlyBatch(old(state.world), state.world, i)
      ensures var k, b := old(env.clock), old(state.world.memory.value.batches[i]);
              if env.Answer(k).outcome != Done then e == env.Answer(k).outcome && state.world == old(state.world)
              else
                && e == env.Answer(k + 1).outcome && env.clock == k + 2
                && state.world.memory.value.batches[i]
                   == b.(state := Failed, error := state.world.memory.value.batches[i].error)
                && HasFailed(b, state.world.memory.value.batches[i], receipt) && InState(state.world.memory, i, Failed)
                && (e == Done ==> state.world.disk == state.world.memory)
    {
      hide RunState.Valid;
      var partial := env.Call();
      if partial.outcome != Done { return partial.outcome; }
      var b := state.world.memory.value.batches[i];
      ReasonIs(b, receipt);
      e := StoreFail(i, Reason(b, receipt));
    }

    lemma ItAttests(b: Record, status: JobStatus, exitCode: Option<int>, receipt: Option<Receipt>)
      ensures Succeeded(b, status, exitCode, receipt) <==> Proven(b, status, exitCode, receipt)
      ensures Succeeded(b, status, exitCode, receipt) ==>
                && receipt.Some? && Attests(EvidenceOf(status, exitCode, receipt.value), b, sourceCommit)
                && RestsOn(EvidenceOf(status, exitCode, receipt.value), status, exitCode, receipt.value)
    {}

    lemma ReasonIs(b: Record, receipt: Option<Receipt>)
      ensures FailsFor(b, receipt, Reason(b, receipt))
    {}

    function EvidenceOf(status: JobStatus, exitCode: Option<int>, receipt: Receipt): Evidence {
      Evidence(receipt.sourceCommit, receipt.jobId, receipt.stems, receipt.succeeded, status == Terminated, exitCode)
    }

    method StoreAccept(i: nat, evidence: Evidence) returns (e: Outcome)
      requires Loaded() && InState(state.world.memory, i, Running)
      requires Attests(evidence, state.world.memory.value.batches[i], sourceCommit)
      modifies state, env
      ensures Loaded() && old(state.steps) <= state.steps
      ensures env.clock == old(env.clock) + 1 && e == env.Answer(old(env.clock)).outcome
      ensures OnlyBatch(old(state.world), state.world, i)
      ensures state.world.memory.value.batches[i] == old(state.world.memory.value.batches[i]).(state := ReadyToPublish)
      ensures i in state.world.accepted && state.world.accepted[i] == evidence
      ensures e == Done ==> state.world.disk == state.world.memory
    {
      hide RunState.Valid;
      e := Store(Accept(i, evidence));
    }

    // Removes the job's directory once; an unset directory is refused.
    method CleanupRemoteJob(i: nat) returns (e: Outcome)
      requires Loaded() && OnDisk(state.world, i)
      requires InState(state.world.memory, i, Failed) || InState(state.world.memory, i, Published)
      modifies state, env
      ensures Loaded() && old(state.steps) <= state.steps && env.clock >= old(env.clock)
      ensures OnlyBatch(old(state.world), state.world, i)
      ensures state.world.memory.value.batches[i]
              == old(state.world.memory.value.batches[i]).(remoteCleaned :=
                  state.world.memory.value.batches[i].remoteCleaned)
      ensures e == Done ==> state.world.memory.value.batches[i].remoteCleaned
      ensures e == Done ==> state.world == old(state.world) || state.world.disk == state.world.memory
      ensures var k, b := old(env.clock), old(state.world.memory.value.batches[i]);
              if b.remoteRoot.None? then e == RunError && state.world == old(state.world)
              else if b.remoteCleaned then e == Done && state.world == old(state.world)
              else
                && e == env.FirstFailure(k, 2) && RemoveJobRoot(i) in state.steps[|old(state.steps)|..]
                && (env.Answer(k).outcome != Done ==> state.world == old(state.world))
    {
      hide RunState.Valid;
      ghost var k, steps := env.clock, state.steps;
      var b := state.world.memory.value.batches[i];
      if b.remoteRoot.None? {
        return RunError;
      }
      if b.remoteCleaned {
        return Done;
      }
      state.Perform(RemoveJobRoot(i));
      assert state.steps[|steps|] == RemoveJobRoot(i);
      var r := env.Call();
      if r.outcome != Done { return r.outcome; }
      assert env.FirstFailure(k, 2) == env.FirstFailure(k + 1, 1) == env.Answer(k + 1).outcome;
      e := Store(MarkCleaned(i));
      assert state.steps[|steps|] == RemoveJobRoot(i);
    }

    // The files on the Hub that the run must not change are as they were at its start.
    predicate BaselineHolds(l: Ledger, r: Reply) {
      r.outcome == Done && r.readmeHash == l.readmeHash && r.mapHash == l.mapHash
    }

    // The batch is published exactly when the baseline holds and both the publication and
    // its verification succeed; otherwise it stays ready, with the reason.
    method PublishBatch(i: nat) returns (e: Outcome)
      requires Loaded() && InState(state.world.memory, i, ReadyToPublish)
      modifies state, env
      ensures Loaded() && old(state.steps) <= state.steps
      ensures OnlyBatch(old(state.world), state.world, i)
      ensures e == Done ==> InState(state.world.memory, i, Published) && state.world.disk == state.world.memory
      ensures var k, l, b := old(env.clock), old(state.world.memory.value), state.world.memory.value.batches[i];
              var same := env.Answer(k).outcome == Done
                               && env.Answer(k).readmeHash == l.readmeHash && env.Answer(k).mapHash == l.mapHash;
              if same && env.FirstFailure(k + 1, 2) == Done then
                && b.state == Published && b.error.None?
                && b.hfCommit == Some(if env.Answer(k + 1).text.Some? then env.Answer(k + 1).text.value else "")
              else
                && e != Done && b.(error := l.batches[i].error) == l.batches[i]
                && b.error == (if env.Answer(k).outcome == Interrupt then l.batches[i].error
                               else if !same then Some("baseline_changed")
                               else if env.FirstFailure(k + 1, 2) == Interrupt then l.batches[i].error
                               else Some("publisher_failure"))
    {
      hide RunState.Valid;
      ghost var k := env.clock;
      var r := env.Call();
      if r.outcome == Interrupt { return Interrupt; }
      if !BaselineHolds(state.world.memory.value, r) {
        e := StoreError(i, "baseline_changed");
        if e == Done { e := RunError; }
        return;
      }
      var published := env.Call();
      var verified := published;
      if published.outcome == Done {
        verified := env.Call();
      }
      TwoCalls(env, k + 1);
      if verified.outcome == Interrupt { return Interrupt; }
      if verified.outcome != Done {
        e := StoreError(i, "publisher_failure");
        if e == Done { e := verified.outcome; }
        return;
      }
      e := StorePublished(i, if published.text.Some? then published.text.value else "");
      if e != Done { return; }
      e := CleanupRemoteJob(i);
    }

    method StoreError(i: nat, error: string) returns (e: Outcome)
      requires Loaded() && InState(state.world.memory, i, ReadyToPublish)
      modifies state, env
      ensures Loaded() && old(state.steps) <= state.steps
      ensures env.clock == old(env.clock) + 1 && e == env.Answer(old(env.clock)).outcome
      ensures OnlyBatch(old(state.world), state.world, i)
      ensures state.world.memory.value.batches[i]
              == old(state.world.memory.value.batches[i]).(error := Some(error))
    {
      hide RunState.Valid;
      e := Store(NoteError(i, error));
    }

    method StorePublished(i: nat, commit: string) returns (e: Outcome)
      requires Loaded() && InState(state.world.memory, i, ReadyToPublish)
      modifies state, env
      ensures Loaded() && old(state.steps) <= state.steps
      ensures env.clock == old(env.clock) + 1 && e == env.Answer(old(env.clock)).outcome
      ensures OnlyBatch(old(state.world), state.world, i)
      ensures state.world.memory.value.batches[i]
              == old(state.world.memory.value.batches[i]).(state := Published, hfCommit := Some(commit), error := None)
      ensures e == Done ==> state.world.disk == state.world.memory
    {
      hide RunState.Valid;
      e := Store(Publish(i, commit));
    }

    lemma FiveCalls(env: Environment, k: nat)
      ensures env.FirstFailure(k, 2) ==
                if env.Answer(k).outcome != Done then env.Answer(k).outcome else env.Answer(k + 1).outcome
      ensures env.FirstFailure(k, 5) == Done ==>
                env.FirstFailure(k, 3) == Done && env.Answer(k + 2).outcome == Done
                && env.FirstFailure(k + 3, 2) == Done
    {
      TwoCalls(env, k);
      OneMoreCall(env, k, 2);
      assert env.FirstFailure(k, 5) == Done ==>
          env.FirstFailure(k + 1, 4) == Done && env.FirstFailure(k + 2, 3) == Done;
    }

    lemma TwoCalls(env: Environment, k: nat)
      ensures env.FirstFailure(k, 2) ==
                if env.Answer(k).outcome != Done then env.Answer(k).outcome else env.Answer(k + 1).outcome
    {
      assert env.FirstFailure(k + 1, 1) == env.Answer(k + 1).outcome;
    }

    /******* The whole run *******/

    // No batch has a result, or a job whose result may still come.
    ghost predicate NothingToLose(l: Ledger) {
      |l.batches| > 0
      && forall i | 0 <= i < |l.batches| ::
           var b := l.batches[i];
           && b.hfCommit == None && (b.state == Planned || b.state == Failed)
           && (b.jobId != None ==>
                 b.state == Failed && (b.error == Some("missing_receipt") || b.error == Some("invalid_receipt")))
    }

    lemma MigrationIsSafe(l: Ledger)
      ensures MigrationSafe(l) <==> NothingToLose(l)
    {
      if MigrationSafe(l) {
        forall i | 0 <= i < |l.batches| ensures CommitBatchIsSafe(l.batches[i]) {
          assert l.batches[i] in l.batches;
        }
      }
    }

    method Initialize(runId: string, plan: seq<(seq<string>, nat)>) returns (e: Outcome)
      requires Valid() && state.world.memory.None? && currentBatch.None?
      modifies state, env
      ensures Valid() && old(state.steps) <= state.steps
      ensures e == Done ==> Loaded() && state.world.disk == state.world.memory
      // a ledger made for other immutable fields is refused; its source commit is moved only
      // when no batch has a result or a live job, and the move is recorded
      ensures old(state.world.disk).Some? ==>
                var l := old(state.world.disk).value;
                e == Done <==>
                  && l.config == config && (requestedRunId == None || requestedRunId == Some(l.runId))
                  && (|| l.sourceCommit == sourceCommit
                      || (NothingToLose(l) && env.Answer(old(env.clock)).outcome == Done))
      ensures e == Done && old(state.world.disk).Some? ==>
                var l := old(state.world.disk).value;
                state.world.memory.value
                == (if l.sourceCommit == sourceCommit then l
                    else l.(sourceCommit := sourceCommit,
                            commitUpdates := l.commitUpdates + [(l.sourceCommit, sourceCommit)]))
    {
      if state.world.disk.None? {
        e := CreateLedger(runId, plan);
        return;
      }
      state.Perform(Load);
      var l := state.world.memory.value;
      MigrationIsSafe(l);
      if requestedRunId.Some? && requestedRunId.value != l.runId {
        return RunError;
      }
      if l.sourceCommit != sourceCommit && MigrationSafe(l) {
        state.Perform(Migrate(sourceCommit));
        e := WriteLedger();
        if e != Done { return; }
      }
      if state.world.memory.value.sourceCommit != sourceCommit || l.config != config {
        return RunError;
      }
      e := Done;
    }

    method CreateLedger(runId: string, plan: seq<(seq<string>, nat)>) returns (e: Outcome)
      requires Valid() && state.world.memory.None? && state.world.disk.None? && currentBatch.None?
      modifies state, env
      ensures Valid() && old(state.steps) <= state.steps
      ensures e == Done ==> Loaded() && state.world.disk == state.world.memory
      ensures e == Done ==> |state.world.memory.value.batches| == |plan|
      ensures e == Done ==> forall i | 0 <= i < |plan| ::
                var b := state.world.memory.value.batches[i];
                && b.index == i && b.stems == plan[i].0 && b.inputBytes == plan[i].1 && b.state == Planned
                && b.attempt == 0 && !b.remoteCleaned
                && b.jobId == None && b.remoteRoot == None && b.hfCommit == None && b.error == None
      ensures e == Done ==>
                var l := state.world.memory.value;
                && l.config == config && l.sourceCommit == sourceCommit && l.commitUpdates == []
                && l.runId == (if requestedRunId == None then runId else requestedRunId.value)
                && l.readmeHash == env.Answer(old(env.clock)).readmeHash
                && l.mapHash == env.Answer(old(env.clock)).mapHash && !l.cleanupComplete
    {
      var r := env.Call();
      if r.outcome != Done { return r.outcome; }
      var batches := seq(|plan|, i requires 0 <= i < |plan| =>
        Record(i, plan[i].0, plan[i].1, Planned, 0, None, None, false, None, None));
      var l := Ledger(if requestedRunId.Some? then requestedRunId.value else runId, config, sourceCommit, [],
                      r.readmeHash, r.mapHash, false, batches);
      state.Perform(Create(l));
      e := WriteLedger();
    }

    method Run(runId: string, plan: seq<(seq<string>, nat)>) returns (e: Outcome)
      requires Valid() && state.world.memory.None? && currentBatch.None?
      modifies this, state, env
      ensures Valid() && old(state.steps) <= state.steps
      ensures e == Done ==>
                && state.world.memory.Some? && AllPublished(state.world.memory.value)
                && state.world.memory.value.cleanupComplete
                && state.world.disk == state.world.memory
    {
      e := Initialize(runId, plan);
      if e != Done {
        return;
      }
      e := RunBatches();
      if e == Interrupt {
        var _ := HandleInterrupt();
      }
    }

    // One batch after another: when it stops early, everything before some batch is
    // published and everything after it is as it was.
    method RunBatches() returns (e: Outcome)
      requires Loaded() && state.world.disk == state.world.memory
      modifies this, state, env
      ensures Loaded() && old(state.steps) <= state.steps
      ensures exists i: nat :: StoppedAt(old(state.world).memory.value, state.world.memory.value, i)
      ensures e == Done ==>
                && AllPublished(state.world.memory.value) && state.world.memory.value.cleanupComplete
                && state.world.disk == state.world.memory
    {
      var n := |state.world.memory.value.batches|;
      for i := 0 to n
        invariant Loaded() && old(state.steps) <= state.steps
        invariant |state.world.memory.value.batches| == n && state.world.disk == state.world.memory
        invariant PublishedBelow(state.world.memory.value, i)
        invariant state.world.memory.value.batches[i..] == old(state.world).memory.value.batches[i..]
      {
        currentBatch := Some(i);
        e := ProcessBatch(i);
        assert StoppedAt(old(state.world).memory.value, state.world.memory.value, i);
        if e != Done {
          return;
        }
      }
      e := FinalizeRun();
      assert StoppedAt(old(state.world).memory.value, state.world.memory.value, n);
    }

    // The run's directory is removed only while the stored ledger says that cleaning up is
    // not complete, and complete is recorded only after it was removed.
    method FinalizeRun() returns (e: Outcome)
      requires Loaded() && AllPublished(state.world.memory.value) && state.world.disk == state.world.memory
      modifies state, env
      ensures Loaded() && old(state.steps) <= state.steps
      ensures AllPublished(state.world.memory.value)
      ensures state.world.memory.value.batches == old(state.world.memory.value.batches)
      ensures e == Done ==> state.world.memory.value.cleanupComplete && state.world.disk == state.world.memory
      ensures forall p | |old(state.steps)| <= p < |state.steps| && state.steps[p] == RemoveRunRoot ::
                RemovesSafely(state.worlds, p)
      ensures state.world.memory.value.cleanupComplete ||
                (state.world.disk.Some? && state.world.disk.value.cleanupComplete) ==>
                || old(state.world.memory.value.cleanupComplete)
                || exists p :: |old(state.steps)| <= p < |state.steps| && state.steps[p] == RemoveRunRoot
                               && env.Answer(old(env.clock) + 2).outcome == Done
    {
      hide RunState.Valid;
      if state.world.memory.value.cleanupComplete {
        e := Done;
        return;
      }
      hide Enabled, Apply, PublishedBelow;
      var r := env.Call();
      if r.outcome != Done { return r.outcome; }
      e := StoreCleanup(false);
      if e != Done { return; }
      ghost var p := |state.steps|;
      RemoveRoot();
      assert state.steps[p] == RemoveRunRoot && RemovesSafely(state.worlds, p);
      r := env.Call();
      if r.outcome != Done { return r.outcome; }
      e := StoreCleanup(true);
      assert state.steps[p] == RemoveRunRoot && RemovesSafely(state.worlds, p);
    }

    method StoreCleanup(complete: bool) returns (e: Outcome)
      requires Loaded()
      modifies state, env
      ensures Loaded() && env.clock == old(env.clock) + 1 && e == env.Answer(old(env.clock)).outcome
      ensures old(state.steps) <= state.steps && old(state.worlds) <= state.worlds
      ensures forall p | |old(state.steps)| <= p < |state.steps| :: state.steps[p] != RemoveRunRoot
      ensures state.world.memory.value == old(state.world.memory.value).(cleanupComplete := complete)
      ensures state.world.disk == old(state.world.disk) || state.world.disk == state.world.memory
      ensures e == Done ==> state.world.disk == state.world.memory
    {
      hide RunState.Valid;
      state.Perform(SetCleanup(complete));
      e := WriteLedger();
    }

    method RemoveRoot()
      requires Loaded() && state.world.disk == state.world.memory
      requires AllPublished(state.world.memory.value) && !state.world.memory.value.cleanupComplete
      modifies state
      ensures Loaded() && state.world == old(state.world)
      ensures state.steps == old(state.steps) + [RemoveRunRoot] && old(state.worlds) <= state.worlds
      ensures RemovesSafely(state.worlds, |old(state.steps)|)
    {
      state.EndsHere();
      hide RunState.Valid;
      state.Perform(RemoveRunRoot);
    }

    // Cancels a batch that may have a live job, so that no later run submits it again.
    method HandleInterrupt() returns (e: Outcome)
      requires Loaded()
      modifies state, env
      ensures Valid() && old(state.steps) <= state.steps
      ensures e == Done ==> state.world.disk == state.world.memory
      ensures e == Done && old(currentBatch).Some?
              && IsActive(old(state.world.memory.value.batches[currentBatch.value].state)) ==>
                && InState(state.world.disk, old(currentBatch).value, Cancelled)
                && state.world.disk.value.batches[old(currentBatch).value]
                   == old(state.world.memory.value.batches[currentBatch.value]).(state := Cancelled,
                       error := Some("cancelled_by_interrupt"))
    {
      if currentBatch.None? || !IsActive(state.world.memory.value.batches[currentBatch.value].state) {
        e := WriteLedger();
        return;
      }
      var i := currentBatch.value;
      if state.world.memory.value.batches[i].jobId.Some? {
        var r := env.Call();
        if r.outcome == Interrupt { return Interrupt; }
      }
      e := Store(Cancel(i));
    }
  }
}
