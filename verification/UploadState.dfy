/**
 The store behind the background upload queue.  Every method runs against a
 directory whose file operations may fail at any point, and every file operation
 it performs is an enabled step of `UploadProtocol`, so the protocol's theorems
 hold for every run of the store, including runs cut off anywhere.
 */
module UploadState {
  import opened Wrappers
  import opened UploadProtocol

  datatype SnapshotDir = SequenceDir(sequence: nat) | OutsideDir(text: string)

  datatype StoredUpload = StoredUpload(
    ops: seq<PublicationOp>,
    message: string,
    statePath: FileName,
    snapshotDir: Option<SnapshotDir>,
    shas: seq<Option<Digest>>)

  datatype Error =
    | IoError
    | MissingFile(path: LocalPath)
    | MissingField
    | InvalidOperation
    | SnapshotMissing
    | SnapshotOutside
    | MalformedEnvelope(name: FileName)
    | UnknownVersion(name: FileName)
    | InvalidSequence(name: FileName)
    | DuplicateSequence(sequence: int)
    | MissingMessage(name: FileName)

  datatype Resumed = Resumed(uploads: seq<StoredUpload>, failures: seq<(FileName, Error)>, discovered: nat)

  type Source = map<LocalPath, Bytes>

  /******* Envelope entries, written and read back *******/

  function SnapshotLocation(n: nat, i: nat, path: LocalPath): Location {
    InSequence(n, OperationFile(i, path.name))
  }

  function WrittenEntry(op: PublicationOp, i: nat, n: nat, source: Source): Entry {
    match op
    case DeleteOp(path) => Entry(Some("delete"), Some(path), None, None, None)
    case AddOp(path, local, _) =>
      Entry(Some("add"), Some(path), Some(local), Some(SnapshotLocation(n, i, local)),
            Some(Sha256(if local in source then source[local] else [])))
  }

  function WrittenOp(op: PublicationOp, i: nat, n: nat): PublicationOp {
    match op
    case DeleteOp(path) => op
    case AddOp(path, local, _) => AddOp(path, local, Some(SnapshotLocation(n, i, local)))
  }

  function WrittenEntries(ops: seq<PublicationOp>, n: nat, source: Source): seq<Entry> {
    seq(|ops|, i requires 0 <= i < |ops| => WrittenEntry(ops[i], i, n, source))
  }

  function WrittenOps(ops: seq<PublicationOp>, n: nat): seq<PublicationOp> {
    seq(|ops|, i requires 0 <= i < |ops| => WrittenOp(ops[i], i, n))
  }

  function Shas(entries: seq<Entry>): seq<Option<Digest>> {
    seq(|entries|, i requires 0 <= i < |entries| => entries[i].sha)
  }

  function Envelope(n: nat, message: string, entries: seq<Entry>): Document {
    Json(Some(BackgroundUploadV1), Some(n), Some(message), Some(entries))
  }

  function RestoreEntry(e: Entry, n: nat): Result<PublicationOp, Error> {
    if e.action.None? || e.pathInRepo.None? then Failure(MissingField)
    else if e.action.value == "add" && e.snapshotPath.None? then Failure(SnapshotMissing)
    else if e.action.value == "add" && !(e.snapshotPath.value.InSequence? && e.snapshotPath.value.sequence == n) then
      Failure(SnapshotOutside)
    else if e.action.value == "add" then
      if e.localPath.None? then Failure(InvalidOperation)
      else Success(AddOp(e.pathInRepo.value, e.localPath.value, e.snapshotPath))
    else if e.action.value == "delete" && e.localPath.None? && e.snapshotPath.None? then
      Success(DeleteOp(e.pathInRepo.value))
    else Failure(InvalidOperation)
  }

  function RestoreEntries(entries: seq<Entry>, n: nat): Result<seq<PublicationOp>, Error>
    decreases |entries|
  {
    if entries == [] then Success([])
    else
      var front :- RestoreEntries(entries[..|entries| - 1], n);
      var op :- RestoreEntry(entries[|entries| - 1], n);
      Success(front + [op])
  }

  function Restore(name: FileName, doc: Document, n: nat): Result<StoredUpload, Error>
    requires doc.Json?
  {
    var ops :- RestoreEntries(Entries(doc), n);
    if doc.message.None? then Failure(MissingMessage(name))
    else Success(StoredUpload(ops, doc.message.value, name, Some(SequenceDir(n)), Shas(Entries(doc))))
  }

  /******* What an upload read back must look like *******/

  // An entry that can be read back as operation of upload n.
  ghost predicate ReadableEntry(e: Entry, n: nat) {
    && e.pathInRepo != None
    && if e.action == Some("add") then
         && e.localPath != None && e.snapshotPath != None
         && e.snapshotPath.value.InSequence? && e.snapshotPath.value.sequence == n
       else e.action == Some("delete") && e.localPath == None && e.snapshotPath == None
  }

  ghost predicate ReadsEntry(op: PublicationOp, e: Entry) {
    && e.pathInRepo == Some(op.pathInRepo)
    && match op
       case AddOp(_, local, snapshot) =>
         e.action == Some("add") && e.localPath == Some(local) && e.snapshotPath == snapshot
       case DeleteOp(_) => e.action == Some("delete")
  }

  // An upload with the operations of a job in their order, and the hash recorded for each.
  ghost predicate Reads(u: StoredUpload, j: Job) {
    && j.doc.Json? && u.statePath == j.name && Some(u.message) == j.doc.message
    && u.snapshotDir == Some(SequenceDir(j.sequence))
    && |u.ops| == |u.shas| == |Entries(j.doc)|
    && forall i | 0 <= i < |u.ops| ::
         && ReadsEntry(u.ops[i], Entries(j.doc)[i]) && u.shas[i] == Entries(j.doc)[i].sha
         && ReadableEntry(Entries(j.doc)[i], j.sequence)
  }

  ghost predicate Readable(j: Job) {
    j.doc.Json? && j.doc.message != None && forall e | e in Entries(j.doc) :: ReadableEntry(e, j.sequence)
  }

  // A hash in the place of each added file, and it is that of its snapshot.
  ghost predicate AddsHashed(d: Disk, u: StoredUpload) {
    && |u.shas| == |u.ops|
    && forall i | 0 <= i < |u.ops| && u.ops[i].AddOp? ::
         && u.ops[i].snapshot != None && u.ops[i].snapshot.value in d.snapshots
         && u.shas[i] == Some(Sha256(d.snapshots[u.ops[i].snapshot.value]))
  }

  // And none in the places of the others.
  ghost predicate Hashed(d: Disk, u: StoredUpload) {
    AddsHashed(d, u) && forall i | 0 <= i < |u.ops| && !u.ops[i].AddOp? :: u.shas[i] == None
  }

  lemma {:induction false} EntriesRead(entries: seq<Entry>, n: nat)
    ensures var r := RestoreEntries(entries, n);
            && (r.Success? <==> forall e | e in entries :: ReadableEntry(e, n))
            && (r.Success? ==>
                  && |r.value| == |entries|
                  && forall i | 0 <= i < |entries| ::
                       ReadsEntry(r.value[i], entries[i]) && ReadableEntry(entries[i], n))
    decreases |entries|
  {
    if entries != [] {
      var front, last := entries[..|entries| - 1], entries[|entries| - 1];
      EntriesRead(front, n);
      assert entries == front + [last];
      EntryReads(last, n);
      hide ReadableEntry, ReadsEntry, RestoreEntry;
      assert forall e :: e in entries <==> e in front || e == last;
    }
  }

  lemma EntryReads(e: Entry, n: nat)
    ensures RestoreEntry(e, n).Success? <==> ReadableEntry(e, n)
    ensures RestoreEntry(e, n).Success? ==> ReadsEntry(RestoreEntry(e, n).value, e)
  {}

  lemma JobReads(j: Job)
    requires j.doc.Json?
    ensures RestoreJob(j).Success? <==> Readable(j)
    ensures RestoreJob(j).Success? ==> Reads(RestoreJob(j).value, j)
  {
    EntriesRead(Entries(j.doc), j.sequence);
  }

  lemma KeptIsHashed(d: Disk, j: Job, u: StoredUpload)
    requires IsJob(d, j) && Reads(u, j) && Backed(d, j.doc, j.sequence)
    ensures AddsHashed(d, u)
  {
    forall i | 0 <= i < |u.ops| && u.ops[i].AddOp?
      ensures u.ops[i].snapshot != None && u.ops[i].snapshot.value in d.snapshots
      ensures u.shas[i] == Some(Sha256(d.snapshots[u.ops[i].snapshot.value]))
    {
      assert EntryBacked(d, Entries(j.doc)[i], j.sequence);
    }
  }

  lemma WrittenIsHashed(d: Disk, ops: seq<PublicationOp>, n: nat, message: string, source: Source,
                        dir: Option<SnapshotDir>)
    requires Backed(d, Envelope(n, message, WrittenEntries(ops, n, source)), n)
    ensures Hashed(d, StoredUpload(WrittenOps(ops, n), message, Padded(n), dir, Shas(WrittenEntries(ops, n, source))))
  {
    var doc := Envelope(n, message, WrittenEntries(ops, n, source));
    forall i | 0 <= i < |ops| && ops[i].AddOp?
      ensures EntryBacked(d, WrittenEntries(ops, n, source)[i], n)
    {
      assert EntryBacked(d, Entries(doc)[i], n);
    }
  }

  lemma WrittenInPlace(ops: seq<PublicationOp>, n: nat, source: Source)
    requires forall op | op in ops && op.AddOp? :: op.localPath in source
    ensures |WrittenOps(ops, n)| == |WrittenEntries(ops, n, source)| == |Shas(WrittenEntries(ops, n, source))| == |ops|
    ensures forall i | 0 <= i < |ops| ::
              && WrittenOps(ops, n)[i].pathInRepo == ops[i].pathInRepo && WrittenOps(ops, n)[i].AddOp? == ops[i].AddOp?
              && (ops[i].AddOp? ==>
                    && WrittenOps(ops, n)[i].localPath == ops[i].localPath
                    && Shas(WrittenEntries(ops, n, source))[i] == Some(Sha256(source[ops[i].localPath])))
  {
    assert forall i | 0 <= i < |ops| :: ops[i] in ops;
  }

  lemma {:induction false} WrittenEntriesRestore(ops: seq<PublicationOp>, n: nat, source: Source)
    ensures RestoreEntries(WrittenEntries(ops, n, source), n) == Success(WrittenOps(ops, n))
    decreases |ops|
  {
    if ops == [] {
      assert WrittenOps(ops, n) == [];
    } else {
      var k := |ops| - 1;
      WrittenEntriesRestore(ops[..k], n, source);
      assert WrittenEntries(ops, n, source)[..k] == WrittenEntries(ops[..k], n, source);
      assert RestoreEntry(WrittenEntry(ops[k], k, n, source), n) == Success(WrittenOp(ops[k], k, n));
      assert WrittenOps(ops, n) == WrittenOps(ops[..k], n) + [WrittenOp(ops[k], k, n)];
    }
  }

  lemma WrittenIsBacked(d: Disk, ops: seq<PublicationOp>, n: nat, message: string, source: Source)
    requires forall op | op in ops && op.AddOp? :: op.localPath in source
    requires forall i | 0 <= i < |ops| && ops[i].AddOp? ::
               && SnapshotLocation(n, i, ops[i].localPath) in d.snapshots
               && d.snapshots[SnapshotLocation(n, i, ops[i].localPath)] == source[ops[i].localPath]
    ensures Backed(d, Envelope(n, message, WrittenEntries(ops, n, source)), n)
  {
    forall i | 0 <= i < |ops| ensures EntryBacked(d, WrittenEntries(ops, n, source)[i], n) {
      assert ops[i] in ops;
    }
  }

  /**
   An upload persisted as `n`, and then whatever lawful steps follow that do not
   unlink it: restoring its envelope gives the operations, message and hashes
   that were submitted, and the snapshots still match them.
   */
  lemma PersistedUploadRestores(w: World, steps: seq<Step>, ops: seq<PublicationOp>, message: string, n: nat,
                                source: Source)
    requires n >= 1 && Secure(w, Padded(n), n) && Lawful(w, steps) && Unremoved(Padded(n), steps)
    requires Padded(n) in w.disk.envelopes
    requires w.disk.envelopes[Padded(n)] == Envelope(n, message, WrittenEntries(ops, n, source))
    requires Backed(w.disk, w.disk.envelopes[Padded(n)], n)
    ensures var later := Play(w, steps).disk;
            && Padded(n) in later.envelopes && later.envelopes[Padded(n)] == w.disk.envelopes[Padded(n)]
            && Restore(Padded(n), later.envelopes[Padded(n)], n)
               == Success(StoredUpload(WrittenOps(ops, n), message, Padded(n), Some(SequenceDir(n)),
                                       Shas(WrittenEntries(ops, n, source))))
            && forall i | 0 <= i < |ops| && ops[i].AddOp? ::
                 && SnapshotLocation(n, i, ops[i].localPath) in later.snapshots
                 && WrittenEntries(ops, n, source)[i].sha
                    == Some(Sha256(later.snapshots[SnapshotLocation(n, i, ops[i].localPath)]))
    ensures var later := Play(w, steps).disk;
            Hashed(later, Restore(Padded(n), later.envelopes[Padded(n)], n).value)
  {
    hide Play, Lawful, Unremoved, Secure;
    var doc := w.disk.envelopes[Padded(n)];
    OwnClaimSuffices(w, steps, Padded(n), n);
    PendingUploadSurvives(w, steps, Padded(n), n);
    WrittenEntriesRestore(ops, n, source);
    forall i | 0 <= i < |ops| && ops[i].AddOp?
      ensures EntryBacked(Play(w, steps).disk, Entries(doc)[i], n)
    {}
    WrittenIsHashed(Play(w, steps).disk, ops, n, message, source, Some(SequenceDir(n)));
  }

  lemma {:induction false} EntriesRestore(entries: seq<Entry>, n: nat)
    requires forall e | e in entries :: RestoreEntry(e, n).Success?
    ensures RestoreEntries(entries, n).Success?
    decreases |entries|
  {
    if entries != [] {
      EntriesRestore(entries[..|entries| - 1], n);
      assert RestoreEntry(entries[|entries| - 1], n).Success?;
    }
  }

  /******* What resuming accepts *******/

  datatype Job = Job(sequence: nat, name: FileName, doc: Document)

  // None for a legacy envelope, otherwise the sequence the payload records.
  function Classify(name: FileName, doc: Document): Result<Option<nat>, Error> {
    if doc.Malformed? then Failure(MalformedEnvelope(name))
    else if IsLegacy(doc) then Success(None)
    else if !IsCurrent(doc) then Failure(UnknownVersion(name))
    else if doc.sequence.None? || doc.sequence.value < 1 then Failure(InvalidSequence(name))
    else Success(Some(doc.sequence.value))
  }

  predicate IsJob(d: Disk, j: Job) {
    j.name in d.envelopes && j.doc == d.envelopes[j.name] && Classify(j.name, j.doc) == Success(Some(j.sequence))
  }

  // Every file classifies, and no two claim the same sequence.
  ghost predicate Resumable(d: Disk) {
    && (forall f | f in d.envelopes :: Classify(f, d.envelopes[f]).Success?)
    && (forall f, g | f in d.envelopes && g in d.envelopes && f != g && Classify(f, d.envelopes[f]).Success?
                      && Classify(f, d.envelopes[f]).value.Some? ::
          Classify(f, d.envelopes[f]) != Classify(g, d.envelopes[g]))
  }

  // A job written before envelopes had a version, and one in the current format.
  ghost predicate OldFormat(doc: Document) {
    doc.Json? && doc.contract == None && doc.message != None && doc.ops != None
  }

  ghost predicate NewFormat(doc: Document, n: nat) {
    doc.Json? && doc.contract == Some(BackgroundUploadV1) && doc.sequence == Some(n) && n > 0
  }

  lemma ClassifiesAs(name: FileName, doc: Document)
    ensures OldFormat(doc) <==> IsLegacy(doc) && Classify(name, doc) == Success(None)
    ensures forall n: nat :: NewFormat(doc, n) <==> Classify(name, doc) == Success(Some(n))
    ensures Classify(name, doc).Failure? ==>
              Classify(name, doc).error == if doc == Malformed then MalformedEnvelope(name)
                                           else if doc.contract != Some(BackgroundUploadV1) then UnknownVersion(name)
                                           else InvalidSequence(name)
  {}

  // A directory can be resumed exactly if every file is a job in one of the two formats
  // and no two in the current one have the same number.
  lemma ResumableIs(d: Disk)
    ensures Resumable(d) <==>
              && (forall f | f in d.envelopes ::
                    OldFormat(d.envelopes[f]) || exists n: nat :: NewFormat(d.envelopes[f], n))
              && forall f, g, n: nat | f in d.envelopes && g in d.envelopes
                    && NewFormat(d.envelopes[f], n) && NewFormat(d.envelopes[g], n) :: f == g
  {
    hide Classify, OldFormat, NewFormat, IsLegacy;
    forall f | f in d.envelopes
      ensures Classify(f, d.envelopes[f]).Success? <==>
                OldFormat(d.envelopes[f]) || exists n: nat :: NewFormat(d.envelopes[f], n)
    {
      ClassifiesAs(f, d.envelopes[f]);
      ClassifyLegacy(f, d.envelopes[f]);
      if Classify(f, d.envelopes[f]).Success? && Classify(f, d.envelopes[f]).value.Some? {
        assert NewFormat(d.envelopes[f], Classify(f, d.envelopes[f]).value.value);
      }
    }
    forall f | f in d.envelopes
      ensures forall n: nat :: NewFormat(d.envelopes[f], n) <==> Classify(f, d.envelopes[f]) == Success(Some(n))
    {
      ClassifiesAs(f, d.envelopes[f]);
    }
    if Resumable(d) {
      forall f, g, n: nat | f in d.envelopes && g in d.envelopes
                            && NewFormat(d.envelopes[f], n) && NewFormat(d.envelopes[g], n)
        ensures f == g
      {
        ClassifiesAs(f, d.envelopes[f]);
        ClassifiesAs(g, d.envelopes[g]);
      }
    }
  }

  ghost predicate MessagesThere(d: Disk) {
    forall f, n: nat | Pending(d, f, n) :: d.envelopes[f].message.Some?
  }

  // Envelopes in the current format are never changed by an upgrade.
  ghost predicate Untouched(before: Disk, after: Disk) {
    forall f | f in before.envelopes && IsCurrent(before.envelopes[f]) ::
      f in after.envelopes && after.envelopes[f] == before.envelopes[f]
  }

  ghost predicate Upgraded(d: Disk, j: Job) {
    && j.name == Padded(j.sequence)
    && IsJob(d, j)
    && Restore(j.name, j.doc, j.sequence).Success?
  }

  // The legacy file that was given this number became the job of that number, or its
  // failure is recorded.
  ghost predicate JobOrFailure(doc: Document, name: FileName, number: nat, jobs: seq<Job>,
                               failures: seq<(FileName, Error)>)
  {
    || (exists i :: 0 <= i < |jobs| && jobs[i].sequence == number && UpgradeOf(doc, jobs[i].doc))
    || (exists i :: 0 <= i < |failures| && failures[i].0 == name)
  }

  lemma UpgradedStay(before: Disk, after: Disk, name: FileName, jobs: seq<Job>)
    requires name in before.envelopes && IsLegacy(before.envelopes[name])
    requires forall f | f in before.envelopes && f != name ::
              f in after.envelopes && after.envelopes[f] == before.envelopes[f]
    requires forall j | j in jobs :: Upgraded(before, j)
    ensures forall j | j in jobs :: Upgraded(after, j)
  {
    forall j | j in jobs ensures Upgraded(after, j) { assert Upgraded(before, j); }
  }

  lemma StillJobOrFailure(doc: Document, name: FileName, number: nat, jobs: seq<Job>, failures: seq<(FileName, Error)>,
                          jobs': seq<Job>, failures': seq<(FileName, Error)>)
    requires JobOrFailure(doc, name, number, jobs, failures) && jobs <= jobs' && failures <= failures'
    ensures JobOrFailure(doc, name, number, jobs', failures')
  {
    if i :| 0 <= i < |jobs| && jobs[i].sequence == number && UpgradeOf(doc, jobs[i].doc) {
      assert jobs'[i] == jobs[i];
    } else {
      var i :| 0 <= i < |failures| && failures[i].0 == name;
      assert failures'[i] == failures[i];
    }
  }

  ghost predicate Lists(listing: seq<FileName>, d: Disk) {
    && (forall f :: f in listing <==> f in d.envelopes)
    && DistinctNames(listing)
  }

  ghost predicate DistinctNames(names: seq<FileName>) {
    forall i, j | 0 <= i < j < |names| :: names[i] != names[j]
  }

  ghost predicate Ascending(jobs: seq<Job>) {
    forall i, j | 0 <= i < j < |jobs| :: jobs[i].sequence < jobs[j].sequence
  }

  ghost predicate DistinctSequences(jobs: seq<Job>) {
    forall i, j | 0 <= i < j < |jobs| :: jobs[i].sequence != jobs[j].sequence
  }

  // The jobs and the legacy files among the first `k` of a listing, in its order.
  function JobsUpTo(d: Disk, listing: seq<FileName>, k: nat): seq<Job>
    requires k <= |listing| && forall f | f in listing :: f in d.envelopes
  {
    if k == 0 then []
    else
      var f := listing[k - 1];
      var c := Classify(f, d.envelopes[f]);
      JobsUpTo(d, listing, k - 1)
      + if c.Success? && c.value.Some? then [Job(c.value.value, f, d.envelopes[f])] else []
  }

  function LegacyUpTo(d: Disk, listing: seq<FileName>, k: nat): seq<FileName>
    requires k <= |listing| && forall f | f in listing :: f in d.envelopes
  {
    if k == 0 then []
    else
      var f := listing[k - 1];
      LegacyUpTo(d, listing, k - 1) + if IsLegacy(d.envelopes[f]) then [f] else []
  }

  function CurrentJobs(d: Disk, listing: seq<FileName>): seq<Job>
    requires forall f | f in listing :: f in d.envelopes
  {
    JobsUpTo(d, listing, |listing|)
  }

  function LegacyNames(d: Disk, listing: seq<FileName>): seq<FileName>
    requires forall f | f in listing :: f in d.envelopes
  {
    LegacyUpTo(d, listing, |listing|)
  }

  lemma {:induction false} JobAt(d: Disk, listing: seq<FileName>, k: nat, i: nat)
    requires i < k <= |listing| && forall f | f in listing :: f in d.envelopes
    requires var c := Classify(listing[i], d.envelopes[listing[i]]); c.Success? && c.value.Some?
    ensures var c := Classify(listing[i], d.envelopes[listing[i]]);
            Job(c.value.value, listing[i], d.envelopes[listing[i]]) in JobsUpTo(d, listing, k)
  {
    if i < k - 1 {
      JobAt(d, listing, k - 1, i);
    }
  }

  lemma {:induction false} JobFrom(d: Disk, listing: seq<FileName>, k: nat, j: Job) returns (i: nat)
    requires k <= |listing| && forall f | f in listing :: f in d.envelopes
    requires j in JobsUpTo(d, listing, k)
    ensures i < k && listing[i] == j.name && IsJob(d, j)
  {
    if j in JobsUpTo(d, listing, k - 1) {
      i := JobFrom(d, listing, k - 1, j);
    } else {
      i := k - 1;
    }
  }

  lemma {:induction false} LegacyAt(d: Disk, listing: seq<FileName>, k: nat, i: nat)
    requires i < k <= |listing| && forall f | f in listing :: f in d.envelopes
    requires IsLegacy(d.envelopes[listing[i]])
    ensures listing[i] in LegacyUpTo(d, listing, k)
  {
    if i < k - 1 {
      LegacyAt(d, listing, k - 1, i);
    }
  }

  lemma {:induction false} LegacyFrom(d: Disk, listing: seq<FileName>, k: nat, name: FileName) returns (i: nat)
    requires k <= |listing| && forall f | f in listing :: f in d.envelopes
    requires name in LegacyUpTo(d, listing, k)
    ensures i < k && listing[i] == name && IsLegacy(d.envelopes[name])
  {
    if name in LegacyUpTo(d, listing, k - 1) {
      i := LegacyFrom(d, listing, k - 1, name);
    } else {
      i := k - 1;
    }
  }

  lemma {:induction false} LegacyDistinct(d: Disk, listing: seq<FileName>, k: nat)
    requires Lists(listing, d) && k <= |listing|
    ensures DistinctNames(LegacyUpTo(d, listing, k))
  {
    if k > 0 {
      LegacyDistinct(d, listing, k - 1);
      var names, last := LegacyUpTo(d, listing, k - 1), listing[k - 1];
      if last in names {
        var i := LegacyFrom(d, listing, k - 1, last);
        assert false;
      }
      assert DistinctNames(names + [last]);
    }
  }

  lemma {:induction false} ListingSplits(d: Disk, listing: seq<FileName>, k: nat)
    requires k <= |listing| && forall f | f in listing :: f in d.envelopes
    requires forall i | 0 <= i < k :: Classify(listing[i], d.envelopes[listing[i]]).Success?
    ensures |JobsUpTo(d, listing, k)| + |LegacyUpTo(d, listing, k)| == k
  {
    if k > 0 {
      ListingSplits(d, listing, k - 1);
    }
  }

  // What the two parts of a whole listing contain.
  lemma CurrentJobsAre(d: Disk, listing: seq<FileName>)
    requires Lists(listing, d)
    ensures forall j :: j in CurrentJobs(d, listing) <==> IsJob(d, j)
  {
    forall j ensures j in CurrentJobs(d, listing) <==> IsJob(d, j) {
      if j in CurrentJobs(d, listing) {
        var _ := JobFrom(d, listing, |listing|, j);
      }
      if IsJob(d, j) {
        var i :| 0 <= i < |listing| && listing[i] == j.name;
        JobAt(d, listing, |listing|, i);
      }
    }
  }

  lemma LegacyNamesAre(d: Disk, listing: seq<FileName>)
    requires Lists(listing, d)
    ensures forall f :: f in LegacyNames(d, listing) <==> f in d.envelopes && IsLegacy(d.envelopes[f])
    ensures DistinctNames(LegacyNames(d, listing))
  {
    LegacyDistinct(d, listing, |listing|);
    forall f ensures f in LegacyNames(d, listing) <==> f in d.envelopes && IsLegacy(d.envelopes[f]) {
      if f in LegacyNames(d, listing) {
        var _ := LegacyFrom(d, listing, |listing|, f);
      }
      if f in d.envelopes && IsLegacy(d.envelopes[f]) {
        var i :| 0 <= i < |listing| && listing[i] == f;
        LegacyAt(d, listing, |listing|, i);
      }
    }
  }

  lemma DistinctJobsResumable(d: Disk, jobs: seq<Job>)
    requires forall f | f in d.envelopes :: Classify(f, d.envelopes[f]).Success?
    requires forall j :: j in jobs <==> IsJob(d, j)
    requires DistinctSequences(jobs)
    ensures Resumable(d)
  {
    forall f, g | f in d.envelopes && g in d.envelopes && f != g && Classify(f, d.envelopes[f]).value.Some?
      ensures Classify(f, d.envelopes[f]) != Classify(g, d.envelopes[g])
    {
      if Classify(f, d.envelopes[f]) == Classify(g, d.envelopes[g]) {
        var n := Classify(f, d.envelopes[f]).value.value;
        assert IsJob(d, Job(n, f, d.envelopes[f])) && IsJob(d, Job(n, g, d.envelopes[g]));
      }
    }
  }

  lemma ClassifyLegacy(name: FileName, doc: Document)
    ensures Classify(name, doc) == Success(None) <==> IsLegacy(doc)
  {}

  lemma NotResumable(d: Disk, f: FileName, g: FileName)
    requires f in d.envelopes && g in d.envelopes
    requires Classify(f, d.envelopes[f]).Failure?
          || (f != g && Classify(f, d.envelopes[f]).value.Some? &&
              Classify(f, d.envelopes[f]) == Classify(g, d.envelopes[g]))
    ensures !Resumable(d)
  {}

  lemma SameSequence(d: Disk, j: Job, name: FileName)
    requires IsJob(d, j) && name in d.envelopes && j.name != name
    requires Classify(name, d.envelopes[name]) == Success(Some(j.sequence))
    ensures !Resumable(d)
  {
    NotResumable(d, j.name, name);
  }

  function Sequences(jobs: seq<Job>): set<nat>
    decreases |jobs|
  {
    if jobs == [] then {} else Sequences(jobs[..|jobs| - 1]) + {jobs[|jobs| - 1].sequence}
  }

  lemma {:induction false} SequencesAre(jobs: seq<Job>)
    ensures forall n :: n in Sequences(jobs) <==> exists j :: j in jobs && j.sequence == n
    decreases |jobs|
  {
    if jobs != [] {
      var front, last := jobs[..|jobs| - 1], jobs[|jobs| - 1];
      SequencesAre(front);
      assert forall j :: j in jobs <==> j in front || j == last;
    }
  }

  lemma JobWithSequence(jobs: seq<Job>, n: nat) returns (j: Job)
    requires n in Sequences(jobs)
    ensures j in jobs && j.sequence == n
  {
    SequencesAre(jobs);
    j :| j in jobs && j.sequence == n;
  }

  lemma NoJobs()
    ensures Sequences([]) == {} && DistinctSequences([])
  {}

  lemma AppendDistinct(jobs: seq<Job>, j: Job)
    requires DistinctSequences(jobs) && j.sequence !in Sequences(jobs)
    ensures DistinctSequences(jobs + [j]) && Sequences(jobs + [j]) == Sequences(jobs) + {j.sequence}
  {
    SequencesAre(jobs);
    assert (jobs + [j])[..|jobs|] == jobs;
  }

  function InsertJob(j: Job, jobs: seq<Job>): (r: seq<Job>)
    ensures multiset(r) == multiset(jobs) + multiset{j}
  {
    if jobs == [] || j.sequence < jobs[0].sequence then [j] + jobs
    else
      assert jobs == [jobs[0]] + jobs[1..];
      [jobs[0]] + InsertJob(j, jobs[1..])
  }

  // Sorting by sequence; ties keep their order.
  function SortJobs(jobs: seq<Job>): (r: seq<Job>)
    ensures multiset(r) == multiset(jobs)
    decreases |jobs|
  {
    if jobs == [] then []
    else
      assert jobs == jobs[..|jobs| - 1] + [jobs[|jobs| - 1]];
      InsertJob(jobs[|jobs| - 1], SortJobs(jobs[..|jobs| - 1]))
  }

  lemma {:induction false} InsertKeepsAscending(j: Job, jobs: seq<Job>)
    requires Ascending(jobs) && forall k | k in jobs :: k.sequence != j.sequence
    ensures Ascending(InsertJob(j, jobs))
  {
    if jobs != [] && jobs[0].sequence <= j.sequence {
      InsertKeepsAscending(j, jobs[1..]);
      var tail := InsertJob(j, jobs[1..]);
      forall k | k in tail ensures jobs[0].sequence < k.sequence {
        assert k in multiset(tail);
        assert k == j || k in jobs[1..];
      }
    }
  }

  lemma {:induction false} SortJobsAscends(jobs: seq<Job>)
    requires DistinctSequences(jobs)
    ensures Ascending(SortJobs(jobs))
    decreases |jobs|
  {
    if jobs != [] {
      var front, j := jobs[..|jobs| - 1], jobs[|jobs| - 1];
      SortJobsAscends(front);
      forall k | k in SortJobs(front) ensures k.sequence != j.sequence {
        assert k in multiset(front);
      }
      InsertKeepsAscending(j, SortJobs(front));
    }
  }

  lemma SeparateSequences(current: seq<Job>, upgraded: seq<Job>, seen: set<nat>)
    requires seen == Sequences(current)
    requires forall j | j in upgraded :: j.sequence !in seen
    ensures forall j, k | j in upgraded && k in current :: j.sequence != k.sequence
  {
    SequencesAre(current);
  }

  lemma MembersOfSorted(jobs: seq<Job>)
    ensures |SortJobs(jobs)| == |jobs|
    ensures forall j :: j in SortJobs(jobs) <==> j in jobs
  {
    assert multiset(SortJobs(jobs)) == multiset(jobs);
    assert |SortJobs(jobs)| == |multiset(SortJobs(jobs))| == |multiset(jobs)| == |jobs|;
    forall j ensures j in SortJobs(jobs) <==> j in jobs {
      assert j in multiset(SortJobs(jobs)) <==> j in multiset(jobs);
    }
  }

  lemma ListingCounts(listing: seq<FileName>, d: Disk)
    requires Lists(listing, d)
    ensures |listing| == |d.envelopes|
  {
    var names := set f | f in listing;
    SizeOfDistinct(listing);
    assert names == d.envelopes.Keys;
  }

  lemma {:induction false} SizeOfDistinct(names: seq<FileName>)
    requires DistinctNames(names)
    ensures |set f | f in names| == |names|
    decreases |names|
  {
    if names != [] {
      var front, last := names[..|names| - 1], names[|names| - 1];
      SizeOfDistinct(front);
      assert (set f | f in names) == (set f | f in front) + {last};
    }
  }

  function SequenceOf(u: StoredUpload): nat {
    if u.snapshotDir.Some? && u.snapshotDir.value.SequenceDir? then u.snapshotDir.value.sequence else 0
  }

  function RestoreJob(j: Job): Result<StoredUpload, Error>
    requires j.doc.Json?
  {
    Restore(j.name, j.doc, j.sequence)
  }

  function RestoredUploads(jobs: seq<Job>): seq<StoredUpload>
    requires forall j | j in jobs :: j.doc.Json?
    decreases |jobs|
  {
    if jobs == [] then []
    else
      var restored := RestoreJob(jobs[|jobs| - 1]);
      RestoredUploads(jobs[..|jobs| - 1]) + if restored.Success? then [restored.value] else []
  }

  function FailedRestores(jobs: seq<Job>): seq<(FileName, Error)>
    requires forall j | j in jobs :: j.doc.Json?
    decreases |jobs|
  {
    if jobs == [] then []
    else
      var last := jobs[|jobs| - 1];
      var restored := RestoreJob(last);
      FailedRestores(jobs[..|jobs| - 1]) + if restored.Failure? then [(last.name, restored.error)] else []
  }

  // A job is handed back, or its failure is recorded.
  ghost predicate Outcome(j: Job, uploads: seq<StoredUpload>, failures: seq<(FileName, Error)>)
    requires j.doc.Json?
  {
    var restored := RestoreJob(j);
    if restored.Success? then restored.value in uploads else (j.name, restored.error) in failures
  }

  lemma {:induction false} RestoresAre(jobs: seq<Job>)
    requires forall j | j in jobs :: j.doc.Json?
    ensures |RestoredUploads(jobs)| + |FailedRestores(jobs)| == |jobs|
    ensures forall j | j in jobs :: Outcome(j, RestoredUploads(jobs), FailedRestores(jobs))
    ensures forall u | u in RestoredUploads(jobs) :: exists j :: j in jobs && RestoreJob(j) == Success(u)
    decreases |jobs|
  {
    if jobs != [] {
      var front, last := jobs[..|jobs| - 1], jobs[|jobs| - 1];
      RestoresAre(front);
      assert forall j :: j in jobs <==> j in front || j == last;
      forall j | j in jobs
        ensures Outcome(j, RestoredUploads(jobs), FailedRestores(jobs))
      {
        if j in front {
          assert Outcome(j, RestoredUploads(front), FailedRestores(front));
        }
      }
    }
  }

  lemma {:induction false} RestoresAscend(jobs: seq<Job>)
    requires forall j | j in jobs :: j.doc.Json?
    requires Ascending(jobs)
    ensures var us := RestoredUploads(jobs); forall i, k | 0 <= i < k < |us| :: SequenceOf(us[i]) < SequenceOf(us[k])
    decreases |jobs|
  {
    if jobs != [] {
      var front, last := jobs[..|jobs| - 1], jobs[|jobs| - 1];
      hide Restore;
      RestoresAscend(front);
      RestoresAre(front);
      forall u | u in RestoredUploads(front) ensures SequenceOf(u) < last.sequence {
        var j :| j in front && RestoreJob(j) == Success(u);
        RestoredNames(j, u);
      }
      if RestoreJob(last).Success? {
        RestoredNames(last, RestoreJob(last).value);
      }
    }
  }

  lemma NothingListed(d: Disk, listing: seq<FileName>)
    requires forall f | f in listing :: f in d.envelopes
    ensures JobsUpTo(d, listing, 0) == [] && LegacyUpTo(d, listing, 0) == []
  {}

  lemma OneMoreListed(d: Disk, listing: seq<FileName>, k: nat)
    requires k < |listing| && forall f | f in listing :: f in d.envelopes
    ensures var f := listing[k];
            var c := Classify(f, d.envelopes[f]);
            && JobsUpTo(d, listing, k + 1)
               == JobsUpTo(d, listing, k) +
                   (if c.Success? && c.value.Some? then [Job(c.value.value, f, d.envelopes[f])] else [])
            && LegacyUpTo(d, listing, k + 1)
               == LegacyUpTo(d, listing, k) + (if IsLegacy(d.envelopes[f]) then [f] else [])
  {}

  // Sorts the files into current jobs and legacy files, or refuses the directory.
  method PendingEnvelopes(d: Disk, listing: seq<FileName>)
    returns (r: Result<(seq<Job>, seq<FileName>, set<nat>), Error>)
    requires Lists(listing, d)
    ensures r.Success? <==> Resumable(d)
    ensures r.Success? ==>
              && r.value.0 == CurrentJobs(d, listing)
              && r.value.1 == LegacyNames(d, listing)
              && r.value.2 == Sequences(r.value.0)
              && DistinctSequences(r.value.0)
  {
    hide Resumable, Restore, IsJob, DistinctSequences, Classify, IsLegacy, IsCurrent, JobsUpTo, LegacyUpTo, Sequences;
    NothingListed(d, listing);
    var current: seq<Job>, legacy: seq<FileName>, seen: set<nat> := [], [], {};
    NoJobs();
    for i := 0 to |listing|
      invariant forall k | 0 <= k < i :: Classify(listing[k], d.envelopes[listing[k]]).Success?
      invariant current == JobsUpTo(d, listing, i)
      invariant legacy == LegacyUpTo(d, listing, i)
      invariant seen == Sequences(current)
      invariant DistinctSequences(current)
    {
      var name := listing[i];
      var doc := d.envelopes[name];
      var c := Classify(name, doc);
      ClassifyLegacy(name, doc);
      OneMoreListed(d, listing, i);
      if c.Failure? {
        NotResumable(d, name, name);
        return Failure(c.error);
      }
      if c.value.None? {
        legacy := legacy + [name];
      } else {
        var n := c.value.value;
        if n in seen {
          ghost var j := JobWithSequence(current, n);
          var _ := JobFrom(d, listing, i, j);
          SameSequence(d, j, name);
          return Failure(DuplicateSequence(n));
        }
        AppendDistinct(current, Job(n, name, doc));
        seen := seen + {n};
        current := current + [Job(n, name, doc)];
      }
    }
    CurrentJobsAre(d, listing);
    DistinctJobsResumable(d, current);
    r := Success((current, legacy, seen));
  }

  // A job that restores but for its message raises instead of being recorded.
  predicate Raises(j: Job)
    requires j.doc.Json?
  {
    RestoreJob(j).Failure? && RestoreJob(j).error.MissingMessage?
  }

  method RestoreJobs(jobs: seq<Job>, skipped: seq<(FileName, Error)>)
    returns (r: Result<(seq<StoredUpload>, seq<(FileName, Error)>), Error>)
    requires forall j | j in jobs :: j.doc.Json?
    ensures r.Failure? <==> exists j :: j in jobs && Raises(j)
    ensures r.Success? ==> r.value == (RestoredUploads(jobs), skipped + FailedRestores(jobs))
  {
    var uploads: seq<StoredUpload>, failures := [], skipped;
    for i := 0 to |jobs|
      invariant uploads == RestoredUploads(jobs[..i])
      invariant failures == skipped + FailedRestores(jobs[..i])
      invariant forall k | 0 <= k < i :: !Raises(jobs[k])
    {
      var j := jobs[i];
      assert jobs[..i + 1][..i] == jobs[..i];
      var restored := RestoreJob(j);
      match restored {
        case Success(u) =>
          uploads := uploads + [u];
        case Failure(e) =>
          if e.MissingMessage? {
            assert j in jobs && Raises(j);
            return Failure(e);
          }
          failures := failures + [(j.name, e)];
      }
    }
    assert jobs[..|jobs|] == jobs;
    r := Success((uploads, failures));
  }

  lemma {:induction false} RestoreEntriesNoMessage(entries: seq<Entry>, n: nat)
    ensures var r := RestoreEntries(entries, n); r.Failure? ==> !r.error.MissingMessage?
    decreases |entries|
  {
    if entries != [] {
      RestoreEntriesNoMessage(entries[..|entries| - 1], n);
    }
  }

  /**
   What resuming makes of the directory `before`, leaving `after`: uploads in
   strictly ascending sequence order, each restored from an envelope that is
   there; every envelope in the current format restored or reported; every legacy
   file, given its own number from `next` on, upgraded or reported; and one outcome
   for each file, no more and no less.
   */
  ghost predicate ResumeOutcome(before: Disk, after: Disk, legacy: seq<FileName>, next: nat, uploads: seq<StoredUpload>,
                                failures: seq<(FileName, Error)>)
  {
    && (forall i, k | 0 <= i < k < |uploads| :: SequenceOf(uploads[i]) < SequenceOf(uploads[k]))
    && (forall u | u in uploads :: exists j :: IsJob(after, j) && RestoreJob(j) == Success(u))
    && |uploads| + |failures| == |before.envelopes|
    && (forall j | IsJob(before, j) :: IsJob(after, j) && Outcome(j, uploads, failures))
    && LegacyOutcomes(before, after, legacy, next, uploads, failures)
  }

  ghost predicate LegacyOutcomes(before: Disk, after: Disk, legacy: seq<FileName>, next: nat,
                                 uploads: seq<StoredUpload>,
                                 failures: seq<(FileName, Error)>)
  {
    && (forall f :: f in legacy <==> f in before.envelopes && IsLegacy(before.envelopes[f]))
    && forall k | 0 <= k < |legacy| ::
         legacy[k] in before.envelopes
         && LegacyOutcome(before.envelopes[legacy[k]], legacy[k], next + k, after, uploads, failures)
  }

  ghost predicate LegacyOutcome(doc: Document, name: FileName, number: nat, after: Disk, uploads: seq<StoredUpload>,
                                failures: seq<(FileName, Error)>)
  {
    || (exists j :: IsJob(after, j) && j.sequence == number && UpgradeOf(doc, j.doc)
                    && RestoreJob(j).Success? && RestoreJob(j).value in uploads)
    || (exists i :: 0 <= i < |failures| && failures[i].0 == name)
  }

  lemma LegacyOutcomeHolds(doc: Document, name: FileName, number: nat, after: Disk, jobs: seq<Job>, upgraded: seq<Job>,
                           skipped: seq<(FileName, Error)>)
    requires forall j | j in jobs :: j.doc.Json?
    requires forall j | j in upgraded :: j in jobs && Upgraded(after, j)
    requires JobOrFailure(doc, name, number, upgraded, skipped)
    ensures LegacyOutcome(doc, name, number, after, RestoredUploads(jobs), skipped + FailedRestores(jobs))
  {
    RestoresAre(jobs);
    if i :| 0 <= i < |upgraded| && upgraded[i].sequence == number && UpgradeOf(doc, upgraded[i].doc) {
      var j := upgraded[i];
      assert j in upgraded;
      assert IsJob(after, j) && RestoreJob(j).Success?;
      assert Outcome(j, RestoredUploads(jobs), FailedRestores(jobs));
    } else {
      var i :| 0 <= i < |skipped| && skipped[i].0 == name;
      assert (skipped + FailedRestores(jobs))[i].0 == name;
    }
  }

  ghost predicate UpgradePhaseDone(before: Disk, after: Disk, legacy: seq<FileName>, next: nat, upgraded: seq<Job>,
                                   skipped: seq<(FileName, Error)>)
  {
    && Untouched(before, after)
    && Ascending(upgraded)
    && (forall j | j in upgraded :: Upgraded(after, j))
    && |upgraded| + |skipped| == |legacy|
    && (forall k | 0 <= k < |legacy| ::
          legacy[k] in before.envelopes
          && JobOrFailure(before.envelopes[legacy[k]], legacy[k], next + k, upgraded, skipped))
  }

  lemma JobsAreOnDisk(before: Disk, after: Disk, current: seq<Job>, upgraded: seq<Job>)
    requires Untouched(before, after)
    requires forall j | j in current :: IsJob(before, j)
    requires forall j | j in upgraded :: Upgraded(after, j)
    ensures forall j | j in SortJobs(current + upgraded) :: IsJob(after, j) && j.doc.Json?
  {
    MembersOfSorted(current + upgraded);
    forall j | j in SortJobs(current + upgraded)
      ensures IsJob(after, j)
    {
      if j in current {
        assert IsJob(before, j);
      } else {
        assert Upgraded(after, j);
      }
    }
  }

  lemma ResumedUploadsHold(after: Disk, jobs: seq<Job>)
    requires forall j | j in jobs :: IsJob(after, j) && j.doc.Json?
    ensures forall u | u in RestoredUploads(jobs) :: exists j :: IsJob(after, j) && RestoreJob(j) == Success(u)
  {
    RestoresAre(jobs);
    forall u | u in RestoredUploads(jobs)
      ensures exists j :: IsJob(after, j) && RestoreJob(j) == Success(u)
    {
      var j :| j in jobs && RestoreJob(j) == Success(u);
      assert IsJob(after, j);
    }
  }

  lemma CurrentOutcomesHold(before: Disk, after: Disk, jobs: seq<Job>, skipped: seq<(FileName, Error)>)
    requires forall j | j in jobs :: IsJob(after, j) && j.doc.Json?
    requires forall j | IsJob(before, j) :: j in jobs
    ensures forall j | IsJob(before, j) ::
              IsJob(after, j) && Outcome(j, RestoredUploads(jobs), skipped + FailedRestores(jobs))
  {
    RestoresAre(jobs);
    forall j | IsJob(before, j)
      ensures IsJob(after, j) && Outcome(j, RestoredUploads(jobs), skipped + FailedRestores(jobs))
    {
      assert j in jobs;
      assert Outcome(j, RestoredUploads(jobs), FailedRestores(jobs));
    }
  }

  // Entries that an upgrade accepts, given the files that are there.
  predicate CanUpgradeEntry(e: Entry, source: Source) {
    && e.action.Some? && e.pathInRepo.Some?
    && if e.action.value == "add" then e.localPath.Some? && e.localPath.value in source
       else e.action.value == "delete" && e.localPath.None?
  }

  predicate CanUpgrade(entries: seq<Entry>, source: Source) {
    forall i | 0 <= i < |entries| :: CanUpgradeEntry(entries[i], source)
  }

  // The i-th legacy file can be upgraded, but is given a number already seen.
  ghost predicate Refused(before: Disk, legacy: seq<FileName>, next: nat, seen: set<nat>, source: Source, i: int) {
    && 0 <= i < |legacy| && next + i in seen
    && legacy[i] in before.envelopes && IsLegacy(before.envelopes[legacy[i]])
    && CanUpgrade(before.envelopes[legacy[i]].ops.value, source)
  }

  lemma RefusedIs(before: Disk, legacy: seq<FileName>, next: nat, seen: set<nat>, source: Source, i: nat)
    requires i < |legacy| && legacy[i] in before.envelopes && IsLegacy(before.envelopes[legacy[i]])
    ensures Refused(before, legacy, next, seen, source, i)
       <==> next + i in seen && CanUpgrade(before.envelopes[legacy[i]].ops.value, source)
  {}

  lemma RefusedInRange(before: Disk, legacy: seq<FileName>, next: nat, seen: set<nat>, source: Source)
    ensures forall i | Refused(before, legacy, next, seen, source, i) :: 0 <= i < |legacy|
  {}

  // Every envelope was there before, or replaces one of the first i legacy files.
  ghost predicate OnlyUpgrades(before: Disk, after: Disk, next: nat, i: nat) {
    forall f | f in after.envelopes ::
      || (f in before.envelopes && after.envelopes[f] == before.envelopes[f])
      || (f.Padded? && next <= f.number < next + i)
  }

  lemma NothingUpgraded(d: Disk, next: nat)
    ensures Untouched(d, d) && OnlyUpgrades(d, d, next, 0)
  {}

  lemma StillUntouched(before: Disk, entry: Disk, after: Disk, name: FileName)
    requires Untouched(before, entry) && name in entry.envelopes && IsLegacy(entry.envelopes[name])
    requires forall f | f in entry.envelopes && f != name ::
              f in after.envelopes && after.envelopes[f] == entry.envelopes[f]
    ensures Untouched(before, after)
  {}

  lemma OneMoreUpgrade(before: Disk, entry: Disk, after: Disk, next: nat, i: nat, name: FileName)
    requires OnlyUpgrades(before, entry, next, i) && name in before.envelopes && name in entry.envelopes
    requires forall f | f in entry.envelopes && f != name ::
              f in after.envelopes && after.envelopes[f] == entry.envelopes[f]
    requires after.envelopes.Keys <= entry.envelopes.Keys + {Padded(next + i)}
    requires name in after.envelopes ==> after.envelopes[name] == entry.envelopes[name]
    ensures OnlyUpgrades(before, after, next, i + 1)
  {}

  // The i-th legacy job is in no envelope: its file is gone, its replacement is gone, and
  // what is there was there before or replaces an earlier file. Gone too are all snapshots
  // under its number, which are those of the pending file that has the number.
  ghost predicate Lost(before: Disk, after: Disk, legacy: seq<FileName>, next: nat, i: int) {
    && 0 <= i < |legacy|
    && legacy[i] !in after.envelopes && Padded(next + i) !in after.envelopes
    && OnlyUpgrades(before, after, next, i)
    && forall l | l in after.snapshots :: !(l.InSequence? && l.sequence == next + i)
  }

  lemma TakenBackIsLost(before: Disk, mid: Disk, after: Disk, legacy: seq<FileName>, next: nat, i: nat)
    requires i < |legacy| && legacy[i] !in mid.envelopes
    requires OnlyUpgrades(before, mid, next, i + 1)
    requires after.envelopes == mid.envelopes - {Padded(next + i)}
    requires forall l | l in after.snapshots :: !(l.InSequence? && l.sequence == next + i)
    ensures Lost(before, after, legacy, next, i)
  {}

  // What makes resuming a directory it accepts stop: an upgraded file is given a number
  // already seen, or a file restores but for its message.
  ghost predicate Stops(d: Disk, listing: seq<FileName>, next: nat, source: Source)
    requires Lists(listing, d)
  {
    || (exists i :: Refused(d, LegacyNames(d, listing), next, Sequences(CurrentJobs(d, listing)), source, i))
    || (exists j :: IsJob(d, j) && Raises(j))
  }

  // With every pending number below the next one, no upgrade is refused, and with every
  // message there, nothing else stops it.
  lemma NothingStops(d: Disk, listing: seq<FileName>, next: nat, source: Source)
    requires Lists(listing, d) && AllBelow(d, next)
    ensures forall i :: !Refused(d, LegacyNames(d, listing), next, Sequences(CurrentJobs(d, listing)), source, i)
    ensures MessagesThere(d) ==> !Stops(d, listing, next, source)
  {
    hide Restore, LegacyNames, CurrentJobs, Sequences;
    CurrentJobsAre(d, listing);
    forall i | Refused(d, LegacyNames(d, listing), next, Sequences(CurrentJobs(d, listing)), source, i) ensures false {
      var j := JobWithSequence(CurrentJobs(d, listing), next + i);
      NotBelow(d, next, j);
    }
    forall j | IsJob(d, j) && MessagesThere(d) ensures !Raises(j) {
      assert Pending(d, j.name, j.sequence);
      MessageIsThere(j);
    }
  }

  lemma NotBelow(d: Disk, next: nat, j: Job)
    requires IsJob(d, j) && next <= j.sequence
    ensures !AllBelow(d, next)
  {
    assert Pending(d, j.name, j.sequence);
  }

  lemma MessageIsThere(j: Job)
    requires j.doc.Json? && j.doc.message.Some?
    ensures !Raises(j)
  {
    RestoreEntriesNoMessage(Entries(j.doc), j.sequence);
  }

  // A directory of legacy files and the store's own files is accepted, and below any
  // number that a session may start with.
  lemma StoreNumberedResumes(d: Disk, next: nat)
    requires ClaimsBelow(d, next)
    ensures StoreNumbered(d) ==> Resumable(d) && AllBelow(d, next) && MessagesThere(d)
  {}

  lemma ResumableIsDistinct(d: Disk)
    ensures Resumable(d) ==> DistinctPayloads(d)
  {
    forall f, g, n: nat | Resumable(d) && Pending(d, f, n) && Pending(d, g, n) ensures f == g {
      assert Classify(f, d.envelopes[f]) == Success(Some(n)) == Classify(g, d.envelopes[g]);
    }
  }

  // Upgraded jobs never raise.
  lemma RaisingJobs(before: Disk, after: Disk, current: seq<Job>, upgraded: seq<Job>)
    requires forall j :: j in current <==> IsJob(before, j)
    requires forall j | j in upgraded :: Upgraded(after, j)
    requires forall j | j in SortJobs(current + upgraded) :: j.doc.Json?
    ensures (exists j :: j in SortJobs(current + upgraded) && Raises(j)) <==> exists j :: IsJob(before, j) && Raises(j)
  {
    hide SortJobs, Restore;
    MembersOfSorted(current + upgraded);
    forall j | j in upgraded ensures j.doc.Json? && !Raises(j) { assert Upgraded(after, j); }
    forall j | IsJob(before, j) ensures j in SortJobs(current + upgraded) { assert j in current; }
    forall j | j in SortJobs(current + upgraded) && Raises(j) ensures IsJob(before, j) { assert j in current; }
  }

  /******* Uploads handed out *******/

  // Another upload that is pending and looks for its snapshots where this one does.
  ghost predicate Shares(d: Disk, statePath: FileName, n: nat, f: FileName) {
    f != statePath && Pending(d, f, n) && HasAdd(d.envelopes[f])
  }

  // What becomes of the other pending uploads when one is deleted with its snapshots: one
  // that was complete stays so exactly if it does not share them.
  lemma OthersAfterDelete(before: Disk, after: Disk, statePath: FileName, n: nat, f: FileName, m: nat)
    requires after.envelopes == before.envelopes - {statePath}
    requires forall l | l in before.snapshots && !(l.InSequence? && l.sequence == n) ::
               l in after.snapshots && after.snapshots[l] == before.snapshots[l]
    requires forall l | l in after.snapshots :: !(l.InSequence? && l.sequence == n)
    requires f != statePath && Kept(before, f, m)
    ensures Kept(after, f, m) <==> !Shares(before, statePath, n, f)
  {
    var entries := Entries(before.envelopes[f]);
    if Shares(before, statePath, n, f) {
      var i :| 0 <= i < |entries| && entries[i].action == Some("add");
      assert !EntryBacked(after, entries[i], n);
    } else {
      forall i | 0 <= i < |entries| ensures EntryBacked(after, entries[i], m) {
        assert EntryBacked(before, entries[i], m);
        assert entries[i] in entries;
      }
    }
  }

  // The session remembers the upload it handed out, and its directory is that of its number.
  ghost predicate Handed(i: Session, statePath: FileName, snapshotDir: Option<SnapshotDir>, n: nat) {
    (statePath, n) in i.held && (snapshotDir.None? || snapshotDir == Some(SequenceDir(n)))
  }

  ghost predicate HandedOut(i: Session, u: StoredUpload) {
    exists n: nat :: Handed(i, u.statePath, u.snapshotDir, n)
  }

  lemma ResumedAreHandedOut(w: World, before: Disk, legacy: seq<FileName>, next: nat, uploads: seq<StoredUpload>,
                            failures: seq<(FileName, Error)>)
    requires ResumeOutcome(before, w.disk, legacy, next, uploads, failures)
    requires w.session.Some? && AllHeld(w)
    ensures forall u | u in uploads :: HandedOut(w.session.value, u)
  {
    hide Restore, LegacyOutcomes, Outcome;
    forall u | u in uploads
      ensures HandedOut(w.session.value, u)
    {
      var j :| IsJob(w.disk, j) && RestoreJob(j) == Success(u);
      assert Pending(w.disk, j.name, j.sequence);
      RestoredNames(j, u);
      assert Handed(w.session.value, u.statePath, u.snapshotDir, j.sequence);
    }
  }

  // Handed out as one of the jobs of the directory.
  ghost predicate ReadFrom(d: Disk, u: StoredUpload) {
    exists j :: IsJob(d, j) && Reads(u, j) && (Kept(d, j.name, j.sequence) ==> AddsHashed(d, u))
  }

  lemma UploadIsRead(d: Disk, j: Job, u: StoredUpload)
    requires IsJob(d, j) && RestoreJob(j) == Success(u)
    ensures ReadFrom(d, u)
  {
    hide RestoreJob;
    JobReads(j);
    if Kept(d, j.name, j.sequence) {
      KeptIsHashed(d, j, u);
    }
  }

  lemma ResumedAreRead(before: Disk, after: Disk, legacy: seq<FileName>, next: nat, uploads: seq<StoredUpload>,
                       failures: seq<(FileName, Error)>)
    requires ResumeOutcome(before, after, legacy, next, uploads, failures)
    ensures forall u | u in uploads :: ReadFrom(after, u)
    ensures forall f, n: nat | Pending(before, f, n) ::
              Readable(Job(n, f, before.envelopes[f]))
              <==> exists u :: u in uploads && Reads(u, Job(n, f, before.envelopes[f]))
  {
    hide Restore, LegacyOutcomes, Reads, Readable, ReadFrom;
    forall u | u in uploads ensures ReadFrom(after, u) {
      var j :| IsJob(after, j) && RestoreJob(j) == Success(u);
      UploadIsRead(after, j, u);
    }
    forall f, n: nat | Pending(before, f, n)
      ensures Readable(Job(n, f, before.envelopes[f]))
         <==> exists u :: u in uploads && Reads(u, Job(n, f, before.envelopes[f]))
    {
      var j := Job(n, f, before.envelopes[f]);
      assert IsJob(before, j);
      assert Outcome(j, uploads, failures);
      JobReads(j);
      if u :| u in uploads && Reads(u, j) {
        ReadIsReadable(j, u);
      }
    }
  }

  lemma ReadIsReadable(j: Job, u: StoredUpload)
    requires Reads(u, j)
    ensures Readable(j)
  {
    forall e | e in Entries(j.doc) ensures ReadableEntry(e, j.sequence) {
      var i :| 0 <= i < |Entries(j.doc)| && Entries(j.doc)[i] == e;
    }
  }

  lemma RestoredNames(j: Job, u: StoredUpload)
    requires j.doc.Json? && RestoreJob(j) == Success(u)
    ensures u.statePath == j.name && u.snapshotDir == Some(SequenceDir(j.sequence))
  {}

  // A listing of a resumable directory splits into current jobs and legacy files.
  lemma ListedFiles(d: Disk, listing: seq<FileName>)
    requires Lists(listing, d) && Resumable(d)
    ensures forall j :: j in CurrentJobs(d, listing) <==> IsJob(d, j)
    ensures forall f :: f in LegacyNames(d, listing) <==> f in d.envelopes && IsLegacy(d.envelopes[f])
    ensures |CurrentJobs(d, listing)| + |LegacyNames(d, listing)| == |d.envelopes|
  {
    CurrentJobsAre(d, listing);
    LegacyNamesAre(d, listing);
    ListingSplits(d, listing, |listing|);
    ListingCounts(listing, d);
  }

  lemma JoinedDistinct(current: seq<Job>, upgraded: seq<Job>)
    requires DistinctSequences(current) && Ascending(upgraded)
    requires forall j, k | j in upgraded && k in current :: j.sequence != k.sequence
    ensures DistinctSequences(current + upgraded)
  {
    assert forall i | 0 <= i < |upgraded| :: upgraded[i] in upgraded;
  }

  // All jobs of a resumable directory after its upgrades, in order.
  lemma AllJobs(before: Disk, after: Disk, listing: seq<FileName>, next: nat, upgraded: seq<Job>,
                skipped: seq<(FileName, Error)>)
    requires Lists(listing, before) && Resumable(before)
    requires DistinctSequences(CurrentJobs(before, listing))
    requires forall j, k | j in upgraded && k in CurrentJobs(before, listing) :: j.sequence != k.sequence
    requires UpgradePhaseDone(before, after, LegacyNames(before, listing), next, upgraded, skipped)
    ensures var jobs := SortJobs(CurrentJobs(before, listing) + upgraded);
            && (forall j | j in jobs :: IsJob(after, j) && j.doc.Json?)
            && (forall j | IsJob(before, j) :: j in jobs) && (forall j | j in upgraded :: j in jobs)
            && Ascending(jobs) && |jobs| + |skipped| == |before.envelopes|
  {
    hide IsJob, Upgraded, Untouched, Resumable, SortJobs, CurrentJobs, LegacyNames, JobOrFailure;
    var current := CurrentJobs(before, listing);
    ListedFiles(before, listing);
    JobsAreOnDisk(before, after, current, upgraded);
    MembersOfSorted(current + upgraded);
    JoinedDistinct(current, upgraded);
    hide DistinctSequences, Ascending;
    SortJobsAscends(current + upgraded);
  }

  lemma OutcomeOfJobs(before: Disk, after: Disk, legacy: seq<FileName>, next: nat, jobs: seq<Job>, upgraded: seq<Job>,
                      skipped: seq<(FileName, Error)>)
    requires forall j | j in jobs :: IsJob(after, j) && j.doc.Json?
    requires forall j | IsJob(before, j) :: j in jobs
    requires forall j | j in upgraded :: j in jobs
    requires Ascending(jobs) && |jobs| + |skipped| == |before.envelopes|
    requires forall f :: f in legacy <==> f in before.envelopes && IsLegacy(before.envelopes[f])
    requires UpgradePhaseDone(before, after, legacy, next, upgraded, skipped)
    ensures ResumeOutcome(before, after, legacy, next, RestoredUploads(jobs), skipped + FailedRestores(jobs))
  {
    hide IsJob, UpgradePhaseDone, RestoredUploads, FailedRestores, RestoreJob, LegacyOutcomes, Outcome, SequenceOf,
        Ascending;
    RestoresAre(jobs);
    RestoresAscend(jobs);
    ResumedUploadsHold(after, jobs);
    CurrentOutcomesHold(before, after, jobs, skipped);
    LegacyOutcomesHold(before, after, legacy, next, jobs, upgraded, skipped);
  }

  lemma ResumeOutcomeHolds(before: Disk, after: Disk, listing: seq<FileName>, next: nat, upgraded: seq<Job>,
                           skipped: seq<(FileName, Error)>)
    requires Lists(listing, before) && Resumable(before)
    requires DistinctSequences(CurrentJobs(before, listing))
    requires forall j, k | j in upgraded && k in CurrentJobs(before, listing) :: j.sequence != k.sequence
    requires UpgradePhaseDone(before, after, LegacyNames(before, listing), next, upgraded, skipped)
    ensures var jobs := SortJobs(CurrentJobs(before, listing) + upgraded);
            && (forall j | j in jobs :: j.doc.Json?)
            && ResumeOutcome(before, after, LegacyNames(before, listing), next, RestoredUploads(jobs),
                skipped + FailedRestores(jobs))
  {
    hide IsJob, UpgradePhaseDone, ResumeOutcome, Ascending, DistinctSequences, SortJobs, LegacyNames, CurrentJobs,
        Resumable;
    AllJobs(before, after, listing, next, upgraded, skipped);
    ListedFiles(before, listing);
    var jobs := SortJobs(CurrentJobs(before, listing) + upgraded);
    OutcomeOfJobs(before, after, LegacyNames(before, listing), next, jobs, upgraded, skipped);
  }

  lemma LegacyOutcomesHold(before: Disk, after: Disk, legacy: seq<FileName>, next: nat, jobs: seq<Job>,
                           upgraded: seq<Job>,
                           skipped: seq<(FileName, Error)>)
    requires forall j | j in jobs :: j.doc.Json?
    requires forall j | j in upgraded :: j in jobs
    requires UpgradePhaseDone(before, after, legacy, next, upgraded, skipped)
    requires forall f :: f in legacy <==> f in before.envelopes && IsLegacy(before.envelopes[f])
    ensures LegacyOutcomes(before, after, legacy, next, RestoredUploads(jobs), skipped + FailedRestores(jobs))
  {
    hide JobOrFailure, LegacyOutcome, RestoredUploads, FailedRestores, Upgraded, UpgradeOf;
    forall k | 0 <= k < |legacy|
      ensures LegacyOutcome(before.envelopes[legacy[k]], legacy[k], next + k, after,
                            RestoredUploads(jobs), skipped + FailedRestores(jobs))
    {
      LegacyOutcomeHolds(before.envelopes[legacy[k]], legacy[k], next + k, after, jobs, upgraded, skipped);
    }
  }

  lemma UpgradedEnvelope(d: Disk, doc: Document, n: nat, entries: seq<Entry>)
    requires IsLegacy(doc) && n >= 1 && |entries| == |Entries(doc)|
    requires forall i | 0 <= i < |entries| ::
               EntryUpgrade(Entries(doc)[i], entries[i]) && EntryBacked(d, entries[i], n) &&
                   RestoreEntry(entries[i], n).Success?
    ensures var doc' := Envelope(n, doc.message.value, entries);
            && Backed(d, doc', n) && UpgradeOf(doc, doc')
            && Restore(Padded(n), doc', n).Success? && Classify(Padded(n), doc') == Success(Some(n))
  {
    EntriesRestore(entries, n);
  }

  /******* The directory, with failing file operations *******/

  // What an injected fault does to one file operation: nothing happened, or it
  // happened and the call raised all the same.
  datatype Fault = NoFault | Before | After

  class StateDirectory {
    var disk: Disk
    const faults: nat -> Fault
    var clock: nat
    ghost const origin: Disk
    ghost var session: Option<Session>
    ghost var steps: seq<Step>

    ghost function World(): World
      reads this
    {
      UploadProtocol.World(disk, session)
    }

    // What happened since the process started: the directory was opened once, and every
    // step since is lawful.
    ghost predicate Valid()
      reads this
    {
      ValidFor(disk)
    }

    ghost predicate ValidFor(d: Disk)
      reads this`session, this`steps
    {
      && Lawful(Closed(origin), steps) && UploadProtocol.World(d, session) == Play(Closed(origin), steps)
      && OpenedOnce(steps)
    }

    // A process starts over any directory at all.
    constructor (d: Disk, faults: nat -> Fault)
      ensures Valid() && disk == d && origin == d && steps == [] && session == None && this.faults == faults
    {
      disk := d;
      this.faults := faults;
      clock := 0;
      origin := d;
      session := None;
      steps := [];
    }

    // No operation fails.
    ghost predicate Faultless() {
      forall k :: faults(k) == NoFault
    }

    // A directory the store numbered stays so under every step of the store.
    twostate lemma StaysStoreNumbered()
      requires old(Valid()) && Valid() && old(steps) <= steps && StoreNumbered(old(disk))
      ensures StoreNumbered(disk)
    {
      hide StoreNumbered;
      var k := |old(steps)|;
      assert steps[..k] == old(steps);
      SuffixIsLawful(Closed(origin), steps, k);
      EveryStateStoreNumbered(old(World()), steps[k..]);
    }

    // What a session handed out after resuming stays handed out.
    lemma AllHeldSince(k: nat)
      requires Valid() && 1 <= k <= |steps| && AllHeld(Play(Closed(origin), steps[..k]))
      ensures AllHeld(World())
    {
      hide AllHeld;
      SuffixIsLawful(Closed(origin), steps, k);
      LaterUninterrupted(steps, k);
      AllStayHeld(Play(Closed(origin), steps[..k]), steps[k..]);
    }

    // The theorem about sessions, for whatever the store did in this one: an upload that was
    // pending with its snapshots when the session started below its next number still is,
    // unless it was unlinked.
    lemma KeepsUpload(f: FileName, n: nat)
      requires Valid() && steps != [] && Kept(origin, f, n) && n < steps[0].next && Unremoved(f, steps)
      ensures Kept(disk, f, n)
    {
      OnlyFirstOpens(steps);
      PendingUploadSurvives(Closed(origin), steps, f, n);
    }

    // And if all of them were below it, none is ever without its snapshots.
    lemma KeepsConsistent()
      requires Valid() && steps != [] && Consistent(origin) && AllBelow(origin, steps[0].next)
      ensures Consistent(disk) && Orderly(World())
    {
      assert steps[..0] == [] && steps[..|steps|] == steps;
      OnlyFirstOpens(steps);
      EveryStateConsistent(Closed(origin), steps, |steps|);
    }

    method NextFault() returns (f: Fault)
      modifies this`clock
      ensures clock == old(clock) + 1 && f == faults(old(clock))
    {
      f := faults(clock);
      clock := clock + 1;
    }

    method Perform(s: Step)
      requires Valid() && session.Some? && !s.Open? && !s.Crash? && EnabledIn(disk, session.value, s)
      modifies this`disk, this`session, this`steps
      ensures Valid() && steps == old(steps) + [s]
      ensures disk == Written(old(disk), s) && session == Some(Remembered(old(disk), old(session).value, s))
    {
      Record(s);
      disk := Written(disk, s);
    }

    // What the store remembers of a step, ahead of what the step writes.
    ghost method Record(s: Step)
      requires Valid() && session.Some? && !s.Open? && !s.Crash? && EnabledIn(disk, session.value, s)
      modifies this`session, this`steps
      ensures ValidFor(Written(disk, s)) && steps == old(steps) + [s]
      ensures session == Some(Remembered(disk, old(session).value, s))
      ensures Play(Closed(origin), steps) == Apply(old(World()), s)
    {
      OneMore(s);
      session := Some(Remembered(disk, session.value, s));
      steps := steps + [s];
    }

    lemma OneMore(s: Step)
      requires Valid() && Enabled(World(), s) && !s.Crash? && (s.Open? ==> steps == [])
      ensures Lawful(Closed(origin), steps + [s]) && Play(Closed(origin), steps + [s]) == Apply(World(), s)
      ensures OpenedOnce(steps + [s])
    {
      hide Enabled, Apply, OpenedOnce;
      Extend(Closed(origin), steps, s);
      OpenedOnceMore(origin, steps, s);
    }

    // One file operation under the next fault.
    method Attempt(s: Step) returns (ok: bool)
      requires Valid() && session.Some? && !s.Open? && !s.Crash? && EnabledIn(disk, session.value, s)
      modifies this
      ensures Valid() && old(steps) <= steps
      ensures || (disk == old(disk) && session == old(session))
              || (disk == Written(old(disk), s) && session == Some(Remembered(old(disk), old(session).value, s)))
      ensures ok ==> disk == Written(old(disk), s) && session == Some(Remembered(old(disk), old(session).value, s))
      ensures faults(old(clock)) == NoFault ==> ok
    {
      var f := NextFault();
      if f != Before {
        Perform(s);
      }
      ok := f == NoFault;
    }

    // The number is used up whether or not the mark could be stored.
    method StoreMark(n: nat) returns (ok: bool)
      requires Valid() && session.Some? && EnabledIn(disk, session.value, Allocate(n))
      modifies this
      ensures Valid() && old(steps) <= steps && disk == old(disk).(highwater := disk.highwater)
      ensures session.Some? && session.value == old(session).value.(next := n + 1, mine := session.value.mine)
      ensures disk.highwater == old(disk).highwater || disk.highwater == Some(n)
      ensures ok ==> disk.highwater == Some(n) && n in session.value.mine
      ensures Faultless() ==> ok
    {
      var f := NextFault();
      if f != Before {
        Perform(Allocate(n));
      } else {
        Perform(Skip(n));
      }
      ok := f == NoFault;
    }

    // Copying is not atomic: the target is created empty and then filled.
    method CopyFile(loc: Location, bytes: Bytes) returns (ok: bool)
      requires Valid() && session.Some? && EnabledIn(disk, session.value, Stage(loc, bytes))
      modifies this
      ensures Valid() && old(steps) <= steps && session == old(session)
      ensures disk == old(disk).(snapshots := disk.snapshots)
      ensures forall l | l in old(disk).snapshots && l != loc ::
                l in disk.snapshots && disk.snapshots[l] == old(disk).snapshots[l]
      ensures ok ==> disk == Written(old(disk), Stage(loc, bytes))
      ensures Faultless() ==> ok
    {
      ok := Attempt(Stage(loc, []));
      if ok {
        ok := Attempt(Stage(loc, bytes));
      }
    }

    // Unlinks an envelope, a lawful step if the session handed out its upload as n.
    method Unlink(name: FileName, ghost n: nat) returns (ok: bool)
      modifies this
      ensures disk == old(disk) || disk == old(disk).(envelopes := old(disk).envelopes - {name})
      ensures ok ==> disk == old(disk).(envelopes := old(disk).envelopes - {name})
      ensures Faultless() ==> ok
      ensures old(Valid()) && old(session).Some? && (name, n) in old(session).value.held ==>
                && Valid() && old(steps) <= steps && session.Some? && session.value.next == old(session).value.next
                && (ok ==> n in session.value.freed)
    {
      hide StateDirectory.ValidFor;
      var f := NextFault();
      if f != Before {
        ghost var lawful := Valid() && session.Some? && EnabledIn(disk, session.value, Discard(name, n));
        if lawful {
          Record(Discard(name, n));
        }
        disk := disk.(envelopes := disk.envelopes - {name});
      }
      ok := f == NoFault;
    }

    // Removes a sequence directory file by file, ignoring errors. The steps are lawful if
    // the session gave up the number.
    method RemoveTree(n: nat)
      modifies this
      ensures old(Valid()) && old(session).Some? && n in old(session).value.freed ==>
                Valid() && old(steps) <= steps && session == old(session)
      ensures disk == old(disk).(snapshots := disk.snapshots)
      ensures disk.snapshots.Keys <= old(disk).snapshots.Keys
      ensures forall l | l in old(disk).snapshots ::
                !(l.InSequence? && l.sequence == n) ==> l in disk.snapshots
      ensures forall l | l in disk.snapshots :: disk.snapshots[l] == old(disk).snapshots[l]
      ensures Faultless() ==> forall l | l in disk.snapshots :: !(l.InSequence? && l.sequence == n)
    {
      hide StateDirectory.Valid;
      var rest := set l | l in disk.snapshots && l.InSequence? && l.sequence == n;
      while rest != {}
        invariant old(Valid()) && old(session).Some? && n in old(session).value.freed ==>
                    Valid() && old(steps) <= steps && session == old(session)
        invariant forall l | l in rest :: l.InSequence? && l.sequence == n
        invariant disk == old(disk).(snapshots := disk.snapshots)
        invariant disk.snapshots.Keys <= old(disk).snapshots.Keys
        invariant forall l | l in old(disk).snapshots ::
                    !(l.InSequence? && l.sequence == n) ==> l in disk.snapshots
        invariant forall l | l in disk.snapshots :: disk.snapshots[l] == old(disk).snapshots[l]
        invariant Faultless() ==> forall l | l in disk.snapshots && l.InSequence? && l.sequence == n :: l in rest
        decreases rest
      {
        var loc :| loc in rest;
        RemoveFile(loc);
        rest := rest - {loc};
      }
    }

    method RemoveFile(loc: Location)
      modifies this
      ensures disk == old(disk) || disk == old(disk).(snapshots := old(disk).snapshots - {loc})
      ensures Faultless() ==> loc !in disk.snapshots
      ensures old(Valid()) && old(session).Some? && loc.InSequence? && loc.sequence in old(session).value.freed ==>
                Valid() && old(steps) <= steps && session == old(session)
    {
      hide StateDirectory.ValidFor;
      var f := NextFault();
      if f != Before {
        ghost var lawful := Valid() && session.Some? && EnabledIn(disk, session.value, Remove(loc));
        if lawful {
          Record(Remove(loc));
        }
        disk := disk.(snapshots := disk.snapshots - {loc});
      }
    }

    // The store reads the directory and goes on from the next number.
    ghost method Begin(next: nat)
      requires Valid() && steps == [] && session.None? && IsNext(disk, next)
      modifies this`session, this`steps
      ensures Valid() && steps == [Open(next)] && session == Some(Session(next, {}, {}, {}))
    {
      OneMore(Open(next));
      session := Some(Session(next, {}, {}, {}));
      steps := steps + [Open(next)];
    }
  }

  /******* The store *******/

  class UploadStateStore {
    const dir: StateDirectory
    var nextSequence: nat

    ghost predicate Valid()
      reads this, dir
    {
      && dir.Valid() && dir.session.Some? && dir.session.value.next == nextSequence
      && Highwater(dir.disk) < nextSequence && ClaimsBelow(dir.disk, nextSequence)
    }

    constructor (dir: StateDirectory)
      requires dir.Valid() && dir.steps == [] && dir.session.None?
      modifies dir
      ensures this.dir == dir && Valid() && IsNext(dir.disk, nextSequence)
      ensures dir.disk == old(dir.disk) && dir.steps == [Open(nextSequence)]
      // above the mark and every number a file has in its name or, failing that, records,
      // and just above one of them
      ensures forall f, n | f in dir.disk.envelopes && Claims(f, dir.disk.envelopes[f], n) :: n < nextSequence
      ensures dir.disk.highwater != None ==> dir.disk.highwater.value < nextSequence
      ensures || nextSequence == 1 || dir.disk.highwater == Some(nextSequence - 1)
              || exists f :: f in dir.disk.envelopes && Claims(f, dir.disk.envelopes[f], nextSequence - 1)
    {
      this.dir := dir;
      new;
      var highest := ScannedSequence(dir.disk);
      var mark := Highwater(dir.disk);
      nextSequence := (if mark < highest then highest else mark) + 1;
      dir.Begin(nextSequence);
    }

    method AllocateSequence() returns (r: Result<nat, Error>)
      requires Valid()
      modifies this`nextSequence, dir
      ensures Valid() && nextSequence == old(nextSequence) + 1 && old(dir.steps) <= dir.steps
      ensures dir.disk == old(dir.disk).(highwater := dir.disk.highwater)
      ensures dir.session.value.held == old(dir.session).value.held
      ensures r.Success? ==>
                r.value == old(nextSequence) && dir.disk.highwater == Some(r.value) && r.value in dir.session.value.mine
      ensures dir.Faultless() ==> r.Success?
    {
      hide StateDirectory.Valid;
      var n := nextSequence;
      nextSequence := n + 1;
      var ok := dir.StoreMark(n);
      r := if ok then Success(n) else Failure(IoError);
    }

    // Snapshots the operations from index 0 on into snapshots/<n>/.
    method SnapshotOperations(ops: seq<PublicationOp>, n: nat, source: Source)
      returns (r: Result<(seq<PublicationOp>, seq<Entry>), Error>)
      requires dir.Valid() && dir.session.Some? && n in dir.session.value.mine
      modifies dir
      ensures dir.Valid() && old(dir.steps) <= dir.steps && dir.session == old(dir.session)
      ensures dir.disk == old(dir.disk).(snapshots := dir.disk.snapshots)
      ensures forall l | l in old(dir.disk).snapshots && !(l.InSequence? && l.sequence == n) ::
                l in dir.disk.snapshots && dir.disk.snapshots[l] == old(dir.disk).snapshots[l]
      ensures r.Success? ==>
                && (forall op | op in ops && op.AddOp? :: op.localPath in source)
                && r.value == (WrittenOps(ops, n), WrittenEntries(ops, n, source))
                && forall i | 0 <= i < |ops| && ops[i].AddOp? ::
                     && SnapshotLocation(n, i, ops[i].localPath) in dir.disk.snapshots
                     && dir.disk.snapshots[SnapshotLocation(n, i, ops[i].localPath)] == source[ops[i].localPath]
      ensures dir.Faultless() && (forall op | op in ops && op.AddOp? :: op.localPath in source) ==> r.Success?
    {
      hide StateDirectory.Valid;
      var rewritten: seq<PublicationOp> := [];
      var entries: seq<Entry> := [];
      for i := 0 to |ops|
        invariant dir.Valid() && old(dir.steps) <= dir.steps && dir.session == old(dir.session)
        invariant dir.disk == old(dir.disk).(snapshots := dir.disk.snapshots)
        invariant forall l | l in old(dir.disk).snapshots && !(l.InSequence? && l.sequence == n) ::
                    l in dir.disk.snapshots && dir.disk.snapshots[l] == old(dir.disk).snapshots[l]
        invariant forall j | 0 <= j < i && ops[j].AddOp? :: ops[j].localPath in source
        invariant rewritten == WrittenOps(ops[..i], n) && entries == WrittenEntries(ops[..i], n, source)
        invariant forall j | 0 <= j < i && ops[j].AddOp? ::
                    && SnapshotLocation(n, j, ops[j].localPath) in dir.disk.snapshots
                    && dir.disk.snapshots[SnapshotLocation(n, j, ops[j].localPath)] == source[ops[j].localPath]
      {
        var op := ops[i];
        var entry: Entry;
        match op {
          case DeleteOp(path) =>
            entry := Entry(Some("delete"), Some(path), None, None, None);
          case AddOp(path, local, _) =>
            if local !in source {
              assert op in ops;
              return Failure(MissingFile(local));
            }
            var target := InSequence(n, OperationFile(i, local.name));
            var ok := dir.CopyFile(target, source[local]);
            if !ok {
              return Failure(IoError);
            }
            entry := Entry(Some("add"), Some(path), Some(local), Some(target),
                           Some(Sha256(dir.disk.snapshots[target])));
            op := AddOp(path, local, Some(target));
        }
        rewritten := rewritten + [op];
        entries := entries + [entry];
        assert ops[..i + 1][..i] == ops[..i];
      }
      assert ops[..|ops|] == ops;
      r := Success((rewritten, entries));
    }

    method CleanupFailedSubmission(n: nat)
      requires dir.Valid() && dir.session.Some? && EnabledIn(dir.disk, dir.session.value, Discard(Padded(n), n))
      modifies dir
      ensures dir.Valid() && old(dir.steps) <= dir.steps
      ensures dir.session.Some? && dir.session.value.next == old(dir.session).value.next
      ensures dir.disk.highwater == old(dir.disk.highwater)
      ensures dir.disk.envelopes == old(dir.disk).envelopes ||
                dir.disk.envelopes == old(dir.disk).envelopes - {Padded(n)}
      ensures forall l | l in old(dir.disk).snapshots && !(l.InSequence? && l.sequence == n) ::
                l in dir.disk.snapshots && dir.disk.snapshots[l] == old(dir.disk).snapshots[l]
    {
      hide StateDirectory.Valid;
      var ok := dir.Attempt(Discard(Padded(n), n));
      if ok {
        dir.RemoveTree(n);
      }
    }

    method CommitEnvelope(n: nat, doc: Document) returns (ok: bool)
      requires dir.Valid() && dir.session.Some? && n in dir.session.value.mine && Padded(n) !in dir.disk.envelopes
      requires 1 <= n <= Highwater(dir.disk) && IsCurrent(doc) && doc.sequence == Some(n) && doc.message.Some?
      requires Backed(dir.disk, doc, n)
      modifies dir
      ensures dir.Valid() && old(dir.steps) <= dir.steps
      ensures dir.session.Some? && dir.session.value.next == old(dir.session).value.next
      ensures dir.disk == old(dir.disk) || dir.disk == old(dir.disk).(envelopes := dir.disk.envelopes)
      ensures if Padded(n) in dir.disk.envelopes then
                && dir.disk.envelopes == old(dir.disk).envelopes[Padded(n) := doc]
                && dir.session.value.held == old(dir.session).value.held + {(Padded(n), n)}
              else !ok && dir.disk == old(dir.disk) && dir.session == old(dir.session)
      ensures dir.Faultless() ==> ok
    {
      hide StateDirectory.Valid, Backed;
      ok := dir.Attempt(Commit(n, doc));
    }

    method Persist(ops: seq<PublicationOp>, message: string, source: Source) returns (r: Result<StoredUpload, Error>)
      requires Valid()
      modifies this`nextSequence, dir
      ensures Valid() && nextSequence == old(nextSequence) + 1 && old(dir.steps) <= dir.steps
      ensures r.Success? ==>
                var n := old(nextSequence);
                && (forall op | op in ops && op.AddOp? :: op.localPath in source)
                && dir.disk.highwater == Some(n)
                && Padded(n) !in old(dir.disk).envelopes
                && dir.disk.envelopes
                   == old(dir.disk).envelopes[Padded(n) := Envelope(n, message, WrittenEntries(ops, n, source))]
                && r.value == StoredUpload(WrittenOps(ops, n), message, Padded(n),
                                           if exists op :: op in ops && op.AddOp? then Some(SequenceDir(n)) else None,
                                           Shas(WrittenEntries(ops, n, source)))
      ensures r.Failure? ==>
                dir.disk.envelopes - {Padded(old(nextSequence))} == old(dir.disk).envelopes
      ensures dir.Faultless() && (forall op | op in ops && op.AddOp? :: op.localPath in source) ==> r.Success?
      ensures r.Success? ==> HandedOut(dir.session.value, r.value)
      // each operation in its place, with the hash of its own snapshot
      ensures r.Success? ==>
                && |r.value.ops| == |ops| && Hashed(dir.disk, r.value)
                && forall i | 0 <= i < |ops| ::
                     && r.value.ops[i].pathInRepo == ops[i].pathInRepo && r.value.ops[i].AddOp? == ops[i].AddOp?
                     && (ops[i].AddOp? ==>
                           && r.value.ops[i].localPath == ops[i].localPath
                           && r.value.shas[i] == Some(Sha256(source[ops[i].localPath])))
      // the envelope is backed by its snapshots, whatever was at their places before
      ensures r.Success? ==>
                forall i | 0 <= i < |ops| && ops[i].AddOp? ::
                  && SnapshotLocation(old(nextSequence), i, ops[i].localPath) in dir.disk.snapshots
                  && dir.disk.snapshots[SnapshotLocation(old(nextSequence), i, ops[i].localPath)] ==
                      source[ops[i].localPath]
      // nothing outside the directory of the new number is touched
      ensures forall l | l in old(dir.disk).snapshots && !(l.InSequence? && l.sequence == old(nextSequence)) ::
                l in dir.disk.snapshots && dir.disk.snapshots[l] == old(dir.disk).snapshots[l]
    {
      hide StateDirectory.Valid, WrittenEntries, WrittenOps, Written, Remembered, Backed, Hashed, Shas;
      hide SnapshotLocation;
      ghost var before := dir.disk;
      var reserved := AllocateSequence();
      if reserved.Failure? {
        assert before.envelopes - {Padded(old(nextSequence))} == before.envelopes;
        return Failure(reserved.error);
      }
      var n := reserved.value;
      assert Padded(n) !in before.envelopes;
      var snapshotted := SnapshotOperations(ops, n, source);
      if snapshotted.Failure? {
        CleanupFailedSubmission(n);
        assert dir.disk.envelopes == before.envelopes - {Padded(n)} == before.envelopes;
        return Failure(snapshotted.error);
      }
      var (rewritten, entries) := snapshotted.value;
      var doc := Envelope(n, message, entries);
      WrittenIsBacked(dir.disk, ops, n, message, source);
      var ok := CommitEnvelope(n, doc);
      if !ok {
        CleanupFailedSubmission(n);
        assert dir.disk.envelopes - {Padded(n)} == before.envelopes - {Padded(n)} == before.envelopes;
        return Failure(IoError);
      }
      var snapshotDir := if exists op :: op in ops && op.AddOp? then Some(SequenceDir(n)) else None;
      r := Success(StoredUpload(rewritten, message, Padded(n), snapshotDir, Shas(entries)));
      assert Handed(dir.session.value, Padded(n), snapshotDir, n);
      WrittenIsBacked(dir.disk, ops, n, message, source);
      WrittenIsHashed(dir.disk, ops, n, message, source, snapshotDir);
      WrittenInPlace(ops, n, source);
    }

    method UpgradeLegacyOperations(entries: seq<Entry>, n: nat, source: Source) returns (r: Result<seq<Entry>, Error>)
      requires dir.Valid() && dir.session.Some? && n in dir.session.value.mine
      modifies dir
      ensures dir.Valid() && old(dir.steps) <= dir.steps && dir.session == old(dir.session)
      ensures r.Success? ==> CanUpgrade(entries, source)
      ensures dir.Faultless() && CanUpgrade(entries, source) ==> r.Success?
      ensures dir.disk == old(dir.disk).(snapshots := dir.disk.snapshots)
      ensures r.Success? ==>
                && |r.value| == |entries|
                && forall i | 0 <= i < |entries| ::
                     && EntryUpgrade(entries[i], r.value[i])
                     && EntryBacked(dir.disk, r.value[i], n)
                     && RestoreEntry(r.value[i], n).Success?
                     && (entries[i].action == Some("add") ==>
                           entries[i].localPath.Some? && entries[i].localPath.value in source
                           && r.value[i].sha == Some(Sha256(source[entries[i].localPath.value])))
    {
      hide StateDirectory.Valid;
      var upgraded: seq<Entry> := [];
      for i := 0 to |entries|
        invariant dir.Valid() && old(dir.steps) <= dir.steps && dir.session == old(dir.session)
        invariant dir.disk == old(dir.disk).(snapshots := dir.disk.snapshots)
        invariant |upgraded| == i
        invariant forall k | 0 <= k < i :: CanUpgradeEntry(entries[k], source)
        invariant forall k | 0 <= k < i ::
                    && EntryUpgrade(entries[k], upgraded[k])
                    && EntryBacked(dir.disk, upgraded[k], n)
                    && RestoreEntry(upgraded[k], n).Success?
                    && (entries[k].action == Some("add") ==>
                          && entries[k].localPath.Some? && entries[k].localPath.value in source
                          && upgraded[k].snapshotPath == Some(SnapshotLocation(n, k, entries[k].localPath.value))
                          && upgraded[k].sha == Some(Sha256(source[entries[k].localPath.value])))
      {
        var e := entries[i];
        assert CanUpgrade(entries, source) ==> CanUpgradeEntry(entries[i], source);
        if e.action.None? || e.pathInRepo.None? {
          return Failure(MissingField);
        }
        var entry := Entry(e.action, e.pathInRepo, e.localPath, None, None);
        if e.action.value != "add" {
          if e.localPath.Some? || e.action.value != "delete" {
            return Failure(InvalidOperation);
          }
        } else {
          if e.localPath.None? {
            return Failure(InvalidOperation);
          }
          var local := e.localPath.value;
          if local !in source {
            return Failure(MissingFile(local));
          }
          var target := SnapshotLocation(n, i, local);
          var ok := dir.CopyFile(target, source[local]);
          if !ok {
            return Failure(IoError);
          }
          entry := entry.(snapshotPath := Some(target), sha := Some(Sha256(dir.disk.snapshots[target])));
        }
        upgraded := upgraded + [entry];
      }
      r := Success(upgraded);
    }

    method RetireLegacy(name: FileName, n: nat) returns (ok: bool)
      requires dir.Valid() && dir.session.Some? && (Padded(n), n) in dir.session.value.held
      requires name in dir.disk.envelopes && Padded(n) in dir.disk.envelopes
      requires UpgradeOf(dir.disk.envelopes[name], dir.disk.envelopes[Padded(n)])
      modifies dir
      ensures dir.Valid() && old(dir.steps) <= dir.steps && dir.session == old(dir.session)
      ensures dir.disk == old(dir.disk) || dir.disk == old(dir.disk).(envelopes := old(dir.disk).envelopes - {name})
      ensures ok ==> dir.disk == old(dir.disk).(envelopes := old(dir.disk).envelopes - {name})
      ensures dir.Faultless() ==> ok
    {
      hide StateDirectory.Valid, UpgradeOf;
      ok := dir.Attempt(Retire(name, n));
    }

    method UpgradeLegacyEnvelope(name: FileName, source: Source) returns (r: Result<Job, Error>)
      requires Valid() && name in dir.disk.envelopes && IsLegacy(dir.disk.envelopes[name])
      modifies this`nextSequence, dir
      ensures Valid() && nextSequence == old(nextSequence) + 1 && old(dir.steps) <= dir.steps
      ensures forall f | f in old(dir.disk).envelopes && f != name ::
                f in dir.disk.envelopes && dir.disk.envelopes[f] == old(dir.disk).envelopes[f]
      ensures r.Success? ==>
                && Upgraded(dir.disk, r.value) && IsCurrent(r.value.doc)
                && r.value.name == Padded(r.value.sequence) && r.value.name !in old(dir.disk).envelopes
                && (r.value.name, r.value.sequence) in dir.session.value.held
      ensures var n, doc := old(nextSequence), old(dir.disk).envelopes[name];
              && (r.Success? ==>
                    && r.value.sequence == n && r.value.name == Padded(n)
                    && UpgradeOf(doc, r.value.doc)
                    && dir.disk.envelopes == old(dir.disk).envelopes[Padded(n) := r.value.doc] - {name})
              && (r.Failure? ==>
                    && dir.disk.envelopes.Keys <= old(dir.disk).envelopes.Keys + {Padded(n)}
                    && (name in dir.disk.envelopes ==> dir.disk.envelopes[name] == doc)
                    && ((name in dir.disk.envelopes && dir.disk.envelopes[name] == doc)
                        || (Padded(n) in dir.disk.envelopes && UpgradeOf(doc, dir.disk.envelopes[Padded(n)]))))
      ensures var doc := old(dir.disk).envelopes[name];
              && (r.Success? ==> CanUpgrade(doc.ops.value, source))
              && (dir.Faultless() && CanUpgrade(doc.ops.value, source) ==> r.Success?)
    {
      hide StateDirectory.Valid, RestoreEntry, EntryUpgrade, EntryBacked, Backed, UpgradeOf, Restore, CanUpgrade,
          Classify;
      hide EnabledIn, Written, Remembered;
      ghost var before := dir.disk.envelopes;
      var doc := dir.disk.envelopes[name];
      var reserved := AllocateSequence();
      ghost var next := old(nextSequence);
      assert Padded(next) !in before;
      if reserved.Failure? {
        return Failure(reserved.error);
      }
      var n := reserved.value;
      var upgraded := UpgradeLegacyOperations(doc.ops.value, n, source);
      if upgraded.Failure? {
        return Failure(upgraded.error);
      }
      var replacement := Envelope(n, doc.message.value, upgraded.value);
      UpgradedEnvelope(dir.disk, doc, n, upgraded.value);
      var ok := CommitEnvelope(n, replacement);
      if !ok {
        return Failure(IoError);
      }
      ok := RetireLegacy(name, n);
      if !ok {
        return Failure(IoError);
      }
      r := Success(Job(n, Padded(n), replacement));
    }

    // A refused upgrade is taken back; its legacy file is already gone.
    method TakeBackUpgrade(j: Job)
      requires Valid() && j.name == Padded(j.sequence) && (j.name, j.sequence) in dir.session.value.held
      modifies dir
      ensures Valid() && old(dir.steps) <= dir.steps
      ensures dir.disk.highwater == old(dir.disk.highwater)
      ensures dir.disk.envelopes == old(dir.disk).envelopes || dir.disk.envelopes == old(dir.disk).envelopes - {j.name}
      ensures forall l | l in old(dir.disk).snapshots && !(l.InSequence? && l.sequence == j.sequence) ::
                l in dir.disk.snapshots && dir.disk.snapshots[l] == old(dir.disk).snapshots[l]
      // this takes the snapshots of any pending file whose payload has the number
      ensures dir.Faultless() ==>
                && dir.disk.envelopes == old(dir.disk).envelopes - {j.name}
                && forall l | l in dir.disk.snapshots :: !(l.InSequence? && l.sequence == j.sequence)
    {
      hide StateDirectory.Valid;
      var ok := dir.Attempt(TakeBack(j.sequence));
      if ok {
        dir.RemoveTree(j.sequence);
      }
    }

    // Upgrades each legacy file in turn; a failed one is recorded and skipped. The file
    // at position i is given the number i places on. Without file errors, the upgrade is
    // refused exactly if some file that can be upgraded is given a number already seen,
    // and then that file's job is in no envelope, and the file that has the number is left
    // without snapshots.
    method UpgradePendingLegacy(legacy: seq<FileName>, seen: set<nat>, source: Source)
      returns (r: Result<(seq<Job>, seq<(FileName, Error)>), Error>)
      requires Valid()
      requires forall f | f in legacy :: f in dir.disk.envelopes && IsLegacy(dir.disk.envelopes[f])
      requires DistinctNames(legacy)
      modifies this`nextSequence, dir
      ensures Valid() && old(nextSequence) <= nextSequence && old(dir.steps) <= dir.steps
      ensures r.Failure? ==> exists i :: Refused(old(dir.disk), legacy, old(nextSequence), seen, source, i)
      ensures dir.Faultless() && (exists i :: Refused(old(dir.disk), legacy, old(nextSequence), seen, source, i)) ==>
                r.Failure?
      ensures dir.Faultless() && r.Failure? ==>
                exists i :: Refused(old(dir.disk), legacy, old(nextSequence), seen, source, i)
                            && Lost(old(dir.disk), dir.disk, legacy, old(nextSequence), i)
      ensures Untouched(old(dir.disk), dir.disk)
      ensures r.Success? ==>
                && nextSequence == old(nextSequence) + |legacy|
                && UpgradePhaseDone(old(dir.disk), dir.disk, legacy, old(nextSequence), r.value.0, r.value.1)
                && forall j | j in r.value.0 :: j.sequence !in seen
    {
      hide Restore, UpgradeOf, RestoreEntry, Upgraded, StateDirectory.Valid, UploadStateStore.Valid, CanUpgrade,
          Refused, Lost;
      hide IsLegacy, IsCurrent, Untouched, OnlyUpgrades;
      NothingUpgraded(dir.disk, nextSequence);
      ghost var before, next := dir.disk, nextSequence;
      var upgraded: seq<Job>, failures: seq<(FileName, Error)> := [], [];
      for i := 0 to |legacy|
        invariant Valid() && nextSequence == next + i && old(dir.steps) <= dir.steps
        invariant Untouched(before, dir.disk)
        invariant forall k | i <= k < |legacy| ::
                    legacy[k] in dir.disk.envelopes && dir.disk.envelopes[legacy[k]] == before.envelopes[legacy[k]]
        invariant |upgraded| + |failures| == i
        invariant Ascending(upgraded)
        invariant forall j | j in upgraded ::
                    Upgraded(dir.disk, j) && next <= j.sequence < nextSequence && j.sequence !in seen
        invariant forall k | 0 <= k < i ::
            JobOrFailure(before.envelopes[legacy[k]], legacy[k], next + k, upgraded, failures)
        invariant dir.Faultless() ==> forall k | 0 <= k < i :: !Refused(before, legacy, next, seen, source, k)
        invariant OnlyUpgrades(before, dir.disk, next, i)
      {
        ghost var jobs, skipped, entry := upgraded, failures, dir.disk;
        var upgrade := UpgradeLegacyEnvelope(legacy[i], source);
        UpgradedStay(entry, dir.disk, legacy[i], upgraded);
        StillUntouched(before, entry, dir.disk, legacy[i]);
        RefusedIs(before, legacy, next, seen, source, i);
        OneMoreUpgrade(before, entry, dir.disk, next, i, legacy[i]);
        if upgrade.Failure? {
          failures := failures + [(legacy[i], upgrade.error)];
          assert failures[|skipped|].0 == legacy[i];
        } else {
          var job := upgrade.value;
          if job.sequence in seen {
            assert Padded(job.sequence) !in entry.envelopes;
            ghost var mid := dir.disk;
            TakeBackUpgrade(job);
            StillUntouched(before, entry, dir.disk, legacy[i]);
            if dir.Faultless() {
              TakenBackIsLost(before, mid, dir.disk, legacy, next, i);
            }
            return Failure(DuplicateSequence(job.sequence));
          }
          upgraded := upgraded + [job];
          assert upgraded[|jobs|] == job;
        }
        forall k | 0 <= k < i + 1
          ensures JobOrFailure(before.envelopes[legacy[k]], legacy[k], next + k, upgraded, failures)
        {
          if k < i {
            assert JobOrFailure(before.envelopes[legacy[k]], legacy[k], next + k, jobs, skipped);
            StillJobOrFailure(before.envelopes[legacy[k]], legacy[k], next + k, jobs, skipped, upgraded, failures);
          }
        }
      }
      RefusedInRange(before, legacy, next, seen, source);
      r := Success((upgraded, failures));
    }

    // Files in listing order in, jobs in sequence order out. Without file errors it succeeds
    // exactly on a directory it accepts where nothing stops it, and a refused legacy job is
    // lost. A directory that only ever held legacy files and the store's own always resumes.
    method ResumePending(listing: seq<FileName>, source: Source) returns (r: Result<Resumed, Error>)
      requires Valid() && Lists(listing, dir.disk)
      modifies this`nextSequence, dir
      ensures Valid() && old(dir.steps) <= dir.steps
      ensures Untouched(old(dir.disk), dir.disk)
      ensures !Resumable(old(dir.disk)) ==> r.Failure? && dir.disk == old(dir.disk)
      ensures Resumable(old(dir.disk)) && r.Failure? ==> Stops(old(dir.disk), listing, old(nextSequence), source)
      ensures dir.Faultless() ==>
                (r.Success? <==> Resumable(old(dir.disk)) && !Stops(old(dir.disk), listing, old(nextSequence), source))
      ensures Resumable(old(dir.disk)) && AllBelow(old(dir.disk), old(nextSequence)) && MessagesThere(old(dir.disk)) ==>
                r.Success?
      ensures StoreNumbered(old(dir.disk)) ==> r.Success? && StoreNumbered(dir.disk)
      // exactly the current files that can be read are handed out, as what they say, and with
      // the hashes of their snapshots where those are there
      ensures r.Success? ==> forall u | u in r.value.uploads :: ReadFrom(dir.disk, u)
      ensures r.Success? ==>
                forall f, n: nat | Pending(old(dir.disk), f, n) ::
                  Readable(Job(n, f, old(dir.disk).envelopes[f]))
                  <==> exists u :: u in r.value.uploads && Reads(u, Job(n, f, old(dir.disk).envelopes[f]))
      // what is handed out, the store remembers
      ensures r.Success? ==> forall u | u in r.value.uploads :: HandedOut(dir.session.value, u)
      ensures r.Success? ==>
                && nextSequence == old(nextSequence) + |LegacyNames(old(dir.disk), listing)|
                && ResumeOutcome(old(dir.disk), dir.disk, LegacyNames(old(dir.disk), listing), old(nextSequence),
                                 r.value.uploads, r.value.failures)
      ensures var before, legacy := old(dir.disk), LegacyNames(old(dir.disk), listing);
              var seen := Sequences(CurrentJobs(before, listing));
              dir.Faultless() && Resumable(before) &&
                  (exists i :: Refused(before, legacy, old(nextSequence), seen, source, i)) ==>
                exists i :: Refused(before, legacy, old(nextSequence), seen, source, i)
                            && Lost(before, dir.disk, legacy, old(nextSequence), i)
    {
      hide Restore, UpgradeOf, SortJobs, ResumeOutcome, RestoredUploads, FailedRestores, Resumable, CurrentJobs;
      hide LegacyNames, MessagesThere, AllBelow, IsJob, JobOrFailure, Upgraded, Classify, StoreNumbered, HandedOut,
          Sequences;
      hide Refused, Lost, Raises, StateDirectory.Valid;
      ghost var before, next := dir.disk, nextSequence;
      StoreNumberedResumes(before, next);
      if AllBelow(before, next) {
        NothingStops(before, listing, next, source);
      }
      var pending := PendingEnvelopes(dir.disk, listing);
      if pending.Failure? {
        return Failure(pending.error);
      }
      var (current, legacy, seen) := pending.value;
      ListedFiles(before, listing);
      LegacyNamesAre(before, listing);
      ResumableIsDistinct(before);
      HandOutAll();
      ghost var k := |dir.steps|;
      ghost var handed := dir.steps;
      var upgrade := UpgradePendingLegacy(legacy, seen, source);
      if upgrade.Failure? {
        return Failure(upgrade.error);
      }
      var (upgraded, skipped) := upgrade.value;
      var jobs := SortJobs(current + upgraded);
      SeparateSequences(current, upgraded, seen);
      ResumeOutcomeHolds(before, dir.disk, listing, next, upgraded, skipped);
      RaisingJobs(before, dir.disk, current, upgraded);
      var restored := RestoreJobs(jobs, skipped);
      if restored.Failure? {
        return Failure(restored.error);
      }
      r := Success(Resumed(restored.value.0, restored.value.1, |jobs|));
      if StoreNumbered(before) {
        dir.StaysStoreNumbered();
      }
      ResumedAreRead(before, dir.disk, legacy, next, r.value.uploads, r.value.failures);
      assert dir.steps[..k] == handed;
      dir.AllHeldSince(k);
      ResumedAreHandedOut(dir.World(), before, legacy, next, r.value.uploads, r.value.failures);
    }

    // The jobs read from the directory are the store's to finish from here on.
    ghost method HandOutAll()
      requires Valid() && DistinctPayloads(dir.disk)
      modifies dir`session, dir`steps
      ensures Valid() && dir.disk == old(dir.disk) && old(dir.steps) <= dir.steps && |dir.steps| >= 1
      ensures dir.session.value.held >= old(dir.session).value.held
      ensures AllHeld(Play(Closed(dir.origin), dir.steps))
    {
      ResumeHoldsAll(dir.World());
      dir.Record(Resume);
    }

    // Unlinks a finished upload's envelope and removes its snapshots: lawful steps for any
    // upload that the store handed out. Without file errors, another pending upload that was
    // complete stays so exactly if it does not look for its snapshots there too.
    method Delete(statePath: FileName, snapshotDir: Option<SnapshotDir>) returns (r: Result<(), Error>)
      requires Valid()
      modifies dir
      ensures (exists n: nat :: Handed(old(dir.session).value, statePath, snapshotDir, n)) ==>
                Valid() && old(dir.steps) <= dir.steps
      ensures r.Success? ==> dir.disk.envelopes == old(dir.disk).envelopes - {statePath}
      ensures dir.disk.envelopes - {statePath} == old(dir.disk).envelopes - {statePath}
      ensures dir.disk.highwater == old(dir.disk.highwater)
      ensures snapshotDir.Some? && snapshotDir.value.OutsideDir? ==>
                r.Failure? && dir.disk.snapshots == old(dir.disk).snapshots
      ensures forall l | l in old(dir.disk).snapshots
                         && !(snapshotDir.Some? && snapshotDir.value.SequenceDir? && l.InSequence?
                              && l.sequence == snapshotDir.value.sequence) ::
                l in dir.disk.snapshots && dir.disk.snapshots[l] == old(dir.disk).snapshots[l]
      ensures dir.Faultless() && snapshotDir.Some? && snapshotDir.value.SequenceDir? ==>
                && r.Success?
                && (forall l | l in dir.disk.snapshots :: !(l.InSequence? && l.sequence == snapshotDir.value.sequence))
                && forall f, m: nat | f != statePath && Kept(old(dir.disk), f, m) ::
                     Kept(dir.disk, f, m) <==> !Shares(old(dir.disk), statePath, snapshotDir.value.sequence, f)
    {
      hide StateDirectory.Valid, Kept, Shares;
      ghost var number: nat := 0;
      if exists n: nat :: Handed(dir.session.value, statePath, snapshotDir, n) {
        number :| Handed(dir.session.value, statePath, snapshotDir, number);
      }
      var ok := dir.Unlink(statePath, number);
      if !ok {
        return Failure(IoError);
      }
      if snapshotDir.None? {
        return Success(());
      }
      match snapshotDir.value {
        case OutsideDir(_) =>
          return Failure(SnapshotOutside);
        case SequenceDir(n) =>
          dir.RemoveTree(n);
          if dir.Faultless() {
            forall f, m: nat | f != statePath && Kept(old(dir.disk), f, m)
              ensures Kept(dir.disk, f, m) <==> !Shares(old(dir.disk), statePath, n, f)
            {
              OthersAfterDelete(old(dir.disk), dir.disk, statePath, n, f, m);
            }
          }
          return Success(());
      }
    }
  }

  // The highest sequence any file lays claim to.
  ghost predicate Claims(f: FileName, doc: Document, n: int) {
    if f.Named? then doc.Json? && doc.sequence == Some(n) else f.number == n
  }

  method ScannedSequence(d: Disk) returns (highest: nat)
    ensures ClaimsBelow(d, highest + 1)
    ensures highest == 0 || exists f :: f in d.envelopes && highest == SequenceOfFile(f, d.envelopes[f])
  {
    highest := 0;
    var rest := d.envelopes.Keys;
    while rest != {}
      invariant rest <= d.envelopes.Keys
      invariant forall f | f in d.envelopes && f !in rest :: SequenceOfFile(f, d.envelopes[f]) <= highest
      invariant highest == 0 || exists f :: f in d.envelopes && highest == SequenceOfFile(f, d.envelopes[f])
      decreases rest
    {
      var f :| f in rest;
      var claimed := SequenceOfFile(f, d.envelopes[f]);
      if highest < claimed {
        highest := claimed;
      }
      rest := rest - {f};
    }
  }

  /******* Whole runs *******/

  function PersistedUpload(ops: seq<PublicationOp>, message: string, n: nat, written: Source): StoredUpload {
    StoredUpload(WrittenOps(ops, n), message, Padded(n), Some(SequenceDir(n)), Shas(WrittenEntries(ops, n, written)))
  }

  // From a directory the store numbered, every point of every run is orderly.
  lemma StoreNumberedRuns(d: Disk, steps: seq<Step>, k: nat)
    requires Consistent(d) && StoreNumbered(d) && Lawful(Closed(d), steps) && k <= |steps|
    ensures var w := Play(Closed(d), steps[..k]);
            Consistent(w.disk) && StoreNumbered(w.disk) && Orderly(w)
  {
    hide Consistent, StoreNumbered, Claimed, AllBelowAtOpens;
    StoreNumberedIsClaimed(d);
    ClaimedIsBelow(Closed(d), steps);
    EveryStateConsistent(Closed(d), steps, k);
    CrashIsLawful(Closed(d), steps, k);
    EveryStateStoreNumbered(Closed(d), steps[..k]);
  }

  // An upload committed at some point of such a run is a job of the directory at its end.
  lemma CommittedUploadStays(d: Disk, steps: seq<Step>, k: nat, ops: seq<PublicationOp>, message: string, n: nat,
                             written: Source)
    requires Consistent(d) && StoreNumbered(d) && Lawful(Closed(d), steps)
    requires k < |steps| && steps[k] == Commit(n, Envelope(n, message, WrittenEntries(ops, n, written)))
    requires Unremoved(Padded(n), steps[k + 1..])
    ensures var j := Job(n, Padded(n), Envelope(n, message, WrittenEntries(ops, n, written)));
            IsJob(Play(Closed(d), steps).disk, j) && RestoreJob(j) == Success(PersistedUpload(ops, message, n, written))
    ensures Hashed(Play(Closed(d), steps).disk, PersistedUpload(ops, message, n, written))
  {
    hide Consistent, StoreNumbered, WrittenEntries, WrittenOps, Restore, Backed, Lawful, Play, Secure, HeldArePending;
    hide Hashed;
    StoreNumberedRuns(d, steps, k + 1);
    var w := Play(Closed(d), steps[..k + 1]);
    PlayOne(Closed(d), steps, k);
    assert Pending(w.disk, Padded(n), n);
    assert Backed(w.disk, w.disk.envelopes[Padded(n)], n) by { IsBacked(w.disk, Padded(n), n); }
    SuffixIsLawful(Closed(d), steps, k + 1);
    PersistedUploadRestores(w, steps[k + 1..], ops, message, n, written);
  }

  lemma IsBacked(d: Disk, f: FileName, n: nat)
    requires Consistent(d) && Pending(d, f, n)
    ensures Backed(d, d.envelopes[f], n)
  {}

  lemma JobIsResumed(before: Disk, after: Disk, legacy: seq<FileName>, next: nat, uploads: seq<StoredUpload>,
                     failures: seq<(FileName, Error)>, j: Job)
    requires ResumeOutcome(before, after, legacy, next, uploads, failures)
    requires IsJob(before, j) && RestoreJob(j).Success?
    ensures RestoreJob(j).value in uploads
  {
    hide LegacyOutcomes, Restore;
    assert Outcome(j, uploads, failures);
  }

  /**
   The theorem the queue is for. Whatever lawful steps the stores over a directory took,
   with crashes and restarts anywhere among them: an upload that was persisted and not
   unlinked since is among the uploads that a restart resumes.
   */
  method ResumeAfterRestart(ghost d: Disk, ghost steps: seq<Step>, ghost k: nat, ghost ops: seq<PublicationOp>,
                            ghost message: string, ghost n: nat, ghost written: Source,
                            left: Disk, faults: nat -> Fault, listing: seq<FileName>, source: Source)
    returns (r: Result<Resumed, Error>, after: Disk)
    requires Consistent(d) && StoreNumbered(d) && Lawful(Closed(d), steps) && left == Play(Closed(d), steps).disk
    requires k < |steps| && steps[k] == Commit(n, Envelope(n, message, WrittenEntries(ops, n, written)))
    requires Unremoved(Padded(n), steps[k + 1..])
    requires Lists(listing, left)
    ensures r.Success? && PersistedUpload(ops, message, n, written) in r.value.uploads
    ensures Hashed(after, PersistedUpload(ops, message, n, written))
    ensures forall u | u in r.value.uploads :: ReadFrom(after, u) && AddsHashed(after, u)
  {
    hide Consistent, StoreNumbered, Lawful, Play, IsJob, WrittenEntries, PersistedUpload, RestoreJob, Unremoved;
    hide ResumeOutcome, HandedOut, Stops, Refused, Lost, Resumable, MessagesThere, AllBelow, Untouched, Enabled;
    ghost var j := Job(n, Padded(n), Envelope(n, message, WrittenEntries(ops, n, written)));
    CommittedUploadStays(d, steps, k, ops, message, n, written);
    assert steps[..|steps|] == steps;
    StoreNumberedRuns(d, steps, |steps|);
    var dir := new StateDirectory(left, faults);
    var store := new UploadStateStore(dir);
    ghost var next := store.nextSequence;
    r := store.ResumePending(listing, source);
    after := dir.disk;
    JobIsResumed(left, dir.disk, LegacyNames(left, listing), next, r.value.uploads, r.value.failures, j);
    StoreNumberedIsBelow(left, next);
    dir.KeepsConsistent();
    StillJob(left, after, j);
    StillHashed(after, ops, message, n, written);
    AllAreHashed(after, r.value.uploads);
  }

  lemma StoreNumberedIsBelow(d: Disk, next: nat)
    requires StoreNumbered(d) && ClaimsBelow(d, next)
    ensures AllBelow(d, next)
  {}

  lemma StillJob(before: Disk, after: Disk, j: Job)
    requires Untouched(before, after) && IsJob(before, j)
    ensures j.sequence >= 1 && j.name in after.envelopes && after.envelopes[j.name] == j.doc
  {}

  lemma StillHashed(d: Disk, ops: seq<PublicationOp>, message: string, n: nat, written: Source)
    requires Consistent(d) && n >= 1 && Padded(n) in d.envelopes
    requires d.envelopes[Padded(n)] == Envelope(n, message, WrittenEntries(ops, n, written))
    ensures Hashed(d, PersistedUpload(ops, message, n, written))
  {
    hide WrittenEntries, WrittenOps, Shas, Backed, Hashed;
    assert Pending(d, Padded(n), n);
    WrittenIsHashed(d, ops, n, message, written, Some(SequenceDir(n)));
  }

  lemma AllAreHashed(d: Disk, uploads: seq<StoredUpload>)
    requires Consistent(d) && forall u | u in uploads :: ReadFrom(d, u)
    ensures forall u | u in uploads :: AddsHashed(d, u)
  {
    hide Reads, AddsHashed, Backed;
    forall u | u in uploads ensures AddsHashed(d, u) {
      var j :| IsJob(d, j) && Reads(u, j) && (Kept(d, j.name, j.sequence) ==> AddsHashed(d, u));
      assert Pending(d, j.name, j.sequence);
    }
  }

  /******* Files whose name and payload disagree *******/

  // A file called 1 whose payload says 2, with one added file and its snapshot.
  const MISNUMBERED: FileName := Spelled(1, "1")
  const ITS_SNAPSHOT: Location := InSequence(2, OperationFile(0, "a"))
  const ITS_ENTRY: Entry :=
      Entry(Some("add"), Some("a"), Some(LocalPath("", "a")), Some(ITS_SNAPSHOT), Some(Sha256([])))
  const CLAIMS_TWO: Document := Envelope(2, "", [ITS_ENTRY])
  const OLD_JOB: Document := Json(None, None, Some("old"), Some([]))

  lemma MisnumberedIsKept(d: Disk)
    requires MISNUMBERED in d.envelopes && d.envelopes[MISNUMBERED] == CLAIMS_TWO
    requires ITS_SNAPSHOT in d.snapshots && d.snapshots[ITS_SNAPSHOT] == []
    ensures Kept(d, MISNUMBERED, 2)
  {
    assert EntryBacked(d, ITS_ENTRY, 2);
  }

  lemma ItHasAdd()
    ensures HasAdd(CLAIMS_TWO)
  {
    assert ITS_ENTRY in Entries(CLAIMS_TWO);
  }

  // Nothing is left of the snapshots of a file that has some.
  lemma Stripped(d: Disk, f: FileName, n: nat)
    requires Pending(d, f, n) && HasAdd(d.envelopes[f])
    requires forall l | l in d.snapshots :: !(l.InSequence? && l.sequence == n)
    ensures !Kept(d, f, n)
  {
    var entries := Entries(d.envelopes[f]);
    var i :| 0 <= i < |entries| && entries[i].action == Some("add");
    assert !EntryBacked(d, entries[i], n);
  }

  lemma MisnumberedUpload(d: Disk, source: Source)
    requires d == Disk(None, map[MISNUMBERED := CLAIMS_TWO], map[ITS_SNAPSHOT := []])
    ensures Lists([MISNUMBERED], d) && Resumable(d)
    ensures LegacyNames(d, [MISNUMBERED]) == [] && !Stops(d, [MISNUMBERED], 2, source)
    ensures Kept(d, MISNUMBERED, 2)
  {
    MisnumberedIsKept(d);
    NothingListed(d, [MISNUMBERED]);
    OneMoreListed(d, [MISNUMBERED], 0);
    assert LegacyNames(d, [MISNUMBERED]) == [];
    forall j | IsJob(d, j) ensures !Raises(j) { MessageIsThere(j); }
  }

  lemma MisnumberedIsHandedOut(d: Disk, after: Disk, uploads: seq<StoredUpload>, failures: seq<(FileName, Error)>)
    requires d == Disk(None, map[MISNUMBERED := CLAIMS_TWO], map[ITS_SNAPSHOT := []])
    requires ResumeOutcome(d, after, [], 2, uploads, failures)
    ensures |uploads| == 1 && uploads[0].statePath == MISNUMBERED && uploads[0].snapshotDir == Some(SequenceDir(2))
  {
    var j := Job(2, MISNUMBERED, CLAIMS_TWO);
    assert [ITS_ENTRY][..0] == [];
    assert RestoreEntries([ITS_ENTRY], 2).Success?;
    assert RestoreJob(j).Success?;
    JobIsResumed(d, after, [], 2, uploads, failures, j);
    assert |d.envelopes| == 1;
  }

  lemma NewUploadHasAdd(ops: seq<PublicationOp>, n: nat, message: string, source: Source)
    requires exists op :: op in ops && op.AddOp?
    ensures HasAdd(Envelope(n, message, WrittenEntries(ops, n, source)))
  {
    var i :| 0 <= i < |ops| && ops[i].AddOp?;
    assert WrittenEntries(ops, n, source)[i] in WrittenEntries(ops, n, source);
    assert WrittenEntries(ops, n, source)[i].action == Some("add");
  }

  // Without any file error: that file is resumed and a new upload is given 2. Finishing
  // either of the two leaves the other one pending without its snapshots.
  method DeleteTakesAnothersSnapshots(faults: nat -> Fault, ops: seq<PublicationOp>, message: string, source: Source,
                                      newFirst: bool)
    returns (left: Disk)
    requires forall k :: faults(k) == NoFault
    requires forall op | op in ops && op.AddOp? :: op.localPath in source
    requires exists op :: op in ops && op.AddOp?
    ensures var other := if newFirst then MISNUMBERED else Padded(2);
            && Pending(left, other, 2) && !Kept(left, other, 2)
            && left.envelopes[other]
               == (if newFirst then CLAIMS_TWO else Envelope(2, message, WrittenEntries(ops, 2, source)))
    ensures forall l | l in left.snapshots :: !(l.InSequence? && l.sequence == 2)
  {
    hide Lists, Resumable, LegacyNames, Stops, ResumeOutcome, WrittenEntries, HandedOut, Handed, Refused, Kept, Shares;
    hide StoreNumbered, MessagesThere, AllBelow, Lost, Sequences, CurrentJobs, StateDirectory.Valid, HasAdd;
    hide Hashed, ReadFrom, Reads, Readable, WrittenOps, Shas, Consistent, DistinctPayloads, SnapshotLocation;
    var misnumbered := Disk(None, map[MISNUMBERED := CLAIMS_TWO], map[ITS_SNAPSHOT := []]);
    MisnumberedUpload(misnumbered, source);
    var dir := new StateDirectory(misnumbered, faults);
    var store := new UploadStateStore(dir);
    assert MISNUMBERED in dir.disk.envelopes;
    var resumed := store.ResumePending([MISNUMBERED], source);
    MisnumberedIsHandedOut(misnumbered, dir.disk, resumed.value.uploads, resumed.value.failures);
    var persisted := store.Persist(ops, message, source);
    NewUploadHasAdd(ops, 2, message, source);
    var u := if newFirst then persisted.value else resumed.value.uploads[0];
    var deleted := store.Delete(u.statePath, u.snapshotDir);
    left := dir.disk;
    ItHasAdd();
    Stripped(left, if newFirst then MISNUMBERED else Padded(2), 2);
  }

  lemma MisnumberedBesideLegacy(d: Disk)
    requires d == Disk(None, map[MISNUMBERED := CLAIMS_TWO, Named("old") := OLD_JOB], map[ITS_SNAPSHOT := []])
    ensures Lists([MISNUMBERED, Named("old")], d) && Resumable(d) && Kept(d, MISNUMBERED, 2)
  {
    MisnumberedIsKept(d);
  }

  lemma ListingOfTwo(d: Disk)
    requires d == Disk(None, map[MISNUMBERED := CLAIMS_TWO, Named("old") := OLD_JOB], map[ITS_SNAPSHOT := []])
    ensures var listing := [MISNUMBERED, Named("old")];
            LegacyNames(d, listing) == [Named("old")] && CurrentJobs(d, listing) == [Job(2, MISNUMBERED, CLAIMS_TWO)]
  {
    var listing := [MISNUMBERED, Named("old")];
    NothingListed(d, listing);
    OneMoreListed(d, listing, 0);
    OneMoreListed(d, listing, 1);
  }

  lemma MisnumberedRefuses(d: Disk, source: Source)
    requires d == Disk(None, map[MISNUMBERED := CLAIMS_TWO, Named("old") := OLD_JOB], map[ITS_SNAPSHOT := []])
    ensures Lists([MISNUMBERED, Named("old")], d) && Resumable(d)
    ensures var listing := [MISNUMBERED, Named("old")];
            && LegacyNames(d, listing) == [Named("old")]
            && Refused(d, LegacyNames(d, listing), 2, Sequences(CurrentJobs(d, listing)), source, 0)
            && Stops(d, listing, 2, source)
  {
    hide LegacyNames, CurrentJobs, Resumable;
    var listing := [MISNUMBERED, Named("old")];
    MisnumberedBesideLegacy(d);
    ListingOfTwo(d);
    SequencesAre([Job(2, MISNUMBERED, CLAIMS_TWO)]);
    assert Refused(d, LegacyNames(d, listing), 2, Sequences(CurrentJobs(d, listing)), source, 0);
  }

  // Without any file error: beside that file, the first legacy file is upgraded to 2 and
  // refused as a duplicate. Its job is in no envelope any more, and the pending upload that
  // has the number has lost its snapshots.
  method MisnumberedFileLosesLegacyJob(faults: nat -> Fault, source: Source)
    returns (r: Result<Resumed, Error>, left: Disk)
    requires forall k :: faults(k) == NoFault
    ensures r.Failure?
    ensures forall f | f in left.envelopes :: f == MISNUMBERED
    ensures MISNUMBERED in left.envelopes && left.envelopes[MISNUMBERED] == CLAIMS_TWO && !Kept(left, MISNUMBERED, 2)
  {
    hide Lists, Resumable, LegacyNames, Stops, ResumeOutcome, Refused, HandedOut, Kept, HasAdd;
    hide StoreNumbered, MessagesThere, AllBelow, Sequences, CurrentJobs, StateDirectory.Valid, Classify, IsJob;
    hide ReadFrom, Reads, Readable, DistinctPayloads;
    var misnumbered := Disk(None, map[MISNUMBERED := CLAIMS_TWO, Named("old") := OLD_JOB], map[ITS_SNAPSHOT := []]);
    MisnumberedRefuses(misnumbered, source);
    var dir := new StateDirectory(misnumbered, faults);
    var store := new UploadStateStore(dir);
    assert MISNUMBERED in dir.disk.envelopes;
    r := store.ResumePending([MISNUMBERED, Named("old")], source);
    left := dir.disk;
    ItHasAdd();
    Stripped(left, MISNUMBERED, 2);
  }
}
