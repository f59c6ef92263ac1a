/**
 The durable upload directory as a protocol: its files, what a running store
 remembers of them, the single-file steps it takes, and what holds after every
 sequence of steps.  A crash forgets what the store remembers; it may come between
 any two steps, and a sequence may hold any number of restarts.
 */
module UploadProtocol {
  import opened Wrappers

  /******* Files *******/

  type Bytes = seq<bv8>

  // SHA-256 taken as injective: a digest determines the bytes it was made from.
  datatype Digest = Sha256(content: Bytes)

  datatype LocalPath = LocalPath(directory: string, name: string)

  // A path below snapshots/<sequence>/, or any other path.
  datatype Slot = OperationFile(index: nat, name: string) | OtherFile(relative: string)
  datatype Location = InSequence(sequence: nat, slot: Slot) | Elsewhere(text: string)

  // Names of *.json files: the six-digit form the store writes, another spelling
  // of a number, or a name that is not a number.
  datatype FileName = Padded(number: nat) | Spelled(number: nat, spelling: string) | Named(text: string)

  // An operation that passed its own constructor checks.
  datatype PublicationOp =
    | AddOp(pathInRepo: string, localPath: LocalPath, snapshot: Option<Location>)
    | DeleteOp(pathInRepo: string)

  // One element of an envelope's "ops" list, as read back from JSON.
  datatype Entry = Entry(
    action: Option<string>,
    pathInRepo: Option<string>,
    localPath: Option<LocalPath>,
    snapshotPath: Option<Location>,
    sha: Option<Digest>)

  datatype Contract = BackgroundUploadV1 | UnknownContract(text: string)

  datatype Document =
    | Malformed
    | Json(contract: Option<Contract>, sequence: Option<int>, message: Option<string>, ops: Option<seq<Entry>>)

  datatype Disk = Disk(
    highwater: Option<int>,
    envelopes: map<FileName, Document>,
    snapshots: map<Location, Bytes>)

  predicate IsLegacy(doc: Document) {
    doc.Json? && doc.contract.None? && doc.message.Some? && doc.ops.Some?
  }

  predicate IsCurrent(doc: Document) {
    doc.Json? && doc.contract == Some(BackgroundUploadV1)
  }

  function Entries(doc: Document): seq<Entry>
    requires doc.Json?
  {
    if doc.ops.Some? then doc.ops.value else []
  }

  // A missing or unreadable mark counts as zero, and so does a negative one.
  function Highwater(d: Disk): nat {
    if d.highwater.Some? && d.highwater.value > 0 then d.highwater.value else 0
  }

  // The sequence a file lays claim to: its name wins over its content.
  function SequenceOfFile(name: FileName, doc: Document): nat {
    match name
    case Padded(n) => n
    case Spelled(n, _) => n
    case Named(_) => if doc.Json? && doc.sequence.Some? && doc.sequence.value > 0 then doc.sequence.value else 0
  }

  ghost predicate ClaimsBelow(d: Disk, n: nat) {
    forall f | f in d.envelopes :: SequenceOfFile(f, d.envelopes[f]) < n
  }

  ghost predicate EntryBacked(d: Disk, e: Entry, n: nat) {
    e.action == Some("add") ==>
      && e.snapshotPath.Some?
      && e.snapshotPath.value.InSequence?
      && e.snapshotPath.value.sequence == n
      && e.snapshotPath.value in d.snapshots
      && e.sha == Some(Sha256(d.snapshots[e.snapshotPath.value]))
  }

  // Every added file of the envelope has its snapshot, with the recorded hash.
  ghost predicate Backed(d: Disk, doc: Document, n: nat)
    requires doc.Json?
  {
    forall i | 0 <= i < |Entries(doc)| :: EntryBacked(d, Entries(doc)[i], n)
  }

  // The number an envelope in the current format lays claim to by its content. Its
  // snapshots are looked for below that number, whatever the file is called.
  function PayloadOf(doc: Document): Option<nat> {
    if IsCurrent(doc) && doc.sequence.Some? && doc.sequence.value >= 1 then Some(doc.sequence.value) else None
  }

  predicate Pending(d: Disk, f: FileName, n: nat) {
    f in d.envelopes && PayloadOf(d.envelopes[f]) == Some(n)
  }

  // Every pending upload has its snapshots.
  ghost predicate Consistent(d: Disk) {
    forall f, n: nat | Pending(d, f, n) :: Backed(d, d.envelopes[f], n)
  }

  // The same job in the current format: message and operations kept, and a
  // snapshot with its hash for each added file.
  ghost predicate UpgradeOf(legacy: Document, upgraded: Document) {
    && IsLegacy(legacy) && IsCurrent(upgraded)
    && upgraded.message == legacy.message
    && |Entries(upgraded)| == |Entries(legacy)|
    && forall i | 0 <= i < |Entries(legacy)| ::
         EntryUpgrade(Entries(legacy)[i], Entries(upgraded)[i])
  }

  ghost predicate EntryUpgrade(e: Entry, e': Entry) {
    && e'.action == e.action && e'.pathInRepo == e.pathInRepo && e'.localPath == e.localPath
    && (e.action == Some("add") ==> e'.snapshotPath.Some? && e'.sha.Some?)
  }

  /******* Steps *******/

  // What a running store remembers: the next number, the numbers it allocated and has no
  // envelope for yet, the uploads it handed out with their numbers, and the numbers whose
  // snapshots it may remove.
  datatype Session = Session(next: nat, mine: set<nat>, held: set<(FileName, nat)>, freed: set<nat>)

  datatype World = World(disk: Disk, session: Option<Session>)

  function Closed(d: Disk): World {
    World(d, None)
  }

  datatype Step =
    | Open(next: nat)                      // read the directory and go on from the next number
    | Crash
    | Allocate(n: nat)                     // raise the high-water mark
    | Skip(n: nat)                         // storing the mark failed: the number is used up all the same
    | Resume                               // hand out every pending upload
    | Stage(loc: Location, bytes: Bytes)   // write a snapshot file, possibly cut short
    | Commit(n: nat, doc: Document)        // atomically create an envelope
    | Discard(name: FileName, n: nat)      // unlink the envelope of upload n
    | TakeBack(n: nat)                     // unlink an upgraded envelope that is refused
    | Retire(name: FileName, n: nat)       // unlink a legacy envelope that n replaces
    | Remove(loc: Location)                // unlink one snapshot file

  // One above the mark and every claim, and no more.
  ghost predicate IsNext(d: Disk, n: nat) {
    && Highwater(d) < n && ClaimsBelow(d, n)
    && (n == Highwater(d) + 1 || exists f :: f in d.envelopes && n == SequenceOfFile(f, d.envelopes[f]) + 1)
  }

  ghost predicate DistinctPayloads(d: Disk) {
    forall f, g, n: nat | Pending(d, f, n) && Pending(d, g, n) :: f == g
  }

  function PendingFiles(d: Disk): set<(FileName, nat)> {
    set f | f in d.envelopes && PayloadOf(d.envelopes[f]).Some? :: (f, PayloadOf(d.envelopes[f]).value)
  }

  // What the code checks before each step. Nothing compares the numbers it allocates with
  // those in the payloads.
  ghost predicate Enabled(w: World, s: Step) {
    if s.Open? then w.session.None? && IsNext(w.disk, s.next)
    else if s.Crash? then true
    else w.session.Some? && EnabledIn(w.disk, w.session.value, s)
  }

  ghost predicate EnabledIn(d: Disk, i: Session, s: Step)
    requires !s.Open? && !s.Crash?
  {
    match s
    case Allocate(n) => n == i.next && Highwater(d) < n && ClaimsBelow(d, n)
    case Skip(n) => n == i.next
    case Resume => DistinctPayloads(d)
    case Stage(loc, _) => loc.InSequence? && loc.sequence in i.mine
    case Commit(n, doc) =>
      && n in i.mine && Padded(n) !in d.envelopes && 1 <= n <= Highwater(d)
      && IsCurrent(doc) && doc.sequence == Some(n) && doc.message.Some? && Backed(d, doc, n)
    case Discard(name, n) => (name, n) in i.held || (n in i.mine && name == Padded(n) && name !in d.envelopes)
    case TakeBack(n) => (Padded(n), n) in i.held
    case Retire(name, n) =>
      && (Padded(n), n) in i.held && name in d.envelopes && Padded(n) in d.envelopes
      && UpgradeOf(d.envelopes[name], d.envelopes[Padded(n)])
    case Remove(loc) => loc.InSequence? && loc.sequence in i.freed
  }

  function Written(d: Disk, s: Step): Disk {
    match s
    case Allocate(n) => d.(highwater := Some(n))
    case Stage(loc, bytes) => d.(snapshots := d.snapshots[loc := bytes])
    case Commit(n, doc) => d.(envelopes := d.envelopes[Padded(n) := doc])
    case Discard(name, _) => d.(envelopes := d.envelopes - {name})
    case TakeBack(n) => d.(envelopes := d.envelopes - {Padded(n)})
    case Retire(name, _) => d.(envelopes := d.envelopes - {name})
    case Remove(loc) => d.(snapshots := d.snapshots - {loc})
    case _ => d
  }

  function Remembered(d: Disk, i: Session, s: Step): Session {
    match s
    case Allocate(n) => i.(next := n + 1, mine := i.mine + {n})
    case Skip(n) => i.(next := n + 1)
    case Resume => i.(held := i.held + PendingFiles(d))
    case Commit(n, _) => i.(mine := i.mine - {n}, held := i.held + {(Padded(n), n)})
    case Discard(name, n) => i.(mine := i.mine - {n}, held := i.held - {(name, n)}, freed := i.freed + {n})
    case TakeBack(n) => i.(held := i.held - {(Padded(n), n)}, freed := i.freed + {n})
    case _ => i
  }

  function Apply(w: World, s: Step): World {
    match s
    case Open(next) => World(w.disk, Some(Session(next, {}, {}, {})))
    case Crash => Closed(w.disk)
    case _ => World(Written(w.disk, s), if w.session.Some? then Some(Remembered(w.disk, w.session.value, s)) else None)
  }

  function Play(w: World, steps: seq<Step>): World
    decreases |steps|
  {
    if steps == [] then w else Apply(Play(w, steps[..|steps| - 1]), steps[|steps| - 1])
  }

  ghost predicate Lawful(w: World, steps: seq<Step>)
    decreases |steps|
  {
    steps == [] ||
    (&& Lawful(w, steps[..|steps| - 1])
     && Enabled(Play(w, steps[..|steps| - 1]), steps[|steps| - 1]))
  }

  lemma Extend(w: World, steps: seq<Step>, s: Step)
    requires Lawful(w, steps) && Enabled(Play(w, steps), s)
    ensures Lawful(w, steps + [s])
    ensures Play(w, steps + [s]) == Apply(Play(w, steps), s)
  {
    assert (steps + [s])[..|steps|] == steps;
  }

  // A crash loses a suffix of the steps and nothing else.
  lemma {:induction false} CrashIsLawful(w: World, steps: seq<Step>, k: nat)
    requires Lawful(w, steps) && k <= |steps|
    ensures Lawful(w, steps[..k])
    decreases |steps|
  {
    if k == |steps| {
      assert steps[..k] == steps;
    } else {
      CrashIsLawful(w, steps[..|steps| - 1], k);
      assert steps[..|steps| - 1][..k] == steps[..k];
    }
  }

  // One more step of a longer run.
  lemma PlayOne(w: World, steps: seq<Step>, k: nat)
    requires Lawful(w, steps) && k < |steps|
    ensures Enabled(Play(w, steps[..k]), steps[k])
    ensures Play(w, steps[..k + 1]) == Apply(Play(w, steps[..k]), steps[k])
  {
    CrashIsLawful(w, steps, k + 1);
    assert steps[..k + 1][..k] == steps[..k];
  }

  // What follows the first k steps is lawful from where they lead.
  lemma {:induction false} SuffixIsLawful(w: World, steps: seq<Step>, k: nat)
    requires Lawful(w, steps) && k <= |steps|
    ensures Lawful(Play(w, steps[..k]), steps[k..])
    ensures Play(Play(w, steps[..k]), steps[k..]) == Play(w, steps)
    decreases |steps|
  {
    hide Enabled, Apply;
    if k == |steps| {
      assert steps[..k] == steps && steps[k..] == [];
    } else {
      var front := steps[..|steps| - 1];
      SuffixIsLawful(w, front, k);
      assert front[..k] == steps[..k] && steps[k..] == front[k..] + [steps[|steps| - 1]];
      Extend(Play(w, steps[..k]), front[k..], steps[|steps| - 1]);
    }
  }

  /******* What every run keeps *******/

  // A file as the store writes it: number in name and payload, and a message.
  predicate StoreWritten(f: FileName, doc: Document) {
    && IsCurrent(doc) && doc.message.Some?
    && f.Padded? && f.number >= 1 && doc.sequence == Some(f.number)
  }

  // Nothing but legacy files and files the store wrote.
  ghost predicate StoreNumbered(d: Disk) {
    forall f | f in d.envelopes :: IsLegacy(d.envelopes[f]) || StoreWritten(f, d.envelopes[f])
  }

  lemma StepKeepsStoreNumbered(w: World, s: Step)
    requires StoreNumbered(w.disk) && Enabled(w, s)
    ensures StoreNumbered(Apply(w, s).disk)
  {}

  lemma {:induction false} EveryStateStoreNumbered(w: World, steps: seq<Step>)
    requires StoreNumbered(w.disk) && Lawful(w, steps)
    ensures StoreNumbered(Play(w, steps).disk)
    decreases |steps|
  {
    hide Enabled, Apply, StoreNumbered;
    if steps != [] {
      EveryStateStoreNumbered(w, steps[..|steps| - 1]);
      StepKeepsStoreNumbered(Play(w, steps[..|steps| - 1]), steps[|steps| - 1]);
    }
  }

  lemma StepRaisesHighwater(w: World, s: Step)
    requires Enabled(w, s)
    ensures Highwater(w.disk) <= Highwater(Apply(w, s).disk)
  {}

  // The mark never falls, and each allocation exceeds it.
  lemma {:induction false} HighwaterRises(w: World, steps: seq<Step>, j: nat, k: nat)
    requires Lawful(w, steps) && j <= k <= |steps|
    ensures Highwater(Play(w, steps[..j]).disk) <= Highwater(Play(w, steps[..k]).disk)
    decreases k
  {
    if j < k {
      hide Enabled, Apply, Highwater;
      HighwaterRises(w, steps, j, k - 1);
      PlayOne(w, steps, k - 1);
      StepRaisesHighwater(Play(w, steps[..k - 1]), steps[k - 1]);
    }
  }

  // A number is never handed out twice, whatever crashes lie between, and it is
  // above every numbered file present when it is handed out.
  lemma AllocationsAscend(w: World, steps: seq<Step>, j: nat, k: nat)
    requires Lawful(w, steps) && j < k < |steps|
    requires steps[j].Allocate? && steps[k].Allocate?
    ensures steps[j].n < steps[k].n
    ensures ClaimsBelow(Play(w, steps[..k]).disk, steps[k].n)
  {
    HighwaterRises(w, steps, j + 1, k);
    hide Lawful, Play, ClaimsBelow;
    PlayOne(w, steps, j);
    PlayOne(w, steps, k);
  }

  // What a store handed out is pending under the number it remembers.
  ghost predicate HeldArePending(w: World) {
    w.session.Some? ==> forall f, n: nat | (f, n) in w.session.value.held :: Pending(w.disk, f, n)
  }

  lemma StepKeepsHeld(w: World, s: Step)
    requires HeldArePending(w) && Enabled(w, s)
    ensures HeldArePending(Apply(w, s))
  {}

  lemma {:induction false} EveryHeldIsPending(w: World, steps: seq<Step>)
    requires HeldArePending(w) && Lawful(w, steps)
    ensures HeldArePending(Play(w, steps))
    decreases |steps|
  {
    hide Enabled, Apply, HeldArePending;
    if steps != [] {
      EveryHeldIsPending(w, steps[..|steps| - 1]);
      StepKeepsHeld(Play(w, steps[..|steps| - 1]), steps[|steps| - 1]);
    }
  }

  predicate Unlinks(s: Step, f: FileName) {
    (s.Discard? && s.name == f) || (s.TakeBack? && f == Padded(s.n))
  }

  predicate Unremoved(f: FileName, steps: seq<Step>) {
    forall s | s in steps :: !Unlinks(s, f)
  }

  lemma StepLeaves(w: World, s: Step, f: FileName)
    requires Enabled(w, s) && !Unlinks(s, f) && f in w.disk.envelopes && IsCurrent(w.disk.envelopes[f])
    ensures f in Apply(w, s).disk.envelopes && Apply(w, s).disk.envelopes[f] == w.disk.envelopes[f]
  {}

  // An envelope stays as written until it is unlinked.
  lemma {:induction false} EnvelopeStays(w: World, steps: seq<Step>, f: FileName, doc: Document)
    requires Lawful(w, steps)
    requires IsCurrent(doc) && f in w.disk.envelopes && w.disk.envelopes[f] == doc
    requires Unremoved(f, steps)
    ensures f in Play(w, steps).disk.envelopes && Play(w, steps).disk.envelopes[f] == doc
    decreases |steps|
  {
    hide Enabled, Apply, Unlinks;
    if steps != [] {
      var front, s := steps[..|steps| - 1], steps[|steps| - 1];
      assert s in steps && forall t | t in front :: t in steps;
      EnvelopeStays(w, front, f, doc);
      StepLeaves(Play(w, front), s, f);
    }
  }

  /******* Whether a pending upload keeps its snapshots *******/

  // Nothing the store remembers leads it to the snapshots of this upload but finishing it.
  ghost predicate Secure(w: World, f: FileName, n: nat) {
    w.session.Some? ==>
      var i := w.session.value;
      && n < i.next && n !in i.mine && n !in i.freed
      && forall g | (g, n) in i.held :: g == f
  }

  ghost predicate Kept(d: Disk, f: FileName, n: nat) {
    Pending(d, f, n) && Backed(d, d.envelopes[f], n)
  }

  lemma StepKeepsSecure(w: World, s: Step, f: FileName, n: nat)
    requires Secure(w, f, n) && Pending(w.disk, f, n) && Enabled(w, s) && !Unlinks(s, f)
    requires s.Open? ==> n < s.next
    ensures Secure(Apply(w, s), f, n)
  {
    if s.Resume? {
      forall g | (g, n) in PendingFiles(w.disk) ensures g == f {
        assert Pending(w.disk, g, n);
      }
    }
  }

  lemma StepKeepsBacked(w: World, s: Step, f: FileName, n: nat)
    requires Secure(w, f, n) && Kept(w.disk, f, n) && Enabled(w, s) && !Unlinks(s, f)
    ensures Kept(Apply(w, s).disk, f, n)
  {
    StepLeaves(w, s, f);
    var entries := Entries(w.disk.envelopes[f]);
    forall i | 0 <= i < |entries| ensures EntryBacked(Apply(w, s).disk, entries[i], n) {
      assert EntryBacked(w.disk, entries[i], n);
    }
  }

  // Each restart found this number below the next one.
  ghost predicate BelowAtOpens(n: nat, steps: seq<Step>) {
    forall s | s in steps && s.Open? :: n < s.next
  }

  // A pending upload, whatever its file is called, keeps every snapshot and every recorded
  // hash until it is unlinked, over all runs that open the directory above its number.
  lemma {:induction false} PendingUploadSurvives(w: World, steps: seq<Step>, f: FileName, n: nat)
    requires Secure(w, f, n) && Lawful(w, steps)
    requires Kept(w.disk, f, n) && Unremoved(f, steps) && BelowAtOpens(n, steps)
    ensures Kept(Play(w, steps).disk, f, n) && Secure(Play(w, steps), f, n)
    ensures Play(w, steps).disk.envelopes[f] == w.disk.envelopes[f]
    decreases |steps|
  {
    hide Enabled, Apply, Unlinks, Secure, Backed;
    EnvelopeStays(w, steps, f, w.disk.envelopes[f]);
    if steps != [] {
      var front, s := steps[..|steps| - 1], steps[|steps| - 1];
      assert s in steps && forall t | t in front :: t in steps;
      PendingUploadSurvives(w, front, f, n);
      StepKeepsSecure(Play(w, front), s, f, n);
      StepKeepsBacked(Play(w, front), s, f, n);
    }
  }

  // A file whose own name, or the mark, is not below its number is opened above it.
  lemma OwnClaimSuffices(w: World, steps: seq<Step>, f: FileName, n: nat)
    requires Lawful(w, steps) && Pending(w.disk, f, n) && Unremoved(f, steps)
    requires n <= Highwater(w.disk) || n <= SequenceOfFile(f, w.disk.envelopes[f])
    ensures BelowAtOpens(n, steps)
  {
    forall s | s in steps && s.Open? ensures n < s.next {
      var k :| 0 <= k < |steps| && steps[k] == s;
      PlayOne(w, steps, k);
      CrashIsLawful(w, steps, k);
      EnvelopeStays(w, steps[..k], f, w.disk.envelopes[f]);
      HighwaterRises(w, steps, 0, k);
      assert steps[..0] == [];
    }
  }

  predicate HasAdd(doc: Document)
    requires doc.Json?
  {
    exists e :: e in Entries(doc) && e.action == Some("add")
  }

  // From the next number on, each number up to n is allocated and given up.
  function Numbers(next: nat, count: nat): seq<Step> {
    if count == 0 then [Open(next)] else Numbers(next, count - 1) + [Allocate(next + count - 1)]
  }

  lemma {:induction false} NumbersAreAllocations(next: nat, count: nat)
    ensures |Numbers(next, count)| == count + 1 && Numbers(next, count)[0] == Open(next)
    ensures forall s | s in Numbers(next, count)[1..] :: s.Allocate?
  {
    if count > 0 {
      NumbersAreAllocations(next, count - 1);
      assert Numbers(next, count)[1..] == Numbers(next, count - 1)[1..] + [Allocate(next + count - 1)];
    }
  }

  // What a session remembers of them: it goes on above the last one, which is its own.
  ghost predicate Allocated(d: Disk, next: nat, count: nat, w: World) {
    && w.disk == d.(highwater := w.disk.highwater) && Highwater(w.disk) < next + count
    && w.session.Some? && w.session.value.next == next + count
    && (count > 0 ==> next + count - 1 in w.session.value.mine)
  }

  lemma OneMoreNumber(d: Disk, next: nat, count: nat, w: World)
    requires ClaimsBelow(d, next) && Allocated(d, next, count, w)
    ensures Enabled(w, Allocate(next + count))
    ensures Allocated(d, next, count + 1, Apply(w, Allocate(next + count)))
  {}

  lemma {:induction false} NumbersAreLawful(d: Disk, next: nat, count: nat)
    requires IsNext(d, next)
    ensures Lawful(Closed(d), Numbers(next, count))
    ensures Allocated(d, next, count, Play(Closed(d), Numbers(next, count)))
  {
    if count == 0 {
      OpensLawfully(d, next);
    } else {
      hide Enabled, Apply, Allocated;
      NumbersAreLawful(d, next, count - 1);
      OneMoreNumber(d, next, count - 1, Play(Closed(d), Numbers(next, count - 1)));
      Extend(Closed(d), Numbers(next, count - 1), Allocate(next + count - 1));
    }
  }

  lemma OpensLawfully(d: Disk, next: nat)
    requires IsNext(d, next)
    ensures Lawful(Closed(d), [Open(next)]) && Play(Closed(d), [Open(next)]) == Apply(Closed(d), Open(next))
  {
    Extend(Closed(d), [], Open(next));
    assert [] + [Open(next)] == [Open(next)];
  }

  // The last of them is given up, and its directory goes.
  lemma GivenUpStrips(w: World, n: nat, loc: Location) returns (last: seq<Step>)
    requires w.session.Some? && n in w.session.value.mine && Padded(n) !in w.disk.envelopes
    requires loc.InSequence? && loc.sequence == n
    ensures last == [Discard(Padded(n), n), Remove(loc)] && Lawful(w, last)
    ensures Play(w, last).disk == w.disk.(snapshots := w.disk.snapshots - {loc})
  {
    last := [Discard(Padded(n), n), Remove(loc)];
    Extend(w, [], last[0]);
    Extend(w, [last[0]], last[1]);
    assert [] + [last[0]] == [last[0]] && [last[0]] + [last[1]] == last;
    assert w.disk.envelopes - {Padded(n)} == w.disk.envelopes;
  }

  lemma {:induction false} JoinIsLawful(w: World, first: seq<Step>, second: seq<Step>)
    requires Lawful(w, first) && Lawful(Play(w, first), second)
    ensures Lawful(w, first + second) && Play(w, first + second) == Play(Play(w, first), second)
    decreases |second|
  {
    hide Enabled, Apply;
    if second == [] {
      assert first + second == first;
    } else {
      var front := second[..|second| - 1];
      JoinIsLawful(w, first, front);
      Extend(w, first + front, second[|second| - 1]);
      assert first + front + [second[|second| - 1]] == first + second;
    }
  }

  lemma LostEntry(d: Disk, doc: Document, n: nat) returns (loc: Location)
    requires doc.Json? && Backed(d, doc, n) && HasAdd(doc)
    ensures loc.InSequence? && loc.sequence == n
    ensures forall d': Disk | d'.snapshots == d.snapshots - {loc} :: !Backed(d', doc, n)
  {
    var entries := Entries(doc);
    var i :| 0 <= i < |entries| && entries[i].action == Some("add");
    assert EntryBacked(d, entries[i], n);
    loc := entries[i].snapshotPath.value;
    forall d': Disk | d'.snapshots == d.snapshots - {loc} ensures !Backed(d', doc, n) {
      assert !EntryBacked(d', entries[i], n);
    }
  }

  // Opened at or below its number, an upload with added files may lose them: uploads are
  // begun up to that number, the last one is given up, and its directory goes.
  lemma CollisionStrips(d: Disk, next: nat, f: FileName, n: nat) returns (steps: seq<Step>)
    requires IsNext(d, next) && Kept(d, f, n) && HasAdd(d.envelopes[f]) && next <= n
    ensures |steps| > 0 && steps[0] == Open(next) && Lawful(Closed(d), steps)
    ensures Unremoved(f, steps) && forall s | s in steps[1..] :: !s.Open? && !s.Crash?
    ensures var d' := Play(Closed(d), steps).disk;
            && f in d'.envelopes && d'.envelopes[f] == d.envelopes[f] && !Backed(d', d.envelopes[f], n)
  {
    hide Enabled, Apply, Backed, Play, Lawful;
    var begun := Numbers(next, n - next + 1);
    NumbersAreAllocations(next, n - next + 1);
    NumbersAreLawful(d, next, n - next + 1);
    var mid := Play(Closed(d), begun);
    assert Padded(n) !in d.envelopes;
    assert f != Padded(n);
    var loc := LostEntry(d, d.envelopes[f], n);
    var last := GivenUpStrips(mid, n, loc);
    JoinIsLawful(Closed(d), begun, last);
    steps := begun + last;
    assert steps[1..] == begun[1..] + last;
    forall s | s in steps ensures !Unlinks(s, f) {
      assert s in [begun[0]] + begun[1..] + last;
    }
  }

  // Opened at the start, if at all, and not again.
  ghost predicate OpenedOnce(steps: seq<Step>) {
    steps != [] ==> steps[0].Open? && Uninterrupted(steps[1..])
  }

  lemma OpenedOnceMore(d: Disk, steps: seq<Step>, s: Step)
    requires Lawful(Closed(d), steps) && OpenedOnce(steps)
    requires Enabled(Play(Closed(d), steps), s) && !s.Crash? && (s.Open? ==> steps == [])
    ensures OpenedOnce(steps + [s])
  {
    if steps == [] {
      assert Play(Closed(d), steps).session.None?;
    } else {
      assert (steps + [s])[1..] == steps[1..] + [s];
    }
  }

  lemma OnlyFirstOpens(steps: seq<Step>)
    requires OpenedOnce(steps)
    ensures forall k | 0 <= k < |steps| && steps[k].Open? :: k == 0
  {
    forall k | 0 < k < |steps| ensures !steps[k].Open? {
      assert steps[k] in steps[1..];
    }
  }

  lemma LaterUninterrupted(steps: seq<Step>, k: nat)
    requires OpenedOnce(steps) && 1 <= k <= |steps|
    ensures Uninterrupted(steps[k..])
  {
    forall s | s in steps[k..] ensures !s.Open? && !s.Crash? {
      assert s in steps[1..];
    }
  }

  // No restart among them.
  ghost predicate Uninterrupted(steps: seq<Step>) {
    forall s | s in steps :: !s.Open? && !s.Crash?
  }

  /**
   Exactly when a pending upload is safe in a session: whatever its file is called, it
   keeps its snapshots through everything the session may do, short of finishing it, if
   and only if its number is below the one the session starts with.
   */
  lemma SafeInSession(d: Disk, next: nat, f: FileName, n: nat)
    requires IsNext(d, next) && Kept(d, f, n) && HasAdd(d.envelopes[f])
    ensures n < next
       <==> forall steps | Lawful(Closed(d), [Open(next)] + steps) && Uninterrupted(steps) && Unremoved(f, steps) ::
              Kept(Play(Closed(d), [Open(next)] + steps).disk, f, n)
  {
    hide Backed, Enabled, Apply, Lawful, Play;
    if n < next {
      forall steps | Lawful(Closed(d), [Open(next)] + steps) && Uninterrupted(steps) && Unremoved(f, steps)
        ensures Kept(Play(Closed(d), [Open(next)] + steps).disk, f, n)
      {
        PendingUploadSurvives(Closed(d), [Open(next)] + steps, f, n);
      }
    } else {
      var steps := CollisionStrips(d, next, f, n);
      assert steps == [Open(next)] + steps[1..];
      assert !Kept(Play(Closed(d), [Open(next)] + steps[1..]).disk, f, n);
    }
  }

  // Every pending upload is safe, and what the store allocated or gave up is no one else's.
  ghost predicate Orderly(w: World) {
    && (forall f, n: nat | Pending(w.disk, f, n) :: Secure(w, f, n))
    && (w.session.Some? ==>
          var i := w.session.value;
          && (forall n | n in i.mine :: n < i.next && n !in i.freed)
          && (forall n | n in i.freed :: n < i.next)
          && (forall f, n: nat | (f, n) in i.held :: n < i.next && n !in i.mine))
  }

  ghost predicate AllBelow(d: Disk, next: nat) {
    forall f, n: nat | Pending(d, f, n) :: n < next
  }

  lemma StepKeepsOrderly(w: World, s: Step)
    requires Orderly(w) && HeldArePending(w) && Enabled(w, s) && (s.Open? ==> AllBelow(w.disk, s.next))
    ensures Orderly(Apply(w, s))
  {
    var w' := Apply(w, s);
    forall f, n: nat | Pending(w'.disk, f, n) ensures Secure(w', f, n) {
      if s != Commit(n, w'.disk.envelopes[f]) || f != Padded(n) {
        assert Pending(w.disk, f, n) && !Unlinks(s, f);
        StepKeepsSecure(w, s, f, n);
      }
    }
    if s.Resume? {
      forall f, n: nat | (f, n) in PendingFiles(w.disk) ensures n < w.session.value.next && n !in w.session.value.mine {
        assert Pending(w.disk, f, n);
      }
    }
  }

  lemma StepKeepsConsistent(w: World, s: Step)
    requires Orderly(w) && Consistent(w.disk) && Enabled(w, s)
    ensures Consistent(Apply(w, s).disk)
  {
    var w' := Apply(w, s);
    forall f, n: nat | Pending(w'.disk, f, n) ensures Backed(w'.disk, w'.disk.envelopes[f], n) {
      if s != Commit(n, w'.disk.envelopes[f]) || f != Padded(n) {
        assert Pending(w.disk, f, n) && !Unlinks(s, f);
        assert Kept(w.disk, f, n);
        StepKeepsBacked(w, s, f, n);
      }
    }
  }

  ghost predicate AllBelowAtOpens(w: World, steps: seq<Step>) {
    forall k | 0 <= k < |steps| && steps[k].Open? :: AllBelow(Play(w, steps[..k]).disk, steps[k].next)
  }

  // No point of any run that opens the directory above the numbers of all its pending
  // uploads leaves one of them without its snapshots.
  lemma {:induction false} EveryStateConsistent(w: World, steps: seq<Step>, k: nat)
    requires Orderly(w) && HeldArePending(w) && Consistent(w.disk) && Lawful(w, steps) && k <= |steps|
    requires AllBelowAtOpens(w, steps)
    ensures Consistent(Play(w, steps[..k]).disk) && Orderly(Play(w, steps[..k]))
    decreases k
  {
    hide Enabled, Apply, Orderly, HeldArePending, Consistent;
    CrashIsLawful(w, steps, k);
    if k > 0 {
      EveryStateConsistent(w, steps, k - 1);
      PlayOne(w, steps, k - 1);
      CrashIsLawful(w, steps, k - 1);
      EveryHeldIsPending(w, steps[..k - 1]);
      StepKeepsConsistent(Play(w, steps[..k - 1]), steps[k - 1]);
      StepKeepsOrderly(Play(w, steps[..k - 1]), steps[k - 1]);
    }
  }

  // Each pending number is below the mark or the claim of its own file, so that no restart
  // goes on at or below it.
  ghost predicate Claimed(d: Disk) {
    forall f, n: nat | Pending(d, f, n) :: n <= Highwater(d) || n <= SequenceOfFile(f, d.envelopes[f])
  }

  lemma StepKeepsClaimed(w: World, s: Step)
    requires Claimed(w.disk) && Enabled(w, s)
    ensures Claimed(Apply(w, s).disk)
  {
    StepRaisesHighwater(w, s);
    var d' := Apply(w, s).disk;
    forall f, n: nat | Pending(d', f, n) ensures n <= Highwater(d') || n <= SequenceOfFile(f, d'.envelopes[f]) {
      assert s == Commit(n, d'.envelopes[f]) || Pending(w.disk, f, n);
    }
  }

  lemma {:induction false} EveryStateClaimed(w: World, steps: seq<Step>)
    requires Claimed(w.disk) && Lawful(w, steps)
    ensures Claimed(Play(w, steps).disk)
    decreases |steps|
  {
    hide Enabled, Apply, Claimed;
    if steps != [] {
      EveryStateClaimed(w, steps[..|steps| - 1]);
      StepKeepsClaimed(Play(w, steps[..|steps| - 1]), steps[|steps| - 1]);
    }
  }

  // Over any number of restarts, such a directory is always opened above all its numbers.
  lemma ClaimedIsBelow(w: World, steps: seq<Step>)
    requires Claimed(w.disk) && Lawful(w, steps)
    ensures AllBelowAtOpens(w, steps)
  {
    forall k | 0 <= k < |steps| && steps[k].Open?
      ensures AllBelow(Play(w, steps[..k]).disk, steps[k].next)
    {
      PlayOne(w, steps, k);
      CrashIsLawful(w, steps, k);
      EveryStateClaimed(w, steps[..k]);
    }
  }

  lemma StoreNumberedIsClaimed(d: Disk)
    requires StoreNumbered(d)
    ensures Claimed(d)
  {}

  // Once a store handed out every pending upload, each one pending is one it remembers.
  ghost predicate AllHeld(w: World) {
    w.session.Some? ==> forall f, n: nat | Pending(w.disk, f, n) :: (f, n) in w.session.value.held
  }

  lemma StepKeepsAllHeld(w: World, s: Step)
    requires AllHeld(w) && Enabled(w, s) && !s.Open?
    ensures AllHeld(Apply(w, s))
  {}

  lemma {:induction false} AllStayHeld(w: World, steps: seq<Step>)
    requires AllHeld(w) && Lawful(w, steps) && Uninterrupted(steps)
    ensures AllHeld(Play(w, steps))
    decreases |steps|
  {
    hide Enabled, Apply, AllHeld;
    if steps != [] {
      var front, s := steps[..|steps| - 1], steps[|steps| - 1];
      assert s in steps && forall t | t in front :: t in steps;
      AllStayHeld(w, front);
      StepKeepsAllHeld(Play(w, front), s);
    }
  }

  lemma ResumeHoldsAll(w: World)
    requires Enabled(w, Resume)
    ensures AllHeld(Apply(w, Resume))
  {
    forall f, n: nat | Pending(w.disk, f, n) ensures (f, n) in PendingFiles(w.disk) {
      assert PayloadOf(w.disk.envelopes[f]).Some?;
    }
  }

  /******* Legacy jobs *******/

  ghost predicate Finished(f: FileName, steps: seq<Step>) {
    exists n: nat :: Discard(f, n) in steps
  }

  // Where a legacy job is after some steps: in its own file, or in the envelope that
  // replaced it, which is still there unless it was unlinked as finished.
  ghost predicate LegacyJobKept(name: FileName, doc: Document, w: World, steps: seq<Step>) {
    var d := Play(w, steps).disk;
    || (name in d.envelopes && d.envelopes[name] == doc)
    || exists n: nat, doc' :: UpgradedInto(name, n, doc, doc', w, steps)
  }

  ghost predicate UpgradedInto(name: FileName, n: nat, doc: Document, doc': Document, w: World, steps: seq<Step>) {
    && UpgradeOf(doc, doc') && Retire(name, n) in steps
    && ((Padded(n) in w.disk.envelopes && w.disk.envelopes[Padded(n)] == doc') || Commit(n, doc') in steps)
    && ((Padded(n) in Play(w, steps).disk.envelopes && Play(w, steps).disk.envelopes[Padded(n)] == doc')
        || Finished(Padded(n), steps))
  }

  // No envelope that replaced this file was taken back.
  ghost predicate NotTakenBack(name: FileName, steps: seq<Step>) {
    forall n: nat | Retire(name, n) in steps :: TakeBack(n) !in steps
  }

  // Where an envelope found after some steps came from.
  lemma {:induction false} EnvelopeOrigin(w: World, steps: seq<Step>, n: nat)
    requires Lawful(w, steps) && Padded(n) in Play(w, steps).disk.envelopes
    ensures var doc := Play(w, steps).disk.envelopes[Padded(n)];
            (Padded(n) in w.disk.envelopes && w.disk.envelopes[Padded(n)] == doc) || Commit(n, doc) in steps
    decreases |steps|
  {
    if steps != [] {
      var front, s := steps[..|steps| - 1], steps[|steps| - 1];
      assert s in steps && forall t | t in front :: t in steps;
      if s != Commit(n, Play(w, steps).disk.envelopes[Padded(n)]) {
        EnvelopeOrigin(w, front, n);
      }
    }
  }

  lemma StepLeavesLegacy(w: World, s: Step, name: FileName)
    requires HeldArePending(w) && Enabled(w, s) && name in w.disk.envelopes && IsLegacy(w.disk.envelopes[name])
    ensures (s.Retire? && s.name == name)
         || (name in Apply(w, s).disk.envelopes && Apply(w, s).disk.envelopes[name] == w.disk.envelopes[name])
  {
    assert !exists n: nat :: Pending(w.disk, name, n);
  }

  lemma StillUpgraded(name: FileName, n: nat, doc: Document, doc': Document, w: World, front: seq<Step>, s: Step)
    requires UpgradedInto(name, n, doc, doc', w, front) && Lawful(w, front + [s]) && NotTakenBack(name, front + [s])
    ensures UpgradedInto(name, n, doc, doc', w, front + [s])
  {
    var steps := front + [s];
    assert steps[..|front|] == front;
    assert Retire(name, n) in steps;
    if Finished(Padded(n), front) {
      var m: nat :| Discard(Padded(n), m) in front;
      assert Discard(Padded(n), m) in steps;
    } else if Unlinks(s, Padded(n)) {
      assert s in steps;
      assert s.Discard?;
      assert Discard(Padded(n), s.n) in steps;
    } else {
      StepLeaves(Play(w, front), s, Padded(n));
    }
  }

  lemma {:induction false} LegacyJobSurvives(w: World, steps: seq<Step>, name: FileName, doc: Document)
    requires HeldArePending(w) && Lawful(w, steps)
    requires IsLegacy(doc) && name in w.disk.envelopes && w.disk.envelopes[name] == doc
    requires NotTakenBack(name, steps)
    ensures LegacyJobKept(name, doc, w, steps)
    decreases |steps|
  {
    if steps != [] {
      hide UpgradeOf, Apply, HeldArePending;
      var front, s := steps[..|steps| - 1], steps[|steps| - 1];
      assert steps == front + [s];
      LegacyJobSurvives(w, front, name, doc);
      var mid := Play(w, front);
      if name in mid.disk.envelopes && mid.disk.envelopes[name] == doc {
        EveryHeldIsPending(w, front);
        StepLeavesLegacy(mid, s, name);
        if s.Retire? && s.name == name {
          EnvelopeOrigin(w, front, s.n);
          RetiredInto(w, front, s, doc);
        }
      } else {
        var n: nat, doc' :| UpgradedInto(name, n, doc, doc', w, front);
        StillUpgraded(name, n, doc, doc', w, front, s);
      }
    }
  }

  lemma RetiredInto(w: World, front: seq<Step>, s: Step, doc: Document)
    requires Lawful(w, front) && s.Retire? && Enabled(Play(w, front), s)
    requires Play(w, front).disk.envelopes[s.name] == doc
    ensures UpgradedInto(s.name, s.n, doc, Play(w, front).disk.envelopes[Padded(s.n)], w, front + [s])
  {
    EnvelopeOrigin(w, front, s.n);
    assert (front + [s])[..|front|] == front;
    assert s in front + [s];
  }

}
