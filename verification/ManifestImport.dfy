/**
 Importing a verified remote result: when an incoming sentence manifest is
 accepted, in which order the files are installed, and why an import that was cut
 off can simply be run again.
 */
module ManifestImport {
  import opened Wrappers

  /******* Manifests *******/

  type Identity = (string, string)   // stem and project

  // A "regions" element: some JSON value, or an object with what it holds besides
  // its stem and project.
  datatype RawRegion = NotAnObject | Object(stem: Option<string>, project: Option<string>, rest: string)

  // No regions: the field is missing or not a list.
  datatype Manifest = Manifest(header: map<string, string>, regions: Option<seq<RawRegion>>)

  const INVARIANT_KEYS: seq<string> := [
    "contract_version", "segmenter", "model_id", "model_revision", "segmenter_version",
    "supported_languages", "unsupported_language_policy"]

  datatype ImportError =
    | RegionsNotAList
    | RegionNotAnObject
    | RegionWithoutIdentity
    | DuplicateRegion(id: Identity)
    | HeaderChanged(key: string)
    | RegionRemoved(id: Identity)
    | RegionChanged(id: Identity)
    | NothingSelected
    | StemMissing(stem: string)
    | ArtifactMissing(path: FilePath)
    | ArtifactMismatch(path: FilePath)
    | CheckpointMismatch(id: Identity)
    | CutOff

  function IdentityOf(r: RawRegion): Option<Identity> {
    if r.Object? && r.stem.Some? && r.project.Some? then Some((r.stem.value, r.project.value)) else None
  }

  // The regions of a well-formed list, by identity.
  ghost predicate Indexes(m: map<Identity, RawRegion>, regions: seq<RawRegion>) {
    && (forall i | 0 <= i < |regions| :: IdentityOf(regions[i]).Some?)
    && (forall i, j | 0 <= i < j < |regions| :: IdentityOf(regions[i]) != IdentityOf(regions[j]))
    && (forall i | 0 <= i < |regions| ::
          IdentityOf(regions[i]).value in m && m[IdentityOf(regions[i]).value] == regions[i])
    && (forall id | id in m :: exists i :: 0 <= i < |regions| && IdentityOf(regions[i]) == Some(id))
  }

  // A list of objects that name their stem and project, no two of them the same ones.
  ghost predicate WellFormed(p: Manifest) {
    && p.regions.Some?
    && (forall i | 0 <= i < |p.regions.value| :: Names(p.regions.value[i]))
    && (forall i, j | 0 <= i < j < |p.regions.value| ::
          || p.regions.value[i].stem != p.regions.value[j].stem
          || p.regions.value[i].project != p.regions.value[j].project)
  }

  ghost predicate Names(r: RawRegion) {
    r.Object? && r.stem != None && r.project != None
  }

  method ManifestRegions(p: Manifest) returns (r: Result<map<Identity, RawRegion>, ImportError>)
    ensures r.Success? <==> WellFormed(p)
    ensures r.Success? ==> Indexes(r.value, p.regions.value)
  {
    hide WellFormed;
    WellFormedIs(p);
    if p.regions.None? {
      return Failure(RegionsNotAList);
    }
    var regions := p.regions.value;
    var m: map<Identity, RawRegion> := map[];
    for i := 0 to |regions|
      invariant Indexes(m, regions[..i])
    {
      var raw := regions[i];
      assert regions[..i + 1] == regions[..i] + [raw];
      assert regions[..i + 1][i] == raw;
      if raw.NotAnObject? {
        return Failure(RegionNotAnObject);
      }
      if IdentityOf(raw).None? {
        return Failure(RegionWithoutIdentity);
      }
      var id := IdentityOf(raw).value;
      if id in m {
        ghost var j :| 0 <= j < i && IdentityOf(regions[..i][j]) == Some(id);
        assert IdentityOf(regions[j]) == IdentityOf(regions[i]);
        return Failure(DuplicateRegion(id));
      }
      ghost var before := m;
      m := m[id := raw];
      IndexOneMore(before, regions[..i], raw);
    }
    assert regions[..|regions|] == regions;
    r := Success(m);
  }

  ghost predicate Identified(regions: seq<RawRegion>) {
    && (forall i | 0 <= i < |regions| :: IdentityOf(regions[i]).Some?)
    && (forall i, j | 0 <= i < j < |regions| :: IdentityOf(regions[i]) != IdentityOf(regions[j]))
  }

  lemma WellFormedIs(p: Manifest)
    ensures WellFormed(p) <==> p.regions.Some? && Identified(p.regions.value)
  {}

  lemma IndexOneMore(m: map<Identity, RawRegion>, regions: seq<RawRegion>, raw: RawRegion)
    requires Indexes(m, regions) && IdentityOf(raw).Some? && IdentityOf(raw).value !in m
    ensures Indexes(m[IdentityOf(raw).value := raw], regions + [raw])
  {
    var m', regions' := m[IdentityOf(raw).value := raw], regions + [raw];
    forall id | id in m'
      ensures exists i :: 0 <= i < |regions'| && IdentityOf(regions'[i]) == Some(id)
    {
      if id in m {
        var i :| 0 <= i < |regions| && IdentityOf(regions[i]) == Some(id);
        assert regions'[i] == regions[i];
      } else {
        assert regions'[|regions|] == raw;
      }
    }
  }

  ghost predicate SameHeader(local: Manifest, incoming: Manifest) {
    forall k | k in INVARIANT_KEYS ::
      k in local.header && k in incoming.header && local.header[k] == incoming.header[k]
  }

  // The incoming manifest has every region of the local one, unchanged.
  ghost predicate Extends(local: Manifest, incoming: Manifest) {
    && WellFormed(local) && WellFormed(incoming)
    && SameHeader(local, incoming)
    && (forall raw | raw in local.regions.value :: raw in incoming.regions.value)
  }

  ghost predicate HasStem(p: Manifest, stem: string) {
    p.regions.Some? && exists raw :: raw in p.regions.value && Names(raw) && raw.stem == Some(stem)
  }

  ghost predicate Accepted(local: Manifest, incoming: Manifest, selected: seq<string>) {
    Extends(local, incoming) && selected != [] && forall s | s in selected :: HasStem(incoming, s)
  }

  method ValidateHeader(local: Manifest, incoming: Manifest) returns (r: Result<(), ImportError>)
    ensures r.Success? <==> SameHeader(local, incoming)
  {
    for i := 0 to |INVARIANT_KEYS|
      invariant forall j | 0 <= j < i ::
                  && INVARIANT_KEYS[j] in local.header && INVARIANT_KEYS[j] in incoming.header
                  && local.header[INVARIANT_KEYS[j]] == incoming.header[INVARIANT_KEYS[j]]
    {
      var key := INVARIANT_KEYS[i];
      if key !in local.header || key !in incoming.header || local.header[key] != incoming.header[key] {
        assert key in INVARIANT_KEYS;
        return Failure(HeaderChanged(key));
      }
    }
    r := Success(());
  }

  method ValidateExistingRegions(local: seq<RawRegion>, incoming: seq<RawRegion>, byIdentity: map<Identity, RawRegion>)
    returns (r: Result<(), ImportError>)
    requires forall i | 0 <= i < |local| :: IdentityOf(local[i]).Some?
    requires Indexes(byIdentity, incoming)
    ensures r.Success? <==> forall raw | raw in local :: raw in incoming
  {
    for i := 0 to |local|
      invariant forall j | 0 <= j < i :: local[j] in incoming
    {
      var id := IdentityOf(local[i]).value;
      if id !in byIdentity {
        NotListed(byIdentity, incoming, local[i]);
        assert local[i] in local;
        return Failure(RegionRemoved(id));
      }
      if byIdentity[id] != local[i] {
        NotListed(byIdentity, incoming, local[i]);
        assert local[i] in local;
        return Failure(RegionChanged(id));
      }
      ghost var j :| 0 <= j < |incoming| && IdentityOf(incoming[j]) == Some(id);
      assert incoming[j] == local[i];
    }
    r := Success(());
  }

  method ValidateSelectedStems(incoming: Manifest, selected: seq<string>) returns (r: Result<(), ImportError>)
    requires incoming.regions.Some?
    ensures r.Success? <==> selected != [] && forall s | s in selected :: HasStem(incoming, s)
  {
    if selected == [] {
      return Failure(NothingSelected);
    }
    for i := 0 to |selected|
      invariant forall j | 0 <= j < i :: HasStem(incoming, selected[j])
    {
      var stem := selected[i];
      assert stem in selected;
      if !exists raw :: raw in incoming.regions.value && IdentityOf(raw).Some? && IdentityOf(raw).value.0 == stem {
        return Failure(StemMissing(stem));
      }
    }
    r := Success(());
  }

  method ValidateManifestExtension(local: Manifest, incoming: Manifest, selected: seq<string>)
    returns (r: Result<(), ImportError>)
    ensures r.Success? <==> Accepted(local, incoming, selected)
  {
    hide HasStem, SameHeader;
    var localRegions := ManifestRegions(local);
    if localRegions.Failure? { return Failure(localRegions.error); }
    var incomingRegions := ManifestRegions(incoming);
    if incomingRegions.Failure? { return Failure(incomingRegions.error); }
    r := ValidateHeader(local, incoming);
    if r.Failure? { return; }
    r := ValidateExistingRegions(local.regions.value, incoming.regions.value, incomingRegions.value);
    if r.Failure? { return; }
    r := ValidateSelectedStems(incoming, selected);
  }

  lemma NotListed(m: map<Identity, RawRegion>, regions: seq<RawRegion>, raw: RawRegion)
    requires Indexes(m, regions) && IdentityOf(raw).Some?
    requires IdentityOf(raw).value !in m || m[IdentityOf(raw).value] != raw
    ensures raw !in regions
  {}

  // Accepted extensions compose.
  lemma ExtensionsCompose(a: Manifest, b: Manifest, c: Manifest)
    requires Extends(a, b) && Extends(b, c)
    ensures Extends(a, c)
  {}

  // Over any run of accepted imports the manifest only gains regions.
  lemma {:induction false} ManifestOnlyGains(history: seq<Manifest>, j: nat, k: nat)
    requires j < k < |history|
    requires forall i | 0 < i < |history| :: Extends(history[i - 1], history[i])
    ensures Extends(history[j], history[k])
    decreases k
  {
    if j + 1 < k {
      ManifestOnlyGains(history, j, k - 1);
      ExtensionsCompose(history[j], history[k - 1], history[k]);
    }
  }

  /******* Installing a result *******/

  datatype FilePath =
    | ManifestFile
    | SentenceFile(stem: string, project: string)
    | CheckpointBatch(stem: string, project: string, index: nat)
    | CheckpointMetadata(stem: string, project: string)

  type Bytes = seq<bv8>

  datatype Content = ManifestContent(manifest: Manifest) | Data(bytes: Bytes) | Metadata(identity: string)

  type Files = map<FilePath, Content>

  // A checkpoint directory of the result: the identity in its metadata file, if it
  // has one, and its numbered batches.
  datatype Checkpoint = Checkpoint(identity: Option<string>, batches: map<nat, Bytes>) {
    predicate Contiguous() {
      forall i | 0 <= i < |batches| :: i in batches
    }
  }

  // A downloaded result with the digests its receipt declares (a digest stands for
  // the content it was computed from).
  datatype Received = Received(
    files: Files,
    declared: map<FilePath, Content>,
    checkpoints: map<Identity, Checkpoint>)

  // One batch to import: its stems, each with its source projects, and the identity
  // its checkpoints must carry.
  datatype Job = Job(stems: seq<string>, projects: map<string, seq<string>>, identity: map<Identity, string>) {
    ghost predicate Valid() {
      forall s | s in stems :: s in projects && forall p | p in projects[s] :: (s, p) in identity
    }

    ghost predicate Selects(stem: string, project: string)
      requires Valid()
    {
      stem in stems && project in projects[stem]
    }

    // How many projects the first i stems have.
    ghost function Before(i: nat): nat
      requires Valid() && i <= |stems|
    {
      if i == 0 then 0 else Before(i - 1) + |projects[stems[i - 1]]|
    }

    // Every stem and project of the job, in processing order.
    function PairsFrom(i: nat): (pairs: seq<Identity>)
      requires Valid() && i <= |stems|
      ensures forall id | id in pairs :: id in identity && Selects(id.0, id.1)
      decreases |stems| - i
    {
      if i == |stems| then []
      else
        seq(|projects[stems[i]]|, k requires 0 <= k < |projects[stems[i]]| => (stems[i], projects[stems[i]][k]))
        + PairsFrom(i + 1)
    }

    function Pairs(): (pairs: seq<Identity>)
      requires Valid()
      ensures forall id | id in pairs :: id in identity && Selects(id.0, id.1)
    {
      PairsFrom(0)
    }
  }

  lemma {:induction false} PairsFromAre(job: Job, i: nat, a: nat, b: nat)
    requires job.Valid() && i <= a < |job.stems| && b < |job.projects[job.stems[a]]|
    ensures job.Before(i) <= job.Before(a) && job.Before(a) - job.Before(i) + b < |job.PairsFrom(i)|
    ensures job.PairsFrom(i)[job.Before(a) - job.Before(i) + b] == (job.stems[a], job.projects[job.stems[a]][b])
    decreases a - i
  {
    if i < a {
      PairsFromAre(job, i + 1, a, b);
    }
  }

  lemma {:induction false} PairsFromCount(job: Job, i: nat)
    requires job.Valid() && i <= |job.stems|
    ensures job.Before(i) + |job.PairsFrom(i)| == job.Before(|job.stems|)
    decreases |job.stems| - i
  {
    if i < |job.stems| {
      PairsFromCount(job, i + 1);
    }
  }

  // The pairs are those of each stem's projects, stem after stem in the job's order.
  lemma PairsInOrder(job: Job, a: nat, b: nat)
    requires job.Valid() && a < |job.stems| && b < |job.projects[job.stems[a]]|
    ensures |job.Pairs()| == job.Before(|job.stems|) && job.Before(a) + b < |job.Pairs()|
    ensures job.Pairs()[job.Before(a) + b] == (job.stems[a], job.projects[job.stems[a]][b])
  {
    hide Job.PairsFrom, Job.Selects;
    PairsFromAre(job, 0, a, b);
    PairsFromCount(job, 0);
  }

  lemma PairsAreSelected(job: Job, stem: string, project: string)
    requires job.Valid()
    ensures (stem, project) in job.Pairs() <==> job.Selects(stem, project)
  {
    if job.Selects(stem, project) {
      var a :| 0 <= a < |job.stems| && job.stems[a] == stem;
      var b :| 0 <= b < |job.projects[stem]| && job.projects[stem][b] == project;
      PairsInOrder(job, a, b);
    }
  }

  type Copy = (FilePath, Content)

  function Install(files: Files, copies: seq<Copy>): Files
    decreases |copies|
  {
    if copies == [] then files
    else Install(files, copies[..|copies| - 1])[copies[|copies| - 1].0 := copies[|copies| - 1].1]
  }

  predicate Verified(received: Received, path: FilePath) {
    path in received.declared && path in received.files && received.files[path] == received.declared[path]
  }

  function Output(received: Received, id: Identity): Copy
    requires Verified(received, SentenceFile(id.0, id.1))
  {
    (SentenceFile(id.0, id.1), received.files[SentenceFile(id.0, id.1)])
  }

  function OutputsUpTo(received: Received, pairs: seq<Identity>, k: nat): seq<Copy>
    requires k <= |pairs|
    requires forall i | 0 <= i < k :: Verified(received, SentenceFile(pairs[i].0, pairs[i].1))
  {
    if k == 0 then [] else OutputsUpTo(received, pairs, k - 1) + [Output(received, pairs[k - 1])]
  }

  function BatchCopies(id: Identity, c: Checkpoint, k: nat): seq<Copy>
    requires c.Contiguous() && k <= |c.batches|
  {
    seq(k, i requires 0 <= i < k => (CheckpointBatch(id.0, id.1, i), Data(c.batches[i])))
  }

  // Batches first, metadata last.
  function CheckpointCopies(received: Received, id: Identity): seq<Copy> {
    if id !in received.checkpoints then []
    else
      var c := received.checkpoints[id];
      if c.identity.None? || !c.Contiguous() then []
      else BatchCopies(id, c, |c.batches|) + [(CheckpointMetadata(id.0, id.1), Metadata(c.identity.value))]
  }

  function CheckpointsUpTo(received: Received, pairs: seq<Identity>, k: nat): seq<Copy>
    requires k <= |pairs|
  {
    if k == 0 then [] else CheckpointsUpTo(received, pairs, k - 1) + CheckpointCopies(received, pairs[k - 1])
  }

  function LocalManifest(files: Files, incoming: Manifest): Manifest {
    if ManifestFile in files && files[ManifestFile].ManifestContent? then files[ManifestFile].manifest
    else incoming.(regions := Some([]))
  }

  // What is checked before the first copy.
  ghost predicate Sound(files: Files, received: Received, job: Job)
    requires job.Valid()
  {
    && IsDeclared(received, ManifestFile) && received.files[ManifestFile].ManifestContent?
    && (ManifestFile in files ==> files[ManifestFile].ManifestContent?)
    && (var incoming := received.files[ManifestFile].manifest;
        if ManifestFile in files then Accepted(files[ManifestFile].manifest, incoming, job.stems)
        else Accepted(incoming.(regions := Some([])), incoming, job.stems))
    && (forall s, p | job.Selects(s, p) :: IsDeclared(received, SentenceFile(s, p)))
  }

  // What arrived at this path is what the receipt declares for it.
  ghost predicate IsDeclared(received: Received, path: FilePath) {
    path in received.declared && path in received.files && received.files[path] == received.declared[path]
  }

  // What an import of this result may write to a path.
  ghost predicate Due(received: Received, job: Job, path: FilePath, content: Content)
    requires job.Valid()
  {
    match path
    case ManifestFile => path in received.declared && content == received.declared[path]
    case SentenceFile(s, p) => job.Selects(s, p) && path in received.declared && content == received.declared[path]
    case CheckpointBatch(s, p, i) =>
      && job.Selects(s, p) && (s, p) in received.checkpoints
      && i in received.checkpoints[(s, p)].batches && content == Data(received.checkpoints[(s, p)].batches[i])
    case CheckpointMetadata(s, p) =>
      && job.Selects(s, p) && (s, p) in received.checkpoints
      && received.checkpoints[(s, p)].identity != None
      && content == Metadata(received.checkpoints[(s, p)].identity.value)
  }

  // The paths a complete import writes to.
  ghost predicate Targets(received: Received, job: Job, path: FilePath)
    requires job.Valid()
  {
    match path
    case ManifestFile => true
    case SentenceFile(s, p) => job.Selects(s, p)
    case CheckpointBatch(s, p, i) =>
      job.Selects(s, p) && (s, p) in received.checkpoints && i in received.checkpoints[(s, p)].batches
    case CheckpointMetadata(s, p) => job.Selects(s, p) && (s, p) in received.checkpoints
  }

  // Every file after a complete import, path by path.
  ghost predicate Installed(before: Files, after: Files, received: Received, job: Job)
    requires job.Valid()
  {
    forall path ::
      if Targets(received, job, path) then path in after && Due(received, job, path, after[path])
      else Same(before, after, path)
  }

  ghost predicate Same(before: Files, after: Files, path: FilePath) {
    (path in after <==> path in before) && (path in after ==> after[path] == before[path])
  }

  // What is checked just before one checkpoint is copied.
  ghost predicate CheckpointFits(files: Files, received: Received, id: Identity, identity: string) {
    id in received.checkpoints ==>
      && received.checkpoints[id].identity == Some(identity)
      && (forall i | 0 <= i < |received.checkpoints[id].batches| :: i in received.checkpoints[id].batches)
      && (CheckpointMetadata(id.0, id.1) in files ==> files[CheckpointMetadata(id.0, id.1)] == Metadata(identity))
  }

  // This result may be installed over these files.
  ghost predicate Importable(files: Files, received: Received, job: Job)
    requires job.Valid()
  {
    Sound(files, received, job)
    && forall id | id in job.Pairs() :: CheckpointFits(files, received, id, job.identity[id])
  }

  // The copies made before the checkpoint of pair k.
  function CopiesUpTo(received: Received, job: Job, k: nat): seq<Copy>
    requires job.Valid() && ManifestFile in received.files && k <= |job.Pairs()|
    requires forall id | id in job.Pairs() :: Verified(received, SentenceFile(id.0, id.1))
  {
    [(ManifestFile, received.files[ManifestFile])] + OutputsUpTo(received, job.Pairs(), |job.Pairs()|)
    + CheckpointsUpTo(received, job.Pairs(), k)
  }

  function Copies(received: Received, job: Job): seq<Copy>
    requires job.Valid() && ManifestFile in received.files
    requires forall id | id in job.Pairs() :: Verified(received, SentenceFile(id.0, id.1))
  {
    CopiesUpTo(received, job, |job.Pairs()|)
  }

  /******* An import that is cut off and run again *******/

  lemma {:induction false} InstallKeeps(files: Files, copies: seq<Copy>, path: FilePath)
    requires forall c | c in copies :: c.0 != path
    ensures path in Install(files, copies) <==> path in files
    ensures path in files ==> Install(files, copies)[path] == files[path]
    decreases |copies|
  {
    if copies != [] {
      InstallKeeps(files, copies[..|copies| - 1], path);
    }
  }

  // What a list of copies writes to a path does not depend on what was there.
  lemma {:induction false} InstallWrites(files: Files, files': Files, copies: seq<Copy>, path: FilePath)
    requires exists c :: c in copies && c.0 == path
    ensures path in Install(files, copies) && path in Install(files', copies)
    ensures Install(files, copies)[path] == Install(files', copies)[path]
    ensures exists c :: c in copies && c.0 == path && c.1 == Install(files, copies)[path]
    decreases |copies|
  {
    var front, last := copies[..|copies| - 1], copies[|copies| - 1];
    if last.0 != path {
      InstallWrites(files, files', front, path);
    }
  }

  // Installing after an initial part of the same installation ends in the same files.
  lemma InstallAgain(files: Files, copies: seq<Copy>, k: nat)
    requires k <= |copies|
    ensures Install(Install(files, copies[..k]), copies) == Install(files, copies)
  {
    var files' := Install(files, copies[..k]);
    forall path
      ensures path in Install(files', copies) <==> path in Install(files, copies)
      ensures path in Install(files, copies) ==> Install(files', copies)[path] == Install(files, copies)[path]
    {
      if c :| c in copies && c.0 == path {
        InstallWrites(files, files', copies, path);
      } else {
        InstallKeeps(files', copies, path);
        InstallKeeps(files, copies, path);
        InstallKeeps(files, copies[..k], path);
      }
    }
  }

  ghost predicate AmongFirst(pairs: seq<Identity>, k: nat, id: Identity)
    requires k <= |pairs|
  {
    exists j :: 0 <= j < k && pairs[j] == id
  }

  // A checkpoint file copied for the first k pairs belongs to one of them.
  lemma {:induction false} CheckpointCopiesAre(received: Received, pairs: seq<Identity>, k: nat, c: Copy)
    requires k <= |pairs| && c in CheckpointsUpTo(received, pairs, k)
    ensures c.0.CheckpointBatch? || c.0.CheckpointMetadata?
    ensures c.0.CheckpointMetadata? ==>
              var id := (c.0.stem, c.0.project);
              AmongFirst(pairs, k, id) && id in received.checkpoints && received.checkpoints[id].identity.Some?
              && c.1 == Metadata(received.checkpoints[id].identity.value)
  {
    hide CheckpointCopies;
    if c in CheckpointsUpTo(received, pairs, k - 1) {
      CheckpointCopiesAre(received, pairs, k - 1, c);
    } else {
      CheckpointCopyIs(received, pairs[k - 1], c);
    }
  }

  lemma CheckpointCopyIs(received: Received, id: Identity, c: Copy)
    requires c in CheckpointCopies(received, id)
    ensures (c.0.CheckpointBatch? || c.0.CheckpointMetadata?) && (c.0.stem, c.0.project) == id
    ensures c.0.CheckpointMetadata? ==>
              id in received.checkpoints && received.checkpoints[id].identity.Some?
              && c.1 == Metadata(received.checkpoints[id].identity.value)
  {}

  lemma {:induction false} OutputsAre(received: Received, pairs: seq<Identity>, k: nat, c: Copy)
    requires k <= |pairs|
    requires forall i | 0 <= i < k :: Verified(received, SentenceFile(pairs[i].0, pairs[i].1))
    requires c in OutputsUpTo(received, pairs, k)
    ensures c.0.SentenceFile?
  {
    if c in OutputsUpTo(received, pairs, k - 1) {
      OutputsAre(received, pairs, k - 1, c);
    }
  }

  lemma CopiesAre(received: Received, job: Job, c: Copy)
    requires job.Valid() && ManifestFile in received.files
    requires forall id | id in job.Pairs() :: Verified(received, SentenceFile(id.0, id.1))
    requires c in Copies(received, job)
    ensures c.0 == ManifestFile ==> c.1 == received.files[ManifestFile]
    ensures c.0.CheckpointMetadata? ==>
              var id := (c.0.stem, c.0.project);
              id in job.Pairs() && id in received.checkpoints && received.checkpoints[id].identity.Some?
              && c.1 == Metadata(received.checkpoints[id].identity.value)
  {
    var rest := CheckpointsUpTo(received, job.Pairs(), |job.Pairs()|);
    if c in rest {
      CheckpointCopiesAre(received, job.Pairs(), |job.Pairs()|, c);
    } else if c in OutputsUpTo(received, job.Pairs(), |job.Pairs()|) {
      OutputsAre(received, job.Pairs(), |job.Pairs()|, c);
    } else {
      assert c == (ManifestFile, received.files[ManifestFile]);
    }
  }

  lemma {:induction false} OutputIsDue(received: Received, job: Job, k: nat, c: Copy)
    requires job.Valid() && k <= |job.Pairs()|
    requires forall id | id in job.Pairs() :: Verified(received, SentenceFile(id.0, id.1))
    requires c in OutputsUpTo(received, job.Pairs(), k)
    ensures Due(received, job, c.0, c.1)
  {
    if c in OutputsUpTo(received, job.Pairs(), k - 1) {
      OutputIsDue(received, job, k - 1, c);
    } else {
      assert job.Pairs()[k - 1] in job.Pairs();
    }
  }

  lemma {:induction false} CheckpointIsDue(received: Received, job: Job, k: nat, c: Copy)
    requires job.Valid() && k <= |job.Pairs()| && c in CheckpointsUpTo(received, job.Pairs(), k)
    ensures Due(received, job, c.0, c.1)
  {
    if c in CheckpointsUpTo(received, job.Pairs(), k - 1) {
      CheckpointIsDue(received, job, k - 1, c);
    } else {
      assert job.Pairs()[k - 1] in job.Pairs();
    }
  }

  // An import writes nothing but what is due.
  lemma CopyIsDue(received: Received, job: Job, c: Copy)
    requires job.Valid() && ManifestFile in received.files && Verified(received, ManifestFile)
    requires forall id | id in job.Pairs() :: Verified(received, SentenceFile(id.0, id.1))
    requires c in Copies(received, job)
    ensures Due(received, job, c.0, c.1)
  {
    hide Due;
    var n := |job.Pairs()|;
    if c in CheckpointsUpTo(received, job.Pairs(), n) {
      CheckpointIsDue(received, job, n, c);
    } else if c in OutputsUpTo(received, job.Pairs(), n) {
      OutputIsDue(received, job, n, c);
    } else {
      assert c == (ManifestFile, received.files[ManifestFile]);
      ManifestIsDue(received, job);
    }
  }

  lemma ManifestIsDue(received: Received, job: Job)
    requires job.Valid() && Verified(received, ManifestFile)
    ensures Due(received, job, ManifestFile, received.files[ManifestFile])
  {}

  lemma {:induction false} OutputIsCopied(received: Received, job: Job, k: nat, i: nat)
    requires job.Valid() && i < k <= |job.Pairs()|
    requires forall id | id in job.Pairs() :: Verified(received, SentenceFile(id.0, id.1))
    ensures Output(received, job.Pairs()[i]) in OutputsUpTo(received, job.Pairs(), k)
  {
    if i < k - 1 {
      OutputIsCopied(received, job, k - 1, i);
    }
  }

  lemma {:induction false} CheckpointIsCopied(received: Received, pairs: seq<Identity>, k: nat, i: nat, c: Copy)
    requires i < k <= |pairs| && c in CheckpointCopies(received, pairs[i])
    ensures c in CheckpointsUpTo(received, pairs, k)
  {
    hide CheckpointCopies;
    if i < k - 1 {
      CheckpointIsCopied(received, pairs, k - 1, i, c);
    }
  }

  ghost function FirstNumbers(n: nat): (numbers: set<nat>)
    ensures |numbers| == n && forall j: nat :: j in numbers <==> j < n
  {
    if n == 0 then {} else FirstNumbers(n - 1) + {n - 1}
  }

  // Numbered without a gap from zero, the batches have no other numbers.
  lemma NoOtherNumber(batches: map<nat, Bytes>, i: nat)
    requires (forall j | 0 <= j < |batches| :: j in batches) && i in batches
    ensures i < |batches|
  {
    if i >= |batches| {
      SubsetIsSmaller(FirstNumbers(|batches|) + {i}, batches.Keys);
    }
  }

  lemma {:induction false} SubsetIsSmaller(a: set<nat>, b: set<nat>)
    requires a <= b
    ensures |a| <= |b|
    decreases |a|
  {
    if x :| x in a {
      SubsetIsSmaller(a - {x}, b - {x});
    }
  }

  // A complete import writes to every path it should.
  lemma TargetIsCopied(files: Files, received: Received, job: Job, path: FilePath)
    requires job.Valid() && Importable(files, received, job) && Targets(received, job, path)
    ensures exists c :: c in Copies(received, job) && c.0 == path
  {
    var copies := Copies(received, job);
    if path == ManifestFile {
      assert copies[0].0 == path;
      return;
    }
    PairsAreSelected(job, path.stem, path.project);
    var id := (path.stem, path.project);
    var i :| 0 <= i < |job.Pairs()| && job.Pairs()[i] == id;
    if path.SentenceFile? {
      OutputIsCopied(received, job, |job.Pairs()|, i);
      assert Output(received, id) in copies;
      return;
    }
    var own := CheckpointCopies(received, id);
    assert CheckpointFits(files, received, id, job.identity[id]);
    var c := received.checkpoints[id];
    var at := if path.CheckpointBatch? then path.index else |c.batches|;
    if path.CheckpointBatch? {
      NoOtherNumber(c.batches, path.index);
    }
    assert own[at].0 == path;
    CheckpointIsCopied(received, job.Pairs(), |job.Pairs()|, i, own[at]);
    assert own[at] in copies;
  }

  lemma InstalledByImport(files: Files, received: Received, job: Job)
    requires job.Valid() && Importable(files, received, job)
    ensures Installed(files, Install(files, Copies(received, job)), received, job)
  {
    hide Targets, Due;
    SoundGives(files, received, job);
    var after := Install(files, Copies(received, job));
    hide Sound, CheckpointFits, Install, Copies;
    forall path: FilePath
      ensures if Targets(received, job, path) then path in after && Due(received, job, path, after[path])
              else Same(files, after, path)
    {
      InstalledAt(files, received, job, path);
    }
  }

  lemma InstalledAt(files: Files, received: Received, job: Job, path: FilePath)
    requires job.Valid() && Importable(files, received, job)
    ensures var after := Install(files, Copies(received, job));
            if Targets(received, job, path) then path in after && Due(received, job, path, after[path])
            else Same(files, after, path)
  {
    hide Copies, Install, CheckpointFits, Targets, Due;
    var copies := Copies(received, job);
    if c :| c in copies && c.0 == path {
      WrittenFrom(files, copies, path);
      var c' :| c' in copies && c'.0 == path && c'.1 == Install(files, copies)[path];
      CopyIsDue(received, job, c');
      DueIsTarget(received, job, path, c'.1);
    } else {
      if Targets(received, job, path) {
        TargetIsCopied(files, received, job, path);
      }
      InstallKeeps(files, copies, path);
    }
  }

  lemma DueIsTarget(received: Received, job: Job, path: FilePath, content: Content)
    requires job.Valid() && Due(received, job, path, content)
    ensures Targets(received, job, path)
  {}

  // However far an import got, each file is the one from before or one that was due.
  lemma CutIsDue(files: Files, received: Received, job: Job, k: nat, path: FilePath)
    requires job.Valid() && Sound(files, received, job) && k <= |Copies(received, job)|
    ensures var cut := Install(files, Copies(received, job)[..k]);
            Same(files, cut, path) || (path in cut && Due(received, job, path, cut[path]))
  {
    hide Copies, Install, Targets, Due;
    var done := Copies(received, job)[..k];
    if c :| c in done && c.0 == path {
      WrittenFrom(files, done, path);
      var c' :| c' in done && c'.0 == path && c'.1 == Install(files, done)[path];
      CopyIsDue(received, job, c');
    } else {
      InstallKeeps(files, done, path);
    }
  }

  // After any number of its copies the same result may still be imported, and the
  // second import ends in the files of an uninterrupted one.
  lemma RerunFinishesImport(files: Files, received: Received, job: Job, k: nat)
    requires job.Valid() && Importable(files, received, job) && k <= |Copies(received, job)|
    ensures var cut := Install(files, Copies(received, job)[..k]);
            && Importable(cut, received, job)
            && Install(cut, Copies(received, job)) == Install(files, Copies(received, job))
  {
    var copies := Copies(received, job);
    var done := copies[..k];
    var cut := Install(files, done);
    InstallAgain(files, copies, k);
    var incoming := received.files[ManifestFile].manifest;
    if k == 0 {
      assert done == [];
    } else {
      assert done[0] == copies[0];
      WrittenFrom(files, done, ManifestFile);
      var c :| c in done && c.0 == ManifestFile && c.1 == cut[ManifestFile];
      CopiesAre(received, job, c);
      assert Extends(incoming, incoming);
    }
    forall id | id in job.Pairs()
      ensures CheckpointFits(cut, received, id, job.identity[id])
    {
      var path := CheckpointMetadata(id.0, id.1);
      if c :| c in done && c.0 == path {
        WrittenFrom(files, done, path);
        var c' :| c' in done && c'.0 == path && c'.1 == cut[path];
        CopiesAre(received, job, c');
      } else {
        InstallKeeps(files, done, path);
      }
    }
  }

  lemma WrittenFrom(files: Files, copies: seq<Copy>, path: FilePath)
    requires exists c :: c in copies && c.0 == path
    ensures path in Install(files, copies)
    ensures exists c :: c in copies && c.0 == path && c.1 == Install(files, copies)[path]
  {
    InstallWrites(files, files, copies, path);
  }

  // At every point of an import the manifest extends the one it started from.
  lemma ManifestGainsDuringImport(files: Files, received: Received, job: Job, k: nat)
    requires job.Valid() && Sound(files, received, job) && k <= |Copies(received, job)|
    ensures var cut := Install(files, Copies(received, job)[..k]);
            && (ManifestFile in files || k > 0 ==> ManifestFile in cut && cut[ManifestFile].ManifestContent?)
            && (ManifestFile in files ==> Extends(files[ManifestFile].manifest, cut[ManifestFile].manifest))
  {
    var done := Copies(received, job)[..k];
    if k == 0 {
      assert done == [];
      if ManifestFile in files {
        var local := files[ManifestFile].manifest;
        assert Extends(local, local);
      }
    } else {
      assert done[0] == Copies(received, job)[0];
      WrittenFrom(files, done, ManifestFile);
      var c :| c in done && c.0 == ManifestFile && c.1 == Install(files, done)[ManifestFile];
      CopiesAre(received, job, c);
    }
  }

  // An import of a sound result that made some number of its copies, whether it was cut
  // off, stopped at a foreign checkpoint or went through.
  datatype Attempt = Attempt(received: Received, job: Job, made: nat)

  ghost predicate Imports(files: Files, a: Attempt, files': Files) {
    && a.job.Valid() && Sound(files, a.received, a.job) && a.made <= |Copies(a.received, a.job)|
    && files' == Install(files, Copies(a.received, a.job)[..a.made])
  }

  lemma ImportGains(files: Files, a: Attempt, files': Files)
    requires Imports(files, a, files') && ManifestFile in files
    ensures ManifestFile in files' && files[ManifestFile].ManifestContent? && files'[ManifestFile].ManifestContent?
    ensures Extends(files[ManifestFile].manifest, files'[ManifestFile].manifest)
  {
    ManifestGainsDuringImport(files, a.received, a.job, a.made);
  }

  // Over any run of imports, finished, cut off or refused anywhere, a manifest once present
  // stays, and every region it ever listed stays in it unchanged.
  lemma {:induction false} RegionsStay(history: seq<Files>, attempts: seq<Attempt>, j: nat, k: nat)
    requires |history| == |attempts| + 1 && j < k < |history|
    requires forall i | 0 <= i < |attempts| :: Imports(history[i], attempts[i], history[i + 1])
    requires ManifestFile in history[j]
    ensures ManifestFile in history[k] && history[j][ManifestFile].ManifestContent?
    ensures history[k][ManifestFile].ManifestContent?
    ensures Extends(history[j][ManifestFile].manifest, history[k][ManifestFile].manifest)
    decreases k
  {
    hide Imports, Extends;
    if j + 1 < k {
      RegionsStay(history, attempts, j, k - 1);
    }
    ImportGains(history[k - 1], attempts[k - 1], history[k]);
    if j + 1 < k {
      ExtensionsCompose(history[j][ManifestFile].manifest, history[k - 1][ManifestFile].manifest,
          history[k][ManifestFile].manifest);
    }
  }

  // Over any run of imports, finished, cut off or refused anywhere, no file disappears, and
  // one that changed is what the last import to change it was due to write: a manifest or a
  // sentence file has the content which the receipt of that import declares.
  lemma {:induction false} ChangesWereDue(history: seq<Files>, attempts: seq<Attempt>, j: nat, k: nat, path: FilePath)
    requires |history| == |attempts| + 1 && j <= k < |history|
    requires forall i | 0 <= i < |attempts| :: Imports(history[i], attempts[i], history[i + 1])
    ensures path in history[j] ==> path in history[k]
    ensures path in history[k] ==>
              || (path in history[j] && history[k][path] == history[j][path])
              || DueBetween(attempts, j, k, path, history[k][path])
    decreases k
  {
    hide Due, Sound;
    if j < k {
      ChangesWereDue(history, attempts, j, k - 1, path);
      var a := attempts[k - 1];
      assert Imports(history[k - 1], a, history[k]);
      CutIsDue(history[k - 1], a.received, a.job, a.made, path);
    }
  }

  ghost predicate DueBetween(attempts: seq<Attempt>, j: nat, k: nat, path: FilePath, content: Content) {
    exists i :: j <= i < k <= |attempts| && attempts[i].job.Valid()
                && Due(attempts[i].received, attempts[i].job, path, content)
  }

  /******* The import itself *******/

  lemma {:induction false} InstallBoth(files: Files, first: seq<Copy>, second: seq<Copy>)
    ensures Install(Install(files, first), second) == Install(files, first + second)
    decreases |second|
  {
    if second == [] {
      assert first + second == first;
    } else {
      var front := second[..|second| - 1];
      InstallBoth(files, first, front);
      assert (first + second)[..|first + second| - 1] == first + front;
    }
  }

  // Copying part of a second list after all of a first is copying part of both.
  lemma InstallPart(files: Files, first: seq<Copy>, second: seq<Copy>, n: nat)
    requires n <= |second|
    ensures Install(Install(files, first), second[..n]) == Install(files, (first + second)[..|first| + n])
  {
    InstallBoth(files, first, second[..n]);
    assert first + second[..n] == (first + second)[..|first| + n];
  }

  lemma InstallWithin(files: Files, first: seq<Copy>, second: seq<Copy>, all: seq<Copy>, n: nat)
    requires first + second <= all && n <= |second|
    ensures Install(Install(files, first), second[..n]) == Install(files, all[..|first| + n])
    ensures n == |second| ==> Install(Install(files, first), second[..n]) == Install(files, first + second)
  {
    InstallPart(files, first, second, n);
    assert (first + second)[..|first| + n] == all[..|first| + n];
    assert n == |second| ==> (first + second)[..|first| + n] == first + second;
  }

  // A checkpoint's check has the same outcome after earlier copies as before them.
  lemma FitsStill(files: Files, copies: seq<Copy>, received: Received, id: Identity, identity: string)
    requires forall c | c in copies && c.0 == CheckpointMetadata(id.0, id.1) ::
               c.1 == Metadata(identity) && CheckpointFits(files, received, id, identity)
    ensures CheckpointFits(Install(files, copies), received, id, identity) <==>
              CheckpointFits(files, received, id, identity)
  {
    var path := CheckpointMetadata(id.0, id.1);
    if c :| c in copies && c.0 == path {
      WrittenFrom(files, copies, path);
    } else {
      InstallKeeps(files, copies, path);
    }
  }

  // What the copies before the checkpoint of pair k leave of its check.
  lemma FitsAtItsTurn(files: Files, received: Received, job: Job, k: nat)
    requires job.Valid() && Sound(files, received, job) && k < |job.Pairs()|
    requires forall j | 0 <= j < k :: CheckpointFits(files, received, job.Pairs()[j], job.identity[job.Pairs()[j]])
    ensures CheckpointFits(Install(files, CopiesUpTo(received, job, k)), received, job.Pairs()[k],
              job.identity[job.Pairs()[k]])
       <==> CheckpointFits(files, received, job.Pairs()[k], job.identity[job.Pairs()[k]])
  {
    var pairs := job.Pairs();
    var id := pairs[k];
    var copies := CopiesUpTo(received, job, k);
    forall c | c in copies && c.0 == CheckpointMetadata(id.0, id.1)
      ensures c.1 == Metadata(job.identity[id]) && CheckpointFits(files, received, id, job.identity[id])
    {
      if c in OutputsUpTo(received, pairs, |pairs|) {
        OutputsAre(received, pairs, |pairs|, c);
        assert false;
      } else {
        CheckpointCopiesAre(received, pairs, k, c);
      }
    }
    FitsStill(files, copies, received, id, job.identity[id]);
  }

  lemma NextCopies(received: Received, job: Job, k: nat)
    requires job.Valid() && ManifestFile in received.files && k < |job.Pairs()|
    requires forall id | id in job.Pairs() :: Verified(received, SentenceFile(id.0, id.1))
    ensures CopiesUpTo(received, job, k + 1) ==
              CopiesUpTo(received, job, k) + CheckpointCopies(received, job.Pairs()[k])
  {}

  lemma {:induction false} PrefixOfCopies(received: Received, job: Job, k: nat)
    requires job.Valid() && ManifestFile in received.files && k <= |job.Pairs()|
    requires forall id | id in job.Pairs() :: Verified(received, SentenceFile(id.0, id.1))
    ensures CopiesUpTo(received, job, k) <= Copies(received, job)
    decreases |job.Pairs()| - k
  {
    if k < |job.Pairs()| {
      NextCopies(received, job, k);
      PrefixOfCopies(received, job, k + 1);
    }
  }

  lemma AllCopies(received: Received, job: Job)
    requires job.Valid() && ManifestFile in received.files
    requires forall id | id in job.Pairs() :: Verified(received, SentenceFile(id.0, id.1))
    ensures CopiesUpTo(received, job, |job.Pairs()|) == Copies(received, job)
    ensures CopiesUpTo(received, job, 0) <= Copies(received, job)
  {
    PrefixOfCopies(received, job, 0);
  }

  lemma SoundGives(files: Files, received: Received, job: Job)
    requires job.Valid() && Sound(files, received, job)
    ensures ManifestFile in received.files
    ensures forall id | id in job.Pairs() :: Verified(received, SentenceFile(id.0, id.1))
  {}

  // Making n copies of one checkpoint after those before it.
  lemma InstallCheckpoint(files: Files, received: Received, job: Job, k: nat, n: nat)
    requires job.Valid() && ManifestFile in received.files && k < |job.Pairs()|
    requires forall id | id in job.Pairs() :: Verified(received, SentenceFile(id.0, id.1))
    requires n <= |CheckpointCopies(received, job.Pairs()[k])|
    ensures var own := CheckpointCopies(received, job.Pairs()[k]);
            var sofar := CopiesUpTo(received, job, k);
            && |CopiesUpTo(received, job, k + 1)| == |sofar| + |own|
            && |sofar| + |own| <= |Copies(received, job)|
            && Install(Install(files, sofar), own[..n]) == Install(files, Copies(received, job)[..|sofar| + n])
            && (n == |own| ==>
                Install(Install(files, sofar), own[..n]) == Install(files, CopiesUpTo(received, job, k + 1)))
  {
    hide CheckpointCopies, CopiesUpTo, Copies, Verified, Install;
    NextCopies(received, job, k);
    PrefixOfCopies(received, job, k + 1);
    InstallWithin(files, CopiesUpTo(received, job, k), CheckpointCopies(received, job.Pairs()[k]),
        Copies(received, job), n);
  }

  lemma UnsoundIsNotImportable(files: Files, received: Received, job: Job)
    requires job.Valid() && !Sound(files, received, job)
    ensures !Importable(files, received, job)
  {}

  lemma FitsOfImportable(files: Files, received: Received, job: Job, k: nat)
    requires job.Valid() && k < |job.Pairs()| && Importable(files, received, job)
    ensures CheckpointFits(files, received, job.Pairs()[k], job.identity[job.Pairs()[k]])
  {
    assert job.Pairs()[k] in job.Pairs();
  }

  lemma AllFitIsImportable(files: Files, received: Received, job: Job)
    requires job.Valid() && Sound(files, received, job)
    requires forall j | 0 <= j < |job.Pairs()| ::
              CheckpointFits(files, received, job.Pairs()[j], job.identity[job.Pairs()[j]])
    ensures Importable(files, received, job)
  {}

  // The local data root, and how many copies the process lives to make.
  class LocalData {
    var files: Files
    var left: nat

    method CopyFile(copy: Copy) returns (ok: bool)
      modifies this
      ensures ok <==> old(left) > 0
      ensures ok ==> files == old(files)[copy.0 := copy.1] && left == old(left) - 1
      ensures !ok ==> files == old(files) && left == old(left)
    {
      ok := left > 0;
      if ok {
        files := files[copy.0 := copy.1];
        left := left - 1;
      }
    }

    method CopyAll(copies: seq<Copy>) returns (ok: bool, ghost done: nat)
      modifies this
      ensures done == (if |copies| <= old(left) then |copies| else old(left)) && ok == (done == |copies|)
      ensures files == Install(old(files), copies[..done]) && left == old(left) - done
    {
      done := 0;
      for i := 0 to |copies|
        invariant done == i && left == old(left) - i
        invariant files == Install(old(files), copies[..i])
      {
        ok := CopyFile(copies[i]);
        if !ok { return; }
        assert copies[..i + 1][..i] == copies[..i];
        done := done + 1;
      }
      ok := true;
    }

    method ImportCheckpoint(received: Received, id: Identity, identity: string)
      returns (r: Result<(), ImportError>, ghost done: nat)
      modifies this
      ensures done <= |CheckpointCopies(received, id)| && left == old(left) - done
      ensures files == Install(old(files), CheckpointCopies(received, id)[..done])
      ensures !CheckpointFits(old(files), received, id, identity) ==> r == Failure(CheckpointMismatch(id))
      ensures CheckpointFits(old(files), received, id, identity) ==>
                done == (if |CheckpointCopies(received, id)| <= old(left)
                         then |CheckpointCopies(received, id)| else old(left))
                && r == (if done == |CheckpointCopies(received, id)| then Success(()) else Failure(CutOff))
    {
      done := 0;
      if id !in received.checkpoints {
        return Success(()), 0;
      }
      var c := received.checkpoints[id];
      if c.identity != Some(identity) || !c.Contiguous() {
        return Failure(CheckpointMismatch(id)), 0;
      }
      var path := CheckpointMetadata(id.0, id.1);
      if path in files && files[path] != Metadata(identity) {
        return Failure(CheckpointMismatch(id)), 0;
      }
      ghost var all := CheckpointCopies(received, id);
      var batches := BatchCopies(id, c, |c.batches|);
      var ok;
      ok, done := CopyAll(batches);
      assert batches[..done] == all[..done];
      if !ok {
        return Failure(CutOff), done;
      }
      assert all[..|batches|] == batches;
      ok := CopyFile((path, Metadata(c.identity.value)));
      if !ok {
        return Failure(CutOff), done;
      }
      assert all[..|all|][..|batches|] == batches && all[..|all|] == all;
      return Success(()), done + 1;
    }

    method Validate(received: Received, job: Job) returns (r: Result<seq<Copy>, ImportError>)
      requires job.Valid()
      ensures r.Success? <==> Sound(files, received, job)
      ensures r.Success? ==> ManifestFile in received.files && r.value == CopiesUpTo(received, job, 0)
    {
      if !Verified(received, ManifestFile) {
        return Failure(ArtifactMissing(ManifestFile));
      }
      if !received.files[ManifestFile].ManifestContent? ||
          (ManifestFile in files && !files[ManifestFile].ManifestContent?) {
        return Failure(ArtifactMismatch(ManifestFile));
      }
      var incoming := received.files[ManifestFile].manifest;
      var valid := ValidateManifestExtension(LocalManifest(files, incoming), incoming, job.stems);
      if valid.Failure? {
        return Failure(valid.error);
      }
      var outputs := ValidateOutputs(received, job);
      if outputs.Failure? {
        return Failure(outputs.error);
      }
      r := Success([(ManifestFile, received.files[ManifestFile])] + outputs.value);
    }

    method ValidateOutputs(received: Received, job: Job) returns (r: Result<seq<Copy>, ImportError>)
      requires job.Valid()
      ensures r.Success? <==> forall s, p | job.Selects(s, p) :: IsDeclared(received, SentenceFile(s, p))
      ensures r.Success? ==> r.value == OutputsUpTo(received, job.Pairs(), |job.Pairs()|)
    {
      var pairs := job.Pairs();
      var copies := [];
      for i := 0 to |pairs|
        invariant forall j | 0 <= j < i :: Verified(received, SentenceFile(pairs[j].0, pairs[j].1))
        invariant copies == OutputsUpTo(received, pairs, i)
      {
        var id := pairs[i];
        assert id in pairs;
        if !Verified(received, SentenceFile(id.0, id.1)) {
          return Failure(ArtifactMissing(SentenceFile(id.0, id.1)));
        }
        copies := copies + [Output(received, id)];
      }
      forall s, p | job.Selects(s, p)
        ensures IsDeclared(received, SentenceFile(s, p))
      {
        PairsAreSelected(job, s, p);
      }
      r := Success(copies);
    }

    // Every checkpoint in turn, each checked against the files as they are by then.
    // The files were before when the import began; made counts its copies.
    method ImportCheckpoints(received: Received, job: Job, ghost before: Files, ghost made: nat)
      returns (r: Result<(), ImportError>, ghost done: nat)
      requires job.Valid() && Sound(before, received, job)
      requires made == |CopiesUpTo(received, job, 0)| && files == Install(before, CopiesUpTo(received, job, 0))
      modifies this
      ensures done <= |Copies(received, job)| && files == Install(before, Copies(received, job)[..done])
      ensures made <= done && left == old(left) - (done - made)
      ensures r.Success? <==> Importable(before, received, job) && |Copies(received, job)| - made <= old(left)
      ensures r.Success? ==> done == |Copies(received, job)|
      ensures r == Failure(CutOff) ==> left == 0
    {
      hide Importable, Sound, CheckpointFits, CheckpointCopies, CopiesUpTo, Copies, Verified;
      var pairs := job.Pairs();
      SoundGives(before, received, job);
      AllCopies(received, job);
      done := made;
      ghost var all := Copies(received, job);
      for k := 0 to |pairs|
        invariant forall j | 0 <= j < k :: CheckpointFits(before, received, pairs[j], job.identity[pairs[j]])
        invariant made <= done == |CopiesUpTo(received, job, k)| && left == old(left) - (done - made)
        invariant files == Install(before, CopiesUpTo(received, job, k))
      {
        FitsAtItsTurn(before, received, job, k);
        ghost var n;
        r, n := ImportCheckpoint(received, pairs[k], job.identity[pairs[k]]);
        InstallCheckpoint(before, received, job, k, n);
        done := done + n;
        if r.Failure? {
          if Importable(before, received, job) {
            FitsOfImportable(before, received, job, k);
          }
          return;
        }
      }
      AllFitIsImportable(before, received, job);
      assert all[..|all|] == all;
      r := Success(());
    }

    // An import succeeds exactly when the result may be installed and nothing cuts
    // the import off; whatever happens, what it did is an initial part of its copies.
    method Import(received: Received, job: Job) returns (r: Result<(), ImportError>, ghost done: nat)
      requires job.Valid()
      modifies this
      ensures r.Success? <==> Importable(old(files), received, job) && |Copies(received, job)| <= old(left)
      ensures r.Success? ==> Installed(old(files), files, received, job)
      // nothing is copied if an artifact is not declared, missing or not as declared
      ensures r.Success? || files != old(files) ==>
                forall path | path == ManifestFile
                              || (path.SentenceFile? && job.Selects(path.stem, path.project)) ::
                  && path in received.declared && path in received.files
                  && received.files[path] == received.declared[path]
      ensures !Sound(old(files), received, job) ==> files == old(files) && r.Failure?
      ensures Sound(old(files), received, job) ==>
                done <= |Copies(received, job)| && files == Install(old(files), Copies(received, job)[..done])
      ensures r.Success? ==> done == |Copies(received, job)|
      ensures r == Failure(CutOff) && Sound(old(files), received, job) ==> done == old(left)
    {
      hide Importable, CheckpointFits, CheckpointCopies, Accepted, Extends, Installed;
      var valid := Validate(received, job);
      if valid.Failure? {
        UnsoundIsNotImportable(files, received, job);
        return Failure(valid.error), 0;
      }
      AllCopies(received, job);
      ghost var before := files;
      var ok;
      ok, done := CopyAll(valid.value);
      if !ok {
        assert valid.value[..done] == Copies(received, job)[..done];
        return Failure(CutOff), done;
      }
      assert valid.value[..done] == CopiesUpTo(received, job, 0);
      r, done := ImportCheckpoints(received, job, before, done);
      if r.Success? {
        assert Copies(received, job)[..done] == Copies(received, job);
        InstalledByImport(before, received, job);
      }
    }
  }
}
