/**
 Logging in once per host from many threads. Threads take small steps in any order:
 they look at a host's flags without its lock, wait for the lock, look again, log in,
 and pace their request; other threads count hosts for a snapshot meanwhile.
 */
module HostLogin {
  import opened Wrappers

  type Name = string
  type Thread = nat

  // A contacted host: whether its login was verified, whether it was rejected, and the
  // thread that holds its lock.
  datatype Host = Host(authenticated: bool, skipped: bool, holder: Option<Thread>) {
    predicate Decided() {
      authenticated || skipped
    }
  }

  datatype Tally = Tally(authenticated: nat, anonymous: nat, pending: nat) {
    function Sum(): nat {
      authenticated + anonymous + pending
    }
  }

  // Where a thread is.
  datatype Place =
    | Idle
    | Contacted(host: Name)                 // has the host's state, nothing checked
    | SeenUnverified(host: Name)            // read the first flag as false
    | Waiting(host: Name)                   // read both as false, wants the lock
    | Locked(host: Name)                    // has the lock, about to look again
    | LoggingIn(host: Name)
    | Deciding(host: Name)                  // login over or not needed, lock still held
    | Failing(host: Name)                   // login broke off, lock still held
    | Ready(host: Name)
    | Snapping(left: seq<Name>, tally: Tally, total: nat)
    | Classifying(host: Name, rest: seq<Name>, tally: Tally, total: nat)   // holds that host's lock

  datatype Interval = Anonymous | Authenticated

  // What has been done so far that can no longer be undone.
  datatype Log =
    | Verdict(host: Name, accepted: bool)
    | Paced(host: Name, interval: Interval)
    | Counted(host: Name, as_: Class)
    | Snapshot(tally: Tally, total: nat)

  datatype Class = AsAuthenticated | AsAnonymous | AsPending

  datatype World = World(credentials: bool, hosts: map<Name, Host>, threads: map<Thread, Place>, log: seq<Log>) {
    function At(t: Thread): Place {
      if t in threads then threads[t] else Idle
    }

    function Move(t: Thread, p: Place): World {
      this.(threads := threads[t := p])
    }

    function Set(host: Name, h: Host): World {
      this.(hosts := hosts[host := h])
    }

    function Note(entry: Log): World {
      this.(log := log + [entry])
    }

    function Lock(host: Name, t: Thread): World
      requires host in hosts
    {
      Set(host, hosts[host].(holder := Some(t)))
    }

    function Unlock(host: Name): World
      requires host in hosts
    {
      Set(host, hosts[host].(holder := None))
    }
  }

  datatype Step =
    | Contact(host: Name)
    | ReadVerified
    | ReadSkipped
    | Acquire
    | LookAgain
    | LoginEnds(accepted: bool)
    | LoginBreaks
    | Release
    | Pace
    | ListHosts(listing: seq<Name>)
    | TryLock
    | Classify
    | FinishSnapshot

  predicate HoldsLock(p: Place, host: Name) {
    match p
    case Locked(h) => h == host
    case LoggingIn(h) => h == host
    case Deciding(h) => h == host
    case Failing(h) => h == host
    case Classifying(h, _, _, _) => h == host
    case _ => false
  }

  // The host a thread is busy with has been contacted.
  predicate Known(w: World, p: Place) {
    match p
    case Idle => true
    case Snapping(left, _, _) => forall h | h in left :: h in w.hosts
    case Classifying(h, rest, _, _) => h in w.hosts && forall h | h in rest :: h in w.hosts
    case _ => p.host in w.hosts
  }

  // Every host once, in any order.
  predicate Lists(listing: seq<Name>, w: World) {
    (set h | h in listing) == w.hosts.Keys && |listing| == |w.hosts|
  }

  predicate Enabled(w: World, t: Thread, s: Step) {
    var p := w.At(t);
    Known(w, p) &&
    match s
    case Contact(_) => p.Idle?
    case ReadVerified => p.Contacted?
    case ReadSkipped => p.SeenUnverified?
    case Acquire => p.Waiting? && w.hosts[p.host].holder == None
    case LookAgain => p.Locked?
    case LoginEnds(_) => p.LoggingIn?
    case LoginBreaks => p.LoggingIn?
    case Release => p.Deciding? || p.Failing?
    case Pace => p.Ready?
    case ListHosts(listing) => p.Idle? && Lists(listing, w)
    case TryLock => p.Snapping? && p.left != []
    case Classify => p.Classifying?
    case FinishSnapshot => p.Snapping? && p.left == []
  }

  function ClassOf(w: World, h: Host): Class {
    if h.authenticated then AsAuthenticated
    else if h.skipped || !w.credentials then AsAnonymous
    else AsPending
  }

  function CountAs(tally: Tally, c: Class): Tally {
    match c
    case AsAuthenticated => tally.(authenticated := tally.authenticated + 1)
    case AsAnonymous => tally.(anonymous := tally.anonymous + 1)
    case AsPending => tally.(pending := tally.pending + 1)
  }

  function Apply(w: World, t: Thread, s: Step): World
    requires Enabled(w, t, s)
  {
    var p := w.At(t);
    match s
    case Contact(host) =>
      (if host in w.hosts then w else w.Set(host, Host(false, false, None))).Move(t, Contacted(host))
    case ReadVerified =>
      w.Move(t, if !w.credentials || w.hosts[p.host].authenticated then Ready(p.host) else SeenUnverified(p.host))
    case ReadSkipped =>
      w.Move(t, if w.hosts[p.host].skipped then Ready(p.host) else Waiting(p.host))
    case Acquire =>
      w.Lock(p.host, t).Move(t, Locked(p.host))
    case LookAgain =>
      w.Move(t, if w.hosts[p.host].Decided() then Deciding(p.host) else LoggingIn(p.host))
    case LoginEnds(accepted) =>
      var h := w.hosts[p.host];
      w.Set(p.host, if accepted then h.(authenticated := true) else h.(skipped := true))
        .Note(Verdict(p.host, accepted)).Move(t, Deciding(p.host))
    case LoginBreaks =>
      w.Move(t, Failing(p.host))
    case Release =>
      w.Unlock(p.host).Move(t, if p.Failing? then Idle else Ready(p.host))
    case Pace =>
      w.Note(Paced(p.host, if w.hosts[p.host].authenticated then Authenticated else Anonymous)).Move(t, Idle)
    case ListHosts(listing) =>
      w.Move(t, Snapping(listing, Tally(0, 0, 0), |listing|))
    case TryLock =>
      var host, rest := p.left[0], p.left[1..];
      if w.hosts[host].holder == None then w.Lock(host, t).Move(t, Classifying(host, rest, p.tally, p.total))
      else w.Note(Counted(host, AsPending)).Move(t, Snapping(rest, CountAs(p.tally, AsPending), p.total))
    case Classify =>
      var c := ClassOf(w, w.hosts[p.host]);
      w.Note(Counted(p.host, c)).Unlock(p.host).Move(t, Snapping(p.rest, CountAs(p.tally, c), p.total))
    case FinishSnapshot =>
      w.Note(Snapshot(p.tally, p.total)).Move(t, Idle)
  }

  /******* What every step keeps *******/

  // A host's lock is held by the one thread that is at a place under it.
  ghost predicate LocksAreHeld(w: World) {
    forall host, t: Thread | host in w.hosts :: HoldsLock(w.At(t), host) <==> w.hosts[host].holder == Some(t)
  }

  // A place says what its thread may rely on.
  predicate Justified(w: World, p: Place) {
    && Known(w, p)
    && match p
       case SeenUnverified(_) => w.credentials
       case Waiting(_) => w.credentials
       case Locked(_) => w.credentials
       case LoggingIn(h) => w.credentials && !w.hosts[h].Decided()
       case Deciding(h) => w.credentials && w.hosts[h].Decided()
       case Failing(h) => w.credentials
       case Ready(h) => w.credentials ==> w.hosts[h].Decided()
       case Snapping(left, tally, total) => tally.Sum() + |left| == total
       case Classifying(_, rest, tally, total) => tally.Sum() + 1 + |rest| == total
       case _ => true
  }

  predicate FlagsFit(w: World, h: Host) {
    !(h.authenticated && h.skipped) && (h.Decided() ==> w.credentials)
  }

  // An entry still agrees with the flags.
  predicate Agrees(w: World, entry: Log) {
    match entry
    case Verdict(h, accepted) => h in w.hosts && (if accepted then w.hosts[h].authenticated else w.hosts[h].skipped)
    case Paced(h, interval) =>
      && h in w.hosts && (w.credentials ==> w.hosts[h].Decided())
      && (interval == Authenticated <==> w.hosts[h].authenticated)
    case Counted(h, c) =>
      && h in w.hosts
      && (c == AsAuthenticated ==> w.hosts[h].authenticated)
      && (c == AsAnonymous ==> w.hosts[h].skipped || !w.credentials)
    case Snapshot(tally, total) => tally.Sum() == total
  }

  predicate IsVerdict(entry: Log, host: Name) {
    entry.Verdict? && entry.host == host
  }

  // One verdict for a decided host, none for others.
  ghost predicate VerdictsFit(w: World) {
    && (forall i, j | 0 <= i < j < |w.log| && w.log[i].Verdict? && w.log[j].Verdict? :: w.log[i].host != w.log[j].host)
    && (forall host | host in w.hosts && !w.hosts[host].Decided() ::
        forall i | 0 <= i < |w.log| :: !IsVerdict(w.log[i], host))
  }

  ghost predicate Safe(w: World) {
    && LocksAreHeld(w)
    && (forall t: Thread :: Justified(w, w.At(t)))
    && (forall host | host in w.hosts :: FlagsFit(w, w.hosts[host]))
    && (forall i | 0 <= i < |w.log| :: Agrees(w, w.log[i]))
    && VerdictsFit(w)
  }

  // Hosts stay, and a decision once made stays as it is.
  ghost predicate Grows(w: World, w': World) {
    && w'.credentials == w.credentials && w.log <= w'.log
    && forall host | host in w.hosts ::
         && host in w'.hosts
         && (w.hosts[host].Decided() ==>
               && w'.hosts[host].authenticated == w.hosts[host].authenticated
               && w'.hosts[host].skipped == w.hosts[host].skipped)
  }

  ghost predicate Initial(w: World) {
    w.hosts == map[] && w.threads == map[] && w.log == []
  }

  lemma InitialIsSafe(w: World)
    requires Initial(w)
    ensures Safe(w)
  {}

  // Only the end of a login changes a flag, and only of the host logged in to.
  lemma FlagsAfter(w: World, t: Thread, s: Step, host: Name)
    requires Enabled(w, t, s) && host in w.hosts
    ensures var w' := Apply(w, t, s);
            && w'.credentials == w.credentials && host in w'.hosts
            && (!(s.LoginEnds? && w.At(t).host == host) ==>
                  && w'.hosts[host].authenticated == w.hosts[host].authenticated
                  && w'.hosts[host].skipped == w.hosts[host].skipped)
  {}

  lemma LogAfter(w: World, t: Thread, s: Step)
    requires Enabled(w, t, s)
    ensures var w' := Apply(w, t, s);
            w'.log == w.log || (|w'.log| == |w.log| + 1 && w'.log[..|w.log|] == w.log)
  {}

  lemma StepGrows(w: World, t: Thread, s: Step)
    requires Safe(w) && Enabled(w, t, s)
    ensures Grows(w, Apply(w, t, s))
  {
    assert Justified(w, w.At(t));
    LogAfter(w, t, s);
    forall host | host in w.hosts
      ensures host in Apply(w, t, s).hosts
      ensures w.hosts[host].Decided() ==>
                && Apply(w, t, s).hosts[host].authenticated == w.hosts[host].authenticated
                && Apply(w, t, s).hosts[host].skipped == w.hosts[host].skipped
    {
      FlagsAfter(w, t, s, host);
    }
    CredentialsStay(w, t, s);
  }

  lemma CredentialsStay(w: World, t: Thread, s: Step)
    requires Enabled(w, t, s)
    ensures Apply(w, t, s).credentials == w.credentials
  {}

  lemma OthersStay(w: World, t: Thread, s: Step, u: Thread)
    requires Enabled(w, t, s) && u != t
    ensures Apply(w, t, s).At(u) == w.At(u)
  {}

  // What a step does to the locks.
  lemma HoldersAfter(w: World, t: Thread, s: Step, host: Name)
    requires Enabled(w, t, s) && host in Apply(w, t, s).hosts
    requires HoldsLock(w.At(t), host) ==> host in w.hosts && w.hosts[host].holder == Some(t)
    requires !HoldsLock(w.At(t), host) ==> host in w.hosts ==> w.hosts[host].holder != Some(t)
    ensures var w' := Apply(w, t, s);
            && (HoldsLock(w'.At(t), host) <==> w'.hosts[host].holder == Some(t))
            && (w'.hosts[host].holder == Some(t) || (host in w.hosts && w.hosts[host].holder == Some(t)) ||
                  w'.hosts[host].holder == if host in w.hosts then w.hosts[host].holder else None)
            && (w'.hosts[host].holder == Some(t) ==>
                host in w.hosts && (w.hosts[host].holder == None || w.hosts[host].holder == Some(t)))
            && (host in w.hosts && w.hosts[host].holder == Some(t) ==>
                  w'.hosts[host].holder == Some(t) || w'.hosts[host].holder == None)
  {}

  lemma StepKeepsLocks(w: World, t: Thread, s: Step)
    requires Safe(w) && Enabled(w, t, s)
    ensures LocksAreHeld(Apply(w, t, s))
  {
    hide HoldsLock, Apply, Enabled, Agrees, FlagsFit;
    var w' := Apply(w, t, s);
    forall host, u: Thread | host in w'.hosts
      ensures HoldsLock(w'.At(u), host) <==> w'.hosts[host].holder == Some(u)
    {
      assert Justified(w, w.At(t)) && Justified(w, w.At(u));
      LockOfKnown(w, w.At(t), host);
      LockOfKnown(w, w.At(u), host);
      HoldersAfter(w, t, s, host);
      if u != t {
        OthersStay(w, t, s, u);
      }
    }
  }

  lemma LockOfKnown(w: World, p: Place, host: Name)
    requires Known(w, p)
    ensures HoldsLock(p, host) ==> host in w.hosts
  {}

  // What other threads rely on survives a step.
  lemma JustifiedStays(w: World, w': World, p: Place)
    requires Justified(w, p) && Grows(w, w')
    requires p.LoggingIn? ==> p.host in w'.hosts && !w'.hosts[p.host].Decided()
    ensures Justified(w', p)
  {}

  lemma OwnPlaceJustified(w: World, t: Thread, s: Step)
    requires Enabled(w, t, s) && Justified(w, w.At(t))
    ensures Justified(Apply(w, t, s), Apply(w, t, s).At(t))
  {}

  lemma StepKeepsJustified(w: World, t: Thread, s: Step, u: Thread)
    requires Safe(w) && Enabled(w, t, s)
    ensures Justified(Apply(w, t, s), Apply(w, t, s).At(u))
  {
    assert Justified(w, w.At(t)) && Justified(w, w.At(u));
    if u == t {
      OwnPlaceJustified(w, t, s);
    } else {
      hide Apply;
      StepGrows(w, t, s);
      OthersStay(w, t, s, u);
      var p := w.At(u);
      if p.LoggingIn? {
        FlagsAfter(w, t, s, p.host);
        assert HoldsLock(p, p.host);
        assert w.At(t).LoggingIn? ==> HoldsLock(w.At(t), w.At(t).host);
      }
      JustifiedStays(w, Apply(w, t, s), p);
    }
  }

  lemma StepKeepsFlags(w: World, t: Thread, s: Step, host: Name)
    requires Safe(w) && Enabled(w, t, s) && host in Apply(w, t, s).hosts
    ensures FlagsFit(Apply(w, t, s), Apply(w, t, s).hosts[host])
  {
    assert Justified(w, w.At(t));
    assert host in w.hosts ==> FlagsFit(w, w.hosts[host]);
  }

  lemma AgreesStays(w: World, w': World, entry: Log)
    requires Agrees(w, entry) && Grows(w, w')
    requires forall host | host in w'.hosts :: FlagsFit(w', w'.hosts[host])
    ensures Agrees(w', entry)
  {}

  lemma NewEntryAgrees(w: World, t: Thread, s: Step)
    requires Safe(w) && Enabled(w, t, s)
    requires |Apply(w, t, s).log| == |w.log| + 1
    ensures Agrees(Apply(w, t, s), Apply(w, t, s).log[|w.log|])
  {
    assert Justified(w, w.At(t));
  }

  lemma NewVerdict(w: World, t: Thread, s: Step)
    requires Enabled(w, t, s)
    ensures var w' := Apply(w, t, s);
            |w'.log| == |w.log| + 1 && w'.log[|w.log|].Verdict? ==>
              && s.LoginEnds? && w.At(t).LoggingIn? && w'.log[|w.log|].host == w.At(t).host
              && w.At(t).host in w'.hosts && w'.hosts[w.At(t).host].Decided()
  {}

  lemma StepKeepsVerdicts(w: World, t: Thread, s: Step)
    requires Safe(w) && Enabled(w, t, s)
    ensures VerdictsFit(Apply(w, t, s))
  {
    hide Apply, Enabled, FlagsFit, LocksAreHeld;
    var w' := Apply(w, t, s);
    LogAfter(w, t, s);
    NewVerdict(w, t, s);
    assert Justified(w, w.At(t));
    assert forall i | 0 <= i < |w.log| :: w'.log[i] == w'.log[..|w.log|][i] == w.log[i];
    forall i | 0 <= i < |w.log| && w.log[i].Verdict?
      ensures w.log[i].host in w.hosts && w.hosts[w.log[i].host].Decided()
    {
      assert Agrees(w, w.log[i]);
    }
    forall host | host in w'.hosts && !w'.hosts[host].Decided()
      ensures forall i | 0 <= i < |w'.log| :: !IsVerdict(w'.log[i], host)
    {
      if host in w.hosts {
        FlagsAfter(w, t, s, host);
        StepGrows(w, t, s);
      }
    }
  }

  lemma StepKeepsSafe(w: World, t: Thread, s: Step)
    requires Safe(w) && Enabled(w, t, s)
    ensures Safe(Apply(w, t, s))
  {
    hide Apply, Enabled, Agrees, Justified, FlagsFit, LocksAreHeld, VerdictsFit, Grows;
    var w' := Apply(w, t, s);
    StepGrows(w, t, s);
    StepKeepsLocks(w, t, s);
    StepKeepsVerdicts(w, t, s);
    forall u: Thread
      ensures Justified(w', w'.At(u))
    {
      StepKeepsJustified(w, t, s, u);
    }
    forall host | host in w'.hosts
      ensures FlagsFit(w', w'.hosts[host])
    {
      StepKeepsFlags(w, t, s, host);
    }
    LogAfter(w, t, s);
    forall i | 0 <= i < |w'.log|
      ensures Agrees(w', w'.log[i])
    {
      if i < |w.log| {
        assert w'.log[i] == w.log[i] by {
          assert w'.log[..|w.log|][i] == w.log[i];
        }
        AgreesStays(w, w', w.log[i]);
      } else {
        NewEntryAgrees(w, t, s);
      }
    }
  }

  /******* Over all runs *******/

  // Any interleaving of any number of threads, from a session with no host contacted.
  ghost predicate Run(worlds: seq<World>, moves: seq<(Thread, Step)>) {
    && |worlds| == |moves| + 1 && Initial(worlds[0])
    && forall i | 0 <= i < |moves| ::
         Enabled(worlds[i], moves[i].0, moves[i].1) && worlds[i + 1] == Apply(worlds[i], moves[i].0, moves[i].1)
  }

  lemma {:induction false} EveryWorldSafe(worlds: seq<World>, moves: seq<(Thread, Step)>, i: nat)
    requires Run(worlds, moves) && i < |worlds|
    ensures Safe(worlds[i])
  {
    if i == 0 {
      InitialIsSafe(worlds[0]);
    } else {
      EveryWorldSafe(worlds, moves, i - 1);
      StepKeepsSafe(worlds[i - 1], moves[i - 1].0, moves[i - 1].1);
    }
  }

  lemma {:induction false} WorldsGrow(worlds: seq<World>, moves: seq<(Thread, Step)>, i: nat, j: nat)
    requires Run(worlds, moves) && i <= j < |worlds|
    ensures Grows(worlds[i], worlds[j])
    decreases j
  {
    hide Enabled, Apply, Safe;
    if i < j {
      WorldsGrow(worlds, moves, i, j - 1);
      EveryWorldSafe(worlds, moves, j - 1);
      StepGrows(worlds[j - 1], moves[j - 1].0, moves[j - 1].1);
    }
  }

  // Two threads never log in to one host at the same time.
  lemma LoginsNeverOverlap(worlds: seq<World>, moves: seq<(Thread, Step)>, i: nat, t: Thread, u: Thread, host: Name)
    requires Run(worlds, moves) && i < |worlds|
    requires worlds[i].At(t) == LoggingIn(host) && worlds[i].At(u) == LoggingIn(host)
    ensures t == u
  {
    EveryWorldSafe(worlds, moves, i);
    assert Justified(worlds[i], worlds[i].At(t));
    assert HoldsLock(worlds[i].At(t), host) && HoldsLock(worlds[i].At(u), host);
  }

  // A host gets at most one verdict, and its flags say which from then on.
  lemma OneVerdict(worlds: seq<World>, moves: seq<(Thread, Step)>, i: nat, a: nat, b: nat, host: Name)
    requires Run(worlds, moves) && i < |worlds| && a < |worlds[i].log| && b < |worlds[i].log|
    requires IsVerdict(worlds[i].log[a], host) && IsVerdict(worlds[i].log[b], host)
    ensures a == b
    ensures forall j | i <= j < |worlds| ::
              && host in worlds[j].hosts
              && worlds[j].hosts[host].authenticated == worlds[i].log[a].accepted
              && worlds[j].hosts[host].skipped == !worlds[i].log[a].accepted
  {
    EveryWorldSafe(worlds, moves, i);
    forall j | i <= j < |worlds|
      ensures host in worlds[j].hosts
      ensures worlds[j].hosts[host].authenticated == worlds[i].log[a].accepted
      ensures worlds[j].hosts[host].skipped == !worlds[i].log[a].accepted
    {
      LogLater(worlds, moves, i, j, a);
      EveryWorldSafe(worlds, moves, j);
      assert FlagsFit(worlds[j], worlds[j].hosts[host]);
    }
  }

  // An entry of the log still agrees with the flags in every later world.
  lemma LogLater(worlds: seq<World>, moves: seq<(Thread, Step)>, i: nat, j: nat, a: nat)
    requires Run(worlds, moves) && i <= j < |worlds| && a < |worlds[i].log|
    ensures a < |worlds[j].log| && worlds[j].log[a] == worlds[i].log[a] && Agrees(worlds[j], worlds[i].log[a])
  {
    hide Run;
    EveryWorldSafe(worlds, moves, j);
    WorldsGrow(worlds, moves, i, j);
  }

  // Every request was paced by the verdict its host has, now and ever after: with
  // credentials there is one, without them every host stays anonymous.
  lemma PacedByVerdict(worlds: seq<World>, moves: seq<(Thread, Step)>, i: nat, j: nat, a: nat)
    requires Run(worlds, moves) && i <= j < |worlds| && a < |worlds[i].log| && worlds[i].log[a].Paced?
    ensures var host := worlds[i].log[a].host;
            && host in worlds[j].hosts
            && (worlds[j].credentials ==> worlds[j].hosts[host].Decided())
            && (worlds[i].log[a].interval == Authenticated <==> worlds[j].hosts[host].authenticated)
  {
    LogLater(worlds, moves, i, j, a);
  }

  // A host once counted as anonymous is never verified, then or later.
  lemma NeverMislabelled(worlds: seq<World>, moves: seq<(Thread, Step)>, i: nat, j: nat, a: nat, host: Name)
    requires Run(worlds, moves) && i <= j < |worlds|
    requires a < |worlds[i].log| && worlds[i].log[a] == Counted(host, AsAnonymous)
    ensures host in worlds[j].hosts && !worlds[j].hosts[host].authenticated
  {
    LogLater(worlds, moves, i, j, a);
    EveryWorldSafe(worlds, moves, j);
    assert FlagsFit(worlds[j], worlds[j].hosts[host]);
  }

  // A snapshot's counts add up to the hosts it listed.
  lemma SnapshotAddsUp(worlds: seq<World>, moves: seq<(Thread, Step)>, i: nat, a: nat)
    requires Run(worlds, moves) && i < |worlds| && a < |worlds[i].log| && worlds[i].log[a].Snapshot?
    ensures worlds[i].log[a].tally.Sum() == worlds[i].log[a].total
  {
    LogLater(worlds, moves, i, i, a);
  }

  /******* One thread among others *******/

  // What the steps of others may do to a host while this thread looks away.
  predicate OthersMayDo(me: Thread, h: Host, h': Host) {
    && (h.Decided() ==> h'.authenticated == h.authenticated && h'.skipped == h.skipped)
    && !(h'.authenticated && h'.skipped)
    && (h.holder == Some(me) ==> h' == h)
    && (h.holder != Some(me) ==> h'.holder != Some(me))
  }

  // No step of another thread does more.
  lemma OthersDoNoMore(w: World, t: Thread, s: Step, me: Thread, host: Name)
    requires Safe(w) && Enabled(w, t, s) && t != me && host in w.hosts
    ensures host in Apply(w, t, s).hosts && OthersMayDo(me, w.hosts[host], Apply(w, t, s).hosts[host])
  {
    hide Apply, Enabled, Agrees;
    var w' := Apply(w, t, s);
    StepKeepsSafe(w, t, s);
    StepGrows(w, t, s);
    FlagsAfter(w, t, s, host);
    assert FlagsFit(w', w'.hosts[host]);
    assert Justified(w, w.At(t));
    HoldersAfterOthers(w, t, s, me, host);
  }

  lemma HoldersAfterOthers(w: World, t: Thread, s: Step, me: Thread, host: Name)
    requires Safe(w) && Enabled(w, t, s) && t != me && host in w.hosts
    ensures var w' := Apply(w, t, s);
            && host in w'.hosts
            && (w.hosts[host].holder == Some(me) ==> w'.hosts[host] == w.hosts[host])
            && (w.hosts[host].holder != Some(me) ==> w'.hosts[host].holder != Some(me))
  {
    assert Justified(w, w.At(t));
    assert HoldsLock(w.At(t), host) <==> w.hosts[host].holder == Some(t);
  }

  lemma ExtendRun(worlds: seq<World>, moves: seq<(Thread, Step)>, t: Thread, s: Step)
    requires Run(worlds, moves) && Enabled(worlds[|moves|], t, s)
    ensures Run(worlds + [Apply(worlds[|moves|], t, s)], moves + [(t, s)])
  {
    hide Enabled, Apply, Initial;
  }

  predicate IsLogin(s: Step) {
    s.LoginEnds? || s.LoginBreaks?
  }

  // The thread ended no login since.
  ghost predicate NoLogin(me: Thread, moves: seq<(Thread, Step)>, from: nat) {
    forall k | from <= k < |moves| && moves[k].0 == me :: !IsLogin(moves[k].1)
  }

  lemma NoMovesNoLogin(me: Thread, moves: seq<(Thread, Step)>)
    ensures NoLogin(me, moves, |moves|)
  {}

  lemma StillNoLogin(me: Thread, made: seq<(Thread, Step)>, moves: seq<(Thread, Step)>, from: nat)
    requires from <= |made| && made <= moves && NoLogin(me, made, from)
    ensures NoLogin(me, moves, from) <==> NoLogin(me, moves, |made|)
  {
    assert forall k | 0 <= k < |made| :: made[k] == moves[k];
    forall k | from <= k < |moves| && moves[k].0 == me && NoLogin(me, moves, |made|) ensures !IsLogin(moves[k].1) {
      if k < |made| {
        assert made[k] == moves[k];
      }
    }
  }

  lemma StillLogin(me: Thread, made: seq<(Thread, Step)>, moves: seq<(Thread, Step)>, from: nat)
    requires from <= |made| && made <= moves && NoLogin(me, moves, |made|)
    ensures NoLogin(me, moves, from) <==> NoLogin(me, made, from)
  {
    assert forall k | 0 <= k < |made| :: made[k] == moves[k];
  }

  // From one world to a later one, a thread stayed where it was and the others did no
  // more than they may.
  ghost predicate Meanwhile(me: Thread, w: World, w': World) {
    && w'.At(me) == w.At(me) && Grows(w, w')
    && forall host | host in w.hosts :: host in w'.hosts && OthersMayDo(me, w.hosts[host], w'.hosts[host])
  }

  lemma NothingMeanwhile(me: Thread, w: World)
    requires Safe(w)
    ensures Meanwhile(me, w, w)
  {
    forall host | host in w.hosts ensures OthersMayDo(me, w.hosts[host], w.hosts[host]) {
      assert FlagsFit(w, w.hosts[host]);
    }
  }

  lemma MoreMeanwhile(me: Thread, w: World, w': World, t: Thread, s: Step)
    requires Meanwhile(me, w, w') && Safe(w') && Enabled(w', t, s) && t != me
    ensures Meanwhile(me, w, Apply(w', t, s))
  {
    hide Enabled, Apply, Safe;
    var w'' := Apply(w', t, s);
    StepGrows(w', t, s);
    OthersStay(w', t, s, me);
    forall host | host in w.hosts ensures host in w''.hosts && OthersMayDo(me, w.hosts[host], w''.hosts[host]) {
      OthersDoNoMore(w', t, s, me, host);
    }
  }

  // What a host counts as, looked at in this world by someone who does not hold its lock.
  ghost predicate FoundIn(w: World, host: Name, c: Class) {
    host in w.hosts &&
    var h := w.hosts[host];
    match c
    case AsAuthenticated => h.holder == None && h.authenticated
    case AsAnonymous => h.holder == None && !h.authenticated && (h.skipped || !w.credentials)
    case AsPending => h.holder != None || (w.credentials && !h.authenticated && !h.skipped)
  }

  ghost predicate FoundSince(worlds: seq<World>, start: nat, host: Name, c: Class) {
    exists m :: start <= m < |worlds| && FoundIn(worlds[m], host, c)
  }

  lemma FoundStill(before: seq<World>, after: seq<World>, start: nat, was: nat, listing: seq<Name>, found: seq<Class>,
                   c: Class)
    requires before <= after && start <= was < |after| && |found| < |listing|
    requires forall k | 0 <= k < |found| :: FoundSince(before, start, listing[k], found[k])
    requires FoundIn(after[was], listing[|found|], c)
    ensures forall k | 0 <= k < |found| + 1 :: FoundSince(after, start, listing[k], (found + [c])[k])
  {
    hide FoundIn;
    forall k | 0 <= k < |found|
      ensures FoundSince(after, start, listing[k], found[k])
    {
      FoundLater(before, after, start, listing[k], found[k]);
    }
  }

  lemma FoundLater(before: seq<World>, after: seq<World>, start: nat, host: Name, c: Class)
    requires before <= after && FoundSince(before, start, host, c)
    ensures FoundSince(after, start, host, c)
  {
    hide FoundIn;
    var m :| start <= m < |before| && FoundIn(before[m], host, c);
    assert after[m] == before[m];
  }

  // The counts are the numbers of hosts found in each state.
  ghost predicate Counts(tally: Tally, found: seq<Class>) {
    && tally.authenticated == multiset(found)[AsAuthenticated]
    && tally.anonymous == multiset(found)[AsAnonymous]
    && tally.pending == multiset(found)[AsPending]
  }

  ghost predicate OneMore(tally: Tally, tally': Tally, c: Class) {
    && tally'.authenticated == tally.authenticated + (if c == AsAuthenticated then 1 else 0)
    && tally'.anonymous == tally.anonymous + (if c == AsAnonymous then 1 else 0)
    && tally'.pending == tally.pending + (if c == AsPending then 1 else 0)
  }

  lemma NothingCounted()
    ensures Counts(Tally(0, 0, 0), [])
  {}

  lemma CountsMore(tally: Tally, tally': Tally, found: seq<Class>, c: Class)
    requires Counts(tally, found) && OneMore(tally, tally', c)
    ensures Counts(tally', found + [c])
  {}

  datatype Login = Accepted | Rejected | Broken

  datatype Outcome = Proceed | BrokeOff | StillWaiting

  // The session as one thread works with it. What the others do whenever this thread
  // may be interrupted is given in advance, and is any steps they can make.
  class WikimediaSession {
    var world: World
    var others: seq<seq<(Thread, Step)>>
    ghost var worlds: seq<World>
    ghost var moves: seq<(Thread, Step)>

    // What happened so far is one of the runs above.
    ghost predicate Valid()
      reads this
    {
      Run(worlds, moves) && worlds[|moves|] == world
    }

    constructor (credentials: bool, others: seq<seq<(Thread, Step)>>)
      ensures Valid() && world == World(credentials, map[], map[], []) && moves == []
    {
      world, this.others := World(credentials, map[], map[], []), others;
      worlds, moves := [World(credentials, map[], map[], [])], [];
    }

    lemma IsSafe()
      requires Valid()
      ensures Safe(world)
    {
      EveryWorldSafe(worlds, moves, |moves|);
    }

    method Move(t: Thread, s: Step)
      requires Valid() && Enabled(world, t, s)
      modifies this`world, this`worlds, this`moves
      ensures Valid() && world == Apply(old(world), t, s) && moves == old(moves) + [(t, s)]
      ensures old(worlds) <= worlds
    {
      ExtendRun(worlds, moves, t, s);
      world := Apply(world, t, s);
      worlds, moves := worlds + [world], moves + [(t, s)];
    }

    // The others make what moves they can.
    method LookAway(me: Thread)
      requires Valid()
      modifies this
      ensures Valid() && old(moves) <= moves && NoLogin(me, moves, |old(moves)|) && old(worlds) <= worlds
      ensures Meanwhile(me, old(world), world)
      ensures if old(others) == [] then others == [] else others == old(others)[1..]
    {
      hide Run, Enabled, Apply, Meanwhile, Safe;
      IsSafe();
      NothingMeanwhile(me, world);
      if others == [] { return; }
      var theirs := others[0];
      others := others[1..];
      for i := 0 to |theirs|
        invariant Valid() && old(moves) <= moves && NoLogin(me, moves, |old(moves)|) && old(worlds) <= worlds
        invariant Meanwhile(me, old(world), world) && others == old(others)[1..]
      {
        var (t, s) := theirs[i];
        if t != me && Enabled(world, t, s) {
          IsSafe();
          MoreMeanwhile(me, old(world), world, t, s);
          Move(t, s);
        }
      }
    }

    // One look or move of this thread at a host, with what it says of its place.
    method ReadVerified(me: Thread, host: Name)
      requires Valid() && world.At(me) == Contacted(host) && host in world.hosts
      modifies this`world, this`worlds, this`moves
      ensures Valid() && old(moves) <= moves && NoLogin(me, moves, |old(moves)|) && Grows(old(world), world)
      ensures host in world.hosts
      ensures world.At(me) ==
                if !world.credentials || world.hosts[host].authenticated then Ready(host) else SeenUnverified(host)
      ensures world.hosts == old(world).hosts
    {
      hide Run;
      IsSafe();
      StepGrows(world, me, Step.ReadVerified);
      Move(me, Step.ReadVerified);
    }

    method ReadSkipped(me: Thread, host: Name)
      requires Valid() && world.At(me) == SeenUnverified(host) && host in world.hosts
      modifies this`world, this`worlds, this`moves
      ensures Valid() && old(moves) <= moves && NoLogin(me, moves, |old(moves)|) && Grows(old(world), world)
      ensures host in world.hosts
      ensures world.At(me) == if world.hosts[host].skipped then Ready(host) else Waiting(host)
      ensures world.hosts == old(world).hosts
    {
      hide Run;
      IsSafe();
      StepGrows(world, me, Step.ReadSkipped);
      Move(me, Step.ReadSkipped);
    }

    method TakeLock(me: Thread, host: Name)
      requires Valid() && world.At(me) == Waiting(host) && host in world.hosts && world.hosts[host].holder == None
      modifies this`world, this`worlds, this`moves
      ensures Valid() && old(moves) <= moves && NoLogin(me, moves, |old(moves)|) && Grows(old(world), world)
      ensures world.At(me) == Locked(host) && host in world.hosts
    {
      hide Run;
      IsSafe();
      StepGrows(world, me, Step.Acquire);
      Move(me, Step.Acquire);
    }

    method LookAgain(me: Thread, host: Name)
      requires Valid() && world.At(me) == Locked(host) && host in world.hosts
      modifies this`world, this`worlds, this`moves
      ensures Valid() && old(moves) <= moves && NoLogin(me, moves, |old(moves)|) && Grows(old(world), world)
      ensures host in world.hosts
      ensures world.At(me) == if world.hosts[host].Decided() then Deciding(host) else LoggingIn(host)
      ensures world.hosts == old(world).hosts
    {
      hide Run;
      IsSafe();
      StepGrows(world, me, Step.LookAgain);
      Move(me, Step.LookAgain);
    }

    method EndLogin(me: Thread, host: Name, login: Login)
      requires Valid() && world.At(me) == LoggingIn(host) && host in world.hosts
      modifies this`world, this`worlds, this`moves
      ensures Valid() && old(moves) <= moves && Grows(old(world), world) && host in world.hosts
      ensures !NoLogin(me, moves, |old(moves)|)
      ensures world.At(me) == if login == Broken then Failing(host) else Deciding(host)
      ensures (login == Accepted ==> world.hosts[host].authenticated)
      ensures (login == Rejected ==> world.hosts[host].skipped)
    {
      hide Run;
      IsSafe();
      var s := if login == Broken then LoginBreaks else LoginEnds(login == Accepted);
      StepGrows(world, me, s);
      Move(me, s);
      assert moves[|old(moves)|] == (me, s);
    }

    method Release(me: Thread, host: Name)
      requires Valid() && (world.At(me) == Deciding(host) || world.At(me) == Failing(host)) && host in world.hosts
      modifies this`world, this`worlds, this`moves
      ensures Valid() && old(moves) <= moves && NoLogin(me, moves, |old(moves)|) && Grows(old(world), world)
      ensures host in world.hosts
      ensures world.At(me) == if old(world).At(me).Failing? then Idle else Ready(host)
      ensures world.hosts[host] == old(world).hosts[host].(holder := None)
    {
      hide Run;
      IsSafe();
      StepGrows(world, me, Step.Release);
      Move(me, Step.Release);
    }

    // Waits for the lock as long as the others move.
    method Acquire(me: Thread, host: Name) returns (got: bool)
      requires Valid() && world.At(me) == Waiting(host) && host in world.hosts
      modifies this
      ensures Valid() && old(moves) <= moves && NoLogin(me, moves, |old(moves)|) && Grows(old(world), world)
      ensures host in world.hosts
      ensures world.At(me) == if got then Locked(host) else Waiting(host)
      ensures !got ==> others == [] && world.hosts[host].holder != None
    {
      hide Run, Enabled, Apply, OthersMayDo, NoLogin;
      NoMovesNoLogin(me, moves);
      while world.hosts[host].holder != None && others != []
        invariant Valid() && old(moves) <= moves && NoLogin(me, moves, |old(moves)|) && Grows(old(world), world)
        invariant world.At(me) == Waiting(host) && host in world.hosts
        decreases |others|
      {
        ghost var made := moves;
        LookAway(me);
        StillNoLogin(me, made, moves, |old(moves)|);
      }
      got := world.hosts[host].holder == None;
      if got {
        ghost var made := moves;
        TakeLock(me, host);
        StillNoLogin(me, made, moves, |old(moves)|);
      }
    }

    lemma IsDecided(me: Thread, host: Name)
      requires Valid() && world.At(me) == Ready(host) && world.credentials
      ensures host in world.hosts && world.hosts[host].Decided()
    {
      IsSafe();
      assert Justified(world, world.At(me));
    }

    // Asks for a login only when, with the lock held, no verdict is there yet; when it
    // lets the request proceed, there is one.
    method EnsureAuthenticated(me: Thread, host: Name, login: Login) returns (outcome: Outcome, asked: bool)
      requires Valid() && world.At(me) == Contacted(host) && host in world.hosts && world.credentials
      modifies this
      ensures Valid() && old(moves) <= moves && Grows(old(world), world) && host in world.hosts
      ensures outcome == Proceed ==> world.At(me) == Ready(host) && world.hosts[host].Decided()
      ensures outcome == BrokeOff ==> world.At(me) == Idle && asked && login == Broken
      ensures outcome == StillWaiting ==> world.At(me) == Waiting(host) && !asked && others == []
      ensures old(world).hosts[host].Decided() ==> outcome == Proceed && !asked
      ensures asked <==> !NoLogin(me, moves, |old(moves)|)
      ensures asked && login == Accepted ==> world.hosts[host].authenticated
      ensures asked && login == Rejected ==> world.hosts[host].skipped
    {
      hide Run, Enabled, Apply, OthersMayDo, NoLogin;
      ReadVerified(me, host);
      if world.At(me) == Ready(host) {
        IsDecided(me, host);
        return Proceed, false;
      }
      ghost var made := moves;
      LookAway(me);
      StillNoLogin(me, made, moves, |old(moves)|);
      made := moves;
      ReadSkipped(me, host);
      StillNoLogin(me, made, moves, |old(moves)|);
      if world.At(me) == Ready(host) {
        IsDecided(me, host);
        return Proceed, false;
      }
      made := moves;
      outcome, asked := LogInOnce(me, host, login);
      StillNoLogin(me, made, moves, |old(moves)|);
    }

    method LogInOnce(me: Thread, host: Name, login: Login) returns (outcome: Outcome, asked: bool)
      requires Valid() && world.At(me) == Waiting(host) && host in world.hosts && world.credentials
      modifies this
      ensures Valid() && old(moves) <= moves && Grows(old(world), world) && host in world.hosts
      ensures outcome == Proceed ==> world.At(me) == Ready(host) && world.hosts[host].Decided()
      ensures outcome == BrokeOff ==> world.At(me) == Idle && asked && login == Broken
      ensures outcome == StillWaiting ==> world.At(me) == Waiting(host) && !asked && others == []
      ensures asked <==> !NoLogin(me, moves, |old(moves)|)
      ensures asked && login == Accepted ==> world.hosts[host].authenticated
      ensures asked && login == Rejected ==> world.hosts[host].skipped
    {
      hide Run, Enabled, Apply, OthersMayDo, NoLogin;
      asked := false;
      var got := Acquire(me, host);
      if !got {
        return StillWaiting, false;
      }
      ghost var made := moves;
      LookAgain(me, host);
      StillNoLogin(me, made, moves, |old(moves)|);
      made := moves;
      LookAway(me);
      StillNoLogin(me, made, moves, |old(moves)|);
      if world.At(me) == LoggingIn(host) {
        made := moves;
        EndLogin(me, host, login);
        StillNoLogin(me, made, moves, |old(moves)|);
        asked := true;
      }
      outcome := if world.At(me) == Failing(host) then BrokeOff else Proceed;
      made := moves;
      Release(me, host);
      StillLogin(me, made, moves, |old(moves)|);
      if outcome == Proceed {
        IsDecided(me, host);
      }
    }

    method Contact(me: Thread, host: Name)
      requires Valid() && world.At(me) == Idle
      modifies this`world, this`worlds, this`moves
      ensures Valid() && old(moves) <= moves && NoLogin(me, moves, |old(moves)|) && Grows(old(world), world)
      ensures host in world.hosts
      ensures world.At(me) == Contacted(host)
    {
      hide Run;
      IsSafe();
      StepGrows(world, me, Step.Contact(host));
      Move(me, Step.Contact(host));
    }

    method Pace(me: Thread, host: Name)
      requires Valid() && world.At(me) == Ready(host) && host in world.hosts
      modifies this`world, this`worlds, this`moves
      ensures Valid() && old(moves) <= moves && NoLogin(me, moves, |old(moves)|) && Grows(old(world), world)
      ensures world.At(me) == Idle && world.hosts == old(world).hosts
      ensures world.log ==
                old(world).log + [Paced(host, if world.hosts[host].authenticated then Authenticated else Anonymous)]
    {
      hide Run;
      IsSafe();
      StepGrows(world, me, Step.Pace);
      Move(me, Step.Pace);
    }

    // One request: it goes out at the interval of its host's verdict, and with credentials
    // there is one. It is given up only when its own login broke off, or waits for the lock.
    method Read(me: Thread, host: Name, login: Login, anonymous: nat, authenticated: nat)
      returns (interval: Option<nat>, asked: bool)
      requires Valid() && world.At(me) == Idle
      modifies this
      ensures Valid() && old(moves) <= moves && Grows(old(world), world) && host in world.hosts
      ensures interval.Some? ==>
                && world.At(me) == Idle && world.log != []
                && interval.value == (if world.hosts[host].authenticated then authenticated else anonymous)
                && world.log[|world.log| - 1] ==
                    Paced(host, if world.hosts[host].authenticated then Authenticated else Anonymous)
                && (world.credentials ==> world.hosts[host].Decided())
      ensures interval.None? ==>
                if asked then world.At(me) == Idle && login == Broken else world.At(me) == Waiting(host) && others == []
      ensures !world.credentials || (host in old(world).hosts && old(world).hosts[host].Decided()) ==>
                interval.Some? && !asked
      ensures asked <==> !NoLogin(me, moves, |old(moves)|)
    {
      hide Run, Enabled, Apply, OthersMayDo, NoLogin;
      Contact(me, host);
      ghost var made := moves;
      LookAway(me);
      StillNoLogin(me, made, moves, |old(moves)|);
      made := moves;
      var ready;
      ready, asked := AuthenticateIfConfigured(me, host, login);
      StillNoLogin(me, made, moves, |old(moves)|);
      if !ready {
        return None, asked;
      }
      interval := PaceRequest(me, host, anonymous, authenticated, |old(moves)|);
    }

    // Without credentials there is nothing to log in to.
    method AuthenticateIfConfigured(me: Thread, host: Name, login: Login) returns (ready: bool, asked: bool)
      requires Valid() && world.At(me) == Contacted(host) && host in world.hosts
      modifies this
      ensures Valid() && old(moves) <= moves && Grows(old(world), world) && host in world.hosts
      ensures ready ==> world.At(me) == Ready(host) && (world.credentials ==> world.hosts[host].Decided())
      ensures !ready ==>
                if asked then world.At(me) == Idle && login == Broken else world.At(me) == Waiting(host) && others == []
      ensures !world.credentials || old(world).hosts[host].Decided() ==> ready && !asked
      ensures asked <==> !NoLogin(me, moves, |old(moves)|)
    {
      hide Run, Enabled, Apply, OthersMayDo, NoLogin;
      if world.credentials {
        var outcome;
        outcome, asked := EnsureAuthenticated(me, host, login);
        return outcome == Proceed, asked;
      }
      ReadVerified(me, host);
      return true, false;
    }

    method PaceRequest(me: Thread, host: Name, anonymous: nat, authenticated: nat, ghost from: nat)
      returns (interval: Option<nat>)
      requires Valid() && world.At(me) == Ready(host) && host in world.hosts && from <= |moves|
      requires world.credentials ==> world.hosts[host].Decided()
      modifies this
      ensures Valid() && old(moves) <= moves && Grows(old(world), world) && host in world.hosts && world.At(me) == Idle
      ensures interval == Some(if world.hosts[host].authenticated then authenticated else anonymous)
      ensures world.log != []
      ensures world.log[|world.log| - 1] ==
                Paced(host, if world.hosts[host].authenticated then Authenticated else Anonymous)
      ensures world.credentials ==> world.hosts[host].Decided()
      ensures NoLogin(me, moves, from) <==> NoLogin(me, old(moves), from)
    {
      hide Run, Enabled, Apply, OthersMayDo, NoLogin;
      LookAway(me);
      StillLogin(me, old(moves), moves, from);
      interval := Some(if world.hosts[host].authenticated then authenticated else anonymous);
      ghost var made := moves;
      Pace(me, host);
      StillLogin(me, made, moves, from);
    }

    // Counts the hosts contacted so far: each is counted once, for what it was at some
    // moment of the snapshot.
    method AuthSnapshot(me: Thread, listing: seq<Name>) returns (tally: Tally, ghost found: seq<Class>)
      requires Valid() && world.At(me) == Idle && Lists(listing, world)
      modifies this
      ensures Valid() && old(moves) <= moves && Grows(old(world), world) && world.At(me) == Idle
      ensures tally.Sum() == |listing| == |found| && Counts(tally, found)
      ensures old(worlds) <= worlds
      ensures forall k | 0 <= k < |listing| :: FoundSince(worlds, |old(moves)|, listing[k], found[k])
      ensures world.log != [] && world.log[|world.log| - 1] == Snapshot(tally, |listing|)
    {
      hide Run, OthersMayDo, Enabled, Apply, Lists, FoundIn, Counts;
      StartSnapshot(me, listing);
      found := [];
      NothingCounted();
      while world.At(me).left != []
        invariant Valid() && old(moves) <= moves && Grows(old(world), world) && old(worlds) <= worlds
        invariant world.At(me).Snapping? && world.At(me).total == |listing|
        invariant |found| <= |listing| && world.At(me).left == listing[|found|..]
        invariant Counts(world.At(me).tally, found)
        invariant forall k | 0 <= k < |found| :: FoundSince(worlds, |old(moves)|, listing[k], found[k])
        decreases |world.At(me).left|
      {
        ghost var before, was, tally := worlds, |moves|, world.At(me).tally;
        ghost var c := CountNext(me);
        LookAway(me);
        FoundStill(before, worlds, |old(moves)|, was, listing, found, c);
        CountsMore(tally, world.At(me).tally, found, c);
        found := found + [c];
      }
      tally := FinishSnapshotting(me);
    }

    method StartSnapshot(me: Thread, listing: seq<Name>)
      requires Valid() && world.At(me) == Idle && Lists(listing, world)
      modifies this`world, this`worlds, this`moves
      ensures Valid() && old(moves) <= moves && Grows(old(world), world) && old(worlds) <= worlds
      ensures world.At(me) == Snapping(listing, Tally(0, 0, 0), |listing|)
    {
      hide Run;
      StepTo(me, ListHosts(listing));
    }

    // A host whose lock is taken counts as pending.
    method CountNext(me: Thread) returns (ghost c: Class)
      requires Valid() && world.At(me).Snapping? && world.At(me).left != []
      modifies this
      ensures Valid() && old(moves) <= moves && Grows(old(world), world)
      ensures old(worlds) <= worlds && |old(moves)| < |old(worlds)| && worlds[|old(moves)|] == old(world)
      ensures var p, was := world.At(me), old(world).At(me);
              && p.Snapping? && p.total == was.total && p.left == was.left[1..]
              && FoundIn(old(world), was.left[0], c) && OneMore(was.tally, p.tally, c)
    {
      hide Run, Apply, Enabled, OneMore;
      IsKnown(me);
      ghost var host, h := world.At(me).left[0], world.hosts[world.At(me).left[0]];
      TryNext(me);
      c := AsPending;
      if world.At(me).Classifying? {
        LookAway(me);
        assert host in world.hosts && world.hosts[host] == h.(holder := Some(me));
        hide OthersMayDo;
        c := ClassifyHeld(me);
      }
    }

    method ClassifyHeld(me: Thread) returns (ghost c: Class)
      requires Valid() && world.At(me).Classifying?
      modifies this`world, this`worlds, this`moves
      ensures Valid() && old(moves) <= moves && Grows(old(world), world) && old(worlds) <= worlds
      ensures old(world).At(me).host in old(world).hosts
      ensures var p, was := world.At(me), old(world).At(me);
              var h := old(world).hosts[was.host];
              && p.Snapping? && p.total == was.total && p.left == was.rest && OneMore(was.tally, p.tally, c)
              && (c == AsAuthenticated <==> h.authenticated)
              && (c == AsAnonymous <==> !h.authenticated && (h.skipped || !old(world).credentials))
    {
      hide Run;
      IsKnown(me);
      ghost var h := world.hosts[world.At(me).host];
      c := if h.authenticated then AsAuthenticated
           else if h.skipped || !world.credentials then AsAnonymous
           else AsPending;
      StepTo(me, Classify);
    }

    method TryNext(me: Thread)
      requires Valid() && world.At(me).Snapping? && world.At(me).left != [] && Justified(world, world.At(me))
      modifies this`world, this`worlds, this`moves
      ensures Valid() && old(moves) <= moves && Grows(old(world), world)
      ensures old(worlds) <= worlds && |old(moves)| < |old(worlds)| && worlds[|old(moves)|] == old(world)
      ensures var p, was := world.At(me), old(world).At(me);
              var h := old(world).hosts[was.left[0]];
              if h.holder != None then
                p.Snapping? && p.total == was.total && p.left == was.left[1..] && OneMore(was.tally, p.tally, AsPending)
              else
                && p == Classifying(was.left[0], was.left[1..], was.tally, was.total)
                && was.left[0] in world.hosts && world.hosts[was.left[0]] == h.(holder := Some(me))
    {
      assert worlds[|moves|] == world;
      hide Run;
      StepTo(me, TryLock);
    }

    method FinishSnapshotting(me: Thread) returns (tally: Tally)
      requires Valid() && world.At(me).Snapping? && world.At(me).left == []
      modifies this`world, this`worlds, this`moves
      ensures Valid() && old(moves) <= moves && Grows(old(world), world) && world.At(me) == Idle
      ensures tally.Sum() == old(world).At(me).total && tally == old(world).At(me).tally && old(worlds) <= worlds
      ensures world.log != [] && world.log[|world.log| - 1] == Snapshot(tally, old(world).At(me).total)
    {
      hide Run;
      IsKnown(me);
      tally := world.At(me).tally;
      StepTo(me, FinishSnapshot);
    }

    lemma IsKnown(me: Thread)
      requires Valid()
      ensures Justified(world, world.At(me))
    {
      IsSafe();
    }

    method StepTo(me: Thread, s: Step)
      requires Valid() && Enabled(world, me, s)
      modifies this`world, this`worlds, this`moves
      ensures Valid() && world == Apply(old(world), me, s) && moves == old(moves) + [(me, s)]
      ensures Grows(old(world), world) && old(worlds) <= worlds
    {
      hide Run;
      IsSafe();
      StepGrows(world, me, s);
      Move(me, s);
    }
  }
}
