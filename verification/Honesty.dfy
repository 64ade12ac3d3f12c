/** The baseline under arbitrary failures: what it says about a path is the old entry,
    or what both folders hold. */
module Honesty {
  import opened Paths
  import opened Trees
  import opened Plans
  import opened Execution
  import opened Refinement
  import opened Progress
  import opened Convergence
  import opened Necessity
  import opened Accounting

  /** The baseline entry of k is the old one, or says what both folders hold. */
  predicate Honest(i: Inputs, w: World, k: Path) {
    Get(w.base, k) == i.B(k) || Settled(w, k)
  }

  predicate Settled(w: World, k: Path) {
    Get(w.base, k) == Get(w.local, k) && Get(w.base, k) == Get(w.remote, k)
  }

  ghost predicate AlwaysHonest(i: Inputs, p: SyncPlan) {
    forall fate: nat -> Fate, n: nat, k :: n <= |p.ops| ==> Honest(i, After(i, p, fate, n), k)
  }

  // --- the five ways to lie -----------------------------------------------------------------------

  /** A baseline directory that is a file on the server and nothing here: its entry is
      dropped, and the file is left alone. */
  predicate ForgetsFile(i: Inputs, k: Path) {
    IsDir(i.B(k)) && IsFile(i.R(k)) && i.L(k).None?
  }

  /** A server entry recorded as arrived although a local file stands in its way. */
  ghost predicate Stranded(i: Inputs, x: Path) {
    Blocked(i, x) && (Act(i, x) == MirrorDir || (Act(i, x) == Pull && i.R(x) != Some(File([]))))
  }

  /** A directory removed on the server and forgotten, which an arrival makes again here. */
  ghost predicate Reopened(i: Inputs, d: Path, x: Path) {
    Act(i, d) == RemoveRemoteDir && Under(d, x) && Arrives(i, x) && !Blocked(i, x)
  }

  /** A server-side copy reading from a path whose old file must first give way to
      the wanted content. */
  predicate ReadsReplaced(i: Inputs, o: Op) {
    o.Copy? && IsFile(i.R(o.from)) && i.R(o.from) != i.L(o.to)
  }

  /** A directory here, a file there. */
  predicate Clash(i: Inputs, k: Path) {
    IsDir(i.L(k)) && IsFile(i.R(k))
  }

  /** An upload that goes through although its directory is still a file. */
  ghost predicate UploadsBelowClash(i: Inputs, o: Op) {
    o.Upload? && i.L(o.key) != Some(File([])) && exists d :: Under(d, o.key) && Clash(i, d)
  }

  ghost predicate SafeOps(i: Inputs, ops: seq<Op>) {
    forall o :: o in ops ==> !ReadsReplaced(i, o) && !UploadsBelowClash(i, o)
  }

  /** None of the last four. */
  ghost predicate Fair(i: Inputs, ops: seq<Op>) {
    (forall x :: !Stranded(i, x)) && (forall d, x :: !Reopened(i, d, x)) && SafeOps(i, ops)
  }

  /** None of the five. */
  ghost predicate Sincere(i: Inputs, ops: seq<Op>) {
    Fair(i, ops) && forall k :: !ForgetsFile(i, k)
  }

  // --- what the server can hold ----------------------------------------------------------------------

  ghost predicate RemoteOneOf(i: Inputs, t: Tree, k: Path) {
    Get(t, k) == None || Get(t, k) == i.R(k) || (Creating(Act(i, k)) && Get(t, k) == i.L(k))
  }

  ghost predicate RemoteSound(i: Inputs, t: Tree) {
    TreeShaped(t) && forall k {:trigger RemoteOneOf(i, t, k)} :: RemoteOneOf(i, t, k)
  }

  /** What a creating operation writes. */
  function Written(w: World, o: Op): Option<Node> {
    if o.Mkdir? then Some(Dir) else if o.Upload? then Get(w.local, o.key)
    else if o.Move? || o.Copy? then Get(w.remote, o.from) else None
  }

  lemma WrittenAt(i: Inputs, w: World, o: Op, k: Path)
    requires Accepted(w, o) && Creates(o, k) && (o.Move? ==> o.from != k)
    ensures var n := Get(Effect(i, w, o).remote, k);
            n == Written(w, o) || (o.Upload? && !Reachable(w.remote, k) && n == Get(w.remote, k))
  {
  }

  lemma CopySourceContent(i: Inputs, copyOf: Path -> Path, ops: seq<Op>, w: World, o: Op)
    requires Justified(i, copyOf, ops, o) && !ReadsReplaced(i, o) && Accepted(w, o)
    requires (o.Move? || o.Copy?) && RemoteOneOf(i, w.remote, o.from)
    ensures Get(w.remote, o.from) == i.L(o.to)
  {
  }

  lemma WrittenIsLocal(i: Inputs, copyOf: Path -> Path, ops: seq<Op>, w: World, o: Op)
    requires Setting(i, copyOf) && Justified(i, copyOf, ops, o) && !ReadsReplaced(i, o)
    requires LocalSound(i, copyOf, w.local) && RemoteSound(i, w.remote) && Accepted(w, o) && IsCreator(o)
    ensures Written(w, o) == i.L(Target(o)) && Target(o) in i.local && Creating(Act(i, Target(o)))
  {
    JustifiedIsTyped(i, copyOf, ops, o);
    assert Creates(o, Target(o));
    CreatorAct(i, copyOf, ops, o, Target(o));
    if o.Move? || o.Copy? {
      assert RemoteOneOf(i, w.remote, o.from);
      CopySourceContent(i, copyOf, ops, w, o);
    } else if o.Upload? {
      LocalStays(i, copyOf, w.local, o.key);
    }
  }

  lemma NotOntoItself(i: Inputs, copyOf: Path -> Path, ops: seq<Op>, o: Op)
    requires Justified(i, copyOf, ops, o) && o.Move?
    ensures o.from != o.to
  {
  }

  lemma RemoteSoundAt(i: Inputs, copyOf: Path -> Path, ops: seq<Op>, w: World, o: Op, fate: Fate, k: Path)
    requires Setting(i, copyOf) && Justified(i, copyOf, ops, o) && !ReadsReplaced(i, o)
    requires LocalSound(i, copyOf, w.local) && RemoteSound(i, w.remote)
    ensures RemoteOneOf(i, Step(i, w, o, fate).remote, k)
  {
    assert RemoteOneOf(i, w.remote, k);
    RemoteStepAt(i, w, o, fate, k);
    if Creates(o, k) && Accepted(w, o) && fate.Goes? {
      WrittenIsLocal(i, copyOf, ops, w, o);
      if o.Move? { NotOntoItself(i, copyOf, ops, o); }
      WrittenAt(i, w, o, k);
    }
    if IsCreator(o) && k in Parents(Target(o)) {
      JustifiedIsTyped(i, copyOf, ops, o);
      ImplicitParent(i, Target(o), k);
    }
  }

  // --- the state under which the steps are taken -------------------------------------------------------

  /** The directories to be mirrored are there. */
  ghost predicate Mirrored(i: Inputs, t: Tree) {
    forall x :: Act(i, x) == MirrorDir ==> Get(t, x) == Some(Dir)
  }

  ghost predicate Sane(i: Inputs, copyOf: Path -> Path, w: World) {
    Steady(i, copyOf, w) && RemoteSound(i, w.remote) && Mirrored(i, w.local)
  }

  /** A directory that stands only here, for something to arrive, stays. */
  lemma OpenStays(i: Inputs, copyOf: Path -> Path, ops: seq<Op>, w: World, o: Op, fate: Fate, k: Path)
    requires Setting(i, copyOf) && Justified(i, copyOf, ops, o) && i.R(k) == Some(Dir) && Get(w.local, k) == Some(Dir)
    ensures Get(Step(i, w, o, fate).local, k) == Some(Dir)
  {
    if o.Download? {
      DownloadLocal(i, w, o.key, fate);
      PlaceAt(w.local, o.key, if o.key in w.remote then w.remote[o.key] else Dir, k);
      assert Under(o.key, k) ==> Get(i.remote, o.key) == Some(Dir);
    } else if o.ConflictDownload? {
      ConflictLocal(i, w, o.key, o.copy, fate);
      PlaceAt(w.local, o.copy, if o.key in w.remote then w.remote[o.key] else Dir, k);
      AroundCopy(i, copyOf, o.key, k);
    } else {
      OtherLocal(i, w, o, fate);
    }
  }

  lemma SaneStep(i: Inputs, copyOf: Path -> Path, ops: seq<Op>, w: World, o: Op, fate: Fate)
    requires Setting(i, copyOf) && Justified(i, copyOf, ops, o) && !ReadsReplaced(i, o) && Sane(i, copyOf, w)
    ensures Sane(i, copyOf, Step(i, w, o, fate))
  {
    var v := Step(i, w, o, fate);
    SteadyStep(i, copyOf, ops, w, o, fate);
    StepKeepsRemoteShape(i, w, o, fate);
    forall k ensures RemoteOneOf(i, v.remote, k) {
      RemoteSoundAt(i, copyOf, ops, w, o, fate, k);
    }
    forall x | Act(i, x) == MirrorDir ensures Get(v.local, x) == Some(Dir) {
      OpenStays(i, copyOf, ops, w, o, fate, x);
    }
  }

  lemma {:induction false} DirsMade(i: Inputs, copyOf: Path -> Path, ds: seq<Path>, x: Path)
    requires Setting(i, copyOf) && Mirrors(i, ds) && x in ds && !Blocked(i, x)
    ensures Get(MakeLocalDirs(i.local, ds), x) == Some(Dir)
  {
    var rest, d := ds[..|ds| - 1], ds[|ds| - 1];
    var t := MakeLocalDirs(i.local, rest);
    assert ds == rest + [d];
    Shorter(i, ds);
    MadeSound(i, copyOf, rest);
    ParentsAt(t, d, x);
    if x in rest {
      DirsMade(i, copyOf, rest, x);
    } else {
      assert MadeOneOf(i, t, x);
      ParentsAreAncestors(x);
      forall e | e in Parents(x) ensures Get(t, e) == None || Get(t, e) == Some(Dir) {
        assert MadeOneOf(i, t, e);
      }
    }
  }

  lemma SaneBegin(i: Inputs, copyOf: Path -> Path, p: SyncPlan)
    requires Setting(i, copyOf) && LocalPathsFor(i, p) && forall x :: !Stranded(i, x)
    ensures Sane(i, copyOf, Begin(i, p))
  {
    SteadyBegin(i, copyOf, p);
    forall k ensures RemoteOneOf(i, Begin(i, p).remote, k) { }
    forall x | Act(i, x) == MirrorDir ensures Get(Begin(i, p).local, x) == Some(Dir) {
      assert !Stranded(i, x);
      assert x in p.localMkdirs;
      DirsMade(i, copyOf, p.localMkdirs, x);
      assert x !in p.localDeletes;
    }
  }

  // --- accounting ----------------------------------------------------------------------------------------

  predicate Concerns(o: Op, k: Path) {
    Creates(o, k) || Frees(o, k) || o == Download(k)
  }

  predicate Records(o: Op, k: Path) {
    Creates(o, k) || Drops(o, k) || o == Download(k)
  }

  ghost predicate NoMore(ops: seq<Op>, n: nat, k: Path) {
    forall m :: n <= m < |ops| ==> !Concerns(ops[m], k)
  }

  /** A path whose baseline entry changed is finished with. */
  ghost predicate Booked(i: Inputs, ops: seq<Op>, n: nat, w: World, k: Path) {
    Get(w.base, k) == i.B(k) || (Settled(w, k) && NoMore(ops, n, k))
  }

  lemma RecordedLast(i: Inputs, copyOf: Path -> Path, ops: seq<Op>, n: nat, m: nat, k: Path)
    requires OpsFor(i, copyOf, ops) && n < m < |ops| && Records(ops[n], k)
    ensures !Concerns(ops[m], k)
  {
    var a, b := ops[n], ops[m];
    assert a in ops && b in ops && InOrder(a, b) && a != b;
    assert Justified(i, copyOf, ops, a) && Justified(i, copyOf, ops, b);
    if Creates(a, k) && Frees(b, k) {
      FreedBeforeCreated(i, copyOf, ops, b, a, k);
    } else if Creates(b, k) {
      CreatorAct(i, copyOf, ops, b, k);
    } else if Frees(b, k) {
      FreerAct(i, copyOf, ops, b, k);
    }
  }

  lemma PulledIsSettled(i: Inputs, copyOf: Path -> Path, w: World, k: Path)
    requires Setting(i, copyOf) && Sane(i, copyOf, w) && !Stranded(i, k)
    requires Act(i, k) == Pull && Accepted(w, Download(k))
    ensures Settled(Effect(i, w, Download(k)), k)
  {
    assert FromServer(i, w.remote, k);
    ArrivalReachable(i, copyOf, w.local, k);
    PlaceAt(w.local, k, w.remote[k], k);
  }

  lemma DroppedAct(i: Inputs, copyOf: Path -> Path, ops: seq<Op>, o: Op, k: Path)
    requires Justified(i, copyOf, ops, o) && Drops(o, k)
    ensures Act(i, k) == RemovedRemote || Act(i, k) == RemoveRemoteDir
  {
  }

  lemma DropLeavesNothing(i: Inputs, w: World, o: Op, k: Path)
    requires Accepted(w, o) && Drops(o, k) && !Creates(o, k)
    ensures var v := Effect(i, w, o); Get(v.remote, k) == None && Get(v.base, k) == None && v.local == w.local
  {
  }

  lemma Unblocked(i: Inputs, d: Path, x: Path)
    requires Under(d, x) && !Blocked(i, d) && i.L(d).None? && !HasChildren(i.local, d)
    ensures !Blocked(i, x)
  {
    forall e | Under(e, x) ensures !IsFile(i.L(e)) {
      AncestorsNest(e, d, x);
      assert Under(d, e) ==> e !in i.local;
    }
  }

  /** Nothing can arrive below a removed path without reopening a directory. */
  lemma RemovedOpens(i: Inputs, k: Path)
    requires i.Scanned() && (Act(i, k) == RemovedRemote || Act(i, k) == RemoveRemoteDir) && Opens(i, k) && !Blocked(i, k)
    ensures exists x :: Reopened(i, k, x)
  {
    var x :| Under(k, x) && Arrives(i, x);
    ArrivalInRemote(i, x, k);
    Unblocked(i, k, x);
    assert Reopened(i, k, x);
  }

  lemma RemovedStaysAway(i: Inputs, copyOf: Path -> Path, t: Tree, k: Path)
    requires Setting(i, copyOf) && LocalSound(i, copyOf, t) && forall x :: !Reopened(i, k, x)
    requires Act(i, k) == RemovedRemote || Act(i, k) == RemoveRemoteDir
    ensures Get(t, k) == None
  {
    NotACopy(i, copyOf, k);
    assert LocalOneOf(i, t, k);
    if Opens(i, k) && !Blocked(i, k) { RemovedOpens(i, k); }
  }

  lemma DroppedIsSettled(i: Inputs, copyOf: Path -> Path, ops: seq<Op>, w: World, o: Op, k: Path)
    requires Setting(i, copyOf) && LocalSound(i, copyOf, w.local) && Justified(i, copyOf, ops, o)
    requires forall x :: !Reopened(i, k, x)
    requires Accepted(w, o) && Drops(o, k) && !Creates(o, k)
    ensures Settled(Effect(i, w, o), k)
  {
    DroppedAct(i, copyOf, ops, o, k);
    RemovedStaysAway(i, copyOf, w.local, k);
    DropLeavesNothing(i, w, o, k);
  }

  /** Without a clash above it no file stands in the way of an upload. */
  lemma UploadReachable(i: Inputs, copyOf: Path -> Path, w: World, k: Path)
    requires TreeShaped(i.local) && RemoteSound(i, w.remote) && k in i.local && i.L(k) != Some(File([]))
    requires !UploadsBelowClash(i, Upload(k))
    ensures Reachable(w.remote, k)
  {
    ParentsAreAncestors(k);
    forall d | d in Parents(k) && Get(w.remote, d) != None ensures Get(w.remote, d) == Some(Dir) {
      ImplicitParent(i, k, d);
      assert RemoteOneOf(i, w.remote, d);
      assert !Clash(i, d);
    }
  }

  lemma CreatedIsSettled(i: Inputs, copyOf: Path -> Path, ops: seq<Op>, w: World, o: Op, k: Path)
    requires Setting(i, copyOf) && Justified(i, copyOf, ops, o) && !ReadsReplaced(i, o) && !UploadsBelowClash(i, o)
    requires LocalSound(i, copyOf, w.local) && RemoteSound(i, w.remote) && Accepted(w, o) && Creates(o, k)
    ensures Get(Effect(i, w, o).local, k) == i.L(k) && Get(Effect(i, w, o).remote, k) == i.L(k)
  {
    WrittenIsLocal(i, copyOf, ops, w, o);
    LocalStays(i, copyOf, w.local, k);
    if o.Move? { NotOntoItself(i, copyOf, ops, o); }
    if o.Upload? { UploadReachable(i, copyOf, w, k); }
    WrittenAt(i, w, o, k);
    CreatorLocal(i, w, o);
  }

  lemma CreatorLocal(i: Inputs, w: World, o: Op)
    requires Accepted(w, o) && IsCreator(o)
    ensures Effect(i, w, o).local == w.local
  {
  }

  lemma RecordedIsSettled(i: Inputs, copyOf: Path -> Path, ops: seq<Op>, w: World, o: Op, k: Path)
    requires Setting(i, copyOf) && Fair(i, ops) && o in ops && Justified(i, copyOf, ops, o) && Sane(i, copyOf, w)
    requires Accepted(w, o) && Records(o, k)
    ensures Settled(Effect(i, w, o), k)
  {
    if Creates(o, k) {
      JustifiedIsTyped(i, copyOf, ops, o);
      BaseEffectAt(i, w, o, k);
      CreatedIsSettled(i, copyOf, ops, w, o, k);
    } else if o == Download(k) {
      PulledIsSettled(i, copyOf, w, k);
    } else {
      DroppedIsSettled(i, copyOf, ops, w, o, k);
    }
  }

  // --- a settled path stays settled -------------------------------------------------------------------------

  lemma NothingHereBelow(i: Inputs, d: Path, k: Path)
    requires TreeShaped(i.local) && !IsDir(i.L(d)) && Under(d, k)
    ensures i.L(k).None?
  {
    assert k in i.local ==> Get(i.local, d) == Some(Dir);
  }

  /** Nothing that both folders hold lies below a directory that is removed. */
  lemma DoomedNotShared(i: Inputs, copyOf: Path -> Path, w: World, d: Path, k: Path)
    requires Setting(i, copyOf) && Sane(i, copyOf, w) && !IsCopy(i, copyOf, k)
    requires (forall x :: !Stranded(i, x)) && forall e, x :: !Reopened(i, e, x)
    requires (Act(i, d) == RemoveRemoteDir || Act(i, d) == ReplaceDirByFile) && Under(d, k)
    ensures Get(w.local, k) == None
  {
    NothingHereBelow(i, d, k);
    assert LocalOneOf(i, w.local, k);
    if !Blocked(i, k) {
      assert !IsFile(i.L(d));
      if Arrives(i, k) {
        assert !Reopened(i, d, k);
      } else if Opens(i, k) {
        OpensBelow(i, d, k);
      }
    }
  }

  lemma OpensBelow(i: Inputs, d: Path, k: Path)
    requires i.Scanned() && Act(i, d) == RemoveRemoteDir && Under(d, k) && Opens(i, k) && !Blocked(i, k) && !Arrives(i, k)
    ensures exists x :: Reopened(i, d, x)
  {
    var x :| Under(k, x) && Arrives(i, x);
    UnderTransitive(d, k, x);
    if Blocked(i, d) { BlockedBelow(i, d, k); }
    Unblocked(i, d, x);
    assert Reopened(i, d, x);
  }

  lemma SharedRemoteStays(i: Inputs, copyOf: Path -> Path, ops: seq<Op>, w: World, o: Op, fate: Fate, k: Path)
    requires Setting(i, copyOf) && Sane(i, copyOf, w) && !IsCopy(i, copyOf, k)
    requires (forall x :: !Stranded(i, x)) && forall e, x :: !Reopened(i, e, x)
    requires Justified(i, copyOf, ops, o) && !Concerns(o, k) && Get(w.local, k) == Get(w.remote, k)
    ensures Get(Step(i, w, o, fate).remote, k) == Get(w.remote, k)
  {
    if k in w.remote {
      if o.Rmdir? && Under(o.key, k) {
        DoomedNotShared(i, copyOf, w, o.key, k);
      } else {
        SparedStays(i, w, o, fate, k);
      }
    } else {
      RemoteStepAt(i, w, o, fate, k);
      if IsCreator(o) && k in Parents(Target(o)) {
        JustifiedIsTyped(i, copyOf, ops, o);
        ImplicitParent(i, Target(o), k);
        LocalStays(i, copyOf, w.local, k);
      }
    }
  }

  /** Where the local entry of a recorded path could change, it does not. */
  lemma AboveDownload(i: Inputs, copyOf: Path -> Path, t: Tree, k: Path, x: Path)
    requires Setting(i, copyOf) && LocalSound(i, copyOf, t) && Act(i, x) == Pull && Under(k, x) && Reachable(t, x)
    requires Act(i, k) != Leave && forall d, y :: !Reopened(i, d, y)
    requires forall y :: Act(i, y) == MirrorDir ==> Get(t, y) == Some(Dir)
    ensures Get(t, k) == Some(Dir)
  {
    ParentsAreAncestors(x);
    ArrivalInRemote(i, x, k);
    ArrivalReachable(i, copyOf, t, x);
    assert !Reopened(i, k, x);
    if i.L(k).Some? {
      LocalStays(i, copyOf, t, k);
    } else {
      assert !HasChildren(i.local, k);
    }
  }

  lemma BelowDownload(i: Inputs, copyOf: Path -> Path, t: Tree, k: Path, x: Path)
    requires Setting(i, copyOf) && LocalSound(i, copyOf, t) && Act(i, x) == Pull && Under(x, k) && !IsCopy(i, copyOf, k)
    ensures Get(t, k) == None
  {
    BelowPullAbsent(i, x, k);
    assert LocalOneOf(i, t, k);
    assert k in i.remote ==> Get(i.remote, x) == Some(Dir);
    if y :| Under(k, y) && Arrives(i, y) { ArrivalInRemote(i, y, k); }
  }

  lemma AroundConflict(i: Inputs, copyOf: Path -> Path, t: Tree, k: Path, j: Path)
    requires Setting(i, copyOf) && LocalSound(i, copyOf, t) && Act(i, j) == Conflict && !IsCopy(i, copyOf, k)
    ensures Under(copyOf(j), k) ==> Get(t, k) == None
    ensures k in Parents(copyOf(j)) ==> Get(t, k) == Some(Dir)
  {
    AroundCopy(i, copyOf, j, k);
    assert LocalOneOf(i, t, k);
    if Under(copyOf(j), k) {
      if y :| Under(k, y) && Arrives(i, y) { ArrivalInRemote(i, y, k); }
    }
    if k in Parents(copyOf(j)) { LocalStays(i, copyOf, t, k); }
  }

  lemma SharedLocalStays(i: Inputs, copyOf: Path -> Path, ops: seq<Op>, w: World, o: Op, fate: Fate, k: Path)
    requires Setting(i, copyOf) && Sane(i, copyOf, w) && !IsCopy(i, copyOf, k) && Act(i, k) != Leave
    requires forall d, y :: !Reopened(i, d, y)
    requires Justified(i, copyOf, ops, o) && o != Download(k)
    ensures Get(Step(i, w, o, fate).local, k) == Get(w.local, k)
  {
    if o.Download? {
      var x := o.key;
      DownloadLocal(i, w, x, fate);
      PlaceAt(w.local, x, if x in w.remote then w.remote[x] else Dir, k);
      ParentsAt(w.local, x, k);
      ParentsAreAncestors(x);
      if Under(x, k) { BelowDownload(i, copyOf, w.local, k, x); }
      if Under(k, x) && Reachable(w.local, x) { AboveDownload(i, copyOf, w.local, k, x); }
    } else if o.ConflictDownload? {
      ConflictLocal(i, w, o.key, o.copy, fate);
      PlaceAt(w.local, o.copy, if o.key in w.remote then w.remote[o.key] else Dir, k);
      ParentsAt(w.local, o.copy, k);
      AroundConflict(i, copyOf, w.local, k, o.key);
      assert IsCopy(i, copyOf, o.copy);
    } else {
      OtherLocal(i, w, o, fate);
    }
  }

  lemma BaseStepAt(i: Inputs, copyOf: Path -> Path, ops: seq<Op>, w: World, o: Op, fate: Fate, k: Path)
    requires Justified(i, copyOf, ops, o) && !(Records(o, k) && Accepted(w, o) && fate.Goes?)
    ensures Get(Step(i, w, o, fate).base, k) == Get(w.base, k)
  {
    if Accepted(w, o) && fate.Goes? {
      JustifiedIsTyped(i, copyOf, ops, o);
      BaseEffectAt(i, w, o, k);
    }
  }

  lemma SettledStays(i: Inputs, copyOf: Path -> Path, ops: seq<Op>, w: World, o: Op, fate: Fate, k: Path)
    requires Setting(i, copyOf) && Fair(i, ops) && Sane(i, copyOf, w) && Justified(i, copyOf, ops, o)
    requires !Concerns(o, k) && !IsCopy(i, copyOf, k) && Act(i, k) != Leave && Settled(w, k)
    ensures Settled(Step(i, w, o, fate), k)
  {
    SharedRemoteStays(i, copyOf, ops, w, o, fate, k);
    SharedLocalStays(i, copyOf, ops, w, o, fate, k);
    BaseStepAt(i, copyOf, ops, w, o, fate, k);
  }

  lemma BookedStep(i: Inputs, copyOf: Path -> Path, ops: seq<Op>, n: nat, w: World, fate: Fate, k: Path)
    requires Setting(i, copyOf) && Fair(i, ops) && OpsFor(i, copyOf, ops) && n < |ops| && Sane(i, copyOf, w)
    requires Booked(i, ops, n, w, k) && !IsCopy(i, copyOf, k) && Act(i, k) != Leave
    ensures Booked(i, ops, n + 1, Step(i, w, ops[n], fate), k)
  {
    var o := ops[n];
    assert o in ops && Justified(i, copyOf, ops, o);
    if Records(o, k) && Accepted(w, o) && fate.Goes? {
      RecordedIsSettled(i, copyOf, ops, w, o, k);
      forall m | n + 1 <= m < |ops| ensures !Concerns(ops[m], k) {
        RecordedLast(i, copyOf, ops, n, m, k);
      }
    } else if Get(w.base, k) == i.B(k) {
      BaseStepAt(i, copyOf, ops, w, o, fate, k);
    } else {
      SettledStays(i, copyOf, ops, w, o, fate, k);
    }
  }

  // --- the start and the whole run ----------------------------------------------------------------------------

  lemma NothingConcerns(i: Inputs, copyOf: Path -> Path, ops: seq<Op>, k: Path)
    requires OpsFor(i, copyOf, ops) && Act(i, k) in {RecordDir, Same, MirrorDir, Forget, DropLocal}
    ensures NoMore(ops, 0, k)
  {
    forall m | 0 <= m < |ops| ensures !Concerns(ops[m], k) {
      assert ops[m] in ops && Justified(i, copyOf, ops, ops[m]);
    }
  }

  /** The local entry at the start of a path recorded at once. */
  lemma LocalAtBegin(i: Inputs, copyOf: Path -> Path, p: SyncPlan, k: Path)
    requires Setting(i, copyOf) && Sane(i, copyOf, Begin(i, p))
    requires Act(i, k) in {RecordDir, Same, MirrorDir, Forget, DropLocal} && !ForgetsFile(i, k) && k in i.Keys()
    ensures Get(Begin(i, p).local, k) == BaseBegin(i, k) && i.R(k) == BaseBegin(i, k)
  {
    NotACopy(i, copyOf, k);
    assert LocalOneOf(i, Begin(i, p).local, k);
    if y :| Under(k, y) && Arrives(i, y) { ArrivalInRemote(i, y, k); }
  }

  lemma BookedAtBegin(i: Inputs, copyOf: Path -> Path, p: SyncPlan, k: Path)
    requires Case(i, copyOf, p) && !ForgetsFile(i, k) && Sane(i, copyOf, Begin(i, p))
    ensures Booked(i, p.ops, 0, Begin(i, p), k)
  {
    BeginBaseAt(i, p, k);
    if BaseBegin(i, k) != i.B(k) {
      NothingConcerns(i, copyOf, p.ops, k);
      LocalAtBegin(i, copyOf, p, k);
    }
  }

  /** Everything the induction carries along. */
  ghost predicate InOrderSoFar(i: Inputs, copyOf: Path -> Path, p: SyncPlan, fate: nat -> Fate, k: Path, n: nat) {
    n <= |p.ops| && Sane(i, copyOf, After(i, p, fate, n)) && Booked(i, p.ops, n, After(i, p, fate, n), k)
  }

  lemma InOrderNext(i: Inputs, copyOf: Path -> Path, p: SyncPlan, fate: nat -> Fate, k: Path, n: nat)
    requires Setting(i, copyOf) && Fair(i, p.ops) && OpsFor(i, copyOf, p.ops) && n < |p.ops|
    requires !IsCopy(i, copyOf, k) && Act(i, k) != Leave && InOrderSoFar(i, copyOf, p, fate, k, n)
    ensures InOrderSoFar(i, copyOf, p, fate, k, n + 1)
  {
    AfterStep(i, p, fate, n);
    assert p.ops[n] in p.ops && Justified(i, copyOf, p.ops, p.ops[n]);
    SaneStep(i, copyOf, p.ops, After(i, p, fate, n), p.ops[n], fate(n));
    BookedStep(i, copyOf, p.ops, n, After(i, p, fate, n), fate(n), k);
  }

  lemma {:induction false} InOrderThroughout(i: Inputs, copyOf: Path -> Path, p: SyncPlan, fate: nat -> Fate, k: Path, n: nat)
    requires Setting(i, copyOf) && Fair(i, p.ops) && OpsFor(i, copyOf, p.ops) && n <= |p.ops|
    requires !IsCopy(i, copyOf, k) && Act(i, k) != Leave && InOrderSoFar(i, copyOf, p, fate, k, 0)
    ensures InOrderSoFar(i, copyOf, p, fate, k, n)
    decreases n
  {
    if n > 0 {
      InOrderThroughout(i, copyOf, p, fate, k, n - 1);
      InOrderNext(i, copyOf, p, fate, k, n - 1);
    }
  }

  /** Whatever fails and wherever the run stops, the baseline is honest, if none of the
      five ways to lie is open. */
  lemma BaselineHonest(i: Inputs, copyOf: Path -> Path, p: SyncPlan, fate: nat -> Fate, n: nat, k: Path)
    requires Case(i, copyOf, p) && Sincere(i, p.ops) && n <= |p.ops|
    ensures Honest(i, After(i, p, fate, n), k)
  {
    if Act(i, k) == Leave || IsCopy(i, copyOf, k) {
      assert IsCopy(i, copyOf, k) ==> k !in i.Keys();
      BaseStays(i, copyOf, p, fate, n, k);
    } else {
      AfterBegin(i, p, fate);
      SaneBegin(i, copyOf, p);
      BookedAtBegin(i, copyOf, p, k);
      InOrderThroughout(i, copyOf, p, fate, k, n);
    }
  }

  // --- each of the five lies ------------------------------------------------------------------------------------

  /** Everything fails but operation m. */
  function Alone(m: nat): nat -> Fate {
    (x: nat) => if x == m then Goes else Fails
  }

  lemma Exposed(i: Inputs, p: SyncPlan, fate: nat -> Fate, n: nat, k: Path)
    requires n <= |p.ops| && !Honest(i, After(i, p, fate, n), k)
    ensures !AlwaysHonest(i, p)
  {
  }

  lemma FailedStep(i: Inputs, w: World, o: Op)
    ensures Step(i, w, o, Fails).remote == w.remote && Step(i, w, o, Fails).base == w.base
  {
  }

  lemma {:induction false} NothingSoFar(i: Inputs, p: SyncPlan, fate: nat -> Fate, m: nat, n: nat)
    requires m <= n <= |p.ops| && forall x: nat :: m <= x < n ==> fate(x) == Fails
    ensures After(i, p, fate, n).remote == After(i, p, fate, m).remote && After(i, p, fate, n).base == After(i, p, fate, m).base
    decreases n
  {
    if m < n {
      NothingSoFar(i, p, fate, m, n - 1);
      AfterStep(i, p, fate, n - 1);
      FailedStep(i, After(i, p, fate, n - 1), p.ops[n - 1]);
    }
  }

  /** State just before the only operation that goes through. */
  lemma JustBefore(i: Inputs, p: SyncPlan, m: nat)
    requires m < |p.ops|
    ensures var w := After(i, p, Alone(m), m); w.remote == i.remote && w.base == Begin(i, p).base
  {
    var fate := Alone(m);
    NothingSoFar(i, p, fate, 0, m);
    AfterBegin(i, p, fate);
  }

  lemma ForgottenLies(i: Inputs, p: SyncPlan, k: Path)
    requires BaselineFor(i, p) && ForgetsFile(i, k)
    ensures !AlwaysHonest(i, p)
  {
    AfterBegin(i, p, Smooth);
    BeginBaseAt(i, p, k);
    assert !Honest(i, After(i, p, Smooth, 0), k);
  }

  lemma BlockedAbsent(i: Inputs, copyOf: Path -> Path, t: Tree, x: Path)
    requires Setting(i, copyOf) && LocalSound(i, copyOf, t) && Arrives(i, x) && Blocked(i, x)
    ensures Get(t, x) == None
  {
    var e :| Under(e, x) && IsFile(i.L(e));
    NothingHereBelow(i, e, x);
    NotACopy(i, copyOf, x);
    assert LocalOneOf(i, t, x);
  }

  lemma StrandedDirLies(i: Inputs, copyOf: Path -> Path, p: SyncPlan, x: Path)
    requires Case(i, copyOf, p) && Blocked(i, x) && Act(i, x) == MirrorDir
    ensures !AlwaysHonest(i, p)
  {
    AlwaysSteady(i, copyOf, p, Smooth, 0);
    StrandedDirAt(i, copyOf, p, x);
    Exposed(i, p, Smooth, 0, x);
  }

  lemma StrandedDirAt(i: Inputs, copyOf: Path -> Path, p: SyncPlan, x: Path)
    requires Setting(i, copyOf) && BaselineFor(i, p) && LocalSound(i, copyOf, After(i, p, Smooth, 0).local)
    requires Blocked(i, x) && Act(i, x) == MirrorDir
    ensures !Honest(i, After(i, p, Smooth, 0), x)
  {
    AfterBegin(i, p, Smooth);
    BeginBaseAt(i, p, x);
    BlockedAbsent(i, copyOf, After(i, p, Smooth, 0).local, x);
  }

  lemma DownloadRecords(i: Inputs, p: SyncPlan, m: nat, x: Path)
    requires m < |p.ops| && p.ops[m] == Download(x) && NonEmptyFile(i.R(x))
    ensures Get(After(i, p, Alone(m), m + 1).base, x) == i.R(x)
  {
    var fate := Alone(m);
    JustBefore(i, p, m);
    AfterStep(i, p, fate, m);
  }

  lemma StrandedAt(i: Inputs, copyOf: Path -> Path, p: SyncPlan, m: nat, x: Path)
    requires m < |p.ops| && p.ops[m] == Download(x) && Setting(i, copyOf)
    requires Blocked(i, x) && Act(i, x) == Pull && i.R(x) != Some(File([]))
    requires LocalSound(i, copyOf, After(i, p, Alone(m), m + 1).local)
    ensures !Honest(i, After(i, p, Alone(m), m + 1), x)
  {
    PulledWasNew(i, x);
    assert i.R(x).value.content != [];
    DownloadRecords(i, p, m, x);
    BlockedAbsent(i, copyOf, After(i, p, Alone(m), m + 1).local, x);
  }

  lemma PullQueued(i: Inputs, copyOf: Path -> Path, ops: seq<Op>, x: Path) returns (m: nat)
    requires OpsFor(i, copyOf, ops) && Act(i, x) == Pull
    ensures m < |ops| && ops[m] == Download(x)
  {
    assert x in i.Keys() && Answered(i, copyOf, ops, x);
    m :| m < |ops| && ops[m] == Download(x);
  }

  lemma StrandedFileLies(i: Inputs, copyOf: Path -> Path, p: SyncPlan, x: Path)
    requires Case(i, copyOf, p) && Blocked(i, x) && Act(i, x) == Pull && i.R(x) != Some(File([]))
    ensures !AlwaysHonest(i, p)
  {
    var m := PullQueued(i, copyOf, p.ops, x);
    AlwaysSteady(i, copyOf, p, Alone(m), m + 1);
    StrandedAt(i, copyOf, p, m, x);
    Exposed(i, p, Alone(m), m + 1, x);
  }

  lemma PulledWasNew(i: Inputs, x: Path)
    requires Act(i, x) == Pull
    ensures i.R(x) != i.B(x) && IsFile(i.R(x))
  {
  }

  // --- a directory that comes back -----------------------------------------------------------------------------

  lemma RmdirForgets(i: Inputs, p: SyncPlan, m: nat, d: Path)
    requires m < |p.ops| && p.ops[m] == Rmdir(d, true) && IsDir(i.R(d))
    ensures Get(After(i, p, Alone(m), m + 1).base, d) == None
  {
    var fate := Alone(m);
    JustBefore(i, p, m);
    AfterStep(i, p, fate, m);
  }

  lemma StillForgotten(i: Inputs, p: SyncPlan, m: nat, n: nat, d: Path)
    requires m < n <= |p.ops| && p.ops[m] == Rmdir(d, true) && IsDir(i.R(d))
    ensures Get(After(i, p, Alone(m), n).base, d) == None
  {
    RmdirForgets(i, p, m, d);
    NothingSoFar(i, p, Alone(m), m + 1, n);
  }

  lemma {:induction false} OpenThroughout(i: Inputs, copyOf: Path -> Path, p: SyncPlan, fate: nat -> Fate, n: nat, d: Path)
    requires Setting(i, copyOf) && AllJustified(i, copyOf, p.ops) && n <= |p.ops| && i.R(d) == Some(Dir)
    requires Get(After(i, p, fate, 0).local, d) == Some(Dir)
    ensures Get(After(i, p, fate, n).local, d) == Some(Dir)
    decreases n
  {
    if n > 0 {
      OpenThroughout(i, copyOf, p, fate, n - 1, d);
      AfterStep(i, p, fate, n - 1);
      OpenStays(i, copyOf, p.ops, After(i, p, fate, n - 1), p.ops[n - 1], fate(n - 1), d);
    }
  }

  lemma OpenAtBegin(i: Inputs, copyOf: Path -> Path, p: SyncPlan, d: Path, x: Path)
    requires Setting(i, copyOf) && LocalPathsFor(i, p)
    requires Act(i, x) == MirrorDir && !Blocked(i, x) && Under(d, x) && Act(i, d) == RemoveRemoteDir
    ensures Get(Begin(i, p).local, d) == Some(Dir)
  {
    assert x in p.localMkdirs && d !in p.localDeletes;
    DirsMade(i, copyOf, p.localMkdirs, x);
    MadeSound(i, copyOf, p.localMkdirs);
    assert Get(MakeLocalDirs(i.local, p.localMkdirs), d) == Some(Dir);
  }

  lemma ReopenedDirAt(i: Inputs, copyOf: Path -> Path, p: SyncPlan, m: nat, d: Path)
    requires Setting(i, copyOf) && AllJustified(i, copyOf, p.ops) && m < |p.ops| && p.ops[m] == Rmdir(d, true)
    requires Act(i, d) == RemoveRemoteDir && Get(Begin(i, p).local, d) == Some(Dir)
    ensures !Honest(i, After(i, p, Alone(m), m + 1), d)
  {
    RmdirForgets(i, p, m, d);
    AfterBegin(i, p, Alone(m));
    OpenThroughout(i, copyOf, p, Alone(m), m + 1, d);
  }

  lemma RmdirAt(i: Inputs, copyOf: Path -> Path, ops: seq<Op>, d: Path) returns (m: nat)
    requires OpsFor(i, copyOf, ops) && Act(i, d) == RemoveRemoteDir
    ensures m < |ops| && ops[m] == Rmdir(d, true)
  {
    assert d in i.Keys() && Answered(i, copyOf, ops, d);
    m :| m < |ops| && ops[m] == Rmdir(d, true);
  }

  lemma ReopenedByDir(i: Inputs, copyOf: Path -> Path, p: SyncPlan, d: Path, x: Path) returns (m: nat)
    requires Setting(i, copyOf) && OpsFor(i, copyOf, p.ops) && LocalPathsFor(i, p)
    requires Act(i, d) == RemoveRemoteDir && Act(i, x) == MirrorDir && Under(d, x) && !Blocked(i, x)
    ensures m < |p.ops| && !Honest(i, After(i, p, Alone(m), m + 1), d)
  {
    m := RmdirAt(i, copyOf, p.ops, d);
    OpenAtBegin(i, copyOf, p, d, x);
    PlanIsJustified(i, copyOf, p.ops);
    ReopenedDirAt(i, copyOf, p, m, d);
  }

  lemma ReopenedByDirLies(i: Inputs, copyOf: Path -> Path, p: SyncPlan, d: Path, x: Path)
    requires Case(i, copyOf, p) && Reopened(i, d, x) && Act(i, x) == MirrorDir
    ensures !AlwaysHonest(i, p)
  {
    var m := ReopenedByDir(i, copyOf, p, d, x);
    Exposed(i, p, Alone(m), m + 1, d);
  }

  /** A download that fails has made the directories for its target. */
  lemma FailedDownloadOpens(i: Inputs, copyOf: Path -> Path, p: SyncPlan, fate: nat -> Fate, n: nat, d: Path)
    requires Setting(i, copyOf) && n < |p.ops| && p.ops[n].Download? && fate(n) == Fails
    requires LocalSound(i, copyOf, After(i, p, fate, n).local)
    requires Arrives(i, p.ops[n].key) && !Blocked(i, p.ops[n].key) && Under(d, p.ops[n].key)
    ensures Get(After(i, p, fate, n + 1).local, d) == Some(Dir)
  {
    var x := p.ops[n].key;
    AfterStep(i, p, fate, n);
    ArrivalReachable(i, copyOf, After(i, p, fate, n).local, x);
    ParentsAreAncestors(x);
    ParentsAt(After(i, p, fate, n).local, x, d);
  }

  lemma DownloadAfterRmdir(i: Inputs, copyOf: Path -> Path, ops: seq<Op>, d: Path, x: Path) returns (m: nat, n: nat)
    requires OpsFor(i, copyOf, ops) && Act(i, d) == RemoveRemoteDir && Act(i, x) == Pull
    ensures m < n < |ops| && ops[m] == Rmdir(d, true) && ops[n] == Download(x)
  {
    m := RmdirAt(i, copyOf, ops, d);
    n := PullQueued(i, copyOf, ops, x);
    assert n < m ==> InOrder(ops[n], ops[m]);
  }

  lemma ReopenedAt(i: Inputs, copyOf: Path -> Path, p: SyncPlan, m: nat, n: nat, d: Path, x: Path)
    requires m < n < |p.ops| && p.ops[m] == Rmdir(d, true) && p.ops[n] == Download(x) && Reopened(i, d, x)
    requires Setting(i, copyOf) && LocalSound(i, copyOf, After(i, p, Alone(m), n).local)
    ensures !Honest(i, After(i, p, Alone(m), n + 1), d)
  {
    StillForgotten(i, p, m, n + 1, d);
    FailedDownloadOpens(i, copyOf, p, Alone(m), n, d);
  }

  lemma ReopenedByFile(i: Inputs, copyOf: Path -> Path, p: SyncPlan, d: Path, x: Path) returns (m: nat, n: nat)
    requires Case(i, copyOf, p) && Reopened(i, d, x) && Act(i, x) == Pull
    ensures n < |p.ops| && !Honest(i, After(i, p, Alone(m), n + 1), d)
  {
    m, n := DownloadAfterRmdir(i, copyOf, p.ops, d, x);
    AlwaysSteady(i, copyOf, p, Alone(m), n);
    ReopenedAt(i, copyOf, p, m, n, d, x);
  }

  lemma ReopenedByFileLies(i: Inputs, copyOf: Path -> Path, p: SyncPlan, d: Path, x: Path)
    requires Case(i, copyOf, p) && Reopened(i, d, x) && Act(i, x) == Pull
    ensures !AlwaysHonest(i, p)
  {
    var m, n := ReopenedByFile(i, copyOf, p, d, x);
    Exposed(i, p, Alone(m), n + 1, d);
  }

  // --- a copy from a replaced path ---------------------------------------------------------------------------------

  /** Everything fails but operation m and the deletions of clashing files. */
  function Cleared(ops: seq<Op>, m: nat): nat -> Fate {
    (x: nat) => if x == m || (x < |ops| && ops[x].PreDelete?) then Goes else Fails
  }

  /** When only the deletions of clashing files go through. */
  lemma {:induction false} ClashesCleared(i: Inputs, copyOf: Path -> Path, p: SyncPlan, m: nat, n: nat, k: Path)
    requires OpsFor(i, copyOf, p.ops) && n <= m < |p.ops|
    ensures Get(After(i, p, Cleared(p.ops, m), n).remote, k) == if PreDelete(k) in p.ops[..n] then None else i.R(k)
    decreases n
  {
    var fate := Cleared(p.ops, m);
    if n == 0 {
      AfterBegin(i, p, fate);
    } else {
      ClashesCleared(i, copyOf, p, m, n - 1, k);
      AfterStep(i, p, fate, n - 1);
      ClashStep(i, copyOf, p.ops, After(i, p, fate, n - 1), n - 1, fate(n - 1), k);
    }
  }

  lemma ClashStep(i: Inputs, copyOf: Path -> Path, ops: seq<Op>, w: World, n: nat, fate: Fate, k: Path)
    requires OpsFor(i, copyOf, ops) && n < |ops| && fate == (if ops[n].PreDelete? then Goes else Fails)
    requires Get(w.remote, k) == if PreDelete(k) in ops[..n] then None else i.R(k)
    ensures Get(Step(i, w, ops[n], fate).remote, k) == if PreDelete(k) in ops[..n + 1] then None else i.R(k)
  {
    Appended(ops, n);
    assert Justified(i, copyOf, ops, ops[n]);
    if !ops[n].PreDelete? { FailedStep(i, w, ops[n]); }
  }

  lemma ClashDeletedBefore(i: Inputs, copyOf: Path -> Path, ops: seq<Op>, m: nat, d: Path)
    requires OpsFor(i, copyOf, ops) && m < |ops| && ops[m].Copy? && Clash(i, d)
    ensures PreDelete(d) in ops[..m]
  {
    assert d in i.Keys() && Answered(i, copyOf, ops, d);
    Earlier(ops, m, PreDelete(d));
  }

  lemma WayIsFree(i: Inputs, copyOf: Path -> Path, p: SyncPlan, m: nat)
    requires TreeShaped(i.local) && OpsFor(i, copyOf, p.ops) && m < |p.ops| && p.ops[m].Copy? && p.ops[m].to in i.local
    ensures Reachable(After(i, p, Cleared(p.ops, m), m).remote, p.ops[m].to)
  {
    var t := After(i, p, Cleared(p.ops, m), m).remote;
    forall d | d in Parents(p.ops[m].to) ensures Get(t, d) == None || Get(t, d) == Some(Dir) {
      ImplicitParent(i, p.ops[m].to, d);
      ClashesCleared(i, copyOf, p, m, m, d);
      if Clash(i, d) { ClashDeletedBefore(i, copyOf, p.ops, m, d); }
    }
  }

  lemma SourceStands(i: Inputs, copyOf: Path -> Path, p: SyncPlan, m: nat, k: Path)
    requires OpsFor(i, copyOf, p.ops) && m < |p.ops| && !Clash(i, k)
    ensures Get(After(i, p, Cleared(p.ops, m), m).remote, k) == i.R(k)
  {
    ClashesCleared(i, copyOf, p, m, m, k);
    assert PreDelete(k) in p.ops[..m] ==> PreDelete(k) in p.ops;
    assert PreDelete(k) in p.ops ==> Justified(i, copyOf, p.ops, PreDelete(k));
  }

  lemma ReplacedSource(i: Inputs, copyOf: Path -> Path, ops: seq<Op>, o: Op)
    requires Justified(i, copyOf, ops, o) && ReadsReplaced(i, o)
    ensures !Clash(i, o.from) && i.R(o.to).None? && i.B(o.to).None? && IsFile(i.L(o.to))
  {
  }

  lemma CopyGetsThrough(i: Inputs, copyOf: Path -> Path, p: SyncPlan, m: nat)
    requires TreeShaped(i.local) && OpsFor(i, copyOf, p.ops) && m < |p.ops| && ReadsReplaced(i, p.ops[m])
    requires Justified(i, copyOf, p.ops, p.ops[m])
    ensures var w := After(i, p, Cleared(p.ops, m), m);
            Accepted(w, p.ops[m]) && Get(w.remote, p.ops[m].from) == i.R(p.ops[m].from)
  {
    var o := p.ops[m];
    ReplacedSource(i, copyOf, p.ops, o);
    SourceStands(i, copyOf, p, m, o.from);
    SourceStands(i, copyOf, p, m, o.to);
    WayIsFree(i, copyOf, p, m);
  }

  /** If replacing the source fails and the copy goes through, it records content the
      server never got. */
  lemma ReplacedSourceLies(i: Inputs, copyOf: Path -> Path, p: SyncPlan, m: nat)
    requires TreeShaped(i.local) && OpsFor(i, copyOf, p.ops) && m < |p.ops| && ReadsReplaced(i, p.ops[m])
    ensures !Honest(i, After(i, p, Cleared(p.ops, m), m + 1), p.ops[m].to)
  {
    assert p.ops[m] in p.ops && Justified(i, copyOf, p.ops, p.ops[m]);
    ReplacedSource(i, copyOf, p.ops, p.ops[m]);
    CopyGetsThrough(i, copyOf, p, m);
    AfterStep(i, p, Cleared(p.ops, m), m);
    CopyLies(i, After(i, p, Cleared(p.ops, m), m), p.ops[m]);
  }

  lemma CopyLies(i: Inputs, w: World, o: Op)
    requires ReadsReplaced(i, o) && Accepted(w, o) && Get(w.remote, o.from) == i.R(o.from)
    requires i.B(o.to).None? && IsFile(i.L(o.to))
    ensures !Honest(i, Effect(i, w, o), o.to)
  {
    BaseEffectAt(i, w, o, o.to);
  }

  // --- an upload below a clash ------------------------------------------------------------------------------------------

  lemma BelowClash(i: Inputs, copyOf: Path -> Path, ops: seq<Op>, k: Path)
    requires i.Scanned() && Justified(i, copyOf, ops, Upload(k)) && UploadsBelowClash(i, Upload(k))
    ensures i.R(k).None? && IsFile(i.L(k)) && i.L(k) != i.B(k) && NonEmptyFile(i.L(k)) && !Reachable(i.remote, k)
    ensures Act(i, k) != Pull && Act(i, k) != DropLocal
  {
    var d :| Under(d, k) && Clash(i, d);
    FileHasNoChildren(i.remote, d);
    assert k !in i.remote;
    ParentsAreAncestors(k);
    assert d in Parents(k);
    assert i.L(k).value.content != [];
  }

  lemma UploadGetsThrough(i: Inputs, copyOf: Path -> Path, p: SyncPlan, m: nat)
    requires Case(i, copyOf, p) && m < |p.ops| && UploadsBelowClash(i, p.ops[m])
    ensures var w, k := After(i, p, Alone(m), m), p.ops[m].key;
            Accepted(w, p.ops[m]) && !Reachable(w.remote, k) && k !in w.remote && i.L(k) != i.B(k) && i.L(k).Some?
  {
    var k := p.ops[m].key;
    assert p.ops[m] in p.ops && Justified(i, copyOf, p.ops, p.ops[m]);
    BelowClash(i, copyOf, p.ops, k);
    JustBefore(i, p, m);
    AlwaysSteady(i, copyOf, p, Alone(m), m);
    LocalStays(i, copyOf, After(i, p, Alone(m), m).local, k);
  }

  /** An upload below a server file that could not be deleted is reported as done and
      recorded, but nothing is stored. */
  lemma UploadBelowClashLies(i: Inputs, copyOf: Path -> Path, p: SyncPlan, m: nat)
    requires Case(i, copyOf, p) && m < |p.ops| && UploadsBelowClash(i, p.ops[m])
    ensures !Honest(i, After(i, p, Alone(m), m + 1), p.ops[m].key)
  {
    UploadGetsThrough(i, copyOf, p, m);
    AfterStep(i, p, Alone(m), m);
  }

  // --- the theorem ----------------------------------------------------------------------------------------------------------

  lemma OpLies(i: Inputs, copyOf: Path -> Path, p: SyncPlan, o: Op)
    requires Case(i, copyOf, p) && o in p.ops && (ReadsReplaced(i, o) || UploadsBelowClash(i, o))
    ensures !AlwaysHonest(i, p)
  {
    var m: nat :| m < |p.ops| && p.ops[m] == o;
    if ReadsReplaced(i, o) {
      ReplacedSourceLies(i, copyOf, p, m);
    } else {
      UploadBelowClashLies(i, copyOf, p, m);
    }
  }

  lemma InsincereLies(i: Inputs, copyOf: Path -> Path, p: SyncPlan)
    requires Case(i, copyOf, p) && !Sincere(i, p.ops)
    ensures !AlwaysHonest(i, p)
  {
    if k :| ForgetsFile(i, k) {
      ForgottenLies(i, p, k);
    } else if x :| Stranded(i, x) {
      if Act(i, x) == MirrorDir { StrandedDirLies(i, copyOf, p, x); } else { StrandedFileLies(i, copyOf, p, x); }
    } else if d, x :| Reopened(i, d, x) {
      if Act(i, x) == MirrorDir { ReopenedByDirLies(i, copyOf, p, d, x); } else { ReopenedByFileLies(i, copyOf, p, d, x); }
    } else {
      var o :| o in p.ops && (ReadsReplaced(i, o) || UploadsBelowClash(i, o));
      OpLies(i, copyOf, p, o);
    }
  }

  /** For all scans of real trees and any baseline: the baseline stays honest under
      every pattern of failures and at every moment if and only if none of the five
      ways to lie is open. */
  lemma HonestExactlyWhen(i: Inputs, copyOf: Path -> Path, p: SyncPlan)
    requires Case(i, copyOf, p)
    ensures AlwaysHonest(i, p) <==> Sincere(i, p.ops)
  {
    if Sincere(i, p.ops) {
      forall fate: nat -> Fate, n: nat, k | n <= |p.ops| ensures Honest(i, After(i, p, fate, n), k) {
        BaselineHonest(i, copyOf, p, fate, n, k);
      }
    } else {
      InsincereLies(i, copyOf, p);
    }
  }
}
