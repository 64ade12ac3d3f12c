/** No version is lost: edits made on either side since the last SYNC outlive it,
    at their own path or in a conflict copy. */
module Survival {
  import opened Paths
  import opened Trees
  import opened Plans
  import opened Execution
  import opened Refinement
  import opened Progress
  import opened Necessity
  import opened Accounting

  /** A file edited or created locally since the baseline is still there. */
  predicate LocalEditKept(i: Inputs, w: World, k: Path) {
    IsFile(i.L(k)) && i.L(k) != i.B(k) ==> Get(w.local, k) == i.L(k)
  }

  predicate ServerEdit(i: Inputs, k: Path) {
    IsFile(i.R(k)) && i.R(k) != i.B(k)
  }

  /** A file edited or created on the server since the baseline is still there, or
      has arrived locally, at its path or beside it. */
  ghost predicate ServerEditKept(i: Inputs, copyOf: Path -> Path, w: World, k: Path) {
    ServerEdit(i, k) ==>
      || Get(w.remote, k) == i.R(k)
      || Get(w.local, k) == i.R(k)
      || (Act(i, k) == Conflict && Get(w.local, copyOf(k)) == i.R(k))
  }

  ghost predicate EditsKept(i: Inputs, copyOf: Path -> Path, w: World) {
    forall k :: LocalEditKept(i, w, k) && ServerEditKept(i, copyOf, w, k)
  }

  /** The conflict downloads themselves do not fail. */
  ghost predicate SparesCopies(ops: seq<Op>, fate: nat -> Fate) {
    forall m: nat :: m < |ops| && ops[m].ConflictDownload? ==> fate(m).Goes?
  }

  // --- the three ways to lose a version ----------------------------------------------------------

  /** An edited server file facing a local directory. */
  predicate EditClash(i: Inputs, k: Path) {
    IsDir(i.L(k)) && ServerEdit(i, k)
  }

  ghost predicate Removed(i: Inputs, d: Path) {
    Act(i, d) == RemoveRemoteDir || Act(i, d) == ReplaceDirByFile
  }

  /** An edited server file in a directory that is removed. */
  ghost predicate EditBelowRemoved(i: Inputs, k: Path) {
    ServerEdit(i, k) && exists d :: Under(d, k) && Removed(i, d)
  }

  /** A conflict in which the server's version is empty. */
  ghost predicate EmptyConflict(i: Inputs, k: Path) {
    Act(i, k) == Conflict && i.R(k) == Some(File([]))
  }

  ghost predicate Loses(i: Inputs, k: Path) {
    EditClash(i, k) || EditBelowRemoved(i, k) || EmptyConflict(i, k)
  }

  // --- local edits ---------------------------------------------------------------------------------

  lemma EditedHere(i: Inputs, k: Path)
    requires IsFile(i.L(k)) && i.L(k) != i.B(k)
    ensures Act(i, k) != Pull && Act(i, k) != DropLocal
  {
  }

  /** A local edit stays in place whatever happens. */
  lemma LocalEditStays(i: Inputs, copyOf: Path -> Path, p: SyncPlan, fate: nat -> Fate, n: nat, k: Path)
    requires Case(i, copyOf, p) && n <= |p.ops|
    ensures LocalEditKept(i, After(i, p, fate, n), k)
  {
    if IsFile(i.L(k)) && i.L(k) != i.B(k) {
      AlwaysSteady(i, copyOf, p, fate, n);
      EditedHere(i, k);
      LocalStays(i, copyOf, After(i, p, fate, n).local, k);
    }
  }

  // --- server edits that are not in conflict ---------------------------------------------------------

  /** A path that no operation can take from the server. */
  ghost predicate Untakeable(i: Inputs, k: Path) {
    && i.R(k).Some? && Act(i, k) in {UploadFresh, Forget, Same, Pull, Leave, RecordDir, MirrorDir}
    && forall d :: Under(d, k) ==> !Removed(i, d)
  }

  lemma EditIsUntakeable(i: Inputs, k: Path)
    requires ServerEdit(i, k) && !IsDir(i.L(k)) && !EditBelowRemoved(i, k) && Act(i, k) != Conflict
    ensures Untakeable(i, k)
  {
  }

  lemma SparesUntakeable(i: Inputs, copyOf: Path -> Path, ops: seq<Op>, o: Op, k: Path)
    requires Justified(i, copyOf, ops, o) && Untakeable(i, k)
    ensures Spares(o, k) || o == Upload(k)
  {
    if Creates(o, k) { CreatorAct(i, copyOf, ops, o, k); }
    if Frees(o, k) { FreerAct(i, copyOf, ops, o, k); }
    if o.Rmdir? && Under(o.key, k) { assert Removed(i, o.key); }
  }

  lemma UntakeableNext(i: Inputs, copyOf: Path -> Path, p: SyncPlan, fate: nat -> Fate, n: nat, k: Path)
    requires TreeShaped(i.remote) && n < |p.ops| && Justified(i, copyOf, p.ops, p.ops[n]) && Untakeable(i, k)
    requires Get(After(i, p, fate, n).remote, k) == i.R(k)
    ensures Get(After(i, p, fate, n + 1).remote, k) == i.R(k)
  {
    AfterStep(i, p, fate, n);
    RemoteIsTree(i, p, fate, n);
    SparesUntakeable(i, copyOf, p.ops, p.ops[n], k);
    if p.ops[n] != Upload(k) {
      SparedStays(i, After(i, p, fate, n), p.ops[n], fate(n), k);
    }
  }

  lemma {:induction false} UntakeableStays(i: Inputs, copyOf: Path -> Path, p: SyncPlan, fate: nat -> Fate, n: nat, k: Path)
    requires TreeShaped(i.remote) && AllJustified(i, copyOf, p.ops) && Untakeable(i, k) && n <= |p.ops|
    ensures Get(After(i, p, fate, n).remote, k) == i.R(k)
    decreases n
  {
    if n == 0 {
      AfterBegin(i, p, fate);
    } else {
      UntakeableStays(i, copyOf, p, fate, n - 1, k);
      UntakeableNext(i, copyOf, p, fate, n - 1, k);
    }
  }

  // --- conflicts ------------------------------------------------------------------------------------

  lemma {:induction false} FirstPhaseOnlyReads(i: Inputs, p: SyncPlan, fate: nat -> Fate, n: nat)
    requires Ordered(p.ops) && n < |p.ops| && p.ops[n].ConflictDownload?
    ensures After(i, p, fate, n).remote == i.remote
    decreases n
  {
    if n == 0 {
      AfterBegin(i, p, fate);
    } else {
      assert InOrder(p.ops[n - 1], p.ops[n]);
      FirstPhaseOnlyReads(i, p, fate, n - 1);
      AfterStep(i, p, fate, n - 1);
    }
  }

  ghost function CopyAt(i: Inputs, copyOf: Path -> Path, ops: seq<Op>, n: nat, k: Path): Option<Node>
    requires n <= |ops|
  {
    if ConflictDownload(k, copyOf(k)) in ops[..n] then i.R(k) else None
  }

  lemma CopyReachable(i: Inputs, copyOf: Path -> Path, t: Tree, k: Path)
    requires Setting(i, copyOf) && LocalSound(i, copyOf, t) && Act(i, k) == Conflict
    ensures Reachable(t, copyOf(k))
  {
    forall d | d in Parents(copyOf(k)) ensures Get(t, d) == Some(Dir) {
      AroundCopy(i, copyOf, k, d);
      LocalStays(i, copyOf, t, d);
    }
  }

  lemma CopyLands(i: Inputs, copyOf: Path -> Path, w: World, k: Path)
    requires Setting(i, copyOf) && Act(i, k) == Conflict && LocalSound(i, copyOf, w.local) && w.remote == i.remote
    requires copyOf(k) !in w.local && i.R(k) != Some(File([]))
    ensures Get(Step(i, w, ConflictDownload(k, copyOf(k)), Goes).local, copyOf(k)) == i.R(k)
  {
    assert i.R(k).value.content != [];
    CopyReachable(i, copyOf, w.local, k);
    PlaceAt(w.local, copyOf(k), w.remote[k], copyOf(k));
  }

  lemma PullMissesCopy(i: Inputs, copyOf: Path -> Path, k: Path, x: Path)
    requires Setting(i, copyOf) && Act(i, k) == Conflict && Act(i, x) == Pull
    ensures x != copyOf(k) && !Under(x, copyOf(k)) && copyOf(k) !in Parents(x)
  {
    ParentsAreAncestors(copyOf(k));
    ParentsAreAncestors(x);
    AroundCopy(i, copyOf, k, x);
  }

  lemma CopiesMiss(i: Inputs, copyOf: Path -> Path, k: Path, j: Path)
    requires Setting(i, copyOf) && Act(i, k) == Conflict && Act(i, j) == Conflict && j != k
    ensures copyOf(j) != copyOf(k) && !Under(copyOf(j), copyOf(k)) && copyOf(k) !in Parents(copyOf(j))
  {
    ParentsAreAncestors(copyOf(k));
    AroundCopy(i, copyOf, k, copyOf(j));
    AroundCopy(i, copyOf, j, copyOf(k));
  }

  lemma CopyUntouched(i: Inputs, copyOf: Path -> Path, ops: seq<Op>, w: World, o: Op, fate: Fate, k: Path)
    requires Setting(i, copyOf) && Act(i, k) == Conflict
    requires Justified(i, copyOf, ops, o) && o != ConflictDownload(k, copyOf(k))
    ensures Get(Step(i, w, o, fate).local, copyOf(k)) == Get(w.local, copyOf(k))
  {
    if o.Download? {
      DownloadLocal(i, w, o.key, fate);
      PullMissesCopy(i, copyOf, k, o.key);
      PlaceAt(w.local, o.key, if o.key in w.remote then w.remote[o.key] else Dir, copyOf(k));
    } else if o.ConflictDownload? {
      ConflictLocal(i, w, o.key, o.copy, fate);
      CopiesMiss(i, copyOf, k, o.key);
      PlaceAt(w.local, o.copy, if o.key in w.remote then w.remote[o.key] else Dir, copyOf(k));
    } else {
      OtherLocal(i, w, o, fate);
    }
  }

  lemma FirstTime(ops: seq<Op>, n: nat)
    requires Ordered(ops) && n < |ops|
    ensures ops[n] !in ops[..n]
  {
    if ops[n] in ops[..n] {
      DoneInOrder(ops, n, ops[n]);
    }
  }

  lemma CopyStep(i: Inputs, copyOf: Path -> Path, ops: seq<Op>, w: World, n: nat, fate: Fate, k: Path)
    requires Setting(i, copyOf) && Ordered(ops) && n < |ops| && Justified(i, copyOf, ops, ops[n])
    requires Act(i, k) == Conflict && !EmptyConflict(i, k) && LocalSound(i, copyOf, w.local)
    requires ops[n].ConflictDownload? ==> w.remote == i.remote && fate.Goes?
    requires Get(w.local, copyOf(k)) == CopyAt(i, copyOf, ops, n, k)
    ensures Get(Step(i, w, ops[n], fate).local, copyOf(k)) == CopyAt(i, copyOf, ops, n + 1, k)
  {
    Appended(ops, n);
    if ops[n] == ConflictDownload(k, copyOf(k)) {
      FirstTime(ops, n);
      CopyLands(i, copyOf, w, k);
    } else {
      CopyUntouched(i, copyOf, ops, w, ops[n], fate, k);
    }
  }

  ghost predicate CopyTracked(i: Inputs, copyOf: Path -> Path, p: SyncPlan, fate: nat -> Fate, k: Path, n: nat) {
    n <= |p.ops| && Get(After(i, p, fate, n).local, copyOf(k)) == CopyAt(i, copyOf, p.ops, n, k)
  }

  lemma CopyArrivesNext(i: Inputs, copyOf: Path -> Path, p: SyncPlan, fate: nat -> Fate, n: nat, k: Path)
    requires Setting(i, copyOf) && Ordered(p.ops) && n < |p.ops| && Justified(i, copyOf, p.ops, p.ops[n])
    requires SparesCopies(p.ops, fate) && Act(i, k) == Conflict && !EmptyConflict(i, k)
    requires Steady(i, copyOf, After(i, p, fate, n)) && CopyTracked(i, copyOf, p, fate, k, n)
    ensures CopyTracked(i, copyOf, p, fate, k, n + 1)
  {
    AfterStep(i, p, fate, n);
    if p.ops[n].ConflictDownload? {
      FirstPhaseOnlyReads(i, p, fate, n);
    }
    CopyStep(i, copyOf, p.ops, After(i, p, fate, n), n, fate(n), k);
  }

  lemma NoCopyAtBegin(i: Inputs, copyOf: Path -> Path, p: SyncPlan, fate: nat -> Fate, k: Path)
    requires Setting(i, copyOf) && LocalPathsFor(i, p) && Act(i, k) == Conflict
    ensures CopyTracked(i, copyOf, p, fate, k, 0)
  {
    AfterBegin(i, p, fate);
    MadeSound(i, copyOf, p.localMkdirs);
    var c := copyOf(k);
    assert c !in i.Keys();
    assert MadeOneOf(i, MakeLocalDirs(i.local, p.localMkdirs), c);
    if x :| Under(c, x) && Arrives(i, x) {
      ArrivalInRemote(i, x, c);
    }
  }

  lemma {:induction false} CopyTrackedThroughout(i: Inputs, copyOf: Path -> Path, p: SyncPlan, fate: nat -> Fate, n: nat, k: Path)
    requires Setting(i, copyOf) && Ordered(p.ops) && AllJustified(i, copyOf, p.ops) && n <= |p.ops|
    requires SparesCopies(p.ops, fate) && Act(i, k) == Conflict && !EmptyConflict(i, k)
    requires Steady(i, copyOf, After(i, p, fate, 0)) && CopyTracked(i, copyOf, p, fate, k, 0)
    ensures CopyTracked(i, copyOf, p, fate, k, n)
    decreases n
  {
    if n > 0 {
      CopyTrackedThroughout(i, copyOf, p, fate, n - 1, k);
      SteadyThroughout(i, copyOf, p, fate, n - 1);
      CopyArrivesNext(i, copyOf, p, fate, n - 1, k);
    }
  }

  lemma CopyArrives(i: Inputs, copyOf: Path -> Path, p: SyncPlan, fate: nat -> Fate, n: nat, k: Path)
    requires Case(i, copyOf, p) && n <= |p.ops|
    requires SparesCopies(p.ops, fate) && Act(i, k) == Conflict && !EmptyConflict(i, k)
    ensures CopyTracked(i, copyOf, p, fate, k, n)
  {
    NoCopyAtBegin(i, copyOf, p, fate, k);
    AlwaysSteady(i, copyOf, p, fate, 0);
    PlanIsJustified(i, copyOf, p.ops);
    CopyTrackedThroughout(i, copyOf, p, fate, n, k);
  }

  lemma PhaseZeroPending(i: Inputs, copyOf: Path -> Path, ops: seq<Op>, n: nat, k: Path)
    requires Ordered(ops) && n < |ops|
    requires ConflictDownload(k, copyOf(k)) in ops && ConflictDownload(k, copyOf(k)) !in ops[..n + 1]
    ensures ops[n].ConflictDownload?
  {
    var m: nat :| m < |ops| && ops[m] == ConflictDownload(k, copyOf(k));
    assert n < m;
    assert InOrder(ops[n], ops[m]);
  }

  /** Until the conflict copy is safe, the server's version stays where it is. */
  lemma ConflictSourceStays(i: Inputs, copyOf: Path -> Path, p: SyncPlan, fate: nat -> Fate, n: nat, k: Path)
    requires OpsFor(i, copyOf, p.ops) && n <= |p.ops| && Act(i, k) == Conflict
    requires ConflictDownload(k, copyOf(k)) !in p.ops[..n]
    ensures Get(After(i, p, fate, n).remote, k) == i.R(k)
  {
    if n == 0 {
      AfterBegin(i, p, fate);
    } else {
      assert k in i.Keys() && Answered(i, copyOf, p.ops, k);
      PhaseZeroPending(i, copyOf, p.ops, n - 1, k);
      FirstPhaseOnlyReads(i, p, fate, n - 1);
      AfterStep(i, p, fate, n - 1);
    }
  }

  /** A server edit that is not lost in one of the three ways is on the server, at its
      local path or in its conflict copy. */
  lemma ServerEditStays(i: Inputs, copyOf: Path -> Path, p: SyncPlan, fate: nat -> Fate, n: nat, k: Path)
    requires Case(i, copyOf, p) && n <= |p.ops| && SparesCopies(p.ops, fate) && !Loses(i, k)
    ensures ServerEditKept(i, copyOf, After(i, p, fate, n), k)
  {
    if ServerEdit(i, k) {
      if Act(i, k) == Conflict {
        CopyArrives(i, copyOf, p, fate, n, k);
        if ConflictDownload(k, copyOf(k)) !in p.ops[..n] {
          ConflictSourceStays(i, copyOf, p, fate, n, k);
        }
      } else {
        EditIsUntakeable(i, k);
        PlanIsJustified(i, copyOf, p.ops);
        UntakeableStays(i, copyOf, p, fate, n, k);
      }
    }
  }

  // --- the other half ----------------------------------------------------------------------------------

  lemma Queued(ops: seq<Op>, o: Op) returns (n: nat)
    requires o in ops
    ensures n < |ops| && ops[n] == o
  {
    n :| n < |ops| && ops[n] == o;
  }

  /** After a deletion had its turn in a run without failures, no file is left. */
  lemma DeletedFile(i: Inputs, p: SyncPlan, n: nat, k: Path)
    requires n < |p.ops| && (p.ops[n] == PreDelete(k) || p.ops[n] == Delete(k, false))
    ensures !IsFile(Get(After(i, p, Smooth, n + 1).remote, k))
  {
    AfterStep(i, p, Smooth, n);
  }

  /** A server edit facing a local directory is deleted without a copy. */
  lemma EditClashLoses(i: Inputs, copyOf: Path -> Path, p: SyncPlan, k: Path) returns (n: nat)
    requires Case(i, copyOf, p) && EditClash(i, k)
    ensures n <= |p.ops| && !ServerEditKept(i, copyOf, After(i, p, Smooth, n), k)
  {
    var m := ClashQueued(i, copyOf, p.ops, k);
    n := m + 1;
    DeletedFile(i, p, m, k);
    AlwaysSteady(i, copyOf, p, Smooth, n);
    LocalStays(i, copyOf, After(i, p, Smooth, n).local, k);
    NotKept(i, copyOf, After(i, p, Smooth, n), k);
  }

  lemma ClashQueued(i: Inputs, copyOf: Path -> Path, ops: seq<Op>, k: Path) returns (m: nat)
    requires OpsFor(i, copyOf, ops) && EditClash(i, k)
    ensures m < |ops| && ops[m] == PreDelete(k) && Act(i, k) == ReplaceByDir
  {
    assert k in i.Keys() && Answered(i, copyOf, ops, k);
    m := Queued(ops, PreDelete(k));
  }

  /** After an RMDIR had its turn in a run without failures, nothing is left below. */
  lemma RemovedBelow(i: Inputs, p: SyncPlan, n: nat, d: Path, x: Path)
    requires TreeShaped(i.remote) && n < |p.ops| && p.ops[n].Rmdir? && p.ops[n].key == d && Under(d, x)
    ensures x !in After(i, p, Smooth, n + 1).remote
  {
    AfterStep(i, p, Smooth, n);
    RemoteIsTree(i, p, Smooth, n);
    assert x in After(i, p, Smooth, n).remote ==> Get(After(i, p, Smooth, n).remote, d) == Some(Dir);
  }

  lemma NoFileArrives(i: Inputs, w: World, o: Op, fate: Fate, x: Path)
    requires Bypasses(o, x) && !IsFile(Get(w.local, x))
    ensures !IsFile(Get(Step(i, w, o, fate).local, x))
  {
    if o.Download? {
      DownloadLocal(i, w, o.key, fate);
      PlaceAt(w.local, o.key, if o.key in w.remote then w.remote[o.key] else Dir, x);
    } else if o.ConflictDownload? {
      ConflictLocal(i, w, o.key, o.copy, fate);
      PlaceAt(w.local, o.copy, if o.key in w.remote then w.remote[o.key] else Dir, x);
    } else {
      OtherLocal(i, w, o, fate);
    }
  }

  /** Neither a download of x nor a conflict copy onto x. */
  predicate Bypasses(o: Op, x: Path) {
    o != Download(x) && !(o.ConflictDownload? && o.copy == x)
  }

  lemma BeforePull(i: Inputs, copyOf: Path -> Path, ops: seq<Op>, m: nat, n: nat, x: Path)
    requires OpsFor(i, copyOf, ops) && FreshCopies(i, copyOf) && m < n < |ops| && ops[n].Rmdir? && x in i.Keys()
    ensures Bypasses(ops[m], x)
  {
    assert InOrder(ops[m], ops[n]);
    assert ops[m] in ops && Justified(i, copyOf, ops, ops[m]);
  }

  lemma {:induction false} NoFileYet(i: Inputs, p: SyncPlan, n: nat, x: Path)
    requires n <= |p.ops| && (forall m: nat :: m < n ==> Bypasses(p.ops[m], x)) && !IsFile(Get(After(i, p, Smooth, 0).local, x))
    ensures !IsFile(Get(After(i, p, Smooth, n).local, x))
  {
    if n > 0 {
      NoFileYet(i, p, n - 1, x);
      AfterStep(i, p, Smooth, n - 1);
      NoFileArrives(i, After(i, p, Smooth, n - 1), p.ops[n - 1], Goes, x);
    }
  }

  lemma NoFileAtBegin(i: Inputs, copyOf: Path -> Path, p: SyncPlan, x: Path)
    requires Setting(i, copyOf) && LocalPathsFor(i, p) && i.L(x).None?
    ensures !IsFile(Get(After(i, p, Smooth, 0).local, x))
  {
    AfterBegin(i, p, Smooth);
    MadeSound(i, copyOf, p.localMkdirs);
    assert MadeOneOf(i, MakeLocalDirs(i.local, p.localMkdirs), x);
  }

  lemma NotPulledYet(i: Inputs, copyOf: Path -> Path, p: SyncPlan, n: nat, x: Path)
    requires Case(i, copyOf, p) && n < |p.ops| && p.ops[n].Rmdir? && x in i.remote && i.L(x).None?
    ensures !IsFile(Get(After(i, p, Smooth, n).local, x))
  {
    NoFileAtBegin(i, copyOf, p, x);
    forall m: nat | m < n ensures Bypasses(p.ops[m], x) {
      BeforePull(i, copyOf, p.ops, m, n, x);
    }
    NoFileYet(i, p, n, x);
  }

  lemma RmdirStep(i: Inputs, p: SyncPlan, n: nat)
    requires n < |p.ops| && p.ops[n].Rmdir?
    ensures After(i, p, Smooth, n + 1).local == After(i, p, Smooth, n).local
  {
    AfterStep(i, p, Smooth, n);
    OtherLocal(i, After(i, p, Smooth, n), p.ops[n], Smooth(n));
  }

  lemma GoneOnBothSides(i: Inputs, copyOf: Path -> Path, p: SyncPlan, d: Path, k: Path) returns (n: nat)
    requires Case(i, copyOf, p) && Removed(i, d) && Under(d, k) && k in i.remote && i.L(k).None?
    ensures n <= |p.ops| && k !in After(i, p, Smooth, n).remote && !IsFile(Get(After(i, p, Smooth, n).local, k))
  {
    var m := RmdirQueued(i, copyOf, p.ops, d);
    n := m + 1;
    RemovedBelow(i, p, m, d, k);
    NotPulledYet(i, copyOf, p, m, k);
    RmdirStep(i, p, m);
  }

  /** A server edit below a removed directory is gone before it can be downloaded. */
  lemma EditBelowRemovedLoses(i: Inputs, copyOf: Path -> Path, p: SyncPlan, k: Path) returns (n: nat)
    requires Case(i, copyOf, p) && EditBelowRemoved(i, k)
    ensures n <= |p.ops| && !ServerEditKept(i, copyOf, After(i, p, Smooth, n), k)
  {
    var d :| Under(d, k) && Removed(i, d);
    BelowRemoved(i, d, k);
    n := GoneOnBothSides(i, copyOf, p, d, k);
    NotKept(i, copyOf, After(i, p, Smooth, n), k);
  }

  lemma BelowRemoved(i: Inputs, d: Path, k: Path)
    requires TreeShaped(i.local) && Removed(i, d) && Under(d, k)
    ensures i.L(k).None? && Act(i, k) != Conflict
  {
    NoChildrenBelow(i, d, k);
  }

  lemma NeverCopied(i: Inputs, copyOf: Path -> Path, p: SyncPlan, n: nat, k: Path)
    requires FreshCopies(i, copyOf) && EmptyConflict(i, k) && n <= |p.ops|
    ensures Get(After(i, p, Smooth, n).local, copyOf(k)) != i.R(k)
  {
    assert copyOf(k) !in i.Keys();
    EmptyLocalWasScanned(i, p, n, copyOf(k));
  }

  lemma ConflictingStays(i: Inputs, copyOf: Path -> Path, p: SyncPlan, n: nat, k: Path)
    requires Case(i, copyOf, p) && Act(i, k) == Conflict && n <= |p.ops|
    ensures Get(After(i, p, Smooth, n).local, k) == i.L(k) && i.L(k) != i.R(k)
  {
    AlwaysSteady(i, copyOf, p, Smooth, n);
    LocalStays(i, copyOf, After(i, p, Smooth, n).local, k);
  }

  /** An empty server version is refused as a conflict copy and then replaced. */
  lemma EmptyConflictLoses(i: Inputs, copyOf: Path -> Path, p: SyncPlan, k: Path) returns (n: nat)
    requires Case(i, copyOf, p) && EmptyConflict(i, k)
    ensures n <= |p.ops| && !ServerEditKept(i, copyOf, After(i, p, Smooth, n), k)
  {
    var m := ReplacementQueued(i, copyOf, p.ops, k);
    n := m + 1;
    DeletedFile(i, p, m, k);
    ConflictingStays(i, copyOf, p, n, k);
    NeverCopied(i, copyOf, p, n, k);
    NotKept(i, copyOf, After(i, p, Smooth, n), k);
  }

  lemma ReplacementQueued(i: Inputs, copyOf: Path -> Path, ops: seq<Op>, k: Path) returns (m: nat)
    requires OpsFor(i, copyOf, ops) && Act(i, k) == Conflict
    ensures m < |ops| && ops[m] == Delete(k, false)
    ensures ServerEdit(i, k)
  {
    assert k in i.Keys() && Answered(i, copyOf, ops, k);
    m := Queued(ops, Delete(k, false));
  }

  lemma NotKept(i: Inputs, copyOf: Path -> Path, w: World, k: Path)
    requires ServerEdit(i, k) && Get(w.remote, k) != i.R(k) && Get(w.local, k) != i.R(k)
    requires Act(i, k) == Conflict ==> Get(w.local, copyOf(k)) != i.R(k)
    ensures !ServerEditKept(i, copyOf, w, k)
  {
  }

  lemma LosingLoses(i: Inputs, copyOf: Path -> Path, p: SyncPlan, k: Path) returns (n: nat)
    requires Case(i, copyOf, p) && Loses(i, k)
    ensures n <= |p.ops| && !ServerEditKept(i, copyOf, After(i, p, Smooth, n), k)
  {
    if EditClash(i, k) {
      n := EditClashLoses(i, copyOf, p, k);
    } else if EditBelowRemoved(i, k) {
      n := EditBelowRemovedLoses(i, copyOf, p, k);
    } else {
      n := EmptyConflictLoses(i, copyOf, p, k);
    }
  }

  lemma KeepingKeeps(i: Inputs, copyOf: Path -> Path, p: SyncPlan, fate: nat -> Fate, n: nat)
    requires Case(i, copyOf, p) && n <= |p.ops| && SparesCopies(p.ops, fate) && forall k :: !Loses(i, k)
    ensures EditsKept(i, copyOf, After(i, p, fate, n))
  {
    forall k ensures LocalEditKept(i, After(i, p, fate, n), k) && ServerEditKept(i, copyOf, After(i, p, fate, n), k) {
      assert !Loses(i, k);
      LocalEditStays(i, copyOf, p, fate, n, k);
      ServerEditStays(i, copyOf, p, fate, n, k);
    }
  }

  /** For all scans of real trees and any baseline: no version is lost, at any moment
      and under any failures other than of the conflict downloads, if and only if no
      edited server file faces a local directory or lies below a removed one, and no
      conflict has an empty server version. */
  lemma NoVersionLostExactlyWhen(i: Inputs, copyOf: Path -> Path, p: SyncPlan)
    requires Case(i, copyOf, p)
    ensures (forall fate: nat -> Fate, n: nat :: n <= |p.ops| && SparesCopies(p.ops, fate)
               ==> EditsKept(i, copyOf, After(i, p, fate, n)))
            <==> (forall k :: !Loses(i, k))
  {
    if k :| Loses(i, k) {
      var n := LosingLoses(i, copyOf, p, k);
      assert SparesCopies(p.ops, Smooth);
      assert !EditsKept(i, copyOf, After(i, p, Smooth, n));
    } else {
      forall fate: nat -> Fate, n: nat | n <= |p.ops| && SparesCopies(p.ops, fate)
        ensures EditsKept(i, copyOf, After(i, p, fate, n))
      {
        KeepingKeeps(i, copyOf, p, fate, n);
      }
    }
  }
}
