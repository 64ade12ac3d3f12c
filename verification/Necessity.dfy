/** Necessity half of the refinement theorem. When a condition fails, the run
    goes on past the refused request and ends somewhere other than the merge. */
module Necessity {
  import opened Induction
  import opened Paths
  import opened Trees
  import opened Plans
  import opened Execution
  import opened Refinement
  import opened Progress
  import opened Convergence

  // --- what one step cannot do, whatever the state ------------------------------------

  /** o has no business with remote path k. */
  predicate Spares(o: Op, k: Path) {
    !Creates(o, k) && !Frees(o, k) && !(o.Rmdir? && Under(o.key, k))
  }

  lemma SparedStays(i: Inputs, w: World, o: Op, fate: Fate, k: Path)
    requires TreeShaped(w.remote) && Spares(o, k) && k in w.remote
    ensures Get(Step(i, w, o, fate).remote, k) == Get(w.remote, k)
  {
    if Accepted(w, o) && fate.Goes? {
      match o
      case Upload(u) =>
        assert !Under(u, k);
      case _ =>
    }
  }

  /** No request overwrites anything on the server, in any state and whatever fails: a
      creating request is refused when its target exists, and an entry goes only by a
      request to remove or move it, or to remove a directory above it. */
  lemma NothingOverwritten(i: Inputs, w: World, o: Op, fate: Fate, k: Path)
    requires TreeShaped(w.remote) && k in w.remote
    ensures Creates(o, k) ==> !Accepted(w, o) && Get(Step(i, w, o, fate).remote, k) == Get(w.remote, k)
    ensures !Frees(o, k) && !(o.Rmdir? && Under(o.key, k)) ==> Get(Step(i, w, o, fate).remote, k) == Get(w.remote, k)
  {
    if Spares(o, k) {
      SparedStays(i, w, o, fate, k);
    }
  }

  ghost predicate NoFileAbove(t: Tree, k: Path) {
    forall d :: Under(d, k) ==> !IsFile(Get(t, d))
  }

  /** What a failure leaves behind, in any state. The baseline is as before. A plain failure
      changes nothing on the server; a creating request that fails halfway has made the
      directories above its target and nothing else. A failed download has made the local
      directories above its target, unless a file is in the way, and nothing else. */
  lemma FailureLeaves(i: Inputs, w: World, o: Op, fate: Fate, x: Path)
    requires !fate.Goes? || !Accepted(w, o)
    ensures Step(i, w, o, fate).base == w.base
    ensures fate.Fails? || !Accepted(w, o) ==> Step(i, w, o, fate).remote == w.remote
    ensures fate.FailsHalfway? && Accepted(w, o) && (o.Mkdir? || o.Move? || o.Copy?) ==>
              Get(Step(i, w, o, fate).remote, x) == if Under(x, Target(o)) then Some(Dir) else Get(w.remote, x)
    ensures o.Download? ==>
              Get(Step(i, w, o, fate).local, x) == if Under(x, o.key) && NoFileAbove(w.local, o.key) then Some(Dir) else Get(w.local, x)
  {
    ParentsAreAncestors(Target(o));
  }

  lemma LocalParents(i: Inputs, t: Path, k: Path)
    requires TreeShaped(i.local) && t in i.local && k !in i.local
    ensures k != t && k !in Parents(t)
  {
    ParentsAreAncestors(t);
  }

  /** Only paths of the local scan ever appear on the server. */
  lemma AppearsOnlyLocal(i: Inputs, w: World, o: Op, fate: Fate, k: Path)
    requires TreeShaped(i.local) && Typed(i, o)
    requires k !in w.remote && k !in i.local
    ensures k !in Step(i, w, o, fate).remote
  {
    match o
    case Mkdir(t) => LocalParents(i, t, k);
    case Move(_, t) => LocalParents(i, t, k);
    case Upload(t) => LocalParents(i, t, k);
    case Copy(_, t) => LocalParents(i, t, k);
    case _ =>
  }

  lemma WithParentsShape(t: Tree, k: Path, n: Node)
    requires TreeShaped(t) && k !in t && Reachable(t, k)
    ensures TreeShaped(WithParents(t, k)[k := n])
  {
    var t' := WithParents(t, k)[k := n];
    ParentsAreAncestors(k);
    forall q, d | q in t' && Under(d, q) ensures Get(t', d) == Some(Dir) {
      UnderIrreflexive(k);
      if q == k {
      } else if q in t {
        assert Get(t, d) == Some(Dir);
        assert d != k;
      } else {
        UnderTransitive(d, q, k);
      }
    }
  }

  lemma ParentsShape(t: Tree, k: Path)
    requires TreeShaped(t) && Reachable(t, k)
    ensures TreeShaped(WithParents(t, k))
  {
    var t' := WithParents(t, k);
    ParentsAreAncestors(k);
    forall q, d | q in t' && Under(d, q) ensures Get(t', d) == Some(Dir) {
      if q in t {
        assert Get(t, d) == Some(Dir);
      } else {
        UnderTransitive(d, q, k);
      }
    }
  }

  lemma WithoutShape(t: Tree, k: Path)
    requires TreeShaped(t)
    ensures TreeShaped(Without(t, k))
  {
    forall q, d | q in Without(t, k) && Under(d, q) ensures Get(Without(t, k), d) == Some(Dir) {
      assert Get(t, d) == Some(Dir);
      if Under(k, d) {
        UnderTransitive(k, d, q);
      }
    }
  }

  lemma RemainsShape(t: Tree, k: Path, left: set<Path>)
    requires TreeShaped(t)
    ensures TreeShaped(Remains(t, k, left))
  {
    var t' := Remains(t, k, left);
    forall q, d | q in t' && Under(d, q) ensures Get(t', d) == Some(Dir) {
      assert Get(t, d) == Some(Dir);
      if Under(k, d) {
        UnderTransitive(k, d, q);
        SurvivesAbove(k, d, q, left);
      }
    }
  }

  /** A removal that fails may leave any part of the directory that is a tree itself. */
  lemma AnyPartCanRemain(t: Tree, k: Path, part: Tree)
    requires TreeShaped(part) && forall p :: p in part ==> p in t && part[p] == t[p]
    requires forall p :: p in t && !Under(k, p) ==> p in part
    ensures Remains(t, k, part.Keys) == part
  {
    forall p | p in t && Under(k, p) ensures Survives(k, p, part.Keys) <==> p in part {
      ParentsAreAncestors(p);
      assert p in Parents(p) + {p};
    }
  }

  lemma SurvivesAbove(k: Path, d: Path, q: Path, left: set<Path>)
    requires Survives(k, q, left) && Under(d, q)
    ensures Survives(k, d, left)
  {
    ParentsAreAncestors(d);
    ParentsAreAncestors(q);
    forall e | e in Parents(d) + {d} && Under(k, e) ensures e in left {
      if e != d { UnderTransitive(e, d, q); }
      assert e in Parents(q) + {q};
    }
  }

  lemma MovedShape(t: Tree, f: Path, k: Path)
    requires TreeShaped(t) && IsFile(Get(t, f)) && CanCreate(t, k)
    ensures TreeShaped(WithParents(t, k)[k := t[f]] - {f})
  {
    var t' := WithParents(t, k)[k := t[f]];
    WithParentsShape(t, k, t[f]);
    assert Get(t', f) == Get(t, f);
    FileHasNoChildren(t', f);
    RemoveKeepsShape(t', f);
  }

  /** The server's folder is a tree at every moment, failures included. */
  lemma StepKeepsRemoteShape(i: Inputs, w: World, o: Op, fate: Fate)
    requires TreeShaped(w.remote)
    ensures TreeShaped(Step(i, w, o, fate).remote)
  {
    if Accepted(w, o) && fate.Goes? {
      var t := w.remote;
      match o
      case PreDelete(k) => FileHasNoChildren(t, k); RemoveKeepsShape(t, k);
      case Delete(k, _) => FileHasNoChildren(t, k); RemoveKeepsShape(t, k);
      case Rmdir(k, _) => WithoutShape(t, k);
      case Mkdir(k) => WithParentsShape(t, k, Dir);
      case Move(f, k) => MovedShape(t, f, k);
      case Copy(f, k) => WithParentsShape(t, k, t[f]);
      case Upload(k) =>
        assert Without(t, k) == t by {
          forall q | q in t && Under(k, q) ensures false { }
        }
        if Reachable(t, k) { WithParentsShape(t, k, w.local[k]); }
      case _ =>
    } else if LeavesParents(w, o, fate) {
      ParentsShape(w.remote, Target(o));
    } else if LeavesPart(w, o, fate) {
      RemainsShape(w.remote, o.key, fate.left);
    }
  }

  lemma {:induction false} RemoteIsTree(i: Inputs, p: SyncPlan, fate: nat -> Fate, n: nat)
    requires TreeShaped(i.remote) && n <= |p.ops|
    ensures TreeShaped(After(i, p, fate, n).remote)
  {
    if n == 0 {
      AfterBegin(i, p, fate);
    } else {
      RemoteIsTree(i, p, fate, n - 1);
      AfterStep(i, p, fate, n - 1);
      StepKeepsRemoteShape(i, After(i, p, fate, n - 1), p.ops[n - 1], fate(n - 1));
    }
  }

  ghost predicate AllJustified(i: Inputs, copyOf: Path -> Path, ops: seq<Op>) {
    forall m: nat {:trigger Justified(i, copyOf, ops, ops[m])} :: m < |ops| ==> Justified(i, copyOf, ops, ops[m])
  }

  lemma PlanIsJustified(i: Inputs, copyOf: Path -> Path, ops: seq<Op>)
    requires OpsFor(i, copyOf, ops)
    ensures AllJustified(i, copyOf, ops)
  {
    forall m: nat | m < |ops| ensures Justified(i, copyOf, ops, ops[m]) {
      assert ops[m] in ops;
    }
  }

  // --- something new below a removed directory -----------------------------------------

  lemma SparesDoomed(i: Inputs, copyOf: Path -> Path, ops: seq<Op>, m: nat, n: nat, d: Path)
    requires OpsFor(i, copyOf, ops) && m < n < |ops| && ops[n].Rmdir? && ops[n].key == d
    ensures Spares(ops[m], d)
  {
    assert InOrder(ops[m], ops[n]) && ops[m] != ops[n];
    assert ops[m] in ops && ops[n] in ops;
    assert Justified(i, copyOf, ops, ops[n]);
    if Creates(ops[m], d) {
      FreedBeforeCreated(i, copyOf, ops, ops[n], ops[m], d);
    }
    if ops[m].Rmdir? && Under(ops[m].key, d) {
      UnderIsDeeper(ops[m].key, d);
    }
  }

  ghost predicate DirAt(i: Inputs, p: SyncPlan, d: Path, n: nat) {
    n <= |p.ops| && Get(After(i, p, Smooth, n).remote, d) == Some(Dir)
  }

  lemma DoomedNext(i: Inputs, p: SyncPlan, n: nat, d: Path)
    requires TreeShaped(i.remote) && n < |p.ops| && Spares(p.ops[n], d) && DirAt(i, p, d, n)
    ensures DirAt(i, p, d, n + 1)
  {
    AfterStep(i, p, Smooth, n);
    RemoteIsTree(i, p, Smooth, n);
    SparedStays(i, After(i, p, Smooth, n), p.ops[n], Smooth(n), d);
  }

  lemma {:induction false} SparedDirStays(i: Inputs, p: SyncPlan, n: nat, d: Path)
    requires TreeShaped(i.remote) && n <= |p.ops| && i.R(d) == Some(Dir)
    requires forall m: nat :: m < n ==> Spares(p.ops[m], d)
    ensures DirAt(i, p, d, n)
  {
    if n == 0 {
      AfterBegin(i, p, Smooth);
    } else {
      SparedDirStays(i, p, n - 1, d);
      DoomedNext(i, p, n - 1, d);
    }
  }

  lemma DoomedStays(i: Inputs, copyOf: Path -> Path, p: SyncPlan, n: nat, d: Path)
    requires TreeShaped(i.remote) && OpsFor(i, copyOf, p.ops)
    requires n < |p.ops| && p.ops[n].Rmdir? && p.ops[n].key == d
    ensures DirAt(i, p, d, n)
  {
    assert p.ops[n] in p.ops && Justified(i, copyOf, p.ops, p.ops[n]);
    forall m: nat | m < n ensures Spares(p.ops[m], d) {
      SparesDoomed(i, copyOf, p.ops, m, n, d);
    }
    SparedDirStays(i, p, n, d);
  }

  ghost predicate GoneAt(i: Inputs, p: SyncPlan, x: Path, n: nat) {
    n <= |p.ops| && x !in After(i, p, Smooth, n).remote
  }

  lemma GoneNext(i: Inputs, p: SyncPlan, n: nat, x: Path)
    requires TreeShaped(i.local) && n < |p.ops| && Typed(i, p.ops[n])
    requires x !in i.local && GoneAt(i, p, x, n)
    ensures GoneAt(i, p, x, n + 1)
  {
    AfterStep(i, p, Smooth, n);
    AppearsOnlyLocal(i, After(i, p, Smooth, n), p.ops[n], Smooth(n), x);
  }

  lemma StaysGone(i: Inputs, p: SyncPlan, m: nat, n: nat, x: Path)
    requires TreeShaped(i.local) && forall o :: o in p.ops ==> Typed(i, o)
    requires m <= n <= |p.ops| && x !in i.local && GoneAt(i, p, x, m)
    ensures GoneAt(i, p, x, n)
  {
    var holds := (y: nat) => GoneAt(i, p, x, y);
    forall y: nat | m <= y < n && holds(y) ensures holds(y + 1) {
      assert p.ops[y] in p.ops;
      GoneNext(i, p, y, x);
    }
    Throughout(holds, m, n);
  }

  lemma RemovedWithDirectory(i: Inputs, copyOf: Path -> Path, p: SyncPlan, n: nat, d: Path, x: Path)
    requires TreeShaped(i.remote) && OpsFor(i, copyOf, p.ops)
    requires n < |p.ops| && p.ops[n].Rmdir? && p.ops[n].key == d && Under(d, x)
    ensures GoneAt(i, p, x, n + 1)
  {
    AfterStep(i, p, Smooth, n);
    DoomedStays(i, copyOf, p, n, d);
  }

  lemma RmdirQueued(i: Inputs, copyOf: Path -> Path, ops: seq<Op>, d: Path) returns (n: nat)
    requires OpsFor(i, copyOf, ops) && Act(i, d) in {RemoveRemoteDir, ReplaceDirByFile}
    ensures n < |ops| && ops[n].Rmdir? && ops[n].key == d
  {
    assert d in i.Keys() && Answered(i, copyOf, ops, d);
    n :| n < |ops| && ops[n] == Rmdir(d, Act(i, d) == RemoveRemoteDir);
  }

  lemma NoisyVanishes(i: Inputs, copyOf: Path -> Path, p: SyncPlan, d: Path, x: Path)
    requires i.Scanned() && OpsFor(i, copyOf, p.ops) && x !in i.local
    requires Act(i, d) in {RemoveRemoteDir, ReplaceDirByFile} && Under(d, x)
    ensures GoneAt(i, p, x, |p.ops|)
  {
    var n := RmdirQueued(i, copyOf, p.ops, d);
    RemovedWithDirectory(i, copyOf, p, n, d, x);
    forall o | o in p.ops ensures Typed(i, o) {
      JustifiedIsTyped(i, copyOf, p.ops, o);
    }
    StaysGone(i, p, n + 1, |p.ops|, x);
  }

  lemma NoisyDiverges(i: Inputs, copyOf: Path -> Path, p: SyncPlan, d: Path, x: Path)
    requires Case(i, copyOf, p)
    requires Act(i, d) in {RemoveRemoteDir, ReplaceDirByFile} && x in i.remote && Under(d, x) && i.B(x) != i.R(x)
    ensures Get(Finish(i, p).remote, x) != i.Merged(x)
  {
    NoChildrenBelow(i, d, x);
    assert i.Merged(x) == i.R(x);
    NoisyVanishes(i, copyOf, p, d, x);
  }

  // --- a baseline with the wrong kind -----------------------------------------------------

  predicate LeavesBase(i: Inputs, o: Op, k: Path) {
    Typed(i, o) && !Creates(o, k) && !Drops(o, k) && o != Download(k)
  }

  lemma BaseStaysNext(i: Inputs, p: SyncPlan, fate: nat -> Fate, n: nat, k: Path)
    requires n < |p.ops| && LeavesBase(i, p.ops[n], k)
    ensures Get(After(i, p, fate, n + 1).base, k) == Get(After(i, p, fate, n).base, k)
  {
    AfterStep(i, p, fate, n);
    var w, o := After(i, p, fate, n), p.ops[n];
    if Accepted(w, o) && fate(n).Goes? {
      BaseEffectAt(i, w, o, k);
    }
  }

  lemma {:induction false} BaseUntouched(i: Inputs, p: SyncPlan, fate: nat -> Fate, n: nat, k: Path)
    requires n <= |p.ops| && forall m: nat :: m < n ==> LeavesBase(i, p.ops[m], k)
    ensures Get(After(i, p, fate, n).base, k) == Get(After(i, p, fate, 0).base, k)
  {
    if n > 0 {
      BaseUntouched(i, p, fate, n - 1, k);
      BaseStaysNext(i, p, fate, n - 1, k);
    }
  }

  lemma BaseStays(i: Inputs, copyOf: Path -> Path, p: SyncPlan, fate: nat -> Fate, n: nat, k: Path)
    requires OpsFor(i, copyOf, p.ops) && BaselineFor(i, p) && n <= |p.ops|
    requires Act(i, k) == Leave || Act(i, k) == Forget
    ensures Get(After(i, p, fate, n).base, k) == BaseBegin(i, k)
  {
    forall m: nat | m < n ensures LeavesBase(i, p.ops[m], k) {
      assert p.ops[m] in p.ops && Justified(i, copyOf, p.ops, p.ops[m]);
      JustifiedIsTyped(i, copyOf, p.ops, p.ops[m]);
    }
    BaseUntouched(i, p, fate, n, k);
    AfterBegin(i, p, fate);
    BeginBaseAt(i, p, k);
  }

  /** A file on both sides under a baseline directory entry: the upload is queued
      without a delete, so it is refused and nothing is recorded. */
  lemma BlockedUpload(i: Inputs, copyOf: Path -> Path, p: SyncPlan, n: nat, k: Path)
    requires Case(i, copyOf, p) && n <= |p.ops|
    requires IsFile(i.L(k)) && IsFile(i.R(k)) && IsDir(i.B(k))
    ensures Get(After(i, p, Smooth, n).remote, k) == i.R(k)
    ensures Get(After(i, p, Smooth, n).base, k) == i.B(k)
  {
    AfterBegin(i, p, Smooth);
    BeginBaseAt(i, p, k);
    PlanIsJustified(i, copyOf, p.ops);
    BlockedThroughout(i, copyOf, p, n, k);
  }

  lemma {:induction false} BlockedThroughout(i: Inputs, copyOf: Path -> Path, p: SyncPlan, n: nat, k: Path)
    requires i.Scanned() && AllJustified(i, copyOf, p.ops) && n <= |p.ops| && Act(i, k) == UploadFresh
    requires k in After(i, p, Smooth, 0).remote
    ensures Get(After(i, p, Smooth, n).remote, k) == Get(After(i, p, Smooth, 0).remote, k)
    ensures Get(After(i, p, Smooth, n).base, k) == Get(After(i, p, Smooth, 0).base, k)
  {
    if n > 0 {
      BlockedThroughout(i, copyOf, p, n - 1, k);
      assert Justified(i, copyOf, p.ops, p.ops[n - 1]);
      BlockedNext(i, copyOf, p, n - 1, k);
    }
  }

  lemma BlockedNext(i: Inputs, copyOf: Path -> Path, p: SyncPlan, n: nat, k: Path)
    requires i.Scanned() && n < |p.ops| && Justified(i, copyOf, p.ops, p.ops[n]) && Act(i, k) == UploadFresh
    requires k in After(i, p, Smooth, n).remote
    ensures Get(After(i, p, Smooth, n + 1).remote, k) == Get(After(i, p, Smooth, n).remote, k)
    ensures Get(After(i, p, Smooth, n + 1).base, k) == Get(After(i, p, Smooth, n).base, k)
  {
    AfterStep(i, p, Smooth, n);
    RemoteIsTree(i, p, Smooth, n);
    BlockedStep(i, copyOf, p.ops, After(i, p, Smooth, n), p.ops[n], k);
  }

  lemma BlockedStep(i: Inputs, copyOf: Path -> Path, ops: seq<Op>, w: World, o: Op, k: Path)
    requires TreeShaped(i.local) && TreeShaped(w.remote) && Justified(i, copyOf, ops, o) && Act(i, k) == UploadFresh
    requires k in w.remote
    ensures Get(Step(i, w, o, Goes).remote, k) == Get(w.remote, k) && Get(Step(i, w, o, Goes).base, k) == Get(w.base, k)
  {
    SparesBlocked(i, copyOf, ops, o, k);
    if Accepted(w, o) {
      JustifiedIsTyped(i, copyOf, ops, o);
      BaseEffectAt(i, w, o, k);
      SparedStays(i, w, o, Goes, k);
    }
  }

  lemma SparesBlocked(i: Inputs, copyOf: Path -> Path, ops: seq<Op>, o: Op, k: Path)
    requires TreeShaped(i.local) && Justified(i, copyOf, ops, o) && Act(i, k) == UploadFresh
    ensures !Frees(o, k) && !Drops(o, k) && o != Download(k) && !(o.Rmdir? && Under(o.key, k))
    ensures Creates(o, k) ==> o == Upload(k)
  {
  }

  lemma StaleDiverges(i: Inputs, copyOf: Path -> Path, p: SyncPlan, k: Path)
    requires Case(i, copyOf, p) && StaleKind(i, k)
    ensures Get(Finish(i, p).base, k) != i.Merged(k)
  {
    if IsFile(i.L(k)) {
      BlockedUpload(i, copyOf, p, |p.ops|, k);
    } else {
      BaseStays(i, copyOf, p, Smooth, |p.ops|, k);
    }
  }

  // --- empty files ----------------------------------------------------------------------------

  predicate Empty(n: Option<Node>) {
    n == Some(File([]))
  }

  lemma {:induction false} LocalDirsAreDirs(t: Tree, ds: seq<Path>, k: Path)
    ensures Get(MakeLocalDirs(t, ds), k) == Get(t, k) || Get(MakeLocalDirs(t, ds), k) == Some(Dir)
  {
    if ds != [] {
      LocalDirsAreDirs(t, ds[..|ds| - 1], k);
    }
  }

  lemma NoEmptyArrival(i: Inputs, w: World, o: Op, k: Path)
    ensures Empty(Get(Step(i, w, o, Goes).local, k)) ==> Empty(Get(w.local, k))
  {
  }

  /** No empty file ever arrives locally. */
  lemma {:induction false} EmptyLocalWasScanned(i: Inputs, p: SyncPlan, n: nat, k: Path)
    requires n <= |p.ops|
    ensures Empty(Get(After(i, p, Smooth, n).local, k)) ==> Empty(i.L(k))
  {
    if n == 0 {
      AfterBegin(i, p, Smooth);
      LocalDirsAreDirs(i.local, p.localMkdirs, k);
    } else {
      EmptyLocalWasScanned(i, p, n - 1, k);
      AfterStep(i, p, Smooth, n - 1);
      NoEmptyArrival(i, After(i, p, Smooth, n - 1), p.ops[n - 1], k);
    }
  }

  /** No empty file is ever uploaded. */
  lemma {:induction false} EmptyRemoteWasScanned(i: Inputs, p: SyncPlan, n: nat, k: Path)
    requires n <= |p.ops| && Exclusive(p.ops) && Upload(k) in p.ops
    ensures Empty(Get(After(i, p, Smooth, n).remote, k)) ==> Empty(i.R(k))
  {
    if n == 0 {
      AfterBegin(i, p, Smooth);
    } else {
      EmptyRemoteWasScanned(i, p, n - 1, k);
      AfterStep(i, p, Smooth, n - 1);
      assert p.ops[n - 1] in p.ops && Creates(Upload(k), k);
      NoEmptyUpload(i, After(i, p, Smooth, n - 1), p.ops[n - 1], k);
    }
  }

  lemma NoEmptyUpload(i: Inputs, w: World, o: Op, k: Path)
    requires Creates(o, k) ==> o == Upload(k)
    ensures Empty(Get(Step(i, w, o, Goes).remote, k)) ==> Empty(Get(w.remote, k))
  {
  }

  lemma EmptyUploadDiverges(i: Inputs, copyOf: Path -> Path, p: SyncPlan, k: Path)
    requires OpsFor(i, copyOf, p.ops) && Upload(k) in p.ops && Empty(i.L(k)) && !StaleKind(i, k)
    ensures Get(Finish(i, p).remote, k) != i.Merged(k)
  {
    assert Justified(i, copyOf, p.ops, Upload(k));
    PutIsMerge(i, copyOf, p.ops, Upload(k), k);
    EmptyRemoteWasScanned(i, p, |p.ops|, k);
  }

  lemma EmptyDownloadDiverges(i: Inputs, copyOf: Path -> Path, p: SyncPlan, k: Path)
    requires OpsFor(i, copyOf, p.ops) && FreshCopies(i, copyOf) && Download(k) in p.ops && Empty(i.R(k))
    ensures Get(Finish(i, p).local, k) != i.Merged(k) && !IsCopy(i, copyOf, k)
  {
    assert Justified(i, copyOf, p.ops, Download(k));
    NotACopy(i, copyOf, k);
    PutIsMerge(i, copyOf, p.ops, Download(k), k);
    EmptyLocalWasScanned(i, p, |p.ops|, k);
  }

  lemma EmptyCopyDiverges(i: Inputs, copyOf: Path -> Path, p: SyncPlan, k: Path)
    requires FreshCopies(i, copyOf) && Act(i, k) == Conflict && Empty(i.R(k))
    ensures Get(Finish(i, p).local, copyOf(k)) != i.R(k)
  {
    EmptyLocalWasScanned(i, p, |p.ops|, copyOf(k));
    assert copyOf(k) !in i.Keys();
  }

  lemma EmptyDiverges(i: Inputs, copyOf: Path -> Path, p: SyncPlan, o: Op)
    requires Case(i, copyOf, p) && o in p.ops && MovesEmptyFile(i, o) && NoStaleKinds(i)
    ensures !Converged(i, copyOf, Finish(i, p))
  {
    assert Justified(i, copyOf, p.ops, o);
    match o
    case Upload(k) =>
      assert !StaleKind(i, k);
      EmptyUploadDiverges(i, copyOf, p, k);
    case Download(k) => EmptyDownloadDiverges(i, copyOf, p, k);
    case ConflictDownload(k, _) => EmptyCopyDiverges(i, copyOf, p, k);
  }

  // --- the theorem -----------------------------------------------------------------------------

  /** For any scans of real trees, any baseline and any plan the planner may
      return: running the plan computes the merge if and only if nothing new sits
      below a removed directory, no baseline kind is stale in one of the two ways
      the planner does not handle, and no empty file has to be transferred. */
  lemma SyncIsMergeExactlyWhen(i: Inputs, copyOf: Path -> Path, p: SyncPlan)
    requires Case(i, copyOf, p)
    ensures Converged(i, copyOf, Finish(i, p)) <==> Quiet(i) && NoStaleKinds(i) && NoEmptyTransfers(i, p.ops)
  {
    if Quiet(i) && NoStaleKinds(i) && NoEmptyTransfers(i, p.ops) {
      GoodConverges(i, copyOf, p);
    } else if !NoStaleKinds(i) {
      var k :| StaleKind(i, k);
      StaleDiverges(i, copyOf, p, k);
    } else if !Quiet(i) {
      var d, x :| Act(i, d) in {RemoveRemoteDir, ReplaceDirByFile} && x in i.remote && Under(d, x) && i.B(x) != i.R(x);
      NoisyDiverges(i, copyOf, p, d, x);
    } else {
      var o :| o in p.ops && MovesEmptyFile(i, o);
      EmptyDiverges(i, copyOf, p, o);
    }
  }
}
