/** Sufficiency half of the refinement theorem: under the stated conditions the
    plan runs without a refusal and ends in the merge. */
module Convergence {
  import opened Induction
  import opened Paths
  import opened Trees
  import opened Plans
  import opened Execution
  import opened Refinement
  import opened Progress

  // --- the local side ---------------------------------------------------------------

  /** Directories above something taken from the server exist locally. */
  lemma PulledParent(i: Inputs, x: Path, d: Path)
    requires i.Scanned() && Quiet(i) && NoStaleKinds(i)
    requires x in i.remote && i.B(x) != i.R(x) && Under(d, x)
    ensures Act(i, d) == RecordDir || Act(i, d) == MirrorDir
    ensures LocalBegin(i, d) == Some(Dir)
  {
    assert Get(i.remote, d) == Some(Dir);
    assert !StaleKind(i, d);
    assert HasChildren(i.local, d) ==> IsDir(i.L(d));
  }

  lemma NotACopy(i: Inputs, copyOf: Path -> Path, k: Path)
    requires FreshCopies(i, copyOf) && k in i.Keys()
    ensures !IsCopy(i, copyOf, k)
  {
  }

  lemma NotPulled(i: Inputs, copyOf: Path -> Path, ops: seq<Op>, n: nat, k: Path)
    requires OpsFor(i, copyOf, ops) && n <= |ops| && !Act(i, k).Pull?
    ensures Download(k) !in ops[..n]
  {
    forall o | o in ops[..n] ensures o != Download(k) {
      assert o in ops && Justified(i, copyOf, ops, o);
    }
  }

  lemma LocalUnchanged(i: Inputs, copyOf: Path -> Path, ops: seq<Op>, n: nat, t: Tree, k: Path)
    requires OpsFor(i, copyOf, ops) && FreshCopies(i, copyOf) && n <= |ops|
    requires LocalInv(i, copyOf, ops[..n], t)
    requires k in i.Keys() && !Act(i, k).Pull?
    ensures Get(t, k) == LocalBegin(i, k)
  {
    NotACopy(i, copyOf, k);
    NotPulled(i, copyOf, ops, n, k);
  }

  lemma PullInPlace(i: Inputs, copyOf: Path -> Path, ops: seq<Op>, n: nat, t: Tree, k: Path)
    requires i.Scanned() && OpsFor(i, copyOf, ops) && FreshCopies(i, copyOf) && n <= |ops|
    requires Quiet(i) && NoStaleKinds(i)
    requires LocalInv(i, copyOf, ops[..n], t) && Act(i, k) == Pull
    ensures InPlace(t, k)
  {
    forall d | Under(d, k) ensures Get(t, d) == Some(Dir) {
      PulledParent(i, k, d);
      assert d in i.Keys();
      LocalUnchanged(i, copyOf, ops, n, t, d);
    }
  }

  lemma CopyInPlace(i: Inputs, copyOf: Path -> Path, ops: seq<Op>, n: nat, t: Tree, k: Path)
    requires i.Scanned() && OpsFor(i, copyOf, ops) && FreshCopies(i, copyOf) && n <= |ops|
    requires LocalInv(i, copyOf, ops[..n], t) && Act(i, k) == Conflict
    ensures InPlace(t, copyOf(k))
  {
    ParentsAreAncestors(k);
    ParentsAreAncestors(copyOf(k));
    forall d | Under(d, copyOf(k)) ensures Get(t, d) == Some(Dir) {
      assert d in Parents(k) && Under(d, k);
      assert Get(i.local, d) == Some(Dir);
      LocalUnchanged(i, copyOf, ops, n, t, d);
    }
  }

  // --- every operation finds what it expects -------------------------------------------

  lemma CreationExpected(i: Inputs, copyOf: Path -> Path, ops: seq<Op>, n: nat, t: Tree, k: Path)
    requires TreeShaped(i.local) && OpsFor(i, copyOf, ops) && NoStaleKinds(i) && n < |ops|
    requires RemoteInv(i, ops[..n], t) && Creates(ops[n], k)
    ensures k !in t && InPlace(t, k)
  {
    assert !StaleKind(i, k);
    TargetFree(i, copyOf, ops, n, k);
    ParentsMade(i, copyOf, ops, n, t, k);
  }

  lemma MoveExpected(i: Inputs, copyOf: Path -> Path, ops: seq<Op>, n: nat, w: World)
    requires TreeShaped(i.local) && OpsFor(i, copyOf, ops) && NoStaleKinds(i) && n < |ops|
    requires RemoteInv(i, ops[..n], w.remote) && ops[n].Move?
    ensures Expected(i, w, ops[n])
  {
    assert ops[n] in ops && Justified(i, copyOf, ops, ops[n]);
    SourceIntact(i, copyOf, ops, n, ops[n].from);
    CreationExpected(i, copyOf, ops, n, w.remote, ops[n].to);
  }

  lemma CopyExpected(i: Inputs, copyOf: Path -> Path, ops: seq<Op>, n: nat, w: World)
    requires TreeShaped(i.local) && OpsFor(i, copyOf, ops) && NoStaleKinds(i) && n < |ops|
    requires RemoteInv(i, ops[..n], w.remote) && ops[n].Copy?
    ensures Expected(i, w, ops[n])
  {
    assert ops[n] in ops && Justified(i, copyOf, ops, ops[n]);
    CopySourceHolds(i, copyOf, ops, n, ops[n].from, ops[n].to);
    CreationExpected(i, copyOf, ops, n, w.remote, ops[n].to);
  }

  lemma UploadExpected(i: Inputs, copyOf: Path -> Path, ops: seq<Op>, n: nat, w: World)
    requires TreeShaped(i.local) && OpsFor(i, copyOf, ops) && FreshCopies(i, copyOf) && NoStaleKinds(i) && n < |ops|
    requires RemoteInv(i, ops[..n], w.remote) && LocalInv(i, copyOf, ops[..n], w.local) && ops[n].Upload?
    ensures Expected(i, w, ops[n])
  {
    assert ops[n] in ops && Justified(i, copyOf, ops, ops[n]);
    CreationExpected(i, copyOf, ops, n, w.remote, ops[n].key);
    LocalUnchanged(i, copyOf, ops, n, w.local, ops[n].key);
  }

  lemma RemovalExpected(i: Inputs, copyOf: Path -> Path, ops: seq<Op>, n: nat, w: World)
    requires TreeShaped(i.local) && OpsFor(i, copyOf, ops) && Quiet(i) && n < |ops|
    requires RemoteInv(i, ops[..n], w.remote) && (ops[n].PreDelete? || ops[n].Delete? || ops[n].Rmdir?)
    ensures Expected(i, w, ops[n])
  {
    assert ops[n] in ops && Justified(i, copyOf, ops, ops[n]);
    SourceIntact(i, copyOf, ops, n, ops[n].key);
    if ops[n].Rmdir? {
      forall x | x in w.remote && Under(ops[n].key, x) ensures false {
        DirectoryEmptied(i, copyOf, ops, n, ops[n].key, x);
      }
    }
  }

  lemma DownloadExpected(i: Inputs, copyOf: Path -> Path, ops: seq<Op>, n: nat, w: World)
    requires i.Scanned() && OpsFor(i, copyOf, ops) && FreshCopies(i, copyOf) && n < |ops|
    requires Quiet(i) && NoStaleKinds(i)
    requires RemoteInv(i, ops[..n], w.remote) && LocalInv(i, copyOf, ops[..n], w.local) && ops[n].Download?
    ensures Expected(i, w, ops[n])
  {
    var k := ops[n].key;
    assert ops[n] in ops && Justified(i, copyOf, ops, ops[n]);
    Untouched(i, copyOf, ops, n, k);
    PullInPlace(i, copyOf, ops, n, w.local, k);
    NotACopy(i, copyOf, k);
  }

  lemma ConflictExpected(i: Inputs, copyOf: Path -> Path, ops: seq<Op>, n: nat, w: World)
    requires i.Scanned() && OpsFor(i, copyOf, ops) && FreshCopies(i, copyOf) && n < |ops|
    requires RemoteInv(i, ops[..n], w.remote) && LocalInv(i, copyOf, ops[..n], w.local)
    requires ops[n].ConflictDownload?
    ensures Expected(i, w, ops[n])
  {
    var k := ops[n].key;
    assert ops[n] in ops && Justified(i, copyOf, ops, ops[n]);
    CopyInPlace(i, copyOf, ops, n, w.local, k);
    forall o | o in ops[..n] ensures !Creates(o, k) && !Frees(o, k) && o != ops[n] {
      DoneInOrder(ops, n, o);
    }
  }

  lemma ExpectedNext(i: Inputs, copyOf: Path -> Path, ops: seq<Op>, n: nat, w: World)
    requires i.Scanned() && OpsFor(i, copyOf, ops) && FreshCopies(i, copyOf) && n < |ops|
    requires Quiet(i) && NoStaleKinds(i)
    requires RemoteInv(i, ops[..n], w.remote) && LocalInv(i, copyOf, ops[..n], w.local)
    ensures Expected(i, w, ops[n])
  {
    match ops[n]
    case ConflictDownload(_, _) => ConflictExpected(i, copyOf, ops, n, w);
    case PreDelete(_) => RemovalExpected(i, copyOf, ops, n, w);
    case Delete(_, _) => RemovalExpected(i, copyOf, ops, n, w);
    case Rmdir(_, _) => RemovalExpected(i, copyOf, ops, n, w);
    case Mkdir(k) => CreationExpected(i, copyOf, ops, n, w.remote, k);
    case Move(_, _) => MoveExpected(i, copyOf, ops, n, w);
    case Upload(_) => UploadExpected(i, copyOf, ops, n, w);
    case Copy(_, _) => CopyExpected(i, copyOf, ops, n, w);
    case Download(_) => DownloadExpected(i, copyOf, ops, n, w);
  }

  // --- keeping the invariant ------------------------------------------------------------

  lemma RemoteStep(i: Inputs, copyOf: Path -> Path, ops: seq<Op>, n: nat, w: World)
    requires OpsFor(i, copyOf, ops) && n < |ops|
    requires RemoteInv(i, ops[..n], w.remote) && Expected(i, w, ops[n]) && !MovesEmptyFile(i, ops[n])
    ensures Accepted(w, ops[n])
    ensures RemoteInv(i, ops[..n + 1], Effect(i, w, ops[n]).remote)
  {
    var o := ops[n];
    assert o in ops;
    JustifiedIsTyped(i, copyOf, ops, o);
    ExpectedOutcome(i, w, o);
    OutcomeKeepsShape(i, w, o);
    Appended(ops, n);
    var t := Effect(i, w, o).remote;
    forall k ensures Get(t, k) == RemoteAt(i, ops[..n + 1], k) {
      OutcomeAt(i, w, o, k);
      if Frees(o, k) {
        SourceIntact(i, copyOf, ops, n, k);
        NeverCreatedBeforeFreed(i, copyOf, ops, n, k);
      }
    }
  }

  lemma NeverCreatedBeforeFreed(i: Inputs, copyOf: Path -> Path, ops: seq<Op>, n: nat, k: Path)
    requires OpsFor(i, copyOf, ops) && n < |ops| && Frees(ops[n], k)
    ensures !CreatedBy(ops[..n + 1], k)
  {
    Appended(ops, n);
    forall c | c in ops[..n + 1] && Creates(c, k) ensures false {
      assert ops[n] in ops && c in ops;
      FreedBeforeCreated(i, copyOf, ops, ops[n], c, k);
      if c in ops[..n] {
        DoneInOrder(ops, n, c);
      }
    }
  }

  lemma ReplaceKeepsShape(t: Tree, k: Path, n: Node)
    requires TreeShaped(t) && !IsDir(Get(t, k)) && InPlace(t, k)
    ensures TreeShaped(t[k := n])
    ensures Place(t, k, n) == t[k := n]
  {
    if k in t {
      FileHasNoChildren(t, k);
      RemoveKeepsShape(t, k);
      assert Without(t, k) == t - {k};
    } else {
      assert Without(t, k) == t;
    }
    UnderIrreflexive(k);
    AddKeepsShape(t - {k}, k, n);
    InPlaceReachable(t, k);
    ParentsAreAncestors(k);
    assert (t - {k})[k := n] == t[k := n];
    assert WithParents(Without(t, k), k) == t - {k};
  }

  lemma LocalStep(i: Inputs, copyOf: Path -> Path, ops: seq<Op>, n: nat, w: World)
    requires OpsFor(i, copyOf, ops) && FreshCopies(i, copyOf) && n < |ops|
    requires LocalInv(i, copyOf, ops[..n], w.local) && Expected(i, w, ops[n]) && Accepted(w, ops[n])
    ensures LocalInv(i, copyOf, ops[..n + 1], Effect(i, w, ops[n]).local)
  {
    Appended(ops, n);
    if ops[n].ConflictDownload? {
      ConflictStep(i, copyOf, ops, n, w);
    } else if ops[n].Download? {
      DownloadStep(i, copyOf, ops, n, w);
    } else {
      assert Effect(i, w, ops[n]).local == w.local;
    }
  }

  lemma ConflictArrives(i: Inputs, copyOf: Path -> Path, done: seq<Op>, t: Tree, k: Path, n: Node)
    requires FreshCopies(i, copyOf) && LocalInv(i, copyOf, done, t) && TreeShaped(t[copyOf(k) := n])
    requires Act(i, k) == Conflict && i.R(k) == Some(n)
    ensures LocalInv(i, copyOf, done + [ConflictDownload(k, copyOf(k))], t[copyOf(k) := n])
  {
    assert IsCopy(i, copyOf, copyOf(k));
  }

  lemma ConflictStep(i: Inputs, copyOf: Path -> Path, ops: seq<Op>, n: nat, w: World)
    requires OpsFor(i, copyOf, ops) && FreshCopies(i, copyOf) && n < |ops|
    requires LocalInv(i, copyOf, ops[..n], w.local) && Expected(i, w, ops[n]) && Accepted(w, ops[n])
    requires ops[n].ConflictDownload?
    ensures LocalInv(i, copyOf, ops[..n + 1], Effect(i, w, ops[n]).local)
  {
    var k, c := ops[n].key, ops[n].copy;
    assert ops[..n + 1] == ops[..n] + [ops[n]];
    assert ops[n] in ops && Justified(i, copyOf, ops, ops[n]);
    ReplaceKeepsShape(w.local, c, w.remote[k]);
    ConflictArrives(i, copyOf, ops[..n], w.local, k, w.remote[k]);
  }

  lemma DownloadArrives(i: Inputs, copyOf: Path -> Path, done: seq<Op>, t: Tree, k: Path, n: Node)
    requires FreshCopies(i, copyOf) && LocalInv(i, copyOf, done, t) && TreeShaped(t[k := n])
    requires i.R(k) == Some(n)
    ensures LocalInv(i, copyOf, done + [Download(k)], t[k := n])
  {
    assert k in i.Keys();
  }

  lemma DownloadStep(i: Inputs, copyOf: Path -> Path, ops: seq<Op>, n: nat, w: World)
    requires OpsFor(i, copyOf, ops) && FreshCopies(i, copyOf) && n < |ops|
    requires LocalInv(i, copyOf, ops[..n], w.local) && Expected(i, w, ops[n]) && Accepted(w, ops[n])
    requires ops[n].Download?
    ensures LocalInv(i, copyOf, ops[..n + 1], Effect(i, w, ops[n]).local)
  {
    var k := ops[n].key;
    assert ops[..n + 1] == ops[..n] + [ops[n]];
    assert ops[n] in ops && Justified(i, copyOf, ops, ops[n]);
    ReplaceKeepsShape(w.local, k, w.remote[k]);
    DownloadArrives(i, copyOf, ops[..n], w.local, k, w.remote[k]);
  }

  lemma PutIsMerge(i: Inputs, copyOf: Path -> Path, ops: seq<Op>, o: Op, k: Path)
    requires Justified(i, copyOf, ops, o)
    ensures Creates(o, k) ==> i.Merged(k) == i.L(k) && i.L(k).Some?
    ensures o == Download(k) ==> i.Merged(k) == i.R(k) && i.R(k).Some?
  {
  }

  lemma DroppedNotPut(i: Inputs, copyOf: Path -> Path, ops: seq<Op>, n: nat, k: Path)
    requires OpsFor(i, copyOf, ops) && n <= |ops|
    requires Act(i, k) == RemovedRemote || Act(i, k) == RemoveRemoteDir
    ensures !PutBy(ops[..n], k)
  {
    OnlyCreating(i, copyOf, ops, n, k);
    NotPulled(i, copyOf, ops, n, k);
  }

  predicate Drops(o: Op, k: Path) {
    o == Delete(k, true) || o == Rmdir(k, true) || (o.Move? && o.from == k)
  }

  lemma BaseEffectAt(i: Inputs, w: World, o: Op, k: Path)
    requires Accepted(w, o) && Typed(i, o)
    ensures Get(Effect(i, w, o).base, k) ==
            if Creates(o, k) then i.L(k) else if o == Download(k) then i.R(k)
            else if Drops(o, k) then None else Get(w.base, k)
  {
  }

  lemma BaseStep(i: Inputs, copyOf: Path -> Path, ops: seq<Op>, n: nat, w: World)
    requires OpsFor(i, copyOf, ops) && n < |ops|
    requires BaseInv(i, ops[..n], w.base) && Accepted(w, ops[n])
    ensures BaseInv(i, ops[..n + 1], Effect(i, w, ops[n]).base)
  {
    var o := ops[n];
    var t := Effect(i, w, o).base;
    Appended(ops, n);
    JustifiedIsTyped(i, copyOf, ops, o);
    forall k ensures Get(t, k) == BaseAt(i, ops[..n + 1], k) {
      BaseEffectAt(i, w, o, k);
      PutIsMerge(i, copyOf, ops, o, k);
      if Drops(o, k) {
        DroppedStep(i, copyOf, ops, n, k);
      } else {
        assert DroppedBy(ops[..n + 1], k) <==> DroppedBy(ops[..n], k);
      }
    }
  }

  lemma DroppedStep(i: Inputs, copyOf: Path -> Path, ops: seq<Op>, n: nat, k: Path)
    requires OpsFor(i, copyOf, ops) && n < |ops| && Drops(ops[n], k)
    ensures BaseAt(i, ops[..n + 1], k) == None && !Creates(ops[n], k)
  {
    Appended(ops, n);
    assert Justified(i, copyOf, ops, ops[n]);
    assert ops[n] in ops[..n + 1];
    assert DroppedBy(ops[..n + 1], k);
    DroppedNotPut(i, copyOf, ops, n + 1, k);
  }

  // --- the start --------------------------------------------------------------------------

  lemma {:induction false} LocalDirsMade(i: Inputs, ds: seq<Path>)
    requires i.Scanned() && Quiet(i) && NoStaleKinds(i)
    requires forall d :: d in ds ==> Act(i, d) == MirrorDir
    ensures var t := MakeLocalDirs(i.local, ds);
            && (forall k :: Get(t, k) == i.L(k) || (Get(t, k) == Some(Dir) && Act(i, k) == MirrorDir))
            && (forall d :: d in ds ==> Get(t, d) == Some(Dir))
  {
    if ds != [] {
      var rest, d := ds[..|ds| - 1], ds[|ds| - 1];
      assert d in ds;
      LocalDirsMade(i, rest);
      var t := MakeLocalDirs(i.local, rest);
      ParentsAreAncestors(d);
      forall e | e in Parents(d)
        ensures Get(t, e) == Some(Dir) || (Get(t, e) == None && Act(i, e) == MirrorDir)
      {
        PulledParent(i, d, e);
      }
    }
  }

  lemma BeginLocalAt(i: Inputs, p: SyncPlan, k: Path)
    requires i.Scanned() && Quiet(i) && NoStaleKinds(i) && LocalPathsFor(i, p)
    ensures Get(Begin(i, p).local, k) == LocalBegin(i, k)
  {
    LocalDirsMade(i, p.localMkdirs);
    var t := MakeLocalDirs(i.local, p.localMkdirs);
    assert Get(t, k) == i.L(k) || (Get(t, k) == Some(Dir) && Act(i, k) == MirrorDir);
    assert Act(i, k) == MirrorDir ==> Get(t, k) == Some(Dir);
    assert k in p.localDeletes <==> Act(i, k) == DropLocal;
  }

  lemma BeginLocalParent(i: Inputs, k: Path, d: Path)
    requires i.Scanned() && Quiet(i) && NoStaleKinds(i)
    requires LocalBegin(i, k).Some? && Under(d, k)
    ensures LocalBegin(i, d) == Some(Dir)
  {
    if Act(i, k) == MirrorDir {
      PulledParent(i, k, d);
    } else {
      assert Get(i.local, d) == Some(Dir);
    }
  }

  lemma BeginLocal(i: Inputs, p: SyncPlan)
    requires i.Scanned() && Quiet(i) && NoStaleKinds(i) && LocalPathsFor(i, p)
    ensures forall k :: Get(Begin(i, p).local, k) == LocalBegin(i, k)
    ensures TreeShaped(Begin(i, p).local)
  {
    var t := Begin(i, p).local;
    forall k ensures Get(t, k) == LocalBegin(i, k) {
      BeginLocalAt(i, p, k);
    }
    forall k, d | k in t && Under(d, k) ensures Get(t, d) == Some(Dir) {
      BeginLocalParent(i, k, d);
    }
  }

  lemma BeginBase(i: Inputs, p: SyncPlan)
    requires BaselineFor(i, p)
    ensures BaseInv(i, [], Begin(i, p).base)
  {
    forall k ensures Get(Begin(i, p).base, k) == BaseAt(i, [], k) {
      BeginBaseAt(i, p, k);
    }
  }

  lemma BeginBaseAt(i: Inputs, p: SyncPlan, k: Path)
    requires BaselineFor(i, p)
    ensures Get(Begin(i, p).base, k) == BaseBegin(i, k)
  {
    assert k in p.baselineDrop <==> Act(i, k) in {Forget, DropLocal};
  }

  lemma BeginInv(i: Inputs, copyOf: Path -> Path, p: SyncPlan)
    requires Case(i, copyOf, p) && Quiet(i) && NoStaleKinds(i)
    ensures Inv(i, copyOf, [], Begin(i, p))
  {
    BeginLocal(i, p);
    BeginBase(i, p);
    forall j | Act(i, j) == Conflict ensures LocalBegin(i, copyOf(j)) == None {
      assert copyOf(j) !in i.Keys();
    }
  }

  // --- the theorem ---------------------------------------------------------------------------

  lemma StepInv(i: Inputs, copyOf: Path -> Path, p: SyncPlan, n: nat, w: World)
    requires Case(i, copyOf, p) && Good(i, p.ops) && n < |p.ops|
    requires Inv(i, copyOf, p.ops[..n], w)
    ensures Expected(i, w, p.ops[n]) && Accepted(w, p.ops[n])
    ensures Inv(i, copyOf, p.ops[..n + 1], Effect(i, w, p.ops[n]))
  {
    ExpectedNext(i, copyOf, p.ops, n, w);
    assert p.ops[n] in p.ops;
    RemoteStep(i, copyOf, p.ops, n, w);
    LocalStep(i, copyOf, p.ops, n, w);
    BaseStep(i, copyOf, p.ops, n, w);
  }

  lemma AfterAccepted(i: Inputs, p: SyncPlan, n: nat)
    requires n < |p.ops| && Accepted(After(i, p, Smooth, n), p.ops[n])
    ensures After(i, p, Smooth, n + 1) == Effect(i, After(i, p, Smooth, n), p.ops[n])
  {
    AfterStep(i, p, Smooth, n);
  }

  ghost predicate Follows(i: Inputs, copyOf: Path -> Path, p: SyncPlan, n: nat) {
    n <= |p.ops| && Inv(i, copyOf, p.ops[..n], After(i, p, Smooth, n))
  }

  lemma FollowsBegin(i: Inputs, copyOf: Path -> Path, p: SyncPlan)
    requires Case(i, copyOf, p) && Quiet(i) && NoStaleKinds(i)
    ensures Follows(i, copyOf, p, 0)
  {
    AfterBegin(i, p, Smooth);
    BeginInv(i, copyOf, p);
    assert p.ops[..0] == [];
  }

  lemma FollowsNext(i: Inputs, copyOf: Path -> Path, p: SyncPlan, n: nat)
    requires Case(i, copyOf, p) && Good(i, p.ops) && n < |p.ops| && Follows(i, copyOf, p, n)
    ensures Follows(i, copyOf, p, n + 1)
  {
    StepInv(i, copyOf, p, n, After(i, p, Smooth, n));
    AfterAccepted(i, p, n);
  }

  /** Under the conditions the whole run follows the plan: after n operations the
      three pictures are the predicted ones. */
  lemma RunFollowsPlan(i: Inputs, copyOf: Path -> Path, p: SyncPlan, n: nat)
    requires Case(i, copyOf, p) && Good(i, p.ops) && n <= |p.ops|
    ensures Follows(i, copyOf, p, n)
  {
    var holds := (m: nat) => Follows(i, copyOf, p, m);
    FollowsBegin(i, copyOf, p);
    forall m: nat | m < n && holds(m) ensures holds(m + 1) {
      FollowsNext(i, copyOf, p, m);
    }
    Throughout(holds, 0, n);
  }

  /** Every operation is accepted, and finds exactly the state it counts on. */
  lemma EveryOpEnabled(i: Inputs, copyOf: Path -> Path, p: SyncPlan, n: nat)
    requires Case(i, copyOf, p) && Good(i, p.ops) && n < |p.ops|
    ensures Expected(i, After(i, p, Smooth, n), p.ops[n])
    ensures Accepted(After(i, p, Smooth, n), p.ops[n])
  {
    RunFollowsPlan(i, copyOf, p, n);
    StepInv(i, copyOf, p, n, After(i, p, Smooth, n));
  }

  // --- the end of the run -----------------------------------------------------------------------

  lemma RemoteAtEnd(i: Inputs, copyOf: Path -> Path, ops: seq<Op>, k: Path)
    requires i.Scanned() && OpsFor(i, copyOf, ops) && !StaleKind(i, k)
    ensures RemoteAt(i, ops, k) == i.Merged(k)
  {
    assert ops[..|ops|] == ops;
    assert HasChildren(i.local, k) ==> IsDir(i.L(k));
    if k in i.Keys() {
      assert Answered(i, copyOf, ops, k);
    }
    if Creating(Act(i, k)) {
      CreatedAtEnd(i, copyOf, ops, k);
    } else {
      OnlyCreating(i, copyOf, ops, |ops|, k);
      if Act(i, k) == RemovedRemote || Act(i, k) == RemoveRemoteDir {
        assert Act(i, k) == RemoveRemoteDir ==> Rmdir(k, true) in ops && Frees(Rmdir(k, true), k);
      } else {
        OnlyFreeing(i, copyOf, ops, |ops|, k);
      }
    }
  }

  lemma CreatedAtEnd(i: Inputs, copyOf: Path -> Path, ops: seq<Op>, k: Path)
    requires OpsFor(i, copyOf, ops) && Creating(Act(i, k))
    ensures CreatedBy(ops, k) && i.L(k) == i.Merged(k)
  {
    assert k in i.Keys() && Answered(i, copyOf, ops, k);
    assert Creates(Mkdir(k), k) && Creates(Upload(k), k);
  }

  lemma BaseAtEnd(i: Inputs, copyOf: Path -> Path, ops: seq<Op>, k: Path)
    requires i.Scanned() && OpsFor(i, copyOf, ops) && !StaleKind(i, k)
    ensures BaseAt(i, ops, k) == i.Merged(k)
  {
    assert ops[..|ops|] == ops;
    assert HasChildren(i.local, k) ==> IsDir(i.L(k));
    if k in i.Keys() {
      assert Answered(i, copyOf, ops, k);
    }
    if Creating(Act(i, k)) {
      CreatedAtEnd(i, copyOf, ops, k);
    } else if Act(i, k) == RemovedRemote || Act(i, k) == RemoveRemoteDir {
      DroppedAtEnd(i, copyOf, ops, k);
    } else if !Act(i, k).Pull? {
      NotPulled(i, copyOf, ops, |ops|, k);
      OnlyCreating(i, copyOf, ops, |ops|, k);
      NothingDropped(i, copyOf, ops, k);
    }
  }

  lemma DroppedAtEnd(i: Inputs, copyOf: Path -> Path, ops: seq<Op>, k: Path)
    requires OpsFor(i, copyOf, ops)
    requires Act(i, k) == RemovedRemote || Act(i, k) == RemoveRemoteDir
    ensures BaseAt(i, ops, k) == None
  {
    assert ops[..|ops|] == ops;
    assert k in i.Keys() && Answered(i, copyOf, ops, k);
    DroppedNotPut(i, copyOf, ops, |ops|, k);
    if Act(i, k) == RemovedRemote {
      var f :| f in ops && Frees(f, k);
      assert Justified(i, copyOf, ops, f);
    }
  }

  lemma NothingDropped(i: Inputs, copyOf: Path -> Path, ops: seq<Op>, k: Path)
    requires OpsFor(i, copyOf, ops) && Act(i, k) != RemovedRemote && Act(i, k) != RemoveRemoteDir
    ensures !DroppedBy(ops, k)
  {
    forall o | o in ops ensures !Drops(o, k) {
      assert Justified(i, copyOf, ops, o);
    }
    assert forall t :: Drops(Move(k, t), k);
    assert Drops(Delete(k, true), k) && Drops(Rmdir(k, true), k);
  }

  lemma LocalAtEnd(i: Inputs, copyOf: Path -> Path, ops: seq<Op>, k: Path)
    requires i.Scanned() && OpsFor(i, copyOf, ops) && !StaleKind(i, k)
    ensures LocalAt(i, ops, k) == i.Merged(k)
  {
    assert ops[..|ops|] == ops;
    assert HasChildren(i.local, k) ==> IsDir(i.L(k));
    if Act(i, k).Pull? {
      assert k in i.Keys() && Answered(i, copyOf, ops, k);
    } else {
      NotPulled(i, copyOf, ops, |ops|, k);
    }
  }

  /** Sufficiency: under the conditions SYNC computes the merge. */
  lemma GoodConverges(i: Inputs, copyOf: Path -> Path, p: SyncPlan)
    requires Case(i, copyOf, p) && Good(i, p.ops)
    ensures Converged(i, copyOf, Finish(i, p))
  {
    var w, ops := Finish(i, p), p.ops;
    RunFollowsPlan(i, copyOf, p, |ops|);
    assert ops[..|ops|] == ops;
    forall k ensures Get(w.remote, k) == i.Merged(k) && Get(w.base, k) == i.Merged(k) {
      assert !StaleKind(i, k);
      RemoteAtEnd(i, copyOf, ops, k);
      BaseAtEnd(i, copyOf, ops, k);
    }
    forall k | !IsCopy(i, copyOf, k) ensures Get(w.local, k) == i.Merged(k) {
      assert !StaleKind(i, k);
      LocalAtEnd(i, copyOf, ops, k);
    }
    forall j | Act(i, j) == Conflict ensures Get(w.local, copyOf(j)) == i.R(j) {
      assert j in i.Keys() && Answered(i, copyOf, ops, j);
    }
  }
}
