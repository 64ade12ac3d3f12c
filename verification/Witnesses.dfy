/** Concrete folders on which a promise fails, one for each condition of the
    theorems. Every plan for these inputs behaves as shown. */
module Witnesses {
  import opened Paths
  import opened Trees
  import opened Plans
  import opened Execution
  import opened Refinement
  import opened Necessity
  import opened Resync
  import opened Survival
  import opened Honesty
  import opened Assembly

  const One: Node := File([1])
  const Two: Node := File([2])

  /** The directory d was deleted locally while the server got a new file in it. */
  const NewBelowDeleted := Inputs(map[], map["d" := Dir, "d/x" := One], map["d" := Dir])

  lemma NewBelowDeletedShape()
    ensures NewBelowDeleted.Scanned()
  {
    forall k, d | k in NewBelowDeleted.remote && Under(d, k) ensures d == "d" {
      UnderAt(d, k);
    }
  }

  /** The new file is removed from the server and reaches neither folder. */
  lemma NewFileRemoved(copyOf: Path -> Path, p: SyncPlan)
    requires PlanFor(NewBelowDeleted, copyOf, p)
    ensures "d/x" !in Finish(NewBelowDeleted, p).remote
    ensures NewBelowDeleted.Merged("d/x") == Some(One)
  {
    var i := NewBelowDeleted;
    NewBelowDeletedShape();
    assert Act(i, "d") == RemoveRemoteDir;
    assert "d" + "/" <= "d/x";
    NoisyVanishes(i, copyOf, p, "d", "d/x");
  }

  lemma NewBelowDeletedActs(k: Path)
    ensures Act(NewBelowDeleted, k) == if k == "d" then RemoveRemoteDir else if k == "d/x" then Pull else Leave
  {
  }

  lemma NewBelowDeletedCase(copyOf: Path -> Path, p: SyncPlan)
    requires PlanFor(NewBelowDeleted, copyOf, p)
    ensures Case(NewBelowDeleted, copyOf, p)
  {
    NewBelowDeletedShape();
    forall k ensures Act(NewBelowDeleted, k) != Conflict {
      NewBelowDeletedActs(k);
    }
  }

  /** So the server's version is lost, with nothing failing and no clash of kinds. */
  lemma NewFileLost(copyOf: Path -> Path, p: SyncPlan) returns (n: nat)
    requires PlanFor(NewBelowDeleted, copyOf, p)
    ensures n <= |p.ops| && !ServerEditKept(NewBelowDeleted, copyOf, After(NewBelowDeleted, p, Smooth, n), "d/x")
    ensures forall k :: !EditClash(NewBelowDeleted, k)
  {
    NewBelowDeletedCase(copyOf, p);
    NewBelowDeletedActs("d");
    assert Under("d", "d/x") && Removed(NewBelowDeleted, "d");
    n := EditBelowRemovedLoses(NewBelowDeleted, copyOf, p, "d/x");
  }

  /** The baseline forgets d, which the refused download makes again locally. */
  lemma ReopenedDirLies(copyOf: Path -> Path, p: SyncPlan)
    requires PlanFor(NewBelowDeleted, copyOf, p)
    ensures !AlwaysHonest(NewBelowDeleted, p)
  {
    NewBelowDeletedCase(copyOf, p);
    NewBelowDeletedActs("d");
    NewBelowDeletedActs("d/x");
    assert Reopened(NewBelowDeleted, "d", "d/x");
    ReopenedByFileLies(NewBelowDeleted, copyOf, p, "d", "d/x");
  }

  /** A file on both sides, a directory in the baseline. */
  const WrongKind := Inputs(map["a" := One], map["a" := Two], map["a" := Dir])

  lemma OneFileShape(n: Node)
    ensures TreeShaped(map["a" := n])
  {
    forall k, d | k in map["a" := n] && Under(d, k) ensures false {
      UnderAt(d, k);
    }
  }

  /** The upload is refused on every run, so the two files never come together. */
  lemma WrongKindStays(copyOf: Path -> Path, p: SyncPlan)
    requires PlanFor(WrongKind, copyOf, p)
    ensures Get(Finish(WrongKind, p).remote, "a") == Some(Two)
    ensures WrongKind.Merged("a") == Some(One)
  {
    var i := WrongKind;
    OneFileShape(One);
    OneFileShape(Two);
    assert FreshCopies(i, copyOf) by {
      forall k ensures Act(i, k) != Conflict { }
    }
    BlockedUpload(i, copyOf, p, |p.ops|, "a");
  }

  /** A new empty file. */
  const EmptyNew := Inputs(map["a" := File([])], map[], map[])

  lemma NothingToMove(copyOf: Path -> Path, ops: seq<Op>, k: Path)
    requires OpsFor(EmptyNew, copyOf, ops)
    ensures forall g :: Move(g, k) !in ops
  {
    forall g ensures Move(g, k) !in ops {
      assert Move(g, k) in ops ==> Justified(EmptyNew, copyOf, ops, Move(g, k));
    }
  }

  /** It never reaches the server. */
  lemma EmptyFileStaysHere(copyOf: Path -> Path, p: SyncPlan)
    requires PlanFor(EmptyNew, copyOf, p)
    ensures !Converged(EmptyNew, copyOf, Finish(EmptyNew, p))
  {
    var i := EmptyNew;
    OneFileShape(File([]));
    assert Act(i, "a") == NewLocal && "a" in i.Keys() && Answered(i, copyOf, p.ops, "a");
    forall k ensures Act(i, k) == if k == "a" then NewLocal else Leave { }
    assert FreshCopies(i, copyOf);
    var o :| o in p.ops && Creates(o, "a");
    assert Justified(i, copyOf, p.ops, o);
    if o.Copy? {
      assert i.L(o.from) == i.L("a");
      NothingToMove(copyOf, p.ops, o.from);
      EmptyDiverges(i, copyOf, p, Upload("a"));
    } else {
      assert o == Upload("a");
      EmptyDiverges(i, copyOf, p, o);
    }
  }

  /** A file nobody edited here, where the server now has a directory. */
  const FileBecameDir := Inputs(map["a" := One], map["a" := Dir], map["a" := One])

  /** A SYNC stopped at the wrong moment makes the next one delete the local file,
      although this one set out to upload it. */
  lemma StoppedSyncDeletes(copyOf: Path -> Path, p: SyncPlan) returns (m: nat)
    requires PlanFor(FileBecameDir, copyOf, p)
    ensures m < |p.ops| && FileBecameDir.Merged("a") == Some(One)
    ensures Stopped(FileBecameDir, p, Alone(m), m + 1).Merged("a") == None
  {
    FileBecameDirCase(copyOf, p);
    m := RevertedIsLost(FileBecameDir, copyOf, p, "a");
  }

  lemma FileBecameDirCase(copyOf: Path -> Path, p: SyncPlan)
    requires PlanFor(FileBecameDir, copyOf, p)
    ensures Case(FileBecameDir, copyOf, p)
  {
    OneFileShape(One);
    OneFileShape(Dir);
    forall k ensures Act(FileBecameDir, k) != Conflict { }
  }

  /** A new directory here and a new file there under one name. */
  const DirMeetsFile := Inputs(map["a" := Dir], map["a" := One], map[])

  /** The server's file is deleted and kept nowhere. */
  lemma ServerFileLost(copyOf: Path -> Path, p: SyncPlan) returns (n: nat)
    requires PlanFor(DirMeetsFile, copyOf, p)
    ensures n <= |p.ops| && !ServerEditKept(DirMeetsFile, copyOf, After(DirMeetsFile, p, Smooth, n), "a")
  {
    var i := DirMeetsFile;
    OneFileShape(One);
    OneFileShape(Dir);
    forall k ensures Act(i, k) == if k == "a" then ReplaceByDir else Leave { }
    n := EditClashLoses(i, copyOf, p, "a");
  }

  /** An edited file and a new file with the same content. */
  const EditAndDuplicate := Inputs(map["a" := One, "b" := One], map["a" := Two], map["a" := Two])

  lemma EditAndDuplicateActs(k: Path)
    ensures Act(EditAndDuplicate, k) == if k == "a" then UploadReplace else if k == "b" then NewLocal else Leave
  {
  }

  lemma EditAndDuplicateShape()
    ensures EditAndDuplicate.Scanned()
  {
    OneFileShape(Two);
    forall k, d | k in EditAndDuplicate.local && Under(d, k) ensures false {
      UnderAt(d, k);
    }
  }

  lemma NoRename(copyOf: Path -> Path, ops: seq<Op>, k: Path)
    requires OpsFor(EditAndDuplicate, copyOf, ops)
    ensures forall g :: Move(g, k) !in ops
  {
    forall g ensures Move(g, k) !in ops {
      EditAndDuplicateActs(g);
      assert Move(g, k) in ops ==> Justified(EditAndDuplicate, copyOf, ops, Move(g, k));
    }
  }

  /** The planner copies b from a, which first has to be replaced. */
  lemma DuplicateIsCopied(copyOf: Path -> Path, p: SyncPlan)
    requires PlanFor(EditAndDuplicate, copyOf, p) && Economical(EditAndDuplicate, p.ops)
    ensures Copy("a", "b") in p.ops
  {
    var i := EditAndDuplicate;
    EditAndDuplicateActs("a");
    EditAndDuplicateActs("b");
    assert "a" in i.Keys() && Answered(i, copyOf, p.ops, "a");
    assert "b" in i.Keys() && Answered(i, copyOf, p.ops, "b");
    NotUploadedTwice(p.ops);
    NoRename(copyOf, p.ops, "b");
    var o :| o in p.ops && Creates(o, "b");
    assert Justified(i, copyOf, p.ops, o);
    CopiedFromA(copyOf, p.ops, o.from);
  }

  lemma NotUploadedTwice(ops: seq<Op>)
    requires Economical(EditAndDuplicate, ops) && Upload("a") in ops
    ensures Upload("b") !in ops
  {
    EditAndDuplicateActs("b");
    assert "a" != "b";
  }

  lemma CopiedFromA(copyOf: Path -> Path, ops: seq<Op>, f: Path)
    requires OpsFor(EditAndDuplicate, copyOf, ops) && Upload("b") !in ops
    requires CopySource(EditAndDuplicate, ops, f, Some(One))
    ensures f == "a"
  {
    NoRename(copyOf, ops, f);
  }

  /** When replacing a fails and the copy goes through, the baseline claims for b what
      the server does not hold. */
  lemma BaselineLies(copyOf: Path -> Path, p: SyncPlan)
    requires PlanFor(EditAndDuplicate, copyOf, p) && Economical(EditAndDuplicate, p.ops)
    ensures !AlwaysHonest(EditAndDuplicate, p)
  {
    DuplicateIsCopied(copyOf, p);
    EditAndDuplicateShape();
    assert ReadsReplaced(EditAndDuplicate, Copy("a", "b"));
    forall k ensures Act(EditAndDuplicate, k) != Conflict {
      EditAndDuplicateActs(k);
    }
    OpLies(EditAndDuplicate, copyOf, p, Copy("a", "b"));
  }
}
