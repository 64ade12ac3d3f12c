/** Every operation of a plan finds what it expects when its turn comes. */
module Progress {
  import opened Paths
  import opened Trees
  import opened Plans
  import opened Refinement

  // --- which decisions touch a remote path ---------------------------------------

  predicate Creating(a: Action) {
    a.MakeRemoteDir? || a.ReplaceByDir? || a.ReplaceDirByFile? || a.UploadFresh? || a.UploadReplace? || a.Conflict? || a.NewLocal?
  }

  predicate Freeing(a: Action) {
    a.ReplaceByDir? || a.ReplaceDirByFile? || a.UploadReplace? || a.Conflict? || a.RemovedRemote? || a.RemoveRemoteDir?
  }

  lemma CreatorAct(i: Inputs, copyOf: Path -> Path, ops: seq<Op>, o: Op, k: Path)
    requires Justified(i, copyOf, ops, o) && Creates(o, k)
    ensures Creating(Act(i, k)) && i.L(k).Some? && k in i.Keys()
  {
  }

  lemma FreerAct(i: Inputs, copyOf: Path -> Path, ops: seq<Op>, o: Op, k: Path)
    requires Justified(i, copyOf, ops, o) && Frees(o, k)
    ensures Freeing(Act(i, k)) && i.R(k).Some?
  {
  }

  lemma OnlyCreating(i: Inputs, copyOf: Path -> Path, ops: seq<Op>, n: nat, k: Path)
    requires OpsFor(i, copyOf, ops) && n <= |ops| && !Creating(Act(i, k))
    ensures !CreatedBy(ops[..n], k)
  {
    forall o | o in ops[..n] && Creates(o, k) ensures false {
      assert o in ops;
      CreatorAct(i, copyOf, ops, o, k);
    }
  }

  lemma OnlyFreeing(i: Inputs, copyOf: Path -> Path, ops: seq<Op>, n: nat, k: Path)
    requires OpsFor(i, copyOf, ops) && n <= |ops| && !Freeing(Act(i, k))
    ensures !FreedBy(ops[..n], k)
  {
    forall o | o in ops[..n] && Frees(o, k) ensures false {
      assert o in ops;
      FreerAct(i, copyOf, ops, o, k);
    }
  }

  lemma CreatorPending(ops: seq<Op>, n: nat, k: Path)
    requires Ordered(ops) && Exclusive(ops) && n < |ops| && Creates(ops[n], k)
    ensures !CreatedBy(ops[..n], k)
  {
    forall c | c in ops[..n] && Creates(c, k) ensures false {
      DoneInOrder(ops, n, c);
    }
  }

  lemma FreerPending(ops: seq<Op>, n: nat, k: Path)
    requires Ordered(ops) && Exclusive(ops) && n < |ops| && Frees(ops[n], k)
    ensures !FreedBy(ops[..n], k)
  {
    forall f | f in ops[..n] && Frees(f, k) ensures false {
      DoneInOrder(ops, n, f);
    }
  }

  // --- what the remote folder looks like at step n --------------------------------

  /** After a prefix in which Mkdir(d) has had its turn, a directory kept on the
      local side is a directory on the server. */
  lemma KeptDirectory(i: Inputs, copyOf: Path -> Path, ops: seq<Op>, n: nat, d: Path)
    requires OpsFor(i, copyOf, ops) && n <= |ops| && IsDir(i.L(d))
    requires Mkdir(d) in ops ==> Mkdir(d) in ops[..n]
    ensures RemoteAt(i, ops[..n], d) == Some(Dir)
  {
    assert d in i.Keys() && Answered(i, copyOf, ops, d);
    if IsDir(i.R(d)) {
      OnlyCreating(i, copyOf, ops, n, d);
      OnlyFreeing(i, copyOf, ops, n, d);
    } else {
      assert Mkdir(d) in ops[..n] && Creates(Mkdir(d), d);
    }
  }

  lemma ParentsMade(i: Inputs, copyOf: Path -> Path, ops: seq<Op>, n: nat, t: Tree, k: Path)
    requires TreeShaped(i.local) && OpsFor(i, copyOf, ops) && n < |ops|
    requires RemoteInv(i, ops[..n], t)
    requires Creates(ops[n], k) && k in i.local
    ensures InPlace(t, k)
  {
    forall d | Under(d, k) ensures Get(t, d) == Some(Dir) {
      assert Get(i.local, d) == Some(Dir);
      UnderIsDeeper(d, k);
      if Mkdir(d) in ops {
        Earlier(ops, n, Mkdir(d));
      }
      KeptDirectory(i, copyOf, ops, n, d);
    }
  }

  /** The operation that clears an occupied destination. */
  function Clearing(a: Action, k: Path): Op {
    match a
    case ReplaceByDir => PreDelete(k)
    case ReplaceDirByFile => Rmdir(k, false)
    case _ => Delete(k, false)
  }

  lemma ClearingQueued(i: Inputs, copyOf: Path -> Path, ops: seq<Op>, k: Path)
    requires OpsFor(i, copyOf, ops) && k in i.Keys()
    requires Creating(Act(i, k)) && i.R(k).Some? && !StaleKind(i, k)
    ensures Clearing(Act(i, k), k) in ops && Frees(Clearing(Act(i, k), k), k)
  {
    assert Answered(i, copyOf, ops, k);
  }

  /** A path about to be created is free. */
  lemma TargetFree(i: Inputs, copyOf: Path -> Path, ops: seq<Op>, n: nat, k: Path)
    requires OpsFor(i, copyOf, ops) && n < |ops| && !StaleKind(i, k)
    requires Creates(ops[n], k)
    ensures RemoteAt(i, ops[..n], k) == None && i.L(k).Some?
  {
    var o := ops[n];
    assert o in ops;
    CreatorAct(i, copyOf, ops, o, k);
    CreatorPending(ops, n, k);
    if i.R(k).Some? {
      ClearingQueued(i, copyOf, ops, k);
      var f := Clearing(Act(i, k), k);
      FreedBeforeCreated(i, copyOf, ops, f, o, k);
      Earlier(ops, n, f);
    }
  }

  /** A path about to be vacated still holds what was scanned. */
  lemma SourceIntact(i: Inputs, copyOf: Path -> Path, ops: seq<Op>, n: nat, k: Path)
    requires OpsFor(i, copyOf, ops) && n < |ops| && Frees(ops[n], k)
    ensures RemoteAt(i, ops[..n], k) == i.R(k)
  {
    FreerPending(ops, n, k);
    forall c | c in ops[..n] && Creates(c, k) ensures false {
      DoneInOrder(ops, n, c);
      assert ops[n] in ops;
      FreedBeforeCreated(i, copyOf, ops, ops[n], c, k);
    }
  }

  /** Paths the plan neither creates nor vacates keep their scanned content. */
  lemma Untouched(i: Inputs, copyOf: Path -> Path, ops: seq<Op>, n: nat, k: Path)
    requires OpsFor(i, copyOf, ops) && n <= |ops|
    requires !Creating(Act(i, k)) && !Freeing(Act(i, k))
    ensures RemoteAt(i, ops[..n], k) == i.R(k)
  {
    OnlyCreating(i, copyOf, ops, n, k);
    OnlyFreeing(i, copyOf, ops, n, k);
  }

  /** The source of a server-side copy holds the wanted content. */
  lemma CopySourceHolds(i: Inputs, copyOf: Path -> Path, ops: seq<Op>, n: nat, f: Path, t: Path)
    requires OpsFor(i, copyOf, ops) && n < |ops| && !StaleKind(i, f)
    requires ops[n] == Copy(f, t)
    ensures RemoteAt(i, ops[..n], f) == i.L(t)
  {
    assert ops[n] in ops && Justified(i, copyOf, ops, ops[n]);
    if Kept(i, f) && i.R(f) == i.L(t) {
      Untouched(i, copyOf, ops, n, f);
    } else {
      var c :| c in ops && Creates(c, f) && (c.Upload? || c.Move?);
      Earlier(ops, n, c);
    }
  }

  lemma NoChildrenBelow(i: Inputs, d: Path, x: Path)
    requires TreeShaped(i.local) && !IsDir(i.L(d)) && Under(d, x)
    ensures i.L(x).None? && !HasChildren(i.local, x)
  {
    forall y | y in i.local && Under(x, y) ensures false {
      UnderTransitive(d, x, y);
    }
  }

  /** Deletions and renames of files come before directory removals, and deeper
      directories before shallower ones. */
  lemma FreedEarlier(i: Inputs, copyOf: Path -> Path, ops: seq<Op>, n: nat, d: Path, x: Path)
    requires OpsFor(i, copyOf, ops) && n < |ops|
    requires ops[n].Rmdir? && ops[n].key == d && Under(d, x)
    requires i.L(x).None? && !HasChildren(i.local, x) && i.R(x).Some? && i.B(x) == i.R(x)
    ensures FreedBy(ops[..n], x)
  {
    assert x in i.Keys() && Answered(i, copyOf, ops, x);
    UnderIsDeeper(d, x);
    UnderIrreflexive(d);
    assert Act(i, x) == RemovedRemote || Act(i, x) == RemoveRemoteDir;
    var f :| f in ops && Frees(f, x) && (Act(i, x) == RemoveRemoteDir ==> f == Rmdir(x, true));
    assert Justified(i, copyOf, ops, f);
    Earlier(ops, n, f);
  }

  /** Removing a directory: its whole content has been removed before. */
  lemma DirectoryEmptied(i: Inputs, copyOf: Path -> Path, ops: seq<Op>, n: nat, d: Path, x: Path)
    requires TreeShaped(i.local) && OpsFor(i, copyOf, ops) && n < |ops| && Quiet(i)
    requires ops[n].Rmdir? && ops[n].key == d && Under(d, x)
    ensures RemoteAt(i, ops[..n], x) == None
  {
    assert ops[n] in ops && Justified(i, copyOf, ops, ops[n]);
    NoChildrenBelow(i, d, x);
    assert !Creating(Act(i, x));
    OnlyCreating(i, copyOf, ops, n, x);
    if i.R(x).Some? {
      assert i.B(x) == i.R(x);
      FreedEarlier(i, copyOf, ops, n, d, x);
    }
  }
}
