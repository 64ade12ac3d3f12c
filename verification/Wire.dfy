/** A plan speaks of paths below the synchronised folder; the server carries the
    requests out on the user's whole tree. Both views agree over every run, and
    nothing outside the folder changes. */
module Wire {
  import opened Induction
  import opened Paths
  import opened Trees
  import opened Plans
  import opened Execution
  import opened RemotePaths

  /** folder is an existing directory of the whole tree ("" is the user's root). */
  ghost predicate Folder(whole: Tree, folder: Path) {
    folder != "" ==> Get(whole, folder) == Some(Dir) && forall d :: Under(d, folder) ==> Get(whole, d) == Some(Dir)
  }

  /** t is what SYNC lists for folder. */
  ghost predicate Shows(whole: Tree, folder: Path, t: Tree) {
    forall k :: Get(t, k) == Get(whole, At(folder, k))
  }

  predicate Inside(folder: Path, p: Path) {
    folder == "" || Under(folder, p)
  }

  ghost predicate OutsideKept(before: Tree, after: Tree, folder: Path) {
    forall p :: !Inside(folder, p) ==> Get(after, p) == Get(before, p)
  }

  /** The server's checks on the request for o, made on the whole tree. */
  predicate AcceptedThere(local: Tree, whole: Tree, folder: Path, o: Op) {
    match o
    case ConflictDownload(k, c) => NonEmptyFile(Get(whole, At(folder, k))) && c !in local
    case PreDelete(k) => IsFile(Get(whole, At(folder, k)))
    case Mkdir(k) => CanCreate(whole, At(folder, k))
    case Move(f, t) => IsFile(Get(whole, At(folder, f))) && CanCreate(whole, At(folder, t))
    case Delete(k, _) => IsFile(Get(whole, At(folder, k)))
    case Rmdir(k, _) => IsDir(Get(whole, At(folder, k)))
    case Upload(k) => NonEmptyFile(Get(local, k)) && At(folder, k) !in whole
    case Download(k) => NonEmptyFile(Get(whole, At(folder, k)))
    case Copy(f, t) => IsFile(Get(whole, At(folder, f))) && CanCreate(whole, At(folder, t))
  }

  function Served(local: Tree, whole: Tree, folder: Path, o: Op): Tree
    requires AcceptedThere(local, whole, folder, o)
  {
    match o
    case ConflictDownload(_, _) => whole
    case PreDelete(k) => whole - {At(folder, k)}
    case Mkdir(k) => WithParents(whole, At(folder, k))[At(folder, k) := Dir]
    case Move(f, t) => WithParents(whole, At(folder, t))[At(folder, t) := whole[At(folder, f)]] - {At(folder, f)}
    case Delete(k, _) => whole - {At(folder, k)}
    case Rmdir(k, _) => Without(whole, At(folder, k))
    case Upload(k) => Place(whole, At(folder, k), local[k])
    case Download(_) => whole
    case Copy(f, t) => WithParents(whole, At(folder, t))[At(folder, t) := whole[At(folder, f)]]
  }

  function LeftThere(folder: Path, left: set<Path>): set<Path> {
    set k | k in left :: At(folder, k)
  }

  /** The server's answer to one request of the plan. */
  function Replied(local: Tree, whole: Tree, folder: Path, o: Op, fate: Fate): Tree {
    if !AcceptedThere(local, whole, folder, o) then whole
    else if fate.Goes? then Served(local, whole, folder, o)
    else if fate.FailsHalfway? && (o.Mkdir? || o.Move? || o.Copy?) then WithParents(whole, At(folder, Target(o)))
    else if fate.FailsHalfway? && o.Rmdir? then Remains(whole, At(folder, o.key), LeftThere(folder, fate.left))
    else whole
  }

  /** The whole tree after the first n requests of a plan. */
  ghost function WholeAfter(i: Inputs, p: SyncPlan, fate: nat -> Fate, whole: Tree, folder: Path, n: nat): Tree
    requires n <= |p.ops|
  {
    var step := (m: nat, t: Tree) =>
        if m < |p.ops| then Replied(After(i, p, fate, m).local, t, folder, p.ops[m], fate(m)) else t;
    States(whole, step, |p.ops|)[n]
  }

  lemma WholeBegin(i: Inputs, p: SyncPlan, fate: nat -> Fate, whole: Tree, folder: Path)
    ensures WholeAfter(i, p, fate, whole, folder, 0) == whole
  {
    var step := (m: nat, t: Tree) =>
        if m < |p.ops| then Replied(After(i, p, fate, m).local, t, folder, p.ops[m], fate(m)) else t;
    FirstState(whole, step, |p.ops|);
  }

  lemma WholeStep(i: Inputs, p: SyncPlan, fate: nat -> Fate, whole: Tree, folder: Path, n: nat)
    requires n < |p.ops|
    ensures WholeAfter(i, p, fate, whole, folder, n + 1)
         == Replied(After(i, p, fate, n).local, WholeAfter(i, p, fate, whole, folder, n), folder, p.ops[n], fate(n))
  {
    var step := (m: nat, t: Tree) =>
        if m < |p.ops| then Replied(After(i, p, fate, m).local, t, folder, p.ops[m], fate(m)) else t;
    NextState(whole, step, n, |p.ops|);
  }

  // --- paths -----------------------------------------------------------------------------------------

  lemma AtInjective(folder: Path, a: Path, b: Path)
    ensures At(folder, a) == At(folder, b) ==> a == b
    ensures Inside(folder, At(folder, a))
  {
    if folder != "" {
      assert (folder + "/" + a)[|folder| + 1..] == a && (folder + "/" + b)[|folder| + 1..] == b;
    }
  }

  lemma InsideIsAt(folder: Path, p: Path)
    requires Inside(folder, p)
    ensures exists k :: p == At(folder, k)
  {
    if folder == "" {
      assert p == At(folder, p);
    } else {
      assert p == At(folder, p[|folder| + 1..]);
    }
  }

  /** The directories above an entry are those above it in the folder, and those
      leading to the folder. */
  lemma ParentsAt(folder: Path, k: Path, p: Path)
    ensures p in Parents(At(folder, k)) <==>
              || (Inside(folder, p) && exists e :: e in Parents(k) && p == At(folder, e))
              || (folder != "" && (p == folder || Under(p, folder)))
  {
    var q := At(folder, k);
    ParentsAreAncestors(q);
    ParentsAreAncestors(k);
    if Inside(folder, p) {
      InsideIsAt(folder, p);
      var e :| p == At(folder, e);
      AtKeepsUnder(folder, e, k);
      forall e' | p == At(folder, e') ensures e' == e { AtInjective(folder, e', e); }
      if folder != "" { NotBoth(folder, p); }
    } else {
      AboveFolder(folder, k, p);
    }
  }

  lemma NotBoth(a: Path, b: Path)
    requires Under(a, b)
    ensures b != a && !Under(b, a)
  {
    UnderAt(a, b);
    UnderAt(b, a);
  }

  lemma AboveFolder(folder: Path, k: Path, p: Path)
    requires folder != "" && !Under(folder, p)
    ensures Under(p, At(folder, k)) <==> p == folder || Under(p, folder)
  {
    var q := folder + "/" + k;
    assert Under(folder, q);
    if Under(p, q) {
      AncestorsNest(p, folder, q);
    }
    if Under(p, folder) {
      UnderTransitive(p, folder, q);
    }
  }

  // --- primitives -------------------------------------------------------------------------------------

  lemma ReachableThere(whole: Tree, folder: Path, t: Tree, k: Path)
    requires Folder(whole, folder) && Shows(whole, folder, t)
    ensures Reachable(whole, At(folder, k)) <==> Reachable(t, k)
  {
    forall e | e in Parents(k) ensures At(folder, e) in Parents(At(folder, k)) && Get(t, e) == Get(whole, At(folder, e)) {
      AtInjective(folder, e, e);
      ParentsAt(folder, k, At(folder, e));
    }
    forall p | p in Parents(At(folder, k))
      ensures (p in whole && whole[p] == Dir) || exists e :: e in Parents(k) && p == At(folder, e)
    {
      ParentsAt(folder, k, p);
    }
  }

  lemma WithParentsInside(whole: Tree, folder: Path, t: Tree, k: Path, n: Node, e: Path)
    requires Shows(whole, folder, t)
    ensures Get(WithParents(t, k)[k := n], e) == Get(WithParents(whole, At(folder, k))[At(folder, k) := n], At(folder, e))
  {
    ParentOf(folder, k, e);
    AtInjective(folder, e, k);
    assert Get(t, e) == Get(whole, At(folder, e));
  }

  lemma WithParentsOutside(whole: Tree, folder: Path, k: Path, n: Node, p: Path)
    requires Folder(whole, folder) && !Inside(folder, p)
    ensures Get(WithParents(whole, At(folder, k))[At(folder, k) := n], p) == Get(whole, p)
  {
    ParentsAt(folder, k, p);
    AtInjective(folder, k, k);
  }

  lemma WithParentsThere(whole: Tree, folder: Path, t: Tree, k: Path, n: Node)
    requires Folder(whole, folder) && Shows(whole, folder, t)
    ensures Shows(WithParents(whole, At(folder, k))[At(folder, k) := n], folder, WithParents(t, k)[k := n])
    ensures OutsideKept(whole, WithParents(whole, At(folder, k))[At(folder, k) := n], folder)
  {
    var inner, outer := WithParents(t, k)[k := n], WithParents(whole, At(folder, k))[At(folder, k) := n];
    forall e ensures Get(inner, e) == Get(outer, At(folder, e)) {
      WithParentsInside(whole, folder, t, k, n, e);
    }
    forall p | !Inside(folder, p) ensures Get(outer, p) == Get(whole, p) {
      WithParentsOutside(whole, folder, k, n, p);
    }
  }

  lemma ParentsThere(whole: Tree, folder: Path, t: Tree, k: Path)
    requires Folder(whole, folder) && Shows(whole, folder, t)
    ensures Shows(WithParents(whole, At(folder, k)), folder, WithParents(t, k))
    ensures OutsideKept(whole, WithParents(whole, At(folder, k)), folder)
  {
    forall e ensures Get(WithParents(t, k), e) == Get(WithParents(whole, At(folder, k)), At(folder, e)) {
      ParentOf(folder, k, e);
      assert Get(t, e) == Get(whole, At(folder, e));
    }
    forall p | !Inside(folder, p) ensures Get(WithParents(whole, At(folder, k)), p) == Get(whole, p) {
      ParentsAt(folder, k, p);
    }
  }

  lemma SurvivesThere(folder: Path, k: Path, e: Path, left: set<Path>)
    ensures Survives(At(folder, k), At(folder, e), LeftThere(folder, left)) <==> Survives(k, e, left)
  {
    if Survives(k, e, left) {
      forall q | q in Parents(At(folder, e)) + {At(folder, e)} && Under(At(folder, k), q) ensures q in LeftThere(folder, left) {
        BelowIsInside(folder, k, q);
        var r :| q == At(folder, r);
        ParentOf(folder, e, r);
        AtInjective(folder, r, e);
        AtKeepsUnder(folder, k, r);
        assert r in left;
      }
    }
    if Survives(At(folder, k), At(folder, e), LeftThere(folder, left)) {
      forall r | r in Parents(e) + {e} && Under(k, r) ensures r in left {
        ParentOf(folder, e, r);
        AtKeepsUnder(folder, k, r);
        var s :| s in left && At(folder, s) == At(folder, r);
        AtInjective(folder, s, r);
      }
    }
  }

  lemma BelowIsInside(folder: Path, k: Path, q: Path)
    requires Under(At(folder, k), q)
    ensures exists r :: q == At(folder, r)
  {
    AtInjective(folder, k, k);
    if folder != "" { UnderTransitive(folder, At(folder, k), q); }
    InsideIsAt(folder, q);
  }

  lemma RemainsThere(whole: Tree, folder: Path, t: Tree, k: Path, left: set<Path>)
    requires Shows(whole, folder, t)
    ensures Shows(Remains(whole, At(folder, k), LeftThere(folder, left)), folder, Remains(t, k, left))
    ensures OutsideKept(whole, Remains(whole, At(folder, k), LeftThere(folder, left)), folder)
  {
    var after := Remains(whole, At(folder, k), LeftThere(folder, left));
    forall e ensures Get(Remains(t, k, left), e) == Get(after, At(folder, e)) {
      SurvivesThere(folder, k, e, left);
      AtKeepsUnder(folder, k, e);
      assert Get(t, e) == Get(whole, At(folder, e));
    }
    forall p | !Inside(folder, p) ensures Get(after, p) == Get(whole, p) {
      if Under(At(folder, k), p) { BelowIsInside(folder, k, p); InsideAt(folder, p); }
    }
  }

  lemma InsideAt(folder: Path, p: Path)
    requires exists r :: p == At(folder, r)
    ensures Inside(folder, p)
  {
    var r :| p == At(folder, r);
    AtInjective(folder, r, r);
  }

  lemma ParentOf(folder: Path, k: Path, e: Path)
    ensures At(folder, e) in Parents(At(folder, k)) <==> e in Parents(k)
  {
    ParentsAreAncestors(k);
    ParentsAreAncestors(At(folder, k));
    AtKeepsUnder(folder, e, k);
  }

  lemma DropThere(whole: Tree, folder: Path, t: Tree, k: Path)
    requires Shows(whole, folder, t)
    ensures Shows(whole - {At(folder, k)}, folder, t - {k})
    ensures OutsideKept(whole, whole - {At(folder, k)}, folder)
  {
    forall e ensures Get(t - {k}, e) == Get(whole - {At(folder, k)}, At(folder, e)) {
      AtInjective(folder, e, k);
    }
    AtInjective(folder, k, k);
  }

  lemma WithoutThere(whole: Tree, folder: Path, t: Tree, k: Path)
    requires Shows(whole, folder, t)
    ensures Shows(Without(whole, At(folder, k)), folder, Without(t, k))
    ensures OutsideKept(whole, Without(whole, At(folder, k)), folder)
  {
    forall e ensures Get(Without(t, k), e) == Get(Without(whole, At(folder, k)), At(folder, e)) {
      AtInjective(folder, e, k);
      AtKeepsUnder(folder, k, e);
    }
    forall p | !Inside(folder, p) ensures !AtOrUnder(At(folder, k), p) {
      AtInjective(folder, k, k);
      if Under(At(folder, k), p) { UnderTransitive(folder, At(folder, k), p); }
    }
  }

  lemma FolderKept(before: Tree, after: Tree, folder: Path)
    requires Folder(before, folder) && OutsideKept(before, after, folder)
    ensures Folder(after, folder)
  {
    if folder != "" {
      UnderIrreflexive(folder);
      forall d | Under(d, folder) ensures Get(after, d) == Some(Dir) {
        NotBoth(d, folder);
      }
    }
  }

  lemma PlaceThere(whole: Tree, folder: Path, t: Tree, k: Path, n: Node)
    requires Folder(whole, folder) && Shows(whole, folder, t)
    ensures Shows(Place(whole, At(folder, k), n), folder, Place(t, k, n))
    ensures OutsideKept(whole, Place(whole, At(folder, k), n), folder)
  {
    ReachableThere(whole, folder, t, k);
    WithoutThere(whole, folder, t, k);
    FolderKept(whole, Without(whole, At(folder, k)), folder);
    WithParentsThere(Without(whole, At(folder, k)), folder, Without(t, k), k, n);
  }

  // --- one request, whole runs ---------------------------------------------------------------------------

  lemma SameAnswer(w: World, whole: Tree, folder: Path, o: Op)
    requires Folder(whole, folder) && Shows(whole, folder, w.remote)
    ensures AcceptedThere(w.local, whole, folder, o) <==> Accepted(w, o)
  {
    match o
    case Mkdir(k) => ReachableThere(whole, folder, w.remote, k); assert Get(w.remote, k) == Get(whole, At(folder, k));
    case Move(_, t) => ReachableThere(whole, folder, w.remote, t); assert Get(w.remote, t) == Get(whole, At(folder, t));
    case Copy(_, t) => ReachableThere(whole, folder, w.remote, t); assert Get(w.remote, t) == Get(whole, At(folder, t));
    case Upload(k) => assert Get(w.remote, k) == Get(whole, At(folder, k));
    case _ =>
  }

  lemma SameEffect(i: Inputs, w: World, whole: Tree, folder: Path, o: Op)
    requires Folder(whole, folder) && Shows(whole, folder, w.remote)
    requires Accepted(w, o) && AcceptedThere(w.local, whole, folder, o)
    ensures Shows(Served(w.local, whole, folder, o), folder, Effect(i, w, o).remote)
    ensures OutsideKept(whole, Served(w.local, whole, folder, o), folder)
  {
    match o
    case PreDelete(k) => DropThere(whole, folder, w.remote, k);
    case Delete(k, _) => DropThere(whole, folder, w.remote, k);
    case Rmdir(k, _) => WithoutThere(whole, folder, w.remote, k);
    case Mkdir(k) => WithParentsThere(whole, folder, w.remote, k, Dir);
    case Upload(k) => PlaceThere(whole, folder, w.remote, k, w.local[k]);
    case Copy(f, t) =>
      assert Get(w.remote, f) == Get(whole, At(folder, f));
      WithParentsThere(whole, folder, w.remote, t, w.remote[f]);
    case Move(f, t) =>
      assert Get(w.remote, f) == Get(whole, At(folder, f));
      WithParentsThere(whole, folder, w.remote, t, w.remote[f]);
      DropThere(WithParents(whole, At(folder, t))[At(folder, t) := w.remote[f]], folder, WithParents(w.remote, t)[t := w.remote[f]], f);
    case _ =>
  }

  ghost predicate InTune(i: Inputs, p: SyncPlan, fate: nat -> Fate, whole: Tree, folder: Path, n: nat)
    requires n <= |p.ops|
  {
    && Shows(WholeAfter(i, p, fate, whole, folder, n), folder, After(i, p, fate, n).remote)
    && OutsideKept(whole, WholeAfter(i, p, fate, whole, folder, n), folder)
  }

  lemma TogetherKept(a: Tree, b: Tree, c: Tree, folder: Path)
    requires OutsideKept(a, b, folder) && OutsideKept(b, c, folder)
    ensures OutsideKept(a, c, folder)
  {
  }

  lemma OneRequest(i: Inputs, w: World, whole: Tree, s: Tree, folder: Path, o: Op, fate: Fate)
    requires Folder(whole, folder) && Shows(s, folder, w.remote) && OutsideKept(whole, s, folder)
    ensures var t := Replied(w.local, s, folder, o, fate);
            Shows(t, folder, Step(i, w, o, fate).remote) && OutsideKept(whole, t, folder)
  {
    FolderKept(whole, s, folder);
    SameAnswer(w, s, folder, o);
    if Accepted(w, o) && fate.Goes? {
      SameEffect(i, w, s, folder, o);
    } else if LeavesParents(w, o, fate) {
      ParentsThere(s, folder, w.remote, Target(o));
      TogetherKept(whole, s, WithParents(s, At(folder, Target(o))), folder);
    } else if LeavesPart(w, o, fate) {
      RemainsThere(s, folder, w.remote, o.key, fate.left);
      TogetherKept(whole, s, Remains(s, At(folder, o.key), LeftThere(folder, fate.left)), folder);
    }
  }

  lemma InTuneNext(i: Inputs, p: SyncPlan, fate: nat -> Fate, whole: Tree, folder: Path, n: nat)
    requires n < |p.ops| && Folder(whole, folder) && InTune(i, p, fate, whole, folder, n)
    ensures InTune(i, p, fate, whole, folder, n + 1)
  {
    AfterStep(i, p, fate, n);
    WholeStep(i, p, fate, whole, folder, n);
    OneRequest(i, After(i, p, fate, n), whole, WholeAfter(i, p, fate, whole, folder, n), folder, p.ops[n], fate(n));
  }

  /** For every plan, every pattern of failures and every point of the run, the folder
      shows exactly what the run on relative paths computes, and the rest of the
      user's tree is as it was. */
  lemma {:induction false} WholeRun(i: Inputs, p: SyncPlan, fate: nat -> Fate, whole: Tree, folder: Path, n: nat)
    requires n <= |p.ops| && Folder(whole, folder) && Shows(whole, folder, i.remote)
    ensures InTune(i, p, fate, whole, folder, n)
  {
    if n == 0 {
      AfterBegin(i, p, fate);
      WholeBegin(i, p, fate, whole, folder);
    } else {
      WholeRun(i, p, fate, whole, folder, n - 1);
      InTuneNext(i, p, fate, whole, folder, n - 1);
    }
  }
}
