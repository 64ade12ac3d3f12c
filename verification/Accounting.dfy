/** Runs in which operations may fail for any reason: what the local folder can
    hold at any moment, with no condition on the scans or the baseline. */
module Accounting {
  import opened Paths
  import opened Trees
  import opened Plans
  import opened Execution
  import opened Refinement
  import opened Progress
  import opened Convergence
  import opened Necessity

  /** The server's entry is to arrive locally. */
  ghost predicate Arrives(i: Inputs, x: Path) {
    Act(i, x) == Pull || Act(i, x) == MirrorDir
  }

  /** A local file stands above k. */
  ghost predicate Blocked(i: Inputs, k: Path) {
    exists e :: Under(e, k) && IsFile(i.L(e))
  }

  /** Something that is to arrive makes k a local directory. */
  ghost predicate Opens(i: Inputs, k: Path) {
    Act(i, k) == MirrorDir || exists x :: Under(k, x) && Arrives(i, x)
  }

  ghost function LocalKeep(i: Inputs, k: Path): Option<Node> {
    if Act(i, k) == DropLocal then None else i.L(k)
  }

  /** The scanned entry, the server's file, or a directory made for an arrival. */
  ghost predicate LocalOneOf(i: Inputs, t: Tree, k: Path) {
    || Get(t, k) == LocalKeep(i, k)
    || (Act(i, k) == Pull && !Blocked(i, k) && Get(t, k) == i.R(k))
    || (i.L(k).None? && !Blocked(i, k) && Opens(i, k) && Get(t, k) == Some(Dir))
  }

  ghost predicate LocalSound(i: Inputs, copyOf: Path -> Path, t: Tree) {
    forall k {:trigger LocalOneOf(i, t, k)} :: !IsCopy(i, copyOf, k) ==> LocalOneOf(i, t, k)
  }

  ghost predicate FromServer(i: Inputs, t: Tree, k: Path) {
    Get(t, k) == None || Get(t, k) == i.R(k)
  }

  ghost predicate PullsIntact(i: Inputs, t: Tree) {
    forall k {:trigger FromServer(i, t, k)} :: Act(i, k) == Pull ==> FromServer(i, t, k)
  }

  ghost predicate Steady(i: Inputs, copyOf: Path -> Path, w: World) {
    LocalSound(i, copyOf, w.local) && PullsIntact(i, w.remote)
  }

  /** What the scans and the plan provide. */
  ghost predicate Setting(i: Inputs, copyOf: Path -> Path) {
    i.Scanned() && FreshCopies(i, copyOf)
  }

  // --- placing an entry ------------------------------------------------------------------------

  lemma PlaceAt(t: Tree, k: Path, n: Node, x: Path)
    ensures Get(Place(t, k, n), x) ==
            if !Reachable(t, k) then Get(t, x) else if x == k then Some(n) else if Under(k, x) then None
            else if x in Parents(k) then Some(Dir) else Get(t, x)
  {
    ParentsAreAncestors(k);
    if x in Parents(k) && Under(k, x) {
      UnderTransitive(k, x, k);
      UnderIrreflexive(k);
    }
  }

  lemma ParentsAt(t: Tree, k: Path, x: Path)
    ensures Get(WithParents(t, k), x) == if x in Parents(k) then Some(Dir) else Get(t, x)
  {
  }

  // --- arrivals --------------------------------------------------------------------------------

  lemma ArrivalInRemote(i: Inputs, x: Path, d: Path)
    requires TreeShaped(i.remote) && Arrives(i, x) && Under(d, x)
    ensures i.R(d) == Some(Dir) && d in i.Keys()
  {
    assert x in i.remote;
    assert Get(i.remote, d) == Some(Dir);
  }

  /** A directory above an arrival is what was scanned, or was made for it. */
  lemma AboveArrival(i: Inputs, copyOf: Path -> Path, t: Tree, x: Path, d: Path)
    requires Setting(i, copyOf) && LocalSound(i, copyOf, t) && Arrives(i, x) && Under(d, x)
    ensures IsFile(i.L(d)) ==> Get(t, d) == i.L(d)
    ensures IsDir(i.L(d)) ==> Get(t, d) == Some(Dir)
    ensures i.L(d).None? ==> Get(t, d) == None || Get(t, d) == Some(Dir)
  {
    ArrivalInRemote(i, x, d);
    NotACopy(i, copyOf, d);
    assert LocalOneOf(i, t, d);
  }

  lemma ArrivalReachable(i: Inputs, copyOf: Path -> Path, t: Tree, x: Path)
    requires Setting(i, copyOf) && LocalSound(i, copyOf, t) && Arrives(i, x)
    ensures Reachable(t, x) <==> !Blocked(i, x)
  {
    ParentsAreAncestors(x);
    forall d | d in Parents(x) ensures Get(t, d) == None || Get(t, d) == Some(Dir) <==> !IsFile(i.L(d)) {
      AboveArrival(i, copyOf, t, x, d);
    }
    if Blocked(i, x) {
      var e :| Under(e, x) && IsFile(i.L(e));
      assert e in Parents(x);
    }
  }

  lemma BlockedBelow(i: Inputs, d: Path, x: Path)
    requires Blocked(i, d) && Under(d, x)
    ensures Blocked(i, x)
  {
    var e :| Under(e, d) && IsFile(i.L(e));
    UnderTransitive(e, d, x);
  }

  /** Making the way to an arrival keeps every path sound. */
  lemma OpenedSound(i: Inputs, copyOf: Path -> Path, t: Tree, k: Path, x: Path)
    requires Setting(i, copyOf) && LocalSound(i, copyOf, t) && Arrives(i, k) && !Blocked(i, k)
    requires x in Parents(k)
    ensures LocalKeep(i, x) == Some(Dir) || (i.L(x).None? && !Blocked(i, x) && Opens(i, x))
  {
    ParentsAreAncestors(k);
    ArrivalInRemote(i, k, x);
    if Blocked(i, x) { BlockedBelow(i, x, k); }
  }

  lemma BelowPullAbsent(i: Inputs, k: Path, x: Path)
    requires i.Scanned() && Act(i, k) == Pull && Under(k, x)
    ensures i.L(x).None?
  {
    assert x in i.local ==> Get(i.local, k) == Some(Dir);
  }

  lemma PulledSound(i: Inputs, copyOf: Path -> Path, t: Tree, k: Path, x: Path)
    requires Setting(i, copyOf) && LocalSound(i, copyOf, t) && Act(i, k) == Pull && !IsCopy(i, copyOf, x)
    ensures LocalOneOf(i, Place(t, k, i.R(k).value), x)
  {
    ArrivalReachable(i, copyOf, t, k);
    PlaceAt(t, k, i.R(k).value, x);
    assert LocalOneOf(i, t, x);
    if Reachable(t, k) {
      if x in Parents(k) {
        OpenedSound(i, copyOf, t, k, x);
      } else if Under(k, x) {
        BelowPullAbsent(i, k, x);
      }
    }
  }

  lemma AwaitedSound(i: Inputs, copyOf: Path -> Path, t: Tree, k: Path, x: Path)
    requires Setting(i, copyOf) && LocalSound(i, copyOf, t) && Arrives(i, k) && Reachable(t, k) && !IsCopy(i, copyOf, x)
    ensures LocalOneOf(i, WithParents(t, k), x)
  {
    ArrivalReachable(i, copyOf, t, k);
    ParentsAt(t, k, x);
    assert LocalOneOf(i, t, x);
    if x in Parents(k) {
      OpenedSound(i, copyOf, t, k, x);
    }
  }

  // --- conflict copies ---------------------------------------------------------------------------

  /** Nothing scanned lies below a conflict copy, and all above it is a local directory. */
  lemma AroundCopy(i: Inputs, copyOf: Path -> Path, k: Path, x: Path)
    requires Setting(i, copyOf) && Act(i, k) == Conflict
    ensures Under(copyOf(k), x) ==> i.L(x).None? && i.R(x).None?
    ensures x in Parents(copyOf(k)) ==> i.L(x) == Some(Dir)
  {
    ParentsAreAncestors(k);
    assert copyOf(k) !in i.Keys();
    if Under(copyOf(k), x) {
      assert x in i.local ==> Get(i.local, copyOf(k)) == Some(Dir);
      assert x in i.remote ==> Get(i.remote, copyOf(k)) == Some(Dir);
    }
    if x in Parents(copyOf(k)) {
      assert Get(i.local, x) == Some(Dir);
    }
  }

  lemma CopiedSound(i: Inputs, copyOf: Path -> Path, t: Tree, k: Path, n: Node, x: Path)
    requires Setting(i, copyOf) && LocalSound(i, copyOf, t) && Act(i, k) == Conflict && !IsCopy(i, copyOf, x)
    ensures LocalOneOf(i, Place(t, copyOf(k), n), x) && LocalOneOf(i, WithParents(t, copyOf(k)), x)
  {
    PlaceAt(t, copyOf(k), n, x);
    ParentsAt(t, copyOf(k), x);
    AroundCopy(i, copyOf, k, x);
    assert LocalOneOf(i, t, x);
    assert IsCopy(i, copyOf, copyOf(k));
  }

  // --- one step ------------------------------------------------------------------------------------

  lemma OtherLocal(i: Inputs, w: World, o: Op, fate: Fate)
    requires !o.Download? && !o.ConflictDownload?
    ensures Step(i, w, o, fate).local == w.local
  {
  }

  lemma DownloadLocal(i: Inputs, w: World, k: Path, fate: Fate)
    ensures var t := Step(i, w, Download(k), fate).local;
            || (Accepted(w, Download(k)) && t == Place(w.local, k, w.remote[k]))
            || t == w.local || (Reachable(w.local, k) && t == WithParents(w.local, k))
  {
  }

  lemma ConflictLocal(i: Inputs, w: World, k: Path, c: Path, fate: Fate)
    ensures var t := Step(i, w, ConflictDownload(k, c), fate).local;
            || (Accepted(w, ConflictDownload(k, c)) && t == Place(w.local, c, w.remote[k]))
            || t == w.local || (Reachable(w.local, c) && t == WithParents(w.local, c))
  {
  }

  lemma DownloadSound(i: Inputs, copyOf: Path -> Path, w: World, k: Path, fate: Fate, x: Path)
    requires Setting(i, copyOf) && Act(i, k) == Pull && Steady(i, copyOf, w) && !IsCopy(i, copyOf, x)
    ensures LocalOneOf(i, Step(i, w, Download(k), fate).local, x)
  {
    assert LocalOneOf(i, w.local, x) && FromServer(i, w.remote, k);
    DownloadLocal(i, w, k, fate);
    PulledSound(i, copyOf, w.local, k, x);
    if Reachable(w.local, k) { AwaitedSound(i, copyOf, w.local, k, x); }
  }

  lemma ConflictSound(i: Inputs, copyOf: Path -> Path, w: World, k: Path, fate: Fate, x: Path)
    requires Setting(i, copyOf) && Act(i, k) == Conflict && Steady(i, copyOf, w) && !IsCopy(i, copyOf, x)
    ensures LocalOneOf(i, Step(i, w, ConflictDownload(k, copyOf(k)), fate).local, x)
  {
    assert LocalOneOf(i, w.local, x);
    ConflictLocal(i, w, k, copyOf(k), fate);
    CopiedSound(i, copyOf, w.local, k, if k in w.remote then w.remote[k] else Dir, x);
  }

  lemma LocalStepSound(i: Inputs, copyOf: Path -> Path, ops: seq<Op>, w: World, o: Op, fate: Fate, x: Path)
    requires Setting(i, copyOf) && Justified(i, copyOf, ops, o) && Steady(i, copyOf, w) && !IsCopy(i, copyOf, x)
    ensures LocalOneOf(i, Step(i, w, o, fate).local, x)
  {
    if o.Download? {
      DownloadSound(i, copyOf, w, o.key, fate, x);
    } else if o.ConflictDownload? {
      ConflictSound(i, copyOf, w, o.key, fate, x);
    } else {
      OtherLocal(i, w, o, fate);
      assert LocalOneOf(i, w.local, x);
    }
  }

  /** What one step can do to a server path. */
  lemma RemoteStepAt(i: Inputs, w: World, o: Op, fate: Fate, k: Path)
    ensures var n := Get(Step(i, w, o, fate).remote, k);
            || n == Get(w.remote, k) || n == None || (Creates(o, k) && Accepted(w, o) && fate.Goes?)
            || (IsCreator(o) && k in Parents(Target(o)) && n == Some(Dir))
  {
  }

  lemma PullStays(i: Inputs, copyOf: Path -> Path, ops: seq<Op>, w: World, o: Op, fate: Fate, k: Path)
    requires Setting(i, copyOf) && Justified(i, copyOf, ops, o) && FromServer(i, w.remote, k) && Act(i, k) == Pull
    ensures FromServer(i, Step(i, w, o, fate).remote, k)
  {
    RemoteStepAt(i, w, o, fate, k);
    if Creates(o, k) { CreatorAct(i, copyOf, ops, o, k); }
    if IsCreator(o) && k in Parents(Target(o)) {
      JustifiedIsTyped(i, copyOf, ops, o);
      ImplicitParent(i, Target(o), k);
    }
  }

  /** Directories made on the way to a new remote path are local directories. */
  lemma ImplicitParent(i: Inputs, k: Path, d: Path)
    requires TreeShaped(i.local) && k in i.local && d in Parents(k)
    ensures i.L(d) == Some(Dir)
    ensures IsDir(i.R(d)) || Creating(Act(i, d))
  {
    ParentsAreAncestors(k);
    assert Get(i.local, d) == Some(Dir);
  }

  lemma SteadyStep(i: Inputs, copyOf: Path -> Path, ops: seq<Op>, w: World, o: Op, fate: Fate)
    requires Setting(i, copyOf) && Justified(i, copyOf, ops, o) && Steady(i, copyOf, w)
    ensures Steady(i, copyOf, Step(i, w, o, fate))
  {
    var v := Step(i, w, o, fate);
    forall x | !IsCopy(i, copyOf, x) ensures LocalOneOf(i, v.local, x) {
      LocalStepSound(i, copyOf, ops, w, o, fate, x);
    }
    forall k | Act(i, k) == Pull ensures FromServer(i, v.remote, k) {
      assert FromServer(i, w.remote, k);
      PullStays(i, copyOf, ops, w, o, fate, k);
    }
  }

  // --- the start ---------------------------------------------------------------------------------------

  ghost predicate Mirrors(i: Inputs, ds: seq<Path>) {
    forall d :: d in ds ==> Act(i, d) == MirrorDir
  }

  lemma Shorter(i: Inputs, ds: seq<Path>)
    requires Mirrors(i, ds) && ds != []
    ensures Mirrors(i, ds[..|ds| - 1]) && Act(i, ds[|ds| - 1]) == MirrorDir
  {
    assert ds[|ds| - 1] in ds;
    assert forall d :: d in ds[..|ds| - 1] ==> d in ds;
  }

  lemma {:induction false} MadeSound(i: Inputs, copyOf: Path -> Path, ds: seq<Path>)
    requires Setting(i, copyOf) && Mirrors(i, ds)
    ensures forall x :: MadeOneOf(i, MakeLocalDirs(i.local, ds), x)
    ensures TreeShaped(MakeLocalDirs(i.local, ds))
  {
    if ds != [] {
      var rest, d := ds[..|ds| - 1], ds[|ds| - 1];
      Shorter(i, ds);
      MadeSound(i, copyOf, rest);
      var t := MakeLocalDirs(i.local, rest);
      if d !in t && Reachable(t, d) {
        WithParentsShape(t, d, Dir);
        forall x ensures MadeOneOf(i, MakeLocalDir(t, d), x) {
          assert MadeOneOf(i, t, x);
          MadeOne(i, t, d, x);
        }
      }
    }
  }

  /** Before local deletions: the scanned entry, or a directory made for an arrival. */
  ghost predicate MadeOneOf(i: Inputs, t: Tree, x: Path) {
    || Get(t, x) == i.L(x)
    || (i.L(x).None? && !Blocked(i, x) && Opens(i, x) && Get(t, x) == Some(Dir))
  }

  lemma MadeOne(i: Inputs, t: Tree, d: Path, x: Path)
    requires TreeShaped(i.remote) && Act(i, d) == MirrorDir && d !in t && Reachable(t, d)
    requires forall y :: MadeOneOf(i, t, y)
    ensures MadeOneOf(i, WithParents(t, d)[d := Dir], x)
  {
    ParentsAreAncestors(d);
    assert MadeOneOf(i, t, x);
    assert !Blocked(i, d) by {
      forall e | Under(e, d) ensures !IsFile(i.L(e)) {
        assert MadeOneOf(i, t, e) && e in Parents(d);
      }
    }
    if x in Parents(d) {
      if Blocked(i, x) { BlockedBelow(i, x, d); }
      assert Arrives(i, d);
    }
  }

  lemma SteadyBegin(i: Inputs, copyOf: Path -> Path, p: SyncPlan)
    requires Setting(i, copyOf) && LocalPathsFor(i, p)
    ensures Steady(i, copyOf, Begin(i, p))
  {
    MadeSound(i, copyOf, p.localMkdirs);
    forall k ensures LocalOneOf(i, Begin(i, p).local, k) {
      assert MadeOneOf(i, MakeLocalDirs(i.local, p.localMkdirs), k);
      assert k in p.localDeletes <==> Act(i, k) == DropLocal;
    }
    forall k ensures FromServer(i, Begin(i, p).remote, k) { }
  }

  lemma SteadyNext(i: Inputs, copyOf: Path -> Path, p: SyncPlan, fate: nat -> Fate, n: nat)
    requires Setting(i, copyOf) && n < |p.ops| && Justified(i, copyOf, p.ops, p.ops[n])
    requires Steady(i, copyOf, After(i, p, fate, n))
    ensures Steady(i, copyOf, After(i, p, fate, n + 1))
  {
    AfterStep(i, p, fate, n);
    SteadyStep(i, copyOf, p.ops, After(i, p, fate, n), p.ops[n], fate(n));
  }

  lemma {:induction false} SteadyThroughout(i: Inputs, copyOf: Path -> Path, p: SyncPlan, fate: nat -> Fate, n: nat)
    requires Setting(i, copyOf) && AllJustified(i, copyOf, p.ops) && n <= |p.ops|
    requires Steady(i, copyOf, After(i, p, fate, 0))
    ensures Steady(i, copyOf, After(i, p, fate, n))
    decreases n
  {
    if n > 0 {
      SteadyThroughout(i, copyOf, p, fate, n - 1);
      assert Justified(i, copyOf, p.ops, p.ops[n - 1]);
      SteadyNext(i, copyOf, p, fate, n - 1);
    }
  }

  /** Whatever fails and wherever the run stops, each local path holds its scanned
      entry, the server's file that was to arrive, or a directory made for it; and the
      server never holds anything else at a path that is to be pulled. */
  lemma AlwaysSteady(i: Inputs, copyOf: Path -> Path, p: SyncPlan, fate: nat -> Fate, n: nat)
    requires Case(i, copyOf, p) && n <= |p.ops|
    ensures Steady(i, copyOf, After(i, p, fate, n))
  {
    AfterBegin(i, p, fate);
    SteadyBegin(i, copyOf, p);
    PlanIsJustified(i, copyOf, p.ops);
    SteadyThroughout(i, copyOf, p, fate, n);
  }

  /** A scanned entry that is neither to be replaced nor to be deleted stays. */
  lemma LocalStays(i: Inputs, copyOf: Path -> Path, t: Tree, k: Path)
    requires Setting(i, copyOf) && LocalSound(i, copyOf, t)
    requires i.L(k).Some? && Act(i, k) != Pull && Act(i, k) != DropLocal
    ensures Get(t, k) == i.L(k)
  {
    NotACopy(i, copyOf, k);
    assert LocalOneOf(i, t, k);
  }

  // --- the local folder is a tree ------------------------------------------------------------------------

  lemma PlaceShape(t: Tree, k: Path, n: Node)
    requires TreeShaped(t)
    ensures TreeShaped(Place(t, k, n))
  {
    if Reachable(t, k) {
      WithoutShape(t, k);
      forall d | d in Parents(k) && Get(Without(t, k), d) != None ensures Get(Without(t, k), d) == Some(Dir) {
        assert Get(t, d) != None;
      }
      WithParentsShape(Without(t, k), k, n);
    }
  }

  lemma LocalStepShape(i: Inputs, w: World, o: Op, fate: Fate)
    requires TreeShaped(w.local)
    ensures TreeShaped(Step(i, w, o, fate).local)
  {
    if o.Download? {
      DownloadLocal(i, w, o.key, fate);
      if o.key in w.remote { PlaceShape(w.local, o.key, w.remote[o.key]); }
      if Reachable(w.local, o.key) { ParentsShape(w.local, o.key); }
    } else if o.ConflictDownload? {
      ConflictLocal(i, w, o.key, o.copy, fate);
      if o.key in w.remote { PlaceShape(w.local, o.copy, w.remote[o.key]); }
      if Reachable(w.local, o.copy) { ParentsShape(w.local, o.copy); }
    } else {
      OtherLocal(i, w, o, fate);
    }
  }

  lemma BeginLocalShape(i: Inputs, copyOf: Path -> Path, p: SyncPlan)
    requires Setting(i, copyOf) && LocalPathsFor(i, p)
    ensures TreeShaped(Begin(i, p).local)
  {
    MadeSound(i, copyOf, p.localMkdirs);
    var t, v := MakeLocalDirs(i.local, p.localMkdirs), Begin(i, p).local;
    forall k, d | k in v && Under(d, k) ensures Get(v, d) == Some(Dir) {
      assert Get(t, d) == Some(Dir);
      assert MadeOneOf(i, t, d);
      assert d in p.localDeletes <==> Act(i, d) == DropLocal;
    }
  }

  lemma {:induction false} LocalTreeThroughout(i: Inputs, p: SyncPlan, fate: nat -> Fate, n: nat)
    requires n <= |p.ops| && TreeShaped(After(i, p, fate, 0).local)
    ensures TreeShaped(After(i, p, fate, n).local)
  {
    if n > 0 {
      LocalTreeThroughout(i, p, fate, n - 1);
      AfterStep(i, p, fate, n - 1);
      LocalStepShape(i, After(i, p, fate, n - 1), p.ops[n - 1], fate(n - 1));
    }
  }

  /** The local folder is a tree at every moment, failures included. */
  lemma LocalIsTree(i: Inputs, copyOf: Path -> Path, p: SyncPlan, fate: nat -> Fate, n: nat)
    requires Setting(i, copyOf) && LocalPathsFor(i, p) && n <= |p.ops|
    ensures TreeShaped(After(i, p, fate, n).local)
  {
    AfterBegin(i, p, fate);
    BeginLocalShape(i, copyOf, p);
    LocalTreeThroughout(i, p, fate, n);
  }
}
