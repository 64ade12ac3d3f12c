/** The planner refines the pointwise merge: on scans of real trees, running the
    whole plan leaves both folders and the baseline equal to the merge, and no
    request is refused on the way. The conditions are exact (see Necessity). */
module Refinement {
  import opened Paths
  import opened Trees
  import opened Plans
  import opened Execution

  // --- the conditions --------------------------------------------------------

  /** Below a directory chosen for RMDIR the server holds nothing new. */
  ghost predicate Quiet(i: Inputs) {
    forall d, x :: Act(i, d) in {RemoveRemoteDir, ReplaceDirByFile} && x in i.remote && Under(d, x)
                   ==> i.B(x) == i.R(x)
  }

  /** The baseline calls k a directory while the server has a file that no local
      directory replaces, or calls k a file while the server has a directory
      nothing local stands against. */
  predicate StaleKind(i: Inputs, k: Path) {
    || (IsDir(i.B(k)) && IsFile(i.R(k)) && !IsDir(i.L(k)))
    || (IsFile(i.B(k)) && IsDir(i.R(k)) && i.L(k).None?)
  }

  ghost predicate NoStaleKinds(i: Inputs) {
    forall k :: !StaleKind(i, k)
  }

  /** Transfers of empty files are refused by both programs. */
  predicate MovesEmptyFile(i: Inputs, o: Op) {
    match o
    case Upload(k) => i.L(k) == Some(File([]))
    case Download(k) => i.R(k) == Some(File([]))
    case ConflictDownload(k, _) => i.R(k) == Some(File([]))
    case _ => false
  }

  ghost predicate NoEmptyTransfers(i: Inputs, ops: seq<Op>) {
    forall o :: o in ops ==> !MovesEmptyFile(i, o)
  }

  ghost predicate Good(i: Inputs, ops: seq<Op>) {
    Quiet(i) && NoStaleKinds(i) && NoEmptyTransfers(i, ops)
  }

  // --- the goal ----------------------------------------------------------------

  ghost predicate IsCopy(i: Inputs, copyOf: Path -> Path, k: Path) {
    exists j :: Act(i, j) == Conflict && copyOf(j) == k
  }

  /** Remote and baseline equal the merge; local equals it too, plus one copy of
      the server's version for each conflict. */
  ghost predicate Converged(i: Inputs, copyOf: Path -> Path, w: World) {
    && (forall k :: Get(w.remote, k) == i.Merged(k))
    && (forall k :: Get(w.base, k) == i.Merged(k))
    && (forall k :: !IsCopy(i, copyOf, k) ==> Get(w.local, k) == i.Merged(k))
    && (forall j :: Act(i, j) == Conflict ==> Get(w.local, copyOf(j)) == i.R(j))
  }

  ghost predicate Case(i: Inputs, copyOf: Path -> Path, p: SyncPlan) {
    i.Scanned() && PlanFor(i, copyOf, p) && FreshCopies(i, copyOf)
  }

  // --- order of operations -------------------------------------------------------

  lemma Earlier(ops: seq<Op>, n: nat, o: Op)
    requires Ordered(ops) && n < |ops| && o in ops
    requires o != ops[n] && !InOrder(ops[n], o)
    ensures o in ops[..n]
  {
    var m :| 0 <= m < |ops| && ops[m] == o;
    assert m < n;
    assert ops[..n][m] == o;
  }

  lemma DoneInOrder(ops: seq<Op>, n: nat, o: Op)
    requires Ordered(ops) && n < |ops| && o in ops[..n]
    ensures o in ops && o != ops[n] && InOrder(o, ops[n])
  {
    var m :| 0 <= m < n && ops[..n][m] == o;
    assert ops[m] == o && InOrder(ops[m], ops[n]);
  }

  lemma Appended(ops: seq<Op>, n: nat)
    requires n < |ops|
    ensures ops[..n + 1] == ops[..n] + [ops[n]]
    ensures forall o :: o in ops[..n + 1] <==> o in ops[..n] || o == ops[n]
    ensures ops[n] in ops
    ensures forall k :: CreatedBy(ops[..n + 1], k) <==> CreatedBy(ops[..n], k) || Creates(ops[n], k)
    ensures forall k :: FreedBy(ops[..n + 1], k) <==> FreedBy(ops[..n], k) || Frees(ops[n], k)
  {
    assert ops[..n + 1] == ops[..n] + [ops[n]];
    assert forall o :: o in ops[..n + 1] <==> o in ops[..n] || o == ops[n];
    assert ops[n] in ops[..n + 1];
  }

  /** A path that is both vacated and refilled is vacated in an earlier phase. */
  lemma FreedBeforeCreated(i: Inputs, copyOf: Path -> Path, ops: seq<Op>, f: Op, c: Op, k: Path)
    requires OpsFor(i, copyOf, ops)
    requires f in ops && c in ops && Frees(f, k) && Creates(c, k)
    ensures Phase(f) < Phase(c)
  {
    assert Justified(i, copyOf, ops, f) && Justified(i, copyOf, ops, c);
  }

  // --- state after a prefix --------------------------------------------------------

  ghost function RemoteAt(i: Inputs, done: seq<Op>, k: Path): Option<Node> {
    if CreatedBy(done, k) then i.L(k) else if FreedBy(done, k) then None else i.R(k)
  }

  ghost predicate PutBy(done: seq<Op>, k: Path) {
    CreatedBy(done, k) || Download(k) in done
  }

  ghost predicate DroppedBy(done: seq<Op>, k: Path) {
    Delete(k, true) in done || Rmdir(k, true) in done || (exists t :: Move(k, t) in done)
  }

  ghost function BaseBegin(i: Inputs, k: Path): Option<Node> {
    match Act(i, k)
    case RecordDir => i.L(k)
    case Same => i.L(k)
    case MirrorDir => i.R(k)
    case Forget => None
    case DropLocal => None
    case _ => i.B(k)
  }

  ghost function BaseAt(i: Inputs, done: seq<Op>, k: Path): Option<Node> {
    if PutBy(done, k) then i.Merged(k) else if DroppedBy(done, k) then None else BaseBegin(i, k)
  }

  ghost function LocalBegin(i: Inputs, k: Path): Option<Node> {
    match Act(i, k)
    case MirrorDir => Some(Dir)
    case DropLocal => None
    case _ => i.L(k)
  }

  ghost function LocalAt(i: Inputs, done: seq<Op>, k: Path): Option<Node> {
    if Download(k) in done then i.R(k) else LocalBegin(i, k)
  }

  ghost predicate RemoteInv(i: Inputs, done: seq<Op>, t: Tree) {
    TreeShaped(t) && forall k :: Get(t, k) == RemoteAt(i, done, k)
  }

  ghost predicate BaseInv(i: Inputs, done: seq<Op>, t: Tree) {
    forall k :: Get(t, k) == BaseAt(i, done, k)
  }

  ghost predicate LocalInv(i: Inputs, copyOf: Path -> Path, done: seq<Op>, t: Tree) {
    && TreeShaped(t)
    && (forall k :: !IsCopy(i, copyOf, k) ==> Get(t, k) == LocalAt(i, done, k))
    && (forall j :: Act(i, j) == Conflict ==>
          Get(t, copyOf(j)) == if ConflictDownload(j, copyOf(j)) in done then i.R(j) else None)
  }

  ghost predicate Inv(i: Inputs, copyOf: Path -> Path, done: seq<Op>, w: World) {
    && RemoteInv(i, done, w.remote)
    && BaseInv(i, done, w.base)
    && LocalInv(i, copyOf, done, w.local)
  }

  // --- an operation that finds what it expects ----------------------------------

  ghost predicate InPlace(t: Tree, k: Path) {
    forall d :: Under(d, k) ==> Get(t, d) == Some(Dir)
  }

  /** The operation meets the state the plan counted on: free destinations inside
      existing directories, sources holding the wanted content, and directories
      that are already empty when they are removed. */
  ghost predicate Expected(i: Inputs, w: World, o: Op) {
    match o
    case ConflictDownload(k, c) => Get(w.remote, k) == i.R(k) && c !in w.local && InPlace(w.local, c)
    case PreDelete(k) => IsFile(Get(w.remote, k))
    case Mkdir(k) => k !in w.remote && InPlace(w.remote, k)
    case Move(f, t) => IsFile(Get(w.remote, f)) && Get(w.remote, f) == i.L(t) && t !in w.remote && InPlace(w.remote, t)
    case Delete(k, _) => IsFile(Get(w.remote, k))
    case Rmdir(k, _) => IsDir(Get(w.remote, k)) && !HasChildren(w.remote, k)
    case Upload(k) => Get(w.local, k) == i.L(k) && k !in w.remote && InPlace(w.remote, k)
    case Download(k) => Get(w.remote, k) == i.R(k) && InPlace(w.local, k) && !IsDir(Get(w.local, k))
    case Copy(f, t) => IsFile(Get(w.remote, f)) && Get(w.remote, f) == i.L(t) && t !in w.remote && InPlace(w.remote, t)
  }

  lemma InPlaceReachable(t: Tree, k: Path)
    requires InPlace(t, k)
    ensures Reachable(t, k) && WithParents(t, k) == t
  {
    ParentsAreAncestors(k);
  }

  lemma AddKeepsShape(t: Tree, k: Path, n: Node)
    requires TreeShaped(t) && k !in t && InPlace(t, k)
    ensures TreeShaped(t[k := n])
  {
    forall q, d | q in t[k := n] && Under(d, q) ensures Get(t[k := n], d) == Some(Dir) {
      assert Get(t, d) == Some(Dir);
    }
  }

  lemma RemoveKeepsShape(t: Tree, k: Path)
    requires TreeShaped(t) && !HasChildren(t, k)
    ensures TreeShaped(t - {k})
  {
    forall q, d | q in t - {k} && Under(d, q) ensures Get(t - {k}, d) == Some(Dir) {
      assert Get(t, d) == Some(Dir);
    }
  }

  lemma FileHasNoChildren(t: Tree, k: Path)
    requires TreeShaped(t) && IsFile(Get(t, k))
    ensures !HasChildren(t, k)
  {
  }

  /** An expected operation changes one remote path, or two for a rename. */
  function Outcome(i: Inputs, t: Tree, o: Op): Tree {
    match o
    case PreDelete(k) => t - {k}
    case Delete(k, _) => t - {k}
    case Rmdir(k, _) => t - {k}
    case Mkdir(k) => Put(t, k, i.L(k))
    case Upload(k) => Put(t, k, i.L(k))
    case Copy(f, k) => Put(t, k, i.L(k))
    case Move(f, k) => Put(t, k, i.L(k)) - {f}
    case _ => t
  }

  /** Kinds of the scanned entries an operation is about. */
  predicate Typed(i: Inputs, o: Op) {
    match o
    case ConflictDownload(k, _) => IsFile(i.R(k))
    case Mkdir(k) => IsDir(i.L(k))
    case Move(_, t) => IsFile(i.L(t))
    case Upload(k) => IsFile(i.L(k))
    case Download(k) => IsFile(i.R(k))
    case Copy(_, t) => IsFile(i.L(t))
    case _ => true
  }

  lemma JustifiedIsTyped(i: Inputs, copyOf: Path -> Path, ops: seq<Op>, o: Op)
    requires Justified(i, copyOf, ops, o)
    ensures Typed(i, o)
  {
  }

  lemma ExpectedOutcome(i: Inputs, w: World, o: Op)
    requires TreeShaped(w.remote) && Typed(i, o) && Expected(i, w, o)
    requires !MovesEmptyFile(i, o)
    ensures Accepted(w, o)
    ensures Effect(i, w, o).remote == Outcome(i, w.remote, o)
  {
    match o
    case Mkdir(k) => InPlaceReachable(w.remote, k);
    case Move(f, t) => InPlaceReachable(w.remote, t);
    case Copy(f, t) => InPlaceReachable(w.remote, t);
    case Upload(k) => PlacePlain(w.remote, k, w.local[k]);
    case Rmdir(k, _) => assert Without(w.remote, k) == w.remote - {k};
    case _ =>
  }

  lemma OutcomeKeepsShape(i: Inputs, w: World, o: Op)
    requires TreeShaped(w.remote) && Expected(i, w, o)
    ensures TreeShaped(Outcome(i, w.remote, o))
  {
    var t := w.remote;
    match o
    case PreDelete(k) => FileHasNoChildren(t, k); RemoveKeepsShape(t, k);
    case Delete(k, _) => FileHasNoChildren(t, k); RemoveKeepsShape(t, k);
    case Rmdir(k, _) => RemoveKeepsShape(t, k);
    case Move(f, k) =>
      AddKeepsShape(t, k, t[f]);
      var t' := t[k := t[f]];
      FileHasNoChildren(t', f);
      RemoveKeepsShape(t', f);
    case Mkdir(k) => if i.L(k).Some? { AddKeepsShape(t, k, i.L(k).value); }
    case Upload(k) => if i.L(k).Some? { AddKeepsShape(t, k, i.L(k).value); }
    case Copy(f, k) => AddKeepsShape(t, k, t[f]);
    case _ =>
  }

  lemma OutcomeAt(i: Inputs, w: World, o: Op, k: Path)
    requires Typed(i, o) && Expected(i, w, o)
    ensures Get(Outcome(i, w.remote, o), k) ==
            if Creates(o, k) then i.L(k) else if Frees(o, k) then None else Get(w.remote, k)
  {
  }
}
