/** What compute_sync_plan decides for each path, the operations it may queue,
    and the properties every plan it returns has (proved in module Planner). */
module Plans {
  import opened Paths
  import opened Trees

  /** Outcome of classifying one path, one case per leaf of the branch tree. */
  datatype Action =
    | Leave              // nothing queued, baseline untouched
    | Forget             // gone on both sides: baseline entry dropped
    | RecordDir          // directory on both sides
    | MakeRemoteDir      // directory here, nothing there
    | ReplaceByDir       // directory here, file there
    | ReplaceDirByFile   // file here, directory there
    | RemoveRemoteDir    // directory deleted here since the baseline
    | MirrorDir          // directory new on the server
    | Same               // identical files
    | UploadFresh        // upload onto a path assumed free on the server
    | UploadReplace      // edited here only
    | Conflict           // edited differently on both sides
    | Pull               // take the server's file
    | DropLocal          // deleted on the server, untouched here
    | NewLocal           // known here only
    | RemovedRemote      // deleted here, untouched on the server

  function Decide(l: Option<Node>, r: Option<Node>, b: Option<Node>, localChildren: bool): Action {
    if IsDir(l) || IsDir(r) || IsDir(b) then
      if IsDir(l) then
        if IsDir(r) then RecordDir else if r.Some? then ReplaceByDir else MakeRemoteDir
      else if l.Some? then
        if IsDir(r) then ReplaceDirByFile else UploadFresh
      else if IsDir(r) then
        if IsDir(b) && !localChildren then RemoveRemoteDir
        else if b.None? then MirrorDir
        else Leave
      else Forget
    else if l.Some? && r.Some? && b.Some? then
      if l == b && r == b then Same
      else if l != b && r == b then UploadReplace
      else if l == b && r != b then Pull
      else if l == r then Same
      else Conflict
    else if l.Some? && r.Some? then
      if l == r then Same else Conflict
    else if l.Some? && b.Some? then
      if l == b then DropLocal else UploadFresh
    else if l.Some? then NewLocal
    else if r.Some? && b.Some? then
      if r == b then RemovedRemote else Pull
    else if r.Some? then Pull
    else if b.Some? then Forget
    else Leave
  }

  ghost predicate HasChildren(t: Tree, d: Path) {
    exists k :: k in t && Under(d, k)
  }

  ghost function Act(i: Inputs, k: Path): Action {
    Decide(i.L(k), i.R(k), i.B(k), HasChildren(i.local, k))
  }

  /** One queued batch item. PreDelete and Delete are the same request; they are
      told apart because they sit in different phases. */
  datatype Op =
    | ConflictDownload(key: Path, copy: Path)
    | PreDelete(key: Path)
    | Mkdir(key: Path)
    | Move(from: Path, to: Path)
    | Delete(key: Path, drop: bool)
    | Rmdir(key: Path, drop: bool)
    | Upload(key: Path)
    | Download(key: Path)
    | Copy(from: Path, to: Path)

  /** Position of an operation's bucket in the final concatenation. */
  function Phase(o: Op): nat {
    match o
    case ConflictDownload(_, _) => 0
    case PreDelete(_) => 1
    case Mkdir(_) => 2
    case Move(_, _) => 3
    case Delete(_, _) => 4
    case Rmdir(_, _) => 5
    case Upload(_) => 6
    case Download(_) => 6
    case Copy(_, _) => 7
  }

  predicate IsCreator(o: Op) {
    o.Mkdir? || o.Move? || o.Upload? || o.Copy?
  }

  /** The path an operation is about; for a rename or a copy the new one. */
  function Target(o: Op): Path {
    if o.Move? || o.Copy? then o.to else o.key
  }

  /** o brings remote path k into existence. */
  predicate Creates(o: Op, k: Path) {
    match o
    case Mkdir(key) => key == k
    case Move(_, to) => to == k
    case Upload(key) => key == k
    case Copy(_, to) => to == k
    case _ => false
  }

  /** o vacates remote path k. */
  predicate Frees(o: Op, k: Path) {
    match o
    case PreDelete(key) => key == k
    case Move(from, _) => from == k
    case Delete(key, _) => key == k
    case Rmdir(key, _) => key == k
    case _ => false
  }

  ghost predicate CreatedBy(ops: seq<Op>, k: Path) {
    exists o :: o in ops && Creates(o, k)
  }

  ghost predicate FreedBy(ops: seq<Op>, k: Path) {
    exists o :: o in ops && Frees(o, k)
  }

  datatype SyncPlan = SyncPlan(
    ops: seq<Op>,
    localMkdirs: seq<Path>,
    localDeletes: seq<Path>,
    baselineSet: Tree,
    baselineDrop: seq<Path>,
    conflicts: seq<Path>,
    skipped: nat)

  // --- shape of a plan --------------------------------------------------------

  /** f is a remote path whose current content is left alone by the plan. */
  predicate Kept(i: Inputs, f: Path) {
    && IsFile(i.R(f))
    && (if i.L(f).Some? then i.L(f) == i.R(f) else i.B(f).None?)
  }

  /** By the time copies run, remote path f holds node n. */
  ghost predicate CopySource(i: Inputs, ops: seq<Op>, f: Path, n: Option<Node>) {
    || (Kept(i, f) && i.R(f) == n)
    || (i.L(f) == n && (Upload(f) in ops || (exists g :: Move(g, f) in ops)))
  }

  /** Every queued operation has a reason. */
  ghost predicate Justified(i: Inputs, copyOf: Path -> Path, ops: seq<Op>, o: Op) {
    match o
    case ConflictDownload(k, c) => Act(i, k) == Conflict && c == copyOf(k)
    case PreDelete(k) => Act(i, k) == ReplaceByDir
    case Mkdir(k) => Act(i, k) in {MakeRemoteDir, ReplaceByDir}
    case Move(f, t) => Act(i, f) == RemovedRemote && Act(i, t) == NewLocal && i.R(f) == i.L(t)
    case Delete(k, drop) => if drop then Act(i, k) == RemovedRemote else Act(i, k) in {UploadReplace, Conflict}
    case Rmdir(k, drop) => Act(i, k) == if drop then RemoveRemoteDir else ReplaceDirByFile
    case Upload(k) => Act(i, k) in {ReplaceDirByFile, UploadFresh, UploadReplace, Conflict, NewLocal}
    case Download(k) => Act(i, k) == Pull
    case Copy(f, t) => Act(i, t) == NewLocal && CopySource(i, ops, f, i.L(t))
  }

  /** Every decision is carried out. */
  ghost predicate Answered(i: Inputs, copyOf: Path -> Path, ops: seq<Op>, k: Path) {
    match Act(i, k)
    case MakeRemoteDir => Mkdir(k) in ops
    case ReplaceByDir => PreDelete(k) in ops && Mkdir(k) in ops
    case ReplaceDirByFile => Rmdir(k, false) in ops && Upload(k) in ops
    case RemoveRemoteDir => Rmdir(k, true) in ops
    case UploadFresh => Upload(k) in ops
    case UploadReplace => Delete(k, false) in ops && Upload(k) in ops
    case Conflict => ConflictDownload(k, copyOf(k)) in ops && Delete(k, false) in ops && Upload(k) in ops
    case Pull => Download(k) in ops
    case NewLocal => CreatedBy(ops, k)
    case RemovedRemote => FreedBy(ops, k)
    case _ => true
  }

  /** Phase order, with parents made before and removed after their children. */
  predicate InOrder(a: Op, b: Op) {
    && Phase(a) <= Phase(b)
    && (a.Mkdir? && b.Mkdir? ==> Depth(a.key) <= Depth(b.key))
    && (a.Rmdir? && b.Rmdir? ==> Depth(a.key) >= Depth(b.key))
  }

  ghost predicate Ordered(ops: seq<Op>) {
    forall m, n {:trigger InOrder(ops[m], ops[n])} :: 0 <= m < n < |ops| ==> ops[m] != ops[n] && InOrder(ops[m], ops[n])
  }

  /** No path is created twice or vacated twice. */
  ghost predicate Exclusive(ops: seq<Op>) {
    && (forall o, p, k :: o in ops && p in ops && Creates(o, k) && Creates(p, k) ==> o == p)
    && (forall o, p, k :: o in ops && p in ops && Frees(o, k) && Frees(p, k) ==> o == p)
  }

  ghost predicate OpsFor(i: Inputs, copyOf: Path -> Path, ops: seq<Op>) {
    && Ordered(ops)
    && Exclusive(ops)
    && (forall o {:trigger Justified(i, copyOf, ops, o)} :: o in ops ==> Justified(i, copyOf, ops, o))
    && (forall k {:trigger Answered(i, copyOf, ops, k)} :: k in i.Keys() ==> Answered(i, copyOf, ops, k))
  }

  /** Paths reported to the user as conflicts. */
  predicate Notable(a: Action, l: Option<Node>, r: Option<Node>, b: Option<Node>) {
    match a
    case Conflict => true
    case ReplaceByDir => true
    case ReplaceDirByFile => true
    case UploadFresh => r.None? && IsFile(b)
    case Pull => l.None? && b.Some?
    case _ => false
  }

  ghost predicate Noted(i: Inputs, k: Path) {
    Notable(Act(i, k), i.L(k), i.R(k), i.B(k))
  }

  ghost function Unchanged(i: Inputs): set<Path> {
    set k | k in i.Keys() && Act(i, k) == Same
  }

  ghost predicate LocalPathsFor(i: Inputs, p: SyncPlan) {
    && NoDup(p.localMkdirs) && NoDup(p.localDeletes)
    && (forall k :: k in p.localMkdirs <==> Act(i, k) == MirrorDir)
    && (forall k :: k in p.localDeletes <==> Act(i, k) == DropLocal)
  }

  ghost predicate BaselineFor(i: Inputs, p: SyncPlan) {
    && (forall k :: Get(p.baselineSet, k) ==
          match Act(i, k)
          case RecordDir => i.L(k)
          case Same => i.L(k)
          case MirrorDir => i.R(k)
          case _ => None)
    && NoDup(p.baselineDrop)
    && (forall k :: k in p.baselineDrop <==> Act(i, k) in {Forget, DropLocal})
  }

  ghost predicate ReportFor(i: Inputs, p: SyncPlan) {
    && NoDup(p.conflicts)
    && (forall k :: k in p.conflicts <==> Noted(i, k))
    && p.skipped == |Unchanged(i)|
  }

  ghost predicate PlanFor(i: Inputs, copyOf: Path -> Path, p: SyncPlan) {
    OpsFor(i, copyOf, p.ops) && LocalPathsFor(i, p) && BaselineFor(i, p) && ReportFor(i, p)
  }

  /** Some queued rename uses k. */
  ghost predicate RenamedTo(ops: seq<Op>, k: Path) {
    exists f :: Move(f, k) in ops
  }

  ghost predicate RenamedFrom(ops: seq<Op>, k: Path) {
    exists t :: Move(k, t) in ops
  }

  /** Renames are found whenever possible, and the upload of a new file only
      happens when nothing else in the plan gives the server its content. */
  ghost predicate Economical(i: Inputs, ops: seq<Op>) {
    && (forall k, f :: Act(i, k) == NewLocal && Act(i, f) == RemovedRemote && i.L(k) == i.R(f)
                       ==> RenamedTo(ops, k) || RenamedFrom(ops, f))
    && (forall k, f :: Upload(k) in ops && Act(i, k) == NewLocal && Kept(i, f) ==> i.R(f) != i.L(k))
    && (forall k, f, t :: Upload(k) in ops && Act(i, k) == NewLocal && Move(f, t) in ops ==> i.L(t) != i.L(k))
    && (forall k, u :: Upload(k) in ops && Act(i, k) == NewLocal && Upload(u) in ops && u != k ==> i.L(u) != i.L(k))
  }

  /** conflict_copy_path puts the copy beside the original under a name that is
      not in use; different originals get different names. */
  ghost predicate FreshCopies(i: Inputs, copyOf: Path -> Path) {
    && (forall k {:trigger copyOf(k)} :: Act(i, k) == Conflict ==> copyOf(k) !in i.Keys() && Parents(copyOf(k)) == Parents(k))
    && (forall j, k :: Act(i, j) == Conflict && Act(i, k) == Conflict && copyOf(j) == copyOf(k) ==> j == k)
  }
}
