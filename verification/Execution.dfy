/** Running a plan: the checks the server really makes for each request, the
    effect on both folders, and the baseline entry written after each success. */
module Execution {
  import opened Paths
  import opened Trees
  import opened Plans

  datatype World = World(local: Tree, remote: Tree, base: Tree) {
    function AsInputs(): Inputs { Inputs(local, remote, base) }
  }

  predicate NonEmptyFile(n: Option<Node>) {
    IsFile(n) && n.value.content != []
  }

  /** Free destination that can be reached through directories. */
  predicate CanCreate(t: Tree, k: Path) {
    k !in t && Reachable(t, k)
  }

  /** The request would be answered with success. UPLOAD only checks that the
      destination is free: a destination below a file is noticed too late. */
  predicate Accepted(w: World, o: Op) {
    match o
    case ConflictDownload(k, c) => NonEmptyFile(Get(w.remote, k)) && c !in w.local
    case PreDelete(k) => IsFile(Get(w.remote, k))
    case Mkdir(k) => CanCreate(w.remote, k)
    case Move(f, t) => IsFile(Get(w.remote, f)) && CanCreate(w.remote, t)
    case Delete(k, _) => IsFile(Get(w.remote, k))
    case Rmdir(k, _) => IsDir(Get(w.remote, k))
    case Upload(k) => NonEmptyFile(Get(w.local, k)) && k !in w.remote
    case Download(k) => NonEmptyFile(Get(w.remote, k))
    case Copy(f, t) => IsFile(Get(w.remote, f)) && CanCreate(w.remote, t)
  }

  function Put(t: Tree, k: Path, n: Option<Node>): Tree {
    if n.Some? then t[k := n.value] else t
  }

  function Drop(t: Tree, k: Path): Tree {
    t - {k}
  }

  /** Both folders and the baseline after o succeeded. The recorded entry is the
      one from the scan the plan was made from. */
  function Effect(i: Inputs, w: World, o: Op): World
    requires Accepted(w, o)
  {
    match o
    case ConflictDownload(k, c) => w.(local := Place(w.local, c, w.remote[k]))
    case PreDelete(k) => w.(remote := w.remote - {k})
    case Mkdir(k) => w.(remote := WithParents(w.remote, k)[k := Dir], base := Put(w.base, k, i.L(k)))
    case Move(f, t) => w.(remote := WithParents(w.remote, t)[t := w.remote[f]] - {f},
                          base := Put(Drop(w.base, f), t, i.L(t)))
    case Delete(k, drop) => w.(remote := w.remote - {k}, base := if drop then Drop(w.base, k) else w.base)
    case Rmdir(k, drop) => w.(remote := Without(w.remote, k), base := if drop then Drop(w.base, k) else w.base)
    case Upload(k) => w.(remote := Place(w.remote, k, w.local[k]), base := Put(w.base, k, i.L(k)))
    case Download(k) => w.(local := Place(w.local, k, w.remote[k]), base := Put(w.base, k, i.R(k)))
    case Copy(f, t) => w.(remote := WithParents(w.remote, t)[t := w.remote[f]], base := Put(w.base, t, i.L(t)))
  }

  /** What else befalls an operation, besides the checks above: nothing, or a failure
      of any kind. It may come after the way to a new path was made, or while a
      directory is being removed, with the entries in left still there. */
  datatype Fate = Goes | Fails | FailsHalfway(left: set<Path>)

  predicate LeavesParents(w: World, o: Op, fate: Fate) {
    fate.FailsHalfway? && (o.Mkdir? || o.Move? || o.Copy?) && Accepted(w, o)
  }

  /** p and everything between d and p are among those left. */
  predicate Survives(d: Path, p: Path, left: set<Path>) {
    forall q :: q in Parents(p) + {p} && Under(d, q) ==> q in left
  }

  /** What a recursive removal of d has left of t so far: it removes a directory after
      what is in it. */
  function Remains(t: Tree, d: Path, left: set<Path>): Tree {
    map p | p in t && (Under(d, p) ==> Survives(d, p, left)) :: t[p]
  }

  predicate LeavesPart(w: World, o: Op, fate: Fate) {
    fate.FailsHalfway? && o.Rmdir? && Accepted(w, o)
  }

  /** A failed download has already made the local directories for its target, and a
      request that fails halfway those on the server, or part of a directory. */
  function Refused(w: World, o: Op, fate: Fate): World {
    if o.Download? && Reachable(w.local, o.key) then w.(local := WithParents(w.local, o.key))
    else if o.ConflictDownload? && o.copy !in w.local && Reachable(w.local, o.copy)
    then w.(local := WithParents(w.local, o.copy))
    else if LeavesParents(w, o, fate) then w.(remote := WithParents(w.remote, Target(o)))
    else if LeavesPart(w, o, fate) then w.(remote := Remains(w.remote, o.key, fate.left))
    else w
  }

  function Step(i: Inputs, w: World, o: Op, fate: Fate): World {
    if Accepted(w, o) && fate.Goes? then Effect(i, w, o) else Refused(w, o, fate)
  }

  function MakeLocalDir(t: Tree, d: Path): Tree {
    if d !in t && Reachable(t, d) then WithParents(t, d)[d := Dir] else t
  }

  function MakeLocalDirs(t: Tree, ds: seq<Path>): Tree
    decreases |ds|
  {
    if ds == [] then t else MakeLocalDir(MakeLocalDirs(t, ds[..|ds| - 1]), ds[|ds| - 1])
  }

  /** State when the queue starts: directory mirroring, local deletions and the
      baseline updates that need no request are done first. */
  function Begin(i: Inputs, p: SyncPlan): World {
    World(
      MakeLocalDirs(i.local, p.localMkdirs) - (set k | k in p.localDeletes),
      i.remote,
      (i.base + p.baselineSet) - (set k | k in p.baselineDrop))
  }

  // --- runs -----------------------------------------------------------------------------------

  /** State n of a run comes from the one before, and state 0 from the scans. */
  ghost predicate Link(i: Inputs, p: SyncPlan, fate: nat -> Fate, ws: seq<World>, n: nat)
    requires n < |ws| && n <= |p.ops|
  {
    ws[n] == if n == 0 then Begin(i, p) else Step(i, ws[n - 1], p.ops[n - 1], fate(n - 1))
  }

  /** ws are the states of the run in which operation m has fate(m). */
  ghost predicate IsRun(i: Inputs, p: SyncPlan, fate: nat -> Fate, ws: seq<World>) {
    |ws| == |p.ops| + 1 && forall n: nat {:trigger Link(i, p, fate, ws, n)} :: n < |ws| ==> Link(i, p, fate, ws, n)
  }

  lemma {:induction false} PrefixExists(i: Inputs, p: SyncPlan, fate: nat -> Fate, m: nat) returns (ws: seq<World>)
    requires m <= |p.ops|
    ensures |ws| == m + 1 && forall n: nat {:trigger Link(i, p, fate, ws, n)} :: n <= m ==> Link(i, p, fate, ws, n)
  {
    if m == 0 {
      ws := [Begin(i, p)];
    } else {
      var init := PrefixExists(i, p, fate, m - 1);
      ws := init + [Step(i, init[m - 1], p.ops[m - 1], fate(m - 1))];
      forall n: nat | n <= m ensures Link(i, p, fate, ws, n) {
        assert n < m ==> Link(i, p, fate, init, n);
      }
    }
  }

  lemma RunExists(i: Inputs, p: SyncPlan, fate: nat -> Fate)
    ensures exists ws :: IsRun(i, p, fate, ws)
  {
    var ws := PrefixExists(i, p, fate, |p.ops|);
    assert IsRun(i, p, fate, ws);
  }

  ghost function Run(i: Inputs, p: SyncPlan, fate: nat -> Fate): (ws: seq<World>)
    ensures IsRun(i, p, fate, ws)
  {
    RunExists(i, p, fate);
    var ws :| IsRun(i, p, fate, ws);
    ws
  }

  /** State after the first n queued operations. */
  ghost function After(i: Inputs, p: SyncPlan, fate: nat -> Fate, n: nat): World
    requires n <= |p.ops|
  {
    Run(i, p, fate)[n]
  }

  lemma AfterBegin(i: Inputs, p: SyncPlan, fate: nat -> Fate)
    ensures After(i, p, fate, 0) == Begin(i, p)
  {
    assert Link(i, p, fate, Run(i, p, fate), 0);
  }

  lemma AfterStep(i: Inputs, p: SyncPlan, fate: nat -> Fate, n: nat)
    requires n < |p.ops|
    ensures After(i, p, fate, n + 1) == Step(i, After(i, p, fate, n), p.ops[n], fate(n))
  {
    assert Link(i, p, fate, Run(i, p, fate), n + 1);
  }

  const Smooth: nat -> Fate := n => Goes

  ghost function Finish(i: Inputs, p: SyncPlan): World {
    After(i, p, Smooth, |p.ops|)
  }
}
