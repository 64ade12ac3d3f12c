/** First pass of compute_sync_plan: walk all keys in order, decide, and push into
    the phase buckets. */
module Classifier {
  import opened Paths
  import opened Trees
  import opened Plans
  import opened Keys

  datatype Bucket = ConflictPulls | PreDeletes | Mkdirs | Replacements | Rmdirs | Transfers

  /** What a decision about k pushes into one bucket. */
  function Emit(b: Bucket, a: Action, k: Path, copy: Path): seq<Op> {
    match b
    case ConflictPulls => if a.Conflict? then [ConflictDownload(k, copy)] else []
    case PreDeletes => if a.ReplaceByDir? then [PreDelete(k)] else []
    case Mkdirs => if a.MakeRemoteDir? || a.ReplaceByDir? then [Mkdir(k)] else []
    case Replacements => if a.UploadReplace? || a.Conflict? then [Delete(k, false)] else []
    case Rmdirs =>
      if a.RemoveRemoteDir? then [Rmdir(k, true)] else if a.ReplaceDirByFile? then [Rmdir(k, false)] else []
    case Transfers =>
      if a.ReplaceDirByFile? || a.UploadFresh? || a.UploadReplace? || a.Conflict? then [Upload(k)]
      else if a.Pull? then [Download(k)] else []
  }

  lemma EmitKey(b: Bucket, a: Action, k: Path, copy: Path)
    ensures |Emit(b, a, k, copy)| <= 1
    ensures forall o :: o in Emit(b, a, k, copy) ==> Target(o) == k
  {
  }

  /** s holds exactly what the keys in seen pushed into bucket b, once each. */
  ghost predicate Filled(i: Inputs, copyOf: Path -> Path, b: Bucket, s: seq<Op>, seen: set<Path>) {
    && NoDup(s)
    && (forall o :: o in s <==> Target(o) in seen && o in Emit(b, Act(i, Target(o)), Target(o), copyOf(Target(o))))
  }

  lemma FilledMore(i: Inputs, copyOf: Path -> Path, b: Bucket, s: seq<Op>, seen: set<Path>, k: Path)
    requires Filled(i, copyOf, b, s, seen) && k !in seen
    ensures Filled(i, copyOf, b, s + Emit(b, Act(i, k), k, copyOf(k)), seen + {k})
  {
    EmitKey(b, Act(i, k), k, copyOf(k));
    var e := Emit(b, Act(i, k), k, copyOf(k));
    forall x, y | 0 <= x < y < |s + e| ensures (s + e)[x] != (s + e)[y] {
      assert s[x] in s;
      if y == |s| { assert e[0] in e; }
    }
  }

  datatype PathBucket = News | Removed | LocalMkdirs | LocalDeletes | Dropped | Conflicts

  /** Whether a decision appends the key to one of the plain key lists. */
  predicate Wants(b: PathBucket, a: Action, l: Option<Node>, r: Option<Node>, base: Option<Node>) {
    match b
    case News => a.NewLocal?
    case Removed => a.RemovedRemote?
    case LocalMkdirs => a.MirrorDir?
    case LocalDeletes => a.DropLocal?
    case Dropped => a.Forget? || a.DropLocal?
    case Conflicts => Notable(a, l, r, base)
  }

  ghost predicate WantsAt(i: Inputs, b: PathBucket, k: Path) {
    Wants(b, Act(i, k), i.L(k), i.R(k), i.B(k))
  }

  ghost predicate Listed(i: Inputs, b: PathBucket, s: seq<Path>, seen: set<Path>) {
    NoDup(s) && forall k :: k in s <==> k in seen && WantsAt(i, b, k)
  }

  function OnlyIf(c: bool, k: Path): seq<Path> {
    if c then [k] else []
  }

  lemma ListedMore(i: Inputs, b: PathBucket, s: seq<Path>, seen: set<Path>, k: Path)
    requires Listed(i, b, s, seen) && k !in seen
    ensures Listed(i, b, s + OnlyIf(WantsAt(i, b, k), k), seen + {k})
  {
  }

  /** Entry to record at once for a path that needs no request. */
  function RecordNow(a: Action, l: Option<Node>, r: Option<Node>): Option<Node> {
    match a
    case RecordDir => l
    case Same => l
    case MirrorDir => r
    case _ => None
  }

  datatype Classified = Classified(
    conflictPulls: seq<Op>, preDeletes: seq<Op>, mkdirs: seq<Op>, replacements: seq<Op>, rmdirs: seq<Op>, transfers: seq<Op>,
    news: seq<Path>, removed: seq<Path>, localMkdirs: seq<Path>, localDeletes: seq<Path>, dropped: seq<Path>, conflicts: seq<Path>,
    baselineSet: Tree, skipped: nat)

  ghost predicate OpsUpTo(i: Inputs, copyOf: Path -> Path, c: Classified, seen: set<Path>) {
    && Filled(i, copyOf, ConflictPulls, c.conflictPulls, seen)
    && Filled(i, copyOf, PreDeletes, c.preDeletes, seen)
    && Filled(i, copyOf, Mkdirs, c.mkdirs, seen)
    && Filled(i, copyOf, Replacements, c.replacements, seen)
    && Filled(i, copyOf, Rmdirs, c.rmdirs, seen)
    && Filled(i, copyOf, Transfers, c.transfers, seen)
  }

  ghost predicate PathsUpTo(i: Inputs, c: Classified, seen: set<Path>) {
    && Listed(i, News, c.news, seen)
    && Listed(i, Removed, c.removed, seen)
    && Listed(i, LocalMkdirs, c.localMkdirs, seen)
    && Listed(i, LocalDeletes, c.localDeletes, seen)
    && Listed(i, Dropped, c.dropped, seen)
    && Listed(i, Conflicts, c.conflicts, seen)
  }

  ghost function SameIn(i: Inputs, seen: set<Path>): set<Path> {
    set k | k in seen && Act(i, k) == Same
  }

  ghost predicate RecordsUpTo(i: Inputs, c: Classified, seen: set<Path>) {
    && (forall k :: Get(c.baselineSet, k) == if k in seen then RecordNow(Act(i, k), i.L(k), i.R(k)) else None)
    && c.skipped == |SameIn(i, seen)|
  }

  function PutNow(t: Tree, k: Path, n: Option<Node>): Tree {
    if n.Some? then t[k := n.value] else t
  }

  /** Push the decision a about key k into every bucket it concerns. */
  function Push(c: Classified, a: Action, k: Path, copy: Path, l: Option<Node>, r: Option<Node>, b: Option<Node>): Classified {
    Classified(
      c.conflictPulls + Emit(ConflictPulls, a, k, copy),
      c.preDeletes + Emit(PreDeletes, a, k, copy),
      c.mkdirs + Emit(Mkdirs, a, k, copy),
      c.replacements + Emit(Replacements, a, k, copy),
      c.rmdirs + Emit(Rmdirs, a, k, copy),
      c.transfers + Emit(Transfers, a, k, copy),
      c.news + OnlyIf(Wants(News, a, l, r, b), k),
      c.removed + OnlyIf(Wants(Removed, a, l, r, b), k),
      c.localMkdirs + OnlyIf(Wants(LocalMkdirs, a, l, r, b), k),
      c.localDeletes + OnlyIf(Wants(LocalDeletes, a, l, r, b), k),
      c.dropped + OnlyIf(Wants(Dropped, a, l, r, b), k),
      c.conflicts + OnlyIf(Wants(Conflicts, a, l, r, b), k),
      PutNow(c.baselineSet, k, RecordNow(a, l, r)),
      c.skipped + if a.Same? then 1 else 0)
  }

  ghost function PushAt(i: Inputs, copyOf: Path -> Path, c: Classified, k: Path): Classified {
    Push(c, Act(i, k), k, copyOf(k), i.L(k), i.R(k), i.B(k))
  }

  lemma PushOps(i: Inputs, copyOf: Path -> Path, c: Classified, seen: set<Path>, k: Path)
    requires OpsUpTo(i, copyOf, c, seen) && k !in seen
    ensures OpsUpTo(i, copyOf, PushAt(i, copyOf, c, k), seen + {k})
  {
    FilledMore(i, copyOf, ConflictPulls, c.conflictPulls, seen, k);
    FilledMore(i, copyOf, PreDeletes, c.preDeletes, seen, k);
    FilledMore(i, copyOf, Mkdirs, c.mkdirs, seen, k);
    FilledMore(i, copyOf, Replacements, c.replacements, seen, k);
    FilledMore(i, copyOf, Rmdirs, c.rmdirs, seen, k);
    FilledMore(i, copyOf, Transfers, c.transfers, seen, k);
  }

  lemma PushPaths(i: Inputs, copyOf: Path -> Path, c: Classified, seen: set<Path>, k: Path)
    requires PathsUpTo(i, c, seen) && k !in seen
    ensures PathsUpTo(i, PushAt(i, copyOf, c, k), seen + {k})
  {
    ListedMore(i, News, c.news, seen, k);
    ListedMore(i, Removed, c.removed, seen, k);
    ListedMore(i, LocalMkdirs, c.localMkdirs, seen, k);
    ListedMore(i, LocalDeletes, c.localDeletes, seen, k);
    ListedMore(i, Dropped, c.dropped, seen, k);
    ListedMore(i, Conflicts, c.conflicts, seen, k);
  }

  lemma SameMore(i: Inputs, seen: set<Path>, k: Path)
    requires k !in seen
    ensures |SameIn(i, seen + {k})| == |SameIn(i, seen)| + if Act(i, k) == Same then 1 else 0
  {
    assert SameIn(i, seen + {k}) == SameIn(i, seen) + if Act(i, k) == Same then {k} else {};
  }

  lemma PushRecords(i: Inputs, copyOf: Path -> Path, c: Classified, seen: set<Path>, k: Path)
    requires RecordsUpTo(i, c, seen) && k !in seen
    ensures RecordsUpTo(i, PushAt(i, copyOf, c, k), seen + {k})
  {
    SameMore(i, seen, k);
  }

  ghost predicate UpTo(i: Inputs, copyOf: Path -> Path, c: Classified, seen: set<Path>) {
    OpsUpTo(i, copyOf, c, seen) && PathsUpTo(i, c, seen) && RecordsUpTo(i, c, seen)
  }

  lemma PushKeeps(i: Inputs, copyOf: Path -> Path, c: Classified, seen: set<Path>, k: Path)
    requires UpTo(i, copyOf, c, seen) && k !in seen
    ensures UpTo(i, copyOf, PushAt(i, copyOf, c, k), seen + {k})
  {
    PushOps(i, copyOf, c, seen, k);
    PushPaths(i, copyOf, c, seen, k);
    PushRecords(i, copyOf, c, seen, k);
  }

  lemma NothingSeen(i: Inputs, copyOf: Path -> Path, c: Classified)
    requires c == Classified([], [], [], [], [], [], [], [], [], [], [], [], map[], 0)
    ensures UpTo(i, copyOf, c, {})
  {
    assert SameIn(i, {}) == {};
  }

  method ClassifyKey(i: Inputs, copyOf: Path -> Path, localKeys: seq<Path>, k: Path, c: Classified, ghost seen: set<Path>)
    returns (c': Classified)
    requires Lists(localKeys, i.local.Keys) && k !in seen && UpTo(i, copyOf, c, seen)
    ensures UpTo(i, copyOf, c', seen + {k})
  {
    var children := AnyUnder(localKeys, k);
    assert children == HasChildren(i.local, k);
    var a := Decide(i.L(k), i.R(k), i.B(k), children);
    c' := Push(c, a, k, copyOf(k), i.L(k), i.R(k), i.B(k));
    PushKeeps(i, copyOf, c, seen, k);
  }

  /** Classify every path of the three pictures. */
  method Classify(i: Inputs, copyOf: Path -> Path) returns (c: Classified)
    ensures UpTo(i, copyOf, c, i.Keys())
  {
    var keys := InOrderOf(i.Keys());
    var localKeys := InOrderOf(i.local.Keys);
    c := Classified([], [], [], [], [], [], [], [], [], [], [], [], map[], 0);
    NothingSeen(i, copyOf, c);
    ghost var seen: set<Path> := {};
    for n := 0 to |keys|
      invariant forall k :: k in seen <==> k in keys[..n]
      invariant UpTo(i, copyOf, c, seen)
    {
      assert keys[n] !in keys[..n];
      c := ClassifyKey(i, copyOf, localKeys, keys[n], c, seen);
      seen := seen + {keys[n]};
      assert keys[..n + 1] == keys[..n] + [keys[n]];
    }
    assert keys[..|keys|] == keys;
    assert seen == i.Keys();
  }
}
