/** The plan spelled out: which request is queued for which path, which local work is
    done and what is reported, in terms of the two scans and the baseline alone. */
module Requests {
  import opened Paths
  import opened Trees
  import opened Plans

  /** A file known here only. */
  predicate NewHere(i: Inputs, k: Path) {
    IsFile(i.L(k)) && i.R(k).None? && i.B(k).None?
  }

  /** A file deleted here and untouched on the server. */
  predicate GoneHere(i: Inputs, k: Path) {
    i.L(k).None? && IsFile(i.R(k)) && i.R(k) == i.B(k)
  }

  /** Files on both sides that are told apart by their contents alone. */
  predicate TwoFiles(i: Inputs, k: Path) {
    IsFile(i.L(k)) && IsFile(i.R(k)) && !IsDir(i.B(k))
  }

  predicate TwoEdits(i: Inputs, k: Path) {
    TwoFiles(i, k) && i.L(k) != i.R(k) && i.L(k) != i.B(k) && i.R(k) != i.B(k)
  }

  /** A known path whose local file the server must get. */
  predicate MustUpload(i: Inputs, k: Path) {
    && IsFile(i.L(k)) && (i.R(k).Some? || i.B(k).Some?)
    && (IsDir(i.R(k)) || IsDir(i.B(k)) || (i.L(k) != i.B(k) && i.L(k) != i.R(k)))
  }

  /** A server file that is new or edited, where nothing new stands here. */
  predicate MustFetch(i: Inputs, k: Path) {
    IsFile(i.R(k)) && !IsDir(i.B(k)) && i.R(k) != i.B(k) && (i.L(k).None? || (IsFile(i.L(k)) && i.L(k) == i.B(k)))
  }

  // --- known paths --------------------------------------------------------------------------------

  ghost predicate KnownPaths(i: Inputs, copyOf: Path -> Path, ops: seq<Op>) {
    && (forall k, c :: ConflictDownload(k, c) in ops <==> TwoEdits(i, k) && c == copyOf(k))
    && (forall k :: PreDelete(k) in ops <==> IsDir(i.L(k)) && IsFile(i.R(k)))
    && (forall k :: Mkdir(k) in ops <==> IsDir(i.L(k)) && !IsDir(i.R(k)))
    && (forall k :: Delete(k, false) in ops <==> TwoFiles(i, k) && i.L(k) != i.B(k) && i.L(k) != i.R(k))
    && (forall k :: Rmdir(k, false) in ops <==> IsFile(i.L(k)) && IsDir(i.R(k)))
    && (forall k :: Rmdir(k, true) in ops <==> i.L(k).None? && IsDir(i.R(k)) && IsDir(i.B(k)) && !HasChildren(i.local, k))
    && (forall k :: Download(k) in ops <==> MustFetch(i, k))
    && (forall k :: Upload(k) in ops && !NewHere(i, k) <==> MustUpload(i, k))
  }

  // --- renames and copies ---------------------------------------------------------------------------

  /** Every new file reaches the server once, and every file gone here leaves it once. */
  ghost predicate NewAndGone(i: Inputs, ops: seq<Op>) {
    && (forall f, t :: Move(f, t) in ops ==> GoneHere(i, f) && NewHere(i, t) && i.R(f) == i.L(t))
    && (forall f, t :: Copy(f, t) in ops ==> NewHere(i, t) && CopySource(i, ops, f, i.L(t)))
    && (forall k :: NewHere(i, k) ==> exists o :: o in ops && Creates(o, k) && !o.Mkdir?)
    && (forall f :: GoneHere(i, f) <==> Delete(f, true) in ops || RenamedFrom(ops, f))
    && (forall o, o', k :: o in ops && o' in ops && ((Creates(o, k) && Creates(o', k)) || (Frees(o, k) && Frees(o', k))) ==> o == o')
  }

  /** No rename is missed, and a new file is uploaded only if nothing else gives the
      server its content. */
  ghost predicate Thrifty(i: Inputs, ops: seq<Op>) {
    && (forall k, f :: NewHere(i, k) && GoneHere(i, f) && i.L(k) == i.R(f) ==> RenamedTo(ops, k) || RenamedFrom(ops, f))
    && (forall k :: NewHere(i, k) && Upload(k) in ops ==> Alone(i, ops, k))
  }

  /** No kept, moved or other uploaded path supplies what k holds. */
  ghost predicate Alone(i: Inputs, ops: seq<Op>, k: Path) {
    && (forall f :: Kept(i, f) ==> i.R(f) != i.L(k))
    && (forall f, t :: Move(f, t) in ops ==> i.L(t) != i.L(k))
    && (forall u :: Upload(u) in ops && u != k ==> i.L(u) != i.L(k))
  }

  // --- work without a request -------------------------------------------------------------------------

  predicate Agreeing(i: Inputs, k: Path) {
    TwoFiles(i, k) && i.L(k) == i.R(k)
  }

  predicate Mirrored(i: Inputs, k: Path) {
    i.L(k).None? && IsDir(i.R(k)) && i.B(k).None?
  }

  predicate DeletedThere(i: Inputs, k: Path) {
    IsFile(i.L(k)) && i.R(k).None? && i.L(k) == i.B(k)
  }

  predicate Forgotten(i: Inputs, k: Path) {
    i.L(k).None? && i.B(k).Some? && (i.R(k).None? || (IsFile(i.R(k)) && IsDir(i.B(k))))
  }

  predicate Reported(i: Inputs, k: Path) {
    || TwoEdits(i, k)
    || (IsDir(i.L(k)) && IsFile(i.R(k))) || (IsFile(i.L(k)) && IsDir(i.R(k)))
    || (IsFile(i.L(k)) && i.R(k).None? && IsFile(i.B(k)) && i.L(k) != i.B(k))
    || (i.L(k).None? && IsFile(i.R(k)) && IsFile(i.B(k)) && i.R(k) != i.B(k))
  }

  function RecordedAtOnce(i: Inputs, k: Path): Option<Node> {
    if (IsDir(i.L(k)) && IsDir(i.R(k))) || Agreeing(i, k) || Mirrored(i, k) then i.R(k) else None
  }

  ghost predicate LocalWork(i: Inputs, p: SyncPlan) {
    && NoDup(p.localMkdirs) && (forall k :: k in p.localMkdirs <==> Mirrored(i, k))
    && NoDup(p.localDeletes) && (forall k :: k in p.localDeletes <==> DeletedThere(i, k))
    && (forall k :: Get(p.baselineSet, k) == RecordedAtOnce(i, k))
    && NoDup(p.baselineDrop) && (forall k :: k in p.baselineDrop <==> Forgotten(i, k) || DeletedThere(i, k))
    && NoDup(p.conflicts) && (forall k :: k in p.conflicts <==> Reported(i, k))
    && p.skipped == |set k | k in i.Keys() && Agreeing(i, k)|
  }

  ghost predicate SpelledOut(i: Inputs, copyOf: Path -> Path, p: SyncPlan) {
    KnownPaths(i, copyOf, p.ops) && NewAndGone(i, p.ops) && Thrifty(i, p.ops) && LocalWork(i, p)
  }

  // --- every plan is as spelled out -----------------------------------------------------------------------

  /** What the decisions mean, one by one. */
  lemma DecisionMeans(i: Inputs, k: Path)
    ensures Act(i, k) == NewLocal <==> NewHere(i, k)
    ensures Act(i, k) == RemovedRemote <==> GoneHere(i, k)
    ensures Act(i, k) == Conflict <==> TwoEdits(i, k)
    ensures Act(i, k) == UploadReplace <==> TwoFiles(i, k) && i.R(k) == i.B(k) && i.L(k) != i.B(k)
    ensures Act(i, k) == Same <==> Agreeing(i, k)
    ensures Act(i, k) == Pull <==> MustFetch(i, k)
    ensures Act(i, k) == DropLocal <==> DeletedThere(i, k)
  {
  }

  lemma DirectoryMeans(i: Inputs, k: Path)
    ensures Act(i, k) == RecordDir <==> IsDir(i.L(k)) && IsDir(i.R(k))
    ensures Act(i, k) == ReplaceByDir <==> IsDir(i.L(k)) && IsFile(i.R(k))
    ensures Act(i, k) == MakeRemoteDir <==> IsDir(i.L(k)) && i.R(k).None?
    ensures Act(i, k) == ReplaceDirByFile <==> IsFile(i.L(k)) && IsDir(i.R(k))
    ensures Act(i, k) == RemoveRemoteDir <==> i.L(k).None? && IsDir(i.R(k)) && IsDir(i.B(k)) && !HasChildren(i.local, k)
    ensures Act(i, k) == MirrorDir <==> Mirrored(i, k)
    ensures Act(i, k) == Forget <==> Forgotten(i, k)
    ensures Act(i, k) == UploadFresh <==>
              IsFile(i.L(k)) && !IsDir(i.R(k)) && (IsDir(i.B(k)) || (i.R(k).None? && IsFile(i.B(k)) && i.L(k) != i.B(k)))
  {
  }

  /** An operation is queued exactly when the decision on its path asks for it. */
  lemma QueuedExactly(i: Inputs, copyOf: Path -> Path, ops: seq<Op>, k: Path)
    requires OpsFor(i, copyOf, ops)
    ensures PreDelete(k) in ops <==> Act(i, k) == ReplaceByDir
    ensures Mkdir(k) in ops <==> Act(i, k) == MakeRemoteDir || Act(i, k) == ReplaceByDir
    ensures Delete(k, false) in ops <==> Act(i, k) == UploadReplace || Act(i, k) == Conflict
    ensures Rmdir(k, false) in ops <==> Act(i, k) == ReplaceDirByFile
    ensures Rmdir(k, true) in ops <==> Act(i, k) == RemoveRemoteDir
    ensures Download(k) in ops <==> Act(i, k) == Pull
    ensures forall c :: ConflictDownload(k, c) in ops <==> Act(i, k) == Conflict && c == copyOf(k)
    ensures Act(i, k) != NewLocal ==> (Upload(k) in ops <==> Act(i, k) in {ReplaceDirByFile, UploadFresh, UploadReplace, Conflict})
  {
    assert k !in i.Keys() ==> Act(i, k) == Leave;
    assert k in i.Keys() ==> Answered(i, copyOf, ops, k);
    forall o | o in ops ensures Justified(i, copyOf, ops, o) { }
  }

  lemma KnownPathsSpelledOut(i: Inputs, copyOf: Path -> Path, ops: seq<Op>)
    requires OpsFor(i, copyOf, ops)
    ensures KnownPaths(i, copyOf, ops)
  {
    forall k, c ensures ConflictDownload(k, c) in ops <==> TwoEdits(i, k) && c == copyOf(k) {
      QueuedExactly(i, copyOf, ops, k);
      DecisionMeans(i, k);
    }
    forall k
      ensures PreDelete(k) in ops <==> IsDir(i.L(k)) && IsFile(i.R(k))
      ensures Mkdir(k) in ops <==> IsDir(i.L(k)) && !IsDir(i.R(k))
      ensures Rmdir(k, false) in ops <==> IsFile(i.L(k)) && IsDir(i.R(k))
      ensures Rmdir(k, true) in ops <==> i.L(k).None? && IsDir(i.R(k)) && IsDir(i.B(k)) && !HasChildren(i.local, k)
    {
      QueuedExactly(i, copyOf, ops, k);
      DirectoryMeans(i, k);
    }
    forall k
      ensures Delete(k, false) in ops <==> TwoFiles(i, k) && i.L(k) != i.B(k) && i.L(k) != i.R(k)
      ensures Download(k) in ops <==> MustFetch(i, k)
      ensures Upload(k) in ops && !NewHere(i, k) <==> MustUpload(i, k)
    {
      QueuedExactly(i, copyOf, ops, k);
      DecisionMeans(i, k);
      DirectoryMeans(i, k);
    }
  }

  lemma NewIsCreated(i: Inputs, copyOf: Path -> Path, ops: seq<Op>, k: Path)
    requires OpsFor(i, copyOf, ops) && NewHere(i, k)
    ensures exists o :: o in ops && Creates(o, k) && !o.Mkdir?
  {
    DecisionMeans(i, k);
    assert k in i.Keys() && Answered(i, copyOf, ops, k);
    var o :| o in ops && Creates(o, k);
    assert Justified(i, copyOf, ops, o);
  }

  lemma GoneIsFreed(i: Inputs, copyOf: Path -> Path, ops: seq<Op>, f: Path)
    requires OpsFor(i, copyOf, ops)
    ensures GoneHere(i, f) <==> Delete(f, true) in ops || RenamedFrom(ops, f)
  {
    DecisionMeans(i, f);
    if GoneHere(i, f) {
      assert f in i.Keys() && Answered(i, copyOf, ops, f);
      var o :| o in ops && Frees(o, f);
      assert Justified(i, copyOf, ops, o);
      if o.Move? { assert Move(f, o.to) in ops; }
    }
    if Delete(f, true) in ops { assert Justified(i, copyOf, ops, Delete(f, true)); }
    if RenamedFrom(ops, f) {
      var t :| Move(f, t) in ops;
      assert Justified(i, copyOf, ops, Move(f, t));
    }
  }

  lemma NewAndGoneSpelledOut(i: Inputs, copyOf: Path -> Path, ops: seq<Op>)
    requires OpsFor(i, copyOf, ops)
    ensures NewAndGone(i, ops)
  {
    forall f, t | Move(f, t) in ops ensures GoneHere(i, f) && NewHere(i, t) && i.R(f) == i.L(t) {
      assert Justified(i, copyOf, ops, Move(f, t));
      DecisionMeans(i, f);
      DecisionMeans(i, t);
    }
    forall f, t | Copy(f, t) in ops ensures NewHere(i, t) && CopySource(i, ops, f, i.L(t)) {
      assert Justified(i, copyOf, ops, Copy(f, t));
      DecisionMeans(i, t);
    }
    forall k | NewHere(i, k) ensures exists o :: o in ops && Creates(o, k) && !o.Mkdir? {
      NewIsCreated(i, copyOf, ops, k);
    }
    forall f ensures GoneHere(i, f) <==> Delete(f, true) in ops || RenamedFrom(ops, f) {
      GoneIsFreed(i, copyOf, ops, f);
    }
  }

  lemma ThriftSpelledOut(i: Inputs, ops: seq<Op>)
    requires Economical(i, ops)
    ensures Thrifty(i, ops)
  {
    forall k, f | NewHere(i, k) && GoneHere(i, f) && i.L(k) == i.R(f) ensures RenamedTo(ops, k) || RenamedFrom(ops, f) {
      DecisionMeans(i, k);
      DecisionMeans(i, f);
    }
    forall k | NewHere(i, k) && Upload(k) in ops ensures Alone(i, ops, k) {
      DecisionMeans(i, k);
    }
  }

  lemma LocalWorkSpelledOut(i: Inputs, p: SyncPlan)
    requires LocalPathsFor(i, p) && BaselineFor(i, p) && ReportFor(i, p)
    ensures LocalWork(i, p)
  {
    forall k
      ensures k in p.localMkdirs <==> Mirrored(i, k)
      ensures k in p.localDeletes <==> DeletedThere(i, k)
      ensures k in p.baselineDrop <==> Forgotten(i, k) || DeletedThere(i, k)
    {
      DecisionMeans(i, k);
      DirectoryMeans(i, k);
    }
    forall k ensures Get(p.baselineSet, k) == RecordedAtOnce(i, k) {
      DecisionMeans(i, k);
      DirectoryMeans(i, k);
    }
    forall k ensures k in p.conflicts <==> Reported(i, k) {
      ReportMeans(i, k);
    }
    assert Unchanged(i) == set k | k in i.Keys() && Agreeing(i, k) by {
      forall k ensures k in Unchanged(i) <==> k in i.Keys() && Agreeing(i, k) {
        DecisionMeans(i, k);
      }
    }
  }

  lemma ReportMeans(i: Inputs, k: Path)
    ensures Noted(i, k) <==> Reported(i, k)
  {
    DecisionMeans(i, k);
    DirectoryMeans(i, k);
  }

  /** A plan with renames found and copies preferred is the one spelled out. */
  lemma PlanIsSpelledOut(i: Inputs, copyOf: Path -> Path, p: SyncPlan)
    requires PlanFor(i, copyOf, p) && Economical(i, p.ops)
    ensures SpelledOut(i, copyOf, p)
  {
    KnownPathsSpelledOut(i, copyOf, p.ops);
    NewAndGoneSpelledOut(i, copyOf, p.ops);
    ThriftSpelledOut(i, p.ops);
    LocalWorkSpelledOut(i, p);
  }

  // --- how many renames ----------------------------------------------------------------------------------------

  /** New files, and files gone here, that hold n. */
  function NewWith(i: Inputs, n: Node): set<Path> {
    set k | k in i.local && NewHere(i, k) && i.L(k) == Some(n)
  }

  function GoneWith(i: Inputs, n: Node): set<Path> {
    set f | f in i.remote && GoneHere(i, f) && i.R(f) == Some(n)
  }

  ghost function MovedTargets(i: Inputs, ops: seq<Op>, n: Node): set<Path> {
    set k | k in NewWith(i, n) && RenamedTo(ops, k)
  }

  ghost function MovedSources(i: Inputs, ops: seq<Op>, n: Node): set<Path> {
    set f | f in GoneWith(i, n) && RenamedFrom(ops, f)
  }

  ghost predicate FromOneOf(ops: seq<Op>, b: set<Path>, k: Path) {
    exists f :: f in b && Move(f, k) in ops
  }

  ghost predicate ToOneOf(ops: seq<Op>, a: set<Path>, f: Path) {
    exists k :: k in a && Move(f, k) in ops
  }

  ghost predicate Paired(ops: seq<Op>, a: set<Path>, b: set<Path>) {
    && (forall k {:trigger FromOneOf(ops, b, k)} :: k in a ==> FromOneOf(ops, b, k))
    && (forall f {:trigger ToOneOf(ops, a, f)} :: f in b ==> ToOneOf(ops, a, f))
  }

  ghost predicate OneToOne(ops: seq<Op>) {
    forall f, k, f', k' :: Move(f, k) in ops && Move(f', k') in ops ==> (f == f' <==> k == k')
  }

  lemma {:induction false} PairedSizes(ops: seq<Op>, a: set<Path>, b: set<Path>)
    requires OneToOne(ops) && Paired(ops, a, b)
    ensures |a| == |b|
    decreases a
  {
    if a == {} {
      forall f ensures f !in b {
        assert !ToOneOf(ops, a, f);
      }
    } else {
      var k :| k in a;
      assert FromOneOf(ops, b, k);
      var f :| f in b && Move(f, k) in ops;
      Unpaired(ops, a, b, k, f);
      PairedSizes(ops, a - {k}, b - {f});
    }
  }

  lemma Unpaired(ops: seq<Op>, a: set<Path>, b: set<Path>, k: Path, f: Path)
    requires OneToOne(ops) && Paired(ops, a, b) && k in a && f in b && Move(f, k) in ops
    ensures Paired(ops, a - {k}, b - {f})
  {
    forall k' | k' in a - {k} ensures FromOneOf(ops, b - {f}, k') {
      assert FromOneOf(ops, b, k');
      var f' :| f' in b && Move(f', k') in ops;
      assert f' in b - {f};
    }
    forall f' | f' in b - {f} ensures ToOneOf(ops, a - {k}, f') {
      assert ToOneOf(ops, a, f');
      var k' :| k' in a && Move(f', k') in ops;
      assert k' in a - {k};
    }
  }

  lemma MovesAreOneToOne(i: Inputs, ops: seq<Op>)
    requires NewAndGone(i, ops)
    ensures OneToOne(ops)
  {
    forall f, k, f', k' | Move(f, k) in ops && Move(f', k') in ops ensures f == f' <==> k == k' {
      if f == f' { assert Frees(Move(f, k), f) && Frees(Move(f', k'), f); }
      if k == k' { assert Creates(Move(f, k), k) && Creates(Move(f', k'), k); }
    }
  }

  lemma MovesArePaired(i: Inputs, ops: seq<Op>, n: Node)
    requires NewAndGone(i, ops)
    ensures Paired(ops, MovedTargets(i, ops, n), MovedSources(i, ops, n))
  {
    var a, b := MovedTargets(i, ops, n), MovedSources(i, ops, n);
    forall k | k in a ensures FromOneOf(ops, b, k) {
      var f :| Move(f, k) in ops;
      assert f in b;
    }
    forall f | f in b ensures ToOneOf(ops, a, f) {
      var k :| Move(f, k) in ops;
      assert k in a;
    }
  }

  lemma Subset(a: set<Path>, b: set<Path>)
    requires a <= b
    ensures |a| <= |b|
  {
    assert b == a + (b - a);
  }

  /** Per content, a plan renames as often as it can: the smaller of the number of new
      files and the number of files gone here. */
  lemma RenamesPerContent(i: Inputs, copyOf: Path -> Path, p: SyncPlan, n: Node)
    requires SpelledOut(i, copyOf, p)
    ensures var news, gone := |NewWith(i, n)|, |GoneWith(i, n)|;
            |MovedTargets(i, p.ops, n)| == (if news <= gone then news else gone)
            && |MovedSources(i, p.ops, n)| == |MovedTargets(i, p.ops, n)|
  {
    var a, b := MovedTargets(i, p.ops, n), MovedSources(i, p.ops, n);
    MovesAreOneToOne(i, p.ops);
    MovesArePaired(i, p.ops, n);
    PairedSizes(p.ops, a, b);
    Subset(a, NewWith(i, n));
    Subset(b, GoneWith(i, n));
    if a != NewWith(i, n) {
      var k :| k in NewWith(i, n) && k !in a;
      forall f | f in GoneWith(i, n) ensures f in b {
        assert !RenamedTo(p.ops, k);
      }
      assert b == GoneWith(i, n);
    }
  }

  /** Of several new files with one content that are not renamed, at most one is
      uploaded; the others are copied on the server. */
  lemma OneUploadPerContent(i: Inputs, copyOf: Path -> Path, p: SyncPlan, k: Path, k': Path)
    requires SpelledOut(i, copyOf, p) && NewHere(i, k) && NewHere(i, k') && k != k' && i.L(k) == i.L(k')
    requires Upload(k) in p.ops
    ensures exists f :: Copy(f, k') in p.ops
  {
    var o :| o in p.ops && Creates(o, k') && !o.Mkdir?;
    assert Alone(i, p.ops, k);
    assert o.Copy?;
    assert o == Copy(o.from, k');
  }
}
