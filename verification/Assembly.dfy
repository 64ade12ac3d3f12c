/** Putting the plan together: depth order inside the directory phases, the eight
    phases in sequence, and the proof that the result is a plan for its inputs. */
module Assembly {
  import opened Paths
  import opened Trees
  import opened Plans
  import opened Renames
  import opened Classifier
  import opened Planner
  import opened Requests

  // --- directory phases by depth ------------------------------------------------------------------

  predicate Before(up: bool, a: Op, b: Op) {
    if up then Depth(Target(a)) <= Depth(Target(b)) else Depth(Target(a)) >= Depth(Target(b))
  }

  ghost predicate ByDepth(up: bool, s: seq<Op>) {
    forall x, y :: 0 <= x < y < |s| ==> Before(up, s[x], s[y])
  }

  /** a stands before b in s. */
  ghost predicate Precedes(s: seq<Op>, a: Op, b: Op) {
    exists x, y :: 0 <= x < y < |s| && s[x] == a && s[y] == b
  }

  predicate SameDepth(a: Op, b: Op) {
    Depth(Target(a)) == Depth(Target(b))
  }

  method InsertByDepth(r: seq<Op>, o: Op, up: bool) returns (r': seq<Op>)
    requires NoDup(r) && ByDepth(up, r) && o !in r
    ensures forall a, b :: Precedes(r, a, b) ==> Precedes(r', a, b)
    ensures forall a :: a in r && SameDepth(a, o) ==> Precedes(r', a, o)
    ensures NoDup(r') && ByDepth(up, r') && multiset(r') == multiset(r) + multiset{o}
    ensures forall p :: p in r' <==> p in r || p == o
  {
    var j := 0;
    while j < |r| && Before(up, r[j], o)
      invariant j <= |r| && forall x :: 0 <= x < j ==> Before(up, r[x], o)
    {
      j := j + 1;
    }
    r' := r[..j] + [o] + r[j..];
    Inserted(r, j, o);
    InsertedInOrder(r, j, o, up);
    forall a, b | Precedes(r, a, b) ensures Precedes(r', a, b) {
      StillPrecedes(r, j, o, a, b);
    }
    forall a | a in r && SameDepth(a, o) ensures Precedes(r', a, o) {
      BeforeInserted(r, j, o, up, a);
    }
  }

  lemma StillPrecedes(r: seq<Op>, j: nat, o: Op, a: Op, b: Op)
    requires j <= |r| && Precedes(r, a, b)
    ensures Precedes(r[..j] + [o] + r[j..], a, b)
  {
    var s := r[..j] + [o] + r[j..];
    var x, y :| 0 <= x < y < |r| && r[x] == a && r[y] == b;
    var x', y' := if x < j then x else x + 1, if y < j then y else y + 1;
    assert s[x'] == a && s[y'] == b;
  }

  lemma BeforeInserted(r: seq<Op>, j: nat, o: Op, up: bool, a: Op)
    requires j <= |r| && ByDepth(up, r) && a in r && SameDepth(a, o) && (j < |r| ==> !Before(up, r[j], o))
    ensures Precedes(r[..j] + [o] + r[j..], a, o)
  {
    var s := r[..j] + [o] + r[j..];
    var x :| 0 <= x < |r| && r[x] == a;
    assert x >= j ==> x == j || Before(up, r[j], r[x]);
    assert s[x] == a && s[j] == o;
  }

  lemma Inserted(r: seq<Op>, j: nat, o: Op)
    requires j <= |r| && NoDup(r) && o !in r
    ensures var s := r[..j] + [o] + r[j..];
            NoDup(s) && multiset(s) == multiset(r) + multiset{o} && forall p :: p in s <==> p in r || p == o
  {
    assert r == r[..j] + r[j..];
  }

  lemma InsertedInOrder(r: seq<Op>, j: nat, o: Op, up: bool)
    requires j <= |r| && ByDepth(up, r)
    requires forall x :: 0 <= x < j ==> Before(up, r[x], o)
    requires j < |r| ==> !Before(up, r[j], o)
    ensures ByDepth(up, r[..j] + [o] + r[j..])
  {
    var s := r[..j] + [o] + r[j..];
    forall x, y | 0 <= x < y < |s| ensures Before(up, s[x], s[y]) {
      assert x > j ==> s[x] == r[x - 1];
      assert y > j ==> s[y] == r[y - 1];
    }
  }

  lemma OneMorePrecedes(s: seq<Op>, n: nat)
    requires n < |s|
    ensures forall a, b :: Precedes(s[..n + 1], a, b) ==> Precedes(s[..n], a, b) || (a in s[..n] && b == s[n])
  {
    forall a, b | Precedes(s[..n + 1], a, b) ensures Precedes(s[..n], a, b) || (a in s[..n] && b == s[n]) {
      var x, y :| 0 <= x < y < n + 1 && s[..n + 1][x] == a && s[..n + 1][y] == b;
      assert s[..n][x] == a;
      if y < n { assert s[..n][y] == b; }
    }
  }

  /** std::stable_sort on path_depth, shallow first or deep first. */
  method SortByDepth(s: seq<Op>, up: bool) returns (r: seq<Op>)
    requires NoDup(s)
    ensures NoDup(r) && ByDepth(up, r) && multiset(r) == multiset(s)
    ensures forall o :: o in r <==> o in s
    ensures forall a, b :: Precedes(s, a, b) && SameDepth(a, b) ==> Precedes(r, a, b)
  {
    r := [];
    for n := 0 to |s|
      invariant NoDup(r) && ByDepth(up, r) && multiset(r) == multiset(s[..n])
      invariant forall o :: o in r <==> o in s[..n]
      invariant forall a, b :: Precedes(s[..n], a, b) && SameDepth(a, b) ==> Precedes(r, a, b)
    {
      assert s[..n + 1] == s[..n] + [s[n]];
      assert s[n] !in s[..n];
      OneMorePrecedes(s, n);
      r := InsertByDepth(r, s[n], up);
    }
    assert s[..|s|] == s;
  }

  // --- the eight phases --------------------------------------------------------------------------------

  function MoveOps(ms: seq<Rename>): (s: seq<Op>)
    ensures |s| == |ms| && forall x :: 0 <= x < |s| ==> s[x] == Move(ms[x].from, ms[x].to)
  {
    seq(|ms|, x requires 0 <= x < |ms| => Move(ms[x].from, ms[x].to))
  }

  function CopyOps(cs: seq<Rename>): (s: seq<Op>)
    ensures |s| == |cs| && forall x :: 0 <= x < |s| ==> s[x] == Copy(cs[x].from, cs[x].to)
  {
    seq(|cs|, x requires 0 <= x < |cs| => Copy(cs[x].from, cs[x].to))
  }

  function DeleteOps(ks: seq<Path>): (s: seq<Op>)
    ensures |s| == |ks| && forall x :: 0 <= x < |s| ==> s[x] == Delete(ks[x], true)
  {
    seq(|ks|, x requires 0 <= x < |ks| => Delete(ks[x], true))
  }

  function UploadOps(ks: seq<Path>): (s: seq<Op>)
    ensures |s| == |ks| && forall x :: 0 <= x < |s| ==> s[x] == Upload(ks[x])
  {
    seq(|ks|, x requires 0 <= x < |ks| => Upload(ks[x]))
  }

  function Sources(ms: seq<Rename>): (s: seq<Path>)
    ensures |s| == |ms|
  {
    seq(|ms|, x requires 0 <= x < |ms| => ms[x].from)
  }

  function Targets(ms: seq<Rename>): (s: seq<Path>)
    ensures |s| == |ms|
  {
    seq(|ms|, x requires 0 <= x < |ms| => ms[x].to)
  }

  datatype Phases = Phases(
    pulls: seq<Op>, preDeletes: seq<Op>, mkdirs: seq<Op>, moves: seq<Rename>,
    replacements: seq<Op>, removedLeft: seq<Path>, rmdirs: seq<Op>,
    transfers: seq<Op>, uploads: seq<Path>, copies: seq<Rename>)
  {
    function Ops(): seq<Op> {
      pulls + preDeletes + mkdirs + MoveOps(moves) + (replacements + DeleteOps(removedLeft)) + rmdirs
      + (transfers + UploadOps(uploads)) + CopyOps(copies)
    }
  }

  /** What the passes established about the phases. */
  ghost predicate PhasesFor(i: Inputs, copyOf: Path -> Path, ph: Phases, newLeft: seq<Path>) {
    && Filled(i, copyOf, ConflictPulls, ph.pulls, i.Keys())
    && Filled(i, copyOf, PreDeletes, ph.preDeletes, i.Keys())
    && Filled(i, copyOf, Mkdirs, ph.mkdirs, i.Keys()) && ByDepth(true, ph.mkdirs)
    && Filled(i, copyOf, Replacements, ph.replacements, i.Keys())
    && Filled(i, copyOf, Rmdirs, ph.rmdirs, i.Keys()) && ByDepth(false, ph.rmdirs)
    && Filled(i, copyOf, Transfers, ph.transfers, i.Keys())
    && Detected(i, ph.moves, newLeft, ph.removedLeft)
    && Shared(i, ph.moves, ph.transfers, newLeft, ph.uploads, ph.copies)
  }

  /** Which operations the phases contain. */
  ghost predicate Queued(i: Inputs, copyOf: Path -> Path, ph: Phases, o: Op) {
    var a, copy := Act(i, Target(o)), copyOf(Target(o));
    match o
    case ConflictDownload(_, _) => Requested(ConflictPulls, a, o, copy)
    case PreDelete(_) => Requested(PreDeletes, a, o, copy)
    case Mkdir(_) => Requested(Mkdirs, a, o, copy)
    case Move(f, t) => Rename(f, t) in ph.moves
    case Delete(k, drop) => if drop then k in ph.removedLeft else Requested(Replacements, a, o, copy)
    case Rmdir(_, _) => Requested(Rmdirs, a, o, copy)
    case Upload(k) => k in ph.uploads || Requested(Transfers, a, o, copy)
    case Download(_) => Requested(Transfers, a, o, copy)
    case Copy(f, t) => Rename(f, t) in ph.copies
  }

  lemma FilledBy(i: Inputs, copyOf: Path -> Path, b: Bucket, s: seq<Op>, o: Op)
    requires Filled(i, copyOf, b, s, i.Keys())
    ensures o in s <==> o in Emit(b, Act(i, Target(o)), Target(o), copyOf(Target(o)))
  {
    assert Target(o) !in i.Keys() ==> Act(i, Target(o)) == Leave;
  }

  predicate OfBucket(b: Bucket, o: Op) {
    match b
    case ConflictPulls => o.ConflictDownload?
    case PreDeletes => o.PreDelete?
    case Mkdirs => o.Mkdir?
    case Replacements => o.Delete?
    case Rmdirs => o.Rmdir?
    case Transfers => o.Upload? || o.Download?
  }

  /** The operation a bucket queues for a path with action a. */
  predicate Requested(b: Bucket, a: Action, o: Op, copy: Path) {
    match b
    case ConflictPulls => o.ConflictDownload? && a == Conflict && o.copy == copy
    case PreDeletes => o.PreDelete? && a == ReplaceByDir
    case Mkdirs => o.Mkdir? && a in {MakeRemoteDir, ReplaceByDir}
    case Replacements => o.Delete? && !o.drop && a in {UploadReplace, Conflict}
    case Rmdirs => o.Rmdir? && a == if o.drop then RemoveRemoteDir else ReplaceDirByFile
    case Transfers =>
      (o.Upload? && a in {ReplaceDirByFile, UploadFresh, UploadReplace, Conflict}) || (o.Download? && a == Pull)
  }

  lemma InBucket(i: Inputs, copyOf: Path -> Path, b: Bucket, s: seq<Op>, o: Op)
    requires Filled(i, copyOf, b, s, i.Keys())
    ensures o in s <==> Requested(b, Act(i, Target(o)), o, copyOf(Target(o)))
  {
    FilledBy(i, copyOf, b, s, o);
    EmitRequested(b, Act(i, Target(o)), o, copyOf(Target(o)));
  }

  lemma EmitRequested(b: Bucket, a: Action, o: Op, copy: Path)
    ensures o in Emit(b, a, Target(o), copy) <==> Requested(b, a, o, copy)
  {
  }

  lemma Contents(i: Inputs, copyOf: Path -> Path, ph: Phases, newLeft: seq<Path>, o: Op)
    requires PhasesFor(i, copyOf, ph, newLeft)
    ensures o in ph.Ops() <==> Queued(i, copyOf, ph, o)
  {
    InBucket(i, copyOf, ConflictPulls, ph.pulls, o);
    InBucket(i, copyOf, PreDeletes, ph.preDeletes, o);
    InBucket(i, copyOf, Mkdirs, ph.mkdirs, o);
    InBucket(i, copyOf, Replacements, ph.replacements, o);
    InBucket(i, copyOf, Rmdirs, ph.rmdirs, o);
    InBucket(i, copyOf, Transfers, ph.transfers, o);
    InMapped(ph, o);
    InOps(ph, o);
  }

  lemma InOps(ph: Phases, o: Op)
    ensures o in ph.Ops() <==>
              || o in ph.pulls || o in ph.preDeletes || o in ph.mkdirs || o in MoveOps(ph.moves)
              || o in ph.replacements || o in DeleteOps(ph.removedLeft) || o in ph.rmdirs
              || o in ph.transfers || o in UploadOps(ph.uploads) || o in CopyOps(ph.copies)
  {
  }

  lemma InMapped(ph: Phases, o: Op)
    ensures o in MoveOps(ph.moves) <==> o.Move? && Rename(o.from, o.to) in ph.moves
    ensures o in CopyOps(ph.copies) <==> o.Copy? && Rename(o.from, o.to) in ph.copies
    ensures o in DeleteOps(ph.removedLeft) <==> o.Delete? && o.drop && o.key in ph.removedLeft
    ensures o in UploadOps(ph.uploads) <==> o.Upload? && o.key in ph.uploads
  {
    if o.Move? && Rename(o.from, o.to) in ph.moves {
      var x :| 0 <= x < |ph.moves| && ph.moves[x] == Rename(o.from, o.to);
      assert MoveOps(ph.moves)[x] == o;
    }
    if o.Copy? && Rename(o.from, o.to) in ph.copies {
      var x :| 0 <= x < |ph.copies| && ph.copies[x] == Rename(o.from, o.to);
      assert CopyOps(ph.copies)[x] == o;
    }
    if o.Delete? && o.drop && o.key in ph.removedLeft {
      var x :| 0 <= x < |ph.removedLeft| && ph.removedLeft[x] == o.key;
      assert DeleteOps(ph.removedLeft)[x] == o;
    }
    if o.Upload? && o.key in ph.uploads {
      var x :| 0 <= x < |ph.uploads| && ph.uploads[x] == o.key;
      assert UploadOps(ph.uploads)[x] == o;
    }
  }

  // --- order -------------------------------------------------------------------------------------------

  ghost predicate PhasesWithin(s: seq<Op>, lo: nat, hi: nat) {
    forall o :: o in s ==> lo <= Phase(o) < hi
  }

  lemma OrderedConcat(a: seq<Op>, b: seq<Op>, lo: nat, mid: nat, hi: nat)
    requires Ordered(a) && Ordered(b) && lo <= mid <= hi
    requires PhasesWithin(a, lo, mid) && PhasesWithin(b, mid, hi)
    ensures Ordered(a + b) && PhasesWithin(a + b, lo, hi)
  {
    forall m, n | 0 <= m < n < |a + b| ensures (a + b)[m] != (a + b)[n] && InOrder((a + b)[m], (a + b)[n]) {
      if m < |a| <= n {
        assert a[m] in a && b[n - |a|] in b;
      } else if n < |a| {
        assert InOrder(a[m], a[n]);
      } else {
        assert InOrder(b[m - |a|], b[n - |a|]);
      }
    }
  }

  lemma OnePhase(s: seq<Op>, p: nat)
    requires NoDup(s) && PhasesWithin(s, p, p + 1) && p != 2 && p != 5
    ensures Ordered(s)
  {
    forall m, n | 0 <= m < n < |s| ensures s[m] != s[n] && InOrder(s[m], s[n]) {
      assert s[m] in s && s[n] in s;
    }
  }

  lemma OneBucket(i: Inputs, copyOf: Path -> Path, b: Bucket, s: seq<Op>)
    requires Filled(i, copyOf, b, s, i.Keys())
    requires b == Mkdirs ==> ByDepth(true, s)
    requires b == Rmdirs ==> ByDepth(false, s)
    ensures var p := match b case ConflictPulls => 0 case PreDeletes => 1 case Mkdirs => 2
                     case Replacements => 4 case Rmdirs => 5 case Transfers => 6;
            Ordered(s) && PhasesWithin(s, p, p + 1)
  {
    forall o | o in s ensures OfBucket(b, o) {
      InBucket(i, copyOf, b, s, o);
    }
    BucketInOrder(b, s);
  }

  lemma BucketInOrder(b: Bucket, s: seq<Op>)
    requires NoDup(s) && forall o :: o in s ==> OfBucket(b, o)
    requires b == Mkdirs ==> ByDepth(true, s)
    requires b == Rmdirs ==> ByDepth(false, s)
    ensures var p := match b case ConflictPulls => 0 case PreDeletes => 1 case Mkdirs => 2
                     case Replacements => 4 case Rmdirs => 5 case Transfers => 6;
            Ordered(s) && PhasesWithin(s, p, p + 1)
  {
    forall m, n | 0 <= m < n < |s| ensures s[m] != s[n] && InOrder(s[m], s[n]) {
      assert s[m] in s && s[n] in s;
    }
  }

  lemma DeletesInOrder(i: Inputs, copyOf: Path -> Path, ph: Phases)
    requires Filled(i, copyOf, Replacements, ph.replacements, i.Keys()) && NoDup(ph.removedLeft)
    ensures var s := ph.replacements + DeleteOps(ph.removedLeft); Ordered(s) && PhasesWithin(s, 4, 5)
  {
    var s := ph.replacements + DeleteOps(ph.removedLeft);
    assert forall x :: 0 <= x < |ph.replacements| ==> ph.replacements[x] in ph.replacements;
    assert PhasesWithin(s, 4, 5);
    OnePhase(s, 4);
  }

  lemma TransfersInOrder(i: Inputs, copyOf: Path -> Path, ph: Phases)
    requires Filled(i, copyOf, Transfers, ph.transfers, i.Keys()) && NoDup(ph.uploads)
    requires forall k :: k in ph.uploads ==> Act(i, k) == NewLocal
    ensures var s := ph.transfers + UploadOps(ph.uploads); Ordered(s) && PhasesWithin(s, 6, 7)
  {
    var s := ph.transfers + UploadOps(ph.uploads);
    forall x | 0 <= x < |ph.transfers| ensures Phase(ph.transfers[x]) == 6 && Act(i, Target(ph.transfers[x])) != NewLocal {
      assert ph.transfers[x] in ph.transfers;
      InBucket(i, copyOf, Transfers, ph.transfers, ph.transfers[x]);
    }
    Disjoint(i, ph);
    assert PhasesWithin(s, 6, 7);
    OnePhase(s, 6);
  }

  lemma Disjoint(i: Inputs, ph: Phases)
    requires NoDup(ph.transfers) && NoDup(ph.uploads)
    requires forall x :: 0 <= x < |ph.transfers| ==> Act(i, Target(ph.transfers[x])) != NewLocal
    requires forall k :: k in ph.uploads ==> Act(i, k) == NewLocal
    ensures NoDup(ph.transfers + UploadOps(ph.uploads))
  {
    var s := ph.transfers + UploadOps(ph.uploads);
    forall x, y | 0 <= x < y < |s| ensures s[x] != s[y] {
      if x < |ph.transfers| <= y {
        assert ph.uploads[y - |ph.transfers|] in ph.uploads;
        assert Target(s[y]) == ph.uploads[y - |ph.transfers|];
      }
    }
  }

  lemma MappedInOrder(ph: Phases)
    requires DistinctEnds(ph.moves)
    requires forall x, y :: 0 <= x < y < |ph.copies| ==> ph.copies[x].to != ph.copies[y].to
    ensures Ordered(MoveOps(ph.moves)) && PhasesWithin(MoveOps(ph.moves), 3, 4)
    ensures Ordered(CopyOps(ph.copies)) && PhasesWithin(CopyOps(ph.copies), 7, 8)
  {
    OnePhase(MoveOps(ph.moves), 3);
    OnePhase(CopyOps(ph.copies), 7);
  }

  lemma AllInOrder(i: Inputs, copyOf: Path -> Path, ph: Phases, newLeft: seq<Path>)
    requires PhasesFor(i, copyOf, ph, newLeft)
    ensures Ordered(ph.Ops())
  {
    OneBucket(i, copyOf, ConflictPulls, ph.pulls);
    OneBucket(i, copyOf, PreDeletes, ph.preDeletes);
    OneBucket(i, copyOf, Mkdirs, ph.mkdirs);
    OneBucket(i, copyOf, Rmdirs, ph.rmdirs);
    MappedInOrder(ph);
    DeletesInOrder(i, copyOf, ph);
    TransfersInOrder(i, copyOf, ph);
    ConcatAll(ph.pulls, ph.preDeletes, ph.mkdirs, MoveOps(ph.moves), ph.replacements + DeleteOps(ph.removedLeft),
              ph.rmdirs, ph.transfers + UploadOps(ph.uploads), CopyOps(ph.copies));
  }

  lemma ConcatAll(a: seq<Op>, b: seq<Op>, c: seq<Op>, d: seq<Op>, e: seq<Op>, f: seq<Op>, g: seq<Op>, h: seq<Op>)
    requires Ordered(a) && Ordered(b) && Ordered(c) && Ordered(d) && Ordered(e) && Ordered(f) && Ordered(g) && Ordered(h)
    requires PhasesWithin(a, 0, 1) && PhasesWithin(b, 1, 2) && PhasesWithin(c, 2, 3) && PhasesWithin(d, 3, 4)
    requires PhasesWithin(e, 4, 5) && PhasesWithin(f, 5, 6) && PhasesWithin(g, 6, 7) && PhasesWithin(h, 7, 8)
    ensures Ordered(a + b + c + d + e + f + g + h)
  {
    OrderedConcat(a, b, 0, 1, 2);
    OrderedConcat(a + b, c, 0, 2, 3);
    OrderedConcat(a + b + c, d, 0, 3, 4);
    OrderedConcat(a + b + c + d, e, 0, 4, 5);
    OrderedConcat(a + b + c + d + e, f, 0, 5, 6);
    OrderedConcat(a + b + c + d + e + f, g, 0, 6, 7);
    OrderedConcat(a + b + c + d + e + f + g, h, 0, 7, 8);
  }

  // --- one creator, one remover ----------------------------------------------------------------------------

  lemma OneMoveTo(ms: seq<Rename>, m: Rename, n: Rename)
    requires m in ms && n in ms && DistinctEnds(ms)
    ensures m.to == n.to ==> m == n
    ensures m.from == n.from ==> m == n
    ensures MovedTo(ms, m.to) && MovedFrom(ms, m.from)
  {
  }

  lemma OneCopyTo(cs: seq<Rename>, m: Rename, n: Rename)
    requires m in cs && n in cs && forall x, y :: 0 <= x < y < |cs| ==> cs[x].to != cs[y].to
    ensures m.to == n.to ==> m == n
    ensures MovedTo(cs, m.to)
  {
  }

  /** How a new local file reaches the server. */
  lemma NewFileOnce(i: Inputs, copyOf: Path -> Path, ph: Phases, newLeft: seq<Path>, o: Op, k: Path)
    requires PhasesFor(i, copyOf, ph, newLeft) && Queued(i, copyOf, ph, o) && Creates(o, k) && Act(i, k) == NewLocal
    ensures o.Move? <==> MovedTo(ph.moves, k)
    ensures o.Upload? <==> k in ph.uploads
    ensures o.Copy? <==> MovedTo(ph.copies, k)
    ensures !o.Mkdir?
  {
    if o.Move? {
      OneMoveTo(ph.moves, Rename(o.from, o.to), Rename(o.from, o.to));
    } else if o.Copy? {
      OneCopyTo(ph.copies, Rename(o.from, o.to), Rename(o.from, o.to));
    }
  }

  lemma CreatedKind(i: Inputs, copyOf: Path -> Path, ph: Phases, newLeft: seq<Path>, o: Op, k: Path)
    requires PhasesFor(i, copyOf, ph, newLeft) && Queued(i, copyOf, ph, o) && Creates(o, k) && Act(i, k) != NewLocal
    ensures o == if Act(i, k) == MakeRemoteDir || Act(i, k) == ReplaceByDir then Mkdir(k) else Upload(k)
  {
  }

  lemma OneCreator(i: Inputs, copyOf: Path -> Path, ph: Phases, newLeft: seq<Path>, o: Op, p: Op, k: Path)
    requires PhasesFor(i, copyOf, ph, newLeft)
    requires Queued(i, copyOf, ph, o) && Queued(i, copyOf, ph, p) && Creates(o, k) && Creates(p, k)
    ensures o == p
  {
    if Act(i, k) == NewLocal {
      NewFileOnce(i, copyOf, ph, newLeft, o, k);
      NewFileOnce(i, copyOf, ph, newLeft, p, k);
      if o.Move? && p.Move? {
        OneMoveTo(ph.moves, Rename(o.from, o.to), Rename(p.from, p.to));
      } else if o.Copy? && p.Copy? {
        OneCopyTo(ph.copies, Rename(o.from, o.to), Rename(p.from, p.to));
      }
    } else {
      CreatedKind(i, copyOf, ph, newLeft, o, k);
      CreatedKind(i, copyOf, ph, newLeft, p, k);
    }
  }

  lemma OneRemover(i: Inputs, copyOf: Path -> Path, ph: Phases, newLeft: seq<Path>, o: Op, p: Op, k: Path)
    requires PhasesFor(i, copyOf, ph, newLeft)
    requires Queued(i, copyOf, ph, o) && Queued(i, copyOf, ph, p) && Frees(o, k) && Frees(p, k)
    ensures o == p
  {
    RemoverKind(i, copyOf, ph, newLeft, o, k);
    RemoverKind(i, copyOf, ph, newLeft, p, k);
    if o.Move? && p.Move? {
      OneMoveTo(ph.moves, Rename(o.from, o.to), Rename(p.from, p.to));
    }
  }

  lemma RemoverKind(i: Inputs, copyOf: Path -> Path, ph: Phases, newLeft: seq<Path>, o: Op, k: Path)
    requires PhasesFor(i, copyOf, ph, newLeft) && Queued(i, copyOf, ph, o) && Frees(o, k)
    ensures o == (match Act(i, k)
                  case RemovedRemote => if MovedFrom(ph.moves, k) then o else Delete(k, true)
                  case ReplaceByDir => PreDelete(k)
                  case ReplaceDirByFile => Rmdir(k, false)
                  case RemoveRemoteDir => Rmdir(k, true)
                  case _ => Delete(k, false))
    ensures Act(i, k) == RemovedRemote && MovedFrom(ph.moves, k) ==> o.Move?
  {
    if o.Move? {
      OneMoveTo(ph.moves, Rename(o.from, o.to), Rename(o.from, o.to));
      var x :| 0 <= x < |ph.moves| && ph.moves[x] == Rename(o.from, o.to);
      assert GoodMove(i, ph.moves[x]);
    }
  }

  // --- the plan -----------------------------------------------------------------------------------------------

  lemma QueuedIsJustified(i: Inputs, copyOf: Path -> Path, ph: Phases, newLeft: seq<Path>, o: Op)
    requires PhasesFor(i, copyOf, ph, newLeft) && Queued(i, copyOf, ph, o)
    ensures Justified(i, copyOf, ph.Ops(), o)
  {
    if o.Move? {
      MoveJustified(i, copyOf, ph, newLeft, o);
    } else if o.Copy? {
      CopyJustified(i, copyOf, ph, newLeft, o);
    }
  }

  lemma MoveJustified(i: Inputs, copyOf: Path -> Path, ph: Phases, newLeft: seq<Path>, o: Op)
    requires AreMoves(i, ph.moves) && o.Move? && Rename(o.from, o.to) in ph.moves
    ensures Justified(i, copyOf, ph.Ops(), o)
  {
    var x :| 0 <= x < |ph.moves| && ph.moves[x] == Rename(o.from, o.to);
    assert GoodMove(i, ph.moves[x]);
  }

  lemma CopyJustified(i: Inputs, copyOf: Path -> Path, ph: Phases, newLeft: seq<Path>, o: Op)
    requires PhasesFor(i, copyOf, ph, newLeft) && o.Copy? && Rename(o.from, o.to) in ph.copies
    ensures Justified(i, copyOf, ph.Ops(), o)
  {
    var x :| 0 <= x < |ph.copies| && ph.copies[x] == Rename(o.from, o.to);
    assert ph.copies[x].to in newLeft;
    var h := i.L(o.to).value.content;
    assert WillHold(i, ph.moves, ph.transfers, ph.uploads, o.from, h);
    Contents(i, copyOf, ph, newLeft, Upload(o.from));
    FilledBy(i, copyOf, Transfers, ph.transfers, Upload(o.from));
    if MovedTo(ph.moves, o.from) {
      var y :| 0 <= y < |ph.moves| && ph.moves[y].to == o.from;
      assert ph.moves[y] in ph.moves;
      Contents(i, copyOf, ph, newLeft, Move(ph.moves[y].from, o.from));
    }
  }

  lemma DecisionAnswered(i: Inputs, copyOf: Path -> Path, ph: Phases, newLeft: seq<Path>, k: Path)
    requires PhasesFor(i, copyOf, ph, newLeft)
    ensures Answered(i, copyOf, ph.Ops(), k)
  {
    if Act(i, k) == NewLocal {
      NewLocalAnswered(i, copyOf, ph, newLeft, k);
    } else if Act(i, k) == RemovedRemote {
      RemovedAnswered(i, copyOf, ph, newLeft, k);
    } else {
      forall o ensures o in ph.Ops() <==> Queued(i, copyOf, ph, o) {
        Contents(i, copyOf, ph, newLeft, o);
      }
      OthersAnswered(i, copyOf, ph, ph.Ops(), k);
    }
  }

  lemma OthersAnswered(i: Inputs, copyOf: Path -> Path, ph: Phases, ops: seq<Op>, k: Path)
    requires forall o :: o in ops <==> Queued(i, copyOf, ph, o)
    requires Act(i, k) != NewLocal && Act(i, k) != RemovedRemote
    ensures Answered(i, copyOf, ops, k)
  {
  }

  lemma NewLocalAnswered(i: Inputs, copyOf: Path -> Path, ph: Phases, newLeft: seq<Path>, k: Path)
    requires PhasesFor(i, copyOf, ph, newLeft) && Act(i, k) == NewLocal
    ensures CreatedBy(ph.Ops(), k)
  {
    var o: Op;
    if MovedTo(ph.moves, k) {
      var y :| 0 <= y < |ph.moves| && ph.moves[y].to == k;
      assert ph.moves[y] in ph.moves;
      o := Move(ph.moves[y].from, k);
    } else if k in ph.uploads {
      o := Upload(k);
    } else {
      assert k in newLeft && MovedTo(ph.copies, k);
      var y :| 0 <= y < |ph.copies| && ph.copies[y].to == k;
      assert ph.copies[y] in ph.copies;
      o := Copy(ph.copies[y].from, k);
    }
    Contents(i, copyOf, ph, newLeft, o);
    assert Creates(o, k);
  }

  lemma RemovedAnswered(i: Inputs, copyOf: Path -> Path, ph: Phases, newLeft: seq<Path>, k: Path)
    requires PhasesFor(i, copyOf, ph, newLeft) && Act(i, k) == RemovedRemote
    ensures FreedBy(ph.Ops(), k)
  {
    var o := Delete(k, true);
    if MovedFrom(ph.moves, k) {
      var y :| 0 <= y < |ph.moves| && ph.moves[y].from == k;
      assert ph.moves[y] in ph.moves;
      o := Move(k, ph.moves[y].to);
    }
    Contents(i, copyOf, ph, newLeft, o);
    assert Frees(o, k);
  }

  lemma PhasesArePlan(i: Inputs, copyOf: Path -> Path, ph: Phases, newLeft: seq<Path>)
    requires PhasesFor(i, copyOf, ph, newLeft)
    ensures OpsFor(i, copyOf, ph.Ops())
  {
    var ops := ph.Ops();
    AllInOrder(i, copyOf, ph, newLeft);
    forall o, p, k | o in ops && p in ops && Creates(o, k) && Creates(p, k) ensures o == p {
      Contents(i, copyOf, ph, newLeft, o);
      Contents(i, copyOf, ph, newLeft, p);
      OneCreator(i, copyOf, ph, newLeft, o, p, k);
    }
    forall o, p, k | o in ops && p in ops && Frees(o, k) && Frees(p, k) ensures o == p {
      Contents(i, copyOf, ph, newLeft, o);
      Contents(i, copyOf, ph, newLeft, p);
      OneRemover(i, copyOf, ph, newLeft, o, p, k);
    }
    forall o | o in ops ensures Justified(i, copyOf, ops, o) {
      Contents(i, copyOf, ph, newLeft, o);
      QueuedIsJustified(i, copyOf, ph, newLeft, o);
    }
    forall k | k in i.Keys() ensures Answered(i, copyOf, ops, k) {
      DecisionAnswered(i, copyOf, ph, newLeft, k);
    }
  }

  lemma NoDecision(i: Inputs, k: Path)
    requires k !in i.Keys()
    ensures Act(i, k) == Leave
  {
  }

  lemma LocalPaths(i: Inputs, c: Classified, p: SyncPlan)
    requires PathsUpTo(i, c, i.Keys()) && p.localMkdirs == c.localMkdirs && p.localDeletes == c.localDeletes
    ensures LocalPathsFor(i, p)
  {
    forall k ensures k in p.localMkdirs <==> Act(i, k) == MirrorDir {
      if k !in i.Keys() { NoDecision(i, k); }
      assert WantsAt(i, LocalMkdirs, k) <==> Act(i, k) == MirrorDir;
    }
    forall k ensures k in p.localDeletes <==> Act(i, k) == DropLocal {
      if k !in i.Keys() { NoDecision(i, k); }
      assert WantsAt(i, LocalDeletes, k) <==> Act(i, k) == DropLocal;
    }
  }

  lemma BaselineWork(i: Inputs, c: Classified, p: SyncPlan)
    requires Listed(i, Dropped, c.dropped, i.Keys()) && RecordsUpTo(i, c, i.Keys())
    requires p.baselineSet == c.baselineSet && p.baselineDrop == c.dropped
    ensures BaselineFor(i, p)
  {
    forall k ensures Get(p.baselineSet, k) == RecordNow(Act(i, k), i.L(k), i.R(k)) {
      if k !in i.Keys() { NoDecision(i, k); }
    }
    forall k ensures k in p.baselineDrop <==> Act(i, k) in {Forget, DropLocal} {
      if k !in i.Keys() { NoDecision(i, k); }
      assert WantsAt(i, Dropped, k) <==> Act(i, k) in {Forget, DropLocal};
    }
  }

  lemma NotedIsWanted(i: Inputs, k: Path)
    ensures WantsAt(i, Conflicts, k) <==> Noted(i, k)
    ensures Noted(i, k) ==> k in i.Keys()
  {
  }

  lemma Report(i: Inputs, c: Classified, p: SyncPlan)
    requires Listed(i, Conflicts, c.conflicts, i.Keys()) && RecordsUpTo(i, c, i.Keys())
    requires p.conflicts == c.conflicts && p.skipped == c.skipped
    ensures ReportFor(i, p)
  {
    forall k ensures k in p.conflicts <==> Noted(i, k) {
      NotedIsWanted(i, k);
    }
    assert SameIn(i, i.Keys()) == Unchanged(i);
  }

  // --- the optimisations -------------------------------------------------------------------------------------------

  lemma UploadsAreFrugal(i: Inputs, copyOf: Path -> Path, ph: Phases, ops: seq<Op>, k: Path)
    requires forall o :: o in ops <==> Queued(i, copyOf, ph, o)
    requires Filled(i, copyOf, Transfers, ph.transfers, i.Keys())
    requires Frugal(i, ph.moves, ph.transfers, ph.uploads)
    requires Upload(k) in ops && Act(i, k) == NewLocal
    ensures forall f :: Kept(i, f) ==> i.R(f) != i.L(k)
    ensures forall f, t :: Move(f, t) in ops ==> i.L(t) != i.L(k)
    ensures forall u :: Upload(u) in ops && u != k ==> i.L(u) != i.L(k)
  {
    assert k in ph.uploads;
    forall f, t | Move(f, t) in ops ensures i.L(t) != i.L(k) {
      var x :| 0 <= x < |ph.moves| && ph.moves[x] == Rename(f, t);
    }
    forall u | Upload(u) in ops && u != k ensures i.L(u) != i.L(k) {
      FilledBy(i, copyOf, Transfers, ph.transfers, Upload(u));
    }
  }

  lemma PhasesAreEconomical(i: Inputs, copyOf: Path -> Path, ph: Phases, newLeft: seq<Path>)
    requires PhasesFor(i, copyOf, ph, newLeft) && NoMissedMove(i, newLeft, ph.removedLeft)
    requires Frugal(i, ph.moves, ph.transfers, ph.uploads)
    ensures Economical(i, ph.Ops())
  {
    var ops := ph.Ops();
    forall o ensures o in ops <==> Queued(i, copyOf, ph, o) {
      Contents(i, copyOf, ph, newLeft, o);
    }
    forall k, f | Act(i, k) == NewLocal && Act(i, f) == RemovedRemote && i.L(k) == i.R(f)
      ensures RenamedTo(ops, k) || RenamedFrom(ops, f)
    {
      MatchedSomewhere(i, ph, newLeft, ops, k, f);
    }
    forall k | Upload(k) in ops && Act(i, k) == NewLocal
      ensures (forall f :: Kept(i, f) ==> i.R(f) != i.L(k))
      ensures (forall f, t :: Move(f, t) in ops ==> i.L(t) != i.L(k))
      ensures (forall u :: Upload(u) in ops && u != k ==> i.L(u) != i.L(k))
    {
      UploadsAreFrugal(i, copyOf, ph, ops, k);
    }
  }

  lemma MatchedSomewhere(i: Inputs, ph: Phases, newLeft: seq<Path>, ops: seq<Op>, k: Path, f: Path)
    requires Detected(i, ph.moves, newLeft, ph.removedLeft) && NoMissedMove(i, newLeft, ph.removedLeft)
    requires forall m :: m in ph.moves ==> Move(m.from, m.to) in ops
    requires Act(i, k) == NewLocal && Act(i, f) == RemovedRemote && i.L(k) == i.R(f)
    ensures RenamedTo(ops, k) || RenamedFrom(ops, f)
  {
    if MovedTo(ph.moves, k) {
      var x :| 0 <= x < |ph.moves| && ph.moves[x].to == k;
      assert ph.moves[x] in ph.moves;
    } else {
      assert MovedFrom(ph.moves, f);
      var x :| 0 <= x < |ph.moves| && ph.moves[x].from == f;
      assert ph.moves[x] in ph.moves;
    }
  }

  // --- compute_sync_plan ---------------------------------------------------------------------------------------------

  /** The planner. Whatever the three pictures are, the result is a plan for them,
      with renames found and copies preferred wherever possible. */
  method ComputeSyncPlan(i: Inputs, copyOf: Path -> Path) returns (p: SyncPlan)
    ensures PlanFor(i, copyOf, p)
    ensures Economical(i, p.ops)
    ensures SpelledOut(i, copyOf, p)
  {
    var c := Classify(i, copyOf);
    var ops := QueueOps(i, copyOf, c);
    p := SyncPlan(ops, c.localMkdirs, c.localDeletes, c.baselineSet, c.dropped, c.conflicts, c.skipped);
    LocalPaths(i, c, p);
    BaselineWork(i, c, p);
    Report(i, c, p);
    PlanIsSpelledOut(i, copyOf, p);
  }

  method QueueOps(i: Inputs, copyOf: Path -> Path, c: Classified) returns (ops: seq<Op>)
    requires UpTo(i, copyOf, c, i.Keys())
    ensures OpsFor(i, copyOf, ops) && Economical(i, ops)
  {
    var moves, newLeft, removedLeft := DetectMoves(i, c.news, c.removed);
    var ordered, stuck, _ := OrderMoves(moves);
    NoEdges(i, moves);
    SameMoves(i, moves, ordered, newLeft, removedLeft);
    UploadsAreFiles(i, copyOf, c);
    var uploads, copies := PlanCopies(i, ordered, c.transfers, newLeft);
    var mkdirs := SortByDepth(c.mkdirs, true);
    var rmdirs := SortByDepth(c.rmdirs, false);
    ops := c.conflictPulls + c.preDeletes + mkdirs + MoveOps(ordered)
      + (c.replacements + DeleteOps(removedLeft + Sources(stuck))) + rmdirs
      + (c.transfers + UploadOps(Targets(stuck) + uploads)) + CopyOps(copies);
    ghost var ph := Phases(c.conflictPulls, c.preDeletes, mkdirs, ordered, c.replacements, removedLeft, rmdirs,
                           c.transfers, uploads, copies);
    assert removedLeft + Sources(stuck) == removedLeft && Targets(stuck) + uploads == uploads;
    assert ops == ph.Ops();
    PhasesArePlan(i, copyOf, ph, newLeft);
    PhasesAreEconomical(i, copyOf, ph, newLeft);
  }

  lemma SameMoves(i: Inputs, moves: seq<Rename>, ordered: seq<Rename>, newLeft: seq<Path>, removedLeft: seq<Path>)
    requires Detected(i, moves, newLeft, removedLeft) && DistinctEnds(ordered)
    requires forall m :: m in moves <==> m in ordered
    ensures Detected(i, ordered, newLeft, removedLeft)
    ensures forall k :: k in newLeft ==> IsFile(i.L(k))
  {
    forall x | 0 <= x < |ordered| ensures GoodMove(i, ordered[x]) {
      assert ordered[x] in ordered;
      var y :| 0 <= y < |moves| && moves[y] == ordered[x];
    }
    forall k ensures MovedTo(moves, k) <==> MovedTo(ordered, k) {
      assert MovedTo(moves, k) <==> exists m :: m in moves && m.to == k;
      assert MovedTo(ordered, k) <==> exists m :: m in ordered && m.to == k;
    }
    forall k ensures MovedFrom(moves, k) <==> MovedFrom(ordered, k) {
      assert MovedFrom(moves, k) <==> exists m :: m in moves && m.from == k;
      assert MovedFrom(ordered, k) <==> exists m :: m in ordered && m.from == k;
    }
  }

  lemma UploadsAreFiles(i: Inputs, copyOf: Path -> Path, c: Classified)
    requires Filled(i, copyOf, Transfers, c.transfers, i.Keys())
    ensures forall o :: o in c.transfers && o.Upload? ==> IsFile(i.L(o.key))
  {
  }
}
