/** Stopping a SYNC between two operations, after any failures, and planning again;
    and planning again after a complete SYNC. */
module Resync {
  import opened Paths
  import opened Trees
  import opened Plans
  import opened Execution
  import opened Refinement
  import opened Progress
  import opened Convergence
  import opened Necessity
  import opened Accounting
  import opened Honesty
  import opened Survival

  /** A local file nobody edited, where the server now has a directory. */
  predicate Reverted(i: Inputs, k: Path) {
    IsFile(i.L(k)) && i.B(k) == i.L(k) && IsDir(i.R(k))
  }

  ghost predicate NoneReverted(i: Inputs) {
    forall k :: !Reverted(i, k)
  }

  /** State in which the next SYNC finds things when this one stops after n operations. */
  ghost function Stopped(i: Inputs, p: SyncPlan, fate: nat -> Fate, n: nat): Inputs
    requires n <= |p.ops|
  {
    After(i, p, fate, n).AsInputs()
  }

  // --- quiet scans leave only two ways to lie --------------------------------------------------------

  lemma ArrivalIsNoisy(i: Inputs, x: Path)
    requires Arrives(i, x)
    ensures x in i.remote && i.R(x) != i.B(x)
  {
  }

  lemma QuietUnstranded(i: Inputs, x: Path)
    requires i.Scanned() && Quiet(i) && Arrives(i, x)
    ensures !Blocked(i, x)
  {
    ArrivalIsNoisy(i, x);
    forall e | Under(e, x) ensures !IsFile(i.L(e)) {
      ArrivalInRemote(i, x, e);
      assert IsFile(i.L(e)) ==> Act(i, e) == ReplaceDirByFile;
    }
  }

  lemma QuietUnopened(i: Inputs, d: Path, x: Path)
    requires Quiet(i) && Act(i, d) == RemoveRemoteDir && Under(d, x)
    ensures !Arrives(i, x)
  {
    if Arrives(i, x) { ArrivalIsNoisy(i, x); }
  }

  lemma QuietIsFair(i: Inputs, ops: seq<Op>)
    requires i.Scanned() && Quiet(i) && SafeOps(i, ops)
    ensures Fair(i, ops)
  {
    forall x ensures !Stranded(i, x) {
      if Arrives(i, x) { QuietUnstranded(i, x); }
    }
    forall d, x ensures !Reopened(i, d, x) {
      if Act(i, d) == RemoveRemoteDir && Under(d, x) { QuietUnopened(i, d, x); }
    }
  }

  // --- what the baseline can say ------------------------------------------------------------------------

  /** The baseline has the old entry or the goal, and a file that is new on the server
      is recorded. */
  ghost predicate Ledger(i: Inputs, w: World, k: Path) {
    && (Get(w.base, k) == i.B(k) || Get(w.base, k) == i.Merged(k))
    && (IsFile(Get(w.remote, k)) && Get(w.remote, k) != i.R(k) ==> Get(w.base, k) == Get(w.remote, k))
  }

  lemma LedgerAtBegin(i: Inputs, p: SyncPlan, k: Path)
    requires BaselineFor(i, p) && Act(i, k) != Forget
    ensures Ledger(i, Begin(i, p), k)
  {
    BeginBaseAt(i, p, k);
  }

  lemma DroppedIsMerge(i: Inputs, k: Path)
    requires Act(i, k) == RemovedRemote || Act(i, k) == RemoveRemoteDir
    ensures i.Merged(k) == None
  {
  }

  lemma RecordedIsMerge(i: Inputs, copyOf: Path -> Path, ops: seq<Op>, w: World, o: Op, k: Path)
    requires Justified(i, copyOf, ops, o) && Accepted(w, o) && Records(o, k)
    ensures Get(Effect(i, w, o).base, k) == i.Merged(k)
  {
    JustifiedIsTyped(i, copyOf, ops, o);
    BaseEffectAt(i, w, o, k);
    PutIsMerge(i, copyOf, ops, o, k);
    if Drops(o, k) && !Creates(o, k) {
      DroppedAct(i, copyOf, ops, o, k);
      DroppedIsMerge(i, k);
    }
  }

  lemma RemoteUnlessCreated(i: Inputs, w: World, o: Op, fate: Fate, k: Path)
    requires !(Creates(o, k) && Accepted(w, o) && fate.Goes?)
    ensures var n := Get(Step(i, w, o, fate).remote, k); IsFile(n) ==> n == Get(w.remote, k)
  {
    RemoteStepAt(i, w, o, fate, k);
  }

  lemma LedgerStep(i: Inputs, copyOf: Path -> Path, ops: seq<Op>, w: World, o: Op, fate: Fate, k: Path)
    requires Setting(i, copyOf) && Fair(i, ops) && o in ops && Justified(i, copyOf, ops, o) && Sane(i, copyOf, w)
    requires Ledger(i, w, k)
    ensures Ledger(i, Step(i, w, o, fate), k)
  {
    if Records(o, k) && Accepted(w, o) && fate.Goes? {
      RecordedIsMerge(i, copyOf, ops, w, o, k);
      RecordedIsSettled(i, copyOf, ops, w, o, k);
    } else {
      BaseStepAt(i, copyOf, ops, w, o, fate, k);
      RemoteUnlessCreated(i, w, o, fate, k);
    }
  }

  /** Everything the induction carries along. */
  ghost predicate Kept(i: Inputs, copyOf: Path -> Path, p: SyncPlan, fate: nat -> Fate, k: Path, n: nat) {
    InOrderSoFar(i, copyOf, p, fate, k, n) && Ledger(i, After(i, p, fate, n), k)
  }

  lemma KeptNext(i: Inputs, copyOf: Path -> Path, p: SyncPlan, fate: nat -> Fate, k: Path, n: nat)
    requires Setting(i, copyOf) && Fair(i, p.ops) && OpsFor(i, copyOf, p.ops) && n < |p.ops|
    requires !IsCopy(i, copyOf, k) && Act(i, k) != Leave && Kept(i, copyOf, p, fate, k, n)
    ensures Kept(i, copyOf, p, fate, k, n + 1)
  {
    InOrderNext(i, copyOf, p, fate, k, n);
    AfterStep(i, p, fate, n);
    assert p.ops[n] in p.ops && Justified(i, copyOf, p.ops, p.ops[n]);
    LedgerStep(i, copyOf, p.ops, After(i, p, fate, n), p.ops[n], fate(n), k);
  }

  lemma {:induction false} KeptThroughout(i: Inputs, copyOf: Path -> Path, p: SyncPlan, fate: nat -> Fate, k: Path, n: nat)
    requires Setting(i, copyOf) && Fair(i, p.ops) && OpsFor(i, copyOf, p.ops) && n <= |p.ops|
    requires !IsCopy(i, copyOf, k) && Act(i, k) != Leave && Kept(i, copyOf, p, fate, k, 0)
    ensures Kept(i, copyOf, p, fate, k, n)
    decreases n
  {
    if n > 0 {
      KeptThroughout(i, copyOf, p, fate, k, n - 1);
      KeptNext(i, copyOf, p, fate, k, n - 1);
    }
  }

  lemma AlwaysKept(i: Inputs, copyOf: Path -> Path, p: SyncPlan, fate: nat -> Fate, k: Path, n: nat)
    requires Case(i, copyOf, p) && Fair(i, p.ops) && n <= |p.ops|
    requires !IsCopy(i, copyOf, k) && Act(i, k) != Leave && Act(i, k) != Forget
    ensures Kept(i, copyOf, p, fate, k, n)
  {
    AfterBegin(i, p, fate);
    SaneBegin(i, copyOf, p);
    BookedAtBegin(i, copyOf, p, k);
    LedgerAtBegin(i, p, k);
    KeptThroughout(i, copyOf, p, fate, k, n);
  }

  lemma SaneNext(i: Inputs, copyOf: Path -> Path, p: SyncPlan, fate: nat -> Fate, n: nat)
    requires Setting(i, copyOf) && n < |p.ops| && Justified(i, copyOf, p.ops, p.ops[n]) && !ReadsReplaced(i, p.ops[n])
    requires Sane(i, copyOf, After(i, p, fate, n))
    ensures Sane(i, copyOf, After(i, p, fate, n + 1))
  {
    AfterStep(i, p, fate, n);
    SaneStep(i, copyOf, p.ops, After(i, p, fate, n), p.ops[n], fate(n));
  }

  lemma {:induction false} SaneThroughout(i: Inputs, copyOf: Path -> Path, p: SyncPlan, fate: nat -> Fate, n: nat)
    requires Setting(i, copyOf) && AllJustified(i, copyOf, p.ops) && SafeOps(i, p.ops) && n <= |p.ops|
    requires Sane(i, copyOf, After(i, p, fate, 0))
    ensures Sane(i, copyOf, After(i, p, fate, n))
    decreases n
  {
    if n > 0 {
      SaneThroughout(i, copyOf, p, fate, n - 1);
      assert p.ops[n - 1] in p.ops && Justified(i, copyOf, p.ops, p.ops[n - 1]);
      SaneNext(i, copyOf, p, fate, n - 1);
    }
  }

  /** Each path of either folder holds a value that comes from one of the two scans. */
  lemma AlwaysSane(i: Inputs, copyOf: Path -> Path, p: SyncPlan, fate: nat -> Fate, n: nat)
    requires Case(i, copyOf, p) && Fair(i, p.ops) && n <= |p.ops|
    ensures Sane(i, copyOf, After(i, p, fate, n))
  {
    AfterBegin(i, p, fate);
    SaneBegin(i, copyOf, p);
    PlanIsJustified(i, copyOf, p.ops);
    SaneThroughout(i, copyOf, p, fate, n);
  }

  // --- the goal of one path, whatever has happened to it --------------------------------------------------------

  lemma CreatingGoal(i: Inputs, k: Path, r: Option<Node>, b: Option<Node>)
    requires Creating(Act(i, k)) && !Reverted(i, k) && (b == i.B(k) || b == r == i.L(k))
    requires r == None || r == i.R(k) || r == i.L(k)
    ensures Merge(i.L(k), r, b) == i.Merged(k)
  {
  }

  lemma PullGoal(i: Inputs, k: Path, l: Option<Node>, b: Option<Node>)
    requires Act(i, k) == Pull && (l == i.L(k) || l == i.R(k)) && (b == i.B(k) || b == l == i.R(k))
    ensures Merge(l, i.R(k), b) == i.Merged(k)
  {
  }

  lemma RemovedGoal(i: Inputs, k: Path, r: Option<Node>, b: Option<Node>)
    requires (Act(i, k) == RemovedRemote || Act(i, k) == RemoveRemoteDir)
    requires (r == None || r == i.R(k)) && (b == i.B(k) || b == r == None)
    ensures Merge(None, r, b) == i.Merged(k)
  {
  }

  /** Paths recorded at once, and those the planner has no business with. */
  lemma IdleGoal(i: Inputs, k: Path, l: Option<Node>, b: Option<Node>)
    requires Act(i, k) in {RecordDir, Same, MirrorDir, DropLocal, Forget, Leave}
    requires l == LocalKeep(i, k) || (i.L(k).None? && IsDir(i.R(k)) && l == Some(Dir))
    requires Act(i, k) == MirrorDir ==> l == Some(Dir)
    requires Act(i, k) == Forget ==> b == None
    requires Act(i, k) == Leave ==> b == i.B(k)
    requires HasChildren(i.local, k) ==> IsDir(i.L(k))
    ensures Merge(l, i.R(k), b) == i.Merged(k)
  {
  }

  // --- what the two folders hold there -----------------------------------------------------------------------------

  lemma NoRemovalAbove(i: Inputs, k: Path, d: Path)
    requires i.Scanned() && Quiet(i) && Under(d, k) && k in i.remote && (i.L(k).Some? || i.R(k) != i.B(k))
    ensures !Removed(i, d)
  {
    if i.L(k).Some? { assert Get(i.local, d) == Some(Dir); }
  }

  /** The server's entry stays where nothing is decided against it. */
  lemma IdleRemote(i: Inputs, copyOf: Path -> Path, p: SyncPlan, fate: nat -> Fate, n: nat, k: Path)
    requires Case(i, copyOf, p) && Quiet(i) && n <= |p.ops| && RemoteSound(i, After(i, p, fate, n).remote)
    requires Act(i, k) in {RecordDir, Same, MirrorDir, DropLocal, Forget, Leave, Pull}
    ensures Get(After(i, p, fate, n).remote, k) == i.R(k)
  {
    assert RemoteOneOf(i, After(i, p, fate, n).remote, k);
    if i.R(k).Some? {
      IdleChanged(i, k);
      forall d | Under(d, k) ensures !Removed(i, d) {
        NoRemovalAbove(i, k, d);
      }
      PlanIsJustified(i, copyOf, p.ops);
      UntakeableStays(i, copyOf, p, fate, n, k);
    }
  }

  lemma IdleChanged(i: Inputs, k: Path)
    requires i.Scanned() && Act(i, k) in {RecordDir, Same, MirrorDir, DropLocal, Forget, Leave, Pull} && i.R(k).Some?
    ensures Act(i, k) != DropLocal && (i.L(k).Some? || i.R(k) != i.B(k))
  {
    assert HasChildren(i.local, k) ==> IsDir(i.L(k));
  }

  lemma IdleLocal(i: Inputs, copyOf: Path -> Path, w: World, k: Path)
    requires Setting(i, copyOf) && Sane(i, copyOf, w) && !IsCopy(i, copyOf, k)
    requires Act(i, k) in {RecordDir, Same, MirrorDir, DropLocal, Forget, Leave}
    ensures var l := Get(w.local, k); l == LocalKeep(i, k) || (i.L(k).None? && IsDir(i.R(k)) && l == Some(Dir))
    ensures Act(i, k) == MirrorDir ==> Get(w.local, k) == Some(Dir)
  {
    assert LocalOneOf(i, w.local, k);
    if y :| Under(k, y) && Arrives(i, y) { ArrivalInRemote(i, y, k); }
  }

  lemma IdleStable(i: Inputs, copyOf: Path -> Path, p: SyncPlan, fate: nat -> Fate, n: nat, k: Path)
    requires Case(i, copyOf, p) && Quiet(i) && SafeOps(i, p.ops) && n <= |p.ops| && !IsCopy(i, copyOf, k)
    requires Act(i, k) in {RecordDir, Same, MirrorDir, DropLocal, Forget, Leave}
    ensures Stopped(i, p, fate, n).Merged(k) == i.Merged(k)
  {
    QuietIsFair(i, p.ops);
    AlwaysSane(i, copyOf, p, fate, n);
    IdleRemote(i, copyOf, p, fate, n, k);
    IdleLocal(i, copyOf, After(i, p, fate, n), k);
    if Act(i, k) == Forget || Act(i, k) == Leave { BaseStays(i, copyOf, p, fate, n, k); }
    assert HasChildren(i.local, k) ==> IsDir(i.L(k));
    IdleGoal(i, k, Get(After(i, p, fate, n).local, k), Get(After(i, p, fate, n).base, k));
  }

  lemma CreatingStable(i: Inputs, copyOf: Path -> Path, w: World, ops: seq<Op>, n: nat, k: Path)
    requires Setting(i, copyOf) && Sane(i, copyOf, w) && Booked(i, ops, n, w, k) && Creating(Act(i, k)) && !Reverted(i, k)
    ensures w.AsInputs().Merged(k) == i.Merged(k)
  {
    LocalStays(i, copyOf, w.local, k);
    assert RemoteOneOf(i, w.remote, k);
    CreatingGoal(i, k, Get(w.remote, k), Get(w.base, k));
  }

  lemma RemovedStable(i: Inputs, copyOf: Path -> Path, w: World, ops: seq<Op>, n: nat, k: Path)
    requires Setting(i, copyOf) && Sane(i, copyOf, w) && Booked(i, ops, n, w, k) && forall d, x :: !Reopened(i, d, x)
    requires Act(i, k) == RemovedRemote || Act(i, k) == RemoveRemoteDir
    ensures w.AsInputs().Merged(k) == i.Merged(k)
  {
    RemovedStaysAway(i, copyOf, w.local, k);
    assert RemoteOneOf(i, w.remote, k);
    RemovedGoal(i, k, Get(w.remote, k), Get(w.base, k));
  }

  lemma PullStable(i: Inputs, copyOf: Path -> Path, w: World, ops: seq<Op>, n: nat, k: Path)
    requires Setting(i, copyOf) && Sane(i, copyOf, w) && Booked(i, ops, n, w, k) && Act(i, k) == Pull
    requires Get(w.remote, k) == i.R(k)
    ensures w.AsInputs().Merged(k) == i.Merged(k)
  {
    NotACopy(i, copyOf, k);
    assert LocalOneOf(i, w.local, k);
    if y :| Under(k, y) && Arrives(i, y) { ArrivalInRemote(i, y, k); }
    PullGoal(i, k, Get(w.local, k), Get(w.base, k));
  }

  /** The goal does not move: whatever failed and wherever the run stops, what is left to
      do still merges to the same result. */
  lemma GoalStable(i: Inputs, copyOf: Path -> Path, p: SyncPlan, fate: nat -> Fate, n: nat, k: Path)
    requires Case(i, copyOf, p) && Quiet(i) && SafeOps(i, p.ops) && n <= |p.ops|
    requires !IsCopy(i, copyOf, k) && !Reverted(i, k)
    ensures Stopped(i, p, fate, n).Merged(k) == i.Merged(k)
  {
    if Act(i, k) in {RecordDir, Same, MirrorDir, DropLocal, Forget, Leave} {
      IdleStable(i, copyOf, p, fate, n, k);
    } else {
      QuietIsFair(i, p.ops);
      AlwaysKept(i, copyOf, p, fate, k, n);
      if Act(i, k) == Pull {
        IdleRemote(i, copyOf, p, fate, n, k);
        PullStable(i, copyOf, After(i, p, fate, n), p.ops, n, k);
      } else if Creating(Act(i, k)) {
        CreatingStable(i, copyOf, After(i, p, fate, n), p.ops, n, k);
      } else {
        RemovedStable(i, copyOf, After(i, p, fate, n), p.ops, n, k);
      }
    }
  }

  /** State when the client stops after operation n took effect and before its baseline
      entry was saved. */
  ghost function Unrecorded(i: Inputs, p: SyncPlan, fate: nat -> Fate, n: nat): Inputs
    requires n < |p.ops|
  {
    Inputs(After(i, p, fate, n + 1).local, After(i, p, fate, n + 1).remote, After(i, p, fate, n).base)
  }

  lemma AgreeingGoal(l: Option<Node>, b: Option<Node>)
    ensures Merge(l, l, b) == l
  {
  }

  lemma UnrecordedStep(i: Inputs, copyOf: Path -> Path, ops: seq<Op>, w: World, o: Op, fate: Fate, k: Path)
    requires Setting(i, copyOf) && Fair(i, ops) && o in ops && Justified(i, copyOf, ops, o) && Sane(i, copyOf, w)
    ensures var v := Step(i, w, o, fate); Get(v.base, k) == Get(w.base, k) || Get(v.local, k) == Get(v.remote, k)
  {
    if Records(o, k) && Accepted(w, o) && fate.Goes? {
      RecordedIsSettled(i, copyOf, ops, w, o, k);
    } else {
      BaseStepAt(i, copyOf, ops, w, o, fate, k);
    }
  }

  /** Nor does the goal move when the last operation is left unrecorded. */
  lemma GoalStableUnrecorded(i: Inputs, copyOf: Path -> Path, p: SyncPlan, fate: nat -> Fate, n: nat, k: Path)
    requires Case(i, copyOf, p) && Quiet(i) && SafeOps(i, p.ops) && n < |p.ops|
    requires !IsCopy(i, copyOf, k) && !Reverted(i, k)
    ensures Unrecorded(i, p, fate, n).Merged(k) == i.Merged(k)
  {
    var j, u := Stopped(i, p, fate, n + 1), Unrecorded(i, p, fate, n);
    GoalStable(i, copyOf, p, fate, n + 1, k);
    QuietIsFair(i, p.ops);
    AlwaysSane(i, copyOf, p, fate, n);
    AfterStep(i, p, fate, n);
    assert p.ops[n] in p.ops && Justified(i, copyOf, p.ops, p.ops[n]);
    UnrecordedStep(i, copyOf, p.ops, After(i, p, fate, n), p.ops[n], fate(n), k);
    if j.L(k) == j.R(k) {
      AgreeingGoal(j.L(k), j.B(k));
      AgreeingGoal(j.L(k), u.B(k));
    }
  }

  // --- the other half: four ways to move the goal --------------------------------------------------------------------

  ghost predicate AlwaysStable(i: Inputs, copyOf: Path -> Path, p: SyncPlan) {
    forall fate: nat -> Fate, n: nat, k ::
      n <= |p.ops| && !IsCopy(i, copyOf, k) ==> Stopped(i, p, fate, n).Merged(k) == i.Merged(k)
  }

  lemma Moved(i: Inputs, copyOf: Path -> Path, p: SyncPlan, fate: nat -> Fate, n: nat, k: Path)
    requires n <= |p.ops| && !IsCopy(i, copyOf, k) && Stopped(i, p, fate, n).Merged(k) != i.Merged(k)
    ensures !AlwaysStable(i, copyOf, p)
  {
  }

  lemma OnlyRmdir(i: Inputs, p: SyncPlan, m: nat, x: Path)
    requires m < |p.ops| && p.ops[m].Rmdir? && IsDir(i.R(p.ops[m].key)) && AtOrUnder(p.ops[m].key, x)
    ensures x !in After(i, p, Alone(m), m + 1).remote
    ensures !p.ops[m].drop ==> After(i, p, Alone(m), m + 1).base == Begin(i, p).base
  {
    JustBefore(i, p, m);
    AfterStep(i, p, Alone(m), m);
  }

  lemma QueuedReplacement(i: Inputs, copyOf: Path -> Path, ops: seq<Op>, k: Path) returns (m: nat)
    requires OpsFor(i, copyOf, ops) && Act(i, k) == ReplaceDirByFile
    ensures m < |ops| && ops[m] == Rmdir(k, false)
  {
    assert k in i.Keys() && Answered(i, copyOf, ops, k);
    m :| m < |ops| && ops[m] == Rmdir(k, false);
  }

  /** Stopping between the RMDIR and the UPLOAD of a reverted path makes the next SYNC
      delete the local file as well. */
  lemma RevertedIsLost(i: Inputs, copyOf: Path -> Path, p: SyncPlan, k: Path) returns (m: nat)
    requires Case(i, copyOf, p) && Reverted(i, k)
    ensures m < |p.ops| && !IsCopy(i, copyOf, k)
    ensures i.Merged(k) == i.L(k) && Stopped(i, p, Alone(m), m + 1).Merged(k) == None
  {
    NotACopy(i, copyOf, k);
    m := QueuedReplacement(i, copyOf, p.ops, k);
    OnlyRmdir(i, p, m, k);
    BeginBaseAt(i, p, k);
    AlwaysSteady(i, copyOf, p, Alone(m), m + 1);
    LocalStays(i, copyOf, After(i, p, Alone(m), m + 1).local, k);
  }

  lemma NoisyGoal(i: Inputs, d: Path, x: Path)
    requires i.Scanned() && Removed(i, d) && x in i.remote && Under(d, x) && i.B(x) != i.R(x)
    ensures i.L(x).None? && i.Merged(x) == i.R(x)
  {
    NoChildrenBelow(i, d, x);
  }

  lemma FailedNoFile(i: Inputs, w: World, o: Op, x: Path)
    requires !IsFile(Get(w.local, x))
    ensures !IsFile(Get(Step(i, w, o, Fails).local, x))
  {
  }

  lemma {:induction false} NoFileSoFar(i: Inputs, p: SyncPlan, fate: nat -> Fate, n: nat, x: Path)
    requires n <= |p.ops| && (forall m: nat :: m < n ==> fate(m) == Fails) && !IsFile(Get(After(i, p, fate, 0).local, x))
    ensures !IsFile(Get(After(i, p, fate, n).local, x))
  {
    if n > 0 {
      NoFileSoFar(i, p, fate, n - 1, x);
      AfterStep(i, p, fate, n - 1);
      FailedNoFile(i, After(i, p, fate, n - 1), p.ops[n - 1], x);
    }
  }

  lemma NoFileBefore(i: Inputs, copyOf: Path -> Path, p: SyncPlan, m: nat, x: Path)
    requires Setting(i, copyOf) && LocalPathsFor(i, p) && m < |p.ops| && p.ops[m].Rmdir? && i.L(x).None?
    ensures !IsFile(Get(After(i, p, Alone(m), m + 1).local, x))
  {
    AfterBegin(i, p, Alone(m));
    MadeSound(i, copyOf, p.localMkdirs);
    assert MadeOneOf(i, MakeLocalDirs(i.local, p.localMkdirs), x);
    NoFileSoFar(i, p, Alone(m), m, x);
    AfterStep(i, p, Alone(m), m);
    OtherLocal(i, After(i, p, Alone(m), m), p.ops[m], Goes);
  }

  lemma NoisyMoved(i: Inputs, copyOf: Path -> Path, p: SyncPlan, m: nat, d: Path, x: Path)
    requires Setting(i, copyOf) && LocalPathsFor(i, p) && m < |p.ops| && p.ops[m].Rmdir? && p.ops[m].key == d
    requires Removed(i, d) && x in i.remote && Under(d, x) && i.B(x) != i.R(x)
    requires Get(After(i, p, Alone(m), m + 1).local, x) == None
    ensures Stopped(i, p, Alone(m), m + 1).Merged(x) != i.Merged(x)
  {
    NoisyGoal(i, d, x);
    OnlyRmdir(i, p, m, x);
  }

  lemma DirMoved(i: Inputs, copyOf: Path -> Path, p: SyncPlan, m: nat, d: Path, x: Path)
    requires Case(i, copyOf, p) && m < |p.ops| && p.ops[m].Rmdir? && Removed(i, d) && Under(d, x)
    requires x in i.remote && i.L(x).None? && Get(After(i, p, Alone(m), m + 1).local, x) != None
    ensures Stopped(i, p, Alone(m), m + 1).Merged(d) != i.Merged(d)
  {
    NotACopy(i, copyOf, x);
    NoFileBefore(i, copyOf, p, m, x);
    AlwaysSteady(i, copyOf, p, Alone(m), m + 1);
    LocalIsTree(i, copyOf, p, Alone(m), m + 1);
    ComesBack(i, copyOf, After(i, p, Alone(m), m + 1).local, d, x);
  }

  /** Either the noisy path itself, or the directory above it that came back. */
  lemma NoisyAt(i: Inputs, copyOf: Path -> Path, p: SyncPlan, m: nat, d: Path, x: Path) returns (y: Path)
    requires Case(i, copyOf, p) && m < |p.ops| && p.ops[m].Rmdir? && p.ops[m].key == d
    requires Removed(i, d) && x in i.remote && Under(d, x) && i.B(x) != i.R(x)
    ensures (y == d || y == x) && Stopped(i, p, Alone(m), m + 1).Merged(y) != i.Merged(y)
  {
    NoisyGoal(i, d, x);
    if Get(After(i, p, Alone(m), m + 1).local, x) == None {
      NoisyMoved(i, copyOf, p, m, d, x);
      y := x;
    } else {
      DirMoved(i, copyOf, p, m, d, x);
      y := d;
    }
  }

  lemma RemovedIsKey(i: Inputs, d: Path)
    requires Removed(i, d)
    ensures d in i.Keys()
  {
  }

  lemma NoisyMoves(i: Inputs, copyOf: Path -> Path, p: SyncPlan, d: Path, x: Path)
    requires Case(i, copyOf, p) && Removed(i, d) && x in i.remote && Under(d, x) && i.B(x) != i.R(x)
    ensures !AlwaysStable(i, copyOf, p)
  {
    var m := RmdirQueued(i, copyOf, p.ops, d);
    var y := NoisyAt(i, copyOf, p, m, d, x);
    RemovedIsKey(i, d);
    NotACopy(i, copyOf, y);
    Moved(i, copyOf, p, Alone(m), m + 1, y);
  }

  lemma ComesBack(i: Inputs, copyOf: Path -> Path, t: Tree, d: Path, x: Path)
    requires Setting(i, copyOf) && LocalSound(i, copyOf, t) && TreeShaped(t) && !IsCopy(i, copyOf, x)
    requires Removed(i, d) && Under(d, x) && i.L(x).None? && Get(t, x) != None && !IsFile(Get(t, x))
    ensures Get(t, d) == Some(Dir) && i.Merged(d) == None
  {
    assert LocalOneOf(i, t, x);
    PulledIsFile(i, x);
    assert !Blocked(i, x);
    assert !IsFile(i.L(d));
    DroppedIsMerge(i, d);
  }

  lemma PulledIsFile(i: Inputs, x: Path)
    ensures Act(i, x) == Pull ==> IsFile(i.R(x))
  {
  }

  lemma CopyRecords(i: Inputs, w: World, o: Op)
    requires o.Copy? && Accepted(w, o) && IsFile(i.L(o.to))
    ensures var v := Effect(i, w, o);
            Get(v.base, o.to) == i.L(o.to) && Get(v.remote, o.to) == Get(w.remote, o.from) && v.local == w.local
  {
    BaseEffectAt(i, w, o, o.to);
  }

  lemma ReplacedMoves(i: Inputs, copyOf: Path -> Path, p: SyncPlan, m: nat)
    requires Case(i, copyOf, p) && m < |p.ops| && ReadsReplaced(i, p.ops[m])
    ensures !AlwaysStable(i, copyOf, p)
  {
    var o, fate := p.ops[m], Cleared(p.ops, m);
    assert o in p.ops && Justified(i, copyOf, p.ops, o);
    ReplacedSource(i, copyOf, p.ops, o);
    CopyGetsThrough(i, copyOf, p, m);
    AfterStep(i, p, fate, m);
    CopyRecords(i, After(i, p, fate, m), o);
    AlwaysSteady(i, copyOf, p, fate, m + 1);
    LocalStays(i, copyOf, After(i, p, fate, m + 1).local, o.to);
    PutIsMerge(i, copyOf, p.ops, o, o.to);
    NotACopy(i, copyOf, o.to);
    Moved(i, copyOf, p, fate, m + 1, o.to);
  }

  lemma UploadRecords(i: Inputs, w: World, k: Path)
    requires Accepted(w, Upload(k)) && !Reachable(w.remote, k) && i.L(k).Some?
    ensures var v := Effect(i, w, Upload(k)); Get(v.base, k) == i.L(k) && Get(v.remote, k) == None && v.local == w.local
  {
  }

  lemma ClashMoves(i: Inputs, copyOf: Path -> Path, p: SyncPlan, m: nat)
    requires Case(i, copyOf, p) && m < |p.ops| && UploadsBelowClash(i, p.ops[m])
    ensures !AlwaysStable(i, copyOf, p)
  {
    var k, fate := p.ops[m].key, Alone(m);
    assert p.ops[m] in p.ops && Justified(i, copyOf, p.ops, p.ops[m]);
    BelowClash(i, copyOf, p.ops, k);
    UploadGetsThrough(i, copyOf, p, m);
    AfterStep(i, p, fate, m);
    UploadRecords(i, After(i, p, fate, m), k);
    AlwaysSteady(i, copyOf, p, fate, m + 1);
    LocalStays(i, copyOf, After(i, p, fate, m + 1).local, k);
    PutIsMerge(i, copyOf, p.ops, p.ops[m], k);
    NotACopy(i, copyOf, k);
    Moved(i, copyOf, p, fate, m + 1, k);
  }

  lemma UnsafeOpMoves(i: Inputs, copyOf: Path -> Path, p: SyncPlan)
    requires Case(i, copyOf, p) && !SafeOps(i, p.ops)
    ensures !AlwaysStable(i, copyOf, p)
  {
    var o :| o in p.ops && (ReadsReplaced(i, o) || UploadsBelowClash(i, o));
    var m := Queued(p.ops, o);
    if ReadsReplaced(i, o) { ReplacedMoves(i, copyOf, p, m); } else { ClashMoves(i, copyOf, p, m); }
  }

  lemma RevertedMoves(i: Inputs, copyOf: Path -> Path, p: SyncPlan)
    requires Case(i, copyOf, p) && !NoneReverted(i)
    ensures !AlwaysStable(i, copyOf, p)
  {
    var k :| Reverted(i, k);
    var m := RevertedIsLost(i, copyOf, p, k);
    Moved(i, copyOf, p, Alone(m), m + 1, k);
  }

  lemma UnquietMoves(i: Inputs, copyOf: Path -> Path, p: SyncPlan)
    requires Case(i, copyOf, p) && !Quiet(i)
    ensures !AlwaysStable(i, copyOf, p)
  {
    var d, x :| Act(i, d) in {RemoveRemoteDir, ReplaceDirByFile} && x in i.remote && Under(d, x) && i.B(x) != i.R(x);
    NoisyMoves(i, copyOf, p, d, x);
  }

  /** For all scans of real trees and any baseline: a SYNC may be stopped anywhere, after
      any failures, without changing what the next one aims at, if and only if nothing
      new lies below a removed directory, no unedited local file faces a server
      directory, no copy reads from a replaced path and no upload goes below a server
      file. */
  lemma InterruptSafeExactlyWhen(i: Inputs, copyOf: Path -> Path, p: SyncPlan)
    requires Case(i, copyOf, p)
    ensures AlwaysStable(i, copyOf, p) <==> Quiet(i) && NoneReverted(i) && SafeOps(i, p.ops)
  {
    if Quiet(i) && NoneReverted(i) && SafeOps(i, p.ops) {
      forall fate: nat -> Fate, n: nat, k | n <= |p.ops| && !IsCopy(i, copyOf, k)
        ensures Stopped(i, p, fate, n).Merged(k) == i.Merged(k)
      {
        assert !Reverted(i, k);
        GoalStable(i, copyOf, p, fate, n, k);
      }
    } else if !Quiet(i) {
      UnquietMoves(i, copyOf, p);
    } else if !NoneReverted(i) {
      RevertedMoves(i, copyOf, p);
    } else {
      UnsafeOpMoves(i, copyOf, p);
    }
  }

  // --- the second run meets the conditions again -----------------------------------------------------------------------

  /** A conflict copy is known here only. */
  lemma CopiesStayLocal(i: Inputs, copyOf: Path -> Path, p: SyncPlan, fate: nat -> Fate, n: nat, k: Path)
    requires Case(i, copyOf, p) && Fair(i, p.ops) && n <= |p.ops| && IsCopy(i, copyOf, k)
    ensures var j := Stopped(i, p, fate, n); j.R(k) == None && j.B(k) == None
  {
    assert k !in i.Keys() && Act(i, k) == Leave;
    AlwaysSane(i, copyOf, p, fate, n);
    assert RemoteOneOf(i, After(i, p, fate, n).remote, k);
    BaseStays(i, copyOf, p, fate, n, k);
  }

  /** What is known about a path that has an entry on the server. */
  lemma WithEntry(i: Inputs, copyOf: Path -> Path, p: SyncPlan, fate: nat -> Fate, n: nat, k: Path)
    requires Case(i, copyOf, p) && Fair(i, p.ops) && n <= |p.ops| && !IsCopy(i, copyOf, k)
    ensures var j := Stopped(i, p, fate, n);
            || j.B(k) == i.B(k)
            || (j.B(k) == j.L(k) && j.B(k) == j.R(k))
            || (Act(i, k) == Forget && j.B(k) == None)
    ensures var j := Stopped(i, p, fate, n); IsFile(j.R(k)) && j.R(k) != i.R(k) ==> j.B(k) == j.R(k)
  {
    if Act(i, k) == Leave || Act(i, k) == Forget {
      BaseStays(i, copyOf, p, fate, n, k);
      AlwaysSane(i, copyOf, p, fate, n);
      assert RemoteOneOf(i, After(i, p, fate, n).remote, k);
    } else {
      AlwaysKept(i, copyOf, p, fate, k, n);
    }
  }

  lemma KindsAgain(i: Inputs, copyOf: Path -> Path, p: SyncPlan, fate: nat -> Fate, n: nat, k: Path)
    requires Case(i, copyOf, p) && Fair(i, p.ops) && NoStaleKinds(i) && n <= |p.ops|
    ensures !StaleKind(Stopped(i, p, fate, n), k)
  {
    if IsCopy(i, copyOf, k) {
      CopiesStayLocal(i, copyOf, p, fate, n, k);
    } else {
      assert !StaleKind(i, k);
      AlwaysSane(i, copyOf, p, fate, n);
      WithEntry(i, copyOf, p, fate, n, k);
      assert RemoteOneOf(i, After(i, p, fate, n).remote, k);
      KindsAt(i, copyOf, After(i, p, fate, n), k);
    }
  }

  lemma KindsAt(i: Inputs, copyOf: Path -> Path, w: World, k: Path)
    requires Setting(i, copyOf) && LocalSound(i, copyOf, w.local) && RemoteOneOf(i, w.remote, k) && !StaleKind(i, k)
    requires Get(w.base, k) == i.B(k) || Settled(w, k) || Get(w.base, k) == None
    requires IsFile(Get(w.remote, k)) && Get(w.remote, k) != i.R(k) ==> Get(w.base, k) == Get(w.remote, k)
    ensures !StaleKind(w.AsInputs(), k)
  {
    if i.L(k).Some? && Act(i, k) != Pull && Act(i, k) != DropLocal {
      LocalStays(i, copyOf, w.local, k);
    }
  }

  lemma QuietAgain(i: Inputs, copyOf: Path -> Path, p: SyncPlan, fate: nat -> Fate, n: nat, d: Path, x: Path)
    requires Case(i, copyOf, p) && Quiet(i) && NoStaleKinds(i) && SafeOps(i, p.ops) && n <= |p.ops|
    requires var j := Stopped(i, p, fate, n); x in j.remote && Under(d, x) && j.B(x) != j.R(x)
    ensures IsDir(Stopped(i, p, fate, n).L(d))
  {
    QuietIsFair(i, p.ops);
    AlwaysSane(i, copyOf, p, fate, n);
    if IsCopy(i, copyOf, x) {
      CopiesStayLocal(i, copyOf, p, fate, n, x);
    } else {
      WithEntry(i, copyOf, p, fate, n, x);
      assert RemoteOneOf(i, After(i, p, fate, n).remote, x);
      ParentHere(i, copyOf, After(i, p, fate, n), d, x);
    }
  }

  lemma ParentHere(i: Inputs, copyOf: Path -> Path, w: World, d: Path, x: Path)
    requires Setting(i, copyOf) && Quiet(i) && NoStaleKinds(i) && Sane(i, copyOf, w) && RemoteOneOf(i, w.remote, x)
    requires x in w.remote && Under(d, x) && Get(w.base, x) != Get(w.remote, x)
    requires Get(w.base, x) == i.B(x) || Settled(w, x) || (Act(i, x) == Forget && Get(w.base, x) == None)
    ensures IsDir(Get(w.local, d))
  {
    if Get(w.remote, x) == i.R(x) {
      assert !StaleKind(i, x);
      ForgetIsStale(i, x);
      PulledParent(i, x, d);
      if i.L(d).Some? { LocalStays(i, copyOf, w.local, d); }
    } else {
      assert Get(i.local, d) == Some(Dir);
      LocalStays(i, copyOf, w.local, d);
    }
  }

  lemma ForgetIsStale(i: Inputs, x: Path)
    requires x in i.remote && !StaleKind(i, x)
    ensures Act(i, x) != Forget
  {
  }

  /** What is left to do meets the conditions on the scans again. */
  lemma CalmAgain(i: Inputs, copyOf: Path -> Path, p: SyncPlan, fate: nat -> Fate, n: nat)
    requires Case(i, copyOf, p) && Quiet(i) && NoStaleKinds(i) && SafeOps(i, p.ops) && n <= |p.ops|
    ensures Stopped(i, p, fate, n).Scanned() && Quiet(Stopped(i, p, fate, n)) && NoStaleKinds(Stopped(i, p, fate, n))
  {
    var j := Stopped(i, p, fate, n);
    LocalIsTree(i, copyOf, p, fate, n);
    RemoteIsTree(i, p, fate, n);
    forall d, x | Act(j, d) in {RemoveRemoteDir, ReplaceDirByFile} && x in j.remote && Under(d, x)
      ensures j.B(x) == j.R(x)
    {
      if j.B(x) != j.R(x) {
        QuietAgain(i, copyOf, p, fate, n, d, x);
      }
    }
    QuietIsFair(i, p.ops);
    forall k ensures !StaleKind(j, k) {
      KindsAgain(i, copyOf, p, fate, n, k);
    }
  }

  /** Interrupt and re-sync: stop after any number of operations and any failures, plan
      again from what is there, run that plan, and every original path ends as the first
      SYNC would have left it. */
  lemma ResyncReachesMerge(i: Inputs, copyOf: Path -> Path, p: SyncPlan, fate: nat -> Fate, n: nat, copyOf': Path -> Path, p': SyncPlan)
    requires Case(i, copyOf, p) && Quiet(i) && NoStaleKinds(i) && SafeOps(i, p.ops) && NoneReverted(i) && n <= |p.ops|
    requires PlanFor(Stopped(i, p, fate, n), copyOf', p') && FreshCopies(Stopped(i, p, fate, n), copyOf')
    requires NoEmptyTransfers(Stopped(i, p, fate, n), p'.ops)
    ensures var w := Finish(Stopped(i, p, fate, n), p');
            forall k :: k in i.Keys() && !IsCopy(Stopped(i, p, fate, n), copyOf', k) ==>
              Get(w.remote, k) == i.Merged(k) && Get(w.local, k) == i.Merged(k) && Get(w.base, k) == i.Merged(k)
  {
    var j := Stopped(i, p, fate, n);
    CalmAgain(i, copyOf, p, fate, n);
    GoodConverges(j, copyOf', p');
    forall k | k in i.Keys() ensures j.Merged(k) == i.Merged(k) {
      NotACopy(i, copyOf, k);
      assert !Reverted(i, k);
      GoalStable(i, copyOf, p, fate, n, k);
    }
  }

  // --- the fixed point -----------------------------------------------------------------------------

  /** Nothing left to do: no operation, no local work, no conflict, and every file
      counted as skipped. */
  predicate NothingToDo(p: SyncPlan) {
    p.ops == [] && p.localMkdirs == [] && p.localDeletes == [] && p.baselineDrop == [] && p.conflicts == []
  }

  lemma AgreeingAct(i: Inputs, k: Path)
    requires i.L(k) == i.R(k) && i.R(k) == i.B(k)
    ensures Act(i, k) == if i.L(k).None? then Leave else if IsDir(i.L(k)) then RecordDir else Same
  {
  }

  ghost predicate Agreed(i: Inputs) {
    forall k :: i.L(k) == i.R(k) == i.B(k)
  }

  lemma AgreementNeedsNoOps(i: Inputs, copyOf: Path -> Path, ops: seq<Op>)
    requires Agreed(i) && OpsFor(i, copyOf, ops)
    ensures ops == []
  {
    forall o | o in ops ensures false {
      assert Justified(i, copyOf, ops, o);
      AgreeingAct(i, if o.Move? || o.Copy? then o.to else o.key);
    }
    if ops != [] {
      HasMember(ops);
    }
  }

  lemma HasMember<T>(s: seq<T>)
    requires s != []
    ensures exists x :: x in s
  {
    assert s[0] in s;
  }

  lemma NoMember(s: seq<Path>)
    requires forall k :: k !in s
    ensures s == []
  {
    if s != [] {
      HasMember(s);
    }
  }

  lemma AgreedSkips(i: Inputs)
    requires Agreed(i)
    ensures Unchanged(i) == set k | k in i.local && i.local[k].File?
  {
    forall k ensures k in Unchanged(i) <==> k in i.local && i.local[k].File? {
      AgreeingAct(i, k);
    }
  }

  lemma AgreementIsQuiet(i: Inputs, copyOf: Path -> Path, p: SyncPlan)
    requires Agreed(i) && PlanFor(i, copyOf, p)
    ensures NothingToDo(p) && p.skipped == |set k | k in i.local && i.local[k].File?|
  {
    AgreementNeedsNoOps(i, copyOf, p.ops);
    AgreedSkips(i);
    forall k ensures Act(i, k) in {Leave, RecordDir, Same} {
      AgreeingAct(i, k);
    }
    NoMember(p.localMkdirs);
    NoMember(p.localDeletes);
    NoMember(p.baselineDrop);
    NoMember(p.conflicts);
  }

  /** Fixed point: after a complete SYNC without conflict copies, the next plan is
      empty. */
  lemma SyncTwiceIsSyncOnce(i: Inputs, copyOf: Path -> Path, p: SyncPlan, copyOf': Path -> Path, p': SyncPlan)
    requires Case(i, copyOf, p) && Good(i, p.ops)
    requires forall k :: Act(i, k) != Conflict
    requires PlanFor(Finish(i, p).AsInputs(), copyOf', p')
    ensures NothingToDo(p')
    ensures var t := Finish(i, p).local; p'.skipped == |set k | k in t && t[k].File?|
  {
    GoodConverges(i, copyOf, p);
    var j := Finish(i, p).AsInputs();
    forall k ensures j.L(k) == j.R(k) == j.B(k) {
      assert !IsCopy(i, copyOf, k);
    }
    AgreementIsQuiet(j, copyOf', p');
  }
}
