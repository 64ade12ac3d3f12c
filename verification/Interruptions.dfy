/** Any number of interrupted SYNCs with any failures, each planned from what the one before left,
    and one complete SYNC at the end. */
module Interruptions {
  import opened Paths
  import opened Trees
  import opened Plans
  import opened Execution
  import opened Refinement
  import opened Convergence
  import opened Accounting
  import opened Honesty
  import opened Resync

  /** One SYNC, with any failures, stopped after the first stop operations of its plan. */
  datatype Attempt = Attempt(copyOf: Path -> Path, plan: SyncPlan, fate: nat -> Fate, stop: nat)

  ghost predicate Sound(i: Inputs, a: Attempt) {
    && PlanFor(i, a.copyOf, a.plan) && FreshCopies(i, a.copyOf) && a.stop <= |a.plan.ops|
    && SafeOps(i, a.plan.ops)
  }

  ghost predicate Chain(i: Inputs, attempts: seq<Attempt>)
    decreases |attempts|
  {
    attempts != [] ==>
      Sound(i, attempts[0]) && Chain(Stopped(i, attempts[0].plan, attempts[0].fate, attempts[0].stop), attempts[1..])
  }

  ghost function Left(i: Inputs, attempts: seq<Attempt>): Inputs
    requires Chain(i, attempts)
    decreases |attempts|
  {
    if attempts == [] then i else Left(Stopped(i, attempts[0].plan, attempts[0].fate, attempts[0].stop), attempts[1..])
  }

  /** No attempt took k as the name of a conflict copy. */
  ghost predicate NeverCopy(i: Inputs, attempts: seq<Attempt>, k: Path)
    requires Chain(i, attempts)
    decreases |attempts|
  {
    attempts != [] ==>
      !IsCopy(i, attempts[0].copyOf, k)
      && NeverCopy(Stopped(i, attempts[0].plan, attempts[0].fate, attempts[0].stop), attempts[1..], k)
  }

  /** What the first scans must satisfy. */
  ghost predicate Fit(i: Inputs) {
    i.Scanned() && Quiet(i) && NoStaleKinds(i) && NoneReverted(i)
  }

  lemma NotRevertedAt(i: Inputs, copyOf: Path -> Path, w: World, k: Path)
    requires Setting(i, copyOf) && Sane(i, copyOf, w) && !IsCopy(i, copyOf, k) && !Reverted(i, k)
    requires Get(w.base, k) == i.B(k) || Settled(w, k) || Get(w.base, k) == None
    ensures !Reverted(w.AsInputs(), k)
  {
    assert LocalOneOf(i, w.local, k) && RemoteOneOf(i, w.remote, k);
  }

  lemma NotRevertedAgain(i: Inputs, a: Attempt, k: Path)
    requires Fit(i) && Sound(i, a)
    ensures !Reverted(Stopped(i, a.plan, a.fate, a.stop), k)
  {
    QuietIsFair(i, a.plan.ops);
    if IsCopy(i, a.copyOf, k) {
      CopiesStayLocal(i, a.copyOf, a.plan, a.fate, a.stop, k);
    } else {
      assert !Reverted(i, k);
      AlwaysSane(i, a.copyOf, a.plan, a.fate, a.stop);
      WithEntry(i, a.copyOf, a.plan, a.fate, a.stop, k);
      NotRevertedAt(i, a.copyOf, After(i, a.plan, a.fate, a.stop), k);
    }
  }

  /** One attempt leaves scans that are as fit as those it started from. */
  lemma FitAgain(i: Inputs, a: Attempt)
    requires Fit(i) && Sound(i, a)
    ensures Fit(Stopped(i, a.plan, a.fate, a.stop))
  {
    CalmAgain(i, a.copyOf, a.plan, a.fate, a.stop);
    forall k ensures !Reverted(Stopped(i, a.plan, a.fate, a.stop), k) {
      NotRevertedAgain(i, a, k);
    }
  }

  /** However often SYNC is interrupted, the goal of every path stays what it was. */
  lemma {:induction false} GoalStableThroughout(i: Inputs, attempts: seq<Attempt>, k: Path)
    requires Fit(i) && Chain(i, attempts) && NeverCopy(i, attempts, k)
    ensures Fit(Left(i, attempts)) && Left(i, attempts).Merged(k) == i.Merged(k)
    decreases |attempts|
  {
    if attempts != [] {
      var a := attempts[0];
      FitAgain(i, a);
      assert !Reverted(i, k);
      GoalStable(i, a.copyOf, a.plan, a.fate, a.stop, k);
      GoalStableThroughout(Stopped(i, a.plan, a.fate, a.stop), attempts[1..], k);
    }
  }

  /** After any number of interrupted SYNCs, a complete one leaves every path that
      was not used for a conflict copy at the merge of the very first scans. */
  lemma InterruptedSyncsReachMerge(i: Inputs, attempts: seq<Attempt>, copyOf: Path -> Path, p: SyncPlan, k: Path)
    requires Fit(i) && Chain(i, attempts) && NeverCopy(i, attempts, k)
    requires PlanFor(Left(i, attempts), copyOf, p) && FreshCopies(Left(i, attempts), copyOf)
    requires NoEmptyTransfers(Left(i, attempts), p.ops) && !IsCopy(Left(i, attempts), copyOf, k)
    ensures var w := Finish(Left(i, attempts), p);
            Get(w.remote, k) == i.Merged(k) && Get(w.local, k) == i.Merged(k) && Get(w.base, k) == i.Merged(k)
  {
    GoalStableThroughout(i, attempts, k);
    GoodConverges(Left(i, attempts), copyOf, p);
  }
}
