/** The batch engine: one queue drained one operation at a time, with a guard that
    turns synchronous failures into a loop instead of recursion. */
module Batch {
  import opened Induction
  import opened Trees
  import opened Plans
  import opened Execution

  datatype Counters = Counters(
    uploaded: nat, downloaded: nat, deleted: nat, moved: nat, copied: nat, dirs: nat, failed: nat)
  {
    function Sum(): nat { uploaded + downloaded + deleted + moved + copied + dirs + failed }
  }

  const Zero := Counters(0, 0, 0, 0, 0, 0, 0)

  function CountSuccess(c: Counters, o: Op): Counters {
    match o
    case Mkdir(_) => c.(dirs := c.dirs + 1)
    case Rmdir(_, _) => c.(deleted := c.deleted + 1)
    case PreDelete(_) => c.(deleted := c.deleted + 1)
    case Delete(_, _) => c.(deleted := c.deleted + 1)
    case Move(_, _) => c.(moved := c.moved + 1)
    case Copy(_, _) => c.(copied := c.copied + 1)
    case Upload(_) => c.(uploaded := c.uploaded + 1)
    case Download(_) => c.(downloaded := c.downloaded + 1)
    case ConflictDownload(_, _) => c.(downloaded := c.downloaded + 1)
  }

  /** A directory that already exists is the normal case and not counted. */
  function CountFailure(c: Counters, o: Op): Counters {
    if o.Mkdir? then c else c.(failed := c.failed + 1)
  }

  function CountRemovals(c: Counters, removed: seq<bool>): Counters {
    if removed == [] then c else
    var d := CountRemovals(c, removed[..|removed| - 1]);
    if removed[|removed| - 1] then d.(deleted := d.deleted + 1) else d.(failed := d.failed + 1)
  }

  function LocalWork(c: Counters, newDirs: nat, removed: seq<bool>): Counters {
    CountRemovals(c.(dirs := c.dirs + newDirs), removed)
  }

  /** Baseline after the success of o: drop the old key, then record the new one. */
  function Record(i: Inputs, base: Tree, o: Op): Tree {
    match o
    case Mkdir(k) => Put(base, k, i.L(k))
    case Upload(k) => Put(base, k, i.L(k))
    case Copy(_, t) => Put(base, t, i.L(t))
    case Move(f, t) => Put(Drop(base, f), t, i.L(t))
    case Download(k) => Put(base, k, i.R(k))
    case Delete(k, drop) => if drop then Drop(base, k) else base
    case Rmdir(k, drop) => if drop then Drop(base, k) else base
    case _ => base
  }

  /** Everything observable about a batch; log and results are its history. */
  datatype View = View(
    active: bool, queue: seq<Op>, current: Option<Op>, counters: Counters, syncing: bool, stored: Tree,
    log: seq<Op>, results: seq<bool>, finishes: nat)

  function Started(v: View): View
    requires v.queue != []
  {
    v.(current := Some(v.queue[0]), queue := v.queue[1..], log := v.log + [v.queue[0]])
  }

  function Finished(i: Inputs, v: View, ok: bool): View {
    if v.current.None? then v else
    var o := v.current.value;
    v.(current := None, results := v.results + [ok],
       counters := if ok then CountSuccess(v.counters, o) else CountFailure(v.counters, o),
       stored := if ok && v.syncing then Record(i, v.stored, o) else v.stored)
  }

  function Closed(v: View): View {
    v.(active := false, queue := [], current := None, syncing := false, finishes := v.finishes + 1)
  }

  /** Start operations until one is really in flight or none is left. */
  function Drain(i: Inputs, failsHere: nat -> bool, v: View): View
    decreases |v.queue|
  {
    if v.queue == [] then Closed(v)
    else
      var w := Started(v);
      if failsHere(|v.log|) then Drain(i, failsHere, Finished(i, w, false)) else w
  }

  class Engine {
    const scan: Inputs
    const failsHere: nat -> bool  // does the n-th dispatched operation fail before reaching the wire?

    var queue: seq<Op>
    var active: bool
    var advancing: bool
    var pending: bool
    var current: Option<Op>
    var counters: Counters
    var syncing: bool
    var stored: Tree

    var log: seq<Op>        // dispatched so far
    var results: seq<bool>  // outcomes of the finished ones
    ghost var finishes: nat
    ghost var dispatching: bool

    constructor (scan: Inputs, failsHere: nat -> bool, stored: Tree)
      ensures this.scan == scan && this.failsHere == failsHere
      ensures !active && !advancing && !pending && !dispatching
      ensures Look() == View(false, [], None, Zero, false, stored, [], [], 0)
    {
      this.scan, this.failsHere, this.stored := scan, failsHere, stored;
      queue, active, advancing, pending, current := [], false, false, false, None;
      counters, syncing := Zero, false;
      log, results, finishes, dispatching := [], [], 0, false;
    }

    ghost function Look(): View
      reads this
    {
      View(active, queue, current, counters, syncing, stored, log, results, finishes)
    }

    /** Load the queue and reset the counters. */
    method BeginBatch(ops: seq<Op>, sync: bool)
      requires !advancing
      modifies this
      ensures Look() == View(true, ops, None, Zero, sync, old(stored), [], [], old(finishes))
      ensures advancing == old(advancing) && pending == old(pending) && dispatching == old(dispatching)
    {
      queue, active, current, counters, syncing := ops, true, None, Zero, sync;
      log, results := [], [];
    }

    /** Local directories made and local files removed before the queue starts. */
    method CountLocalWork(newDirs: nat, removed: seq<bool>)
      modifies this`counters
      ensures counters == LocalWork(old(counters), newDirs, removed)
    {
      counters := counters.(dirs := counters.dirs + newDirs);
      ghost var start := counters;
      for n := 0 to |removed|
        invariant counters == CountRemovals(start, removed[..n])
      {
        assert removed[..n + 1][..n] == removed[..n];
        counters := if removed[n] then counters.(deleted := counters.deleted + 1) else counters.(failed := counters.failed + 1);
      }
      assert removed[..|removed|] == removed;
    }

    method FinishBatch()
      modifies this
      ensures Look() == Closed(old(Look()))
      ensures advancing == old(advancing) && pending == old(pending) && dispatching == old(dispatching)
    {
      active, queue, current, syncing := false, [], None, false;
      finishes := finishes + 1;
    }

    method RecordOpResult()
      modifies this
      ensures current.Some? ==> counters == CountSuccess(old(counters), current.value)
      ensures current.Some? ==> stored == if syncing then Record(scan, old(stored), current.value) else old(stored)
      ensures current.None? ==> counters == old(counters) && stored == old(stored)
      ensures queue == old(queue) && active == old(active) && current == old(current) && syncing == old(syncing)
      ensures log == old(log) && results == old(results) && finishes == old(finishes)
      ensures advancing == old(advancing) && pending == old(pending) && dispatching == old(dispatching)
    {
      if current.None? { return; }
      counters := CountSuccess(counters, current.value);
      if syncing { stored := Record(scan, stored, current.value); }
    }

    /** Terminal point of every command. From inside a dispatch it only leaves a
        note for the loop that is already running. */
    method CommandFinished(ok: bool)
      requires advancing || !dispatching
      modifies this
      ensures advancing == old(advancing) && dispatching == old(dispatching)
      ensures !old(active) ==> Look() == old(Look()) && pending == old(pending)
      ensures old(active) && old(advancing) ==> Look() == Finished(scan, old(Look()), ok) && pending
      ensures old(active) && !old(advancing) ==> Look() == Drain(scan, failsHere, Finished(scan, old(Look()), ok))
      decreases if advancing then 1 else 4
    {
      if !active { return; }
      if ok {
        RecordOpResult();
      } else if current.Some? && !current.value.Mkdir? {
        counters := counters.(failed := counters.failed + 1);
      }
      if current.Some? { results := results + [ok]; }
      current := None;
      AdvanceBatchQueue();
    }

    /** Send the request, or fail on the spot. Never entered while another
        operation is being dispatched. */
    method Dispatch()
      requires active && advancing && !dispatching && current.Some? && log != []
      modifies this
      ensures advancing && !dispatching
      ensures if failsHere(|old(log)| - 1) then Look() == Finished(scan, old(Look()), false) && pending
              else Look() == old(Look()) && pending == old(pending)
      decreases 2, 0
    {
      dispatching := true;
      if failsHere(|log| - 1) {
        CommandFinished(false);
      }
      dispatching := false;
    }

    method AdvanceBatchQueue()
      requires advancing || !dispatching
      modifies this
      ensures advancing == old(advancing) && dispatching == old(dispatching)
      ensures !old(active) ==> Look() == old(Look()) && pending == old(pending)
      ensures old(active) && old(advancing) ==> Look() == old(Look()) && pending
      ensures old(active) && !old(advancing) ==> Look() == Drain(scan, failsHere, old(Look()))
      decreases if advancing then 0 else 3
    {
      if !active { return; }
      if advancing {
        pending := true;
        return;
      }
      ghost var goal := Drain(scan, failsHere, Look());
      advancing := true;
      var again := true;
      while again
        invariant active && advancing && !dispatching
        invariant again ==> Drain(scan, failsHere, Look()) == goal
        invariant !again ==> Look() == goal
        decreases |queue|, again
      {
        if queue == [] {
          advancing, pending := false, false;
          FinishBatch();
          return;
        }
        again := StartNext();
      }
      advancing := false;
    }

    /** One turn of the drain loop: take the front operation and dispatch it.
        Another turn is due when it failed on the spot. */
    method StartNext() returns (again: bool)
      requires active && advancing && !dispatching && queue != []
      modifies this
      ensures active && advancing && !dispatching
      ensures again == failsHere(|old(log)|)
      ensures Look() == var w := Started(old(Look())); if again then Finished(scan, w, false) else w
      decreases 2, 1
    {
      pending := false;
      current := Some(queue[0]);
      log := log + [queue[0]];
      queue := queue[1..];
      Dispatch();
      again := pending;
    }
  }

  // --- whole batches ---------------------------------------------------------------------------

  /** Outcome of the n-th operation: it must get on the wire and be answered with success. */
  function Outcome(failsHere: nat -> bool, answer: nat -> bool, n: nat): bool {
    !failsHere(n) && answer(n)
  }

  function CountAll(c0: Counters, failsHere: nat -> bool, answer: nat -> bool, ops: seq<Op>, n: nat): Counters
    requires n <= |ops|
  {
    if n == 0 then c0 else
    var c := CountAll(c0, failsHere, answer, ops, n - 1);
    if Outcome(failsHere, answer, n - 1) then CountSuccess(c, ops[n - 1]) else CountFailure(c, ops[n - 1])
  }

  function RecordAll(i: Inputs, failsHere: nat -> bool, answer: nat -> bool, base: Tree, ops: seq<Op>, n: nat): Tree
    requires n <= |ops|
  {
    if n == 0 then base else
    var t := RecordAll(i, failsHere, answer, base, ops, n - 1);
    if Outcome(failsHere, answer, n - 1) then Record(i, t, ops[n - 1]) else t
  }

  /** One SYNC batch: what was scanned, which operations fail on the spot, how the
      server answers the others, and the state in which the queue starts. */
  datatype Scenario = Scenario(
    scan: Inputs, failsHere: nat -> bool, answer: nat -> bool, start: Counters, base: Tree, ops: seq<Op>)

  /** A batch that has come as far as n finished operations. */
  ghost predicate Underway(s: Scenario, v: View, n: nat) {
    && n <= |s.ops|
    && v.results == seq(n, m requires 0 <= m => Outcome(s.failsHere, s.answer, m))
    && v.counters == CountAll(s.start, s.failsHere, s.answer, s.ops, n)
    && v.stored == RecordAll(s.scan, s.failsHere, s.answer, s.base, s.ops, n)
  }

  ghost predicate InFlight(s: Scenario, v: View, n: nat) {
    && Underway(s, v, n) && v.active && v.syncing && n < |s.ops| && !s.failsHere(n)
    && v.current == Some(s.ops[n]) && v.log == s.ops[..n + 1] && v.queue == s.ops[n + 1..]
  }

  ghost predicate BetweenOps(s: Scenario, v: View, n: nat) {
    && Underway(s, v, n) && v.active && v.syncing
    && v.current == None && v.log == s.ops[..n] && v.queue == s.ops[n..]
  }

  ghost predicate Completed(s: Scenario, v: View) {
    && Underway(s, v, |s.ops|) && !v.active && !v.syncing
    && v.current == None && v.log == s.ops && v.queue == []
  }

  lemma OneFinished(s: Scenario, v: View, n: nat, ok: bool)
    requires Underway(s, v, n) && v.active && v.syncing && n < |s.ops|
    requires v.current == Some(s.ops[n]) && v.log == s.ops[..n + 1] && v.queue == s.ops[n + 1..]
    requires ok == Outcome(s.failsHere, s.answer, n)
    ensures BetweenOps(s, Finished(s.scan, v, ok), n + 1)
  {
    assert seq(n + 1, m requires 0 <= m => Outcome(s.failsHere, s.answer, m))
        == seq(n, m requires 0 <= m => Outcome(s.failsHere, s.answer, m)) + [Outcome(s.failsHere, s.answer, n)];
  }

  /** Draining stops at an operation in flight, or closes the batch once, with
      everything dispatched in order. */
  lemma {:induction false} DrainStops(s: Scenario, v: View, n: nat)
    requires BetweenOps(s, v, n)
    ensures var w := Drain(s.scan, s.failsHere, v);
            || (Completed(s, w) && w.finishes == v.finishes + 1)
            || (w.finishes == v.finishes && exists m :: n <= m && InFlight(s, w, m))
    decreases |s.ops| - n
  {
    if n == |s.ops| {
      assert s.ops[..n] == s.ops;
    } else {
      var w := Started(v);
      assert s.ops[..n + 1] == s.ops[..n] + [s.ops[n]];
      assert w.queue == s.ops[n + 1..];
      if s.failsHere(n) {
        OneFinished(s, w, n, false);
        DrainStops(s, Finished(s.scan, w, false), n + 1);
      } else {
        assert InFlight(s, w, n);
      }
    }
  }

  /** The answer to operation n leads to a later one, or closes the batch. */
  lemma AnswerLeadsOn(s: Scenario, v: View, n: nat)
    requires InFlight(s, v, n)
    ensures var w := Drain(s.scan, s.failsHere, Finished(s.scan, v, s.answer(n)));
            || (Completed(s, w) && w.finishes == v.finishes + 1)
            || (w.finishes == v.finishes && exists m :: n < m && InFlight(s, w, m))
    ensures |v.results| == n
  {
    OneFinished(s, v, n, s.answer(n));
    DrainStops(s, Finished(s.scan, v, s.answer(n)), n + 1);
  }

  /** A whole SYNC batch, for every mix of immediate failures and answers: each
      operation is dispatched exactly once and in order, at most one is in flight,
      and the batch is closed exactly once. */
  method RunBatch(e: Engine, ops: seq<Op>, answer: nat -> bool, newDirs: nat, removed: seq<bool>)
    requires !e.active && !e.advancing && !e.dispatching
    modifies e
    ensures Completed(Scenario(e.scan, e.failsHere, answer, LocalWork(Zero, newDirs, removed), old(e.stored), ops), e.Look())
    ensures e.finishes == old(e.finishes) + 1
    ensures !e.advancing && !e.dispatching
  {
    ghost var s := Scenario(e.scan, e.failsHere, answer, LocalWork(Zero, newDirs, removed), e.stored, ops);
    e.BeginBatch(ops, true);
    e.CountLocalWork(newDirs, removed);
    assert ops[..0] == [] && ops[0..] == ops;
    assert BetweenOps(s, e.Look(), 0);
    DrainStops(s, e.Look(), 0);
    e.AdvanceBatchQueue();
    ghost var n: nat := 0;
    if e.active { n :| InFlight(s, e.Look(), n); }
    while e.active
      invariant !e.advancing && !e.dispatching
      invariant e.active ==> n < |ops| && InFlight(s, e.Look(), n) && e.finishes == old(e.finishes)
      invariant !e.active ==> Completed(s, e.Look()) && e.finishes == old(e.finishes) + 1
      decreases e.active, |ops| - n
    {
      AnswerLeadsOn(s, e.Look(), n);
      e.CommandFinished(answer(|e.results|));
      if e.active {
        ghost var m: nat :| n < m && InFlight(s, e.Look(), m);
        n := m;
      }
    }
  }

  // --- conservation ---------------------------------------------------------------------------------

  function FailedMkdirs(failsHere: nat -> bool, answer: nat -> bool, ops: seq<Op>, n: nat): nat
    requires n <= |ops|
  {
    if n == 0 then 0 else
    FailedMkdirs(failsHere, answer, ops, n - 1) + if ops[n - 1].Mkdir? && !Outcome(failsHere, answer, n - 1) then 1 else 0
  }

  lemma {:induction false} RemovalsCounted(c: Counters, removed: seq<bool>)
    ensures CountRemovals(c, removed).Sum() == c.Sum() + |removed|
  {
    if removed != [] {
      RemovalsCounted(c, removed[..|removed| - 1]);
    }
  }

  lemma {:induction false} OpsCounted(c: Counters, failsHere: nat -> bool, answer: nat -> bool, ops: seq<Op>, n: nat)
    requires n <= |ops|
    ensures CountAll(c, failsHere, answer, ops, n).Sum() + FailedMkdirs(failsHere, answer, ops, n) == c.Sum() + n
  {
    if n > 0 {
      OpsCounted(c, failsHere, answer, ops, n - 1);
    }
  }

  lemma CountersAddUp(s: Scenario, newDirs: nat, removed: seq<bool>)
    requires s.start == LocalWork(Zero, newDirs, removed)
    ensures CountAll(s.start, s.failsHere, s.answer, s.ops, |s.ops|).Sum() + FailedMkdirs(s.failsHere, s.answer, s.ops, |s.ops|)
         == |s.ops| + newDirs + |removed|
  {
    RemovalsCounted(Zero.(dirs := newDirs), removed);
    OpsCounted(s.start, s.failsHere, s.answer, s.ops, |s.ops|);
  }

  /** The summary accounts for everything: the counters add up to the operations
      other than failed MKDIRs, plus the purely local work. */
  lemma SummaryAddsUp(s: Scenario, v: View, newDirs: nat, removed: seq<bool>)
    requires s.start == LocalWork(Zero, newDirs, removed) && Completed(s, v)
    ensures v.counters.Sum() + FailedMkdirs(s.failsHere, s.answer, s.ops, |s.ops|) == |s.ops| + newDirs + |removed|
  {
    CountersAddUp(s, newDirs, removed);
  }

  // --- what each counter counts -----------------------------------------------------------------------

  predicate IsUpload(o: Op) { o.Upload? }

  predicate IsDownload(o: Op) { o.Download? || o.ConflictDownload? }

  predicate IsRemoval(o: Op) { o.PreDelete? || o.Delete? || o.Rmdir? }

  predicate IsMove(o: Op) { o.Move? }

  predicate IsCopy(o: Op) { o.Copy? }

  predicate IsMkdir(o: Op) { o.Mkdir? }

  predicate IsNoMkdir(o: Op) { !o.Mkdir? }

  /** Operation m is of the kind and ended with ok. */
  predicate Counts(s: Scenario, kind: Op -> bool, ok: bool, m: nat) {
    m < |s.ops| && kind(s.ops[m]) && Outcome(s.failsHere, s.answer, m) == ok
  }

  function Ended(s: Scenario, n: nat, kind: Op -> bool, ok: bool): set<nat> {
    set m: nat | m < n && Counts(s, kind, ok, m)
  }

  lemma EndedNext(s: Scenario, n: nat, kind: Op -> bool, ok: bool)
    ensures |Ended(s, n + 1, kind, ok)| == |Ended(s, n, kind, ok)| + if Counts(s, kind, ok, n) then 1 else 0
  {
    if Counts(s, kind, ok, n) {
      assert Ended(s, n + 1, kind, ok) == Ended(s, n, kind, ok) + {n};
    } else {
      assert Ended(s, n + 1, kind, ok) == Ended(s, n, kind, ok);
    }
  }

  function One(b: bool): nat { if b then 1 else 0 }

  function Counted(s: Scenario, n: nat): Counters
    requires n <= |s.ops|
  {
    CountAll(s.start, s.failsHere, s.answer, s.ops, n)
  }

  /** Which counters operation n adds to. */
  lemma OneCounted(s: Scenario, n: nat)
    requires n < |s.ops|
    ensures var c, d := Counted(s, n), Counted(s, n + 1);
            && d.uploaded == c.uploaded + One(Counts(s, IsUpload, true, n))
            && d.downloaded == c.downloaded + One(Counts(s, IsDownload, true, n))
            && d.deleted == c.deleted + One(Counts(s, IsRemoval, true, n))
            && d.moved == c.moved + One(Counts(s, IsMove, true, n))
            && d.copied == c.copied + One(Counts(s, IsCopy, true, n))
            && d.dirs == c.dirs + One(Counts(s, IsMkdir, true, n))
            && d.failed == c.failed + One(Counts(s, IsNoMkdir, false, n))
  {
  }

  /** This counter goes up by one for every operation of the kind that ended with ok. */
  ghost predicate CountedBy(s: Scenario, field: Counters -> nat, kind: Op -> bool, ok: bool) {
    forall n: nat :: n < |s.ops| ==> field(Counted(s, n + 1)) == field(Counted(s, n)) + One(Counts(s, kind, ok, n))
  }

  lemma {:induction false} Tallied(s: Scenario, field: Counters -> nat, kind: Op -> bool, ok: bool, n: nat)
    requires CountedBy(s, field, kind, ok) && n <= |s.ops|
    ensures field(Counted(s, n)) == field(s.start) + |Ended(s, n, kind, ok)|
  {
    if n > 0 {
      Tallied(s, field, kind, ok, n - 1);
      EndedNext(s, n - 1, kind, ok);
    }
  }

  lemma UploadsTallied(s: Scenario)
    ensures Counted(s, |s.ops|).uploaded == s.start.uploaded + |set n: nat | n < |s.ops| && s.ops[n].Upload? && Outcome(s.failsHere, s.answer, n)|
  {
    forall n: nat | n < |s.ops| { OneCounted(s, n); }
    Tallied(s, (c: Counters) => c.uploaded, IsUpload, true, |s.ops|);
    assert Ended(s, |s.ops|, IsUpload, true)
        == set n: nat | n < |s.ops| && s.ops[n].Upload? && Outcome(s.failsHere, s.answer, n);
  }

  lemma DownloadsTallied(s: Scenario)
    ensures Counted(s, |s.ops|).downloaded == s.start.downloaded + |set n: nat | n < |s.ops| && (s.ops[n].Download? || s.ops[n].ConflictDownload?) && Outcome(s.failsHere, s.answer, n)|
  {
    forall n: nat | n < |s.ops| { OneCounted(s, n); }
    Tallied(s, (c: Counters) => c.downloaded, IsDownload, true, |s.ops|);
    assert Ended(s, |s.ops|, IsDownload, true)
        == set n: nat | n < |s.ops| && (s.ops[n].Download? || s.ops[n].ConflictDownload?) && Outcome(s.failsHere, s.answer, n);
  }

  lemma DeletionsTallied(s: Scenario)
    ensures Counted(s, |s.ops|).deleted == s.start.deleted + |set n: nat | n < |s.ops| && (s.ops[n].PreDelete? || s.ops[n].Delete? || s.ops[n].Rmdir?) && Outcome(s.failsHere, s.answer, n)|
  {
    forall n: nat | n < |s.ops| { OneCounted(s, n); }
    Tallied(s, (c: Counters) => c.deleted, IsRemoval, true, |s.ops|);
    assert Ended(s, |s.ops|, IsRemoval, true)
        == set n: nat | n < |s.ops| && (s.ops[n].PreDelete? || s.ops[n].Delete? || s.ops[n].Rmdir?) && Outcome(s.failsHere, s.answer, n);
  }

  lemma MovesTallied(s: Scenario)
    ensures Counted(s, |s.ops|).moved == s.start.moved + |set n: nat | n < |s.ops| && s.ops[n].Move? && Outcome(s.failsHere, s.answer, n)|
  {
    forall n: nat | n < |s.ops| { OneCounted(s, n); }
    Tallied(s, (c: Counters) => c.moved, IsMove, true, |s.ops|);
    assert Ended(s, |s.ops|, IsMove, true)
        == set n: nat | n < |s.ops| && s.ops[n].Move? && Outcome(s.failsHere, s.answer, n);
  }

  lemma CopiesTallied(s: Scenario)
    ensures Counted(s, |s.ops|).copied == s.start.copied + |set n: nat | n < |s.ops| && s.ops[n].Copy? && Outcome(s.failsHere, s.answer, n)|
  {
    forall n: nat | n < |s.ops| { OneCounted(s, n); }
    Tallied(s, (c: Counters) => c.copied, IsCopy, true, |s.ops|);
    assert Ended(s, |s.ops|, IsCopy, true)
        == set n: nat | n < |s.ops| && s.ops[n].Copy? && Outcome(s.failsHere, s.answer, n);
  }

  lemma MkdirsTallied(s: Scenario)
    ensures Counted(s, |s.ops|).dirs == s.start.dirs + |set n: nat | n < |s.ops| && s.ops[n].Mkdir? && Outcome(s.failsHere, s.answer, n)|
  {
    forall n: nat | n < |s.ops| { OneCounted(s, n); }
    Tallied(s, (c: Counters) => c.dirs, IsMkdir, true, |s.ops|);
    assert Ended(s, |s.ops|, IsMkdir, true)
        == set n: nat | n < |s.ops| && s.ops[n].Mkdir? && Outcome(s.failsHere, s.answer, n);
  }

  lemma FailuresTallied(s: Scenario)
    ensures Counted(s, |s.ops|).failed == s.start.failed + |set n: nat | n < |s.ops| && !s.ops[n].Mkdir? && !Outcome(s.failsHere, s.answer, n)|
  {
    forall n: nat | n < |s.ops| { OneCounted(s, n); }
    Tallied(s, (c: Counters) => c.failed, IsNoMkdir, false, |s.ops|);
    assert Ended(s, |s.ops|, IsNoMkdir, false)
        == set n: nat | n < |s.ops| && !s.ops[n].Mkdir? && !Outcome(s.failsHere, s.answer, n);
  }

  function Removals(removed: seq<bool>, ok: bool): set<nat> {
    set n: nat | n < |removed| && removed[n] == ok
  }

  lemma RemovalsNext(removed: seq<bool>, ok: bool)
    requires removed != []
    ensures |Removals(removed, ok)| == |Removals(removed[..|removed| - 1], ok)| + One(removed[|removed| - 1] == ok)
  {
    var n := |removed| - 1;
    if removed[n] == ok {
      assert Removals(removed, ok) == Removals(removed[..n], ok) + {n};
    } else {
      assert Removals(removed, ok) == Removals(removed[..n], ok);
    }
  }

  lemma {:induction false} RemovalsTallied(c: Counters, removed: seq<bool>)
    ensures CountRemovals(c, removed)
         == c.(deleted := c.deleted + |Removals(removed, true)|, failed := c.failed + |Removals(removed, false)|)
  {
    if removed != [] {
      RemovalsTallied(c, removed[..|removed| - 1]);
      RemovalsNext(removed, true);
      RemovalsNext(removed, false);
    }
  }

  /** The summary, one number at a time: how many operations of each kind went well,
      with the purely local work, and how many operations other than MKDIRs did not. */
  lemma SummaryMeans(s: Scenario, v: View, newDirs: nat, removed: seq<bool>)
    requires s.start == LocalWork(Zero, newDirs, removed) && Completed(s, v)
    ensures v.counters.uploaded == |set n: nat | n < |s.ops| && s.ops[n].Upload? && Outcome(s.failsHere, s.answer, n)|
    ensures v.counters.downloaded
         == |set n: nat | n < |s.ops| && (s.ops[n].Download? || s.ops[n].ConflictDownload?) && Outcome(s.failsHere, s.answer, n)|
    ensures v.counters.deleted
         == |set n: nat | n < |s.ops| && (s.ops[n].PreDelete? || s.ops[n].Delete? || s.ops[n].Rmdir?) && Outcome(s.failsHere, s.answer, n)|
            + |set n: nat | n < |removed| && removed[n]|
    ensures v.counters.moved == |set n: nat | n < |s.ops| && s.ops[n].Move? && Outcome(s.failsHere, s.answer, n)|
    ensures v.counters.copied == |set n: nat | n < |s.ops| && s.ops[n].Copy? && Outcome(s.failsHere, s.answer, n)|
    ensures v.counters.dirs == |set n: nat | n < |s.ops| && s.ops[n].Mkdir? && Outcome(s.failsHere, s.answer, n)| + newDirs
    ensures v.counters.failed
         == |set n: nat | n < |s.ops| && !s.ops[n].Mkdir? && !Outcome(s.failsHere, s.answer, n)|
            + |set n: nat | n < |removed| && !removed[n]|
  {
    UploadsTallied(s);
    DownloadsTallied(s);
    DeletionsTallied(s);
    MovesTallied(s);
    CopiesTallied(s);
    MkdirsTallied(s);
    FailuresTallied(s);
    RemovalsTallied(Zero.(dirs := newDirs), removed);
    assert Removals(removed, true) == set n: nat | n < |removed| && removed[n];
    assert Removals(removed, false) == set n: nat | n < |removed| && !removed[n];
  }

  // --- the baseline file ---------------------------------------------------------------------------------

  lemma RecordIsEffect(i: Inputs, w: World, o: Op)
    requires Accepted(w, o)
    ensures Effect(i, w, o).base == Record(i, w.base, o)
  {
  }

  lemma BaseNext(i: Inputs, p: SyncPlan, fate: nat -> Fate, n: nat)
    requires n < |p.ops|
    ensures var w := After(i, p, fate, n);
            After(i, p, fate, n + 1).base == if Accepted(w, p.ops[n]) && fate(n).Goes? then Record(i, w.base, p.ops[n]) else w.base
  {
    AfterStep(i, p, fate, n);
    var w := After(i, p, fate, n);
    if Accepted(w, p.ops[n]) {
      RecordIsEffect(i, w, p.ops[n]);
    }
  }

  /** The engine counts operation m as a success exactly when the execution model does. */
  ghost predicate SameOutcome(i: Inputs, p: SyncPlan, fate: nat -> Fate, failsHere: nat -> bool, answer: nat -> bool, m: nat) {
    m < |p.ops| && (Outcome(failsHere, answer, m) <==> Accepted(After(i, p, fate, m), p.ops[m]) && fate(m).Goes?)
  }

  ghost predicate StoredIs(i: Inputs, p: SyncPlan, fate: nat -> Fate, failsHere: nat -> bool, answer: nat -> bool, n: nat) {
    n <= |p.ops| && RecordAll(i, failsHere, answer, Begin(i, p).base, p.ops, n) == After(i, p, fate, n).base
  }

  lemma StoredNext(i: Inputs, p: SyncPlan, fate: nat -> Fate, failsHere: nat -> bool, answer: nat -> bool, n: nat)
    requires SameOutcome(i, p, fate, failsHere, answer, n) && StoredIs(i, p, fate, failsHere, answer, n)
    ensures StoredIs(i, p, fate, failsHere, answer, n + 1)
  {
    BaseNext(i, p, fate, n);
  }

  /** The baseline the engine has stored after n operations is the one of the
      execution model, for every pattern of refusals and failures. */
  lemma StoredBaseline(i: Inputs, p: SyncPlan, fate: nat -> Fate, failsHere: nat -> bool, answer: nat -> bool, n: nat)
    requires n <= |p.ops| && forall m: nat :: m < n ==> SameOutcome(i, p, fate, failsHere, answer, m)
    ensures StoredIs(i, p, fate, failsHere, answer, n)
  {
    AfterBegin(i, p, fate);
    var holds := (m: nat) => StoredIs(i, p, fate, failsHere, answer, m);
    forall m: nat | m < n && holds(m) ensures holds(m + 1) {
      StoredNext(i, p, fate, failsHere, answer, m);
    }
    Throughout(holds, 0, n);
  }
}
