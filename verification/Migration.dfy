/** Moving one private user's files between storage tiers: every point at which
    the server may stop, and what it finds when it starts again. */
module Migration {
  import opened Paths
  import opened Trees

  type Tier = string

  /** What survives a crash: the user's directory on each tier that has one (the
      contents of files/), and the tier named by users.json. */
  datatype Disk = Disk(dirs: map<Tier, Tree>, record: Tier)

  /** An empty record dates from before tiers existed. */
  function Recorded(record: Tier, default: Tier): Tier {
    if record == "" then default else record
  }

  /** The names given with --tier: none empty, none twice. */
  ghost predicate Named(tiers: seq<Tier>) {
    "" !in tiers && forall i, j :: 0 <= i < j < |tiers| ==> tiers[i] != tiers[j]
  }

  predicate Elsewhere(dirs: map<Tier, Tree>, rec: Tier, t: Tier) {
    t != rec && t in dirs
  }

  /** t is the one configured tier besides rec that has a directory. */
  ghost predicate Sole(tiers: seq<Tier>, dirs: map<Tier, Tree>, rec: Tier, t: Tier) {
    && t in tiers && Elsewhere(dirs, rec, t)
    && forall u :: u in tiers && Elsewhere(dirs, rec, u) ==> u == t
  }

  /** t is the tier the server works on when users.json says rec. */
  ghost predicate Resolves(tiers: seq<Tier>, dirs: map<Tier, Tree>, rec: Tier, t: Tier) {
    if rec !in tiers then t == ""
    else if rec in dirs then t == rec
    else Sole(tiers, dirs, rec, t) || (t == rec && forall u :: !Sole(tiers, dirs, rec, u))
  }

  // --- one attempt to move, cut into steps ---------------------------------------------------------

  datatype Stage = Starting | Copying | Verifying | Undoing | Removing | Recording | Finished(ok: bool)

  datatype Move = Move(from: Tier, to: Tier, disk: Disk, before: Tree, stage: Stage)

  /** Write and the two Keep events are single moments of a recursive copy or a
      recursive removal: the copy may have left anything so far, also torn files,
      and the removal may have any subset still to go. */
  datatype Event =
    | Start(works: bool)
    | Write(partial: Tree)
    | CopyEnds(ok: bool)
    | Verify(readable: bool)
    | UndoKeeps(rest: set<Path>)
    | UndoEnds(gone: bool)
    | RemoveKeeps(rest: set<Path>)
    | RemoveEnds(gone: bool)
    | Record(saved: bool)

  predicate Enabled(m: Move, e: Event) {
    match e
    case Start(_) => m.stage.Starting?
    case Write(_) => m.stage.Copying?
    case CopyEnds(ok) => m.stage.Copying? && (ok ==> m.to in m.disk.dirs)
    case Verify(_) => m.stage.Verifying?
    case UndoKeeps(_) => m.stage.Undoing? && m.to in m.disk.dirs
    case UndoEnds(_) => m.stage.Undoing?
    case RemoveKeeps(_) => m.stage.Removing? && m.from in m.disk.dirs
    case RemoveEnds(_) => m.stage.Removing?
    case Record(_) => m.stage.Recording?
  }

  function Restrict(t: Tree, keep: set<Path>): Tree {
    map k | k in t && k in keep :: t[k]
  }

  function Put(d: Disk, t: Tier, dir: Tree): Disk {
    d.(dirs := d.dirs[t := dir])
  }

  function Drop(d: Disk, t: Tier): Disk {
    d.(dirs := d.dirs - {t})
  }

  function Begin(m: Move, works: bool): Move {
    var dirs := m.disk.dirs;
    if m.from !in dirs then
      if m.to in dirs then m.(stage := Recording)
      else if works then m.(disk := Put(m.disk, m.to, map[]), stage := Recording)
      else m.(stage := Finished(false))
    else if m.to in dirs || !works then m.(stage := Finished(false))
    else m.(before := dirs[m.from], stage := Copying)
  }

  function Next(m: Move, e: Event): Move
    requires Enabled(m, e)
  {
    match e
    case Start(works) => Begin(m, works)
    case Write(partial) => m.(disk := Put(m.disk, m.to, partial))
    case CopyEnds(ok) => m.(stage := if ok then Verifying else Undoing)
    case Verify(readable) =>
      var same := readable && m.to in m.disk.dirs && m.disk.dirs[m.to] == m.before;
      m.(stage := if same then Removing else Undoing)
    case UndoKeeps(rest) => m.(disk := Put(m.disk, m.to, Restrict(m.disk.dirs[m.to], rest)))
    case UndoEnds(gone) => m.(disk := if gone then Drop(m.disk, m.to) else m.disk, stage := Finished(false))
    case RemoveKeeps(rest) => m.(disk := Put(m.disk, m.from, Restrict(m.disk.dirs[m.from], rest)))
    case RemoveEnds(gone) => m.(disk := if gone then Drop(m.disk, m.from) else m.disk, stage := Recording)
    case Record(saved) => m.(disk := if saved then m.disk.(record := m.to) else m.disk, stage := Finished(saved))
  }

  ghost predicate Runs(m: Move, es: seq<Event>)
    decreases |es|
  {
    es != [] ==> Enabled(m, es[0]) && Runs(Next(m, es[0]), es[1..])
  }

  ghost function Run(m: Move, es: seq<Event>): Move
    requires Runs(m, es)
    decreases |es|
  {
    if es == [] then m else Run(Next(m, es[0]), es[1..])
  }

  ghost predicate Reaches(start: Move, es: seq<Event>, m: Move) {
    Runs(start, es) && Run(start, es) == m
  }

  ghost predicate Attained(start: Move, m: Move) {
    exists es :: Reaches(start, es, m)
  }

  // --- the server's own code ----------------------------------------------------------------------

  /** What the file system does during one attempt. */
  datatype Faults = Faults(starts: bool, copied: Tree, copyOk: bool, readable: bool,
                           undone: bool, leftover: set<Path>, removed: bool, unremoved: set<Path>, saved: bool)

  class Store {
    const tiers: seq<Tier>
    const defaultTier: Tier
    var dirs: map<Tier, Tree>
    var record: Tier

    constructor (tiers: seq<Tier>, defaultTier: Tier, disk: Disk)
      ensures this.tiers == tiers && this.defaultTier == defaultTier && Contents() == disk
    {
      this.tiers, this.defaultTier, this.dirs, this.record := tiers, defaultTier, disk.dirs, disk.record;
    }

    ghost function Contents(): Disk
      reads this
    {
      Disk(dirs, record)
    }

    /** The tier to work on, found by counting directories when the recorded tier
        has none; a single find also corrects users.json. */
    method GetUserTier() returns (t: Tier)
      requires Named(tiers)
      modifies this`record
      ensures Resolves(tiers, dirs, Recorded(old(record), defaultTier), t)
      ensures record == if Sole(tiers, dirs, Recorded(old(record), defaultTier), t) && Recorded(old(record), defaultTier) in tiers
                          && Recorded(old(record), defaultTier) !in dirs then t else old(record)
    {
      var recorded := if record == "" then defaultTier else record;
      if recorded !in tiers { return ""; }
      if recorded in dirs { return recorded; }
      var found, matches := "", 0;
      for i := 0 to |tiers|
        invariant matches == 0 ==> forall j :: 0 <= j < i ==> !Elsewhere(dirs, recorded, tiers[j])
        invariant matches == 1 ==> Sole(tiers[..i], dirs, recorded, found)
        invariant matches >= 2 ==> exists j, k :: 0 <= j < k < i && Elsewhere(dirs, recorded, tiers[j]) && Elsewhere(dirs, recorded, tiers[k])
      {
        assert tiers[..i + 1] == tiers[..i] + [tiers[i]];
        if tiers[i] != recorded && tiers[i] in dirs {
          if matches == 1 {
            var j :| 0 <= j < i && tiers[..i][j] == found;
            assert Elsewhere(dirs, recorded, tiers[j]) && Elsewhere(dirs, recorded, tiers[i]);
          }
          found, matches := tiers[i], matches + 1;
        }
      }
      assert tiers[..|tiers|] == tiers;
      if matches == 1 {
        record := found;
        return found;
      }
      return recorded;
    }

    /** finish_set_tier from the second look at the record onwards. The whole attempt
        is one of the runs cut into steps above. */
    method MoveTo(target: Tier, f: Faults) returns (ok: bool, ghost from: Tier, ghost m: Move)
      requires Named(tiers)
      modifies this
      ensures Resolves(tiers, old(dirs), Recorded(old(record), defaultTier), from)
      ensures from !in tiers || target !in tiers ==> !ok && dirs == old(dirs)
      ensures from in tiers && target in tiers ==>
                && Attained(Fresh(Disk(old(dirs), Repaired(old(record), from, defaultTier)), from, target), m)
                && Contents() == m.disk && m.stage == Finished(ok)
    {
      var current := GetUserTier();
      from, m := current, Fresh(Contents(), current, target);
      if current !in tiers || target !in tiers { return false, from, m; }
      ok, m := MigrateUser(current, target, f);
      if !ok { return ok, from, m; }
      ReachNext(Fresh(Disk(old(dirs), Repaired(old(record), from, defaultTier)), current, target), m, Record(f.saved));
      m := Next(m, Record(f.saved));
      if f.saved { record := target; }
      return f.saved, from, m;
    }

    method MigrateUser(from: Tier, to: Tier, f: Faults) returns (ok: bool, ghost m: Move)
      modifies this`dirs
      ensures Attained(Fresh(old(Contents()), from, to), m)
      ensures m.disk == Contents() && m.from == from && m.to == to
      ensures m.stage == if ok then Recording else Finished(false)
      ensures ok <==> if from !in old(dirs) then to in old(dirs) || f.starts
                      else to !in old(dirs) && f.starts && f.copyOk && f.readable && f.copied == old(dirs)[from]
      ensures ok && from in old(dirs) && f.removed ==> dirs == old(dirs)[to := old(dirs)[from]] - {from}
      ensures !ok && f.undone ==> dirs == old(dirs)
    {
      ghost var start := Fresh(Contents(), from, to);
      ReachStart(start, Start(f.starts));
      m := Next(start, Start(f.starts));
      if from !in dirs {
        if to !in dirs {
          if !f.starts { return false, m; }
          dirs := dirs[to := map[]];
        }
        return true, m;
      }
      if to in dirs || !f.starts { return false, m; }
      var same: bool;
      same, m := CopyAndVerify(start, m, f, from, to);
      if !same {
        m := UndoCopy(start, m, f, to);
        return false, m;
      }
      m := RemoveOld(start, m, f, from);
      return true, m;
    }

    method UndoCopy(ghost start: Move, ghost m: Move, f: Faults, to: Tier) returns (ghost n: Move)
      requires Attained(start, m) && m.stage == Undoing && m.disk == Contents() && m.to == to && to in dirs
      modifies this`dirs
      ensures Attained(start, n) && n == m.(disk := Contents(), stage := Finished(false))
      ensures dirs == if f.undone then old(dirs) - {to} else old(dirs)[to := Restrict(old(dirs)[to], f.leftover)]
    {
      n := m;
      RemoveDir(to, f.undone, f.leftover);
      if !f.undone {
        n := Step(start, n, UndoKeeps(f.leftover));
      }
      n := Step(start, n, UndoEnds(f.undone));
    }

    method RemoveOld(ghost start: Move, ghost m: Move, f: Faults, from: Tier) returns (ghost n: Move)
      requires Attained(start, m) && m.stage == Removing && m.disk == Contents() && m.from == from && from in dirs
      modifies this`dirs
      ensures Attained(start, n) && n == m.(disk := Contents(), stage := Recording)
      ensures dirs == if f.removed then old(dirs) - {from} else old(dirs)[from := Restrict(old(dirs)[from], f.unremoved)]
    {
      n := m;
      RemoveDir(from, f.removed, f.unremoved);
      if !f.removed {
        n := Step(start, n, RemoveKeeps(f.unremoved));
      }
      n := Step(start, n, RemoveEnds(f.removed));
    }

    /** Copies the whole directory and compares the two snapshots. */
    method CopyAndVerify(ghost start: Move, ghost m: Move, f: Faults, from: Tier, to: Tier) returns (same: bool, ghost n: Move)
      requires Attained(start, m) && m.stage.Copying? && m.disk == Contents() && m.from == from && m.to == to
      requires from in dirs && m.before == dirs[from] && from != to
      modifies this`dirs
      ensures Attained(start, n) && n.disk == Contents() && n.from == from && n.to == to && to in dirs
      ensures dirs == old(dirs)[to := f.copied]
      ensures n.stage == if same then Removing else Undoing
      ensures same <==> f.copyOk && f.readable && f.copied == old(dirs)[from]
    {
      var before := dirs[from];
      dirs := dirs[to := f.copied];
      n := Step(start, m, Write(f.copied));
      n := Step(start, n, CopyEnds(f.copyOk));
      if !f.copyOk { return false, n; }
      n := Step(start, n, Verify(f.readable));
      same := f.readable && dirs[to] == before;
    }

    /** Recursive removal, which may give up with some entries left. */
    method RemoveDir(t: Tier, gone: bool, rest: set<Path>)
      requires t in dirs
      modifies this`dirs
      ensures dirs == if gone then old(dirs) - {t} else old(dirs)[t := Restrict(old(dirs)[t], rest)]
    {
      dirs := if gone then dirs - {t} else dirs[t := Restrict(dirs[t], rest)];
    }
  }

  /** users.json after the repair that led to t. */
  function Repaired(record: Tier, t: Tier, default: Tier): Tier {
    if t != "" && t != Recorded(record, default) then t else record
  }

  ghost method Step(start: Move, m: Move, e: Event) returns (n: Move)
    requires Attained(start, m) && Enabled(m, e)
    ensures n == Next(m, e) && Attained(start, n)
  {
    ReachNext(start, m, e);
    n := Next(m, e);
  }

  lemma ReachNext(start: Move, m: Move, e: Event)
    requires Attained(start, m) && Enabled(m, e)
    ensures Attained(start, Next(m, e))
  {
    var es :| Reaches(start, es, m);
    RunsStep(start, es, e);
    assert Reaches(start, es + [e], Next(m, e));
  }

  lemma ReachStart(start: Move, e: Event)
    requires Enabled(start, e)
    ensures Attained(start, Next(start, e))
  {
    assert Reaches(start, [], start);
    ReachNext(start, start, e);
  }

  lemma {:induction false} RunsStep(m: Move, es: seq<Event>, e: Event)
    requires Runs(m, es) && Enabled(Run(m, es), e)
    ensures Runs(m, es + [e]) && Run(m, es + [e]) == Next(Run(m, es), e)
    decreases |es|
  {
    if es == [] {
      assert (es + [e])[1..] == [];
    } else {
      assert (es + [e])[1..] == es[1..] + [e];
      RunsStep(Next(m, es[0]), es[1..], e);
    }
  }

  // --- no crash point loses the files ---------------------------------------------------------------

  /** A directory holding exactly files. */
  predicate Complete(d: Disk, t: Tier, files: Tree) {
    t in d.dirs && d.dirs[t] == files
  }

  ghost predicate Untouched(d: Disk, d0: Disk, from: Tier, to: Tier) {
    forall t :: t != from && t != to ==> (t in d.dirs <==> t in d0.dirs) && (t in d.dirs ==> d.dirs[t] == d0.dirs[t])
  }

  predicate Early(m: Move, files: Tree, record: Tier) {
    Complete(m.disk, m.from, files) && m.disk.record == record
  }

  predicate Late(m: Move, files: Tree, record: Tier) {
    m.from != m.to && Complete(m.disk, m.to, files) && m.disk.record == record
  }

  ghost predicate Kept(m: Move, m0: Move, files: Tree) {
    && m.from == m0.from && m.to == m0.to
    && Untouched(m.disk, m0.disk, m.from, m.to)
    && (m.disk == m0.disk || m.to !in m0.disk.dirs) && (m.stage.Starting? || m.stage.Finished? || m.to !in m0.disk.dirs)
    && match m.stage
       case Starting => Early(m, files, m0.disk.record) && m.disk == m0.disk
       case Copying => Early(m, files, m0.disk.record) && m.before == files && m.from != m.to
       case Verifying => Early(m, files, m0.disk.record) && m.before == files && m.from != m.to
       case Undoing => Early(m, files, m0.disk.record) && m.from != m.to
       case Removing => Late(m, files, m0.disk.record)
       case Recording => Late(m, files, m0.disk.record)
       case Finished(ok) =>
         if ok then Late(m, files, m.to)
         else Early(m, files, m0.disk.record) || Late(m, files, m0.disk.record)
  }

  lemma NextKept(m: Move, m0: Move, files: Tree, e: Event)
    requires Kept(m, m0, files) && Enabled(m, e)
    ensures Kept(Next(m, e), m0, files)
  {
  }

  lemma {:induction false} RunKept(m: Move, m0: Move, files: Tree, es: seq<Event>)
    requires Kept(m, m0, files) && Runs(m, es)
    ensures Kept(Run(m, es), m0, files)
    decreases |es|
  {
    if es != [] {
      NextKept(m, m0, files, es[0]);
      RunKept(Next(m, es[0]), m0, files, es[1..]);
    }
  }

  function Fresh(d: Disk, from: Tier, to: Tier): Move {
    Move(from, to, d, map[], Starting)
  }

  /** Wherever an attempt is cut off, whatever failed before, one of the two tiers
      holds all of the user's files, the record names one of the two tiers and the
      other tiers are as they were. */
  lemma EveryCrashPointComplete(d: Disk, from: Tier, to: Tier, es: seq<Event>)
    requires from in d.dirs && Runs(Fresh(d, from, to), es)
    ensures var e := Run(Fresh(d, from, to), es).disk;
            && (Complete(e, from, d.dirs[from]) || Complete(e, to, d.dirs[from]))
            && (e.record == d.record || (e.record == to && Complete(e, to, d.dirs[from])))
            && Untouched(e, d, from, to)
  {
    RunKept(Fresh(d, from, to), Fresh(d, from, to), d.dirs[from], es);
  }

  // --- starting again -----------------------------------------------------------------------------

  /** After a restart the server works on a tier that holds exactly files. */
  ghost predicate Finds(tiers: seq<Tier>, default: Tier, d: Disk, files: Tree) {
    exists t :: Resolves(tiers, d.dirs, Recorded(d.record, default), t) && Complete(d, t, files)
  }

  ghost predicate Configured(tiers: seq<Tier>, d: Disk) {
    "" !in tiers && forall t :: t in d.dirs ==> t in tiers
  }

  lemma ResolvesUnique(tiers: seq<Tier>, dirs: map<Tier, Tree>, rec: Tier, t: Tier, u: Tier)
    requires Resolves(tiers, dirs, rec, t) && Resolves(tiers, dirs, rec, u)
    ensures t == u
  {
  }

  /** No tier beside the two has a directory of this user. */
  ghost predicate NoThird(d: Disk, from: Tier, to: Tier) {
    forall t :: t in d.dirs ==> t == from || t == to
  }

  /** A restart finds the files if and only if users.json was already updated, or
      the old directory is whole, or it is gone and no third tier has one. */
  lemma RestartFindsExactlyWhen(tiers: seq<Tier>, default: Tier, d: Disk, from: Tier, to: Tier, es: seq<Event>)
    requires Configured(tiers, d) && from in d.dirs && to in tiers && Recorded(d.record, default) == from
    requires Runs(Fresh(d, from, to), es)
    ensures var m := Run(Fresh(d, from, to), es);
            Finds(tiers, default, m.disk, d.dirs[from]) <==>
              || m.stage == Finished(true)
              || Complete(m.disk, from, d.dirs[from])
              || (from !in m.disk.dirs && NoThird(d, from, to))
  {
    var m := Run(Fresh(d, from, to), es);
    RunKept(Fresh(d, from, to), Fresh(d, from, to), d.dirs[from], es);
    var files := d.dirs[from];
    if m.stage == Finished(true) {
      assert Resolves(tiers, m.disk.dirs, to, to);
    } else if from in m.disk.dirs {
      assert Resolves(tiers, m.disk.dirs, from, from);
    } else if NoThird(d, from, to) {
      assert Sole(tiers, m.disk.dirs, from, to);
      assert Resolves(tiers, m.disk.dirs, from, to);
    } else {
      var third :| third in d.dirs && third != from && third != to;
      assert Elsewhere(m.disk.dirs, from, third) && Elsewhere(m.disk.dirs, from, to);
      assert Resolves(tiers, m.disk.dirs, from, from);
    }
  }

  ghost predicate RemovesAtOnce(es: seq<Event>) {
    forall i :: 0 <= i < |es| ==> !es[i].RemoveKeeps?
  }

  /** While the removal is not cut into steps, the old directory is whole or gone. */
  lemma {:induction false} WholeOrGone(m: Move, m0: Move, files: Tree, es: seq<Event>)
    requires Kept(m, m0, files) && Runs(m, es) && RemovesAtOnce(es)
    requires m.from in m.disk.dirs ==> m.disk.dirs[m.from] == files
    ensures var n := Run(m, es); n.from in n.disk.dirs ==> n.disk.dirs[n.from] == files
    decreases |es|
  {
    if es != [] {
      NextKept(m, m0, files, es[0]);
      assert !es[0].RemoveKeeps?;
      WholeOrGone(Next(m, es[0]), m0, files, es[1..]);
    }
  }

  /** With data on one tier only and a removal that is not cut short, a restart at
      any point finds the files, and the corrected record names their tier. */
  lemma AtomicRemovalRestarts(tiers: seq<Tier>, default: Tier, d: Disk, from: Tier, to: Tier, es: seq<Event>, t: Tier)
    requires Configured(tiers, d) && d.dirs.Keys == {from} && to in tiers && Recorded(d.record, default) == from
    requires Runs(Fresh(d, from, to), es) && RemovesAtOnce(es)
    requires var e := Run(Fresh(d, from, to), es).disk; Resolves(tiers, e.dirs, Recorded(e.record, default), t)
    ensures var e := Run(Fresh(d, from, to), es).disk;
            Complete(e, t, d.dirs[from]) && Recorded(Repaired(e.record, t, default), default) == t
  {
    var m0 := Fresh(d, from, to);
    var e := Run(m0, es).disk;
    RunKept(m0, m0, d.dirs[from], es);
    WholeOrGone(m0, m0, d.dirs[from], es);
    RestartFindsExactlyWhen(tiers, default, d, from, to, es);
    var u :| Resolves(tiers, e.dirs, Recorded(e.record, default), u) && Complete(e, u, d.dirs[from]);
    ResolvesUnique(tiers, e.dirs, Recorded(e.record, default), t, u);
    assert t in tiers;
  }

  // --- how the two conditions fail ----------------------------------------------------------------

  /** Stopped after part of the old directory is removed, the server goes back to
      what is left of it, although the new tier holds everything. */
  lemma PartialRemovalHides(tiers: seq<Tier>, default: Tier, d: Disk, from: Tier, to: Tier)
    requires Configured(tiers, d) && d.dirs.Keys == {from} && to in tiers && to != from && Recorded(d.record, default) == from
    requires d.dirs[from] != map[]
    ensures var es := [Start(true), Write(d.dirs[from]), CopyEnds(true), Verify(true), RemoveKeeps({})];
            Runs(Fresh(d, from, to), es) && !Finds(tiers, default, Run(Fresh(d, from, to), es).disk, d.dirs[from])
  {
    var m := Fresh(d, from, to);
    var files := d.dirs[from];
    var es := [Start(true), Write(files), CopyEnds(true), Verify(true), RemoveKeeps({})];
    RunOfFive(m, es);
    RestartFindsExactlyWhen(tiers, default, d, from, to, es);
  }

  lemma RunOfFive(m: Move, es: seq<Event>)
    requires |es| == 5
    requires Enabled(m, es[0]) && Enabled(Next(m, es[0]), es[1]) && Enabled(Next(Next(m, es[0]), es[1]), es[2])
    requires var n := Next(Next(Next(m, es[0]), es[1]), es[2]); Enabled(n, es[3]) && Enabled(Next(n, es[3]), es[4])
    ensures Runs(m, es)
    ensures Run(m, es) == Next(Next(Next(Next(Next(m, es[0]), es[1]), es[2]), es[3]), es[4])
  {
    RunsStep(m, [], es[0]);
    assert [] + [es[0]] == es[..1];
    RunsStep(m, es[..1], es[1]);
    assert es[..1] + [es[1]] == es[..2];
    RunsStep(m, es[..2], es[2]);
    assert es[..2] + [es[2]] == es[..3];
    RunsStep(m, es[..3], es[3]);
    assert es[..3] + [es[3]] == es[..4];
    RunsStep(m, es[..4], es[4]);
    assert es[..4] + [es[4]] == es;
  }

  /** Two crashes hide the files even when removal is atomic: the first, during a
      copy to one tier, leaves a directory there; the second, between removing the
      old directory and updating users.json, then finds two candidates and adopts
      neither. */
  lemma TwoCrashesHide(tiers: seq<Tier>, default: Tier, d: Disk, from: Tier, to: Tier, third: Tier)
    requires Configured(tiers, d) && d.dirs.Keys == {from} && Recorded(d.record, default) == from
    requires to in tiers && third in tiers && from != to && from != third && to != third
    ensures var first := [Start(true), Write(map[])];
            var second := [Start(true), Write(d.dirs[from]), CopyEnds(true), Verify(true), RemoveEnds(true)];
            && Runs(Fresh(d, from, third), first)
            && var e := Run(Fresh(d, from, third), first).disk;
               && Finds(tiers, default, e, d.dirs[from])
               && Runs(Fresh(e, from, to), second) && RemovesAtOnce(second)
               && !Finds(tiers, default, Run(Fresh(e, from, to), second).disk, d.dirs[from])
  {
    var files := d.dirs[from];
    var m := Fresh(d, from, third);
    RunsStep(m, [], Start(true));
    assert [] + [Start(true)] == [Start(true)];
    RunsStep(m, [Start(true)], Write(map[]));
    assert [Start(true)] + [Write(map[])] == [Start(true), Write(map[])];
    var first := [Start(true), Write(map[])];
    var e := Run(m, first).disk;
    RestartFindsExactlyWhen(tiers, default, d, from, third, first);
    var second := [Start(true), Write(files), CopyEnds(true), Verify(true), RemoveEnds(true)];
    RunOfFive(Fresh(e, from, to), second);
    RestartFindsExactlyWhen(tiers, default, e, from, to, second);
    assert third in e.dirs;
  }

  /** A directory left over on the target makes every further attempt to move there
      fail without changing anything. */
  lemma LeftoverBlocks(d: Disk, from: Tier, to: Tier, es: seq<Event>)
    requires from in d.dirs && to in d.dirs && Runs(Fresh(d, from, to), es) && es != []
    ensures var m := Run(Fresh(d, from, to), es); m.disk == d && m.stage == Finished(false)
  {
    var m := Next(Fresh(d, from, to), es[0]);
    assert m.stage == Finished(false);
    assert es[1..] == [];
  }

  lemma {:induction false} RunLast(m: Move, es: seq<Event>)
    requires Runs(m, es) && es != []
    ensures var r := es[..|es| - 1];
            Runs(m, r) && Enabled(Run(m, r), es[|es| - 1]) && Run(m, es) == Next(Run(m, r), es[|es| - 1])
    decreases |es|
  {
    if |es| > 1 {
      assert es[1..][..|es| - 2] == es[..|es| - 1][1..];
      RunLast(Next(m, es[0]), es[1..]);
    }
  }

  /** An attempt that reports failure has changed nothing if and only if it leaves no
      directory on the target that was not there before. */
  lemma FailureHarmlessExactlyWhen(d: Disk, from: Tier, to: Tier, es: seq<Event>)
    requires from in d.dirs && Runs(Fresh(d, from, to), es) && Run(Fresh(d, from, to), es).stage == Finished(false)
    ensures var e := Run(Fresh(d, from, to), es).disk; e == d <==> (to in e.dirs ==> to in d.dirs)
  {
    RunKept(Fresh(d, from, to), Fresh(d, from, to), d.dirs[from], es);
    var e := Run(Fresh(d, from, to), es).disk;
    if to in e.dirs ==> to in d.dirs {
      assert e.dirs == d.dirs;
    }
  }

  /** A failed copy that is cleaned up to the end leaves the disk as it was. */
  lemma UndoRestores(d: Disk, from: Tier, to: Tier, es: seq<Event>)
    requires from in d.dirs && Runs(Fresh(d, from, to), es) && es != [] && es[|es| - 1] == UndoEnds(true)
    ensures Run(Fresh(d, from, to), es).disk == d && Run(Fresh(d, from, to), es).stage == Finished(false)
  {
    RunLast(Fresh(d, from, to), es);
    RunKept(Fresh(d, from, to), Fresh(d, from, to), d.dirs[from], es[..|es| - 1]);
    FailureHarmlessExactlyWhen(d, from, to, es);
  }

  /** An attempt that reports success has left everything on the target and recorded it. */
  lemma SuccessMeansMoved(d: Disk, from: Tier, to: Tier, es: seq<Event>)
    requires from in d.dirs && Runs(Fresh(d, from, to), es) && Run(Fresh(d, from, to), es).stage == Finished(true)
    ensures var e := Run(Fresh(d, from, to), es).disk; from != to && Complete(e, to, d.dirs[from]) && e.record == to
  {
    RunKept(Fresh(d, from, to), Fresh(d, from, to), d.dirs[from], es);
  }
}
