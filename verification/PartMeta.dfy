/** The store of unfinished transfers: which ids it hands out, and what of it
    survives a restart. */
module PartMeta {

  const WRAP := 0x1_0000_0000

  /** uint32_t */
  type Id = x: int | 0 <= x < WRAP

  /** UINT32_MAX: "choose an id for me" in Add, "no transfer" in the callers. */
  const NONE: Id := 0xFFFF_FFFF

  datatype Kind = Upload | Download

  datatype Entry = Entry(id: Id, path: string, size: nat, kind: Kind, received: seq<bool>, lastActivity: nat)

  function Bump(id: Id): Id {
    (id + 1) % WRAP
  }

  // --- what the operations compute ------------------------------------------------------------------

  datatype Mem = Mem(entries: map<Id, Entry>, nextId: Id, free: seq<Id>)

  function Chosen(m: Mem): Id {
    if m.free != [] then m.free[0] else m.nextId
  }

  function Took(m: Mem): Mem {
    if m.free != [] then m.(free := m.free[1..]) else m.(nextId := Bump(m.nextId))
  }

  /** std::map::emplace: an entry that is already there stays. */
  function Emplaced(entries: map<Id, Entry>, e: Entry): map<Id, Entry> {
    if e.id in entries then entries else entries[e.id := e]
  }

  function Added(m: Mem, e: Entry): Mem {
    m.(entries := Emplaced(m.entries, e))
  }

  function AddedNew(m: Mem, e: Entry): Mem {
    Added(Took(m), e.(id := Chosen(m)))
  }

  function Deleted(m: Mem, id: Id): Mem {
    m.(entries := m.entries - {id}, free := m.free + [id])
  }

  function DeletedAll(m: Mem, ids: seq<Id>): Mem {
    if ids == [] then m else Deleted(DeletedAll(m, ids[..|ids| - 1]), ids[|ids| - 1])
  }

  function Marked(m: Mem, id: Id, index: nat, now: nat): Mem
    requires id in m.entries ==> index < |m.entries[id].received|
  {
    if id !in m.entries then m
    else
      var e := m.entries[id];
      m.(entries := m.entries[id := e.(received := e.received[index := true], lastActivity := now)])
  }

  /** The next id is raised above every id read, in uint32_t arithmetic. */
  function Loaded(file: seq<Entry>): Mem {
    if file == [] then Mem(map[], 1, [])
    else
      var m, e := Loaded(file[..|file| - 1]), file[|file| - 1];
      Mem(Emplaced(m.entries, e), if Bump(e.id) > m.nextId then Bump(e.id) else m.nextId, [])
  }

  /** The file lists every entry once, in whatever order. */
  ghost predicate Lists(file: seq<Entry>, entries: map<Id, Entry>) {
    && (forall i, j :: 0 <= i < j < |file| ==> file[i].id != file[j].id)
    && (forall i :: 0 <= i < |file| ==> file[i].id in entries && entries[file[i].id] == file[i])
    && (forall id :: id in entries ==> entries[id] in file)
  }

  ghost predicate Labelled(entries: map<Id, Entry>) {
    forall id :: id in entries ==> entries[id].id == id
  }

  predicate Expired(e: Entry, now: nat, timeout: nat) {
    now > e.lastActivity + timeout
  }

  // --- the store ------------------------------------------------------------------------------------

  class Store {
    var entries: map<Id, Entry>
    var nextId: Id
    var freeIds: seq<Id>
    var file: seq<Entry>
    const timeout: nat

    ghost function Memory(): Mem
      reads this
    {
      Mem(entries, nextId, freeIds)
    }

    /** A store over an existing, or an empty, metadata file. */
    constructor (file: seq<Entry>, now: nat, timeout: nat)
      ensures exists gone :: GoneAre(Loaded(file).entries, gone, now, timeout) && Memory() == DeletedAll(Loaded(file), gone)
      ensures Labelled(entries)
    {
      this.file, this.timeout := file, timeout;
      entries, nextId, freeIds := map[], 1, [];
      new;
      Load();
      LoadedHolds(file);
      ghost var gone := CleanupExpired(now);
    }

    method GenerateId() returns (id: Id)
      modifies this`freeIds, this`nextId
      ensures id == Chosen(old(Memory())) && Memory() == Took(old(Memory()))
    {
      if freeIds != [] {
        id := freeIds[0];
        freeIds := freeIds[1..];
        return;
      }
      id := nextId;
      nextId := Bump(nextId);
    }

    method Add(e: Entry) returns (id: Id)
      modifies this`entries, this`freeIds, this`nextId
      ensures e.id == NONE ==> id == Chosen(old(Memory())) && Memory() == AddedNew(old(Memory()), e)
      ensures e.id != NONE ==> id == e.id && Memory() == Added(old(Memory()), e)
    {
      id := e.id;
      if id == NONE { id := GenerateId(); }
      if id !in entries { entries := entries[id := e.(id := id)]; }
    }

    /** Removal is saved at once, so that a finished transfer is not offered again. */
    method Delete(id: Id)
      requires Labelled(entries)
      modifies this`entries, this`freeIds, this`file
      ensures Memory() == Deleted(old(Memory()), id)
      ensures Lists(file, entries)
    {
      entries := entries - {id};
      freeIds := freeIds + [id];
      Save();
    }

    method MarkChunkReceived(id: Id, index: nat, now: nat)
      requires id in entries ==> index < |entries[id].received|
      modifies this`entries
      ensures Memory() == Marked(old(Memory()), id, index, now)
      ensures entries.Keys == old(entries.Keys) && forall x :: x in entries && x != id ==> entries[x] == old(entries)[x]
      ensures id in entries ==> entries[id].lastActivity == now && |entries[id].received| == |old(entries)[id].received|
      ensures id in entries ==>
                forall i :: 0 <= i < |entries[id].received| ==> entries[id].received[i] == (i == index || old(entries)[id].received[i])
    {
      if id !in entries { return; }
      var e := entries[id];
      entries := entries[id := e.(received := e.received[index := true], lastActivity := now)];
    }

    /** Writes the entries in the order the hash table happens to give. */
    method Save()
      requires Labelled(entries)
      modifies this`file
      ensures Lists(file, entries)
    {
      var out: seq<Entry> := [];
      var rest := entries.Keys;
      while rest != {}
        invariant rest <= entries.Keys
        invariant forall i, j :: 0 <= i < j < |out| ==> out[i].id != out[j].id
        invariant forall i :: 0 <= i < |out| ==> out[i].id in entries && out[i].id !in rest && entries[out[i].id] == out[i]
        invariant forall id :: id in entries && id !in rest ==> entries[id] in out
        decreases rest
      {
        var id :| id in rest;
        out := out + [entries[id]];
        rest := rest - {id};
      }
      file := out;
    }

    method Load()
      requires nextId == 1 && freeIds == []
      modifies this`entries, this`nextId
      ensures Memory() == Loaded(file)
    {
      entries := map[];
      for i := 0 to |file|
        invariant Memory() == Loaded(file[..i])
      {
        assert file[..i + 1][..i] == file[..i];
        var e := file[i];
        if e.id !in entries { entries := entries[e.id := e]; }
        nextId := if Bump(e.id) > nextId then Bump(e.id) else nextId;
      }
      assert file[..|file|] == file;
    }

    /** The ids of the expired entries, in the order the hash table happens to give. */
    method ExpiredIds(now: nat) returns (expired: seq<Id>)
      ensures GoneAre(entries, expired, now, timeout)
    {
      expired := [];
      var rest := entries.Keys;
      while rest != {}
        invariant rest <= entries.Keys
        invariant GoneAre(map id | id in entries && id !in rest :: entries[id], expired, now, timeout)
        decreases rest
      {
        var id :| id in rest;
        if Expired(entries[id], now, timeout) { expired := expired + [id]; }
        rest := rest - {id};
      }
      assert (map id | id in entries && id !in rest :: entries[id]) == entries;
    }

    method CleanupExpired(now: nat) returns (ghost gone: seq<Id>)
      requires Labelled(entries)
      modifies this`entries, this`freeIds, this`file
      ensures GoneAre(old(entries), gone, now, timeout)
      ensures Memory() == DeletedAll(old(Memory()), gone)
      ensures Labelled(entries)
      ensures forall id :: id in entries <==> id in old(entries) && now <= old(entries)[id].lastActivity + timeout
      ensures forall id :: id in entries ==> entries[id] == old(entries)[id]
      ensures gone != [] ==> Lists(file, entries)
    {
      var expired := ExpiredIds(now);
      gone := expired;
      StayExactlyWhen(Memory(), expired, now, timeout);
      if expired == [] { return; }
      for i := 0 to |expired|
        invariant Memory() == DeletedAll(old(Memory()), expired[..i])
        invariant Labelled(entries)
      {
        assert expired[..i + 1][..i] == expired[..i];
        Delete(expired[i]);
      }
      assert expired[..|expired|] == expired;
      Save();
    }
  }

  /** gone names exactly the expired entries, each once. */
  ghost predicate GoneAre(entries: map<Id, Entry>, gone: seq<Id>, now: nat, timeout: nat) {
    && (forall i, j :: 0 <= i < j < |gone| ==> gone[i] != gone[j])
    && (forall i :: 0 <= i < |gone| ==> gone[i] in entries && Expired(entries[gone[i]], now, timeout))
    && (forall id :: id in entries && Expired(entries[id], now, timeout) ==> id in gone)
  }

  lemma {:induction false} DeletedAllLeaves(m: Mem, ids: seq<Id>)
    ensures DeletedAll(m, ids).nextId == m.nextId && DeletedAll(m, ids).free == m.free + ids
    ensures forall id :: id in DeletedAll(m, ids).entries <==> id in m.entries && id !in ids
    ensures forall id :: id in DeletedAll(m, ids).entries ==> DeletedAll(m, ids).entries[id] == m.entries[id]
  {
    if ids != [] {
      DeletedAllLeaves(m, ids[..|ids| - 1]);
      assert ids == ids[..|ids| - 1] + [ids[|ids| - 1]];
    }
  }

  lemma StayExactlyWhen(m: Mem, gone: seq<Id>, now: nat, timeout: nat)
    requires GoneAre(m.entries, gone, now, timeout)
    ensures var left := DeletedAll(m, gone).entries;
            && (forall id :: id in left <==> id in m.entries && now <= m.entries[id].lastActivity + timeout)
            && (forall id :: id in left ==> left[id] == m.entries[id])
  {
    DeletedAllLeaves(m, gone);
  }

  // --- ids ------------------------------------------------------------------------------------------

  /** Free ids are handed out once, are not in use, and all ids met so far lie below
      the next one. */
  ghost predicate Sound(m: Mem) {
    && (forall i, j :: 0 <= i < j < |m.free| ==> m.free[i] != m.free[j])
    && (forall i :: 0 <= i < |m.free| ==> m.free[i] !in m.entries && m.free[i] < m.nextId)
    && (forall id :: id in m.entries ==> id < m.nextId)
  }

  /** A sound store never hands out an id in use, and stays sound if and only if the
      counter did not wrap around. */
  lemma GeneratedIsFresh(m: Mem, e: Entry)
    requires Sound(m)
    ensures Chosen(m) !in m.entries
    ensures AddedNew(m, e).entries == m.entries[Chosen(m) := e.(id := Chosen(m))]
    ensures Sound(AddedNew(m, e)) <==> m.free != [] || m.nextId < NONE
  {
    var n := AddedNew(m, e);
    if m.free != [] {
      assert m.free[0] == Chosen(m);
    } else if m.nextId == NONE {
      assert n.nextId == 0 && NONE in n.entries;
    }
  }

  /** Deleting keeps the store sound if and only if the id is in use, or is one that
      was met before and is neither in use nor free. */
  lemma DeleteSoundExactlyWhen(m: Mem, id: Id)
    requires Sound(m)
    ensures Sound(Deleted(m, id)) <==> id in m.entries || (id < m.nextId && id !in m.free)
  {
    var n := Deleted(m, id);
    if id !in m.entries && id in m.free {
      var i :| 0 <= i < |m.free| && m.free[i] == id;
      assert n.free[i] == n.free[|m.free|];
    } else if id !in m.entries && id >= m.nextId {
      assert n.free[|m.free|] == id;
    } else {
      assert forall i :: 0 <= i < |m.free| ==> n.free[i] == m.free[i];
    }
  }

  /** One deletion too many makes two later transfers share an id, and the second of
      them is not recorded at all. Two sessions of a user that both decline to resume
      the same transfer delete its id twice. */
  lemma DoubleDeleteCollides(m: Mem, id: Id, e: Entry, f: Entry)
    requires Sound(m) && m.free == [] && id in m.entries
    ensures var m1 := Deleted(Deleted(m, id), id);
            var m2 := AddedNew(m1, e);
            Chosen(m1) == Chosen(m2) && AddedNew(m2, f).entries == m2.entries
  {
  }

  /** The ids that the new transfers es are given, one after the other. */
  function HandedOut(m: Mem, es: seq<Entry>): (ids: seq<Id>)
    ensures |ids| == |es|
    decreases |es|
  {
    if es == [] then [] else [Chosen(m)] + HandedOut(AddedNew(m, es[0]), es[1..])
  }

  /** Ids come back in the order in which they became free, and only then does the
      counter go on. */
  lemma {:induction false} FreedComeBackInOrder(m: Mem, ids: seq<Id>, es: seq<Entry>, n: nat)
    requires n < |es|
    ensures HandedOut(DeletedAll(m, ids), es)[n]
         == if n < |m.free| then m.free[n]
            else if n < |m.free| + |ids| then ids[n - |m.free|]
            else (m.nextId + n - |m.free| - |ids|) % WRAP
  {
    DeletedAllLeaves(m, ids);
    HandedOutAt(DeletedAll(m, ids), es, n);
  }

  lemma BumpCommutes(id: Id, n: nat)
    ensures (Bump(id) + n) % WRAP == (id + n + 1) % WRAP
  {
  }

  lemma {:induction false} HandedOutAt(m: Mem, es: seq<Entry>, n: nat)
    requires n < |es|
    ensures HandedOut(m, es)[n] == if n < |m.free| then m.free[n] else (m.nextId + n - |m.free|) % WRAP
    decreases n
  {
    if n > 0 {
      var m' := AddedNew(m, es[0]);
      HandedOutAt(m', es[1..], n - 1);
      if m.free == [] {
        BumpCommutes(m.nextId, n - 1);
      }
    }
  }

  // --- save and load --------------------------------------------------------------------------------

  ghost predicate Listed(file: seq<Entry>, id: Id) {
    exists i :: 0 <= i < |file| && file[i].id == id
  }

  lemma ListedMore(file: seq<Entry>, e: Entry, id: Id)
    ensures Listed(file + [e], id) <==> Listed(file, id) || e.id == id
  {
    var more := file + [e];
    if Listed(more, id) {
      var i :| 0 <= i < |more| && more[i].id == id;
      assert i < |file| ==> file[i].id == id;
    }
    if Listed(file, id) {
      var i :| 0 <= i < |file| && file[i].id == id;
      assert more[i].id == id;
    }
    assert more[|file|] == e;
  }

  lemma {:induction false} LoadedHolds(file: seq<Entry>)
    ensures Loaded(file).free == [] && Labelled(Loaded(file).entries)
    ensures forall id :: id in Loaded(file).entries <==> Listed(file, id)
    ensures forall id :: id in Loaded(file).entries ==> Loaded(file).entries[id] in file
  {
    if file != [] {
      var init, e := file[..|file| - 1], file[|file| - 1];
      LoadedHolds(init);
      assert file == init + [e];
      forall id ensures id in Loaded(file).entries <==> Listed(file, id) {
        ListedMore(init, e, id);
      }
    }
  }

  /** Should an id be listed twice, the first entry counts. */
  lemma {:induction false} FirstListedWins(file: seq<Entry>, i: nat)
    requires i < |file| && forall j :: 0 <= j < i ==> file[j].id != file[i].id
    ensures file[i].id in Loaded(file).entries && Loaded(file).entries[file[i].id] == file[i]
  {
    var init := file[..|file| - 1];
    if i < |init| {
      FirstListedWins(init, i);
    } else {
      LoadedHolds(init);
    }
  }

  lemma {:induction false} LoadedAbove(file: seq<Entry>, i: nat)
    requires i < |file| && file[i].id < NONE
    ensures file[i].id < Loaded(file).nextId
  {
    if i < |file| - 1 {
      LoadedAbove(file[..|file| - 1], i);
    }
  }

  /** What was saved is what is loaded, in whatever order it was written. */
  lemma SaveLoadRoundTrip(file: seq<Entry>, entries: map<Id, Entry>)
    requires Labelled(entries) && Lists(file, entries)
    ensures Loaded(file).entries == entries
  {
    LoadedHolds(file);
    var m := Loaded(file);
    forall id | id in entries ensures id in m.entries {
      var i :| 0 <= i < |file| && file[i] == entries[id];
      assert file[i].id == id;
    }
    forall id | id in m.entries ensures id in entries && m.entries[id] == entries[id] {
      var i :| 0 <= i < |file| && file[i] == m.entries[id];
    }
  }

  /** A restart is sound if and only if the highest id is not in the file. */
  lemma RestartSoundExactlyWhen(file: seq<Entry>)
    ensures Sound(Loaded(file)) <==> forall i :: 0 <= i < |file| ==> file[i].id < NONE
  {
    LoadedHolds(file);
    var m := Loaded(file);
    if forall i :: 0 <= i < |file| ==> file[i].id < NONE {
      forall id | id in m.entries ensures id < m.nextId {
        var i :| 0 <= i < |file| && file[i].id == id;
        LoadedAbove(file, i);
      }
    } else {
      var i :| 0 <= i < |file| && file[i].id == NONE;
      assert NONE in m.entries;
    }
  }

  // --- every run ------------------------------------------------------------------------------------

  /** Memory and metadata file. */
  datatype State = State(mem: Mem, file: seq<Entry>)

  /** An expiry is a series of deletions of live ids, each of them saved. */
  datatype Event = New(entry: Entry) | Drop(id: Id, file: seq<Entry>) | Mark(id: Id, index: nat, now: nat)
                 | Save(file: seq<Entry>) | Restart

  /** The store chooses its ids, the counter has not reached its end, and only live
      ids are deleted. A restart may come at any time, also without a save. */
  ghost predicate Allowed(s: State, e: Event) {
    match e
    case New(_) => s.mem.free != [] || s.mem.nextId < NONE
    case Drop(id, file) => id in s.mem.entries && Lists(file, Deleted(s.mem, id).entries)
    case Mark(id, index, _) => id in s.mem.entries ==> index < |s.mem.entries[id].received|
    case Save(file) => Lists(file, s.mem.entries)
    case Restart => true
  }

  ghost function Next(s: State, e: Event): State
    requires Allowed(s, e)
  {
    match e
    case New(entry) => s.(mem := AddedNew(s.mem, entry))
    case Drop(id, file) => State(Deleted(s.mem, id), file)
    case Mark(id, index, now) => s.(mem := Marked(s.mem, id, index, now))
    case Save(file) => s.(file := file)
    case Restart => s.(mem := Loaded(s.file))
  }

  ghost predicate Runs(s: State, es: seq<Event>)
    decreases |es|
  {
    es != [] ==> Allowed(s, es[0]) && Runs(Next(s, es[0]), es[1..])
  }

  ghost function Run(s: State, es: seq<Event>): State
    requires Runs(s, es)
    decreases |es|
  {
    if es == [] then s else Run(Next(s, es[0]), es[1..])
  }

  ghost predicate Healthy(s: State) {
    Sound(s.mem) && Labelled(s.mem.entries) && forall i :: 0 <= i < |s.file| ==> s.file[i].id < NONE
  }

  /** A new store is healthy and has handed out nothing. */
  lemma EmptyIsHealthy()
    ensures var s := State(Loaded([]), []); Healthy(s) && Counted(s.mem) && s.mem.entries == map[]
  {
  }

  lemma NextHealthy(s: State, e: Event)
    requires Healthy(s) && Allowed(s, e)
    ensures Healthy(Next(s, e))
  {
    match e
    case New(entry) => GeneratedIsFresh(s.mem, entry);
    case Drop(id, _) => DeleteSoundExactlyWhen(s.mem, id);
    case Mark(_, _, _) =>
    case Save(_) =>
    case Restart => RestartSoundExactlyWhen(s.file); LoadedHolds(s.file);
  }

  /** Over every run, with deletions, expiry, saves and restarts at any point, the
      store is sound and the id it would hand out next is not in use. */
  lemma {:induction false} EveryRunFresh(s: State, es: seq<Event>)
    requires Healthy(s) && Runs(s, es)
    ensures Healthy(Run(s, es)) && Chosen(Run(s, es).mem) !in Run(s, es).mem.entries
    decreases |es|
  {
    if es == [] {
      GeneratedIsFresh(s.mem, Entry(0, "", 0, Upload, [], 0));
    } else {
      NextHealthy(s, es[0]);
      EveryRunFresh(Next(s, es[0]), es[1..]);
    }
  }

  // --- how far the counter goes ----------------------------------------------------------------------

  /** Every id handed out since the store was empty is in use or free. */
  ghost predicate Counted(m: Mem) {
    |m.entries| + |m.free| == m.nextId - 1
  }

  ghost predicate WithinLifetime(es: seq<Event>) {
    forall i :: 0 <= i < |es| ==> !es[i].Restart?
  }

  lemma NextCounted(s: State, e: Event)
    requires Healthy(s) && Counted(s.mem) && Allowed(s, e) && !e.Restart?
    ensures Counted(Next(s, e).mem)
  {
    match e
    case New(entry) => GeneratedIsFresh(s.mem, entry);
    case Drop(id, _) =>
      assert s.mem.entries == Deleted(s.mem, id).entries[id := s.mem.entries[id]];
    case Mark(_, _, _) =>
      assert Next(s, e).mem.entries.Keys == s.mem.entries.Keys;
    case Save(_) =>
  }

  /** Until the next restart no id is lost: used and free ids add up to the counter,
      so it advances only when every id below it is in use, and never gets past one
      more than the largest number of transfers unfinished at one time. */
  lemma {:induction false} IdsConserved(s: State, es: seq<Event>)
    requires Healthy(s) && Counted(s.mem) && Runs(s, es) && WithinLifetime(es)
    ensures Counted(Run(s, es).mem)
    decreases |es|
  {
    if es != [] {
      assert !es[0].Restart?;
      NextHealthy(s, es[0]);
      NextCounted(s, es[0]);
      IdsConserved(Next(s, es[0]), es[1..]);
    }
  }

  /** The queue of free ids is not saved. After a restart the counter stands right
      above the highest live id, and the free ids below that one are gone for good:
      the store counts up although fewer ids are in use. */
  lemma RestartForgetsFreeIds(m: Mem, file: seq<Entry>, top: Id)
    requires Sound(m) && Labelled(m.entries) && Lists(file, m.entries) && m.nextId < NONE
    requires top in m.entries && forall id :: id in m.entries ==> id <= top
    ensures var n := Loaded(file); n.entries == m.entries && n.free == [] && n.nextId == top + 1
  {
    SaveLoadRoundTrip(file, m.entries);
    LoadedHolds(file);
    var i :| 0 <= i < |file| && file[i] == m.entries[top];
    LoadedAbove(file, i);
    LoadedBelow(file, top);
  }

  lemma {:induction false} LoadedBelow(file: seq<Entry>, top: Id)
    requires top < NONE && forall i :: 0 <= i < |file| ==> file[i].id <= top
    ensures Loaded(file).nextId <= top + 1
  {
    if file != [] {
      LoadedBelow(file[..|file| - 1], top);
    }
  }
}
