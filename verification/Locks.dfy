/** The per-user busy flag against the states of all sessions of that user. */
module Locks {

  type User = string

  const PUBLIC: User := "public"

  /** The flag of u; a user without an entry is not busy. */
  predicate Busy(locks: map<User, bool>, u: User) {
    u in locks && locks[u]
  }

  class LockTable {
    var locks: map<User, bool>
    var registered: set<User>

    constructor (registered: set<User>)
      ensures locks == map[] && this.registered == registered
    {
      this.locks, this.registered := map[], registered;
    }

    /** Take the flag of a known user unless it is taken; never waits. */
    method TryAcquire(u: User) returns (ok: bool)
      modifies this`locks
      ensures ok <==> !Busy(old(locks), u) && (u in old(locks) || u == PUBLIC || u in registered)
      ensures ok == Free(old(locks), registered, u)
      ensures locks == if ok then old(locks)[u := true] else old(locks)
    {
      if u in locks {
        if locks[u] { return false; }
        locks := locks[u := true];
        return true;
      }
      if u == PUBLIC {
        locks := locks[u := true];
        return true;
      }
      if u !in registered { return false; }
      locks := locks[u := true];
      return true;
    }

    method Release(u: User)
      modifies this`locks
      ensures locks == Released(old(locks), u)
    {
      if u in locks { locks := locks[u := false]; }
    }
  }

  predicate Free(locks: map<User, bool>, registered: set<User>, u: User) {
    if u in locks then !locks[u] else u == PUBLIC || u in registered
  }

  function Released(locks: map<User, bool>, u: User): map<User, bool> {
    if u in locks then locks[u := false] else locks
  }

  // --- sessions ---------------------------------------------------------------------------------

  datatype Phase = LoggingIn | Ready | AskResume | Uploading | Downloading | AskTier | Gone

  predicate Holding(p: Phase) {
    p.Uploading? || p.Downloading? || p.AskTier?
  }

  /** offers: interrupted transfers the session has yet to ask about. */
  datatype Session = Session(user: User, phase: Phase, offers: nat)

  datatype Server = Server(sessions: map<nat, Session>, locks: map<User, bool>, registered: set<User>)

  /** One handler of one session, run as a whole. ok stands for the outcome of the
      checks, offers for the interrupted transfers found on login. Naming a user comes
      before the password: the session already carries that name. */
  datatype Handler =
    | Connect
    | Name(user: User)
    | LogIn(ok: bool, offers: nat)
    | QuickCommand
    | StartTransfer(upload: bool, ok: bool)
    | ResumeYes(upload: bool)
    | ResumeNo
    | EndTransfer
    | SetTier
    | ConfirmTier
    | CancelTier
    | FinishExit

  predicate Runnable(s: Server, id: nat, h: Handler) {
    if h.Connect? then id !in s.sessions
    else
      id in s.sessions &&
      var p := s.sessions[id].phase;
      match h
      case Connect => false
      case Name(_) => p == LoggingIn
      case LogIn(_, _) => p == LoggingIn && s.sessions[id].user != ""
      case QuickCommand => p == Ready
      case StartTransfer(_, _) => p == Ready
      case ResumeYes(_) => p == AskResume
      case ResumeNo => p == AskResume
      case EndTransfer => p == Uploading || p == Downloading
      case SetTier => p == Ready
      case ConfirmTier => p == AskTier
      case CancelTier => p == AskTier
      case FinishExit => p != Gone
  }

  function Enter(s: Server, id: nat, p: Phase): Server
    requires id in s.sessions
  {
    s.(sessions := s.sessions[id := s.sessions[id].(phase := p)])
  }

  /** One interrupted transfer is dealt with. */
  function Popped(s: Server, id: nat): Server
    requires id in s.sessions
  {
    var n := s.sessions[id].offers;
    s.(sessions := s.sessions[id := s.sessions[id].(offers := if n > 0 then n - 1 else 0)])
  }

  /** Ask about the next interrupted transfer, or be ready. */
  function Next(s: Server, id: nat): Phase
    requires id in s.sessions
  {
    if s.sessions[id].offers > 0 then AskResume else Ready
  }

  /** The password is accepted: public mode knows no interrupted transfers. */
  function LoggedIn(s: Server, id: nat, offers: nat): Server
    requires id in s.sessions
  {
    var u := s.sessions[id].user;
    var n := if u == PUBLIC then 0 else offers;
    s.(sessions := s.sessions[id := Session(u, if n > 0 then AskResume else Ready, n)])
  }

  function Acquire(s: Server, u: User): Server {
    s.(locks := s.locks[u := true])
  }

  function Release(s: Server, u: User): Server {
    s.(locks := Released(s.locks, u))
  }

  function Handle(s: Server, id: nat, h: Handler): Server
    requires Runnable(s, id, h)
  {
    if h.Connect? then s.(sessions := s.sessions[id := Session("", LoggingIn, 0)])
    else
      var u := s.sessions[id].user;
      match h
      case Connect => s
      case Name(user) => s.(sessions := s.sessions[id := Session(if user == "" then PUBLIC else user, LoggingIn, 0)])
      case LogIn(ok, offers) =>
        if u == PUBLIC then LoggedIn(s, id, 0)
        else if u !in s.registered then LoggedIn(s.(registered := s.registered + {u}), id, offers)
        else if ok then LoggedIn(s, id, offers)
        else s
      case QuickCommand => if Free(s.locks, s.registered, u) then Release(Acquire(s, u), u) else s
      case StartTransfer(upload, ok) =>
        if !Free(s.locks, s.registered, u) then s
        else if !ok then Release(Acquire(s, u), u)
        else Enter(Acquire(s, u), id, if upload then Uploading else Downloading)
      case ResumeYes(upload) =>
        var t := Popped(s, id);
        if !Free(t.locks, t.registered, u) then Enter(t, id, Next(t, id))
        else Enter(Acquire(t, u), id, if upload then Uploading else Downloading)
      case ResumeNo => var t := Popped(s, id); Enter(t, id, Next(t, id))
      case EndTransfer => Release(Enter(s, id, Next(s, id)), u)
      case SetTier => if Free(s.locks, s.registered, u) then Enter(Acquire(s, u), id, AskTier) else s
      case ConfirmTier => Release(Enter(s, id, Ready), u)
      case CancelTier => Release(Enter(s, id, Ready), u)
      case FinishExit => Release(Enter(s, id, Gone), u)
  }

  // --- lock and state agree -----------------------------------------------------------------------

  predicate Holds(s: Server, id: nat, u: User) {
    id in s.sessions && s.sessions[id].user == u && Holding(s.sessions[id].phase)
  }

  /** Some session of u is in a state that owns the flag. */
  ghost predicate Owned(s: Server, u: User) {
    exists id :: Holds(s, id, u)
  }

  /** The flag of every user is set exactly when one of its sessions is in a state
      that owns it, and never do two. */
  ghost predicate InStep(s: Server) {
    && (forall u :: Busy(s.locks, u) <==> Owned(s, u))
    && (forall u, id, id' :: Holds(s, id, u) && Holds(s, id', u) ==> id == id')
  }

  /** Another session of the same user owns the flag. */
  ghost predicate SiblingHolds(s: Server, id: nat)
    requires id in s.sessions
  {
    exists other :: other != id && Holds(s, other, s.sessions[id].user)
  }

  lemma HoldsAfter(s: Server, id: nat, p: Phase, other: nat, u: User)
    requires id in s.sessions
    ensures Holds(Enter(s, id, p), other, u) <==> if other == id then s.sessions[id].user == u && Holding(p) else Holds(s, other, u)
  {
  }

  lemma SameOwned(s: Server, t: Server, u: User)
    requires forall id :: Holds(t, id, u) <==> Holds(s, id, u)
    ensures Owned(t, u) <==> Owned(s, u)
  {
    if Owned(s, u) {
      var id :| Holds(s, id, u);
      assert Holds(t, id, u);
    }
  }

  /** Taking the flag while it is free. */
  lemma AcquireInStep(s: Server, id: nat, p: Phase)
    requires InStep(s) && id in s.sessions && Free(s.locks, s.registered, s.sessions[id].user) && Holding(p)
    ensures InStep(Enter(Acquire(s, s.sessions[id].user), id, p))
  {
    var u := s.sessions[id].user;
    var t := Enter(Acquire(s, u), id, p);
    assert !Owned(s, u);
    forall v, other ensures Holds(t, other, v) <==> (if other == id then u == v else Holds(s, other, v)) {
      HoldsAfter(Acquire(s, u), id, p, other, v);
    }
    assert Holds(t, id, u);
    forall v | v != u ensures Owned(t, v) <==> Owned(s, v) {
      SameOwned(s, t, v);
    }
  }

  /** Giving the flag back on leaving a state that owned it, or was not owned by
      anyone else. */
  lemma ReleaseInStep(s: Server, id: nat, p: Phase)
    requires InStep(s) && id in s.sessions && !SiblingHolds(s, id) && !Holding(p)
    ensures InStep(Release(Enter(s, id, p), s.sessions[id].user))
  {
    var u := s.sessions[id].user;
    var t := Release(Enter(s, id, p), u);
    forall v, other ensures Holds(t, other, v) <==> other != id && Holds(s, other, v) {
      HoldsAfter(s, id, p, other, v);
    }
    forall v | v != u ensures Owned(t, v) <==> Owned(s, v) {
      SameOwned(s, t, v);
    }
  }

  /** A change between states that do not own the flag. */
  lemma QuietInStep(s: Server, t: Server)
    requires InStep(s) && forall u :: Busy(t.locks, u) <==> Busy(s.locks, u)
    requires forall id, u :: Holds(t, id, u) <==> Holds(s, id, u)
    ensures InStep(t)
  {
    forall u ensures Owned(t, u) <==> Owned(s, u) {
      SameOwned(s, t, u);
    }
  }

  lemma OwnerHasNoSibling(s: Server, id: nat)
    requires InStep(s) && id in s.sessions && Holding(s.sessions[id].phase)
    ensures !SiblingHolds(s, id)
  {
    assert Holds(s, id, s.sessions[id].user);
  }

  lemma HandlerInStep(s: Server, id: nat, h: Handler)
    requires InStep(s) && Runnable(s, id, h)
    requires h.FinishExit? ==> !SiblingHolds(s, id)
    ensures InStep(Handle(s, id, h))
  {
    var t := Handle(s, id, h);
    match h
    case FinishExit => ReleaseInStep(s, id, Gone);
    case EndTransfer => OwnerHasNoSibling(s, id); ReleaseInStep(s, id, Next(s, id));
    case ConfirmTier => OwnerHasNoSibling(s, id); ReleaseInStep(s, id, Ready);
    case CancelTier => OwnerHasNoSibling(s, id); ReleaseInStep(s, id, Ready);
    case SetTier =>
      if Free(s.locks, s.registered, s.sessions[id].user) { AcquireInStep(s, id, AskTier); }
    case StartTransfer(upload, ok) =>
      if Free(s.locks, s.registered, s.sessions[id].user) && ok {
        AcquireInStep(s, id, if upload then Uploading else Downloading);
      } else {
        QuietInStep(s, t);
      }
    case ResumeYes(upload) =>
      if Free(s.locks, s.registered, s.sessions[id].user) {
        QuietInStep(s, Popped(s, id));
        AcquireInStep(Popped(s, id), id, if upload then Uploading else Downloading);
      } else {
        QuietInStep(s, t);
      }
    case _ => QuietInStep(s, t);
  }

  // --- every interleaving ----------------------------------------------------------------------------

  datatype Turn = Turn(id: nat, handler: Handler)

  ghost predicate Considerate(s: Server, turn: Turn) {
    turn.handler.FinishExit? && turn.id in s.sessions ==> !SiblingHolds(s, turn.id)
  }

  ghost predicate Interleaving(s: Server, turns: seq<Turn>)
    decreases |turns|
  {
    turns != [] ==>
      Runnable(s, turns[0].id, turns[0].handler) && Considerate(s, turns[0])
      && Interleaving(Handle(s, turns[0].id, turns[0].handler), turns[1..])
  }

  ghost function RunAll(s: Server, turns: seq<Turn>): Server
    requires Interleaving(s, turns)
    decreases |turns|
  {
    if turns == [] then s else RunAll(Handle(s, turns[0].id, turns[0].handler), turns[1..])
  }

  /** Over every interleaving of handlers of any number of sessions and users, flag
      and states agree, as long as no session ends while a sibling is busy. */
  lemma {:induction false} InterleavingsInStep(s: Server, turns: seq<Turn>)
    requires InStep(s) && Interleaving(s, turns)
    ensures InStep(RunAll(s, turns))
    decreases |turns|
  {
    if turns != [] {
      HandlerInStep(s, turns[0].id, turns[0].handler);
      InterleavingsInStep(Handle(s, turns[0].id, turns[0].handler), turns[1..]);
    }
  }

  lemma StartInStep(registered: set<User>)
    ensures InStep(Server(map[], map[], registered))
  {
  }

  // --- who gets the flag ---------------------------------------------------------------------------

  /** A session past login belongs to a known user, and asks about interrupted transfers
      as long as there are any. */
  predicate Orderly(s: Server) {
    forall id :: id in s.sessions ==> Settled(s, s.sessions[id])
  }

  predicate Settled(s: Server, c: Session) {
    && (!c.phase.LoggingIn? && !c.phase.Gone? ==> c.user == PUBLIC || c.user in s.registered)
    && (c.phase.AskResume? ==> c.offers > 0)
    && (c.phase.Ready? || c.phase.AskTier? ==> c.offers == 0)
  }

  lemma HandlerOrderly(s: Server, id: nat, h: Handler)
    requires Orderly(s) && Runnable(s, id, h)
    ensures Orderly(Handle(s, id, h))
  {
    var t := Handle(s, id, h);
    forall x | x in t.sessions ensures Settled(t, t.sessions[x]) {
      if x != id {
        assert Settled(s, s.sessions[x]);
      } else if !h.Connect? {
        assert Settled(s, s.sessions[id]);
      }
    }
  }

  lemma {:induction false} InterleavingsOrderly(s: Server, turns: seq<Turn>)
    requires Orderly(s) && Interleaving(s, turns)
    ensures Orderly(RunAll(s, turns))
    decreases |turns|
  {
    if turns != [] {
      HandlerOrderly(s, turns[0].id, turns[0].handler);
      InterleavingsOrderly(Handle(s, turns[0].id, turns[0].handler), turns[1..]);
    }
  }

  function Fresh(registered: set<User>): Server {
    Server(map[], map[], registered)
  }

  lemma FreeExactlyWhen(registered: set<User>, turns: seq<Turn>, id: nat)
    requires Interleaving(Fresh(registered), turns)
    requires var s := RunAll(Fresh(registered), turns);
             id in s.sessions && !s.sessions[id].phase.LoggingIn? && !s.sessions[id].phase.Gone?
    ensures var s := RunAll(Fresh(registered), turns);
            Free(s.locks, s.registered, s.sessions[id].user) <==> !Owned(s, s.sessions[id].user)
  {
    StartInStep(registered);
    InterleavingsInStep(Fresh(registered), turns);
    InterleavingsOrderly(Fresh(registered), turns);
    var s := RunAll(Fresh(registered), turns);
    assert Settled(s, s.sessions[id]);
  }

  /** Nobody waits for nothing: from server start on, whatever has happened in any
      sessions, a ready session whose request passes its checks starts a transfer, or a
      change of tier, if and only if no session of the same user owns the flag; and then
      it owns it. Otherwise nothing changes. */
  lemma GrantedExactlyWhen(registered: set<User>, turns: seq<Turn>, id: nat, upload: bool)
    requires Interleaving(Fresh(registered), turns)
    requires var s := RunAll(Fresh(registered), turns); id in s.sessions && s.sessions[id].phase == Ready
    ensures var s := RunAll(Fresh(registered), turns);
            var c, t := s.sessions[id], Handle(s, id, StartTransfer(upload, true));
            t.sessions[id] == c.(phase := if Owned(s, c.user) then Ready else if upload then Uploading else Downloading)
            && t.locks == if Owned(s, c.user) then s.locks else s.locks[c.user := true]
    ensures var s := RunAll(Fresh(registered), turns);
            var c, t := s.sessions[id], Handle(s, id, SetTier);
            t.sessions[id] == c.(phase := if Owned(s, c.user) then Ready else AskTier)
            && t.locks == if Owned(s, c.user) then s.locks else s.locks[c.user := true]
  {
    FreeExactlyWhen(registered, turns, id);
  }

  /** The same for an interrupted transfer the user wants to resume. It is off the list in
      any case, so the questions come to an end. */
  lemma ResumedExactlyWhen(registered: set<User>, turns: seq<Turn>, id: nat, upload: bool)
    requires Interleaving(Fresh(registered), turns)
    requires var s := RunAll(Fresh(registered), turns); id in s.sessions && s.sessions[id].phase == AskResume
    ensures var s := RunAll(Fresh(registered), turns);
            var c, d := s.sessions[id], Handle(s, id, ResumeYes(upload)).sessions[id];
            && c.offers > 0 && d.user == c.user && d.offers == c.offers - 1
            && (Owned(s, c.user) ==> d.phase == if d.offers > 0 then AskResume else Ready)
            && (!Owned(s, c.user) ==> d.phase == if upload then Uploading else Downloading)
  {
    FreeExactlyWhen(registered, turns, id);
    InterleavingsOrderly(Fresh(registered), turns);
    assert Settled(RunAll(Fresh(registered), turns), RunAll(Fresh(registered), turns).sessions[id]);
  }

  /** Whoever is done with the flag gives it back: nobody of that user owns it. */
  lemma FreedAfterwards(registered: set<User>, turns: seq<Turn>, id: nat, h: Handler)
    requires Interleaving(Fresh(registered), turns) && (h.EndTransfer? || h.ConfirmTier? || h.CancelTier?)
    requires Runnable(RunAll(Fresh(registered), turns), id, h)
    ensures var s := RunAll(Fresh(registered), turns);
            var c, t := s.sessions[id], Handle(s, id, h);
            && !Owned(t, c.user) && !Busy(t.locks, c.user)
            && t.sessions[id] == c.(phase := if c.offers > 0 then AskResume else Ready)
  {
    var s := RunAll(Fresh(registered), turns);
    StartInStep(registered);
    InterleavingsInStep(Fresh(registered), turns);
    InterleavingsOrderly(Fresh(registered), turns);
    HandlerInStep(s, id, h);
    assert Settled(s, s.sessions[id]);
  }

  /** Whatever the server is doing, a new connection of any user gets in without
      disturbing anybody; without a name it is the public user. */
  lemma AnyoneGetsIn(s: Server, id: nat, u: User)
    requires id !in s.sessions
    ensures var t := Handle(Handle(Handle(s, id, Connect), id, Name(u)), id, LogIn(true, 0));
            t.sessions == s.sessions[id := Session(if u == "" then PUBLIC else u, Ready, 0)] && t.locks == s.locks
  {
  }

  /** Logging in succeeds if and only if the user is public, is new, or gives the right
      password. A new user is known from then on. */
  lemma LoginExactlyWhen(registered: set<User>, turns: seq<Turn>, id: nat, ok: bool, offers: nat)
    requires Interleaving(Fresh(registered), turns)
    requires Runnable(RunAll(Fresh(registered), turns), id, LogIn(ok, offers))
    ensures var s := RunAll(Fresh(registered), turns);
            var c, t := s.sessions[id], Handle(s, id, LogIn(ok, offers));
            && t.sessions[id].user == c.user && t.locks == s.locks
            && (t.sessions[id].phase != LoggingIn <==> c.user == PUBLIC || c.user !in s.registered || ok)
            && (t.sessions[id].phase == AskResume ==> t.sessions[id].offers == offers > 0 && c.user != PUBLIC)
            && (t.sessions[id].phase == Ready ==> offers == 0 || c.user == PUBLIC)
            && (t.sessions[id].phase in {LoggingIn, AskResume, Ready})
            && t.registered == if c.user == PUBLIC then s.registered else s.registered + {c.user}
  {
  }

  /** finish_exit releases unconditionally: it keeps flag and states in step if and
      only if no sibling owns the flag. */
  lemma ExitSafeExactlyWhen(s: Server, id: nat)
    requires InStep(s) && Runnable(s, id, FinishExit)
    ensures InStep(Handle(s, id, FinishExit)) <==> !SiblingHolds(s, id)
  {
    if SiblingHolds(s, id) {
      var u := s.sessions[id].user;
      var other :| other != id && Holds(s, other, u);
      assert Holds(Handle(s, id, FinishExit), other, u);
      assert !Busy(Handle(s, id, FinishExit).locks, u);
    } else {
      HandlerInStep(s, id, FinishExit);
    }
  }

  /** After such an exit a further session of the user can start a transfer beside
      the one that is still running. */
  lemma ExitBreaksExclusion(s: Server, id: nat, other: nat, third: nat)
    requires InStep(s) && Runnable(s, id, FinishExit) && other != id && third != id && third != other
    requires Holds(s, other, s.sessions[id].user)
    requires third in s.sessions && s.sessions[third].user == s.sessions[id].user && s.sessions[third].phase == Ready
    ensures var t := Handle(Handle(s, id, FinishExit), third, StartTransfer(true, true));
            Holds(t, other, s.sessions[id].user) && Holds(t, third, s.sessions[id].user)
  {
    assert Busy(s.locks, s.sessions[id].user);
  }
}
