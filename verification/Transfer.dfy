/** One resumable transfer over any number of connections. The sender is the
    uploading client or the downloading session, the receiver the other one; both
    run the same stop-and-wait protocol and keep their progress when a connection
    ends gracefully. */
module Transfer {
  import opened Trees
  import opened Chunks

  datatype Data = Data(index: nat, data: Content, last: bool)

  /** The receiver's answers. Error follows a failed write or a failed check of the whole
      file, Mismatch a chunk that is not the negotiated one. */
  datatype Ack = Got(index: nat) | Done(index: nat) | Error | Mismatch

  datatype Status = Receiving | Delivered(content: Content) | Aborted(mismatch: bool)

  datatype State = State(
    file: Content,       // what was negotiated: chunk list and whole-file hash
    disk: Content,       // the sender's file as it is now
    acked: seq<bool>,    // sender's record
    got: seq<bool>,      // receiver's record
    part: Content,       // receiver's partial file
    status: Status,
    linked: bool,
    toReceiver: seq<Data>,
    toSender: seq<Ack>,
    finished: bool,      // the sender has seen DONE
    failed: bool,        // the sender has seen ERROR
    sent: nat,           // data frames sent so far
    interruptions: nat)

  /** First chunk not acknowledged yet; the length when there is none. */
  function FirstPending(acked: seq<bool>): (i: nat)
    ensures i <= |acked| && (i < |acked| ==> !acked[i]) && forall j :: 0 <= j < i ==> acked[j]
  {
    if acked == [] then 0 else if !acked[0] then 0 else 1 + FirstPending(acked[1..])
  }

  /** The search both senders run before each chunk. */
  method FindPending(acked: seq<bool>) returns (index: Option<nat>)
    ensures index == if FirstPending(acked) < |acked| then Some(FirstPending(acked)) else None
  {
    for i := 0 to |acked|
      invariant forall j :: 0 <= j < i ==> acked[j]
    {
      if !acked[i] { return Some(i); }
    }
    index := None;
  }

  /** Read the first pending chunk and send it, as LAST when it is the last one.
      Nothing is sent when nothing is pending or the read comes back empty. */
  function SendNext(s: State): State {
    var i := FirstPending(s.acked);
    if i >= |s.acked| then s
    else
      var data := ReadChunk(s.disk, Wrap(CHUNK_SIZE * i), |ChunkAt(s.file, i)|);
      if data == [] then s
      else s.(toReceiver := s.toReceiver + [Data(i, data, i == |s.acked| - 1)], sent := s.sent + 1)
  }

  function Begin(file: Content): State {
    var n := ChunkCount(|file|);
    State(file, file, seq(n, _ => false), seq(n, _ => false), [], Receiving, false, [], [], false, false, 0, 0)
  }

  /** WriteFails is a chunk that the receiver cannot write. */
  datatype Event = Connect | Receive | WriteFails | Acknowledge | Interrupt | Modify(content: Content)

  predicate Enabled(s: State, e: Event) {
    match e
    case Connect => !s.linked && s.status == Receiving && !s.finished && !s.failed
    case Receive => s.linked && s.status == Receiving && s.toReceiver != [] && s.toReceiver[0].index < |s.got|
    case WriteFails => s.linked && s.status == Receiving && s.toReceiver != []
    case Acknowledge => s.linked && !s.finished && !s.failed && s.toSender != [] && InList(s.toSender[0], |s.acked|)
    case Interrupt => s.linked
    case Modify(_) => true
  }

  predicate InList(a: Ack, n: nat) {
    match a
    case Got(i) => i < n
    case Done(i) => i < n
    case _ => true
  }

  function Apply(s: State, e: Event): State
    requires Enabled(s, e)
  {
    match e
    case Connect => SendNext(s.(linked := true))
    case Receive => Received(s.(toReceiver := s.toReceiver[1..]), s.toReceiver[0])
    case WriteFails => s.(toReceiver := s.toReceiver[1..], status := Aborted(false), toSender := s.toSender + [Error])
    case Acknowledge => Acknowledged(s.(toSender := s.toSender[1..]), s.toSender[0])
    case Interrupt => s.(linked := false, toReceiver := [], toSender := [], interruptions := s.interruptions + 1)
    case Modify(c) => s.(disk := c)
  }

  /** The receiver checks the chunk against the negotiated list, marks and writes
      it, and on the last one checks the whole file before moving it into place. */
  function Received(s: State, d: Data): State
    requires d.index < |s.got|
  {
    if d.data != ChunkAt(s.file, d.index) then s.(status := Aborted(true), toSender := s.toSender + [Mismatch])
    else
      var part := WriteChunk(s.part, Wrap(CHUNK_SIZE * d.index), d.data);
      var t := s.(got := s.got[d.index := true], part := part);
      if !d.last then t.(toSender := t.toSender + [Got(d.index)])
      else if part != s.file then t.(status := Aborted(false), toSender := t.toSender + [Error])
      else t.(status := Delivered(part), toSender := t.toSender + [Done(d.index)])
  }

  /** The sender goes on, ends, or gives up; a mismatch it does not understand. */
  function Acknowledged(s: State, a: Ack): State
    requires InList(a, |s.acked|)
  {
    match a
    case Got(i) => SendNext(s.(acked := s.acked[i := true]))
    case Done(i) => s.(acked := s.acked[i := true], finished := true)
    case Error => s.(failed := true)
    case Mismatch => s
  }

  function Run(s: State, es: seq<Event>): Option<State> {
    if es == [] then Some(s) else Then(Run(s, es[..|es| - 1]), es[|es| - 1])
  }

  function Then(r: Option<State>, e: Event): Option<State> {
    if r.Some? && Enabled(r.value, e) then Some(Apply(r.value, e)) else None
  }

  // --- the invariant --------------------------------------------------------------------------------

  function Held(got: seq<bool>): set<nat> {
    set i: nat | i < |got| && got[i]
  }

  predicate Sized(s: State) {
    && 0 < |s.file| <= MAX_SIZE
    && |s.acked| == ChunkCount(|s.file|) && |s.got| == ChunkCount(|s.file|)
  }

  /** What the sender has acknowledged is a prefix, and the receiver has it all. */
  predicate Prefixed(s: State)
    requires |s.got| == |s.acked|
  {
    var a := FirstPending(s.acked);
    && (forall i :: 0 <= i < |s.acked| ==> (s.acked[i] <==> i < a))
    && (forall i :: 0 <= i < |s.acked| && s.acked[i] ==> s.got[i])
  }

  /** Nothing is on its way: the sender had nothing to read. */
  predicate Stalled(s: State) {
    s.toReceiver == [] && s.toSender == []
  }

  /** Stop-and-wait: at most one chunk or one acknowledgement is on its way. */
  predicate OneInFlight(s: State, a: nat)
    requires |s.got| == |s.acked|
  {
    || Stalled(s)
    || (s.toSender == [] && |s.toReceiver| == 1 && s.toReceiver[0].index == a && s.toReceiver[0].last == (a == |s.acked| - 1))
    || (s.toReceiver == [] && s.toSender == [Got(a)] && a < |s.acked| - 1 && s.got[a])
  }

  predicate AllAcked(acked: seq<bool>, n: nat)
    requires n <= |acked|
  {
    forall i :: 0 <= i < n ==> acked[i]
  }

  /** The sender has read DONE, and everything is acknowledged; or DONE is still on its
      way; or the connection went down with it. */
  predicate Ending(s: State)
    requires |s.acked| > 0
  {
    && AllAcked(s.acked, |s.acked| - 1) && !s.failed
    && (|| (s.finished && s.toSender == [] && AllAcked(s.acked, |s.acked|))
        || (!s.finished && s.linked && s.toSender == [Done(|s.acked| - 1)])
        || (!s.finished && !s.linked && s.toSender == []))
  }

  /** A mismatch the sender never understands; of an error it has read, or ERROR is on its
      way, or the connection went down with it. */
  predicate GivingUp(s: State, mismatch: bool) {
    if mismatch then !s.failed && (s.toSender == [] || s.toSender == [Mismatch])
    else
      || (s.failed && s.toSender == [])
      || (!s.failed && s.linked && s.toSender == [Error])
      || (!s.failed && !s.linked && s.toSender == [])
  }

  ghost predicate Safe(s: State) {
    && Sized(s)
    && var a := FirstPending(s.acked);
    && (match s.status
        case Receiving =>
          && !s.finished && !s.failed && Prefixed(s) && a < |s.acked|
          && Agrees(s.part, s.file, Held(s.got))
          && (if s.linked then OneInFlight(s, a) else Stalled(s))
        case Delivered(c) => c == s.file && s.toReceiver == [] && Ending(s)
        case Aborted(mismatch) => s.toReceiver == [] && !s.finished && GivingUp(s, mismatch))
    && a <= s.sent <= a + s.interruptions + 1
    && (s.status == Receiving && !s.linked ==> s.sent <= a + s.interruptions)
    && (s.status == Receiving && !Stalled(s) ==> a < s.sent)
    && (s.status.Delivered? ==> |s.acked| <= s.sent)
  }

  lemma {:induction false} FirstPendingOf(acked: seq<bool>, a: nat)
    requires a <= |acked| && forall i :: 0 <= i < |acked| ==> (acked[i] <==> i < a)
    ensures FirstPending(acked) == a
  {
    if a > 0 {
      FirstPendingOf(acked[1..], a - 1);
    }
  }

  lemma BeginSafe(file: Content)
    requires 0 < |file| <= MAX_SIZE
    ensures Safe(Begin(file))
  {
    ChunkCountExactlyWhen(|file|);
    var s := Begin(file);
    assert Held(s.got) == {};
    assert FirstPending(s.acked) == 0;
  }

  /** The next chunk is sent unless the source ends before it; no offset wraps. */
  lemma SendNextSends(s: State)
    requires Sized(s) && FirstPending(s.acked) < |s.acked|
    ensures var i := FirstPending(s.acked);
            && Wrap(CHUNK_SIZE * i) == i * CHUNK_SIZE
            && SendNext(s) ==
               if |s.disk| <= i * CHUNK_SIZE then s
               else s.(toReceiver := s.toReceiver + [Data(i, ReadChunk(s.disk, i * CHUNK_SIZE, |ChunkAt(s.file, i)|), i == |s.acked| - 1)],
                       sent := s.sent + 1)
    ensures var i := FirstPending(s.acked);
            s.disk == s.file ==> |s.disk| > i * CHUNK_SIZE && ReadChunk(s.disk, i * CHUNK_SIZE, |ChunkAt(s.file, i)|) == ChunkAt(s.file, i)
  {
    var i := FirstPending(s.acked);
    NoOverflow(|s.file|, i);
    ChunkCountExactlyWhen(|s.file|);
    SliceOf(s.file, i);
  }

  lemma ConnectSafe(s: State)
    requires Safe(s) && Enabled(s, Connect)
    ensures Safe(Apply(s, Connect))
  {
    SendNextSends(s.(linked := true));
  }

  lemma WrittenAgrees(s: State, d: Data)
    requires Sized(s) && Agrees(s.part, s.file, Held(s.got)) && d.index < |s.got| && d.data == ChunkAt(s.file, d.index)
    ensures Agrees(WriteChunk(s.part, Wrap(CHUNK_SIZE * d.index), d.data), s.file, Held(s.got[d.index := true]))
  {
    InRange(s, d.index);
    WriteAgrees(s.part, s.file, Held(s.got), d.index);
    HeldMore(s.got, d.index);
  }

  lemma InRange(s: State, i: nat)
    requires Sized(s) && i < |s.got|
    ensures i < Ceiling(|s.file|) && Wrap(CHUNK_SIZE * i) == i * CHUNK_SIZE
  {
    ChunkCountExactlyWhen(|s.file|);
    NoOverflow(|s.file|, i);
  }

  lemma HeldMore(got: seq<bool>, i: nat)
    requires i < |got|
    ensures Held(got[i := true]) == Held(got) + {i}
  {
  }

  /** When LAST arrives everything else has arrived before, so the whole-file
      check passes. */
  lemma LastCompletes(s: State, d: Data)
    requires Sized(s) && Prefixed(s) && Agrees(s.part, s.file, Held(s.got))
    requires FirstPending(s.acked) == |s.acked| - 1 && d.index == |s.acked| - 1 && d.data == ChunkAt(s.file, d.index)
    ensures WriteChunk(s.part, Wrap(CHUNK_SIZE * d.index), d.data) == s.file
  {
    WrittenAgrees(s, d);
    ChunkCountExactlyWhen(|s.file|);
    AgreementIsEquality(WriteChunk(s.part, Wrap(CHUNK_SIZE * d.index), d.data), s.file, Held(s.got[d.index := true]));
  }

  lemma ReceiveSafe(s: State)
    requires Safe(s) && Enabled(s, Receive)
    ensures Safe(Apply(s, Receive))
    ensures s.disk == s.file && s.toReceiver[0].data == ChunkAt(s.file, s.toReceiver[0].index) ==> !Apply(s, Receive).status.Aborted?
  {
    var d := s.toReceiver[0];
    if d.data == ChunkAt(s.file, d.index) {
      WrittenAgrees(s, d);
      if d.last { LastCompletes(s, d); }
    }
  }

  lemma AcknowledgeSafe(s: State)
    requires Safe(s) && Enabled(s, Acknowledge)
    ensures Safe(Apply(s, Acknowledge))
  {
    var a := s.toSender[0];
    if a.Got? {
      var acked := s.acked[a.index := true];
      FirstPendingOf(acked, a.index + 1);
      SendNextSends(s.(toSender := s.toSender[1..], acked := acked));
    } else if a.Done? {
      DoneSafe(s);
    }
  }

  lemma DoneSafe(s: State)
    requires Safe(s) && Enabled(s, Acknowledge) && s.toSender[0].Done?
    ensures Safe(Apply(s, Acknowledge)) && Apply(s, Acknowledge).finished
  {
    var n := |s.acked|;
    assert s.toSender == [Done(n - 1)];
    var acked := s.acked[n - 1 := true];
    FirstPendingOf(acked, n);
    MorePending(s.acked, n - 1);
    LastPending(s.acked);
  }

  lemma LastPending(acked: seq<bool>)
    requires |acked| > 0 && AllAcked(acked, |acked| - 1)
    ensures FirstPending(acked) >= |acked| - 1
  {
  }

  lemma MorePending(acked: seq<bool>, i: nat)
    requires i < |acked|
    ensures FirstPending(acked) <= FirstPending(acked[i := true])
  {
    var b := FirstPending(acked[i := true]);
    assert b < |acked| ==> b != i && !acked[b];
  }

  lemma SameFile(s: State, e: Event)
    requires Enabled(s, e)
    ensures Apply(s, e).file == s.file
  {
  }

  lemma StepSafe(s: State, e: Event)
    requires Safe(s) && Enabled(s, e)
    ensures Safe(Apply(s, e))
  {
    match e
    case Connect => ConnectSafe(s);
    case Receive => ReceiveSafe(s);
    case WriteFails =>
    case Acknowledge => AcknowledgeSafe(s);
    case Interrupt =>
    case Modify(_) =>
  }

  /** Safety of every run: whatever the interruptions, resumes and modifications of
      the source, the records stay in step, the partial file agrees with what was
      negotiated, and what is delivered is exactly that. */
  lemma {:induction false} EveryRunSafe(file: Content, es: seq<Event>)
    requires 0 < |file| <= MAX_SIZE && Run(Begin(file), es).Some?
    ensures Safe(Run(Begin(file), es).value) && Run(Begin(file), es).value.file == file
    decreases |es|
  {
    if es == [] {
      BeginSafe(file);
    } else {
      EveryRunSafe(file, es[..|es| - 1]);
      StepSafe(Run(Begin(file), es[..|es| - 1]).value, es[|es| - 1]);
      SameFile(Run(Begin(file), es[..|es| - 1]).value, es[|es| - 1]);
    }
  }

  // --- an unmodified source -----------------------------------------------------------------------------

  /** No modification of the source and no failed write. */
  predicate Undisturbed(es: seq<Event>) {
    forall e :: e in es ==> !e.Modify? && !e.WriteFails?
  }

  /** The source is untouched and so is every chunk on its way. */
  ghost predicate Faithful(s: State) {
    && s.disk == s.file
    && (s.status == Receiving && s.linked ==> !Stalled(s))
    && forall x :: 0 <= x < |s.toReceiver| ==> s.toReceiver[x].data == ChunkAt(s.file, s.toReceiver[x].index)
  }

  lemma StepFaithful(s: State, e: Event)
    requires Safe(s) && Faithful(s) && Enabled(s, e) && !e.Modify? && !e.WriteFails? && !s.status.Aborted?
    ensures Faithful(Apply(s, e)) && !Apply(s, e).status.Aborted?
  {
    match e
    case Connect => SendNextSends(s.(linked := true));
    case Receive => ReceiveSafe(s);
    case Acknowledge =>
      var a := s.toSender[0];
      if a.Got? {
        var acked := s.acked[a.index := true];
        FirstPendingOf(acked, a.index + 1);
        SendNextSends(s.(toSender := s.toSender[1..], acked := acked));
      }
    case Interrupt =>
  }

  /** With an unmodified source no check ever fails, over any number of graceful
      interruptions and resumes. */
  lemma {:induction false} UnmodifiedNeverAborts(file: Content, es: seq<Event>)
    requires 0 < |file| <= MAX_SIZE && Run(Begin(file), es).Some? && Undisturbed(es)
    ensures Faithful(Run(Begin(file), es).value) && !Run(Begin(file), es).value.status.Aborted?
    decreases |es|
  {
    if es != [] {
      var r := es[..|es| - 1];
      assert es[|es| - 1] in es && forall e :: e in r ==> e in es;
      UnmodifiedNeverAborts(file, r);
      EveryRunSafe(file, r);
      StepFaithful(Run(Begin(file), r).value, es[|es| - 1]);
    }
  }

  // --- when the sender falls silent ----------------------------------------------------------------------

  /** A sender that is to go on sends nothing if and only if its file now ends before
      the next chunk. */
  lemma StallsExactlyWhen(s: State, e: Event)
    requires Safe(s) && Enabled(s, e) && (e == Connect || e == Acknowledge) && s.status == Receiving
    ensures var t := Apply(s, e); Stalled(t) <==> |s.disk| <= FirstPending(t.acked) * CHUNK_SIZE
  {
    if e == Connect {
      SendNextSends(s.(linked := true));
    } else {
      var a := s.toSender[0];
      var acked := s.acked[a.index := true];
      FirstPendingOf(acked, a.index + 1);
      SendNextSends(s.(toSender := s.toSender[1..], acked := acked));
    }
  }

  /** The source reaches into its last chunk. */
  predicate LongEnough(content: Content, file: Content) {
    |content| > (ChunkCount(|file|) - 1) * CHUNK_SIZE
  }

  ghost predicate Moving(s: State) {
    LongEnough(s.disk, s.file) && (s.status == Receiving && s.linked ==> !Stalled(s))
  }

  lemma StepMoving(s: State, e: Event)
    requires Safe(s) && Moving(s) && Enabled(s, e) && (e.Modify? ==> LongEnough(e.content, s.file))
    ensures Moving(Apply(s, e)) && Apply(s, e).file == s.file
  {
    if e == Connect || (e == Acknowledge && s.status == Receiving) {
      StallsExactlyWhen(s, e);
      StepSafe(s, e);
      BelowLast(Apply(s, e));
    }
  }

  lemma BelowLast(s: State)
    requires Sized(s) && LongEnough(s.disk, s.file) && FirstPending(s.acked) < |s.acked|
    ensures FirstPending(s.acked) * CHUNK_SIZE < |s.disk|
  {
    assert FirstPending(s.acked) <= ChunkCount(|s.file|) - 1;
  }

  lemma {:induction false} RunMoving(file: Content, es: seq<Event>)
    requires 0 < |file| <= MAX_SIZE && Run(Begin(file), es).Some?
    requires forall e :: e in es && e.Modify? ==> LongEnough(e.content, file)
    ensures Moving(Run(Begin(file), es).value) && Run(Begin(file), es).value.file == file
    decreases |es|
  {
    if es == [] {
      ChunkCountExactlyWhen(|file|);
    } else {
      var r, e := es[..|es| - 1], es[|es| - 1];
      assert e in es && forall x :: x in r ==> x in es;
      RunMoving(file, r);
      EveryRunSafe(file, r);
      StepMoving(Run(Begin(file), r).value, e);
    }
  }

  /** While no modification cuts off a chunk, a live transfer never gets stuck. */
  lemma NeverStuck(file: Content, es: seq<Event>)
    requires 0 < |file| <= MAX_SIZE && Run(Begin(file), es).Some?
    requires forall e :: e in es && e.Modify? ==> LongEnough(e.content, file)
    requires var s := Run(Begin(file), es).value; s.status == Receiving && s.linked
    ensures var s := Run(Begin(file), es).value; Enabled(s, Receive) || Enabled(s, Acknowledge)
  {
    EveryRunSafe(file, es);
    RunMoving(file, es);
  }

  /** What a safe state says, in the words of the protocol. */
  lemma SafeMeans(s: State)
    requires Safe(s)
    ensures s.status.Delivered? ==> s.status.content == s.file
    ensures s.status == Receiving ==> forall i :: 0 <= i < |s.acked| && s.acked[i] ==> s.got[i]
    ensures s.status == Receiving ==> forall i, j :: 0 <= i < j < |s.acked| && s.acked[j] ==> s.acked[i]
    ensures s.status == Receiving && s.toReceiver != [] && s.toReceiver[0].last ==>
              forall i :: 0 <= i < |s.got| - 1 ==> s.got[i]
    ensures FirstPending(s.acked) <= s.sent <= |s.acked| + s.interruptions + 1
    ensures s.finished ==> s.status == Delivered(s.file) && AllAcked(s.acked, |s.acked|)
    ensures s.status.Delivered? && s.linked && s.toSender == [] ==> s.finished
    ensures s.failed ==> s.status == Aborted(false)
    ensures s.status == Aborted(false) && s.linked && s.toSender == [] ==> s.failed
  {
  }

  /** The receiver gives up over a chunk that changed at its source, and only then. Its
      answer means nothing to the sender, which neither ends nor gives up from then on. */
  lemma {:induction false} MismatchUnheard(s: State, es: seq<Event>)
    requires Safe(s) && s.status == Aborted(true) && Run(s, es).Some?
    ensures var t := Run(s, es).value; t.status == Aborted(true) && !t.finished && !t.failed && t.acked == s.acked
    ensures Safe(Run(s, es).value)
    decreases |es|
  {
    if es != [] {
      MismatchUnheard(s, es[..|es| - 1]);
      StepSafe(Run(s, es[..|es| - 1]).value, es[|es| - 1]);
    }
  }

  lemma MismatchExactlyWhen(s: State)
    requires Safe(s) && Enabled(s, Receive)
    ensures Apply(s, Receive).status.Aborted? <==> s.toReceiver[0].data != ChunkAt(s.file, s.toReceiver[0].index)
  {
    var d := s.toReceiver[0];
    if d.data == ChunkAt(s.file, d.index) {
      WrittenAgrees(s, d);
      if d.last { LastCompletes(s, d); }
    }
  }

  // --- completion ---------------------------------------------------------------------------------------

  lemma RunMore(s: State, es: seq<Event>, e: Event)
    ensures Run(s, es + [e]) == Then(Run(s, es), e)
  {
    assert (es + [e])[..|es|] == es;
  }

  lemma {:induction false} RunFront(s: State, e: Event, es: seq<Event>)
    requires Enabled(s, e)
    ensures Run(s, [e] + es) == Run(Apply(s, e), es)
    decreases |es|
  {
    if es == [] {
      RunMore(s, [], e);
      assert [e] + es == [] + [e];
    } else {
      var init, last := es[..|es| - 1], es[|es| - 1];
      RunFront(s, e, init);
      RunMore(s, [e] + init, last);
      assert [e] + es == [e] + init + [last];
    }
  }

  lemma AckAdvances(s: State)
    requires Safe(s) && s.status == Receiving && Enabled(s, Acknowledge)
    ensures var t := Apply(s, Acknowledge);
            t.status == Receiving && t.linked && t.file == s.file && |t.acked| == |s.acked|
            && FirstPending(t.acked) == FirstPending(s.acked) + 1
  {
    var a := s.toSender[0];
    FirstPendingOf(s.acked[a.index := true], a.index + 1);
    SendNextSends(s.(toSender := s.toSender[1..], acked := s.acked[a.index := true]));
  }

  /** Frames still to be read until the sender ends. */
  function FramesLeft(s: State): int {
    2 * (|s.acked| - FirstPending(s.acked)) - (if s.toReceiver == [] then 1 else 0)
  }

  predicate ReadsOnly(es: seq<Event>) {
    forall x :: 0 <= x < |es| ==> es[x] == Receive || es[x] == Acknowledge
  }

  /** Both sides have ended with the whole file. */
  predicate Ended(s: State, file: Content) {
    s.status == Delivered(file) && s.finished && AllAcked(s.acked, |s.acked|)
  }

  /** From every reachable state with an unmodified source and a connection that
      holds, both sides end: one data frame and one answer for each chunk that is still
      missing, and the sender learns of it. */
  lemma {:induction false} Completes(s: State) returns (es: seq<Event>)
    requires Safe(s) && Faithful(s) && s.status == Receiving && s.linked
    ensures |es| == FramesLeft(s) && ReadsOnly(es)
    ensures Run(s, es).Some? && Ended(Run(s, es).value, s.file)
    decreases |s.acked| - FirstPending(s.acked), 1
  {
    if s.toReceiver != [] {
      StepSafe(s, Receive);
      StepFaithful(s, Receive);
      var t := Apply(s, Receive);
      var rest: seq<Event>;
      if t.status == Receiving {
        rest := AfterAck(t);
      } else {
        rest := DoneRead(t);
      }
      es := [Receive] + rest;
      RunFront(s, Receive, rest);
    } else {
      es := AfterAck(s);
    }
  }

  /** DONE is the last frame to be read. */
  lemma DoneRead(s: State) returns (es: seq<Event>)
    requires Safe(s) && s.status.Delivered? && s.linked && !s.finished
    ensures es == [Acknowledge] && Run(s, es).Some? && Ended(Run(s, es).value, s.file)
  {
    es := [Acknowledge];
    DoneSafe(s);
    RunFront(s, Acknowledge, []);
    assert [Acknowledge] + [] == es;
  }

  lemma {:induction false} AfterAck(s: State) returns (es: seq<Event>)
    requires Safe(s) && Faithful(s) && s.status == Receiving && s.linked && s.toReceiver == []
    ensures |es| == FramesLeft(s) && ReadsOnly(es)
    ensures Run(s, es).Some? && Ended(Run(s, es).value, s.file)
    decreases |s.acked| - FirstPending(s.acked), 0
  {
    StepSafe(s, Acknowledge);
    StepFaithful(s, Acknowledge);
    AckAdvances(s);
    var rest := Completes(Apply(s, Acknowledge));
    es := [Acknowledge] + rest;
    RunFront(s, Acknowledge, rest);
  }

  // --- which transfers can still end -----------------------------------------------------------------------

  /** The receiver has the file, and the connection went down with DONE on its way. */
  predicate DoneLost(s: State) {
    s.status.Delivered? && !s.linked && !s.finished
  }

  predicate Finishes(s: State, es: seq<Event>) {
    Undisturbed(es) && Run(s, es).Some? && Ended(Run(s, es).value, s.file)
  }

  /** The receiver no longer knows the transfer, so there is nothing to connect for. */
  lemma {:induction false} LostStays(s: State, es: seq<Event>)
    requires Safe(s) && DoneLost(s) && Run(s, es).Some?
    ensures Safe(Run(s, es).value) && DoneLost(Run(s, es).value)
    decreases |es|
  {
    if es != [] {
      LostStays(s, es[..|es| - 1]);
      StepSafe(Run(s, es[..|es| - 1]).value, es[|es| - 1]);
    }
  }

  lemma FinishesFrom(s: State) returns (es: seq<Event>)
    requires Safe(s) && Faithful(s) && !s.status.Aborted? && !DoneLost(s)
    ensures Finishes(s, es)
  {
    if s.finished {
      es := [];
    } else if s.status.Delivered? {
      es := DoneRead(s);
    } else if s.linked {
      es := Completes(s);
    } else {
      StepSafe(s, Connect);
      StepFaithful(s, Connect);
      SendNextSends(s.(linked := true));
      var rest := Completes(Apply(s, Connect));
      es := [Connect] + rest;
      RunFront(s, Connect, rest);
    }
  }

  /** After any run with an unmodified source, whatever the interruptions, the transfer
      can still be brought to its end on both sides, with a new connection where it has
      none, if and only if DONE was not lost. */
  lemma FinishesExactlyWhen(file: Content, es: seq<Event>)
    requires 0 < |file| <= MAX_SIZE && Run(Begin(file), es).Some? && Undisturbed(es)
    ensures var s := Run(Begin(file), es).value; (exists fs :: Finishes(s, fs)) <==> !DoneLost(s)
  {
    var s := Run(Begin(file), es).value;
    EveryRunSafe(file, es);
    UnmodifiedNeverAborts(file, es);
    if DoneLost(s) {
      forall fs ensures !Finishes(s, fs) {
        NeverFinishes(s, fs);
      }
    } else {
      var fs := FinishesFrom(s);
    }
  }

  lemma NeverFinishes(s: State, es: seq<Event>)
    requires Safe(s) && DoneLost(s)
    ensures !Finishes(s, es)
  {
    if Run(s, es).Some? {
      LostStays(s, es);
    }
  }

  /** How often the connection went down. */
  function Interruptions(es: seq<Event>): nat {
    if es == [] then 0 else Interruptions(es[..|es| - 1]) + (if es[|es| - 1] == Interrupt then 1 else 0)
  }

  /** Chunks are sent again only after an interruption, and then at most one each time. */
  lemma ResentOnlyAfterInterruption(file: Content, es: seq<Event>)
    requires 0 < |file| <= MAX_SIZE && Run(Begin(file), es).Some?
    ensures var s := Run(Begin(file), es).value; s.sent <= |s.acked| + Interruptions(es) + 1
  {
    EveryRunSafe(file, es);
    InterruptionsCounted(Begin(file), es);
  }

  lemma {:induction false} InterruptionsCounted(s: State, es: seq<Event>)
    requires Run(s, es).Some?
    ensures Run(s, es).value.interruptions == s.interruptions + Interruptions(es)
    decreases |es|
  {
    if es != [] {
      InterruptionsCounted(s, es[..|es| - 1]);
      OneInterruption(Run(s, es[..|es| - 1]).value, es[|es| - 1]);
    }
  }

  lemma OneInterruption(s: State, e: Event)
    requires Enabled(s, e)
    ensures Apply(s, e).interruptions == s.interruptions + if e == Interrupt then 1 else 0
  {
  }

  /** Above the 32-bit bound the chunk list is empty: no run ever sends anything, and
      the transfer never ends. */
  lemma {:induction false} OversizedNeverStarts(file: Content, es: seq<Event>)
    requires MAX_SIZE < |file| < U32 && Run(Begin(file), es).Some?
    ensures var s := Run(Begin(file), es).value;
            s.sent == 0 && s.acked == [] && s.got == [] && s.status == Receiving && s.toReceiver == [] && s.toSender == []
    decreases |es|
  {
    ChunkCountExactlyWhen(|file|);
    if es != [] {
      OversizedNeverStarts(file, es[..|es| - 1]);
    }
  }
}
