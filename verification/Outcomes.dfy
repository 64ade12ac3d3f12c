/** How a transfer ended, as each side sees it. The two histories are read off a run
    and never differ in what they both hold. */
module Outcomes {
  import opened Framing
  import opened Commands

  /** One transfer that is over: its direction, and whether it went well. */
  datatype End = End(upload: bool, ok: bool)

  /** Reading a frame took the server out of a transfer. An upload went well if LAST was
      read and nothing failed, a download if the client said DONE. */
  function ServerEnd(st: State, e: Event): seq<End>
    requires Enabled(st, e)
  {
    if e.ServerReads? && ServerExpectsChunk(st.server) && !ServerExpectsChunk(Apply(st, e).server) then
      [End(st.server.Receiving?, if st.server.Receiving? then st.toServer[0] == Chunk(Last) && !e.fails else st.toServer[0] == Chunk(Done))]
    else []
  }

  /** The same for the client, with the directions exchanged. */
  function ClientEnd(st: State, e: Event): seq<End>
    requires Enabled(st, e)
  {
    if e.ClientReads? && ClientExpectsChunk(st.client) && !ClientExpectsChunk(Apply(st, e).client) then
      [End(st.client.Uploading?, if st.client.Uploading? then st.toClient[0] == Chunk(Done) else st.toClient[0] == Chunk(Last) && !e.fails)]
    else []
  }

  function ServerEnds(st: State, es: seq<Event>): seq<End>
    requires Run(st, es).Reached?
  {
    if es == [] then []
    else
      var r, e := es[..|es| - 1], es[|es| - 1];
      ServerEnds(st, r) + ServerEnd(Run(st, r).state, e)
  }

  function ClientEnds(st: State, es: seq<Event>): seq<End>
    requires Run(st, es).Reached?
  {
    if es == [] then []
    else
      var r, e := es[..|es| - 1], es[|es| - 1];
      ClientEnds(st, r) + ClientEnd(Run(st, r).state, e)
  }

  /** The server has ended a transfer the client does not know about yet. */
  predicate EndOnItsWayBack(st: State) {
    ClientExpectsChunk(st.client) && st.toClient != [] && IsEnd(st.toClient[0])
  }

  /** What the client has ended and what the server has ended is the same, up to one end
      that is on its way, and the frame on its way tells how. */
  predicate InTouch(st: State, c: seq<End>, s: seq<End>) {
    if EndOnItsWay(st) then c == s + [End(st.server.Receiving?, st.toServer[0] == Chunk(Done))]
    else if EndOnItsWayBack(st) then s == c + [End(st.client.Uploading?, st.toClient[0] == Chunk(Done))]
    else c == s
  }

  // --- one step -------------------------------------------------------------------------------------

  /** A step after which both sides are in touch again. */
  predicate KeepsTouch(st: State, e: Event, c: seq<End>, s: seq<End>) {
    Enabled(st, e) && InTouch(Apply(st, e), c + ClientEnd(st, e), s + ServerEnd(st, e))
  }

  lemma TypingKeepsTouch(st: State, e: Event, c: seq<End>, s: seq<End>)
    requires Inv(st) && Enabled(st, e) && InTouch(st, c, s) && (e.Issue? || e.Reply?)
    ensures KeepsTouch(st, e, c, s)
  {
  }

  lemma UploadRead(st: State, e: Event, c: seq<End>, s: seq<End>)
    requires Agree(st) && Enabled(st, e) && InTouch(st, c, s) && e.ClientReads? && st.client == Uploading
    ensures KeepsTouch(st, e, c, s)
  {
  }

  lemma DownloadRead(st: State, e: Event, c: seq<End>, s: seq<End>)
    requires Agree(st) && Enabled(st, e) && InTouch(st, c, s) && e.ClientReads? && st.client == Downloading
    ensures KeepsTouch(st, e, c, s)
  {
  }

  lemma AnswerRead(st: State, e: Event, c: seq<End>, s: seq<End>)
    requires Agree(st) && Enabled(st, e) && InTouch(st, c, s) && e.ClientReads? && !ClientExpectsChunk(st.client)
    ensures KeepsTouch(st, e, c, s)
  {
  }

  lemma UploadServed(st: State, e: Event, c: seq<End>, s: seq<End>)
    requires Agree(st) && Enabled(st, e) && InTouch(st, c, s) && e.ServerReads? && st.server == Receiving
    ensures KeepsTouch(st, e, c, s)
  {
  }

  lemma DownloadServed(st: State, e: Event, c: seq<End>, s: seq<End>)
    requires Agree(st) && Enabled(st, e) && InTouch(st, c, s) && e.ServerReads? && st.server == Sending
    ensures KeepsTouch(st, e, c, s)
  {
  }

  lemma RequestServed(st: State, e: Event, c: seq<End>, s: seq<End>)
    requires Agree(st) && Enabled(st, e) && InTouch(st, c, s) && e.ServerReads? && !ServerExpectsChunk(st.server)
    ensures KeepsTouch(st, e, c, s)
  {
  }

  lemma ReadKeepsTouch(st: State, e: Event, c: seq<End>, s: seq<End>)
    requires Inv(st) && Enabled(st, e) && InTouch(st, c, s) && e.ClientReads?
    ensures KeepsTouch(st, e, c, s)
  {
    if Agree(st) {
      match st.client
      case Uploading => UploadRead(st, e, c, s);
      case Downloading => DownloadRead(st, e, c, s);
      case _ => AnswerRead(st, e, c, s);
    } else if n: nat :| KickLag(st, n) {
      KickKeepsTouch(st, n, e, c, s);
    } else {
      LagKeepsTouch(st, e, c, s);
    }
  }

  /** A resumed transfer starts with a piece, not with an end. */
  lemma KickKeepsTouch(st: State, n: nat, e: Event, c: seq<End>, s: seq<End>)
    requires KickLag(st, n) && Enabled(st, e) && InTouch(st, c, s) && e.ClientReads?
    ensures KeepsTouch(st, e, c, s)
  {
    if n > 0 {
      assert st.toClient[0] == st.toClient[..n][0];
    } else {
      assert st.toClient[0..] == st.toClient;
    }
  }

  /** Outside a transfer nothing ends. */
  lemma LagKeepsTouch(st: State, e: Event, c: seq<End>, s: seq<End>)
    requires !ServerExpectsChunk(st.server) && !ClientExpectsChunk(st.client)
    requires OneQuestion(st.toClient) || OnlyAnswers(st.toClient)
    requires Idling(st.client) || OneQuestion(st.toClient)
    requires Enabled(st, e) && InTouch(st, c, s) && e.ClientReads?
    ensures KeepsTouch(st, e, c, s)
  {
  }

  lemma ServedKeepsTouch(st: State, e: Event, c: seq<End>, s: seq<End>)
    requires Inv(st) && Enabled(st, e) && InTouch(st, c, s) && e.ServerReads?
    ensures KeepsTouch(st, e, c, s)
  {
    if Agree(st) {
      match st.server
      case Receiving => UploadServed(st, e, c, s);
      case Sending => DownloadServed(st, e, c, s);
      case _ => RequestServed(st, e, c, s);
    } else if k :| EndLag(st, k) {
      EndServedTouch(st, k, e, c, s);
    } else {
      LagServed(st, e, c, s);
    }
  }

  /** The end is read before the command behind it. */
  lemma EndServedTouch(st: State, k: Command, e: Event, c: seq<End>, s: seq<End>)
    requires EndLag(st, k) && Enabled(st, e) && InTouch(st, c, s) && e.ServerReads?
    ensures KeepsTouch(st, e, c, s)
  {
    assert st.toServer[1..] == [Request(k)];
  }

  /** Outside a transfer the server ends none, and what it starts begins afresh. */
  lemma LagServed(st: State, e: Event, c: seq<End>, s: seq<End>)
    requires Inv(st) && !Agree(st) && (forall k :: !EndLag(st, k))
    requires Enabled(st, e) && InTouch(st, c, s) && e.ServerReads?
    ensures KeepsTouch(st, e, c, s)
  {
    if x: nat :| ReplyLag(st, x) {
      ReplyServedTouch(st, x, e, c, s);
    }
  }

  lemma ReplyServedTouch(st: State, x: nat, e: Event, c: seq<End>, s: seq<End>)
    requires ReplyLag(st, x) && Enabled(st, e) && InTouch(st, c, s) && e.ServerReads?
    ensures KeepsTouch(st, e, c, s)
  {
    assert x > 0 ==> st.toServer[0] == st.toServer[..x][0];
  }

  lemma StepKeepsTouch(st: State, e: Event, c: seq<End>, s: seq<End>)
    requires Inv(st) && Enabled(st, e) && InTouch(st, c, s)
    ensures KeepsTouch(st, e, c, s)
  {
    match e
    case ClientReads(_, _) => ReadKeepsTouch(st, e, c, s);
    case ServerReads(_, _) => ServedKeepsTouch(st, e, c, s);
    case _ => TypingKeepsTouch(st, e, c, s);
  }

  // --- whole runs -----------------------------------------------------------------------------------

  lemma {:induction false} RunKeepsTouch(st: State, es: seq<Event>)
    requires Initial(st) && Run(st, es).Reached?
    ensures InTouch(Run(st, es).state, ClientEnds(st, es), ServerEnds(st, es))
    decreases |es|
  {
    if es != [] {
      var r, e := es[..|es| - 1], es[|es| - 1];
      RunKeepsTouch(st, r);
      RunKeeps(st, r);
      StepKeepsTouch(Run(st, r).state, e, ClientEnds(st, r), ServerEnds(st, r));
    }
  }

  /** In every careful run the two sides agree on how each transfer ended: the client
      takes an upload for stored if and only if the server stored that upload, and the
      server takes a download for done if and only if the client stored it. Neither side
      is ever ahead by more than one end, which is then on its way to the other one. */
  lemma OutcomesAgree(st: State, es: seq<Event>)
    requires Initial(st) && Run(st, es).Reached?
    ensures var c, s := ClientEnds(st, es), ServerEnds(st, es);
            && -1 <= |c| - |s| <= 1
            && (forall n :: 0 <= n < |c| && n < |s| ==> c[n] == s[n])
            && (|c| > |s| <==> EndOnItsWay(Run(st, es).state))
            && (|c| < |s| <==> EndOnItsWayBack(Run(st, es).state))
  {
    RunKeepsTouch(st, es);
    RunKeeps(st, es);
    NotBothWays(Run(st, es).state);
  }

  lemma NotBothWays(st: State)
    requires Inv(st)
    ensures !(EndOnItsWay(st) && EndOnItsWayBack(st))
  {
  }

  /** A transfer goes on with a frame, on either side, if and only if the frame asks for
      more and nothing fails. */
  lemma GoesOnExactlyWhen(st: State, es: seq<Event>, e: Event)
    requires Initial(st) && Run(st, es).Reached? && Enabled(Run(st, es).state, e)
    ensures var t := Run(st, es).state;
            e.ServerReads? && ServerExpectsChunk(t.server) ==>
              (ServerEnd(t, e) == [] <==> (t.toServer[0] == Chunk(Send) || t.toServer[0] == Chunk(Got)) && !e.fails)
    ensures var t := Run(st, es).state;
            e.ClientReads? && ClientExpectsChunk(t.client) ==>
              (ClientEnd(t, e) == [] <==> (t.toClient[0] == Chunk(Send) || t.toClient[0] == Chunk(Got)) && !e.fails)
  {
    RunKeeps(st, es);
    EndsOnly(Run(st, es).state, e);
  }

  lemma EndsOnly(t: State, e: Event)
    requires Inv(t) && Enabled(t, e)
    ensures e.ServerReads? && ServerExpectsChunk(t.server) ==>
              (ServerEnd(t, e) == [] <==> (t.toServer[0] == Chunk(Send) || t.toServer[0] == Chunk(Got)) && !e.fails)
    ensures e.ClientReads? && ClientExpectsChunk(t.client) ==>
              (ClientEnd(t, e) == [] <==> (t.toClient[0] == Chunk(Send) || t.toClient[0] == Chunk(Got)) && !e.fails)
  {
  }

  /** A transfer starts at the server if and only if it is asked for, or accepted when
      offered, and no check fails; its direction is the one asked for or offered. */
  lemma StartsExactlyWhen(st: State, es: seq<Event>, last: bool, fails: bool)
    requires Initial(st) && Run(st, es).Reached?
    requires var t := Run(st, es).state; t.toServer != [] && !ServerExpectsChunk(t.server)
    ensures var t := Run(st, es).state;
            && t.toServer[0].Request? && (t.server == AskResume ==> t.todo != [])
            && var k, u := t.toServer[0].command, Apply(t, ServerReads(last, fails)).server;
            && (u == Receiving <==> !fails && if t.server == AskResume then k == Yes && t.todo[0] else k == Upload)
            && (u == Sending <==> !fails && if t.server == AskResume then k == Yes && !t.todo[0] else k == Download)
  {
    RunKeeps(st, es);
    var t := Run(st, es).state;
    InvFits(t);
    ListNotEmpty(t);
  }

  lemma ListNotEmpty(t: State)
    requires Inv(t)
    ensures t.server == AskResume ==> t.todo != []
    ensures t.toServer != [] && !t.toServer[0].Chunk? ==> t.toServer[0].Request?
    ensures t.toServer != [] && t.server == Idle ==> !t.toServer[0].command.Yes? && !t.toServer[0].command.No?
  {
    if x: nat :| ReplyLag(t, x) {
      assert x > 0 ==> t.toServer[0] == t.toServer[..x][0];
    }
  }

  // --- the list of offers -----------------------------------------------------------------------------

  predicate IsReply(f: Frame) {
    f == Request(Yes) || f == Request(No)
  }

  /** Answers to resume questions the server has read so far. */
  function RepliesRead(st: State, es: seq<Event>): nat
    requires Run(st, es).Reached?
  {
    if es == [] then 0
    else
      var r, e := es[..|es| - 1], es[|es| - 1];
      RepliesRead(st, r) + if e.ServerReads? && IsReply(Run(st, r).state.toServer[0]) then 1 else 0
  }

  lemma OneOfferPerReply(t: State, e: Event)
    requires Inv(t) && Enabled(t, e)
    ensures Apply(t, e).todo == if e.ServerReads? && IsReply(t.toServer[0]) && t.todo != [] then t.todo[1..] else t.todo
    ensures e.ServerReads? && IsReply(t.toServer[0]) ==> t.todo != []
  {
    InvFits(t);
    ListNotEmpty(t);
  }

  /** Each answer settles the offer it was given to: after n answers the first n
      interrupted transfers are settled, and the others are still to be offered, in
      order. */
  lemma {:induction false} OffersInOrder(st: State, es: seq<Event>)
    requires Initial(st) && Run(st, es).Reached?
    ensures RepliesRead(st, es) <= |st.todo| && Run(st, es).state.todo == st.todo[RepliesRead(st, es)..]
    decreases |es|
  {
    if es != [] {
      var r, e := es[..|es| - 1], es[|es| - 1];
      OffersInOrder(st, r);
      RunKeeps(st, r);
      OneOfferPerReply(Run(st, r).state, e);
    }
  }

  // --- no deadlock -----------------------------------------------------------------------------------

  /** Somebody has something to do: the user, or the reader of a frame. */
  predicate Alive(st: State) {
    st.client == Ready || st.client == NeedInput || st.toServer != [] || st.toClient != []
  }

  lemma ServedAlive(st: State, e: Event)
    requires Inv(st) && Enabled(st, e) && e.ServerReads?
    ensures Alive(Apply(st, e))
  {
    InvFits(st);
    ListNotEmpty(st);
    if st.toServer[0].Chunk? {
      EndedAlive(st, e);
    }
  }

  lemma EndedAlive(st: State, e: Event)
    requires Inv(st) && Enabled(st, e) && e.ServerReads? && st.toServer[0].Chunk?
    ensures Alive(Apply(st, e))
  {
  }

  lemma ReadAlive(st: State, e: Event)
    requires Inv(st) && Enabled(st, e) && e.ClientReads?
    ensures Alive(Apply(st, e))
  {
    InvFits(st);
  }

  /** In every careful run the client is with its user, or a frame is under way that its
      reader can take: the two sides never wait for each other. */
  lemma NeverWaiting(st: State, es: seq<Event>)
    requires Initial(st) && Run(st, es).Reached?
    ensures Alive(Run(st, es).state)
  {
    if es != [] {
      var r, e := es[..|es| - 1], es[|es| - 1];
      RunKeeps(st, r);
      match e
      case ServerReads(_, _) => ServedAlive(Run(st, r).state, e);
      case ClientReads(_, _) => ReadAlive(Run(st, r).state, e);
      case _ =>
    }
  }

  // --- what the user answers ----------------------------------------------------------------------------

  /** The answers to resume questions among frames. */
  function Answers(fs: seq<Frame>): seq<bool> {
    if fs == [] then []
    else
      var f := fs[|fs| - 1];
      Answers(fs[..|fs| - 1]) + if f == Request(Yes) then [true] else if f == Request(No) then [false] else []
  }

  /** What the user has answered so far. */
  function Answered(es: seq<Event>): seq<bool> {
    if es == [] then [] else Answered(es[..|es| - 1]) + GivenNow(es[|es| - 1])
  }

  /** What the server has read of it. */
  function AnswersRead(st: State, es: seq<Event>): seq<bool>
    requires Run(st, es).Reached?
  {
    if es == [] then []
    else
      var r, e := es[..|es| - 1], es[|es| - 1];
      AnswersRead(st, r) + ReadNow(Run(st, r).state, e)
  }

  lemma AnswersMore(fs: seq<Frame>, f: Frame)
    ensures Answers(fs + [f]) == Answers(fs) + Answers([f])
  {
    assert (fs + [f])[..|fs|] == fs && [f][..0] == [];
  }

  lemma {:induction false} AnswersFirst(f: Frame, fs: seq<Frame>)
    ensures Answers([f] + fs) == Answers([f]) + Answers(fs)
    decreases |fs|
  {
    if fs == [] {
      assert [f] + fs == [f];
    } else {
      var init, last := fs[..|fs| - 1], fs[|fs| - 1];
      AnswersFirst(f, init);
      AnswersMore([f] + init, last);
      AnswersMore(init, last);
      assert [f] + fs == [f] + init + [last] && fs == init + [last];
    }
  }

  function GivenNow(e: Event): seq<bool> {
    if e.Reply? then [e.yes] else []
  }

  function ReadNow(st: State, e: Event): seq<bool>
    requires Enabled(st, e)
  {
    if e.ServerReads? then Answers([st.toServer[0]]) else []
  }

  lemma TypedAnswers(st: State, e: Event)
    requires Enabled(st, e) && (e.Issue? || e.Reply?)
    ensures Answers(Apply(st, e).toServer) == Answers(st.toServer) + GivenNow(e)
  {
    var f := Request(if e.Issue? then e.command else if e.yes then Yes else No);
    AnswersMore(st.toServer, f);
    assert [f][..0] == [];
  }

  lemma ServedAnswers(st: State, e: Event)
    requires Enabled(st, e) && e.ServerReads?
    ensures Answers([st.toServer[0]]) + Answers(Apply(st, e).toServer) == Answers(st.toServer)
  {
    var f, rest := st.toServer[0], st.toServer[1..];
    AnswersFirst(f, rest);
    assert st.toServer == [f] + rest;
    ServerSendsNothing(st.(toServer := rest), f, e.last, e.fails);
  }

  lemma ReadAnswers(st: State, e: Event)
    requires Enabled(st, e) && e.ClientReads?
    ensures Answers(Apply(st, e).toServer) == Answers(st.toServer)
  {
    SentByReading(st, e.last, e.fails);
    if f: Frame :| f.Chunk? && Apply(st, e).toServer == st.toServer + [f] {
      AnswersMore(st.toServer, f);
      assert Answers([f]) == Answers([f][..0]) + [];
    }
  }

  lemma AnswersStep(st: State, e: Event)
    requires Enabled(st, e)
    ensures ReadNow(st, e) + Answers(Apply(st, e).toServer) == Answers(st.toServer) + GivenNow(e)
  {
    match e
    case ServerReads(_, _) => ServedAnswers(st, e);
    case ClientReads(_, _) => ReadAnswers(st, e);
    case _ => TypedAnswers(st, e);
  }

  lemma AnswersAfter(read: seq<bool>, st: State, e: Event, given: seq<bool>)
    requires Enabled(st, e) && read + Answers(st.toServer) == given
    ensures read + ReadNow(st, e) + Answers(Apply(st, e).toServer) == given + GivenNow(e)
  {
    AnswersStep(st, e);
    Shifted(read, Answers(st.toServer), ReadNow(st, e), Answers(Apply(st, e).toServer), GivenNow(e));
  }

  lemma Shifted(read: seq<bool>, queued: seq<bool>, now: seq<bool>, left: seq<bool>, new': seq<bool>)
    requires now + left == queued + new'
    ensures read + now + left == read + queued + new'
  {
    assert read + now + left == read + (now + left);
    assert read + queued + new' == read + (queued + new');
  }

  /** Every answer of the user reaches the server as it was given, in order: those read
      and those on their way are those given. */
  lemma {:induction false} AnswersArrive(st: State, es: seq<Event>)
    requires Initial(st) && Run(st, es).Reached?
    ensures AnswersRead(st, es) + Answers(Run(st, es).state.toServer) == Answered(es)
    decreases |es|
  {
    if es != [] {
      var r, e := es[..|es| - 1], es[|es| - 1];
      AnswersArrive(st, r);
      AnswersAfter(AnswersRead(st, r), Run(st, r).state, e, Answered(r));
    }
  }
}
