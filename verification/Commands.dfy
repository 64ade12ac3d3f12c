/** When may a command be given? The exact rule under which the two framings never
    get out of step, for any number of commands at any time. */
module Commands {
  import opened Framing

  predicate Transfers(k: Command) {
    k == Upload || k == Download
  }

  /** What a user, or the batch engine, can ask for. */
  predicate Given(k: Command) {
    k == Plain || Transfers(k)
  }

  // --- the rule -----------------------------------------------------------------------------------

  /** A resumed transfer is about to start. */
  predicate Starting(st: State) {
    || Request(Yes) in st.toServer
    || Response(Kickoff(true)) in st.toClient || Response(Kickoff(false)) in st.toClient
  }

  /** The resume list lasts long enough for a transfer to be refused. */
  predicate Refuses(st: State) {
    st.server.AskResume? && st.resuming && (Request(No) in st.toServer ==> |st.todo| > 1)
  }

  /** No answer is under way, asked for or not, and none is due. */
  predicate Clear(st: State) {
    st.toClient == [] && NoRequest(st.toServer) && !(st.resuming && st.todo == [])
  }

  /** No command while a resumed transfer is about to start; a transfer only where the
      resume list refuses it, or when nothing else is due. */
  predicate Careful(st: State, e: Event) {
    e.Issue? ==>
      !Starting(st) && (Transfers(e.command) ==> Refuses(st) || (!st.server.AskResume? && Clear(st)))
  }

  /** The state after events es, with careful commands throughout. */
  function Run(st: State, es: seq<Event>): Outcome {
    if es == [] then Reached(st) else Then(Run(st, es[..|es| - 1]), es[|es| - 1])
  }

  function Then(r: Outcome, e: Event): Outcome {
    if r.Reached? && Enabled(r.state, e) && Careful(r.state, e) then Reached(Apply(r.state, e)) else Impossible
  }

  // --- states that occur beside those in which both sides agree -----------------------------------------

  predicate OnlyPlain(fs: seq<Frame>) {
    forall x :: 0 <= x < |fs| ==> fs[x] == Request(Plain)
  }

  predicate OnlyGiven(fs: seq<Frame>) {
    forall x :: 0 <= x < |fs| ==> fs[x].Request? && Given(fs[x].command)
  }

  predicate OnlyAnswers(fs: seq<Frame>) {
    forall x :: 0 <= x < |fs| ==> fs[x] == Response(Ok) || fs[x] == Response(Err)
  }

  predicate OnlyErrs(fs: seq<Frame>) {
    forall x :: 0 <= x < |fs| ==> fs[x] == Response(Err)
  }

  /** Refusals, and at most one question among them. */
  predicate OneQuestion(fs: seq<Frame>) {
    && (forall x :: 0 <= x < |fs| ==> fs[x] == Response(Err) || fs[x] == Response(Question))
    && (forall x, y :: 0 <= x < y < |fs| ==> fs[x] == Response(Err) || fs[y] == Response(Err))
  }

  predicate Idling(c: Client) {
    c == Ready || c == Processing
  }

  /** Any number of plain commands and answers to them are under way. */
  predicate IdleLag(st: State) {
    && !st.broken && st.server == Idle && !st.resuming && Idling(st.client)
    && OnlyPlain(st.toServer) && OnlyAnswers(st.toClient)
  }

  predicate InList(st: State) {
    !st.broken && st.server == AskResume && st.resuming && st.todo != []
    && st.client != Uploading && st.client != Downloading
  }

  /** In the resume list, with no answer to its question under way. */
  predicate ListLag(st: State) {
    && InList(st) && OnlyGiven(st.toServer) && OneQuestion(st.toClient)
    && (st.client == NeedInput ==> OnlyErrs(st.toClient))
  }

  /** In the resume list, with the answer to its question at position x. What follows
      it is decided by where it leads. */
  predicate ReplyLag(st: State, x: nat) {
    && InList(st) && st.client != NeedInput && OnlyErrs(st.toClient)
    && x < |st.toServer| && OnlyGiven(st.toServer[..x])
    && (|| (st.toServer[x] == Request(Yes) && x == |st.toServer| - 1 && Idling(st.client))
        || (st.toServer[x] == Request(No) && |st.todo| > 1 && OnlyGiven(st.toServer[x + 1..]))
        || (st.toServer[x] == Request(No) && |st.todo| == 1 && OnlyPlain(st.toServer[x + 1..]) && Idling(st.client)))
  }

  /** A resumed transfer starts after n refusals. */
  predicate KickLag(st: State, n: nat) {
    && !st.broken && st.resuming && Idling(st.client) && st.toServer == []
    && n < |st.toClient| && OnlyErrs(st.toClient[..n])
    && (|| (st.server == Receiving && st.toClient[n..] == [Response(Kickoff(true))])
        || (st.server == Sending && |st.toClient| == n + 2 && st.toClient[n] == Response(Kickoff(false)) && IsPiece(st.toClient[n + 1])))
  }

  function Waiting(k: Command): Client {
    if k == Upload then UploadInit else if k == Download then DownloadInit else Processing
  }

  /** A command follows the end of a transfer that is still on its way. */
  predicate EndLag(st: State, k: Command) {
    && !st.broken && EndOnItsWay(st) && Given(k) && st.client == Waiting(k)
    && |st.toServer| == 2 && st.toServer[1] == Request(k)
    && (Transfers(k) && st.resuming ==> st.todo != [])
  }

  ghost predicate Inv(st: State) {
    || Agree(st) || IdleLag(st) || ListLag(st) || (exists x :: ReplyLag(st, x)) || (exists n :: KickLag(st, n))
    || (exists k :: EndLag(st, k))
  }

  lemma InvFits(st: State)
    requires Inv(st)
    ensures FramesFit(st)
  {
    if Agree(st) {
      AgreeFits(st);
    } else if x: nat :| ReplyLag(st, x) {
      assert x > 0 ==> st.toServer[..x][0] == st.toServer[0];
    } else if n: nat :| KickLag(st, n) {
      assert n > 0 ==> st.toClient[..n][0] == st.toClient[0];
      assert n == 0 ==> st.toClient[0..] == st.toClient;
    }
  }

  // --- reading keeps to these states ----------------------------------------------------------------------

  lemma IdleServed(st: State, last: bool, fails: bool)
    requires IdleLag(st) && st.toServer != []
    ensures IdleLag(Apply(st, ServerReads(last, fails)))
  {
  }

  lemma IdleReads(st: State, last: bool, fails: bool)
    requires IdleLag(st) && st.toClient != []
    ensures IdleLag(Apply(st, ClientReads(last, fails)))
  {
  }

  lemma ListServed(st: State, last: bool, fails: bool)
    requires ListLag(st) && st.toServer != []
    ensures ListLag(Apply(st, ServerReads(last, fails)))
  {
  }

  lemma ListReads(st: State, last: bool, fails: bool)
    requires ListLag(st) && st.toClient != []
    ensures ListLag(Apply(st, ClientReads(last, fails)))
  {
  }

  lemma ReplyReads(st: State, x: nat, last: bool, fails: bool)
    requires ReplyLag(st, x) && st.toClient != []
    ensures ReplyLag(Apply(st, ClientReads(last, fails)), x)
  {
  }

  /** Something else is served before the answer. */
  lemma BeforeReplyServed(st: State, x: nat, last: bool, fails: bool)
    requires ReplyLag(st, x) && x > 0
    ensures ReplyLag(Apply(st, ServerReads(last, fails)), x - 1)
  {
    var t := Apply(st, ServerReads(last, fails));
    assert st.toServer[0] == st.toServer[..x][0];
    assert t.toServer[..x - 1] == st.toServer[..x][1..];
    assert t.toServer[x..] == st.toServer[x + 1..];
  }

  lemma NoServed(st: State, last: bool, fails: bool)
    requires ReplyLag(st, 0) && st.toServer[0] == Request(No)
    ensures var t := Apply(st, ServerReads(last, fails)); if |st.todo| == 1 then IdleLag(t) else ListLag(t)
  {
  }

  lemma YesServed(st: State, last: bool, fails: bool)
    requires ReplyLag(st, 0) && st.toServer[0] == Request(Yes)
    ensures Inv(Apply(st, ServerReads(last, fails)))
  {
    var t := Apply(st, ServerReads(last, fails));
    var n := |st.toClient|;
    assert st.toServer[1..] == [];
    if fails {
      assert if |st.todo| == 1 then IdleLag(t) else ListLag(t);
    } else {
      assert t.toClient[..n] == st.toClient;
      assert KickLag(t, n);
    }
  }

  lemma KickReads(st: State, n: nat, last: bool, fails: bool)
    requires KickLag(st, n)
    ensures Inv(Apply(st, ClientReads(last, fails)))
  {
    var t := Apply(st, ClientReads(last, fails));
    if n > 0 {
      assert st.toClient[0] == st.toClient[..n][0];
      assert t.toClient[..n - 1] == st.toClient[..n][1..];
      assert t.toClient[n - 1..] == st.toClient[n..];
      assert KickLag(t, n - 1);
    } else {
      assert st.toClient[0..] == st.toClient;
      assert Agree(t);
    }
  }

  /** The end of a transfer is read, and the server goes on to what is next. */
  lemma EndRead(st: State, k: Command, last: bool, fails: bool)
    requires EndLag(st, k)
    ensures Apply(st, ServerReads(last, fails)) == Over(st.(toServer := [Request(k)]))
  {
    assert st.toServer[1..] == [Request(k)];
  }

  lemma EndServed(st: State, k: Command, last: bool, fails: bool)
    requires EndLag(st, k)
    ensures Inv(Apply(st, ServerReads(last, fails)))
  {
    EndRead(st, k, last, fails);
    OverKeeps(st.(toServer := [Request(k)]), k);
  }

  lemma OverKeeps(st: State, k: Command)
    requires !st.broken && Given(k) && st.client == Waiting(k) && st.toServer == [Request(k)] && st.toClient == []
    requires Transfers(k) && st.resuming ==> st.todo != []
    ensures Inv(Over(st))
  {
    var t := Over(st);
    if !st.resuming {
      assert Asked(t, k);
      assert Agree(t);
    } else if st.todo == [] {
      assert IdleLag(t);
    } else {
      assert ListLag(t);
    }
  }

  lemma ServedKeeps(st: State, last: bool, fails: bool)
    requires Inv(st) && st.toServer != []
    ensures Inv(Apply(st, ServerReads(last, fails)))
  {
    if Agree(st) {
      ServerAgrees(st, last, fails);
    } else if IdleLag(st) {
      IdleServed(st, last, fails);
    } else if ListLag(st) {
      ListServed(st, last, fails);
    } else if x: nat :| ReplyLag(st, x) {
      if x > 0 {
        BeforeReplyServed(st, x, last, fails);
      } else if st.toServer[0] == Request(No) {
        NoServed(st, last, fails);
      } else {
        YesServed(st, last, fails);
      }
    } else if k :| EndLag(st, k) {
      EndServed(st, k, last, fails);
    }
  }

  lemma ReadKeeps(st: State, last: bool, fails: bool)
    requires Inv(st) && st.toClient != []
    ensures Inv(Apply(st, ClientReads(last, fails)))
  {
    if Agree(st) {
      ClientAgrees(st, last, fails);
    } else if IdleLag(st) {
      IdleReads(st, last, fails);
    } else if ListLag(st) {
      ListReads(st, last, fails);
    } else if x: nat :| ReplyLag(st, x) {
      ReplyReads(st, x, last, fails);
    } else if n: nat :| KickLag(st, n) {
      KickReads(st, n, last, fails);
    }
  }

  // --- typing keeps to them --------------------------------------------------------------------------------

  lemma AnswerKeeps(st: State, yes: bool)
    requires Inv(st) && st.client == NeedInput
    ensures Inv(Apply(st, Reply(yes)))
  {
    if Agree(st) {
      ReplyAgrees(st, yes);
    } else {
      var t := Apply(st, Reply(yes));
      var x := |st.toServer|;
      assert t.toServer[..x] == st.toServer && t.toServer[x + 1..] == [];
      assert ReplyLag(t, x);
    }
  }

  lemma AgreeIssues(st: State, k: Command)
    requires Agree(st) && st.client == Ready && Given(k) && Careful(st, Issue(k))
    ensures Inv(Apply(st, Issue(k)))
  {
    var t := Apply(st, Issue(k));
    if EndOnItsWay(st) {
      assert EndLag(t, k);
    } else if st.server == AskResume {
      assert ListLag(t);
    } else if k == Plain {
      assert IdleLag(t);
    } else {
      assert Agree(t);
    }
  }

  lemma IdleIssues(st: State, k: Command)
    requires IdleLag(st) && st.client == Ready && Given(k) && Careful(st, Issue(k))
    ensures Inv(Apply(st, Issue(k)))
  {
    var t := Apply(st, Issue(k));
    if k == Plain {
      assert IdleLag(t);
    } else {
      PlainIsRequest(st.toServer);
      assert Agree(t);
    }
  }

  lemma PlainIsRequest(fs: seq<Frame>)
    ensures OnlyPlain(fs) && NoRequest(fs) ==> fs == []
  {
    if OnlyPlain(fs) && fs != [] {
      assert fs[0].Request?;
    }
  }

  lemma ReplyIssues(st: State, x: nat, k: Command)
    requires ReplyLag(st, x) && st.client == Ready && Given(k) && Careful(st, Issue(k))
    ensures ReplyLag(Apply(st, Issue(k)), x)
  {
    var t := Apply(st, Issue(k));
    assert st.toServer[x] in st.toServer;
    assert t.toServer[..x] == st.toServer[..x];
    assert t.toServer[x + 1..] == st.toServer[x + 1..] + [Request(k)];
  }

  lemma KickIsStarting(st: State, n: nat)
    requires KickLag(st, n)
    ensures Starting(st)
  {
    assert st.toClient[n] == st.toClient[n..][0];
    assert st.toClient[n] in st.toClient;
  }

  lemma IssueKeeps(st: State, k: Command)
    requires Inv(st) && st.client == Ready && Given(k) && Careful(st, Issue(k))
    ensures Inv(Apply(st, Issue(k)))
  {
    if Agree(st) {
      AgreeIssues(st, k);
    } else if IdleLag(st) {
      IdleIssues(st, k);
    } else if ListLag(st) {
      assert ListLag(Apply(st, Issue(k)));
    } else if x: nat :| ReplyLag(st, x) {
      ReplyIssues(st, x, k);
    } else if n: nat :| KickLag(st, n) {
      KickIsStarting(st, n);
    }
  }

  lemma StepKeeps(st: State, e: Event)
    requires Inv(st) && Enabled(st, e) && Careful(st, e)
    ensures Inv(Apply(st, e))
  {
    match e
    case Issue(k) => IssueKeeps(st, k);
    case Reply(yes) => AnswerKeeps(st, yes);
    case ClientReads(last, fails) => ReadKeeps(st, last, fails);
    case ServerReads(last, fails) => ServedKeeps(st, last, fails);
  }

  lemma {:induction false} RunKeeps(st: State, es: seq<Event>)
    requires Inv(st) && Run(st, es).Reached?
    ensures Inv(Run(st, es).state)
    decreases |es|
  {
    if es != [] {
      RunKeeps(st, es[..|es| - 1]);
      StepKeeps(Run(st, es[..|es| - 1]).state, es[|es| - 1]);
    }
  }

  /** In every run from login whose commands are careful, with any number of commands at
      any time, each frame is read in the framing it was sent in, on both sides. */
  lemma CarefulRunsFit(st: State, es: seq<Event>)
    requires Initial(st) && Run(st, es).Reached?
    ensures FramesFit(Run(st, es).state)
  {
    RunKeeps(st, es);
    InvFits(Run(st, es).state);
  }

  // --- every other command can break the framing -------------------------------------------------------------

  /** Some careful continuation ends before a reader that expects the other framing. */
  ghost predicate Breaks(st: State) {
    exists es :: Misread(st, es)
  }

  predicate Misread(st: State, es: seq<Event>) {
    Run(st, es).Reached? && !FramesFit(Run(st, es).state)
  }

  lemma RunMore(st: State, es: seq<Event>, e: Event)
    ensures Run(st, es + [e]) == Then(Run(st, es), e)
  {
    assert (es + [e])[..|es|] == es;
  }

  lemma {:induction false} RunFront(st: State, e: Event, es: seq<Event>)
    requires Enabled(st, e) && Careful(st, e)
    ensures Run(st, [e] + es) == Run(Apply(st, e), es)
    decreases |es|
  {
    if es == [] {
      RunMore(st, [], e);
      assert [e] + es == [] + [e];
    } else {
      var init, last := es[..|es| - 1], es[|es| - 1];
      RunFront(st, e, init);
      RunMore(st, [e] + init, last);
      assert [e] + es == [e] + init + [last];
    }
  }

  lemma BreaksAfter(st: State, e: Event)
    requires Enabled(st, e) && Careful(st, e) && Breaks(Apply(st, e))
    ensures Breaks(st)
  {
    var es :| Misread(Apply(st, e), es);
    RunFront(st, e, es);
    assert Misread(st, [e] + es);
  }

  lemma BreaksNow(st: State)
    requires !FramesFit(st)
    ensures Breaks(st)
  {
    assert Misread(st, []);
  }

  // a transfer behind plain commands and answers

  /** The transfer k waits behind other requests and answers, at an idle server. */
  predicate Behind(st: State, k: Command, n: nat) {
    && !st.broken && Transfers(k) && st.client == Waiting(k) && st.server == Idle && !st.resuming
    && |st.toServer| == n + 1 && st.toServer[n] == Request(k) && OnlyPlain(st.toServer[..n])
    && OnlyAnswers(st.toClient)
  }

  lemma OkMisleads(st: State, k: Command)
    requires Behind(st, k, 0) && st.toClient != [] && st.toClient[0] == Response(Ok)
    ensures Breaks(st)
  {
    var e, f := ClientReads(true, true), ServerReads(true, true);
    var t := Apply(st, e);
    assert t.toServer[0] == Request(k);
    var u := Apply(t, f);
    assert u.toClient == st.toClient[1..] + [Response(Err)];
    assert u.toClient[0].Response?;
    BreaksNow(u);
    BreaksAfter(t, f);
    BreaksAfter(st, e);
  }

  lemma ErrMisleads(st: State, k: Command)
    requires Behind(st, k, 0) && st.toClient != [] && st.toClient[0] == Response(Err)
    ensures Breaks(st)
  {
    var e, f, g := ClientReads(true, true), Issue(Plain), ServerReads(true, false);
    var t := Apply(st, e);
    assert t.toServer == [Request(k)];
    assert !Starting(t);
    var u := Apply(t, f);
    assert u.toServer == [Request(k), Request(Plain)];
    assert u.toServer[1..] == [Request(Plain)];
    BreaksNow(Apply(u, g));
    BreaksAfter(u, g);
    BreaksAfter(t, f);
    BreaksAfter(st, e);
  }

  lemma {:induction false} BehindBreaks(st: State, k: Command, n: nat)
    requires Behind(st, k, n) && (n > 0 || st.toClient != [])
    ensures Breaks(st)
    decreases n
  {
    if n == 0 {
      if st.toClient[0] == Response(Ok) { OkMisleads(st, k); } else { ErrMisleads(st, k); }
    } else {
      var e := ServerReads(true, true);
      assert st.toServer[0] == st.toServer[..n][0];
      var t := Apply(st, e);
      assert t.toServer[..n - 1] == st.toServer[..n][1..];
      BehindBreaks(t, k, n - 1);
      BreaksAfter(st, e);
    }
  }

  lemma IdleBreaks(st: State, k: Command)
    requires IdleLag(st) && st.client == Ready && Transfers(k) && (st.toServer != [] || st.toClient != [])
    ensures Breaks(Apply(st, Issue(k)))
  {
    var t := Apply(st, Issue(k));
    var n := |st.toServer|;
    assert t.toServer[..n] == st.toServer;
    BehindBreaks(t, k, n);
  }

  // behind the end of the resume list

  lemma LastEndBreaks(st: State, k: Command)
    requires Agree(st) && st.client == Ready && EndOnItsWay(st) && st.resuming && st.todo == [] && Transfers(k)
    ensures Breaks(Apply(st, Issue(k)))
  {
    var a, e := Apply(st, Issue(k)), ServerReads(true, true);
    assert a.toServer[1..] == [Request(k)];
    var t := Apply(a, e);
    assert t.toServer[..0] == [];
    BehindBreaks(t, k, 0);
    BreaksAfter(a, e);
  }

  /** Command k follows the answer at position x to a question of the resume list. */
  predicate AfterReply(st: State, x: nat, k: Command) {
    && !st.broken && st.server == AskResume && st.resuming && st.todo != [] && st.client == Waiting(k) && Given(k)
    && OnlyErrs(st.toClient) && x + 1 < |st.toServer| && OnlyGiven(st.toServer[..x])
    && st.toServer[|st.toServer| - 1] == Request(k)
  }

  lemma ReplyReached(st: State, x: nat, k: Command)
    requires AfterReply(st, x, k) && x > 0
    ensures var t := Apply(st, ServerReads(true, true));
            AfterReply(t, x - 1, k) && t.toServer == st.toServer[1..] && t.todo == st.todo
  {
    assert st.toServer[0] == st.toServer[..x][0];
    assert st.toServer[1..][..x - 1] == st.toServer[..x][1..];
  }

  lemma {:induction false} YesBreaks(st: State, x: nat, k: Command)
    requires AfterReply(st, x, k) && st.toServer[x] == Request(Yes) && x + 2 == |st.toServer|
    ensures Breaks(st)
    decreases x
  {
    if x > 0 {
      ReplyReached(st, x, k);
      YesBreaks(Apply(st, ServerReads(true, true)), x - 1, k);
      BreaksAfter(st, ServerReads(true, true));
    } else {
      var e := ServerReads(true, false);
      assert st.toServer[1..] == [Request(k)];
      BreaksNow(Apply(st, e));
      BreaksAfter(st, e);
    }
  }

  lemma {:induction false} NoBreaks(st: State, x: nat, k: Command)
    requires AfterReply(st, x, k) && Transfers(k) && st.toServer[x] == Request(No) && |st.todo| == 1
    requires OnlyPlain(st.toServer[x + 1..|st.toServer| - 1])
    ensures Breaks(st)
    decreases x
  {
    var e := ServerReads(true, true);
    var t := Apply(st, e);
    if x > 0 {
      ReplyReached(st, x, k);
      assert t.toServer[x..|t.toServer| - 1] == st.toServer[x + 1..|st.toServer| - 1];
      NoBreaks(t, x - 1, k);
    } else {
      var n := |st.toServer| - 2;
      assert t.toServer[..n] == st.toServer[1..|st.toServer| - 1];
      BehindBreaks(t, k, n);
    }
    BreaksAfter(st, e);
  }

  lemma ReplyBreaks(st: State, x: nat, k: Command)
    requires ReplyLag(st, x) && st.client == Ready && Given(k) && !Careful(st, Issue(k))
    ensures Breaks(Apply(st, Issue(k)))
  {
    var t := Apply(st, Issue(k));
    assert t.toServer[..x] == st.toServer[..x];
    if st.toServer[x] == Request(Yes) {
      YesBreaks(t, x, k);
    } else {
      OnlyReply(st, x);
      assert t.toServer[x + 1..|t.toServer| - 1] == st.toServer[x + 1..];
      NoBreaks(t, x, k);
    }
  }

  /** A declined offer starts nothing. */
  lemma OnlyReply(st: State, x: nat)
    requires ReplyLag(st, x) && st.toServer[x] == Request(No)
    ensures !Starting(st)
  {
    forall y | 0 <= y < |st.toServer| ensures st.toServer[y] != Request(Yes) {
      if y < x {
        assert st.toServer[y] == st.toServer[..x][y];
      } else if y > x {
        assert st.toServer[y] == st.toServer[x + 1..][y - x - 1];
      }
    }
  }

  lemma KickBreaks(st: State, n: nat, k: Command)
    requires KickLag(st, n) && st.client == Ready && Given(k)
    ensures Breaks(Apply(st, Issue(k)))
  {
    var t := Apply(st, Issue(k));
    assert t.toServer == [Request(k)];
    BreaksNow(t);
  }

  lemma ListIsCareful(st: State, k: Command)
    requires ListLag(st)
    ensures Careful(st, Issue(k))
  {
  }

  lemma AgreeBreaks(st: State, k: Command)
    requires Agree(st) && st.client == Ready && Given(k) && !Careful(st, Issue(k))
    ensures Breaks(Apply(st, Issue(k)))
  {
    if EndOnItsWay(st) {
      EndStartsNothing(st);
      LastEndBreaks(st, k);
    } else {
      assert st.server == Idle;
      IdleBreaks(st, k);
    }
  }

  lemma EndStartsNothing(st: State)
    requires Agree(st) && st.client == Ready && EndOnItsWay(st)
    ensures !Starting(st) && NoRequest(st.toServer)
  {
  }

  lemma CarelessBreaks(st: State, k: Command)
    requires Inv(st) && st.client == Ready && Given(k) && !Careful(st, Issue(k))
    ensures Breaks(Apply(st, Issue(k)))
  {
    if Agree(st) {
      AgreeBreaks(st, k);
    } else if IdleLag(st) {
      IdleBreaks(st, k);
    } else if ListLag(st) {
      ListIsCareful(st, k);
    } else if x: nat :| ReplyLag(st, x) {
      ReplyBreaks(st, x, k);
    } else if n: nat :| KickLag(st, n) {
      KickBreaks(st, n, k);
    }
  }

  ghost predicate AllFit(st: State) {
    forall es :: Run(st, es).Reached? ==> FramesFit(Run(st, es).state)
  }

  lemma InvAllFit(st: State)
    requires Inv(st)
    ensures AllFit(st)
  {
    forall es | Run(st, es).Reached? ensures FramesFit(Run(st, es).state) {
      RunKeeps(st, es);
      InvFits(Run(st, es).state);
    }
  }

  lemma BreaksIsNotFit(st: State)
    requires Breaks(st)
    ensures !AllFit(st)
  {
    var es :| Misread(st, es);
  }

  /** The rule is exact. In every state that a careful run from login reaches with a
      ready client, and for every command: all frames of all careful continuations are
      read in their own framing if and only if giving the command is careful. */
  lemma CommandFitsExactlyWhen(login: State, es: seq<Event>, k: Command)
    requires Initial(login) && Run(login, es).Reached? && Run(login, es).state.client == Ready && Given(k)
    ensures AllFit(Apply(Run(login, es).state, Issue(k))) <==> Careful(Run(login, es).state, Issue(k))
  {
    var st := Run(login, es).state;
    RunKeeps(login, es);
    if Careful(st, Issue(k)) {
      IssueKeeps(st, k);
      InvAllFit(Apply(st, Issue(k)));
    } else {
      CarelessBreaks(st, k);
      BreaksIsNotFit(Apply(st, Issue(k)));
    }
  }

  // --- what the rule comes to where both sides agree --------------------------------------------------------------

  /** The server is about to say "Ready." unasked, or has just said it: a resumed
      transfer was the last one. */
  predicate Unasked(st: State) {
    st.toClient == [Response(Ok)] || (EndOnItsWay(st) && st.resuming && st.todo == [])
  }

  lemma CarefulWhereAgreed(st: State, k: Command)
    requires Agree(st) && st.client == Ready && Given(k)
    ensures Careful(st, Issue(k)) <==> !(Transfers(k) && Unasked(st))
  {
    if EndOnItsWay(st) { EndStartsNothing(st); }
  }

  // --- whose answer is it? ----------------------------------------------------------------------------------------

  /** Some answer is due before the one to the next command. */
  predicate Owed(st: State) {
    st.toClient != [] || !NoRequest(st.toServer) || (st.resuming && EndOnItsWay(st))
  }

  predicate Reads(es: seq<Event>) {
    forall x :: 0 <= x < |es| ==> es[x].ClientReads? || es[x].ServerReads?
  }

  /** The client has taken some answer for its own, while the server has yet to read
      the command k. */
  predicate Mistaken(st: State, k: Command, es: seq<Event>) {
    && Reads(es) && Run(st, es).Reached?
    && Run(st, es).state.client != Waiting(k) && Request(k) in Run(st, es).state.toServer
  }

  /** The command is on its way with nothing before it but the end of a transfer, which
      is not answered. */
  predicate InTurn(st: State, k: Command) {
    && st.client == Waiting(k) && st.toClient == []
    && (|| st.toServer == [Request(k)]
        || (|st.toServer| == 2 && st.toServer[1] == Request(k) && EndOnItsWay(st) && !st.resuming))
  }

  lemma InTurnStep(st: State, k: Command, e: Event)
    requires InTurn(st, k) && Enabled(st, e) && (e.ClientReads? || e.ServerReads?)
    ensures InTurn(Apply(st, e), k) || Request(k) !in Apply(st, e).toServer
  {
    if |st.toServer| == 2 {
      assert st.toServer[1..] == [Request(k)];
    } else {
      assert st.toServer[1..] == [];
    }
  }

  /** Reading makes the server send towards the client only. */
  lemma ServerSendsNothing(st: State, f: Frame, last: bool, fails: bool)
    ensures ServerRead(st, f, last, fails).toServer == st.toServer
  {
  }

  lemma ServedStays(st: State, k: Command, e: Event)
    requires Request(k) !in st.toServer && Enabled(st, e) && (e.ClientReads? || e.ServerReads?)
    ensures Request(k) !in Apply(st, e).toServer
  {
    if e.ServerReads? {
      ServerSendsNothing(st.(toServer := st.toServer[1..]), st.toServer[0], e.last, e.fails);
    } else {
      SentByReading(st, e.last, e.fails);
    }
  }

  /** Reading makes the client send chunks only. */
  lemma SentByReading(st: State, last: bool, fails: bool)
    requires st.toClient != []
    ensures var t := Apply(st, ClientReads(last, fails));
            t.toServer == st.toServer || exists f: Frame :: f.Chunk? && t.toServer == st.toServer + [f]
  {
    var t := Apply(st, ClientReads(last, fails));
    if t.toServer != st.toServer {
      var f := t.toServer[|st.toServer|];
      assert f.Chunk? && t.toServer == st.toServer + [f];
    }
  }

  lemma {:induction false} InTurnThroughout(st: State, k: Command, es: seq<Event>)
    requires InTurn(st, k) && Reads(es) && Run(st, es).Reached?
    ensures InTurn(Run(st, es).state, k) || Request(k) !in Run(st, es).state.toServer
    decreases |es|
  {
    if es != [] {
      var r := es[..|es| - 1];
      assert Reads(r);
      InTurnThroughout(st, k, r);
      if InTurn(Run(st, r).state, k) {
        InTurnStep(Run(st, r).state, k, es[|es| - 1]);
      } else {
        ServedStays(Run(st, r).state, k, es[|es| - 1]);
      }
    }
  }

  lemma NothingOwed(st: State, k: Command)
    requires Inv(st) && st.client == Ready && Given(k) && !Owed(st)
    ensures InTurn(Apply(st, Issue(k)), k)
  {
    var a := Apply(st, Issue(k));
    assert st.toServer != [] ==> !st.toServer[0].Request?;
    if Agree(st) {
    } else if x: nat :| ReplyLag(st, x) {
      assert st.toServer[x].Request?;
    }
  }

  lemma ReadLeaves(st: State, k: Command)
    requires Given(k) && st.client == Waiting(k) && st.toClient != [] && st.toClient[0].Response? && Request(k) in st.toServer
    ensures var t := Apply(st, ClientReads(true, true)); t.client != Waiting(k) && Request(k) in t.toServer
  {
    SentByReading(st, true, true);
  }

  lemma ReadIsMistaken(st: State, k: Command)
    requires Given(k) && st.client == Waiting(k) && st.toClient != [] && st.toClient[0].Response? && Request(k) in st.toServer
    ensures Mistaken(st, k, [ClientReads(true, true)])
  {
    ReadLeaves(st, k);
    assert [ClientReads(true, true)][..0] == [];
    assert Run(st, []) == Reached(st);
  }

  lemma MistakenAfter(st: State, k: Command, e: Event, es: seq<Event>)
    requires Enabled(st, e) && e.ServerReads? && Mistaken(Apply(st, e), k, es)
    ensures Mistaken(st, k, [e] + es)
  {
    RunFront(st, e, es);
  }

  /** A request or an end that is answered before the command. */
  lemma AnsweredFirst(st: State, k: Command)
    requires Inv(st) && st.client == Ready && st.toClient == [] && Owed(st)
    ensures st.toServer != []
    ensures var t := Apply(st, ServerReads(true, true)); t.toClient != [] && t.toClient[0].Response? && t.client == Ready
  {
    if Agree(st) {
    } else if x: nat :| ReplyLag(st, x) {
      assert x > 0 ==> st.toServer[0] == st.toServer[..x][0];
    }
  }

  lemma ServedBeside(st: State, k: Command)
    requires st.client == Ready && Given(k) && st.toServer != []
    ensures var t, u := Apply(st, ServerReads(true, true)), Apply(Apply(st, Issue(k)), ServerReads(true, true));
            u == t.(client := Waiting(k), toServer := t.toServer + [Request(k)])
  {
    var rest := st.toServer[1..];
    assert (st.toServer + [Request(k)])[1..] == rest + [Request(k)];
    ServerAlone(st.(toServer := rest), st.toServer[0], Waiting(k), rest + [Request(k)]);
    ServerSendsNothing(st.(toServer := rest), st.toServer[0], true, true);
  }

  /** The server neither sees the client's state nor what is behind the frame it reads. */
  lemma ServerAlone(st: State, f: Frame, c: Client, q: seq<Frame>)
    ensures ServerRead(st.(client := c, toServer := q), f, true, true)
         == ServerRead(st, f, true, true).(client := c, toServer := q)
  {
    if f.Chunk? {
      ChunkAlone(st, f.flag, c, q);
    } else if f.Request? {
      RequestAlone(st, f.command, c, q);
    }
  }

  lemma OverAlone(st: State, c: Client, q: seq<Frame>)
    ensures Over(st.(client := c, toServer := q)) == Over(st).(client := c, toServer := q)
    ensures HandleResumes(st.(client := c, toServer := q)) == HandleResumes(st).(client := c, toServer := q)
  {
  }

  lemma ChunkAlone(st: State, flag: Flag, c: Client, q: seq<Frame>)
    ensures ServerChunk(st.(client := c, toServer := q), flag, true, true) == ServerChunk(st, flag, true, true).(client := c, toServer := q)
  {
    OverAlone(st, c, q);
    OverAlone(Say(st, [Chunk(Error)]), c, q);
  }

  lemma RequestAlone(st: State, k: Command, c: Client, q: seq<Frame>)
    ensures ServerRequest(st.(client := c, toServer := q), k, true, true) == ServerRequest(st, k, true, true).(client := c, toServer := q)
  {
    if st.todo != [] {
      OverAlone(st.(todo := st.todo[1..]), c, q);
      OverAlone(Say(st.(todo := st.todo[1..]), [Response(Err)]), c, q);
    }
  }

  lemma OwedMisleads(st: State, k: Command) returns (es: seq<Event>)
    requires Inv(st) && st.client == Ready && Given(k) && Owed(st)
    ensures Mistaken(Apply(st, Issue(k)), k, es)
  {
    var a := Apply(st, Issue(k));
    if st.toClient != [] {
      InvFits(st);
      OnlyResponses(st);
      es := [ClientReads(true, true)];
      ReadIsMistaken(a, k);
    } else {
      var e := ServerReads(true, true);
      AnsweredFirst(st, k);
      ServedBeside(st, k);
      ReadIsMistaken(Apply(a, e), k);
      es := [e] + [ClientReads(true, true)];
      MistakenAfter(a, k, e, [ClientReads(true, true)]);
    }
  }

  lemma OnlyResponses(st: State)
    requires Inv(st) && st.client == Ready && st.toClient != []
    ensures st.toClient[0].Response?
  {
    if Agree(st) {
    } else if n: nat :| KickLag(st, n) {
      assert n > 0 ==> st.toClient[0] == st.toClient[..n][0];
      assert n == 0 ==> st.toClient[0..] == st.toClient;
    }
  }

  /** A ready client can take a foreign answer for the answer to its next command if and
      only if something is still owed when the command is given. */
  lemma MistakenExactlyWhen(login: State, es: seq<Event>, k: Command)
    requires Initial(login) && Run(login, es).Reached? && Run(login, es).state.client == Ready && Given(k)
    ensures var st := Run(login, es).state;
            (exists fs :: Mistaken(Apply(st, Issue(k)), k, fs)) <==> Owed(st)
  {
    var st := Run(login, es).state;
    RunKeeps(login, es);
    if Owed(st) {
      var fs := OwedMisleads(st, k);
    } else {
      NothingOwed(st, k);
      forall fs ensures !Mistaken(Apply(st, Issue(k)), k, fs) {
        NeverMistaken(Apply(st, Issue(k)), k, fs);
      }
    }
  }

  lemma NeverMistaken(st: State, k: Command, es: seq<Event>)
    requires InTurn(st, k)
    ensures !Mistaken(st, k, es)
  {
    if Reads(es) && Run(st, es).Reached? {
      InTurnThroughout(st, k, es);
    }
  }

  // --- runs that break the rule ------------------------------------------------------------------------------------

  function Offered(todo: seq<bool>): State {
    State(Processing, AskResume, true, todo, [], [Response(Question)], false)
  }

  const ClientOk := ClientReads(true, false)
  const ServerOk := ServerReads(true, false)
  const ServerFails := ServerReads(true, true)

  /** After login with one upload to resume, the last chunk leaves the client ready with
      the unasked answer on its way. */
  lemma UnaskedReadyOccurs() returns (es: seq<Event>)
    ensures Initial(Offered([true])) && Play(Offered([true]), es) == Reached(State(Ready, Idle, false, [], [], [Response(Ok)], false))
  {
    var st := Offered([true]);
    es := [];
    var s := st;
    es, s := Played(st, es, s, ClientOk);
    es, s := Played(st, es, s, Reply(true));
    es, s := Played(st, es, s, ServerOk);
    assert s == State(Processing, Receiving, true, [], [], [Response(Kickoff(true))], false);
    es, s := Played(st, es, s, ClientOk);
    es, s := Played(st, es, s, ServerOk);
    assert s == State(Uploading, Idle, false, [], [], [Chunk(Done), Response(Ok)], false);
    es, s := Played(st, es, s, ClientOk);
  }

  /** And one download to resume leaves it ready before the server has even heard of
      the end. */
  lemma UnaskedReadyDueOccurs() returns (es: seq<Event>)
    ensures Initial(Offered([false])) && Play(Offered([false]), es) == Reached(State(Ready, Sending, true, [], [Chunk(Done)], [], false))
  {
    var st := Offered([false]);
    es := [];
    var s := st;
    es, s := Played(st, es, s, ClientOk);
    es, s := Played(st, es, s, Reply(true));
    es, s := Played(st, es, s, ServerOk);
    assert s == State(Processing, Sending, true, [], [], [Response(Kickoff(false)), Chunk(Last)], false);
    es, s := Played(st, es, s, ClientOk);
    es, s := Played(st, es, s, ClientOk);
  }

  /** One SYNC given in the first of these states suffices: its listing request is
      answered by the stray "Ready.", and the batch engine sends the next request on its
      own. */
  lemma BatchRunsAhead() returns (es: seq<Event>)
    ensures es == [Issue(Plain), ClientOk, Issue(Upload), ServerOk, ServerOk, ClientOk]
    ensures var r := Play(State(Ready, Idle, false, [], [], [Response(Ok)], false), es); r.Reached? && !FramesFit(r.state)
  {
    var st := State(Ready, Idle, false, [], [], [Response(Ok)], false);
    es := [];
    var s := st;
    es, s := Played(st, es, s, Issue(Plain));
    es, s := Played(st, es, s, ClientOk);
    assert s == State(Ready, Idle, false, [], [Request(Plain)], [], false);
    es, s := Played(st, es, s, Issue(Upload));
    es, s := Played(st, es, s, ServerOk);
    assert s == State(UploadInit, Idle, false, [], [Request(Upload)], [Response(Ok)], false);
    es, s := Played(st, es, s, ServerOk);
    assert s == State(UploadInit, Receiving, false, [], [], [Response(Ok), Response(Ok)], false);
    es, s := Played(st, es, s, ClientOk);
    assert s.toClient == [Response(Ok)];
  }

  /** Plain commands alone suffice too: one during a resume question, and one while the
      transfer it leads to is about to start. */
  lemma PlainCommandsBreak() returns (es: seq<Event>, s: State)
    ensures Initial(Offered([true, true])) && Play(Offered([true, true]), es) == Reached(s)
    ensures s == State(Ready, Receiving, true, [], [], [Response(Kickoff(true))], false)
    ensures !FramesFit(Apply(s, Issue(Plain)))
  {
    var st := Offered([true, true]);
    es, s := [], st;
    es, s := Played(st, es, s, ClientOk);
    es, s := Played(st, es, s, Reply(true));
    assert [true, true][1..] == [true];
    es, s := Played(st, es, s, ServerFails);
    assert s == State(Processing, AskResume, true, [true], [], [Response(Err), Response(Question)], false);
    es, s := Played(st, es, s, ClientOk);
    assert s == State(Ready, AskResume, true, [true], [], [Response(Question)], false);
    es, s := Played(st, es, s, Issue(Plain));
    es, s := Played(st, es, s, ClientOk);
    es, s := Played(st, es, s, Reply(true));
    assert s == State(Processing, AskResume, true, [true], [Request(Plain), Request(Yes)], [], false);
    es, s := Played(st, es, s, ServerOk);
    assert s == State(Processing, AskResume, true, [true], [Request(Yes)], [Response(Err)], false);
    es, s := Played(st, es, s, ClientOk);
    assert [true][1..] == [];
    es, s := Played(st, es, s, ServerOk);
  }

  lemma Played(st: State, es: seq<Event>, s: State, e: Event) returns (fs: seq<Event>, t: State)
    requires Play(st, es) == Reached(s) && Enabled(s, e)
    ensures fs == es + [e] && t == Apply(s, e) && Play(st, fs) == Reached(t)
  {
    PlayMore(st, es, e);
    fs, t := es + [e], Apply(s, e);
  }
}
