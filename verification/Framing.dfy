/** One TCP connection, two framings. Each side decides from its own state whether
    the next bytes are a JSON message or a binary chunk; this module proves when
    the two sides always agree. */
module Framing {

  datatype Command = Plain | Upload | Download | Yes | No

  datatype Answer = Ok | Err | Question | Kickoff(upload: bool)

  datatype Flag = Send | Last | Got | Done | Error

  datatype Frame = Request(command: Command) | Response(answer: Answer) | Chunk(flag: Flag)

  datatype Client = Ready | Processing | UploadInit | Uploading | DownloadInit | Downloading | NeedInput

  datatype Server = Idle | Receiving | Sending | AskResume

  /** todo: directions of the transfers still to be offered for resumption (true for
      uploads). broken: some bytes were read in the wrong framing. */
  datatype State = State(
    client: Client, server: Server, resuming: bool, todo: seq<bool>,
    toServer: seq<Frame>, toClient: seq<Frame>, broken: bool)

  predicate ClientExpectsChunk(c: Client) {
    c.Uploading? || c.Downloading?
  }

  predicate ServerExpectsChunk(s: Server) {
    s.Receiving? || s.Sending?
  }

  /** Choices of the environment: what the user types, whether a check or a write
      fails, and whether the chunk sent is the last one. */
  datatype Event =
    | Issue(command: Command)
    | Reply(yes: bool)
    | ClientReads(last: bool, fails: bool)
    | ServerReads(last: bool, fails: bool)

  function Piece(last: bool): Frame {
    Chunk(if last then Last else Send)
  }

  predicate Enabled(st: State, e: Event) {
    match e
    case Issue(k) => st.client == Ready && !k.Yes? && !k.No?
    case Reply(_) => st.client == NeedInput
    case ClientReads(_, _) => st.toClient != []
    case ServerReads(_, _) => st.toServer != []
  }

  function Apply(st: State, e: Event): State
    requires Enabled(st, e)
  {
    match e
    case Issue(k) =>
      st.(toServer := st.toServer + [Request(k)],
          client := if k.Upload? then UploadInit else if k.Download? then DownloadInit else Processing)
    case Reply(yes) => st.(toServer := st.toServer + [Request(if yes then Yes else No)], client := Processing)
    case ClientReads(last, fails) => ClientRead(st.(toClient := st.toClient[1..]), st.toClient[0], last, fails)
    case ServerReads(last, fails) => ServerRead(st.(toServer := st.toServer[1..]), st.toServer[0], last, fails)
  }

  // --- client handlers ---------------------------------------------------------------------------

  function ClientRead(st: State, f: Frame, last: bool, fails: bool): State {
    if f.Chunk? != ClientExpectsChunk(st.client) then st.(broken := true)
    else if f.Chunk? then ClientChunk(st, f.flag, last, fails)
    else if f.Response? then ClientAnswer(st, f.answer, last)
    else st.(broken := true)
  }

  function ClientAnswer(st: State, a: Answer, last: bool): State {
    match a
    case Question => st.(client := NeedInput)
    case Err => st.(client := Ready)
    case Ok =>
      if st.client.UploadInit? then st.(client := Uploading, toServer := st.toServer + [Piece(last)])
      else if st.client.DownloadInit? then st.(client := Downloading)
      else st.(client := Ready)
    case Kickoff(upload) =>
      if upload then st.(client := Uploading, toServer := st.toServer + [Piece(last)])
      else st.(client := Downloading)
  }

  function ClientChunk(st: State, f: Flag, last: bool, fails: bool): State {
    if st.client.Uploading? then
      match f
      case Got =>
        if fails then st.(client := Ready, toServer := st.toServer + [Chunk(Error)])
        else st.(toServer := st.toServer + [Piece(last)])
      case Done => st.(client := Ready)
      case Error => st.(client := Ready)
      case _ => st
    else
      match f
      case Send =>
        if fails then st.(client := Ready, toServer := st.toServer + [Chunk(Error)])
        else st.(toServer := st.toServer + [Chunk(Got)])
      case Last => st.(client := Ready, toServer := st.toServer + [Chunk(if fails then Error else Done)])
      case Error => st.(client := Ready)
      case _ => st
  }

  // --- session handlers ----------------------------------------------------------------------------

  function Say(st: State, fs: seq<Frame>): State {
    st.(toClient := st.toClient + fs)
  }

  function HandleResumes(st: State): State {
    if st.todo == [] then Say(st.(server := Idle, resuming := false), [Response(Ok)])
    else Say(st.(server := AskResume), [Response(Question)])
  }

  /** The end of any transfer: work on through the resume list, or be ready. */
  function Over(st: State): State {
    if st.resuming then HandleResumes(st) else st.(server := Idle)
  }

  function ServerRead(st: State, f: Frame, last: bool, fails: bool): State {
    if f.Chunk? != ServerExpectsChunk(st.server) then st.(broken := true)
    else if f.Chunk? then ServerChunk(st, f.flag, last, fails)
    else if f.Request? then ServerRequest(st, f.command, last, fails)
    else st.(broken := true)
  }

  function ServerRequest(st: State, k: Command, last: bool, fails: bool): State {
    if st.server.AskResume? && st.todo != [] && k.Yes? then
      var up := st.todo[0];
      var t := st.(todo := st.todo[1..]);
      if fails then HandleResumes(Say(t, [Response(Err)]))
      else if up then Say(t.(server := Receiving), [Response(Kickoff(true))])
      else Say(t.(server := Sending), [Response(Kickoff(false)), Piece(last)])
    else if st.server.AskResume? && st.todo != [] && k.No? then HandleResumes(st.(todo := st.todo[1..]))
    else if st.server.AskResume? || fails || k.Yes? || k.No? then Say(st, [Response(Err)])
    else match k
      case Upload => Say(st.(server := Receiving), [Response(Ok)])
      case Download => Say(st.(server := Sending), [Response(Ok), Piece(last)])
      case _ => Say(st, [Response(Ok)])
  }

  function ServerChunk(st: State, f: Flag, last: bool, fails: bool): State {
    if st.server.Receiving? then
      match f
      case Send => if fails then Over(Say(st, [Chunk(Error)])) else Say(st, [Chunk(Got)])
      case Last => Over(Say(st, [Chunk(if fails then Error else Done)]))
      case Error => Over(st)
      case _ => st
    else
      match f
      case Got => if fails then Over(Say(st, [Chunk(Error)])) else Say(st, [Piece(last)])
      case Done => Over(st)
      case Error => Over(st)
      case _ => st
  }

  // --- which states occur -------------------------------------------------------------------------------

  predicate IsPiece(f: Frame) {
    f == Chunk(Send) || f == Chunk(Last)
  }

  predicate IsEnd(f: Frame) {
    f == Chunk(Done) || f == Chunk(Error)
  }

  /** The client has ended a transfer the server does not know about yet. */
  predicate EndOnItsWay(st: State) {
    && st.toServer != [] && st.toClient == []
    && ((st.server.Sending? && IsEnd(st.toServer[0])) || (st.server.Receiving? && st.toServer[0] == Chunk(Error)))
  }

  /** What the server still has to say after a transfer has ended. */
  predicate Aftermath(st: State, rest: seq<Frame>) {
    || (rest == [] && st.server.Idle? && !st.resuming)
    || (rest == [Response(Ok)] && st.server.Idle? && !st.resuming)
    || (rest == [Response(Question)] && st.server.AskResume? && st.resuming && st.todo != [])
  }

  /** The request k has been sent and not been answered. */
  predicate Asked(st: State, k: Command) {
    && !st.resuming && st.toClient == []
    && (|| (st.server.Idle? && st.toServer == [Request(k)])
        || (EndOnItsWay(st) && |st.toServer| == 2 && st.toServer[1] == Request(k)))
  }

  predicate Agree(st: State) {
    && !st.broken
    && match st.client
       case Ready =>
         || (st.toServer == [] && Aftermath(st, st.toClient))
         || (EndOnItsWay(st) && |st.toServer| == 1)
       case Processing =>
         || Asked(st, Plain)
         || (st.toServer == [] && st.toClient != [] && Aftermath(st, st.toClient))
         || (st.toServer == [] && st.toClient != [] && st.toClient[0] == Response(Err) && Aftermath(st, st.toClient[1..]))
         || (st.server.AskResume? && st.resuming && st.todo != [] && st.toClient == []
             && (st.toServer == [Request(Yes)] || st.toServer == [Request(No)]))
         || (st.toServer == [] && st.server.Receiving? && st.toClient == [Response(Kickoff(true))])
         || (st.toServer == [] && st.server.Sending? && |st.toClient| == 2
             && st.toClient[0] == Response(Kickoff(false)) && IsPiece(st.toClient[1]))
       case UploadInit =>
         || Asked(st, Upload)
         || (st.toServer == [] && st.server.Receiving? && st.toClient == [Response(Ok)])
         || (st.toServer == [] && st.server.Idle? && !st.resuming && st.toClient == [Response(Err)])
       case DownloadInit =>
         || Asked(st, Download)
         || (st.toServer == [] && st.server.Sending? && |st.toClient| == 2
             && st.toClient[0] == Response(Ok) && IsPiece(st.toClient[1]))
         || (st.toServer == [] && st.server.Idle? && !st.resuming && st.toClient == [Response(Err)])
       case Uploading =>
         || (st.server.Receiving? && |st.toServer| == 1 && IsPiece(st.toServer[0]) && st.toClient == [])
         || (st.server.Receiving? && st.toServer == [] && st.toClient == [Chunk(Got)])
         || (st.toServer == [] && st.toClient != [] && IsEnd(st.toClient[0]) && Aftermath(st, st.toClient[1..]))
       case Downloading =>
         || (st.server.Sending? && st.toServer == [] && |st.toClient| == 1 && IsPiece(st.toClient[0]))
         || (st.server.Sending? && st.toServer == [Chunk(Got)] && st.toClient == [])
         || (st.toServer == [] && st.toClient != [] && st.toClient[0] == Chunk(Error) && Aftermath(st, st.toClient[1..]))
       case NeedInput =>
         st.server.AskResume? && st.resuming && st.todo != [] && st.toServer == [] && st.toClient == []
  }

  /** Both readers expect the kind of frame that comes next. */
  predicate FramesFit(st: State) {
    && !st.broken
    && (st.toClient != [] ==> st.toClient[0].Chunk? == ClientExpectsChunk(st.client))
    && (st.toServer != [] ==> st.toServer[0].Chunk? == ServerExpectsChunk(st.server))
  }

  lemma AgreeFits(st: State)
    requires Agree(st)
    ensures FramesFit(st)
  {
  }

  predicate NoRequest(fs: seq<Frame>) {
    forall x :: 0 <= x < |fs| ==> !fs[x].Request?
  }

  lemma ReplyAgrees(st: State, yes: bool)
    requires Agree(st) && Enabled(st, Reply(yes))
    ensures Agree(Apply(st, Reply(yes)))
  {
  }

  lemma ReadyReads(st: State, last: bool, fails: bool)
    requires Agree(st) && st.client == Ready && st.toClient != []
    ensures Agree(Apply(st, ClientReads(last, fails)))
  {
  }

  lemma ProcessingReads(st: State, last: bool, fails: bool)
    requires Agree(st) && st.client == Processing && st.toClient != []
    ensures Agree(Apply(st, ClientReads(last, fails)))
  {
  }

  lemma UploadInitReads(st: State, last: bool, fails: bool)
    requires Agree(st) && st.client == UploadInit && st.toClient != []
    ensures Agree(Apply(st, ClientReads(last, fails)))
  {
  }

  lemma UploadingReads(st: State, last: bool, fails: bool)
    requires Agree(st) && st.client == Uploading && st.toClient != []
    ensures Agree(Apply(st, ClientReads(last, fails)))
  {
  }

  lemma DownloadInitReads(st: State, last: bool, fails: bool)
    requires Agree(st) && st.client == DownloadInit && st.toClient != []
    ensures Agree(Apply(st, ClientReads(last, fails)))
  {
  }

  lemma DownloadingReads(st: State, last: bool, fails: bool)
    requires Agree(st) && st.client == Downloading && st.toClient != []
    ensures Agree(Apply(st, ClientReads(last, fails)))
  {
  }

  lemma ClientAgrees(st: State, last: bool, fails: bool)
    requires Agree(st) && Enabled(st, ClientReads(last, fails))
    ensures Agree(Apply(st, ClientReads(last, fails)))
  {
    match st.client
    case Ready => ReadyReads(st, last, fails);
    case Processing => ProcessingReads(st, last, fails);
    case UploadInit => UploadInitReads(st, last, fails);
    case Uploading => UploadingReads(st, last, fails);
    case DownloadInit => DownloadInitReads(st, last, fails);
    case Downloading => DownloadingReads(st, last, fails);
  }

  lemma IdleServerReads(st: State, last: bool, fails: bool)
    requires Agree(st) && st.server == Idle && st.toServer != []
    ensures Agree(Apply(st, ServerReads(last, fails)))
  {
  }

  lemma ReceivingServerReads(st: State, last: bool, fails: bool)
    requires Agree(st) && st.server == Receiving && st.toServer != []
    ensures Agree(Apply(st, ServerReads(last, fails)))
  {
  }

  lemma SendingServerReads(st: State, last: bool, fails: bool)
    requires Agree(st) && st.server == Sending && st.toServer != []
    ensures Agree(Apply(st, ServerReads(last, fails)))
  {
  }

  lemma AskResumeServerReads(st: State, last: bool, fails: bool)
    requires Agree(st) && st.server == AskResume && st.toServer != []
    ensures Agree(Apply(st, ServerReads(last, fails)))
  {
  }

  lemma ServerAgrees(st: State, last: bool, fails: bool)
    requires Agree(st) && Enabled(st, ServerReads(last, fails))
    ensures Agree(Apply(st, ServerReads(last, fails)))
  {
    match st.server
    case Idle => IdleServerReads(st, last, fails);
    case Receiving => ReceivingServerReads(st, last, fails);
    case Sending => SendingServerReads(st, last, fails);
    case AskResume => AskResumeServerReads(st, last, fails);
  }

  // --- runs ------------------------------------------------------------------------------------------

  /** After login: ready at once, or with the first resume question on its way. */
  predicate Initial(st: State) {
    || st == State(Ready, Idle, false, [], [], [], false)
    || (st.todo != [] && st == State(Processing, AskResume, true, st.todo, [], [Response(Question)], false))
  }

  datatype Outcome = Impossible | Reached(state: State)

  /** The state after events es, whatever commands are given. */
  function Play(st: State, es: seq<Event>): Outcome {
    if es == [] then Reached(st)
    else
      var r := Play(st, es[..|es| - 1]);
      var e := es[|es| - 1];
      if r.Reached? && Enabled(r.state, e) then Reached(Apply(r.state, e)) else Impossible
  }

  lemma PlayMore(st: State, es: seq<Event>, e: Event)
    requires Play(st, es).Reached? && Enabled(Play(st, es).state, e)
    ensures Play(st, es + [e]) == Reached(Apply(Play(st, es).state, e))
  {
    assert (es + [e])[..|es|] == es;
  }
}
