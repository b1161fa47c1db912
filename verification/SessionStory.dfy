/**
 The two streams of a session against what was received: the destination is sent a prefix of
 the client's stream without its dialogue, the client a prefix of a well-formed conversation.
 */
module SessionStory {
  import opened Bytes
  import opened GssFrames
  import opened SocksParser
  import opened SocksDialogue
  import opened SendStream
  import opened Session
  import opened SessionProofs

  /** The part of a state that the story is about; flags and queues do not matter to it. */
  datatype Core = Core(parser: Parser, mode: Mode, clientLog: seq<bytes>, destLog: seq<bytes>, received: bytes,
                       fromDest: bytes, reply: Option<bytes>, relayed: seq<bytes>, after: seq<bytes>)

  function CoreOf(s: State): Core {
    Core(s.parser, s.mode, s.client.log, s.dest.log, s.received, s.fromDest, s.reply, s.relayed, s.after)
  }

  predicate Before(m: Mode) {
    m.Parsing? || m.Resolving? || m.Connecting?
  }

  /** What the destination has been queued is what the parser left of everything received. */
  ghost predicate Linked(c: Config, k: Core) {
    && (!k.mode.Relaying? ==> k.destLog == [])
    && (Before(k.mode) || k.mode.Closing? ==> k.parser == Feed(c, START, k.received))
    && (!k.mode.Parsing? && !k.mode.Closing? ==> k.parser.phase.Accepted?)
    && (k.mode.Relaying? && !k.parser.protect ==>
          && k.parser.ingest == []
          && Feed(c, START, k.received) == k.parser.(ingest := Concat(k.destLog)))
    && (k.mode.Relaying? && k.parser.protect ==>
          var q := Feed(c, START, k.received);
          var r := RelayInput(c.gss, q.ingest);
          k.parser == q.(ingest := r.rest) && k.destLog == r.chunks)
  }

  /** A protected relay that is still open has met no bad frame. */
  ghost predicate Unbroken(c: Config, s: State) {
    !s.closed && s.mode.Relaying? && s.parser.protect ==> RelayInput(c.gss, Feed(c, START, s.received).ingest).ok
  }

  ghost function ReplyPart(k: Core): seq<bytes> {
    if k.reply.Some? then [k.reply.value] else []
  }

  /** The reply says "succeeded". */
  ghost predicate SaysSucceeded(reply: Option<bytes>) {
    reply.Some? && |reply.value| >= 2 && reply.value[1] == SUCCEEDED
  }

  /** Dialogue, at most one reply, and relayed data after a success only; or whole frames. */
  ghost predicate Logged(k: Core) {
    && PlainTalk(k.parser)
    && k.clientLog == k.parser.out + k.after
    && (Before(k.mode) ==> k.reply.None? && k.after == [] && k.relayed == [])
    && (k.parser.protect ==> forall i :: 0 <= i < |k.after| ==> IsFrame(k.after[i]))
    && (!k.parser.protect ==> k.after == ReplyPart(k) + k.relayed && Concat(k.relayed) == k.fromDest)
    && (k.relayed != [] ==> k.mode.Relaying?)
    && (k.mode.Relaying? && !k.parser.protect ==> SaysSucceeded(k.reply))
    && (!k.mode.Relaying? ==> k.fromDest == [])
  }

  /** An accepted request was preceded by the right login, or by a completed GSS-API exchange. */
  ghost predicate Authentic(c: Config, k: Core) {
    HasCredentials(c) && k.parser.phase.Accepted? ==>
      || (k.parser.protect && c.gss.accept(k.parser.toks).Completed?)
      || (exists methods: short, rest :: LoggedIn(c, k.received, methods, rest))
  }

  ghost predicate Story(c: Config, k: Core) {
    Linked(c, k) && Logged(k) && Authentic(c, k)
  }

  lemma LoginLasts(c: Config, k: Core, j: Core, data: bytes)
    requires Authentic(c, k) && j.received == k.received + data
    requires j.parser.phase == k.parser.phase && j.parser.protect == k.parser.protect && j.parser.toks == k.parser.toks
    ensures Authentic(c, j)
  {
    hide Greeting, Login;
    if exists methods: short, rest :: LoggedIn(c, k.received, methods, rest) {
      var methods: short, rest :| LoggedIn(c, k.received, methods, rest);
      var g, l := Greeting(methods), Login(c.username, c.password);
      assert (g + (l + rest)) + data == g + (l + (rest + data));
      assert LoggedIn(c, j.received, methods, rest + data);
    }
  }

  // ----- Pieces that leave the story alone

  lemma PumpCore(s: State, ok: bool)
    ensures CoreOf(PumpClient(s, ok)) == CoreOf(s) == CoreOf(PumpDest(s, ok)) == CoreOf(Close(s)) == CoreOf(RequestFlush(s))
    ensures CoreOf(BeginClientRead(s, ok)) == CoreOf(s)
  {
  }

  lemma ReadCore(s: State, ok: bool)
    ensures CoreOf(TryReadClient(s, ok)) == CoreOf(s) == CoreOf(TryReadDest(s, ok))
  {
  }

  lemma ResumeCore(s: State, ok: bool)
    ensures CoreOf(ResumeClient(s, ok)) == CoreOf(s) == CoreOf(ResumeDest(s, ok))
  {
    hide TryReadClient, TryReadDest;
    ReadCore(s.(client := s.client.(paused := false)), ok);
    ReadCore(s.(dest := s.dest.(paused := false)), ok);
  }

  lemma QueueCore(s: State, chunks: seq<bytes>, ok: bool)
    ensures CoreOf(QueueRaw(s, chunks, ok)) == CoreOf(s).(clientLog := s.client.log + chunks, after := s.after + chunks)
  {
    hide PumpClient;
    PumpCore(s.(client := PushAll(s.client, chunks), after := s.after + chunks), ok);
  }

  // ----- The reply

  /** The core after a reply was queued, or could not be wrapped. */
  ghost predicate Replied(c: Config, k: Core, message: bytes, j: Core) {
    || (!k.parser.protect && j == k.(reply := Some(message), clientLog := k.clientLog + [message], after := k.after + [message]))
    || (k.parser.protect && Wraps(c.gss, message)
        && var f := PrintFrame(MSG_ENCAPSULATED, c.gss.wrap(message).value);
           j == k.(reply := Some(message), clientLog := k.clientLog + [f], after := k.after + [f]))
  }

  lemma ReplyCore(c: Config, s: State, message: bytes, ok: bool)
    ensures var t := SendReply(c, s, message, ok);
            Replied(c, CoreOf(s), message, CoreOf(t)) || (CoreOf(t) == CoreOf(s) && s.parser.protect)
  {
    hide PrintFrame, QueueRaw;
    var t := s.(reply := Some(message));
    QueueCore(t, [message], ok);
    if Wraps(c.gss, message) {
      QueueCore(t, [PrintFrame(MSG_ENCAPSULATED, c.gss.wrap(message).value)], ok);
    }
  }

  /** A first reply, with the mode that goes with it, continues the story. */
  lemma FirstReply(c: Config, k: Core, message: bytes, j: Core, mode: Mode)
    requires Story(c, k) && Before(k.mode) && Replied(c, k, message, j)
    requires mode.Closing? || (mode.Udp? && k.parser.phase.Accepted?)
    ensures Story(c, j.(mode := mode))
  {
    hide PlainTalk, PrintFrame, Feed, LoggedIn;
    var f := j.after[0];
    assert j.clientLog == k.parser.out + [f];
    if k.parser.protect {
      assert IsFrame(f) by { assert f == PrintFrame(MSG_ENCAPSULATED, c.gss.wrap(message).value); }
    }
  }

  lemma ModeOnly(c: Config, k: Core, mode: Mode)
    requires Story(c, k) && Before(k.mode)
    requires mode.Closing? || (!mode.Parsing? && !mode.Relaying? && k.parser.phase.Accepted?)
    ensures Story(c, k.(mode := mode))
  {
    hide PlainTalk, Feed, LoggedIn;
  }

  lemma FailStory(c: Config, s: State, code: byte, ok: bool)
    requires Story(c, CoreOf(s)) && (Before(s.mode) || s.mode.Closing?)
    ensures Story(c, CoreOf(FailAndClose(c, s, code, ok)))
    ensures CoreOf(FailAndClose(c, s, code, ok)).mode == if s.closed then s.mode else Closing
  {
    hide Story, SendReply, RequestFlush;
    if !s.closed && !s.mode.Closing? {
      var m := ReplyMessage(code, V4([]), 0);
      var t := s.(mode := Closing);
      ReplyCore(c, t, m, ok);
      PumpCore(SendReply(c, t, m, ok), ok);
      var j := CoreOf(SendReply(c, t, m, ok));
      if Replied(c, CoreOf(t), m, j) {
        ReplyMode(c, CoreOf(s), CoreOf(t), m, j);
        FirstReply(c, CoreOf(s), m, j.(mode := s.mode), Closing);
        assert j == j.(mode := s.mode).(mode := Closing);
      } else {
        ModeOnly(c, CoreOf(s), Closing);
      }
    }
  }

  lemma ReplyMode(c: Config, k: Core, t: Core, message: bytes, j: Core)
    requires t == k.(mode := t.mode) && Replied(c, t, message, j)
    ensures Replied(c, k, message, j.(mode := k.mode)) && j.mode == t.mode
  {
    hide PrintFrame;
  }

  lemma LaunchStory(c: Config, s: State, l: Launch, o: Posts)
    requires Story(c, CoreOf(s)) && Before(s.mode) && s.parser.phase.Accepted?
    ensures Story(c, CoreOf(DoLaunch(c, s, l, o)))
  {
    hide Story, SendReply, RequestFlush, FailAndClose, BeginClientRead, Replied;
    match l {
      case Started => ModeOnly(c, CoreOf(s), Connecting);
      case Lookup => ModeOnly(c, CoreOf(s), Resolving);
      case UdpStarted(a, port) =>
        var m := ReplyMessage(SUCCEEDED, a, port);
        var t := SendReply(c, s, m, o.clientSend);
        ReplyCore(c, s, m, o.clientSend);
        PumpCore(t.(mode := Udp), o.clientRead);
        if Replied(c, CoreOf(s), m, CoreOf(t)) {
          FirstReply(c, CoreOf(s), m, CoreOf(t), Udp);
        } else {
          ModeOnly(c, CoreOf(s), Udp);
        }
      case LaunchFailed(code) =>
        FailStory(c, s, code, o.clientSend);
        PumpCore(FailAndClose(c, s, code, o.clientSend), true);
    }
  }

  // ----- The dialogue

  lemma AnsweredStory(c: Config, s: State, data: bytes)
    requires Story(c, CoreOf(s)) && s.mode.Parsing?
    ensures Story(c, CoreOf(Answered(c, s, data)))
  {
    hide PlainTalk, Feed, Said, LoggedIn;
    var t := Answered(c, s, data);
    SegmentationIrrelevant(c, START, s.received, data);
    assert t.parser == Feed(c, START, t.received);
    if HasCredentials(c) {
      AuthenticationRequired(c, t.received);
    }
    TalkOfFeed(c, t.received);
    SaidNotEmpty(c, s.parser, data);
    assert t.client.log == t.parser.out + [] by {
      assert s.client.log == s.parser.out + [];
    }
  }

  lemma TalkOfFeed(c: Config, stream: bytes)
    ensures PlainTalk(Feed(c, START, stream))
  {
    hide Run;
    RunTalk(c, Plus(START, stream));
  }

  lemma OnwardStory(c: Config, t: State, l: Launch, o: Posts)
    requires Story(c, CoreOf(t)) && t.mode.Parsing?
    ensures Story(c, CoreOf(Onward(c, t, l, o)))
  {
    hide Story, BeginClientRead, FailAndClose, DoLaunch, RequestFlush;
    PumpCore(t, o.clientRead);
    if t.parser.phase.Refused? {
      FailStory(c, t, t.parser.phase.code, o.clientSend);
    } else if t.parser.phase.Accepted? {
      LaunchStory(c, t, l, o);
    }
  }

  lemma DialogStory(c: Config, s: State, data: bytes, l: Launch, o: Posts)
    requires Story(c, CoreOf(s)) && s.mode.Parsing?
    ensures Story(c, CoreOf(Dialog(c, s, data, l, o)))
  {
    hide Story, Dialog, Onward, PumpClient, Answered, Close, RequestFlush, BeginClientRead, PumpDest;
    DialogSplit(c, s, data, l, o);
    PumpCore(s, o.clientSend);
    var t := Answered(c, s, data);
    AnsweredStory(c, s, data);
    PumpCore(t, o.clientSend);
    AnsweredMode(c, s, data);
    OnwardStory(c, PumpClient(t, o.clientSend), l, o);
  }

  lemma AnsweredMode(c: Config, s: State, data: bytes)
    ensures Answered(c, s, data).mode == s.mode
  {
    hide Feed;
  }

  // ----- The relay

  lemma AcceptedGrows(c: Config, received: bytes, p: Parser, log: seq<bytes>, data: bytes)
    requires p.phase.Accepted? && Feed(c, START, received) == p.(ingest := Concat(log))
    ensures Feed(c, START, received + data) == p.(ingest := Concat(log + [data]))
  {
    hide Run;
    SegmentationIrrelevant(c, START, received, data);
    var q := p.(ingest := Concat(log));
    Finished(c, Plus(q, data));
    ConcatSnoc(log, data);
  }

  lemma ForwardPlain(c: Config, s: State, o: Posts)
    requires !s.parser.protect
    ensures CoreOf(ForwardInput(c, s, o))
            == CoreOf(s).(parser := s.parser.(ingest := []),
                          destLog := if s.parser.ingest == [] then s.dest.log else s.dest.log + [s.parser.ingest])
  {
    hide PumpDest;
    PumpCore(s.(dest := Push(s.dest, s.parser.ingest), parser := s.parser.(ingest := [])), o.destSend);
  }

  /** With protection on, the frames that are complete are unwrapped and the rest is kept. */
  lemma ForwardProtected(c: Config, s: State, o: Posts)
    requires s.parser.protect
    ensures var t := ForwardInput(c, s, o);
            var r := RelayInput(c.gss, s.parser.ingest);
            && CoreOf(t) == CoreOf(s).(parser := s.parser.(ingest := r.rest), destLog := s.dest.log + r.chunks)
            && (r.ok || t.closed)
  {
    hide PumpDest, RelayInput;
    var r := RelayInput(c.gss, s.parser.ingest);
    PumpCore(s.(dest := PushAll(s.dest, r.chunks), parser := s.parser.(ingest := r.rest)), o.destSend);
  }

  /** More frames, unwrapped where the last ones ended. */
  lemma ProtectedGrows(c: Config, received: bytes, p: Parser, log: seq<bytes>, data: bytes)
    requires p.phase.Accepted?
    requires var q := Feed(c, START, received);
             var r := RelayInput(c.gss, q.ingest);
             r.ok && p == q.(ingest := r.rest) && log == r.chunks
    ensures var q := Feed(c, START, received + data);
            var r := RelayInput(c.gss, p.ingest + data);
            && q.(ingest := []) == p.(ingest := [])
            && RelayInput(c.gss, q.ingest) == Relayed(log + r.chunks, r.rest, r.ok)
  {
    hide Run, RelayInput;
    SegmentationIrrelevant(c, START, received, data);
    var q := Feed(c, START, received);
    Finished(c, Plus(q, data));
    RelayExtends(c.gss, q.ingest, data);
  }

  lemma RelayClientStory(c: Config, s: State, data: bytes, o: Posts)
    requires Story(c, CoreOf(s)) && s.mode.Relaying? && data != [] && !s.closed && Unbroken(c, s)
    ensures Story(c, CoreOf(RelayFromClient(c, s, data, o)))
    ensures Unbroken(c, RelayFromClient(c, s, data, o))
  {
    hide Feed, PlainTalk, ForwardInput, TryReadClient, LoggedIn, Authentic, RelayInput;
    var s1 := s.(received := s.received + data, parser := Plus(s.parser, data));
    var t := ForwardInput(c, s1, o);
    ReadCore(t, o.clientRead);
    ReadCloses(t, o.clientRead);
    if s.parser.protect {
      ForwardProtected(c, s1, o);
      ProtectedGrows(c, s.received, s.parser, s.dest.log, data);
      IngestTalk(s.parser, t.parser.ingest);
      LoginLasts(c, CoreOf(s), CoreOf(t), data);
    } else {
      ForwardPlain(c, s1, o);
      assert [] + data == data;
      AcceptedGrows(c, s.received, s.parser, s.dest.log, data);
      assert s1.parser.(ingest := []) == s.parser;
      LoginLasts(c, CoreOf(s), CoreOf(t), data);
    }
  }

  lemma ReadCloses(s: State, ok: bool)
    ensures s.closed ==> TryReadClient(s, ok).closed && BeginClientRead(s, ok).closed
  {
  }

  lemma IngestTalk(p: Parser, ingest: bytes)
    requires PlainTalk(p)
    ensures PlainTalk(p.(ingest := ingest))
  {
  }

  /** Plain data for the client, and its record. */
  lemma PlainChunk(c: Config, k: Core, data: bytes)
    requires Story(c, k) && k.mode.Relaying? && !k.parser.protect
    ensures Story(c, k.(fromDest := k.fromDest + data, relayed := k.relayed + [data],
                        clientLog := k.clientLog + [data], after := k.after + [data]))
  {
    hide Feed, PlainTalk, RelayInput, LoggedIn;
    ConcatSnoc(k.relayed, data);
  }

  lemma FrameChunks(c: Config, k: Core, data: bytes, frames: seq<bytes>)
    requires Story(c, k) && k.mode.Relaying? && k.parser.protect
    requires forall i :: 0 <= i < |frames| ==> IsFrame(frames[i])
    ensures Story(c, k.(fromDest := k.fromDest + data, clientLog := k.clientLog + frames, after := k.after + frames))
  {
    hide Feed, PlainTalk, RelayInput, LoggedIn, IsFrame;
  }

  lemma RelayDestStory(c: Config, s: State, data: bytes, o: Posts)
    requires Story(c, CoreOf(s)) && s.mode.Relaying? && data != []
    ensures Story(c, CoreOf(RelayFromDest(c, s, data, o)))
  {
    hide Story, QueueRaw, TryReadDest, Parts, WrapFrames, Wraps, GoodParts, IsFrame;
    if !s.parser.protect {
      var s2 := s.(fromDest := s.fromDest + data, relayed := s.relayed + [data]);
      QueueCore(s2, [data], o.clientSend);
      ReadCore(QueueRaw(s2, [data], o.clientSend), o.destRead);
      PlainChunk(c, CoreOf(s), data);
    } else {
      var s3, good := s.(fromDest := s.fromDest + data), GoodParts(c.gss, Parts(data));
      var frames := WrapFrames(c.gss, good);
      WrapFramesNotEmpty(c.gss, good);
      QueueCore(s3, frames, o.clientSend);
      ReadCore(QueueRaw(s3, frames, o.clientSend), o.destRead);
      FrameChunks(c, CoreOf(s), data, frames);
    }
  }

  /** The relay starts with a "succeeded" reply, and with what the client sent ahead of it. */
  lemma StartStory(c: Config, s: State, message: bytes, k: Core, o: Posts)
    requires Story(c, k) && k.mode.Connecting?
    requires Replied(c, k, message, CoreOf(s)) || (CoreOf(s) == k && s.parser.protect)
    requires |message| >= 2 && message[1] == SUCCEEDED
    ensures Story(c, CoreOf(StartRelay(c, s, o)))
    ensures Unbroken(c, StartRelay(c, s, o))
  {
    hide Story, ForwardInput, BeginClientRead, PrintFrame, RelayInput, Feed;
    var s1 := s.(mode := Relaying);
    var t := ForwardInput(c, s1, o);
    PumpCore(t, o.clientRead);
    ReadCloses(t, o.clientRead);
    assert CoreOf(StartRelay(c, s, o)) == CoreOf(t);
    StartLinked(c, k);
    if s.parser.protect {
      ForwardProtected(c, s1, o);
      StartFramed(c, k, message, CoreOf(s));
      assert s.dest.log + RelayInput(c.gss, s.parser.ingest).chunks == RelayInput(c.gss, s.parser.ingest).chunks;
    } else {
      ForwardPlain(c, s1, o);
      StartPlain(c, k, message, CoreOf(s));
      assert [] + [s.parser.ingest] == [s.parser.ingest];
    }
  }

  lemma StartLinked(c: Config, k: Core)
    requires Story(c, k) && k.mode.Connecting?
    ensures k.destLog == [] && k.parser == Feed(c, START, k.received)
  {
    hide Feed, RelayInput, Logged, Authentic;
  }

  lemma StartPlain(c: Config, k: Core, message: bytes, j: Core)
    requires Story(c, k) && k.mode.Connecting? && !k.parser.protect && |message| >= 2 && message[1] == SUCCEEDED
    requires j == k.(reply := Some(message), clientLog := k.clientLog + [message], after := k.after + [message])
    ensures Story(c, j.(mode := Relaying, parser := k.parser.(ingest := []),
                        destLog := if k.parser.ingest == [] then [] else [k.parser.ingest]))
  {
    hide Feed, PlainTalk, LoggedIn, RelayInput;
    IngestTalk(k.parser, []);
    ConcatSnoc([], k.parser.ingest);
    assert [] + [k.parser.ingest] == [k.parser.ingest];
  }

  lemma StartFramed(c: Config, k: Core, message: bytes, j: Core)
    requires Story(c, k) && k.mode.Connecting? && k.parser.protect && (Replied(c, k, message, j) || j == k)
    ensures var r := RelayInput(c.gss, k.parser.ingest);
            Story(c, j.(mode := Relaying, parser := k.parser.(ingest := r.rest), destLog := r.chunks))
  {
    hide Feed, PlainTalk, LoggedIn, RelayInput, PrintFrame;
    var r := RelayInput(c.gss, k.parser.ingest);
    IngestTalk(k.parser, r.rest);
    assert j.after != [] ==> IsFrame(j.after[0]) by {
      assert j.after != [] ==> j.after[0] == PrintFrame(MSG_ENCAPSULATED, c.gss.wrap(message).value);
    }
  }

  // ----- Every step

  lemma RecvStory(c: Config, s: State, data: bytes, l: Launch, o: Posts)
    requires Story(c, CoreOf(s)) && Unbroken(c, s)
    ensures Story(c, CoreOf(OnClientRecv(c, s, data, l, o)))
  {
    hide Story, Dialog, RelayFromClient, BeginClientRead, Unbroken;
    var t := s.(client := s.client.(reading := false));
    if s.mode.Relaying? {
      ReadUnbroken(c, s, t);
    }
    assert CoreOf(t) == CoreOf(s);
    if data != [] && !s.closed {
      match s.mode
      case Parsing => DialogStory(c, t, data, l, o);
      case Relaying => RelayClientStory(c, t, data, o);
      case Udp =>
        PumpCore(t.(received := s.received + data), o.clientRead);
        UdpIgnores(c, CoreOf(s), data);
      case _ =>
    }
  }

  lemma ReadUnbroken(c: Config, s: State, t: State)
    requires Unbroken(c, s) && t == s.(client := t.client)
    ensures Unbroken(c, t)
  {
    hide Feed, RelayInput;
  }

  lemma UdpIgnores(c: Config, k: Core, data: bytes)
    requires Story(c, k) && k.mode.Udp?
    ensures Story(c, k.(received := k.received + data))
  {
    hide Feed, PlainTalk, Authentic;
    LoginLasts(c, k, k.(received := k.received + data), data);
  }

  lemma DestRecvStory(c: Config, s: State, data: bytes, o: Posts)
    requires Story(c, CoreOf(s)) && (!s.closed ==> s.mode.Relaying?)
    ensures Story(c, CoreOf(OnDestRecv(c, s, data, o)))
  {
    hide Story, RelayFromDest;
    var t := s.(dest := s.dest.(reading := false));
    assert CoreOf(t) == CoreOf(s);
    if data != [] && !s.closed {
      RelayDestStory(c, t, data, o);
    }
  }

  lemma ClientSendCore(s: State, n: nat, failed: bool, o: Posts)
    ensures CoreOf(OnClientSend(s, n, failed, o)) == CoreOf(s)
  {
    hide PumpClient, ResumeDest, BeginClientRead, PumpDest, RequestFlush;
    var t := s.(client := SendDone(s.client, n));
    assert CoreOf(t) == CoreOf(s);
    hide SendDone;
    PumpCore(t, o.clientSend);
    ResumeCore(PumpClient(t, o.clientSend), o.destRead);
  }

  lemma DestSendCore(s: State, n: nat, failed: bool, o: Posts)
    ensures CoreOf(OnDestSend(s, n, failed, o)) == CoreOf(s)
  {
    hide PumpDest, ResumeClient, BeginClientRead, PumpClient, RequestFlush;
    var t := s.(dest := SendDone(s.dest, n));
    assert CoreOf(t) == CoreOf(s);
    hide SendDone;
    PumpCore(t, o.destSend);
    ResumeCore(PumpDest(t, o.destSend), o.clientRead);
  }

  lemma ResolvedStory(c: Config, s: State, l: Launch, o: Posts)
    requires Story(c, CoreOf(s))
    ensures Story(c, CoreOf(OnDnsResolved(c, s, l, o)))
  {
    hide Story, FailAndClose, RequestFlush;
    if !s.closed && s.mode.Resolving? {
      ResolvingAccepted(c, CoreOf(s));
      ModeOnly(c, CoreOf(s), Connecting);
      if l.LaunchFailed? {
        FailStory(c, s, l.code, o.clientSend);
        PumpCore(FailAndClose(c, s, l.code, o.clientSend), true);
      }
    }
  }

  lemma ResolvingAccepted(c: Config, k: Core)
    requires Story(c, k) && (k.mode.Resolving? || k.mode.Connecting?)
    ensures k.parser.phase.Accepted?
  {
    hide Feed, PlainTalk, Authentic;
  }

  lemma ConnectedStory(c: Config, s: State, error: Option<byte>, bound: Address, port: u16, o: Posts)
    requires Story(c, CoreOf(s))
    ensures Story(c, CoreOf(OnDestConnect(c, s, error, bound, port, o)))
  {
    hide Story, FailAndClose, SendReply, StartRelay, Replied;
    if !s.closed && s.mode.Connecting? {
      if error.Some? {
        FailStory(c, s, error.value, o.clientSend);
      } else {
        var m := ReplyMessage(SUCCEEDED, bound, port);
        var t := SendReply(c, s, m, o.clientSend);
        ReplyCore(c, s, m, o.clientSend);
        SucceededByte(bound, port);
        StartStory(c, t, m, CoreOf(s), o);
      }
    }
  }

  lemma SucceededByte(bound: Address, port: u16)
    ensures |ReplyMessage(SUCCEEDED, bound, port)| >= 2 && ReplyMessage(SUCCEEDED, bound, port)[1] == SUCCEEDED
  {
    hide PrintAddress;
  }

  lemma StepStory(c: Config, s: State, e: Event)
    requires Story(c, CoreOf(s)) && Unbroken(c, s) && Enabled(s, e) && (s.dest.reading ==> s.mode.Relaying?)
    ensures Story(c, CoreOf(Step(c, s, e)))
  {
    hide Story, OnClientRecv, OnDestRecv, OnClientSend, OnDestSend, OnDnsResolved, OnDestConnect, FailAndClose;
    match e
    case ClientRecv(data, l, o) => RecvStory(c, s, data, l, o);
    case ClientSent(n, failed, o) => ClientSendCore(s, n, failed, o);
    case DestRecv(data, o) => DestRecvStory(c, s, data, o);
    case DestSent(n, failed, o) => DestSendCore(s, n, failed, o);
    case Resolved(l, o) => ResolvedStory(c, s, l, o);
    case Connected(error, bound, port, o) => ConnectedStory(c, s, error, bound, port, o);
    case ConnectTimeout(o) =>
      if s.mode.Connecting? {
        FailStory(c, s, TTL_EXPIRED, o.clientSend);
      }
    case _ =>
  }

  // ----- An open protected relay stays unbroken

  lemma SameUnbroken(c: Config, s: State, t: State)
    requires Unbroken(c, s) && (s.closed ==> t.closed)
    requires t.mode.Relaying? && t.parser.protect ==>
               s.mode == t.mode && s.parser.protect && s.received == t.received
    ensures Unbroken(c, t)
  {
    hide Feed, RelayInput;
  }

  lemma ClosedStays(c: Config, s: State, e: Event)
    requires s.closed
    ensures Step(c, s, e).closed
  {
    hide SendDone;
  }

  lemma RelayDestKeeps(c: Config, s: State, data: bytes, o: Posts)
    ensures var t := RelayFromDest(c, s, data, o);
            t.mode == s.mode && t.received == s.received && t.parser == s.parser
  {
    hide QueueRaw, TryReadDest, Parts, WrapFrames, Wraps, GoodParts;
    var s2, s3 := s.(fromDest := s.fromDest + data, relayed := s.relayed + [data]), s.(fromDest := s.fromDest + data);
    QueueCore(s2, [data], o.clientSend);
    ReadCore(QueueRaw(s2, [data], o.clientSend), o.destRead);
    var frames := WrapFrames(c.gss, GoodParts(c.gss, Parts(data)));
    QueueCore(s3, frames, o.clientSend);
    ReadCore(QueueRaw(s3, frames, o.clientSend), o.destRead);
  }

  lemma RecvUnbroken(c: Config, s: State, data: bytes, l: Launch, o: Posts)
    requires Story(c, CoreOf(s)) && Unbroken(c, s) && !s.closed
    requires s.mode.Parsing? ==> !Dialog(c, s.(client := s.client.(reading := false)), data, l, o).mode.Relaying?
    ensures Unbroken(c, OnClientRecv(c, s, data, l, o))
  {
    hide Story, Dialog, RelayFromClient, Feed, RelayInput;
    var t := s.(client := s.client.(reading := false));
    if s.mode.Relaying? && data != [] {
      RelayClientStory(c, t, data, o);
    }
  }

  lemma ConnectedUnbroken(c: Config, s: State, error: Option<byte>, bound: Address, port: u16, o: Posts)
    requires Story(c, CoreOf(s)) && Unbroken(c, s)
    ensures Unbroken(c, OnDestConnect(c, s, error, bound, port, o))
  {
    hide Story, FailAndClose, SendReply, StartRelay, Replied, Feed, RelayInput;
    if !s.closed && s.mode.Connecting? {
      if error.Some? {
        FailStory(c, s, error.value, o.clientSend);
      } else {
        var m := ReplyMessage(SUCCEEDED, bound, port);
        ReplyCore(c, s, m, o.clientSend);
        SucceededByte(bound, port);
        StartStory(c, SendReply(c, s, m, o.clientSend), m, CoreOf(s), o);
      }
    }
  }
}
