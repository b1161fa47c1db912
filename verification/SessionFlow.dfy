/**
 The relay never stalls and stays bounded, and what whole runs of a session guarantee.
 */
module SessionFlow {
  import opened Bytes
  import opened GssFrames
  import opened SocksParser
  import opened SendStream
  import opened Session
  import opened SessionProofs
  import opened SessionStory

  /** A direction is finished, being read, or paused behind a full queue. */
  ghost predicate Alive(from: Stream, towards: Stream) {
    from.peerClosed || from.reading || (from.paused && |towards.queue| >= MAX_DEPTH)
  }

  /** Every open session has an event to wait for. */
  ghost predicate Waits(s: State) {
    match s.mode
    case Parsing => s.closeAfterFlush || (Active(s.parser) && s.client.reading)
    case Resolving => !s.client.reading && !s.closeAfterFlush
    case Connecting => !s.client.reading && !s.closeAfterFlush
    case Closing => s.closeAfterFlush
    case Udp => s.client.reading
    case Relaying =>
      && !s.closeAfterFlush && !(s.client.peerClosed && s.dest.peerClosed)
      && Alive(s.client, s.dest) && Alive(s.dest, s.client)
  }

  ghost predicate Flows(s: State) {
    && (s.dest.reading ==> s.mode.Relaying?)
    && (s.closeAfterFlush ==> s.client.sending && !s.closed)
    && (!s.closed ==> Waits(s))
  }

  /** Without protection, neither relay queue ever exceeds its limit. */
  ghost predicate Bounded(s: State) {
    s.mode.Relaying? && !s.parser.protect ==>
      && |s.client.queue| <= MAX_DEPTH && |s.dest.queue| <= MAX_DEPTH
      && (s.client.reading ==> |s.dest.queue| < MAX_DEPTH)
      && (s.dest.reading ==> |s.client.queue| < MAX_DEPTH)
  }

  // ----- Closing

  lemma FlushFlows(s: State)
    requires Streams(s) && (s.dest.reading ==> s.mode.Relaying?)
    requires !s.closed ==> s.mode.Closing? || s.mode.Parsing?
    requires s.closed ==> !s.closeAfterFlush
    ensures Flows(RequestFlush(s))
  {
    hide Backed;
  }

  /** What a reply does to the flags that matter here. */
  lemma ReplyFlags(c: Config, s: State, message: bytes, ok: bool)
    ensures var t := SendReply(c, s, message, ok);
            && t.mode == s.mode && t.parser == s.parser && t.dest == s.dest
            && t.client.reading == s.client.reading && t.client.peerClosed == s.client.peerClosed
            && (t.closed ==> !t.closeAfterFlush || s.closed)
            && (s.closed ==> t.closed)
            && (!t.closed ==> t.closeAfterFlush == s.closeAfterFlush)
            && (s.client.sending ==> t.client.sending)
            && (s.closed ==> !s.closeAfterFlush ==> !t.closeAfterFlush)
  {
    hide PrintFrame, QueueRaw;
    var u := s.(reply := Some(message));
    RawFlags(u, [message], ok);
    if Wraps(c.gss, message) {
      RawFlags(u, [PrintFrame(MSG_ENCAPSULATED, c.gss.wrap(message).value)], ok);
    }
  }

  lemma RawFlags(s: State, chunks: seq<bytes>, ok: bool)
    ensures var t := QueueRaw(s, chunks, ok);
            && t.mode == s.mode && t.parser == s.parser && t.dest == s.dest
            && t.client.reading == s.client.reading && t.client.peerClosed == s.client.peerClosed
            && (t.closed ==> !t.closeAfterFlush || s.closed)
            && (s.closed ==> t.closed)
            && (!t.closed ==> t.closeAfterFlush == s.closeAfterFlush)
            && (s.client.sending ==> t.client.sending)
            && (s.closed ==> !s.closeAfterFlush ==> !t.closeAfterFlush)
  {
  }

  lemma FailFlows(c: Config, s: State, code: byte, ok: bool)
    requires Streams(s) && Flows(s) && (!s.closed ==> Before(s.mode) || s.mode.Closing?)
    ensures Flows(FailAndClose(c, s, code, ok))
  {
    hide Backed, SendReply, RequestFlush;
    if !s.closed && !s.mode.Closing? {
      var t := s.(mode := Closing);
      var m := ReplyMessage(code, V4([]), 0);
      ReplyStreams(c, t, m, ok);
      ReplyFlags(c, t, m, ok);
      FlushFlows(SendReply(c, t, m, ok));
    }
  }

  lemma FlushAgain(s: State)
    requires Streams(s) && Flows(s) && (s.closed || s.mode.Closing?)
    ensures Flows(RequestFlush(s))
  {
    hide Backed;
  }

  // ----- The dialogue

  lemma LaunchFlows(c: Config, s: State, l: Launch, o: Posts)
    requires Streams(s) && s.mode.Parsing? && !s.closed && !s.closeAfterFlush && !s.client.reading && !s.dest.reading
    ensures Flows(DoLaunch(c, s, l, o))
  {
    hide Backed, SendReply, FailAndClose, RequestFlush;
    match l
    case UdpStarted(a, port) => ReplyFlags(c, s, ReplyMessage(SUCCEEDED, a, port), o.clientSend);
    case LaunchFailed(code) =>
      var t := s.(mode := Resolving);
      FailFlows(c, t, code, o.clientSend);
      FailSame(c, s, t, code, o.clientSend);
      FailStreams(c, s, code, o.clientSend);
      FlushAgain(FailAndClose(c, s, code, o.clientSend));
    case _ =>
  }

  lemma FailSame(c: Config, s: State, t: State, code: byte, ok: bool)
    requires !s.closed && s.mode.Parsing? && t == s.(mode := Resolving)
    ensures FailAndClose(c, s, code, ok) == FailAndClose(c, t, code, ok)
    ensures FailAndClose(c, s, code, ok).mode.Closing?
  {
    hide RequestFlush;
    var m := ReplyMessage(code, V4([]), 0);
    assert s.(mode := Closing) == t.(mode := Closing);
    ReplyFlags(c, s.(mode := Closing), m, ok);
    hide SendReply;
    FlushMode(SendReply(c, s.(mode := Closing), m, ok));
  }

  lemma FlushMode(s: State)
    ensures RequestFlush(s).mode == s.mode
  {
  }

  lemma OnwardFlows(c: Config, t: State, l: Launch, o: Posts)
    requires Streams(t) && t.mode.Parsing? && !t.client.reading && !t.dest.reading && !t.closeAfterFlush
    ensures Flows(Onward(c, t, l, o))
  {
    hide Backed, FailAndClose, DoLaunch, RequestFlush;
    if !t.closed && !Active(t.parser) {
      if t.parser.phase.Refused? {
        var u := t.(mode := Resolving);
        FailFlows(c, u, t.parser.phase.code, o.clientSend);
        FailSame(c, t, u, t.parser.phase.code, o.clientSend);
      } else if t.parser.phase.Accepted? {
        LaunchFlows(c, t, l, o);
      } else {
        FlushFlows(t);
      }
    }
  }

  lemma DialogFlows(c: Config, s: State, data: bytes, l: Launch, o: Posts)
    requires Streams(s) && s.mode.Parsing? && !s.closed && !s.client.reading && !s.dest.reading && !s.closeAfterFlush
    ensures Flows(Dialog(c, s, data, l, o))
  {
    hide Backed, Dialog, Onward, Feed, Said;
    DialogSplit(c, s, data, l, o);
    SaidNotEmpty(c, s.parser, data);
    PushedBacked(s.client, Said(s.parser, Feed(c, s.parser, data)));
    var t := Answered(c, s, data);
    PumpStreams(t, o.clientSend);
    OnwardFlows(c, PumpClient(t, o.clientSend), l, o);
  }

  // ----- The relay

  lemma ForwardFlags(c: Config, s: State, o: Posts)
    ensures var t := ForwardInput(c, s, o);
            && t.mode == s.mode && t.client == s.client && t.parser.protect == s.parser.protect
            && t.dest.reading == s.dest.reading && t.dest.peerClosed == s.dest.peerClosed && t.dest.paused == s.dest.paused
            && (t.closeAfterFlush ==> s.closeAfterFlush) && (s.closed ==> t.closed)
            && (!s.parser.protect ==> |t.dest.queue| <= |s.dest.queue| + 1)
  {
    hide RelayInput;
  }

  lemma RelayClientFlows(c: Config, s: State, data: bytes, o: Posts)
    requires s.mode.Relaying? && !s.closed && !s.closeAfterFlush && !s.client.reading && !s.client.peerClosed && !s.client.paused
    requires Alive(s.dest, s.client)
    ensures Flows(RelayFromClient(c, s, data, o))
    ensures !s.parser.protect && Bounded(s) && |s.dest.queue| < MAX_DEPTH ==> Bounded(RelayFromClient(c, s, data, o))
  {
    hide ForwardInput;
    ForwardFlags(c, s.(received := s.received + data, parser := Plus(s.parser, data)), o);
  }

  lemma QueueFlags(s: State, chunks: seq<bytes>, ok: bool)
    ensures var t := QueueRaw(s, chunks, ok);
            && t.mode == s.mode && t.dest == s.dest && t.parser == s.parser
            && t.client.reading == s.client.reading && t.client.peerClosed == s.client.peerClosed && t.client.paused == s.client.paused
            && (t.closeAfterFlush ==> s.closeAfterFlush) && (s.closed ==> t.closed)
            && |t.client.queue| == |s.client.queue| + |chunks|
  {
  }

  lemma RelayDestFlows(c: Config, s: State, data: bytes, o: Posts)
    requires s.mode.Relaying? && !s.closed && !s.closeAfterFlush && !s.dest.reading && !s.dest.peerClosed && !s.dest.paused
    requires Alive(s.client, s.dest)
    ensures Flows(RelayFromDest(c, s, data, o))
    ensures !s.parser.protect && Bounded(s) && |s.client.queue| < MAX_DEPTH ==> Bounded(RelayFromDest(c, s, data, o))
  {
    hide QueueRaw, Parts, WrapFrames, Wraps, GoodParts;
    if !s.parser.protect {
      QueueFlags(s.(fromDest := s.fromDest + data, relayed := s.relayed + [data]), [data], o.clientSend);
    } else {
      QueueFlags(s.(fromDest := s.fromDest + data), WrapFrames(c.gss, GoodParts(c.gss, Parts(data))), o.clientSend);
    }
  }

  /** A finished send may shorten its queue; then a paused direction is read again. */
  lemma DoneFlags(x: Stream, n: nat)
    ensures var y := SendDone(x, n);
            && !y.sending && y.reading == x.reading && y.peerClosed == x.peerClosed && y.paused == x.paused
            && |y.queue| <= |x.queue|
  {
  }

  lemma ClientSendFlows(s: State, n: nat, failed: bool, o: Posts)
    requires Streams(s) && Flows(s)
    ensures Flows(OnClientSend(s, n, failed, o))
  {
    hide SendDone, Backed;
    DoneFlags(s.client, n);
    DoneBacked(s.client, n);
  }

  lemma DestSendFlows(s: State, n: nat, failed: bool, o: Posts)
    requires Streams(s) && Flows(s)
    ensures Flows(OnDestSend(s, n, failed, o))
  {
    hide SendDone, Backed;
    DoneFlags(s.dest, n);
  }

  lemma ClientSendBounded(s: State, n: nat, failed: bool, o: Posts)
    requires Bounded(s)
    ensures Bounded(OnClientSend(s, n, failed, o))
  {
    hide SendDone;
    DoneFlags(s.client, n);
  }

  lemma DestSendBounded(s: State, n: nat, failed: bool, o: Posts)
    requires Bounded(s)
    ensures Bounded(OnDestSend(s, n, failed, o))
  {
    hide SendDone;
    DoneFlags(s.dest, n);
  }

  /** Before the relay starts, the client's queue holds at most the dialogue and the reply. */
  lemma FewAnswers(c: Config, s: State)
    requires Streams(s) && Story(c, CoreOf(s)) && s.mode.Connecting? && !s.parser.protect
    ensures |s.client.queue| <= 2 && s.dest.queue == []
  {
    hide Feed, Faithful;
    assert |s.client.log| <= 2 by {
      assert s.client.log == s.parser.out + [];
    }
  }

  lemma ReplyQueue(c: Config, s: State, message: bytes, ok: bool)
    ensures |SendReply(c, s, message, ok).client.queue| <= |s.client.queue| + 1
  {
    hide PrintFrame;
  }

  lemma StartFlows(c: Config, s: State, o: Posts)
    requires !s.client.reading && !s.closeAfterFlush && (s.closed || !s.client.peerClosed)
    ensures Flows(StartRelay(c, s, o))
    ensures !s.parser.protect && |s.client.queue| <= 3 && s.dest.queue == [] ==> Bounded(StartRelay(c, s, o))
  {
    hide ForwardInput;
    ForwardFlags(c, s.(mode := Relaying), o);
  }

  lemma ConnectedFlows(c: Config, s: State, error: Option<byte>, bound: Address, port: u16, o: Posts)
    requires Streams(s) && Story(c, CoreOf(s)) && Flows(s) && Bounded(s) && Reads(s)
    ensures Flows(OnDestConnect(c, s, error, bound, port, o)) && Bounded(OnDestConnect(c, s, error, bound, port, o))
  {
    hide Backed, Story, FailAndClose, SendReply, StartRelay;
    if !s.closed && s.mode.Connecting? {
      if error.Some? {
        FailFlows(c, s, error.value, o.clientSend);
        FailStory(c, s, error.value, o.clientSend);
      } else {
        var m := ReplyMessage(SUCCEEDED, bound, port);
        ReplyFlags(c, s, m, o.clientSend);
        ReplyQueue(c, s, m, o.clientSend);
        StartFlows(c, SendReply(c, s, m, o.clientSend), o);
        if !s.parser.protect {
          FewAnswers(c, s);
        }
        StartProtect(c, SendReply(c, s, m, o.clientSend), o);
      }
    }
  }

  lemma StartProtect(c: Config, s: State, o: Posts)
    ensures StartRelay(c, s, o).parser.protect == s.parser.protect
  {
    hide ForwardInput;
    ForwardFlags(c, s.(mode := Relaying), o);
  }

  lemma ResolvedFlows(c: Config, s: State, l: Launch, o: Posts)
    requires Streams(s) && Story(c, CoreOf(s)) && Flows(s) && Bounded(s)
    ensures Flows(OnDnsResolved(c, s, l, o)) && Bounded(OnDnsResolved(c, s, l, o))
  {
    hide Backed, Story, FailAndClose, RequestFlush;
    if !s.closed && s.mode.Resolving? && l.LaunchFailed? {
      var t := FailAndClose(c, s, l.code, o.clientSend);
      FailFlows(c, s, l.code, o.clientSend);
      FailStreams(c, s, l.code, o.clientSend);
      FailStory(c, s, l.code, o.clientSend);
      FlushAgain(t);
      FlushMode(t);
    }
  }

  lemma RecvFlows(c: Config, s: State, data: bytes, l: Launch, o: Posts)
    requires Streams(s) && Flows(s) && Bounded(s) && s.client.reading && Reads(s)
    ensures Flows(OnClientRecv(c, s, data, l, o)) && Bounded(OnClientRecv(c, s, data, l, o))
  {
    hide Backed, Dialog, RelayFromClient;
    var t := s.(client := s.client.(reading := false));
    if !s.closed && data != [] {
      if s.mode.Parsing? {
        SameStreams(s, t);
        assert !s.closeAfterFlush by { hide Streams; }
        DialogFlows(c, t, data, l, o);
        DialogMode(c, t, data, l, o);
      } else if s.mode.Relaying? {
        RelayClientFlows(c, t, data, o);
        RelayProtect(c, t, data, o);
      }
    }
  }

  ghost predicate Fresh(s: State) {
    !s.client.peerClosed && !s.client.paused && !s.dest.peerClosed && !s.dest.paused && !s.dest.reading
  }

  /** A posted read is never marked finished or paused, nor is the session being flushed. */
  ghost predicate Reads(s: State) {
    && (!s.mode.Relaying? ==> Fresh(s))
    && (s.client.reading ==> !s.client.peerClosed && !s.client.paused)
    && (s.client.reading && s.mode.Parsing? ==> !s.closeAfterFlush)
    && (s.dest.reading ==> !s.dest.peerClosed && !s.dest.paused)
  }

  lemma DialogMode(c: Config, s: State, data: bytes, l: Launch, o: Posts)
    requires s.mode.Parsing?
    ensures !Dialog(c, s, data, l, o).mode.Relaying?
  {
    hide Dialog, Feed, Said, SendReply, RequestFlush;
    DialogSplit(c, s, data, l, o);
    var t := PumpClient(Answered(c, s, data), o.clientSend);
    forall u: State, m: bytes ensures SendReply(c, u, m, o.clientSend).mode == u.mode {
      ReplyFlags(c, u, m, o.clientSend);
    }
    forall u: State ensures RequestFlush(u).mode == u.mode {
      FlushMode(u);
    }
  }

  lemma RelayProtect(c: Config, s: State, data: bytes, o: Posts)
    ensures RelayFromClient(c, s, data, o).parser.protect == s.parser.protect
    ensures RelayFromDest(c, s, data, o).parser.protect == s.parser.protect
  {
    hide ForwardInput, QueueRaw, Parts, WrapFrames, Wraps, GoodParts, TryReadClient, TryReadDest;
    TryParser(ForwardInput(c, s.(received := s.received + data, parser := Plus(s.parser, data)), o), o.clientRead);
    TryParser(QueueRaw(s.(fromDest := s.fromDest + data, relayed := s.relayed + [data]), [data], o.clientSend), o.destRead);
    ForwardFlags(c, s.(received := s.received + data, parser := Plus(s.parser, data)), o);
    QueueFlags(s.(fromDest := s.fromDest + data, relayed := s.relayed + [data]), [data], o.clientSend);
    var frames := WrapFrames(c.gss, GoodParts(c.gss, Parts(data)));
    QueueFlags(s.(fromDest := s.fromDest + data), frames, o.clientSend);
    TryParser(QueueRaw(s.(fromDest := s.fromDest + data), frames, o.clientSend), o.destRead);
  }

  lemma TryParser(s: State, ok: bool)
    ensures TryReadClient(s, ok).parser == s.parser == TryReadDest(s, ok).parser
  {
  }

  lemma DestRecvFlows(c: Config, s: State, data: bytes, o: Posts)
    requires Streams(s) && Flows(s) && Bounded(s) && s.dest.reading && Reads(s)
    ensures Flows(OnDestRecv(c, s, data, o)) && Bounded(OnDestRecv(c, s, data, o))
  {
    hide Backed, RelayFromDest;
    var t := s.(dest := s.dest.(reading := false));
    if !s.closed && data != [] {
      RelayDestFlows(c, t, data, o);
      RelayProtect(c, t, data, o);
    }
  }

  // ----- Reads

  lemma ReplyFresh(c: Config, s: State, message: bytes, ok: bool)
    ensures Fresh(s) ==> Fresh(SendReply(c, s, message, ok))
  {
    hide PrintFrame;
  }

  lemma FailReads(c: Config, s: State, code: byte, ok: bool)
    requires Reads(s) && (!s.closed ==> !s.mode.Relaying?)
    ensures Reads(FailAndClose(c, s, code, ok))
    ensures FailAndClose(c, s, code, ok).client.reading == s.client.reading
    ensures FailAndClose(c, s, code, ok).mode == s.mode || FailAndClose(c, s, code, ok).mode.Closing?
  {
    hide SendReply;
    var t, m := s.(mode := Closing), ReplyMessage(code, V4([]), 0);
    ReplyFresh(c, t, m, ok);
    ReplyFlags(c, t, m, ok);
  }

  lemma LaunchReads(c: Config, s: State, l: Launch, o: Posts)
    requires Fresh(s) && s.mode.Parsing? && !s.client.reading
    ensures Reads(DoLaunch(c, s, l, o))
  {
    hide SendReply, FailAndClose;
    match l
    case UdpStarted(a, port) =>
      ReplyFresh(c, s, ReplyMessage(SUCCEEDED, a, port), o.clientSend);
      ReplyFlags(c, s, ReplyMessage(SUCCEEDED, a, port), o.clientSend);
    case LaunchFailed(code) => FailReads(c, s, code, o.clientSend);
    case _ =>
  }

  lemma DialogReads(c: Config, s: State, data: bytes, l: Launch, o: Posts)
    requires Fresh(s) && s.mode.Parsing? && !s.client.reading && !s.closeAfterFlush
    ensures Reads(Dialog(c, s, data, l, o))
  {
    hide Dialog, Feed, Said, FailAndClose, DoLaunch;
    DialogSplit(c, s, data, l, o);
    var t := PumpClient(Answered(c, s, data), o.clientSend);
    assert Fresh(t) && t.mode.Parsing? && !t.client.reading && !t.closeAfterFlush;
    LaunchReads(c, t, l, o);
    if t.parser.phase.Refused? {
      FailReads(c, t, t.parser.phase.code, o.clientSend);
    }
  }

  lemma RelayReads(c: Config, s: State, data: bytes, o: Posts)
    requires Reads(s) && s.mode.Relaying?
    ensures Reads(RelayFromClient(c, s, data, o))
  {
    hide ForwardInput;
    ForwardFlags(c, s.(received := s.received + data, parser := Plus(s.parser, data)), o);
  }

  lemma RelayDestReads(c: Config, s: State, data: bytes, o: Posts)
    requires Reads(s) && s.mode.Relaying?
    ensures Reads(RelayFromDest(c, s, data, o))
  {
    hide QueueRaw, Parts, WrapFrames, Wraps, GoodParts, Reads, TryReadDest;
    if !s.parser.protect {
      QueueReads(s, s.(fromDest := s.fromDest + data, relayed := s.relayed + [data]), [data], o);
    } else {
      QueueReads(s, s.(fromDest := s.fromDest + data), WrapFrames(c.gss, GoodParts(c.gss, Parts(data))), o);
    }
  }

  lemma QueueReads(s: State, t: State, chunks: seq<bytes>, o: Posts)
    requires Reads(s) && s.mode.Relaying? && t == s.(fromDest := t.fromDest, relayed := t.relayed)
    ensures Reads(TryReadDest(QueueRaw(t, chunks, o.clientSend), o.destRead)) && Reads(Close(QueueRaw(t, chunks, o.clientSend)))
  {
    hide QueueRaw;
    QueueFlags(t, chunks, o.clientSend);
  }

  lemma RecvReads(c: Config, s: State, data: bytes, l: Launch, o: Posts)
    requires Reads(s) && s.client.reading
    ensures Reads(OnClientRecv(c, s, data, l, o))
  {
    hide Dialog, RelayFromClient;
    var t := s.(client := s.client.(reading := false));
    if s.mode.Parsing? {
      DialogReads(c, t, data, l, o);
    } else if s.mode.Relaying? {
      RelayReads(c, t, data, o);
    }
  }

  lemma DestRecvReads(c: Config, s: State, data: bytes, o: Posts)
    requires Reads(s) && s.mode.Relaying?
    ensures Reads(OnDestRecv(c, s, data, o))
  {
    hide RelayFromDest;
    RelayDestReads(c, s.(dest := s.dest.(reading := false)), data, o);
  }

  lemma ClientSendReads(s: State, n: nat, failed: bool, o: Posts)
    requires Reads(s)
    ensures Reads(OnClientSend(s, n, failed, o))
  {
    hide SendDone;
    DoneFlags(s.client, n);
  }

  lemma DestSendReads(s: State, n: nat, failed: bool, o: Posts)
    requires Reads(s)
    ensures Reads(OnDestSend(s, n, failed, o))
  {
    hide SendDone;
    DoneFlags(s.dest, n);
  }

  lemma StartReads(c: Config, s: State, o: Posts)
    requires Fresh(s) && !s.client.reading
    ensures Reads(StartRelay(c, s, o))
  {
    hide ForwardInput;
    ForwardFlags(c, s.(mode := Relaying), o);
  }

  lemma ConnectReads(c: Config, s: State, l: Launch, error: Option<byte>, bound: Address, port: u16, o: Posts)
    requires Reads(s) && (!s.closed && s.mode.Connecting? ==> !s.client.reading)
    ensures Reads(OnDnsResolved(c, s, l, o)) && Reads(OnDestConnect(c, s, error, bound, port, o))
  {
    hide SendReply, StartRelay, FailAndClose;
    if l.LaunchFailed? && s.mode.Resolving? {
      FailReads(c, s, l.code, o.clientSend);
    }
    if s.mode.Connecting? && !s.closed {
      if error.Some? {
        FailReads(c, s, error.value, o.clientSend);
      } else {
        var m := ReplyMessage(SUCCEEDED, bound, port);
        ReplyFresh(c, s, m, o.clientSend);
        ReplyFlags(c, s, m, o.clientSend);
        StartReads(c, SendReply(c, s, m, o.clientSend), o);
      }
    }
  }

  // ----- All of it, in every run

  ghost predicate Inv(c: Config, s: State) {
    Streams(s) && Story(c, CoreOf(s)) && Unbroken(c, s) && Flows(s) && Bounded(s) && Reads(s)
  }

  lemma TimeoutFlows(c: Config, s: State, o: Posts)
    requires Inv(c, s) && s.mode.Connecting?
    ensures var t := FailAndClose(c, s, TTL_EXPIRED, o.clientSend); Flows(t) && Bounded(t) && Reads(t)
  {
    hide Streams, Story, Flows, Reads, FailAndClose;
    FailFlows(c, s, TTL_EXPIRED, o.clientSend);
    FailReads(c, s, TTL_EXPIRED, o.clientSend);
    FailStory(c, s, TTL_EXPIRED, o.clientSend);
  }

  lemma StepFlows(c: Config, s: State, e: Event)
    requires Inv(c, s) && Enabled(s, e)
    ensures Flows(Step(c, s, e)) && Bounded(Step(c, s, e))
  {
    hide Streams, Story, Reads, OnClientRecv, OnDestRecv, OnClientSend, OnDestSend, OnDnsResolved, OnDestConnect, FailAndClose;
    match e
    case ClientRecv(data, l, o) => RecvFlows(c, s, data, l, o);
    case ClientSent(n, failed, o) =>
      ClientSendFlows(s, n, failed, o);
      ClientSendBounded(s, n, failed, o);
    case DestRecv(data, o) => DestRecvFlows(c, s, data, o);
    case DestSent(n, failed, o) =>
      DestSendFlows(s, n, failed, o);
      DestSendBounded(s, n, failed, o);
    case Resolved(l, o) => ResolvedFlows(c, s, l, o);
    case Connected(error, bound, port, o) => ConnectedFlows(c, s, error, bound, port, o);
    case ConnectTimeout(o) =>
      if s.mode.Connecting? {
        TimeoutFlows(c, s, o);
      }
    case _ =>
  }

  lemma StepReads(c: Config, s: State, e: Event)
    requires Inv(c, s) && Enabled(s, e)
    ensures Reads(Step(c, s, e))
  {
    hide Streams, Story, OnClientRecv, OnDestRecv, OnClientSend, OnDestSend, OnDnsResolved, OnDestConnect, FailAndClose;
    match e
    case ClientRecv(data, l, o) => RecvReads(c, s, data, l, o);
    case ClientSent(n, failed, o) => ClientSendReads(s, n, failed, o);
    case DestRecv(data, o) => DestRecvReads(c, s, data, o);
    case DestSent(n, failed, o) => DestSendReads(s, n, failed, o);
    case Resolved(l, o) => ConnectReads(c, s, l, None, V4([]), 0, o);
    case Connected(error, bound, port, o) => ConnectReads(c, s, Started, error, bound, port, o);
    case ConnectTimeout(o) =>
      if s.mode.Connecting? {
        TimeoutFlows(c, s, o);
      }
    case _ =>
  }

  lemma StepUnbroken(c: Config, s: State, e: Event)
    requires Inv(c, s) && Enabled(s, e)
    ensures Unbroken(c, Step(c, s, e))
  {
    hide Streams, Story, Unbroken, OnClientRecv, OnClientSend, OnDestSend, OnDnsResolved, OnDestConnect, FailAndClose, Dialog, RelayFromDest;
    var t := Step(c, s, e);
    if s.closed {
      ClosedStays(c, s, e);
      NotOpen(c, t);
    } else {
      match e
      case ClientRecv(data, l, o) =>
        if s.mode.Parsing? {
          DialogMode(c, s.(client := s.client.(reading := false)), data, l, o);
        }
        RecvUnbroken(c, s, data, l, o);
      case ClientSent(n, failed, o) =>
        ClientSendCore(s, n, failed, o);
        SameUnbroken(c, s, t);
      case DestRecv(data, o) =>
        RelayDestKeeps(c, s.(dest := s.dest.(reading := false)), data, o);
        SameUnbroken(c, s, t);
      case DestSent(n, failed, o) =>
        DestSendCore(s, n, failed, o);
        SameUnbroken(c, s, t);
      case Resolved(l, o) => ResolvedUnbroken(c, s, l, o);
      case Connected(error, bound, port, o) => ConnectedUnbroken(c, s, error, bound, port, o);
      case ConnectTimeout(o) =>
        if s.mode.Connecting? {
          FailStory(c, s, TTL_EXPIRED, o.clientSend);
        }
        SameUnbroken(c, s, t);
      case _ => SameUnbroken(c, s, t);
    }
  }

  lemma NotOpen(c: Config, s: State)
    requires s.closed
    ensures Unbroken(c, s)
  {
    hide Feed, RelayInput;
  }

  lemma ResolvedUnbroken(c: Config, s: State, l: Launch, o: Posts)
    requires Story(c, CoreOf(s)) && Unbroken(c, s) && !s.closed
    ensures Unbroken(c, OnDnsResolved(c, s, l, o))
  {
    hide Story, Unbroken, FailAndClose, RequestFlush;
    if s.mode.Resolving? && l.LaunchFailed? {
      FailStory(c, s, l.code, o.clientSend);
      FlushMode(FailAndClose(c, s, l.code, o.clientSend));
    }
    SameUnbroken(c, s, OnDnsResolved(c, s, l, o));
  }

  lemma StepInv(c: Config, s: State, e: Event)
    requires Inv(c, s) && Enabled(s, e)
    ensures Inv(c, Step(c, s, e))
  {
    StepStreams(c, s, e);
    assert s.dest.reading ==> s.mode.Relaying?;
    StepStory(c, s, e);
    StepFlows(c, s, e);
    StepReads(c, s, e);
    StepUnbroken(c, s, e);
    hide Streams, Story, Unbroken, Flows, Bounded, Reads, Step;
  }

  lemma FirstInv(c: Config)
    ensures Inv(c, FIRST)
  {
    assert Plus(START, []) == START;
    assert Advance(c, START).None?;
  }

  lemma {:induction false} EveryRun(c: Config, run: seq<State>, es: seq<Event>, k: nat)
    requires IsRun(c, run, es) && k < |run|
    ensures Inv(c, run[k])
    decreases k
  {
    hide Inv, Step, Enabled;
    if k == 0 {
      FirstInv(c);
    } else {
      EveryRun(c, run, es, k - 1);
      StepInv(c, run[k - 1], es[k - 1]);
    }
  }
}
