/**
 What every reachable session state satisfies: both directions lose nothing, the client hears
 a well-formed conversation, and the relay neither stalls nor grows without bound.
 */
module SessionProofs {
  import opened Bytes
  import opened GssFrames
  import opened SocksParser
  import opened SendStream
  import opened Session

  // ----- Streams

  ghost predicate Backed(x: Stream) {
    Faithful(x) && |x.queue| <= |x.log| && (x.sending ==> x.queue != [])
  }

  /** An open session never leaves a chunk waiting without a send in flight. */
  ghost predicate Pumped(x: Stream, closed: bool) {
    !closed && x.queue != [] ==> x.sending
  }

  ghost predicate Streams(s: State) {
    Backed(s.client) && Backed(s.dest) && Pumped(s.client, s.closed) && Pumped(s.dest, s.closed)
  }

  lemma PushedBacked(x: Stream, chunks: seq<bytes>)
    requires Backed(x) && forall i :: 0 <= i < |chunks| ==> chunks[i] != []
    ensures Backed(PushAll(x, chunks))
  {
    PushAllFaithful(x, chunks);
  }

  lemma DoneBacked(x: Stream, n: nat)
    requires Backed(x)
    ensures Backed(SendDone(x, n))
  {
    SendDoneFaithful(x, n);
  }

  lemma FlagsBacked(x: Stream, y: Stream)
    requires Backed(x) && y == x.(sending := y.sending, reading := y.reading, peerClosed := y.peerClosed, paused := y.paused)
    requires y.sending ==> y.queue != []
    ensures Backed(y)
  {
  }

  lemma PumpStreams(s: State, ok: bool)
    requires Backed(s.client) && Backed(s.dest)
    ensures var t := PumpClient(s, ok);
            Backed(t.client) && Pumped(t.client, t.closed) && (Pumped(s.dest, s.closed) ==> Streams(t))
    ensures var t := PumpDest(s, ok);
            Backed(t.dest) && Pumped(t.dest, t.closed) && (Pumped(s.client, s.closed) ==> Streams(t))
  {
    hide Backed;
    FlagsBacked(s.client, s.client.(sending := s.client.queue != []));
    FlagsBacked(s.dest, s.dest.(sending := s.dest.queue != []));
  }

  lemma QueueStreams(s: State, chunks: seq<bytes>, ok: bool)
    requires Streams(s) && forall i :: 0 <= i < |chunks| ==> chunks[i] != []
    ensures Streams(QueueRaw(s, chunks, ok))
  {
    hide Backed;
    PushedBacked(s.client, chunks);
    PumpStreams(s.(client := PushAll(s.client, chunks), after := s.after + chunks), ok);
  }

  lemma ReplyStreams(c: Config, s: State, message: bytes, ok: bool)
    requires Streams(s) && message != []
    ensures Streams(SendReply(c, s, message, ok))
  {
    hide Backed, PrintFrame;
    var t := s.(reply := Some(message));
    QueueStreams(t, [message], ok);
    if Wraps(c.gss, message) {
      QueueStreams(t, [PrintFrame(MSG_ENCAPSULATED, c.gss.wrap(message).value)], ok);
    }
  }

  lemma FailStreams(c: Config, s: State, code: byte, ok: bool)
    requires Streams(s)
    ensures Streams(FailAndClose(c, s, code, ok))
  {
    hide Backed, SendReply;
    ReplyStreams(c, s.(mode := Closing), ReplyMessage(code, V4([]), 0), ok);
  }

  lemma SameStreams(s: State, t: State)
    requires Streams(s) && (t.closed || !s.closed)
    requires t.client == s.client.(reading := t.client.reading, peerClosed := t.client.peerClosed, paused := t.client.paused)
    requires t.dest == s.dest.(reading := t.dest.reading, peerClosed := t.dest.peerClosed, paused := t.dest.paused)
    ensures Streams(t)
  {
    assert Backed(t.client) && Backed(t.dest) by {
      FlagsBacked(s.client, t.client);
      FlagsBacked(s.dest, t.dest);
    }
    hide Backed;
  }

  lemma BeginStreams(s: State, ok: bool)
    requires Streams(s)
    ensures Streams(BeginClientRead(s, ok))
  {
    hide Streams;
    SameStreams(s, BeginClientRead(s, ok));
  }

  lemma TryClientStreams(s: State, ok: bool)
    requires Streams(s)
    ensures Streams(TryReadClient(s, ok))
  {
    hide Streams;
    SameStreams(s, TryReadClient(s, ok));
  }

  lemma TryDestStreams(s: State, ok: bool)
    requires Streams(s)
    ensures Streams(TryReadDest(s, ok))
  {
    hide Streams;
    SameStreams(s, TryReadDest(s, ok));
  }

  lemma TryStreams(s: State, ok: bool)
    requires Streams(s)
    ensures Streams(TryReadClient(s, ok)) && Streams(TryReadDest(s, ok))
  {
    hide Streams, TryReadClient, TryReadDest;
    TryClientStreams(s, ok);
    TryDestStreams(s, ok);
  }

  lemma ReadStreams(s: State, ok: bool)
    requires Streams(s)
    ensures Streams(BeginClientRead(s, ok)) && Streams(TryReadClient(s, ok)) && Streams(TryReadDest(s, ok))
  {
    hide Streams, BeginClientRead, TryReadClient, TryReadDest;
    BeginStreams(s, ok);
    TryStreams(s, ok);
  }

  lemma ResumeStreams(s: State, ok: bool)
    requires Streams(s)
    ensures Streams(ResumeClient(s, ok)) && Streams(ResumeDest(s, ok))
  {
    hide Streams, TryReadClient, TryReadDest;
    SameStreams(s, s.(client := s.client.(paused := false)));
    SameStreams(s, s.(dest := s.dest.(paused := false)));
    TryStreams(s.(client := s.client.(paused := false)), ok);
    TryStreams(s.(dest := s.dest.(paused := false)), ok);
  }

  lemma {:induction false} RelayedNotEmpty(g: Package, s: bytes)
    ensures forall i :: 0 <= i < |RelayInput(g, s).chunks| ==> RelayInput(g, s).chunks[i] != []
    decreases |s|
  {
    var r := ReadFrame(s, MSG_ENCAPSULATED);
    if r.Frame? {
      RelayedNotEmpty(g, r.rest);
    }
  }

  lemma ForwardStreams(c: Config, s: State, o: Posts)
    requires Streams(s)
    ensures Streams(ForwardInput(c, s, o))
  {
    hide Backed, RelayInput;
    var r := RelayInput(c.gss, s.parser.ingest);
    RelayedNotEmpty(c.gss, s.parser.ingest);
    PushedBacked(s.dest, r.chunks);
    if s.parser.ingest != [] {
      PushedBacked(s.dest, [s.parser.ingest]);
      assert Push(s.dest, s.parser.ingest) == PushAll(s.dest, [s.parser.ingest]);
    }
    if s.parser.ingest != [] {
      PumpStreams(s.(dest := Push(s.dest, s.parser.ingest), parser := s.parser.(ingest := [])), o.destSend);
    }
    PumpStreams(s.(dest := PushAll(s.dest, r.chunks), parser := s.parser.(ingest := r.rest)), o.destSend);
  }

  lemma StartStreams(c: Config, s: State, o: Posts)
    requires Streams(s)
    ensures Streams(StartRelay(c, s, o))
  {
    hide ForwardInput, Streams, BeginClientRead;
    SameStreams(s, s.(mode := Relaying));
    ForwardStreams(c, s.(mode := Relaying), o);
    var t := ForwardInput(c, s.(mode := Relaying), o);
    BeginStreams(t, o.clientRead);
    var u := BeginClientRead(t, o.clientRead);
    SameStreams(u, u.(dest := u.dest.(reading := true)));
    SameStreams(u, Close(u));
  }

  lemma {:induction false} WrapFramesNotEmpty(g: Package, parts: seq<bytes>)
    requires forall i :: 0 <= i < |parts| ==> Wraps(g, parts[i])
    ensures forall i :: 0 <= i < |WrapFrames(g, parts)| ==> IsFrame(WrapFrames(g, parts)[i])
    decreases |parts|
  {
    if parts != [] {
      WrapFramesNotEmpty(g, parts[1..]);
    }
  }

  /** One whole encapsulated frame. */
  ghost predicate IsFrame(chunk: bytes) {
    chunk != [] && exists t: token :: chunk == PrintFrame(3, t)
  }

  lemma LaunchStreams(c: Config, s: State, l: Launch, o: Posts)
    requires Streams(s)
    ensures Streams(DoLaunch(c, s, l, o))
  {
    hide Backed, SendReply, FailAndClose, BeginClientRead;
    match l
    case UdpStarted(a, port) =>
      ReplyStreams(c, s, ReplyMessage(SUCCEEDED, a, port), o.clientSend);
      ReadStreams(SendReply(c, s, ReplyMessage(SUCCEEDED, a, port), o.clientSend).(mode := Udp), o.clientRead);
    case LaunchFailed(code) => FailStreams(c, s, code, o.clientSend);
    case _ =>
  }

  /** The parser's new messages, as they are queued. */
  ghost function Said(p: Parser, q: Parser): seq<bytes> {
    if |p.out| <= |q.out| then q.out[|p.out|..] else []
  }

  lemma SaidNotEmpty(c: Config, p: Parser, data: bytes)
    ensures var q := Feed(c, p, data);
            p.out + Said(p, q) == q.out && forall i :: 0 <= i < |Said(p, q)| ==> Said(p, q)[i] != []
  {
    hide Run;
    RunSays(c, Plus(p, data));
  }

  /** Where the dialogue goes once its answers are queued. */
  ghost function Onward(c: Config, t: State, l: Launch, o: Posts): State {
    if t.closed then t
    else if Active(t.parser) then BeginClientRead(t, o.clientRead)
    else match t.parser.phase
         case Refused(code) => FailAndClose(c, t, code, o.clientSend)
         case Accepted(_, _, _) => DoLaunch(c, t, l, o)
         case _ => RequestFlush(t)
  }

  /** The state in which the dialogue's answers have been queued. */
  ghost function Answered(c: Config, s: State, data: bytes): State {
    var q := Feed(c, s.parser, data);
    s.(parser := q, received := s.received + data, client := PushAll(s.client, Said(s.parser, q)))
  }

  lemma DialogSplit(c: Config, s: State, data: bytes, l: Launch, o: Posts)
    ensures Dialog(c, s, data, l, o)
            == if Overflows(s.parser, |data|) then Close(s) else Onward(c, PumpClient(Answered(c, s, data), o.clientSend), l, o)
  {
    hide Feed, BeginClientRead, FailAndClose, DoLaunch, RequestFlush;
  }

  lemma OnwardStreams(c: Config, t: State, l: Launch, o: Posts)
    requires Streams(t)
    ensures Streams(Onward(c, t, l, o))
  {
    hide Backed, BeginClientRead, FailAndClose, DoLaunch;
    ReadStreams(t, o.clientRead);
    LaunchStreams(c, t, l, o);
    if t.parser.phase.Refused? {
      FailStreams(c, t, t.parser.phase.code, o.clientSend);
    }
  }

  lemma DialogStreams(c: Config, s: State, data: bytes, l: Launch, o: Posts)
    requires Streams(s)
    ensures Streams(Dialog(c, s, data, l, o))
  {
    hide Backed, Feed, PumpClient, Onward, Dialog, Said;
    DialogSplit(c, s, data, l, o);
    SaidNotEmpty(c, s.parser, data);
    PushedBacked(s.client, Said(s.parser, Feed(c, s.parser, data)));
    PumpStreams(Answered(c, s, data), o.clientSend);
    OnwardStreams(c, PumpClient(Answered(c, s, data), o.clientSend), l, o);
  }

  lemma RelayStreams(c: Config, s: State, data: bytes, o: Posts)
    requires Streams(s) && data != []
    ensures Streams(RelayFromClient(c, s, data, o)) && Streams(RelayFromDest(c, s, data, o))
  {
    hide Streams, ForwardInput, TryReadClient, RelayFromDest;
    var s1 := s.(received := s.received + data, parser := Plus(s.parser, data));
    SameStreams(s, s1);
    SameStreams(s, Close(s));
    ForwardStreams(c, s1, o);
    ReadStreams(ForwardInput(c, s1, o), o.clientRead);
    RelayDestStreams(c, s, data, o);
  }

  lemma RelayDestStreams(c: Config, s: State, data: bytes, o: Posts)
    requires Streams(s) && data != []
    ensures Streams(RelayFromDest(c, s, data, o))
  {
    hide Streams, TryReadDest, QueueRaw, GoodParts, WrapFrames, Parts, IsFrame;
    var s2 := s.(fromDest := s.fromDest + data, relayed := s.relayed + [data]);
    SameStreams(s, s2);
    QueueStreams(s2, [data], o.clientSend);
    ReadStreams(QueueRaw(s2, [data], o.clientSend), o.destRead);
    var s3, good := s.(fromDest := s.fromDest + data), GoodParts(c.gss, Parts(data));
    SameStreams(s, s3);
    FramesNotEmpty(c.gss, good);
    QueueStreams(s3, WrapFrames(c.gss, good), o.clientSend);
    ReadStreams(QueueRaw(s3, WrapFrames(c.gss, good), o.clientSend), o.destRead);
    CloseStreams(QueueRaw(s3, WrapFrames(c.gss, good), o.clientSend));
  }

  lemma FramesNotEmpty(g: Package, parts: seq<bytes>)
    requires forall i :: 0 <= i < |parts| ==> Wraps(g, parts[i])
    ensures forall i :: 0 <= i < |WrapFrames(g, parts)| ==> WrapFrames(g, parts)[i] != []
  {
    hide WrapFrames;
    WrapFramesNotEmpty(g, parts);
  }

  lemma CloseStreams(s: State)
    requires Streams(s)
    ensures Streams(Close(s))
  {
    hide Backed;
  }

  lemma RecvStreams(c: Config, s: State, data: bytes, l: Launch, o: Posts)
    requires Streams(s)
    ensures Streams(OnClientRecv(c, s, data, l, o))
  {
    hide Streams, Dialog, RelayFromClient, BeginClientRead;
    var t := s.(client := s.client.(reading := false));
    SameStreams(s, t);
    SameStreams(s, t.(client := t.client.(peerClosed := true)));
    SameStreams(s, Close(t));
    SameStreams(s, Close(t.(client := t.client.(peerClosed := true))));
    DialogStreams(c, t, data, l, o);
    SameStreams(s, t.(received := s.received + data));
    ReadStreams(t.(received := s.received + data), o.clientRead);
    if data != [] {
      RelayStreams(c, t, data, o);
    }
  }

  lemma DestRecvStreams(c: Config, s: State, data: bytes, o: Posts)
    requires Streams(s)
    ensures Streams(OnDestRecv(c, s, data, o))
  {
    hide Streams, RelayFromDest;
    var t := s.(dest := s.dest.(reading := false));
    SameStreams(s, t);
    SameStreams(s, t.(dest := t.dest.(peerClosed := true)));
    SameStreams(s, Close(t.(dest := t.dest.(peerClosed := true))));
    if data != [] {
      RelayStreams(c, t, data, o);
    }
  }

  lemma ClientSendStreams(s: State, n: nat, failed: bool, o: Posts)
    requires Streams(s)
    ensures Streams(OnClientSend(s, n, failed, o))
  {
    hide Backed, SendDone, PumpClient, ResumeDest;
    DoneBacked(s.client, n);
    SendDoneFlag(s.client, n);
    var t := s.(client := SendDone(s.client, n));
    PumpStreams(t, o.clientSend);
    ResumeStreams(PumpClient(t, o.clientSend), o.destRead);
  }

  lemma DestSendStreams(s: State, n: nat, failed: bool, o: Posts)
    requires Streams(s)
    ensures Streams(OnDestSend(s, n, failed, o))
  {
    hide Backed, SendDone, PumpDest, ResumeClient;
    DoneBacked(s.dest, n);
    var t := s.(dest := SendDone(s.dest, n));
    PumpStreams(t, o.destSend);
    ResumeStreams(PumpDest(t, o.destSend), o.clientRead);
  }

  lemma SendDoneFlag(x: Stream, n: nat)
    ensures !SendDone(x, n).sending
  {
  }

  lemma ConnectStreams(c: Config, s: State, l: Launch, error: Option<byte>, bound: Address, port: u16, o: Posts)
    requires Streams(s)
    ensures Streams(OnDnsResolved(c, s, l, o)) && Streams(OnDestConnect(c, s, error, bound, port, o))
  {
    hide Backed, SendReply, FailAndClose, StartRelay;
    if l.LaunchFailed? {
      FailStreams(c, s, l.code, o.clientSend);
    }
    if error.Some? {
      FailStreams(c, s, error.value, o.clientSend);
    } else {
      var m := ReplyMessage(SUCCEEDED, bound, port);
      ReplyStreams(c, s, m, o.clientSend);
      StartStreams(c, SendReply(c, s, m, o.clientSend), o);
    }
  }

  lemma StepStreams(c: Config, s: State, e: Event)
    requires Streams(s)
    ensures Streams(Step(c, s, e))
  {
    hide Backed, OnClientRecv, OnDestRecv, OnClientSend, OnDestSend, OnDnsResolved, OnDestConnect, FailAndClose;
    match e
    case ClientRecv(data, l, o) => RecvStreams(c, s, data, l, o);
    case ClientSent(n, failed, o) => ClientSendStreams(s, n, failed, o);
    case DestRecv(data, o) => DestRecvStreams(c, s, data, o);
    case DestSent(n, failed, o) => DestSendStreams(s, n, failed, o);
    case Resolved(l, o) => ConnectStreams(c, s, l, None, V4([]), 0, o);
    case Connected(error, bound, port, o) => ConnectStreams(c, s, Started, error, bound, port, o);
    case ConnectTimeout(o) => FailStreams(c, s, TTL_EXPIRED, o.clientSend);
    case _ =>
  }
}
