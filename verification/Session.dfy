/**
 A SOCKS5 session as a state machine over its completions, each handled whole under the
 session's completion mutex: dialogue, connect, and the two-way relay with partial sends and
 backpressure. Whether a post succeeds is up to the event.
 */
module Session {
  import opened Bytes
  import opened GssFrames
  import opened SocksParser
  import opened SocksDialogue
  import opened SendStream

  const MAX_DEPTH := 32

  const SUCCEEDED: byte := 0
  const TTL_EXPIRED: byte := 6

  datatype Mode = Parsing | Resolving | Connecting | Relaying | Udp | Closing

  /**
   `received` and `fromDest` are every octet handled from either side; `reply` is the SOCKS reply,
   and `after` every chunk queued for the client since the dialogue.
   */
  datatype State = State(
    parser: Parser,
    mode: Mode,
    closed: bool,
    closeAfterFlush: bool,
    client: Stream,
    dest: Stream,
    received: bytes,
    fromDest: bytes,
    reply: Option<bytes>,
    relayed: seq<bytes>,
    after: seq<bytes>)

  /** Outcomes of the posts that a step makes; each kind is posted at most once in a step. */
  datatype Posts = Posts(clientSend: bool, destSend: bool, clientRead: bool, destRead: bool)

  /** What comes of an accepted request: a connect, a lookup, or a UDP relay. */
  datatype Launch = Started | Lookup | UdpStarted(udpAddr: Address, udpPort: u16) | LaunchFailed(code: byte)

  // ----- The pieces of the handlers

  function Close(s: State): State {
    s.(closed := true, closeAfterFlush := false)
  }

  function PumpClient(s: State, ok: bool): State {
    if s.closed || s.client.sending || s.client.queue == [] then s
    else if ok then s.(client := s.client.(sending := true))
    else Close(s)
  }

  function PumpDest(s: State, ok: bool): State {
    if s.closed || s.dest.sending || s.dest.queue == [] then s
    else if ok then s.(dest := s.dest.(sending := true))
    else Close(s)
  }

  function QueueRaw(s: State, chunks: seq<bytes>, ok: bool): State {
    PumpClient(s.(client := PushAll(s.client, chunks), after := s.after + chunks), ok)
  }

  function ReplyMessage(code: byte, addr: Address, port: u16): (r: bytes)
    ensures r != []
  {
    if ValidAddress(addr) && !addr.Name? then [5, code, 0] + PrintAddress(addr) + U16(port)
    else [5, code, 0, 1, 0, 0, 0, 0, 0, 0]
  }

  /** Before relaying, a protected session wraps what it tells the client. */
  function SendReply(c: Config, s: State, message: bytes, ok: bool): State {
    var t := s.(reply := Some(message));
    if !s.parser.protect then QueueRaw(t, [message], ok)
    else if Wraps(c.gss, message) then QueueRaw(t, [PrintFrame(MSG_ENCAPSULATED, c.gss.wrap(message).value)], ok)
    else Close(s)
  }

  function RequestFlush(s: State): State {
    if s.closed then s
    else if s.client.queue == [] && !s.client.sending then Close(s)
    else s.(closeAfterFlush := true)
  }

  function FailAndClose(c: Config, s: State, code: byte, ok: bool): State {
    if s.closed || s.mode.Closing? then s
    else RequestFlush(SendReply(c, s.(mode := Closing), ReplyMessage(code, V4([]), 0), ok))
  }

  function BeginClientRead(s: State, ok: bool): State {
    if s.closed || s.client.reading then s
    else if ok then s.(client := s.client.(reading := true))
    else Close(s)
  }

  function TryReadClient(s: State, ok: bool): State {
    if s.closed || !s.mode.Relaying? || s.client.reading || s.client.peerClosed || s.client.paused then s
    else if |s.dest.queue| >= MAX_DEPTH then s.(client := s.client.(paused := true))
    else if ok then s.(client := s.client.(reading := true))
    else Close(s)
  }

  function TryReadDest(s: State, ok: bool): State {
    if s.closed || !s.mode.Relaying? || s.dest.reading || s.dest.peerClosed || s.dest.paused then s
    else if |s.client.queue| >= MAX_DEPTH then s.(dest := s.dest.(paused := true))
    else if ok then s.(dest := s.dest.(reading := true))
    else Close(s)
  }

  function ResumeClient(s: State, ok: bool): State {
    if s.closed || !s.mode.Relaying? || !s.client.paused || |s.dest.queue| >= MAX_DEPTH then s
    else TryReadClient(s.(client := s.client.(paused := false)), ok)
  }

  function ResumeDest(s: State, ok: bool): State {
    if s.closed || !s.mode.Relaying? || !s.dest.paused || |s.client.queue| >= MAX_DEPTH then s
    else TryReadDest(s.(dest := s.dest.(paused := false)), ok)
  }

  /** Client bytes become chunks for the destination: as they are, or unwrapped. */
  function ForwardInput(c: Config, s: State, o: Posts): State {
    if !s.parser.protect then
      if s.parser.ingest == [] then s
      else PumpDest(s.(dest := Push(s.dest, s.parser.ingest), parser := s.parser.(ingest := [])), o.destSend)
    else
      var r := RelayInput(c.gss, s.parser.ingest);
      var t := PumpDest(s.(dest := PushAll(s.dest, r.chunks), parser := s.parser.(ingest := r.rest)), o.destSend);
      if r.ok then t else Close(t)
  }

  function StartRelay(c: Config, s: State, o: Posts): State {
    var t := BeginClientRead(ForwardInput(c, s.(mode := Relaying), o), o.clientRead);
    if t.closed then t
    else if o.destRead then t.(dest := t.dest.(reading := true))
    else Close(t)
  }

  function WrapFrames(g: Package, parts: seq<bytes>): seq<bytes>
    requires forall i :: 0 <= i < |parts| ==> Wraps(g, parts[i])
  {
    if parts == [] then []
    else
      assert Wraps(g, parts[0]);
      [PrintFrame(MSG_ENCAPSULATED, g.wrap(parts[0]).value)] + WrapFrames(g, parts[1..])
  }

  /** The parts before the first that cannot be wrapped: they have been queued when it fails. */
  function GoodParts(g: Package, parts: seq<bytes>): (r: seq<bytes>)
    ensures r <= parts && (forall i :: 0 <= i < |r| ==> Wraps(g, r[i]))
    ensures |r| < |parts| ==> !Wraps(g, parts[|r|])
  {
    if parts == [] || !Wraps(g, parts[0]) then [] else [parts[0]] + GoodParts(g, parts[1..])
  }

  // ----- The handlers

  function DoLaunch(c: Config, s: State, l: Launch, o: Posts): State {
    match l
    case Started => s.(mode := Connecting)
    case Lookup => s.(mode := Resolving)
    case UdpStarted(a, port) => BeginClientRead(SendReply(c, s, ReplyMessage(SUCCEEDED, a, port), o.clientSend).(mode := Udp), o.clientRead)
    case LaunchFailed(code) => RequestFlush(FailAndClose(c, s, code, o.clientSend))
  }

  /** Bytes during the dialogue: parse all there is, queue the answers, then go where the parser says. */
  function Dialog(c: Config, s: State, data: bytes, l: Launch, o: Posts): State {
    if Overflows(s.parser, |data|) then Close(s)
    else
      var q := Feed(c, s.parser, data);
      var said := if |s.parser.out| <= |q.out| then q.out[|s.parser.out|..] else [];
      var t := PumpClient(s.(parser := q, received := s.received + data, client := PushAll(s.client, said)), o.clientSend);
      if t.closed then t
      else if Active(q) then BeginClientRead(t, o.clientRead)
      else match q.phase
           case Refused(code) => FailAndClose(c, t, code, o.clientSend)
           case Accepted(_, _, _) => DoLaunch(c, t, l, o)
           case _ => RequestFlush(t)
  }

  function RelayFromClient(c: Config, s: State, data: bytes, o: Posts): State {
    if s.parser.protect && Overflows(s.parser, |data|) then Close(s)
    else
      var t := ForwardInput(c, s.(received := s.received + data, parser := Plus(s.parser, data)), o);
      TryReadClient(t, o.clientRead)
  }

  function RelayFromDest(c: Config, s: State, data: bytes, o: Posts): State {
    if !s.parser.protect then
      TryReadDest(QueueRaw(s.(fromDest := s.fromDest + data, relayed := s.relayed + [data]), [data], o.clientSend), o.destRead)
    else
      var good := GoodParts(c.gss, Parts(data));
      var t := QueueRaw(s.(fromDest := s.fromDest + data), WrapFrames(c.gss, good), o.clientSend);
      if |good| == |Parts(data)| then TryReadDest(t, o.destRead) else Close(t)
  }

  function OnClientRecv(c: Config, s: State, data: bytes, l: Launch, o: Posts): State {
    var t := s.(client := s.client.(reading := false));
    if s.closed then t
    else if data == [] then
      if !s.mode.Relaying? then Close(t)
      else
        var u := t.(client := t.client.(peerClosed := true));
        if s.dest.peerClosed then Close(u) else u
    else match s.mode
         case Udp => BeginClientRead(t.(received := s.received + data), o.clientRead)
         case Relaying => RelayFromClient(c, t, data, o)
         case Parsing => Dialog(c, t, data, l, o)
         case _ => t
  }

  function OnClientSend(s: State, n: nat, failed: bool, o: Posts): State {
    var t := s.(client := SendDone(s.client, n));
    if s.closed then t
    else if failed then Close(t)
    else
      var u := PumpClient(t, o.clientSend);
      if !u.closed && u.closeAfterFlush && u.client.queue == [] && !u.client.sending then Close(u)
      else ResumeDest(u, o.destRead)
  }

  function OnDestRecv(c: Config, s: State, data: bytes, o: Posts): State {
    var t := s.(dest := s.dest.(reading := false));
    if s.closed then t
    else if data == [] then
      var u := t.(dest := t.dest.(peerClosed := true));
      if s.client.peerClosed then Close(u) else u
    else RelayFromDest(c, t, data, o)
  }

  function OnDestSend(s: State, n: nat, failed: bool, o: Posts): State {
    var t := s.(dest := SendDone(s.dest, n));
    if s.closed then t
    else if failed then Close(t)
    else ResumeClient(PumpDest(t, o.destSend), o.clientRead)
  }

  function OnDnsResolved(c: Config, s: State, l: Launch, o: Posts): State {
    if s.closed || !s.mode.Resolving? then s
    else if l.Started? then s.(mode := Connecting)
    else if l.LaunchFailed? then RequestFlush(FailAndClose(c, s, l.code, o.clientSend))
    else s
  }

  function OnDestConnect(c: Config, s: State, error: Option<byte>, bound: Address, port: u16, o: Posts): State {
    if s.closed || !s.mode.Connecting? then s
    else if error.Some? then FailAndClose(c, s, error.value, o.clientSend)
    else StartRelay(c, SendReply(c, s, ReplyMessage(SUCCEEDED, bound, port), o.clientSend), o)
  }

  datatype Event =
    | ClientRecv(data: bytes, launch: Launch, o: Posts)
    | ClientSent(n: nat, failed: bool, o: Posts)
    | DestRecv(data: bytes, o: Posts)
    | DestSent(n: nat, failed: bool, o: Posts)
    | Resolved(launch: Launch, o: Posts)
    | Connected(error: Option<byte>, bound: Address, port: u16, o: Posts)
    | ConnectTimeout(o: Posts)
    | IdleTimeout
    | Shut

  /** A completion needs its post; a send reports no more than it was asked to send; a lookup ends in a connect or a failure. */
  predicate Enabled(s: State, e: Event) {
    match e
    case ClientRecv(_, _, _) => s.client.reading
    case ClientSent(n, _, _) => s.client.sending && n <= Asked(s.client)
    case DestRecv(_, _) => s.dest.reading
    case DestSent(n, _, _) => s.dest.sending && n <= Asked(s.dest)
    case Resolved(l, _) => l.Started? || l.LaunchFailed?
    case _ => true
  }

  function Step(c: Config, s: State, e: Event): State {
    match e
    case ClientRecv(data, l, o) => OnClientRecv(c, s, data, l, o)
    case ClientSent(n, failed, o) => OnClientSend(s, n, failed, o)
    case DestRecv(data, o) => OnDestRecv(c, s, data, o)
    case DestSent(n, failed, o) => OnDestSend(s, n, failed, o)
    case Resolved(l, o) => OnDnsResolved(c, s, l, o)
    case Connected(error, bound, port, o) => OnDestConnect(c, s, error, bound, port, o)
    case ConnectTimeout(o) => if s.mode.Connecting? then FailAndClose(c, s, TTL_EXPIRED, o.clientSend) else s
    case IdleTimeout => if s.mode.Parsing? then Close(s) else s
    case Shut => Close(s)
  }

  const FIRST := State(START, Parsing, false, false, IDLE.(reading := true), IDLE, [], [], None, [], [])

  ghost predicate IsRun(c: Config, run: seq<State>, es: seq<Event>) {
    && |run| == |es| + 1 && run[0] == FIRST
    && forall i :: 0 <= i < |es| ==> Enabled(run[i], es[i]) && run[i + 1] == Step(c, run[i], es[i])
  }
}
