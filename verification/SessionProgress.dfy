/**
 What a session does when nothing fails: which mode, reply and reads follow each event, that
 queued octets can all be sent, and runs that lead from the first octet through a whole relay.
 */
module SessionProgress {
  import opened Bytes
  import opened GssFrames
  import opened SocksParser
  import opened SocksDialogue
  import opened SendStream
  import opened Session
  import opened SessionProofs
  import opened SessionStory
  import opened SessionFlow
  import opened SessionTheorems
  import opened SessionWaits

  /** Every post succeeds. */
  const GOOD := Posts(true, true, true, true)

  /** A reply with the address it names, and one without. */
  function Named(code: byte, a: Address, port: u16): bytes
    requires ValidAddress(a)
  {
    [5, code, 0] + PrintAddress(a) + U16(port)
  }

  function Bare(code: byte): bytes {
    [5, code, 0, 1, 0, 0, 0, 0, 0, 0]
  }

  /** This message is the reply, and was queued behind all before it, in a frame where there is protection. */
  ghost predicate Replies(c: Config, s: State, t: State, message: bytes) {
    && t.reply == Some(message) && t.client.sending
    && (if s.parser.protect
        then Wraps(c.gss, message) && t.client == Push(s.client, PrintFrame(MSG_ENCAPSULATED, c.gss.wrap(message).value)).(sending := true, reading := t.client.reading)
        else t.client == Push(s.client, message).(sending := true, reading := t.client.reading))
  }

  lemma ReplySent(c: Config, s: State, message: bytes)
    requires !s.closed && (s.parser.protect ==> Wraps(c.gss, message))
    ensures var t := SendReply(c, s, message, true);
            && Replies(c, s, t, message) && !t.closed && t.client.reading == s.client.reading
            && t == s.(client := t.client, reply := t.reply, after := t.after)
  {
    hide PrintFrame;
  }

  // ----- The connect

  lemma ForwardGood(c: Config, s: State)
    requires !s.closed && (s.parser.protect ==> RelayInput(c.gss, s.parser.ingest).ok)
    ensures var t := ForwardInput(c, s, GOOD);
            && !t.closed && t == s.(dest := t.dest, parser := t.parser)
            && t.dest.reading == s.dest.reading && (!s.parser.protect ==> t.parser == s.parser.(ingest := []))
            && (!s.parser.protect ==> t.dest.log == if s.parser.ingest == [] then s.dest.log else s.dest.log + [s.parser.ingest])
            && (s.parser.protect ==> t.dest.log == s.dest.log + RelayInput(c.gss, s.parser.ingest).chunks)
            && (t.dest.queue != [] && Pumped(s.dest, false) ==> t.dest.sending)
  {
    hide RelayInput;
  }

  lemma StartGood(c: Config, s: State)
    requires !s.closed && (s.parser.protect ==> RelayInput(c.gss, s.parser.ingest).ok)
    ensures var t := StartRelay(c, s, GOOD);
            && t.mode.Relaying? && !t.closed && t.client.reading && t.dest.reading
            && t.reply == s.reply && t.client == s.client.(reading := true) && t.received == s.received
            && t.closeAfterFlush == s.closeAfterFlush && t.fromDest == s.fromDest
            && (!s.parser.protect ==> t.parser == s.parser.(ingest := []))
            && (!s.parser.protect ==> t.dest.log == if s.parser.ingest == [] then s.dest.log else s.dest.log + [s.parser.ingest])
            && (s.parser.protect ==> t.dest.log == s.dest.log + RelayInput(c.gss, s.parser.ingest).chunks)
  {
    hide ForwardInput, RelayInput;
    ForwardGood(c, s.(mode := Relaying));
  }

  /**
   A connect that succeeded: the client is told so, with the address bound, both directions are
   read, and what the client sent ahead is queued for the destination.
   */
  lemma ConnectStarts(c: Config, s: State, bound: Address, port: u16)
    requires Inv(c, s) && !s.closed && s.mode.Connecting? && ValidAddress(bound) && !bound.Name?
    requires s.parser.protect ==> Wraps(c.gss, Named(0, bound, port)) && RelayInput(c.gss, s.parser.ingest).ok
    ensures
      var t := Step(c, s, Connected(None, bound, port, GOOD));
      && t.mode.Relaying? && !t.closed && t.client.reading && t.dest.reading && t.received == s.received
      && Replies(c, s, t, Named(0, bound, port))
      && t.fromDest == s.fromDest && (!s.parser.protect ==> t.parser == s.parser.(ingest := []))
      && (!s.parser.protect ==> t.dest.log == if s.parser.ingest == [] then [] else [s.parser.ingest])
      && (s.parser.protect ==> t.dest.log == RelayInput(c.gss, s.parser.ingest).chunks)
  {
    NothingQueued(c, s);
    hide Inv, SendReply, StartRelay, RelayInput, PrintFrame, Step, Named;
    var m := Named(0, bound, port);
    ConnectIs(c, s, bound, port);
    ReplySent(c, s, m);
    StartGood(c, SendReply(c, s, m, true));
    EmptyPlus(s.parser.ingest, RelayInput(c.gss, s.parser.ingest).chunks);
  }

  lemma EmptyPlus(one: bytes, more: seq<bytes>)
    ensures [] + [one] == [one] && [] + more == more
  {
  }

  lemma ConnectIs(c: Config, s: State, bound: Address, port: u16)
    requires !s.closed && s.mode.Connecting? && ValidAddress(bound) && !bound.Name?
    ensures Step(c, s, Connected(None, bound, port, GOOD)) == StartRelay(c, SendReply(c, s, Named(0, bound, port), true), GOOD)
  {
    hide SendReply, StartRelay, PrintAddress, FailAndClose;
  }

  lemma NothingQueued(c: Config, s: State)
    requires Inv(c, s) && Before(s.mode)
    ensures s.dest.log == [] && s.after == [] && s.reply.None?
  {
    hide Streams, Unbroken, Flows, Bounded, Reads, Authentic, PlainTalk, Feed;
  }

  /** A session that told this code and closes once that is flushed. */
  ghost predicate Refuses(c: Config, s: State, t: State, code: byte) {
    t.mode.Closing? && !t.closed && t.closeAfterFlush && Replies(c, s, t, Bare(code))
  }

  lemma FailTells(c: Config, s: State, code: byte)
    requires !s.closed && !s.mode.Closing? && (s.parser.protect ==> Wraps(c.gss, Bare(code)))
    ensures Refuses(c, s, FailAndClose(c, s, code, true), code) && FailAndClose(c, s, code, true).received == s.received
    ensures RequestFlush(FailAndClose(c, s, code, true)) == FailAndClose(c, s, code, true)
  {
    hide SendReply, PrintFrame;
    var u := s.(mode := Closing);
    assert ReplyMessage(code, V4([]), 0) == Bare(code);
    ReplySent(c, u, Bare(code));
  }

  /** A connect that failed, or took too long, and a lookup that failed: the client is told which, and then the session closes. */
  lemma FailuresAreTold(c: Config, s: State, code: byte, bound: Address, port: u16)
    requires !s.closed && (s.parser.protect ==> Wraps(c.gss, Bare(code)) && Wraps(c.gss, Bare(6)))
    ensures s.mode.Connecting? ==> Refuses(c, s, Step(c, s, Connected(Some(code), bound, port, GOOD)), code)
    ensures s.mode.Connecting? ==> Refuses(c, s, Step(c, s, ConnectTimeout(GOOD)), 6)
    ensures s.mode.Resolving? ==> Refuses(c, s, Step(c, s, Resolved(LaunchFailed(code), GOOD)), code)
  {
    hide FailAndClose, StartRelay, SendReply, RequestFlush, Refuses;
    if !s.mode.Closing? {
      FailTells(c, s, code);
      FailTells(c, s, 6);
    }
  }

  /** A lookup that succeeded and whose connect could be posted: connecting, and nothing else changed. */
  lemma LookupConnects(c: Config, s: State)
    requires !s.closed && s.mode.Resolving?
    ensures Step(c, s, Resolved(Started, GOOD)) == s.(mode := Connecting)
  {
  }

  // ----- The dialogue

  /** The whole talk so far is the dialogue's answers, and then this reply. */
  ghost predicate Concludes(c: Config, t: State, message: bytes) {
    && t.reply == Some(message) && t.client.sending
    && (t.parser.protect ==> Wraps(c.gss, message))
    && t.client.log == t.parser.out + [if t.parser.protect then PrintFrame(MSG_ENCAPSULATED, c.gss.wrap(message).value) else message]
  }

  ghost predicate ReplyFits(c: Config, t: State, message: bytes) {
    t.parser.protect ==> Wraps(c.gss, message)
  }

  /** What an accepted request leads to. */
  ghost predicate Launched(c: Config, t: State, l: Launch) {
    match l
    case Started => t.mode.Connecting? && t.client.log == t.parser.out
    case Lookup => t.mode.Resolving? && t.client.log == t.parser.out
    case UdpStarted(a, port) =>
      ValidAddress(a) && !a.Name? && ReplyFits(c, t, Named(0, a, port)) ==>
        t.mode.Udp? && t.client.reading && Concludes(c, t, Named(0, a, port))
    case LaunchFailed(code) =>
      ReplyFits(c, t, Bare(code)) ==> t.mode.Closing? && t.closeAfterFlush && Concludes(c, t, Bare(code))
  }

  /** After the answers were queued, with nothing failing. */
  ghost predicate Talked(c: Config, u: State) {
    && !u.closed && u.mode.Parsing? && !u.client.reading && !u.closeAfterFlush
    && u.client.log == u.parser.out && (u.client.queue != [] ==> u.client.sending)
  }

  lemma LaunchLeads(c: Config, u: State, l: Launch)
    requires Talked(c, u)
    ensures var t := DoLaunch(c, u, l, GOOD);
            && Launched(c, t, l) && t.parser == u.parser && t.received == u.received
            && ((l.Started? || l.Lookup? || (l.UdpStarted? && ValidAddress(l.udpAddr) && !l.udpAddr.Name? && ReplyFits(c, u, Named(0, l.udpAddr, l.udpPort)))) ==> !t.closed)
  {
    match l
    case UdpStarted(a, port) =>
      if ValidAddress(a) && !a.Name? && ReplyFits(c, u, Named(0, a, port)) {
        UdpIs(c, u, a, port);
      } else {
        hide PrintFrame, PrintAddress;
      }
    case LaunchFailed(code) =>
      FailedIs(c, u, code);
    case _ =>
  }

  lemma UdpIs(c: Config, u: State, a: Address, port: u16)
    requires Talked(c, u) && ValidAddress(a) && !a.Name? && ReplyFits(c, u, Named(0, a, port))
    ensures var t := DoLaunch(c, u, UdpStarted(a, port), GOOD);
            t.mode.Udp? && !t.closed && t.client.reading && Concludes(c, t, Named(0, a, port)) && t.parser == u.parser && t.received == u.received
  {
    hide SendReply, PrintFrame, PrintAddress;
    var m := Named(0, a, port);
    assert ReplyMessage(SUCCEEDED, a, port) == m;
    ReplySent(c, u, m);
  }

  lemma FailedIs(c: Config, u: State, code: byte)
    requires Talked(c, u)
    ensures var t := DoLaunch(c, u, LaunchFailed(code), GOOD);
            && t.parser == u.parser && t.received == u.received
            && (ReplyFits(c, u, Bare(code)) ==> t.mode.Closing? && t.closeAfterFlush && !t.closed && Concludes(c, t, Bare(code)))
    ensures var t := FailAndClose(c, u, code, true);
            && t.parser == u.parser && t.received == u.received
            && (ReplyFits(c, u, Bare(code)) ==> t.mode.Closing? && t.closeAfterFlush && !t.closed && Concludes(c, t, Bare(code)))
  {
    if ReplyFits(c, u, Bare(code)) {
      FailTells(c, u, code);
      FailParser(c, u, code);
      hide FailAndClose, PrintFrame, RequestFlush;
    } else {
      hide PrintFrame;
    }
  }

  lemma FailParser(c: Config, u: State, code: byte)
    ensures FailAndClose(c, u, code, true).parser == u.parser
  {
    hide PrintFrame;
  }

  lemma AnsweredTalked(c: Config, s: State, data: bytes)
    requires Inv(c, s) && !s.closed && s.mode.Parsing? && s.client.reading
    ensures var u := PumpClient(Answered(c, s.(client := s.client.(reading := false)), data), true);
            Talked(c, u) && u.received == s.received + data && u.parser == Feed(c, START, s.received + data)
  {
    var v := s.(client := s.client.(reading := false));
    assert CoreOf(v) == CoreOf(s);
    AnsweredStory(c, v, data);
    assert s.parser == Feed(c, START, s.received);
    SegmentationIrrelevant(c, START, s.received, data);
    SaidNotEmpty(c, v.parser, data);
    hide Feed, PlainTalk, Authentic, LoggedIn, Said, Backed, Unbroken;
  }

  lemma RecvIs(c: Config, s: State, data: bytes, l: Launch)
    requires !s.closed && s.mode.Parsing? && data != [] && !Overflows(s.parser, |data|)
    ensures Step(c, s, ClientRecv(data, l, GOOD))
            == Onward(c, PumpClient(Answered(c, s.(client := s.client.(reading := false)), data), true), l, GOOD)
  {
    hide Dialog, Onward, PumpClient, Answered;
    DialogSplit(c, s.(client := s.client.(reading := false)), data, l, GOOD);
  }

  /**
   Octets of the dialogue, in every reachable session: it reads on while it needs more, launches an
   accepted request, tells the code of a refused one, and otherwise closes once its answers are sent.
   */
  lemma ArrivalLeads(c: Config, s: State, data: bytes, l: Launch)
    requires Inv(c, s) && !s.closed && s.mode.Parsing? && s.client.reading && data != [] && !Overflows(s.parser, |data|)
    ensures
      var t, q := Step(c, s, ClientRecv(data, l, GOOD)), Feed(c, START, s.received + data);
      && t.parser == q && t.received == s.received + data
      && (Active(q) ==> t.mode.Parsing? && !t.closed && t.client.reading && t.client.log == q.out)
      && (q.phase.Accepted? ==> Launched(c, t, l))
      && (q.phase.Accepted? && (l.Started? || l.Lookup?) ==> !t.closed)
      && (q.phase.Refused? && ReplyFits(c, t, Bare(q.phase.code)) ==>
            t.mode.Closing? && !t.closed && t.closeAfterFlush && Concludes(c, t, Bare(q.phase.code)))
      && (q.phase.Failed? ==> t.client.log == q.out && (t.closed || (t.closeAfterFlush && t.client.sending)))
  {
    AnsweredTalked(c, s, data);
    RecvIs(c, s, data, l);
    hide Inv, Step, Feed, Answered, PumpClient, DoLaunch, FailAndClose, Concludes, Launched;
    var u := PumpClient(Answered(c, s.(client := s.client.(reading := false)), data), true);
    LaunchLeads(c, u, l);
    if u.parser.phase.Refused? {
      FailedIs(c, u, u.parser.phase.code);
    }
  }

  // ----- Everything that arrives is heard

  /** The octets that the client, or the destination, sent in the first n steps. */
  ghost function FromClient(es: seq<Event>, n: nat): bytes
    requires n <= |es|
  {
    if n == 0 then [] else FromClient(es, n - 1) + if es[n - 1].ClientRecv? then es[n - 1].data else []
  }

  ghost function FromDest(es: seq<Event>, n: nat): bytes
    requires n <= |es|
  {
    if n == 0 then [] else FromDest(es, n - 1) + if es[n - 1].DestRecv? then es[n - 1].data else []
  }

  /** Open, and not about to close. */
  predicate InService(s: State) {
    !s.closed && !s.mode.Closing?
  }

  lemma DialogHears(c: Config, s: State, data: bytes, l: Launch, o: Posts)
    requires s.mode.Parsing? && !Dialog(c, s, data, l, o).closed
    ensures Dialog(c, s, data, l, o).received == s.received + data && Dialog(c, s, data, l, o).fromDest == s.fromDest
  {
    hide Dialog, Feed, Said, BeginClientRead, DoLaunch, RequestFlush, PumpClient, FailAndClose;
    DialogSplit(c, s, data, l, o);
    var u := Answered(c, s, data);
    PumpCore(u, o.clientSend);
    var v := PumpClient(u, o.clientSend);
    PumpCore(v, o.clientRead);
    LaunchKeeps(c, v, l, o);
    FailKeeps(c, v, o);
  }

  lemma FailKeeps(c: Config, s: State, o: Posts)
    ensures forall code :: Hears(s, FailAndClose(c, s, code, o.clientSend))
  {
    hide SendReply, RequestFlush, ReplyMessage;
    forall code ensures Hears(s, FailAndClose(c, s, code, o.clientSend)) {
      var t, m := s.(mode := Closing), ReplyMessage(code, V4([]), 0);
      ReplyKeeps(c, t, m, o.clientSend);
      PumpCore(SendReply(c, t, m, o.clientSend), true);
    }
  }

  /** Nothing more was heard. */
  predicate Hears(s: State, t: State) {
    t.received == s.received && t.fromDest == s.fromDest
  }

  lemma ReplyKeeps(c: Config, s: State, m: bytes, ok: bool)
    ensures Hears(s, SendReply(c, s, m, ok))
  {
    hide PrintFrame, QueueRaw;
    ReplyCore(c, s, m, ok);
  }

  lemma LaunchKeeps(c: Config, s: State, l: Launch, o: Posts)
    ensures DoLaunch(c, s, l, o).received == s.received && DoLaunch(c, s, l, o).fromDest == s.fromDest
  {
    hide SendReply, FailAndClose, RequestFlush, BeginClientRead, ReplyMessage;
    FailKeeps(c, s, o);
    match l
    case UdpStarted(a, port) =>
      var m := ReplyMessage(SUCCEEDED, a, port);
      ReplyKeeps(c, s, m, o.clientSend);
      PumpCore(SendReply(c, s, m, o.clientSend).(mode := Udp), o.clientRead);
    case LaunchFailed(code) => PumpCore(FailAndClose(c, s, code, o.clientSend), true);
    case _ =>
  }

  lemma RelayHears(c: Config, s: State, data: bytes, o: Posts)
    requires !RelayFromClient(c, s, data, o).closed
    ensures RelayFromClient(c, s, data, o).received == s.received + data && RelayFromClient(c, s, data, o).fromDest == s.fromDest
  {
    hide ForwardInput, TryReadClient;
    var t := s.(received := s.received + data, parser := Plus(s.parser, data));
    ForwardKeeps(c, t, o);
    ReadCore(ForwardInput(c, t, o), o.clientRead);
  }

  lemma ForwardKeeps(c: Config, s: State, o: Posts)
    ensures ForwardInput(c, s, o).received == s.received && ForwardInput(c, s, o).fromDest == s.fromDest
  {
    hide RelayInput;
  }

  lemma DestHears(c: Config, s: State, data: bytes, o: Posts)
    ensures RelayFromDest(c, s, data, o).fromDest == s.fromDest + data && RelayFromDest(c, s, data, o).received == s.received
  {
    hide QueueRaw, TryReadDest, Parts, WrapFrames, Wraps, GoodParts;
    var s2, s3 := s.(fromDest := s.fromDest + data, relayed := s.relayed + [data]), s.(fromDest := s.fromDest + data);
    QueueCore(s2, [data], o.clientSend);
    ReadCore(QueueRaw(s2, [data], o.clientSend), o.destRead);
    var frames := WrapFrames(c.gss, GoodParts(c.gss, Parts(data)));
    QueueCore(s3, frames, o.clientSend);
    ReadCore(QueueRaw(s3, frames, o.clientSend), o.destRead);
  }

  lemma StartKeeps(c: Config, s: State, m: bytes, o: Posts)
    ensures StartRelay(c, SendReply(c, s, m, o.clientSend), o).received == s.received
    ensures StartRelay(c, SendReply(c, s, m, o.clientSend), o).fromDest == s.fromDest
  {
    hide SendReply, ForwardInput, BeginClientRead;
    ReplyKeeps(c, s, m, o.clientSend);
    var t := SendReply(c, s, m, o.clientSend).(mode := Relaying);
    ForwardKeeps(c, t, o);
    PumpCore(ForwardInput(c, t, o), o.clientRead);
  }

  lemma RecvHears(c: Config, s: State, data: bytes, l: Launch, o: Posts)
    requires Inv(c, s) && s.client.reading && InService(OnClientRecv(c, s, data, l, o))
    ensures var t := OnClientRecv(c, s, data, l, o); t.received == s.received + data && t.fromDest == s.fromDest
  {
    assert s.closed || Waits(s);
    hide Inv, Dialog, RelayFromClient, BeginClientRead;
    var u := s.(client := s.client.(reading := false));
    if !s.closed && data != [] {
      match s.mode
      case Parsing => DialogHears(c, u, data, l, o);
      case Relaying => RelayHears(c, u, data, o);
      case Udp => PumpCore(u.(received := s.received + data), o.clientRead);
      case _ =>
    }
  }

  lemma StepHears(c: Config, s: State, e: Event)
    requires Inv(c, s) && Enabled(s, e) && InService(Step(c, s, e))
    ensures InService(s)
    ensures Step(c, s, e).received == s.received + (if e.ClientRecv? then e.data else [])
    ensures Step(c, s, e).fromDest == s.fromDest + (if e.DestRecv? then e.data else [])
  {
    StayInService(c, s, e);
    hide Inv, OnClientRecv, OnClientSend, OnDestSend, OnDestRecv, OnDnsResolved, OnDestConnect, FailAndClose;
    match e
    case ClientRecv(data, l, o) => RecvHears(c, s, data, l, o);
    case ClientSent(n, failed, o) => ClientSendCore(s, n, failed, o);
    case DestSent(n, failed, o) => DestSendCore(s, n, failed, o);
    case DestRecv(data, o) => DestRecvHears(c, s, data, o);
    case Connected(error, bound, port, o) => ConnectKeeps(c, s, error, bound, port, o);
    case Resolved(l, o) => FlushKeeps(c, s, l, o);
    case ConnectTimeout(o) => FailKeeps(c, s, o);
    case _ =>
  }

  lemma DestRecvHears(c: Config, s: State, data: bytes, o: Posts)
    requires !s.closed
    ensures OnDestRecv(c, s, data, o).fromDest == s.fromDest + data && OnDestRecv(c, s, data, o).received == s.received
  {
    hide RelayFromDest;
    DestHears(c, s.(dest := s.dest.(reading := false)), data, o);
  }

  lemma StayInService(c: Config, s: State, e: Event)
    requires Enabled(s, e) && InService(Step(c, s, e))
    ensures InService(s)
  {
    if s.closed {
      ClosedStays(c, s, e);
    } else {
      StepModes(c, s, e);
    }
    hide Step, Enabled;
  }

  lemma FlushKeeps(c: Config, s: State, l: Launch, o: Posts)
    ensures Hears(s, OnDnsResolved(c, s, l, o))
  {
    hide FailAndClose, RequestFlush;
    FailKeeps(c, s, o);
    if l.LaunchFailed? {
      PumpCore(FailAndClose(c, s, l.code, o.clientSend), true);
    }
  }

  lemma ConnectKeeps(c: Config, s: State, error: Option<byte>, bound: Address, port: u16, o: Posts)
    ensures Hears(s, OnDestConnect(c, s, error, bound, port, o))
  {
    hide FailAndClose, SendReply, StartRelay, ReplyMessage;
    FailKeeps(c, s, o);
    StartKeeps(c, s, ReplyMessage(SUCCEEDED, bound, port), o);
  }

  /** In every run, a session in service has heard every octet that arrived, in order. */
  lemma {:induction false} EverythingHeard(c: Config, run: seq<State>, es: seq<Event>, n: nat)
    requires IsRun(c, run, es) && n < |run| && InService(run[n])
    ensures run[n].received == FromClient(es, n) && run[n].fromDest == FromDest(es, n)
    decreases n
  {
    hide Inv, Step, Enabled, InService;
    if n > 0 {
      EveryRun(c, run, es, n - 1);
      StepHears(c, run[n - 1], es[n - 1]);
      EverythingHeard(c, run, es, n - 1);
    }
  }

  /**
   And owes nothing else: what was sent to the destination and what is queued for it are together the
   whole payload; likewise for the client its answers, the reply, and all that came from the destination.
   */
  lemma NothingIsLost(c: Config, s: State)
    requires Inv(c, s) && s.mode.Relaying? && !s.parser.protect
    ensures s.dest.wire + Pending(s.dest) == Feed(c, START, s.received).ingest
    ensures s.reply.Some? && s.client.wire + Pending(s.client) == Concat(s.parser.out) + s.reply.value + s.fromDest
  {
    hide Feed, Authentic, Flows, Bounded, Reads, Unbroken, Pending, PlainTalk, Concat;
    assert s.after == [s.reply.value] + s.relayed;
    ConcatAppend(s.parser.out, s.after);
    ConcatAppend([s.reply.value], s.relayed);
    ConcatOne(s.reply.value);
    Regroup(Concat(s.parser.out), s.reply.value, s.fromDest);
  }

  lemma ConcatOne(x: bytes)
    ensures Concat([x]) == x
  {
    assert Concat([x]) == x + Concat([]);
  }

  lemma Regroup(a: bytes, b: bytes, c: bytes)
    ensures a + (b + c) == a + b + c
  {
  }

  // ----- Runs

  /** These events can happen one after the other, from s to t. */
  ghost predicate Leads(c: Config, s: State, es: seq<Event>, t: State)
    decreases |es|
  {
    if es == [] then s == t else Enabled(s, es[0]) && Leads(c, Step(c, s, es[0]), es[1..], t)
  }

  lemma {:induction false} LeadsOn(c: Config, s: State, es: seq<Event>, t: State, fs: seq<Event>, u: State)
    requires Leads(c, s, es, t) && Leads(c, t, fs, u)
    ensures Leads(c, s, es + fs, u)
    decreases |es|
  {
    hide Step, Enabled;
    if es == [] {
      assert es + fs == fs;
    } else {
      LeadsOn(c, Step(c, s, es[0]), es[1..], t, fs, u);
      assert (es + fs)[0] == es[0] && (es + fs)[1..] == es[1..] + fs;
    }
  }

  lemma OneLeads(c: Config, s: State, e: Event)
    requires Enabled(s, e)
    ensures Leads(c, s, [e], Step(c, s, e))
  {
    hide Step, Enabled;
    assert [e][1..] == [];
  }

  lemma {:induction false} LeadsReach(c: Config, s: State, es: seq<Event>, t: State)
    requires Reachable(c, s) && Leads(c, s, es, t)
    ensures Reachable(c, t)
    decreases |es|
  {
    hide Step, Enabled;
    if es != [] {
      var run: seq<State>, fs: seq<Event> :| IsRun(c, run, fs) && s == run[|run| - 1];
      var v := Step(c, s, es[0]);
      var more, gs := run + [v], fs + [es[0]];
      forall i | 0 <= i < |gs| ensures Enabled(more[i], gs[i]) && more[i + 1] == Step(c, more[i], gs[i]) {
        if i < |fs| {
          assert Enabled(run[i], fs[i]) && run[i + 1] == Step(c, run[i], fs[i]);
        }
      }
      assert IsRun(c, more, gs) && v == more[|more| - 1];
      LeadsReach(c, v, es[1..], t);
    }
  }

  // ----- All that is queued can be sent

  /** The same session but for how much was sent and which reads are posted or paused. */
  ghost predicate Onwards(s: State, t: State) {
    CoreOf(t) == CoreOf(s) && !t.closed && t.mode.Relaying?
  }

  lemma ChunkPops(x: Stream)
    requires Faithful(x) && x.queue != []
    ensures var y := SendDone(x, Asked(x)); y == x.(sending := false, queue := x.queue[1..], offset := 0, wire := y.wire)
  {
    OffsetInside(x);
    hide Faithful;
  }

  lemma OpenRelay(c: Config, s: State)
    requires Inv(c, s) && !s.closed && s.mode.Relaying?
    ensures !s.closeAfterFlush && Faithful(s.client) && Faithful(s.dest)
    ensures (s.client.queue != [] ==> s.client.sending) && (s.dest.queue != [] ==> s.dest.sending)
  {
    hide Story, Unbroken, Bounded, Reads, Faithful, Alive;
  }

  lemma ChunkToClient(c: Config, s: State)
    requires Inv(c, s) && !s.closed && s.mode.Relaying? && s.client.queue != []
    ensures var e := ClientSent(Asked(s.client), false, GOOD);
            && Enabled(s, e)
            && var t := Step(c, s, e); Onwards(s, t) && |t.client.queue| == |s.client.queue| - 1 && t.dest.queue == s.dest.queue
  {
    hide Inv, Faithful, SendDone;
    OpenRelay(c, s);
    ClientSendCore(s, Asked(s.client), false, GOOD);
    ChunkPops(s.client);
    hide Asked, CoreOf;
  }

  lemma ChunkToDest(c: Config, s: State)
    requires Inv(c, s) && !s.closed && s.mode.Relaying? && s.dest.queue != []
    ensures var e := DestSent(Asked(s.dest), false, GOOD);
            && Enabled(s, e)
            && var t := Step(c, s, e); Onwards(s, t) && |t.dest.queue| == |s.dest.queue| - 1 && t.client.queue == s.client.queue
  {
    hide Inv, Faithful, SendDone;
    OpenRelay(c, s);
    DestSendCore(s, Asked(s.dest), false, GOOD);
    ChunkPops(s.dest);
    hide Asked, CoreOf;
  }

  lemma {:induction false} Drains(c: Config, s: State) returns (es: seq<Event>, t: State)
    requires Inv(c, s) && !s.closed && s.mode.Relaying?
    ensures Leads(c, s, es, t) && Inv(c, t) && Onwards(s, t) && t.client.queue == [] && t.dest.queue == []
    decreases |s.client.queue| + |s.dest.queue|
  {
    hide Inv, Step, Enabled, Asked;
    if s.client.queue == [] && s.dest.queue == [] {
      es, t := [], s;
    } else {
      var e := if s.client.queue != [] then ClientSent(Asked(s.client), false, GOOD) else DestSent(Asked(s.dest), false, GOOD);
      if s.client.queue != [] {
        ChunkToClient(c, s);
      } else {
        ChunkToDest(c, s);
      }
      StepInv(c, s, e);
      var v := Step(c, s, e);
      var fs: seq<Event>;
      fs, t := Drains(c, v);
      OneLeads(c, s, e);
      LeadsOn(c, s, [e], v, fs, t);
      es := [e] + fs;
    }
  }

  lemma AllSent(x: Stream)
    requires Faithful(x) && x.queue == []
    ensures x.wire == Concat(x.log)
  {
    assert x.wire + [] == x.wire;
    hide Concat;
  }

  /**
   From every reachable open relay the rest can be delivered: there are events after which the
   destination was sent all of the payload, or of its cleartext, and the client all that is meant for it.
   */
  lemma RelayDelivers(c: Config, s: State) returns (es: seq<Event>, t: State)
    requires Reachable(c, s) && !s.closed && s.mode.Relaying?
    ensures Leads(c, s, es, t) && Reachable(c, t) && CoreOf(t) == CoreOf(s) && !t.closed
    ensures t.dest.wire == Concat(s.dest.log) && t.client.wire == Concat(s.client.log)
    ensures !s.parser.protect ==>
              && t.dest.wire == Feed(c, START, s.received).ingest
              && s.reply.Some? && t.client.wire == Concat(s.parser.out) + s.reply.value + s.fromDest
    ensures s.parser.protect ==> t.dest.wire == Concat(RelayInput(c.gss, Feed(c, START, s.received).ingest).chunks)
  {
    hide Reachable, Inv, Faithful, Feed, Concat, RelayInput;
    ReachableInv(c, s);
    es, t := Drains(c, s);
    LeadsReach(c, s, es, t);
    OpenRelay(c, t);
    AllSent(t.dest);
    AllSent(t.client);
    if s.parser.protect {
      ProtectedLog(c, s);
    } else {
      NothingIsLost(c, t);
      NothingPending(t);
    }
  }

  lemma NothingPending(s: State)
    requires s.client.queue == [] && s.dest.queue == []
    ensures s.client.wire + Pending(s.client) == s.client.wire && s.dest.wire + Pending(s.dest) == s.dest.wire
  {
  }

  lemma ProtectedLog(c: Config, s: State)
    requires Inv(c, s) && s.mode.Relaying? && s.parser.protect
    ensures s.dest.log == RelayInput(c.gss, Feed(c, START, s.received).ingest).chunks
  {
    hide Streams, Unbroken, Flows, Bounded, Reads, Logged, Authentic, Feed, RelayInput;
  }

  // ----- A whole relay

  /** An answer of the destination is queued for the client, and the destination is read on or paused. */
  lemma AnswerQueued(c: Config, s: State, answer: bytes)
    requires !s.closed && s.mode.Relaying? && !s.parser.protect && s.dest.reading && answer != []
    ensures var t := Step(c, s, DestRecv(answer, GOOD));
            && t.mode.Relaying? && !t.closed && t.parser == s.parser && t.received == s.received && t.reply == s.reply
            && t.fromDest == s.fromDest + answer && t.client.log == s.client.log + [answer] && t.client.sending
  {
  }

  lemma DialogueLaunches(c: Config, stream: bytes, methods: short, a: Address, port: u16, payload: bytes, l: Launch)
    requires Dialogue(c, stream, methods, CONNECT, a, port, payload) && |stream| <= MAX_BUFFERED && (l.Started? || l.Lookup?)
    ensures var s := Step(c, FIRST, ClientRecv(stream, l, GOOD));
            && (if l.Started? then s.mode.Connecting? else s.mode.Resolving?) && !s.closed && s.received == stream
            && s.parser == Parser(Accepted(CONNECT, a, port), payload, false, false, [], Answers(c))
  {
    assert stream != [] by { hide Credentialed; }
    hide Inv, Step, Feed, Dialogue;
    FirstInv(c);
    DialogueComplete(c, stream, methods, CONNECT, a, port, payload);
    ArrivalLeads(c, FIRST, stream, l);
    assert [] + stream == stream;
  }

  /**
   For every dialogue that asks for a connect, with or without a lookup, there is a run in which the
   connect succeeds, all of the payload behind the dialogue is sent to the destination, and the client is
   sent its answers, the "succeeded" reply with the bound address, and what the destination answered.
   */
  lemma RelayHappens(c: Config, stream: bytes, methods: short, a: Address, port: u16, payload: bytes, lookup: bool,
                     bound: Address, bport: u16, answer: bytes) returns (run: seq<State>, es: seq<Event>)
    requires Dialogue(c, stream, methods, CONNECT, a, port, payload) && |stream| <= MAX_BUFFERED
    requires ValidAddress(bound) && !bound.Name? && answer != []
    ensures IsRun(c, run, es) && (lookup ==> exists i :: 0 <= i < |es| && run[i].mode.Resolving? && es[i].Resolved?)
    ensures
      var t := run[|es|];
      && t.mode.Relaying? && !t.closed && t.received == stream && t.dest.wire == payload
      && t.client.wire == Concat(Answers(c)) + Named(0, bound, bport) + answer
  {
    hide Inv, Step, Enabled, Feed, Dialogue, Named, Concat, Answers;
    DialogueComplete(c, stream, methods, CONNECT, a, port, payload);
    var run2, es2 := Established(c, stream, methods, a, port, payload, lookup, bound, bport);
    var s2 := run2[|es2|];
    var e := DestRecv(answer, GOOD);
    CanRead(s2, answer);
    AnswerQueued(c, s2, answer);
    var run3, es3 := Extended(c, run2, es2, e);
    var s3 := run3[|es3|];
    assert Reachable(c, s3);
    hide Reachable;
    var more, t := RelayDelivers(c, s3);
    run, es := ExtendedAll(c, run3, es3, more, t);
    assert [] + answer == answer;
    if lookup {
      assert run[1] == run2[1] && es[1] == es2[1] && run[1].mode.Resolving? && es[1].Resolved?;
    }
  }

  /** The relay has started. */
  lemma Established(c: Config, stream: bytes, methods: short, a: Address, port: u16, payload: bytes, lookup: bool, bound: Address, bport: u16)
      returns (run: seq<State>, es: seq<Event>)
    requires Dialogue(c, stream, methods, CONNECT, a, port, payload) && |stream| <= MAX_BUFFERED
    requires ValidAddress(bound) && !bound.Name?
    ensures IsRun(c, run, es) && (lookup ==> |es| == 3 && run[1].mode.Resolving? && es[1].Resolved?)
    ensures var t := run[|es|];
            && t.mode.Relaying? && !t.closed && t.dest.reading && t.received == stream && t.fromDest == []
            && t.reply == Some(Named(0, bound, bport)) && !t.parser.protect && t.parser.out == Answers(c)
  {
    hide Inv, Step, Enabled, Feed, Dialogue, Named, Answers;
    var l := if lookup then Lookup else Started;
    DialogueLaunches(c, stream, methods, a, port, payload, l);
    NoSteps(c);
    CanStart(stream, l);
    run, es := Extended(c, [FIRST], [], ClientRecv(stream, l, GOOD));
    if lookup {
      var s1 := run[|es|];
      CanConnect(s1, bound, bport);
      LookupConnects(c, s1);
      run, es := Extended(c, run, es, Resolved(Started, GOOD));
    }
    var s := run[|es|];
    CanConnect(s, bound, bport);
    EveryRun(c, run, es, |es|);
    ConnectStarts(c, s, bound, bport);
    NothingHeard(c, s);
    run, es := Extended(c, run, es, Connected(None, bound, bport, GOOD));
  }

  lemma NoSteps(c: Config)
    ensures IsRun(c, [FIRST], [])
  {
    hide Step, Enabled;
  }

  lemma Extended(c: Config, run: seq<State>, es: seq<Event>, e: Event) returns (more: seq<State>, fs: seq<Event>)
    requires IsRun(c, run, es) && Enabled(run[|es|], e)
    ensures IsRun(c, more, fs) && fs == es + [e] && more == run + [Step(c, run[|es|], e)]
  {
    hide Step, Enabled;
    more, fs := run + [Step(c, run[|es|], e)], es + [e];
    forall i | 0 <= i < |fs| ensures Enabled(more[i], fs[i]) && more[i + 1] == Step(c, more[i], fs[i]) {
      if i < |es| {
        assert Enabled(run[i], es[i]) && run[i + 1] == Step(c, run[i], es[i]);
      }
    }
  }

  lemma {:induction false} ExtendedAll(c: Config, run: seq<State>, es: seq<Event>, fs: seq<Event>, t: State)
      returns (more: seq<State>, gs: seq<Event>)
    requires IsRun(c, run, es) && Leads(c, run[|es|], fs, t)
    ensures IsRun(c, more, gs) && more[|gs|] == t && run <= more && es <= gs
    decreases |fs|
  {
    hide Step, Enabled;
    if fs == [] {
      more, gs := run, es;
    } else {
      more, gs := Extended(c, run, es, fs[0]);
      more, gs := ExtendedAll(c, more, gs, fs[1..], t);
    }
  }

  lemma CanConnect(s: State, bound: Address, port: u16)
    ensures Enabled(s, Resolved(Started, GOOD)) && Enabled(s, Connected(None, bound, port, GOOD))
  {
  }

  lemma CanStart(stream: bytes, l: Launch)
    ensures Enabled(FIRST, ClientRecv(stream, l, GOOD))
  {
  }

  lemma CanRead(s: State, answer: bytes)
    requires s.dest.reading
    ensures Enabled(s, DestRecv(answer, GOOD))
  {
  }

  lemma NothingHeard(c: Config, s: State)
    requires Inv(c, s) && Before(s.mode)
    ensures s.fromDest == []
  {
    hide Streams, Unbroken, Flows, Bounded, Reads, Authentic, PlainTalk, Feed, Linked;
  }

  // ----- A session that closes after its last words

  lemma LastWords(c: Config, s: State)
    requires Inv(c, s) && !s.closed && s.closeAfterFlush
    ensures s.client.sending && s.client.queue != [] && Faithful(s.client) && !s.mode.Relaying?
  {
    hide Story, Unbroken, Bounded, Reads, Faithful, Alive;
  }

  lemma FlushStep(c: Config, s: State)
    requires Inv(c, s) && !s.closed && s.closeAfterFlush
    ensures var e := ClientSent(Asked(s.client), false, GOOD);
            && Enabled(s, e)
            && var t := Step(c, s, e);
               && t.client.log == s.client.log && |t.client.queue| == |s.client.queue| - 1
               && (t.closed <==> t.client.queue == []) && (!t.closed ==> t.closeAfterFlush)
  {
    hide Inv, Faithful, SendDone;
    LastWords(c, s);
    ChunkPops(s.client);
    hide Asked;
  }

  /** A session that is to close after a flush can be flushed, and then it has sent all it had to say, and is closed. */
  lemma {:induction false} FlushEnds(c: Config, s: State) returns (es: seq<Event>, t: State)
    requires Inv(c, s) && !s.closed && s.closeAfterFlush
    ensures Leads(c, s, es, t) && t.closed && t.client.wire == Concat(s.client.log)
    decreases |s.client.queue|
  {
    hide Inv, Step, Enabled, Asked;
    FlushStep(c, s);
    LastWords(c, s);
    var e := ClientSent(Asked(s.client), false, GOOD);
    StepInv(c, s, e);
    var v := Step(c, s, e);
    OneLeads(c, s, e);
    if v.closed {
      es, t := [e], v;
      StreamsHold(c, v);
      AllSent(v.client);
    } else {
      var fs: seq<Event>;
      fs, t := FlushEnds(c, v);
      LeadsOn(c, s, [e], v, fs, t);
      es := [e] + fs;
    }
  }

  lemma StreamsHold(c: Config, s: State)
    requires Inv(c, s)
    ensures Faithful(s.client)
  {
    hide Story, Unbroken, Bounded, Reads, Faithful, Flows;
  }

  /** What ends a session at once: a failed send, the end of a dialogue's stream, and the second end of a relay. */
  lemma EndsClose(c: Config, s: State, n: nat, l: Launch, o: Posts)
    requires !s.closed
    ensures Step(c, s, ClientSent(n, true, o)).closed && Step(c, s, DestSent(n, true, o)).closed && Step(c, s, Shut).closed
    ensures !s.mode.Relaying? ==> Step(c, s, ClientRecv([], l, o)).closed
    ensures s.mode.Relaying? ==>
              && (Step(c, s, ClientRecv([], l, o)).closed <==> s.dest.peerClosed)
              && (Step(c, s, DestRecv([], o)).closed <==> s.client.peerClosed)
    ensures s.mode.Parsing? ==> Step(c, s, IdleTimeout).closed
  {
    hide SendDone;
  }
}
