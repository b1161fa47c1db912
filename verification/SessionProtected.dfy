/** What a protected client is sent: frames whose cleartext is the reply and all that the destination sent. */
module SessionProtected {
  import opened Bytes
  import opened GssFrames
  import opened SocksParser
  import opened Session
  import opened SessionProofs
  import opened SessionStory
  import opened SessionFlow
  import opened SessionTheorems
  import opened SessionWaits

  /** These frames carry these pieces of cleartext, wrapped. */
  ghost predicate Carry(g: Package, frames: seq<bytes>, clear: seq<bytes>) {
    && |frames| == |clear|
    && forall i :: 0 <= i < |clear| ==> Wraps(g, clear[i]) && frames[i] == PrintFrame(MSG_ENCAPSULATED, g.wrap(clear[i]).value)
  }

  ghost function Spoken(k: Core): bytes {
    (if k.reply.Some? then k.reply.value else []) + k.fromDest
  }

  /** Under protection, all that was queued since the dialogue is the reply and the destination's octets, wrapped. */
  ghost predicate Covered(g: Package, k: Core) {
    k.parser.protect ==> exists clear: seq<bytes> :: Carry(g, k.after, clear) && Concat(clear) == Spoken(k)
  }

  /** The part of the core that this depends on. */
  ghost predicate SameTalk(k: Core, j: Core) {
    j.parser.protect == k.parser.protect && j.after == k.after && j.reply == k.reply && j.fromDest == k.fromDest
  }

  lemma TalkCovered(g: Package, k: Core, j: Core)
    requires Covered(g, k) && SameTalk(k, j)
    ensures Covered(g, j)
  {
    hide Carry, Concat;
  }

  ghost predicate Silent(k: Core) {
    k.after == [] && k.reply.None? && k.fromDest == []
  }

  lemma SilentCovered(g: Package, k: Core)
    requires Silent(k)
    ensures Covered(g, k)
  {
    assert Carry(g, k.after, []) && Concat([]) == Spoken(k);
  }

  lemma BeforeSilent(c: Config, s: State)
    requires Inv(c, s) && Before(s.mode)
    ensures Silent(CoreOf(s))
  {
    hide Streams, Unbroken, Flows, Bounded, Reads, Authentic, PlainTalk, Feed, Linked;
  }

  lemma ReplyCovered(c: Config, s: State, m: bytes, ok: bool)
    requires Silent(CoreOf(s)) && !SendReply(c, s, m, ok).closed
    ensures Covered(c.gss, CoreOf(SendReply(c, s, m, ok)))
  {
    var t := SendReply(c, s, m, ok);
    if s.parser.protect {
      assert Carry(c.gss, t.after, [m]) by { hide PrintFrame; }
      assert Concat([m]) == m + Concat([]) == m;
      assert m + [] == m;
    }
    hide PrintFrame, Carry;
  }

  lemma FailCovered(c: Config, s: State, code: byte, ok: bool)
    requires Silent(CoreOf(s)) && !s.mode.Closing? && !FailAndClose(c, s, code, ok).closed
    ensures Covered(c.gss, CoreOf(FailAndClose(c, s, code, ok)))
  {
    hide SendReply, ReplyMessage, Covered;
    var u, m := s.(mode := Closing), ReplyMessage(code, V4([]), 0);
    assert Silent(CoreOf(u));
    var t := SendReply(c, u, m, ok);
    assert !s.closed ==> !t.closed;
    if !s.closed {
      ReplyCovered(c, u, m, ok);
      PumpCore(t, ok);
    }
  }

  lemma LaunchCovered(c: Config, s: State, l: Launch, o: Posts)
    requires Silent(CoreOf(s)) && s.mode.Parsing? && !DoLaunch(c, s, l, o).closed
    ensures Covered(c.gss, CoreOf(DoLaunch(c, s, l, o)))
  {
    hide SendReply, FailAndClose, RequestFlush, ReplyMessage, BeginClientRead, Covered;
    match l
    case Started => SilentCovered(c.gss, CoreOf(s.(mode := Connecting)));
    case Lookup => SilentCovered(c.gss, CoreOf(s.(mode := Resolving)));
    case UdpStarted(a, port) =>
      var m := ReplyMessage(SUCCEEDED, a, port);
      var t := SendReply(c, s, m, o.clientSend);
      PumpCore(t.(mode := Udp), o.clientRead);
      ReadCloses(t.(mode := Udp), o.clientRead);
      ReplyCovered(c, s, m, o.clientSend);
      TalkCovered(c.gss, CoreOf(t), CoreOf(t.(mode := Udp)));
    case LaunchFailed(code) =>
      var t := FailAndClose(c, s, code, o.clientSend);
      PumpCore(t, true);
      FlushCloses(t);
      FailCovered(c, s, code, o.clientSend);
  }

  lemma FlushCloses(s: State)
    ensures s.closed ==> RequestFlush(s).closed
  {
  }

  lemma DialogCovered(c: Config, s: State, data: bytes, l: Launch, o: Posts)
    requires s.mode.Parsing? && Silent(CoreOf(s)) && !Dialog(c, s, data, l, o).closed
    ensures Covered(c.gss, CoreOf(Dialog(c, s, data, l, o)))
  {
    hide Dialog, Feed, Said, BeginClientRead, DoLaunch, RequestFlush, PumpClient, FailAndClose, Covered;
    DialogSplit(c, s, data, l, o);
    var u := Answered(c, s, data);
    PumpCore(u, o.clientSend);
    var v := PumpClient(u, o.clientSend);
    assert Silent(CoreOf(v)) && v.mode.Parsing?;
    PumpCore(v, o.clientRead);
    SilentCovered(c.gss, CoreOf(v));
    if !v.closed && v.parser.phase.Accepted? {
      LaunchCovered(c, v, l, o);
    } else if !v.closed && v.parser.phase.Refused? {
      FailCovered(c, v, v.parser.phase.code, o.clientSend);
    }
  }

  lemma {:induction false} FramesCarry(g: Package, parts: seq<bytes>)
    requires forall i :: 0 <= i < |parts| ==> Wraps(g, parts[i])
    ensures Carry(g, WrapFrames(g, parts), parts)
    decreases |parts|
  {
    hide PrintFrame, Wraps;
    if parts != [] {
      FramesCarry(g, parts[1..]);
      var f := WrapFrames(g, parts);
      assert Wraps(g, parts[0]);
      forall i | 0 <= i < |parts| ensures Wraps(g, parts[i]) && f[i] == PrintFrame(MSG_ENCAPSULATED, WrapOf(g, parts[i])) {
        assert i > 0 ==> parts[i] == parts[1..][i - 1] && f[i] == f[1..][i - 1];
      }
    }
  }

  ghost function WrapOf(g: Package, x: bytes): token
    requires Wraps(g, x)
  {
    g.wrap(x).value
  }

  lemma CarryAppend(g: Package, a: seq<bytes>, x: seq<bytes>, b: seq<bytes>, y: seq<bytes>)
    requires Carry(g, a, x) && Carry(g, b, y)
    ensures Carry(g, a + b, x + y)
  {
    hide PrintFrame, Wraps;
  }

  lemma DestCovered(c: Config, s: State, data: bytes, o: Posts)
    requires Covered(c.gss, CoreOf(s)) && !RelayFromDest(c, s, data, o).closed
    ensures Covered(c.gss, CoreOf(RelayFromDest(c, s, data, o)))
  {
    if s.parser.protect {
      var g, parts := c.gss, Parts(data);
      var good := GoodParts(g, parts);
      assert good == parts;
      var frames := WrapFrames(g, good);
      var s3 := s.(fromDest := s.fromDest + data);
      var clear: seq<bytes> :| Carry(g, s.after, clear) && Concat(clear) == Spoken(CoreOf(s));
      FramesCarry(g, good);
      CarryAppend(g, s.after, clear, frames, good);
      ConcatAppend(clear, parts);
      PartsConcat(data);
      hide Parts, GoodParts, WrapFrames, QueueRaw, TryReadDest, Carry, Concat, Wraps;
      QueueCore(s3, frames, o.clientSend);
      ReadCore(QueueRaw(s3, frames, o.clientSend), o.destRead);
      SpokenMore(CoreOf(s), data);
    } else {
      RelayDestKeeps(c, s, data, o);
      hide RelayFromDest;
    }
  }

  lemma SpokenMore(k: Core, data: bytes)
    ensures Spoken(k) + data == Spoken(k.(fromDest := k.fromDest + data))
  {
  }

  lemma RelayTalk(c: Config, s: State, data: bytes, o: Posts)
    ensures SameTalk(CoreOf(s), CoreOf(RelayFromClient(c, s, data, o)))
  {
    hide ForwardInput, TryReadClient;
    var t := s.(received := s.received + data, parser := Plus(s.parser, data));
    ForwardTalk(c, t, o);
    ReadCore(ForwardInput(c, t, o), o.clientRead);
  }

  lemma ForwardTalk(c: Config, s: State, o: Posts)
    ensures SameTalk(CoreOf(s), CoreOf(ForwardInput(c, s, o))) && (s.closed ==> ForwardInput(c, s, o).closed)
  {
    hide RelayInput;
  }

  lemma StartTalk(c: Config, s: State, o: Posts)
    ensures SameTalk(CoreOf(s), CoreOf(StartRelay(c, s, o))) && (s.closed ==> StartRelay(c, s, o).closed)
  {
    hide ForwardInput, BeginClientRead;
    var t := s.(mode := Relaying);
    ForwardTalk(c, t, o);
    PumpCore(ForwardInput(c, t, o), o.clientRead);
    ReadCloses(ForwardInput(c, t, o), o.clientRead);
  }

  lemma RecvCovered(c: Config, s: State, data: bytes, l: Launch, o: Posts)
    requires Inv(c, s) && !s.closed && Covered(c.gss, CoreOf(s)) && !OnClientRecv(c, s, data, l, o).closed
    ensures Covered(c.gss, CoreOf(OnClientRecv(c, s, data, l, o)))
  {
    hide Inv, Dialog, RelayFromClient, BeginClientRead, Covered;
    var u := s.(client := s.client.(reading := false));
    TalkCovered(c.gss, CoreOf(s), CoreOf(u));
    if data != [] {
      match s.mode
      case Parsing =>
        BeforeSilent(c, s);
        DialogCovered(c, u, data, l, o);
      case Relaying =>
        RelayTalk(c, u, data, o);
        TalkCovered(c.gss, CoreOf(u), CoreOf(RelayFromClient(c, u, data, o)));
      case Udp =>
        var v := u.(received := s.received + data);
        PumpCore(v, o.clientRead);
        TalkCovered(c.gss, CoreOf(u), CoreOf(v));
      case _ =>
    } else {
      assert CoreOf(OnClientRecv(c, s, data, l, o)) == CoreOf(s);
    }
  }

  lemma ConnectCovered(c: Config, s: State, error: Option<byte>, bound: Address, port: u16, o: Posts)
    requires Inv(c, s) && !s.closed && s.mode.Connecting? && !OnDestConnect(c, s, error, bound, port, o).closed
    ensures Covered(c.gss, CoreOf(OnDestConnect(c, s, error, bound, port, o)))
  {
    hide Inv, SendReply, StartRelay, FailAndClose, ReplyMessage, Covered, SameTalk, Silent;
    BeforeSilent(c, s);
    if error.Some? {
      FailCovered(c, s, error.value, o.clientSend);
    } else {
      var m := ReplyMessage(SUCCEEDED, bound, port);
      var t := SendReply(c, s, m, o.clientSend);
      StartTalk(c, t, o);
      ReplyCovered(c, s, m, o.clientSend);
      TalkCovered(c.gss, CoreOf(t), CoreOf(StartRelay(c, t, o)));
    }
  }

  lemma ResolveCovered(c: Config, s: State, l: Launch, o: Posts)
    requires Inv(c, s) && !s.closed && s.mode.Resolving? && !OnDnsResolved(c, s, l, o).closed
    ensures Covered(c.gss, CoreOf(OnDnsResolved(c, s, l, o)))
  {
    hide Inv, FailAndClose, RequestFlush, Covered;
    BeforeSilent(c, s);
    SilentCovered(c.gss, CoreOf(s));
    SilentCovered(c.gss, CoreOf(s.(mode := Connecting)));
    if l.LaunchFailed? {
      var t := FailAndClose(c, s, l.code, o.clientSend);
      PumpCore(t, true);
      FlushCloses(t);
      FailCovered(c, s, l.code, o.clientSend);
    }
  }

  lemma DestRecvCovered(c: Config, s: State, data: bytes, o: Posts)
    requires !s.closed && Covered(c.gss, CoreOf(s)) && !OnDestRecv(c, s, data, o).closed
    ensures Covered(c.gss, CoreOf(OnDestRecv(c, s, data, o)))
  {
    hide RelayFromDest, Covered;
    var u := s.(dest := s.dest.(reading := false));
    assert CoreOf(u) == CoreOf(s);
    if data != [] {
      DestCovered(c, u, data, o);
    } else {
      assert CoreOf(OnDestRecv(c, s, data, o)) == CoreOf(s);
    }
  }

  lemma StepCovered(c: Config, s: State, e: Event)
    requires Inv(c, s) && Enabled(s, e) && !s.closed && Covered(c.gss, CoreOf(s)) && !Step(c, s, e).closed
    ensures Covered(c.gss, CoreOf(Step(c, s, e)))
  {
    hide Inv, Covered, OnClientRecv, OnClientSend, OnDestSend, OnDestRecv, OnDestConnect, OnDnsResolved, FailAndClose;
    match e
    case ClientRecv(data, l, o) => RecvCovered(c, s, data, l, o);
    case ClientSent(n, failed, o) => ClientSendCore(s, n, failed, o);
    case DestSent(n, failed, o) => DestSendCore(s, n, failed, o);
    case DestRecv(data, o) => DestRecvCovered(c, s, data, o);
    case Connected(error, bound, port, o) =>
      if s.mode.Connecting? {
        ConnectCovered(c, s, error, bound, port, o);
      } else {
        NotConnecting(c, s, error, bound, port, o);
      }
    case Resolved(l, o) =>
      if s.mode.Resolving? {
        ResolveCovered(c, s, l, o);
      } else {
        NotAsked(c, s, l, o);
      }
    case ConnectTimeout(o) =>
      if s.mode.Connecting? {
        BeforeSilent(c, s);
        FailCovered(c, s, TTL_EXPIRED, o.clientSend);
      }
    case _ =>
  }

  lemma {:induction false} RunCovered(c: Config, run: seq<State>, es: seq<Event>, n: nat)
    requires IsRun(c, run, es) && n < |run| && !run[n].closed
    ensures Covered(c.gss, CoreOf(run[n]))
    decreases n
  {
    hide Inv, Step, Enabled, Covered;
    if n == 0 {
      SilentCovered(c.gss, CoreOf(FIRST));
    } else {
      if run[n - 1].closed {
        ClosedStays(c, run[n - 1], es[n - 1]);
      } else {
        RunCovered(c, run, es, n - 1);
        EveryRun(c, run, es, n - 1);
        StepCovered(c, run[n - 1], es[n - 1]);
      }
    }
  }

  // ----- What the client reads

  lemma {:induction false} CarriedTokens(g: Package, frames: seq<bytes>, clear: seq<bytes>) returns (toks: seq<token>)
    requires Carry(g, frames, clear)
    ensures Wrapped(g, clear, toks) && Concat(frames) == PrintFrames(MSG_ENCAPSULATED, toks)
    decreases |clear|
  {
    hide PrintFrame;
    if clear == [] {
      toks := [];
    } else {
      var rest := CarriedTokens(g, frames[1..], clear[1..]);
      assert Wraps(g, clear[0]);
      var t: token := g.wrap(clear[0]).value;
      toks := [t] + rest;
      assert toks[1..] == rest;
    }
  }

  /**
   In every reachable protected session that is open: however the frames queued for the client are
   cut on the way, the client reads whole frames, and their cleartext is the reply followed by every
   octet that the destination sent, in order.
   */
  lemma ClientGetsCleartext(c: Config, s: State, cuts: seq<bytes>)
    requires Reachable(c, s) && !s.closed && s.parser.protect && Lawful(c.gss) && Concat(cuts) == Concat(s.after)
    ensures
      var d := DrainCuts([], cuts);
      && d.ok && d.rest == [] && UnwrapAll(c.gss, d.toks).Some?
      && Concat(UnwrapAll(c.gss, d.toks).value) == (if s.reply.Some? then s.reply.value else []) + s.fromDest
  {
    var run: seq<State>, es: seq<Event> :| IsRun(c, run, es) && s == run[|run| - 1];
    RunCovered(c, run, es, |run| - 1);
    hide IsRun, Carry, Concat, Lawful, DrainCuts, UnwrapAll;
    var clear: seq<bytes> :| Carry(c.gss, s.after, clear) && Concat(clear) == Spoken(CoreOf(s));
    var toks := CarriedTokens(c.gss, s.after, clear);
    FramesRoundTrip(toks, cuts);
    UnwrapWrapped(c.gss, clear, toks);
  }
}
