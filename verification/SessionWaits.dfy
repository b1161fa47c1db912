/** What a session that resolves or connects is waiting for: the lookup or the connect that it started. */
module SessionWaits {
  import opened Bytes
  import opened SocksParser
  import opened Session
  import opened SessionProofs
  import opened SessionStory
  import opened SessionFlow

  /** This step took the session into the mode: it launched a lookup, or a connect. */
  predicate StartsLookup(s: State, e: Event, t: State) {
    !s.mode.Resolving? && t.mode.Resolving? && e.ClientRecv? && e.launch.Lookup?
  }

  predicate StartsConnect(s: State, e: Event, t: State) {
    !s.mode.Connecting? && t.mode.Connecting? && (e.ClientRecv? || e.Resolved?) && e.launch.Started?
  }

  lemma DialogModes(c: Config, s: State, data: bytes, l: Launch, o: Posts)
    requires s.mode.Parsing?
    ensures var m := Dialog(c, s, data, l, o).mode; (m.Resolving? ==> l.Lookup?) && (m.Connecting? ==> l.Started?)
  {
    hide Dialog, Feed, Said, SendReply, RequestFlush;
    DialogSplit(c, s, data, l, o);
    forall u: State, m: bytes ensures SendReply(c, u, m, o.clientSend).mode == u.mode {
      ReplyFlags(c, u, m, o.clientSend);
    }
    forall u: State ensures RequestFlush(u).mode == u.mode {
      FlushMode(u);
    }
  }

  lemma FailModes(c: Config, s: State, code: byte, ok: bool)
    requires !s.closed
    ensures FailAndClose(c, s, code, ok).mode.Closing?
  {
    hide SendReply, RequestFlush;
    var t, m := s.(mode := Closing), ReplyMessage(code, V4([]), 0);
    ReplyFlags(c, t, m, ok);
    FlushMode(SendReply(c, t, m, ok));
  }

  lemma RecvModes(c: Config, s: State, data: bytes, l: Launch, o: Posts)
    requires !s.closed
    ensures var m := OnClientRecv(c, s, data, l, o).mode;
            if s.mode.Parsing? then (m.Resolving? ==> l.Lookup?) && (m.Connecting? ==> l.Started?) else m == s.mode
  {
    hide Dialog, RelayFromClient;
    var t := s.(client := s.client.(reading := false));
    if s.mode.Parsing? {
      DialogModes(c, t, data, l, o);
    } else if s.mode.Relaying? {
      RelayModes(c, t, data, o);
    }
  }

  lemma RelayModes(c: Config, s: State, data: bytes, o: Posts)
    ensures RelayFromClient(c, s, data, o).mode == s.mode
  {
    hide ForwardInput, TryReadClient;
    var t := s.(received := s.received + data, parser := Plus(s.parser, data));
    ForwardFlags(c, t, o);
    ReadCore(ForwardInput(c, t, o), o.clientRead);
  }

  lemma StartModes(c: Config, s: State, o: Posts)
    ensures StartRelay(c, s, o).mode.Relaying?
  {
    hide ForwardInput;
    ForwardFlags(c, s.(mode := Relaying), o);
  }

  lemma ConnectModes(c: Config, s: State, error: Option<byte>, bound: Address, port: u16, o: Posts)
    requires !s.closed && s.mode.Connecting?
    ensures var m := OnDestConnect(c, s, error, bound, port, o).mode; m.Relaying? || m.Closing?
  {
    hide SendReply, StartRelay, FailAndClose;
    if error.Some? {
      FailModes(c, s, error.value, o.clientSend);
    } else {
      StartModes(c, SendReply(c, s, ReplyMessage(SUCCEEDED, bound, port), o.clientSend), o);
    }
  }

  lemma ResolveModes(c: Config, s: State, l: Launch, o: Posts)
    requires !s.closed && s.mode.Resolving? && (l.Started? || l.LaunchFailed?)
    ensures var m := OnDnsResolved(c, s, l, o).mode; if l.Started? then m.Connecting? else m.Closing?
  {
    hide FailAndClose, RequestFlush;
    if l.LaunchFailed? {
      FailModes(c, s, l.code, o.clientSend);
      FlushMode(FailAndClose(c, s, l.code, o.clientSend));
    }
  }

  lemma SentModes(c: Config, s: State, n: nat, failed: bool, data: bytes, o: Posts)
    ensures OnClientSend(s, n, failed, o).mode == s.mode && OnDestSend(s, n, failed, o).mode == s.mode
    ensures OnDestRecv(c, s, data, o).mode == s.mode
  {
    hide RelayFromDest, OnClientSend, OnDestSend;
    ClientSendCore(s, n, failed, o);
    DestSendCore(s, n, failed, o);
    RelayDestKeeps(c, s.(dest := s.dest.(reading := false)), data, o);
  }

  /** Which way the modes go: out of the dialogue, through lookup and connect, to relaying or closing. */
  predicate Forward(m: Mode, n: Mode) {
    match m
    case Parsing => true
    case Resolving => n.Resolving? || n.Connecting? || n.Closing?
    case Connecting => n.Connecting? || n.Relaying? || n.Closing?
    case _ => n == m
  }

  /** A session resolves or connects because it started to, and until the result is handled. */
  lemma StepModes(c: Config, s: State, e: Event)
    requires Enabled(s, e) && !s.closed
    ensures var t := Step(c, s, e);
            && (t.mode.Resolving? ==> (s.mode.Resolving? && !e.Resolved?) || StartsLookup(s, e, t))
            && (t.mode.Connecting? ==> (s.mode.Connecting? && !e.Connected?) || StartsConnect(s, e, t))
            && Forward(s.mode, t.mode) && (s.mode.Connecting? && t.mode.Relaying? ==> e.Connected?)
  {
    hide OnClientRecv, OnDestRecv, OnClientSend, OnDestSend, OnDnsResolved, OnDestConnect, FailAndClose;
    match e
    case ClientRecv(data, l, o) => RecvModes(c, s, data, l, o);
    case ClientSent(n, failed, o) => SentModes(c, s, n, failed, [], o);
    case DestRecv(data, o) => SentModes(c, s, 0, false, data, o);
    case DestSent(n, failed, o) => SentModes(c, s, n, failed, [], o);
    case Resolved(l, o) =>
      if s.mode.Resolving? {
        ResolveModes(c, s, l, o);
      } else {
        NotAsked(c, s, l, o);
      }
    case Connected(error, bound, port, o) =>
      if s.mode.Connecting? {
        ConnectModes(c, s, error, bound, port, o);
      } else {
        NotConnecting(c, s, error, bound, port, o);
      }
    case ConnectTimeout(o) =>
      FailModes(c, s, TTL_EXPIRED, o.clientSend);
    case _ =>
  }

  lemma NotAsked(c: Config, s: State, l: Launch, o: Posts)
    requires !s.mode.Resolving?
    ensures OnDnsResolved(c, s, l, o) == s
  {
  }

  lemma NotConnecting(c: Config, s: State, error: Option<byte>, bound: Address, port: u16, o: Posts)
    requires !s.mode.Connecting?
    ensures OnDestConnect(c, s, error, bound, port, o) == s
  {
  }

  /** In the run, a lookup was started before step n and its result has not been handled since. */
  ghost predicate LookupToCome(run: seq<State>, es: seq<Event>, n: nat)
    requires n <= |es| < |run|
  {
    exists m: nat :: m < n && LookupSince(run, es, m, n)
  }

  ghost predicate LookupSince(run: seq<State>, es: seq<Event>, m: nat, n: nat)
    requires m < n <= |es| < |run|
  {
    StartsLookup(run[m], es[m], run[m + 1]) && forall j :: m < j < n ==> !es[j].Resolved?
  }

  ghost predicate ConnectToCome(run: seq<State>, es: seq<Event>, n: nat)
    requires n <= |es| < |run|
  {
    exists m: nat :: m < n && ConnectSince(run, es, m, n)
  }

  ghost predicate ConnectSince(run: seq<State>, es: seq<Event>, m: nat, n: nat)
    requires m < n <= |es| < |run|
  {
    StartsConnect(run[m], es[m], run[m + 1]) && forall j :: m < j < n ==> !es[j].Connected?
  }

  lemma {:induction false} AwaitsResult(c: Config, run: seq<State>, es: seq<Event>, n: nat)
    requires IsRun(c, run, es) && n < |run| && !run[n].closed
    ensures run[n].mode.Resolving? ==> LookupToCome(run, es, n)
    ensures run[n].mode.Connecting? ==> ConnectToCome(run, es, n)
    decreases n
  {
    hide Step, Enabled, StartsLookup, StartsConnect, Forward;
    if n > 0 {
      var s, e := run[n - 1], es[n - 1];
      if s.closed {
        ClosedStays(c, s, e);
      } else {
        AwaitsResult(c, run, es, n - 1);
        StepModes(c, s, e);
        if run[n].mode.Resolving? {
          var m: nat := if StartsLookup(s, e, run[n]) then n - 1 else var m: nat :| m < n - 1 && LookupSince(run, es, m, n - 1); m;
          assert LookupSince(run, es, m, n);
        }
        if run[n].mode.Connecting? {
          var m: nat := if StartsConnect(s, e, run[n]) then n - 1 else var m: nat :| m < n - 1 && ConnectSince(run, es, m, n - 1); m;
          assert ConnectSince(run, es, m, n);
        }
      }
    }
  }

  /**
   No open session is forgotten: a read or a send is posted, or a lookup or a connect was started
   whose result has not been handled.
   */
  lemma NeverForgotten(c: Config, run: seq<State>, es: seq<Event>, n: nat)
    requires IsRun(c, run, es) && n < |run| && !run[n].closed
    ensures var s := run[n];
            || s.client.reading || s.client.sending || s.dest.reading || s.dest.sending
            || LookupToCome(run, es, n) || ConnectToCome(run, es, n)
  {
    hide IsRun, LookupToCome, ConnectToCome, Inv;
    EveryRun(c, run, es, n);
    AwaitsResult(c, run, es, n);
    OpenWaits(c, run[n]);
  }

  lemma OpenWaits(c: Config, s: State)
    requires Inv(c, s) && !s.closed
    ensures s.client.reading || s.client.sending || s.dest.reading || s.dest.sending || s.mode.Resolving? || s.mode.Connecting?
  {
    hide Feed, Story, Reads, Unbroken, Backed;
  }
}
