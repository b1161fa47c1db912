/**
 What a session promises in every state of every run, whatever the segmentation of the input,
 the partial sends, the failures and the order of completions.
 */
module SessionTheorems {
  import opened Bytes
  import opened GssFrames
  import opened SocksParser
  import opened SocksDialogue
  import opened SendStream
  import opened Session
  import opened SessionProofs
  import opened SessionStory
  import opened SessionFlow

  /** Some state of some run. */
  ghost predicate Reachable(c: Config, s: State) {
    exists run: seq<State>, es: seq<Event> :: IsRun(c, run, es) && s == run[|run| - 1]
  }

  lemma ReachableInv(c: Config, s: State)
    requires Reachable(c, s)
    ensures Inv(c, s)
  {
    hide Inv;
    var run: seq<State>, es: seq<Event> :| IsRun(c, run, es) && s == run[|run| - 1];
    EveryRun(c, run, es, |run| - 1);
  }

  /**
   Without GSS-API: what the destination was sent is a prefix of what the parser leaves of the
   client's bytes, however these arrived and however the sends were split.
   */
  lemma DestinationGetsPrefix(c: Config, s: State)
    requires Reachable(c, s) && !s.parser.protect
    ensures s.dest.wire <= Feed(c, START, s.received).ingest
  {
    hide Feed, Authentic, Logged, Flows, Bounded, Reads;
    ReachableInv(c, s);
    SentIsPrefix(s.dest);
  }

  /** The same, told with the printed dialogue: the destination gets a prefix of the payload behind it. */
  lemma DestinationGetsPayload(c: Config, s: State) returns (methods: short, cmd: byte, a: Address, port: u16, payload: bytes)
    requires Reachable(c, s) && !s.parser.protect && s.dest.wire != []
    ensures Dialogue(c, s.received, methods, cmd, a, port, payload) && s.dest.wire <= payload
  {
    hide Feed, Authentic, Logged, Flows, Bounded, Reads, Dialogue, IsRun;
    ReachableInv(c, s);
    SentIsPrefix(s.dest);
    assert s.mode.Relaying? && s.parser.phase.Accepted?;
    Unprotected(c, s);
    methods := DialogueSound(c, s.received);
    var q := Feed(c, START, s.received);
    cmd, a, port, payload := q.phase.cmd, q.phase.addr, q.phase.port, q.ingest;
  }

  lemma Unprotected(c: Config, s: State)
    requires Inv(c, s) && !s.parser.protect && s.mode.Relaying?
    ensures !Feed(c, START, s.received).protect
  {
    hide Feed, Flows, Bounded, Reads, Logged, Authentic, Streams, RelayInput, Unbroken;
  }

  /**
   With protection: what the destination was sent is a prefix of the cleartext of the frames that
   follow the dialogue in the client's stream.
   */
  lemma DestinationGetsCleartext(c: Config, s: State)
    requires Reachable(c, s) && s.parser.protect && s.mode.Relaying? && !s.closed
    ensures
      var d := Drain(Feed(c, START, s.received).ingest);
      d.ok && UnwrapAll(c.gss, d.toks).Some? && s.dest.wire <= Concat(UnwrapAll(c.gss, d.toks).value)
  {
    hide Feed, Authentic, Logged, Flows, Bounded, Reads, RelayInput, UnwrapAll, Drain;
    ReachableInv(c, s);
    SentIsPrefix(s.dest);
    RelayedIsCleartext(c.gss, Feed(c, START, s.received).ingest);
  }

  /**
   Without GSS-API: the client is sent a prefix of the method, the login verdict if there was a
   login, at most one SOCKS reply, and the destination's bytes after a success only.
   */
  lemma ClientHearsConversation(c: Config, s: State)
    requires Reachable(c, s) && !s.parser.protect
    ensures PlainTalk(s.parser)
    ensures s.client.wire <= Concat(s.parser.out + (ReplyPart(CoreOf(s)) + s.relayed))
    ensures Concat(s.relayed) == s.fromDest
    ensures s.relayed != [] ==> SaysSucceeded(s.reply)
  {
    hide Feed, Authentic, Linked, Flows, Bounded, Reads, Unbroken;
    ReachableInv(c, s);
    SentIsPrefix(s.client);
  }

  /** With protection: everything queued for the client since is whole encapsulated frames. */
  lemma ProtectedTalk(c: Config, s: State)
    requires Reachable(c, s) && s.parser.protect
    ensures s.client.log == s.parser.out + s.after
    ensures forall i :: 0 <= i < |s.after| ==> IsFrame(s.after[i])
    ensures s.client.wire <= Concat(s.client.log)
  {
    hide Feed, Authentic, Linked, Flows, Bounded, Reads, Unbroken, IsFrame;
    ReachableInv(c, s);
    SentIsPrefix(s.client);
  }

  /**
   With credentials configured, no session connects, relays or opens a UDP relay unless the
   client's bytes open with the right login, or a GSS-API exchange was completed.
   */
  lemma NoServiceWithoutLogin(c: Config, s: State)
    requires Reachable(c, s) && HasCredentials(c)
    requires s.mode.Resolving? || s.mode.Connecting? || s.mode.Relaying? || s.mode.Udp?
    ensures
      || (s.parser.protect && c.gss.accept(s.parser.toks).Completed?)
      || (exists methods: short, rest :: LoggedIn(c, s.received, methods, rest))
  {
    hide Feed, Logged, Flows, Bounded, Reads, Unbroken, LoggedIn, Streams;
    ReachableInv(c, s);
  }

  /**
   An open relay never stalls: each direction has ended, or is being read, or is paused behind a
   full queue whose send is in flight; and without protection no queue exceeds its limit.
   */
  lemma RelayNeverStalls(c: Config, s: State)
    requires Reachable(c, s) && s.mode.Relaying? && !s.closed
    ensures s.client.peerClosed || s.client.reading || (s.client.paused && |s.dest.queue| >= 32 && s.dest.sending)
    ensures s.dest.peerClosed || s.dest.reading || (s.dest.paused && |s.client.queue| >= 32 && s.client.sending)
    ensures s.client.queue != [] ==> s.client.sending
    ensures s.dest.queue != [] ==> s.dest.sending
    ensures !s.parser.protect ==> |s.client.queue| <= 32 && |s.dest.queue| <= 32
  {
    hide Feed, Story, Reads, Unbroken, Backed;
    ReachableInv(c, s);
  }

  /** Whenever a dialogue read is posted, the buffer is short enough for 983,038 more bytes. */
  lemma BufferStaysShort(c: Config, s: State)
    requires Reachable(c, s) && s.mode.Parsing? && !s.closed && s.client.reading
    ensures |s.parser.ingest| <= 65_538
    ensures forall arrival: nat :: arrival <= 983_038 ==> !Overflows(s.parser, arrival)
    ensures !c.enableGss ==> |s.parser.ingest| <= 512
  {
    hide Advance, Run, Logged, Authentic, Unbroken, Backed;
    ReachableInv(c, s);
    RunStops(c, Plus(START, s.received));
    WaitingIsBounded(c, s.parser);
    if !c.enableGss {
      RunNoGss(c, Plus(START, s.received));
    }
  }

  /** A session that has been sent that stream at once, and reads on. */
  lemma LongestWaitReached(c: Config, tail: bytes) returns (s: State)
    requires c.enableGss && c.gss.acquired && |tail| == 65_534
    ensures Reachable(c, s) && s.mode.Parsing? && !s.closed && s.client.reading
    ensures s.received == LongestWait(tail) && |s.parser.ingest| == 65_538
  {
    hide Run, Advance;
    var stream, o := LongestWait(tail), Posts(true, true, true, true);
    var e := ClientRecv(stream, Started, o);
    LongestWaitFed(c, tail);
    s := Step(c, FIRST, e);
    FirstArrival(c, stream, o);
    hide Step, Feed;
    var run, es := [FIRST, s], [e];
    assert IsRun(c, run, es) && run[|run| - 1] == s;
  }

  lemma FirstArrival(c: Config, stream: bytes, o: Posts)
    requires stream != [] && |stream| <= MAX_BUFFERED && Active(Feed(c, START, stream)) && o.clientSend && o.clientRead
    ensures var s := Step(c, FIRST, ClientRecv(stream, Started, o));
            s.mode.Parsing? && !s.closed && s.client.reading && s.received == stream && s.parser == Feed(c, START, stream)
  {
    hide Feed;
    assert [] + stream == stream;
  }

  /** The next 983,039 bytes close it. */
  lemma LimitCloses(c: Config, tail: bytes, data: bytes, l: Launch, o: Posts) returns (s: State)
    requires c.enableGss && c.gss.acquired && |tail| == 65_534 && |data| > 983_038
    ensures Reachable(c, s) && !s.closed && Enabled(s, ClientRecv(data, l, o))
    ensures Step(c, s, ClientRecv(data, l, o)).closed
  {
    hide Reachable, Feed;
    s := LongestWaitReached(c, tail);
  }

  /** Where GSS-API is on, some reachable dialogue is closed by an arrival exactly if that exceeds 983,038 bytes. */
  lemma LimitExactly(c: Config, arrival: nat)
    requires c.enableGss && c.gss.acquired
    ensures (exists s :: Reachable(c, s) && s.mode.Parsing? && !s.closed && s.client.reading && Overflows(s.parser, arrival))
            <==> arrival > 983_038
  {
    hide Reachable;
    if arrival > 983_038 {
      var s := LongestWaitReached(c, seq(65_534, i => 0));
      assert Overflows(s.parser, arrival);
    } else {
      forall s | Reachable(c, s) && s.mode.Parsing? && !s.closed && s.client.reading ensures !Overflows(s.parser, arrival) {
        BufferStaysShort(c, s);
      }
    }
  }
}
