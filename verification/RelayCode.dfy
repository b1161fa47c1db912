/**
 The relay as the session runs it: two stream records updated in place, a send pump each, and
 reads that pause behind a full queue. Each method is proved to do what the state machine does.
 */
module RelayCode {
  import opened Bytes
  import opened GssFrames
  import opened SocksParser
  import opened SendStream
  import opened Session

  class StreamIo {
    var sendQueue: seq<bytes>
    var sendFrontOffset: nat
    var sending: bool
    var reading: bool
    var peerClosed: bool
    var relayReadPaused: bool
    ghost var wire: bytes
    ghost var log: seq<bytes>

    ghost function View(): Stream
      reads this
    {
      Stream(sendQueue, sendFrontOffset, sending, reading, peerClosed, relayReadPaused, wire, log)
    }

    constructor ()
      ensures View() == IDLE
    {
      sendQueue, sendFrontOffset, sending, reading, peerClosed, relayReadPaused := [], 0, false, false, false, false;
      wire, log := [], [];
    }

    method Push(data: bytes)
      modifies this
      ensures View() == SendStream.Push(old(View()), data)
    {
      sendQueue := sendQueue + [data];
      log := log + [data];
    }

    /** A completed send of `n` octets; a finished chunk leaves the queue. */
    method Sent(n: nat)
      requires sending && Faithful(View()) && n <= Asked(View())
      modifies this
      ensures View() == SendDone(old(View()), n)
    {
      sending := false;
      if sendQueue != [] {
        wire := wire + sendQueue[0][sendFrontOffset..sendFrontOffset + n];
        sendFrontOffset := sendFrontOffset + n;
        if sendFrontOffset >= |sendQueue[0]| {
          sendQueue := sendQueue[1..];
          sendFrontOffset := 0;
        }
      }
    }
  }

  datatype StreamTag = FromClient | FromDest

  class Relay {
    const c: Config
    const clientIo: StreamIo
    const destIo: StreamIo
    var mode: Mode
    var closed: bool
    var closeAfterFlush: bool
    var ingest: bytes
    const gssProtectActive: bool
    /** The rest of the session, which these methods leave alone. */
    ghost var rest: State

    ghost predicate Valid()
      reads this
    {
      clientIo != destIo && rest.parser.protect == gssProtectActive
    }

    ghost function View(): State
      reads this, clientIo, destIo
    {
      rest.(mode := mode, closed := closed, closeAfterFlush := closeAfterFlush, client := clientIo.View(), dest := destIo.View(),
            parser := rest.parser.(ingest := ingest))
    }

    constructor (config: Config, protect: bool, ghost s: State)
      requires s.parser.protect == protect
      ensures Valid() && fresh(clientIo) && fresh(destIo) && c == config && gssProtectActive == s.parser.protect
      ensures View() == s.(mode := Parsing, closed := false, closeAfterFlush := false, client := IDLE, dest := IDLE, parser := s.parser.(ingest := []))
    {
      c, gssProtectActive := config, protect;
      clientIo := new StreamIo();
      destIo := new StreamIo();
      mode, closed, closeAfterFlush, ingest := Parsing, false, false, [];
      rest := s;
    }

    method Close()
      modifies this`closed, this`closeAfterFlush
      ensures View() == Session.Close(old(View()))
    {
      closed, closeAfterFlush := true, false;
    }

    /** `ok` is the outcome of the post, if there is one. */
    method PumpSend(tag: StreamTag, ok: bool)
      requires Valid()
      modifies this`closed, this`closeAfterFlush, clientIo, destIo
      ensures View() == if tag.FromClient? then PumpClient(old(View()), ok) else PumpDest(old(View()), ok)
    {
      var io := if tag.FromClient? then clientIo else destIo;
      if closed || io.sending || io.sendQueue == [] { return; }
      io.sending := true;
      if !ok {
        io.sending := false;
        Close();
      }
    }

    method TryPostRelayRead(receiver: StreamTag, ok: bool)
      requires Valid()
      modifies this`closed, this`closeAfterFlush, clientIo, destIo
      ensures View() == if receiver.FromClient? then TryReadClient(old(View()), ok) else TryReadDest(old(View()), ok)
    {
      if !mode.Relaying? || closed { return; }
      var recvIo := if receiver.FromClient? then clientIo else destIo;
      var sendIo := if receiver.FromClient? then destIo else clientIo;
      if recvIo.reading || recvIo.peerClosed || recvIo.relayReadPaused { return; }
      if |sendIo.sendQueue| >= MAX_DEPTH {
        recvIo.relayReadPaused := true;
        return;
      }
      recvIo.reading := true;
      if !ok {
        recvIo.reading := false;
        Close();
      }
    }

    method MaybeResumeRelayRead(receiver: StreamTag, ok: bool)
      requires Valid()
      modifies this`closed, this`closeAfterFlush, clientIo, destIo
      ensures View() == if receiver.FromClient? then ResumeClient(old(View()), ok) else ResumeDest(old(View()), ok)
    {
      if !mode.Relaying? || closed { return; }
      var recvIo := if receiver.FromClient? then clientIo else destIo;
      var sendIo := if receiver.FromClient? then destIo else clientIo;
      if !recvIo.relayReadPaused { return; }
      if |sendIo.sendQueue| >= MAX_DEPTH { return; }
      recvIo.relayReadPaused := false;
      TryPostRelayRead(receiver, ok);
    }

    method OnClientSend(n: nat, failed: bool, o: Posts)
      requires Valid() && clientIo.sending && Faithful(clientIo.View()) && n <= Asked(clientIo.View())
      modifies this`closed, this`closeAfterFlush, clientIo, destIo
      ensures View() == Session.OnClientSend(old(View()), n, failed, o)
    {
      hide Faithful, SendDone;
      clientIo.Sent(n);
      if closed { return; }
      if failed {
        Close();
        return;
      }
      PumpSend(FromClient, o.clientSend);
      if !closed && closeAfterFlush && clientIo.sendQueue == [] && !clientIo.sending {
        Close();
        return;
      }
      MaybeResumeRelayRead(FromDest, o.destRead);
    }

    method OnDestSend(n: nat, failed: bool, o: Posts)
      requires Valid() && destIo.sending && Faithful(destIo.View()) && n <= Asked(destIo.View())
      modifies this`closed, this`closeAfterFlush, clientIo, destIo
      ensures View() == Session.OnDestSend(old(View()), n, failed, o)
    {
      hide Faithful, SendDone;
      destIo.Sent(n);
      if closed { return; }
      if failed {
        Close();
        return;
      }
      PumpSend(FromDest, o.destSend);
      MaybeResumeRelayRead(FromClient, o.clientRead);
    }

    method QueueDestSend(data: bytes, ok: bool)
      requires Valid()
      modifies this`closed, this`closeAfterFlush, clientIo, destIo
      ensures View() == PumpDest(old(View()).(dest := Push(old(View()).dest, data)), ok)
    {
      destIo.Push(data);
      PumpSend(FromDest, ok);
    }

    /** What the client sent becomes chunks for the destination, opened first if protected. */
    method ForwardToDest(o: Posts)
      requires Valid() && (destIo.sendQueue != [] && !closed ==> destIo.sending)
      modifies this`closed, this`closeAfterFlush, this`ingest, clientIo, destIo
      ensures View() == ForwardInput(c, old(View()), o)
    {
      hide RelayInput;
      ghost var s := View();
      if !gssProtectActive {
        if ingest != [] {
          var chunk := ingest;
          ingest := [];
          QueueDestSend(chunk, o.destSend);
        }
        return;
      }
      var ok, left, chunks := ProcessGssRelayInput(c.gss, ingest);
      ingest := left;
      ghost var t := s.(parser := s.parser.(ingest := left));
      NothingPushed(t, o.destSend);
      for i := 0 to |chunks|
        invariant View() == PumpDest(t.(dest := PushAll(t.dest, chunks[..i])), o.destSend)
      {
        PushedOne(t, chunks, i, o.destSend);
        QueueDestSend(chunks[i], o.destSend);
      }
      assert chunks[..|chunks|] == chunks;
      if !ok {
        Close();
      }
    }

    method OnRelayDataFromClient(data: bytes, o: Posts)
      requires Valid() && (destIo.sendQueue != [] && !closed ==> destIo.sending) && (!gssProtectActive ==> ingest == [])
      modifies this`closed, this`closeAfterFlush, this`ingest, this`rest, clientIo, destIo
      ensures View() == RelayFromClient(c, old(View()), data, o)
    {
      hide ForwardInput;
      if gssProtectActive && (|data| > MAX_BUFFERED || |ingest| > MAX_BUFFERED - |data|) {
        Close();
        return;
      }
      ingest := ingest + data;
      rest := rest.(received := rest.received + data);
      ForwardToDest(o);
      TryPostRelayRead(FromClient, o.clientRead);
    }
  }

  lemma NothingPushed(t: State, ok: bool)
    requires t.dest.queue != [] && !t.closed ==> t.dest.sending
    ensures PumpDest(t.(dest := PushAll(t.dest, [])), ok) == t
  {
    assert t.dest.queue + [] == t.dest.queue && t.dest.log + [] == t.dest.log;
  }

  /** Pumping after every chunk is pumping once after all: the first send blocks the others. */
  lemma PushedOne(t: State, chunks: seq<bytes>, i: nat, ok: bool)
    requires i < |chunks| && (t.dest.queue != [] && !t.closed ==> t.dest.sending)
    ensures var u := PumpDest(t.(dest := PushAll(t.dest, chunks[..i])), ok);
            PumpDest(u.(dest := Push(u.dest, chunks[i])), ok) == PumpDest(t.(dest := PushAll(t.dest, chunks[..i + 1])), ok)
  {
    assert chunks[..i + 1] == chunks[..i] + [chunks[i]];
    assert t.dest.queue + chunks[..i + 1] == t.dest.queue + chunks[..i] + [chunks[i]];
    assert t.dest.log + chunks[..i + 1] == t.dest.log + chunks[..i] + [chunks[i]];
  }
}
