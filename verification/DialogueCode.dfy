/**
 The dialogue as the session runs it: one buffer that every message is cut off from in place,
 a state, and the loop of OnClientRecv over both.
 */
module DialogueCode {
  import opened Bytes
  import opened Credentials
  import opened GssFrames
  import opened SocksParser

  /** The state a method leaves: it reports a failure instead of storing one. */
  function Shown(was: Parser, q: Parser): Parser {
    if q.phase.Failed? then q.(phase := was.phase) else q
  }

  /** A method of the loop did what the parser does with one message. */
  ghost predicate Did(was: Parser, now: Parser, ok: bool, n: Option<Parser>) {
    if n.None? then ok && now == was else ok == !n.value.phase.Failed? && now == Shown(was, n.value)
  }

  /** ProcessRequestBuffer opens the protected request and goes on to read it in the same call. */
  function OpenAndRead(c: Config, p: Parser): Option<Parser> {
    if p.protect && !p.unwrapped then
      var u := Unwrap(c, p);
      if u.None? || u.value.phase.Failed? then u
      else
        var r := ReadRequest(u.value);
        if r.None? then u else r
    else ReadRequest(p)
  }

  /** What one turn of the loop does. */
  function Turn(c: Config, p: Parser): Option<Parser> {
    if p.phase.Request? then OpenAndRead(c, p) else Advance(c, p)
  }

  lemma UnwrapShape(c: Config, p: Parser)
    requires p.phase.Request? && p.protect && !p.unwrapped && Unwrap(c, p).Some? && !Unwrap(c, p).value.phase.Failed?
    ensures var q := Unwrap(c, p).value; q.phase.Request? && q.protect && q.unwrapped
  {
    hide ReadFrame;
  }

  /** A turn is one or two messages of the parser. */
  lemma TurnRuns(c: Config, p: Parser)
    requires Active(p)
    ensures Turn(c, p).None? <==> Advance(c, p).None?
    ensures Turn(c, p).Some? ==> Run(c, Turn(c, p).value) == Run(c, p) && Lower(Turn(c, p).value, p)
  {
    hide Greet, CheckPassword, AcceptToken, Protect, Unwrap, ReadRequest, Rank;
    AdvanceStep(c, p);
    if p.phase.Request? && p.protect && !p.unwrapped && Unwrap(c, p).Some? && !Unwrap(c, p).value.phase.Failed? {
      var q := Unwrap(c, p).value;
      UnwrapShape(c, p);
      AdvanceStep(c, q);
      RunOnce(c, p);
      if ReadRequest(q).Some? {
        RunOnce(c, q);
        LowerTwice(p, q, ReadRequest(q).value);
      }
    } else if Advance(c, p).Some? {
      RunOnce(c, p);
    }
  }

  lemma RunOnce(c: Config, p: Parser)
    requires Advance(c, p).Some?
    ensures Run(c, Advance(c, p).value) == Run(c, p)
  {
    hide Advance;
  }

  lemma LowerTwice(p: Parser, q: Parser, r: Parser)
    requires Lower(q, p) && Lower(r, q)
    ensures Lower(r, p)
  {
    hide Rank;
  }

  /** The loop's own test for progress, state or size, never stops it early. */
  lemma NoProgressIsEnd(c: Config, p: Parser)
    requires Active(p) && Turn(c, p).Some? && Active(Turn(c, p).value)
    requires Turn(c, p).value.phase == p.phase && |Turn(c, p).value.ingest| == |p.ingest|
    ensures Advance(c, Turn(c, p).value).None?
  {
    hide Greet, CheckPassword, AcceptToken, Protect, Unwrap, ReadRequest;
    AdvanceStep(c, p);
    var q := Turn(c, p).value;
    if p.phase.Request? && p.protect && !p.unwrapped {
      UnwrapShape(c, p);
      NeverFails(Unwrap(c, p).value);
    } else {
      NeverFails(p);
    }
  }

  /** What an arrival leads to: a closed session, a flush before closing, another read, or what the request asks for. */
  datatype Arrival = Closed | Flush | ReadOn | Launch

  class Dialogue {
    const c: Config
    var phase: Phase
    var ingest: bytes
    var protect: bool
    var unwrapped: bool
    /** The tokens the security context has accepted so far. */
    var toks: seq<bytes>
    /** What was queued for the client, one chunk per message. */
    var out: seq<bytes>

    ghost predicate Valid()
      reads this
    {
      |c.username| < WORD && |c.password| < WORD
    }

    function View(): Parser
      reads this
    {
      Parser(phase, ingest, protect, unwrapped, toks, out)
    }

    constructor (config: Config)
      requires |config.username| < WORD && |config.password| < WORD
      ensures Valid() && c == config && View() == START
    {
      c := config;
      phase, ingest, protect, unwrapped, toks, out := Handshake, [], false, false, [], [];
    }

    method ProcessHandshakeBuffer() returns (ok: bool)
      requires phase.Handshake?
      modifies this
      ensures Did(old(View()), View(), ok, Greet(c, old(View())))
    {
      if |ingest| < 2 { return true; }
      if ingest[0] != 5 { return false; }
      var count := ingest[1] as int;
      if count == 0 { return false; }
      if |ingest| < 2 + count { return true; }
      var offerGss, offerUserPass, offerNoAuth := false, false, false;
      for i := 0 to count
        invariant offerGss <==> GSSAPI in ingest[2..2 + i]
        invariant offerUserPass <==> USER_PASS in ingest[2..2 + i]
        invariant offerNoAuth <==> NO_AUTH in ingest[2..2 + i]
      {
        var m := ingest[2 + i];
        assert ingest[2..2 + i + 1] == ingest[2..2 + i] + [m];
        if m == GSSAPI { offerGss := true; }
        else if m == USER_PASS { offerUserPass := true; }
        else if m == NO_AUTH { offerNoAuth := true; }
      }
      var selected := NO_METHOD;
      if c.enableGss && offerGss { selected := GSSAPI; }
      else if HasCredentials(c) && offerUserPass { selected := USER_PASS; }
      else if !HasCredentials(c) && offerNoAuth { selected := NO_AUTH; }
      assert selected == Select(c, ingest[2..2 + count]);
      ingest := ingest[2 + count..];
      out := out + [[5, selected]];
      if selected == NO_METHOD { return false; }
      if selected == GSSAPI {
        if !c.gss.acquired {
          out := out + [ABORT_FRAME];
          return false;
        }
        phase := GssAuth;
      } else if selected == USER_PASS {
        phase := Auth;
      } else {
        phase := Request;
      }
      ok := true;
    }

    method ProcessAuthBuffer() returns (ok: bool)
      requires Valid() && phase.Auth?
      modifies this
      ensures Did(old(View()), View(), ok, CheckPassword(c, old(View())))
    {
      if |ingest| < 2 { return true; }
      if ingest[0] != 1 { return false; }
      var u := 2 + ingest[1] as int;
      if |ingest| < u + 1 { return true; }
      var n := u + 1 + ingest[u] as int;
      if |ingest| < n { return true; }
      var username, password := ingest[2..u], ingest[u + 1..n];
      ingest := ingest[n..];
      var same := ConstantTimeEqual(username, c.username);
      PaddedIsEqual(username, c.username);
      if same {
        same := ConstantTimeEqual(password, c.password);
        PaddedIsEqual(password, c.password);
      }
      out := out + [[1, if same then 0 else 1]];
      if !same { return false; }
      phase := Request;
      ok := true;
    }

    /** Takes a frame off the buffer if a whole one is there; -1 is a bad one. */
    method TryReadGssFrame(expected: byte) returns (r: int, tok: token)
      modifies this`ingest
      ensures match ReadFrame(old(ingest), expected)
              case NeedMore => r == 0 && ingest == old(ingest)
              case Bad(left) => r == -1 && ingest == left
              case Frame(t, rest) => r == 1 && tok == t && ingest == rest
    {
      tok := [];
      if |ingest| < 2 { return 0, tok; }
      if ingest[0] != 1 { return -1, tok; }
      if ingest[1] == MSG_ABORT {
        ingest := ingest[2..];
        return -1, tok;
      }
      if ingest[1] != expected { return -1, tok; }
      if |ingest| < 4 { return 0, tok; }
      var len := ReadU16(ingest, 2) as int;
      if |ingest| < 4 + len { return 0, tok; }
      tok := ingest[4..4 + len];
      ingest := ingest[4 + len..];
      r := 1;
    }

    method Abort()
      modifies this`out
      ensures out == old(out) + [ABORT_FRAME]
    {
      out := out + [ABORT_FRAME];
    }

    method ProcessGssapiAuthBuffer() returns (ok: bool)
      requires phase.GssAuth?
      modifies this
      ensures Did(old(View()), View(), ok, AcceptToken(c, old(View())))
    {
      hide ReadFrame, PrintFrame;
      var r, t := TryReadGssFrame(MSG_AUTH);
      if r == 0 { return true; }
      if r < 0 {
        Abort();
        return false;
      }
      toks := toks + [t];
      var status := c.gss.accept(toks);
      if status.Rejected? || |status.reply| > 65_535 {
        Abort();
        return false;
      }
      out := out + [PrintFrame(MSG_AUTH, status.reply)];
      if status.Completed? { phase := GssProtect; }
      ok := true;
    }

    method ProcessGssapiProtectBuffer() returns (ok: bool)
      requires phase.GssProtect?
      modifies this
      ensures Did(old(View()), View(), ok, Protect(c, old(View())))
    {
      hide ReadFrame, PrintFrame;
      var r, t := TryReadGssFrame(MSG_PROTECTION);
      if r == 0 { return true; }
      if r < 0 {
        Abort();
        return false;
      }
      var clear := c.gss.unwrap(t);
      if clear.None? || clear.value == [] || clear.value[0] < 1 || clear.value[0] > 3 {
        Abort();
        return false;
      }
      var selected := clear.value[0];
      if selected > c.gssMax { selected := c.gssMax; }
      if selected == 2 && !c.gss.confidential { selected := 1; }
      var wrapped := c.gss.wrap([selected]);
      if wrapped.None? || |wrapped.value| > 65_535 {
        Abort();
        return false;
      }
      out := out + [PrintFrame(MSG_PROTECTION, wrapped.value)];
      protect, unwrapped, phase := true, false, Request;
      ok := true;
    }

    /** Puts the cleartext of the protected request in front of what follows it. */
    method EnsureCleartextRequestIngest() returns (ok: bool)
      requires phase.Request?
      modifies this`ingest, this`unwrapped
      ensures if protect && !old(unwrapped) then Did(old(View()), View(), ok, Unwrap(c, old(View()))) else ok && View() == old(View())
    {
      hide ReadFrame;
      if !protect || unwrapped { return true; }
      var r, t := TryReadGssFrame(MSG_ENCAPSULATED);
      if r == 0 { return true; }
      if r < 0 { return false; }
      var clear := c.gss.unwrap(t);
      if clear.None? { return false; }
      ingest := clear.value + ingest;
      unwrapped := true;
      ok := true;
    }

    method Refuse(code: byte)
      modifies this`phase
      ensures phase == Refused(code)
    {
      phase := Refused(code);
    }

    method ReadRequestBuffer()
      requires phase.Request?
      modifies this`phase, this`ingest
      ensures Did(old(View()), View(), true, ReadRequest(old(View())))
    {
      if |ingest| < 4 { return; }
      if ingest[0] != 5 || ingest[2] != 0 {
        Refuse(GENERAL_FAILURE);
        return;
      }
      var command, need, addr := ingest[1], 4, V4([]);
      if ingest[3] == 1 {
        need := need + 6;
        if |ingest| < need { return; }
        addr := V4(ingest[4..8]);
      } else if ingest[3] == 4 {
        need := need + 18;
        if |ingest| < need { return; }
        addr := V6(ingest[4..20]);
      } else if ingest[3] == 3 {
        if |ingest| < 5 { return; }
        var dlen := ingest[4] as int;
        if dlen == 0 {
          Refuse(ADDRESS_NOT_SUPPORTED);
          return;
        }
        need := 5 + dlen + 2;
        if |ingest| < need { return; }
        addr := Name(ingest[5..5 + dlen]);
      } else {
        Refuse(ADDRESS_NOT_SUPPORTED);
        return;
      }
      var port := ReadU16(ingest, need - 2);
      ingest := ingest[need..];
      if command == CONNECT || command == UDP_ASSOCIATE {
        phase := Accepted(command, addr, port);
      } else {
        Refuse(COMMAND_NOT_SUPPORTED);
      }
    }

    method ProcessRequestBuffer() returns (ok: bool)
      requires phase.Request?
      modifies this
      ensures Did(old(View()), View(), ok, OpenAndRead(c, old(View())))
    {
      hide Unwrap, ReadRequest;
      ghost var was := View();
      if protect && !unwrapped {
        ok := EnsureCleartextRequestIngest();
        if !ok { return; }
        if !unwrapped {
          NotUnwrapped(c, was, View());
          return true;
        }
        UnwrappedNow(c, was, View());
      }
      ReadRequestBuffer();
      NeverFails(if was.protect && !was.unwrapped then Unwrap(c, was).value else was);
      ok := true;
    }

    /**
     One arrival while the dialogue lasts. Past the buffering limit, or at the end of the stream, the
     session closes and nothing is taken; otherwise all that can be read is read.
     */
    method OnClientRecv(data: bytes) returns (r: Arrival)
      requires Valid() && Active(View())
      modifies this
      ensures Valid()
      ensures r.Closed? <==> data == [] || Overflows(old(View()), |data|)
      ensures r.Closed? ==> View() == old(View())
      ensures !r.Closed? ==> (r.Flush? <==> Feed(c, old(View()), data).phase.Failed?)
      ensures !r.Closed? && !r.Flush? ==> View() == Feed(c, old(View()), data) && (r.ReadOn? <==> Active(View()))
      ensures r.Flush? ==> View() == Feed(c, old(View()), data).(phase := phase)
    {
      hide Feed;
      if data == [] { return Closed; }
      if |data| > MAX_BUFFERED || |ingest| > MAX_BUFFERED - |data| { return Closed; }
      var ok := ProcessAll(data);
      if !ok { return Flush; }
      r := if Active(View()) then ReadOn else Launch;
    }

    /** The loop takes messages off the buffer while there is progress. */
    method ProcessAll(data: bytes) returns (ok: bool)
      requires Valid() && Active(View())
      modifies this
      ensures Valid()
      ensures ok == !Feed(c, old(View()), data).phase.Failed?
      ensures if ok then View() == Feed(c, old(View()), data) else View() == Feed(c, old(View()), data).(phase := phase)
    {
      hide Advance, OpenAndRead, Lower, Rank, Run;
      ghost var start := Plus(View(), data);
      ingest := ingest + data;
      assert View() == start;
      while Active(View())
        invariant Valid() && !phase.Failed? && Run(c, View()) == Run(c, start)
        decreases Rank(View()), |ingest|
      {
        var before, sizeBefore := phase, |ingest|;
        ghost var p := View();
        ok := Process();
        TurnRuns(c, p);
        if !ok {
          FailedStops(c, Turn(c, p).value);
          return;
        }
        if !Active(View()) {
          Stops(c, View());
          return;
        }
        if phase == before && |ingest| == sizeBefore {
          if Turn(c, p).Some? {
            NoProgressIsEnd(c, p);
          }
          Stops(c, View());
          return;
        }
        assert Turn(c, p).Some?;
        assert Rank(View()) < Rank(p) || (Rank(View()) == Rank(p) && |View().ingest| < |p.ingest|) by { LowerMeans(View(), p); }
      }
      Stops(c, View());
      ok := true;
    }

    method Process() returns (ok: bool)
      requires Valid() && Active(View())
      modifies this
      ensures Valid() && Did(old(View()), View(), ok, Turn(c, old(View())))
    {
      hide Greet, CheckPassword, AcceptToken, Protect, OpenAndRead, Unwrap, ReadRequest, Did;
      match phase
      case Handshake => ok := ProcessHandshakeBuffer();
      case Auth => ok := ProcessAuthBuffer();
      case GssAuth => ok := ProcessGssapiAuthBuffer();
      case GssProtect => ok := ProcessGssapiProtectBuffer();
      case Request => ok := ProcessRequestBuffer();
    }
  }

  lemma NotUnwrapped(c: Config, was: Parser, now: Parser)
    requires was.phase.Request? && was.protect && !was.unwrapped && !now.unwrapped && Did(was, now, true, Unwrap(c, was))
    ensures Unwrap(c, was).None?
  {
    hide ReadFrame;
  }

  lemma UnwrappedNow(c: Config, was: Parser, now: Parser)
    requires was.phase.Request? && was.protect && !was.unwrapped && now.unwrapped && Did(was, now, true, Unwrap(c, was))
    ensures Unwrap(c, was) == Some(now)
  {
    hide ReadFrame;
  }

  lemma NeverFails(p: Parser)
    ensures ReadRequest(p).Some? ==> ReadRequest(p).value.phase.Accepted? || ReadRequest(p).value.phase.Refused?
  {
  }

  lemma LowerMeans(q: Parser, p: Parser)
    requires Lower(q, p)
    ensures Rank(q) < Rank(p) || (Rank(q) == Rank(p) && |q.ingest| < |p.ingest|)
  {
    hide Rank;
  }

  lemma Stops(c: Config, p: Parser)
    requires !Active(p) || Advance(c, p).None?
    ensures Run(c, p) == p
  {
  }

  lemma FailedStops(c: Config, p: Parser)
    requires p.phase.Failed?
    ensures Run(c, p) == p
  {
  }
}
