/**
 What the server answers to every message of the dialogue, told without the parser: the chosen
 method, the verdict on a login, the code of a refused request; and the dialogue under GSS-API.
 */
module SocksAnswers {
  import opened Bytes
  import opened GssFrames
  import opened SocksParser
  import opened SocksDialogue

  // ----- The method

  /** GSS-API before all else, then the login if one is configured, then no authentication if none is. */
  lemma MethodAnswered(c: Config, methods: short, rest: bytes)
    requires methods != []
    ensures
      var p := Feed(c, START, Greeting(methods) + rest);
      var login := c.username != [] && c.password != [];
      var gss := c.enableGss && 1 in methods;
      && p.out != []
      && (p.out[0] == [5, 1] <==> gss)
      && (p.out[0] == [5, 2] <==> !gss && login && 2 in methods)
      && (p.out[0] == [5, 0] <==> !gss && !login && 0 in methods)
      && (p.out[0] == [5, 255] <==> !gss && !(login && 2 in methods) && !(!login && 0 in methods))
      && (p.out[0] == [5, 255] ==> p.phase.Failed? && |p.out| == 1)
  {
    hide Run, Greeting, Greet;
    var p0 := Plus(START, Greeting(methods) + rest);
    assert p0.ingest == Greeting(methods) + rest;
    GreetPrinted(c, p0, methods, rest);
    OneStep(c, p0);
    var q := Greet(c, p0).value;
    RunSays(c, q);
    assert q.out[0] == [5, Select(c, methods)];
    if Select(c, methods) == NO_METHOD {
      Finished(c, q);
    }
  }

  /** Another version, or an offer of nothing, ends the dialogue without an answer. */
  lemma GreetingRefused(c: Config, stream: bytes)
    requires |stream| >= 2 && (stream[0] != 5 || stream[1] == 0)
    ensures var p := Feed(c, START, stream); p.phase.Failed? && p.out == []
  {
    hide Run, Greet;
    var p0 := Plus(START, stream);
    assert p0.ingest == stream;
    GreetFails(c, p0);
    OneStep(c, p0);
    Finished(c, Greet(c, p0).value);
  }

  lemma GreetFails(c: Config, p: Parser)
    requires |p.ingest| >= 2 && (p.ingest[0] != 5 || p.ingest[1] == 0)
    ensures Greet(c, p) == Some(Fail(p))
  {
    hide Select, Chosen;
  }

  // ----- The login

  lemma LoginAnswered(c: Config, methods: short, user: short, password: short, rest: bytes)
    requires methods != [] && Offers(c, methods) && c.username != [] && c.password != []
    ensures
      var p := Feed(c, START, Greeting(methods) + (Login(user, password) + rest));
      if user == c.username && password == c.password then |p.out| >= 2 && p.out[1] == [1, 0]
      else p.phase.Failed? && p.ingest == rest && p.out == [[5, 2], [1, 1]]
  {
    hide Run, Greeting, Login, CheckPassword;
    var p := AfterGreeting(c, Greeting(methods) + (Login(user, password) + rest), methods, Login(user, password) + rest);
    LoginPrinted(c, p, user, password, rest);
    OneStep(c, p);
    var q := CheckPassword(c, p).value;
    RunSays(c, q);
    if q.phase.Failed? {
      Finished(c, q);
    } else {
      assert q.out == [[5, 2], [1, 0]];
    }
  }

  /** Another version of the login ends the dialogue without a verdict. */
  lemma LoginRefused(c: Config, methods: short, tail: bytes)
    requires methods != [] && Offers(c, methods) && c.username != [] && c.password != [] && |tail| >= 2 && tail[0] != 1
    ensures var p := Feed(c, START, Greeting(methods) + tail); p.phase.Failed? && p.out == [[5, 2]]
  {
    hide Run, Greeting, CheckPassword;
    var p := AfterGreeting(c, Greeting(methods) + tail, methods, tail);
    VersionFails(c, p);
    OneStep(c, p);
    Finished(c, CheckPassword(c, p).value);
  }

  lemma VersionFails(c: Config, p: Parser)
    requires |p.ingest| >= 2 && p.ingest[0] != 1
    ensures CheckPassword(c, p) == Some(Fail(p))
  {
  }

  // ----- The request

  /** A whole request with a command that is not served. */
  ghost predicate Unserved(s: bytes, cmd: byte, a: Address, port: u16, rest: bytes) {
    cmd != 1 && cmd != 3 && ValidAddress(a) && s == RequestMessage(cmd, a, port) + rest
  }

  lemma UnservedRefused(p: Parser, cmd: byte, a: Address, port: u16, rest: bytes)
    requires Unserved(p.ingest, cmd, a, port, rest)
    ensures ReadRequest(p) == Some(p.(ingest := rest, phase := Refused(7)))
  {
    hide RequestMessage, PrintAddress;
    RequestLayout(p.ingest, cmd, a, port, rest);
    hide ReadU16;
    AddressLayout(p.ingest, a);
  }

  lemma RefusedUnserved(p: Parser) returns (cmd: byte, a: Address, port: u16, rest: bytes)
    requires ReadRequest(p).Some? && ReadRequest(p).value.phase == Refused(7)
    ensures Unserved(p.ingest, cmd, a, port, rest)
  {
    var s := p.ingest;
    cmd := s[1];
    if s[3] == 1 {
      a, port, rest := V4(s[4..8]), ReadU16(s, 8), s[10..];
      assert s[3..8] == [s[3]] + s[4..8];
      Pieces(s, 8);
    } else if s[3] == 4 {
      a, port, rest := V6(s[4..20]), ReadU16(s, 20), s[22..];
      assert s[3..20] == [s[3]] + s[4..20];
      Pieces(s, 20);
    } else {
      var n := 5 + s[4] as int;
      a, port, rest := Name(s[5..n]), ReadU16(s, n), s[n + 2..];
      assert s[3..n] == [s[3], s[4]] + s[5..n];
      Pieces(s, n);
    }
  }

  /** A malformed request, and an address type that is not served. */
  predicate Malformed(s: bytes) {
    |s| >= 4 && (s[0] != 5 || s[2] != 0)
  }

  predicate Unaddressed(s: bytes) {
    |s| >= 4 && s[0] == 5 && s[2] == 0 && (s[3] !in {1, 3, 4} || (s[3] == 3 && |s| >= 5 && s[4] == 0))
  }

  lemma RequestCases(p: Parser)
    ensures var r := ReadRequest(p);
            && (r.Some? && r.value.phase == Refused(1) <==> Malformed(p.ingest))
            && (r.Some? && r.value.phase == Refused(8) <==> Unaddressed(p.ingest))
            && (r.Some? ==> r.value.phase.Accepted? || r.value.phase in {Refused(1), Refused(7), Refused(8)})
            && (r.Some? ==> r.value == p.(ingest := r.value.ingest, phase := r.value.phase))
            && (r.Some? && (Malformed(p.ingest) || Unaddressed(p.ingest)) ==> r.value.ingest == p.ingest)
  {
    hide ReadU16;
  }

  lemma AfterLogin(c: Config, methods: short, tail: bytes) returns (p: Parser)
    requires methods != [] && Offers(c, methods) && (HasCredentials(c) ==> |c.username| <= 255 && |c.password| <= 255)
    ensures p == Parser(Request, tail, false, false, [], Answers(c))
    ensures Feed(c, START, Greeting(methods) + Credentialed(c, tail)) == Run(c, p)
  {
    hide Run, Greeting, Login, Greet, CheckPassword, Select;
    p := AfterGreeting(c, Greeting(methods) + Credentialed(c, tail), methods, Credentialed(c, tail));
    if HasCredentials(c) {
      LoginPrinted(c, p, c.username, c.password, tail);
      OneStep(c, p);
      p := CheckPassword(c, p).value;
    }
  }

  /**
   Whatever follows greeting and login: which of the three codes refuses it, and when; what is
   neither refused nor accepted waits for more, untouched.
   */
  lemma RequestAnswered(c: Config, methods: short, tail: bytes)
    requires methods != [] && Offers(c, methods) && (HasCredentials(c) ==> |c.username| <= 255 && |c.password| <= 255)
    ensures
      var p := Feed(c, START, Greeting(methods) + Credentialed(c, tail));
      && p.out == Answers(c) && !p.protect
      && (p.phase == Refused(1) <==> Malformed(tail))
      && (p.phase == Refused(8) <==> Unaddressed(tail))
      && (p.phase == Refused(7) <==> exists cmd, a, port, rest :: Unserved(tail, cmd, a, port, rest))
      && (p.phase.Refused? ==> p.phase.code in {1, 7, 8})
      && (p.phase.Refused? || p.phase.Accepted? || (p.phase.Request? && p.ingest == tail))
  {
    hide Run, ReadRequest, Unserved;
    var p := AfterLogin(c, methods, tail);
    RequestCases(p);
    if ReadRequest(p).Some? {
      OneStep(c, p);
      Finished(c, ReadRequest(p).value);
      if ReadRequest(p).value.phase == Refused(7) {
        var cmd, a, port, rest := RefusedUnserved(p);
      }
    } else {
      Waits(c, p);
    }
    forall cmd, a, port, rest | Unserved(tail, cmd, a, port, rest) ensures ReadRequest(p).Some? && ReadRequest(p).value.phase == Refused(7) {
      UnservedRefused(p, cmd, a, port, rest);
    }
  }

  lemma Waits(c: Config, p: Parser)
    requires Advance(c, p).None?
    ensures Run(c, p) == p
  {
  }

  // ----- The dialogue under GSS-API

  /** A level that the client asked for at least, the configuration admits, and the package can do. */
  predicate Admitted(c: Config, asked: byte, level: byte) {
    level <= asked && level <= c.gssMax && (level == 2 ==> c.gss.confidential)
  }

  /** The agreed level is the highest of these. */
  lemma LevelAgreed(c: Config, asked: byte)
    ensures Admitted(c, asked, Level(c, asked))
    ensures forall m: byte :: Admitted(c, asked, m) ==> m <= Level(c, asked)
  {
  }

  /** The package asks for more after every token but the last, which completes the exchange. */
  ghost predicate Exchange(g: Package, toks: seq<token>) {
    && toks != []
    && (forall k :: 0 < k < |toks| ==> g.accept(toks[..k]).Continue? && |g.accept(toks[..k]).reply| < 0x1_0000)
    && g.accept(toks).Completed? && |g.accept(toks).reply| < 0x1_0000
  }

  ghost predicate Fits(r: Accepted) {
    !r.Rejected? && |r.reply| < 0x1_0000
  }

  /** The answers to the first n tokens. */
  ghost function Replies(g: Package, toks: seq<token>, n: nat): seq<bytes>
    requires n <= |toks| && forall k :: 0 < k <= n ==> Fits(g.accept(toks[..k]))
  {
    if n == 0 then []
    else
      assert Fits(g.accept(toks[..n]));
      Replies(g, toks, n - 1) + [PrintFrame(MSG_AUTH, g.accept(toks[..n]).reply)]
  }

  lemma ExchangeFits(g: Package, toks: seq<token>)
    requires Exchange(g, toks)
    ensures forall k :: 0 < k <= |toks| ==> Fits(g.accept(toks[..k]))
  {
    assert toks[..|toks|] == toks;
  }

  /** The client's level, opened, and the server's, wrapped. */
  ghost predicate Levelled(c: Config, t: token, level: byte) {
    && c.gss.unwrap(t).Some? && c.gss.unwrap(t).value != [] && 1 <= c.gss.unwrap(t).value[0] <= 3
    && var asked := c.gss.unwrap(t).value[0];
       && Admitted(c, asked, level) && (forall m: byte :: Admitted(c, asked, m) ==> m <= level)
       && Wraps(c.gss, [level])
  }

  /** Greeting, tokens, protection level, and the request in one encapsulated message. */
  ghost predicate GssDialogue(c: Config, stream: bytes, methods: short, toks: seq<token>, t: token, level: byte, r: token, rest: bytes,
                              cmd: byte, a: Address, port: u16, left: bytes)
  {
    && methods != [] && c.enableGss && 1 in methods && c.gss.acquired && Exchange(c.gss, toks) && Levelled(c, t, level)
    && stream == Greeting(methods) + Framed(toks, t, r, rest)
    && (cmd == 1 || cmd == 3) && ValidAddress(a)
    && c.gss.unwrap(r).Some? && c.gss.unwrap(r).value + rest == RequestMessage(cmd, a, port) + left
  }

  function Framed(toks: seq<token>, t: token, r: token, rest: bytes): bytes {
    PrintFrames(1, toks) + (PrintFrame(2, t) + (PrintFrame(3, r) + rest))
  }

  lemma TokenPrinted(c: Config, p: Parser, t: token, rest: bytes)
    requires p.phase.GssAuth? && p.ingest == PrintFrame(MSG_AUTH, t) + rest && Fits(c.gss.accept(p.toks + [t]))
    ensures var r := c.gss.accept(p.toks + [t]);
            Advance(c, p) == Some(p.(ingest := rest, toks := p.toks + [t], out := p.out + [PrintFrame(MSG_AUTH, r.reply)],
                                     phase := if r.Completed? then GssProtect else GssAuth))
  {
    hide PrintFrame, ReadFrame;
    FrameExact(p.ingest, MSG_AUTH, t, rest);
  }

  /** From the k-th token on. */
  lemma {:induction false} TokensTaken(c: Config, p: Parser, toks: seq<token>, k: nat, tail: bytes)
    requires k < |toks| && Exchange(c.gss, toks) && p.phase.GssAuth? && p.toks == toks[..k]
    requires p.ingest == PrintFrames(MSG_AUTH, toks[k..]) + tail
    requires forall j :: 0 < j <= |toks| ==> Fits(c.gss.accept(toks[..j]))
    requires p.out == [[5, GSSAPI]] + Replies(c.gss, toks, k)
    ensures Run(c, p) == Run(c, p.(phase := GssProtect, ingest := tail, toks := toks, out := [[5, GSSAPI]] + Replies(c.gss, toks, |toks|)))
    decreases |toks| - k
  {
    hide Run, PrintFrame, Advance;
    var rest := PrintFrames(MSG_AUTH, toks[k + 1..]) + tail;
    assert toks[k..][1..] == toks[k + 1..];
    assert p.ingest == PrintFrame(MSG_AUTH, toks[k]) + rest;
    assert toks[..k] + [toks[k]] == toks[..k + 1];
    assert toks[..|toks|] == toks;
    TokenPrinted(c, p, toks[k], rest);
    OneStep(c, p);
    var q := Advance(c, p).value;
    assert q.out == [[5, GSSAPI]] + Replies(c.gss, toks, k + 1);
    if k + 1 < |toks| {
      TokensTaken(c, q, toks, k + 1, tail);
    } else {
      assert rest == tail;
    }
  }

  lemma LevelPrinted(c: Config, p: Parser, t: token, level: byte, rest: bytes)
    requires p.phase.GssProtect? && p.ingest == PrintFrame(MSG_PROTECTION, t) + rest && Levelled(c, t, level)
    ensures Advance(c, p) == Some(p.(ingest := rest, phase := Request, protect := true, unwrapped := false,
                                     out := p.out + [PrintFrame(MSG_PROTECTION, c.gss.wrap([level]).value)]))
  {
    hide PrintFrame, ReadFrame;
    FrameExact(p.ingest, MSG_PROTECTION, t, rest);
    LevelAgreed(c, c.gss.unwrap(t).value[0]);
  }

  lemma EncapsulatedPrinted(c: Config, p: Parser, r: token, rest: bytes)
    requires p.phase.Request? && p.protect && !p.unwrapped && p.ingest == PrintFrame(MSG_ENCAPSULATED, r) + rest && c.gss.unwrap(r).Some?
    ensures Advance(c, p) == Some(p.(ingest := c.gss.unwrap(r).value + rest, unwrapped := true))
  {
    hide PrintFrame, ReadFrame;
    FrameExact(p.ingest, MSG_ENCAPSULATED, r, rest);
  }

  lemma GssGreetingTaken(c: Config, methods: short, rest: bytes)
    requires methods != [] && c.enableGss && 1 in methods && c.gss.acquired
    ensures Feed(c, START, Greeting(methods) + rest) == Run(c, Parser(GssAuth, rest, false, false, [], [[5, GSSAPI]]))
  {
    hide Run, Greeting, Greet;
    var p0 := Plus(START, Greeting(methods) + rest);
    assert p0.ingest == Greeting(methods) + rest;
    GreetPrinted(c, p0, methods, rest);
    assert Select(c, methods) == GSSAPI;
    assert Greet(c, p0).value == Parser(GssAuth, rest, false, false, [], [[5, GSSAPI]]);
    OneStep(c, p0);
  }

  /** Every such dialogue is understood, and answered message by message. */
  lemma GssDialogueComplete(c: Config, stream: bytes, methods: short, toks: seq<token>, t: token, level: byte, r: token, rest: bytes,
                            cmd: byte, a: Address, port: u16, left: bytes)
    requires GssDialogue(c, stream, methods, toks, t, level, r, rest, cmd, a, port, left)
    ensures forall k :: 0 < k <= |toks| ==> Fits(c.gss.accept(toks[..k]))
    ensures Feed(c, START, stream)
            == Parser(Accepted(cmd, a, port), left, true, true, toks,
                      [[5, GSSAPI]] + Replies(c.gss, toks, |toks|) + [PrintFrame(MSG_PROTECTION, c.gss.wrap([level]).value)])
  {
    hide Run, Greeting, PrintFrame, RequestMessage, Advance, ReadRequest, Levelled;
    ExchangeFits(c.gss, toks);
    var s2 := PrintFrame(MSG_ENCAPSULATED, r) + rest;
    var s1 := PrintFrame(MSG_PROTECTION, t) + s2;
    GssGreetingTaken(c, methods, Framed(toks, t, r, rest));
    var p1 := Parser(GssAuth, Framed(toks, t, r, rest), false, false, [], [[5, GSSAPI]]);
    assert toks[0..] == toks && [[5, GSSAPI]] + [] == [[5, GSSAPI]];
    TokensTaken(c, p1, toks, 0, s1);
    var p2 := p1.(phase := GssProtect, ingest := s1, toks := toks, out := [[5, GSSAPI]] + Replies(c.gss, toks, |toks|));
    LevelPrinted(c, p2, t, level, s2);
    OneStep(c, p2);
    var p3 := Advance(c, p2).value;
    EncapsulatedPrinted(c, p3, r, rest);
    OneStep(c, p3);
    var p4 := Advance(c, p3).value;
    RequestPrinted(p4, cmd, a, port, left);
    Reads(c, p4);
    OneStep(c, p4);
    Finished(c, ReadRequest(p4).value);
  }

  lemma Reads(c: Config, p: Parser)
    requires p.phase.Request? && (p.protect ==> p.unwrapped)
    ensures Advance(c, p) == ReadRequest(p)
  {
    hide ReadRequest;
  }

  // ----- The abort

  /** A failed negotiation ends with the abort message. */
  ghost predicate Aborts(p: Parser) {
    p.phase.Failed? && ChoseGss(p) && !p.protect ==> |p.out| >= 2 && p.out[|p.out| - 1] == [1, 255]
  }

  lemma AdvanceAborts(c: Config, p: Parser)
    requires PlainTalk(p) && Advance(c, p).Some?
    ensures Aborts(Advance(c, p).value)
  {
    if p.phase.GssAuth? || p.phase.GssProtect? {
      NegotiationAborts(c, p);
    } else if p.phase.Handshake? {
      GreetAborts(c, p);
    } else {
      hide ReadFrame, Greet, AcceptToken, Protect;
    }
  }

  lemma NegotiationAborts(c: Config, p: Parser)
    requires PlainTalk(p) && (p.phase.GssAuth? || p.phase.GssProtect?) && Advance(c, p).Some?
    ensures Aborts(Advance(c, p).value)
  {
    hide ReadFrame, PrintFrame;
  }

  lemma GreetAborts(c: Config, p: Parser)
    requires PlainTalk(p) && p.phase.Handshake? && Greet(c, p).Some?
    ensures Aborts(Greet(c, p).value)
  {
  }

  lemma {:induction false} RunAborts(c: Config, p: Parser)
    requires PlainTalk(p) && Aborts(p)
    ensures Aborts(Run(c, p))
    decreases Rank(p), |p.ingest|
  {
    hide Advance, PlainTalk, Aborts;
    AdvanceStep(c, p);
    if Advance(c, p).Some? {
      AdvanceTalk(c, p);
      AdvanceAborts(c, p);
      RunAborts(c, Advance(c, p).value);
    }
  }

  /** Whatever was sent: a GSS-API negotiation that fails, for lack of a credential, too, is answered by an abort. */
  lemma FailureIsTold(c: Config, stream: bytes)
    ensures Aborts(Feed(c, START, stream))
  {
    hide Run;
    RunAborts(c, Plus(START, stream));
  }

  // ----- Exactly these

  /** A run that ends in a protected request, from the tokens on. */
  lemma {:induction false} TokensSound(c: Config, p: Parser) returns (more: seq<token>, q: Parser)
    requires p.phase.GssAuth? && !p.protect && Run(c, p).phase.Accepted?
    ensures Run(c, p) == Run(c, q) && q.phase.GssProtect? && !q.protect && q.toks == p.toks + more && more != []
    ensures p.ingest == PrintFrames(MSG_AUTH, more) + q.ingest
    ensures forall k :: 0 < k < |more| ==> c.gss.accept(p.toks + more[..k]).Continue? && |c.gss.accept(p.toks + more[..k]).reply| < 0x1_0000
    ensures c.gss.accept(q.toks).Completed? && |c.gss.accept(q.toks).reply| < 0x1_0000
    decreases |p.ingest|
  {
    hide Run, PrintFrame, ReadFrame, Advance;
    var t, rest := TokenSound(c, p);
    var n := Advance(c, p).value;
    assert p.toks + [t] == n.toks;
    if n.phase.GssProtect? {
      more, q := [t], n;
      assert PrintFrames(MSG_AUTH, [t]) == PrintFrame(MSG_AUTH, t);
    } else {
      var later: seq<token>;
      later, q := TokensSound(c, n);
      more := [t] + later;
      assert p.toks + more == n.toks + later;
      assert more[1..] == later;
      assert PrintFrame(MSG_AUTH, t) + (PrintFrames(MSG_AUTH, later) + q.ingest) == PrintFrames(MSG_AUTH, more) + q.ingest;
      forall k | 0 < k < |more| ensures c.gss.accept(p.toks + more[..k]).Continue? && |c.gss.accept(p.toks + more[..k]).reply| < 0x1_0000 {
        if k == 1 {
          assert more[..1] == [t];
        } else {
          assert p.toks + more[..k] == n.toks + later[..k - 1];
        }
      }
    }
  }

  lemma TokenSound(c: Config, p: Parser) returns (t: token, rest: bytes)
    requires p.phase.GssAuth? && !p.protect && Run(c, p).phase.Accepted?
    ensures p.ingest == PrintFrame(MSG_AUTH, t) + rest && Fits(c.gss.accept(p.toks + [t]))
    ensures Advance(c, p).Some? && Run(c, p) == Run(c, Advance(c, p).value) && |rest| < |p.ingest|
    ensures var q := Advance(c, p).value;
            q.ingest == rest && q.toks == p.toks + [t] && !q.protect
            && q.phase == if c.gss.accept(p.toks + [t]).Completed? then GssProtect else GssAuth
  {
    hide Run, PrintFrame, ReadFrame;
    MustAdvance(c, p);
    var q := Advance(c, p).value;
    if q.phase.Failed? {
      Finished(c, q);
      assert false;
    }
    var r := ReadFrame(p.ingest, MSG_AUTH);
    t, rest := r.tok, r.rest;
    FrameExact(p.ingest, MSG_AUTH, t, rest);
  }

  lemma LevelSound(c: Config, p: Parser) returns (t: token, level: byte)
    requires p.phase.GssProtect? && Run(c, p).phase.Accepted?
    ensures Advance(c, p).Some? && Run(c, p) == Run(c, Advance(c, p).value)
    ensures var q := Advance(c, p).value;
            q.phase.Request? && q.protect && !q.unwrapped && p.ingest == PrintFrame(MSG_PROTECTION, t) + q.ingest
    ensures Levelled(c, t, level)
  {
    hide Run, PrintFrame, ReadFrame;
    MustAdvance(c, p);
    var q := Advance(c, p).value;
    if q.phase.Failed? {
      Finished(c, q);
      assert false;
    }
    var r := ReadFrame(p.ingest, MSG_PROTECTION);
    t := r.tok;
    FrameExact(p.ingest, MSG_PROTECTION, t, r.rest);
    level := Level(c, c.gss.unwrap(t).value[0]);
    LevelAgreed(c, c.gss.unwrap(t).value[0]);
  }

  lemma EncapsulatedSound(c: Config, p: Parser) returns (r: token, rest: bytes)
    requires p.phase.Request? && p.protect && !p.unwrapped && Run(c, p).phase.Accepted?
    ensures p.ingest == PrintFrame(MSG_ENCAPSULATED, r) + rest && c.gss.unwrap(r).Some?
    ensures Run(c, p) == Run(c, p.(ingest := c.gss.unwrap(r).value + rest, unwrapped := true))
  {
    hide Run, PrintFrame, ReadFrame;
    MustAdvance(c, p);
    var q := Advance(c, p).value;
    if q.phase.Failed? {
      Finished(c, q);
      assert false;
    }
    var f := ReadFrame(p.ingest, MSG_ENCAPSULATED);
    r, rest := f.tok, f.rest;
    FrameExact(p.ingest, MSG_ENCAPSULATED, r, rest);
  }

  /** The last message of a protected dialogue. */
  lemma ProtectedRequestSound(c: Config, p: Parser)
    requires p.phase.Request? && p.unwrapped && Run(c, p).phase.Accepted?
    ensures
      var q := Run(c, p);
      && (q.phase.cmd == 1 || q.phase.cmd == 3) && ValidAddress(q.phase.addr)
      && p.ingest == RequestMessage(q.phase.cmd, q.phase.addr, q.phase.port) + q.ingest
  {
    hide Run, RequestMessage;
    MustAdvance(c, p);
    RequestEnds(p);
    Finished(c, ReadRequest(p).value);
    RequestSound(p);
  }

  lemma GssGreetingSound(c: Config, stream: bytes) returns (methods: short, rest: bytes)
    requires Feed(c, START, stream).phase.Accepted? && Feed(c, START, stream).protect
    ensures methods != [] && c.enableGss && 1 in methods && c.gss.acquired && stream == Greeting(methods) + rest
    ensures Feed(c, START, stream) == Run(c, Parser(GssAuth, rest, false, false, [], [[5, GSSAPI]]))
  {
    hide Run, Greeting, Greet;
    var p := Plus(START, stream);
    assert p.ingest == stream by { assert [] + stream == stream; }
    MustAdvance(c, p);
    var q := Greet(c, p).value;
    if !Active(q) {
      ChosenEnds(c, p);
      Finished(c, q);
      assert false;
    }
    methods := GreetSound(c, p);
    rest := q.ingest;
    if Select(c, methods) != GSSAPI {
      RunPlain(c, q);
      assert false;
    }
    assert Say(p.(ingest := rest), [5, GSSAPI]).out == [[5, GSSAPI]];
    assert q == Parser(GssAuth, rest, false, false, [], [[5, GSSAPI]]);
  }

  /** Without GSS-API there is no protection. */
  lemma {:induction false} RunPlain(c: Config, p: Parser)
    requires !p.protect && (p.phase.Auth? || p.phase.Request? || !Active(p))
    ensures !Run(c, p).protect
    decreases Rank(p), |p.ingest|
  {
    hide Advance;
    AdvanceStep(c, p);
    if Advance(c, p).Some? {
      AdvancePlain(c, p);
      RunPlain(c, Advance(c, p).value);
    }
  }

  lemma AdvancePlain(c: Config, p: Parser)
    requires !p.protect && (p.phase.Auth? || p.phase.Request? || !Active(p)) && Advance(c, p).Some?
    ensures var q := Advance(c, p).value; !q.protect && (q.phase.Auth? || q.phase.Request? || !Active(q))
  {
    hide ReadU16;
  }

  lemma GssDialogueSound(c: Config, stream: bytes)
      returns (methods: short, toks: seq<token>, t: token, level: byte, r: token, rest: bytes)
    requires Feed(c, START, stream).phase.Accepted? && Feed(c, START, stream).protect
    ensures var q := Feed(c, START, stream);
            GssDialogue(c, stream, methods, toks, t, level, r, rest, q.phase.cmd, q.phase.addr, q.phase.port, q.ingest)
  {
    hide Run, Greeting, PrintFrame, RequestMessage, Advance, ReadRequest, Levelled, PrintFrames;
    var s0: bytes;
    methods, s0 := GssGreetingSound(c, stream);
    var p1 := Parser(GssAuth, s0, false, false, [], [[5, GSSAPI]]);
    var p2: Parser;
    toks, p2 := TokensSound(c, p1);
    assert [] + toks == toks && forall k :: 0 < k < |toks| ==> [] + toks[..k] == toks[..k];
    t, level := LevelSound(c, p2);
    var p3 := Advance(c, p2).value;
    r, rest := EncapsulatedSound(c, p3);
    ProtectedRequestSound(c, p3.(ingest := c.gss.unwrap(r).value + rest, unwrapped := true));
  }

  /** A request is accepted under protection, with exactly `left` left over, if and only if the stream is such a dialogue. */
  lemma GssDialogueExact(c: Config, stream: bytes, cmd: byte, a: Address, port: u16, left: bytes)
    ensures var q := Feed(c, START, stream);
            q.phase == Accepted(cmd, a, port) && q.protect && q.ingest == left <==>
            exists methods: short, toks: seq<token>, t: token, level: byte, r: token, rest: bytes ::
              GssDialogue(c, stream, methods, toks, t, level, r, rest, cmd, a, port, left)
  {
    hide Feed, GssDialogue;
    var q := Feed(c, START, stream);
    if q.phase == Accepted(cmd, a, port) && q.protect && q.ingest == left {
      var methods, toks, t, level, r, rest := GssDialogueSound(c, stream);
    }
    forall methods: short, toks: seq<token>, t: token, level: byte, r: token, rest: bytes
      | GssDialogue(c, stream, methods, toks, t, level, r, rest, cmd, a, port, left)
      ensures q.phase == Accepted(cmd, a, port) && q.protect && q.ingest == left
    {
      GssDialogueComplete(c, stream, methods, toks, t, level, r, rest, cmd, a, port, left);
    }
  }
}
