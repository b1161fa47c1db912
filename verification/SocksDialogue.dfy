/**
 What the SOCKS5 parser accepts, told from the outside: a printer of the client's messages,
 and the theorems that tie every accepted request to a printed dialogue.
 */
module SocksDialogue {
  import opened Bytes
  import opened GssFrames
  import opened SocksParser

  type short = s: bytes | |s| <= 255

  // ----- The client's messages

  function Greeting(methods: short): bytes {
    [5, |methods|] + methods
  }

  function Login(user: short, password: short): bytes {
    [1, |user|] + user + [|password|] + password
  }

  predicate ValidAddress(a: Address) {
    match a
    case V4(b) => |b| == 4
    case V6(b) => |b| == 16
    case Name(b) => 1 <= |b| <= 255
  }

  function PrintAddress(a: Address): bytes
    requires ValidAddress(a)
  {
    match a
    case V4(b) => [1] + b
    case V6(b) => [4] + b
    case Name(b) => [3, |b|] + b
  }

  function RequestMessage(cmd: byte, a: Address, port: u16): bytes
    requires ValidAddress(a)
  {
    [5, cmd, 0] + PrintAddress(a) + U16(port)
  }

  // ----- Message by message

  lemma GreetPrinted(c: Config, p: Parser, methods: short, rest: bytes)
    requires methods != [] && p.ingest == Greeting(methods) + rest
    ensures Greet(c, p) == Some(Chosen(c, Say(p.(ingest := rest), [5, Select(c, methods)]), Select(c, methods)))
  {
    var n := 2 + |methods|;
    assert p.ingest[2..n] == methods && p.ingest[n..] == rest;
  }

  /** A greeting that does not end the dialogue was printed at the front of the buffer. */
  lemma GreetSound(c: Config, p: Parser) returns (methods: short)
    requires Greet(c, p).Some? && Active(Greet(c, p).value)
    ensures methods != [] && p.ingest == Greeting(methods) + Greet(c, p).value.ingest
    ensures Select(c, methods) != NO_METHOD
    ensures Greet(c, p).value == Chosen(c, Say(p.(ingest := Greet(c, p).value.ingest), [5, Select(c, methods)]), Select(c, methods))
  {
    var s := p.ingest;
    var n := 2 + s[1] as int;
    methods := s[2..n];
    assert s == [s[0], s[1]] + s[2..n] + s[n..];
  }

  lemma LoginPrinted(c: Config, p: Parser, user: short, password: short, rest: bytes)
    requires p.ingest == Login(user, password) + rest
    ensures CheckPassword(c, p) == Some(if user == c.username && password == c.password
                                        then Say(p.(ingest := rest), [1, 0]).(phase := Request)
                                        else Fail(Say(p.(ingest := rest), [1, 1])))
  {
    var s, u := p.ingest, 2 + |user|;
    var n := u + 1 + |password|;
    assert s[1] == |user| && s[u] == |password|;
    assert s[2..u] == user && s[u + 1..n] == password && s[n..] == rest;
  }

  /** Only the configured user name and password open the way to the request. */
  lemma LoginSound(c: Config, p: Parser)
    requires CheckPassword(c, p).Some? && CheckPassword(c, p).value.phase.Request? && !p.phase.Request?
    ensures |c.username| <= 255 && |c.password| <= 255
    ensures p.ingest == Login(c.username, c.password) + CheckPassword(c, p).value.ingest
    ensures CheckPassword(c, p).value == Say(p.(ingest := CheckPassword(c, p).value.ingest), [1, 0]).(phase := Request)
  {
    var s, u := p.ingest, 2 + p.ingest[1] as int;
    var n := u + 1 + s[u] as int;
    assert s == [s[0], s[1]] + s[2..u] + [s[u]] + s[u + 1..n] + s[n..];
  }

  function AddressLength(a: Address): nat
    requires ValidAddress(a)
  {
    |PrintAddress(a)|
  }

  lemma RequestLayout(s: bytes, cmd: byte, a: Address, port: u16, rest: bytes)
    requires ValidAddress(a) && s == RequestMessage(cmd, a, port) + rest
    ensures
      var at := 3 + AddressLength(a);
      && at + 2 <= |s| && s[0] == 5 && s[1] == cmd && s[2] == 0
      && s[3..at] == PrintAddress(a) && ReadU16(s, at) == port && s[at + 2..] == rest
  {
    hide PrintAddress;
    var x := PrintAddress(a);
    assert s == [5, cmd, 0] + x + U16(port) + rest;
    var at := 3 + |x|;
    assert s[3..at] == x;
    assert s[at..at + 2] == U16(port);
    AtU16(s, at, port);
    assert s[at + 2..] == rest;
  }

  lemma AddressLayout(s: bytes, a: Address)
    requires ValidAddress(a) && 3 + AddressLength(a) <= |s| && s[3..3 + AddressLength(a)] == PrintAddress(a)
    ensures match a
            case V4(b) => AddressLength(a) == 5 && s[3] == 1 && s[4..8] == b
            case V6(b) => AddressLength(a) == 17 && s[3] == 4 && s[4..20] == b
            case Name(b) => AddressLength(a) == 2 + |b| && s[3] == 3 && s[4] == |b| && s[5..5 + |b|] == b
  {
    var x := s[3..3 + AddressLength(a)];
    assert s[3] == x[0] && s[4] == x[1];
    match a
    case V4(b) => assert s[4..8] == x[1..];
    case V6(b) => assert s[4..20] == x[1..];
    case Name(b) => assert s[5..5 + |b|] == x[2..];
  }

  lemma RequestPrinted(p: Parser, cmd: byte, a: Address, port: u16, rest: bytes)
    requires ValidAddress(a) && (cmd == CONNECT || cmd == UDP_ASSOCIATE)
    requires p.ingest == RequestMessage(cmd, a, port) + rest
    ensures ReadRequest(p) == Some(p.(ingest := rest, phase := Accepted(cmd, a, port)))
  {
    hide RequestMessage, PrintAddress;
    RequestLayout(p.ingest, cmd, a, port, rest);
    hide ReadU16;
    AddressLayout(p.ingest, a);
  }

  lemma Pieces(s: bytes, at: nat)
    requires 4 <= at && at + 2 <= |s|
    ensures s == [s[0], s[1], s[2]] + s[3..at] + U16(ReadU16(s, at)) + s[at + 2..]
  {
    ReadU16At(s, at);
    assert s == s[..3] + s[3..at] + s[at..at + 2] + s[at + 2..];
    assert s[..3] == [s[0], s[1], s[2]];
  }

  /** An accepted request was printed at the front of the buffer. */
  lemma RequestSound(p: Parser)
    requires ReadRequest(p).Some? && ReadRequest(p).value.phase.Accepted?
    ensures
      var q := ReadRequest(p).value;
      && (q.phase.cmd == CONNECT || q.phase.cmd == UDP_ASSOCIATE)
      && ValidAddress(q.phase.addr)
      && p.ingest == RequestMessage(q.phase.cmd, q.phase.addr, q.phase.port) + q.ingest
      && q == p.(ingest := q.ingest, phase := q.phase)
  {
    var s := p.ingest;
    if s[3] == 1 {
      assert s[3..8] == [s[3]] + s[4..8];
      Pieces(s, 8);
    } else if s[3] == 4 {
      assert s[3..20] == [s[3]] + s[4..20];
      Pieces(s, 20);
    } else {
      var n := 5 + s[4] as int;
      assert s[3..n] == [s[3], s[4]] + s[5..n];
      Pieces(s, n);
    }
  }

  // ----- The whole dialogue, where GSS-API is not chosen

  /** The offer has the one method that the configuration asks for, and GSS-API does not come first. */
  ghost predicate Offers(c: Config, methods: bytes) {
    && !(c.enableGss && GSSAPI in methods)
    && (if c.username != [] && c.password != [] then USER_PASS else NO_AUTH) in methods
  }

  /** What the client must have sent for a request to be accepted with `rest` left over. */
  ghost predicate Dialogue(c: Config, stream: bytes, methods: short, cmd: byte, a: Address, port: u16, rest: bytes) {
    && methods != [] && Offers(c, methods)
    && (cmd == CONNECT || cmd == UDP_ASSOCIATE) && ValidAddress(a)
    && stream == Greeting(methods) + Credentialed(c, RequestMessage(cmd, a, port) + rest)
    && (HasCredentials(c) ==> |c.username| <= 255 && |c.password| <= 255)
  }

  ghost function Credentialed(c: Config, rest: bytes): bytes {
    if HasCredentials(c) && |c.username| <= 255 && |c.password| <= 255 then Login(c.username, c.password) + rest else rest
  }

  /** What the server answers before the request is acted on. */
  ghost function Answers(c: Config): seq<bytes> {
    if HasCredentials(c) then [[5, USER_PASS], [1, 0]] else [[5, NO_AUTH]]
  }

  lemma OneStep(c: Config, p: Parser)
    requires Advance(c, p).Some?
    ensures Run(c, p) == Run(c, Advance(c, p).value)
  {
  }

  lemma Finished(c: Config, p: Parser)
    requires !Active(p)
    ensures Run(c, p) == p
  {
  }

  lemma AfterGreeting(c: Config, stream: bytes, methods: short, rest: bytes) returns (p: Parser)
    requires methods != [] && Offers(c, methods)
    requires stream == Greeting(methods) + rest
    ensures Feed(c, START, stream) == Run(c, p)
    ensures p == Parser(if HasCredentials(c) then Auth else Request, rest, false, false, [],
                        [[5, if HasCredentials(c) then USER_PASS else NO_AUTH]])
  {
    hide Run;
    var p0 := Plus(START, stream);
    assert p0.ingest == stream;
    GreetPrinted(c, p0, methods, rest);
    p := Greet(c, p0).value;
    OneStep(c, p0);
  }

  /** Every such dialogue is understood, whatever follows it. */
  lemma DialogueComplete(c: Config, stream: bytes, methods: short, cmd: byte, a: Address, port: u16, rest: bytes)
    requires Dialogue(c, stream, methods, cmd, a, port, rest)
    ensures Feed(c, START, stream) == Parser(Accepted(cmd, a, port), rest, false, false, [], Answers(c))
  {
    hide Run, RequestMessage, Greeting, Login, Select, Greet, CheckPassword, ReadRequest, PrintAddress;
    var p := AfterGreeting(c, stream, methods, Credentialed(c, RequestMessage(cmd, a, port) + rest));
    if HasCredentials(c) {
      LoginPrinted(c, p, c.username, c.password, RequestMessage(cmd, a, port) + rest);
      OneStep(c, p);
      p := CheckPassword(c, p).value;
    }
    RequestPrinted(p, cmd, a, port, rest);
    OneStep(c, p);
    Finished(c, ReadRequest(p).value);
  }

  /** What a dialogue in progress has already established about the stream. */
  ghost predicate Explained(c: Config, stream: bytes, p: Parser) {
    && (p.phase.Handshake? ==> p == Plus(START, stream))
    && (p.phase.Auth? ==> exists methods: short :: ExplainedGreeting(c, stream, methods, p.ingest))
    && (p.phase.Auth? || p.phase.GssAuth? || p.phase.GssProtect? ==> !p.protect)
    && (p.phase.GssProtect? || p.protect ==> c.gss.accept(p.toks).Completed?)
    && ((p.phase.Request? || p.phase.Accepted? || p.phase.Refused?) && HasCredentials(c) && !p.protect ==>
          exists methods: short, rest :: LoggedIn(c, stream, methods, rest))
  }

  ghost predicate ExplainedGreeting(c: Config, stream: bytes, methods: short, rest: bytes) {
    methods != [] && stream == Greeting(methods) + rest
  }

  /** The stream opens with a greeting and the configured user name and password. */
  ghost predicate LoggedIn(c: Config, stream: bytes, methods: short, rest: bytes) {
    && |c.username| <= 255 && |c.password| <= 255 && methods != []
    && stream == Greeting(methods) + (Login(c.username, c.password) + rest)
  }

  lemma GreetExplained(c: Config, stream: bytes, p: Parser)
    requires Explained(c, stream, p) && p.phase.Handshake? && Greet(c, p).Some?
    ensures Explained(c, stream, Greet(c, p).value)
  {
    var q := Greet(c, p).value;
    assert [] + stream == stream;
    if Active(q) {
      var methods := GreetSound(c, p);
      assert ExplainedGreeting(c, stream, methods, q.ingest);
    }
  }

  lemma LoginExplained(c: Config, stream: bytes, p: Parser)
    requires Explained(c, stream, p) && p.phase.Auth? && CheckPassword(c, p).Some?
    ensures Explained(c, stream, CheckPassword(c, p).value)
  {
    var q := CheckPassword(c, p).value;
    if q.phase.Request? {
      var methods: short :| ExplainedGreeting(c, stream, methods, p.ingest);
      LoginSound(c, p);
      assert LoggedIn(c, stream, methods, q.ingest);
    }
  }

  lemma RequestFrame(c: Config, p: Parser)
    requires p.phase.Request? && Advance(c, p).Some?
    ensures var q := Advance(c, p).value; q.protect == p.protect && q.toks == p.toks && !q.phase.Handshake?
    ensures var q := Advance(c, p).value; q.phase.Request? || q.phase.Accepted? || q.phase.Refused? || q.phase.Failed?
  {
    hide ReadFrame;
  }

  lemma GssExplained(c: Config, stream: bytes, p: Parser)
    requires Explained(c, stream, p) && (p.phase.GssAuth? || p.phase.GssProtect?) && Advance(c, p).Some?
    ensures Explained(c, stream, Advance(c, p).value)
  {
    hide ReadFrame, PrintFrame, ExplainedGreeting, LoggedIn;
  }

  lemma AdvanceExplained(c: Config, stream: bytes, p: Parser)
    requires Explained(c, stream, p) && Advance(c, p).Some?
    ensures Explained(c, stream, Advance(c, p).value)
  {
    hide Greet, CheckPassword, AcceptToken, Protect, Unwrap, ReadRequest, ExplainedGreeting, LoggedIn;
    match p.phase
    case Handshake => GreetExplained(c, stream, p);
    case Auth => LoginExplained(c, stream, p);
    case GssAuth => GssExplained(c, stream, p);
    case GssProtect => GssExplained(c, stream, p);
    case Request => RequestFrame(c, p);
    case _ =>
  }

  lemma {:induction false} RunExplained(c: Config, stream: bytes, p: Parser)
    requires Explained(c, stream, p)
    ensures Explained(c, stream, Run(c, p))
    decreases Rank(p), |p.ingest|
  {
    hide Advance, Explained;
    AdvanceStep(c, p);
    if Advance(c, p).Some? {
      AdvanceExplained(c, stream, p);
      RunExplained(c, stream, Advance(c, p).value);
    }
  }

  /**
   With credentials configured, no input reaches the request or anything after it unless it opens
   with the right user name and password, or a GSS-API exchange was completed.
   */
  lemma AuthenticationRequired(c: Config, stream: bytes)
    requires HasCredentials(c)
    ensures
      var p := Feed(c, START, stream);
      p.phase.Request? || p.phase.Accepted? || p.phase.Refused? ==>
        (p.protect && c.gss.accept(p.toks).Completed?) || exists methods: short, rest :: LoggedIn(c, stream, methods, rest)
  {
    hide Run;
    var p0 := Plus(START, stream);
    assert Explained(c, stream, p0);
    RunExplained(c, stream, p0);
  }

  // ----- Exactly these

  /** Once GSS-API was chosen a request is accepted only under protection. */
  ghost predicate ViaGss(p: Parser) {
    p.phase.GssAuth? || p.phase.GssProtect? || p.phase.Failed? || p.protect
  }

  lemma AdvanceViaGss(c: Config, p: Parser)
    requires ViaGss(p) && (Active(p) ==> !p.phase.Handshake? && !p.phase.Auth?) && Advance(c, p).Some?
    ensures var q := Advance(c, p).value; ViaGss(q) && (Active(q) ==> !q.phase.Handshake? && !q.phase.Auth?)
  {
    hide ReadFrame, PrintFrame;
  }

  lemma {:induction false} RunViaGss(c: Config, p: Parser)
    requires ViaGss(p) && (Active(p) ==> !p.phase.Handshake? && !p.phase.Auth?)
    ensures ViaGss(Run(c, p))
    decreases Rank(p), |p.ingest|
  {
    hide Advance;
    AdvanceStep(c, p);
    if Advance(c, p).Some? {
      AdvanceViaGss(c, p);
      RunViaGss(c, Advance(c, p).value);
    }
  }

  /** The run of a dialogue without protection, unfolded into its messages. */
  lemma DialogueSound(c: Config, stream: bytes) returns (methods: short)
    requires Feed(c, START, stream).phase.Accepted? && !Feed(c, START, stream).protect
    ensures var q := Feed(c, START, stream);
            Dialogue(c, stream, methods, q.phase.cmd, q.phase.addr, q.phase.port, q.ingest)
  {
    hide Run, RequestMessage, Greeting, Login, Select, Greet, CheckPassword, ReadRequest, PrintAddress;
    var p0 := Plus(START, stream);
    assert p0.ingest == stream by { assert [] + stream == stream; }
    var p1: Parser;
    methods, p1 := GreetingTaken(c, p0);
    if HasCredentials(c) {
      MustAdvance(c, p1);
      var p2 := CheckPassword(c, p1).value;
      if !p2.phase.Request? {
        PasswordEnds(c, p1);
        Finished(c, p2);
        assert false;
      }
      LoginSound(c, p1);
      LastMessage(c, p2);
    } else {
      LastMessage(c, p1);
    }
  }

  lemma GreetingTaken(c: Config, p: Parser) returns (methods: short, q: Parser)
    requires p.phase.Handshake? && !p.protect && p.toks == [] && p.out == [] && Run(c, p).phase.Accepted? && !Run(c, p).protect
    ensures Run(c, p) == Run(c, q) && methods != [] && Offers(c, methods)
    ensures p.ingest == Greeting(methods) + q.ingest
    ensures q == Parser(if HasCredentials(c) then Auth else Request, q.ingest, false, p.unwrapped, [],
                        [[5, if HasCredentials(c) then USER_PASS else NO_AUTH]])
  {
    hide Run, Greeting, Select, Greet;
    MustAdvance(c, p);
    q := Greet(c, p).value;
    if !Active(q) {
      ChosenEnds(c, p);
      Finished(c, q);
      assert false;
    }
    methods := GreetSound(c, p);
    if Select(c, methods) == GSSAPI {
      RunViaGss(c, q);
      assert false;
    }
    OneMethodLeft(c, methods);
  }

  lemma ChosenEnds(c: Config, p: Parser)
    requires Greet(c, p).Some? && !Active(Greet(c, p).value)
    ensures Greet(c, p).value.phase.Failed?
  {
  }

  lemma PasswordEnds(c: Config, p: Parser)
    requires CheckPassword(c, p).Some?
    ensures CheckPassword(c, p).value.phase.Request? || CheckPassword(c, p).value.phase.Failed?
  {
  }

  lemma OneMethodLeft(c: Config, methods: short)
    requires Select(c, methods) != NO_METHOD && Select(c, methods) != GSSAPI
    ensures Select(c, methods) == (if HasCredentials(c) then USER_PASS else NO_AUTH) && Offers(c, methods)
  {
  }

  lemma MustAdvance(c: Config, p: Parser)
    requires Active(p) && Run(c, p).phase.Accepted?
    ensures Advance(c, p).Some? && Run(c, p) == Run(c, Advance(c, p).value)
  {
  }

  lemma LastMessage(c: Config, p: Parser)
    requires p.phase.Request? && !p.protect && Run(c, p).phase.Accepted?
    ensures
      var q := Run(c, p);
      && (q.phase.cmd == CONNECT || q.phase.cmd == UDP_ASSOCIATE) && ValidAddress(q.phase.addr)
      && p.ingest == RequestMessage(q.phase.cmd, q.phase.addr, q.phase.port) + q.ingest
  {
    hide Run, RequestMessage;
    MustAdvance(c, p);
    var q := ReadRequest(p).value;
    RequestEnds(p);
    Finished(c, q);
    RequestSound(p);
  }

  lemma RequestEnds(p: Parser)
    requires ReadRequest(p).Some?
    ensures !Active(ReadRequest(p).value)
  {
  }

  /**
   A request is accepted without protection, with exactly `rest` left for the relay, if and only if
   the stream is the printed dialogue followed by `rest`.
   */
  lemma DialogueExact(c: Config, stream: bytes, cmd: byte, a: Address, port: u16, rest: bytes)
    ensures var q := Feed(c, START, stream);
            q.phase == Accepted(cmd, a, port) && q.ingest == rest && !q.protect <==>
            exists methods: short :: Dialogue(c, stream, methods, cmd, a, port, rest)
  {
    hide Feed, Dialogue;
    var q := Feed(c, START, stream);
    if q.phase == Accepted(cmd, a, port) && q.ingest == rest && !q.protect {
      var methods := DialogueSound(c, stream);
    }
    forall methods: short | Dialogue(c, stream, methods, cmd, a, port, rest)
      ensures q.phase == Accepted(cmd, a, port) && q.ingest == rest && !q.protect
    {
      DialogueComplete(c, stream, methods, cmd, a, port, rest);
    }
  }
}
