/**
 The SOCKS5 control dialogue as an incremental parser: greeting, user name and password,
 GSS-API negotiation and the request (sections 3 and 4 of RFC 1928, section 2 of RFC 1929,
 sections 3 to 5 of RFC 1961). Input arrives in arbitrary pieces.
 */
module SocksParser {
  import opened Bytes
  import opened GssFrames

  const MAX_BUFFERED := 1024 * 1024

  const NO_AUTH: byte := 0
  const GSSAPI: byte := 1
  const USER_PASS: byte := 2
  const NO_METHOD: byte := 255

  const CONNECT: byte := 1
  const UDP_ASSOCIATE: byte := 3

  const GENERAL_FAILURE: byte := 1
  const COMMAND_NOT_SUPPORTED: byte := 7
  const ADDRESS_NOT_SUPPORTED: byte := 8

  datatype Config = Config(username: bytes, password: bytes, enableGss: bool, gssMax: byte, gss: Package)

  predicate HasCredentials(c: Config) {
    c.username != [] && c.password != []
  }

  datatype Address = V4(v4: bytes) | V6(v6: bytes) | Name(name: bytes)

  /** Dialogue states; `Accepted` and `Refused` leave the parser with a request or a reply code. */
  datatype Phase =
    | Handshake | Auth | GssAuth | GssProtect | Request
    | Accepted(cmd: byte, addr: Address, port: u16)
    | Refused(code: byte)
    | Failed

  /** `out` is what the parser queued for the client, one chunk per message. */
  datatype Parser = Parser(phase: Phase, ingest: bytes, protect: bool, unwrapped: bool, toks: seq<bytes>, out: seq<bytes>)

  const START := Parser(Handshake, [], false, false, [], [])

  predicate Active(p: Parser) {
    p.phase.Handshake? || p.phase.Auth? || p.phase.GssAuth? || p.phase.GssProtect? || p.phase.Request?
  }

  // ----- One message

  function Select(c: Config, methods: bytes): byte {
    if c.enableGss && GSSAPI in methods then GSSAPI
    else if HasCredentials(c) && USER_PASS in methods then USER_PASS
    else if !HasCredentials(c) && NO_AUTH in methods then NO_AUTH
    else NO_METHOD
  }

  function Say(p: Parser, message: bytes): Parser {
    p.(out := p.out + [message])
  }

  function Fail(p: Parser): Parser {
    p.(phase := Failed)
  }

  function Chosen(c: Config, p: Parser, selected: byte): Parser {
    if selected == NO_METHOD then Fail(p)
    else if selected == GSSAPI then
      if c.gss.acquired then p.(phase := GssAuth) else Fail(Say(p, ABORT_FRAME))
    else if selected == USER_PASS then p.(phase := Auth)
    else p.(phase := Request)
  }

  /** None asks for more input; otherwise the dialogue moves. */
  function Greet(c: Config, p: Parser): Option<Parser> {
    var s := p.ingest;
    if |s| < 2 then None
    else if s[0] != 5 || s[1] == 0 then Some(Fail(p))
    else if |s| < 2 + s[1] as int then None
    else
      var n := 2 + s[1] as int;
      var selected := Select(c, s[2..n]);
      Some(Chosen(c, Say(p.(ingest := s[n..]), [5, selected]), selected))
  }

  function CheckPassword(c: Config, p: Parser): Option<Parser> {
    var s := p.ingest;
    if |s| < 2 then None
    else if s[0] != 1 then Some(Fail(p))
    else
      var u := 2 + s[1] as int;
      if |s| < u + 1 then None
      else
        var n := u + 1 + s[u] as int;
        if |s| < n then None
        else
          var q := p.(ingest := s[n..]);
          if s[2..u] == c.username && s[u + 1..n] == c.password then Some(Say(q, [1, 0]).(phase := Request))
          else Some(Fail(Say(q, [1, 1])))
  }

  function Abort(p: Parser): Parser {
    Fail(Say(p, ABORT_FRAME))
  }

  function AcceptToken(c: Config, p: Parser): Option<Parser> {
    match ReadFrame(p.ingest, MSG_AUTH)
    case NeedMore => None
    case Bad(left) => Some(Abort(p.(ingest := left)))
    case Frame(t, rest) =>
      var q := p.(ingest := rest, toks := p.toks + [t]);
      match c.gss.accept(q.toks)
      case Rejected => Some(Abort(q))
      case Continue(reply) =>
        if |reply| > 65_535 then Some(Abort(q)) else Some(Say(q, PrintFrame(MSG_AUTH, reply)))
      case Completed(reply) =>
        if |reply| > 65_535 then Some(Abort(q)) else Some(Say(q, PrintFrame(MSG_AUTH, reply)).(phase := GssProtect))
  }

  function Level(c: Config, asked: byte): byte {
    var capped := if asked > c.gssMax then c.gssMax else asked;
    if capped == 2 && !c.gss.confidential then 1 else capped
  }

  function Protect(c: Config, p: Parser): Option<Parser> {
    match ReadFrame(p.ingest, MSG_PROTECTION)
    case NeedMore => None
    case Bad(left) => Some(Abort(p.(ingest := left)))
    case Frame(t, rest) =>
      var q := p.(ingest := rest);
      var clear := c.gss.unwrap(t);
      if clear.None? || clear.value == [] || clear.value[0] < 1 || clear.value[0] > 3 then Some(Abort(q))
      else
        var w := c.gss.wrap([Level(c, clear.value[0])]);
        if w.None? || |w.value| > 65_535 then Some(Abort(q))
        else Some(Say(q, PrintFrame(MSG_PROTECTION, w.value)).(protect := true, unwrapped := false, phase := Request))
  }

  /** With protection on, one encapsulated message is opened in front of what follows it. */
  function Unwrap(c: Config, p: Parser): Option<Parser> {
    match ReadFrame(p.ingest, MSG_ENCAPSULATED)
    case NeedMore => None
    case Bad(left) => Some(Fail(p.(ingest := left)))
    case Frame(t, rest) =>
      var clear := c.gss.unwrap(t);
      if clear.None? then Some(Fail(p.(ingest := rest)))
      else Some(p.(ingest := clear.value + rest, unwrapped := true))
  }

  function Refuse(p: Parser, code: byte): Parser {
    p.(phase := Refused(code))
  }

  function Take(p: Parser, cmd: byte, addr: Address, portAt: nat): Parser
    requires portAt + 2 <= |p.ingest|
  {
    var q := p.(ingest := p.ingest[portAt + 2..]);
    if cmd == CONNECT || cmd == UDP_ASSOCIATE then q.(phase := Accepted(cmd, addr, ReadU16(p.ingest, portAt)))
    else Refuse(q, COMMAND_NOT_SUPPORTED)
  }

  function ReadRequest(p: Parser): Option<Parser> {
    var s := p.ingest;
    if |s| < 4 then None
    else if s[0] != 5 || s[2] != 0 then Some(Refuse(p, GENERAL_FAILURE))
    else if s[3] == 1 then if |s| < 10 then None else Some(Take(p, s[1], V4(s[4..8]), 8))
    else if s[3] == 4 then if |s| < 22 then None else Some(Take(p, s[1], V6(s[4..20]), 20))
    else if s[3] == 3 then
      if |s| < 5 then None
      else if s[4] == 0 then Some(Refuse(p, ADDRESS_NOT_SUPPORTED))
      else if |s| < 7 + s[4] as int then None
      else Some(Take(p, s[1], Name(s[5..5 + s[4] as int]), 5 + s[4] as int))
    else Some(Refuse(p, ADDRESS_NOT_SUPPORTED))
  }

  function Advance(c: Config, p: Parser): Option<Parser> {
    match p.phase
    case Handshake => Greet(c, p)
    case Auth => CheckPassword(c, p)
    case GssAuth => AcceptToken(c, p)
    case GssProtect => Protect(c, p)
    case Request => if p.protect && !p.unwrapped then Unwrap(c, p) else ReadRequest(p)
    case _ => None
  }

  // ----- Termination

  /** How far the dialogue still is from its end: the one-time unwrap may grow the buffer, but lowers this. */
  function Rank(p: Parser): nat {
    match p.phase
    case Handshake => 5
    case Auth => 4
    case GssAuth => 4
    case GssProtect => 3
    case Request => if p.protect && !p.unwrapped then 2 else 1
    case _ => 0
  }

  ghost predicate Lower(q: Parser, p: Parser) {
    Rank(q) < Rank(p) || (Rank(q) == Rank(p) && |q.ingest| < |p.ingest|)
  }

  lemma TokenDecreases(c: Config, p: Parser)
    requires p.phase.GssAuth? && AcceptToken(c, p).Some?
    ensures Lower(AcceptToken(c, p).value, p)
  {
    hide PrintFrame, ReadFrame;
    var r := ReadFrame(p.ingest, MSG_AUTH);
    if r.Frame? {
      FrameExact(p.ingest, MSG_AUTH, r.tok, r.rest);
    }
  }

  lemma ProtectDecreases(c: Config, p: Parser)
    requires p.phase.GssProtect? && Protect(c, p).Some?
    ensures Lower(Protect(c, p).value, p)
  {
    hide PrintFrame, ReadFrame;
  }

  lemma RequestDecreases(c: Config, p: Parser)
    requires p.phase.Request? && Advance(c, p).Some?
    ensures Lower(Advance(c, p).value, p)
  {
    hide PrintFrame, ReadFrame, ReadU16;
  }

  lemma AdvanceDecreases(c: Config, p: Parser)
    requires Advance(c, p).Some?
    ensures Lower(Advance(c, p).value, p)
  {
    hide AcceptToken, Protect, Unwrap, ReadRequest;
    match p.phase
    case GssAuth => TokenDecreases(c, p);
    case GssProtect => ProtectDecreases(c, p);
    case Request => RequestDecreases(c, p);
    case _ =>
  }

  /** The loop over the buffer: messages are taken while there are any. */
  function Run(c: Config, p: Parser): Parser
    decreases Rank(p), |p.ingest|
  {
    AdvanceStep(c, p);
    var n := Advance(c, p);
    if n.None? then p else Run(c, n.value)
  }

  lemma AdvanceStep(c: Config, p: Parser)
    ensures Advance(c, p).Some? ==> Lower(Advance(c, p).value, p)
  {
    hide Advance, Lower;
    if Advance(c, p).Some? {
      AdvanceDecreases(c, p);
    }
  }

  function Plus(p: Parser, more: bytes): Parser {
    p.(ingest := p.ingest + more)
  }

  /** One arrival. */
  function Feed(c: Config, p: Parser, more: bytes): Parser {
    Run(c, Plus(p, more))
  }

  // ----- Segmentation does not matter

  lemma GreetExtends(c: Config, p: Parser, more: bytes)
    requires Greet(c, p).Some?
    ensures Greet(c, Plus(p, more)) == Some(Plus(Greet(c, p).value, more))
  {
    var s, t := p.ingest, p.ingest + more;
    if s[0] == 5 && s[1] != 0 {
      var n := 2 + s[1] as int;
      assert t[2..n] == s[2..n] && t[n..] == s[n..] + more;
    }
  }

  lemma PasswordExtends(c: Config, p: Parser, more: bytes)
    requires CheckPassword(c, p).Some?
    ensures CheckPassword(c, Plus(p, more)) == Some(Plus(CheckPassword(c, p).value, more))
  {
    var s, t := p.ingest, p.ingest + more;
    if s[0] == 1 {
      var u := 2 + s[1] as int;
      var n := u + 1 + s[u] as int;
      assert t[2..u] == s[2..u] && t[u + 1..n] == s[u + 1..n] && t[n..] == s[n..] + more;
    }
  }

  lemma GssExtends(c: Config, p: Parser, more: bytes)
    ensures AcceptToken(c, p).Some? ==> AcceptToken(c, Plus(p, more)) == Some(Plus(AcceptToken(c, p).value, more))
    ensures Protect(c, p).Some? ==> Protect(c, Plus(p, more)) == Some(Plus(Protect(c, p).value, more))
  {
    hide ReadFrame, PrintFrame;
    FrameExtends(p.ingest, more, MSG_AUTH);
    FrameExtends(p.ingest, more, MSG_PROTECTION);
  }

  lemma UnwrapExtends(c: Config, p: Parser, more: bytes)
    requires Unwrap(c, p).Some?
    ensures Unwrap(c, Plus(p, more)) == Some(Plus(Unwrap(c, p).value, more))
  {
    hide ReadFrame;
    FrameExtends(p.ingest, more, MSG_ENCAPSULATED);
    var r := ReadFrame(p.ingest, MSG_ENCAPSULATED);
    if r.Frame? && c.gss.unwrap(r.tok).Some? {
      var clear := c.gss.unwrap(r.tok).value;
      assert clear + (r.rest + more) == (clear + r.rest) + more;
    }
  }

  lemma TakeExtends(p: Parser, more: bytes, cmd: byte, addr: Address, portAt: nat)
    requires portAt + 2 <= |p.ingest|
    ensures Take(Plus(p, more), cmd, addr, portAt) == Plus(Take(p, cmd, addr, portAt), more)
  {
    assert (p.ingest + more)[portAt + 2..] == p.ingest[portAt + 2..] + more;
  }

  lemma RequestExtends(p: Parser, more: bytes)
    requires ReadRequest(p).Some?
    ensures ReadRequest(Plus(p, more)) == Some(Plus(ReadRequest(p).value, more))
  {
    hide Take;
    var s, t := p.ingest, p.ingest + more;
    if s[0] == 5 && s[2] == 0 {
      if s[3] == 1 {
        assert t[4..8] == s[4..8];
        TakeExtends(p, more, s[1], V4(s[4..8]), 8);
      } else if s[3] == 4 {
        assert t[4..20] == s[4..20];
        TakeExtends(p, more, s[1], V6(s[4..20]), 20);
      } else if s[3] == 3 && s[4] != 0 {
        var n := 5 + s[4] as int;
        assert t[5..n] == s[5..n];
        TakeExtends(p, more, s[1], Name(s[5..n]), n);
      }
    }
  }

  lemma AdvanceExtends(c: Config, p: Parser, more: bytes)
    requires Advance(c, p).Some?
    ensures Advance(c, Plus(p, more)) == Some(Plus(Advance(c, p).value, more))
  {
    hide Greet, CheckPassword, AcceptToken, Protect, Unwrap, ReadRequest;
    match p.phase
    case Handshake => GreetExtends(c, p, more);
    case Auth => PasswordExtends(c, p, more);
    case GssAuth => GssExtends(c, p, more);
    case GssProtect => GssExtends(c, p, more);
    case Request =>
      if p.protect && !p.unwrapped {
        UnwrapExtends(c, p, more);
      } else {
        RequestExtends(p, more);
      }
  }

  lemma {:induction false} RunExtends(c: Config, p: Parser, more: bytes)
    ensures Run(c, Plus(p, more)) == Feed(c, Run(c, p), more)
    decreases Rank(p), |p.ingest|
  {
    hide Advance;
    AdvanceStep(c, p);
    if Advance(c, p).Some? {
      AdvanceExtends(c, p, more);
      RunExtends(c, Advance(c, p).value, more);
    }
  }

  /** Two arrivals do what one arrival of both does: same state, same replies, same leftover. */
  lemma SegmentationIrrelevant(c: Config, p: Parser, a: bytes, b: bytes)
    ensures Feed(c, Feed(c, p, a), b) == Feed(c, p, a + b)
  {
    hide Run;
    RunExtends(c, Plus(p, a), b);
    assert Plus(Plus(p, a), b) == Plus(p, a + b) by {
      assert (p.ingest + a) + b == p.ingest + (a + b);
    }
  }

  function FeedAll(c: Config, p: Parser, cuts: seq<bytes>): Parser
    decreases |cuts|
  {
    if cuts == [] then p else FeedAll(c, Feed(c, p, cuts[0]), cuts[1..])
  }

  /** Any cutting of a stream does what the whole stream does. */
  lemma {:induction false} AnyCutting(c: Config, p: Parser, cuts: seq<bytes>)
    requires Run(c, p) == p
    ensures FeedAll(c, p, cuts) == Feed(c, p, Concat(cuts))
    decreases |cuts|
  {
    hide Run, Advance;
    if cuts == [] {
      assert Plus(p, []) == p by { assert p.ingest + [] == p.ingest; }
    } else {
      RunTwice(c, Plus(p, cuts[0]));
      AnyCutting(c, Feed(c, p, cuts[0]), cuts[1..]);
      SegmentationIrrelevant(c, p, cuts[0], Concat(cuts[1..]));
    }
  }

  lemma {:induction false} RunTwice(c: Config, p: Parser)
    ensures Run(c, Run(c, p)) == Run(c, p)
    decreases Rank(p), |p.ingest|
  {
    hide Advance;
    AdvanceStep(c, p);
    if Advance(c, p).Some? {
      RunTwice(c, Advance(c, p).value);
    }
  }

  // ----- The buffer stays short

  /** A dialogue that waits for input holds at most 65,538 bytes, and without GSS-API at most 512. */
  lemma WaitingIsBounded(c: Config, p: Parser)
    requires Active(p) && Advance(c, p).None?
    ensures |p.ingest| <= 65_538
    ensures !p.phase.GssAuth? && !p.phase.GssProtect? && !p.protect ==> |p.ingest| <= 512
  {
    hide ReadFrame;
    match p.phase
    case GssAuth => WaitingIsShort(p.ingest, MSG_AUTH);
    case GssProtect => WaitingIsShort(p.ingest, MSG_PROTECTION);
    case Request =>
      if p.protect && !p.unwrapped {
        WaitingIsShort(p.ingest, MSG_ENCAPSULATED);
      }
    case _ =>
  }

  /** The guard on the protocol buffer. */
  predicate Overflows(p: Parser, arrival: nat) {
    arrival > MAX_BUFFERED || |p.ingest| > MAX_BUFFERED - arrival
  }

  /** So the limit cannot be hit while a receive brings at most 983,038 bytes. */
  lemma NeverOverflows(c: Config, p: Parser, arrival: nat)
    requires Active(p) && Advance(c, p).None? && arrival <= 983_038
    ensures !Overflows(p, arrival)
  {
    hide Advance;
    WaitingIsBounded(c, p);
  }

  /** A greeting that offers GSS-API alone, and a token frame that lacks its last byte. */
  function LongestWait(tail: bytes): bytes {
    [5, 1, GSSAPI] + ([1, MSG_AUTH, 255, 255] + tail)
  }

  lemma LongestWaitFed(c: Config, tail: bytes)
    requires c.enableGss && c.gss.acquired && |tail| == 65_534
    ensures Feed(c, START, LongestWait(tail)) == Parser(GssAuth, [1, MSG_AUTH, 255, 255] + tail, false, false, [], [[5, GSSAPI]])
    ensures Advance(c, Feed(c, START, LongestWait(tail))).None?
  {
    hide Advance;
    var p, rest := Plus(START, LongestWait(tail)), [1, MSG_AUTH, 255, 255] + tail;
    var q := Parser(GssAuth, rest, false, false, [], [[5, GSSAPI]]);
    assert p.ingest == LongestWait(tail) by { assert [] + LongestWait(tail) == LongestWait(tail); }
    GssGreeted(c, p, rest);
    TokenAwaited(c, q, tail);
    assert Run(c, q) == q;
    assert Run(c, p) == Run(c, q);
  }

  lemma GssGreeted(c: Config, p: Parser, rest: bytes)
    requires c.enableGss && c.gss.acquired && p == START.(ingest := [5, 1, GSSAPI] + rest)
    ensures Advance(c, p) == Some(Parser(GssAuth, rest, false, false, [], [[5, GSSAPI]]))
  {
    hide AcceptToken, Protect, Unwrap, ReadRequest, CheckPassword;
    assert p.ingest[2..3] == [GSSAPI] && p.ingest[3..] == rest;
    assert [] + [[5, GSSAPI]] == [[5, GSSAPI]];
  }

  lemma TokenAwaited(c: Config, q: Parser, tail: bytes)
    requires q.phase.GssAuth? && q.ingest == [1, MSG_AUTH, 255, 255] + tail && |tail| == 65_534
    ensures Advance(c, q).None?
  {
    assert ReadU16(q.ingest, 2) == 65_535;
  }

  /** With one byte more it can: this stream leaves 65,538 bytes in the buffer. */
  lemma OverflowsBeyond(c: Config, tail: bytes, arrival: nat)
    requires c.enableGss && c.gss.acquired && |tail| == 65_534 && arrival > 983_038
    ensures var p := Feed(c, START, LongestWait(tail));
            Active(p) && Advance(c, p).None? && |p.ingest| == 65_538 && Overflows(p, arrival)
  {
    LongestWaitFed(c, tail);
  }

  // ----- What is said

  /** The messages that `q` has queued beyond those of `p`, none of them empty. */
  ghost predicate Says(p: Parser, q: Parser) {
    p.out <= q.out && forall i :: |p.out| <= i < |q.out| ==> q.out[i] != []
  }

  lemma AdvanceSays(c: Config, p: Parser)
    requires Advance(c, p).Some?
    ensures Says(p, Advance(c, p).value)
  {
    hide Greet, CheckPassword, AcceptToken, Protect, Unwrap, ReadRequest, Says;
    match p.phase
    case Handshake => GreetSays(c, p);
    case Auth => PasswordSays(c, p);
    case GssAuth => GssSays(c, p);
    case GssProtect => GssSays(c, p);
    case Request => RequestSays(c, p);
  }

  lemma GreetSays(c: Config, p: Parser)
    requires Greet(c, p).Some?
    ensures Says(p, Greet(c, p).value)
  {
    hide Select;
  }

  lemma PasswordSays(c: Config, p: Parser)
    requires CheckPassword(c, p).Some?
    ensures Says(p, CheckPassword(c, p).value)
  {
  }

  lemma GssSays(c: Config, p: Parser)
    ensures AcceptToken(c, p).Some? ==> Says(p, AcceptToken(c, p).value)
    ensures Protect(c, p).Some? ==> Says(p, Protect(c, p).value)
  {
    hide ReadFrame, PrintFrame, Level;
  }

  lemma RequestSays(c: Config, p: Parser)
    ensures Unwrap(c, p).Some? ==> Says(p, Unwrap(c, p).value)
    ensures ReadRequest(p).Some? ==> Says(p, ReadRequest(p).value)
  {
    hide ReadFrame, ReadU16;
  }

  lemma {:induction false} RunSays(c: Config, p: Parser)
    ensures Says(p, Run(c, p))
    decreases Rank(p), |p.ingest|
  {
    hide Advance;
    AdvanceStep(c, p);
    if Advance(c, p).Some? {
      AdvanceSays(c, p);
      RunSays(c, Advance(c, p).value);
    }
  }

  /** GSS-API was chosen. */
  ghost predicate ChoseGss(p: Parser) {
    p.out != [] && p.out[0] == [5, GSSAPI]
  }

  /** Unless GSS-API was chosen, the parser says at most a method and a login verdict. */
  ghost predicate PlainTalk(p: Parser) {
    match p.phase
    case Handshake => p.out == [] && !p.protect
    case Auth => p.out == [[5, USER_PASS]] && !p.protect
    case GssAuth => ChoseGss(p)
    case GssProtect => ChoseGss(p)
    case Failed => ChoseGss(p) || p.out == [] || p.out == [[5, NO_METHOD]] || p.out == [[5, USER_PASS]]
                   || p.out == [[5, USER_PASS], [1, 1]]
    case _ => if p.protect then ChoseGss(p) else p.out == [[5, NO_AUTH]] || p.out == [[5, USER_PASS], [1, 0]]
  }

  lemma GreetTalk(c: Config, p: Parser)
    requires PlainTalk(p) && p.phase.Handshake? && Greet(c, p).Some?
    ensures PlainTalk(Greet(c, p).value)
  {
  }

  lemma GssTalk(c: Config, p: Parser)
    requires PlainTalk(p) && (p.phase.GssAuth? || p.phase.GssProtect?) && Advance(c, p).Some?
    ensures PlainTalk(Advance(c, p).value)
  {
    hide ReadFrame, PrintFrame, Greet, CheckPassword, Unwrap, ReadRequest;
  }

  lemma RequestTalk(c: Config, p: Parser)
    requires PlainTalk(p) && p.phase.Request? && Advance(c, p).Some?
    ensures PlainTalk(Advance(c, p).value)
  {
    hide ReadFrame, Greet, CheckPassword, AcceptToken, Protect;
  }

  lemma AdvanceTalk(c: Config, p: Parser)
    requires PlainTalk(p) && Advance(c, p).Some?
    ensures PlainTalk(Advance(c, p).value)
  {
    if p.phase.Handshake? {
      GreetTalk(c, p);
    } else if p.phase.GssAuth? || p.phase.GssProtect? {
      GssTalk(c, p);
    } else if p.phase.Request? {
      RequestTalk(c, p);
    } else {
      hide ReadFrame, PrintFrame, Greet, AcceptToken, Protect, Unwrap, ReadRequest;
    }
  }

  lemma {:induction false} RunTalk(c: Config, p: Parser)
    requires PlainTalk(p)
    ensures PlainTalk(Run(c, p))
    decreases Rank(p), |p.ingest|
  {
    hide Advance, PlainTalk;
    AdvanceStep(c, p);
    if Advance(c, p).Some? {
      AdvanceTalk(c, p);
      RunTalk(c, Advance(c, p).value);
    }
  }

  /** With GSS-API disabled it is never entered. */
  ghost predicate NoGss(p: Parser) {
    !p.protect && !p.phase.GssAuth? && !p.phase.GssProtect?
  }

  lemma AdvanceNoGss(c: Config, p: Parser)
    requires !c.enableGss && NoGss(p) && Advance(c, p).Some?
    ensures NoGss(Advance(c, p).value)
  {
    hide ReadFrame, PrintFrame, AcceptToken, Protect, Unwrap;
  }

  lemma {:induction false} RunNoGss(c: Config, p: Parser)
    requires !c.enableGss && NoGss(p)
    ensures NoGss(Run(c, p))
    decreases Rank(p), |p.ingest|
  {
    hide Advance;
    AdvanceStep(c, p);
    if Advance(c, p).Some? {
      AdvanceNoGss(c, p);
      RunNoGss(c, Advance(c, p).value);
    }
  }

  /** The loop stops only where more input is needed. */
  lemma {:induction false} RunStops(c: Config, p: Parser)
    ensures Advance(c, Run(c, p)).None?
    decreases Rank(p), |p.ingest|
  {
    hide Advance;
    AdvanceStep(c, p);
    if Advance(c, p).Some? {
      RunStops(c, Advance(c, p).value);
    }
  }
}
