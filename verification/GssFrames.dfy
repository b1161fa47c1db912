/**
 GSS-API message framing (sections 3 to 5 of RFC 1961): version, message type, a 16-bit
 length, and a token. The security package itself is a pair of functions.
 */
module GssFrames {
  import opened Bytes

  const MSG_AUTH: byte := 1
  const MSG_PROTECTION: byte := 2
  const MSG_ENCAPSULATED: byte := 3
  const MSG_ABORT: byte := 255
  const ABORT_FRAME: bytes := [1, 255]
  const RELAY_CHUNK: nat := 16 * 1024

  type token = t: bytes | |t| < 0x1_0000

  datatype FrameRead = NeedMore | Bad(left: bytes) | Frame(tok: token, rest: bytes)

  /** A try to take one frame of the expected type off the buffer. */
  function ReadFrame(s: bytes, expected: byte): FrameRead {
    if |s| < 2 then NeedMore
    else if s[0] != 1 then Bad(s)
    else if s[1] == MSG_ABORT then Bad(s[2..])
    else if s[1] != expected then Bad(s)
    else if |s| < 4 || |s| < 4 + ReadU16(s, 2) then NeedMore
    else Frame(s[4..4 + ReadU16(s, 2)], s[4 + ReadU16(s, 2)..])
  }

  function PrintFrame(mtyp: byte, t: token): (r: bytes)
    ensures |r| == 4 + |t|
  {
    [1, mtyp] + U16(|t|) + t
  }

  /** A frame is read exactly when it stands at the front of the buffer. */
  lemma FrameExact(s: bytes, expected: byte, t: token, rest: bytes)
    requires expected != MSG_ABORT
    ensures ReadFrame(s, expected) == Frame(t, rest) <==> s == PrintFrame(expected, t) + rest
  {
    if s == PrintFrame(expected, t) + rest {
      assert ReadU16(s, 2) == |t|;
      assert s[4..4 + |t|] == t && s[4 + |t|..] == rest;
    }
    if ReadFrame(s, expected) == Frame(t, rest) {
      assert U16(ReadU16(s, 2)) == s[2..4];
      assert s == s[..2] + s[2..4] + s[4..4 + |t|] + s[4 + |t|..];
      assert s[..2] == [1, expected];
    }
  }

  /** More bytes behind never change what was read, refused or taken. */
  lemma FrameExtends(s: bytes, more: bytes, expected: byte)
    ensures match ReadFrame(s, expected)
            case NeedMore => true
            case Bad(left) => ReadFrame(s + more, expected) == Bad(left + more)
            case Frame(t, rest) => ReadFrame(s + more, expected) == Frame(t, rest + more)
  {
    var r := ReadFrame(s, expected);
    if |s| >= 4 {
      assert ReadU16(s + more, 2) == ReadU16(s, 2);
    }
    hide ReadU16;
    if r.Bad? {
      assert (s + more)[2..] == s[2..] + more;
    } else if r.Frame? {
      assert (s + more)[4..4 + |r.tok|] == r.tok;
      assert (s + more)[4 + |r.tok|..] == r.rest + more;
    }
  }

  /** A buffer that is waiting for the rest of a frame holds at most 65,538 bytes. */
  lemma WaitingIsShort(s: bytes, expected: byte)
    requires ReadFrame(s, expected).NeedMore?
    ensures |s| <= 65_538
  {
    if |s| >= 4 {
      assert ReadU16(s, 2) <= 65_535;
    }
  }

  // ----- Frames in a stream

  datatype Drained = Drained(toks: seq<token>, rest: bytes, ok: bool)

  function Drain(s: bytes): Drained
    decreases |s|
  {
    match ReadFrame(s, MSG_ENCAPSULATED)
    case NeedMore => Drained([], s, true)
    case Bad(left) => Drained([], left, false)
    case Frame(t, rest) =>
      var d := Drain(rest);
      Drained([t] + d.toks, d.rest, d.ok)
  }

  function PrintFrames(mtyp: byte, toks: seq<token>): bytes {
    if toks == [] then [] else PrintFrame(mtyp, toks[0]) + PrintFrames(mtyp, toks[1..])
  }

  lemma {:induction false} DrainPrinted(toks: seq<token>, tail: bytes)
    ensures Drain(PrintFrames(MSG_ENCAPSULATED, toks) + tail)
            == Drained(toks + Drain(tail).toks, Drain(tail).rest, Drain(tail).ok)
    decreases |toks|
  {
    hide PrintFrame, ReadFrame;
    if toks == [] {
      assert PrintFrames(MSG_ENCAPSULATED, toks) + tail == tail;
      assert toks + Drain(tail).toks == Drain(tail).toks;
    } else {
      var rest := PrintFrames(MSG_ENCAPSULATED, toks[1..]) + tail;
      var s := PrintFrames(MSG_ENCAPSULATED, toks) + tail;
      assert s == PrintFrame(MSG_ENCAPSULATED, toks[0]) + rest;
      FrameExact(s, MSG_ENCAPSULATED, toks[0], rest);
      DrainPrinted(toks[1..], tail);
      assert toks + Drain(tail).toks == [toks[0]] + (toks[1..] + Drain(tail).toks);
    }
  }

  /** Draining is resumable: what is left over carries all there is to know. */
  lemma {:induction false} DrainExtends(s: bytes, more: bytes)
    ensures var d := Drain(s);
            if !d.ok then Drain(s + more) == Drained(d.toks, d.rest + more, false)
            else var e := Drain(d.rest + more); Drain(s + more) == Drained(d.toks + e.toks, e.rest, e.ok)
    decreases |s|
  {
    FrameExtends(s, more, MSG_ENCAPSULATED);
    var r := ReadFrame(s, MSG_ENCAPSULATED);
    if r.Frame? {
      DrainExtends(r.rest, more);
      var d := Drain(r.rest);
      var e := Drain(d.rest + more);
      assert [r.tok] + (d.toks + e.toks) == ([r.tok] + d.toks) + e.toks;
    } else if r.NeedMore? {
      assert [] + Drain(s + more).toks == Drain(s + more).toks;
    }
  }

  /** Arrivals cut anywhere: every cut is drained as it comes, and the rest is kept. */
  function DrainCuts(left: bytes, cuts: seq<bytes>): Drained
    decreases |cuts|
  {
    if cuts == [] then Drained([], left, true)
    else
      var d := Drain(left + cuts[0]);
      if !d.ok then d
      else
        var e := DrainCuts(d.rest, cuts[1..]);
        Drained(d.toks + e.toks, e.rest, e.ok)
  }

  lemma {:induction false} CutsAreInvisible(left: bytes, cuts: seq<bytes>)
    requires Drain(left) == Drained([], left, true) && Drain(left + Concat(cuts)).ok
    ensures DrainCuts(left, cuts) == Drain(left + Concat(cuts))
    decreases |cuts|
  {
    if cuts == [] {
      assert left + Concat(cuts) == left;
    } else {
      var s, more := left + cuts[0], Concat(cuts[1..]);
      assert left + Concat(cuts) == s + more;
      DrainExtends(s, more);
      var d := Drain(s);
      DrainedRest(s);
      CutsAreInvisible(d.rest, cuts[1..]);
    }
  }

  lemma {:induction false} DrainedRest(s: bytes)
    requires Drain(s).ok
    ensures Drain(Drain(s).rest) == Drained([], Drain(s).rest, true)
    decreases |s|
  {
    var r := ReadFrame(s, MSG_ENCAPSULATED);
    if r.Frame? {
      DrainedRest(r.rest);
    }
  }

  /** Any sequence of frames, cut into any chunks, is read back as the same tokens. */
  lemma FramesRoundTrip(toks: seq<token>, cuts: seq<bytes>)
    requires Concat(cuts) == PrintFrames(MSG_ENCAPSULATED, toks)
    ensures DrainCuts([], cuts) == Drained(toks, [], true)
  {
    var s := PrintFrames(MSG_ENCAPSULATED, toks);
    DrainPrinted(toks, []);
    assert s + [] == s && [] + Concat(cuts) == s && toks + [] == toks;
    assert Drain([]) == Drained([], [], true);
    CutsAreInvisible([], cuts);
  }

  // ----- Protection

  datatype Accepted = Rejected | Continue(reply: bytes) | Completed(reply: bytes)

  /** The security package: accept answers a history of tokens, unwrap undoes wrap. */
  datatype Package = Package(
    acquired: bool,
    accept: seq<bytes> -> Accepted,
    wrap: bytes -> Option<bytes>,
    unwrap: bytes -> Option<bytes>,
    confidential: bool)

  ghost predicate Lawful(g: Package) {
    forall x: bytes :: g.wrap(x).Some? ==> g.unwrap(g.wrap(x).value) == Some(x)
  }

  /** Data cut into parts of at most 16 KiB. */
  function Parts(data: bytes): (r: seq<bytes>)
    ensures forall i :: 0 <= i < |r| ==> 0 < |r[i]| <= RELAY_CHUNK
    decreases |data|
  {
    if data == [] then [] else if |data| <= RELAY_CHUNK then [data]
    else [data[..RELAY_CHUNK]] + Parts(data[RELAY_CHUNK..])
  }

  lemma {:induction false} PartsConcat(data: bytes)
    ensures Concat(Parts(data)) == data
    decreases |data|
  {
    if data != [] {
      if |data| <= RELAY_CHUNK {
        assert Concat([data]) == data + Concat([data][1..]);
      } else {
        PartsConcat(data[RELAY_CHUNK..]);
        assert Parts(data)[1..] == Parts(data[RELAY_CHUNK..]);
        assert data == data[..RELAY_CHUNK] + data[RELAY_CHUNK..];
      }
    }
  }

  /** Wrapping succeeds and the token fits the length field. */
  predicate Wraps(g: Package, x: bytes) {
    g.wrap(x).Some? && |g.wrap(x).value| < 0x1_0000
  }

  ghost predicate Wrapped(g: Package, clear: seq<bytes>, toks: seq<token>) {
    && |toks| == |clear|
    && forall i :: 0 <= i < |clear| ==> g.wrap(clear[i]) == Some(toks[i])
  }

  /** The loop over destination data: each part is wrapped and queued, until one cannot be. */
  method WrapAndQueue(g: Package, data: bytes) returns (ok: bool, ghost toks: seq<token>, frames: seq<bytes>)
    ensures ok <==> forall i :: 0 <= i < |Parts(data)| ==> Wraps(g, Parts(data)[i])
    ensures ok ==> Wrapped(g, Parts(data), toks)
    ensures !ok ==> |toks| < |Parts(data)| && Wrapped(g, Parts(data)[..|toks|], toks) && !Wraps(g, Parts(data)[|toks|])
    ensures |frames| == |toks| && forall i :: 0 <= i < |toks| ==> frames[i] == PrintFrame(MSG_ENCAPSULATED, toks[i])
  {
    hide Parts, PrintFrame;
    NoParts();
    toks, frames := [], [];
    var offset := 0;
    ghost var done: seq<bytes> := [];
    while offset < |data|
      invariant 0 <= offset <= |data|
      invariant Parts(data) == done + Parts(data[offset..])
      invariant Wrapped(g, done, toks)
      invariant forall i :: 0 <= i < |done| ==> Wraps(g, done[i])
      invariant |frames| == |toks| && forall i :: 0 <= i < |toks| ==> frames[i] == PrintFrame(MSG_ENCAPSULATED, toks[i])
      decreases |data| - offset
    {
      var count := if RELAY_CHUNK < |data| - offset then RELAY_CHUNK else |data| - offset;
      var part := data[offset..offset + count];
      PartsStep(data, offset, count);
      var t := g.wrap(part);
      if t.None? || |t.value| > 65_535 {
        assert Parts(data)[|done|] == part && Parts(data)[..|done|] == done;
        return false, toks, frames;
      }
      frames := frames + [PrintFrame(MSG_ENCAPSULATED, t.value)];
      toks := toks + [t.value];
      done := done + [part];
      offset := offset + count;
    }
    assert data[offset..] == [];
    assert done + [] == done;
    ok := true;
  }

  lemma NoParts()
    ensures Parts([]) == []
  {
  }

  lemma PartsStep(data: bytes, offset: nat, count: nat)
    requires offset < |data|
    requires count == if RELAY_CHUNK < |data| - offset then RELAY_CHUNK else |data| - offset
    ensures Parts(data[offset..]) == [data[offset..offset + count]] + Parts(data[offset + count..])
  {
    var d := data[offset..];
    assert d[count..] == data[offset + count..];
    assert d[..count] == data[offset..offset + count];
    if count == |d| {
      assert d[..count] == d && Parts(d[count..]) == [];
    }
  }

  function UnwrapAll(g: Package, toks: seq<token>): Option<seq<bytes>> {
    if toks == [] then Some([])
    else
      var x, rest := g.unwrap(toks[0]), UnwrapAll(g, toks[1..]);
      if x.None? || rest.None? then None else Some([x.value] + rest.value)
  }

  lemma {:induction false} UnwrapWrapped(g: Package, clear: seq<bytes>, toks: seq<token>)
    requires Lawful(g) && Wrapped(g, clear, toks)
    ensures UnwrapAll(g, toks) == Some(clear)
    decreases |clear|
  {
    if clear != [] {
      UnwrapWrapped(g, clear[1..], toks[1..]);
      assert clear == [clear[0]] + clear[1..];
    }
  }

  /**
   Destination data through the protected relay: whatever the cuts on the way, the client reads
   the same tokens, and unwrapping them restores the data.
   */
  lemma ProtectedRoundTrip(g: Package, data: bytes, toks: seq<token>, cuts: seq<bytes>)
    requires Lawful(g) && Wrapped(g, Parts(data), toks)
    requires Concat(cuts) == PrintFrames(MSG_ENCAPSULATED, toks)
    ensures DrainCuts([], cuts) == Drained(toks, [], true)
    ensures UnwrapAll(g, toks).Some? && Concat(UnwrapAll(g, toks).value) == data
  {
    FramesRoundTrip(toks, cuts);
    UnwrapWrapped(g, Parts(data), toks);
    PartsConcat(data);
  }

  // ----- The client's side of the relay

  /** Chunks queued for the destination; an empty cleartext queues nothing. */
  datatype Relayed = Relayed(chunks: seq<bytes>, rest: bytes, ok: bool)

  function RelayInput(g: Package, s: bytes): Relayed
    decreases |s|
  {
    match ReadFrame(s, MSG_ENCAPSULATED)
    case NeedMore => Relayed([], s, true)
    case Bad(left) => Relayed([], left, false)
    case Frame(t, rest) =>
      var x := g.unwrap(t);
      if x.None? then Relayed([], rest, false)
      else
        var r := RelayInput(g, rest);
        Relayed((if x.value == [] then [] else [x.value]) + r.chunks, r.rest, r.ok)
  }

  method ProcessGssRelayInput(g: Package, input: bytes) returns (ok: bool, rest: bytes, queued: seq<bytes>)
    ensures Relayed(queued, rest, ok) == RelayInput(g, input)
  {
    hide ReadFrame;
    rest, queued := input, [];
    while rest != []
      invariant RelayInput(g, input)
                == Relayed(queued + RelayInput(g, rest).chunks, RelayInput(g, rest).rest, RelayInput(g, rest).ok)
      decreases |rest|
    {
      var r := ReadFrame(rest, MSG_ENCAPSULATED);
      match r {
        case NeedMore =>
          assert queued + [] == queued;
          return true, rest, queued;
        case Bad(left) =>
          assert queued + [] == queued;
          return false, left, queued;
        case Frame(t, after) =>
          FrameExact(rest, MSG_ENCAPSULATED, t, after);
          var clear := g.unwrap(t);
          if clear.None? {
            assert queued + [] == queued;
            return false, after, queued;
          }
          ghost var more := RelayInput(g, after).chunks;
          assert queued + ([clear.value] + more) == (queued + [clear.value]) + more;
          assert queued + ([] + more) == queued + more;
          if clear.value != [] { queued := queued + [clear.value]; }
          rest := after;
      }
    }
    NothingToRelay(g);
    assert queued + [] == queued;
    ok := true;
  }

  lemma NothingToRelay(g: Package)
    ensures RelayInput(g, []) == Relayed([], [], true)
  {
  }

  /** The destination gets exactly the cleartext of the frames, in order. */
  lemma {:induction false} RelayedIsCleartext(g: Package, s: bytes)
    requires RelayInput(g, s).ok
    ensures Drain(s).ok && Drain(s).rest == RelayInput(g, s).rest
    ensures UnwrapAll(g, Drain(s).toks).Some?
    ensures Concat(RelayInput(g, s).chunks) == Concat(UnwrapAll(g, Drain(s).toks).value)
    decreases |s|
  {
    var r := ReadFrame(s, MSG_ENCAPSULATED);
    if r.Frame? {
      RelayedIsCleartext(g, r.rest);
      assert Drain(s).toks[1..] == Drain(r.rest).toks;
      var x := g.unwrap(r.tok).value;
      var deeper := RelayInput(g, r.rest).chunks;
      ConcatAppend([x], deeper);
      assert Concat([x]) == x + Concat([]);
      assert [] + deeper == deeper;
      var clear := UnwrapAll(g, Drain(r.rest).toks).value;
      assert ([x] + clear)[1..] == clear;
    }
  }

  /** Relaying is resumable, like draining. */
  lemma {:induction false} RelayExtends(g: Package, s: bytes, more: bytes)
    requires RelayInput(g, s).ok
    ensures var r := RelayInput(g, s);
            var e := RelayInput(g, r.rest + more);
            RelayInput(g, s + more) == Relayed(r.chunks + e.chunks, e.rest, e.ok)
    decreases |s|
  {
    hide ReadFrame, PrintFrame;
    FrameExtends(s, more, MSG_ENCAPSULATED);
    var f := ReadFrame(s, MSG_ENCAPSULATED);
    if f.Frame? {
      FrameExact(s, MSG_ENCAPSULATED, f.tok, f.rest);
      RelayExtends(g, f.rest, more);
      var x := g.unwrap(f.tok).value;
      var head := if x == [] then [] else [x];
      var r := RelayInput(g, f.rest);
      var e := RelayInput(g, r.rest + more);
      assert head + (r.chunks + e.chunks) == (head + r.chunks) + e.chunks;
    } else {
      assert [] + RelayInput(g, s + more).chunks == RelayInput(g, s + more).chunks;
    }
  }
}
