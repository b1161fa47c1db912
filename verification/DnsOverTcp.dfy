/** A query over TCP: two octets of length before each message (section 4.2.2 of RFC 1035), in pieces of any size. */
module DnsOverTcp {
  import opened Bytes

  type message = m: bytes | 1 <= |m| < 0x1_0000 witness [0]

  /** What the octets so far amount to; `missing` is how many the next receive asks for. */
  datatype Progress = Wanting(missing: nat) | Broken | Complete(body: bytes)

  function Framed(m: message): bytes {
    U16(|m|) + m
  }

  function Unframed(s: bytes): Progress {
    if |s| < 2 then Wanting(2 - |s|)
    else if ReadU16(s, 0) == 0 then Broken
    else if |s| < 2 + ReadU16(s, 0) then Wanting(2 + ReadU16(s, 0) - |s|)
    else Complete(s[2..2 + ReadU16(s, 0)])
  }

  /** What is complete or broken stays so, whatever follows. */
  lemma UnframedExtends(s: bytes, more: bytes)
    requires !Unframed(s).Wanting?
    ensures Unframed(s + more) == Unframed(s)
  {
    assert ReadU16(s + more, 0) == ReadU16(s, 0);
    if Unframed(s).Complete? {
      assert (s + more)[2..2 + ReadU16(s, 0)] == s[2..2 + ReadU16(s, 0)];
    }
  }

  /** The message comes out with its last octet and not before, so no receive can run past it. */
  lemma FramedExactly(m: message, s: bytes, rest: bytes)
    requires s + rest == Framed(m)
    ensures Unframed(s) == if |s| < 2 then Wanting(2 - |s|) else if rest == [] then Complete(m) else Wanting(|rest|)
  {
    var f := Framed(m);
    assert s == f[..|s|] && f[..2] == U16(|m|);
    if |s| >= 2 {
      assert At(s, 0, U16(|m|)) by { assert s[0..2] == f[..2]; }
      AtU16(s, 0, |m|);
      if rest == [] {
        assert s == f && f[2..2 + |m|] == m;
      }
    }
  }

  datatype Phase = Connect | Send | RecvLen | RecvBody

  class TcpDnsQuery {
    const query: message
    var phase: Phase
    /** Octets of the framed query already sent. */
    var sent: nat
    /** The receive buffer's filled part, and how far it must be filled. */
    var buffer: bytes
    var recvNeed: nat
    var done: bool

    ghost predicate Valid()
      reads this
    {
      && sent <= |query| + 2
      && (phase.RecvLen? && !done ==> recvNeed == 2 && |buffer| < 2)
      && (phase.RecvBody? && !done ==> Unframed(buffer).Wanting? && 2 <= |buffer| && recvNeed == 2 + ReadU16(buffer, 0))
    }

    constructor (q: message)
      ensures Valid() && query == q && phase.Connect? && !done && sent == 0
    {
      query, phase, sent, buffer, recvNeed, done := q, Connect, 0, [], 0, false;
    }

    /** The connect is done: everything is to be sent. */
    method OnConnected() returns (toSend: bytes)
      requires Valid() && phase.Connect? && sent == 0
      modifies this
      ensures Valid() && phase.Send? && toSend == Framed(query) && sent == 0
    {
      phase := Send;
      toSend := U16(|query|) + query;
    }

    /** A send of `n` octets of what was left; what is to be sent next, or nothing when all is. */
    method OnSent(n: nat) returns (toSend: bytes)
      requires Valid() && phase.Send? && n <= |Framed(query)| - sent
      modifies this
      ensures Valid() && sent == old(sent) + n && toSend == Framed(query)[sent..]
      ensures phase == if toSend == [] then RecvLen else Send
    {
      sent := sent + n;
      toSend := Framed(query)[sent..];
      if toSend == [] {
        phase, buffer, recvNeed := RecvLen, [], 2;
      }
    }

    /** A receive; `asked` is 0 when the query is over, by a message or by a failure. */
    method OnReceived(chunk: bytes) returns (asked: nat, body: Option<bytes>)
      requires Valid() && (phase.RecvLen? || phase.RecvBody?) && !done
      modifies this
      ensures Valid() && (phase.RecvLen? || phase.RecvBody?)
      ensures chunk == [] ==> done && body.None? && asked == 0
      ensures chunk != [] ==> buffer == old(buffer) + chunk
      ensures chunk != [] ==> match Unframed(old(buffer) + chunk)
                              case Wanting(n) => !done && asked == n && body.None?
                              case Broken => done && asked == 0 && body.None?
                              case Complete(b) => done && asked == 0 && body == Some(b)
    {
      asked, body := 0, None;
      if chunk == [] {
        done := true;
        return;
      }
      ghost var was := buffer;
      buffer := buffer + chunk;
      if phase.RecvLen? {
        if |buffer| < 2 { return 2 - |buffer|, None; }
        var length := buffer[0] as int * 256 + buffer[1] as int;
        if length == 0 {
          done := true;
          return;
        }
        recvNeed := 2 + length;
        phase := RecvBody;
      } else {
        assert ReadU16(buffer, 0) == ReadU16(was, 0);
      }
      if |buffer| < recvNeed { return recvNeed - |buffer|, None; }
      done := true;
      body := Some(buffer[2..recvNeed]);
    }
  }
}
