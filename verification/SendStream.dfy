/**
 One direction of a session's output: a queue of chunks, an offset into the first one, and at
 most one send in flight. `wire` and `log` are history: octets reported sent, chunks queued.
 */
module SendStream {
  import opened Bytes

  datatype Stream = Stream(queue: seq<bytes>, offset: nat, sending: bool, reading: bool, peerClosed: bool, paused: bool,
                           wire: bytes, log: seq<bytes>)

  const IDLE := Stream([], 0, false, false, false, false, [], [])

  /** The octets that are queued and not yet reported sent. */
  function Pending(x: Stream): bytes {
    if x.queue == [] then [] else if x.offset <= |x.queue[0]| then x.queue[0][x.offset..] + Concat(x.queue[1..]) else []
  }

  /** What was sent and what is pending are together what was queued, in order. */
  ghost predicate Faithful(x: Stream) {
    && (forall i :: 0 <= i < |x.queue| ==> x.queue[i] != [])
    && (if x.queue == [] then x.offset == 0 else x.offset < |x.queue[0]|)
    && x.wire + Pending(x) == Concat(x.log)
  }

  function Push(x: Stream, chunk: bytes): Stream {
    x.(queue := x.queue + [chunk], log := x.log + [chunk])
  }

  function PushAll(x: Stream, chunks: seq<bytes>): Stream {
    x.(queue := x.queue + chunks, log := x.log + chunks)
  }

  /** How much the send in flight was asked to send. */
  function Asked(x: Stream): nat {
    if x.queue == [] || x.offset > |x.queue[0]| then 0 else |x.queue[0]| - x.offset
  }

  /** A completion reports `n` octets of the first chunk; a finished chunk leaves the queue. */
  function SendDone(x: Stream, n: nat): Stream {
    var y := x.(sending := false);
    if x.queue == [] || x.offset >= |x.queue[0]| || n > Asked(x) then y
    else if n == Asked(x) then y.(queue := x.queue[1..], offset := 0, wire := x.wire + x.queue[0][x.offset..])
    else y.(offset := x.offset + n, wire := x.wire + x.queue[0][x.offset..x.offset + n])
  }

  lemma PushAllFaithful(x: Stream, chunks: seq<bytes>)
    requires Faithful(x) && forall i :: 0 <= i < |chunks| ==> chunks[i] != []
    ensures Faithful(PushAll(x, chunks))
  {
    var y := PushAll(x, chunks);
    ConcatAppend(x.log, chunks);
    if x.queue == [] {
      assert [] + chunks == chunks;
      assert Pending(y) == Concat(chunks) by {
        if chunks != [] {
          assert chunks[0][0..] == chunks[0];
        }
      }
    } else {
      assert y.queue[1..] == x.queue[1..] + chunks;
      ConcatAppend(x.queue[1..], chunks);
      assert Pending(y) == Pending(x) + Concat(chunks);
    }
    assert x.wire + (Pending(x) + Concat(chunks)) == (x.wire + Pending(x)) + Concat(chunks);
  }

  lemma ChunkSent(x: Stream)
    requires Faithful(x) && x.queue != []
    ensures Faithful(x.(queue := x.queue[1..], offset := 0, wire := x.wire + x.queue[0][x.offset..]))
  {
    var front, rest := x.queue[0][x.offset..], x.queue[1..];
    PendingOfRest(rest);
    assert x.wire + (front + Concat(rest)) == (x.wire + front) + Concat(rest);
  }

  lemma PendingFront(x: Stream)
    requires x.queue != [] && x.offset <= |x.queue[0]|
    ensures Pending(x) == x.queue[0][x.offset..] + Concat(x.queue[1..])
  {
    hide Concat;
  }

  lemma PartSent(x: Stream, n: nat)
    requires Faithful(x) && x.queue != [] && n < Asked(x)
    ensures Faithful(x.(offset := x.offset + n, wire := x.wire + x.queue[0][x.offset..x.offset + n]))
  {
    hide Concat, Pending;
    PendingFront(x);
    PendingFront(x.(offset := x.offset + n, wire := x.wire + x.queue[0][x.offset..x.offset + n]));
    Slide(x.wire, x.queue[0], x.offset, n, Concat(x.queue[1..]));
  }

  lemma Slide(w: bytes, c: bytes, at: nat, n: nat, rest: bytes)
    requires at + n <= |c|
    ensures w + (c[at..] + rest) == (w + c[at..at + n]) + (c[at + n..] + rest)
  {
    assert c[at..] == c[at..at + n] + c[at + n..];
  }

  lemma FlagsDoNotMatter(x: Stream)
    requires Faithful(x)
    ensures Faithful(x.(sending := false))
  {
  }

  lemma OffsetInside(x: Stream)
    requires Faithful(x) && x.queue != []
    ensures x.offset < |x.queue[0]|
  {
    hide Concat, Pending;
  }

  /** Partial sends neither lose nor repeat an octet. */
  lemma SendDoneFaithful(x: Stream, n: nat)
    requires Faithful(x)
    ensures Faithful(SendDone(x, n))
  {
    hide Faithful, Concat, Pending;
    var y := x.(sending := false);
    FlagsDoNotMatter(x);
    if x.queue != [] && n <= Asked(x) {
      OffsetInside(x);
      if n == Asked(x) {
        ChunkSent(y);
      } else {
        PartSent(y, n);
      }
    }
  }

  /** Exactly the octets that a completion reports go from pending to sent. */
  lemma SendDoneExact(x: Stream, n: nat)
    requires Faithful(x) && x.queue != [] && n <= Asked(x)
    ensures n <= |Pending(x)|
    ensures var y := SendDone(x, n);
            && y.wire == x.wire + Pending(x)[..n] && Pending(y) == Pending(x)[n..] && y.log == x.log && !y.sending
  {
    hide Faithful, Concat, Pending;
    OffsetInside(x);
    PendingFront(x);
    var front, rest, y := x.queue[0][x.offset..], Concat(x.queue[1..]), SendDone(x, n);
    CutFront(front, rest, n);
    if n == Asked(x) {
      PendingWhole(y);
      assert front[..n] == front && front[n..] + rest == rest;
    } else {
      PendingFront(y);
      assert front[..n] == x.queue[0][x.offset..x.offset + n] && front[n..] == x.queue[0][x.offset + n..];
    }
  }

  lemma CutFront(front: bytes, rest: bytes, n: nat)
    requires n <= |front|
    ensures (front + rest)[..n] == front[..n] && (front + rest)[n..] == front[n..] + rest
  {
  }

  lemma PendingWhole(x: Stream)
    requires x.offset == 0
    ensures Pending(x) == Concat(x.queue)
  {
    PendingOfRest(x.queue);
  }

  lemma PendingOfRest(rest: seq<bytes>)
    ensures rest != [] ==> rest[0][0..] + Concat(rest[1..]) == Concat(rest)
  {
    if rest != [] {
      assert rest[0][0..] == rest[0];
    }
  }

  /** What has been sent is a prefix of what was queued. */
  lemma SentIsPrefix(x: Stream)
    requires Faithful(x)
    ensures x.wire <= Concat(x.log)
  {
  }
}
