/**
 Domain names on the wire: the label printer of a DNS query and the cursor that skips a
 name in a reply (sections 3.1 and 4.1.4 of RFC 1035).
 */
module DnsNames {
  import opened Bytes

  const DOT: byte := 46

  /** A length octet of 1 to 191 opens a label: the skipper does not stop at 63. */
  type lbl = l: bytes | 1 <= |l| < 192 witness [0]

  /** How a name ends: with the root label, or with a compression pointer. */
  datatype Tail = Root | Pointer(hi: byte, lo: byte)

  datatype WireName = WireName(labels: seq<lbl>, tail: Tail)

  /** A pointer has its two top bits set and points inside the message. */
  ghost predicate ValidName(n: WireName, length: nat) {
    n.tail.Pointer? ==> 192 <= n.tail.hi && (n.tail.hi - 192) as int * 256 + n.tail.lo as int < length
  }

  function PrintLabels(labels: seq<lbl>): bytes {
    if labels == [] then [] else [|labels[0]|] + labels[0] + PrintLabels(labels[1..])
  }

  function PrintTail(t: Tail): bytes {
    match t
    case Root => [0]
    case Pointer(hi, lo) => [hi, lo]
  }

  function PrintName(n: WireName): bytes {
    PrintLabels(n.labels) + PrintTail(n.tail)
  }

  /** A valid name stands in `b` between the two offsets. */
  ghost predicate NameAt(b: bytes, pos: nat, end: nat, n: WireName) {
    && ValidName(n, |b|)
    && end == pos + |PrintName(n)|
    && At(b, pos, PrintName(n))
  }

  /** The offset after the name at `pos`, or None where the cursor gives up. */
  function SkipFrom(b: bytes, pos: nat): (r: Option<nat>)
    ensures r.Some? ==> pos < r.value <= |b|
    decreases |b| - pos
  {
    if pos >= |b| then None
    else if b[pos] == 0 then Some(pos + 1)
    else if b[pos] >= 192 then
      if pos + 1 >= |b| || (b[pos] - 192) as int * 256 + b[pos + 1] as int >= |b| then None
      else Some(pos + 2)
    else if pos + b[pos] as int + 1 > |b| then None
    else SkipFrom(b, pos + b[pos] as int + 1)
  }

  /**
   The cursor loop, on a buffer that may be longer than the message: the answer is a
   function of the first `length` octets alone. The source's jump counter is left out,
   since its loop returns at the first pointer.
   */
  method SkipName(buffer: array<byte>, length: nat, start: nat) returns (r: Option<nat>)
    requires length <= buffer.Length
    ensures r == SkipFrom(buffer[..length], start)
  {
    var pos := start;
    ghost var b := buffer[..length];
    while true
      invariant SkipFrom(b, pos) == SkipFrom(b, start)
      invariant pos <= length || pos == start
      decreases length - pos
    {
      if pos >= length { return None; }
      var len := buffer[pos];
      assert b[pos] == len;
      if len == 0 { return Some(pos + 1); }
      if len >= 192 {
        if pos + 1 >= length { return None; }
        assert b[pos + 1] == buffer[pos + 1];
        var pointer := (len - 192) as int * 256 + buffer[pos + 1] as int;
        if pointer >= length { return None; }
        return Some(pos + 2);
      }
      if pos + len as int + 1 > length { return None; }
      pos := pos + len as int + 1;
    }
  }

  function Cons(l: lbl, n: WireName): WireName {
    WireName([l] + n.labels, n.tail)
  }

  lemma PrintCons(l: lbl, n: WireName)
    ensures PrintName(Cons(l, n)) == ([|l|] + l) + PrintName(n)
  {
    assert Cons(l, n).labels[1..] == n.labels;
  }

  /** One label, as the cursor sees it. */
  lemma LabelAt(b: bytes, pos: nat, l: lbl)
    ensures At(b, pos, [|l|] + l) <==>
              pos < |b| && b[pos] == |l| && pos + 1 + |l| <= |b| && b[pos + 1..pos + 1 + |l|] == l
  {
    AtSplit(b, pos, [|l|], l);
    if pos < |b| {
      assert b[pos..pos + 1] == [b[pos]];
    }
  }

  lemma TailAt(b: bytes, pos: nat, t: Tail)
    requires ValidName(WireName([], t), |b|) && At(b, pos, PrintTail(t))
    ensures SkipFrom(b, pos) == Some(pos + |PrintTail(t)|)
  {
    var p := PrintTail(t);
    assert b[pos] == b[pos..pos + |p|][0];
    if t.Pointer? {
      assert b[pos + 1] == b[pos..pos + |p|][1];
    }
  }

  /** Every valid name is skipped to its last octet. */
  lemma {:induction false} SkipComplete(b: bytes, pos: nat, n: WireName)
    requires ValidName(n, |b|) && At(b, pos, PrintName(n))
    ensures SkipFrom(b, pos) == Some(pos + |PrintName(n)|)
    decreases |n.labels|
  {
    if n.labels == [] {
      assert PrintName(n) == PrintTail(n.tail);
      TailAt(b, pos, n.tail);
    } else {
      var l := n.labels[0];
      var rest := WireName(n.labels[1..], n.tail);
      assert n == Cons(l, rest);
      PrintCons(l, rest);
      AtSplit(b, pos, [|l|] + l, PrintName(rest));
      LabelAt(b, pos, l);
      SkipComplete(b, pos + 1 + |l|, rest);
    }
  }

  lemma SoundTail(b: bytes, pos: nat) returns (n: WireName)
    requires pos < |b| && (b[pos] == 0 || b[pos] >= 192) && SkipFrom(b, pos).Some?
    ensures NameAt(b, pos, SkipFrom(b, pos).value, n)
  {
    if b[pos] == 0 {
      n := WireName([], Root);
      assert PrintName(n) == [0] == b[pos..pos + 1];
    } else {
      n := WireName([], Pointer(b[pos], b[pos + 1]));
      assert PrintName(n) == [b[pos], b[pos + 1]] == b[pos..pos + 2];
    }
  }

  /** Whatever is skipped was a valid name. */
  lemma {:induction false} SkipSound(b: bytes, pos: nat) returns (n: WireName)
    requires SkipFrom(b, pos).Some?
    ensures NameAt(b, pos, SkipFrom(b, pos).value, n)
    decreases |b| - pos
  {
    if b[pos] == 0 || b[pos] >= 192 {
      n := SoundTail(b, pos);
    } else {
      var next := pos + b[pos] as int + 1;
      var rest := SkipSound(b, next);
      n := ConsSound(b, pos, next, SkipFrom(b, next).value, rest);
    }
  }

  lemma ConsSound(b: bytes, pos: nat, next: nat, end: nat, rest: WireName) returns (n: WireName)
    requires pos < |b| && 1 <= b[pos] < 192 && next == pos + b[pos] as int + 1 <= |b|
    requires NameAt(b, next, end, rest)
    ensures NameAt(b, pos, end, n)
  {
    var l: lbl := b[pos + 1..next];
    n := Cons(l, rest);
    PrintCons(l, rest);
    LabelAt(b, pos, l);
    AtSplit(b, pos, [|l|] + l, PrintName(rest));
  }

  /** The cursor answers `end` exactly when a valid name stands between `pos` and `end`. */
  lemma SkipExact(b: bytes, pos: nat, end: nat)
    ensures SkipFrom(b, pos) == Some(end) <==> exists n :: NameAt(b, pos, end, n)
  {
    if SkipFrom(b, pos) == Some(end) {
      var n := SkipSound(b, pos);
    }
    forall n | NameAt(b, pos, end, n)
      ensures SkipFrom(b, pos) == Some(end)
    {
      SkipComplete(b, pos, n);
    }
  }

  // ----- The labels of a domain

  function FirstDot(s: bytes): (k: nat)
    ensures k <= |s|
    ensures k < |s| ==> s[k] == DOT
    ensures forall i :: 0 <= i < k ==> s[i] != DOT
  {
    if s == [] || s[0] == DOT then 0 else 1 + FirstDot(s[1..])
  }

  /** What reading up to the next dot, again and again, yields: no item after a final dot. */
  function Split(s: bytes): (r: seq<bytes>) {
    if s == [] then []
    else
      var k := FirstDot(s);
      if k == |s| then [s] else [s[..k]] + Split(s[k + 1..])
  }

  function Join(labels: seq<bytes>): bytes {
    if labels == [] then []
    else if |labels| == 1 then labels[0]
    else labels[0] + [DOT] + Join(labels[1..])
  }

  /** A domain without its one optional trailing dot. */
  function Undotted(s: bytes): bytes {
    if s != [] && s[|s| - 1] == DOT then s[..|s| - 1] else s
  }

  /** Joining the labels gives the domain back, one trailing dot aside. */
  lemma {:induction false} SplitJoin(s: bytes)
    ensures Join(Split(s)) == Undotted(s)
    ensures (Split(s) == []) == (s == [])
  {
    if s != [] {
      var k := FirstDot(s);
      hide FirstDot;
      if k < |s| {
        var rest := s[k + 1..];
        SplitJoin(rest);
        assert s == s[..k] + [DOT] + rest;
        if rest == [] {
          assert Undotted(s) == s[..k];
        } else {
          assert Split(s)[1..] == Split(rest);
          assert Undotted(s) == s[..k] + [DOT] + Undotted(rest);
        }
      }
    }
  }

  lemma {:induction false} PrintedLength(labels: seq<lbl>)
    requires labels != []
    ensures |PrintLabels(labels)| == |Join(labels)| + 1
  {
    if |labels| > 1 {
      PrintedLength(labels[1..]);
    } else {
      assert PrintLabels(labels[1..]) == [];
    }
  }

  /** What a resolver puts in a query: labels of 1 to 63 octets in at most 253. */
  predicate WellFormedDomain(domain: bytes) {
    && 1 <= |domain| <= 253
    && forall i :: 0 <= i < |Split(domain)| ==> 1 <= |Split(domain)[i]| <= 63
  }

  /** The labels read off the wire until the root label. */
  function ReadLabels(b: bytes, pos: nat): seq<bytes>
    decreases |b| - pos
  {
    if pos >= |b| || b[pos] == 0 || pos + b[pos] as int + 1 > |b| then []
    else [b[pos + 1..pos + b[pos] as int + 1]] + ReadLabels(b, pos + b[pos] as int + 1)
  }

  lemma {:induction false} ReadPrinted(b: bytes, pos: nat, labels: seq<lbl>)
    requires At(b, pos, PrintName(WireName(labels, Root)))
    ensures ReadLabels(b, pos) == labels
    decreases |labels|
  {
    if labels == [] {
      assert b[pos] == b[pos..pos + 1][0];
    } else {
      var l := labels[0];
      var rest := WireName(labels[1..], Root);
      assert WireName(labels, Root) == Cons(l, rest);
      PrintCons(l, rest);
      AtSplit(b, pos, [|l|] + l, PrintName(rest));
      LabelAt(b, pos, l);
      ReadPrinted(b, pos + 1 + |l|, labels[1..]);
    }
  }
}
