/**
 The query printer and the reply parser of the DNS client (section 4.1 of RFC 1035, with
 the OPT record of section 6.1.2 of RFC 6891). The parser is compared with a printer of
 whole messages that it never sees.
 */
module DnsMessages {
  import opened Bytes
  import opened DnsNames

  const INT_MAX: nat := 0x7fff_ffff

  // ----- Queries

  function QueryHeader(id: u16): (r: bytes)
    ensures |r| == 12
  {
    U16(id) + U16(0x0100) + U16(1) + U16(0) + U16(0) + U16(1)
  }

  /** The EDNS0 record: root name, type 41, 4096 octets of UDP payload, no data. */
  const OPT_RECORD: bytes := [0] + U16(41) + U16(4096) + [0, 0] + U16(0) + U16(0)

  ghost function QuestionName(domain: bytes): WireName
    requires WellFormedDomain(domain)
  {
    WireName(Split(domain), Root)
  }

  ghost function Query(domain: bytes, id: u16, qtype: u16): bytes
    requires WellFormedDomain(domain)
  {
    QueryHeader(id) + PrintName(QuestionName(domain)) + (U16(qtype) + U16(1) + OPT_RECORD)
  }

  /** The 255-octet guard after the labels: a domain that got this far is always under it. */
  lemma NameFits(domain: bytes)
    requires WellFormedDomain(domain)
    ensures |PrintName(QuestionName(domain))| == |Undotted(domain)| + 2 <= 255
  {
    SplitJoin(domain);
    PrintedLength(Split(domain));
  }

  lemma {:induction false} PrintLabelsSnoc(labels: seq<lbl>, l: lbl)
    ensures PrintLabels(labels + [l]) == PrintLabels(labels) + ([|l|] + l)
  {
    if labels == [] {
      assert PrintLabels([l]) == [|l|] + l + PrintLabels([l][1..]);
    } else {
      assert (labels + [l])[1..] == labels[1..] + [l];
      PrintLabelsSnoc(labels[1..], l);
    }
  }

  function After(s: bytes): (r: bytes)
    requires s != []
    ensures |r| < |s|
  {
    if FirstDot(s) == |s| then [] else s[FirstDot(s) + 1..]
  }

  lemma SplitStep(s: bytes)
    requires s != []
    ensures Split(s) == [s[..FirstDot(s)]] + Split(After(s))
  {
    if FirstDot(s) == |s| {
      assert s[..|s|] == s;
      assert Split([]) == [];
    }
  }

  lemma SplitNil()
    ensures Split([]) == [] && PrintLabels([]) == []
  {
  }

  /** The label loop alone: appends the printed labels of `domain`, or meets a bad label. */
  method AppendLabels(start: bytes, domain: bytes) returns (ok: bool, out: bytes)
    ensures ok <==> forall i :: 0 <= i < |Split(domain)| ==> 1 <= |Split(domain)[i]| <= 63
    ensures ok ==> out == start + PrintLabels(Split(domain))
  {
    hide Split, After, PrintLabels;
    SplitNil();
    out := start;
    var rest := domain;
    ghost var done: seq<lbl> := [];
    while rest != []
      invariant forall i :: 0 <= i < |done| ==> |done[i]| <= 63
      invariant Split(domain) == done + Split(rest)
      invariant out == start + PrintLabels(done)
      decreases |rest|
    {
      SplitStep(rest);
      var item := rest[..FirstDot(rest)];
      if item == [] || |item| > 63 {
        assert Split(domain)[|done|] == item;
        return false, out;
      }
      out := out + [|item|] + item;
      PrintLabelsSnoc(done, item);
      done := done + [item];
      rest := After(rest);
    }
    assert Split(domain) == done;
    ok := true;
  }

  /**
   Prints a query; None stands for the exceptions on a bad length or a bad label. The last
   of the source's three exceptions, on a name over 255 octets, has no branch here: NameFits
   is why it cannot be raised.
   */
  method BuildQuery(domain: bytes, id: u16, qtype: u16) returns (r: Option<bytes>)
    ensures r.Some? <==> WellFormedDomain(domain)
    ensures r.Some? ==> r.value == Query(domain, id, qtype)
  {
    if domain == [] || |domain| > 253 { return None; }
    var ok, out := AppendLabels(QueryHeader(id), domain);
    if !ok { return None; }
    NameFits(domain);
    r := Some(out + [0] + (U16(qtype) + U16(1) + OPT_RECORD));
  }

  /** A query read back: the name ends where the skipper says, and its labels are the domain. */
  lemma QueryRoundTrip(domain: bytes, id: u16, qtype: u16)
    requires WellFormedDomain(domain)
    ensures
      var q := Query(domain, id, qtype);
      && ReadU16(q, 0) == id
      && SkipFrom(q, 12) == Some(12 + |Undotted(domain)| + 2)
      && Join(ReadLabels(q, 12)) == Undotted(domain)
      && 12 + |Undotted(domain)| + 6 <= |q|
      && ReadU16(q, 12 + |Undotted(domain)| + 2) == qtype && ReadU16(q, 12 + |Undotted(domain)| + 4) == 1
      && q[2..12] == [1, 0, 0, 1, 0, 0, 0, 0, 0, 1]
      && q[12 + |Undotted(domain)| + 6..] == [0, 0, 41, 16, 0, 0, 0, 0, 0, 0, 0]
  {
    hide Split, WellFormedDomain, PrintName, ReadLabels, SkipFrom, Undotted, Join, U16, QueryHeader, At, ReadU16;
    var q, n := Query(domain, id, qtype), QuestionName(domain);
    NameFits(domain);
    SplitJoin(domain);
    Sections(q, QueryHeader(id), PrintName(n), U16(qtype) + U16(1) + OPT_RECORD);
    HeaderOctets(q, id);
    SkipComplete(q, 12, n);
    ReadPrinted(q, 12, Split(domain));
    TailOctets(q, 12 + |PrintName(n)|, qtype);
  }

  lemma Sections(q: bytes, h: bytes, n: bytes, t: bytes)
    requires q == h + n + t
    ensures At(q, 0, h) && At(q, |h|, n) && At(q, |h| + |n|, t) && |q| == |h| + |n| + |t|
  {
    assert q[|h|..|h| + |n|] == n && q[|h| + |n|..] == t;
  }

  lemma HeaderOctets(q: bytes, id: u16)
    requires At(q, 0, QueryHeader(id))
    ensures ReadU16(q, 0) == id && q[2..12] == [1, 0, 0, 1, 0, 0, 0, 0, 0, 1]
  {
    assert q[2..12] == q[..12][2..];
    assert q[0] == q[..12][0] && q[1] == q[..12][1];
  }

  lemma TailOctets(q: bytes, at: nat, qtype: u16)
    requires At(q, at, U16(qtype) + U16(1) + OPT_RECORD) && |q| == at + 15
    ensures ReadU16(q, at) == qtype && ReadU16(q, at + 2) == 1 && q[at + 4..] == [0, 0, 41, 16, 0, 0, 0, 0, 0, 0, 0]
  {
    AtSplit(q, at, U16(qtype) + U16(1), OPT_RECORD);
    AtSplit(q, at, U16(qtype), U16(1));
    AtU16(q, at, qtype);
    AtU16(q, at + 2, 1);
    assert q[at + 4..] == OPT_RECORD;
  }

  // ----- Replies

  datatype DnsResult = DnsResult(address: Option<bytes>, ttl: nat, truncated: bool, fromNetwork: bool)

  const INVALID: DnsResult := DnsResult(None, 30, false, false)

  type rdata = d: bytes | |d| < 0x1_0000

  datatype Record = Record(name: WireName, rtype: u16, rclass: u16, ttl: u32, rdata: rdata)

  /** A record that carries an address of the wanted type, in class IN. */
  predicate Matches(rclass: nat, rtype: nat, rdlen: nat, qtype: nat) {
    && rclass == 1
    && rtype == qtype
    && ((rtype == 1 && rdlen == 4) || (rtype == 28 && rdlen == 16))
  }

  function Capped(ttl: nat): nat {
    if ttl > INT_MAX then INT_MAX else ttl
  }

  function Least(a: nat, b: nat): nat {
    if a < b then a else b
  }

  function TtlOf(least: nat): nat {
    if least == INT_MAX then 30 else least
  }

  datatype Scan = Malformed | Found(addr: bytes, least: nat) | NoMatch(least: nat)

  function SkipQuestions(b: bytes, pos: nat, n: nat): (r: Option<nat>)
    ensures r.Some? ==> r.value <= |b| || n == 0
    decreases n
  {
    if n == 0 then Some(pos)
    else
      var p := SkipFrom(b, pos);
      if p.None? || p.value + 4 > |b| then None else SkipQuestions(b, p.value + 4, n - 1)
  }

  /** The fields of one answer record: where its data starts, and what precedes it. */
  datatype Head = BadHead | Head(rtype: u16, rclass: u16, ttl: u32, rdlen: u16, at: nat)

  function HeadAt(b: bytes, p: nat): (h: Head)
    requires p + 10 <= |b|
    ensures h.Head? ==> h.at + h.rdlen <= |b|
  {
    if p + 10 + ReadU16(b, p + 8) > |b| then BadHead
    else Head(ReadU16(b, p), ReadU16(b, p + 2), ReadU32(b, p + 4), ReadU16(b, p + 8), p + 10)
  }

  function RecordHead(b: bytes, pos: nat): (h: Head)
    ensures h.Head? ==> h.at + h.rdlen <= |b|
  {
    var s := SkipFrom(b, pos);
    if s.None? || s.value + 10 > |b| then BadHead else HeadAt(b, s.value)
  }

  function ScanAnswers(b: bytes, pos: nat, n: nat, least: nat, qtype: nat): Scan
    decreases n
  {
    if n == 0 then NoMatch(least)
    else
      match RecordHead(b, pos)
      case BadHead => Malformed
      case Head(rtype, rclass, ttl, rdlen, at) =>
        var now := Least(Capped(ttl), least);
        if Matches(rclass, rtype, rdlen, qtype) then Found(b[at..at + rdlen], now)
        else ScanAnswers(b, at + rdlen, n - 1, now, qtype)
  }

  function FromScan(scan: Scan, truncated: bool): DnsResult {
    match scan
    case Malformed => if truncated then DnsResult(None, 30, true, true) else INVALID
    case Found(a, least) => DnsResult(Some(a), TtlOf(least), truncated, true)
    case NoMatch(least) => DnsResult(None, TtlOf(least), truncated, true)
  }

  /** A reply (top bit), opcode 0: the two tests on the flag word. */
  predicate IsReply(flags: nat) {
    flags / 0x8000 % 2 == 1 && flags / 0x800 % 16 == 0
  }

  predicate Truncated(flags: nat) {
    flags / 0x200 % 2 == 1
  }

  function Parse(b: bytes, id: nat, qtype: nat): DnsResult {
    if |b| < 12 || ReadU16(b, 0) != id || !IsReply(ReadU16(b, 2)) then INVALID
    else
      var flags := ReadU16(b, 2);
      if flags % 16 != 0 then DnsResult(None, 30, Truncated(flags), flags % 16 == 3)
      else if ReadU16(b, 4) > 64 || ReadU16(b, 6) > 64 then INVALID
      else
        var q := SkipQuestions(b, 12, ReadU16(b, 4));
        FromScan(if q.None? then Malformed else ScanAnswers(b, q.value, ReadU16(b, 6), INT_MAX, qtype), Truncated(flags))
  }

  method ReadU16From(buffer: array<byte>, length: nat, i: nat) returns (n: u16)
    requires i + 2 <= length <= buffer.Length
    ensures n == ReadU16(buffer[..length], i)
  {
    n := buffer[i] as int * 256 + buffer[i + 1] as int;
  }

  method ReadHead(buffer: array<byte>, length: nat, pos: nat) returns (h: Head)
    requires length <= buffer.Length
    ensures h == RecordHead(buffer[..length], pos)
  {
    var s := SkipName(buffer, length, pos);
    if s.None? || s.value + 10 > length { return BadHead; }
    var p := s.value;
    var rtype := ReadU16From(buffer, length, p);
    var rclass := ReadU16From(buffer, length, p + 2);
    var hi := ReadU16From(buffer, length, p + 4);
    var lo := ReadU16From(buffer, length, p + 6);
    var rdlen := ReadU16From(buffer, length, p + 8);
    if p + 10 + rdlen > length { return BadHead; }
    h := Head(rtype, rclass, hi as int * 0x1_0000 + lo as int, rdlen, p + 10);
  }

  method SkipQuestionSection(buffer: array<byte>, length: nat, qd: nat) returns (r: Option<nat>)
    requires 12 <= length <= buffer.Length
    ensures r == SkipQuestions(buffer[..length], 12, qd)
    ensures r.Some? ==> r.value <= length
  {
    var pos: nat := 12;
    for i := 0 to qd
      invariant pos <= length
      invariant SkipQuestions(buffer[..length], 12, qd) == SkipQuestions(buffer[..length], pos, qd - i)
    {
      var next := SkipName(buffer, length, pos);
      if next.None? || next.value + 4 > length { return None; }
      pos := next.value + 4;
    }
    r := Some(pos);
  }

  /** The scan of `n + 1` records, by what the first of them is. */
  lemma ScanNext(b: bytes, pos: nat, n: nat, least: nat, qtype: nat)
    ensures var h, r := RecordHead(b, pos), ScanAnswers(b, pos, n + 1, least, qtype);
            && (h.BadHead? ==> r == Malformed)
            && (h.Head? ==>
                  var now := Least(Capped(h.ttl), least);
                  r == if Matches(h.rclass, h.rtype, h.rdlen, qtype) then Found(b[h.at..h.at + h.rdlen], now)
                       else ScanAnswers(b, h.at + h.rdlen, n, now, qtype))
  {
    hide RecordHead;
  }

  /** One record: the scan stops with it, or goes on behind it with the least TTL so far. */
  method ScanRecord(buffer: array<byte>, length: nat, pos: nat, least: nat, qtype: nat, ghost n: nat)
    returns (stop: Option<Scan>, next: nat, now: nat)
    requires length <= buffer.Length
    ensures ScanAnswers(buffer[..length], pos, n + 1, least, qtype)
            == if stop.Some? then stop.value else ScanAnswers(buffer[..length], next, n, now, qtype)
  {
    hide RecordHead, Capped, ScanAnswers, Matches;
    stop, next, now := None, pos, least;
    ScanNext(buffer[..length], pos, n, least, qtype);
    var h := ReadHead(buffer, length, pos);
    if h.BadHead? { return Some(Malformed), next, now; }
    var ttl := Capped(h.ttl);
    if ttl < least { now := ttl; }
    next := h.at + h.rdlen;
    if Matches(h.rclass, h.rtype, h.rdlen, qtype) {
      SliceOf(buffer, length, h.at, next);
      stop := Some(Found(buffer[h.at..next], now));
    }
  }

  method ScanAnswerSection(buffer: array<byte>, length: nat, first: nat, an: nat, qtype: nat) returns (r: Scan)
    requires first <= length <= buffer.Length
    ensures r == ScanAnswers(buffer[..length], first, an, INT_MAX, qtype)
  {
    hide ScanAnswers;
    var pos: nat := first;
    var least: nat := INT_MAX;
    for i := 0 to an
      invariant ScanAnswers(buffer[..length], first, an, INT_MAX, qtype) == ScanAnswers(buffer[..length], pos, an - i, least, qtype)
    {
      var stop: Option<Scan>;
      stop, pos, least := ScanRecord(buffer, length, pos, least, qtype, an - i - 1);
      if stop.Some? { return stop.value; }
    }
    r := NoMatch(least);
    ScanNone(buffer[..length], pos, least, qtype);
  }

  lemma SliceOf(buffer: array<byte>, length: nat, i: nat, j: nat)
    requires i <= j <= length <= buffer.Length
    ensures buffer[..length][i..j] == buffer[i..j]
  {
  }

  lemma ScanNone(b: bytes, pos: nat, least: nat, qtype: nat)
    ensures ScanAnswers(b, pos, 0, least, qtype) == NoMatch(least)
  {
  }

  /** The whole parser; no octet at or past `length` is read or matters. */
  method ParseResponse(buffer: array<byte>, length: nat, id: nat, qtype: nat) returns (r: DnsResult)
    requires length <= buffer.Length
    ensures r == Parse(buffer[..length], id, qtype)
  {
    if length < 12 { return INVALID; }
    var gotId := ReadU16From(buffer, length, 0);
    if gotId != id { return INVALID; }
    var flags := ReadU16From(buffer, length, 2);
    if flags / 0x8000 % 2 == 0 || flags / 0x800 % 16 != 0 { return INVALID; }
    var truncated := flags / 0x200 % 2 == 1;
    var rcode := flags % 16;
    if rcode != 0 { return DnsResult(None, 30, truncated, rcode == 3); }
    var qd := ReadU16From(buffer, length, 4);
    var an := ReadU16From(buffer, length, 6);
    if qd > 64 || an > 64 { return INVALID; }
    var first := SkipQuestionSection(buffer, length, qd);
    if first.None? { return FromScan(Malformed, truncated); }
    var scan := ScanAnswerSection(buffer, length, first.value, an, qtype);
    r := FromScan(scan, truncated);
  }

  // ----- Printed replies

  datatype Question = Question(name: WireName, qtype: u16, qclass: u16)

  /** Compression pointers stay inside a message of `length` octets. */
  ghost predicate ValidQuestions(qs: seq<Question>, length: nat) {
    forall q :: q in qs ==> ValidName(q.name, length)
  }

  ghost predicate ValidRecords(rs: seq<Record>, length: nat) {
    forall r :: r in rs ==> ValidName(r.name, length)
  }

  ghost function PrintQuestion(q: Question): bytes {
    PrintName(q.name) + (U16(q.qtype) + U16(q.qclass))
  }

  ghost function PrintQuestions(qs: seq<Question>): bytes {
    if qs == [] then [] else PrintQuestion(qs[0]) + PrintQuestions(qs[1..])
  }

  ghost function RecordFields(r: Record): (p: bytes)
    ensures |p| == 10
  {
    U16(r.rtype) + U16(r.rclass) + U32(r.ttl) + U16(|r.rdata|)
  }

  ghost function PrintRecord(r: Record): bytes {
    PrintName(r.name) + RecordFields(r) + r.rdata
  }

  ghost function PrintRecords(rs: seq<Record>): bytes {
    if rs == [] then [] else PrintRecord(rs[0]) + PrintRecords(rs[1..])
  }

  ghost predicate IsAnswer(r: Record, qtype: nat) {
    r.rclass == 1 && r.rtype == qtype && ((qtype == 1 && |r.rdata| == 4) || (qtype == 28 && |r.rdata| == 16))
  }

  /** The least TTL of some records, counted from an upper bound. */
  ghost function LeastTtl(rs: seq<Record>, bound: nat): (t: nat)
    ensures t <= bound
  {
    if rs == [] then bound else LeastTtl(rs[1..], Least(Capped(rs[0].ttl), bound))
  }

  /** It is a lower bound, and one of the values that it bounds. */
  lemma {:induction false} LeastTtlIsMinimum(rs: seq<Record>, bound: nat)
    requires bound <= 0x7fff_ffff
    ensures forall r :: r in rs ==> LeastTtl(rs, bound) <= r.ttl
    ensures LeastTtl(rs, bound) == bound || exists r :: r in rs && LeastTtl(rs, bound) == r.ttl
  {
    if rs != [] {
      var next := Least(Capped(rs[0].ttl), bound);
      LeastTtlIsMinimum(rs[1..], next);
      assert rs == [rs[0]] + rs[1..];
      assert LeastTtl(rs, bound) <= next;
      if LeastTtl(rs, bound) == next && next != bound {
        assert rs[0] in rs;
      }
    }
  }

  lemma {:induction false} SkipPrintedQuestions(b: bytes, pos: nat, qs: seq<Question>)
    requires ValidQuestions(qs, |b|)
    requires At(b, pos, PrintQuestions(qs))
    ensures SkipQuestions(b, pos, |qs|) == Some(pos + |PrintQuestions(qs)|)
    decreases |qs|
  {
    hide At, PrintQuestion, SkipFrom, ValidName;
    if qs != [] {
      AtSplit(b, pos, PrintQuestion(qs[0]), PrintQuestions(qs[1..]));
      SkipPrintedQuestion(b, pos, qs[0]);
      SkipPrintedQuestions(b, pos + |PrintQuestion(qs[0])|, qs[1..]);
    }
  }

  lemma SkipPrintedQuestion(b: bytes, pos: nat, q: Question)
    requires ValidName(q.name, |b|) && At(b, pos, PrintQuestion(q))
    ensures var p := SkipFrom(b, pos); p.Some? && p.value + 4 == pos + |PrintQuestion(q)| <= |b|
  {
    hide PrintName, SkipFrom, ValidName, U16;
    AtSplit(b, pos, PrintName(q.name), U16(q.qtype) + U16(q.qclass));
    SkipComplete(b, pos, q.name);
  }

  /** The fixed fields of a printed record, read back. */
  lemma ReadFields(b: bytes, p: nat, r: Record)
    requires At(b, p, RecordFields(r))
    ensures ReadU16(b, p) == r.rtype && ReadU16(b, p + 2) == r.rclass
    ensures ReadU32(b, p + 4) == r.ttl && ReadU16(b, p + 8) == |r.rdata|
  {
    AtSplit(b, p, U16(r.rtype) + U16(r.rclass) + U32(r.ttl), U16(|r.rdata|));
    AtSplit(b, p, U16(r.rtype) + U16(r.rclass), U32(r.ttl));
    AtSplit(b, p, U16(r.rtype), U16(r.rclass));
    AtU16(b, p, r.rtype);
    AtU16(b, p + 2, r.rclass);
    AtU32(b, p + 4, r.ttl);
    AtU16(b, p + 8, |r.rdata|);
  }

  /** A printed record is read field by field, up to its data. */
  lemma HeadOfPrinted(b: bytes, pos: nat, r: Record)
    requires ValidName(r.name, |b|) && At(b, pos, PrintRecord(r))
    ensures
      var at := pos + |PrintName(r.name)| + 10;
      && RecordHead(b, pos) == Head(r.rtype, r.rclass, r.ttl, |r.rdata|, at)
      && b[at..at + |r.rdata|] == r.rdata
      && pos + |PrintRecord(r)| == at + |r.rdata|
  {
    AtSplit(b, pos, PrintName(r.name) + RecordFields(r), r.rdata);
    AtSplit(b, pos, PrintName(r.name), RecordFields(r));
    SkipComplete(b, pos, r.name);
    ReadFields(b, pos + |PrintName(r.name)|, r);
  }

  /** Scanning one printed record: stop at an answer, step over anything else. */
  lemma ScanOne(b: bytes, pos: nat, r: Record, n: nat, least: nat, qtype: nat)
    requires n > 0 && ValidName(r.name, |b|) && At(b, pos, PrintRecord(r))
    ensures
      var now := Least(Capped(r.ttl), least);
      ScanAnswers(b, pos, n, least, qtype)
      == if IsAnswer(r, qtype) then Found(r.rdata, now)
         else ScanAnswers(b, pos + |PrintRecord(r)|, n - 1, now, qtype)
  {
    HeadOfPrinted(b, pos, r);
  }

  ghost function ScanResult(rs: seq<Record>, least: nat, qtype: nat): Scan {
    if rs != [] && IsAnswer(rs[|rs| - 1], qtype) then Found(rs[|rs| - 1].rdata, LeastTtl(rs, least))
    else NoMatch(LeastTtl(rs, least))
  }

  /**
   Scanning printed records: the first answer wins and carries the least TTL up to it; what
   follows it in the message is not looked at.
   */
  lemma {:induction false} ScanPrinted(b: bytes, pos: nat, rs: seq<Record>, n: nat, least: nat, qtype: nat)
    requires ValidRecords(rs, |b|)
    requires At(b, pos, PrintRecords(rs)) && |rs| <= n
    requires forall i :: 0 <= i < |rs| - 1 ==> !IsAnswer(rs[i], qtype)
    requires |rs| == n || (rs != [] && IsAnswer(rs[|rs| - 1], qtype))
    ensures ScanAnswers(b, pos, n, least, qtype) == ScanResult(rs, least, qtype)
    decreases |rs|
  {
    hide PrintRecord, At;
    if rs != [] {
      AtSplit(b, pos, PrintRecord(rs[0]), PrintRecords(rs[1..]));
      ScanOne(b, pos, rs[0], n, least, qtype);
      if |rs| > 1 {
        ScanPrinted(b, pos + |PrintRecord(rs[0])|, rs[1..], n - 1, Least(Capped(rs[0].ttl), least), qtype);
      } else {
        assert LeastTtl(rs[1..], Least(Capped(rs[0].ttl), least)) == Least(Capped(rs[0].ttl), least);
      }
    }
  }

  /** The octets of a reply up to record `rs[|rs| - 1]`, of the `an` records it announces. */
  ghost predicate ReplyUpTo(b: bytes, id: nat, flags: nat, qs: seq<Question>, rs: seq<Record>, an: nat) {
    && |b| >= 12 && ReadU16(b, 0) == id && ReadU16(b, 2) == flags
    && flags / 0x8000 % 2 == 1 && flags / 0x800 % 16 == 0 && flags % 16 == 0
    && ReadU16(b, 4) == |qs| <= 64 && ReadU16(b, 6) == an <= 64 && |rs| <= an
    && (ValidQuestions(qs, |b|))
    && (ValidRecords(rs, |b|))
    && At(b, 12, PrintQuestions(qs) + PrintRecords(rs))
  }

  /** Only the last of the records carries a wanted address. */
  ghost predicate EndsWithAnswer(rs: seq<Record>, qtype: nat) {
    && rs != [] && IsAnswer(rs[|rs| - 1], qtype)
    && forall i :: 0 <= i < |rs| - 1 ==> !IsAnswer(rs[i], qtype)
  }

  ghost predicate NoAnswer(rs: seq<Record>, qtype: nat) {
    forall i :: 0 <= i < |rs| ==> !IsAnswer(rs[i], qtype)
  }

  /** Every printed reply is understood: first answer, least TTL up to it, 30 at saturation. */
  lemma ParsePrinted(b: bytes, id: nat, flags: nat, qs: seq<Question>, rs: seq<Record>, an: nat, qtype: nat)
    requires ReplyUpTo(b, id, flags, qs, rs, an)
    requires EndsWithAnswer(rs, qtype) || (|rs| == an && NoAnswer(rs, qtype))
    ensures
      Parse(b, id, qtype)
      == DnsResult(if EndsWithAnswer(rs, qtype) then Some(rs[|rs| - 1].rdata) else None,
                   if LeastTtl(rs, INT_MAX) == 0x7fff_ffff then 30 else LeastTtl(rs, INT_MAX), flags / 0x200 % 2 == 1, true)
  {
    hide At, PrintQuestions, PrintRecords, LeastTtl, ScanAnswers, SkipQuestions;
    AtSplit(b, 12, PrintQuestions(qs), PrintRecords(rs));
    SkipPrintedQuestions(b, 12, qs);
    ScanPrinted(b, 12 + |PrintQuestions(qs)|, rs, an, INT_MAX, qtype);
  }

  lemma {:induction false} QuestionsSound(b: bytes, pos: nat, n: nat) returns (qs: seq<Question>)
    requires pos <= |b| && SkipQuestions(b, pos, n).Some?
    ensures |qs| == n && ValidQuestions(qs, |b|)
    ensures At(b, pos, PrintQuestions(qs))
    ensures SkipQuestions(b, pos, n).value == pos + |PrintQuestions(qs)|
    decreases n
  {
    hide At, PrintQuestion, SkipFrom, ValidName;
    qs := [];
    if n == 0 {
      NothingAt(b, pos);
    } else {
      var q := QuestionSound(b, pos);
      var rest := QuestionsSound(b, pos + |PrintQuestion(q)|, n - 1);
      qs := [q] + rest;
      assert qs[1..] == rest;
      AtSplit(b, pos, PrintQuestion(q), PrintQuestions(rest));
    }
  }

  lemma QuestionSound(b: bytes, pos: nat) returns (q: Question)
    requires var p := SkipFrom(b, pos); p.Some? && p.value + 4 <= |b|
    ensures ValidName(q.name, |b|) && At(b, pos, PrintQuestion(q)) && pos + |PrintQuestion(q)| == SkipFrom(b, pos).value + 4
  {
    hide PrintName, SkipFrom, ValidName, U16;
    var name := SkipSound(b, pos);
    var p := SkipFrom(b, pos).value;
    q := Question(name, ReadU16(b, p), ReadU16(b, p + 2));
    ReadU16At(b, p);
    ReadU16At(b, p + 2);
    AtSplit(b, p, U16(q.qtype), U16(q.qclass));
    AtSplit(b, pos, PrintName(name), U16(q.qtype) + U16(q.qclass));
  }

  lemma FieldsSound(b: bytes, p: nat, r: Record)
    requires p + 10 <= |b|
    requires r.rtype == ReadU16(b, p) && r.rclass == ReadU16(b, p + 2)
    requires r.ttl == ReadU32(b, p + 4) && |r.rdata| == ReadU16(b, p + 8)
    ensures At(b, p, RecordFields(r))
  {
    ReadU16At(b, p);
    ReadU16At(b, p + 2);
    ReadU32At(b, p + 4);
    ReadU16At(b, p + 8);
    AtSplit(b, p, U16(r.rtype), U16(r.rclass));
    AtSplit(b, p, U16(r.rtype) + U16(r.rclass), U32(r.ttl));
    AtSplit(b, p, U16(r.rtype) + U16(r.rclass) + U32(r.ttl), U16(|r.rdata|));
  }

  /** One record as it stands in the buffer. */
  lemma RecordSound(b: bytes, pos: nat) returns (r: Record)
    requires RecordHead(b, pos).Head?
    ensures ValidName(r.name, |b|) && At(b, pos, PrintRecord(r))
  {
    hide PrintName, U16, U32, ValidName, SkipFrom;
    var name := SkipSound(b, pos);
    var h := RecordHead(b, pos);
    r := Record(name, h.rtype, h.rclass, h.ttl, b[h.at..h.at + h.rdlen]);
    FieldsSound(b, h.at - 10, r);
    AtSplit(b, pos, PrintName(name), RecordFields(r));
    AtSplit(b, pos, PrintName(name) + RecordFields(r), r.rdata);
  }

  lemma {:induction false} ScanSound(b: bytes, pos: nat, n: nat, least: nat, qtype: nat) returns (rs: seq<Record>)
    requires ScanAnswers(b, pos, n, least, qtype).Found?
    ensures |rs| <= n && ValidRecords(rs, |b|)
    ensures At(b, pos, PrintRecords(rs)) && EndsWithAnswer(rs, qtype)
    decreases n
  {
    hide PrintRecord, At, RecordHead, ValidName;
    var r := RecordSound(b, pos);
    ScanOne(b, pos, r, n, least, qtype);
    if IsAnswer(r, qtype) {
      rs := [r];
      assert PrintRecords(rs[1..]) == [] && PrintRecords(rs) == PrintRecord(r);
    } else {
      var rest := ScanSound(b, pos + |PrintRecord(r)|, n - 1, Least(Capped(r.ttl), least), qtype);
      rs := [r] + rest;
      assert rs[1..] == rest;
      AtSplit(b, pos, PrintRecord(r), PrintRecords(rest));
    }
  }

  ghost predicate Believed(b: bytes, id: nat, qtype: nat, addr: bytes, qs: seq<Question>, rs: seq<Record>) {
    && |b| >= 12
    && ReplyUpTo(b, id, ReadU16(b, 2), qs, rs, ReadU16(b, 6))
    && EndsWithAnswer(rs, qtype)
    && rs[|rs| - 1].rdata == addr
  }

  lemma AddressSound(b: bytes, id: nat, qtype: nat) returns (qs: seq<Question>, rs: seq<Record>)
    requires Parse(b, id, qtype).address.Some?
    ensures Believed(b, id, qtype, Parse(b, id, qtype).address.value, qs, rs)
  {
    hide PrintQuestions, PrintRecords, ScanAnswers, SkipQuestions, LeastTtl, PrintRecord, U16;
    qs := QuestionsSound(b, 12, ReadU16(b, 4));
    rs := ScanSound(b, 12 + |PrintQuestions(qs)|, ReadU16(b, 6), INT_MAX, qtype);
    AtSplit(b, 12, PrintQuestions(qs), PrintRecords(rs));
    ParsePrinted(b, id, ReadU16(b, 2), qs, rs, ReadU16(b, 6), qtype);
  }

  /**
   An address comes out exactly when the octets are those of a reply whose records, up to
   one of them, print to the message and end with the first answer: nothing else is believed.
   */
  lemma AddressExact(b: bytes, id: nat, qtype: nat, addr: bytes)
    ensures Parse(b, id, qtype).address == Some(addr) <==> exists qs, rs :: Believed(b, id, qtype, addr, qs, rs)
  {
    if Parse(b, id, qtype).address == Some(addr) {
      var qs, rs := AddressSound(b, id, qtype);
    }
    forall qs, rs | Believed(b, id, qtype, addr, qs, rs)
      ensures Parse(b, id, qtype).address == Some(addr)
    {
      ParsePrinted(b, id, ReadU16(b, 2), qs, rs, ReadU16(b, 6), qtype);
    }
  }

  // ----- The server's word that there is no address

  lemma {:induction false} NoMatchSound(b: bytes, pos: nat, n: nat, least: nat, qtype: nat) returns (rs: seq<Record>)
    requires pos <= |b| && ScanAnswers(b, pos, n, least, qtype).NoMatch?
    ensures |rs| == n && ValidRecords(rs, |b|) && At(b, pos, PrintRecords(rs)) && NoAnswer(rs, qtype)
    decreases n
  {
    hide PrintRecord, At, RecordHead, ValidName, IsAnswer;
    if n == 0 {
      rs := [];
      NothingAt(b, pos);
    } else {
      var r := RecordSound(b, pos);
      ScanOne(b, pos, r, n, least, qtype);
      RecordInside(b, pos, r);
      var rest := NoMatchSound(b, pos + |PrintRecord(r)|, n - 1, Least(Capped(r.ttl), least), qtype);
      rs := [r] + rest;
      assert rs[1..] == rest;
      AtSplit(b, pos, PrintRecord(r), PrintRecords(rest));
    }
  }

  lemma NothingAt(b: bytes, pos: nat)
    requires pos <= |b|
    ensures At(b, pos, [])
  {
  }

  lemma RecordInside(b: bytes, pos: nat, r: Record)
    requires At(b, pos, PrintRecord(r))
    ensures pos + |PrintRecord(r)| <= |b|
  {
    hide PrintRecord;
  }

  /** A whole reply none of whose records is an answer. */
  ghost predicate Denied(b: bytes, id: nat, qtype: nat, qs: seq<Question>, rs: seq<Record>) {
    && |b| >= 12 && |rs| == ReadU16(b, 6)
    && ReplyUpTo(b, id, ReadU16(b, 2), qs, rs, ReadU16(b, 6))
    && NoAnswer(rs, qtype)
  }

  /** A reply to this query with the code for a name that does not exist. */
  predicate NameError(b: bytes, id: nat) {
    && |b| >= 12 && ReadU16(b, 0) == id
    && ReadU16(b, 2) / 0x8000 % 2 == 1 && ReadU16(b, 2) / 0x800 % 16 == 0 && ReadU16(b, 2) % 16 == 3
  }

  predicate Cut(b: bytes) {
    |b| >= 12 && ReadU16(b, 2) / 0x200 % 2 == 1
  }

  lemma DenialSound(b: bytes, id: nat, qtype: nat) returns (qs: seq<Question>, rs: seq<Record>)
    requires var r := Parse(b, id, qtype); r.address.None? && r.fromNetwork && !r.truncated
    requires !NameError(b, id)
    ensures Denied(b, id, qtype, qs, rs) && !Cut(b)
  {
    hide PrintQuestions, PrintRecords, ScanAnswers, SkipQuestions, LeastTtl, PrintRecord, U16;
    qs := QuestionsSound(b, 12, ReadU16(b, 4));
    QuestionsInside(b, qs);
    rs := NoMatchSound(b, 12 + |PrintQuestions(qs)|, ReadU16(b, 6), INT_MAX, qtype);
    AtSplit(b, 12, PrintQuestions(qs), PrintRecords(rs));
  }

  lemma QuestionsInside(b: bytes, qs: seq<Question>)
    requires At(b, 12, PrintQuestions(qs))
    ensures 12 + |PrintQuestions(qs)| <= |b|
  {
    hide PrintQuestions;
  }

  /**
   "There is no such record" is believed, whole and from the network, exactly for a reply that says
   so by its code, or that is whole, not cut, and has no answer among its records.
   */
  lemma DenialExact(b: bytes, id: nat, qtype: nat)
    ensures var r := Parse(b, id, qtype);
            r.address.None? && r.fromNetwork && !r.truncated <==>
            !Cut(b) && (NameError(b, id) || exists qs, rs :: Denied(b, id, qtype, qs, rs))
  {
    var r := Parse(b, id, qtype);
    if r.address.None? && r.fromNetwork && !r.truncated {
      if NameError(b, id) {
        assert !Cut(b);
      } else {
        var qs, rs := DenialSound(b, id, qtype);
      }
    }
    if !Cut(b) && NameError(b, id) {
      assert r == DnsResult(None, 30, false, true);
    }
    forall qs, rs | Denied(b, id, qtype, qs, rs) && !Cut(b)
      ensures r.address.None? && r.fromNetwork && !r.truncated
    {
      NoneEnds(rs, qtype);
      ParsePrinted(b, id, ReadU16(b, 2), qs, rs, ReadU16(b, 6), qtype);
    }
  }

  lemma NoneEnds(rs: seq<Record>, qtype: nat)
    requires NoAnswer(rs, qtype)
    ensures !EndsWithAnswer(rs, qtype)
  {
  }
}
