/** The header of a relayed datagram (section 7 of RFC 1928): read from the client, written towards it. */
module UdpHeader {
  import opened Bytes
  import opened SocksParser
  import opened SocksDialogue

  datatype Datagram = Datagram(frag: byte, addr: Address, port: u16, payload: bytes)

  /** Two reserved octets, whatever they are, then the fragment number, the destination and the payload. */
  function Print(reserved: bytes, d: Datagram): bytes
    requires ValidAddress(d.addr)
  {
    reserved + [d.frag] + PrintAddress(d.addr) + U16(d.port) + d.payload
  }

  function Parse(s: bytes): Option<Datagram> {
    if |s| < 4 then None
    else if s[3] == 1 then
      if |s| < 10 then None else Some(Datagram(s[2], V4(s[4..8]), ReadU16(s, 8), s[10..]))
    else if s[3] == 4 then
      if |s| < 22 then None else Some(Datagram(s[2], V6(s[4..20]), ReadU16(s, 20), s[22..]))
    else if s[3] == 3 then
      if |s| < 5 || s[4] == 0 || |s| < 7 + s[4] as int then None
      else
        var n := 5 + s[4] as int;
        Some(Datagram(s[2], Name(s[5..n]), ReadU16(s, n), s[n + 2..]))
    else None
  }

  /** The pieces of a datagram stand where they were put. */
  ghost predicate Layout(s: bytes, d: Datagram) {
    && ValidAddress(d.addr) && |s| >= 3 && s[2] == d.frag
    && var at := 3 + AddressLength(d.addr);
       at + 2 <= |s| && s[3..at] == PrintAddress(d.addr) && s[at..at + 2] == U16(d.port) && s[at + 2..] == d.payload
  }

  lemma PrintLayout(s: bytes, reserved: bytes, d: Datagram)
    requires ValidAddress(d.addr) && |reserved| == 2
    ensures s == Print(reserved, d) <==> Layout(s, d) && s[..2] == reserved
  {
    hide PrintAddress;
    var a := PrintAddress(d.addr);
    var at := 3 + |a|;
    if s == Print(reserved, d) {
      assert s[3..at] == a;
      assert s[at..at + 2] == U16(d.port);
      assert s[at + 2..] == d.payload;
      assert s[..2] == reserved;
    }
    if Layout(s, d) && s[..2] == reserved {
      assert s == s[..2] + [s[2]] + s[3..at] + s[at..at + 2] + s[at + 2..];
    }
  }

  lemma LayoutParses(s: bytes, d: Datagram)
    requires Layout(s, d)
    ensures Parse(s) == Some(d)
  {
    var at := 3 + AddressLength(d.addr);
    AddressLayout(s, d.addr);
    AtU16(s, at, d.port);
    hide PrintAddress;
  }

  lemma ParsesLayout(s: bytes, d: Datagram)
    requires Parse(s) == Some(d)
    ensures Layout(s, d)
  {
    var at := if d.addr.V4? then 8 else if d.addr.V6? then 20 else 5 + s[4] as int;
    ReadU16At(s, at);
    match d.addr
    case V4(b) => assert s[3..8] == [s[3]] + s[4..8];
    case V6(b) => assert s[3..20] == [s[3]] + s[4..20];
    case Name(b) => assert s[3..at] == [s[3], s[4]] + s[5..at];
  }

  /** Exactly the printed datagrams are accepted, and they are read as printed. */
  lemma ParseExact(s: bytes, d: Datagram)
    ensures Parse(s) == Some(d) <==> |s| >= 2 && ValidAddress(d.addr) && s == Print(s[..2], d)
  {
    hide Parse, Layout, PrintAddress, Print;
    if Parse(s) == Some(d) {
      ParsesLayout(s, d);
      LayoutShape(s, d);
      PrintLayout(s, s[..2], d);
    }
    if |s| >= 2 && ValidAddress(d.addr) && s == Print(s[..2], d) {
      PrintLayout(s, s[..2], d);
      LayoutParses(s, d);
    }
  }

  lemma LayoutShape(s: bytes, d: Datagram)
    requires Layout(s, d)
    ensures |s| >= 2 && ValidAddress(d.addr)
  {
  }

  /** The client's datagram, read in place; nothing at or past `length` is looked at. */
  method ParseClientPacket(data: array<byte>, length: nat) returns (r: Option<Datagram>)
    requires length <= data.Length
    ensures r == Parse(data[..length])
  {
    if length < 4 { return None; }
    var offset := 2;
    var frag := data[offset];
    offset := offset + 1;
    var atyp := data[offset];
    offset := offset + 1;
    var addr := V4([]);
    if atyp == 1 {
      if length < offset + 6 { return None; }
      addr := V4(data[offset..offset + 4]);
      offset := offset + 4;
    } else if atyp == 4 {
      if length < offset + 18 { return None; }
      addr := V6(data[offset..offset + 16]);
      offset := offset + 16;
    } else if atyp == 3 {
      if length < offset + 1 { return None; }
      var len := data[offset] as int;
      offset := offset + 1;
      if len == 0 || length < offset + len + 2 { return None; }
      addr := Name(data[offset..offset + len]);
      offset := offset + len;
    } else {
      return None;
    }
    var port: u16 := data[offset] as int * 256 + data[offset + 1] as int;
    offset := offset + 2;
    ghost var s := data[..length];
    assert atyp == 1 ==> addr == V4(s[4..8]);
    assert atyp == 4 ==> addr == V6(s[4..20]);
    assert atyp == 3 ==> addr == Name(s[5..5 + s[4] as int]);
    assert data[offset..length] == s[offset..];
    r := Some(Datagram(frag, addr, port, data[offset..length]));
  }

  /** A server's answer with the header that names the server; the source is always an IP address. */
  method BuildServerResponse(source: Address, port: u16, payload: bytes) returns (packet: bytes)
    requires ValidAddress(source) && !source.Name?
    ensures packet == Print([0, 0], Datagram(0, source, port, payload))
    ensures Parse(packet) == Some(Datagram(0, source, port, payload))
    ensures |packet| == (if source.V4? then 10 else 22) + |payload|
  {
    packet := [0, 0, 0];
    match source {
      case V4(b) => packet := packet + [1] + b;
      case V6(b) => packet := packet + [4] + b;
    }
    packet := packet + [port / 256, port % 256];
    packet := packet + payload;
    assert packet == Print([0, 0], Datagram(0, source, port, payload));
    ParseExact(packet, Datagram(0, source, port, payload));
    assert packet[..2] == [0, 0];
  }
}
