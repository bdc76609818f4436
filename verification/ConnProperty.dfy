/** The header that opens a stream: pattern, port, host length, host. */
module ConnProperties {
  import opened Bytes
  import BigEndian

  type Port = p: int | 0 <= p < 0x1_0000

  datatype ConnProperty = ConnProperty(pattern: Byte, host: seq<Byte>, port: Port)

  const MAX_HOST := 255
  const HEADER := 4

  function Encode(p: ConnProperty): Option<seq<Byte>> {
    if |p.host| > MAX_HOST then None
    else Some([p.pattern] + BigEndian.Encode(p.port, 2) + [|p.host| as Byte] + p.host)
  }

  /** Parse one header off the front of a byte stream; None when the stream ends inside it. */
  function Parse(s: seq<Byte>): Option<(ConnProperty, seq<Byte>)> {
    if |s| < HEADER || |s| < HEADER + s[3] then None
    else
      BigEndianFits(s[1..3]);
      Some((ConnProperty(s[0], s[HEADER..HEADER + s[3]], BigEndian.Decode(s[1..3])), s[HEADER + s[3]..]))
  }

  lemma BigEndianFits(bs: seq<Byte>)
    requires |bs| == 2
    ensures BigEndian.Decode(bs) < 0x1_0000
  {
    BigEndian.Widths();
    BigEndian.EncodeDecode(bs);
  }

  /**
   Encoding succeeds exactly for hosts of at most 255 bytes, and then parsing
   gives the property back and consumes exactly the header.
   */
  lemma RoundTrip(p: ConnProperty, tail: seq<Byte>)
    ensures Encode(p).Some? <==> |p.host| <= MAX_HOST
    ensures Encode(p).Some? ==> Parse(Encode(p).value + tail) == Some((p, tail))
  {
    if |p.host| <= MAX_HOST {
      var bs := Encode(p).value;
      var s := bs + tail;
      BigEndian.Widths();
      BigEndian.DecodeEncode(p.port, 2);
      assert s[1..3] == BigEndian.Encode(p.port, 2);
      assert s[0] == p.pattern && s[3] == |p.host|;
      assert s[HEADER..HEADER + |p.host|] == p.host;
      assert s[HEADER + |p.host|..] == tail;
    }
  }

  /**
   The header byte by byte: the pattern, the port with its high byte first, the
   length of the host, the host.
   */
  lemma HeaderLayout(p: ConnProperty)
    ensures Encode(p).None? <==> |p.host| > 255
    ensures Encode(p).Some? ==>
      var bs := Encode(p).value;
      && |bs| == 4 + |p.host|
      && bs[0] == p.pattern
      && bs[1] == p.port / 256 && bs[2] == p.port % 256
      && bs[3] == |p.host|
      && bs[4..] == p.host
  {
    BigEndian.Widths();
    BigEndian.Digits(p.port, 2, 0);
    BigEndian.Digits(p.port, 2, 1);
    assert BigEndian.Pow256(0) == 1;
  }

  /** Whatever parses is an encoding followed by the rest: the parser accepts nothing else. */
  lemma ParseInverts(s: seq<Byte>)
    ensures Parse(s).Some? ==>
      var (p, rest) := Parse(s).value;
      Encode(p).Some? && s == Encode(p).value + rest
  {
    if Parse(s).Some? {
      var (p, rest) := Parse(s).value;
      BigEndian.EncodeDecode(s[1..3]);
      assert s == [s[0]] + s[1..3] + [s[3]] + s[HEADER..HEADER + s[3]] + s[HEADER + s[3]..];
    }
  }

  /** Encodings are prefix-free. */
  lemma PrefixFree(p: ConnProperty, q: ConnProperty)
    requires Encode(p).Some? && Encode(q).Some? && Encode(p).value <= Encode(q).value
    ensures p == q
  {
    var tail := Encode(q).value[|Encode(p).value|..];
    assert Encode(q).value == Encode(p).value + tail;
    RoundTrip(p, tail);
    RoundTrip(q, []);
    assert Encode(q).value + [] == Encode(q).value;
  }

  /** A stream cut anywhere inside the header fails to parse. */
  lemma ProperPrefixFails(p: ConnProperty, k: nat)
    requires Encode(p).Some? && k < |Encode(p).value|
    ensures Parse(Encode(p).value[..k]) == None
  {
    var bs := Encode(p).value;
    assert bs[3] == |p.host|;
    if k >= HEADER {
      assert bs[..k][3] == bs[3];
    }
  }

  /** A connection whose bytes arrive in chunks of any size; it ends after the last one. */
  class Conn {
    var chunks: seq<seq<Byte>>

    constructor (arriving: seq<seq<Byte>>)
      ensures chunks == arriving
    {
      chunks := arriving;
    }

    ghost function Remaining(): seq<Byte>
      reads this
    {
      Flat(chunks)
    }

    /** One read of at most `want` bytes; `eof` only when nothing is left. */
    method Read(want: nat) returns (got: seq<Byte>, eof: bool)
      requires want > 0
      modifies this
      ensures |got| <= want
      ensures old(Remaining()) == got + Remaining()
      ensures eof <==> old(chunks) == []
      ensures eof ==> got == [] && chunks == []
      ensures !eof ==> got != [] || |chunks| < |old(chunks)|
    {
      if chunks == [] {
        return [], true;
      }
      var c := chunks[0];
      if |c| <= want {
        got, eof := c, false;
        chunks := chunks[1..];
      } else {
        got, eof := c[..want], false;
        ghost var before := chunks;
        chunks := [c[want..]] + chunks[1..];
        assert chunks[1..] == before[1..];
        assert c == c[..want] + c[want..];
        assert Flat(before) == c[..want] + (c[want..] + Flat(before[1..]));
      }
    }

    /** io.ReadFull. */
    method ReadFull(n: nat) returns (got: seq<Byte>, ok: bool)
      modifies this
      ensures ok <==> |old(Remaining())| >= n
      ensures ok ==> got == old(Remaining())[..n] && Remaining() == old(Remaining())[n..]
      ensures !ok ==> Remaining() == []
    {
      got, ok := [], true;
      while |got| < n && ok
        invariant |got| <= n
        invariant old(Remaining()) == got + Remaining()
        invariant !ok ==> chunks == [] && |got| < n
        decreases ok, n - |got|, |chunks|
      {
        var part, eof := Read(n - |got|);
        assert got + (part + Remaining()) == got + part + Remaining();
        got := got + part;
        if eof {
          ok := false;
        }
      }
    }
  }

  method EncodeConnProperty(p: ConnProperty) returns (r: Option<seq<Byte>>)
    ensures r == Encode(p)
    ensures r.Some? <==> |p.host| <= 255
    ensures r.Some? ==> r.value == [p.pattern, p.port / 256, p.port % 256, |p.host|] + p.host
  {
    HeaderLayout(p);
    if |p.host| > MAX_HOST {
      return None;
    }
    var buf: seq<Byte> := [];
    buf := buf + [p.pattern];
    buf := buf + BigEndian.Encode(p.port, 2);
    buf := buf + [|p.host| as Byte];
    buf := buf + p.host;
    assert buf == [p.pattern] + BigEndian.Encode(p.port, 2) + [|p.host| as Byte] + p.host;
    r := Some(buf);
  }

  /** The parser over a chunked connection does what Parse does on the bytes, however they are cut. */
  method ResolveConnProperty(conn: Conn) returns (r: Option<ConnProperty>)
    modifies conn
    ensures r.Some? <==> Parse(old(conn.Remaining())).Some?
    ensures r.Some? ==> Parse(old(conn.Remaining())) == Some((r.value, conn.Remaining()))
    ensures r.None? ==> conn.Remaining() == []
    ensures r.Some? ==>
      var s := old(conn.Remaining());
      && |s| >= 4
      && var size: nat := s[3];
      && |s| >= 4 + size && r.value.pattern == s[0] && r.value.port as int == 256 * (s[1] as int) + s[2] as int
      && r.value.host == s[4..4 + size] && conn.Remaining() == s[4 + size..]
  {
    ghost var s := conn.Remaining();
    var header, ok := conn.ReadFull(HEADER);
    if !ok {
      return None;
    }
    assert header[1..3] == s[1..3];
    BigEndianFits(header[1..3]);
    var hostLen := header[3];
    var host, ok2 := conn.ReadFull(hostLen);
    if !ok2 {
      return None;
    }
    assert s[HEADER..][..hostLen] == s[HEADER..HEADER + hostLen];
    assert s[HEADER..][hostLen..] == s[HEADER + hostLen..];
    BigEndian.Widths();
    BigEndian.MostSignificantFirst(header[1..3]);
    BigEndian.MostSignificantFirst(header[2..3]);
    assert header[1..3][1..] == header[2..3];
    r := Some(ConnProperty(header[0], host, BigEndian.Decode(header[1..3])));
  }
}
