/** Fixed-width big-endian integers, as encoding/binary writes and reads them. */
module BigEndian {
  import opened Bytes

  function Pow256(width: nat): (r: nat)
    ensures r > 0
  {
    if width == 0 then 1 else 256 * Pow256(width - 1)
  }

  /** The `width` low bytes of `n`, most significant first. */
  function Encode(n: nat, width: nat): (bs: seq<Byte>)
    ensures |bs| == width
  {
    if width == 0 then [] else Encode(n / 256, width - 1) + [n % 256]
  }

  function Decode(bs: seq<Byte>): nat {
    if bs == [] then 0 else 256 * Decode(bs[..|bs| - 1]) + bs[|bs| - 1]
  }

  lemma {:induction false} DecodeEncode(n: nat, width: nat)
    requires n < Pow256(width)
    ensures Decode(Encode(n, width)) == n
  {
    if width > 0 {
      var bs := Encode(n, width);
      assert bs[..|bs| - 1] == Encode(n / 256, width - 1);
      DecodeEncode(n / 256, width - 1);
    }
  }

  lemma {:induction false} EncodeDecode(bs: seq<Byte>)
    ensures Decode(bs) < Pow256(|bs|)
    ensures Encode(Decode(bs), |bs|) == bs
  {
    if bs != [] {
      var front := bs[..|bs| - 1];
      EncodeDecode(front);
      assert Decode(bs) / 256 == Decode(front) && Decode(bs) % 256 == bs[|bs| - 1];
      assert bs == front + [bs[|bs| - 1]];
    }
  }

  lemma DivideTwice(n: nat, m: nat)
    requires m > 0
    ensures n / 256 / m == n / (256 * m)
  {
    var q := n / (256 * m);
    var rest := n % (256 * m);
    assert n == 256 * m * q + rest;
    assert n / 256 == m * q + rest / 256;
    assert rest / 256 < m;
    assert n / 256 == m * (n / 256 / m) + n / 256 % m;
    Multiples(n / 256 / m - q, m);
  }

  lemma Multiples(k: int, m: nat)
    ensures k >= 1 ==> m * k >= m
    ensures k <= -1 ==> m * k + m <= 0
  {
    if k >= 1 {
      assert m * k == m + m * (k - 1);
    } else if k <= -1 {
      assert m * k == m * (k + 1) - m;
    }
  }

  /** The byte order: byte `i` has weight 256^(width - 1 - i), so the first byte is the most significant. */
  lemma {:induction false} Digits(n: nat, width: nat, i: nat)
    requires i < width
    ensures Encode(n, width)[i] == n / Pow256(width - 1 - i) % 256
  {
    if i < width - 1 {
      Digits(n / 256, width - 1, i);
      DivideTwice(n, Pow256(width - 2 - i));
      assert Pow256(width - 1 - i) == 256 * Pow256(width - 2 - i);
    }
  }

  /** The same for reading: the first byte counts 256^(width - 1) times. */
  lemma {:induction false} MostSignificantFirst(bs: seq<Byte>)
    requires bs != []
    ensures Decode(bs) == bs[0] * Pow256(|bs| - 1) + Decode(bs[1..])
  {
    if |bs| > 1 {
      var front := bs[..|bs| - 1];
      MostSignificantFirst(front);
      assert bs[1..][..|bs| - 2] == front[1..];
      assert Pow256(|bs| - 1) == 256 * Pow256(|bs| - 2);
      assert 256 * (bs[0] * Pow256(|bs| - 2)) == bs[0] * Pow256(|bs| - 1);
    }
  }

  lemma Widths()
    ensures Pow256(1) == 0x100 && Pow256(2) == 0x1_0000 && Pow256(8) == 0x1_0000_0000_0000_0000
  {
    assert Pow256(3) == 0x100_0000 && Pow256(4) == 0x1_0000_0000;
    assert Pow256(5) == 0x100_0000_0000 && Pow256(6) == 0x1_0000_0000_0000;
    assert Pow256(7) == 0x100_0000_0000_0000;
  }
}
