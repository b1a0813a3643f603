/** Fixed-width big-endian numbers: UUIDs (16 bytes), sign counters (4) and length prefixes (2). */
module BigEndian {
  import opened Domain

  function Capacity(width: nat): (c: nat)
    ensures c > 0
  {
    if width == 0 then 1 else 256 * Capacity(width - 1)
  }

  function Encode(n: nat, width: nat): (s: Bytes)
    ensures |s| == width
  {
    if width == 0 then [] else Encode(n / 256, width - 1) + [(n % 256) as Byte]
  }

  function Decode(s: Bytes): nat {
    if s == [] then 0 else 256 * Decode(s[..|s| - 1]) + s[|s| - 1] as nat
  }

  lemma Digits(n: nat, c: nat)
    requires n < 256 * c
    ensures n == 256 * (n / 256) + n % 256 && n / 256 < c
  {
  }

  lemma {:induction false} DecodeEncode(n: nat, width: nat)
    requires n < Capacity(width)
    ensures Decode(Encode(n, width)) == n
  {
    if width > 0 {
      var high, low := n / 256, n % 256;
      Digits(n, Capacity(width - 1));
      DecodeEncode(high, width - 1);
      var s := Encode(n, width);
      assert s == Encode(high, width - 1) + [low as Byte];
      assert s[..width - 1] == Encode(high, width - 1);
    }
  }

  lemma {:induction false} EncodeDecode(s: Bytes)
    ensures Decode(s) < Capacity(|s|)
    ensures Encode(Decode(s), |s|) == s
  {
    if s != [] {
      EncodeDecode(s[..|s| - 1]);
      assert s == s[..|s| - 1] + [s[|s| - 1]];
    }
  }

  lemma DivTwice(n: nat, c: nat)
    requires c > 0
    ensures n / 256 / c == n / (256 * c)
  {
    var q, r := n / (256 * c), n % (256 * c);
    assert n == 256 * (c * q) + r && r == 256 * (r / 256) + r % 256;
    assert n / 256 == c * q + r / 256 && 0 <= r / 256 < c;
    Quotient(c * q + r / 256, c, q, r / 256);
  }

  lemma Apart(c: nat, d: nat, q: nat)
    requires d < q
    ensures c * q >= c * d + c
  {
    assert c * q == c * d + c * (q - d) && c * (q - d) == c + c * (q - d - 1);
  }

  lemma Quotient(n: nat, c: nat, q: nat, r: nat)
    requires c > 0 && n == c * q + r && r < c
    ensures n / c == q
  {
    var d, e := n / c, n % c;
    assert n == c * d + e && e < c;
    if d < q {
      Apart(c, d, q);
    } else if d > q {
      Apart(c, q, d);
    }
  }

  /** The order of the bytes: the first is the most significant. */
  lemma {:induction false} ByteAt(n: nat, width: nat, i: nat)
    requires i < width
    ensures Encode(n, width)[i] as nat == n / Capacity(width - 1 - i) % 256
  {
    if i == width - 1 {
      assert Capacity(0) == 1;
    } else {
      ByteAt(n / 256, width - 1, i);
      DivTwice(n, Capacity(width - 2 - i));
      assert Capacity(width - 1 - i) == 256 * Capacity(width - 2 - i);
    }
  }

  lemma Capacities()
    ensures Capacity(2) == 0x1_0000 && Capacity(4) == 0x1_0000_0000
  {
    assert Capacity(1) == 256 && Capacity(3) == 0x100_0000;
  }
}
