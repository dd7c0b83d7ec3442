/** Little-endian numbers, as encoding/binary writes them. */
module LittleEndian {
  import opened Basics
  import Priorities

  function Pow256(w: nat): (p: nat)
    ensures p > 0
  {
    if w == 0 then 1 else 256 * Pow256(w - 1)
  }

  function Encode(n: nat, w: nat): (s: Bytes)
    ensures |s| == w
  {
    if w == 0 then [] else [(n % 256) as byte] + Encode(n / 256, w - 1)
  }

  function Decode(s: Bytes): nat
  {
    if s == [] then 0 else s[0] as nat + 256 * Decode(s[1..])
  }

  /** The least significant byte comes first. */
  lemma {:induction false} EncodeAt(n: nat, w: nat, i: nat)
    requires i < w
    ensures Encode(n, w)[i] as nat == n / Pow256(i) % 256
  {
    if i > 0 {
      EncodeAt(n / 256, w - 1, i - 1);
      DivideTwice(n, Pow256(i - 1));
    }
  }

  lemma {:induction false} DivideTwice(n: nat, p: nat)
    requires p > 0
    ensures n / 256 / p == n / (256 * p)
  {
    var q := n / 256 / p;
    var s := n / 256 - q * p;
    assert 0 <= s < p;
    assert n == 256 * (q * p + s) + n % 256;
    assert 256 * (q * p) == (256 * p) * q;
    QuotientIs(n, 256 * p, q);
  }

  lemma {:induction false} QuotientIs(n: nat, d: nat, q: nat)
    requires d > 0 && d * q <= n < d * q + d
    ensures n / d == q
  {
    Priorities.DivBounds(n, d);
    Priorities.MulLonger(d, n / d, q);
    Priorities.MulLonger(d, q, n / d);
  }

  lemma {:induction false} DecodeEncode(n: nat, w: nat)
    requires n < Pow256(w)
    ensures Decode(Encode(n, w)) == n
  {
    if w > 0 {
      DecodeEncode(n / 256, w - 1);
      assert Encode(n, w)[1..] == Encode(n / 256, w - 1);
    }
  }

  lemma {:induction false} EncodeDecode(s: Bytes)
    ensures Decode(s) < Pow256(|s|) && Encode(Decode(s), |s|) == s
  {
    if s != [] {
      EncodeDecode(s[1..]);
      var d := Decode(s[1..]);
      assert Decode(s) == s[0] as nat + 256 * d;
      LowDigit(s[0] as nat, d);
    }
  }

  lemma LowDigit(b: nat, d: nat)
    requires b < 256
    ensures (b + 256 * d) % 256 == b && (b + 256 * d) / 256 == d
  {
  }

  lemma {:induction false} Widths()
    ensures Pow256(4) == 0x1_0000_0000 && Pow256(8) == 0x1_0000_0000_0000_0000
  {
    assert Pow256(2) == 0x1_0000;
    assert Pow256(4) == 0x1_0000_0000;
    assert Pow256(6) == 0x1_0000_0000_0000;
  }
}
