/** Fixed-width big-endian numbers and length-prefixed fields, as the byte formats use
    them. */
module Fields {
  import opened Envelopes

  function Pow256(k: nat): (p: nat)
    ensures p > 0
  {
    if k == 0 then 1 else 256 * Pow256(k - 1)
  }

  const U32 := 0x1_0000_0000
  const U64 := 0x1_0000_0000_0000_0000

  lemma Widths()
    ensures Pow256(4) == U32 && Pow256(8) == U64
  {
    assert Pow256(2) == 0x1_0000;
    assert Pow256(6) == 0x1_0000_0000_0000;
  }

  function BigEndian(n: nat, k: nat): (b: Bytes)
    ensures |b| == k
  {
    if k == 0 then [] else BigEndian(n / 256, k - 1) + [n % 256]
  }

  function FromBigEndian(b: Bytes): nat {
    if b == [] then 0 else FromBigEndian(b[..|b| - 1]) * 256 + b[|b| - 1]
  }

  lemma {:induction false} NumberRoundTrip(n: nat, k: nat)
    requires n < Pow256(k)
    ensures FromBigEndian(BigEndian(n, k)) == n
  {
    if k > 0 {
      NumberRoundTrip(n / 256, k - 1);
      var b := BigEndian(n, k);
      assert b[..k - 1] == BigEndian(n / 256, k - 1);
    }
  }

  lemma NumberDetermines(m: nat, n: nat, k: nat)
    requires m < Pow256(k) && n < Pow256(k) && BigEndian(m, k) == BigEndian(n, k)
    ensures m == n
  {
    NumberRoundTrip(m, k);
    NumberRoundTrip(n, k);
  }

  /** A field behind its length. */
  function Field(f: Bytes): Bytes {
    BigEndian(|f|, 8) + f
  }

  /** A length-prefixed field tells where it ends, whatever follows it. */
  lemma FieldDetermines(f: Bytes, g: Bytes, rest: Bytes, rest': Bytes)
    requires |f| < U64 && |g| < U64 && Field(f) + rest == Field(g) + rest'
    ensures f == g && rest == rest'
  {
    var a, b := Field(f) + rest, Field(g) + rest';
    Widths();
    assert a[..8] == BigEndian(|f|, 8) && b[..8] == BigEndian(|g|, 8);
    NumberDetermines(|f|, |g|, 8);
    assert a[8..8 + |f|] == f && b[8..8 + |g|] == g;
    assert a[8 + |f|..] == rest && b[8 + |g|..] == rest';
  }
}
