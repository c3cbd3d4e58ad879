/** Numbers as bit strings, most significant bit first. Both base32 and base64 are read
    against this: a text encodes bytes when the two are the same bits. What shifting and
    masking do to a register of bounded width is said here once, in those terms: the low
    bits are the ones that count, and what wraps away above them does not matter. */
module Bits {
  import opened Envelopes

  function Pow2(k: nat): (p: nat)
    ensures p > 0
  {
    if k == 0 then 1 else 2 * Pow2(k - 1)
  }

  /** The low `w` bits of a number. */
  function ToBits(v: nat, w: nat): (b: seq<bool>)
    ensures |b| == w
  {
    if w == 0 then [] else ToBits(v / 2, w - 1) + [v % 2 == 1]
  }

  function Zeros(n: nat): (b: seq<bool>)
    ensures |b| == n && forall i :: 0 <= i < n ==> !b[i]
  {
    seq(n, _ => false)
  }

  /** The first `n` numbers one after another, `w` bits each. */
  function Upto(vs: seq<nat>, n: nat, w: nat): (b: seq<bool>)
    requires n <= |vs|
    ensures |b| == n * w
  {
    if n == 0 then [] else Upto(vs, n - 1, w) + ToBits(vs[n - 1], w)
  }

  function BitsOf(vs: seq<nat>, w: nat): (b: seq<bool>)
    ensures |b| == |vs| * w
  {
    Upto(vs, |vs|, w)
  }

  lemma {:induction false} UptoPrefix(us: seq<nat>, vs: seq<nat>, n: nat, w: nat)
    requires n <= |us| <= |vs| && forall i :: 0 <= i < n ==> us[i] == vs[i]
    ensures Upto(us, n, w) == Upto(vs, n, w)
  {
    if n > 0 {
      UptoPrefix(us, vs, n - 1, w);
    }
  }

  /** The bits of the first numbers come first. */
  lemma {:induction false} UptoCut(vs: seq<nat>, m: nat, n: nat, w: nat)
    requires m <= n <= |vs|
    ensures m * w <= n * w && Upto(vs, m, w) == Upto(vs, n, w)[..m * w]
  {
    if m < n {
      UptoCut(vs, m, n - 1, w);
      assert (n - 1) * w + w == n * w;
      assert Upto(vs, n, w)[..m * w] == Upto(vs, n - 1, w)[..m * w];
    } else {
      assert Upto(vs, n, w)[..n * w] == Upto(vs, n, w);
    }
  }

  lemma BitsOfMore(vs: seq<nat>, v: nat, w: nat)
    ensures BitsOf(vs + [v], w) == BitsOf(vs, w) + ToBits(v, w)
  {
    UptoPrefix(vs, vs + [v], |vs|, w);
  }

  lemma {:induction false} BitsOfSum(us: seq<nat>, vs: seq<nat>, w: nat)
    ensures BitsOf(us + vs, w) == BitsOf(us, w) + BitsOf(vs, w)
  {
    if vs == [] {
      assert us + vs == us;
    } else {
      var init, last := vs[..|vs| - 1], vs[|vs| - 1];
      BitsOfSum(us, init, w);
      assert us + vs == us + init + [last] && vs == init + [last];
      BitsOfMore(us + init, last, w);
      BitsOfMore(init, last, w);
    }
  }

  /** `all` is `bits` and then nothing but zeros. */
  ghost predicate Fills(all: seq<bool>, bits: seq<bool>) {
    bits <= all && forall i :: |bits| <= i < |all| ==> !all[i]
  }

  lemma FilledAlike(all: seq<bool>, all': seq<bool>, bits: seq<bool>)
    requires Fills(all, bits) && Fills(all', bits) && |all| == |all'|
    ensures all == all'
  {
    forall i | 0 <= i < |all| ensures all[i] == all'[i] {
      if i < |bits| {
        assert all[i] == bits[i] && all'[i] == bits[i];
      }
    }
  }

  lemma FillsBehind(front: seq<bool>, all: seq<bool>, bits: seq<bool>)
    requires Fills(all, bits)
    ensures Fills(front + all, front + bits)
  {
  }

  lemma FillsWithZeros(bits: seq<bool>, n: nat)
    ensures Fills(bits + Zeros(n), bits)
  {
  }

  // ----- The machine's operations on a register -----

  function Shr(v: nat, k: nat): nat {
    if k == 0 then v else Shr(v / 2, k - 1)
  }

  function Shl(v: nat, k: nat): nat {
    if k == 0 then v else 2 * Shl(v, k - 1)
  }

  /** The low `w` bits, as a number. */
  function Mask(v: nat, w: nat): (m: nat)
    ensures m < Pow2(w)
  {
    if w == 0 then 0 else 2 * Mask(v / 2, w - 1) + v % 2
  }

  lemma {:induction false} Split(v: nat, high: nat, low: nat)
    ensures ToBits(v, high + low) == ToBits(Shr(v, low), high) + ToBits(v, low)
  {
    if low > 0 {
      Split(v / 2, high, low - 1);
    }
  }

  lemma {:induction false} Join(p: nat, k: nat, v: nat, w: nat)
    requires v < Pow2(w)
    ensures ToBits(p, k) + ToBits(v, w) == ToBits(Shl(p, w) + v, k + w)
  {
    if w > 0 {
      assert (Shl(p, w) + v) / 2 == Shl(p, w - 1) + v / 2 && (Shl(p, w) + v) % 2 == v % 2;
      Join(p, k, v / 2, w - 1);
    }
  }

  /** Only the low bits count. */
  lemma {:induction false} LowBits(v: nat, w: nat)
    ensures ToBits(Mask(v, w), w) == ToBits(v, w)
  {
    if w > 0 {
      LowBits(v / 2, w - 1);
    }
  }

  /** A register that drops its high bits keeps the low ones. */
  lemma {:induction false} WrapKeepsLow(v: nat, width: nat, w: nat)
    requires w <= width
    ensures ToBits(Mask(v, width), w) == ToBits(v, w)
  {
    if w > 0 {
      WrapKeepsLow(v / 2, width - 1, w - 1);
    }
  }

  /** Shifting left in a register drops what would not fit. */
  lemma {:induction false} ShlMask(v: nat, width: nat, k: nat)
    ensures Mask(Shl(v, k), width + k) == Shl(Mask(v, width), k)
  {
    if k > 0 {
      ShlMask(v, width, k - 1);
      assert Shl(v, k) / 2 == Shl(v, k - 1);
    }
  }

  /** Shifting a number in at the bottom of a register: whatever falls out at the top, the
      low bits are the ones that were there and then the new ones. */
  lemma TakeIn(register: nat, bits: nat, v: nat, w: nat, width: nat)
    requires bits <= width && v < Pow2(w)
    ensures ToBits(register, bits) + ToBits(v, w) == ToBits(Mask(Shl(register, w), width + w) + v, bits + w)
  {
    Join(Mask(register, width), bits, v, w);
    WrapKeepsLow(register, width, bits);
    ShlMask(register, width, w);
  }

  lemma ShiftIn(front: seq<bool>, register: nat, bits: nat, v: nat, w: nat, width: nat)
    requires bits <= width && v < Pow2(w)
    ensures front + ToBits(register, bits) + ToBits(v, w) == front + ToBits(Mask(Shl(register, w), width + w) + v, bits + w)
  {
    TakeIn(register, bits, v, w, width);
    Associates(front, ToBits(register, bits), ToBits(v, w));
  }

  /** The upper `w` of the waiting bits are written. */
  lemma ShiftOut(front: seq<bool>, register: nat, bits: nat, w: nat)
    ensures front + ToBits(register, bits + w) == front + ToBits(Mask(Shr(register, bits), w), w) + ToBits(register, bits)
  {
    Split(register, w, bits);
    LowBits(Shr(register, bits), w);
    Associates(front, ToBits(Shr(register, bits), w), ToBits(register, bits));
  }

  lemma Eights(n: nat, m: nat)
    requires 0 <= m - 8 * n < 8
    ensures m / 8 * 8 == 8 * n && m % 8 == m - 8 * n
  {
  }

  lemma Associates(a: seq<bool>, b: seq<bool>, c: seq<bool>)
    ensures a + b + c == a + (b + c)
  {
  }

  lemma {:induction false} ZeroBits(w: nat)
    ensures ToBits(0, w) == Zeros(w)
  {
    if w > 0 {
      ZeroBits(w - 1);
    }
  }

  /** Two numbers with the same bits are the same number. */
  lemma {:induction false} BitsDetermine(a: nat, b: nat, w: nat)
    requires a < Pow2(w) && b < Pow2(w) && ToBits(a, w) == ToBits(b, w)
    ensures a == b
  {
    if w > 0 {
      var x, y := ToBits(a / 2, w - 1), ToBits(b / 2, w - 1);
      assert ToBits(a, w)[..w - 1] == x && ToBits(b, w)[..w - 1] == y;
      assert ToBits(a, w)[w - 1] == ToBits(b, w)[w - 1];
      BitsDetermine(a / 2, b / 2, w - 1);
    }
  }

  lemma BitsOfDetermine(us: seq<nat>, vs: seq<nat>, w: nat)
    requires |us| == |vs| && BitsOf(us, w) == BitsOf(vs, w)
    requires forall i :: 0 <= i < |us| ==> us[i] < Pow2(w) && vs[i] < Pow2(w)
    ensures us == vs
  {
    UptoDetermines(us, vs, |us|, w);
  }

  lemma {:induction false} UptoDetermines(us: seq<nat>, vs: seq<nat>, n: nat, w: nat)
    requires n <= |us| == |vs| && Upto(us, n, w) == Upto(vs, n, w)
    requires forall i :: 0 <= i < |us| ==> us[i] < Pow2(w) && vs[i] < Pow2(w)
    ensures us[..n] == vs[..n]
  {
    if n > 0 {
      var x, y := Upto(us, n - 1, w), Upto(vs, n - 1, w);
      var a, b := ToBits(us[n - 1], w), ToBits(vs[n - 1], w);
      assert |x| == |y| && (x + a)[..|x|] == x && (y + b)[..|x|] == y && (x + a)[|x|..] == a && (y + b)[|x|..] == b;
      UptoDetermines(us, vs, n - 1, w);
      BitsDetermine(us[n - 1], vs[n - 1], w);
    }
  }

  lemma ZeroLow(v: nat, w: nat)
    ensures Mask(v, w) == 0 <==> ToBits(v, w) == Zeros(w)
  {
    LowBits(v, w);
    ZeroBits(w);
    if ToBits(v, w) == Zeros(w) {
      BitsDetermine(Mask(v, w), 0, w);
    }
  }

  lemma SmallPowers()
    ensures Pow2(5) == 32 && Pow2(6) == 64 && Pow2(8) == 256
  {
    assert Pow2(2) == 4 && Pow2(4) == 16;
  }

  // ----- Bytes out of a register -----

  /** The bytes so far, and the low bits of the register, are the bits that came in so far;
      whatever is above them is stale and of no consequence. */
  ghost predicate Gathered(out: Bytes, bits: nat, have: nat, all: seq<bool>) {
    BitsOf(out, 8) + ToBits(bits, have) == all
  }

  lemma EmitByte(out: Bytes, bits: nat, have: nat, all: seq<bool>)
    requires Gathered(out, bits, have + 8, all)
    ensures Pow2(8) == 256
    ensures Gathered(out + [Mask(Shr(bits, have), 8)], bits, have, all)
  {
    SmallPowers();
    ShiftOut(BitsOf(out, 8), bits, have, 8);
    BitsOfMore(out, Mask(Shr(bits, have), 8), 8);
  }

  /** The register gives its next byte as soon as it has one. */
  method EmitFull(out: Bytes, bits: nat, have: nat, ghost all: seq<bool>) returns (out': Bytes, have': nat)
    requires have < 16 && Gathered(out, bits, have, all)
    ensures have' < 8 && 8 * |out'| + have' == 8 * |out| + have && Gathered(out', bits, have', all)
  {
    out', have' := out, have;
    if have >= 8 {
      have' := have - 8;
      EmitByte(out, bits, have', all);
      out' := out + [Mask(Shr(bits, have'), 8)];
    }
  }
}
