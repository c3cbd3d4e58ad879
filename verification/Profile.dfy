/** Sealed avatars: base64 with the standard alphabet (section 4 of RFC 4648), and the
    frame that hides the picture's type together with its bytes. */
module Profile {
  import opened Envelopes
  import opened Bits

  const PAD: Byte := 61

  // ----- Base64 as a relation -----

  /** A to Z, a to z, 0 to 9, plus and slash. */
  function Symbol(v: nat): Byte
    requires v < 64
  {
    if v < 26 then 65 + v else if v < 52 then 71 + v else if v < 62 then v - 4 else if v == 62 then 43 else 47
  }

  function Digit(c: Byte): (d: Option<nat>)
    ensures d.Some? ==> d.value < 64 && Symbol(d.value) == c
    ensures d == None ==> forall v :: 0 <= v < 64 ==> Symbol(v) != c
  {
    if 65 <= c <= 90 then Some(c - 65)
    else if 97 <= c <= 122 then Some(c - 71)
    else if 48 <= c <= 57 then Some(c + 4)
    else if c == 43 then Some(62)
    else if c == 47 then Some(63)
    else None
  }

  predicate Skipped(c: Byte) {
    c == PAD || c == 10 || c == 13
  }

  /** What is left when padding and line ends are skipped, wherever they are. */
  function Data(text: Bytes): Bytes {
    if text == [] then [] else Data(text[..|text| - 1]) + (if Skipped(text[|text| - 1]) then [] else [text[|text| - 1]])
  }

  predicate AllDigits(text: Bytes) {
    forall i :: 0 <= i < |text| ==> Digit(text[i]).Some?
  }

  function Values(text: Bytes): (vs: seq<nat>)
    requires AllDigits(text)
    ensures |vs| == |text| && forall i :: 0 <= i < |vs| ==> vs[i] < 64 && Symbol(vs[i]) == text[i]
  {
    seq(|text|, i requires 0 <= i < |text| => Digit(text[i]).value)
  }

  function Pads(count: nat): (p: Bytes)
    ensures |p| == count && forall i :: 0 <= i < count ==> p[i] == PAD
  {
    seq(count, _ => PAD)
  }

  function Padding(digits: nat): nat {
    (4 - digits % 4) % 4
  }

  /** The digits are the bytes' bits in sixes, the last six filled with zeros. */
  ghost predicate Spells(digits: Bytes, bytes: Bytes) {
    && AllDigits(digits) && 0 <= 6 * |digits| - 8 * |bytes| < 6
    && Fills(BitsOf(Values(digits), 6), BitsOf(bytes, 8))
  }

  ghost predicate IsBase64(bytes: Bytes, text: Bytes) {
    Spells(Data(text), bytes) && text == Data(text) + Pads(Padding(|Data(text)|))
  }

  /** The bytes are the digits' bits in eights; what is left over is not looked at. */
  ghost predicate IsDecoding(text: Bytes, bytes: Bytes) {
    var d := Data(text);
    && AllDigits(d) && 0 <= 6 * |d| - 8 * |bytes| < 8
    && BitsOf(bytes, 8) <= BitsOf(Values(d), 6)
  }

  lemma DecodingIsUnique(text: Bytes, a: Bytes, b: Bytes)
    requires IsDecoding(text, a) && IsDecoding(text, b)
    ensures a == b
  {
    assert |a| == |b| && BitsOf(a, 8) == BitsOf(b, 8);
    SmallPowers();
    BitsOfDetermine(a, b, 8);
  }

  lemma SpellsOnce(d: Bytes, e: Bytes, bytes: Bytes)
    requires Spells(d, bytes) && Spells(e, bytes)
    ensures d == e
  {
    assert Values(d) == Values(e) by {
      FilledAlike(BitsOf(Values(d), 6), BitsOf(Values(e), 6), BitsOf(bytes, 8));
      SmallPowers();
      BitsOfDetermine(Values(d), Values(e), 6);
    }
    forall i | 0 <= i < |d| ensures d[i] == e[i] {
      assert d[i] == Symbol(Values(d)[i]) && e[i] == Symbol(Values(e)[i]);
    }
  }

  lemma EncodingIsUnique(bytes: Bytes, t: Bytes, u: Bytes)
    requires IsBase64(bytes, t) && IsBase64(bytes, u)
    ensures t == u
  {
    SpellsOnce(Data(t), Data(u), bytes);
  }

  lemma {:induction false} DataOfDigits(digits: Bytes)
    requires AllDigits(digits)
    ensures Data(digits) == digits
  {
    if digits != [] {
      var n := |digits| - 1;
      assert AllDigits(digits[..n]);
      DataOfDigits(digits[..n]);
      assert Digit(digits[n]).Some?;
    }
  }

  lemma {:induction false} DataOfPadded(text: Bytes, count: nat)
    ensures Data(text + Pads(count)) == Data(text)
  {
    if count == 0 {
      assert text + Pads(0) == text;
    } else {
      assert (text + Pads(count))[..|text| + count - 1] == text + Pads(count - 1);
      DataOfPadded(text, count - 1);
    }
  }

  /** Decoding undoes encoding, for every byte string: the encoding of the bytes decodes to
      them and to nothing else. */
  lemma DecodeInvertsEncode(bytes: Bytes, text: Bytes, decoded: Bytes)
    requires IsBase64(bytes, text)
    ensures IsDecoding(text, decoded) <==> decoded == bytes
  {
    if IsDecoding(text, decoded) {
      DecodingIsUnique(text, bytes, decoded);
    }
  }

  lemma {:induction false} DataSum(a: Bytes, b: Bytes)
    ensures Data(a + b) == Data(a) + Data(b)
  {
    if b == [] {
      assert a + b == a;
    } else {
      assert (a + b)[..|a + b| - 1] == a + b[..|b| - 1];
      DataSum(a, b[..|b| - 1]);
    }
  }

  /** Padding and line ends may stand anywhere in a text: it decodes to the same with and
      without them. */
  lemma PaddingAnywhere(before: Bytes, c: Byte, after: Bytes, bytes: Bytes)
    requires Skipped(c)
    ensures IsDecoding(before + [c] + after, bytes) <==> IsDecoding(before + after, bytes)
  {
    DataSum(before + [c], after);
    DataSum(before, [c]);
    DataSum(before, after);
    assert Data([c]) == [] && Data(before) + [] == Data(before);
    assert Data(before + [c] + after) == Data(before + after);
  }

  /** Of the texts that are accepted, those that encoding produces: the padding at the end
      and no other skipped symbol, and nothing but zeros left over, less than a digit. */
  ghost predicate Canonical(text: Bytes) {
    var d := Data(text);
    && text == d + Pads(Padding(|d|))
    && AllDigits(d) && 6 * |d| % 8 < 6
    && forall i :: 6 * |d| / 8 * 8 <= i < 6 * |d| ==> !BitsOf(Values(d), 6)[i]
  }

  lemma AcceptedReencodes(text: Bytes, bytes: Bytes)
    requires IsDecoding(text, bytes)
    ensures IsBase64(bytes, text) <==> Canonical(text)
  {
    var d := Data(text);
    Eights(|bytes|, 6 * |d|);
  }

  /** Two texts with one decoding: the tail bits are not checked. */
  lemma TailBitsAreIgnored()
    ensures IsDecoding([81, 81, 61, 61], [65]) && IsDecoding([81, 82, 61, 61], [65])
  {
    OneByte([81, 81], [16, 16], 65);
    OneByte([81, 82], [16, 17], 65);
    assert [81, 81, 61, 61] == [81, 81] + Pads(2) && [81, 82, 61, 61] == [81, 82] + Pads(2);
    DataOfPadded([81, 81], 2);
    DataOfPadded([81, 82], 2);
    DataOfDigits([81, 81]);
    DataOfDigits([81, 82]);
  }

  lemma OneByte(digits: Bytes, vs: seq<nat>, byte: Byte)
    requires |digits| == 2 && AllDigits(digits) && Values(digits) == vs && byte == vs[0] * 4 + vs[1] / 16
    ensures BitsOf([byte], 8) <= BitsOf(vs, 6)
  {
    assert BitsOf(vs, 6) == ToBits(vs[0], 6) + ToBits(vs[1], 6) by { TwoBits(vs[0], vs[1], 6); assert vs == [vs[0], vs[1]]; }
    assert ToBits(vs[1], 6) == ToBits(vs[1] / 16, 2) + ToBits(vs[1], 4) by {
      Split(vs[1], 2, 4);
      Sixteenth(vs[1]);
    }
    assert ToBits(byte, 8) == ToBits(vs[0], 6) + ToBits(vs[1] / 16, 2) by {
      assert Shl(vs[0], 2) == 2 * Shl(vs[0], 1) == 4 * vs[0] && Pow2(2) == 2 * Pow2(1) == 4;
      Join(vs[0], 6, vs[1] / 16, 2);
    }
    assert BitsOf([byte], 8) == ToBits(byte, 8) by { BitsOfMore([], byte, 8); assert [byte] == [] + [byte]; }
    Associates(ToBits(vs[0], 6), ToBits(vs[1] / 16, 2), ToBits(vs[1], 4));
  }

  lemma Sixteenth(v: nat)
    ensures Shr(v, 4) == v / 16
  {
    assert Shr(v, 4) == Shr(v / 2, 3);
    assert Shr(v / 2, 3) == Shr(v / 2 / 2, 2);
    assert Shr(v / 2 / 2, 2) == v / 2 / 2 / 2 / 2;
  }

  lemma OneBits(a: nat, w: nat)
    ensures BitsOf([a], w) == ToBits(a, w)
  {
    BitsOfMore([], a, w);
    assert [a] == [] + [a];
  }

  lemma TwoBits(a: nat, b: nat, w: nat)
    ensures BitsOf([a, b], w) == ToBits(a, w) + ToBits(b, w)
  {
    OneBits(a, w);
    BitsOfMore([a], b, w);
    assert [a, b] == [a] + [b];
  }

  lemma ThreeBits(a: nat, b: nat, c: nat, w: nat)
    ensures BitsOf([a, b, c], w) == ToBits(a, w) + ToBits(b, w) + ToBits(c, w)
  {
    TwoBits(a, b, w);
    BitsOfMore([a, b], c, w);
    assert [a, b, c] == [a, b] + [c];
  }

  // ----- Encoding in threes -----

  function Word(chunk: Bytes): nat
    requires 1 <= |chunk| <= 3
  {
    Shl(Shl(chunk[0], 8) + (if |chunk| > 1 then chunk[1] else 0), 8) + (if |chunk| > 2 then chunk[2] else 0)
  }

  function SixAt(n: nat, shift: nat): (v: nat)
    ensures v < 64
  {
    SmallPowers();
    Mask(Shr(n, shift), 6)
  }

  /** The digits of one chunk, as many as its bytes need. */
  function Quad(chunk: Bytes): (q: Bytes)
    requires 1 <= |chunk| <= 3
    ensures |q| == |chunk| + 1
  {
    var n := Word(chunk);
    [Symbol(SixAt(n, 18)), Symbol(SixAt(n, 12))]
    + (if |chunk| > 1 then [Symbol(SixAt(n, 6))] else [])
    + (if |chunk| > 2 then [Symbol(SixAt(n, 0))] else [])
  }

  lemma ThreeBytes(a: Byte, b: Byte, c: Byte)
    ensures ToBits(a, 8) + ToBits(b, 8) + ToBits(c, 8) == ToBits(Shl(Shl(a, 8) + b, 8) + c, 24)
  {
    SmallPowers();
    Join(a, 8, b, 8);
    Join(Shl(a, 8) + b, 16, c, 8);
  }

  lemma FourSixes(n: nat)
    ensures ToBits(n, 24) == ToBits(SixAt(n, 18), 6) + ToBits(SixAt(n, 12), 6) + ToBits(SixAt(n, 6), 6) + ToBits(SixAt(n, 0), 6)
  {
    Six(n, 18);
    Six(n, 12);
    Six(n, 6);
    Six(n, 0);
    assert ToBits(n, 0) == [];
  }

  lemma Six(n: nat, shift: nat)
    ensures ToBits(n, 6 + shift) == ToBits(SixAt(n, shift), 6) + ToBits(n, shift)
  {
    Split(n, 6, shift);
    LowBits(Shr(n, shift), 6);
  }

  lemma OneChunk(a: Byte)
    ensures BitsOf([a], 8) + Zeros(16) == ToBits(Word([a]), 24)
  {
    ThreeBytes(a, 0, 0);
    OneBits(a, 8);
    TwoZeros(ToBits(a, 8));
  }

  lemma TwoChunk(a: Byte, b: Byte)
    ensures BitsOf([a, b], 8) + Zeros(8) == ToBits(Word([a, b]), 24)
  {
    ThreeBytes(a, b, 0);
    TwoBits(a, b, 8);
    ZeroBits(8);
  }

  lemma ThreeChunk(a: Byte, b: Byte, c: Byte)
    ensures BitsOf([a, b, c], 8) + Zeros(0) == ToBits(Word([a, b, c]), 24)
  {
    ThreeBytes(a, b, c);
    ThreeBits(a, b, c, 8);
    NoZeros(BitsOf([a, b, c], 8));
  }

  lemma BytesBits(chunk: Bytes)
    requires 1 <= |chunk| <= 3
    ensures BitsOf(chunk, 8) + Zeros(24 - 8 * |chunk|) == ToBits(Word(chunk), 24)
  {
    if |chunk| == 1 {
      assert chunk == [chunk[0]];
      OneChunk(chunk[0]);
    } else if |chunk| == 2 {
      assert chunk == [chunk[0], chunk[1]];
      TwoChunk(chunk[0], chunk[1]);
    } else {
      assert chunk == [chunk[0], chunk[1], chunk[2]];
      ThreeChunk(chunk[0], chunk[1], chunk[2]);
    }
  }

  lemma NoZeros(a: seq<bool>)
    ensures a + Zeros(0) == a
  {
  }

  lemma TwoZeros(a: seq<bool>)
    ensures a + ToBits(0, 8) + ToBits(0, 8) == a + Zeros(16)
  {
    ZeroBits(8);
  }

  function Sixes(n: nat, count: nat): (vs: seq<nat>)
    requires count <= 4
    ensures |vs| == count && forall i :: 0 <= i < count ==> vs[i] < 64
  {
    [SixAt(n, 18), SixAt(n, 12), SixAt(n, 6), SixAt(n, 0)][..count]
  }

  lemma SixesBits(n: nat, count: nat)
    requires count <= 4
    ensures BitsOf(Sixes(n, count), 6) == ToBits(n, 24)[..6 * count]
  {
    FourSixes(n);
    var vs := Sixes(n, 4);
    FourBits(vs[0], vs[1], vs[2], vs[3], 6);
    assert vs == [vs[0], vs[1], vs[2], vs[3]];
    UptoPrefix(Sixes(n, count), vs, count, 6);
    UptoCut(vs, count, 4, 6);
  }

  lemma FourBits(a: nat, b: nat, c: nat, d: nat, w: nat)
    ensures BitsOf([a, b, c, d], w) == ToBits(a, w) + ToBits(b, w) + ToBits(c, w) + ToBits(d, w)
  {
    ThreeBits(a, b, c, w);
    BitsOfMore([a, b, c], d, w);
    assert [a, b, c, d] == [a, b, c] + [d];
  }

  lemma QuadSpells(chunk: Bytes)
    requires 1 <= |chunk| <= 3
    ensures Spells(Quad(chunk), chunk)
  {
    var n, count := Word(chunk), |chunk| + 1;
    forall i | 0 <= i < count ensures Digit(Quad(chunk)[i]) == Some(Sixes(n, count)[i]) {
      SymbolDigit(Sixes(n, count)[i]);
    }
    assert Values(Quad(chunk)) == Sixes(n, count);
    BytesBits(chunk);
    SixesBits(n, count);
    CutFill(ToBits(n, 24), BitsOf(chunk, 8), 24 - 8 * |chunk|, 6 * count);
  }

  lemma CutFill(all: seq<bool>, bits: seq<bool>, zeros: nat, cut: nat)
    requires all == bits + Zeros(zeros) && |bits| <= cut <= |all|
    ensures Fills(all[..cut], bits)
  {
  }

  lemma SymbolDigit(v: nat)
    requires v < 64
    ensures Digit(Symbol(v)) == Some(v)
  {
  }

  lemma ValuesSum(d: Bytes, e: Bytes)
    requires AllDigits(d) && AllDigits(e)
    ensures AllDigits(d + e) && BitsOf(Values(d + e), 6) == BitsOf(Values(d), 6) + BitsOf(Values(e), 6)
  {
    assert Values(d + e) == Values(d) + Values(e);
    BitsOfSum(Values(d), Values(e), 6);
  }

  lemma SpellsMore(digits: Bytes, bytes: Bytes, quad: Bytes, chunk: Bytes)
    requires 6 * |digits| == 8 * |bytes| && Spells(digits, bytes) && Spells(quad, chunk)
    ensures Spells(digits + quad, bytes + chunk)
  {
    ValuesSum(digits, quad);
    BitsOfSum(bytes, chunk, 8);
    assert BitsOf(Values(digits), 6) == BitsOf(bytes, 8);
    FillsBehind(BitsOf(bytes, 8), BitsOf(Values(quad), 6), BitsOf(chunk, 8));
  }

  lemma PaddedIsBase64(digits: Bytes, bytes: Bytes)
    requires Spells(digits, bytes)
    ensures IsBase64(bytes, digits + Pads(Padding(|digits|)))
  {
    DataOfPadded(digits, Padding(|digits|));
    DataOfDigits(digits);
  }

  lemma WholeChunks(k: nat)
    ensures Padding(4 * k) == 0
  {
  }

  lemma NoPads(digits: Bytes)
    ensures digits + Pads(0) == digits
  {
  }

  lemma PaddingAfter(quads: nat, count: nat)
    requires 1 <= count <= 3
    ensures Padding(4 * quads + count + 1) == 3 - count
  {
  }

  /** The text so far: whole chunks and nothing else, or all the bytes and their padding. */
  ghost predicate Encoded(bytes: Bytes, at: nat, k: nat, digits: Bytes, text: Bytes)
    requires at <= |bytes|
  {
    && Spells(digits, bytes[..at]) && text == digits + Pads(Padding(|digits|))
    && (at < |bytes| ==> at == 3 * k && |digits| == 4 * k)
  }

  lemma EncodeMore(bytes: Bytes, at: nat, k: nat, digits: Bytes, text: Bytes, chunk: Bytes, quad: Bytes)
    requires at < |bytes| && Encoded(bytes, at, k, digits, text)
    requires chunk == bytes[at..if at + 3 < |bytes| then at + 3 else |bytes|]
    requires Spells(quad, chunk) && |quad| == |chunk| + 1
    ensures Encoded(bytes, at + |chunk|, k + 1, digits + quad, text + quad + Pads(3 - |chunk|))
  {
    WholeChunks(k);
    NoPads(digits);
    assert Spells(digits + quad, bytes[..at + |chunk|]) by {
      SpellsMore(digits, bytes[..at], quad, chunk);
      Rejoin(bytes, at, at + |chunk|);
    }
    PaddingAfter(k, |chunk|);
    assert |digits + quad| == 4 * k + |chunk| + 1;
  }

  method EncodeChunk(chunk: Bytes) returns (quad: Bytes)
    requires 1 <= |chunk| <= 3
    ensures Spells(quad, chunk) && |quad| == |chunk| + 1
  {
    quad := Quad(chunk);
    QuadSpells(chunk);
  }

  /** Padding only ever ends the text: all chunks but the last are whole. */
  method Encode(bytes: Bytes) returns (text: Bytes)
    ensures IsBase64(bytes, text)
  {
    text := [];
    var at := 0;
    ghost var k, digits: Bytes := 0, [];
    WholeChunks(0);
    NoPads([]);
    while at < |bytes|
      invariant at <= |bytes| && Encoded(bytes, at, k, digits, text)
    {
      var chunk := bytes[at..if at + 3 < |bytes| then at + 3 else |bytes|];
      var quad := EncodeChunk(chunk);
      EncodeMore(bytes, at, k, digits, text, chunk, quad);
      text := text + quad + Pads(3 - |chunk|);
      at, k, digits := at + |chunk|, k + 1, digits + quad;
    }
    assert bytes[..at] == bytes;
    PaddedIsBase64(digits, bytes);
  }

  lemma Rejoin(bytes: Bytes, at: nat, end: nat)
    requires at <= end <= |bytes|
    ensures bytes[..at] + bytes[at..end] == bytes[..end]
  {
  }

  // ----- Decoding symbol by symbol -----

  lemma ValuesMore(digits: Bytes, c: Byte)
    requires AllDigits(digits) && Digit(c).Some?
    ensures AllDigits(digits + [c])
    ensures BitsOf(Values(digits + [c]), 6) == BitsOf(Values(digits), 6) + ToBits(Digit(c).value, 6)
  {
    assert Values(digits + [c]) == Values(digits) + [Digit(c).value];
    BitsOfMore(Values(digits), Digit(c).value, 6);
  }

  lemma FeedDigit(out: Bytes, bits: nat, have: nat, all: seq<bool>, v: nat)
    requires have < 8 && v < 64 && Gathered(out, bits, have, all)
    ensures Gathered(out, Mask(Shl(bits, 6), 32) + v, have + 6, all + ToBits(v, 6))
  {
    assert v < Pow2(6) by { SmallPowers(); }
    ShiftIn(BitsOf(out, 8), bits, have, v, 6, 26);
  }

  method Decode(text: Bytes) returns (r: Option<Bytes>)
    ensures r.Some? ==> IsDecoding(text, r.value)
    ensures r == None <==> !AllDigits(Data(text))
  {
    var out: Bytes := [];
    var bits: nat, have: nat := 0, 0;
    ghost var digits: Bytes, all: seq<bool> := [], [];
    for i := 0 to |text|
      invariant digits == Data(text[..i]) && AllDigits(digits) && all == BitsOf(Values(digits), 6)
      invariant have < 8 && 8 * |out| + have == 6 * |digits|
      invariant Gathered(out, bits, have, all)
    {
      DataStep(text, i);
      if Skipped(text[i]) { continue; }
      var value := Digit(text[i]);
      if value == None {
        DataKeeps(text, i);
        return None;
      }
      ValuesMore(digits, text[i]);
      out, bits, have := Accumulate(out, bits, have, value.value, all);
      digits, all := digits + [text[i]], all + ToBits(value.value, 6);
    }
    assert text[..|text|] == text;
    r := Some(out);
  }

  /** One more digit, and the byte it completes. */
  method Accumulate(out: Bytes, bits: nat, have: nat, digit: nat, ghost all: seq<bool>)
      returns (out': Bytes, bits': nat, have': nat)
    requires have < 8 && digit < 64 && Gathered(out, bits, have, all)
    ensures have' < 8 && 8 * |out'| + have' == 8 * |out| + have + 6
    ensures Gathered(out', bits', have', all + ToBits(digit, 6))
  {
    FeedDigit(out, bits, have, all, digit);
    bits' := Mask(Shl(bits, 6), 32) + digit;
    out', have' := EmitFull(out, bits', have + 6, all + ToBits(digit, 6));
  }

  lemma DataStep(text: Bytes, i: nat)
    requires i < |text|
    ensures Data(text[..i + 1]) == Data(text[..i]) + (if Skipped(text[i]) then [] else [text[i]])
  {
    assert text[..i + 1][..i] == text[..i];
  }

  lemma {:induction false} DataKeeps(text: Bytes, i: nat)
    requires i < |text| && !Skipped(text[i])
    ensures text[i] in Data(text)
  {
    if i < |text| - 1 {
      DataKeeps(text[..|text| - 1], i);
    }
  }

  /** The two loops one after the other give every byte string back. */
  method EncodeThenDecode(bytes: Bytes) returns (decoded: Option<Bytes>)
    ensures decoded == Some(bytes)
  {
    var text := Encode(bytes);
    decoded := Decode(text);
    DecodeInvertsEncode(bytes, text, bytes);
    DecodeInvertsEncode(bytes, text, decoded.value);
  }

  // ----- Sealing -----

  /** What is sealed: one byte for the length of the type, the type, the picture. */
  function Frame(mime: Bytes, image: Bytes): Bytes
    requires |mime| < 256
  {
    [|mime|] + mime + image
  }

  /** `cipher` seals under the profile's key; it is only known to be undone by opening. */
  ghost predicate IsSealed(cipher: Bytes -> Bytes, mime: Bytes, image: Bytes, text: Bytes) {
    |mime| < 256 && IsBase64(cipher(Frame(mime, image)), text)
  }

  method Seal(cipher: Bytes -> Bytes, mime: Bytes, imageText: Bytes) returns (r: Option<Bytes>, ghost image: Bytes)
    ensures r == None <==> |mime| > 255 || !AllDigits(Data(imageText))
    ensures r.Some? ==> IsDecoding(imageText, image) && IsSealed(cipher, mime, image, r.value)
  {
    image := [];
    var decoded := Decode(imageText);
    if decoded == None || |mime| > 255 { return None, []; }
    image := decoded.value;
    var plain := [|mime|] + mime + decoded.value;
    assert plain == Frame(mime, decoded.value);
    var text := Encode(cipher(plain));
    r := Some(text);
  }

  /** A text opens as a type and a picture when its decoding opens to their frame. */
  ghost predicate Opens(decipher: Bytes -> Option<Bytes>, text: Bytes, mime: Bytes, image: Bytes) {
    exists sealed :: IsDecoding(text, sealed) && |mime| < 256 && decipher(sealed) == Some(Frame(mime, image))
  }

  method Open(decipher: Bytes -> Option<Bytes>, isText: Bytes -> bool, text: Bytes)
      returns (r: Option<(Bytes, Bytes)>, ghost image: Bytes)
    ensures r.Some? ==>
      Opens(decipher, text, r.value.0, image) && isText(r.value.0) && IsBase64(image, r.value.1)
    ensures r == None ==> forall m, i :: Opens(decipher, text, m, i) ==> !isText(m)
  {
    image := [];
    var sealed := Decode(text);
    if sealed == None { return None, []; }
    var plain := decipher(sealed.value);
    forall m, i | Opens(decipher, text, m, i) ensures |m| < 256 && plain == Some(Frame(m, i)) {
      var s :| IsDecoding(text, s) && decipher(s) == Some(Frame(m, i));
      DecodingIsUnique(text, s, sealed.value);
    }
    if plain == None || plain.value == [] { return None, []; }
    var length: nat := plain.value[0];
    if |plain.value| < 1 + length { return None, []; }
    var mime := plain.value[1..1 + length];
    forall m, i | |m| < 256 && plain == Some(Frame(m, i)) ensures m == mime {
      assert Frame(m, i)[0] == |m| && Frame(m, i)[1..1 + |m|] == m;
    }
    if !isText(mime) { return None, []; }
    image := plain.value[1 + length..];
    assert plain.value == Frame(mime, image);
    var shown := Encode(plain.value[1 + length..]);
    r := Some((mime, shown));
  }

  /** Opening undoes sealing: the same type, and the canonical text of the same picture,
      which is the text that was sealed if that was canonical. */
  method SealThenOpen(cipher: Bytes -> Bytes, decipher: Bytes -> Option<Bytes>, isText: Bytes -> bool,
                      mime: Bytes, imageText: Bytes) returns (r: Option<(Bytes, Bytes)>)
    requires forall plain :: decipher(cipher(plain)) == Some(plain)
    requires isText(mime)
    ensures r == None <==> |mime| > 255 || !AllDigits(Data(imageText))
    ensures r.Some? ==> r.value.0 == mime && Canonical(r.value.1) && (Canonical(imageText) ==> r.value.1 == imageText)
    ensures r.Some? ==> exists image :: IsDecoding(imageText, image) && IsDecoding(r.value.1, image)
  {
    var sealed, image := Seal(cipher, mime, imageText);
    if sealed == None { return None; }
    DecodeInvertsEncode(cipher(Frame(mime, image)), sealed.value, cipher(Frame(mime, image)));
    assert Opens(decipher, sealed.value, mime, image);
    ghost var found: Bytes;
    r, found := Open(decipher, isText, sealed.value);
    OneFrame(decipher, sealed.value, mime, image, r.value.0, found);
    DecodeInvertsEncode(image, r.value.1, image);
    AcceptedReencodes(r.value.1, image);
    AcceptedReencodes(imageText, image);
    if Canonical(imageText) { EncodingIsUnique(image, imageText, r.value.1); }
  }

  lemma OneFrame(decipher: Bytes -> Option<Bytes>, text: Bytes, m: Bytes, i: Bytes, m': Bytes, i': Bytes)
    requires Opens(decipher, text, m, i) && Opens(decipher, text, m', i')
    ensures m == m' && i == i'
  {
    var s :| IsDecoding(text, s) && decipher(s) == Some(Frame(m, i));
    var s' :| IsDecoding(text, s') && decipher(s') == Some(Frame(m', i'));
    DecodingIsUnique(text, s, s');
    assert Frame(m, i)[0] == |m| && Frame(m', i')[0] == |m'|;
    assert Frame(m, i)[1..1 + |m|] == m && Frame(m', i')[1..1 + |m'|] == m';
    assert Frame(m, i)[1 + |m|..] == i && Frame(m', i')[1 + |m'|..] == i';
  }
}
