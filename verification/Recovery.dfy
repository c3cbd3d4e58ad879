/** The recovery code: the identity key and a checksum in base32 (sections 3.5 and 6 of
    RFC 4648), written in groups, read back however it was copied down. */
module Recovery {
  import opened Envelopes
  import opened Bits

  const KEY_LEN := 32
  const CODE_LEN := 55
  const GROUP := 5
  const WORDS := 24

  // ----- Base32 as a relation -----

  /** A to Z, then 2 to 7. */
  function Symbol(v: nat): Byte
    requires v < 32
  {
    if v < 26 then 65 + v else 24 + v
  }

  function Digit(c: Byte): (d: Option<nat>)
    ensures d.Some? ==> d.value < 32 && Symbol(d.value) == c
    ensures d == None ==> forall v :: 0 <= v < 32 ==> Symbol(v) != c
  {
    if 65 <= c <= 90 then Some(c - 65) else if 50 <= c <= 55 then Some(c - 24) else None
  }

  predicate AllDigits(text: Bytes) {
    forall i :: 0 <= i < |text| ==> Digit(text[i]).Some?
  }

  function Values(text: Bytes): (vs: seq<nat>)
    requires AllDigits(text)
    ensures |vs| == |text| && forall i :: 0 <= i < |vs| ==> vs[i] < 32 && Symbol(vs[i]) == text[i]
  {
    seq(|text|, i requires 0 <= i < |text| => Digit(text[i]).value)
  }

  /** The text is the bytes' bits in fives, the last five filled with zeros. */
  ghost predicate IsBase32(bytes: Bytes, text: Bytes) {
    && AllDigits(text) && 0 <= 5 * |text| - 8 * |bytes| < 5
    && Fills(BitsOf(Values(text), 5), BitsOf(bytes, 8))
  }

  /** The bytes are the text's bits in eights, and what is left over is zero. */
  ghost predicate IsDecoding(text: Bytes, bytes: Bytes) {
    && AllDigits(text) && 0 <= 5 * |text| - 8 * |bytes| < 8
    && Fills(BitsOf(Values(text), 5), BitsOf(bytes, 8))
  }

  lemma DecodingIsUnique(text: Bytes, a: Bytes, b: Bytes)
    requires IsDecoding(text, a) && IsDecoding(text, b)
    ensures a == b
  {
    assert |a| == |b| && BitsOf(a, 8) == BitsOf(b, 8);
    SmallPowers();
    BitsOfDetermine(a, b, 8);
  }

  lemma EncodingIsUnique(bytes: Bytes, t: Bytes, u: Bytes)
    requires IsBase32(bytes, t) && IsBase32(bytes, u)
    ensures t == u
  {
    assert Values(t) == Values(u) by {
      FilledAlike(BitsOf(Values(t), 5), BitsOf(Values(u), 5), BitsOf(bytes, 8));
      SmallPowers();
      BitsOfDetermine(Values(t), Values(u), 5);
    }
    forall i | 0 <= i < |t| ensures t[i] == u[i] {
      assert t[i] == Symbol(Values(t)[i]) && u[i] == Symbol(Values(u)[i]);
    }
  }

  /** Decoding undoes encoding, for every byte string: the encoding of the bytes decodes to
      them and to nothing else. */
  lemma DecodeInvertsEncode(bytes: Bytes, text: Bytes, decoded: Bytes)
    requires IsBase32(bytes, text)
    ensures IsDecoding(text, decoded) <==> decoded == bytes
  {
    if IsDecoding(text, decoded) {
      DecodingIsUnique(text, bytes, decoded);
    }
  }

  /** An accepted text is the encoding of what it decodes to exactly when fewer than five
      bits are left over; 55 symbols leave three. */
  lemma AcceptedReencodes(text: Bytes, bytes: Bytes)
    requires IsDecoding(text, bytes)
    ensures IsBase32(bytes, text) <==> 5 * |text| % 8 < 5
  {
    Eights(|bytes|, 5 * |text|);
  }

  // ----- The loops -----

  /** What is written and what waits in the register are together these bits. */
  ghost predicate Written(out: Bytes, buffer: nat, bits: nat, all: seq<bool>) {
    AllDigits(out) && BitsOf(Values(out), 5) + ToBits(buffer, bits) == all
  }

  lemma FeedByte(out: Bytes, buffer: nat, bits: nat, all: seq<bool>, byte: Byte)
    requires bits < 5 && Written(out, buffer, bits, all)
    ensures Written(out, Mask(Shl(buffer, 8), 32) + byte, bits + 8, all + ToBits(byte, 8))
  {
    assert byte < Pow2(8) by { SmallPowers(); }
    ShiftIn(BitsOf(Values(out), 5), buffer, bits, byte, 8, 24);
  }

  lemma Push(out: Bytes, v: nat)
    requires AllDigits(out) && v < 32
    ensures AllDigits(out + [Symbol(v)]) && Values(out + [Symbol(v)]) == Values(out) + [v]
  {
    assert Digit(Symbol(v)) == Some(v);
  }

  lemma EmitDigit(out: Bytes, buffer: nat, bits: nat, all: seq<bool>)
    requires Written(out, buffer, bits + 5, all)
    ensures Pow2(5) == 32
    ensures Written(out + [Symbol(Mask(Shr(buffer, bits), 5))], buffer, bits, all)
  {
    SmallPowers();
    ShiftOut(BitsOf(Values(out), 5), buffer, bits, 5);
    PushBits(out, Mask(Shr(buffer, bits), 5));
  }

  lemma PushBits(out: Bytes, v: nat)
    requires AllDigits(out) && v < 32
    ensures AllDigits(out + [Symbol(v)])
    ensures BitsOf(Values(out + [Symbol(v)]), 5) == BitsOf(Values(out), 5) + ToBits(v, 5)
  {
    Push(out, v);
    BitsOfMore(Values(out), v, 5);
  }

  lemma EmitTail(out: Bytes, buffer: nat, bits: nat, all: seq<bool>)
    requires bits < 5 && Written(out, buffer, bits, all)
    ensures Pow2(5) == 32
    ensures var text := out + [Symbol(Mask(Shl(buffer, 5 - bits), 5))];
            AllDigits(text) && Fills(BitsOf(Values(text), 5), all)
  {
    SmallPowers();
    var v := Mask(Shl(buffer, 5 - bits), 5);
    assert ToBits(v, 5) == ToBits(buffer, bits) + Zeros(5 - bits) by {
      LowBits(Shl(buffer, 5 - bits), 5);
      Join(buffer, bits, 0, 5 - bits);
      ZeroBits(5 - bits);
    }
    PushBits(out, v);
    Associates(BitsOf(Values(out), 5), ToBits(buffer, bits), Zeros(5 - bits));
    FillsWithZeros(all, 5 - bits);
  }

  /** Writes the digits that the register holds in full. */
  method Drain(out: Bytes, buffer: nat, bits: nat, ghost all: seq<bool>) returns (more: Bytes, left: nat)
    requires Written(out, buffer, bits, all)
    ensures left < 5 && 5 * |more| + left == 5 * |out| + bits && Written(more, buffer, left, all)
  {
    more, left := out, bits;
    SmallPowers();
    while left >= 5
      invariant 5 * |more| + left == 5 * |out| + bits
      invariant Written(more, buffer, left, all)
    {
      left := left - 5;
      EmitDigit(more, buffer, left, all);
      more := more + [Symbol(Mask(Shr(buffer, left), 5))];
    }
  }

  method Base32Encode(input: Bytes) returns (out: Bytes)
    ensures IsBase32(input, out)
  {
    out := [];
    var buffer: nat, bits: nat := 0, 0;
    ghost var all: seq<bool> := [];
    for i := 0 to |input|
      invariant all == BitsOf(input[..i], 8)
      invariant bits < 5 && 5 * |out| + bits == 8 * i && Written(out, buffer, bits, all)
    {
      FeedByte(out, buffer, bits, all, input[i]);
      OneMoreByte(input, i);
      all := all + ToBits(input[i], 8);
      buffer := Mask(Shl(buffer, 8), 32) + input[i];
      out, bits := Drain(out, buffer, bits + 8, all);
    }
    assert input[..|input|] == input;
    SmallPowers();
    if bits > 0 {
      EmitTail(out, buffer, bits, all);
      out := out + [Symbol(Mask(Shl(buffer, 5 - bits), 5))];
    } else {
      assert BitsOf(Values(out), 5) + ToBits(buffer, 0) == BitsOf(Values(out), 5);
    }
  }

  lemma OneMoreByte(input: Bytes, i: nat)
    requires i < |input|
    ensures BitsOf(input[..i + 1], 8) == BitsOf(input[..i], 8) + ToBits(input[i], 8)
  {
    assert input[..i + 1] == input[..i] + [input[i]];
    BitsOfMore(input[..i], input[i], 8);
  }

  lemma ValuesMore(text: Bytes, c: Byte)
    requires AllDigits(text) && Digit(c).Some?
    ensures AllDigits(text + [c])
    ensures BitsOf(Values(text + [c]), 5) == BitsOf(Values(text), 5) + ToBits(Digit(c).value, 5)
  {
    assert Values(text + [c]) == Values(text) + [Digit(c).value];
    BitsOfMore(Values(text), Digit(c).value, 5);
  }

  lemma FeedDigit(out: Bytes, buffer: nat, bits: nat, all: seq<bool>, v: nat)
    requires bits < 8 && v < 32 && Gathered(out, buffer, bits, all)
    ensures Gathered(out, Mask(Shl(buffer, 5), 32) + v, bits + 5, all + ToBits(v, 5))
  {
    assert v < Pow2(5) by { SmallPowers(); }
    ShiftIn(BitsOf(out, 8), buffer, bits, v, 5, 27);
  }

  /** The digits read so far have gone into bytes and the low bits of the register. */
  ghost predicate Taken(text: Bytes, out: Bytes, buffer: nat, bits: nat) {
    && AllDigits(text)
    && bits < 8 && 8 * |out| + bits == 5 * |text|
    && Gathered(out, buffer, bits, BitsOf(Values(text), 5))
  }

  /** One more digit, and the byte it completes. */
  method Accumulate(ghost text: Bytes, out: Bytes, buffer: nat, bits: nat, c: Byte, digit: nat)
      returns (out': Bytes, buffer': nat, bits': nat)
    requires Taken(text, out, buffer, bits) && Digit(c) == Some(digit) && digit < 32
    ensures Taken(text + [c], out', buffer', bits')
  {
    ghost var all := BitsOf(Values(text), 5);
    ValuesMore(text, c);
    FeedDigit(out, buffer, bits, all, digit);
    buffer' := Mask(Shl(buffer, 5), 32) + digit;
    out', bits' := EmitFull(out, buffer', bits + 5, all + ToBits(digit, 5));
  }

  /** Shifts in one digit after another. */
  method Gather(input: Bytes) returns (ok: bool, out: Bytes, buffer: nat, bits: nat)
    ensures ok <==> AllDigits(input)
    ensures ok ==> Taken(input, out, buffer, bits)
  {
    ok, out, buffer, bits := true, [], 0, 0;
    ghost var text: Bytes := [];
    assert Taken(text, out, buffer, bits);
    for i := 0 to |input|
      invariant ok && text == input[..i] && Taken(text, out, buffer, bits)
    {
      var value := Digit(input[i]);
      if value == None {
        ok := false;
        return;
      }
      out, buffer, bits := Accumulate(text, out, buffer, bits, input[i], value.value);
      text := text + [input[i]];
    }
    assert text == input;
  }

  method Base32Decode(input: Bytes) returns (r: Option<Bytes>)
    ensures r.Some? ==> IsDecoding(input, r.value)
    ensures r == None ==> forall bytes :: !IsDecoding(input, bytes)
  {
    var ok, out, buffer, bits := Gather(input);
    if !ok { return None; }
    LeftoverDecides(input, out, buffer, bits);
    if bits > 0 && Mask(buffer, bits) != 0 { return None; }
    r := Some(out);
  }

  /** The last digits were padding exactly when the register holds nothing but zeros. */
  lemma LeftoverDecides(text: Bytes, out: Bytes, buffer: nat, bits: nat)
    requires AllDigits(text) && bits < 8 && 8 * |out| + bits == 5 * |text|
    requires Gathered(out, buffer, bits, BitsOf(Values(text), 5))
    ensures Mask(buffer, bits) == 0 ==> IsDecoding(text, out)
    ensures Mask(buffer, bits) != 0 ==> forall bytes :: !IsDecoding(text, bytes)
  {
    var all := BitsOf(Values(text), 5);
    ZeroLow(buffer, bits);
    FillsWithZeros(BitsOf(out, 8), bits);
    if Mask(buffer, bits) != 0 {
      var i := NotZeros(ToBits(buffer, bits));
      assert all[8 * |out| + i];
      forall bytes: Bytes | |bytes| == |out| ensures !Fills(all, BitsOf(bytes, 8)) {
        assert |BitsOf(bytes, 8)| <= 8 * |out| + i < |all|;
      }
    }
  }

  lemma NotZeros(b: seq<bool>) returns (i: nat)
    requires b != Zeros(|b|)
    ensures i < |b| && b[i]
  {
    i :| 0 <= i < |b| && b[i] != Zeros(|b|)[i];
  }

  /** The two loops one after the other give every byte string back. */
  method EncodeThenDecode(bytes: Bytes) returns (decoded: Option<Bytes>)
    ensures decoded == Some(bytes)
  {
    var text := Base32Encode(bytes);
    decoded := Base32Decode(text);
    DecodeInvertsEncode(bytes, text, bytes);
    DecodeInvertsEncode(bytes, text, decoded.value);
  }

  // ----- The code as people copy it -----

  predicate Separator(c: Byte) {
    c == 32 || c == 9 || c == 10 || c == 12 || c == 13 || c == 45 || c == 95
  }

  function Upper(c: Byte): Byte {
    if 97 <= c <= 122 then c - 32 else c
  }

  /** Without separators, in upper case. */
  function Clean(code: Bytes): Bytes {
    if code == [] then [] else (if Separator(code[0]) then [] else [Upper(code[0])]) + Clean(code[1..])
  }

  /** White space as words are split by; unlike the separators it has the vertical tab. */
  predicate White(c: Byte) {
    9 <= c <= 13 || c == 32
  }

  function WordsAfter(code: Bytes, inWord: bool): nat {
    if code == [] then 0
    else if White(code[0]) then WordsAfter(code[1..], false)
    else (if inWord then 0 else 1) + WordsAfter(code[1..], true)
  }

  function Words(code: Bytes): nat {
    WordsAfter(code, false)
  }

  function Grouped(raw: Bytes): Bytes {
    if |raw| <= GROUP then raw else raw[..GROUP] + [32] + Grouped(raw[GROUP..])
  }

  /** The first two bytes of a hash, whichever it is. */
  type Checksum = Bytes -> (Byte, Byte)

  function Protected(key: Bytes, checksum: Checksum): Bytes {
    key + [checksum(key).0, checksum(key).1]
  }

  /** The code stands for a key: it is the base32 of the key and its checksum, up to
      separators and case. */
  ghost predicate StandsFor(code: Bytes, key: Bytes, checksum: Checksum) {
    |key| == KEY_LEN && IsBase32(Protected(key, checksum), Clean(code))
  }

  datatype Outcome = Key(key: Bytes) | Phrase | Refused

  /** Accepted is exactly what stands for a key, unless it makes 24 words. */
  method Decode(code: Bytes, checksum: Checksum) returns (r: Outcome)
    ensures r == Phrase <==> Words(code) == WORDS
    ensures forall key :: r == Key(key) <==> Words(code) != WORDS && StandsFor(code, key, checksum)
  {
    if Words(code) == WORDS { return Phrase; }
    var cleaned := Clean(code);
    if |cleaned| != CODE_LEN { return Refused; }
    var payload := Base32Decode(cleaned);
    if payload == None {
      forall key | |key| == KEY_LEN ensures !IsBase32(Protected(key, checksum), cleaned) {
        assert !IsDecoding(cleaned, Protected(key, checksum));
      }
      return Refused;
    }
    AcceptedReencodes(cleaned, payload.value);
    var key, tail := payload.value[..KEY_LEN], payload.value[KEY_LEN..];
    assert payload.value == key + tail;
    forall other | StandsFor(code, other, checksum) ensures Protected(other, checksum) == payload.value {
      DecodingIsUnique(cleaned, Protected(other, checksum), payload.value);
    }
    if tail != [checksum(key).0, checksum(key).1] {
      forall other: Bytes | |other| == KEY_LEN ensures Protected(other, checksum) != payload.value {
        assert Protected(other, checksum)[..KEY_LEN] == other;
        assert Protected(other, checksum)[KEY_LEN..] == [checksum(other).0, checksum(other).1];
      }
      return Refused;
    }
    forall other | StandsFor(code, other, checksum) ensures other == key {
      assert Protected(other, checksum)[..KEY_LEN] == other;
    }
    r := Key(key);
  }

  /** The shown code stands for the key and makes eleven words. */
  method Encode(key: Bytes, checksum: Checksum) returns (code: Bytes)
    requires |key| == KEY_LEN
    ensures StandsFor(code, key, checksum) && Words(code) == 11
  {
    var raw := Base32Encode(Protected(key, checksum));
    DigitsAreClean(raw);
    GroupedCleans(raw);
    GroupedWords(raw);
    code := Grouped(raw);
  }

  /** What is shown is read back. */
  method ShownIsRead(key: Bytes, checksum: Checksum) returns (read: Outcome)
    requires |key| == KEY_LEN
    ensures read == Key(key)
  {
    var code := Encode(key, checksum);
    read := Decode(code, checksum);
  }

  lemma {:induction false} DigitsAreClean(raw: Bytes)
    requires AllDigits(raw)
    ensures Clean(raw) == raw && forall i :: 0 <= i < |raw| ==> !White(raw[i])
  {
    if raw != [] {
      assert AllDigits(raw[1..]);
      DigitsAreClean(raw[1..]);
      assert Digit(raw[0]).Some?;
      assert forall i :: 0 < i < |raw| ==> raw[i] == raw[1..][i - 1];
    }
  }

  lemma {:induction false} CleanSum(a: Bytes, b: Bytes)
    ensures Clean(a + b) == Clean(a) + Clean(b)
  {
    if a == [] {
      assert a + b == b;
    } else {
      assert (a + b)[1..] == a[1..] + b;
      CleanSum(a[1..], b);
    }
  }

  lemma {:induction false} GroupedCleans(raw: Bytes)
    ensures Clean(Grouped(raw)) == Clean(raw)
  {
    if |raw| > GROUP {
      GroupedCleans(raw[GROUP..]);
      CleanSum(raw[..GROUP], raw[GROUP..]);
      assert raw == raw[..GROUP] + raw[GROUP..];
      CleanSum(raw[..GROUP] + [32], Grouped(raw[GROUP..]));
      CleanSum(raw[..GROUP], [32]);
    }
  }

  lemma {:induction false} WordsOfRun(run: Bytes, rest: Bytes, inWord: bool)
    requires forall i :: 0 <= i < |run| ==> !White(run[i])
    ensures WordsAfter(run + rest, inWord) ==
      if run == [] then WordsAfter(rest, inWord) else (if inWord then 0 else 1) + WordsAfter(rest, true)
  {
    if run == [] {
      assert run + rest == rest;
    } else {
      assert (run + rest)[1..] == run[1..] + rest;
      WordsOfRun(run[1..], rest, true);
    }
  }

  lemma {:induction false} GroupedWords(raw: Bytes)
    requires raw != [] && forall i :: 0 <= i < |raw| ==> !White(raw[i])
    ensures Words(Grouped(raw)) == (|raw| + GROUP - 1) / GROUP
  {
    if |raw| <= GROUP {
      assert raw + [] == raw;
      WordsOfRun(raw, [], false);
    } else {
      var rest := Grouped(raw[GROUP..]);
      GroupedWords(raw[GROUP..]);
      assert Grouped(raw) == raw[..GROUP] + ([32] + rest);
      WordsOfRun(raw[..GROUP], [32] + rest, false);
      assert ([32] + rest)[1..] == rest;
    }
  }

  // ----- What copying may change, and what it may not -----

  /** A separator put in or left out anywhere, and the case of any letter, do not change
      which key a code stands for. */
  lemma CopyingKeepsTheKey(before: Bytes, c: Byte, after: Bytes)
    ensures Separator(c) ==> Clean(before + [c] + after) == Clean(before + after)
    ensures Clean(before + [Upper(c)] + after) == Clean(before + [c] + after)
  {
    CleanThree(before, c, after);
    CleanThree(before, Upper(c), after);
    CleanSum(before, after);
    assert Separator(c) ==> Clean(before) + [] == Clean(before);
  }

  /** Two codes that clean to the same text are read alike, unless just one of them makes
      24 words. */
  method CopiesAreReadAlike(code: Bytes, copy: Bytes, checksum: Checksum) returns (r: Outcome, r': Outcome)
    requires Clean(code) == Clean(copy)
    ensures r == r' <==> (Words(code) == WORDS <==> Words(copy) == WORDS)
  {
    r := Decode(code, checksum);
    r' := Decode(copy, checksum);
    assert forall key :: StandsFor(code, key, checksum) <==> StandsFor(copy, key, checksum);
    if Words(code) != WORDS && Words(copy) != WORDS {
      assert forall key :: r == Key(key) <==> r' == Key(key);
    }
  }

  /** Of the bytes that may be put into a code that stands for a key, exactly the separators
      leave it standing for that key; with any other byte it stands for none. */
  lemma OnlySeparatorsMayBeAdded(before: Bytes, c: Byte, after: Bytes, key: Bytes, other: Bytes, checksum: Checksum)
    requires StandsFor(before + after, key, checksum)
    ensures StandsFor(before + [c] + after, other, checksum) <==> Separator(c) && other == key
  {
    CopyingKeepsTheKey(before, c, after);
    CleanThree(before, c, after);
    CleanSum(before, after);
    if Separator(c) && StandsFor(before + after, other, checksum) {
      DecodingIsUnique(Clean(before + after), Protected(key, checksum), Protected(other, checksum));
      assert Protected(key, checksum)[..KEY_LEN] == key && Protected(other, checksum)[..KEY_LEN] == other;
    }
  }

  const VERTICAL_TAB: Byte := 11

  /** A vertical tab separates words and is no separator of a code: a code that holds one
      and does not make 24 words is refused, whatever else is in it. */
  method VerticalTabIsRefused(code: Bytes, checksum: Checksum) returns (r: Outcome)
    requires VERTICAL_TAB in code && Words(code) != WORDS
    ensures r == Refused
  {
    NoKeyHasATab(code);
    r := Decode(code, checksum);
  }

  lemma NoKeyHasATab(code: Bytes)
    requires VERTICAL_TAB in code
    ensures !AllDigits(Clean(code))
  {
    var i :| 0 <= i < |code| && code[i] == VERTICAL_TAB;
    assert code == code[..i] + [VERTICAL_TAB] + code[i + 1..];
    CleanThree(code[..i], VERTICAL_TAB, code[i + 1..]);
    assert Clean(code)[|Clean(code[..i])|] == VERTICAL_TAB;
  }

  /** So a vertical tab in the place of any one space makes a shown code unreadable, though
      both are white space: eleven words as before, and refused. */
  method TabForSpaceIsRefused(key: Bytes, checksum: Checksum, at: nat) returns (code: Bytes, r: Outcome)
    requires |key| == KEY_LEN
    ensures StandsFor(code, key, checksum)
    ensures at < |code| && code[at] == 32 ==> Words(code[at := VERTICAL_TAB]) == 11 && r == Refused
  {
    code := Encode(key, checksum);
    r := Refused;
    if at < |code| && code[at] == 32 {
      WhiteForWhite(code, at, VERTICAL_TAB, false);
      assert code[at := VERTICAL_TAB][at] == VERTICAL_TAB;
      r := VerticalTabIsRefused(code[at := VERTICAL_TAB], checksum);
    }
  }

  lemma {:induction false} WhiteForWhite(code: Bytes, i: nat, c: Byte, inWord: bool)
    requires i < |code| && White(code[i]) && White(c)
    ensures WordsAfter(code[i := c], inWord) == WordsAfter(code, inWord)
  {
    if i == 0 {
      assert code[i := c][1..] == code[1..];
    } else {
      assert code[i := c][1..] == code[1..][i - 1 := c];
      WhiteForWhite(code[1..], i - 1, c, if White(code[0]) then false else true);
    }
  }

  /** A concrete one: fifty-five times the letter A with a vertical tab in the middle is
      refused; with a space there it is read as the key of zeros if that key's checksum is
      two zeros. */
  method TabbedCode() returns (tabbed: Outcome, spaced: Outcome)
    ensures tabbed == Refused && spaced == Key(seq(KEY_LEN, _ => 0))
  {
    var half: Bytes, rest: Bytes := seq(30, _ => 65), seq(25, _ => 65);
    var checksum: Checksum := _ => (0, 0);
    ghost var zeros: Bytes := seq(KEY_LEN, _ => 0);
    LettersSpell(half, rest, zeros);
    CopyingKeepsTheKey(half, 32, rest);
    TwoWords(half, 32, rest);
    spaced := Decode(half + [32] + rest, checksum);
    assert StandsFor(half + [32] + rest, zeros, checksum);
    TwoWords(half, VERTICAL_TAB, rest);
    assert (half + [VERTICAL_TAB] + rest)[30] == VERTICAL_TAB;
    tabbed := VerticalTabIsRefused(half + [VERTICAL_TAB] + rest, checksum);
  }

  lemma TwoWords(a: Bytes, c: Byte, b: Bytes)
    requires a != [] && b != [] && White(c)
    requires (forall i :: 0 <= i < |a| ==> !White(a[i])) && forall i :: 0 <= i < |b| ==> !White(b[i])
    ensures Words(a + [c] + b) == 2
  {
    assert a + [c] + b == a + ([c] + b) && ([c] + b)[1..] == b && b + [] == b;
    WordsOfRun(a, [c] + b, false);
    WordsOfRun(b, [], false);
  }

  lemma LettersSpell(half: Bytes, rest: Bytes, zeros: Bytes)
    requires |half| + |rest| == CODE_LEN && |zeros| == KEY_LEN && forall i :: 0 <= i < KEY_LEN ==> zeros[i] == 0
    requires (forall i :: 0 <= i < |half| ==> half[i] == 65) && forall i :: 0 <= i < |rest| ==> rest[i] == 65
    ensures IsBase32(zeros + [0, 0], Clean(half + rest))
  {
    var text, bytes := half + rest, zeros + [0, 0];
    assert AllDigits(text);
    DigitsAreClean(text);
    ZerosSpell(Values(text), |text|, 5);
    ZerosSpell(bytes, |bytes|, 8);
    assert Values(text)[..|text|] == Values(text) && bytes[..|bytes|] == bytes;
  }

  lemma {:induction false} ZerosSpell(vs: seq<nat>, n: nat, w: nat)
    requires n <= |vs| && forall i :: 0 <= i < |vs| ==> vs[i] == 0
    ensures |Upto(vs, n, w)| == n * w && forall i :: 0 <= i < |Upto(vs, n, w)| ==> !Upto(vs, n, w)[i]
  {
    if n > 0 {
      ZerosSpell(vs, n - 1, w);
      ZeroBits(w);
    }
  }

  lemma CleanThree(before: Bytes, c: Byte, after: Bytes)
    ensures Clean(before + [c] + after) == Clean(before) + (if Separator(c) then [] else [Upper(c)]) + Clean(after)
  {
    CleanSum(before + [c], after);
    CleanSum(before, [c]);
    assert Clean([c]) == if Separator(c) then [] else [Upper(c)];
  }

  /** A change confined to the checksum and the tail is always refused: two codes with the
      same first 256 bits that both stand for a key are the same text. */
  lemma TailChangesAreRefused(code: Bytes, code': Bytes, key: Bytes, key': Bytes, checksum: Checksum)
    requires StandsFor(code, key, checksum) && StandsFor(code', key', checksum)
    requires BitsOf(Values(Clean(code)), 5)[..256] == BitsOf(Values(Clean(code')), 5)[..256]
    ensures Clean(code) == Clean(code') && key == key'
  {
    KeyBits(Clean(code), key, checksum);
    KeyBits(Clean(code'), key', checksum);
    SmallPowers();
    BitsOfDetermine(key, key', 8);
    EncodingIsUnique(Protected(key, checksum), Clean(code), Clean(code'));
  }

  lemma KeyBits(text: Bytes, key: Bytes, checksum: Checksum)
    requires |key| == KEY_LEN && IsBase32(Protected(key, checksum), text)
    ensures |BitsOf(Values(text), 5)| >= 256 && BitsOf(Values(text), 5)[..256] == BitsOf(key, 8)
  {
    BitsOfSum(key, [checksum(key).0, checksum(key).1], 8);
  }
}
