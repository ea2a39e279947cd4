/** The three base58 codecs: the QR tool's in-place digit array, the JavaScript client's big
    integers, and the Python client. Each is proved against one change of base. */
module Base58 {
  import opened Arithmetic
  import opened Numerals

  const ALPHABET: string := "123456789" + "ABCDEFGH" + "JKLMN" + "PQRSTUVWXYZ" + "abcdefghijk" + "mnopqrstuvwxyz"

  type Bytes = bs: Digits | forall i :: 0 <= i < |bs| ==> bs[i] < 256 witness []

  datatype Decoded = Ok(bytes: Digits) | Invalid

  // ------------------------------------------------------------- alphabet

  /** The index of a symbol, by the runs of the alphabet. */
  function Rank(c: char): nat {
    if '1' <= c <= '9' then (c - '1') as nat
    else if 'A' <= c <= 'H' then 9 + (c - 'A') as nat
    else if 'J' <= c <= 'N' then 17 + (c - 'J') as nat
    else if 'P' <= c <= 'Z' then 22 + (c - 'P') as nat
    else if 'a' <= c <= 'k' then 33 + (c - 'a') as nat
    else if 'm' <= c <= 'z' then 44 + (c - 'm') as nat
    else 58
  }

  lemma {:induction false} AlphabetRanks()
    ensures |ALPHABET| == 58
    ensures forall d | 0 <= d < 58 :: Rank(ALPHABET[d]) == d
  {
    assert forall d | 0 <= d < 9 :: Rank("123456789"[d]) == d;
    assert forall d | 0 <= d < 8 :: Rank("ABCDEFGH"[d]) == 9 + d;
    assert forall d | 0 <= d < 5 :: Rank("JKLMN"[d]) == 17 + d;
    assert forall d | 0 <= d < 11 :: Rank("PQRSTUVWXYZ"[d]) == 22 + d;
    assert forall d | 0 <= d < 11 :: Rank("abcdefghijk"[d]) == 33 + d;
    assert forall d | 0 <= d < 14 :: Rank("mnopqrstuvwxyz"[d]) == 44 + d;
  }

  /** The first index of a character, or -1. */
  function IndexOf(s: string, c: char): (i: int)
    ensures -1 <= i < |s|
    ensures 0 <= i ==> s[i] == c && forall k :: 0 <= k < i ==> s[k] != c
    ensures i == -1 ==> c !in s
  {
    if s == "" then -1
    else if s[0] == c then 0
    else
      var rest := IndexOf(s[1..], c);
      if rest == -1 then -1 else rest + 1
  }

  function SymbolOf(d: nat): char
    requires d < 58
  {
    AlphabetRanks();
    ALPHABET[d]
  }

  function ValueOf(c: char): int {
    IndexOf(ALPHABET, c)
  }

  lemma {:induction false} SymbolRoundTrip()
    ensures forall d :: 0 <= d < 58 ==> ValueOf(SymbolOf(d)) == d
    ensures forall c :: 0 <= ValueOf(c) ==> ValueOf(c) < 58 && SymbolOf(ValueOf(c)) == c
    ensures SymbolOf(0) == '1' && ValueOf('1') == 0
  {
    AlphabetRanks();
    assert ALPHABET[0] == '1';
    forall d | 0 <= d < 58 ensures ValueOf(SymbolOf(d)) == d {
      assert Rank(ALPHABET[d]) == d;
      assert ALPHABET[d] in ALPHABET;
      assert Rank(ALPHABET[ValueOf(SymbolOf(d))]) == ValueOf(SymbolOf(d));
    }
    assert ValueOf(SymbolOf(0)) == 0;
  }

  function Render(ds: Digits): (text: string)
    requires InBase58(ds)
    ensures |text| == |ds| && forall i :: 0 <= i < |ds| ==> text[i] == SymbolOf(ds[i])
  {
    seq(|ds|, i requires 0 <= i < |ds| => SymbolOf(ds[i]))
  }

  predicate InBase58(ds: Digits) {
    forall i :: 0 <= i < |ds| ==> ds[i] < 58
  }

  predicate ValidText(text: string) {
    forall i :: 0 <= i < |text| ==> 0 <= ValueOf(text[i])
  }

  function Parse(text: string): (ds: Digits)
    requires ValidText(text)
    ensures |ds| == |text| && forall i :: 0 <= i < |ds| ==> ds[i] == ValueOf(text[i])
    ensures InBase58(ds)
  {
    AlphabetRanks();
    seq(|text|, i requires 0 <= i < |text| => ValueOf(text[i]))
  }

  lemma {:induction false} ParseRender(ds: Digits)
    requires InBase58(ds)
    ensures ValidText(Render(ds)) && Parse(Render(ds)) == ds
  {
    SymbolRoundTrip();
  }

  lemma {:induction false} RenderParse(text: string)
    requires ValidText(text)
    ensures Render(Parse(text)) == text
  {
    SymbolRoundTrip();
  }

  // ------------------------------------------------------------- reference form

  /** Base58 as a change of base: the meaning all three encoders share. */
  function Encode(bytes: Bytes): string {
    RecodeInverse(bytes, 256, 58);
    Render(Recode(bytes, 256, 58))
  }

  function Decode(text: string): Decoded {
    if ValidText(text) then Ok(Recode(Parse(text), 58, 256)) else Invalid
  }

  /** The shared meaning, which the Python client computes in full, round-trips every byte string. */
  lemma {:induction false} DecodeEncode(bytes: Bytes)
    ensures Decode(Encode(bytes)) == Ok(bytes)
  {
    RecodeInverse(bytes, 256, 58);
    ParseRender(Recode(bytes, 256, 58));
  }

  /** The text is the number of the bytes, symbol by symbol of the alphabet, behind one '1' for each leading zero. */
  lemma {:induction false} EncodeIsTheNumber(bytes: Bytes)
    ensures var text := Encode(bytes);
            ValidText(text) && FromDigits(Parse(text), 58) == FromDigits(bytes, 256)
            && LeadingZeros(Parse(text)) == LeadingZeros(bytes)
  {
    RecodeInverse(bytes, 256, 58);
    ParseRender(Recode(bytes, 256, 58));
    var z, n := LeadingZeros(bytes), FromDigits(bytes, 256);
    ToDigitsShape(n, 58);
    LeadingZerosUnique(z, ToDigits(n, 58));
    LeadingZerosWeighNothing(z, ToDigits(n, 58), 58);
    FromTo(n, 58);
  }

  /** An example: one zero byte and 255, which is 4 * 58 + 23. */
  lemma {:induction false} EncodeExample()
    ensures Encode([0, 255]) == "15Q"
  {
    var bytes: Bytes := [0, 255];
    assert bytes[..1] == [0];
    assert FromDigits([0], 256) == 0;
    assert FromDigits(bytes, 256) == 255;
    assert bytes[1..] == [255];
    assert LeadingZeros([255]) == 0 && LeadingZeros(bytes) == 1;
    assert ToDigits(4, 58) == [4];
    assert ToDigits(255, 58) == [4] + [23];
    assert Recode(bytes, 256, 58) == [0, 4, 23];
    assert ALPHABET[0] == '1' && ALPHABET[4] == '5' && ALPHABET[23] == 'Q';
  }

  lemma {:induction false} EncodeDecode(text: string)
    requires ValidText(text)
    ensures var d := Decode(text).bytes;
            (forall i :: 0 <= i < |d| ==> d[i] < 256) && Encode(d) == text
  {
    RecodeInverse(Parse(text), 58, 256);
    RenderParse(text);
  }

  // ------------------------------------------------------------- the in-place digit array

  /** Little-endian digits times 256 plus a carry, as the inner loop leaves them. */
  function MulAdd(ds: Digits, carry: nat): Digits {
    if ds == [] then CarryDigits(carry)
    else [(carry + ds[0] * 256) % 58] + MulAdd(ds[1..], (carry + ds[0] * 256) / 58)
  }

  function CarryDigits(carry: nat): Digits {
    if carry == 0 then [] else [carry % 58] + CarryDigits(carry / 58)
  }

  function Reverse(ds: Digits): (r: Digits)
    ensures |r| == |ds| && forall i :: 0 <= i < |ds| ==> r[i] == ds[|ds| - 1 - i]
  {
    if ds == [] then [] else Reverse(ds[1..]) + [ds[0]]
  }

  function Weight(ds: Digits): nat {
    if ds == [] then 0 else ds[0] + 58 * Weight(ds[1..])
  }

  lemma {:induction false} WeightIsReversed(ds: Digits)
    ensures FromDigits(Reverse(ds), 58) == Weight(ds)
  {
    if ds == [] {
    } else {
      WeightIsReversed(ds[1..]);
      FromSnoc(Reverse(ds[1..]), ds[0], 58);
    }
  }

  lemma {:induction false} CarryWeight(carry: nat)
    ensures Weight(CarryDigits(carry)) == carry && InBase58(CarryDigits(carry))
    ensures 0 < carry ==> TopNonzero(CarryDigits(carry))
  {
    if carry != 0 {
      CarryWeight(carry / 58);
      assert CarryDigits(carry)[1..] == CarryDigits(carry / 58);
    }
  }

  predicate TopNonzero(ds: Digits) {
    ds != [] && ds[|ds| - 1] != 0
  }

  /** One byte: the digits are multiplied by 256 and the byte is added, and the top digit
      stays nonzero. */
  lemma {:induction false} MulAddWeight(ds: Digits, carry: nat)
    requires InBase58(ds) && carry < 256
    ensures Weight(MulAdd(ds, carry)) == Weight(ds) * 256 + carry
    ensures InBase58(MulAdd(ds, carry))
    ensures TopNonzero(ds) ==> TopNonzero(MulAdd(ds, carry))
    ensures ds == [0] && 0 < carry ==> TopNonzero(MulAdd(ds, carry))
  {
    if ds == [] {
      CarryWeight(carry);
    } else {
      var sum := carry + ds[0] * 256;
      assert sum / 58 < 256;
      MulAddWeight(ds[1..], sum / 58);
      assert MulAdd(ds, carry)[1..] == MulAdd(ds[1..], sum / 58);
      if |ds| == 1 {
        CarryWeight(sum / 58);
        assert MulAdd(ds, carry) == [sum % 58] + CarryDigits(sum / 58);
      }
    }
  }

  lemma {:induction false} MulAddStep(done: Digits, ds: Digits, j: nat, carry: nat)
    requires j < |ds|
    ensures done + MulAdd(ds[j..], carry)
         == done + [(carry + ds[j] * 256) % 58] + MulAdd(ds[j + 1..], (carry + ds[j] * 256) / 58)
  {
    assert ds[j..][1..] == ds[j + 1..];
  }

  lemma {:induction false} CarryStep(done: Digits, carry: nat)
    requires 0 < carry
    ensures done + CarryDigits(carry) == done + [carry % 58] + CarryDigits(carry / 58)
  {
  }

  /** The inner loops of `base58Encode`: one byte worked into the digit array in place. */
  method AddByte(ds: Digits, byte: nat) returns (digits: Digits)
    requires InBase58(ds) && byte < 256
    ensures digits == MulAdd(ds, byte)
  {
    digits := ds;
    var carry := byte;
    for j := 0 to |digits|
      invariant |digits| == |ds| && digits[j..] == ds[j..]
      invariant carry <= 255
      invariant MulAdd(ds, byte) == digits[..j] + MulAdd(ds[j..], carry)
    {
      MulAddStep(digits[..j], ds, j, carry);
      assert digits[j] == digits[j..][0] == ds[j..][0] == ds[j];
      carry := carry + digits[j] * 256;
      ghost var before := digits;
      digits := digits[j := carry % 58];
      assert digits[..j + 1] == before[..j] + [carry % 58];
      assert digits[j + 1..] == before[j..][1..] == ds[j + 1..];
      carry := carry / 58;
    }
    assert ds[|ds|..] == [] && digits[..|ds|] == digits;
    while carry > 0
      invariant MulAdd(ds, byte) == digits + CarryDigits(carry)
    {
      CarryStep(digits, carry);
      digits := digits + [carry % 58];
      carry := carry / 58;
    }
  }

  /** What the digit array holds after some bytes: the canonical digits, or a single zero. */
  ghost predicate HoldsDigits(digits: Digits, n: nat) {
    && InBase58(digits) && Weight(digits) == n
    && (digits == [0] || TopNonzero(digits))
  }

  lemma {:induction false} HeldDigits(digits: Digits, n: nat)
    requires HoldsDigits(digits, n)
    ensures 0 < n ==> Reverse(digits) == ToDigits(n, 58)
    ensures n == 0 ==> digits == [0]
  {
    WeightIsReversed(digits);
    if TopNonzero(digits) {
      ToFrom(Reverse(digits), 58);
      FromPositive(Reverse(digits), 58);
    }
  }

  /** The first loop of the QR tool's `base58Encode`: every byte into the digit array. */
  method QrDigits(bytes: Bytes) returns (digits: Digits)
    ensures HoldsDigits(digits, FromDigits(bytes, 256))
  {
    digits := [0];
    for i := 0 to |bytes|
      invariant HoldsDigits(digits, FromDigits(bytes[..i], 256))
    {
      MulAddHolds(digits, FromDigits(bytes[..i], 256), bytes[i]);
      FromSnoc(bytes[..i], bytes[i], 256);
      assert bytes[..i + 1] == bytes[..i] + [bytes[i]];
      digits := AddByte(digits, bytes[i]);
    }
    assert bytes[..|bytes|] == bytes;
  }

  lemma {:induction false} MulAddHolds(digits: Digits, n: nat, byte: nat)
    requires HoldsDigits(digits, n) && byte < 256
    ensures HoldsDigits(MulAdd(digits, byte), n * 256 + byte)
  {
    MulAddWeight(digits, byte);
    if digits == [0] && byte == 0 {
      assert MulAdd(digits, byte) == [0] + MulAdd([], 0);
    }
  }

  /** The output loops: a `1` for every leading zero byte, then the digits from the top. */
  method LeadingOnes(bytes: Bytes) returns (out: string)
    ensures out == Render(Zeros(LeadingZeros(bytes)))
  {
    SymbolRoundTrip();
    out := "";
    var i := 0;
    while i < |bytes| && bytes[i] == 0
      invariant i <= LeadingZeros(bytes) && |out| == i
      invariant forall k :: 0 <= k < i ==> out[k] == '1'
    {
      out := out + "1";
      i := i + 1;
    }
  }

  method WriteReversed(prefix: string, digits: Digits) returns (out: string)
    requires InBase58(digits)
    ensures out == prefix + Render(Reverse(digits))
  {
    AlphabetRanks();
    out := prefix;
    var i := |digits|;
    while i > 0
      invariant 0 <= i <= |digits|
      invariant out == prefix + Render(Reverse(digits[i..]))
    {
      i := i - 1;
      assert digits[i..][1..] == digits[i + 1..];
      RenderAppend(Reverse(digits[i + 1..]), [digits[i]]);
      out := out + [ALPHABET[digits[i]]];
    }
    assert digits[0..] == digits;
  }

  lemma {:induction false} RenderAppend(a: Digits, b: Digits)
    requires InBase58(a) && InBase58(b)
    ensures InBase58(a + b) && Render(a + b) == Render(a) + Render(b)
  {
  }

  /** `base58Encode` of the QR tool. On all-zero input it writes one symbol too many. */
  method QrEncode(bytes: Bytes) returns (out: string)
    ensures out == QrEncoded(bytes)
  {
    var digits := QrDigits(bytes);
    out := LeadingOnes(bytes);
    out := WriteReversed(out, digits);
    HeldDigits(digits, FromDigits(bytes, 256));
    EncodeParts(bytes);
    ZeroIffAllZeros(bytes, 256);
    SymbolRoundTrip();
    if !HasNonzero(bytes) {
      assert Render(Reverse(digits)) == "1";
    }
  }

  function QrEncoded(bytes: Bytes): string {
    if HasNonzero(bytes) then Encode(bytes) else Encode(bytes) + "1"
  }

  lemma {:induction false} EncodeParts(bytes: Bytes)
    ensures InBase58(ToDigits(FromDigits(bytes, 256), 58))
    ensures Encode(bytes) == Render(Zeros(LeadingZeros(bytes))) + Render(ToDigits(FromDigits(bytes, 256), 58))
  {
    ToDigitsShape(FromDigits(bytes, 256), 58);
    RenderAppend(Zeros(LeadingZeros(bytes)), ToDigits(FromDigits(bytes, 256), 58));
  }

  // ------------------------------------------------------------- big-integer encoders

  lemma {:induction false} TakeDigit(num: nat, base: nat, tail: Digits)
    requires 2 <= base && 0 < num
    ensures ToDigits(num, base) + tail == ToDigits(num / base, base) + ([num % base] + tail)
  {
  }

  /** The repeated division both clients use to write a number. */
  method WriteNumber(number: nat) returns (out: string)
    ensures InBase58(ToDigits(number, 58)) && out == Render(ToDigits(number, 58))
  {
    ToDigitsShape(number, 58);
    AlphabetRanks();
    out := "";
    var num := number;
    ghost var tail: Digits := [];
    while num > 0
      invariant InBase58(tail) && out == Render(tail)
      invariant ToDigits(number, 58) == ToDigits(num, 58) + tail
    {
      RenderAppend([num % 58], tail);
      TakeDigit(num, 58, tail);
      tail := [num % 58] + tail;
      out := [ALPHABET[num % 58]] + out;
      num := num / 58;
    }
  }

  /** `base58Encode` of the JavaScript client. */
  method SdkEncode(bytes: Bytes) returns (out: string)
    ensures out == Encode(bytes)
  {
    var num := 0;
    for i := 0 to |bytes|
      invariant num == FromDigits(bytes[..i], 256)
    {
      assert bytes[..i + 1][..i] == bytes[..i];
      num := num * 256 + bytes[i];
    }
    assert bytes[..|bytes|] == bytes;
    out := WriteNumber(num);
    EncodeParts(bytes);
    out := PrependOnes(bytes, out);
  }

  method PrependOnes(bytes: Bytes, digits: string) returns (out: string)
    ensures out == Render(Zeros(LeadingZeros(bytes))) + digits
  {
    SymbolRoundTrip();
    out := digits;
    var i := 0;
    while i < |bytes| && bytes[i] == 0
      invariant i <= LeadingZeros(bytes) && |out| == i + |digits|
      invariant out[i..] == digits && forall k :: 0 <= k < i ==> out[k] == '1'
    {
      out := "1" + out;
      i := i + 1;
    }
    assert out == out[..i] + out[i..];
    assert out[..i] == Render(Zeros(i));
  }

  /** `b58encode` of the Python client; `int.from_bytes` is the big-endian number. */
  method PyEncode(bytes: Bytes) returns (out: string)
    ensures out == Encode(bytes)
  {
    var digits := WriteNumber(FromDigits(bytes, 256));
    EncodeParts(bytes);
    SymbolRoundTrip();
    var stripped := bytes[LeadingZeros(bytes)..];
    var ones := seq(|bytes| - |stripped|, _ => '1');
    out := ones + digits;
  }

  // ------------------------------------------------------------- decoders

  /** The symbol loop all decoders share; none at the first foreign symbol. */
  method ReadNumber(text: string) returns (valid: bool, num: nat)
    ensures valid <==> ValidText(text)
    ensures valid ==> num == FromDigits(Parse(text), 58)
  {
    num := 0;
    for i := 0 to |text|
      invariant ValidText(text[..i])
      invariant num == FromDigits(Parse(text[..i]), 58)
    {
      var idx := ValueOf(text[i]);
      if idx < 0 {
        return false, 0;
      }
      assert text[..i + 1] == text[..i] + [text[i]];
      assert Parse(text[..i + 1]) == Parse(text[..i]) + [idx];
      FromSnoc(Parse(text[..i]), idx, 58);
      num := num * 58 + idx;
    }
    assert text[..|text|] == text;
    valid := true;
  }

  /** Leading `1`s of a text; they are the leading zeros of its digits. */
  method CountOnes(text: string) returns (zeros: nat)
    ensures zeros <= |text| && forall k :: 0 <= k < zeros ==> text[k] == '1'
    ensures zeros < |text| ==> text[zeros] != '1'
  {
    zeros := 0;
    while zeros < |text| && text[zeros] == '1'
      invariant zeros <= |text| && forall k :: 0 <= k < zeros ==> text[k] == '1'
    {
      zeros := zeros + 1;
    }
  }

  lemma {:induction false} OnesAreZeros(text: string, ones: nat)
    requires ValidText(text) && ones <= |text|
    requires forall k :: 0 <= k < ones ==> text[k] == '1'
    requires ones < |text| ==> text[ones] != '1'
    ensures LeadingZeros(Parse(text)) == ones
  {
    SymbolRoundTrip();
    var ds := Parse(text);
    assert ds == Zeros(ones) + ds[ones..];
    LeadingZerosUnique(ones, ds[ones..]);
  }

  /** The bytes of a number by repeated shifts, least significant first, then reversed. */
  method ShiftBytes(number: nat) returns (bytes: Digits)
    ensures bytes == ToDigits(number, 256)
  {
    var num, tmp: Digits := number, [];
    while num > 0
      invariant ToDigits(number, 256) == ToDigits(num, 256) + Reverse(tmp)
    {
      ReverseAppend(tmp, num % 256);
      TakeDigit(num, 256, Reverse(tmp));
      tmp := tmp + [num % 256];
      num := num / 256;
    }
    bytes := Reverse(tmp);
  }

  lemma {:induction false} ReverseAppend(ds: Digits, d: nat)
    ensures Reverse(ds + [d]) == [d] + Reverse(ds)
  {
    if ds == [] {
    } else {
      assert (ds + [d])[1..] == ds[1..] + [d];
      ReverseAppend(ds[1..], d);
    }
  }

  /** White space and line ends as JavaScript's `trim` removes them. */
  predicate IsSpace(c: char) {
    var n := c as int;
    || 9 <= n <= 13 || n == 0x20 || n == 0xA0 || n == 0x1680 || 0x2000 <= n <= 0x200A
    || n == 0x2028 || n == 0x2029 || n == 0x202F || n == 0x205F || n == 0x3000 || n == 0xFEFF
  }

  function TrimStart(text: string): string {
    if text != "" && IsSpace(text[0]) then TrimStart(text[1..]) else text
  }

  function TrimEnd(text: string): string {
    if text != "" && IsSpace(text[|text| - 1]) then TrimEnd(text[..|text| - 1]) else text
  }

  function Trim(text: string): string {
    TrimEnd(TrimStart(text))
  }

  predicate Blank(text: string) {
    forall i :: 0 <= i < |text| ==> IsSpace(text[i])
  }

  lemma {:induction false} StartTrims(before: string, text: string)
    requires Blank(before)
    ensures TrimStart(before + text) == TrimStart(text)
  {
    if before == "" {
      assert before + text == text;
    } else {
      assert (before + text)[1..] == before[1..] + text;
      StartTrims(before[1..], text);
    }
  }

  lemma {:induction false} EndTrims(text: string, after: string)
    requires Blank(after)
    ensures TrimEnd(text + after) == TrimEnd(text)
  {
    if after == "" {
      assert text + after == text;
    } else {
      assert (text + after)[..|text + after| - 1] == text + after[..|after| - 1];
      EndTrims(text, after[..|after| - 1]);
    }
  }

  lemma {:induction false} StartStops(text: string, after: string)
    requires Blank(after)
    ensures TrimStart(text + after) == TrimStart(text) + after || (TrimStart(text + after) == "" == TrimStart(text))
  {
    if text == "" {
      StartTrims(after, "");
      assert text + after == after + "";
    } else if IsSpace(text[0]) {
      assert (text + after)[1..] == text[1..] + after;
      StartStops(text[1..], after);
    }
  }

  /** White space around a text changes nothing, and blank text is no text. */
  lemma {:induction false} BlanksAround(before: string, text: string, after: string)
    requires Blank(before) && Blank(after)
    ensures QrDecoded(before + text + after) == QrDecoded(text)
    ensures QrDecoded(before) == Invalid
  {
    assert before + text + after == before + (text + after);
    StartTrims(before, text + after);
    StartStops(text, after);
    EndTrims(TrimStart(text), after);
    StartTrims(before, "");
    assert before + "" == before;
  }

  /** `base58Decode` of the QR tool: trimmed, and none for the empty text. */
  method QrDecode(text: string) returns (d: Decoded)
    ensures d == QrDecoded(text)
  {
    var clean := Trim(text);
    if clean == "" {
      return Invalid;
    }
    var zeros := CountOnes(clean);
    var valid, num := ReadNumber(clean);
    if !valid {
      return Invalid;
    }
    OnesAreZeros(clean, zeros);
    if num == 0 {
      assert ToDigits(num, 256) == [];
      return Ok(Zeros(zeros));
    }
    var tmp := ShiftBytes(num);
    return Ok(Zeros(zeros) + tmp);
  }

  function QrDecoded(text: string): Decoded {
    if Trim(text) == "" then Invalid else Decode(Trim(text))
  }

  // JavaScript's `toString(16)` and `Buffer.from(hex, 'hex')` on nibbles.

  function HexOf(num: nat): Digits {
    if num == 0 then [0] else ToDigits(num, 16)
  }

  function Padded(hex: Digits): Digits {
    if |hex| % 2 == 1 then [0] + hex else hex
  }

  function PairUp(hex: Digits): Digits {
    if |hex| < 2 then [] else PairUp(hex[..|hex| - 2]) + [hex[|hex| - 2] * 16 + hex[|hex| - 1]]
  }

  lemma {:induction false} PairsWeigh(hex: Digits)
    requires |hex| % 2 == 0
    ensures FromDigits(PairUp(hex), 256) == FromDigits(hex, 16)
  {
    if hex == [] {
    } else {
      var rest, high, low := hex[..|hex| - 2], hex[|hex| - 2], hex[|hex| - 1];
      PairsWeigh(rest);
      PairWeighs(rest, high, low);
      FromSnoc(PairUp(rest), high * 16 + low, 256);
      assert rest + [high] + [low] == hex;
    }
  }

  lemma {:induction false} PairsAre(hex: Digits)
    requires |hex| % 2 == 0 && InBase(hex, 16)
    ensures PairsOf(PairUp(hex), hex)
  {
    if hex == [] {
    } else {
      PairsAre(hex[..|hex| - 2]);
      PairsSnoc(PairUp(hex[..|hex| - 2]), hex);
    }
  }

  /** Byte by byte, two hexadecimal digits each. */
  ghost predicate PairsOf(bytes: Digits, hex: Digits) {
    && |hex| == 2 * |bytes|
    && forall i :: 0 <= i < |bytes| ==> bytes[i] == hex[2 * i] * 16 + hex[2 * i + 1] < 256
  }

  lemma {:induction false} PairsSnoc(bytes: Digits, hex: Digits)
    requires 2 <= |hex| && InBase(hex, 16) && PairsOf(bytes, hex[..|hex| - 2])
    ensures PairsOf(bytes + [hex[|hex| - 2] * 16 + hex[|hex| - 1]], hex)
  {
    var all := bytes + [hex[|hex| - 2] * 16 + hex[|hex| - 1]];
    forall i | 0 <= i < |all| ensures all[i] == hex[2 * i] * 16 + hex[2 * i + 1] < 256 {
      if i < |bytes| {
        assert bytes[i] == all[i];
      } else {
        assert 2 * i == |hex| - 2;
      }
    }
  }

  lemma {:induction false} PairWeighs(rest: Digits, high: nat, low: nat)
    ensures FromDigits(rest + [high] + [low], 16) == FromDigits(rest, 16) * 256 + (high * 16 + low)
  {
    FromSnoc(rest, high, 16);
    FromSnoc(rest + [high], low, 16);
  }

  /** Reading a number back through hexadecimal gives its bytes, but one zero byte for zero. */
  lemma {:induction false} HexBytes(num: nat)
    ensures PairUp(Padded(HexOf(num))) == if num == 0 then [0] else ToDigits(num, 256)
  {
    if num == 0 {
      assert PairUp([0, 0]) == PairUp([]) + [0];
    } else {
      var hex := Padded(HexOf(num));
      PaddedHex(num);
      PairsWeigh(hex);
      PairsAre(hex);
      assert PairUp(hex)[0] == hex[0] * 16 + hex[1];
      ToFrom(PairUp(hex), 256);
    }
  }

  lemma {:induction false} PaddedHex(num: nat)
    requires 0 < num
    ensures var hex := Padded(HexOf(num));
            && |hex| % 2 == 0 && 2 <= |hex| && InBase(hex, 16)
            && 0 < hex[0] * 16 + hex[1] && FromDigits(hex, 16) == num
  {
    ToDigitsShape(num, 16);
    FromTo(num, 16);
    PaddedShape(ToDigits(num, 16));
  }

  lemma {:induction false} PaddedShape(hex: Digits)
    requires InBase(hex, 16) && hex != [] && hex[0] != 0
    ensures var padded := Padded(hex);
            && |padded| % 2 == 0 && 2 <= |padded| && InBase(padded, 16)
            && 0 < padded[0] * 16 + padded[1] && FromDigits(padded, 16) == FromDigits(hex, 16)
  {
    if |hex| % 2 == 1 {
      LeadingZerosWeighNothing(1, hex, 16);
      assert Zeros(1) + hex == [0] + hex;
    }
  }

  /** `base58Decode` of the JavaScript client; a foreign symbol throws. */
  method SdkDecode(text: string) returns (d: Decoded)
    ensures d == SdkDecoded(text)
  {
    var valid, num := ReadNumber(text);
    if !valid {
      return Invalid;
    }
    var hex := HexOf(num);
    if |hex| % 2 == 1 {
      hex := [0] + hex;
    }
    var leadingZeros := CountOnes(text);
    SdkParts(text, num, leadingZeros);
    return Ok(Zeros(leadingZeros) + PairUp(hex));
  }

  lemma {:induction false} SdkParts(text: string, num: nat, ones: nat)
    requires ValidText(text) && num == FromDigits(Parse(text), 58) && ones <= |text|
    requires forall k :: 0 <= k < ones ==> text[k] == '1'
    requires ones < |text| ==> text[ones] != '1'
    ensures SdkDecoded(text) == Ok(Zeros(ones) + PairUp(Padded(HexOf(num))))
  {
    OnesAreZeros(text, ones);
    HexBytes(num);
    ZeroIffAllZeros(Parse(text), 58);
    if num == 0 {
      assert Zeros(|text| + 1) == Zeros(|text|) + [0];
    }
  }

  function SdkDecoded(text: string): Decoded {
    if !ValidText(text) then Invalid
    else if HasNonzero(Parse(text)) then Decode(text)
    else Ok(Zeros(|text| + 1))
  }

  /** `b58decode` of the Python client; `to_bytes` of the bit length is the bytes of the number. */
  method PyDecode(text: string) returns (d: Decoded)
    ensures d == Decode(text)
  {
    var valid, num := ReadNumber(text);
    if !valid {
      return Invalid;
    }
    var raw := ToDigits(num, 256);
    var leading := CountOnes(text);
    OnesAreZeros(text, leading);
    return Ok(Zeros(leading) + raw);
  }

  // ------------------------------------------------------------- round trips

  lemma {:induction false} EncodedIsTrimmed(bytes: Bytes)
    ensures Trim(Encode(bytes)) == Encode(bytes) && Trim(QrEncoded(bytes)) == QrEncoded(bytes)
  {
    RecodeInverse(bytes, 256, 58);
    SymbolRoundTrip();
    NoSpaceTrims(Encode(bytes));
    NoSpaceTrims(QrEncoded(bytes));
  }

  lemma {:induction false} NoSpaceTrims(text: string)
    requires ValidText(text)
    ensures Trim(text) == text
  {
    AlphabetRanks();
    forall i | 0 <= i < |text| ensures !IsSpace(text[i]) {
      assert Rank(ALPHABET[ValueOf(text[i])]) == ValueOf(text[i]);
    }
  }

  /** The QR tool round-trips exactly the byte strings with a nonzero byte. */
  lemma {:induction false} QrRoundTripIff(bytes: Bytes)
    ensures QrDecoded(QrEncoded(bytes)) == Ok(bytes) <==> HasNonzero(bytes)
  {
    EncodedIsTrimmed(bytes);
    if HasNonzero(bytes) {
      assert bytes != [];
      EncodeNonempty(bytes);
      DecodeEncode(bytes);
    } else {
      QrAllZeros(bytes);
    }
  }

  /** On an all-zero string the extra symbol reads back as an extra zero byte. */
  lemma {:induction false} QrAllZeros(bytes: Bytes)
    requires !HasNonzero(bytes)
    ensures QrDecoded(QrEncoded(bytes)) == Ok(bytes + [0])
  {
    var longer: Bytes := bytes + [0];
    EncodeAllZeros(bytes);
    EncodeAllZeros(longer);
    assert QrEncoded(bytes) == Encode(longer);
    EncodedIsTrimmed(bytes);
    EncodeNonempty(longer);
    DecodeEncode(longer);
  }

  lemma {:induction false} EncodeNonempty(bytes: Bytes)
    requires bytes != []
    ensures Encode(bytes) != ""
  {
    EncodeParts(bytes);
    ZeroIffAllZeros(bytes, 256);
  }

  lemma {:induction false} EncodeAllZeros(bytes: Bytes)
    requires !HasNonzero(bytes)
    ensures |Encode(bytes)| == |bytes| && forall i :: 0 <= i < |bytes| ==> Encode(bytes)[i] == '1'
  {
    ZeroIffAllZeros(bytes, 256);
    SymbolRoundTrip();
  }

  /** So does the JavaScript client. */
  lemma {:induction false} SdkRoundTripIff(bytes: Bytes)
    ensures SdkDecoded(Encode(bytes)) == Ok(bytes) <==> HasNonzero(bytes)
  {
    RecodeInverse(bytes, 256, 58);
    var ds := Recode(bytes, 256, 58);
    ParseRender(ds);
    DecodeEncode(bytes);
    ZeroIffAllZeros(bytes, 256);
    ZeroIffAllZeros(ds, 58);
    RecodeWeighs(bytes, 256, 58);
    if !HasNonzero(bytes) {
      EncodeAllZeros(bytes);
    }
  }

  lemma {:induction false} RecodeWeighs(ds: Digits, from: nat, to: nat)
    requires 2 <= to
    ensures FromDigits(Recode(ds, from, to), to) == FromDigits(ds, from)
  {
    LeadingZerosWeighNothing(LeadingZeros(ds), ToDigits(FromDigits(ds, from), to), to);
    FromTo(FromDigits(ds, from), to);
  }

  /** On byte strings with a nonzero byte the three clients agree: any encoder's text is read
      back by any decoder. */
  lemma {:induction false} ClientsInteroperate(bytes: Bytes)
    requires HasNonzero(bytes)
    ensures QrEncoded(bytes) == Encode(bytes)
    ensures QrDecoded(Encode(bytes)) == SdkDecoded(Encode(bytes)) == Decode(Encode(bytes)) == Ok(bytes)
  {
    QrRoundTripIff(bytes);
    SdkRoundTripIff(bytes);
    DecodeEncode(bytes);
  }
}
