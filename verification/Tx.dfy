/** Bytes, hexadecimal text and big-endian numbers. */
module Bytes {
  import opened Common

  type Byte = b: int | 0 <= b < 256

  function Pow(base: nat, n: nat): nat {
    if n == 0 then 1 else base * Pow(base, n - 1)
  }

  lemma {:induction false} PowAdd(base: nat, m: nat, n: nat)
    ensures Pow(base, m + n) == Pow(base, m) * Pow(base, n)
  {
    if m > 0 {
      PowAdd(base, m - 1, n);
      var p, q := Pow(base, m - 1), Pow(base, n);
      assert base * (p * q) == (base * p) * q;
    }
  }

  lemma {:induction false} PowPositive(base: nat, n: nat)
    requires base > 0
    ensures Pow(base, n) > 0
  {
    if n > 0 { PowPositive(base, n - 1); }
  }

  /** The number that big-endian bytes stand for. */
  function BigEndian(s: seq<Byte>): nat {
    if s == [] then 0 else s[0] * Pow(256, |s| - 1) + BigEndian(s[1..])
  }

  lemma {:induction false} BigEndianBound(s: seq<Byte>)
    ensures BigEndian(s) < Pow(256, |s|)
  {
    if s != [] {
      BigEndianBound(s[1..]);
      BelowNextPower(s[0], Pow(256, |s| - 1), BigEndian(s[1..]));
    }
  }

  lemma BelowNextPower(b: Byte, p: nat, r: nat)
    requires r < p
    ensures b * p + r < 256 * p
  {
    assert (255 - b) * p >= 0;
  }

  lemma {:induction false} BigEndianSplit(a: seq<Byte>, b: seq<Byte>)
    ensures BigEndian(a + b) == BigEndian(a) * Pow(256, |b|) + BigEndian(b)
  {
    if a == [] {
      assert a + b == b;
    } else {
      BigEndianSplit(a[1..], b);
      assert (a + b)[1..] == a[1..] + b;
      PowAdd(256, |a| - 1, |b|);
      Distribute(a[0], Pow(256, |a| - 1), BigEndian(a[1..]), Pow(256, |b|));
    }
  }

  lemma Distribute(x: nat, p: nat, r: nat, q: nat)
    ensures (x * p + r) * q == x * (p * q) + r * q
  {
    assert (x * p) * q == x * (p * q);
  }

  /** Bytes of one length that stand for the same number are the same bytes. */
  lemma {:induction false} BigEndianInjective(a: seq<Byte>, b: seq<Byte>)
    requires |a| == |b| && BigEndian(a) == BigEndian(b)
    ensures a == b
  {
    if a != [] {
      var p := Pow(256, |a| - 1);
      BigEndianBound(a[1..]);
      BigEndianBound(b[1..]);
      HighDigit(a[0], BigEndian(a[1..]), b[0], BigEndian(b[1..]), p);
      BigEndianInjective(a[1..], b[1..]);
      assert a == [a[0]] + a[1..] && b == [b[0]] + b[1..];
    }
  }

  lemma HighDigit(x: int, r: int, y: int, t: int, p: int)
    requires 0 <= r < p && 0 <= t < p && x * p + r == y * p + t
    ensures x == y && r == t
  {
    assert (x - y) * p == x * p - y * p;
    SmallMultiple(x - y, p, t - r);
  }

  lemma SmallMultiple(d: int, p: int, r: int)
    requires p > 0 && d * p == r && -p < r < p
    ensures d == 0
  {
    assert d >= 1 ==> d * p >= p;
    assert d <= -1 ==> d * p <= -p;
  }

  function Zeros(n: nat): (r: seq<Byte>)
    ensures |r| == n
  {
    seq(n, _ => 0)
  }

  /** The low `n` bytes of a number, high byte first. */
  function BytesOf(v: nat, n: nat): (r: seq<Byte>)
    ensures |r| == n
  {
    if n == 0 then [] else BytesOf(v / 256, n - 1) + [v % 256]
  }

  lemma {:induction false} NumberOfBytes(v: nat, n: nat)
    requires v < Pow(256, n)
    ensures BigEndian(BytesOf(v, n)) == v
  {
    if n > 0 {
      NumberOfBytes(v / 256, n - 1);
      BigEndianSplit(BytesOf(v / 256, n - 1), [v % 256]);
      LastByte(v % 256);
    }
  }

  lemma LastByte(b: Byte)
    ensures BigEndian([b]) == b && Pow(256, 1) == 256
  {
    assert [b][1..] == [];
  }

  // ---------------------------------------------------------------- hexadecimal

  const HEX := "0123456789abcdef"

  function HexNibble(c: char): (r: Option<nat>)
    ensures r.Some? ==> r.value < 16
  {
    if '0' <= c <= '9' then Some(c as int - '0' as int)
    else if 'a' <= c <= 'f' then Some(c as int - 'a' as int + 10)
    else if 'A' <= c <= 'F' then Some(c as int - 'A' as int + 10)
    else None
  }

  function HexText(bytes: seq<Byte>): (r: string)
    ensures |r| == 2 * |bytes|
  {
    if bytes == [] then [] else
      var b := bytes[|bytes| - 1];
      HexText(bytes[..|bytes| - 1]) + [HEX[b / 16], HEX[b % 16]]
  }

  /** Pairs of hexadecimal digits, in either case; None at an odd length or another character. */
  function HexBytes(text: string): (r: Option<seq<Byte>>)
    ensures r.Some? ==> |text| == 2 * |r.value|
  {
    if text == [] then Some([]) else
    if |text| < 2 then None else
      var n := |text| - 2;
      var init, hi, lo := HexBytes(text[..n]), HexNibble(text[n]), HexNibble(text[n + 1]);
      if init.None? || hi.None? || lo.None? then None else Some(init.value + [hi.value * 16 + lo.value])
  }

  method HexEncode(bytes: seq<Byte>) returns (out: string)
    ensures out == HexText(bytes)
  {
    out := "";
    for i := 0 to |bytes|
      invariant out == HexText(bytes[..i])
    {
      assert bytes[..i + 1][..i] == bytes[..i];
      out := out + [HEX[bytes[i] / 16]] + [HEX[bytes[i] % 16]];
    }
    assert bytes[..|bytes|] == bytes;
  }

  /** The decoding loop behind addresses, data and verifiers. */
  method HexDecode(text: string) returns (r: Option<seq<Byte>>)
    requires |text| % 2 == 0
    ensures r == HexBytes(text)
  {
    var out: seq<Byte> := [];
    var index := 0;
    while index < |text|
      invariant index <= |text| && index % 2 == 0
      invariant HexBytes(text[..index]) == Some(out)
    {
      var hi, lo := HexNibble(text[index]), HexNibble(text[index + 1]);
      assert text[..index + 2][..index] == text[..index];
      if hi.None? || lo.None? {
        HexPrefix(text, index + 2);
        return None;
      }
      out := out + [hi.value * 16 + lo.value];
      index := index + 2;
    }
    assert text[..|text|] == text;
    r := Some(out);
  }

  lemma {:induction false} HexPrefix(text: string, i: nat)
    requires i <= |text| && i % 2 == 0 && |text| % 2 == 0 && HexBytes(text[..i]).None?
    ensures HexBytes(text).None?
    decreases |text|
  {
    if i < |text| {
      assert text[..|text| - 2][..i] == text[..i];
      HexPrefix(text[..|text| - 2], i);
    } else {
      assert text[..i] == text;
    }
  }

  lemma NibbleOfHex(n: nat)
    requires n < 16
    ensures HexNibble(HEX[n]) == Some(n)
  {}

  lemma HexSnoc(text: string, hi: char, lo: char)
    requires HexNibble(hi).Some? && HexNibble(lo).Some? && HexBytes(text).Some?
    ensures HexBytes(text + [hi, lo]) == Some(HexBytes(text).value + [HexNibble(hi).value * 16 + HexNibble(lo).value])
  {
    assert (text + [hi, lo])[..|text|] == text;
  }

  lemma {:induction false} HexRoundTrip(bytes: seq<Byte>)
    ensures HexBytes(HexText(bytes)) == Some(bytes)
  {
    hide HexBytes;
    if bytes == [] {
      HexEmpty();
    } else {
      var n := |bytes| - 1;
      var b := bytes[n];
      HexRoundTrip(bytes[..n]);
      NibbleOfHex(b / 16);
      NibbleOfHex(b % 16);
      HexSnoc(HexText(bytes[..n]), HEX[b / 16], HEX[b % 16]);
      assert bytes == bytes[..n] + [b];
    }
  }

  lemma HexEmpty()
    ensures HexBytes("") == Some([])
  {}

  // ---------------------------------------------------------------- what hexadecimal text stands for

  predicate IsHexDigit(c: char) {
    '0' <= c <= '9' || 'a' <= c <= 'f' || 'A' <= c <= 'F'
  }

  function LowerChar(c: char): char {
    if 'A' <= c <= 'Z' then (c as int + 32) as char else c
  }

  /** `to_ascii_lowercase`. */
  function Lower(s: string): (r: string)
    ensures |r| == |s|
  {
    if s == "" then "" else Lower(s[..|s| - 1]) + [LowerChar(s[|s| - 1])]
  }

  predicate IsHex(text: string) {
    |text| % 2 == 0 && forall i :: 0 <= i < |text| ==> IsHexDigit(text[i])
  }

  function HexDigit(c: char): (d: nat)
    requires IsHexDigit(c)
    ensures d < 16
  {
    if c <= '9' then c as int - '0' as int else LowerChar(c) as int - 'a' as int + 10
  }

  /** The number a text stands for in base 16, high digit first. */
  function Base16(text: string): nat
    requires forall i :: 0 <= i < |text| ==> IsHexDigit(text[i])
  {
    if text == "" then 0 else Base16(text[..|text| - 1]) * 16 + HexDigit(text[|text| - 1])
  }

  lemma NibbleIsDigit(c: char)
    ensures HexNibble(c) == if IsHexDigit(c) then Some(HexDigit(c)) else None
    ensures IsHexDigit(c) ==> HEX[HexDigit(c)] == LowerChar(c)
  {}

  /** A text is read exactly when it has an even number of digits, in either case. */
  lemma {:induction false} HexBytesIff(text: string)
    ensures HexBytes(text).Some? <==> IsHex(text)
  {
    if |text| >= 2 {
      var n := |text| - 2;
      HexBytesIff(text[..n]);
      NibbleIsDigit(text[n]);
      NibbleIsDigit(text[n + 1]);
      assert forall i :: 0 <= i < n ==> text[..n][i] == text[i];
      assert IsHex(text) <==> IsHex(text[..n]) && IsHexDigit(text[n]) && IsHexDigit(text[n + 1]);
    }
  }

  function PairOf(init: Option<seq<Byte>>, hi: Option<nat>, lo: Option<nat>): Option<seq<Byte>>
    requires (hi.Some? ==> hi.value < 16) && (lo.Some? ==> lo.value < 16)
  {
    if init.None? || hi.None? || lo.None? then None else Some(init.value + [hi.value * 16 + lo.value])
  }

  lemma HexBytesOf(text: string)
    requires |text| >= 2
    ensures var n := |text| - 2;
      HexBytes(text) == PairOf(HexBytes(text[..n]), HexNibble(text[n]), HexNibble(text[n + 1]))
  {}

  lemma HexBytesParts(text: string)
    requires HexBytes(text).Some? && |text| >= 2
    ensures var init, c, d := text[..|text| - 2], text[|text| - 2], text[|text| - 1];
      HexBytes(init).Some? && IsHexDigit(c) && IsHexDigit(d) &&
      HexBytes(text) == Some(HexBytes(init).value + [HexDigit(c) * 16 + HexDigit(d)])
  {
    hide HexNibble, HexDigit, HexBytes, IsHexDigit;
    HexBytesOf(text);
    NibbleIsDigit(text[|text| - 2]);
    NibbleIsDigit(text[|text| - 1]);
  }

  lemma LastTwo(text: string)
    requires |text| >= 2
    ensures text == text[..|text| - 2] + [text[|text| - 2]] + [text[|text| - 1]]
  {}

  /** Printing the bytes gives the text in lower case. */
  lemma {:induction false} HexBytesIsLower(text: string)
    requires HexBytes(text).Some?
    ensures HexText(HexBytes(text).value) == Lower(text)
  {
    hide HexBytes, HexText, Lower, IsHexDigit, HexDigit;
    if text == "" {
      NoText();
    } else {
      HexBytesParts(text);
      LastTwo(text);
      HexBytesIsLower(text[..|text| - 2]);
      PairIsLower(text[..|text| - 2], HexBytes(text[..|text| - 2]).value, text[|text| - 2], text[|text| - 1]);
    }
  }

  lemma NoText()
    ensures HexBytes("") == Some([]) && HexText([]) == Lower("") && BigEndian([]) == Base16("")
  {}

  lemma PairIsLower(init: string, bytes: seq<Byte>, c: char, d: char)
    requires IsHexDigit(c) && IsHexDigit(d) && HexText(bytes) == Lower(init)
    ensures HexText(bytes + [HexDigit(c) * 16 + HexDigit(d)]) == Lower(init + [c] + [d])
  {
    hide Lower, LowerChar, HexText, HexDigit, HEX;
    NibbleIsDigit(c);
    NibbleIsDigit(d);
    HexTextSnoc(bytes, HexDigit(c) * 16 + HexDigit(d));
    LowerTwo(init, c, d);
  }

  lemma LowerSnoc(s: string, c: char)
    ensures Lower(s + [c]) == Lower(s) + [LowerChar(c)]
  {
    assert (s + [c])[..|s|] == s;
  }

  lemma LowerTwo(s: string, c: char, d: char)
    ensures Lower(s + [c] + [d]) == Lower(s) + [LowerChar(c), LowerChar(d)]
  {
    hide Lower, LowerChar;
    LowerSnoc(s, c);
    LowerSnoc(s + [c], d);
  }

  lemma HexTextSnoc(bytes: seq<Byte>, b: Byte)
    ensures HexText(bytes + [b]) == HexText(bytes) + [HEX[b / 16], HEX[b % 16]]
  {
    assert (bytes + [b])[..|bytes|] == bytes;
  }

  /** The bytes stand for the number that the text stands for. */
  lemma {:induction false} HexBytesIsBase16(text: string)
    requires HexBytes(text).Some?
    ensures IsHex(text) && BigEndian(HexBytes(text).value) == Base16(text)
  {
    hide HexBytes, HexDigit, BigEndian, Base16, HexNibble;
    HexBytesIff(text);
    NoText();
    if text != "" {
      var n := |text| - 2;
      HexBytesParts(text);
      HexBytesIsBase16(text[..n]);
      var init, b := HexBytes(text[..n]).value, HexDigit(text[n]) * 16 + HexDigit(text[n + 1]);
      BigEndianSplit(init, [b]);
      LastByte(b);
      Base16Two(text);
    }
  }

  lemma Base16Two(text: string)
    requires IsHex(text) && text != ""
    ensures var n := |text| - 2;
      Base16(text) == Base16(text[..n]) * 256 + HexDigit(text[n]) * 16 + HexDigit(text[n + 1])
  {
    var init := text[..|text| - 1];
    assert init[..|text| - 2] == text[..|text| - 2];
  }
}

/** Decimal text, as the transaction fields carry it. */
module Decimal {
  import opened Common
  import opened Bytes

  const MAX_DIGITS: nat := 78

  predicate IsDigit(c: char) {
    '0' <= c <= '9'
  }

  function Digit(c: char): nat
    requires IsDigit(c)
  {
    c as int - '0' as int
  }

  predicate AllDigits(text: string) {
    forall i :: 0 <= i < |text| ==> IsDigit(text[i])
  }

  predicate DecimalOk(text: string) {
    text != "" && |text| <= MAX_DIGITS && AllDigits(text) && (text == "0" || text[0] != '0')
  }

  function Number(text: string): nat
    requires AllDigits(text)
  {
    if text == "" then 0 else Number(text[..|text| - 1]) * 10 + Digit(text[|text| - 1])
  }

  lemma {:induction false} PrefixIsSmaller(text: string, i: nat)
    requires AllDigits(text) && i <= |text|
    ensures Number(text[..i]) <= Number(text)
    decreases |text|
  {
    if i < |text| {
      assert text[..|text| - 1][..i] == text[..i];
      PrefixIsSmaller(text[..|text| - 1], i);
    } else {
      assert text[..i] == text;
    }
  }

  /** One byte of the multiply-add, at weight `p`. */
  lemma ByteStep(byte: nat, carry: nat, p: nat, high: nat, low: nat, digit: nat)
    requires high + carry * p == low * 10 + digit
    ensures var next := byte * 10 + carry;
      ((next % 256) * p + high) + (next / 256) * (256 * p) == (byte * p + low) * 10 + digit
  {
    var next := byte * 10 + carry;
    assert next == next / 256 * 256 + next % 256;
    assert (next / 256) * (256 * p) == (next / 256 * 256) * p;
    assert (next % 256) * p + (next / 256 * 256) * p == next * p;
    assert next * p == (byte * 10) * p + carry * p;
    assert (byte * 10) * p == (byte * p) * 10;
  }

  /** Multiply the number in `bytes` by ten and add `digit`, in place. */
  method TimesTenPlus(bytes: array<Byte>, digit: nat) returns (carry: nat)
    requires digit < 10
    modifies bytes
    ensures carry < 10
    ensures BigEndian(bytes[..]) + carry * Pow(256, bytes.Length) == BigEndian(old(bytes[..])) * 10 + digit
  {
    carry := digit;
    var k := bytes.Length;
    ghost var before := bytes[..];
    assert bytes[k..] == [] && before[k..] == [];
    while k > 0
      invariant 0 <= k <= bytes.Length && carry < 10
      invariant bytes[..k] == before[..k]
      invariant BigEndian(bytes[k..]) + carry * Pow(256, bytes.Length - k) == BigEndian(before[k..]) * 10 + digit
    {
      ghost var high, low, p := BigEndian(bytes[k..]), BigEndian(before[k..]), Pow(256, bytes.Length - k);
      ghost var tail := bytes[k..];
      k := k - 1;
      assert bytes[k] == before[..k + 1][k] == before[k];
      ByteStep(bytes[k], carry, p, high, low, digit);
      var next := bytes[k] * 10 + carry;
      bytes[k] := next % 256;
      carry := next / 256;
      assert bytes[k..][1..] == tail && before[k..][1..] == before[k + 1..];
      assert bytes[..k] == before[..k];
    }
    assert bytes[0..] == bytes[..] && before[0..] == before;
  }

  /** The 32 big-endian bytes of an accepted text, if the number fits in them. */
  function Be32(text: string): (r: Option<seq<Byte>>)
    ensures r.Some? ==> |r.value| == 32
  {
    if DecimalOk(text) && Number(text) < Pow(256, 32) then Some(BytesOf(Number(text), 32)) else None
  }

  /** 32 big-endian bytes, exactly when the text is accepted and the number fits. */
  method ToBe32(text: string) returns (r: Option<seq<Byte>>)
    ensures r.Some? <==> DecimalOk(text) && Number(text) < Pow(256, 32)
    ensures r.Some? ==> |r.value| == 32 && BigEndian(r.value) == Number(text)
    ensures r == Be32(text)
  {
    if !DecimalOk(text) {
      return None;
    }
    var bytes := new Byte[32](_ => 0);
    ZeroBytes(bytes[..]);
    for i := 0 to |text|
      invariant fresh(bytes) && bytes.Length == 32
      invariant BigEndian(bytes[..]) == Number(text[..i])
    {
      assert text[..i + 1][..i] == text[..i];
      var carry := TimesTenPlus(bytes, Digit(text[i]));
      if carry != 0 {
        Overflow(carry, Pow(256, 32));
        PrefixIsSmaller(text, i + 1);
        return None;
      }
    }
    assert text[..|text|] == text;
    BigEndianBound(bytes[..]);
    NumberOfBytes(Number(text), 32);
    BigEndianInjective(bytes[..], BytesOf(Number(text), 32));
    r := Some(bytes[..]);
  }

  lemma Overflow(carry: nat, p: nat)
    requires carry > 0
    ensures carry * p >= p
  {}

  lemma {:induction false} ZeroBytes(s: seq<Byte>)
    requires forall i :: 0 <= i < |s| ==> s[i] == 0
    ensures BigEndian(s) == 0
  {
    if s != [] { ZeroBytes(s[1..]); }
  }

  /** The same number as an unsigned 128-bit word, exactly when its upper half is zero. */
  method ToU128(text: string) returns (r: Option<nat>)
    ensures r.Some? <==> DecimalOk(text) && Number(text) < Pow(256, 16)
    ensures r.Some? ==> r.value == Number(text)
  {
    hide Pow, BigEndian, Number;
    var bytes := ToBe32(text);
    PowAdd(256, 16, 16);
    PowPositive(256, 16);
    ghost var p := Pow(256, 16);
    Overflow(p, p);
    if bytes.None? {
      return None;
    }
    var high, low := bytes.value[..16], bytes.value[16..];
    assert bytes.value == high + low;
    BigEndianSplit(high, low);
    BigEndianBound(low);
    if exists i :: 0 <= i < 16 && bytes.value[i] != 0 {
      ghost var i :| 0 <= i < 16 && high[i] != 0;
      NonZeroBytes(high, i);
      Overflow(BigEndian(high), p);
      return None;
    }
    ZeroBytes(high);
    r := Some(BigEndian(low));
  }

  lemma {:induction false} NonZeroBytes(s: seq<Byte>, i: nat)
    requires i < |s| && s[i] != 0
    ensures BigEndian(s) > 0
  {
    hide Pow;
    assert s[0] * Pow(256, |s| - 1) >= 0;
    if i > 0 {
      NonZeroBytes(s[1..], i - 1);
    } else {
      PowPositive(256, |s| - 1);
      Overflow(s[0], Pow(256, |s| - 1));
    }
  }

  // ---------------------------------------------------------------- printing

  function DigitChar(d: nat): (c: char)
    requires d < 10
    ensures IsDigit(c) && Digit(c) == d
  {
    "0123456789"[d]
  }

  /** `u64::to_string` and its like. */
  function Text(n: nat): (r: string)
    ensures r != "" && AllDigits(r)
  {
    if n < 10 then [DigitChar(n)] else Text(n / 10) + [DigitChar(n % 10)]
  }

  lemma {:induction false} NumberOfText(n: nat)
    ensures Number(Text(n)) == n
    ensures Text(n) == "0" || Text(n)[0] != '0'
    ensures n >= 1 ==> Text(n) != "0"
  {
    if n < 10 {
      assert [DigitChar(n)][..0] == "";
      assert Number("") == 0;
    } else {
      NumberOfText(n / 10);
      var head := Text(n / 10);
      assert Text(n)[..|head|] == head;
    }
  }

  /** An accepted text is the one that its number is printed as. */
  lemma {:induction false} AcceptedIsPrinted(text: string)
    requires AllDigits(text) && text != "" && (text == "0" || text[0] != '0')
    ensures Text(Number(text)) == text
    ensures text != "0" ==> Number(text) > 0
  {
    var n := |text| - 1;
    var init, d := text[..n], Digit(text[n]);
    assert DigitChar(d) == text[n];
    if init == "" {
      assert Number(init) == 0 && text == [text[n]];
    } else {
      AcceptedIsPrinted(init);
      assert Number(text) / 10 == Number(init) && Number(text) % 10 == d;
    }
  }

  lemma PowersOfTwoAndTen()
    ensures Pow(256, 8) == 0x1_0000_0000_0000_0000
    ensures Pow(256, 32) < Pow(10, 78)
  {
    assert Pow(256, 4) == 0x1_0000_0000;
    assert Pow(10, 6) == 1000000;
    hide Pow;
    PowAdd(256, 4, 4);
    PowAdd(256, 8, 8);
    PowAdd(256, 16, 16);
    PowAdd(10, 6, 6);
    PowAdd(10, 12, 12);
    PowAdd(10, 24, 24);
    PowAdd(10, 48, 24);
    PowAdd(10, 72, 6);
  }

  /** Every number that fits has an accepted text: the digit limit excludes none. */
  lemma PrintedIsAccepted(n: nat)
    requires n < Pow(256, 32)
    ensures DecimalOk(Text(n)) && Number(Text(n)) == n
  {
    NumberOfText(n);
    PowersOfTwoAndTen();
    TextLength(n, MAX_DIGITS);
  }

  lemma {:induction false} TextLength(n: nat, digits: nat)
    requires digits >= 1 && n < Pow(10, digits)
    ensures |Text(n)| <= digits
  {
    if digits == 1 {
      assert Pow(10, 1) == 10;
    } else if n >= 10 {
      TextLength(n / 10, digits - 1);
    }
  }
}

/** One unsigned legacy transaction: parsing a proposal, printing its normal form, parsing that again.
    JSON text is not modelled: a value stands for its text, so printing and reading back is the identity. */
module Tx {
  import opened Common
  import opened Bytes
  import opened Decimal

  /** A JSON number that is an unsigned integer, a string, an object, or anything else. */
  datatype Json = Num(n: nat) | Str(s: string) | Object(fields: map<string, Json>) | OtherJson

  const U64: nat := 0x1_0000_0000_0000_0000

  datatype UnsignedTx = UnsignedTx(
    chainId: nat,
    nonce: nat,
    gasPrice: nat,
    gasLimit: nat,
    to: seq<Byte>,
    toHex: string,
    value: seq<Byte>,
    valueDec: string,
    gasPriceDec: string,
    data: seq<Byte>,
    dataHex: string
  )

  const ALLOWED := {"chain_id", "data", "gas_limit", "gas_price", "nonce", "to", "value"}

  // ---------------------------------------------------------------- fields

  function AsU64(v: Json): Option<nat> {
    if v.Num? && v.n < U64 then Some(v.n) else None
  }

  function JsonU64(v: Json): Option<nat> {
    if AsU64(v).Some? then AsU64(v)
    else if v.Str? && DecimalOk(Trim(v.s)) && Number(Trim(v.s)) < U64 then Some(Number(Trim(v.s)))
    else None
  }

  /** The decimal text of a field: a number is printed, a string is trimmed. */
  function DecimalText(v: Json): Option<string> {
    if AsU64(v).Some? then Some(Text(v.n)) else if v.Str? then Some(Trim(v.s)) else None
  }

  function JsonU128(v: Json): Option<(nat, string)> {
    var text := DecimalText(v);
    if text.Some? && DecimalOk(text.value) && Number(text.value) < Pow(256, 16)
    then Some((Number(text.value), text.value)) else None
  }

  function JsonBe32(v: Json): Option<(seq<Byte>, string)> {
    var text := DecimalText(v);
    if text.Some? && Be32(text.value).Some? then Some((Be32(text.value).value, text.value)) else None
  }

  function StripHexPrefix(s: string): Option<string> {
    if |s| >= 2 && s[..2] == "0x" then Some(s[2..]) else None
  }

  function ParseAddress(s: string): (r: Option<seq<Byte>>)
    ensures r.Some? ==> |r.value| == 20
  {
    var rest := StripHexPrefix(Trim(s));
    if rest.Some? && |rest.value| == 40 then HexBytes(rest.value) else None
  }

  function ParseData(s: string): (r: Option<seq<Byte>>)
    ensures r.Some? ==> |r.value| <= 256
  {
    var rest := StripHexPrefix(s);
    if rest.Some? && |rest.value| <= 512 && |rest.value| % 2 == 0 then HexBytes(rest.value) else None
  }

  function Field(fields: map<string, Json>, key: string): Json {
    if key in fields then fields[key] else OtherJson
  }

  /** A proposal object. Extra keys, a raw payload among them, fail. */
  function ParseUnsigned(v: Json): Result<UnsignedTx, string> {
    if !v.Object? then Err("fields")
    else if exists key :: key in v.fields && key !in ALLOWED then Err("raw")
    else
      var f := v.fields;
      var chainId, nonce := JsonU64(Field(f, "chain_id")), JsonU64(Field(f, "nonce"));
      var gasPrice, gasLimit := JsonU128(Field(f, "gas_price")), JsonU64(Field(f, "gas_limit"));
      var toText := Field(f, "to");
      var to := if toText.Str? then ParseAddress(toText.s) else None;
      var value := JsonBe32(Field(f, "value"));
      var dataText := if "data" !in f then Some("0x") else if f["data"].Str? then Some(Trim(f["data"].s)) else None;
      var data := if dataText.Some? then ParseData(dataText.value) else None;
      if chainId.None? || chainId.value == 0 || nonce.None? || gasPrice.None? || gasLimit.None? ||
         !(21_000 <= gasLimit.value <= 30_000_000) || to.None? || value.None? || data.None?
      then Err("fields")
      else Ok(UnsignedTx(
        chainId.value, nonce.value, gasPrice.value.0, gasLimit.value,
        to.value, "0x" + HexText(to.value),
        value.value.0, value.value.1, gasPrice.value.1,
        data.value, if data.value == [] then "0x" else "0x" + HexText(data.value)))
  }

  /** Stable JSON: no signature and no signed payload. */
  function Canonical(tx: UnsignedTx): Json {
    Object(map[
      "chain_id" := Num(tx.chainId),
      "data" := Str(tx.dataHex),
      "gas_limit" := Num(tx.gasLimit),
      "gas_price" := Str(tx.gasPriceDec),
      "nonce" := Num(tx.nonce),
      "to" := Str(tx.toHex),
      "value" := Str(tx.valueDec)
    ])
  }

  // ---------------------------------------------------------------- the normal form

  /** Exactly the transactions a proposal can be parsed into. */
  predicate NormalTx(tx: UnsignedTx) {
    1 <= tx.chainId < U64 && tx.nonce < U64 && 21_000 <= tx.gasLimit <= 30_000_000 &&
    DecimalOk(tx.gasPriceDec) && tx.gasPrice == Number(tx.gasPriceDec) && tx.gasPrice < Pow(256, 16) &&
    |tx.to| == 20 && tx.toHex == "0x" + HexText(tx.to) &&
    Be32(tx.valueDec) == Some(tx.value) &&
    |tx.data| <= 256 && tx.dataHex == "0x" + HexText(tx.data)
  }

  lemma AcceptedIsNormal(v: Json, tx: UnsignedTx)
    requires ParseUnsigned(v) == Ok(tx)
    ensures NormalTx(tx)
  {
    hide Trim, Number, DecimalOk, HexBytes, HexText, Be32, Pow;
    assert tx.data == [] ==> HexText(tx.data) == "" && "0x" + "" == "0x";
  }

  lemma TrimKeeps(s: string)
    requires s != "" && !IsSpace(s[0]) && !IsSpace(s[|s| - 1])
    ensures Trim(s) == s
  {}

  lemma {:induction false} HexHasNoSpace(bytes: seq<Byte>)
    ensures forall i :: 0 <= i < |HexText(bytes)| ==> !IsSpace(HexText(bytes)[i])
  {
    if bytes != [] {
      HexHasNoSpace(bytes[..|bytes| - 1]);
      var b := bytes[|bytes| - 1];
      NibbleOfHex(b / 16);
      NibbleOfHex(b % 16);
    }
  }

  lemma PrefixedHex(bytes: seq<Byte>)
    ensures var s := "0x" + HexText(bytes); Trim(s) == s && StripHexPrefix(s) == Some(HexText(bytes))
  {
    var s := "0x" + HexText(bytes);
    HexHasNoSpace(bytes);
    assert s[|s| - 1] == if bytes == [] then 'x' else HexText(bytes)[|s| - 3];
    TrimKeeps(s);
    assert s[..2] == "0x" && s[2..] == HexText(bytes);
  }

  lemma DecimalIsTrimmed(text: string)
    requires DecimalOk(text)
    ensures Trim(text) == text
  {
    assert IsDigit(text[0]) && IsDigit(text[|text| - 1]);
    TrimKeeps(text);
  }

  /** Printing a normal transaction and parsing it again gives the same transaction. */
  lemma NormalRoundTrip(tx: UnsignedTx)
    requires NormalTx(tx)
    ensures ParseUnsigned(Canonical(tx)) == Ok(tx)
  {
    hide Trim, Number, HexBytes, HexText, Pow, BytesOf;
    PrefixedHex(tx.to);
    PrefixedHex(tx.data);
    HexRoundTrip(tx.to);
    HexRoundTrip(tx.data);
    DecimalIsTrimmed(tx.gasPriceDec);
    DecimalIsTrimmed(tx.valueDec);
    CanonicalFields(tx);
    var v := Canonical(tx);
    assert "0x" + "" == "0x" && (tx.data == [] ==> HexText(tx.data) == "");
    assert !(exists key :: key in v.fields && key !in ALLOWED);
    assert JsonU64(Field(v.fields, "chain_id")) == Some(tx.chainId);
    assert JsonU64(Field(v.fields, "nonce")) == Some(tx.nonce);
    assert JsonU64(Field(v.fields, "gas_limit")) == Some(tx.gasLimit);
    assert JsonU128(Field(v.fields, "gas_price")) == Some((tx.gasPrice, tx.gasPriceDec));
    assert JsonBe32(Field(v.fields, "value")) == Some((tx.value, tx.valueDec));
    assert ParseAddress(tx.toHex) == Some(tx.to);
    assert ParseData(Trim(tx.dataHex)) == Some(tx.data);
  }

  lemma CanonicalFields(tx: UnsignedTx)
    ensures var f := Canonical(tx).fields;
      f.Keys == ALLOWED &&
      Field(f, "chain_id") == Num(tx.chainId) && Field(f, "nonce") == Num(tx.nonce) &&
      Field(f, "gas_limit") == Num(tx.gasLimit) && Field(f, "gas_price") == Str(tx.gasPriceDec) &&
      Field(f, "to") == Str(tx.toHex) && Field(f, "value") == Str(tx.valueDec) &&
      "data" in f && f["data"] == Str(tx.dataHex)
  {}

  /** The normal form is exactly what parsing can give. */
  lemma NormalIsParsed(tx: UnsignedTx)
    ensures NormalTx(tx) <==> exists v :: ParseUnsigned(v) == Ok(tx)
  {
    if NormalTx(tx) {
      NormalRoundTrip(tx);
    } else {
      forall v | ParseUnsigned(v) == Ok(tx) ensures false {
        AcceptedIsNormal(v, tx);
      }
    }
  }

  // ---------------------------------------------------------------- what a proposal stands for

  /** A field stands for a number: as a JSON number of 64 bits, or as decimal text, spaces aside. */
  predicate Says(v: Json, n: nat) {
    (v.Num? && v.n == n && n < 0x1_0000_0000_0000_0000) ||
    (v.Str? && DecimalOk(Trim(v.s)) && Number(Trim(v.s)) == n)
  }

  /** The text is `0x` and digits in either case, which stand for these bytes. */
  predicate Spells(text: string, bytes: seq<Byte>) {
    "0x" <= text && IsHex(text[2..]) && |text| == 2 + 2 * |bytes| && BigEndian(bytes) == Base16(text[2..])
  }

  function AddressText(f: map<string, Json>): string {
    if Field(f, "to").Str? then Trim(Field(f, "to").s) else ""
  }

  /** Missing data is empty data; data that are not text are refused, as no text is. */
  function DataText(f: map<string, Json>): string {
    if "data" !in f then "0x" else if f["data"].Str? then Trim(f["data"].s) else ""
  }

  /** The proposal stands for this transaction. */
  predicate Denotes(v: Json, tx: UnsignedTx) {
    v.Object? && v.fields.Keys <= {"chain_id", "data", "gas_limit", "gas_price", "nonce", "to", "value"} &&
    var f := v.fields;
    Says(Field(f, "chain_id"), tx.chainId) && 1 <= tx.chainId < Pow(256, 8) &&
    Says(Field(f, "nonce"), tx.nonce) && tx.nonce < Pow(256, 8) &&
    Says(Field(f, "gas_price"), tx.gasPrice) && tx.gasPrice < Pow(256, 16) &&
    Says(Field(f, "gas_limit"), tx.gasLimit) && 21_000 <= tx.gasLimit <= 30_000_000 &&
    |tx.to| == 20 && Spells(AddressText(f), tx.to) &&
    |tx.value| == 32 && Says(Field(f, "value"), BigEndian(tx.value)) &&
    |tx.data| <= 256 && Spells(DataText(f), tx.data) &&
    tx.toHex == Lower(AddressText(f)) && tx.dataHex == Lower(DataText(f)) &&
    tx.gasPriceDec == Text(tx.gasPrice) && tx.valueDec == Text(BigEndian(tx.value))
  }

  lemma {:induction false} U64Says(v: Json, n: nat)
    ensures JsonU64(v) == Some(n) <==> Says(v, n) && n < Pow(256, 8)
  {
    hide Trim, Number, DecimalOk, Pow;
    PowersOfTwoAndTen();
  }

  lemma {:induction false} DecimalTextSays(v: Json, n: nat)
    requires n < Pow(256, 32)
    ensures Says(v, n) <==> DecimalText(v).Some? && DecimalOk(DecimalText(v).value) && Number(DecimalText(v).value) == n
    ensures Says(v, n) ==> DecimalText(v) == Some(Text(n))
  {
    hide Trim, Number, Text, Pow;
    PowersOfTwoAndTen();
    PrintedIsAccepted(n);
    if v.Num? && v.n < U64 { NumberOfText(v.n); PrintedFits(v.n); }
    if v.Str? && DecimalOk(Trim(v.s)) { AcceptedIsPrinted(Trim(v.s)); }
  }

  lemma PrintedFits(n: nat)
    requires n < U64
    ensures DecimalOk(Text(n)) && Number(Text(n)) == n
  {
    hide Pow;
    PowersOfTwoAndTen();
    PowAdd(256, 8, 24);
    PowPositive(256, 24);
    Overflow(Pow(256, 24), Pow(256, 8));
    PrintedIsAccepted(n);
  }

  lemma {:induction false} U128Says(v: Json, n: nat, text: string)
    ensures JsonU128(v) == Some((n, text)) <==> Says(v, n) && n < Pow(256, 16) && text == Text(n)
  {
    hide Trim, Number, Text, Pow, DecimalOk, DecimalText, Says;
    PowAdd(256, 16, 16);
    PowPositive(256, 16);
    Overflow(Pow(256, 16), Pow(256, 16));
    if n < Pow(256, 16) { DecimalTextSays(v, n); }
  }

  lemma {:induction false} Be32Says(v: Json, bytes: seq<Byte>, text: string)
    ensures JsonBe32(v) == Some((bytes, text)) <==>
      |bytes| == 32 && Says(v, BigEndian(bytes)) && text == Text(BigEndian(bytes))
  {
    hide Trim, Number, Text, Pow, DecimalText, Says, BytesOf;
    if |bytes| == 32 {
      BigEndianBound(bytes);
      DecimalTextSays(v, BigEndian(bytes));
    }
    if JsonBe32(v).Some? { NumberOfBytes(Number(DecimalText(v).value), 32); }
    if |bytes| == 32 && Says(v, BigEndian(bytes)) {
      NumberOfBytes(BigEndian(bytes), 32);
      BigEndianInjective(bytes, BytesOf(BigEndian(bytes), 32));
    }
  }

  /** Reading the digits behind `0x`. */
  lemma {:induction false} HexSpells(text: string, bytes: seq<Byte>)
    ensures StripHexPrefix(text).Some? && HexBytes(StripHexPrefix(text).value) == Some(bytes) <==> Spells(text, bytes)
    ensures Spells(text, bytes) ==> "0x" + HexText(bytes) == Lower(text)
  {
    hide HexBytes, HexText, Lower, BigEndian, Base16, IsHexDigit;
    if "0x" <= text {
      var rest := text[2..];
      assert text == "0x" + rest && text[..2] == "0x";
      HexBytesIff(rest);
      if IsHex(rest) {
        HexBytesIsBase16(rest);
        HexBytesIsLower(rest);
        if |text| == 2 + 2 * |bytes| && BigEndian(bytes) == Base16(rest) {
          BigEndianInjective(bytes, HexBytes(rest).value);
        }
      }
      LowerPrefix(rest);
    }
  }

  lemma {:induction false} LowerPrefix(rest: string)
    ensures Lower("0x" + rest) == "0x" + Lower(rest)
  {
    if rest == "" {
      assert Lower("0") == "0" by { assert "0"[..0] == ""; }
      assert "0x"[..1] == "0" && "0x" + "" == "0x";
    } else {
      var n := |rest| - 1;
      LowerPrefix(rest[..n]);
      assert ("0x" + rest)[..n + 2] == "0x" + rest[..n];
    }
  }

  /** A proposal is accepted exactly when it stands for a transaction, and as that transaction. */
  lemma {:induction false} ParsedIff(v: Json, tx: UnsignedTx)
    ensures ParseUnsigned(v) == Ok(tx) <==> Denotes(v, tx)
  {
    hide Trim, Number, HexBytes, HexText, Pow, BytesOf, Text, Says, Spells, JsonU64, JsonU128, JsonBe32, Lower, BigEndian;
    PowersOfTwoAndTen();
    assert HexText([]) == "" && "0x" + "" == "0x";
    if v.Object? {
      var f := v.fields;
      U64Says(Field(f, "chain_id"), tx.chainId);
      U64Says(Field(f, "nonce"), tx.nonce);
      U64Says(Field(f, "gas_limit"), tx.gasLimit);
      U128Says(Field(f, "gas_price"), tx.gasPrice, tx.gasPriceDec);
      Be32Says(Field(f, "value"), tx.value, tx.valueDec);
      HexSpells(AddressText(f), tx.to);
      HexSpells(DataText(f), tx.data);
    }
  }

  /** A foreign key, a raw payload among them, is told apart from fields that stand for nothing. */
  lemma RefusedFor(v: Json)
    ensures ParseUnsigned(v) == Err("raw") <==>
      v.Object? && !(v.fields.Keys <= {"chain_id", "data", "gas_limit", "gas_price", "nonce", "to", "value"})
    ensures ParseUnsigned(v).Err? ==> ParseUnsigned(v).error in {"raw", "fields"}
  {
    hide JsonU64, JsonU128, JsonBe32, HexBytes, HexText, Trim;
  }

  /** What was proposed is what the stored arguments say at confirm, on every field. */
  lemma ProposedIsStored(v: Json, tx: UnsignedTx)
    requires ParseUnsigned(v) == Ok(tx)
    ensures ParseUnsigned(Canonical(tx)) == Ok(tx)
  {
    AcceptedIsNormal(v, tx);
    NormalRoundTrip(tx);
  }
}
