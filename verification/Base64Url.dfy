/** base64url without padding: section 5 of RFC 4648. */
module Base64Url {
  import opened Common
  import opened Bytes

  const TABLE0 := "ABCDEFGHIJKLMNOP"
  const TABLE1 := "QRSTUVWXYZabcdef"
  const TABLE2 := "ghijklmnopqrstuv"
  const TABLE3 := "wxyz0123456789-_"
  const MAX_TEXT: nat := 4096

  predicate IsAlphabet(c: char) {
    'a' <= c <= 'z' || 'A' <= c <= 'Z' || '0' <= c <= '9' || c == '-' || c == '_'
  }

  predicate IsBase64Url(text: string) {
    forall i :: 0 <= i < |text| ==> IsAlphabet(text[i])
  }

  function Value(c: char): (v: nat)
    requires IsAlphabet(c)
    ensures v < 64
  {
    if 'A' <= c <= 'Z' then c as int - 'A' as int
    else if 'a' <= c <= 'z' then c as int - 'a' as int + 26
    else if '0' <= c <= '9' then c as int - '0' as int + 52
    else if c == '-' then 62
    else 63
  }

  /** The alphabet, a quarter at a time. */
  function Letter(v: nat): char
    requires v < 64
  {
    if v < 16 then TABLE0[v] else if v < 32 then TABLE1[v - 16] else if v < 48 then TABLE2[v - 32] else TABLE3[v - 48]
  }

  lemma Quarters(i: nat)
    requires i < 16
    ensures TABLE0[i] as int == 'A' as int + i
    ensures TABLE1[i] as int == if i < 10 then 'Q' as int + i else 'a' as int + i - 10
    ensures TABLE2[i] as int == 'g' as int + i
    ensures TABLE3[i] as int ==
      if i < 4 then 'w' as int + i else if i < 14 then '0' as int + i - 4 else if i == 14 then '-' as int else '_' as int
  {}

  lemma LetterValue(v: nat)
    requires v < 64
    ensures IsAlphabet(Letter(v)) && Value(Letter(v)) == v
  {
    hide TABLE0, TABLE1, TABLE2, TABLE3;
    Quarters(v % 16);
  }

  lemma ValueLetter(c: char)
    requires IsAlphabet(c)
    ensures Letter(Value(c)) == c
  {
    if 'A' <= c <= 'P' {
    } else if 'Q' <= c <= 'Z' || 'a' <= c <= 'f' {
    } else if 'g' <= c <= 'v' {
    } else {
    }
  }

  /** The alphabet of the standard, in order. */
  const ALPHABET := TABLE0 + TABLE1 + TABLE2 + TABLE3

  lemma Joined(a: string, b: string, c: string, d: string, v: nat)
    requires |a| == |b| == |c| == |d| == 16 && v < 64
    ensures |a + b + c + d| == 64
    ensures (a + b + c + d)[v] ==
      if v < 16 then a[v] else if v < 32 then b[v - 16] else if v < 48 then c[v - 32] else d[v - 48]
  {}

  lemma TableLengths()
    ensures |TABLE0| == |TABLE1| == |TABLE2| == |TABLE3| == 16
  {}

  /** Each value has the alphabet's character, and that character the value: letters, digits, hyphen, underscore. */
  lemma AlphabetIs(v: nat)
    requires v < 64
    ensures |ALPHABET| == 64 && Letter(v) == ALPHABET[v] && IsAlphabet(ALPHABET[v]) && Value(ALPHABET[v]) == v
    ensures ALPHABET[v] as int ==
      if v < 26 then 'A' as int + v else if v < 52 then 'a' as int + v - 26
      else if v < 62 then '0' as int + v - 52 else if v == 62 then '-' as int else '_' as int
  {
    hide TABLE0, TABLE1, TABLE2, TABLE3;
    TableLengths();
    Joined(TABLE0, TABLE1, TABLE2, TABLE3, v);
    Quarters(v % 16);
    LetterValue(v);
  }

  lemma InAlphabet(c: char)
    ensures |ALPHABET| == 64
    ensures IsAlphabet(c) <==> c in ALPHABET
  {
    hide ALPHABET, Letter, Value;
    AlphabetIs(0);
    if IsAlphabet(c) {
      ValueLetter(c);
      AlphabetIs(Value(c));
    }
    forall v | 0 <= v < 64 ensures IsAlphabet(ALPHABET[v]) { AlphabetIs(v); }
  }

  // ---------------------------------------------------------------- groups

  function OfBytes(a: int, b: int, c: int): int {
    a * 65536 + b * 256 + c
  }

  function OfSextets(s0: int, s1: int, s2: int, s3: int): int {
    s0 * 262144 + s1 * 4096 + s2 * 64 + s3
  }

  /** The bytes of a 24-bit chunk, high to low. */
  lemma BytesOfChunk(a: int, b: int, c: int)
    requires 0 <= a < 256 && 0 <= b < 256 && 0 <= c < 256
    ensures var n := OfBytes(a, b, c);
      n / 65536 == a && n / 256 % 256 == b && n % 256 == c && 0 <= n < 16777216
  {
    var n := OfBytes(a, b, c);
    assert n == (a * 256 + b) * 256 + c;
    assert n / 256 == a * 256 + b;
  }

  /** The sextets of a 24-bit chunk, high to low. */
  lemma SextetsOfChunk(s0: int, s1: int, s2: int, s3: int)
    requires 0 <= s0 < 64 && 0 <= s1 < 64 && 0 <= s2 < 64 && 0 <= s3 < 64
    ensures var n := OfSextets(s0, s1, s2, s3);
      n / 262144 == s0 && n / 4096 % 64 == s1 && n / 64 % 64 == s2 && n % 64 == s3 && 0 <= n < 16777216
  {
    var n := OfSextets(s0, s1, s2, s3);
    var high := s0 * 64 + s1;
    assert n / 64 == high * 64 + s2;
    assert n / 4096 == high;
  }

  /** Regrouping: four sextets as three bytes. */
  lemma Regroup(s0: int, s1: int, s2: int, s3: int)
    requires 0 <= s0 < 64 && 0 <= s1 < 64 && 0 <= s2 < 64 && 0 <= s3 < 64
    ensures OfSextets(s0, s1, s2, s3) == OfBytes(s0 * 4 + s1 / 16, s1 % 16 * 16 + s2 / 4, s2 % 4 * 64 + s3)
  {
    assert s1 == s1 / 16 * 16 + s1 % 16 && s2 == s2 / 4 * 4 + s2 % 4;
  }

  function Sextets(n: int): (r: (nat, nat, nat, nat))
    requires 0 <= n < 16777216
    ensures r.0 < 64 && r.1 < 64 && r.2 < 64 && r.3 < 64
  {
    (n / 262144, n / 4096 % 64, n / 64 % 64, n % 64)
  }

  /** Every 24-bit chunk is the chunk of its sextets. */
  lemma ChunkOfSextets(n: int)
    requires 0 <= n < 16777216
    ensures var s := Sextets(n); OfSextets(s.0, s.1, s.2, s.3) == n
  {
    assert n == n / 64 * 64 + n % 64;
    assert n / 64 == n / 4096 * 64 + n / 64 % 64;
    assert n / 4096 == n / 262144 * 64 + n / 4096 % 64;
  }

  /** Characters for one, two or three bytes; missing low bits are zero. */
  function EncodeGroup(g: seq<Byte>): (r: string)
    requires 1 <= |g| <= 3
    ensures |r| == |g| + 1 && IsBase64Url(r)
  {
    var b, c := if |g| > 1 then g[1] else 0, if |g| > 2 then g[2] else 0;
    BytesOfChunk(g[0], b, c);
    var s := Sextets(OfBytes(g[0], b, c));
    LetterValue(s.0);
    LetterValue(s.1);
    LetterValue(s.2);
    LetterValue(s.3);
    var two := [Letter(s.0), Letter(s.1)];
    if |g| == 1 then two else if |g| == 2 then two + [Letter(s.2)] else two + [Letter(s.2), Letter(s.3)]
  }

  function SextetAt(t: string, i: nat): (v: nat)
    requires IsBase64Url(t)
    ensures v < 64
  {
    if i < |t| then Value(t[i]) else 0
  }

  /** Bytes for two, three or four characters; spare low bits are dropped. */
  function DecodeGroup(t: string): (r: seq<Byte>)
    requires 2 <= |t| <= 4 && IsBase64Url(t)
    ensures |r| == |t| - 1
  {
    SextetsOfChunk(SextetAt(t, 0), SextetAt(t, 1), SextetAt(t, 2), SextetAt(t, 3));
    var n := OfSextets(SextetAt(t, 0), SextetAt(t, 1), SextetAt(t, 2), SextetAt(t, 3));
    if |t| == 2 then [n / 65536]
    else if |t| == 3 then [n / 65536, n / 256 % 256]
    else [n / 65536, n / 256 % 256, n % 256]
  }

  /** The bits of the last character that carry no byte. */
  function SpareBits(t: string): nat
    requires IsBase64Url(t) && t != ""
  {
    var v := Value(t[|t| - 1]);
    if |t| % 4 == 2 then v % 16 else if |t| % 4 == 3 then v % 4 else 0
  }

  lemma DecodeEncodedGroup(g: seq<Byte>)
    requires 1 <= |g| <= 3
    ensures DecodeGroup(EncodeGroup(g)) == g
  {
    hide IsAlphabet, Value, Letter, Sextets, OfSextets, OfBytes;
    var a, b, c := g[0], if |g| > 1 then g[1] else 0, if |g| > 2 then g[2] else 0;
    BytesOfChunk(a, b, c);
    var n := OfBytes(a, b, c);
    var s := Sextets(n);
    LetterValue(s.0);
    LetterValue(s.1);
    LetterValue(s.2);
    LetterValue(s.3);
    ChunkOfSextets(n);
    ShortGroups(a, b, c);
    var t := EncodeGroup(g);
    assert SextetAt(t, 0) == s.0 && SextetAt(t, 1) == s.1;
    assert |g| >= 2 ==> SextetAt(t, 2) == s.2;
    assert |g| == 3 ==> SextetAt(t, 3) == s.3;
  }

  /** With fewer bytes the trailing sextets are zero. */
  lemma ShortGroups(a: int, b: int, c: int)
    requires 0 <= a < 256 && 0 <= b < 256 && 0 <= c < 256
    ensures 0 <= OfBytes(a, b, c) < 16777216
    ensures c == 0 ==> Sextets(OfBytes(a, b, c)).3 == 0
    ensures b == c == 0 ==> Sextets(OfBytes(a, b, c)).2 == 0
  {
    assert a == a / 4 * 4 + a % 4 && b == b / 16 * 16 + b % 16 && c == c / 64 * 64 + c % 64;
    assert OfBytes(a, b, c) == OfSextets(a / 4, a % 4 * 16 + b / 16, b % 16 * 4 + c / 64, c % 64);
    SextetsOfChunk(a / 4, a % 4 * 16 + b / 16, b % 16 * 4 + c / 64, c % 64);
  }

  lemma DifferentCharacters(v: nat, w: nat)
    requires v < 64 && w < 64
    ensures Letter(v) == Letter(w) <==> v == w
  {
    LetterValue(v);
    LetterValue(w);
  }

  /** What encoding makes of the kept bits of four sextets. */
  lemma KeptSextets(s0: int, s1: int, s2: int, s3: int, kept: nat)
    requires 0 <= s0 < 64 && 0 <= s1 < 64 && 0 <= s2 < 64 && 0 <= s3 < 64 && 1 <= kept <= 3
    requires kept < 3 ==> s3 == 0
    requires kept < 2 ==> s2 == 0
    ensures var n := OfSextets(s0, s1, s2, s3);
      var a, b, c := n / 65536, if kept >= 2 then n / 256 % 256 else 0, if kept >= 3 then n % 256 else 0;
      0 <= a < 256 && 0 <= OfBytes(a, b, c) < 16777216 &&
      Sextets(OfBytes(a, b, c)) ==
        if kept == 1 then (s0, s1 / 16 * 16, 0, 0) else if kept == 2 then (s0, s1, s2 / 4 * 4, 0) else (s0, s1, s2, s3)
  {
    hide OfSextets, OfBytes;
    Regroup(s0, s1, s2, s3);
    BytesOfChunk(s0 * 4 + s1 / 16, s1 % 16 * 16 + s2 / 4, s2 % 4 * 64 + s3);
    var t1, t2 := if kept == 1 then s1 / 16 * 16 else s1, if kept == 1 then 0 else if kept == 2 then s2 / 4 * 4 else s2;
    Regroup(s0, t1, t2, s3);
    SextetsOfChunk(s0, t1, t2, s3);
  }

  lemma EncodeDecodedGroup(t: string)
    requires 2 <= |t| <= 4 && IsBase64Url(t)
    ensures EncodeGroup(DecodeGroup(t)) == t <==> SpareBits(t) == 0
  {
    hide IsAlphabet, Value, Letter, Sextets, OfSextets, OfBytes;
    var s0, s1, s2, s3 := SextetAt(t, 0), SextetAt(t, 1), SextetAt(t, 2), SextetAt(t, 3);
    KeptSextets(s0, s1, s2, s3, |t| - 1);
    ValueLetter(t[0]);
    ValueLetter(t[1]);
    var r := EncodeGroup(DecodeGroup(t));
    if |t| == 2 {
      assert r == [Letter(s0), Letter(s1 / 16 * 16)];
      DifferentCharacters(s1, s1 / 16 * 16);
      assert t == [Letter(s0), Letter(s1)];
    } else {
      ValueLetter(t[2]);
      if |t| == 3 {
        assert r == [Letter(s0), Letter(s1), Letter(s2 / 4 * 4)];
        DifferentCharacters(s2, s2 / 4 * 4);
        assert t == [Letter(s0), Letter(s1), Letter(s2)];
      } else {
        ValueLetter(t[3]);
        assert r == [Letter(s0), Letter(s1), Letter(s2), Letter(s3)];
        assert t == [Letter(s0), Letter(s1), Letter(s2), Letter(s3)];
      }
    }
  }

  // ---------------------------------------------------------------- whole texts

  function Encode(data: seq<Byte>): (r: string)
    ensures IsBase64Url(r)
  {
    if data == [] then ""
    else if |data| <= 3 then EncodeGroup(data)
    else EncodeGroup(data[..3]) + Encode(data[3..])
  }

  function DecodeGroups(text: string): seq<Byte>
    requires IsBase64Url(text) && |text| % 4 != 1
  {
    if text == "" then []
    else if |text| <= 4 then DecodeGroup(text)
    else DecodeGroup(text[..4]) + DecodeGroups(text[4..])
  }

  function Decode(text: string): Option<seq<Byte>> {
    if text == "" || |text| > MAX_TEXT || !IsBase64Url(text) || |text| % 4 == 1 then None
    else Some(DecodeGroups(text))
  }

  /** Encoded length: the least number of characters that hold the bits. */
  lemma {:induction false} EncodedLength(data: seq<Byte>)
    ensures |Encode(data)| == (4 * |data| + 2) / 3
    ensures |Encode(data)| % 4 != 1
  {
    hide EncodeGroup;
    if |data| > 3 { EncodedLength(data[3..]); }
  }

  lemma {:induction false} GroupsRoundTrip(data: seq<Byte>)
    ensures |Encode(data)| % 4 != 1 && DecodeGroups(Encode(data)) == data
  {
    hide EncodeGroup, DecodeGroup;
    EncodedLength(data);
    if data != [] {
      if |data| <= 3 {
        DecodeEncodedGroup(data);
      } else {
        GroupsRoundTrip(data[3..]);
        EncodedLength(data[3..]);
        DecodeEncodedGroup(data[..3]);
        var head, tail := EncodeGroup(data[..3]), Encode(data[3..]);
        assert (head + tail)[..4] == head && (head + tail)[4..] == tail;
        assert data == data[..3] + data[3..];
      }
    }
  }

  /** Decoding gives the data back on 1 to 3072 bytes, and on no other length. */
  lemma DecodeInvertsEncode(data: seq<Byte>)
    ensures Decode(Encode(data)) == Some(data) <==> 1 <= |data| <= 3072
  {
    EncodedLength(data);
    GroupsRoundTrip(data);
  }

  lemma {:induction false} EncodeOfGroups(text: string)
    requires IsBase64Url(text) && |text| % 4 != 1
    ensures Encode(DecodeGroups(text)) == text <==> text == "" || SpareBits(text) == 0
  {
    hide EncodeGroup, DecodeGroup, IsBase64Url;
    if 0 < |text| <= 4 {
      EncodeDecodedGroup(text);
    } else if text != "" {
      TailIsBase64Url(text[..4], text[4..], text);
      EncodeOfGroups(text[4..]);
      EncodeOfMore(text[..4], text[4..], text);
    }
  }

  lemma EncodeOfMore(head: string, tail: string, text: string)
    requires text == head + tail && |head| == 4 && tail != "" && |tail| % 4 != 1
    requires IsBase64Url(head) && IsBase64Url(tail) && IsBase64Url(text) && SpareBits(head) == 0
    ensures Encode(DecodeGroups(text)) == text <==> Encode(DecodeGroups(tail)) == tail
  {
    hide *;
    assert text[..4] == head && text[4..] == tail;
    DecodeFirst(text);
    RestIsNotEmpty(tail);
    EncodeDecodedGroup(head);
    EncodeParts(DecodeGroup(head), DecodeGroups(tail));
    SameTail(head, Encode(DecodeGroups(tail)), tail);
  }

  lemma TailIsBase64Url(head: string, tail: string, text: string)
    requires IsBase64Url(text) && text == head + tail && |head| == 4 && tail != ""
    ensures IsBase64Url(head) && IsBase64Url(tail)
    ensures SpareBits(text) == SpareBits(tail) && SpareBits(head) == 0
  {
    forall i | 0 <= i < 4 ensures IsAlphabet(head[i]) { assert text[i] == head[i]; }
    forall i | 0 <= i < |tail| ensures IsAlphabet(tail[i]) { assert text[4 + i] == tail[i]; }
  }

  lemma EncodeParts(d: seq<Byte>, rest: seq<Byte>)
    requires |d| == 3 && rest != []
    ensures Encode(d + rest) == EncodeGroup(d) + Encode(rest)
  {
    assert (d + rest)[..3] == d && (d + rest)[3..] == rest;
  }

  lemma SameTail(head: string, a: string, b: string)
    ensures head + a == head + b <==> a == b
  {
    assert (head + a)[|head|..] == a && (head + b)[|head|..] == b;
  }

  lemma RestIsNotEmpty(text: string)
    requires IsBase64Url(text) && |text| % 4 != 1 && text != ""
    ensures DecodeGroups(text) != []
  {}

  /** Encoding gives an accepted text back exactly when its spare bits are zero. */
  lemma EncodeInvertsDecode(text: string)
    ensures Decode(text).Some? ==> (Encode(Decode(text).value) == text <==> SpareBits(text) == 0)
  {
    if Decode(text).Some? {
      EncodeOfGroups(text);
    }
  }

  // ---------------------------------------------------------------- what an encoding stands for

  /** The number a text stands for in base 64, high digit first. */
  function Base64(text: string): nat
    requires IsBase64Url(text)
  {
    if text == "" then 0 else Value(text[0]) * Pow(64, |text| - 1) + Base64(text[1..])
  }

  lemma {:induction false} Base64Split(a: string, b: string)
    requires IsBase64Url(a) && IsBase64Url(b)
    ensures IsBase64Url(a + b) && Base64(a + b) == Base64(a) * Pow(64, |b|) + Base64(b)
  {
    hide IsAlphabet, Value, Base64, Pow;
    if a == "" {
      assert a + b == b;
      NoDigits();
    } else {
      Base64Split(a[1..], b);
      Base64First(a);
      Base64First(a + b);
      assert (a + b)[1..] == a[1..] + b && (a + b)[0] == a[0];
      PowAdd(64, |a| - 1, |b|);
      Distribute(Value(a[0]), Pow(64, |a| - 1), Base64(a[1..]), Pow(64, |b|));
    }
  }

  lemma NoDigits()
    ensures IsBase64Url("") && Base64("") == 0
  {}

  lemma Base64First(text: string)
    requires IsBase64Url(text) && text != ""
    ensures Base64(text) == Value(text[0]) * Pow(64, |text| - 1) + Base64(text[1..])
  {}

  /** The weight of the zero bits that fill the last character. */
  function Filled(n: nat): nat {
    if n % 3 == 1 then 16 else if n % 3 == 2 then 4 else 1
  }

  lemma GroupNumber(g: seq<Byte>)
    requires 1 <= |g| <= 3
    ensures Base64(EncodeGroup(g)) == BigEndian(g) * Filled(|g|)
  {
    hide IsAlphabet, Value, Letter, Base64, BigEndian, Six, OfBytes, EncodeGroup;
    GroupLetters(g);
    ShortSixes(g);
    ChunkIsBytes(g);
    var n := OfBytes(g[0], if |g| > 1 then g[1] else 0, if |g| > 2 then g[2] else 0);
    SixesOf(n);
    LettersNumber(EncodeGroup(g), n, |g|);
  }

  /** The number of two, three or four letters, from the parts they stand for. */
  lemma LettersNumber(t: string, n: nat, bytes: nat)
    requires 1 <= bytes <= 3 && IsBase64Url(t)
    requires t ==
      if bytes == 1 then [Letter(Six(n, 262144)), Letter(Six(n, 4096))]
      else if bytes == 2 then [Letter(Six(n, 262144)), Letter(Six(n, 4096)), Letter(Six(n, 64))]
      else [Letter(Six(n, 262144)), Letter(Six(n, 4096)), Letter(Six(n, 64)), Letter(Six(n, 1))]
    ensures Base64(t) ==
      if bytes == 1 then Six(n, 262144) * 64 + Six(n, 4096)
      else if bytes == 2 then Six(n, 262144) * 4096 + Six(n, 4096) * 64 + Six(n, 64)
      else Six(n, 262144) * 262144 + Six(n, 4096) * 4096 + Six(n, 64) * 64 + Six(n, 1)
  {
    hide IsAlphabet, Value, Letter, Base64, Six;
    LetterValue(Six(n, 262144));
    LetterValue(Six(n, 4096));
    LetterValue(Six(n, 64));
    LetterValue(Six(n, 1));
    TextNumber(t);
  }

  lemma ChunkIsBytes(g: seq<Byte>)
    requires 1 <= |g| <= 3
    ensures OfBytes(g[0], if |g| > 1 then g[1] else 0, if |g| > 2 then g[2] else 0) ==
      BigEndian(g) * if |g| == 1 then 65536 else if |g| == 2 then 256 else 1
  {
    assert Pow(256, 1) == 256 && Pow(256, 2) == 65536;
    if |g| > 1 { assert g[1..][0] == g[1]; }
    if |g| > 2 { assert g[1..][1..] == g[2..] && g[2..][0] == g[2]; }
  }

  /** A chunk is what its six-bit parts make up. */
  lemma SixesOf(n: nat)
    requires n < 16777216
    ensures n == Six(n, 262144) * 262144 + Six(n, 4096) * 4096 + Six(n, 64) * 64 + Six(n, 1)
  {
    assert n == n / 64 * 64 + n % 64;
    assert n / 64 == n / 4096 * 64 + n / 64 % 64;
    assert n / 4096 == n / 262144 * 64 + n / 4096 % 64;
  }

  /** With fewer bytes the parts behind them are zero. */
  lemma ShortSixes(g: seq<Byte>)
    requires 1 <= |g| <= 3
    ensures var n := OfBytes(g[0], if |g| > 1 then g[1] else 0, if |g| > 2 then g[2] else 0);
      0 <= n < 16777216 && (|g| == 1 ==> Six(n, 64) == 0) && (|g| < 3 ==> Six(n, 1) == 0)
  {
    hide OfBytes, Sextets;
    var b, c := if |g| > 1 then g[1] else 0, if |g| > 2 then g[2] else 0;
    ShortGroups(g[0], b, c);
    SixOf(OfBytes(g[0], b, c));
  }

  lemma TextNumber(t: string)
    requires 2 <= |t| <= 4 && IsBase64Url(t)
    ensures Base64(t) ==
      if |t| == 2 then Value(t[0]) * 64 + Value(t[1])
      else if |t| == 3 then Value(t[0]) * 4096 + Value(t[1]) * 64 + Value(t[2])
      else Value(t[0]) * 262144 + Value(t[1]) * 4096 + Value(t[2]) * 64 + Value(t[3])
  {
    hide Value, IsAlphabet, Base64, Pow;
    SmallPowers();
    Base64First(t);
    Base64First(t[1..]);
    assert t[1..][0] == t[1] && t[1..][1..] == t[2..];
    if |t| > 2 {
      Base64First(t[2..]);
      assert t[2..][0] == t[2] && t[2..][1..] == t[3..];
    }
    if |t| > 3 {
      Base64First(t[3..]);
      assert t[3..][0] == t[3] && t[3..][1..] == t[4..];
    }
    assert t[|t|..] == "";
    NoDigits();
  }

  lemma SmallPowers()
    ensures Pow(64, 0) == 1 && Pow(64, 1) == 64 && Pow(64, 2) == 4096 && Pow(64, 3) == 262144 && Pow(64, 4) == 16777216
    ensures Pow(256, 0) == 1 && Pow(256, 1) == 256 && Pow(256, 2) == 65536 && Pow(256, 3) == 16777216
  {}

  /** Four characters for three bytes, and a short group filled up with zero bits. */
  lemma {:induction false} FourSextets(m: nat, n: nat)
    requires m == (4 * n + 2) / 3
    ensures Pow(64, m) == Pow(256, n) * Filled(n)
    decreases n
  {
    hide Pow;
    SmallPowers();
    if n >= 3 {
      FourSextets(m - 4, n - 3);
      PowAdd(64, 4, m - 4);
      PowAdd(256, 3, n - 3);
      FilledSame(n - 3);
      Shift(16777216, Pow(256, n - 3), Filled(n));
    }
  }

  lemma Shift(c: nat, p: nat, f: nat)
    ensures c * (p * f) == (c * p) * f
  {}

  /** The text stands for the big-endian number of the data with the filling zero bits behind it. */
  lemma {:induction false} EncodeIsNumber(data: seq<Byte>)
    ensures Base64(Encode(data)) == BigEndian(data) * Filled(|data|)
  {
    hide EncodeGroup, Base64, BigEndian, IsAlphabet, Pow;
    if data == [] {
      NoNumber();
    } else if |data| <= 3 {
      GroupNumber(data);
    } else {
      var g, rest := data[..3], data[3..];
      EncodeIsNumber(rest);
      GroupNumber(g);
      EncodedLength(rest);
      FourSextets(|Encode(rest)|, |rest|);
      Base64Split(EncodeGroup(g), Encode(rest));
      BigEndianSplit(g, rest);
      assert data == g + rest;
      FilledSame(|rest|);
      Factor(BigEndian(g), Pow(256, |rest|), BigEndian(rest), Filled(|rest|));
    }
  }

  lemma NoNumber()
    ensures Base64(Encode([])) == 0 && BigEndian([]) == 0
  {}

  lemma FilledSame(n: nat)
    ensures Filled(n + 3) == Filled(n)
  {}

  lemma Factor(a: nat, p: nat, b: nat, f: nat)
    ensures a * (p * f) + b * f == (a * p + b) * f
  {
    assert a * (p * f) == (a * p) * f;
  }

  lemma GroupDecoded(t: string)
    requires 2 <= |t| <= 4 && IsBase64Url(t)
    ensures BigEndian(DecodeGroup(t)) == Base64(t) / Filled(|t| - 1)
  {
    hide SextetAt, Value, IsAlphabet, Base64, BigEndian, Eight, DecodeGroup;
    GroupBytes(t);
    TextNumber(t);
    var s0, s1, s2, s3 := SextetAt(t, 0), SextetAt(t, 1), SextetAt(t, 2), SextetAt(t, 3);
    SextetsHere(t);
    var n := OfSextets(s0, s1, s2, s3);
    SextetsOfChunk(s0, s1, s2, s3);
    ChunkIs(s0, s1, s2, s3);
    EightOf(n);
    EightsNumber(DecodeGroup(t), n);
  }

  lemma SextetsHere(t: string)
    requires 2 <= |t| <= 4 && IsBase64Url(t)
    ensures SextetAt(t, 0) == Value(t[0]) && SextetAt(t, 1) == Value(t[1])
    ensures SextetAt(t, 2) == if |t| > 2 then Value(t[2]) else 0
    ensures SextetAt(t, 3) == if |t| > 3 then Value(t[3]) else 0
  {}

  lemma EightsNumber(r: seq<Byte>, n: nat)
    requires 1 <= |r| <= 3 && n < 16777216
    requires r == if |r| == 1 then [Eight(n, 65536)] else if |r| == 2 then [Eight(n, 65536), Eight(n, 256)]
                  else [Eight(n, 65536), Eight(n, 256), Eight(n, 1)]
    ensures BigEndian(r) == n / if |r| == 1 then 65536 else if |r| == 2 then 256 else 1
  {
    hide BigEndian, Eight, OfBytes;
    EightOf(n);
    ChunkIsBytes(r);
    BytesOfNumber(n);
    OfBytesIs(r[0], if |r| > 1 then r[1] else 0, if |r| > 2 then r[2] else 0);
  }

  lemma OfBytesIs(a: int, b: int, c: int)
    ensures OfBytes(a, b, c) == a * 65536 + b * 256 + c
  {}

  lemma BytesOfNumber(n: nat)
    ensures n / 256 == n / 65536 * 256 + n / 256 % 256
    ensures n == n / 65536 * 65536 + n / 256 % 256 * 256 + n % 256
  {}

  lemma {:induction false} DecodedLength(text: string)
    requires IsBase64Url(text) && |text| % 4 != 1
    ensures |DecodeGroups(text)| == 3 * |text| / 4
  {
    hide DecodeGroup, IsAlphabet;
    if |text| > 4 { DecodedLength(text[4..]); }
  }

  /** What decoding gives: the number of the text, without the bits that fill its last character. */
  lemma {:induction false} DecodeIsNumber(text: string)
    requires IsBase64Url(text) && |text| % 4 != 1
    ensures BigEndian(DecodeGroups(text)) == Base64(text) / Filled(|DecodeGroups(text)|)
  {
    hide DecodeGroup, Base64, BigEndian, IsAlphabet, IsBase64Url, Filled;
    if text == "" {
      NoBytes();
    } else if |text| <= 4 {
      GroupDecoded(text);
    } else {
      assert text == text[..4] + text[4..];
      TailIsBase64Url(text[..4], text[4..], text);
      DecodeIsNumber(text[4..]);
      DecodeMore(text[..4], text[4..]);
      DecodeFirst(text);
    }
  }

  lemma DecodeMore(head: string, tail: string)
    requires |head| == 4 && IsBase64Url(head) && IsBase64Url(tail) && |tail| % 4 != 1
    requires BigEndian(DecodeGroups(tail)) == Base64(tail) / Filled(|DecodeGroups(tail)|)
    ensures IsBase64Url(head + tail)
    ensures var r := DecodeGroup(head) + DecodeGroups(tail);
      BigEndian(r) == Base64(head + tail) / Filled(|r|)
  {
    hide DecodeGroup, DecodeGroups, Base64, BigEndian, IsAlphabet, IsBase64Url, Pow, Filled;
    GroupDecoded(head);
    Base64Split(head, tail);
    var d, rest := DecodeGroup(head), DecodeGroups(tail);
    BigEndianSplit(d, rest);
    DecodedLength(tail);
    FourSextets(|tail|, |rest|);
    FilledSame(|rest|);
    FilledValues(|rest|);
    Floor(Base64(head), Pow(256, |rest|), Filled(|rest|), Base64(tail));
  }

  lemma FilledValues(n: nat)
    ensures Filled(n) > 0 && Filled(3) == 1
  {}

  lemma NoBytes()
    ensures IsBase64Url("") && DecodeGroups("") == [] && BigEndian([]) == 0 && Base64("") == 0 && Filled(0) == 1
  {}

  lemma Floor(a: nat, p: nat, f: nat, b: nat)
    requires f > 0
    ensures (a * (p * f) + b) / f == a * p + b / f
  {
    Shift(a, p, f);
    assert b == b / f * f + b % f;
    Factor(a, p, b / f, f);
    Quotient(a * p + b / f, f, b % f);
  }

  /** A character of a text is the digit of its number in its place. */
  lemma {:induction false} DigitAt(text: string, k: nat)
    requires IsBase64Url(text) && k < |text|
    ensures Pow(64, |text| - 1 - k) > 0 && Value(text[k]) == Base64(text) / Pow(64, |text| - 1 - k) % 64
  {
    hide Value, IsAlphabet, Base64, Pow, IsBase64Url;
    var n := |text| - 1 - k;
    PowPositive(64, n);
    TextAround(text, k);
    var head, tail, v := text[..k], text[k + 1..], Value(text[k]);
    OneDigit(text[k]);
    Base64Split(head + [text[k]], tail);
    Base64Split(head, [text[k]]);
    Base64Bound(tail);
    DigitOf(Base64(head), v, Pow(64, n), Base64(tail));
  }

  lemma TextAround(text: string, k: nat)
    requires IsBase64Url(text) && k < |text|
    ensures text == text[..k] + [text[k]] + text[k + 1..]
    ensures IsBase64Url(text[..k]) && IsAlphabet(text[k]) && IsBase64Url([text[k]]) && IsBase64Url(text[k + 1..])
    ensures IsBase64Url(text[..k] + [text[k]])
  {}

  lemma OneDigit(c: char)
    requires IsAlphabet(c)
    ensures IsBase64Url([c]) && Base64([c]) == Value(c) && Pow(64, 1) == 64
  {
    hide Value, IsAlphabet;
    assert [c][1..] == "" && Base64("") == 0 && Pow(64, 0) == 1;
  }

  lemma {:induction false} Base64Bound(text: string)
    requires IsBase64Url(text)
    ensures Base64(text) < Pow(64, |text|)
  {
    if text != "" {
      Base64Bound(text[1..]);
      LeadingDigit(Value(text[0]), Pow(64, |text| - 1), Base64(text[1..]));
    }
  }

  lemma LeadingDigit(v: nat, p: nat, low: nat)
    requires v < 64 && low < p
    ensures v * p + low < 64 * p
  {
    assert (63 - v) * p >= 0;
  }

  lemma DigitOf(high: nat, v: nat, p: nat, low: nat)
    requires v < 64 && low < p
    ensures ((high * 64 + v) * p + low) / p % 64 == v
  {
    Quotient(high * 64 + v, p, low);
  }

  lemma Quotient(q: nat, p: nat, low: nat)
    requires low < p
    ensures (q * p + low) / p == q
  {
    var n := q * p + low;
    assert n == n / p * p + n % p;
    HighDigit(q, low, n / p, n % p, p);
  }

  /** Character `k` of an encoding is the alphabet's character for the `k`-th six bits of the data, high
      bits first, zero bits appended. */
  lemma EncodedCharacter(data: seq<Byte>, k: nat)
    requires k < |Encode(data)|
    ensures Pow(64, |Encode(data)| - 1 - k) > 0 && |ALPHABET| == 64
    ensures Encode(data)[k] == ALPHABET[BigEndian(data) * Filled(|data|) / Pow(64, |Encode(data)| - 1 - k) % 64]
  {
    hide Encode, ALPHABET, Letter, Value, Base64, BigEndian, IsAlphabet, Pow;
    EncodeIsNumber(data);
    DigitAt(Encode(data), k);
    ValueLetter(Encode(data)[k]);
    AlphabetIs(Value(Encode(data)[k]));
  }

  // ---------------------------------------------------------------- the loops

  /** The six bits of a chunk that start at the bit of this weight: a shift and a mask. */
  function Six(chunk: nat, weight: nat): (v: nat)
    requires weight > 0
    ensures v < 64
  {
    chunk / weight % 64
  }

  /** The eight bits that start there. */
  function Eight(chunk: nat, weight: nat): Byte
    requires weight > 0
  {
    chunk / weight % 256
  }

  lemma SixOf(n: nat)
    requires n < 16777216
    ensures Sextets(n) == (Six(n, 262144), Six(n, 4096), Six(n, 64), Six(n, 1))
  {}

  lemma GroupLetters(g: seq<Byte>)
    requires 1 <= |g| <= 3
    ensures var n := OfBytes(g[0], if |g| > 1 then g[1] else 0, if |g| > 2 then g[2] else 0);
      0 <= n && EncodeGroup(g) ==
      if |g| == 1 then [Letter(Six(n, 262144)), Letter(Six(n, 4096))]
      else if |g| == 2 then [Letter(Six(n, 262144)), Letter(Six(n, 4096)), Letter(Six(n, 64))]
      else [Letter(Six(n, 262144)), Letter(Six(n, 4096)), Letter(Six(n, 64)), Letter(Six(n, 1))]
  {
    hide Letter, OfBytes, Sextets, Six;
    var b, c := if |g| > 1 then g[1] else 0, if |g| > 2 then g[2] else 0;
    BytesOfChunk(g[0], b, c);
    SixOf(OfBytes(g[0], b, c));
  }

  lemma EightOf(n: nat)
    requires n < 16777216
    ensures Eight(n, 65536) == n / 65536 && Eight(n, 256) == n / 256 % 256 && Eight(n, 1) == n % 256
  {}

  lemma GroupBytes(t: string)
    requires 2 <= |t| <= 4 && IsBase64Url(t)
    ensures var n := OfSextets(SextetAt(t, 0), SextetAt(t, 1), SextetAt(t, 2), SextetAt(t, 3));
      0 <= n && DecodeGroup(t) ==
      if |t| == 2 then [Eight(n, 65536)]
      else if |t| == 3 then [Eight(n, 65536), Eight(n, 256)]
      else [Eight(n, 65536), Eight(n, 256), Eight(n, 1)]
  {
    hide SextetAt, OfSextets, Eight, IsAlphabet;
    SextetsOfChunk(SextetAt(t, 0), SextetAt(t, 1), SextetAt(t, 2), SextetAt(t, 3));
    EightOf(OfSextets(SextetAt(t, 0), SextetAt(t, 1), SextetAt(t, 2), SextetAt(t, 3)));
  }

  lemma ChunkIs(s0: int, s1: int, s2: int, s3: int)
    ensures OfSextets(s0, s1, s2, s3) == s0 * 262144 + s1 * 4096 + s2 * 64 + s3
  {}

  method EncodeText(data: seq<Byte>) returns (out: string)
    ensures out == Encode(data)
  {
    hide EncodeGroup, Letter, Six, OfBytes;
    out := "";
    var index := 0;
    while index + 3 <= |data|
      invariant index <= |data|
      invariant Encode(data) == out + Encode(data[index..])
    {
      ghost var group := data[index..index + 3];
      assert data[index..][..3] == group && data[index..][3..] == data[index + 3..];
      EncodeFirst(data[index..]);
      GroupLetters(group);
      var chunk := OfBytes(data[index], data[index + 1], data[index + 2]);
      out := out + [Letter(Six(chunk, 262144)), Letter(Six(chunk, 4096)), Letter(Six(chunk, 64)), Letter(Six(chunk, 1))];
      index := index + 3;
    }
    var rest := |data| - index;
    if rest > 0 { GroupLetters(data[index..]); }
    if rest == 1 {
      var chunk := OfBytes(data[index], 0, 0);
      out := out + [Letter(Six(chunk, 262144)), Letter(Six(chunk, 4096))];
    } else if rest == 2 {
      var chunk := OfBytes(data[index], data[index + 1], 0);
      out := out + [Letter(Six(chunk, 262144)), Letter(Six(chunk, 4096)), Letter(Six(chunk, 64))];
    }
  }

  lemma EncodeFirst(data: seq<Byte>)
    requires |data| >= 3
    ensures Encode(data) == EncodeGroup(data[..3]) + Encode(data[3..])
  {
    if |data| == 3 {
      assert data[..3] == data && data[3..] == [];
    }
  }

  method DecodeText(text: string) returns (r: Option<seq<Byte>>)
    ensures r == Decode(text)
  {
    if text == "" || |text| > MAX_TEXT || !IsBase64Url(text) {
      return None;
    }
    r := DecodeLoop(text);
  }

  method DecodeLoop(text: string) returns (r: Option<seq<Byte>>)
    requires IsBase64Url(text)
    ensures |text| % 4 == 1 ==> r == None
    ensures |text| % 4 != 1 ==> r == Some(DecodeGroups(text))
  {
    hide *;
    var out: seq<Byte> := [];
    var index := 0;
    DecodeNone();
    assert text[..0] == "";
    while index + 4 <= |text|
      invariant index <= |text| && index % 4 == 0 && IsBase64Url(text[..index])
      invariant out == DecodeGroups(text[..index])
    {
      ghost var run := DecodeRun(text, index, index + 4);
      RunBytes(text, index, index + 4);
      var chunk := ValueAt(text, index) * 262144 + ValueAt(text, index + 1) * 4096
                   + ValueAt(text, index + 2) * 64 + ValueAt(text, index + 3);
      out := out + [Eight(chunk, 65536), Eight(chunk, 256), Eight(chunk, 1)];
      index := index + 4;
    }
    var rest := |text| - index;
    if rest == 1 {
      return None;
    }
    if rest > 0 {
      ghost var run := DecodeRun(text, index, |text|);
      RunBytes(text, index, |text|);
    }
    if rest == 2 {
      var chunk := ValueAt(text, index) * 262144 + ValueAt(text, index + 1) * 4096;
      out := out + [Eight(chunk, 65536)];
    } else if rest == 3 {
      var chunk := ValueAt(text, index) * 262144 + ValueAt(text, index + 1) * 4096 + ValueAt(text, index + 2) * 64;
      out := out + [Eight(chunk, 65536), Eight(chunk, 256)];
    }
    assert text[..|text|] == text;
    r := Some(out);
  }

  function ValueAt(text: string, i: nat): (v: nat)
    requires IsBase64Url(text) && i < |text|
    ensures v < 64
  {
    Value(text[i])
  }

  lemma RunBytes(text: string, i: nat, j: nat)
    requires IsBase64Url(text) && i % 4 == 0 && i + 2 <= j <= i + 4 && j <= |text|
    ensures var s2, s3 := if i + 2 < j then ValueAt(text, i + 2) else 0, if i + 3 < j then ValueAt(text, i + 3) else 0;
      var n := ValueAt(text, i) * 262144 + ValueAt(text, i + 1) * 4096 + s2 * 64 + s3;
      DecodeRun(text, i, j) ==
      if j == i + 2 then [Eight(n, 65536)]
      else if j == i + 3 then [Eight(n, 65536), Eight(n, 256)]
      else [Eight(n, 65536), Eight(n, 256), Eight(n, 1)]
  {
    hide Value, IsAlphabet, DecodeGroup, Eight, OfSextets;
    DecodeAppend(text[..i], text[i..j]);
    var t := text[i..j];
    GroupBytes(t);
    ChunkIs(SextetAt(t, 0), SextetAt(t, 1), SextetAt(t, 2), SextetAt(t, 3));
  }

  lemma DecodeNone()
    ensures IsBase64Url("") && DecodeGroups("") == []
  {}

  /** The group from `i` to `j`, with what it adds to the text decoded so far. */
  function DecodeRun(text: string, i: nat, j: nat): (r: seq<Byte>)
    requires IsBase64Url(text) && i % 4 == 0 && i + 2 <= j <= i + 4 && j <= |text|
    ensures IsBase64Url(text[..i]) && IsBase64Url(text[..j])
    ensures DecodeGroups(text[..j]) == DecodeGroups(text[..i]) + r
  {
    DecodeAppend(text[..i], text[i..j]);
    assert text[..i] + text[i..j] == text[..j];
    DecodeGroup(text[i..j])
  }

  lemma {:induction false} DecodeAppend(a: string, g: string)
    requires IsBase64Url(a) && IsBase64Url(g) && |a| % 4 == 0 && 2 <= |g| <= 4
    ensures IsBase64Url(a + g) && DecodeGroups(a + g) == DecodeGroups(a) + DecodeGroup(g)
  {
    hide DecodeGroup, IsAlphabet;
    if a == "" {
      assert a + g == g && [] + DecodeGroup(g) == DecodeGroup(g);
    } else {
      DecodeFirst(a);
      DecodeAppend(a[4..], g);
      assert (a + g)[..4] == a[..4] && (a + g)[4..] == a[4..] + g;
      DecodeFirst(a + g);
    }
  }

  lemma DecodeFirst(text: string)
    requires IsBase64Url(text) && |text| % 4 != 1 && |text| >= 4
    ensures DecodeGroups(text) == DecodeGroup(text[..4]) + DecodeGroups(text[4..])
  {
    if |text| == 4 {
      assert text[..4] == text && text[4..] == "";
    }
  }
}
