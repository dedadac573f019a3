/** The local shell identity: a passkey challenge, a checked assertion, and the lock-screen verifier.
    Hashing, signatures, key derivation and the JSON reader stay abstract. */
module Identity {
  import opened Common
  import opened Bytes
  import opened Decimal
  import opened Base64Url

  datatype Method = Stub | DidKey | Passkey
  datatype Enrollment = NotRegistered | AwaitingPasskey | KeyMaterialStored | AssertionVerified
  datatype Fault = Malformed | Challenge | Origin | Authenticator | Key | Signature

  const SUBJECT := "did:key:stub.local"
  const WEBAUTHN_ORIGIN := "https://shell.w3cos.local"
  const WEBAUTHN_RP_ID := "shell.w3cos.local"
  const MAX_ASSERTION: nat := 8192

  /** What is left to the libraries. `client` and `assertion` are what the JSON reader finds. */
  datatype ClientData = ClientData(
    kind: Option<string>, challenge: Option<string>, origin: Option<string>, crossOrigin: Option<bool>)
  datatype Library = Library(
    sha256: seq<Byte> -> seq<Byte>,
    verify: (seq<Byte>, seq<Byte>, seq<Byte>) -> bool,
    did: seq<Byte> -> string,
    derive: (string, seq<Byte>) -> seq<Byte>,
    client: seq<Byte> -> Option<ClientData>,
    assertion: string -> Option<map<string, string>>
  )

  // ---------------------------------------------------------------- filters

  function StripPrefix(s: string, prefix: string): Option<string> {
    if prefix <= s then Some(s[|prefix|..]) else None
  }

  predicate Contains(s: string, part: string) {
    exists i, j :: 0 <= i <= j <= |s| && s[i..j] == part
  }

  predicate IsDidKey(subject: string) {
    var rest := StripPrefix(subject, "did:key:");
    rest.Some? && 8 <= Utf8Len(rest.value) <= 200 && forall i :: 0 <= i < |rest.value| ==> !IsSpace(rest.value[i])
  }

  predicate IsStoredChallenge(value: string) {
    |value| == 43 && IsBase64Url(value)
  }

  predicate IsStoredPublicKey(value: string) {
    2 <= |value| <= 172 && IsBase64Url(value)
  }

  /** The filters, spelled out. */
  lemma DidKeyIs(rest: string)
    ensures IsDidKey("did:key:" + rest) <==> 8 <= Utf8Len(rest) <= 200 && forall c :: c in rest ==> !IsSpace(c)
  {
    hide Utf8Len, IsSpace;
    assert ("did:key:" + rest)[8..] == rest;
  }

  lemma NotDidKey(subject: string)
    ensures IsDidKey(subject) ==> subject == "did:key:" + subject[8..]
  {
    hide Utf8Len, IsSpace;
  }

  lemma StoredMaterialIs(value: string)
    ensures IsStoredChallenge(value) <==> |value| == 43 && forall i :: 0 <= i < |value| ==> value[i] in ALPHABET
    ensures IsStoredPublicKey(value) <==> 2 <= |value| <= 172 && forall i :: 0 <= i < |value| ==> value[i] in ALPHABET
  {
    hide ALPHABET, IsAlphabet;
    forall i | 0 <= i < |value| ensures IsAlphabet(value[i]) <==> value[i] in ALPHABET { InAlphabet(value[i]); }
  }

  // ---------------------------------------------------------------- verifier text

  const VERIFIER_PREFIX := "pbkdf2-sha256$"
  const ITERATIONS := "100000"

  predicate IsVerifier(stored: string) {
    VERIFIER_PREFIX <= stored
  }

  function VerifierText(salt: seq<Byte>, hash: seq<Byte>): string {
    VERIFIER_PREFIX + (ITERATIONS + "$" + HexText(salt) + "$" + HexText(hash))
  }

  /** `split('$')`. */
  function SplitDollar(s: string): (r: seq<string>)
    ensures r != []
  {
    if s == "" then [""] else
      var n := |s| - 1;
      var r := SplitDollar(s[..n]);
      if s[n] == '$' then r + [""] else r[..|r| - 1] + [r[|r| - 1] + [s[n]]]
  }

  /** `parse::<u32>`: an optional plus sign, then digits. */
  function ParseU32(s: string): Option<nat> {
    var digits := if s != "" && s[0] == '+' then s[1..] else s;
    if digits != "" && AllDigits(digits) && Number(digits) < 0x1_0000_0000 then Some(Number(digits)) else None
  }

  function HexArray(s: string, n: nat): (r: Option<seq<Byte>>)
    ensures r.Some? ==> |r.value| == n
  {
    if |s| == 2 * n then HexBytes(s) else None
  }

  function ParseVerifier(stored: string): Option<(seq<Byte>, seq<Byte>)> {
    var rest := StripPrefix(stored, VERIFIER_PREFIX);
    if rest.None? then None else
      var parts := SplitDollar(rest.value);
      if ParseU32(parts[0]) != Some(100_000) || |parts| != 3 then None else
        var salt, hash := HexArray(parts[1], 16), HexArray(parts[2], 32);
        if salt.None? || hash.None? then None else Some((salt.value, hash.value))
  }

  lemma {:induction false} SplitSnoc(s: string, t: string)
    requires '$' !in t
    ensures SplitDollar(s + "$" + t) == SplitDollar(s) + [t]
  {
    if t == "" {
      assert s + "$" + t == s + "$" && (s + "$")[..|s|] == s;
    } else {
      var n := |t| - 1;
      SplitSnoc(s, t[..n]);
      assert (s + "$" + t)[..|s| + 1 + n] == s + "$" + t[..n];
      assert t == t[..n] + [t[n]];
    }
  }

  lemma {:induction false} SplitNone(t: string)
    requires '$' !in t
    ensures SplitDollar(t) == [t]
  {
    if t != "" {
      SplitNone(t[..|t| - 1]);
      assert t == t[..|t| - 1] + [t[|t| - 1]];
    }
  }

  lemma {:induction false} HexHasNoDollar(bytes: seq<Byte>)
    ensures '$' !in HexText(bytes)
  {
    if bytes != [] {
      HexHasNoDollar(bytes[..|bytes| - 1]);
      NibbleOfHex(bytes[|bytes| - 1] / 16);
      NibbleOfHex(bytes[|bytes| - 1] % 16);
    }
  }

  lemma IterationsNumber()
    ensures ParseU32(ITERATIONS) == Some(100_000)
  {
    assert ITERATIONS == Text(100_000);
    NumberOfText(100_000);
  }

  /** A sealed verifier reads back as its salt and hash. */
  lemma VerifierRoundTrip(salt: seq<Byte>, hash: seq<Byte>)
    requires |salt| == 16 && |hash| == 32
    ensures ParseVerifier(VerifierText(salt, hash)) == Some((salt, hash))
  {
    hide HexText, HexBytes, SplitDollar, ParseU32, Number;
    var a, b := HexText(salt), HexText(hash);
    HexHasNoDollar(salt);
    HexHasNoDollar(hash);
    SplitNone(ITERATIONS);
    SplitSnoc(ITERATIONS, a);
    SplitSnoc(ITERATIONS + "$" + a, b);
    IterationsNumber();
    HexRoundTrip(salt);
    HexRoundTrip(hash);
    var rest := ITERATIONS + "$" + a + "$" + b;
    assert VerifierText(salt, hash)[|VERIFIER_PREFIX|..] == rest;
    assert SplitDollar(rest) == [ITERATIONS, a, b];
  }

  /** The pieces between dollar signs, put together again. */
  function JoinDollar(parts: seq<string>): string
    requires parts != []
  {
    var n := |parts| - 1;
    if n == 0 then parts[0] else JoinDollar(parts[..n]) + "$" + parts[n]
  }

  lemma {:induction false} JoinOfSplit(s: string)
    ensures JoinDollar(SplitDollar(s)) == s
  {
    if s != "" {
      var n := |s| - 1;
      var r := SplitDollar(s[..n]);
      var m := |r| - 1;
      JoinOfSplit(s[..n]);
      assert s == s[..n] + [s[n]];
      if s[n] == '$' {
        JoinSnoc(r, "");
        assert s[..n] + "$" + "" == s;
      } else {
        JoinLast(r, s[n]);
      }
    }
  }

  lemma JoinSnoc(parts: seq<string>, last: string)
    requires parts != []
    ensures JoinDollar(parts + [last]) == JoinDollar(parts) + "$" + last
  {
    assert (parts + [last])[..|parts|] == parts;
  }

  lemma JoinLast(parts: seq<string>, c: char)
    requires parts != []
    ensures var m := |parts| - 1;
      JoinDollar(parts[..m] + [parts[m] + [c]]) == JoinDollar(parts) + [c]
  {
    hide JoinDollar;
    var m := |parts| - 1;
    assert parts == parts[..m] + [parts[m]];
    if m > 0 {
      JoinSnoc(parts[..m], parts[m] + [c]);
      JoinSnoc(parts[..m], parts[m]);
      AddLast(JoinDollar(parts[..m]), parts[m], c);
    } else {
      JoinOne(parts[m]);
      JoinOne(parts[m] + [c]);
      assert parts[..0] + [parts[m] + [c]] == [parts[m] + [c]] && parts == [parts[m]];
    }
  }

  lemma AddLast(init: string, last: string, c: char)
    ensures init + "$" + (last + [c]) == init + "$" + last + [c]
  {}

  lemma JoinOne(part: string)
    ensures JoinDollar([part]) == part
  {}

  /** A verifier text in its four parts; the digits may be in either case. */
  ghost predicate IsVerifierOf(stored: string, n: string, a: string, b: string, salt: seq<Byte>, hash: seq<Byte>) {
    stored == VERIFIER_PREFIX + (n + "$" + a + "$" + b) && ParseU32(n) == Some(100_000) &&
    |salt| == 16 && |hash| == 32 && HexBytes(a) == Some(salt) && HexBytes(b) == Some(hash)
  }

  /** What is read as a verifier is one. */
  lemma ParsedIsVerifier(stored: string) returns (n: string, a: string, b: string)
    ensures ParseVerifier(stored).Some? ==>
      IsVerifierOf(stored, n, a, b, ParseVerifier(stored).value.0, ParseVerifier(stored).value.1)
  {
    hide HexBytes, SplitDollar, ParseU32, JoinDollar, Number;
    n, a, b := "", "", "";
    if ParseVerifier(stored).Some? {
      var rest := stored[|VERIFIER_PREFIX|..];
      assert stored == VERIFIER_PREFIX + rest;
      var parts := SplitDollar(rest);
      JoinOfSplit(rest);
      JoinThree(parts);
      n, a, b := parts[0], parts[1], parts[2];
      assert rest == n + "$" + a + "$" + b;
      assert HexArray(a, 16) == HexBytes(a) && HexArray(b, 32) == HexBytes(b);
    }
  }

  lemma JoinThree(parts: seq<string>)
    requires |parts| == 3
    ensures JoinDollar(parts) == parts[0] + "$" + parts[1] + "$" + parts[2]
  {
    hide JoinDollar;
    JoinOne(parts[0]);
    JoinSnoc([parts[0]], parts[1]);
    JoinSnoc([parts[0]] + [parts[1]], parts[2]);
    assert parts == [parts[0]] + [parts[1]] + [parts[2]];
  }

  function SealPin(lib: Library, pin: string, salt: seq<Byte>): string {
    VerifierText(salt, lib.derive(pin, salt))
  }

  predicate VerifyPin(lib: Library, pin: string, stored: string) {
    var parsed := ParseVerifier(stored);
    parsed.Some? && lib.derive(pin, parsed.value.0) == parsed.value.1
  }

  /** Against a sealed pin, exactly the strings with the same derived key verify. */
  lemma SealedPinVerifies(lib: Library, pin: string, other: string, salt: seq<Byte>)
    requires |salt| == 16 && |lib.derive(pin, salt)| == 32
    ensures VerifyPin(lib, other, SealPin(lib, pin, salt)) <==> lib.derive(other, salt) == lib.derive(pin, salt)
    ensures IsVerifier(SealPin(lib, pin, salt))
  {
    VerifierRoundTrip(salt, lib.derive(pin, salt));
  }

  // ---------------------------------------------------------------- identity state

  datatype State = State(
    subject: string,
    method_: Method,
    enrollment: Enrollment,
    unlocked: bool,
    verifier: Option<string>,
    challenge: Option<string>,
    publicKey: Option<string>
  )

  function Fresh(): State {
    State(SUBJECT, Stub, NotRegistered, false, None, None, None)
  }

  /** None: `subject` is not a did:key. */
  function InstallSubject(s: State, subject: string): Option<State> {
    if !IsDidKey(subject) then None
    else Some(s.(method_ := if Contains(subject, "stub") then Stub else DidKey, subject := subject))
  }

  function BeginEnrollment(s: State, random: Option<seq<Byte>>): State {
    if random.None? then s
    else s.(challenge := Some(Encode(random.value)), publicKey := None, enrollment := AwaitingPasskey)
  }

  /** None: there is no challenge, or the key is empty or longer than 128 bytes. */
  function StorePublicKey(s: State, key: seq<Byte>): Option<State> {
    if s.challenge.None? || key == [] || |key| > 128 then None
    else Some(s.(publicKey := Some(Encode(key)), enrollment := KeyMaterialStored))
  }

  function RestoreMaterial(s: State, challenge: Option<string>, publicKey: Option<string>): State {
    s.(challenge := if challenge.Some? && IsStoredChallenge(challenge.value) then challenge else None,
       publicKey := if publicKey.Some? && IsStoredPublicKey(publicKey.value) then publicKey else None)
  }

  function RestoreEnrollment(s: State, enrollment: Enrollment): State {
    s.(enrollment := enrollment,
       method_ := if enrollment.AssertionVerified? && IsDidKey(s.subject) && !Contains(s.subject, "stub")
                  then Passkey else s.method_)
  }

  /** The stored form to keep, and whether it has to be written back. `salt` None: no randomness. */
  function RestoreLockedPin(lib: Library, s: State, stored: string, salt: Option<seq<Byte>>): (State, bool) {
    if stored == "" || s.verifier.Some? then (s, false)
    else if IsVerifier(stored) then (s.(verifier := Some(stored), unlocked := false), false)
    else if salt.None? then (s, false)
    else (s.(verifier := Some(SealPin(lib, stored, salt.value)), unlocked := false), true)
  }

  /** None: the passphrase is empty, does not match, or could not be sealed. */
  function Unlock(lib: Library, s: State, passphrase: string, salt: Option<seq<Byte>>): Option<State> {
    if passphrase == "" then None
    else if s.verifier.Some? then
      if VerifyPin(lib, passphrase, s.verifier.value) then Some(s.(unlocked := true)) else None
    else if salt.None? then None
    else Some(s.(verifier := Some(SealPin(lib, passphrase, salt.value)), unlocked := true))
  }

  // ---------------------------------------------------------------- the assertion ceremony

  function AsciiBytes(s: string): (r: seq<Byte>)
    requires IsAscii(s)
    ensures |r| == |s|
  {
    seq(|s|, i requires 0 <= i < |s| => s[i] as int)
  }

  const CLIENT_TYPE := "{\"type\":\""
  const CLIENT_CHALLENGE := ",\"challenge\":\""
  const CLIENT_ORIGIN := ",\"origin\":\""
  const CLIENT_CROSS := ",\"crossOrigin\":"
  const HEAD := "{\"authenticatorData\":\""
  const SEP1 := ",\"clientDataJSON\":\""
  const SEP2 := ",\"publicKey\":\""
  const SEP3 := ",\"signature\":\""
  const TAIL := ",\"type\":\"public-key\"}"

  /** A string value that is already open: its text, the closing quote, and what follows. */
  function Quoted(value: string, rest: string): string {
    value + "\"" + rest
  }

  /** The JSON of some client data, in the order the device prints it. */
  function ClientJson(kind: string, challenge: string, origin: string, cross: bool): string {
    CLIENT_TYPE + Quoted(kind, CLIENT_CHALLENGE + Quoted(challenge, CLIENT_ORIGIN + Quoted(origin, CrossEnd(cross))))
  }

  function CrossEnd(cross: bool): string {
    CLIENT_CROSS + if cross then "true}" else "false}"
  }

  function ClientText(challenge: string): string {
    ClientJson("webauthn.get", challenge, WEBAUTHN_ORIGIN, false)
  }

  /** A text that JSON prints as it is. */
  predicate Plain(s: string) {
    IsAscii(s) && forall i :: 0 <= i < |s| ==> ' ' <= s[i] && s[i] != '"' && s[i] != '\\'
  }

  function AssertionText(client: string, auth: string, signature: string, key: string): string {
    HEAD + Quoted(auth, SEP1 + Quoted(client, SEP2 + Quoted(key, SEP3 + Quoted(signature, TAIL))))
  }

  function RpHash(lib: Library): seq<Byte> {
    lib.sha256(AsciiBytes(WEBAUTHN_RP_ID))
  }

  function AuthenticatorData(lib: Library): seq<Byte> {
    RpHash(lib) + [5, 0, 0, 0, 0]
  }

  lemma AsciiPair(a: string, b: string)
    ensures IsAscii(a) && IsAscii(b) ==> IsAscii(a + b) && IsAscii(Quoted(a, b))
    ensures |Quoted(a, b)| == |a| + 1 + |b|
  {
    assert forall i :: 0 <= i < |a| + |b| ==> (a + b)[i] == if i < |a| then a[i] else b[i - |a|];
  }

  lemma Base64UrlIsAscii(text: string)
    ensures IsBase64Url(text) ==> IsAscii(text)
  {}

  lemma ClientLiterals()
    ensures IsAscii(CLIENT_TYPE) && |CLIENT_TYPE| == 9 && IsAscii(CLIENT_CHALLENGE) && |CLIENT_CHALLENGE| == 14
    ensures IsAscii(CLIENT_ORIGIN) && |CLIENT_ORIGIN| == 11
  {}

  lemma CrossEndLiterals(cross: bool)
    ensures IsAscii(CrossEnd(cross)) && |CrossEnd(cross)| == if cross then 20 else 21
  {}

  lemma PlainLiterals()
    ensures Plain("webauthn.get") && Plain(WEBAUTHN_ORIGIN) && |WEBAUTHN_ORIGIN| == 25
  {}

  lemma AssertionLiterals()
    ensures IsAscii(HEAD) && |HEAD| == 22 && IsAscii(SEP1) && |SEP1| == 19 && IsAscii(SEP2) && |SEP2| == 14
    ensures IsAscii(SEP3) && |SEP3| == 14 && IsAscii(TAIL) && |TAIL| == 21
  {}

  lemma JsonIsAscii(kind: string, challenge: string, origin: string, cross: bool)
    requires IsAscii(kind) && IsAscii(challenge) && IsAscii(origin)
    ensures IsAscii(ClientJson(kind, challenge, origin, cross))
    ensures |ClientJson(kind, challenge, origin, cross)| ==
      37 + |kind| + |challenge| + |origin| + if cross then 20 else 21
  {
    hide IsAscii, Quoted, CLIENT_TYPE, CLIENT_CHALLENGE, CLIENT_ORIGIN, CrossEnd;
    ClientLiterals();
    CrossEndLiterals(cross);
    var r3 := Quoted(origin, CrossEnd(cross));
    var r2 := Quoted(challenge, CLIENT_ORIGIN + r3);
    AsciiPair(origin, CrossEnd(cross));
    AsciiPair(CLIENT_ORIGIN, r3);
    AsciiPair(challenge, CLIENT_ORIGIN + r3);
    AsciiPair(CLIENT_CHALLENGE, r2);
    AsciiPair(kind, CLIENT_CHALLENGE + r2);
    AsciiPair(CLIENT_TYPE, Quoted(kind, CLIENT_CHALLENGE + r2));
  }

  lemma ClientIsAscii(challenge: string)
    requires IsBase64Url(challenge)
    ensures IsAscii(ClientText(challenge)) && |ClientText(challenge)| == 95 + |challenge|
  {
    hide IsAscii, IsBase64Url, ClientJson, Plain, WEBAUTHN_ORIGIN;
    PlainParts(challenge);
    JsonIsAscii("webauthn.get", challenge, WEBAUTHN_ORIGIN, false);
  }

  /** The three values of the device's own client data are plain. */
  lemma PlainParts(challenge: string)
    requires IsBase64Url(challenge)
    ensures Plain("webauthn.get") && Plain(challenge) && Plain(WEBAUTHN_ORIGIN) && |WEBAUTHN_ORIGIN| == 25
    ensures IsAscii("webauthn.get") && IsAscii(challenge) && IsAscii(WEBAUTHN_ORIGIN)
  {
    hide WEBAUTHN_ORIGIN;
    PlainLiterals();
  }

  /** What the device signs and sends for a challenge; None when the challenge or signature is not usable. */
  function DeviceAssertion(lib: Library, challenge: string, key: seq<Byte>, sign: seq<Byte> -> Option<seq<Byte>>): Option<string> {
    if !IsStoredChallenge(challenge) then None else
      ClientIsAscii(challenge);
      var client := AsciiBytes(ClientText(challenge));
      var signature := sign(AuthenticatorData(lib) + lib.sha256(client));
      if signature.None? || |signature.value| != 64 then None
      else Some(AssertionText(Encode(client), Encode(AuthenticatorData(lib)), Encode(signature.value), Encode(key)))
  }

  function Accept(lib: Library, s: State, text: string, devicePublic: seq<Byte>): Result<State, Fault> {
    if Utf8Len(text) > MAX_ASSERTION then Err(Malformed) else
    var fields := lib.assertion(text);
    if fields.None? then Err(Malformed) else
    var f := fields.value;
    if "clientDataJSON" !in f || "authenticatorData" !in f || "signature" !in f then Err(Malformed)
    else if "publicKey" !in f then Err(Key) else
    var client, auth, signature := Decode(f["clientDataJSON"]), Decode(f["authenticatorData"]), Decode(f["signature"]);
    if client.None? || auth.None? || signature.None? then Err(Malformed) else
    var public := Decode(f["publicKey"]);
    if public != Some(devicePublic) then Err(Key) else
    var parsed := lib.client(client.value);
    if parsed.None? || parsed.value.kind != Some("webauthn.get") then Err(Malformed) else
    var c := parsed.value;
    if c.challenge.None? || c.challenge != s.challenge then Err(Challenge)
    else if c.origin != Some(WEBAUTHN_ORIGIN) || c.crossOrigin == Some(true) then Err(Origin)
    else if |auth.value| < 37 || |signature.value| != 64 then Err(Authenticator)
    else if auth.value[..32] != RpHash(lib) then Err(Authenticator)
    else if auth.value[32] % 2 == 0 || auth.value[32] / 4 % 2 == 0 then Err(Authenticator)
    else if !lib.verify(devicePublic, auth.value + lib.sha256(client.value), signature.value) then Err(Signature) else
    var installed := InstallSubject(s, lib.did(devicePublic));
    if installed.None? then Err(Key)
    else Ok(installed.value.(method_ := Passkey, enrollment := AssertionVerified, publicKey := Some(Encode(devicePublic))))
  }

  /** The JSON reader finds in a text what was printed into it. */
  ghost predicate ReadsBack(lib: Library) {
    (forall kind: string, challenge: string, origin: string, cross: bool ::
      Plain(kind) && Plain(challenge) && Plain(origin) ==>
        IsAscii(ClientJson(kind, challenge, origin, cross)) &&
        lib.client(AsciiBytes(ClientJson(kind, challenge, origin, cross))) ==
          Some(ClientData(Some(kind), Some(challenge), Some(origin), Some(cross)))) &&
    (forall client: string, auth: string, signature: string, key: string ::
      IsBase64Url(client) && IsBase64Url(auth) && IsBase64Url(signature) && IsBase64Url(key) ==>
        lib.assertion(AssertionText(client, auth, signature, key)) ==
          Some(map["clientDataJSON" := client, "authenticatorData" := auth, "signature" := signature,
                   "publicKey" := key, "type" := "public-key"]))
  }

  lemma AssertionIsShort(client: string, auth: string, signature: string, key: string)
    requires IsBase64Url(client) && IsBase64Url(auth) && IsBase64Url(signature) && IsBase64Url(key)
    ensures Utf8Len(AssertionText(client, auth, signature, key)) == 94 + |client| + |auth| + |signature| + |key|
  {
    hide IsAscii, IsBase64Url, Quoted, HEAD, SEP1, SEP2, SEP3, TAIL, Utf8Len;
    AssertionLiterals();
    Base64UrlIsAscii(client);
    Base64UrlIsAscii(auth);
    Base64UrlIsAscii(signature);
    Base64UrlIsAscii(key);
    var r4 := Quoted(signature, TAIL);
    var r3 := Quoted(key, SEP3 + r4);
    var r2 := Quoted(client, SEP2 + r3);
    var r1 := Quoted(auth, SEP1 + r2);
    AsciiPair(signature, TAIL);
    AsciiPair(SEP3, r4);
    AsciiPair(key, SEP3 + r4);
    AsciiPair(SEP2, r3);
    AsciiPair(client, SEP2 + r3);
    AsciiPair(SEP1, r2);
    AsciiPair(auth, SEP1 + r2);
    AsciiPair(HEAD, r1);
    AsciiLen(HEAD + r1);
  }

  /** The four parts that an assertion text carries. */
  ghost predicate Carries(
    lib: Library, text: string, client: seq<Byte>, auth: seq<Byte>, signature: seq<Byte>, key: seq<Byte>)
  {
    Utf8Len(text) <= MAX_ASSERTION && lib.assertion(text).Some? &&
    var f := lib.assertion(text).value;
    "clientDataJSON" in f && "authenticatorData" in f && "signature" in f && "publicKey" in f &&
    Decode(f["clientDataJSON"]) == Some(client) && Decode(f["authenticatorData"]) == Some(auth) &&
    Decode(f["signature"]) == Some(signature) && Decode(f["publicKey"]) == Some(key)
  }

  lemma PrintedCarries(lib: Library, client: seq<Byte>, auth: seq<Byte>, signature: seq<Byte>, key: seq<Byte>)
    requires ReadsBack(lib) && 1 <= |client| <= 200 && |auth| == 37 && |signature| == 64 && |key| == 32
    ensures Carries(lib, AssertionText(Encode(client), Encode(auth), Encode(signature), Encode(key)), client, auth, signature, key)
  {
    hide Encode, Decode, IsBase64Url, Utf8Len, AssertionText, ClientText, ClientJson, Plain;
    DecodeInvertsEncode(client);
    DecodeInvertsEncode(auth);
    DecodeInvertsEncode(signature);
    DecodeInvertsEncode(key);
    EncodedLength(client);
    EncodedLength(auth);
    EncodedLength(signature);
    EncodedLength(key);
    AssertionIsShort(Encode(client), Encode(auth), Encode(signature), Encode(key));
  }

  /** What a text is accepted for: this stored challenge and this device key, and nothing else. */
  ghost predicate AcceptedExactlyBy(
    lib: Library, s: State, text: string, devicePublic: seq<Byte>, challenge: string, key: seq<Byte>)
  {
    var r := Accept(lib, s, text, devicePublic);
    (r.Ok? <==> s.challenge == Some(challenge) && devicePublic == key) &&
    (r.Ok? ==> r.value == s.(subject := lib.did(key), method_ := Passkey, enrollment := AssertionVerified,
                             publicKey := Some(Encode(key))))
  }

  ghost predicate WellMade(
    lib: Library, challenge: string, client: seq<Byte>, auth: seq<Byte>, signature: seq<Byte>, key: seq<Byte>)
  {
    lib.client(client) == Some(ClientData(Some("webauthn.get"), Some(challenge), Some(WEBAUTHN_ORIGIN), Some(false))) &&
    |signature| == 64 && |auth| == 37 && auth[..32] == RpHash(lib) && auth[32] == 5 &&
    lib.verify(key, auth + lib.sha256(client), signature) && IsDidKey(lib.did(key))
  }

  /** The checks, for a text whose client data are the device's own and whose signature verifies. */
  lemma AcceptCarried(
    lib: Library, s: State, text: string, devicePublic: seq<Byte>, challenge: string,
    client: seq<Byte>, auth: seq<Byte>, signature: seq<Byte>, key: seq<Byte>)
    ensures Carries(lib, text, client, auth, signature, key) && WellMade(lib, challenge, client, auth, signature, key) ==>
      AcceptedExactlyBy(lib, s, text, devicePublic, challenge, key)
  {
    hide Encode, Decode, IsBase64Url, Utf8Len, IsDidKey, Contains, RpHash;
  }

  /** What the ceremony asks of the libraries: lengths, printing that reads back, and signatures by
      this key that verify. */
  ghost predicate Faithful(lib: Library, key: seq<Byte>, sign: seq<Byte> -> Option<seq<Byte>>) {
    ReadsBack(lib) && |RpHash(lib)| == 32 && |key| == 32 && IsDidKey(lib.did(key)) &&
    forall m :: sign(m).Some? ==> lib.verify(key, m, sign(m).value)
  }

  /** The reader finds the device's own client data. */
  lemma ClientIsRead(lib: Library, challenge: string)
    requires ReadsBack(lib) && IsBase64Url(challenge)
    ensures IsAscii(ClientText(challenge)) && lib.client(AsciiBytes(ClientText(challenge))) ==
      Some(ClientData(Some("webauthn.get"), Some(challenge), Some("https://shell.w3cos.local"), Some(false)))
  {
    hide Plain, IsAscii, ClientJson, IsBase64Url, AsciiBytes;
    PlainParts(challenge);
  }

  /** An assertion the device made for `challenge` is accepted exactly where that challenge is stored
      and the device key is the same one. */
  lemma DeviceAssertionAcceptedIff(
    lib: Library, s: State, challenge: string, key: seq<Byte>, devicePublic: seq<Byte>,
    sign: seq<Byte> -> Option<seq<Byte>>)
    ensures Faithful(lib, key, sign) && DeviceAssertion(lib, challenge, key, sign).Some? ==>
      AcceptedExactlyBy(lib, s, DeviceAssertion(lib, challenge, key, sign).value, devicePublic, challenge, key)
  {
    hide Encode, Decode, IsBase64Url, Utf8Len, IsDidKey, Contains, Accept, AssertionText, Carries, ClientText,
         ClientJson, AcceptedExactlyBy;
    if Faithful(lib, key, sign) && DeviceAssertion(lib, challenge, key, sign).Some? {
      StoredIsBase64Url(challenge);
      ClientIsAscii(challenge);
      ClientIsRead(lib, challenge);
      var client, auth := AsciiBytes(ClientText(challenge)), AuthenticatorData(lib);
      var signature := sign(auth + lib.sha256(client)).value;
      var text := AssertionText(Encode(client), Encode(auth), Encode(signature), Encode(key));
      assert auth[..32] == RpHash(lib) && auth[32] == 5;
      PrintedCarries(lib, client, auth, signature, key);
      AcceptCarried(lib, s, text, devicePublic, challenge, client, auth, signature, key);
    }
  }

  /** The key signs client data for the stored challenge at this origin, for this relying party. */
  ghost predicate Signs(
    lib: Library, s: State, client: seq<Byte>, auth: seq<Byte>, signature: seq<Byte>, key: seq<Byte>)
  {
    lib.verify(key, auth + lib.sha256(client), signature) &&
    lib.client(client).Some? && s.challenge.Some? && lib.client(client).value.challenge == s.challenge &&
    lib.client(client).value.kind == Some("webauthn.get") &&
    lib.client(client).value.origin == Some(WEBAUTHN_ORIGIN) && lib.client(client).value.crossOrigin != Some(true) &&
    |auth| >= 37 && auth[..32] == RpHash(lib) && auth[32] % 2 == 1 && auth[32] / 4 % 2 == 1
  }

  /** Nothing is accepted without a signature by the device key over the stored challenge, this origin,
      this relying party, and a present and verified user. */
  lemma AcceptedMeansSigned(lib: Library, s: State, text: string, devicePublic: seq<Byte>)
    ensures Accept(lib, s, text, devicePublic).Ok? ==> exists client, auth, signature ::
      Carries(lib, text, client, auth, signature, devicePublic) && Signs(lib, s, client, auth, signature, devicePublic)
  {
    hide Encode, Decode, IsBase64Url, Utf8Len, IsDidKey, Contains, RpHash;
    if Accept(lib, s, text, devicePublic).Ok? {
      var f := lib.assertion(text).value;
      var client, auth := Decode(f["clientDataJSON"]).value, Decode(f["authenticatorData"]).value;
      var signature := Decode(f["signature"]).value;
      assert Carries(lib, text, client, auth, signature, devicePublic);
    }
  }

  /** Each fault and what was wrong with the assertion. */
  ghost predicate IsCause(
    lib: Library, s: State, fault: Fault, client: seq<Byte>, auth: seq<Byte>, signature: seq<Byte>, key: seq<Byte>)
  {
    lib.client(client).Some? && lib.client(client).value.kind == Some("webauthn.get") &&
    var c := lib.client(client).value;
    var stored := c.challenge.Some? && c.challenge == s.challenge;
    var here := c.origin == Some(WEBAUTHN_ORIGIN) && c.crossOrigin != Some(true);
    var present := |auth| >= 37 && |signature| == 64 && auth[..32] == RpHash(lib) && auth[32] % 2 == 1 && auth[32] / 4 % 2 == 1;
    var signed := lib.verify(key, auth + lib.sha256(client), signature);
    match fault
    case Challenge => !stored
    case Origin => stored && !here
    case Authenticator => stored && here && !present
    case Signature => stored && here && present && !signed
    case Key => stored && here && present && signed && !IsDidKey(lib.did(key))
    case Malformed => false
  }

  ghost predicate HasCause(lib: Library, s: State, text: string, key: seq<Byte>, fault: Fault) {
    exists client, auth, signature ::
      Carries(lib, text, client, auth, signature, key) && IsCause(lib, s, fault, client, auth, signature, key)
  }

  /** The text holds another key, or none, beside its three other parts. */
  ghost predicate OtherKey(lib: Library, text: string, key: seq<Byte>) {
    lib.assertion(text).Some? &&
    var f := lib.assertion(text).value;
    "clientDataJSON" in f && "authenticatorData" in f && "signature" in f &&
    ("publicKey" in f ==> Decode(f["publicKey"]) != Some(key))
  }

  /** Apart from texts that cannot be read, the fault names the first thing that is wrong. */
  lemma FaultHasCause(lib: Library, s: State, text: string, key: seq<Byte>)
    ensures var r := Accept(lib, s, text, key);
      r.Err? && r.error != Malformed ==> HasCause(lib, s, text, key, r.error) || (r.error == Key && OtherKey(lib, text, key))
  {
    hide Encode, Decode, IsBase64Url, Utf8Len, IsDidKey, Contains, RpHash;
    var r := Accept(lib, s, text, key);
    if r.Err? && r.error != Malformed && !OtherKey(lib, text, key) {
      var f := lib.assertion(text).value;
      var client, auth := Decode(f["clientDataJSON"]).value, Decode(f["authenticatorData"]).value;
      var signature := Decode(f["signature"]).value;
      assert Carries(lib, text, client, auth, signature, key);
      assert IsCause(lib, s, r.error, client, auth, signature, key);
    }
  }

  // ---------------------------------------------------------------- such libraries exist

  lemma QuoteIsAfter(a: string, r: string, b: string, q: string)
    requires '"' !in b && Quoted(a, r) == Quoted(b, q)
    ensures |b| <= |a|
  {
    var t := Quoted(b, q);
    assert forall i :: 0 <= i < |b| ==> t[i] == b[i];
    assert Quoted(a, r)[|a|] == '"';
  }

  /** A value without a quote ends at the first quote. */
  lemma UpToTheQuote(a: string, r: string, b: string, q: string)
    requires '"' !in a && '"' !in b && Quoted(a, r) == Quoted(b, q)
    ensures a == b && r == q
  {
    QuoteIsAfter(a, r, b, q);
    QuoteIsAfter(b, q, a, r);
    assert Quoted(a, r)[..|a|] == a && Quoted(b, q)[..|b|] == b;
    assert Quoted(a, r)[|a| + 1..] == r && Quoted(b, q)[|b| + 1..] == q;
  }

  lemma AfterPrefix(p: string, a: string, b: string)
    requires p + a == p + b
    ensures a == b
  {
    assert (p + a)[|p|..] == a && (p + b)[|p|..] == b;
  }

  lemma NoQuote(text: string)
    requires IsBase64Url(text)
    ensures '"' !in text
  {}

  /** Printed assertions differ when any of their values do. */
  lemma AssertionInjective(
    c1: string, a1: string, s1: string, k1: string, c2: string, a2: string, s2: string, k2: string)
    requires '"' !in c1 && '"' !in a1 && '"' !in s1 && '"' !in k1 && '"' !in c2 && '"' !in a2 && '"' !in s2 && '"' !in k2
    requires AssertionText(c1, a1, s1, k1) == AssertionText(c2, a2, s2, k2)
    ensures c1 == c2 && a1 == a2 && s1 == s2 && k1 == k2
  {
    hide Quoted, HEAD, SEP1, SEP2, SEP3, TAIL;
    var end1, end2 := Quoted(s1, TAIL), Quoted(s2, TAIL);
    var key1, key2 := Quoted(k1, SEP3 + end1), Quoted(k2, SEP3 + end2);
    var client1, client2 := Quoted(c1, SEP2 + key1), Quoted(c2, SEP2 + key2);
    AfterPrefix(HEAD, Quoted(a1, SEP1 + client1), Quoted(a2, SEP1 + client2));
    UpToTheQuote(a1, SEP1 + client1, a2, SEP1 + client2);
    AfterPrefix(SEP1, client1, client2);
    UpToTheQuote(c1, SEP2 + key1, c2, SEP2 + key2);
    AfterPrefix(SEP2, key1, key2);
    UpToTheQuote(k1, SEP3 + end1, k2, SEP3 + end2);
    AfterPrefix(SEP3, end1, end2);
    UpToTheQuote(s1, TAIL, s2, TAIL);
  }

  ghost predicate IsPrint(text: string, p: (string, string, string, string)) {
    IsBase64Url(p.0) && IsBase64Url(p.1) && IsBase64Url(p.2) && IsBase64Url(p.3) &&
    AssertionText(p.0, p.1, p.2, p.3) == text
  }

  function Parts(p: (string, string, string, string)): map<string, string> {
    map["clientDataJSON" := p.0, "authenticatorData" := p.1, "signature" := p.2, "publicKey" := p.3, "type" := "public-key"]
  }

  ghost function ReadAssertion(text: string): Option<map<string, string>> {
    if exists p :: IsPrint(text, p) then
      var p :| IsPrint(text, p);
      Some(Parts(p))
    else None
  }

  lemma ReadsPrinted(client: string, auth: string, signature: string, key: string)
    requires IsBase64Url(client) && IsBase64Url(auth) && IsBase64Url(signature) && IsBase64Url(key)
    ensures ReadAssertion(AssertionText(client, auth, signature, key)) == Some(Parts((client, auth, signature, key)))
  {
    hide AssertionText, IsBase64Url, Parts;
    var text := AssertionText(client, auth, signature, key);
    assert IsPrint(text, (client, auth, signature, key));
    forall p | IsPrint(text, p) ensures p == (client, auth, signature, key) {
      NoQuote(p.0);
      NoQuote(p.1);
      NoQuote(p.2);
      NoQuote(p.3);
      NoQuote(client);
      NoQuote(auth);
      NoQuote(signature);
      NoQuote(key);
      AssertionInjective(p.0, p.1, p.2, p.3, client, auth, signature, key);
    }
  }

  ghost predicate IsClient(bytes: seq<Byte>, p: (string, string, string, bool)) {
    Plain(p.0) && Plain(p.1) && Plain(p.2) && IsAscii(ClientJson(p.0, p.1, p.2, p.3)) &&
    AsciiBytes(ClientJson(p.0, p.1, p.2, p.3)) == bytes
  }

  ghost function ReadClient(bytes: seq<Byte>): Option<ClientData> {
    if exists p :: IsClient(bytes, p) then
      var p :| IsClient(bytes, p);
      Some(ClientData(Some(p.0), Some(p.1), Some(p.2), Some(p.3)))
    else None
  }

  lemma {:induction false} SameBytesSameText(a: string, b: string)
    requires IsAscii(a) && IsAscii(b) && AsciiBytes(a) == AsciiBytes(b)
    ensures a == b
  {
    assert |AsciiBytes(a)| == |a| && |AsciiBytes(b)| == |b|;
    forall i | 0 <= i < |a| ensures a[i] == b[i] {
      assert AsciiBytes(a)[i] == AsciiBytes(b)[i];
    }
  }

  lemma PlainHasNoQuote(s: string)
    requires Plain(s)
    ensures '"' !in s && IsAscii(s)
  {}

  lemma CrossEndsDiffer()
    ensures CrossEnd(true) != CrossEnd(false)
  {
    CrossEndLiterals(true);
    CrossEndLiterals(false);
  }

  /** Printed client data differ when any of their values do. */
  lemma ClientInjective(k1: string, c1: string, o1: string, x1: bool, k2: string, c2: string, o2: string, x2: bool)
    requires '"' !in k1 && '"' !in c1 && '"' !in o1 && '"' !in k2 && '"' !in c2 && '"' !in o2
    requires ClientJson(k1, c1, o1, x1) == ClientJson(k2, c2, o2, x2)
    ensures k1 == k2 && c1 == c2 && o1 == o2 && x1 == x2
  {
    hide Quoted, CLIENT_TYPE, CLIENT_CHALLENGE, CLIENT_ORIGIN, CrossEnd;
    var origin1, origin2 := Quoted(o1, CrossEnd(x1)), Quoted(o2, CrossEnd(x2));
    var rest1, rest2 := Quoted(c1, CLIENT_ORIGIN + origin1), Quoted(c2, CLIENT_ORIGIN + origin2);
    AfterPrefix(CLIENT_TYPE, Quoted(k1, CLIENT_CHALLENGE + rest1), Quoted(k2, CLIENT_CHALLENGE + rest2));
    UpToTheQuote(k1, CLIENT_CHALLENGE + rest1, k2, CLIENT_CHALLENGE + rest2);
    AfterPrefix(CLIENT_CHALLENGE, rest1, rest2);
    UpToTheQuote(c1, CLIENT_ORIGIN + origin1, c2, CLIENT_ORIGIN + origin2);
    AfterPrefix(CLIENT_ORIGIN, origin1, origin2);
    UpToTheQuote(o1, CrossEnd(x1), o2, CrossEnd(x2));
    CrossEndsDiffer();
  }

  lemma ReadsPrintedClient(kind: string, challenge: string, origin: string, cross: bool)
    requires Plain(kind) && Plain(challenge) && Plain(origin)
    ensures IsAscii(ClientJson(kind, challenge, origin, cross))
    ensures ReadClient(AsciiBytes(ClientJson(kind, challenge, origin, cross))) ==
      Some(ClientData(Some(kind), Some(challenge), Some(origin), Some(cross)))
  {
    hide Plain, ClientJson, IsAscii, AsciiBytes;
    PlainHasNoQuote(kind);
    PlainHasNoQuote(challenge);
    PlainHasNoQuote(origin);
    JsonIsAscii(kind, challenge, origin, cross);
    var text := ClientJson(kind, challenge, origin, cross);
    assert IsClient(AsciiBytes(text), (kind, challenge, origin, cross));
    forall p | IsClient(AsciiBytes(text), p) ensures p == (kind, challenge, origin, cross) {
      PlainHasNoQuote(p.0);
      PlainHasNoQuote(p.1);
      PlainHasNoQuote(p.2);
      SameBytesSameText(ClientJson(p.0, p.1, p.2, p.3), text);
      ClientInjective(p.0, p.1, p.2, p.3, kind, challenge, origin, cross);
    }
  }

  /** What the ceremony asks can be met: printing loses nothing, so a reader exists. */
  lemma FaithfulLibraryExists(key: seq<Byte>)
    requires |key| == 32
    ensures exists lib: Library, sign: seq<Byte> -> Option<seq<Byte>>, challenge: string ::
      Faithful(lib, key, sign) && DeviceAssertion(lib, challenge, key, sign).Some?
  {
    hide Faithful, DeviceAssertion;
    var lib, sign, challenge := SampleLibrary(), SampleSign(), SampleChallenge();
    SampleIsFaithful(key);
    SampleSigns(key);
    assert Faithful(lib, key, sign) && DeviceAssertion(lib, challenge, key, sign).Some?;
  }

  ghost function SampleLibrary(): Library {
    Library(_ => Zeros(32), (k, m, s) => true, _ => "did:key:" + "12345678", (p, s) => Zeros(32),
            b => ReadClient(b), t => ReadAssertion(t))
  }

  function SampleSign(): seq<Byte> -> Option<seq<Byte>> {
    _ => Some(Zeros(64))
  }

  function SampleChallenge(): string {
    seq(43, _ => 'A')
  }

  lemma SampleIsFaithful(key: seq<Byte>)
    requires |key| == 32
    ensures Faithful(SampleLibrary(), key, SampleSign())
  {
    hide ReadsBack, IsDidKey, ReadClient, ReadAssertion;
    SampleDid();
    ReaderReadsBack(SampleLibrary());
  }

  lemma SampleSigns(key: seq<Byte>)
    ensures DeviceAssertion(SampleLibrary(), SampleChallenge(), key, SampleSign()).Some?
  {
    hide AssertionText, ClientText, ClientJson, Encode, ReadClient, ReadAssertion;
  }

  lemma SampleDid()
    ensures IsDidKey("did:key:" + "12345678")
  {
    AsciiLen("12345678");
    assert ("did:key:" + "12345678")[8..] == "12345678";
  }

  lemma ReaderReadsBack(lib: Library)
    requires (forall b :: lib.client(b) == ReadClient(b)) && (forall t :: lib.assertion(t) == ReadAssertion(t))
    ensures ReadsBack(lib)
  {
    hide AssertionText, IsBase64Url, ClientJson, Plain, ReadClient, ReadAssertion, IsAscii, AsciiBytes;
    forall kind: string, challenge: string, origin: string, cross: bool | Plain(kind) && Plain(challenge) && Plain(origin)
      ensures IsAscii(ClientJson(kind, challenge, origin, cross)) &&
        lib.client(AsciiBytes(ClientJson(kind, challenge, origin, cross))) ==
          Some(ClientData(Some(kind), Some(challenge), Some(origin), Some(cross)))
    {
      ReadsPrintedClient(kind, challenge, origin, cross);
    }
    forall client: string, auth: string, signature: string, key: string |
      IsBase64Url(client) && IsBase64Url(auth) && IsBase64Url(signature) && IsBase64Url(key)
      ensures lib.assertion(AssertionText(client, auth, signature, key)) == Some(Parts((client, auth, signature, key)))
    {
      ReadsPrinted(client, auth, signature, key);
    }
  }

  lemma StoredIsBase64Url(challenge: string)
    requires IsStoredChallenge(challenge)
    ensures IsBase64Url(challenge) && |challenge| == 43
  {}

  // ---------------------------------------------------------------- the identity as the shell holds it

  class LocalIdentity {
    var subject: string
    var method_: Method
    var enrollment: Enrollment
    var unlocked: bool
    var verifier: Option<string>
    var challenge: Option<string>
    var publicKey: Option<string>

    ghost function Get(): State
      reads this
    {
      State(subject, method_, enrollment, unlocked, verifier, challenge, publicKey)
    }

    constructor ()
      ensures Get() == Fresh()
    {
      subject, method_, enrollment, unlocked := SUBJECT, Stub, NotRegistered, false;
      verifier, challenge, publicKey := None, None, None;
    }

    method Note()
      modifies this`enrollment
      ensures enrollment == AwaitingPasskey
    {
      enrollment := AwaitingPasskey;
    }

    method Begin(random: Option<seq<Byte>>) returns (minted: Option<string>)
      modifies this
      ensures Get() == BeginEnrollment(old(Get()), random)
      ensures minted == if random.None? then None else challenge
    {
      if random.None? {
        return None;
      }
      var text := EncodeText(random.value);
      challenge, publicKey, enrollment := Some(text), None, AwaitingPasskey;
      minted := Some(text);
    }

    method StoreKey(key: seq<Byte>) returns (stored: bool)
      modifies this
      ensures stored == StorePublicKey(old(Get()), key).Some?
      ensures Get() == if stored then StorePublicKey(old(Get()), key).value else old(Get())
    {
      if challenge.None? || |key| == 0 || |key| > 128 {
        return false;
      }
      var text := EncodeText(key);
      publicKey, enrollment := Some(text), KeyMaterialStored;
      stored := true;
    }

    method Restore(storedChallenge: Option<string>, storedKey: Option<string>)
      modifies this
      ensures Get() == RestoreMaterial(old(Get()), storedChallenge, storedKey)
    {
      challenge := if storedChallenge.Some? && IsStoredChallenge(storedChallenge.value) then storedChallenge else None;
      publicKey := if storedKey.Some? && IsStoredPublicKey(storedKey.value) then storedKey else None;
    }

    method SetEnrollment(state: Enrollment)
      modifies this
      ensures Get() == RestoreEnrollment(old(Get()), state)
    {
      enrollment := state;
      if state.AssertionVerified? && IsDidKey(subject) && !Contains(subject, "stub") {
        method_ := Passkey;
      }
    }

    method Install(newSubject: string) returns (installed: bool)
      modifies this
      ensures installed == InstallSubject(old(Get()), newSubject).Some?
      ensures Get() == if installed then InstallSubject(old(Get()), newSubject).value else old(Get())
    {
      if !IsDidKey(newSubject) {
        return false;
      }
      method_ := if Contains(newSubject, "stub") then Stub else DidKey;
      subject := newSubject;
      installed := true;
    }

    method AcceptAssertion(lib: Library, text: string, devicePublic: seq<Byte>) returns (r: Result<(), Fault>)
      modifies this
      ensures var a := Accept(lib, old(Get()), text, devicePublic);
        if a.Ok? then r == Ok(()) && Get() == a.value else r == Err(a.error) && Get() == old(Get())
    {
      hide Encode, Decode, IsBase64Url, Utf8Len, IsDidKey, Contains, RpHash;
      if Utf8Len(text) > MAX_ASSERTION {
        return Err(Malformed);
      }
      var value := lib.assertion(text);
      if value.None? {
        return Err(Malformed);
      }
      var fields := value.value;
      if "clientDataJSON" !in fields || "authenticatorData" !in fields || "signature" !in fields {
        return Err(Malformed);
      }
      if "publicKey" !in fields {
        return Err(Key);
      }
      var client := DecodeText(fields["clientDataJSON"]);
      var auth := DecodeText(fields["authenticatorData"]);
      var signature := DecodeText(fields["signature"]);
      var public := DecodeText(fields["publicKey"]);
      if client.None? || auth.None? || signature.None? {
        return Err(Malformed);
      }
      if public.None? || public.value != devicePublic {
        return Err(Key);
      }
      var parsed := lib.client(client.value);
      if parsed.None? || parsed.value.kind != Some("webauthn.get") {
        return Err(Malformed);
      }
      var data := parsed.value;
      if data.challenge.None? || challenge.None? || data.challenge.value != challenge.value {
        return Err(Challenge);
      }
      if data.origin.None? || data.origin.value != WEBAUTHN_ORIGIN || data.crossOrigin == Some(true) {
        return Err(Origin);
      }
      if |auth.value| < 37 || |signature.value| != 64 {
        return Err(Authenticator);
      }
      if auth.value[..32] != RpHash(lib) {
        return Err(Authenticator);
      }
      var flags := auth.value[32];
      if flags % 2 == 0 || flags / 4 % 2 == 0 {
        return Err(Authenticator);
      }
      if !lib.verify(devicePublic, auth.value + lib.sha256(client.value), signature.value) {
        return Err(Signature);
      }
      var installed := Install(lib.did(devicePublic));
      if !installed {
        return Err(Key);
      }
      var key := EncodeText(devicePublic);
      method_, enrollment, publicKey := Passkey, AssertionVerified, Some(key);
      r := Ok(());
    }

    method Lock()
      modifies this`unlocked
      ensures !unlocked
    {
      unlocked := false;
    }

    method RestorePin(lib: Library, stored: string, salt: Option<seq<Byte>>) returns (migrated: bool)
      modifies this
      ensures (Get(), migrated) == RestoreLockedPin(lib, old(Get()), stored, salt)
    {
      if stored == "" || verifier.Some? {
        return false;
      }
      if IsVerifier(stored) {
        verifier, migrated := Some(stored), false;
      } else if salt.None? {
        return false;
      } else {
        verifier, migrated := Some(SealPin(lib, stored, salt.value)), true;
      }
      unlocked := false;
    }

    method UnlockWith(lib: Library, passphrase: string, salt: Option<seq<Byte>>) returns (ok: bool)
      modifies this
      ensures ok == Unlock(lib, old(Get()), passphrase, salt).Some?
      ensures Get() == if ok then Unlock(lib, old(Get()), passphrase, salt).value else old(Get())
    {
      if passphrase == "" {
        return false;
      }
      if verifier.Some? {
        if !VerifyPin(lib, passphrase, verifier.value) {
          return false;
        }
      } else if salt.None? {
        return false;
      } else {
        verifier := Some(SealPin(lib, passphrase, salt.value));
      }
      unlocked := true;
      ok := true;
    }
  }

  // ---------------------------------------------------------------- constant-time comparison

  /** Every byte is compared, whatever the earlier ones were. */
  method ConstantEq(left: seq<bv8>, right: seq<bv8>) returns (equal: bool)
    ensures equal <==> left == right
  {
    if |left| != |right| {
      return false;
    }
    var diff: bv8 := 0;
    for i := 0 to |left|
      invariant diff == 0 <==> left[..i] == right[..i]
    {
      XorOr(diff, left[i], right[i]);
      assert left[..i + 1] == left[..i] + [left[i]] && right[..i + 1] == right[..i] + [right[i]];
      diff := diff | (left[i] ^ right[i]);
    }
    assert left[..|left|] == left && right[..|right|] == right;
    equal := diff == 0;
  }

  lemma XorOr(diff: bv8, a: bv8, b: bv8)
    ensures diff | (a ^ b) == 0 <==> diff == 0 && a == b
  {}
}
