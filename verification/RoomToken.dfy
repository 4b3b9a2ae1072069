/** Room tokens: the 22 characters of a room link that carry the 16 bytes of a UUIDv8. */
module RoomToken {
  import opened Options
  import opened Uuid
  import opened Base64Url

  const ROOM_TOKEN_LENGTH: nat := 22

  predicate IsUrlText(s: string) {
    forall i | 0 <= i < |s| :: IsUrlChar(s[i])
  }

  /** The pattern `^[A-Za-z0-9_-]{21}[AQgw]$`. */
  predicate LooksLikeToken(value: string) {
    |value| == ROOM_TOKEN_LENGTH && IsUrlText(value[..21]) && value[21] in "AQgw"
  }

  predicate IsRoomToken(value: string) {
    && LooksLikeToken(value)
    && Decode(value).Some?
    && IsRoomUuid(Decode(value).value)
  }

  // ---------------------------------------------------------------- canonical tokens

  function Read(s: string): seq<Sextet>
    requires IsUrlText(s)
  {
    seq(|s|, i requires 0 <= i < |s| => UrlChars(s[i]); Value(FromUrl(s[i])).value)
  }

  lemma ReadIsToken(s: string)
    requires IsUrlText(s)
    ensures Token(Read(s)) == s
  {
    forall i | 0 <= i < |s| ensures Token(Read(s))[i] == s[i] { UrlChars(s[i]); }
  }

  /** Text in the URL alphabet is the encoding of what it decodes to exactly when its filling bits are zero. */
  lemma CanonicalIff(s: string)
    requires IsUrlText(s) && |s| % 4 != 1
    ensures Decode(s) == Some(Bytes(Read(s)))
    ensures Encode(Decode(s).value) == s <==> Canonical(Read(s))
  {
    var x := Read(s);
    ReadIsToken(s);
    TokenDecodes(x);
    SextetsOfBytes(x);
    EncodeIsToken(Bytes(x));
    TokenIsInjective(Sextets(Bytes(x)), x);
  }

  lemma TokenIsInjective(x: seq<Sextet>, y: seq<Sextet>)
    ensures Token(x) == Token(y) <==> x == y
  {
    if Token(x) == Token(y) {
      forall i | 0 <= i < |x|
        ensures |x| == |y| && x[i] == y[i]
      {
        assert |Token(x)| == |Token(y)| && Token(x)[i] == Token(y)[i];
        UrlDigits(x[i]);
        UrlDigits(y[i]);
        DigitsAreValues(x[i], Digit(x[i]));
        DigitsAreValues(y[i], Digit(y[i]));
      }
      assert |x| == |Token(x)| == |Token(y)| == |y|;
    }
  }

  /** The last of 22 characters has zero filling bits exactly when it is one of A, Q, g and w. */
  lemma LastCharacter(c: char)
    requires IsUrlChar(c)
    ensures Value(FromUrl(c)).Some?
    ensures Value(FromUrl(c)).value % 16 == 0 <==> c in "AQgw"
  {
    var v := Value(FromUrl(c)).value;
    assert v % 16 == 0 <==> v == 0 || v == 16 || v == 32 || v == 48;
  }

  lemma LooksLikeTokenIff(value: string)
    ensures LooksLikeToken(value) <==>
            |value| == ROOM_TOKEN_LENGTH && IsUrlText(value) && Canonical(Read(value))
  {
    if |value| == ROOM_TOKEN_LENGTH && IsUrlText(value[..21]) && IsUrlChar(value[21]) {
      assert forall i | 0 <= i < 21 :: value[i] == value[..21][i];
      assert IsUrlText(value);
      LastCharacter(value[21]);
      assert Read(value)[21] == Value(FromUrl(value[21])).value;
    }
  }

  /** A token is the encoding of the room it decodes to. */
  lemma TokensAreEncodings(value: string)
    requires IsRoomToken(value)
    ensures Encode(Decode(value).value) == value
  {
    LooksLikeTokenIff(value);
    CanonicalIff(value);
  }

  lemma EncodingsAreTokens(b: seq<Byte>)
    requires IsRoomUuid(b)
    ensures IsRoomToken(Encode(b))
  {
    var x := Sextets(b);
    SextetsLength(b);
    SextetsAreCanonical(b);
    EncodeIsToken(b);
    DecodeEncode(b);
    forall i | 0 <= i < |x| ensures IsUrlChar(Token(x)[i]) { UrlDigits(x[i]); }
    ReadIsToken(Token(x));
    TokenIsInjective(Read(Token(x)), x);
    LooksLikeTokenIff(Token(x));
  }

  /** The accepted tokens are exactly the encodings of the 16 bytes of a UUIDv8. */
  lemma AcceptsExactlyTheRooms(value: string)
    ensures IsRoomToken(value) <==> exists b: seq<Byte> :: IsRoomUuid(b) && value == Encode(b)
  {
    if IsRoomToken(value) {
      TokensAreEncodings(value);
    } else if exists b: seq<Byte> :: IsRoomUuid(b) && value == Encode(b) {
      var b: seq<Byte> :| IsRoomUuid(b) && value == Encode(b);
      EncodingsAreTokens(b);
    }
  }

  /** No room answers to two tokens. */
  lemma TokensNameOneRoomEach(v: string, w: string)
    requires IsRoomToken(v) && IsRoomToken(w)
    ensures Decode(v) == Decode(w) <==> v == w
  {
    TokensAreEncodings(v);
    TokensAreEncodings(w);
  }

  // ---------------------------------------------------------------- minting

  /** The version in the high nibble, and the variant in the two high bits. */
  function Version8(x: Byte): Byte {
    x % 16 + 128
  }

  function Variant(x: Byte): Byte {
    x % 64 + 128
  }

  /** The source's masks on the eight bits of a byte are these functions, and its tests are those of `IsRoomUuid`. */
  lemma BitsAreArithmetic(b: bv8)
    ensures ((b & 0x0f) | 0x80) as int == Version8(b as int) && ((b & 0x3f) | 0x80) as int == Variant(b as int)
    ensures b & 0xf0 == 0x80 <==> b as int / 16 == 8
    ensures b & 0xc0 == 0x80 <==> b as int / 64 == 2
  {
  }

  /** The random bytes with version and variant stamped in. */
  function Stamped(random: seq<Byte>): seq<Byte>
    requires |random| == 16
  {
    random[6 := Version8(random[6])][8 := Variant(random[8])]
  }

  /** Whatever the random bytes, the token minted from them is accepted; and every room can be minted. */
  lemma MintedTokensAreAccepted(random: seq<Byte>)
    requires |random| == 16
    ensures IsRoomToken(Encode(Stamped(random))) && Decode(Encode(Stamped(random))) == Some(Stamped(random))
    ensures IsRoomUuid(random) <==> Stamped(random) == random
  {
    StampedIsRoom(random, Version8(random[6]), Variant(random[8]));
    EncodingsAreTokens(Stamped(random));
    DecodeEncode(Stamped(random));
  }

  lemma StampedIsRoom(random: seq<Byte>, v: Byte, w: Byte)
    requires |random| == 16 && v == random[6] % 16 + 128 && w == random[8] % 64 + 128
    ensures IsRoomUuid(random[6 := v][8 := w])
    ensures IsRoomUuid(random) <==> random[6 := v][8 := w] == random
  {
    assert random[6 := v][8 := w][6] == v && random[6 := v][8 := w][8] == w;
  }

  // ---------------------------------------------------------------- the methods

  /** A string whose characters are bytes, as `btoa` takes and `atob` returns it. */
  function Binary(b: seq<Byte>): string {
    seq(|b|, i requires 0 <= i < |b| => b[i] as char)
  }

  predicate IsBinary(s: string) {
    forall i | 0 <= i < |s| :: s[i] as int < 256
  }

  function Codes(s: string): seq<Byte>
    requires IsBinary(s)
  {
    seq(|s|, i requires 0 <= i < |s| => s[i] as int)
  }

  method Base64UrlEncode(bytes: array<Byte>) returns (token: string)
    ensures token == Encode(bytes[..])
  {
    var binary := "";
    for i := 0 to bytes.Length
      invariant binary == Binary(bytes[..i])
    {
      binary := binary + [bytes[i] as char];
    }
    assert Codes(binary) == bytes[..];
    return StripEquals(Map(Btoa(Codes(binary)), ToUrl));
  }

  method Base64UrlDecode(token: string) returns (r: Option<array<Byte>>)
    ensures r.Some? <==> Decode(token).Some?
    ensures r.Some? ==> fresh(r.value) && r.value[..] == Decode(token).value
  {
    var padded := Map(token, FromUrl);
    while |padded| % 4 != 0
      invariant Filled(padded) == Filled(Map(token, FromUrl))
      decreases MissingDigits(|padded|)
    {
      assert |padded + "="| == |padded| + 1;
      padded := padded + "=";
    }
    var decoded := Atob(padded);
    if decoded.None? { return None; }
    var binary := Binary(decoded.value);
    var bytes := new Byte[|binary|];
    for i := 0 to |binary|
      invariant forall k | 0 <= k < i :: bytes[k] == decoded.value[k]
    {
      bytes[i] := binary[i] as int;
    }
    assert bytes[..] == decoded.value;
    return Some(bytes);
  }

  /** `generateRoomToken`, given the bytes the browser drew. */
  method GenerateRoomToken(bytes: array<Byte>) returns (token: string)
    requires bytes.Length == 16
    modifies bytes
    ensures bytes[..] == Stamped(old(bytes[..])) && token == Encode(bytes[..])
    ensures IsRoomToken(token)
  {
    bytes[6] := Version8(bytes[6]);
    bytes[8] := Variant(bytes[8]);
    MintedTokensAreAccepted(old(bytes[..]));
    token := Base64UrlEncode(bytes);
  }

  method CheckRoomToken(value: string) returns (ok: bool)
    ensures ok <==> IsRoomToken(value)
  {
    if !LooksLikeToken(value) { return false; }
    var bytes := Base64UrlDecode(value);
    if bytes.None? { return false; }
    return bytes.value.Length == 16 && bytes.value[6] / 16 == 8 && bytes.value[8] / 64 == 2;
  }
}
