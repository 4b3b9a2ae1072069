/** Base64 with the URL alphabet (section 5 of RFC 4648), as the browser computes it with `btoa` and `atob`. */
module Base64Url {
  import opened Options
  import opened Uuid

  // ---------------------------------------------------------------- groups of 24 bits

  type Sextet = x: int | 0 <= x < 64

  function S0(b0: Byte): Sextet { b0 / 4 }
  function S1(b0: Byte, b1: Byte): Sextet { b0 % 4 * 16 + b1 / 16 }
  function S2(b1: Byte, b2: Byte): Sextet { b1 % 16 * 4 + b2 / 64 }
  function S3(b2: Byte): Sextet { b2 % 64 }

  function B0(s0: int, s1: int): Byte
    requires 0 <= s0 < 64 && 0 <= s1 < 64
  {
    s0 * 4 + s1 / 16
  }

  function B1(s1: int, s2: int): Byte
    requires 0 <= s1 < 64 && 0 <= s2 < 64
  {
    s1 % 16 * 16 + s2 / 4
  }

  function B2(s2: int, s3: int): Byte
    requires 0 <= s2 < 64 && 0 <= s3 < 64
  {
    s2 % 4 * 64 + s3
  }

  /** Three bytes are four sextets; one or two left over are two or three, filled with zero bits. */
  function Sextets(b: seq<Byte>): seq<Sextet> {
    if |b| == 0 then []
    else if |b| == 1 then [S0(b[0]), S1(b[0], 0)]
    else if |b| == 2 then [S0(b[0]), S1(b[0], b[1]), S2(b[1], 0)]
    else [S0(b[0]), S1(b[0], b[1]), S2(b[1], b[2]), S3(b[2])] + Sextets(b[3..])
  }

  /** The bytes of a list of sextets; bits that do not fill a byte are dropped. */
  function Bytes(s: seq<Sextet>): seq<Byte> {
    if |s| < 2 then []
    else if |s| == 2 then [B0(s[0], s[1])]
    else if |s| == 3 then [B0(s[0], s[1]), B1(s[1], s[2])]
    else [B0(s[0], s[1]), B1(s[1], s[2]), B2(s[2], s[3])] + Bytes(s[4..])
  }

  lemma GroupOut(b0: Byte, b1: Byte, b2: Byte)
    ensures B0(S0(b0), S1(b0, b1)) == b0 && B1(S1(b0, b1), S2(b1, b2)) == b1 && B2(S2(b1, b2), S3(b2)) == b2
  {
  }

  lemma GroupIn(s0: Sextet, s1: Sextet, s2: Sextet, s3: Sextet)
    ensures S0(B0(s0, s1)) == s0 && S1(B0(s0, s1), B1(s1, s2)) == s1
    ensures S2(B1(s1, s2), B2(s2, s3)) == s2 && S3(B2(s2, s3)) == s3
  {
  }

  /** A group cut short keeps its last sextet exactly when the filling bits are zero. */
  lemma GroupEnds(s0: Sextet, s1: Sextet, s2: Sextet)
    ensures S1(B0(s0, s1), 0) == s1 <==> s1 % 16 == 0
    ensures S2(B1(s1, s2), 0) == s2 <==> s2 % 4 == 0
  {
  }

  lemma FillIsZero(b0: Byte, b1: Byte)
    ensures S1(b0, 0) % 16 == 0 && S2(b1, 0) % 4 == 0
  {
  }

  lemma {:induction false} SextetsLength(b: seq<Byte>)
    ensures |Sextets(b)| == |b| / 3 * 4 + (if |b| % 3 == 0 then 0 else |b| % 3 + 1)
  {
    if |b| >= 3 { SextetsLength(b[3..]); }
  }

  /** The number the sextets spell, the first one leading. */
  function Number(s: seq<Sextet>): nat {
    if s == [] then 0 else Number(s[..|s| - 1]) * 64 + s[|s| - 1]
  }

  /** The number of so many bytes, with zero bits behind it up to a whole sextet. */
  function FilledUp(number: nat, bytes: nat): nat {
    if bytes % 3 == 0 then number else if bytes % 3 == 1 then number * 16 else number * 4
  }

  lemma NumberSnoc(s: seq<Sextet>, x: Sextet)
    ensures Number(s + [x]) == Number(s) * 64 + x
  {
    assert (s + [x])[..|s|] == s;
  }

  lemma ByteSnoc(b: seq<Byte>, x: Byte)
    ensures AsU128(b + [x]) == AsU128(b) * 256 + x
  {
    assert (b + [x])[..|b|] == b;
  }

  lemma {:induction false} SextetsConcat(b: seq<Byte>, c: seq<Byte>)
    requires |b| % 3 == 0
    ensures Sextets(b + c) == Sextets(b) + Sextets(c)
    decreases |b|
  {
    if b == [] {
      assert b + c == c;
    } else {
      SextetsConcat(b[3..], c);
      assert (b + c)[3..] == b[3..] + c;
    }
  }

  lemma GroupNumber(s: seq<Sextet>, n: nat, b0: Byte, b1: Byte, b2: Byte)
    requires Number(s) == n
    ensures Number(s + [S0(b0), S1(b0, b1)]) == n * 4096 + b0 * 16 + b1 / 16
    ensures Number(s + [S0(b0), S1(b0, b1), S2(b1, b2)]) == n * 262144 + b0 * 1024 + b1 * 4 + b2 / 64
    ensures Number(s + [S0(b0), S1(b0, b1), S2(b1, b2), S3(b2)]) == n * 16777216 + b0 * 65536 + b1 * 256 + b2
  {
    var s1 := s + [S0(b0)];
    var s2 := s1 + [S1(b0, b1)];
    var s3 := s2 + [S2(b1, b2)];
    NumberSnoc(s, S0(b0));
    NumberSnoc(s1, S1(b0, b1));
    NumberSnoc(s2, S2(b1, b2));
    NumberSnoc(s3, S3(b2));
    assert s2 == s + [S0(b0), S1(b0, b1)];
    assert s3 == s + [S0(b0), S1(b0, b1), S2(b1, b2)];
    assert s3 + [S3(b2)] == s + [S0(b0), S1(b0, b1), S2(b1, b2), S3(b2)];
  }

  lemma GroupOfBytes(b: seq<Byte>, b0: Byte, b1: Byte, b2: Byte)
    ensures AsU128(b + [b0]) == AsU128(b) * 256 + b0
    ensures AsU128(b + [b0, b1]) == AsU128(b) * 65536 + b0 * 256 + b1
    ensures AsU128(b + [b0, b1, b2]) == AsU128(b) * 16777216 + b0 * 65536 + b1 * 256 + b2
  {
    ByteSnoc(b, b0);
    ByteSnoc(b + [b0], b1);
    ByteSnoc(b + [b0] + [b1], b2);
    assert b + [b0, b1] == b + [b0] + [b1];
    assert b + [b0, b1, b2] == b + [b0] + [b1] + [b2];
  }

  lemma WholeGroup(b: seq<Byte>, b0: Byte, b1: Byte, b2: Byte)
    requires |b| % 3 == 0 && Number(Sextets(b)) == AsU128(b)
    ensures Number(Sextets(b + [b0, b1, b2])) == AsU128(b + [b0, b1, b2])
  {
    SextetsConcat(b, [b0, b1, b2]);
    SextetsOfThree(b0, b1, b2);
    GroupNumber(Sextets(b), AsU128(b), b0, b1, b2);
    GroupOfBytes(b, b0, b1, b2);
  }

  lemma SextetsOfThree(b0: Byte, b1: Byte, b2: Byte)
    ensures Sextets([b0, b1, b2]) == [S0(b0), S1(b0, b1), S2(b1, b2), S3(b2)]
  {
    assert [b0, b1, b2][3..] == [];
  }

  lemma GroupOfTwo(b: seq<Byte>, b0: Byte, b1: Byte)
    requires |b| % 3 == 0 && Number(Sextets(b)) == AsU128(b)
    ensures Number(Sextets(b + [b0, b1])) == AsU128(b + [b0, b1]) * 4
  {
    SextetsConcat(b, [b0, b1]);
    assert Sextets([b0, b1]) == [S0(b0), S1(b0, b1), S2(b1, 0)];
    GroupNumber(Sextets(b), AsU128(b), b0, b1, 0);
    GroupOfBytes(b, b0, b1, 0);
  }

  lemma GroupOfOne(b: seq<Byte>, b0: Byte)
    requires |b| % 3 == 0 && Number(Sextets(b)) == AsU128(b)
    ensures Number(Sextets(b + [b0])) == AsU128(b + [b0]) * 16
  {
    SextetsConcat(b, [b0]);
    assert Sextets([b0]) == [S0(b0), S1(b0, 0)];
    GroupNumber(Sextets(b), AsU128(b), b0, 0, 0);
    GroupOfBytes(b, b0, 0, 0);
  }

  lemma {:induction false} WholeGroupsSpell(b: seq<Byte>)
    requires |b| % 3 == 0
    ensures Number(Sextets(b)) == AsU128(b)
    decreases |b|
  {
    if b != [] {
      var n := |b| - 3;
      WholeGroupsSpell(b[..n]);
      WholeGroup(b[..n], b[n], b[n + 1], b[n + 2]);
      assert b == b[..n] + [b[n], b[n + 1], b[n + 2]];
    }
  }

  lemma OneMoreSpells(b: seq<Byte>, n: nat)
    requires n % 3 == 0 && |b| == n + 1
    ensures Number(Sextets(b)) == AsU128(b) * 16
  {
    WholeGroupsSpell(b[..n]);
    GroupOfOne(b[..n], b[n]);
    assert b == b[..n] + [b[n]];
  }

  lemma TwoMoreSpell(b: seq<Byte>, n: nat)
    requires n % 3 == 0 && |b| == n + 2
    ensures Number(Sextets(b)) == AsU128(b) * 4
  {
    WholeGroupsSpell(b[..n]);
    GroupOfTwo(b[..n], b[n], b[n + 1]);
    assert b == b[..n] + [b[n], b[n + 1]];
  }

  /** The sextets spell the number that the bytes are, filled up with zero bits. */
  lemma SextetsSpellTheBytes(b: seq<Byte>)
    ensures Number(Sextets(b)) == FilledUp(AsU128(b), |b|)
  {
    if |b| % 3 == 0 {
      WholeGroupsSpell(b);
    } else if |b| % 3 == 1 {
      OneMoreSpells(b, |b| - 1);
    } else {
      TwoMoreSpell(b, |b| - 2);
    }
  }

  /** The bits that fill up the last sextet are zero (section 3.5 of RFC 4648). */
  predicate Canonical(s: seq<Sextet>) {
    && |s| % 4 != 1
    && (|s| % 4 == 2 ==> s[|s| - 1] % 16 == 0)
    && (|s| % 4 == 3 ==> s[|s| - 1] % 4 == 0)
  }

  lemma CanonicalRest(s: seq<Sextet>)
    requires |s| >= 4
    ensures Canonical(s) <==> Canonical(s[4..])
  {
  }

  lemma {:induction false} SextetsAreCanonical(b: seq<Byte>)
    ensures Canonical(Sextets(b))
  {
    SextetsLength(b);
    if |b| >= 3 {
      SextetsAreCanonical(b[3..]);
      CanonicalRest(Sextets(b));
      assert Sextets(b)[4..] == Sextets(b[3..]);
    } else if |b| > 0 {
      FillIsZero(b[0], b[|b| - 1]);
    }
  }

  lemma BytesCons(s0: Sextet, s1: Sextet, s2: Sextet, s3: Sextet, rest: seq<Sextet>)
    ensures Bytes([s0, s1, s2, s3] + rest) == [B0(s0, s1), B1(s1, s2), B2(s2, s3)] + Bytes(rest)
  {
    assert ([s0, s1, s2, s3] + rest)[4..] == rest;
  }

  lemma SextetsUnfold(b: seq<Byte>)
    requires |b| >= 3
    ensures Bytes(Sextets(b)) == [b[0], b[1], b[2]] + Bytes(Sextets(b[3..]))
  {
    GroupOut(b[0], b[1], b[2]);
    BytesCons(S0(b[0]), S1(b[0], b[1]), S2(b[1], b[2]), S3(b[2]), Sextets(b[3..]));
  }

  lemma BytesOfTwo(s0: Sextet, s1: Sextet)
    ensures Bytes([s0, s1]) == [B0(s0, s1)]
  {
  }

  lemma BytesOfThree(s0: Sextet, s1: Sextet, s2: Sextet)
    ensures Bytes([s0, s1, s2]) == [B0(s0, s1), B1(s1, s2)]
  {
  }

  lemma OneByte(b0: Byte)
    ensures Bytes(Sextets([b0])) == [b0]
  {
    assert B0(S0(b0), S1(b0, 0)) == b0;
    BytesOfTwo(S0(b0), S1(b0, 0));
    assert Sextets([b0]) == [S0(b0), S1(b0, 0)];
  }

  lemma TwoBytes(b0: Byte, b1: Byte)
    ensures Bytes(Sextets([b0, b1])) == [b0, b1]
  {
    GroupOut(b0, b1, 0);
    BytesOfThree(S0(b0), S1(b0, b1), S2(b1, 0));
  }

  lemma {:induction false} BytesOfSextets(b: seq<Byte>)
    ensures Bytes(Sextets(b)) == b
  {
    if |b| >= 3 {
      BytesOfSextets(b[3..]);
      SextetsUnfold(b);
      assert b == [b[0], b[1], b[2]] + b[3..];
    } else if |b| == 2 {
      TwoBytes(b[0], b[1]);
      assert b == [b[0], b[1]];
    } else if |b| == 1 {
      OneByte(b[0]);
      assert b == [b[0]];
    }
  }

  lemma BytesUnfold(s: seq<Sextet>)
    requires |s| >= 4
    ensures |Bytes(s)| == 3 + |Bytes(s[4..])| && Sextets(Bytes(s)) == s[..4] + Sextets(Bytes(s[4..]))
  {
    assert Bytes(s)[3..] == Bytes(s[4..]);
    GroupIn(s[0], s[1], s[2], s[3]);
    assert s[..4] == [s[0], s[1], s[2], s[3]];
  }

  /** Encoding what was decoded gives the sextets back exactly when the filling bits are zero. */
  lemma {:induction false} SextetsOfBytes(s: seq<Sextet>)
    requires |s| % 4 != 1
    ensures Sextets(Bytes(s)) == s <==> Canonical(s)
  {
    if |s| >= 4 {
      SextetsOfBytes(s[4..]);
      BytesUnfold(s);
      CanonicalRest(s);
      assert s == s[..4] + s[4..];
    } else if |s| > 0 {
      var s2: Sextet := if |s| == 3 then s[2] else 0;
      GroupIn(s[0], s[1], s2, 0);
      GroupEnds(s[0], s[1], s2);
    }
  }

  // ---------------------------------------------------------------- characters

  /** The standard alphabet, which `btoa` writes and `atob` reads. */
  function Digit(v: Sextet): char {
    if v < 26 then 'A' + v as char
    else if v < 52 then 'a' + (v - 26) as char
    else if v < 62 then '0' + (v - 52) as char
    else if v == 62 then '+'
    else '/'
  }

  function Value(c: char): Option<Sextet> {
    if 'A' <= c <= 'Z' then Some((c - 'A') as int)
    else if 'a' <= c <= 'z' then Some((c - 'a') as int + 26)
    else if '0' <= c <= '9' then Some((c - '0') as int + 52)
    else if c == '+' then Some(62)
    else if c == '/' then Some(63)
    else None
  }

  lemma DigitsAreValues(v: Sextet, c: char)
    ensures Value(c) == Some(v) <==> c == Digit(v)
  {
  }

  function ToUrl(c: char): char {
    if c == '+' then '-' else if c == '/' then '_' else c
  }

  function FromUrl(c: char): char {
    if c == '-' then '+' else if c == '_' then '/' else c
  }

  /** The URL alphabet: the pattern `[A-Za-z0-9_-]`. */
  predicate IsUrlChar(c: char) {
    'A' <= c <= 'Z' || 'a' <= c <= 'z' || '0' <= c <= '9' || c == '_' || c == '-'
  }

  lemma UrlDigits(v: Sextet)
    ensures FromUrl(ToUrl(Digit(v))) == Digit(v) && IsUrlChar(ToUrl(Digit(v)))
  {
  }

  lemma UrlChars(c: char)
    requires IsUrlChar(c)
    ensures Value(FromUrl(c)).Some? && ToUrl(Digit(Value(FromUrl(c)).value)) == c
  {
  }

  function Map(s: string, f: char -> char): string {
    seq(|s|, i requires 0 <= i < |s| => f(s[i]))
  }

  function Digits(s: seq<Sextet>): string {
    seq(|s|, i requires 0 <= i < |s| => Digit(s[i]))
  }

  /** The sextets in the URL alphabet. */
  function Token(s: seq<Sextet>): string {
    seq(|s|, i requires 0 <= i < |s| => ToUrl(Digit(s[i])))
  }

  // ---------------------------------------------------------------- encoding

  function Equals(n: nat): string {
    if n == 0 then "" else Equals(n - 1) + "="
  }

  /** How many bytes the last group of three lacks, and how many characters the last group of four. */
  function MissingBytes(n: nat): nat {
    if n % 3 == 0 then 0 else 3 - n % 3
  }

  function MissingDigits(n: nat): nat {
    if n % 4 == 0 then 0 else 4 - n % 4
  }

  /** `btoa`: digits, filled up with `=` to whole groups of four. */
  function Btoa(b: seq<Byte>): string {
    Digits(Sextets(b)) + Equals(MissingBytes(|b|))
  }

  /** `replace(/=+$/, '')`. */
  function StripEquals(s: string): string {
    if s != "" && s[|s| - 1] == '=' then StripEquals(s[..|s| - 1]) else s
  }

  function Encode(b: seq<Byte>): string {
    StripEquals(Map(Btoa(b), ToUrl))
  }

  lemma StripsOne(s: string)
    ensures StripEquals(s + "=") == StripEquals(s)
  {
    assert (s + "=")[..|s|] == s;
  }

  lemma {:induction false} StripsAll(s: string, n: nat)
    requires s == "" || s[|s| - 1] != '='
    ensures StripEquals(s + Equals(n)) == s
  {
    if n == 0 {
      assert s + "" == s;
    } else {
      StripsOne(s + Equals(n - 1));
      assert s + Equals(n) == (s + Equals(n - 1)) + "=";
      StripsAll(s, n - 1);
    }
  }

  lemma {:induction false} MapEquals(n: nat)
    ensures Map(Equals(n), ToUrl) == Equals(n)
  {
    if n > 0 {
      MapEquals(n - 1);
      assert Map(Equals(n), ToUrl) == Map(Equals(n - 1), ToUrl) + "=";
    }
  }

  lemma EncodeIsToken(b: seq<Byte>)
    ensures Encode(b) == Token(Sextets(b))
  {
    var s, n := Sextets(b), MissingBytes(|b|);
    MapEquals(n);
    assert Map(Btoa(b), ToUrl) == Map(Digits(s), ToUrl) + Map(Equals(n), ToUrl);
    assert Map(Digits(s), ToUrl) == Token(s);
    if s != [] { UrlDigits(s[|s| - 1]); }
    StripsAll(Token(s), n);
  }

  const CAPITALS: string := "ABCDEFGHIJKLMNOPQRSTUVWXYZ"
  const SMALL: string := "abcdefghijklmnopqrstuvwxyz"
  const NUMERALS: string := "0123456789"

  /** The alphabet of section 5 of RFC 4648, the 64 characters in order. */
  const URL_ALPHABET: string := CAPITALS + SMALL + NUMERALS + "-_"

  lemma CapitalIs(v: nat)
    requires v < 26
    ensures |CAPITALS| == 26 && CAPITALS[v] == 'A' + v as char
  {
  }

  lemma SmallIs(v: nat)
    requires v < 26
    ensures |SMALL| == 26 && SMALL[v] == 'a' + v as char
  {
  }

  lemma NumeralIs(v: nat)
    requires v < 10
    ensures |NUMERALS| == 10 && NUMERALS[v] == '0' + v as char
  {
  }

  lemma AlphabetIs(v: Sextet)
    ensures |URL_ALPHABET| == 64 && ToUrl(Digit(v)) == URL_ALPHABET[v]
  {
    CapitalIs(if v < 26 then v else 0);
    SmallIs(if 26 <= v < 52 then v - 26 else 0);
    NumeralIs(if 52 <= v < 62 then v - 52 else 0);
  }

  /** Encoding writes the sextets, character by character, in that alphabet. */
  lemma EncodingIsSpelledInTheAlphabet(b: seq<Byte>)
    ensures |URL_ALPHABET| == 64 && |Encode(b)| == |Sextets(b)| == (|b| * 4 + 2) / 3
    ensures forall k | 0 <= k < |Encode(b)| :: Encode(b)[k] == URL_ALPHABET[Sextets(b)[k]]
  {
    EncodeIsToken(b);
    SextetsLength(b);
    AlphabetIs(0);
    forall k | 0 <= k < |Encode(b)| ensures Encode(b)[k] == URL_ALPHABET[Sextets(b)[k]] { AlphabetIs(Sextets(b)[k]); }
  }

  // ---------------------------------------------------------------- decoding

  predicate IsSpace(c: char) {
    c == ' ' || c == '\t' || c == '\n' || c == '\r' || c == '\U{000C}'
  }

  function Unspaced(s: string): string {
    if s == "" then "" else (if IsSpace(s[0]) then "" else [s[0]]) + Unspaced(s[1..])
  }

  /** One or two `=` at the end of a string of whole groups. */
  function Unfilled(s: string): string {
    var n := |s|;
    if n % 4 != 0 || n == 0 || s[n - 1] != '=' then s
    else if s[n - 2] == '=' then s[..n - 2]
    else s[..n - 1]
  }

  function Values(s: string): Option<seq<Sextet>> {
    if s == "" then Some([])
    else if Value(s[0]).None? || Values(s[1..]).None? then None
    else Some([Value(s[0]).value] + Values(s[1..]).value)
  }

  /** `atob`: the forgiving base64 decode, or the exception it raises. */
  function Atob(s: string): Option<seq<Byte>> {
    var t := Unfilled(Unspaced(s));
    if |t| % 4 == 1 || Values(t).None? then None else Some(Bytes(Values(t).value))
  }

  /** The loop that fills the token up to whole groups. */
  function Filled(s: string): string
    decreases MissingDigits(|s|)
  {
    if |s| % 4 != 0 then
      assert |s + "="| == |s| + 1;
      Filled(s + "=")
    else s
  }

  function Decode(token: string): Option<seq<Byte>> {
    Atob(Filled(Map(token, FromUrl)))
  }

  lemma {:induction false} DigitsDecode(s: seq<Sextet>)
    ensures Values(Digits(s)) == Some(s)
  {
    if s != [] {
      DigitsAreValues(s[0], Digit(s[0]));
      assert Digits(s)[1..] == Digits(s[1..]);
      DigitsDecode(s[1..]);
      assert s == [s[0]] + s[1..];
    }
  }

  lemma {:induction false} UnspacedKeeps(s: string)
    requires forall i | 0 <= i < |s| :: !IsSpace(s[i])
    ensures Unspaced(s) == s
  {
    if s != "" { UnspacedKeeps(s[1..]); }
  }

  lemma DigitIsPlain(v: Sextet)
    ensures Digit(v) != '=' && !IsSpace(Digit(v))
  {
    DigitsAreValues(v, Digit(v));
  }

  lemma FilledOnce(t: string)
    requires |t| % 4 == 3
    ensures Filled(t) == t + "="
  {
    assert |t + "="| % 4 == 0;
  }

  lemma FilledTwice(t: string)
    requires |t| % 4 == 2
    ensures Filled(t) == t + "=="
  {
    assert |t + "="| == |t| + 1;
    FilledOnce(t + "=");
    assert (t + "=") + "=" == t + "==";
  }

  lemma UnfilledIs(t: string, fill: string)
    requires fill == "" || fill == "=" || fill == "=="
    requires (|t| + |fill|) % 4 == 0 && (t == "" || t[|t| - 1] != '=')
    ensures Unfilled(t + fill) == t
  {
    assert (t + fill)[..|t|] == t;
  }

  lemma TokenDigits(s: seq<Sextet>)
    ensures Map(Token(s), FromUrl) == Digits(s)
    ensures forall i | 0 <= i < |s| :: Digits(s)[i] != '=' && !IsSpace(Digits(s)[i])
  {
    forall i | 0 <= i < |s|
      ensures FromUrl(ToUrl(Digit(s[i]))) == Digit(s[i]) && Digit(s[i]) != '=' && !IsSpace(Digit(s[i]))
    {
      UrlDigits(s[i]);
      DigitIsPlain(s[i]);
    }
  }

  function Fill(n: nat): string {
    if n % 4 == 2 then "==" else if n % 4 == 3 then "=" else ""
  }

  lemma FilledIs(t: string)
    requires |t| % 4 != 1
    ensures Filled(t) == t + Fill(|t|) && (|t| + |Fill(|t|)|) % 4 == 0
  {
    if |t| % 4 == 2 {
      FilledTwice(t);
    } else if |t| % 4 == 3 {
      FilledOnce(t);
    } else {
      assert t + "" == t;
    }
  }

  lemma FilledUnfills(t: string, fill: string)
    requires forall i | 0 <= i < |t| :: t[i] != '=' && !IsSpace(t[i])
    requires (|t| + |fill|) % 4 == 0 && (fill == "" || fill == "=" || fill == "==")
    ensures Unfilled(Unspaced(t + fill)) == t
  {
    UnspacedKeeps(t + fill);
    UnfilledIs(t, fill);
  }

  /** Decoding a token of these sextets gives their bytes. */
  lemma TokenDecodes(s: seq<Sextet>)
    requires |s| % 4 != 1
    ensures Decode(Token(s)) == Some(Bytes(s))
  {
    var t := Digits(s);
    TokenDigits(s);
    FilledRestores(t);
    DigitsDecode(s);
    AtobIs(Filled(t), t, s);
    assert Decode(Token(s)) == Atob(Filled(t));
  }

  lemma FillIs(n: nat)
    ensures Fill(n) == "" || Fill(n) == "=" || Fill(n) == "=="
  {
  }

  lemma FilledRestores(t: string)
    requires |t| % 4 != 1 && forall i | 0 <= i < |t| :: t[i] != '=' && !IsSpace(t[i])
    ensures Unfilled(Unspaced(Filled(t))) == t
  {
    var fill := Fill(|t|);
    FillIs(|t|);
    FilledIs(t);
    FilledUnfills(t, fill);
  }

  lemma AtobIs(filled: string, t: string, s: seq<Sextet>)
    requires Unfilled(Unspaced(filled)) == t && |t| % 4 != 1 && Values(t) == Some(s)
    ensures Atob(filled) == Some(Bytes(s))
  {
  }

  /** Decoding inverts encoding, for byte strings of every length. */
  lemma DecodeEncode(b: seq<Byte>)
    ensures Decode(Encode(b)) == Some(b)
  {
    EncodeIsToken(b);
    SextetsAreCanonical(b);
    TokenDecodes(Sextets(b));
    BytesOfSextets(b);
  }
}
