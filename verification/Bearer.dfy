/**
 Extraction of the bearer token from the Authorization header. A Go string is a sequence of bytes and
 ranging over it decodes UTF-8, so the scan sees runes while the length check sees bytes. Here every
 element of a `string` stands for one byte.
 */
module Bearer {
  import opened Wrappers

  const PREFIX: string := "Bearer "
  const MAX_TOKEN_LENGTH: nat := 2048
  const RUNE_ERROR: nat := 0xFFFD

  datatype TokenError = MissingHeader | WrongScheme | EmptyToken | TokenTooLong | InvalidCharacters

  datatype Rune = Rune(code: nat, width: nat)

  predicate Continuation(b: nat) {
    0x80 <= b <= 0xBF
  }

  /** The bounds of the second byte, which exclude overlong forms, surrogates and values above U+10FFFF. */
  predicate SecondByte(b0: nat, b1: nat) {
    && (if b0 == 0xE0 then 0xA0 else if b0 == 0xF0 then 0x90 else 0x80) <= b1
    && b1 <= (if b0 == 0xED then 0x9F else if b0 == 0xF4 then 0x8F else 0xBF)
  }

  /** utf8.DecodeRuneInString: an invalid sequence is one byte wide and decodes to U+FFFD. */
  function DecodeRune(s: string): (r: Rune)
    requires s != ""
    ensures 1 <= r.width <= |s|
    ensures s[0] as int < 0x80 ==> r == Rune(s[0] as int, 1)
    ensures s[0] as int >= 0x80 ==> r.code >= 0x80
  {
    var b0 := s[0] as int;
    var b1 := if |s| > 1 then s[1] as int else 0;
    var b2 := if |s| > 2 then s[2] as int else 0;
    var b3 := if |s| > 3 then s[3] as int else 0;
    if b0 < 0x80 then Rune(b0, 1)
    else if 0xC2 <= b0 <= 0xDF && Continuation(b1) then
      Rune((b0 - 0xC0) * 0x40 + (b1 - 0x80), 2)
    else if 0xE0 <= b0 <= 0xEF && SecondByte(b0, b1) && Continuation(b2) then
      Rune((b0 - 0xE0) * 0x1000 + (b1 - 0x80) * 0x40 + (b2 - 0x80), 3)
    else if 0xF0 <= b0 <= 0xF4 && SecondByte(b0, b1) && Continuation(b2) && Continuation(b3) then
      Rune((b0 - 0xF0) * 0x40000 + (b1 - 0x80) * 0x1000 + (b2 - 0x80) * 0x40 + (b3 - 0x80), 4)
    else Rune(RUNE_ERROR, 1)
  }

  /** The UTF-8 form of a code point, RFC 3629 section 3. */
  function EncodeRune(code: nat): (s: string)
    requires code < 0x110000
    ensures s != ""
  {
    if code < 0x80 then [code as char]
    else if code < 0x800 then [(0xC0 + code / 0x40) as char, (0x80 + code % 0x40) as char]
    else if code < 0x10000 then
      [(0xE0 + code / 0x1000) as char, (0x80 + code / 0x40 % 0x40) as char, (0x80 + code % 0x40) as char]
    else
      [(0xF0 + code / 0x40000) as char, (0x80 + code / 0x1000 % 0x40) as char, (0x80 + code / 0x40 % 0x40) as char,
       (0x80 + code % 0x40) as char]
  }

  lemma DecodeTwo(a: nat, b: nat, rest: string)
    requires 2 <= a < 0x20 && b < 0x40
    ensures DecodeRune([(0xC0 + a) as char, (0x80 + b) as char] + rest) == Rune(a * 0x40 + b, 2)
  {
  }

  lemma DecodeThree(a: nat, b: nat, c: nat, rest: string)
    requires a < 0x10 && b < 0x40 && c < 0x40
    requires 0x800 <= a * 0x1000 + b * 0x40 + c && !(0xD800 <= a * 0x1000 + b * 0x40 + c < 0xE000)
    ensures DecodeRune([(0xE0 + a) as char, (0x80 + b) as char, (0x80 + c) as char] + rest) == Rune(a * 0x1000 + b * 0x40 + c, 3)
  {
  }

  lemma DecodeFour(a: nat, b: nat, c: nat, d: nat, rest: string)
    requires a < 5 && b < 0x40 && c < 0x40 && d < 0x40
    requires 0x10000 <= a * 0x40000 + b * 0x1000 + c * 0x40 + d < 0x110000
    ensures DecodeRune([(0xF0 + a) as char, (0x80 + b) as char, (0x80 + c) as char, (0x80 + d) as char] + rest)
         == Rune(a * 0x40000 + b * 0x1000 + c * 0x40 + d, 4)
  {
  }

  /** Every Unicode scalar value is decoded from its UTF-8 form, whatever follows. */
  lemma DecodeOfEncode(code: nat, rest: string)
    requires code < 0xD800 || 0xE000 <= code < 0x110000
    ensures DecodeRune(EncodeRune(code) + rest) == Rune(code, |EncodeRune(code)|)
  {
    if 0x80 <= code < 0x800 {
      DecodeTwo(code / 0x40, code % 0x40, rest);
    } else if 0x800 <= code < 0x10000 {
      assert code / 0x40 / 0x40 == code / 0x1000;
      DecodeThree(code / 0x1000, code / 0x40 % 0x40, code % 0x40, rest);
    } else if 0x10000 <= code {
      assert code / 0x40 / 0x40 == code / 0x1000 && code / 0x1000 / 0x40 == code / 0x40000;
      DecodeFour(code / 0x40000, code / 0x1000 % 0x40, code / 0x40 % 0x40, code % 0x40, rest);
    }
  }

  predicate Printable(c: char) {
    0x20 <= c as int <= 0x7E
  }

  predicate AllPrintable(s: string) {
    forall c | c in s :: Printable(c)
  }

  /** What a usable Authorization header is, byte by byte. */
  predicate IsBearerHeader(header: string) {
    && PREFIX <= header
    && 1 <= |header| - |PREFIX| <= MAX_TOKEN_LENGTH
    && AllPrintable(header[|PREFIX|..])
  }

  /** The first check that fails, in the order of the source. */
  function Fault(header: string): TokenError
    requires !IsBearerHeader(header)
  {
    if header == "" then MissingHeader
    else if !(PREFIX <= header) then WrongScheme
    else if |header| == |PREFIX| then EmptyToken
    else if |header| - |PREFIX| > MAX_TOKEN_LENGTH then TokenTooLong
    else InvalidCharacters
  }

  function Extracted(header: string): Result<string, TokenError> {
    if IsBearerHeader(header) then Ok(header[|PREFIX|..]) else Err(Fault(header))
  }

  /** The rune-wise scan accepts exactly the strings of printable ASCII bytes. */
  method ScanRunes(token: string) returns (ok: bool)
    ensures ok <==> AllPrintable(token)
  {
    var i := 0;
    while i < |token|
      invariant 0 <= i <= |token|
      invariant AllPrintable(token[..i])
    {
      var r := DecodeRune(token[i..]);
      if r.code < 0x20 || r.code > 0x7E {
        assert token[i] in token && !Printable(token[i]);
        return false;
      }
      assert token[..i + 1] == token[..i] + [token[i]];
      i := i + r.width;
    }
    assert token[..i] == token;
    return true;
  }

  /** Accepts exactly "Bearer " followed by 1 to 2048 bytes in 0x20..0x7E, and names the first fault otherwise. */
  method ExtractBearerToken(header: string) returns (r: Result<string, TokenError>)
    ensures r.Ok? <==> IsBearerHeader(header)
    ensures r.Ok? ==> header == PREFIX + r.value
    ensures r.Err? ==> r.error == Fault(header)
    ensures r == Extracted(header)
  {
    if header == "" {
      return Err(MissingHeader);
    }
    if !(PREFIX <= header) {
      return Err(WrongScheme);
    }
    var token := header[|PREFIX|..];
    if token == "" {
      return Err(EmptyToken);
    }
    if |token| > MAX_TOKEN_LENGTH {
      return Err(TokenTooLong);
    }
    var ok := ScanRunes(token);
    if !ok {
      return Err(InvalidCharacters);
    }
    return Ok(token);
  }

  /** Reading a token back out of the header it was put into gives the token, if it is well formed. */
  lemma ExtractedOfHeader(token: string)
    ensures Extracted(PREFIX + token) == Ok(token) <==> 1 <= |token| <= MAX_TOKEN_LENGTH && AllPrintable(token)
  {
  }
}
