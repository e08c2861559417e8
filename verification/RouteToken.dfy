/**
Route tokens: unpadded base64url (RFC 4648, section 5), decimal numbers, and the token
that carries a host, an expiry and a signature. The signature function is a parameter.
*/
module RouteToken {
  import opened Options
  import opened Text

  type Byte = b: int | 0 <= b < 256
  type Bytes = seq<Byte>
  type Sextet = v: int | 0 <= v < 64

  // ---------------------------------------------------------------- base64url

  function Digit64(v: Sextet): char {
    if v < 26 then ('A' as int + v) as char
    else if v < 52 then ('a' as int + (v - 26)) as char
    else if v < 62 then ('0' as int + (v - 52)) as char
    else if v == 62 then '-'
    else '_'
  }

  function Value64(c: char): Option<Sextet> {
    if 'A' <= c <= 'Z' then Some(c as int - 'A' as int)
    else if 'a' <= c <= 'z' then Some(c as int - 'a' as int + 26)
    else if '0' <= c <= '9' then Some(c as int - '0' as int + 52)
    else if c == '-' then Some(62)
    else if c == '_' then Some(63)
    else None
  }

  lemma DigitValue(v: Sextet)
    ensures Value64(Digit64(v)) == Some(v) && Digit64(v) !in ".\r\n"
  {
  }

  function Encode(bs: Bytes): string {
    if |bs| == 0 then ""
    else if |bs| == 1 then [Digit64(bs[0] / 4), Digit64(bs[0] % 4 * 16)]
    else if |bs| == 2 then [Digit64(bs[0] / 4), Digit64(bs[0] % 4 * 16 + bs[1] / 16), Digit64(bs[1] % 16 * 4)]
    else
      [Digit64(bs[0] / 4), Digit64(bs[0] % 4 * 16 + bs[1] / 16), Digit64(bs[1] % 16 * 4 + bs[2] / 64), Digit64(bs[2] % 64)]
      + Encode(bs[3..])
  }

  /** Line breaks are skipped wherever they stand. */
  function Strip(s: string): string {
    if s == "" then "" else (if s[0] in "\r\n" then "" else [s[0]]) + Strip(s[1..])
  }

  function Bytes1(a: Sextet, b: Sextet): Bytes {
    [a * 4 + b / 16]
  }

  function Bytes2(a: Sextet, b: Sextet, c: Sextet): Bytes {
    [a * 4 + b / 16, b % 16 * 16 + c / 4]
  }

  function Bytes3(a: Sextet, b: Sextet, c: Sextet, d: Sextet): Bytes {
    [a * 4 + b / 16, b % 16 * 16 + c / 4, c % 4 * 64 + d]
  }

  function Values(s: string): Result<seq<Sextet>> {
    if s == "" then Ok([])
    else if Value64(s[0]).None? then Err
    else
      var r := Values(s[1..]);
      if r.Err? then Err else Ok([Value64(s[0]).value] + r.value)
  }

  /** Bits left over at the end are ignored; a single left-over digit is an error. */
  function Group(vs: seq<Sextet>): Result<Bytes> {
    if |vs| == 0 then Ok([])
    else if |vs| == 1 then Err
    else if |vs| == 2 then Ok(Bytes1(vs[0], vs[1]))
    else if |vs| == 3 then Ok(Bytes2(vs[0], vs[1], vs[2]))
    else
      var r := Group(vs[4..]);
      if r.Err? then Err else Ok(Bytes3(vs[0], vs[1], vs[2], vs[3]) + r.value)
  }

  /** `base64.RawURLEncoding.DecodeString`. */
  function Decode(s: string): Result<Bytes> {
    var vs := Values(Strip(s));
    if vs.Err? then Err else Group(vs.value)
  }

  function Sextets(bs: Bytes): seq<Sextet> {
    if |bs| == 0 then []
    else if |bs| == 1 then [bs[0] / 4, bs[0] % 4 * 16]
    else if |bs| == 2 then [bs[0] / 4, bs[0] % 4 * 16 + bs[1] / 16, bs[1] % 16 * 4]
    else [bs[0] / 4, bs[0] % 4 * 16 + bs[1] / 16, bs[1] % 16 * 4 + bs[2] / 64, bs[2] % 64] + Sextets(bs[3..])
  }

  function Digits64(vs: seq<Sextet>): string {
    if vs == [] then "" else [Digit64(vs[0])] + Digits64(vs[1..])
  }

  lemma {:induction false} DigitsAppend(a: seq<Sextet>, b: seq<Sextet>)
    ensures Digits64(a + b) == Digits64(a) + Digits64(b)
    decreases |a|
  {
    if a == [] {
      assert a + b == b;
    } else {
      assert (a + b)[1..] == a[1..] + b;
      DigitsAppend(a[1..], b);
    }
  }

  lemma Digits4(a: Sextet, b: Sextet, c: Sextet, d: Sextet)
    ensures Digits64([a, b, c, d]) == [Digit64(a), Digit64(b), Digit64(c), Digit64(d)]
  {
    var s1: seq<Sextet>, s2: seq<Sextet>, s3: seq<Sextet> := [d], [c, d], [b, c, d];
    assert s1[1..] == [] && s2[1..] == s1 && s3[1..] == s2 && [a, b, c, d][1..] == s3;
    assert Digits64(s1) == [Digit64(d)];
    assert Digits64(s2) == [Digit64(c), Digit64(d)];
    assert Digits64(s3) == [Digit64(b), Digit64(c), Digit64(d)];
  }

  lemma Digits3(a: Sextet, b: Sextet, c: Sextet)
    ensures Digits64([a, b, c]) == [Digit64(a), Digit64(b), Digit64(c)]
    ensures Digits64([b, c]) == [Digit64(b), Digit64(c)]
  {
    var s1: seq<Sextet>, s2: seq<Sextet> := [c], [b, c];
    assert s1[1..] == [] && s2[1..] == s1 && [a, b, c][1..] == s2;
    assert Digits64(s1) == [Digit64(c)];
    assert Digits64(s2) == [Digit64(b), Digit64(c)];
  }

  lemma {:induction false} EncodeIsDigits(bs: Bytes)
    ensures Encode(bs) == Digits64(Sextets(bs))
    decreases |bs|
  {
    if |bs| == 1 {
      Digits3(0, bs[0] / 4, bs[0] % 4 * 16);
    } else if |bs| == 2 {
      Digits3(bs[0] / 4, bs[0] % 4 * 16 + bs[1] / 16, bs[1] % 16 * 4);
    } else if |bs| >= 3 {
      var head: seq<Sextet> := [bs[0] / 4, bs[0] % 4 * 16 + bs[1] / 16, bs[1] % 16 * 4 + bs[2] / 64, bs[2] % 64];
      Digits4(head[0], head[1], head[2], head[3]);
      DigitsAppend(head, Sextets(bs[3..]));
      EncodeIsDigits(bs[3..]);
    }
  }

  lemma {:induction false} DigitsPlain(vs: seq<Sextet>)
    ensures Strip(Digits64(vs)) == Digits64(vs) && '.' !in Digits64(vs)
    decreases |vs|
  {
    if vs != [] {
      DigitValue(vs[0]);
      DigitsPlain(vs[1..]);
      assert Digits64(vs)[1..] == Digits64(vs[1..]);
    }
  }

  lemma {:induction false} DigitsBack(vs: seq<Sextet>)
    ensures Values(Digits64(vs)) == Ok(vs)
    decreases |vs|
  {
    if vs != [] {
      DigitValue(vs[0]);
      DigitsBack(vs[1..]);
      assert Digits64(vs)[1..] == Digits64(vs[1..]);
      assert vs == [vs[0]] + vs[1..];
    }
  }

  lemma GroupBack(a: Byte, b: Byte, c: Byte)
    ensures Bytes3(a / 4, a % 4 * 16 + b / 16, b % 16 * 4 + c / 64, c % 64) == [a, b, c]
    ensures Bytes2(a / 4, a % 4 * 16 + b / 16, b % 16 * 4) == [a, b]
    ensures Bytes1(a / 4, a % 4 * 16) == [a]
  {
  }

  lemma {:induction false} GroupSextets(bs: Bytes)
    ensures Group(Sextets(bs)) == Ok(bs)
    decreases |bs|
  {
    if |bs| == 1 {
      GroupBack(bs[0], 0, 0);
      assert bs == [bs[0]];
    } else if |bs| == 2 {
      GroupBack(bs[0], bs[1], 0);
      assert bs == [bs[0], bs[1]];
    } else if |bs| >= 3 {
      GroupBack(bs[0], bs[1], bs[2]);
      GroupSextets(bs[3..]);
      var vs := Sextets(bs);
      assert vs[4..] == Sextets(bs[3..]);
      assert bs == [bs[0], bs[1], bs[2]] + bs[3..];
    }
  }

  /** Decoding gives back what was encoded, and no part contains a dot. */
  lemma DecodeEncode(bs: Bytes)
    ensures Decode(Encode(bs)) == Ok(bs) && '.' !in Encode(bs)
  {
    EncodeIsDigits(bs);
    DigitsPlain(Sextets(bs));
    DigitsBack(Sextets(bs));
    GroupSextets(bs);
  }

  /** Test vectors of RFC 4648, section 10, and the two digits that differ from plain base64. */
  lemma Vectors()
    ensures Encode(['f' as int]) == "Zg" && Encode(['f' as int, 'o' as int]) == "Zm8"
    ensures Encode(['f' as int, 'o' as int, 'o' as int]) == "Zm9v" && Encode([0xfb, 0xff]) == "-_8"
  {
  }

  // ---------------------------------------------------------------- decimal numbers

  const MIN64: int := -0x8000_0000_0000_0000
  const MAX64: int := 0x7fff_ffff_ffff_ffff

  type Int64 = i: int | MIN64 <= i <= MAX64

  const ZERO: Byte := '0' as int
  const MINUS: Byte := '-' as int
  const PLUS: Byte := '+' as int

  function Decimal(n: nat): (s: Bytes)
    ensures |s| > 0
  {
    if n < 10 then [ZERO + n] else Decimal(n / 10) + [ZERO + n % 10]
  }

  /** `strconv.FormatInt(i, 10)`. */
  function FormatInt(i: Int64): Bytes {
    var n: int := i;
    if n < 0 then [MINUS] + Decimal(-n) else Decimal(n)
  }

  predicate IsDigit(b: Byte) {
    ZERO <= b <= ZERO + 9
  }

  function Number(s: Bytes): Result<nat> {
    if s == [] then Ok(0)
    else if !IsDigit(s[|s| - 1]) then Err
    else
      var r := Number(s[..|s| - 1]);
      if r.Err? then Err else Ok(r.value * 10 + (s[|s| - 1] - ZERO))
  }

  /** `strconv.ParseInt(s, 10, 64)`. */
  function ParseInt(s: Bytes): Result<Int64> {
    if s == [] then Err
    else
      var digits := if s[0] == MINUS || s[0] == PLUS then s[1..] else s;
      var n := Number(digits);
      if digits == [] || n.Err? then Err
      else
        var v: int := n.value;
        var i := if s[0] == MINUS then -v else v;
        if MIN64 <= i <= MAX64 then Ok(i) else Err
  }

  lemma {:induction false} NumberDecimal(n: nat)
    ensures Number(Decimal(n)) == Ok(n) && IsDigit(Decimal(n)[0])
    decreases n
  {
    var s := Decimal(n);
    if n < 10 {
      assert s[..0] == [];
      assert Number(s[..0]) == Ok(0);
    } else {
      NumberDecimal(n / 10);
      assert s[..|s| - 1] == Decimal(n / 10);
    }
  }

  lemma ParseFormat(i: Int64)
    ensures ParseInt(FormatInt(i)) == Ok(i)
  {
    var n: int := i;
    if n < 0 {
      NumberDecimal(-n);
      assert FormatInt(i)[1..] == Decimal(-n);
    } else {
      NumberDecimal(n);
    }
  }

  // ---------------------------------------------------------------- tokens

  const SECOND: int := 1_000_000_000

  /** A moment in nanoseconds; its whole seconds fit in 64 bits. */
  type Time = t: int | MIN64 <= t / SECOND <= MAX64 witness 0

  type Mac = (Bytes, string) -> Bytes

  function Unix(t: Time): Int64 {
    t / SECOND
  }

  function Sign(mac: Mac, key: Bytes, message: string): string {
    Encode(mac(key, message))
  }

  function Message(host: Bytes, expires: Time): string {
    Encode(host) + "." + Encode(FormatInt(Unix(expires)))
  }

  function Token(mac: Mac, key: Bytes, host: Bytes, expires: Time): string {
    var message := Message(host, expires);
    message + "." + Sign(mac, key, message)
  }

  predicate ValidSignature(mac: Mac, key: Bytes, message: string, encoded: string) {
    Decode(encoded) == Ok(mac(key, message))
  }

  /** `Validate`: the expiry in seconds, or nothing. */
  function Validate(mac: Mac, key: Bytes, token: string, host: Bytes, now: int): Option<Int64> {
    var parts := SplitOn(token, '.');
    if |parts| != 3 then None
    else if Decode(parts[0]) != Ok(host) then None
    else
      var text := Decode(parts[1]);
      if text.Err? then None
      else
        var expiry := ParseInt(text.value);
        if expiry.Err? || now > expiry.value * SECOND then None
        else if !ValidSignature(mac, key, parts[0] + "." + parts[1], parts[2]) then None
        else Some(expiry.value)
  }

  lemma ThreeParts(a: string, b: string, c: string)
    requires '.' !in a && '.' !in b && '.' !in c
    ensures SplitOn(a + "." + b + "." + c, '.') == [a, b, c]
  {
    assert a + "." + b + "." + c == a + ['.'] + (b + ['.'] + c);
    SplitFirst(a, '.', b + ['.'] + c);
    SplitFirst(b, '.', c);
    SplitNone(c, '.');
  }

  lemma TokenParts(mac: Mac, key: Bytes, host: Bytes, expires: Time)
    ensures SplitOn(Token(mac, key, host, expires), '.') ==
      [Encode(host), Encode(FormatInt(Unix(expires))), Sign(mac, key, Message(host, expires))]
  {
    DecodeEncode(host);
    DecodeEncode(FormatInt(Unix(expires)));
    DecodeEncode(mac(key, Message(host, expires)));
    ThreeParts(Encode(host), Encode(FormatInt(Unix(expires))), Sign(mac, key, Message(host, expires)));
  }

  /**
  A token validates for its own host exactly until its expiry, in whole seconds, and
  never for another host, whatever the signature function is.
  */
  lemma TokenRoundTrip(mac: Mac, key: Bytes, host: Bytes, expires: Time, other: Bytes, now: int)
    ensures Validate(mac, key, Token(mac, key, host, expires), other, now) ==
      if other == host && now <= Unix(expires) * SECOND then Some(Unix(expires)) else None
  {
    TokenParts(mac, key, host, expires);
    DecodeEncode(host);
    DecodeEncode(FormatInt(Unix(expires)));
    DecodeEncode(mac(key, Message(host, expires)));
    ParseFormat(Unix(expires));
  }
}
