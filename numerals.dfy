/**
 * Rendering integers as the source's f-strings do: `{n}` (plain decimal),
 * `{n:,}` (decimal with a comma between groups of three digits), and the
 * percent-encoding of `urllib.parse.quote` used for the search URL.
 */
module Numerals {
  import opened Collections

  predicate IsDigit(c: char) {
    '0' <= c <= '9'
  }

  function Digit(d: nat): (c: char)
    requires d < 10
    ensures IsDigit(c) && c as int - '0' as int == d
  {
    ('0' as int + d) as char
  }

  /** `str(n)` for a non-negative `n`. */
  function Decimal(n: nat): (r: string)
    ensures |r| >= 1 && forall i :: 0 <= i < |r| ==> IsDigit(r[i])
    ensures r[0] == '0' ==> n == 0
  {
    if n < 10 then [Digit(n)] else Decimal(n / 10) + [Digit(n % 10)]
  }

  /** Numbers below a thousand have at most three digits, and only they
      do. */
  lemma {:induction false} DecimalLength(n: nat)
    ensures (n < 10 <==> |Decimal(n)| == 1) && (n < 100 <==> |Decimal(n)| <= 2)
    ensures n < 1000 <==> |Decimal(n)| <= 3
  {
    if n >= 10 {
      DecimalLength(n / 10);
      assert |Decimal(n)| == |Decimal(n / 10)| + 1;
    }
  }

  /** Reads a string of digits back as a number. */
  function ParseDecimal(s: string): nat
  {
    if s == [] then 0
    else
      var d := s[|s| - 1] as int - '0' as int;
      ParseDecimal(s[..|s| - 1]) * 10 + (if 0 <= d then d else 0)
  }

  /** Reading the decimal rendering gives back the number. */
  lemma {:induction false} ParseDecimalOfDecimal(n: nat)
    ensures ParseDecimal(Decimal(n)) == n
  {
    if n >= 10 {
      ParseDecimalOfDecimal(n / 10);
      var r := Decimal(n);
      assert r[..|r| - 1] == Decimal(n / 10);
    }
  }

  /** Distinct numbers have distinct renderings. */
  lemma DecimalInjective(m: nat, n: nat)
    requires Decimal(m) == Decimal(n)
    ensures m == n
  {
    ParseDecimalOfDecimal(m);
    ParseDecimalOfDecimal(n);
  }

  /** The three digits of `m`, with leading zeros. */
  function Pad3(m: nat): string
    requires m < 1000
  {
    [Digit(m / 100), Digit(m / 10 % 10), Digit(m % 10)]
  }

  /** `format(n, ',')`: the decimal digits with a comma before every group of
      three counted from the right. */
  function Grouped(n: nat): (r: string)
    ensures |r| >= 1
    ensures forall i :: 0 <= i < |r| ==> IsDigit(r[i]) || r[i] == ','
  {
    if n < 1000 then Decimal(n) else Grouped(n / 1000) + "," + Pad3(n % 1000)
  }

  /** The commas of `r` sit exactly every four places counted from the
      right: each is followed by three digits, and the leading group has
      one to three. */
  predicate CommasEveryFour(r: string) {
    |r| % 4 != 0 && forall i :: 0 <= i < |r| ==> (r[i] == ',' <==> (|r| - i) % 4 == 0)
  }

  /** Appending a comma and three digits keeps the commas in place. */
  lemma CommasEveryFourAppend(g: string, p: string)
    requires CommasEveryFour(g) && |p| == 3 && forall i :: 0 <= i < 3 ==> IsDigit(p[i])
    ensures CommasEveryFour(g + "," + p)
  {
    var r := g + "," + p;
    forall i | 0 <= i < |r| ensures r[i] == ',' <==> (|r| - i) % 4 == 0 {
      if i < |g| {
        assert r[i] == g[i] && (|r| - i) % 4 == (|g| - i) % 4;
      } else if i > |g| {
        assert r[i] == p[i - |g| - 1];
      }
    }
  }

  lemma {:induction false} GroupedCommas(n: nat)
    ensures CommasEveryFour(Grouped(n))
  {
    if n < 1000 {
      DecimalLength(n);
    } else {
      GroupedCommas(n / 1000);
      CommasEveryFourAppend(Grouped(n / 1000), Pad3(n % 1000));
    }
  }

  /** Drops the group separators. */
  function RemoveCommas(s: string): string
  {
    if s == [] then []
    else (if s[0] == ',' then [] else [s[0]]) + RemoveCommas(s[1..])
  }

  lemma {:induction false} RemoveCommasAppend(a: string, b: string)
    ensures RemoveCommas(a + b) == RemoveCommas(a) + RemoveCommas(b)
  {
    if a == [] {
      assert a + b == b;
    } else {
      assert (a + b)[1..] == a[1..] + b;
      RemoveCommasAppend(a[1..], b);
    }
  }

  lemma {:induction false} RemoveCommasOfDigits(s: string)
    requires forall i :: 0 <= i < |s| ==> IsDigit(s[i])
    ensures RemoveCommas(s) == s
  {
    if s != [] {
      RemoveCommasOfDigits(s[1..]);
    }
  }

  /** The last three digits of a number of at least four digits. */
  lemma DecimalSplitsThree(n: nat)
    requires n >= 1000
    ensures Decimal(n) == Decimal(n / 1000) + Pad3(n % 1000)
  {
    var q := n / 1000;
    var m := n % 1000;
    var tens := n / 10;
    var hundreds := n / 100;
    assert hundreds == 10 * q + m / 100 && hundreds / 10 == q && hundreds % 10 == m / 100;
    assert tens == 100 * q + m / 10 && tens / 10 == hundreds && tens % 10 == m / 10 % 10;
    assert n % 10 == m % 10;
    assert Decimal(hundreds) == Decimal(q) + [Digit(m / 100)];
    assert Decimal(tens) == Decimal(hundreds) + [Digit(m / 10 % 10)];
    assert Decimal(n) == Decimal(tens) + [Digit(m % 10)];
  }

  /** Without its commas, the grouped rendering is the plain decimal one, so
      reading it back gives the number. */
  lemma {:induction false} GroupedIsDecimal(n: nat)
    ensures RemoveCommas(Grouped(n)) == Decimal(n)
    ensures ParseDecimal(RemoveCommas(Grouped(n))) == n
  {
    if n < 1000 {
      RemoveCommasOfDigits(Decimal(n));
    } else {
      GroupedIsDecimal(n / 1000);
      RemoveCommasAppend(Grouped(n / 1000) + ",", Pad3(n % 1000));
      RemoveCommasAppend(Grouped(n / 1000), ",");
      RemoveCommasOfDigits(Pad3(n % 1000));
      DecimalSplitsThree(n);
    }
    ParseDecimalOfDecimal(n);
  }

  /** A concrete rendering: one million two hundred thirty-four thousand
      five hundred sixty-seven. */
  lemma GroupedExample()
    ensures Grouped(1234567) == "1,234,567"
  {
    assert Grouped(1) == "1";
    assert Grouped(1234) == "1,234";
  }

  predicate IsHexDigit(c: char) {
    IsDigit(c) || 'A' <= c <= 'F' || 'a' <= c <= 'f'
  }

  /** The value of a hexadecimal digit, in either case. */
  function HexValue(c: char): nat
    requires IsHexDigit(c)
  {
    if IsDigit(c) then c as int - '0' as int
    else if 'A' <= c <= 'F' then c as int - 'A' as int + 10
    else c as int - 'a' as int + 10
  }

  /** The upper-case hexadecimal digit of `d`. */
  function HexDigit(d: nat): (c: char)
    requires d < 16
    ensures IsHexDigit(c) && !('a' <= c <= 'f') && HexValue(c) == d
  {
    if d < 10 then Digit(d) else ('A' as int + d - 10) as char
  }

  /** How many bytes the UTF-8 sequence starting with `lead` has. */
  function Utf8Length(lead: nat): nat
  {
    if lead < 0x80 then 1 else if lead < 0xE0 then 2 else if lead < 0xF0 then 3 else 4
  }

  /** The code point a UTF-8 sequence of one to four bytes encodes: the
      payload bits of the lead byte followed by six bits per continuation
      byte. */
  function Utf8Value(b: seq<nat>): int
    requires 1 <= |b| <= 4
  {
    var v := seq(|b|, i requires 0 <= i < |b| => b[i] as int);
    if |b| == 1 then v[0]
    else if |b| == 2 then (v[0] - 0xC0) * 64 + (v[1] - 0x80)
    else if |b| == 3 then (v[0] - 0xE0) * 4096 + (v[1] - 0x80) * 64 + (v[2] - 0x80)
    else (v[0] - 0xF0) * 262144 + (v[1] - 0x80) * 4096 + (v[2] - 0x80) * 64 + (v[3] - 0x80)
  }

  /** The two bytes of a code point in 0x80-0x7FF. */
  function Utf8Two(n: int): (r: seq<nat>)
    requires 0x80 <= n < 0x800
    ensures |r| == 2 && 0xC2 <= r[0] < 0xE0 && 0x80 <= r[1] <= 0xBF
    ensures Utf8Value(r) == n
  {
    [0xC0 + n / 64, 0x80 + n % 64]
  }

  /** The three bytes of a code point in 0x800-0xFFFF. */
  function Utf8Three(n: int): (r: seq<nat>)
    requires 0x800 <= n < 0x10000
    ensures |r| == 3 && 0xE0 <= r[0] < 0xF0 && 0x80 <= r[1] <= 0xBF && 0x80 <= r[2] <= 0xBF
    ensures Utf8Value(r) == n
  {
    var high := n / 64;
    assert n == high * 64 + n % 64;
    assert high == n / 4096 * 64 + high % 64;
    [0xE0 + high / 64, 0x80 + high % 64, 0x80 + n % 64]
  }

  /** The four bytes of a code point in 0x10000-0x10FFFF. */
  function Utf8Four(n: int): (r: seq<nat>)
    requires 0x10000 <= n < 0x110000
    ensures |r| == 4 && 0xF0 <= r[0] <= 0xF4
    ensures forall i :: 1 <= i < 4 ==> 0x80 <= r[i] <= 0xBF
    ensures Utf8Value(r) == n
  {
    var high := n / 64;
    var top := high / 64;
    assert n == high * 64 + n % 64;
    assert high == top * 64 + high % 64;
    assert top == top / 64 * 64 + top % 64;
    [0xF0 + top / 64, 0x80 + top % 64, 0x80 + high % 64, 0x80 + n % 64]
  }

  /** The UTF-8 bytes of one character: the shortest sequence whose lead
      byte announces its length, whose continuation bytes lie in
      0x80-0xBF, and which decodes to the character. */
  function Utf8(c: char): (r: seq<nat>)
    ensures 1 <= |r| <= 4 && forall i :: 0 <= i < |r| ==> r[i] < 256
    ensures |r| == Utf8Length(r[0])
    ensures forall i :: 1 <= i < |r| ==> 0x80 <= r[i] <= 0xBF
    ensures |r| == 1 <==> c as int < 0x80
    ensures |r| == 2 <==> 0x80 <= c as int < 0x800
    ensures |r| == 3 <==> 0x800 <= c as int < 0x10000
    ensures |r| == 2 ==> 0xC2 <= r[0]
    ensures |r| == 4 ==> r[0] <= 0xF4
    ensures Utf8Value(r) == c as int
  {
    var n := c as int;
    if n < 0x80 then [n]
    else if n < 0x800 then Utf8Two(n)
    else if n < 0x10000 then Utf8Three(n)
    else Utf8Four(n)
  }

  /** The percent-escapes of a byte string: `%` and two upper-case
      hexadecimal digits per byte. */
  function PercentBytes(bytes: seq<nat>): (r: string)
    requires forall i :: 0 <= i < |bytes| ==> bytes[i] < 256
    ensures |r| == 3 * |bytes|
    ensures forall i :: 0 <= i < |r| ==> (r[i] == '%' <==> i % 3 == 0)
    ensures forall i :: 0 <= i < |r| ==> IsDigit(r[i]) || 'A' <= r[i] <= 'F' || r[i] == '%'
  {
    if bytes == [] then []
    else ['%', HexDigit(bytes[0] / 16), HexDigit(bytes[0] % 16)] + PercentBytes(bytes[1..])
  }

  /** Reads a run of percent-escapes back as bytes; `None` when a triple is
      not `%` followed by two hexadecimal digits or the text does not end
      on a triple. */
  function DecodePercent(s: string): (r: Option<seq<nat>>)
    ensures r.Some? ==> |r.value| * 3 == |s|
    decreases |s|
  {
    if s == [] then Some([])
    else if |s| < 3 || s[0] != '%' || !IsHexDigit(s[1]) || !IsHexDigit(s[2]) then None
    else
      match DecodePercent(s[3..])
      case None => None
      case Some(rest) => Some([16 * HexValue(s[1]) + HexValue(s[2])] + rest)
  }

  /** Decoding the escapes of a byte string gives back the bytes. */
  lemma {:induction false} DecodePercentBytes(bytes: seq<nat>)
    requires forall i :: 0 <= i < |bytes| ==> bytes[i] < 256
    ensures DecodePercent(PercentBytes(bytes)) == Some(bytes)
  {
    if bytes != [] {
      var r := PercentBytes(bytes);
      DecodePercentBytes(bytes[1..]);
      assert r[3..] == PercentBytes(bytes[1..]);
      assert 16 * (bytes[0] / 16) + bytes[0] % 16 == bytes[0];
      assert [bytes[0]] + bytes[1..] == bytes;
    }
  }

  /** The characters `quote` leaves alone: letters, digits, `_.-~` and `/`. */
  predicate IsUrlSafe(c: char) {
    'a' <= c <= 'z' || 'A' <= c <= 'Z' || IsDigit(c) || c in "_.-~/"
  }

  /** `urllib.parse.quote(s)`: every unsafe character becomes the
      percent-escapes of its UTF-8 bytes. */
  function Quote(s: string): (r: string)
    ensures forall i :: 0 <= i < |r| ==> IsUrlSafe(r[i]) || r[i] == '%'
  {
    if s == [] then []
    else
      var head := if IsUrlSafe(s[0]) then [s[0]] else PercentBytes(Utf8(s[0]));
      head + Quote(s[1..])
  }

  /** Whether `v` is a code point Dafny's `char` can hold: a Unicode scalar
      value. */
  predicate IsScalar(v: int) {
    0 <= v < 0xD800 || 0xE000 <= v < 0x110000
  }

  /** The character whose UTF-8 escapes start `q`, with the number of
      characters of `q` they take up; `None` unless the escapes are the
      exact UTF-8 encoding of one character. */
  function EscapedChar(q: string): (r: Option<(char, nat)>)
    ensures r.Some? ==> 3 <= r.value.1 <= |q| && q[0] == '%'
  {
    if |q| < 3 || q[0] != '%' || !IsHexDigit(q[1]) || !IsHexDigit(q[2]) then None
    else
      var width := 3 * Utf8Length(16 * HexValue(q[1]) + HexValue(q[2]));
      if |q| < width then None
      else
        match DecodePercent(q[..width])
        case None => None
        case Some(bytes) =>
          var v := Utf8Value(bytes);
          if IsScalar(v) && Utf8(v as char) == bytes then Some((v as char, width)) else None
  }

  /** `urllib.parse.unquote` restricted to well-formed escapes: every run of
      escapes that is the UTF-8 encoding of a character becomes that
      character, every other character is kept. */
  function Unquote(q: string): string
    decreases |q|
  {
    if q == [] then []
    else
      match EscapedChar(q)
      case Some((c, width)) => [c] + Unquote(q[width..])
      case None => [q[0]] + Unquote(q[1..])
  }

  /** The escapes of an unsafe character read back as that character. */
  lemma EscapedCharOfUtf8(c: char, rest: string)
    ensures EscapedChar(PercentBytes(Utf8(c)) + rest) == Some((c, 3 * |Utf8(c)|))
  {
    var bytes := Utf8(c);
    var e := PercentBytes(bytes);
    var q := e + rest;
    DecodePercentBytes(bytes);
    assert q[..3 * |bytes|] == e;
    assert q[1] == e[1] && q[2] == e[2];
    assert e[..3] == ['%', HexDigit(bytes[0] / 16), HexDigit(bytes[0] % 16)];
    assert 16 * (bytes[0] / 16) + bytes[0] % 16 == bytes[0];
  }

  /** A safe character is kept by `Unquote`. */
  lemma UnquoteSafe(c: char, rest: string)
    requires IsUrlSafe(c)
    ensures Unquote([c] + rest) == [c] + Unquote(rest)
  {
    var q := [c] + rest;
    assert q[0] == c && q[1..] == rest;
  }

  /** The escapes of a character are read back as that character. */
  lemma UnquoteEscaped(c: char, rest: string)
    ensures Unquote(PercentBytes(Utf8(c)) + rest) == [c] + Unquote(rest)
  {
    var e := PercentBytes(Utf8(c));
    var q := e + rest;
    EscapedCharOfUtf8(c, rest);
    assert q[|e|..] == rest;
  }

  /** Unquoting undoes quoting: the search keyword can be read back from
      the URL. */
  lemma {:induction false} QuoteRoundTrip(s: string)
    ensures Unquote(Quote(s)) == s
  {
    if s != [] {
      QuoteRoundTrip(s[1..]);
      if IsUrlSafe(s[0]) {
        UnquoteSafe(s[0], Quote(s[1..]));
      } else {
        UnquoteEscaped(s[0], Quote(s[1..]));
      }
      assert s == [s[0]] + s[1..];
    }
  }
}
