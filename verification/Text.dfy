/** Text: Unicode strings as Rust's `str` sees them, their UTF-8 and hexadecimal
    images, decimal numerals, `|`-joined records and substring search. */
module Text {
  import opened Wrappers

  // ---- character classes --------------------------------------------------

  /** `char::is_whitespace`: the Unicode White_Space property. */
  predicate IsWhitespace(c: char) {
    var n := c as int;
    || 0x9 <= n <= 0xD || n == 0x20 || n == 0x85 || n == 0xA0 || n == 0x1680
    || 0x2000 <= n <= 0x200A || n == 0x2028 || n == 0x2029 || n == 0x202F
    || n == 0x205F || n == 0x3000
  }

  /** `char::is_control`: Unicode general category Cc. */
  predicate IsControl(c: char) {
    var n := c as int;
    n <= 0x1F || 0x7F <= n <= 0x9F
  }

  /** `s.trim().is_empty()` */
  predicate IsBlank(s: string) {
    forall c | c in s :: IsWhitespace(c)
  }

  predicate IsLowerHex(c: char) {
    '0' <= c <= '9' || 'a' <= c <= 'f'
  }

  predicate IsDigit(c: char) {
    '0' <= c <= '9'
  }

  // ---- SHA-256 digests in lowercase hexadecimal ---------------------------

  const DIGEST_LENGTH := 64

  predicate IsSha256Hex(s: string) {
    |s| == DIGEST_LENGTH && forall c | c in s :: IsLowerHex(c)
  }

  type Digest = s: string | IsSha256Hex(s) witness seq(DIGEST_LENGTH, _ => '0')

  /** The collision-freeness hypothesis, for the two texts a theorem compares. */
  predicate NoCollision(sha: string -> Digest, a: string, b: string) {
    sha(a) == sha(b) ==> a == b
  }

  // ---- UTF-8 --------------------------------------------------------------

  type Byte = b: int | 0 <= b < 256

  /** The UTF-8 image of one scalar value. */
  function Utf8(c: char): (bytes: seq<Byte>)
    ensures 1 <= |bytes| <= 4
  {
    var n := c as int;
    if n < 0x80 then [n]
    else if n < 0x800 then [0xC0 + n / 64, 0x80 + n % 64]
    else if n < 0x10000 then [0xE0 + n / 4096, 0x80 + n / 64 % 64, 0x80 + n % 64]
    else [0xF0 + n / 262144, 0x80 + n / 4096 % 64, 0x80 + n / 64 % 64, 0x80 + n % 64]
  }

  function EncodeUtf8(s: string): seq<Byte> {
    if s == [] then [] else Utf8(s[0]) + EncodeUtf8(s[1..])
  }

  /** `str::len`: the number of UTF-8 bytes. */
  function ByteLen(s: string): nat {
    |EncodeUtf8(s)|
  }

  /** The lead byte of a sequence tells how long it is, so no image of a scalar
      value is a prefix of another one. */
  lemma Utf8PrefixFree(c: char, x: seq<Byte>, d: char, y: seq<Byte>)
    requires Utf8(c) + x == Utf8(d) + y
    ensures c == d && x == y
  {
    var p, q := Utf8(c) + x, Utf8(d) + y;
    assert p[0] == Utf8(c)[0] && q[0] == Utf8(d)[0];
    assert |Utf8(c)| == |Utf8(d)|;
    assert Utf8(c) == p[..|Utf8(c)|] == q[..|Utf8(d)|] == Utf8(d);
    Utf8RoundTrip(c);
    Utf8RoundTrip(d);
    assert x == p[|Utf8(c)|..] == q[|Utf8(d)|..] == y;
  }

  /** The code point a UTF-8 image stands for. */
  function Utf8CodePoint(bytes: seq<Byte>): int
    requires 1 <= |bytes| <= 4
  {
    var b: seq<int> := bytes;
    if |b| == 1 then b[0]
    else if |b| == 2 then (b[0] - 0xC0) * 64 + (b[1] - 0x80)
    else if |b| == 3 then (b[0] - 0xE0) * 4096 + (b[1] - 0x80) * 64 + (b[2] - 0x80)
    else (b[0] - 0xF0) * 262144 + (b[1] - 0x80) * 4096 + (b[2] - 0x80) * 64 + (b[3] - 0x80)
  }

  lemma Utf8RoundTrip(c: char)
    ensures Utf8CodePoint(Utf8(c)) == c as int
  {
    var n := c as int;
    assert n / 64 / 64 == n / 4096;
    assert n / 4096 / 64 == n / 262144;
  }

  lemma {:induction false} EncodeUtf8Injective(s: string, t: string)
    requires EncodeUtf8(s) == EncodeUtf8(t)
    ensures s == t
  {
    if s == [] || t == [] {
      assert s == [] ==> |EncodeUtf8(t)| == 0;
    } else {
      Utf8PrefixFree(s[0], EncodeUtf8(s[1..]), t[0], EncodeUtf8(t[1..]));
      EncodeUtf8Injective(s[1..], t[1..]);
      assert s == [s[0]] + s[1..] && t == [t[0]] + t[1..];
    }
  }

  // ---- hexadecimal --------------------------------------------------------

  function HexDigit(n: int): (c: char)
    requires 0 <= n < 16
    ensures IsLowerHex(c)
  {
    if n < 10 then ('0' as int + n) as char else ('a' as int + n - 10) as char
  }

  function HexValue(c: char): (n: int)
    requires IsLowerHex(c)
    ensures 0 <= n < 16
  {
    if c <= '9' then c as int - '0' as int else c as int - 'a' as int + 10
  }

  lemma HexDigitValue(n: int)
    requires 0 <= n < 16
    ensures HexValue(HexDigit(n)) == n
  {
  }

  /** `hex::encode` */
  function HexEncode(bytes: seq<Byte>): (s: string)
    ensures |s| == 2 * |bytes|
    ensures forall c | c in s :: IsLowerHex(c)
  {
    if bytes == [] then [] else
      [HexDigit(bytes[0] / 16), HexDigit(bytes[0] % 16)] + HexEncode(bytes[1..])
  }

  lemma {:induction false} HexEncodeInjective(x: seq<Byte>, y: seq<Byte>)
    requires HexEncode(x) == HexEncode(y)
    ensures x == y
  {
    if x == [] || y == [] {
    } else {
      var s, t := HexEncode(x), HexEncode(y);
      assert s[0] == t[0] && s[1] == t[1];
      HexDigitValue(x[0] / 16);
      HexDigitValue(y[0] / 16);
      HexDigitValue(x[0] % 16);
      HexDigitValue(y[0] % 16);
      assert HexEncode(x[1..]) == s[2..] == t[2..] == HexEncode(y[1..]);
      HexEncodeInjective(x[1..], y[1..]);
      assert x == [x[0]] + x[1..] && y == [y[0]] + y[1..];
    }
  }

  // ---- decimal numerals ---------------------------------------------------

  function Decimal(n: nat): (s: string)
    ensures |s| > 0
    ensures forall c | c in s :: IsDigit(c)
  {
    if n < 10 then [('0' as int + n) as char]
    else Decimal(n / 10) + [('0' as int + n % 10) as char]
  }

  function DecimalInt(n: int): (s: string)
    ensures |s| > 0
    ensures forall c | c in s :: IsDigit(c) || c == '-'
  {
    if n < 0 then "-" + Decimal(-n) else Decimal(n)
  }

  lemma {:induction false} DecimalInjective(m: nat, n: nat)
    requires Decimal(m) == Decimal(n)
    ensures m == n
  {
    var s, t := Decimal(m), Decimal(n);
    assert s[|s| - 1] == ('0' as int + m % 10) as char;
    assert t[|t| - 1] == ('0' as int + n % 10) as char;
    assert m % 10 == n % 10;
    if m >= 10 && n >= 10 {
      assert Decimal(m / 10) == s[..|s| - 1] == t[..|t| - 1] == Decimal(n / 10);
      DecimalInjective(m / 10, n / 10);
    }
  }

  lemma DecimalIntInjective(m: int, n: int)
    requires DecimalInt(m) == DecimalInt(n)
    ensures m == n
  {
    var s, t := DecimalInt(m), DecimalInt(n);
    assert s[0] in s && t[0] in t;
    if m < 0 && n < 0 {
      assert Decimal(-m) == s[1..] == t[1..] == Decimal(-n);
      DecimalInjective(-m, -n);
    } else if m >= 0 && n >= 0 {
      DecimalInjective(m, n);
    }
  }

  // ---- records joined by a separator --------------------------------------

  /** `fields.join("|")` */
  function JoinPipe(fields: seq<string>): string {
    if |fields| == 0 then ""
    else if |fields| == 1 then fields[0]
    else fields[0] + "|" + JoinPipe(fields[1..])
  }

  /** `fields.join(",")` */
  function JoinComma(fields: seq<string>): string {
    if fields == [] then []
    else if |fields| == 1 then fields[0]
    else fields[0] + [','] + JoinComma(fields[1..])
  }

  predicate PipeFree(s: string) {
    '|' !in s
  }

  /** The first separator ends the first field. */
  lemma FirstFieldUnique(a: string, x: string, b: string, y: string)
    requires PipeFree(a) && PipeFree(b)
    requires a + "|" + x == b + "|" + y
    ensures a == b && x == y
  {
    var s, t := a + "|" + x, b + "|" + y;
    assert s[|a|] == '|' && t[|b|] == '|';
    assert forall i | 0 <= i < |a| :: s[i] in a;
    assert forall i | 0 <= i < |b| :: t[i] in b;
    assert |a| == |b|;
    assert a == s[..|a|] && b == t[..|b|];
    assert x == s[|a| + 1..] && y == t[|b| + 1..];
  }

  lemma {:induction false} JoinPipeInjective(f: seq<string>, g: seq<string>)
    requires |f| == |g|
    requires forall s | s in f :: PipeFree(s)
    requires forall s | s in g :: PipeFree(s)
    requires JoinPipe(f) == JoinPipe(g)
    ensures f == g
  {
    if |f| > 1 {
      assert f[0] in f && g[0] in g;
      FirstFieldUnique(f[0], JoinPipe(f[1..]), g[0], JoinPipe(g[1..]));
      JoinPipeInjective(f[1..], g[1..]);
      assert f == [f[0]] + f[1..] && g == [g[0]] + g[1..];
    }
  }

  /** How many separators a text holds. */
  function Pipes(s: string): nat {
    if s == [] then 0 else (if s[0] == '|' then 1 else 0) + Pipes(s[1..])
  }

  lemma {:induction false} PipesOfConcat(a: string, b: string)
    ensures Pipes(a + b) == Pipes(a) + Pipes(b)
  {
    if a == [] {
      assert a + b == b;
    } else {
      assert (a + b)[1..] == a[1..] + b;
      PipesOfConcat(a[1..], b);
    }
  }

  lemma {:induction false} PipeFreeMeansNone(s: string)
    ensures PipeFree(s) <==> Pipes(s) == 0
  {
    if s != [] {
      PipeFreeMeansNone(s[1..]);
      assert s == [s[0]] + s[1..];
    }
  }

  function PipesWithin(fields: seq<string>): nat {
    if fields == [] then 0 else Pipes(fields[0]) + PipesWithin(fields[1..])
  }

  lemma {:induction false} NoPipesWithin(fields: seq<string>)
    ensures PipesWithin(fields) == 0 <==> forall s | s in fields :: PipeFree(s)
  {
    if fields != [] {
      NoPipesWithin(fields[1..]);
      PipeFreeMeansNone(fields[0]);
      assert fields == [fields[0]] + fields[1..];
    }
  }

  lemma {:induction false} PipesOfJoin(fields: seq<string>)
    requires fields != []
    ensures Pipes(JoinPipe(fields)) == |fields| - 1 + PipesWithin(fields)
  {
    if |fields| > 1 {
      PipesOfJoin(fields[1..]);
      PipesOfConcat(fields[0], "|");
      PipesOfConcat(fields[0] + "|", JoinPipe(fields[1..]));
      assert Pipes("|") == 1;
    } else {
      assert PipesWithin(fields[1..]) == 0;
    }
  }

  /** A record of separator-free fields shares its text with no other record of as many
      fields, whatever those hold. */
  lemma JoinPipeUnambiguous(f: seq<string>, g: seq<string>)
    requires |f| == |g| > 0
    requires forall s | s in f :: PipeFree(s)
    requires JoinPipe(f) == JoinPipe(g)
    ensures f == g
  {
    hide JoinPipe, PipesWithin, PipeFree;
    PipesOfJoin(f);
    PipesOfJoin(g);
    NoPipesWithin(f);
    NoPipesWithin(g);
    JoinPipeInjective(f, g);
  }

  /** Moving a separator across the border of two neighbouring fields leaves the joined
      text as it was. */
  lemma {:induction false} JoinPipeBorder(f: seq<string>, g: seq<string>, k: nat)
    requires |f| == |g| && k + 1 < |f|
    requires forall i | 0 <= i < |f| && i != k && i != k + 1 :: f[i] == g[i]
    requires f[k] + "|" + f[k + 1] == g[k] + "|" + g[k + 1]
    ensures JoinPipe(f) == JoinPipe(g)
  {
    if k > 0 {
      JoinPipeBorder(f[1..], g[1..], k - 1);
    } else if |f| > 2 {
      assert f[1..][1..] == g[1..][1..];
      var rest := JoinPipe(f[1..][1..]);
      assert JoinPipe(f) == f[0] + "|" + (f[1] + "|" + rest) == (f[0] + "|" + f[1]) + "|" + rest;
      assert JoinPipe(g) == g[0] + "|" + (g[1] + "|" + rest) == (g[0] + "|" + g[1]) + "|" + rest;
    }
  }

  /** Records that begin alike and join alike go on joining alike. */
  lemma {:induction false} JoinPipeSuffix(f: seq<string>, g: seq<string>, k: nat)
    requires |f| == |g| && k < |f| && f[..k] == g[..k] && JoinPipe(f) == JoinPipe(g)
    ensures JoinPipe(f[k..]) == JoinPipe(g[k..])
  {
    if k > 0 {
      assert f[0] == f[..k][0] == g[..k][0] == g[0];
      assert f[1..][..k - 1] == f[..k][1..] == g[..k][1..] == g[1..][..k - 1];
      assert JoinPipe(f)[|f[0]| + 1..] == JoinPipe(f[1..]) && JoinPipe(g)[|g[0]| + 1..] == JoinPipe(g[1..]);
      JoinPipeSuffix(f[1..], g[1..], k - 1);
      assert f[1..][k - 1..] == f[k..] && g[1..][k - 1..] == g[k..];
    }
  }

  // ---- substring search ---------------------------------------------------

  predicate OccursAt(pattern: string, text: string, i: int) {
    0 <= i <= |text| - |pattern| && text[i..i + |pattern|] == pattern
  }

  /** `text.contains(pattern)` */
  predicate Contains(text: string, pattern: string) {
    exists i | 0 <= i <= |text| :: OccursAt(pattern, text, i)
  }
}
