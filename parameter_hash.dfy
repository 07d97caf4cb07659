/** The suffix that distinguishes proxy classes generated from different
    parameter sets.

    The repository derives it from a hash of the serialised, ordered
    parameter list. Here the hash is a function that is injective by
    construction: a canonical serialisation into tokens, each token rendered
    as six lower-case hexadecimal digits, so the hash grows with the
    parameter list. It stands in for a hash that is assumed collision-free
    on ordered key/value lists. */
module ParameterHash {
  import opened Strings

  /** A parameter value: PHP `null` or a string. */
  datatype Value = Null | Str(s: string)

  /** An ordered key/value list (a PHP array with string keys, in insertion order). */
  type Params = seq<(string, Value)>

  // Serialisation tokens: code points of characters, and three markers
  // above the largest code point.
  const EndOfString: nat := 0x11_0000
  const NullMarker: nat := 0x11_0001
  const StringMarker: nat := 0x11_0002

  /** Width in hexadecimal digits of one token; every token is below 16^6. */
  const TokenWidth: nat := 6

  function Codes(s: string): (r: seq<nat>)
    ensures |r| == |s|
    ensures forall i :: 0 <= i < |s| ==> r[i] == s[i] as int
    ensures EndOfString !in r
  {
    seq(|s|, i requires 0 <= i < |s| => s[i] as nat)
  }

  function EncodeString(s: string): seq<nat> {
    Codes(s) + [EndOfString]
  }

  function EncodeValue(v: Value): seq<nat> {
    match v
    case Null => [NullMarker]
    case Str(s) => [StringMarker] + EncodeString(s)
  }

  function EncodeEntry(e: (string, Value)): seq<nat> {
    EncodeString(e.0) + EncodeValue(e.1)
  }

  /** Canonical serialisation of an ordered parameter list. */
  function Serialize(p: Params): (r: seq<nat>)
    ensures r == [] <==> p == []
  {
    if p == [] then [] else EncodeEntry(p[0]) + Serialize(p[1..])
  }

  /** Every serialisation token fits in `TokenWidth` hexadecimal digits. */
  ghost predicate TokensFit(t: seq<nat>) {
    forall i :: 0 <= i < |t| ==> t[i] < Pow16(TokenWidth)
  }

  function Pow16(n: nat): (r: nat)
    ensures r >= 1
  {
    if n == 0 then 1 else 16 * Pow16(n - 1)
  }

  function HexDigit(d: nat): (c: char)
    requires d < 16
  {
    if d < 10 then ('0' as int + d) as char else ('a' as int + d - 10) as char
  }

  predicate IsHexDigit(c: char) {
    ('0' <= c <= '9') || ('a' <= c <= 'f')
  }

  function DigitValue(c: char): int {
    if '0' <= c <= '9' then c as int - '0' as int else c as int - 'a' as int + 10
  }

  /** `n` in exactly `width` hexadecimal digits, most significant first. */
  function Hex(n: nat, width: nat): (r: string)
    ensures |r| == width
    ensures forall i :: 0 <= i < |r| ==> IsHexDigit(r[i])
  {
    if width == 0 then [] else Hex(n / 16, width - 1) + [HexDigit(n % 16)]
  }

  /** The number a string of hexadecimal digits denotes. */
  function HexValue(s: string): int {
    if s == [] then 0 else HexValue(s[..|s| - 1]) * 16 + DigitValue(s[|s| - 1])
  }

  function HexTokens(t: seq<nat>): (r: string)
    ensures |r| == TokenWidth * |t|
  {
    if t == [] then [] else Hex(t[0], TokenWidth) + HexTokens(t[1..])
  }

  /** The parameter hash: the hexadecimal rendering of the serialisation. */
  function Hash(p: Params): (h: string)
    ensures forall i :: 0 <= i < |h| ==> IsHexDigit(h[i]) && IsIdentifierChar(h[i])
    ensures |h| % TokenWidth == 0
    ensures h == [] <==> p == []
  {
    HexTokensAreHexDigits(Serialize(p));
    HexTokens(Serialize(p))
  }

  // ---------------------------------------------------------------------
  // Properties

  lemma {:induction false} HexRoundTrip(n: nat, width: nat)
    requires n < Pow16(width)
    ensures HexValue(Hex(n, width)) == n
  {
    if width > 0 {
      var h := Hex(n, width);
      assert h[..|h| - 1] == Hex(n / 16, width - 1);
      assert n / 16 < Pow16(width - 1);
      HexRoundTrip(n / 16, width - 1);
    }
  }

  /** Distinct token lists render to distinct hexadecimal strings. */
  lemma {:induction false} HexTokensInjective(t: seq<nat>, u: seq<nat>)
    requires TokensFit(t) && TokensFit(u)
    requires HexTokens(t) == HexTokens(u)
    ensures t == u
  {
    if t != [] && u != [] {
      var ht, hu := HexTokens(t), HexTokens(u);
      assert ht[..TokenWidth] == Hex(t[0], TokenWidth);
      assert hu[..TokenWidth] == Hex(u[0], TokenWidth);
      HexRoundTrip(t[0], TokenWidth);
      HexRoundTrip(u[0], TokenWidth);
      assert ht[TokenWidth..] == HexTokens(t[1..]);
      assert hu[TokenWidth..] == HexTokens(u[1..]);
      HexTokensInjective(t[1..], u[1..]);
      assert t == [t[0]] + t[1..];
      assert u == [u[0]] + u[1..];
    }
  }

  /** Every character of a token rendering is a lower-case hexadecimal digit. */
  lemma {:induction false} HexTokensAreHexDigits(t: seq<nat>)
    ensures forall i :: 0 <= i < |HexTokens(t)| ==> IsHexDigit(HexTokens(t)[i])
  {
    if t != [] {
      HexTokensAreHexDigits(t[1..]);
      var a, b := Hex(t[0], TokenWidth), HexTokens(t[1..]);
      forall i | 0 <= i < |a + b| ensures IsHexDigit((a + b)[i]) {
        if i >= |a| { assert (a + b)[i] == b[i - |a|]; }
      }
    }
  }

  lemma {:induction false} SerializeTokensFit(p: Params)
    ensures TokensFit(Serialize(p))
  {
    if p != [] {
      SerializeTokensFit(p[1..]);
      var e := EncodeEntry(p[0]);
      assert Pow16(TokenWidth) == 0x100_0000;
      assert TokensFit(e) by {
        forall i | 0 <= i < |e| ensures e[i] < 0x100_0000 {
          var k := p[0].0;
          if i < |k| {
            assert e[i] == k[i] as int;
          }
        }
      }
      var s := Serialize(p);
      assert s == e + Serialize(p[1..]);
      forall i | 0 <= i < |s| ensures s[i] < Pow16(TokenWidth) {
        if i >= |e| { assert s[i] == Serialize(p[1..])[i - |e|]; }
      }
    }
  }

  lemma CodesInjective(a: string, b: string)
    requires Codes(a) == Codes(b)
    ensures a == b
  {
    assert |a| == |b|;
    forall i | 0 <= i < |a| ensures a[i] == b[i] {
      assert Codes(a)[i] == Codes(b)[i];
    }
  }

  /** The encoding of a string is prefix-free. */
  lemma EncodeStringPrefixFree(a: string, x: seq<nat>, b: string, y: seq<nat>)
    requires EncodeString(a) + x == EncodeString(b) + y
    ensures a == b && x == y
  {
    assert Codes(a) + [EndOfString] + x == EncodeString(a) + x;
    assert Codes(b) + [EndOfString] + y == EncodeString(b) + y;
    HeadBeforeDelimiter(Codes(a), x, Codes(b), y, EndOfString);
    CodesInjective(a, b);
  }

  /** The encoding of a value is prefix-free. */
  lemma EncodeValuePrefixFree(u: Value, x: seq<nat>, v: Value, y: seq<nat>)
    requires EncodeValue(u) + x == EncodeValue(v) + y
    ensures u == v && x == y
  {
    ValueMarkerFirst(u, x);
    ValueMarkerFirst(v, y);
    var ux, vy := EncodeValue(u) + x, EncodeValue(v) + y;
    assert u.Null? == v.Null?;
    if u.Str? {
      assert ux[1..] == vy[1..];
      EncodeStringPrefixFree(u.s, x, v.s, y);
    }
  }

  /** An encoded value starts with the marker of its kind, followed by the
      encoded string for a string value. */
  lemma ValueMarkerFirst(u: Value, x: seq<nat>)
    ensures var ux := EncodeValue(u) + x;
      && |ux| > 0
      && ux[0] == (if u.Null? then NullMarker else StringMarker)
      && ux[1..] == (if u.Null? then x else EncodeString(u.s) + x)
  {
    match u
    case Null =>
    case Str(s) =>
      assert EncodeValue(u) + x == [StringMarker] + (EncodeString(s) + x);
  }

  /** The encoding of a key/value entry is prefix-free. */
  lemma EncodeEntryPrefixFree(e: (string, Value), x: seq<nat>, f: (string, Value), y: seq<nat>)
    requires EncodeEntry(e) + x == EncodeEntry(f) + y
    ensures e == f && x == y
  {
    assert EncodeString(e.0) + (EncodeValue(e.1) + x) == EncodeEntry(e) + x;
    assert EncodeString(f.0) + (EncodeValue(f.1) + y) == EncodeEntry(f) + y;
    EncodeStringPrefixFree(e.0, EncodeValue(e.1) + x, f.0, EncodeValue(f.1) + y);
    EncodeValuePrefixFree(e.1, x, f.1, y);
  }

  /** Different ordered parameter lists serialise differently: a changed
      value, an added or removed key and a reordering are all seen. */
  lemma {:induction false} SerializeInjective(p: Params, q: Params)
    requires Serialize(p) == Serialize(q)
    ensures p == q
  {
    if p != [] && q != [] {
      EncodeEntryPrefixFree(p[0], Serialize(p[1..]), q[0], Serialize(q[1..]));
      SerializeInjective(p[1..], q[1..]);
      assert p == [p[0]] + p[1..];
      assert q == [q[0]] + q[1..];
    }
  }

  /** The hash of an ordered parameter list determines the list. */
  lemma HashInjective(p: Params, q: Params)
    requires Hash(p) == Hash(q)
    ensures p == q
  {
    SerializeTokensFit(p);
    SerializeTokensFit(q);
    HexTokensInjective(Serialize(p), Serialize(q));
    SerializeInjective(p, q);
  }
}
