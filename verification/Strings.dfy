/**
 Strings of the canonical JSON encoder (internal/canonical/canonical.go): UTF-16 key order
 and string escaping. They coincide with sections 3.2.3 and 3.2.2.2 of RFC 8785.
 */
module Strings {
  import opened Common

  /** A Unicode scalar value. */
  type Rune = x: int | 0 <= x < 0xD800 || 0xE000 <= x <= 0x10FFFF

  type Runes = seq<Rune>

  // ----- UTF-16 order

  function Units(r: Rune): seq<int> {
    if r < 0x1_0000 then [r] else [0xD800 + (r - 0x1_0000) / 0x400, 0xDC00 + (r - 0x1_0000) % 0x400]
  }

  function Utf16(s: Runes): seq<int> {
    if s == [] then [] else Units(s[0]) + Utf16(s[1..])
  }

  /** Lexicographic comparison of code units: -1, 0 or 1. */
  function CompareUnits(a: seq<int>, b: seq<int>): int {
    if a == [] then (if b == [] then 0 else -1)
    else if b == [] then 1
    else if a[0] < b[0] then -1
    else if a[0] > b[0] then 1
    else CompareUnits(a[1..], b[1..])
  }

  function Compare(a: Runes, b: Runes): int { CompareUnits(Utf16(a), Utf16(b)) }

  predicate Before(a: Runes, b: Runes) { Compare(a, b) < 0 }

  lemma {:induction false} UnitsOrder(a: seq<int>, b: seq<int>, c: seq<int>)
    ensures CompareUnits(a, b) == 0 <==> a == b
    ensures CompareUnits(a, b) == -CompareUnits(b, a)
    ensures CompareUnits(a, b) < 0 && CompareUnits(b, c) < 0 ==> CompareUnits(a, c) < 0
  {
    if a != [] && b != [] {
      UnitsOrder(a[1..], b[1..], if c == [] then [] else c[1..]);
      assert a == [a[0]] + a[1..] && b == [b[0]] + b[1..];
    }
  }

  lemma UnitsPrefixFree(p: Rune, q: Rune, x: seq<int>, y: seq<int>)
    requires Units(p) + x == Units(q) + y
    ensures p == q && x == y
  {
    var s, t := Units(p) + x, Units(q) + y;
    assert s[0] == Units(p)[0] && t[0] == Units(q)[0];
    if p >= 0x1_0000 && q >= 0x1_0000 { assert s[1] == Units(p)[1] && t[1] == Units(q)[1]; }
    assert x == s[|Units(p)|..] && y == t[|Units(q)|..];
  }

  lemma {:induction false} Utf16IsInjective(a: Runes, b: Runes)
    requires Utf16(a) == Utf16(b)
    ensures a == b
  {
    if a != [] && b != [] {
      UnitsPrefixFree(a[0], b[0], Utf16(a[1..]), Utf16(b[1..]));
      Utf16IsInjective(a[1..], b[1..]);
      assert a == [a[0]] + a[1..] && b == [b[0]] + b[1..];
    }
  }

  /** The key comparison is a strict total order on strings of Unicode scalar values. */
  lemma KeysAreTotallyOrdered(a: Runes, b: Runes, c: Runes)
    ensures Compare(a, b) == 0 <==> a == b
    ensures !(Before(a, b) && Before(b, a)) && (a != b ==> Before(a, b) || Before(b, a))
    ensures Before(a, b) && Before(b, c) ==> Before(a, c)
  {
    UnitsOrder(Utf16(a), Utf16(b), Utf16(c));
    if Utf16(a) == Utf16(b) { Utf16IsInjective(a, b); }
  }

  lemma {:induction false} SharedPrefix(a: seq<int>, b: seq<int>, n: nat)
    requires n <= |a| && n <= |b| && a[..n] == b[..n]
    ensures CompareUnits(a, b) == CompareUnits(a[n..], b[n..])
  {
    if n > 0 {
      assert a[0] == a[..n][0] && b[0] == b[..n][0];
      assert a[1..][..n - 1] == a[..n][1..] && b[1..][..n - 1] == b[..n][1..];
      SharedPrefix(a[1..], b[1..], n - 1);
      assert a[1..][n - 1..] == a[n..] && b[1..][n - 1..] == b[n..];
    } else {
      assert a[0..] == a && b[0..] == b;
    }
  }

  /** Go's `compareUTF16`. */
  method CompareUTF16(left: Runes, right: Runes) returns (r: int)
    ensures r == Compare(left, right)
  {
    var leftUnits, rightUnits := Utf16(left), Utf16(right);
    var limit := if |rightUnits| < |leftUnits| then |rightUnits| else |leftUnits|;
    for index := 0 to limit
      invariant leftUnits[..index] == rightUnits[..index]
    {
      SharedPrefix(leftUnits, rightUnits, index);
      if leftUnits[index] < rightUnits[index] { return -1; }
      if leftUnits[index] > rightUnits[index] { return 1; }
    }
    SharedPrefix(leftUnits, rightUnits, limit);
    if |leftUnits| < |rightUnits| { return -1; }
    if |leftUnits| > |rightUnits| { return 1; }
    return 0;
  }

  // ----- UTF-8

  function Utf8(r: Rune): seq<byte> {
    if r < 0x80 then [r]
    else if r < 0x800 then [0xC0 + r / 64, 0x80 + r % 64]
    else if r < 0x1_0000 then [0xE0 + r / 4096, 0x80 + r / 64 % 64, 0x80 + r % 64]
    else [0xF0 + r / 262144, 0x80 + r / 4096 % 64, 0x80 + r / 64 % 64, 0x80 + r % 64]
  }

  function RuneOr(x: int, rest: seq<byte>): Option<(Rune, seq<byte>)> {
    if 0 <= x < 0xD800 || 0xE000 <= x <= 0x10FFFF then Some((x, rest)) else None
  }

  function Two(a: int, b: int): int { (a - 0xC0) * 64 + (b - 0x80) }
  function Three(a: int, b: int, c: int): int { (a - 0xE0) * 4096 + (b - 0x80) * 64 + (c - 0x80) }
  function Four(a: int, b: int, c: int, d: int): int {
    (a - 0xF0) * 262144 + (b - 0x80) * 4096 + (c - 0x80) * 64 + (d - 0x80)
  }

  /** Decode the first rune. */
  function TakeUtf8(s: seq<byte>): Option<(Rune, seq<byte>)> {
    if s == [] then None
    else if s[0] < 0x80 then Some((s[0], s[1..]))
    else if 0xC0 <= s[0] < 0xE0 && |s| >= 2 then RuneOr(Two(s[0], s[1]), s[2..])
    else if 0xE0 <= s[0] < 0xF0 && |s| >= 3 then RuneOr(Three(s[0], s[1], s[2]), s[3..])
    else if 0xF0 <= s[0] && |s| >= 4 then RuneOr(Four(s[0], s[1], s[2], s[3]), s[4..])
    else None
  }

  lemma Digits(r: nat)
    ensures r == r / 64 * 64 + r % 64
    ensures r / 64 == r / 4096 * 64 + r / 64 % 64
    ensures r / 4096 == r / 262144 * 64 + r / 4096 % 64
  {
  }

  lemma Prefixed<T>(a: seq<T>, rest: seq<T>)
    ensures (a + rest)[|a|..] == rest
    ensures forall i :: 0 <= i < |a| ==> (a + rest)[i] == a[i]
  {
  }

  lemma Utf8RoundTrip(r: Rune, rest: seq<byte>)
    ensures TakeUtf8(Utf8(r) + rest) == Some((r, rest))
  {
    var code := Utf8(r);
    var s := code + rest;
    Prefixed(code, rest);
    Digits(r);
    assert s[0] == code[0];
    if r >= 0x80 { assert s[1] == code[1]; }
    if r >= 0x800 { assert s[2] == code[2]; }
    if r >= 0x1_0000 { assert s[3] == code[3]; }
  }

  // ----- escaping

  const QUOTE: byte := 0x22
  const BACKSLASH: byte := 0x5C

  function Hex(n: int): byte
    requires 0 <= n < 16
  {
    if n < 10 then 0x30 + n else 0x61 + (n - 10)
  }

  function Unhex(b: byte): Option<int> {
    if 0x30 <= b <= 0x39 then Some(b - 0x30) else if 0x61 <= b <= 0x66 then Some(b - 0x61 + 10) else None
  }

  function Escape(r: Rune): seq<byte> {
    if r == QUOTE || r == BACKSLASH then [BACKSLASH, r]
    else if r == 0x08 then [BACKSLASH, 0x62]
    else if r == 0x09 then [BACKSLASH, 0x74]
    else if r == 0x0A then [BACKSLASH, 0x6E]
    else if r == 0x0C then [BACKSLASH, 0x66]
    else if r == 0x0D then [BACKSLASH, 0x72]
    else if r < 0x20 then [BACKSLASH, 0x75, 0x30, 0x30, Hex(r / 16), Hex(r % 16)]
    else Utf8(r)
  }

  function Body(s: Runes): seq<byte> {
    if s == [] then [] else Body(s[..|s| - 1]) + Escape(s[|s| - 1])
  }

  function Quote(s: Runes): seq<byte> { [QUOTE] + Body(s) + [QUOTE] }

  function Short(b: byte): Option<Rune> {
    if b == QUOTE || b == BACKSLASH then Some(b)
    else if b == 0x62 then Some(0x08)
    else if b == 0x74 then Some(0x09)
    else if b == 0x6E then Some(0x0A)
    else if b == 0x66 then Some(0x0C)
    else if b == 0x72 then Some(0x0D)
    else None
  }

  /** Undo one escape. */
  function TakeEscaped(s: seq<byte>): Option<(Rune, seq<byte>)> {
    if s == [] || s[0] != BACKSLASH then TakeUtf8(s)
    else if |s| >= 6 && s[1] == 0x75 && s[2] == 0x30 && s[3] == 0x30 then
      match (Unhex(s[4]), Unhex(s[5]))
      case (Some(h), Some(l)) => Some((h * 16 + l, s[6..]))
      case _ => None
    else if |s| >= 2 then (match Short(s[1]) case Some(r) => Some((r, s[2..])) case None => None)
    else None
  }

  lemma EscapeRoundTrip(r: Rune, rest: seq<byte>)
    ensures TakeEscaped(Escape(r) + rest) == Some((r, rest))
    ensures (Escape(r) + rest)[0] != QUOTE
  {
    var s := Escape(r) + rest;
    assert s[|Escape(r)|..] == rest;
    if r >= 0x20 && r != QUOTE && r != BACKSLASH {
      Utf8RoundTrip(r, rest);
    } else {
      assert forall i :: 0 <= i < |Escape(r)| ==> s[i] == Escape(r)[i];
    }
  }

  /** Read up to the closing quote. */
  function Unescape(s: seq<byte>): Option<(Runes, seq<byte>)>
    decreases |s|
  {
    if s == [] then None
    else if s[0] == QUOTE then Some(([], s[1..]))
    else
      match TakeEscaped(s)
      case None => None
      case Some((r, rest)) =>
        if |rest| >= |s| then None
        else
          match Unescape(rest)
          case None => None
          case Some((tail, after)) => Some(([r] + tail, after))
  }

  lemma {:induction false} BodyFirst(s: Runes)
    requires s != []
    ensures Body(s) == Escape(s[0]) + Body(s[1..])
  {
    if |s| > 1 {
      var n := |s| - 1;
      BodyFirst(s[..n]);
      assert s[..n][1..] == s[1..][..n - 1];
    }
  }

  lemma {:induction false} UnescapeBody(s: Runes, rest: seq<byte>)
    ensures Unescape(Body(s) + [QUOTE] + rest) == Some((s, rest))
  {
    if s == [] {
      assert Body(s) + [QUOTE] + rest == [QUOTE] + rest;
      assert ([QUOTE] + rest)[1..] == rest;
    } else {
      var tail := Body(s[1..]) + [QUOTE] + rest;
      BodyFirst(s);
      assert Body(s) + [QUOTE] + rest == Escape(s[0]) + tail;
      EscapeRoundTrip(s[0], tail);
      UnescapeBody(s[1..], rest);
      assert s == [s[0]] + s[1..];
    }
  }

  function Unquote(s: seq<byte>): Option<(Runes, seq<byte>)> {
    if s == [] || s[0] != QUOTE then None else Unescape(s[1..])
  }

  /** Reading back a written string returns it and whatever follows. */
  lemma QuoteRoundTrip(s: Runes, rest: seq<byte>)
    ensures Unquote(Quote(s) + rest) == Some((s, rest))
  {
    assert (Quote(s) + rest)[1..] == Body(s) + [QUOTE] + rest;
    UnescapeBody(s, rest);
  }

  lemma QuotePrefixFree(a: Runes, b: Runes, x: seq<byte>, y: seq<byte>)
    requires Quote(a) + x == Quote(b) + y
    ensures a == b && x == y
  {
    QuoteRoundTrip(a, x);
    QuoteRoundTrip(b, y);
  }
}
