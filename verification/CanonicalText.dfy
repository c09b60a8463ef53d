/**
 Canonical JSON text as section 3.2 of RFC 8785 describes it, for values without numbers:
 which bytes spell a value, said with characters and without the encoder. The encoder's
 output is the one text that spells its value.
 */
module CanonicalText {
  import opened Common
  import opened Strings
  import opened CanonicalJson

  /** The bytes of an ASCII string. */
  function Ascii(s: string): seq<byte>
    requires forall i :: 0 <= i < |s| ==> s[i] < '\U{80}'
  {
    seq(|s|, i requires 0 <= i < |s| => s[i] as int)
  }

  // ----- characters

  /** What a byte adds to the marker of its kind. */
  function Over(b: int, marker: int): int { b - marker }

  /** Six more bits. */
  function Bits(high: int, low: int): int { high * 64 + low }

  /** `text` is the UTF-8 form of the character (section 3 of RFC 3629). */
  predicate IsUtf8(text: seq<byte>, r: Rune) {
    && (forall i :: 0 < i < |text| ==> 0x80 <= text[i] < 0xC0)
    && match |text|
       case 1 => r < 0x80 && text[0] == r
       case 2 => 0x80 <= r < 0x800 && r == Bits(Over(text[0], 0xC0), Over(text[1], 0x80))
       case 3 => 0x800 <= r < 0x1_0000 && r == Bits(Bits(Over(text[0], 0xE0), Over(text[1], 0x80)), Over(text[2], 0x80))
       case 4 =>
         0x1_0000 <= r && r == Bits(Bits(Bits(Over(text[0], 0xF0), Over(text[1], 0x80)), Over(text[2], 0x80)), Over(text[3], 0x80))
       case _ => false
  }

  const DIGITS: string := "0123456789abcdef"

  /** The spelling of one character inside a string (section 3.2.2.2 of RFC 8785). */
  predicate SpellsRune(text: seq<byte>, r: Rune) {
    match r
    case 0x22 => text == Ascii("\\\"")
    case 0x5C => text == Ascii("\\\\")
    case 0x08 => text == Ascii("\\b")
    case 0x09 => text == Ascii("\\t")
    case 0x0A => text == Ascii("\\n")
    case 0x0C => text == Ascii("\\f")
    case 0x0D => text == Ascii("\\r")
    case _ => if r < 0x20 then text == Ascii("\\u00" + [DIGITS[r / 16], DIGITS[r % 16]]) else IsUtf8(text, r)
  }

  lemma Utf8IsUtf8(r: Rune)
    ensures IsUtf8(Utf8(r), r)
  {
    Digits(r);
  }

  lemma IsUtf8IsUtf8(text: seq<byte>, r: Rune)
    requires IsUtf8(text, r)
    ensures text == Utf8(r)
  {
    Utf8IsUtf8(r);
    LengthIsFixed(text, Utf8(r), r);
    SameUtf8(text, Utf8(r), r);
  }

  lemma LengthIsFixed(a: seq<byte>, b: seq<byte>, r: Rune)
    requires IsUtf8(a, r) && IsUtf8(b, r)
    ensures |a| == |b|
  {
  }

  lemma BitsAreUnique(h: int, l: int, i: int, m: int)
    requires Bits(h, l) == Bits(i, m) && 0 <= l < 64 && 0 <= m < 64
    ensures h == i && l == m
  {
  }

  lemma SameUtf8(a: seq<byte>, b: seq<byte>, r: Rune)
    requires IsUtf8(a, r) && IsUtf8(b, r) && |a| == |b|
    ensures a == b
  {
    match |a|
    case 2 => BitsAreUnique(Over(a[0], 0xC0), Over(a[1], 0x80), Over(b[0], 0xC0), Over(b[1], 0x80));
    case 3 =>
      BitsAreUnique(Bits(Over(a[0], 0xE0), Over(a[1], 0x80)), Over(a[2], 0x80), Bits(Over(b[0], 0xE0), Over(b[1], 0x80)), Over(b[2], 0x80));
      BitsAreUnique(Over(a[0], 0xE0), Over(a[1], 0x80), Over(b[0], 0xE0), Over(b[1], 0x80));
    case 4 =>
      var x, y := Bits(Bits(Over(a[0], 0xF0), Over(a[1], 0x80)), Over(a[2], 0x80)), Bits(Bits(Over(b[0], 0xF0), Over(b[1], 0x80)), Over(b[2], 0x80));
      BitsAreUnique(x, Over(a[3], 0x80), y, Over(b[3], 0x80));
      BitsAreUnique(Bits(Over(a[0], 0xF0), Over(a[1], 0x80)), Over(a[2], 0x80), Bits(Over(b[0], 0xF0), Over(b[1], 0x80)), Over(b[2], 0x80));
      BitsAreUnique(Over(a[0], 0xF0), Over(a[1], 0x80), Over(b[0], 0xF0), Over(b[1], 0x80));
    case _ =>
  }

  /** The hexadecimal digits of a control character. */
  lemma ControlSpelling(r: Rune)
    requires r < 0x20
    ensures Ascii("\\u00" + [DIGITS[r / 16], DIGITS[r % 16]]) == [BACKSLASH, 0x75, 0x30, 0x30, Hex(r / 16), Hex(r % 16)]
  {
    assert Hex(r % 16) == DIGITS[r % 16] as int && Hex(r / 16) == DIGITS[r / 16] as int;
  }

  lemma ShortSpelling(text: seq<byte>, r: Rune)
    requires r < 0x20 || r == 0x22 || r == 0x5C
    ensures SpellsRune(text, r) <==> text == Escape(r)
  {
    if r < 0x20 { ControlSpelling(r); }
  }

  lemma EscapeSpells(text: seq<byte>, r: Rune)
    ensures SpellsRune(text, r) <==> text == Escape(r)
  {
    if r < 0x20 || r == 0x22 || r == 0x5C {
      ShortSpelling(text, r);
    } else {
      Utf8IsUtf8(r);
      if IsUtf8(text, r) { IsUtf8IsUtf8(text, r); }
    }
  }

  // ----- strings and key order

  /** The pieces one after the other, with a separator between them. */
  function Join(parts: seq<seq<byte>>, separator: seq<byte>): seq<byte> {
    if parts == [] then []
    else if |parts| == 1 then parts[0]
    else Join(parts[..|parts| - 1], separator) + separator + parts[|parts| - 1]
  }

  ghost predicate SpellsString(text: seq<byte>, s: Runes) {
    exists parts: seq<seq<byte>> ::
      && |parts| == |s| && (forall i :: 0 <= i < |s| ==> SpellsRune(parts[i], s[i]))
      && text == Ascii("\"") + Join(parts, []) + Ascii("\"")
  }

  /** `h` and `l` are the surrogate pair of a character outside the basic plane. */
  predicate IsPair(h: int, l: int, r: Rune) {
    0xD800 <= h < 0xDC00 && 0xDC00 <= l < 0xE000 && r == 0x1_0000 + (h - 0xD800) * 0x400 + (l - 0xDC00)
  }

  /** Lexicographic order: the first difference decides, and a proper prefix comes first. */
  ghost predicate Lexicographic(a: seq<int>, b: seq<int>) {
    exists n :: 0 <= n <= |a| && n < |b| && a[..n] == b[..n] && (n == |a| || a[n] < b[n])
  }

  lemma UnitsMeaning(r: Rune)
    ensures r < 0x1_0000 ==> Units(r) == [r]
    ensures r >= 0x1_0000 ==> |Units(r)| == 2 && IsPair(Units(r)[0], Units(r)[1], r)
  {
  }

  lemma {:induction false} UnitsOrderMeaning(a: seq<int>, b: seq<int>)
    ensures CompareUnits(a, b) < 0 <==> Lexicographic(a, b)
  {
    if a == [] || b == [] {
      if a == [] && b != [] { assert a[..0] == b[..0]; }
    } else {
      UnitsOrderMeaning(a[1..], b[1..]);
      if CompareUnits(a, b) < 0 {
        if a[0] < b[0] {
          assert a[..0] == b[..0];
        } else {
          var n :| 0 <= n <= |a[1..]| && n < |b[1..]| && a[1..][..n] == b[1..][..n] && (n == |a[1..]| || a[1..][n] < b[1..][n]);
          PrefixOn(a, b, n);
        }
      }
      if Lexicographic(a, b) {
        var n :| 0 <= n <= |a| && n < |b| && a[..n] == b[..n] && (n == |a| || a[n] < b[n]);
        if n > 0 {
          assert a[0] == a[..n][0] == b[..n][0] == b[0];
          assert a[1..][..n - 1] == a[..n][1..] == b[..n][1..] == b[1..][..n - 1];
          assert n - 1 == |a[1..]| || a[1..][n - 1] < b[1..][n - 1];
        }
      }
    }
  }

  lemma PrefixOn(a: seq<int>, b: seq<int>, n: nat)
    requires a != [] && b != [] && a[0] == b[0] && n < |a| && n < |b| && a[1..][..n] == b[1..][..n]
    ensures a[..n + 1] == b[..n + 1]
  {
    assert a[..n + 1] == [a[0]] + a[1..][..n] && b[..n + 1] == [b[0]] + b[1..][..n];
  }

  /** Keys are ordered by the code units of their UTF-16 form (section 3.2.3 of RFC 8785). */
  lemma KeyOrderMeaning(a: Runes, b: Runes)
    ensures Before(a, b) <==> Lexicographic(Utf16(a), Utf16(b))
  {
    UnitsOrderMeaning(Utf16(a), Utf16(b));
  }

  // ----- values

  ghost predicate Spells(text: seq<byte>, t: Json)
    decreases t, 1
  {
    match t
    case Null => text == Ascii("null")
    case Boolean(b) => text == if b then Ascii("true") else Ascii("false")
    case Text(s) => SpellsString(text, s)
    case Array(_) => exists parts :: ItemsSpelled(parts, t) && text == Bracketed(parts)
    case Object(_) =>
      exists keys, names, parts :: MembersSpelled(keys, names, parts, t) && text == Braced(names, parts)
  }

  function Bracketed(parts: seq<seq<byte>>): seq<byte> { Ascii("[") + Join(parts, Ascii(",")) + Ascii("]") }

  function Braced(names: seq<seq<byte>>, parts: seq<seq<byte>>): seq<byte>
    requires |names| == |parts|
  {
    Ascii("{") + Join(Pairs(names, parts), Ascii(",")) + Ascii("}")
  }

  /** The items of an array, each spelled in its place. */
  ghost predicate ItemsSpelled(parts: seq<seq<byte>>, t: Json)
    decreases t, 0
  {
    t.Array? && |parts| == |t.items| && forall i :: 0 <= i < |t.items| ==> Spells(parts[i], t.items[i])
  }

  /** The keys of an object in order, and their names and values spelled. */
  ghost predicate MembersSpelled(keys: seq<Runes>, names: seq<seq<byte>>, parts: seq<seq<byte>>, t: Json)
    decreases t, 0
  {
    && t.Object? && |names| == |keys| && |parts| == |keys| && KeysInOrder(keys, t.members)
    && (forall i :: 0 <= i < |keys| ==> SpellsString(names[i], keys[i]))
    && forall i :: 0 <= i < |keys| ==> Spells(parts[i], t.members[keys[i]])
  }

  ghost predicate KeysInOrder(keys: seq<Runes>, members: map<Runes, Json>) {
    && (forall k :: k in members ==> k in keys) && (forall i :: 0 <= i < |keys| ==> keys[i] in members)
    && forall i, j :: 0 <= i < j < |keys| ==> Lexicographic(Utf16(keys[i]), Utf16(keys[j]))
  }

  /** The members of an object, each a name, a colon and a value. */
  function Pairs(names: seq<seq<byte>>, parts: seq<seq<byte>>): seq<seq<byte>>
    requires |names| == |parts|
  {
    seq(|names|, i requires 0 <= i < |names| => names[i] + Ascii(":") + parts[i])
  }

  // ----- the encoder spells its value, and nothing else does

  function Escapes(s: Runes): seq<seq<byte>> { seq(|s|, i requires 0 <= i < |s| => Escape(s[i])) }

  lemma JoinMore(parts: seq<seq<byte>>, part: seq<byte>, separator: seq<byte>)
    ensures Join(parts + [part], separator) == if parts == [] then part else Join(parts, separator) + separator + part
  {
    assert (parts + [part])[..|parts|] == parts;
  }

  lemma {:induction false} BodyIsJoined(s: Runes)
    ensures Body(s) == Join(Escapes(s), [])
  {
    if s != [] {
      var n := |s| - 1;
      BodyIsJoined(s[..n]);
      assert Escapes(s) == Escapes(s[..n]) + [Escape(s[n])];
      JoinMore(Escapes(s[..n]), Escape(s[n]), []);
    }
  }

  lemma QuoteSpells(text: seq<byte>, s: Runes)
    ensures SpellsString(text, s) <==> text == Quote(s)
  {
    BodyIsJoined(s);
    assert Ascii("\"") == [QUOTE];
    var own := Escapes(s);
    forall i | 0 <= i < |s| ensures SpellsRune(own[i], s[i]) { EscapeSpells(own[i], s[i]); }
    if SpellsString(text, s) {
      var parts: seq<seq<byte>> :|
        && |parts| == |s| && (forall i :: 0 <= i < |s| ==> SpellsRune(parts[i], s[i]))
        && text == Ascii("\"") + Join(parts, []) + Ascii("\"");
      forall i | 0 <= i < |s| ensures parts[i] == own[i] { EscapeSpells(parts[i], s[i]); }
      assert parts == own;
    }
  }

  /** The first `n` items as the encoder writes them. */
  ghost function ItemTexts(t: Json, n: nat): (parts: seq<seq<byte>>)
    requires t.Array? && n <= |t.items|
    ensures |parts| == n
  {
    if n == 0 then [] else ItemTexts(t, n - 1) + [Write(t.items[n - 1])]
  }

  lemma {:induction false} ItemTextAt(t: Json, n: nat, i: nat)
    requires t.Array? && i < n <= |t.items|
    ensures ItemTexts(t, n)[i] == Write(t.items[i])
    decreases n
  {
    if i < n - 1 { ItemTextAt(t, n - 1, i); }
  }

  lemma {:induction false} ItemsAreJoined(t: Json, n: nat)
    requires t.Array? && n <= |t.items|
    ensures WriteItems(t, n) == [OPEN_ARRAY] + Join(ItemTexts(t, n), [COMMA])
  {
    if n > 0 {
      ItemsAreJoined(t, n - 1);
      JoinMore(ItemTexts(t, n - 1), Write(t.items[n - 1]), [COMMA]);
    }
  }

  ghost function MemberTexts(t: Json, keys: seq<Runes>, n: nat): (pairs: seq<seq<byte>>)
    requires Present(t, keys) && n <= |keys|
    ensures |pairs| == n
  {
    if n == 0 then [] else MemberTexts(t, keys, n - 1) + [WriteMember(t, keys[n - 1])]
  }

  lemma {:induction false} MemberTextAt(t: Json, keys: seq<Runes>, n: nat, i: nat)
    requires Present(t, keys) && i < n <= |keys|
    ensures MemberTexts(t, keys, n)[i] == WriteMember(t, keys[i])
    decreases n
  {
    if i < n - 1 { MemberTextAt(t, keys, n - 1, i); }
  }

  lemma {:induction false} MembersAreJoined(t: Json, keys: seq<Runes>, n: nat)
    requires Present(t, keys) && n <= |keys|
    ensures WriteMembers(t, keys, n) == [OPEN_OBJECT] + Join(MemberTexts(t, keys, n), [COMMA])
  {
    if n > 0 {
      var before, pair := MemberTexts(t, keys, n - 1), WriteMember(t, keys[n - 1]);
      MembersAreJoined(t, keys, n - 1);
      JoinMore(before, pair, [COMMA]);
      AppendPair(WriteMembers(t, keys, n - 1), Join(before, [COMMA]), Separator(n - 1), pair);
      if n == 1 { assert before == []; }
    }
  }

  lemma AppendPair(written: seq<byte>, joined: seq<byte>, separator: seq<byte>, pair: seq<byte>)
    requires written == [OPEN_OBJECT] + joined
    ensures written + separator + pair == [OPEN_OBJECT] + (joined + separator + pair)
  {
  }

  lemma Marks()
    ensures Ascii("[") == [OPEN_ARRAY] && Ascii("]") == [CLOSE_ARRAY] && Ascii(",") == [COMMA]
    ensures Ascii("{") == [OPEN_OBJECT] && Ascii("}") == [CLOSE_OBJECT] && Ascii(":") == [COLON]
    ensures Ascii("null") == NULL_WORD && Ascii("true") == TRUE_WORD && Ascii("false") == FALSE_WORD
  {
  }

  /** The text of an array, given the texts of its items. */
  lemma ArrayText(t: Json, parts: seq<seq<byte>>)
    requires t.Array? && |parts| == |t.items| && forall i :: 0 <= i < |parts| ==> parts[i] == Write(t.items[i])
    ensures Bracketed(parts) == Write(t)
  {
    Marks();
    ItemsAreJoined(t, |parts|);
    forall i | 0 <= i < |parts| ensures parts[i] == ItemTexts(t, |parts|)[i] { ItemTextAt(t, |parts|, i); }
    assert parts == ItemTexts(t, |parts|);
  }

  /** The texts of names and values are those the encoder writes. */
  ghost predicate Texts(t: Json, keys: seq<Runes>, names: seq<seq<byte>>, parts: seq<seq<byte>>) {
    && t.Object? && |names| == |keys| && |parts| == |keys|
    && forall i :: 0 <= i < |keys| ==>
         keys[i] in t.members && names[i] == Quote(keys[i]) && parts[i] == Write(t.members[keys[i]])
  }

  lemma PairsAreMembers(t: Json, keys: seq<Runes>, names: seq<seq<byte>>, parts: seq<seq<byte>>, i: nat)
    requires Texts(t, keys, names, parts) && i < |keys|
    ensures Pairs(names, parts)[i] == WriteMember(t, keys[i])
  {
    Marks();
  }

  /** The text of an object, given its keys in order and the texts of names and values. */
  lemma ObjectText(t: Json, keys: seq<Runes>, names: seq<seq<byte>>, parts: seq<seq<byte>>)
    requires Texts(t, keys, names, parts) && keys == Keys(t.members.Keys)
    ensures Braced(names, parts) == Write(t)
  {
    Marks();
    var pairs := Pairs(names, parts);
    MembersAreJoined(t, keys, |keys|);
    forall i | 0 <= i < |keys| ensures pairs[i] == MemberTexts(t, keys, |keys|)[i] {
      PairsAreMembers(t, keys, names, parts, i);
      MemberTextAt(t, keys, |keys|, i);
    }
    assert pairs == MemberTexts(t, keys, |keys|);
  }

  lemma KeysAreListed(keys: seq<Runes>, members: map<Runes, Json>)
    requires KeysInOrder(keys, members)
    ensures keys == Keys(members.Keys)
  {
    forall i, j | 0 <= i < j < |keys| ensures Before(keys[i], keys[j]) { KeyOrderMeaning(keys[i], keys[j]); }
    assert forall k :: k in keys ==> k in members;
    OrderIsUnique(keys, Keys(members.Keys));
  }

  lemma ListedKeys(members: map<Runes, Json>)
    ensures KeysInOrder(Keys(members.Keys), members)
  {
    var keys := Keys(members.Keys);
    forall i | 0 <= i < |keys| ensures keys[i] in members { assert keys[i] in keys; }
    forall i, j | 0 <= i < j < |keys| ensures Lexicographic(Utf16(keys[i]), Utf16(keys[j])) {
      KeyOrderMeaning(keys[i], keys[j]);
    }
  }

  lemma {:induction false} WrittenItemsSpell(t: Json)
    requires t.Array?
    ensures Spells(Write(t), t)
    decreases t, 0
  {
    var items := t.items;
    var parts := seq(|items|, i requires 0 <= i < |items| => Write(items[i]));
    forall i | 0 <= i < |items| ensures Spells(parts[i], items[i]) { WriteSpells(items[i]); }
    ArrayText(t, parts);
    assert ItemsSpelled(parts, t);
  }

  lemma {:induction false} TextsSpell(t: Json, keys: seq<Runes>, names: seq<seq<byte>>, parts: seq<seq<byte>>)
    requires Texts(t, keys, names, parts) && KeysInOrder(keys, t.members)
    ensures MembersSpelled(keys, names, parts, t)
    decreases t, 0
  {
    forall i | 0 <= i < |keys| ensures SpellsString(names[i], keys[i]) { QuoteSpells(names[i], keys[i]); }
    forall i | 0 <= i < |keys| ensures Spells(parts[i], t.members[keys[i]]) { WriteSpells(t.members[keys[i]]); }
  }

  lemma {:induction false} WrittenMembersSpell(t: Json)
    requires t.Object?
    ensures Spells(Write(t), t)
    decreases t, 1, 0
  {
    var keys := Keys(t.members.Keys);
    ListedKeys(t.members);
    var names, parts := TextsOf(t, keys);
    ObjectText(t, keys, names, parts);
    TextsSpell(t, keys, names, parts);
  }

  lemma TextsOf(t: Json, keys: seq<Runes>) returns (names: seq<seq<byte>>, parts: seq<seq<byte>>)
    requires t.Object? && KeysInOrder(keys, t.members)
    ensures Texts(t, keys, names, parts)
  {
    names := seq(|keys|, i requires 0 <= i < |keys| => Quote(keys[i]));
    parts := seq(|keys|, i requires 0 <= i < |keys| => Write(t.members[keys[i]]));
  }

  /** What the encoder writes spells its value. */
  lemma {:induction false} WriteSpells(t: Json)
    ensures Spells(Write(t), t)
    decreases t, 2
  {
    match t
    case Text(s) => QuoteSpells(Write(t), s);
    case Array(_) => WrittenItemsSpell(t);
    case Object(_) => WrittenMembersSpell(t);
    case _ => Marks();
  }

  lemma {:induction false} SpelledItems(t: Json, parts: seq<seq<byte>>)
    requires ItemsSpelled(parts, t)
    ensures Bracketed(parts) == Write(t)
    decreases t, 0
  {
    forall i | 0 <= i < |parts| ensures parts[i] == Write(t.items[i]) { SpelledIsWritten(parts[i], t.items[i]); }
    ArrayText(t, parts);
  }

  lemma {:induction false} SpelledMembers(t: Json, keys: seq<Runes>, names: seq<seq<byte>>, parts: seq<seq<byte>>)
    requires MembersSpelled(keys, names, parts, t)
    ensures Braced(names, parts) == Write(t)
    decreases t, 0
  {
    KeysAreListed(keys, t.members);
    forall i | 0 <= i < |keys|
      ensures keys[i] in t.members && names[i] == Quote(keys[i]) && parts[i] == Write(t.members[keys[i]])
    {
      QuoteSpells(names[i], keys[i]);
      SpelledIsWritten(parts[i], t.members[keys[i]]);
    }
    ObjectText(t, keys, names, parts);
  }

  /** ... and no other text does. */
  lemma {:induction false} SpelledIsWritten(text: seq<byte>, t: Json)
    requires Spells(text, t)
    ensures text == Write(t)
    decreases t, 1
  {
    match t
    case Text(s) => QuoteSpells(text, s);
    case Array(_) =>
      var parts :| ItemsSpelled(parts, t) && text == Bracketed(parts);
      SpelledItems(t, parts);
    case Object(_) =>
      var keys, names, parts :| MembersSpelled(keys, names, parts, t) && text == Braced(names, parts);
      SpelledMembers(t, keys, names, parts);
    case _ => Marks();
  }

  /** The canonical encoding of a value is the one text that spells it. */
  lemma CanonicalTextIsWritten(text: seq<byte>, t: Json)
    ensures Spells(text, t) <==> text == Write(t)
  {
    if Spells(text, t) { SpelledIsWritten(text, t); }
    WriteSpells(t);
  }

  /** Lower-case letters, digits and hyphens, at least one of them. */
  predicate IsToken(s: seq<byte>) {
    |s| > 0 && forall i :: 0 <= i < |s| ==>
      'a' as int <= s[i] <= 'z' as int || '0' as int <= s[i] <= '9' as int || s[i] == '-' as int
  }

  lemma DomainText()
    ensures Ascii("reploy:") == DOMAIN && Ascii(":") == [COLON]
  {
  }

  lemma TokenMeaning(s: seq<byte>)
    ensures Token(s) <==> IsToken(s)
  {
  }

  /** What is hashed, in characters: the kind and schema, a zero byte, and the text. */
  lemma PreimageMeaning(kind: seq<byte>, schema: seq<byte>, t: Json, text: seq<byte>)
    requires Spells(text, t)
    ensures Preimage(kind, schema, t)
         == if IsToken(kind) && IsToken(schema) then Some(Ascii("reploy:") + kind + Ascii(":") + schema + [0] + text)
            else None
  {
    SpelledIsWritten(text, t);
    DomainText();
    TokenMeaning(kind);
    TokenMeaning(schema);
  }
}
