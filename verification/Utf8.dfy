/**
  The strict UTF-8 decoder and the word mapper of zxcvbn_translit (_other/zxcvbn_translit.cpp),
  with the transliteration rows of ui/passcode_strength_translit.cpp, against the grammar of
  section 4 of RFC 3629. Bit masks and shifts of bytes are written as arithmetic.
 */
module Utf8 {
  import opened Wrappers
  import opened Words

  // ---------- RFC 3629 ----------

  /** Unicode scalar values: code points without the surrogates. */
  predicate IsScalar(point: int) {
    0 <= point <= 0x10FFFF && !(0xD800 <= point <= 0xDFFF)
  }

  /** The low six bits of a number, marked as a continuation octet, and the rest. */
  function Low(point: int): Byte { 0x80 + point % 0x40 }

  function High(point: int): int { point / 0x40 }

  /** Section 3: the octets of a scalar value. */
  function Encode(point: int): (s: Bytes)
    requires IsScalar(point)
    ensures 1 <= |s| <= 4
  {
    if point < 0x80 then [point]
    else if point < 0x800 then [0xC0 + High(point), Low(point)]
    else if point < 0x10000 then [0xE0 + High(High(point)), Low(High(point)), Low(point)]
    else [0xF0 + High(High(High(point))), Low(High(High(point))), Low(High(point)), Low(point)]
  }

  predicate Tail(b: Byte) { 0x80 <= b <= 0xBF }

  /** Section 4, production UTF8-char, on the octets at an offset: the length of the character there, if any. */
  function CharLength(t: Bytes, o: nat): (n: nat)
    ensures n <= 4 && (n > 0 ==> o + n <= |t|)
  {
    if o < |t| && t[o] <= 0x7F then 1
    else if o + 2 <= |t| && 0xC2 <= t[o] <= 0xDF && Tail(t[o + 1]) then 2
    else if o + 3 <= |t| && Tail(t[o + 2])
         && (|| (t[o] == 0xE0 && 0xA0 <= t[o + 1] <= 0xBF)
             || (0xE1 <= t[o] <= 0xEC && Tail(t[o + 1]))
             || (t[o] == 0xED && 0x80 <= t[o + 1] <= 0x9F)
             || (0xEE <= t[o] <= 0xEF && Tail(t[o + 1]))) then 3
    else if o + 4 <= |t| && Tail(t[o + 2]) && Tail(t[o + 3])
         && (|| (t[o] == 0xF0 && 0x90 <= t[o + 1] <= 0xBF)
             || (0xF1 <= t[o] <= 0xF3 && Tail(t[o + 1]))
             || (t[o] == 0xF4 && 0x80 <= t[o + 1] <= 0x8F)) then 4
    else 0
  }

  // ---------- the decoder ----------

  /** Length 0 means the bytes were rejected. */
  datatype Decoded = Decoded(point: int, length: nat)

  const REJECTED := Decoded(0, 0)

  /** Bytes past the end read as zero. */
  function ByteAt(text: Bytes, index: nat): Byte { if index < |text| then text[index] else 0 }

  /** The scalar value that the octets of one character spell. */
  function PointOf(s: Bytes): int
    requires 1 <= |s| <= 4
  {
    if |s| == 1 then s[0]
    else if |s| == 2 then Six(s[0] % 0x20, s[1])
    else if |s| == 3 then Six(Six(s[0] % 0x10, s[1]), s[2])
    else Six(Six(Six(s[0] % 0x08, s[1]), s[2]), s[3])
  }

  /** (point << 6) | (next & 0x3F) */
  function Six(point: int, next: int): int { point * 0x40 + next % 0x40 }

  function Reference(text: Bytes, from: nat): Decoded {
    var n := CharLength(text, from);
    if from >= |text| then Decoded(0, 1)
    else if n == 0 then REJECTED
    else Decoded(PointOf(text[from..from + n]), n)
  }

  /** Leading bits of a lead byte after the length marker, extended by the following bytes. */
  ghost function Spelled(text: Bytes, from: nat, length: nat, i: nat): int
    requires 1 <= i <= length <= 4 && from < |text|
  {
    var mask := if length == 2 then 0x20 else if length == 3 then 0x10 else 0x08;
    if i == 1 then text[from] % mask else Six(Spelled(text, from, length, i - 1), ByteAt(text, from + i - 1))
  }

  lemma SpelledPoint(text: Bytes, from: nat, length: nat)
    requires 2 <= length <= 4 && from + length <= |text|
    ensures Spelled(text, from, length, length) == PointOf(text[from..from + length])
  {
    assert Spelled(text, from, length, 2) == Six(Spelled(text, from, length, 1), text[from + 1]);
    if length >= 3 {
      assert Spelled(text, from, length, 3) == Six(Spelled(text, from, length, 2), text[from + 2]);
    }
    if length == 4 {
      assert Spelled(text, from, length, 4) == Six(Spelled(text, from, length, 3), text[from + 3]);
    }
  }

  /** The bytes after the leading one, up to position i, are continuation bytes. */
  ghost predicate Tails(text: Bytes, from: nat, i: nat) {
    from + i <= |text| && forall k :: from < k < from + i ==> Tail(text[k])
  }

  function Minimum(length: nat): int { if length == 2 then 0x80 else if length == 3 then 0x800 else 0x10000 }

  predicate Leads(first: Byte, length: nat) {
    || (length == 2 && 0xC2 <= first <= 0xDF)
    || (length == 3 && 0xE0 <= first <= 0xEF)
    || (length == 4 && 0xF0 <= first <= 0xF4)
  }

  /** The range checks after the loop accept exactly the second bytes that the grammar allows. */
  lemma ChecksAreGrammar(text: Bytes, from: nat, length: nat)
    requires from < |text| && Leads(text[from], length) && Tails(text, from, length)
    ensures var point := PointOf(text[from..from + length]);
            CharLength(text, from) == if point < Minimum(length) || !IsScalar(point) then 0 else length
  {
    var s := text[from..from + length];
    assert forall i :: 0 <= i < length ==> s[i] == text[from + i];
    assert Tail(text[from + 1]);
    if length == 3 {
      ThreeInRange(s[0], s[1], s[2]);
    } else if length == 4 {
      FourInRange(s[0], s[1], s[2], s[3]);
    }
  }

  lemma ThreeInRange(b0: Byte, b1: Byte, b2: Byte)
    requires Leads(b0, 3) && Tail(b1) && Tail(b2)
    ensures var point := Six(Six(b0 % 0x10, b1), b2);
            point >= 0x800 && IsScalar(point)
            <==> (b0 == 0xE0 ==> 0xA0 <= b1) && (b0 == 0xED ==> b1 <= 0x9F)
  {
  }

  lemma FourInRange(b0: Byte, b1: Byte, b2: Byte, b3: Byte)
    requires Leads(b0, 4) && Tail(b1) && Tail(b2) && Tail(b3)
    ensures var point := Six(Six(Six(b0 % 0x08, b1), b2), b3);
            point >= 0x10000 && IsScalar(point)
            <==> (b0 == 0xF0 ==> 0x90 <= b1) && (b0 == 0xF4 ==> b1 <= 0x8F)
  {
  }

  /** Without its continuation bytes a leading byte starts no character. */
  lemma NoTailNoChar(text: Bytes, from: nat, length: nat, i: nat)
    requires from < |text| && Leads(text[from], length) && 1 <= i < length
    requires !Tail(ByteAt(text, from + i))
    ensures CharLength(text, from) == 0
  {
  }

  method DecodeUtf8(text: Bytes, from: nat) returns (d: Decoded)
    ensures d == Reference(text, from)
  {
    var first := ByteAt(text, from);
    var length, minimum, point;
    if first < 0x80 {
      return Decoded(first, 1);
    } else if 0xC2 <= first <= 0xDF {
      length, minimum, point := 2, Minimum(2), first % 0x20;
    } else if 0xE0 <= first <= 0xEF {
      length, minimum, point := 3, Minimum(3), first % 0x10;
    } else if 0xF0 <= first <= 0xF4 {
      length, minimum, point := 4, Minimum(4), first % 0x08;
    } else {
      return REJECTED;
    }
    hide CharLength, PointOf, Minimum;
    var i := 1;
    while i != length
      invariant 1 <= i <= length && Tails(text, from, i)
      invariant point == Spelled(text, from, length, i)
    {
      var next := ByteAt(text, from + i);
      if next < 0x80 || next > 0xBF {
        NoTailNoChar(text, from, length, i);
        return REJECTED;
      }
      point := Six(point, next);
      i := i + 1;
    }
    SpelledPoint(text, from, length);
    ChecksAreGrammar(text, from, length);
    var surrogate := 0xD800 <= point <= 0xDFFF;
    if point < minimum || surrogate || point > 0x10FFFF {
      return REJECTED;
    }
    d := Decoded(point, length);
  }

  // ---------- decoding and encoding are inverse ----------

  lemma Digits(point: int)
    requires point >= 0
    ensures Six(High(point), Low(point)) == point && Tail(Low(point))
  {
  }

  lemma TwoDigits(point: int, next: Byte)
    requires Tail(next)
    ensures High(Six(point, next)) == point && Low(Six(point, next)) == next
  {
  }

  /** Two octets. */
  lemma EncodeTwo(point: int)
    requires 0x80 <= point < 0x800
    ensures var s := Encode(point); |s| == 2 && CharLength(s, 0) == 2 && PointOf(s) == point
  {
    Digits(point);
  }

  lemma ThreeOctets(a: Byte, b: Byte, c: Byte)
    requires Leads(a, 3) && Tail(b) && Tail(c)
    ensures var point := Six(Six(a % 0x10, b), c);
            PointOf([a, b, c]) == point && (CharLength([a, b, c], 0) == 3 <==> point >= 0x800 && IsScalar(point))
  {
    ThreeInRange(a, b, c);
    hide Six, IsScalar;
  }

  lemma FourOctets(a: Byte, b: Byte, c: Byte, d: Byte)
    requires Leads(a, 4) && Tail(b) && Tail(c) && Tail(d)
    ensures var point := Six(Six(Six(a % 0x08, b), c), d);
            && PointOf([a, b, c, d]) == point
            && (CharLength([a, b, c, d], 0) == 4 <==> point >= 0x10000 && IsScalar(point))
  {
    FourInRange(a, b, c, d);
    hide Six, IsScalar;
  }

  lemma EncodeThree(point: int)
    requires 0x800 <= point < 0x10000 && IsScalar(point)
    ensures var s := Encode(point); |s| == 3 && CharLength(s, 0) == 3 && PointOf(s) == point
  {
    var a: Byte := 0xE0 + High(High(point));
    Digits(point);
    Digits(High(point));
    assert Leads(a, 3) && a % 0x10 == High(High(point));
    ThreeOctets(a, Low(High(point)), Low(point));
    hide Six, High, Low, IsScalar, CharLength, PointOf;
  }

  lemma EncodeFour(point: int)
    requires 0x10000 <= point && IsScalar(point)
    ensures var s := Encode(point); |s| == 4 && CharLength(s, 0) == 4 && PointOf(s) == point
  {
    var h := High(High(High(point)));
    LeadOfFour(point);
    Digits(point);
    Digits(High(point));
    Digits(High(High(point)));
    hide Six, High, Low, CharLength, PointOf, Leads;
    FourOctets(0xF0 + h, Low(High(High(point))), Low(High(point)), Low(point));
  }

  lemma LeadOfFour(point: int)
    requires 0x10000 <= point <= 0x10FFFF
    ensures var h := High(High(High(point))); 0 <= h <= 4 && (0xF0 + h) % 0x08 == h && Leads(0xF0 + h, 4)
  {
  }

  /** Every scalar value is decoded from its encoding. */
  lemma EncodeThenDecode(point: int)
    requires IsScalar(point)
    ensures var s := Encode(point); CharLength(s, 0) == |s| && PointOf(s) == point
  {
    if point >= 0x10000 {
      EncodeFour(point);
    } else if point >= 0x800 {
      EncodeThree(point);
    } else if point >= 0x80 {
      EncodeTwo(point);
    }
  }

  /** Every character of the grammar is the encoding of the scalar value it decodes to. */
  lemma DecodeThenEncode(s: Bytes)
    requires 1 <= |s| <= 4 && CharLength(s, 0) == |s|
    ensures IsScalar(PointOf(s)) && Encode(PointOf(s)) == s
  {
    if |s| == 1 {
    } else if |s| == 2 {
      DecodedTwo(s);
    } else if |s| == 3 {
      DecodedThree(s);
    } else {
      DecodedFour(s);
    }
  }

  lemma DecodedTwo(s: Bytes)
    requires |s| == 2 && CharLength(s, 0) == 2
    ensures IsScalar(PointOf(s)) && Encode(PointOf(s)) == s
  {
    var a, b := s[0], s[1];
    assert s == [a, b] && 0xC2 <= a <= 0xDF && Tail(b) && PointOf(s) == Six(a % 0x20, b);
    TwoInRange(a, b);
    TwoDigits(a % 0x20, b);
    hide Six, High, Low, CharLength, PointOf;
  }

  lemma TwoInRange(a: Byte, b: Byte)
    requires 0xC2 <= a <= 0xDF && Tail(b)
    ensures 0x80 <= Six(a % 0x20, b) < 0x800 && 0xC0 + a % 0x20 == a
  {
  }

  lemma DecodedThree(s: Bytes)
    requires |s| == 3 && CharLength(s, 0) == 3
    ensures IsScalar(PointOf(s)) && Encode(PointOf(s)) == s
  {
    var p1 := Six(s[0] % 0x10, s[1]);
    assert s == [s[0], s[1], s[2]];
    ThreeOctets(s[0], s[1], s[2]);
    TwoDigits(s[0] % 0x10, s[1]);
    TwoDigits(p1, s[2]);
    assert Six(p1, s[2]) < 0x10000;
    assert 0xE0 + s[0] % 0x10 == s[0];
    hide Six, High, Low, IsScalar, CharLength, PointOf;
  }

  lemma DecodedFour(s: Bytes)
    requires |s| == 4 && CharLength(s, 0) == 4
    ensures IsScalar(PointOf(s)) && Encode(PointOf(s)) == s
  {
    FourParts(s);
    FourOctets(s[0], s[1], s[2], s[3]);
    hide Six, High, Low, CharLength, PointOf, Leads, Encode, IsScalar;
    EncodeBack(s[0] % 0x08, s[1], s[2], s[3]);
  }

  lemma EncodeBack(h: nat, b: Byte, c: Byte, d: Byte)
    requires h < 8 && Tail(b) && Tail(c) && Tail(d)
    requires var point := Six(Six(Six(h, b), c), d); point >= 0x10000 && IsScalar(point)
    ensures Encode(Six(Six(Six(h, b), c), d)) == [0xF0 + h, b, c, d]
  {
    hide Six, High, Low;
    TwoDigits(h, b);
    TwoDigits(Six(h, b), c);
    TwoDigits(Six(Six(h, b), c), d);
  }

  lemma FourParts(s: Bytes)
    requires |s| == 4 && CharLength(s, 0) == 4
    ensures s == [s[0], s[1], s[2], s[3]] && 0xF0 + s[0] % 0x08 == s[0]
    ensures Leads(s[0], 4) && Tail(s[1]) && Tail(s[2]) && Tail(s[3])
  {
  }

  // ---------- whole words ----------

  /** The scalar values of a word, if the whole word is a sequence of characters of the grammar. */
  function Points(word: Bytes): Option<seq<int>>
    decreases |word|
  {
    if |word| == 0 then Some([])
    else
      var n := CharLength(word, 0);
      if n == 0 then None
      else
        var rest :- Points(word[n..]);
        Some([PointOf(word[..n])] + rest)
  }

  predicate AllScalar(points: seq<int>) { forall i :: 0 <= i < |points| ==> IsScalar(points[i]) }

  function EncodeAll(points: seq<int>): Bytes
    requires AllScalar(points)
    decreases |points|
  {
    if |points| == 0 then [] else Encode(points[0]) + EncodeAll(points[1..])
  }

  lemma CharAtOffset(t: Bytes, o: nat)
    requires o <= |t|
    ensures CharLength(t, o) == CharLength(t[o..], 0)
  {
  }

  lemma CharInPrefix(s: Bytes, post: Bytes)
    requires 1 <= |s| <= 4
    ensures CharLength(s + post, 0) == |s| <==> CharLength(s, 0) == |s|
  {
  }

  lemma {:induction false} PointsEncode(word: Bytes, points: seq<int>)
    requires Points(word) == Some(points)
    ensures AllScalar(points) && word == EncodeAll(points)
    decreases |word|
  {
    if |word| > 0 {
      var n := CharLength(word, 0);
      var head, tail := word[..n], word[n..];
      assert word == head + tail;
      CharInPrefix(head, tail);
      DecodeThenEncode(head);
      assert points[1..] == Points(tail).value;
      PointsEncode(tail, points[1..]);
      assert points == [points[0]] + points[1..];
    }
  }

  lemma {:induction false} EncodingDecodes(points: seq<int>)
    requires AllScalar(points)
    ensures Points(EncodeAll(points)) == Some(points)
    decreases |points|
  {
    if |points| > 0 {
      var word, head, tail := EncodeAll(points), Encode(points[0]), EncodeAll(points[1..]);
      EncodeThenDecode(points[0]);
      CharInPrefix(head, tail);
      assert word[..|head|] == head && word[|head|..] == tail;
      EncodingDecodes(points[1..]);
      assert points == [points[0]] + points[1..];
    }
  }

  /** A word has these scalar values exactly when it is their encoding. */
  lemma PointsExactly(word: Bytes, points: seq<int>)
    ensures Points(word) == Some(points) <==> AllScalar(points) && word == EncodeAll(points)
  {
    hide Points, EncodeAll;
    if Points(word) == Some(points) { PointsEncode(word, points); }
    if AllScalar(points) && word == EncodeAll(points) { EncodingDecodes(points); }
  }

  // ---------- transliteration ----------

  const ROWS: seq<string> := [
    "a", "b", "v", "g", "d", "e", "zh", "z",
    "i", "y", "k", "l", "m", "n", "o", "p",
    "r", "s", "t", "u", "f", "kh", "ts", "ch",
    "sh", "sch", "", "y", "", "e", "yu", "ya",
    "e", "yo", "dj", "g", "ye", "dz", "i", "yi",
    "j", "lj", "nj", "c", "k", "i", "w", "dz"]

  function LowercaseCyrillic(point: int): int {
    if 0x0400 <= point <= 0x040F then point + 0x50
    else if 0x0410 <= point <= 0x042F then point + 0x20
    else if point == 0x0490 then 0x0491
    else point
  }

  function TransliterateCyrillic(lowercase: int): Option<string> {
    if 0x0430 <= lowercase < 0x0430 + |ROWS| then Some(ROWS[lowercase - 0x0430])
    else if lowercase == 0x0491 then Some("g")
    else None
  }

  /** What one code point contributes to the mapped word. */
  function MapPoint(point: int): Option<string> {
    if 0 <= point < 0x80 then Some([point as char]) else TransliterateCyrillic(LowercaseCyrillic(point))
  }

  function MapPoints(points: seq<int>): Option<string>
    decreases |points|
  {
    if |points| == 0 then Some("")
    else
      var first :- MapPoint(points[0]);
      var rest :- MapPoints(points[1..]);
      Some(first + rest)
  }

  /** Every ASCII character and every letter of U+0400 to U+045F, U+0490 and U+0491 maps, and nothing else does. */
  lemma MappedPoints(point: int)
    ensures MapPoint(point).Some? <==> 0 <= point < 0x80 || 0x0400 <= point <= 0x045F || 0x0490 <= point <= 0x0491
    ensures 0x0400 <= point <= 0x042F || point == 0x0490 ==> MapPoint(point) == MapPoint(LowercaseCyrillic(point))
  {
    assert |ROWS| == 48;
  }

  lemma {:induction false} MappedWords(points: seq<int>)
    ensures MapPoints(points).Some? <==> forall i :: 0 <= i < |points| ==> MapPoint(points[i]).Some?
    decreases |points|
  {
    if |points| > 0 {
      MappedWords(points[1..]);
      if forall i :: 0 <= i < |points| ==> MapPoint(points[i]).Some? {
        assert forall i :: 0 <= i < |points[1..]| ==> points[1..][i] == points[i + 1];
      } else if MapPoint(points[0]).Some? {
        var i :| 0 <= i < |points| && MapPoint(points[i]).None?;
        assert points[1..][i - 1] == points[i];
      }
    }
  }

  const MINIMUM_MAPPED_LENGTH := 2

  /** The mapped form of a word: all of it, or nothing. */
  function Mapped(word: Bytes): Option<string> {
    var points :- Points(word);
    MapPoints(points)
  }

  method MapWord(word: Bytes) returns (ok: bool, mapped: string)
    ensures ok <==> Mapped(word).Some? && |Mapped(word).value| >= MINIMUM_MAPPED_LENGTH
    ensures ok ==> mapped == Mapped(word).value
  {
    mapped := "";
    var from := 0;
    assert word[0..] == word;
    PrependNothing(Mapped(word));
    while from < |word|
      invariant from <= |word|
      invariant Mapped(word) == Prepend(mapped, Mapped(word[from..]))
    {
      ghost var rest := word[from..];
      var decoded := DecodeUtf8(word, from);
      CharAtOffset(word, from);
      if decoded.length == 0 {
        return false, mapped;
      }
      assert rest[..decoded.length] == word[from..from + decoded.length];
      assert rest[decoded.length..] == word[from + decoded.length..];
      FirstPoint(rest);
      from := from + decoded.length;
      if decoded.point < 0x80 {
        PrependTwice(mapped, [decoded.point as char], Mapped(word[from..]));
        mapped := mapped + [decoded.point as char];
        continue;
      }
      var latin := TransliterateCyrillic(LowercaseCyrillic(decoded.point));
      if latin.None? {
        return false, mapped;
      }
      PrependTwice(mapped, latin.value, Mapped(word[from..]));
      mapped := mapped + latin.value;
    }
    assert word[from..] == [];
    assert mapped + "" == mapped;
    ok := |mapped| >= MINIMUM_MAPPED_LENGTH;
  }

  ghost function Prepend(s: string, r: Option<string>): Option<string> {
    if r.None? then None else Some(s + r.value)
  }

  lemma PrependNothing(r: Option<string>)
    ensures Prepend("", r) == r
  {
    if r.Some? {
      assert "" + r.value == r.value;
    }
  }

  lemma PrependTwice(s: string, t: string, r: Option<string>)
    ensures Prepend(s, Prepend(t, r)) == Prepend(s + t, r)
  {
    if r.Some? {
      assert s + (t + r.value) == s + t + r.value;
    }
  }

  /** A word maps to what its first character maps to, followed by what the rest maps to. */
  lemma FirstPoint(word: Bytes)
    requires |word| > 0 && CharLength(word, 0) > 0
    ensures var n := CharLength(word, 0);
            var point := PointOf(word[..n]);
            && IsScalar(point)
            && Mapped(word) == (if MapPoint(point).None? then None
                                else Prepend(MapPoint(point).value, Mapped(word[n..])))
  {
    var n := CharLength(word, 0);
    assert word == word[..n] + word[n..];
    CharInPrefix(word[..n], word[n..]);
    DecodeThenEncode(word[..n]);
    var rest := Points(word[n..]);
    if rest.Some? {
      assert ([PointOf(word[..n])] + rest.value)[1..] == rest.value;
    }
  }

  /** A word maps exactly when it is the encoding of points that all map and whose images are long enough together. */
  lemma MappedExactly(word: Bytes, points: seq<int>)
    requires AllScalar(points) && word == EncodeAll(points)
    ensures Mapped(word).Some? <==> forall i :: 0 <= i < |points| ==> MapPoint(points[i]).Some?
    ensures Mapped(word) == MapPoints(points)
  {
    PointsExactly(word, points);
    MappedWords(points);
  }
}
