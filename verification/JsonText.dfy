/** How json.dumps with ASCII escapes writes a text and how json.loads reads it back. A text is a
    sequence of code points, surrogates included, as a Python str is. */
module JsonText {
  import opened Wrappers

  type CodePoint = n: int | 0 <= n <= 0x10FFFF

  type Text = seq<CodePoint>

  /** ASCII output, one byte a character. */
  type Ascii = n: int | 0 <= n < 128

  type Json8 = seq<Ascii>

  type Unit = n: int | 0 <= n < 0x10000

  predicate IsHigh(c: CodePoint) { 0xD800 <= c <= 0xDBFF }

  predicate IsLow(c: CodePoint) { 0xDC00 <= c <= 0xDFFF }

  /* ---------------- four hexadecimal digits ---------------- */

  type Nibble = n: int | 0 <= n < 16

  function HexDigit(n: Nibble): Ascii { if n < 10 then 48 + n else 87 + n }

  function HexValue(c: Ascii): Option<Nibble> {
    if 48 <= c <= 57 then Some(c - 48)
    else if 97 <= c <= 102 then Some(c - 87)
    else if 65 <= c <= 70 then Some(c - 55)
    else None
  }

  function Hex(u: Unit): Json8 {
    [HexDigit(u / 4096), HexDigit(u / 256 % 16), HexDigit(u / 16 % 16), HexDigit(u % 16)]
  }

  function Unhex(s: Json8): Option<Unit>
    requires |s| == 4
  {
    var a, b, c, d := HexValue(s[0]), HexValue(s[1]), HexValue(s[2]), HexValue(s[3]);
    if a.None? || b.None? || c.None? || d.None? then None
    else Some(4096 * a.value + 256 * b.value + 16 * c.value + d.value)
  }

  lemma {:induction false} UnhexOfHex(u: Unit)
    ensures Unhex(Hex(u)) == Some(u)
  {
    DigitReads(u / 4096);
    DigitReads(u / 256 % 16);
    DigitReads(u / 16 % 16);
    DigitReads(u % 16);
    hide HexDigit, HexValue;
    FourNibbles(u);
    assert u == 4096 * (u / 4096) + 256 * (u / 256 % 16) + 16 * (u / 16 % 16) + u % 16;
  }

  lemma {:induction false} FourNibbles(u: Unit)
    ensures u == 4096 * (u / 4096) + 256 * (u / 256 % 16) + 16 * (u / 16 % 16) + u % 16
  {
    var a, b := u / 16, u / 256;
    assert b == a / 16 && u / 4096 == b / 16;
    assert u == 16 * a + u % 16 && a == 16 * b + a % 16 && b == 16 * (b / 16) + b % 16;
  }

  lemma {:induction false} DigitReads(n: Nibble)
    ensures HexValue(HexDigit(n)) == Some(n)
  {
  }

  /* ---------------- writing ---------------- */

  const BACKSLASH: Ascii := 92
  const QUOTE: Ascii := 34
  const U: Ascii := 117

  /** The code points written as a backslash and one letter, with that letter. */
  function ShortEscape(c: CodePoint): Option<Ascii> {
    if c == 34 || c == 92 then Some(c)
    else if c == 8 then Some(98)
    else if c == 12 then Some(102)
    else if c == 10 then Some(110)
    else if c == 13 then Some(114)
    else if c == 9 then Some(116)
    else None
  }

  function Long(u: Unit): Json8 { [BACKSLASH, U] + Hex(u) }

  function High(c: CodePoint): Unit
    requires c >= 0x10000
  {
    0xD800 + (c - 0x10000) / 1024
  }

  function Low(c: CodePoint): Unit
    requires c >= 0x10000
  {
    0xDC00 + c % 1024
  }

  function EscapePoint(c: CodePoint): Json8 {
    if ShortEscape(c).Some? then [BACKSLASH, ShortEscape(c).value]
    else if 32 <= c <= 126 then [c]
    else if c < 0x10000 then Long(c)
    else Long(High(c)) + Long(Low(c))
  }

  function Escape(t: Text): Json8 {
    if t == [] then [] else EscapePoint(t[0]) + Escape(t[1..])
  }

  /** Six bytes at most for a code point of the basic plane, twelve for any. */
  lemma {:induction false} EscapeSize(t: Text)
    ensures |Escape(t)| <= 12 * |t|
    ensures (forall i :: 0 <= i < |t| ==> t[i] < 0x10000) ==> |Escape(t)| <= 6 * |t|
  {
    if t != [] {
      EscapeSize(t[1..]);
    }
  }

  /** The bound of twelve is reached. */
  lemma {:induction false} EscapeSizeIsTight(t: Text)
    requires forall i :: 0 <= i < |t| ==> t[i] >= 0x10000
    ensures |Escape(t)| == 12 * |t|
  {
    if t != [] {
      EscapeSizeIsTight(t[1..]);
    }
  }

  /* ---------------- reading ---------------- */

  function LongAt(s: Json8): Option<Unit> {
    if |s| >= 6 && s[0] == BACKSLASH && s[1] == U then Unhex(s[2..6]) else None
  }

  function ShortRead(c: Ascii): Option<CodePoint> {
    if c == 34 || c == 92 || c == 47 then Some(c)
    else if c == 98 then Some(8)
    else if c == 102 then Some(12)
    else if c == 110 then Some(10)
    else if c == 114 then Some(13)
    else if c == 116 then Some(9)
    else None
  }

  function Combined(h: Unit, l: Unit): CodePoint
    requires IsHigh(h) && IsLow(l)
  {
    0x10000 + 1024 * (h - 0xD800) + (l - 0xDC00)
  }

  /** The characters between the quotes of a string, read as json.loads does. */
  function Unescape(s: Json8): Result<Text> {
    if s == [] then Ok([])
    else if s[0] == QUOTE || s[0] < 32 then Err
    else if s[0] != BACKSLASH then
      var rest :- Unescape(s[1..]);
      Ok([s[0]] + rest)
    else if |s| < 2 then Err
    else if s[1] != U then
      if ShortRead(s[1]).None? then Err
      else
        var rest :- Unescape(s[2..]);
        Ok([ShortRead(s[1]).value] + rest)
    else if LongAt(s).None? then Err
    else
      var h := LongAt(s).value;
      var l := LongAt(s[6..]);
      if IsHigh(h) && l.Some? && IsLow(l.value) then
        var rest :- Unescape(s[12..]);
        Ok([Combined(h, l.value)] + rest)
      else
        var rest :- Unescape(s[6..]);
        Ok([h] + rest)
  }

  /** A text whose adjacent surrogate halves are put together. */
  function Joined(t: Text): Text {
    if |t| < 2 then t
    else if IsHigh(t[0]) && IsLow(t[1]) then [Combined(t[0], t[1])] + Joined(t[2..])
    else [t[0]] + Joined(t[1..])
  }

  /** No high surrogate stands directly before a low one: every text a JSON decoder returns. */
  predicate Whole(t: Text) {
    forall i :: 0 <= i < |t| - 1 ==> !(IsHigh(t[i]) && IsLow(t[i + 1]))
  }

  lemma {:induction false} LongReads(u: Unit, tail: Json8)
    ensures LongAt(Long(u) + tail) == Some(u)
    ensures (Long(u) + tail)[6..] == tail
  {
    hide Hex, Unhex;
    HexIsFour(u);
    assert (Long(u) + tail)[2..6] == Hex(u);
    UnhexOfHex(u);
  }

  lemma {:induction false} HexIsFour(u: Unit)
    ensures |Hex(u)| == 4
  {
  }

  /** The unit read next, if the next thing written is a long escape. */
  lemma {:induction false} NextUnit(t: Text)
    ensures LongAt(Escape(t)).Some? ==> t != []
    ensures LongAt(Escape(t)).Some? ==> LongAt(Escape(t)).value == if t[0] >= 0x10000 then High(t[0]) else t[0]
  {
    if t != [] {
      var c, rest := t[0], Escape(t[1..]);
      hide LongAt, EscapePoint, High;
      assert Escape(t) == EscapePoint(c) + rest;
      if ShortEscape(c).Some? || 32 <= c <= 126 {
        NoLong(c, rest);
      } else if c < 0x10000 {
        OneLong(c, rest);
      } else {
        TwoLongs(c, rest);
      }
    }
  }

  lemma {:induction false} OneLong(c: CodePoint, rest: Json8)
    requires c < 0x10000 && ShortEscape(c).None? && !(32 <= c <= 126)
    ensures LongAt(EscapePoint(c) + rest) == Some(c)
  {
    hide LongAt;
    LongReads(c, rest);
  }

  lemma {:induction false} TwoLongs(c: CodePoint, rest: Json8)
    requires c >= 0x10000 && ShortEscape(c).None?
    ensures LongAt(EscapePoint(c) + rest) == Some(High(c))
  {
    hide LongAt;
    LongReads(High(c), Long(Low(c)) + rest);
    assert EscapePoint(c) + rest == Long(High(c)) + (Long(Low(c)) + rest);
  }

  lemma {:induction false} NoLong(c: CodePoint, rest: Json8)
    requires ShortEscape(c).Some? || 32 <= c <= 126
    ensures LongAt(EscapePoint(c) + rest) == None
  {
  }

  /** Reading back what was written joins surrogate halves and changes nothing else. */
  lemma {:induction false} ReadBack(t: Text)
    ensures Unescape(Escape(t)) == Ok(Joined(t))
    decreases |t|
  {
    if t != [] {
      var c, rest := t[0], Escape(t[1..]);
      ReadBack(t[1..]);
      if ShortEscape(c).Some? || 32 <= c <= 126 {
        ShortReadBack(c, rest, Joined(t[1..]));
        JoinedPlain(t);
      } else if c >= 0x10000 {
        PairReadBack(c, rest, Joined(t[1..]));
        JoinedPlain(t);
      } else if IsHigh(c) && |t| >= 2 && IsLow(t[1]) {
        ReadBack(t[2..]);
        HalvesReadBack(t);
      } else {
        NextUnit(t[1..]);
        LongReadBack(c, rest, Joined(t[1..]));
        JoinedPlain(t);
      }
    }
  }

  lemma {:induction false} JoinedPlain(t: Text)
    requires t != [] && !(IsHigh(t[0]) && |t| >= 2 && IsLow(t[1]))
    ensures Joined(t) == [t[0]] + Joined(t[1..])
  {
  }

  lemma {:induction false} ShortReadBack(c: CodePoint, rest: Json8, t: Text)
    requires (ShortEscape(c).Some? || 32 <= c <= 126) && Unescape(rest) == Ok(t)
    ensures Unescape(EscapePoint(c) + rest) == Ok([c] + t)
  {
    var s := EscapePoint(c) + rest;
    if ShortEscape(c).Some? {
      assert s[2..] == rest;
    } else {
      assert s[1..] == rest;
    }
  }

  lemma {:induction false} LongReadBack(u: Unit, rest: Json8, t: Text)
    requires Unescape(rest) == Ok(t) && !(IsHigh(u) && LongAt(rest).Some? && IsLow(LongAt(rest).value))
    ensures Unescape(Long(u) + rest) == Ok([u] + t)
  {
    LongReads(u, rest);
    hide Hex, LongAt;
    HexIsFour(u);
  }

  lemma {:induction false} TwoReadBack(h: Unit, l: Unit, rest: Json8, t: Text)
    requires IsHigh(h) && IsLow(l) && Unescape(rest) == Ok(t)
    ensures Unescape(Long(h) + Long(l) + rest) == Ok([Combined(h, l)] + t)
  {
    var s := Long(h) + (Long(l) + rest);
    assert s == Long(h) + Long(l) + rest;
    LongReads(h, Long(l) + rest);
    LongReads(l, rest);
    hide Hex, LongAt;
    HexIsFour(h);
    HexIsFour(l);
    assert s[12..] == rest;
  }

  lemma {:induction false} PairReadBack(c: CodePoint, rest: Json8, t: Text)
    requires c >= 0x10000 && Unescape(rest) == Ok(t)
    ensures Unescape(EscapePoint(c) + rest) == Ok([c] + t)
  {
    hide Unescape, Long;
    TwoReadBack(High(c), Low(c), rest, t);
    assert Combined(High(c), Low(c)) == c;
  }

  lemma {:induction false} HalvesReadBack(t: Text)
    requires |t| >= 2 && IsHigh(t[0]) && IsLow(t[1]) && Unescape(Escape(t[2..])) == Ok(Joined(t[2..]))
    ensures Unescape(Escape(t)) == Ok(Joined(t))
  {
    hide Unescape, Long;
    assert t[1..][1..] == t[2..] && t[1..][0] == t[1];
    assert Escape(t) == Long(t[0]) + (Long(t[1]) + Escape(t[2..])) == Long(t[0]) + Long(t[1]) + Escape(t[2..]);
    TwoReadBack(t[0], t[1], Escape(t[2..]), Joined(t[2..]));
  }

  lemma {:induction false} JoinedIsShorter(t: Text)
    ensures |Joined(t)| <= |t|
    ensures Joined(t) == t <==> Whole(t)
    ensures !Whole(t) ==> |Joined(t)| < |t|
    decreases |t|
  {
    if |t| < 2 {
    } else if IsHigh(t[0]) && IsLow(t[1]) {
      JoinedIsShorter(t[2..]);
      assert !Whole(t);
    } else {
      JoinedIsShorter(t[1..]);
      assert t == [t[0]] + t[1..];
      assert Whole(t) <==> Whole(t[1..]) by {
        assert forall i :: 0 < i < |t| - 1 ==> t[i] == t[1..][i - 1] && t[i + 1] == t[1..][i];
        if Whole(t[1..]) {
          forall i | 0 <= i < |t| - 1 ensures !(IsHigh(t[i]) && IsLow(t[i + 1])) {
            assert i > 0 ==> t[i] == t[1..][i - 1] && t[i + 1] == t[1..][i];
          }
        }
      }
    }
  }

  /** A text survives the way through JSON exactly when it is whole. */
  lemma {:induction false} RoundTripIffWhole(t: Text)
    ensures Unescape(Escape(t)) == Ok(t) <==> Whole(t)
  {
    ReadBack(t);
    JoinedIsShorter(t);
  }
}
