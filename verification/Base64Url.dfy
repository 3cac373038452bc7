/** base64url_uint of scripts/export-rsa-jwk.py and the decoder its test uses. */
module Base64Url {
  import opened Wrappers
  import opened Octets

  type Sextet = n: int | 0 <= n < 64

  /** The URL-safe alphabet of RFC 4648, section 5. */
  function Letter(k: Sextet): char {
    if k < 26 then 'A' + k as char
    else if k < 52 then 'a' + (k - 26) as char
    else if k < 62 then '0' + (k - 52) as char
    else if k == 62 then '-' else '_'
  }

  function Index(c: char): Option<Sextet> {
    if 'A' <= c <= 'Z' then Some((c - 'A') as int)
    else if 'a' <= c <= 'z' then Some((c - 'a') as int + 26)
    else if '0' <= c <= '9' then Some((c - '0') as int + 52)
    else if c == '-' then Some(62) else if c == '_' then Some(63) else None
  }

  lemma {:induction false} IndexOfLetter(k: Sextet)
    ensures Index(Letter(k)) == Some(k) && Letter(k) != '='
  {
  }

  /** Three octets as four letters. */
  function Quad(x: Byte, y: Byte, z: Byte): string {
    [Letter(x / 4), Letter(x % 4 * 16 + y / 16), Letter(y % 16 * 4 + z / 64), Letter(z % 64)]
  }

  /** base64.urlsafe_b64encode */
  function Encode(bs: Bytes): string {
    if bs == [] then ""
    else if |bs| == 1 then [Letter(bs[0] / 4), Letter(bs[0] % 4 * 16), '=', '=']
    else if |bs| == 2 then
      [Letter(bs[0] / 4), Letter(bs[0] % 4 * 16 + bs[1] / 16), Letter(bs[1] % 16 * 4), '=']
    else Quad(bs[0], bs[1], bs[2]) + Encode(bs[3..])
  }

  /** rstrip("=") */
  function Strip(s: string): string {
    if s != "" && s[|s| - 1] == '=' then Strip(s[..|s| - 1]) else s
  }

  /** "=" * (-len % 4) */
  function Padding(n: nat): string {
    if n % 4 == 0 then "" else if n % 4 == 1 then "===" else if n % 4 == 2 then "==" else "="
  }

  /** urlsafe_b64decode on padded letters; a lone last letter is refused. */
  function Decode(s: string): Result<Bytes> {
    if s == "" then Ok([])
    else if |s| < 4 then Err
    else
      var a, b, c, d := Index(s[0]), Index(s[1]), Index(s[2]), Index(s[3]);
      if a.None? || b.None? then Err
      else if |s| == 4 && s[2] == '=' && s[3] == '=' then Ok([a.value * 4 + b.value / 16])
      else if c.None? then Err
      else if |s| == 4 && s[3] == '=' then Ok([a.value * 4 + b.value / 16, b.value % 16 * 16 + c.value / 4])
      else if d.None? then Err
      else
        var rest :- Decode(s[4..]);
        Ok([a.value * 4 + b.value / 16, b.value % 16 * 16 + c.value / 4, c.value % 4 * 64 + d.value] + rest)
  }

  lemma {:induction false} DecodeOfEncode(bs: Bytes)
    ensures Decode(Encode(bs)) == Ok(bs)
  {
    hide Decode, Letter, Index, Quad;
    if |bs| == 0 {
      assert bs == [] && Decode("") == Ok([]) by { DecodeNothing(); }
    } else if |bs| == 1 {
      LastOne(bs[0]);
      assert bs == [bs[0]];
    } else if |bs| == 2 {
      LastTwo(bs[0], bs[1]);
      assert bs == [bs[0], bs[1]];
    } else {
      DecodeOfEncode(bs[3..]);
      Group(bs[0], bs[1], bs[2], Encode(bs[3..]), bs[3..]);
      assert bs == [bs[0], bs[1], bs[2]] + bs[3..];
    }
  }

  lemma {:induction false} DecodeNothing()
    ensures Decode("") == Ok([])
  {
  }

  lemma {:induction false} LastOne(x: Byte)
    ensures Decode(Encode([x])) == Ok([x])
  {
    hide Letter, Index;
    IndexOfLetter(x / 4);
    IndexOfLetter(x % 4 * 16);
  }

  lemma {:induction false} LastTwo(x: Byte, y: Byte)
    ensures Decode(Encode([x, y])) == Ok([x, y])
  {
    hide Letter, Index;
    IndexOfLetter(x / 4);
    IndexOfLetter(x % 4 * 16 + y / 16);
    IndexOfLetter(y % 16 * 4);
  }

  lemma {:induction false} Group(x: Byte, y: Byte, z: Byte, tail: string, rest: Bytes)
    requires Decode(tail) == Ok(rest)
    ensures Decode(Quad(x, y, z) + tail) == Ok([x, y, z] + rest)
  {
    hide Letter, Index, Decode;
    var a, b, c, d := x / 4, x % 4 * 16 + y / 16, y % 16 * 4 + z / 64, z % 64;
    IndexOfLetter(a);
    IndexOfLetter(b);
    IndexOfLetter(c);
    IndexOfLetter(d);
    var s := Quad(x, y, z) + tail;
    assert s[0] == Letter(a) && s[1] == Letter(b) && s[2] == Letter(c) && s[3] == Letter(d) && s[4..] == tail;
    DecodeGroup(s, a, b, c, d);
  }

  lemma {:induction false} DecodeGroup(s: string, a: Sextet, b: Sextet, c: Sextet, d: Sextet)
    requires |s| >= 4 && Index(s[0]) == Some(a) && Index(s[1]) == Some(b) && Index(s[2]) == Some(c)
    requires Index(s[3]) == Some(d)
    requires s[2] != '=' && s[3] != '=' && Decode(s[4..]).Ok?
    ensures Decode(s) == Ok([a * 4 + b / 16, b % 16 * 16 + c / 4, c % 4 * 64 + d] + Decode(s[4..]).value)
  {
    hide Index;
  }

  /* ---------------- padding ---------------- */

  predicate NoPad(s: string) { forall i :: 0 <= i < |s| ==> s[i] != '=' }

  /** Nothing but letters of the alphabet. */
  predicate Letters(s: string) { forall i :: 0 <= i < |s| ==> Index(s[i]).Some? }

  lemma {:induction false} LettersAreNoPad(s: string)
    requires Letters(s)
    ensures NoPad(s)
  {
    assert Index('=') == None;
  }

  lemma {:induction false} StripsAll(s: string, pads: string)
    requires NoPad(s) && forall i :: 0 <= i < |pads| ==> pads[i] == '='
    ensures Strip(s + pads) == s
  {
    if pads == "" {
      assert s + pads == s;
    } else {
      assert (s + pads)[..|s + pads| - 1] == s + pads[..|pads| - 1];
      StripsAll(s, pads[..|pads| - 1]);
    }
  }

  lemma {:induction false} QuadIsLetters(x: Byte, y: Byte, z: Byte)
    ensures |Quad(x, y, z)| == 4 && Letters(Quad(x, y, z))
  {
    hide Letter;
    IndexOfLetter(x / 4);
    IndexOfLetter(x % 4 * 16 + y / 16);
    IndexOfLetter(y % 16 * 4 + z / 64);
    IndexOfLetter(z % 64);
  }

  lemma {:induction false} ShortIsPadded(bs: Bytes) returns (s: string)
    requires |bs| < 3
    ensures Encode(bs) == s + Padding(|s|) && Letters(s) && |s| == (|bs| * 8 + 5) / 6
  {
    hide Letter;
    if |bs| == 0 {
      s := "";
    } else if |bs| == 1 {
      IndexOfLetter(bs[0] / 4);
      IndexOfLetter(bs[0] % 4 * 16);
      s := Encode(bs)[..2];
    } else {
      IndexOfLetter(bs[0] / 4);
      IndexOfLetter(bs[0] % 4 * 16 + bs[1] / 16);
      IndexOfLetter(bs[1] % 16 * 4);
      s := Encode(bs)[..3];
    }
  }

  lemma {:induction false} SamePadding(n: nat)
    ensures Padding(4 + n) == Padding(n)
  {
  }

  /** An encoding is letters and then the padding its length calls for. */
  lemma {:induction false} LettersThenPadding(bs: Bytes) returns (s: string)
    ensures Encode(bs) == s + Padding(|s|) && Letters(s) && |s| == (|bs| * 8 + 5) / 6
    decreases |bs|
  {
    hide Quad, Padding;
    if |bs| < 3 {
      s := ShortIsPadded(bs);
    } else {
      var rest := LettersThenPadding(bs[3..]);
      var quad := Quad(bs[0], bs[1], bs[2]);
      QuadIsLetters(bs[0], bs[1], bs[2]);
      SamePadding(|rest|);
      s := quad + rest;
      assert Encode(bs) == quad + Encode(bs[3..]) == quad + (rest + Padding(|rest|)) == s + Padding(|rest|);
    }
  }

  /* ---------------- integers ---------------- */

  /** value.to_bytes(max(1, (bit_length + 7) // 8), "big") */
  function ToBytes(n: nat): Bytes {
    if n == 0 then [0] else Minimal(n)
  }

  /** base64url_uint */
  function EncodeUint(n: nat): string { Strip(Encode(ToBytes(n))) }

  /** decode_uint of tests/test_jwk_export.py */
  function DecodeUint(s: string): Result<nat> {
    var bs :- Decode(s + Padding(|s|));
    Ok(Value(bs))
  }

  /** The test's decoder inverts the encoder on every natural number. The output has no padding;
      it encodes the shortest octet string that holds the number, one octet for zero. */
  lemma {:induction false} UintRoundTrip(n: nat)
    ensures DecodeUint(EncodeUint(n)) == Ok(n)
    ensures Letters(EncodeUint(n)) && NoPad(EncodeUint(n))
    ensures Decode(EncodeUint(n) + Padding(|EncodeUint(n)|)) == Ok(ToBytes(n))
    ensures |ToBytes(n)| == if (BitLength(n) + 7) / 8 > 1 then (BitLength(n) + 7) / 8 else 1
    ensures forall bs: Bytes :: Value(bs) == n && bs != [] ==> |ToBytes(n)| <= |bs|
  {
    var bs := ToBytes(n);
    var s := LettersThenPadding(bs);
    LettersAreNoPad(s);
    StripsAll(s, Padding(|s|));
    DecodeOfEncode(bs);
    ValueOfMinimal(n);
    SizeIsMinimal(n);
    forall other: Bytes | Value(other) == n && other != [] ensures |bs| <= |other| {
      MinimalIsShortest(n, other);
    }
    assert n == 0 ==> Value([0]) == 0;
  }

  /** Zero reads AA, as section 2 of RFC 7518 asks. */
  lemma {:induction false} ZeroIsAA()
    ensures EncodeUint(0) == "AA"
  {
    assert Encode([0]) == "AA" + "==";
    StripsAll("AA", "==");
  }
}
