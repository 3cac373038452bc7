/** The DER reader of scripts/export-rsa-jwk.py: definite lengths of X.690, section 8.1.3, and
    the integers of a private key, appendix A.1.2 of RFC 8017. */
module Der {
  import opened Wrappers
  import opened Octets

  const SEQUENCE: Byte := 0x30
  const INTEGER: Byte := 0x02

  /* ---------------- the reader ---------------- */

  /** data[from:to] in Python: a bound past the end silently shortens the slice. */
  function Slice(data: Bytes, from: nat, to: nat): Bytes
    requires from <= to
  {
    var hi := if to < |data| then to else |data|;
    if from < hi then data[from..hi] else []
  }

  /** A length, or the offset behind a field that was read. */
  datatype Span<+T> = Span(value: T, end: nat)

  /** read_length */
  function ReadLength(data: Bytes, offset: nat): (r: Result<Span<nat>>)
    ensures r.Ok? ==> offset + 1 <= r.value.end <= offset + 5
  {
    if offset >= |data| then Err
    else
      var first := data[offset];
      if first < 0x80 then Ok(Span(first, offset + 1))
      else
        var count := first % 128;
        if count == 0 || count > 4 then Err
        else Ok(Span(Value(Slice(data, offset + 1, offset + 1 + count)), offset + 1 + count))
  }

  /** read_value */
  function ReadValue(data: Bytes, offset: nat, tag: Byte): (r: Result<Span<Bytes>>)
    ensures r.Ok? ==> offset + 2 <= r.value.end <= |data|
  {
    if offset >= |data| || data[offset] != tag then Err
    else
      var length :- ReadLength(data, offset + 1);
      var end := length.end + length.value;
      if end > |data| then Err else Ok(Span(data[length.end..end], end))
  }

  /** The integers from an offset to the end. */
  function ReadIntegers(sequence: Bytes, offset: nat): Result<seq<nat>>
    requires offset <= |sequence|
    decreases |sequence| - offset
  {
    if offset == |sequence| then Ok([])
    else
      var encoded :- ReadValue(sequence, offset, INTEGER);
      var rest :- ReadIntegers(sequence, encoded.end);
      Ok([Value(encoded.value)] + rest)
  }

  /** read_rsa_private_key on the bytes openssl prints */
  function ReadKey(data: Bytes): Result<seq<nat>> {
    var sequence :- ReadValue(data, 0, SEQUENCE);
    if sequence.end != |data| then Err
    else
      var values :- ReadIntegers(sequence.value, 0);
      if |values| != 9 || values[0] !in {0, 1} then Err else Ok(values[1..])
  }

  /** The loop as written. */
  method ReadRsaPrivateKey(data: Bytes) returns (r: Result<seq<nat>>)
    ensures r == ReadKey(data)
  {
    var outer := ReadValue(data, 0, SEQUENCE);
    if outer.Err? || outer.value.end != |data| {
      return Err;
    }
    var sequence := outer.value.value;
    var values: seq<nat>, offset := [], 0;
    assert ReadIntegers(sequence, 0).Ok? ==> [] + ReadIntegers(sequence, 0).value == ReadIntegers(sequence, 0).value;
    while offset < |sequence|
      invariant 0 <= offset <= |sequence|
      invariant ReadIntegers(sequence, 0) == Prepend(values, ReadIntegers(sequence, offset))
    {
      var encoded := ReadValue(sequence, offset, INTEGER);
      if encoded.Err? {
        return Err;
      }
      PrependStep(values, Value(encoded.value.value), ReadIntegers(sequence, encoded.value.end));
      values := values + [Value(encoded.value.value)];
      offset := encoded.value.end;
    }
    assert values + [] == values;
    if |values| != 9 || values[0] !in {0, 1} {
      return Err;
    }
    return Ok(values[1..]);
  }

  function Prepend(done: seq<nat>, rest: Result<seq<nat>>): Result<seq<nat>> {
    if rest.Ok? then Ok(done + rest.value) else Err
  }

  lemma {:induction false} PrependStep(done: seq<nat>, x: nat, rest: Result<seq<nat>>)
    ensures Prepend(done, Prepend([x], rest)) == Prepend(done + [x], rest)
  {
    if rest.Ok? {
      assert done + ([x] + rest.value) == done + [x] + rest.value;
    }
  }

  /* ---------------- what an accepted input looks like ---------------- */

  /** Although the slice shortens silently, a length field that runs past the end is never
      accepted: all its octets are there, and so is the whole value. */
  lemma {:induction false} NothingIsTruncated(data: Bytes, offset: nat, tag: Byte)
    requires ReadValue(data, offset, tag).Ok?
    ensures ReadLength(data, offset + 1).Ok?
    ensures var length := ReadLength(data, offset + 1).value;
      && offset + 2 <= length.end <= length.end + length.value == ReadValue(data, offset, tag).value.end <= |data|
      && ReadValue(data, offset, tag).value.value == data[length.end..length.end + length.value]
      && (data[offset + 1] >= 0x80 ==> length.value == Value(data[offset + 2..length.end]))
  {
  }

  /** The element at an offset: tag, length field, contents. */
  predicate ElementAt(sequence: Bytes, from: nat, to: nat, x: nat) {
    && from + 2 <= to <= |sequence| && sequence[from] == INTEGER
    && ReadLength(sequence, from + 1).Ok?
    && var length := ReadLength(sequence, from + 1).value;
       length.end + length.value == to && x == Value(sequence[length.end..to])
  }

  /** cuts splits the bytes from offset on into one element per value. */
  predicate Tiles(sequence: Bytes, offset: nat, values: seq<nat>, cuts: seq<nat>) {
    && |cuts| == |values| + 1 && cuts[0] == offset && cuts[|values|] == |sequence|
    && forall i :: 0 <= i < |values| ==> ElementAt(sequence, cuts[i], cuts[i + 1], values[i])
  }

  /** Exactly the byte strings that an ascending chain of elements tiles are read, and the
      values are those of the tiles: offsets strictly increase and nothing is left over. */
  lemma {:induction false} ReadIsTiled(sequence: Bytes, offset: nat, values: seq<nat>)
    requires offset <= |sequence|
    ensures ReadIntegers(sequence, offset) == Ok(values) <==> exists cuts :: Tiles(sequence, offset, values, cuts)
    decreases |sequence| - offset
  {
    hide ElementAt, ReadValue;
    if ReadIntegers(sequence, offset) == Ok(values) {
      ReadGivesTiles(sequence, offset, values);
    }
    if exists cuts :: Tiles(sequence, offset, values, cuts) {
      var cuts :| Tiles(sequence, offset, values, cuts);
      TilesAreRead(sequence, offset, values, cuts);
    }
  }

  predicate ReadsAs(r: Result<Span<Bytes>>, to: nat, x: nat) {
    r.Ok? && r.value.end == to && Value(r.value.value) == x
  }

  lemma {:induction false} OneElement(sequence: Bytes, from: nat, to: nat, x: nat)
    ensures ElementAt(sequence, from, to, x) <==> ReadsAs(ReadValue(sequence, from, INTEGER), to, x)
  {
    hide ReadLength;
  }

  lemma {:induction false} ReadGivesTiles(sequence: Bytes, offset: nat, values: seq<nat>)
    requires offset <= |sequence| && ReadIntegers(sequence, offset) == Ok(values)
    ensures exists cuts :: Tiles(sequence, offset, values, cuts)
    decreases |sequence| - offset
  {
    hide ElementAt, ReadValue;
    if offset == |sequence| {
      assert Tiles(sequence, offset, values, [offset]);
    } else {
      var encoded := ReadValue(sequence, offset, INTEGER).value;
      OneElement(sequence, offset, encoded.end, values[0]);
      ReadGivesTiles(sequence, encoded.end, values[1..]);
      var cuts :| Tiles(sequence, encoded.end, values[1..], cuts);
      var all := [offset] + cuts;
      forall i | 0 <= i < |values| ensures ElementAt(sequence, all[i], all[i + 1], values[i]) {
        if i > 0 {
          assert values[i] == values[1..][i - 1] && all[i] == cuts[i - 1] && all[i + 1] == cuts[i];
        }
      }
      assert Tiles(sequence, offset, values, all);
    }
  }

  lemma {:induction false} TilesAreRead(sequence: Bytes, offset: nat, values: seq<nat>, cuts: seq<nat>)
    requires offset <= |sequence| && Tiles(sequence, offset, values, cuts)
    ensures ReadIntegers(sequence, offset) == Ok(values)
    decreases |values|
  {
    hide ElementAt, ReadValue;
    if values != [] {
      assert ElementAt(sequence, cuts[0], cuts[1], values[0]);
      OneElement(sequence, offset, cuts[1], values[0]);
      var rest := cuts[1..];
      forall i | 0 <= i < |values| - 1 ensures ElementAt(sequence, rest[i], rest[i + 1], values[1..][i]) {
        assert ElementAt(sequence, cuts[i + 1], cuts[i + 2], values[i + 1]);
      }
      TilesAreRead(sequence, cuts[1], values[1..], rest);
      assert values == [values[0]] + values[1..];
    }
  }

  /* ---------------- encoding ---------------- */

  /** The minimal definite form of a length; X.690 has none beyond 126 octets. */
  function EncodeLength(n: nat): Bytes
    requires n < Pow256(126)
  {
    LengthBounds(n, 126);
    if n < 128 then [n] else [128 + |Minimal(n)|] + Minimal(n)
  }

  /** Two's complement octets of a natural number, minimal as section 8.3 asks. */
  function Contents(n: nat): Bytes {
    if n == 0 then [0] else if Minimal(n)[0] >= 128 then [0] + Minimal(n) else Minimal(n)
  }

  function EncodeInteger(n: nat): Bytes
    requires |Contents(n)| < Pow256(126)
  {
    [INTEGER] + EncodeLength(|Contents(n)|) + Contents(n)
  }

  /** Every value has a length that can be written. */
  predicate Encodable(values: seq<nat>) {
    forall i :: 0 <= i < |values| ==> |Contents(values[i])| < Pow256(126)
  }

  function EncodeAll(values: seq<nat>): Bytes
    requires Encodable(values)
  {
    if values == [] then [] else EncodeInteger(values[0]) + EncodeAll(values[1..])
  }

  function EncodeKey(values: seq<nat>): Bytes
    requires Encodable(values) && |EncodeAll(values)| < Pow256(126)
  {
    [SEQUENCE] + EncodeLength(|EncodeAll(values)|) + EncodeAll(values)
  }

  lemma {:induction false} ValueOfContents(n: nat)
    ensures Value(Contents(n)) == n && Contents(n) != []
  {
    ValueOfMinimal(n);
    if n > 0 {
      ValueOfZeroFirst(Minimal(n));
    } else {
      assert Value([0]) == 0;
    }
  }

  /** A written length is read back exactly when it needs no more than four octets. */
  lemma {:induction false} LengthRoundTrip(before: Bytes, n: nat, after: Bytes)
    requires n < Pow256(126)
    ensures var r := ReadLength(before + EncodeLength(n) + after, |before|);
      if n < Pow256(4) then r == Ok(Span(n, |before| + |EncodeLength(n)|)) else r == Err
  {
    hide Value, Minimal, Pow256;
    LengthBounds(n, 126);
    LengthBounds(n, 4);
    var field := EncodeLength(n);
    var data := before + field + after;
    assert data[|before|] == field[0];
    if n < 128 {
      SmallFits(n);
    } else {
      NotEmpty(n);
      assert field[1..] == Minimal(n);
      assert |Minimal(n)| <= 4 ==> Slice(data, |before| + 1, |before| + 1 + |Minimal(n)|) == Minimal(n);
      ValueOfMinimal(n);
    }
  }

  lemma {:induction false} SmallFits(n: nat)
    ensures n < 256 ==> n < Pow256(4)
  {
    assert Pow256(4) == 256 * Pow256(3) && Pow256(3) == 256 * Pow256(2) && Pow256(2) == 256 * Pow256(1);
    assert Pow256(1) == 256 * Pow256(0);
  }

  lemma {:induction false} NotEmpty(n: nat)
    requires n > 0
    ensures |Minimal(n)| >= 1
  {
  }

  /** One written value is read back, whatever follows, exactly when its length fits. */
  lemma {:induction false} ValueRoundTrip(before: Bytes, tag: Byte, contents: Bytes, after: Bytes)
    requires |contents| < Pow256(126)
    ensures var field := [tag] + EncodeLength(|contents|) + contents;
      var r := ReadValue(before + field + after, |before|, tag);
      if |contents| < Pow256(4) then r == Ok(Span(contents, |before| + |field|)) else r == Err
  {
    var length := EncodeLength(|contents|);
    var data := before + ([tag] + length + contents) + after;
    assert data == before + [tag] + length + (contents + after);
    hide EncodeLength, Pow256, ReadLength;
    LengthRoundTrip(before + [tag], |contents|, contents + after);
    var start := |before| + 1 + |length|;
    assert data[start..start + |contents|] == contents;
  }

  /** Integers that were written are read back from where the first one starts. */
  lemma {:induction false} IntegersRoundTrip(before: Bytes, values: seq<nat>)
    requires Encodable(values) && |EncodeAll(values)| < Pow256(4)
    ensures ReadIntegers(before + EncodeAll(values), |before|) == Ok(values)
    decreases |values|
  {
    hide ReadIntegers, ReadValue, Pow256, EncodeInteger, Contents;
    if values == [] {
      assert before + EncodeAll(values) == before;
      ReadEnd(before);
    } else {
      var here, rest := EncodeInteger(values[0]), EncodeAll(values[1..]);
      assert EncodeAll(values) == here + rest;
      IntegersRoundTrip(before + here, values[1..]);
      ValueOfContents(values[0]);
      assert here == [INTEGER] + EncodeLength(|Contents(values[0])|) + Contents(values[0]) by {
        WrittenInteger(values[0]);
      }
      FirstInteger(before, here, Contents(values[0]), rest, values[1..]);
      assert before + (here + rest) == before + here + rest && values == [values[0]] + values[1..];
    }
  }

  lemma {:induction false} WrittenInteger(n: nat)
    requires |Contents(n)| < Pow256(126)
    ensures EncodeInteger(n) == [INTEGER] + EncodeLength(|Contents(n)|) + Contents(n)
  {
  }

  lemma {:induction false} FirstInteger(before: Bytes, here: Bytes, contents: Bytes, rest: Bytes, values: seq<nat>)
    requires |contents| < Pow256(4) && |contents| < Pow256(126)
    requires here == [INTEGER] + EncodeLength(|contents|) + contents
    requires ReadIntegers(before + here + rest, |before + here|) == Ok(values)
    ensures ReadIntegers(before + here + rest, |before|) == Ok([Value(contents)] + values)
  {
    hide *;
    var data := before + here + rest;
    ValueRoundTrip(before, INTEGER, contents, rest);
    ReadStep(data, |before|, contents, |before| + |here|);
  }

  lemma {:induction false} ReadEnd(sequence: Bytes)
    ensures ReadIntegers(sequence, |sequence|) == Ok([])
  {
  }

  lemma {:induction false} ReadStep(sequence: Bytes, offset: nat, contents: Bytes, end: nat)
    requires offset < end <= |sequence| && ReadValue(sequence, offset, INTEGER) == Ok(Span(contents, end))
    requires ReadIntegers(sequence, end).Ok?
    ensures ReadIntegers(sequence, offset) == Ok([Value(contents)] + ReadIntegers(sequence, end).value)
  {
    hide ReadValue, Value;
  }

  /** The reader inverts the encoding of a sequence of naturals exactly when there are nine, the
      first is a version 0 or 1, and the contents need a length of at most four octets; every
      other sequence is refused. */
  lemma {:induction false} KeyRoundTrip(values: seq<nat>)
    requires Encodable(values) && |EncodeAll(values)| < Pow256(126)
    ensures ReadKey(EncodeKey(values)) ==
      if |EncodeAll(values)| < Pow256(4) && |values| == 9 && values[0] in {0, 1} then Ok(values[1..]) else Err
  {
    hide Pow256, ReadValue, EncodeLength, EncodeAll, ReadIntegers;
    var contents, data := EncodeAll(values), EncodeKey(values);
    assert data == [SEQUENCE] + EncodeLength(|contents|) + contents && [] + data + [] == data;
    hide EncodeKey;
    ValueRoundTrip([], SEQUENCE, contents, []);
    if |contents| < Pow256(4) {
      IntegersRoundTrip([], values);
      assert [] + contents == contents;
    }
  }
}
