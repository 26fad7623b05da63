/**
  The byte format under the V9 records: little-endian base-128 integers, length-prefixed
  sequences, optional values and fixed arrays. Every decoder returns the value and the rest
  of the input, or None.
 */
module Postcard {
  import opened Records
  import opened Sizes

  type bytes = seq<byte>
  type Decoder<!T> = bytes -> Option<(T, bytes)>

  // ----- integers -----

  function EncodeVarint(n: nat): (b: bytes)
    ensures |b| == VarintSize(n) && |b| > 0
  {
    if n < 0x80 then [n] else [0x80 + n % 0x80] + EncodeVarint(n / 0x80)
  }

  /** At most `left` bytes, the last of which may not exceed `top`. Longer forms of a small
      number are accepted. */
  function DecodeVarint(b: bytes, left: nat, top: nat): Option<(nat, bytes)>
    decreases left
  {
    if left == 0 || b == [] then None
    else if b[0] < 0x80 then
      if left == 1 && b[0] > top then None else Some((b[0], b[1..]))
    else
      match DecodeVarint(b[1..], left - 1, top)
      case None => None
      case Some((n, rest)) => Some((b[0] - 0x80 + 0x80 * n, rest))
  }

  /** What `left` bytes can hold when the last is at most `top`. */
  function Capacity(left: nat, top: nat): nat
    requires left > 0
  {
    if left == 1 then top + 1 else 0x80 * Capacity(left - 1, top)
  }

  lemma {:induction false} VarintRoundTrip(n: nat, rest: bytes, left: nat, top: nat)
    requires left > 0 && top < 0x80 && n < Capacity(left, top)
    ensures DecodeVarint(EncodeVarint(n) + rest, left, top) == Some((n, rest))
    decreases left
  {
    var b := EncodeVarint(n) + rest;
    if n < 0x80 {
      assert b[1..] == rest;
    } else {
      VarintRoundTrip(n / 0x80, rest, left - 1, top);
      assert b[1..] == EncodeVarint(n / 0x80) + rest;
    }
  }

  function DecodeU64(b: bytes): Option<(nat, bytes)> { DecodeVarint(b, 10, 1) }
  function DecodeU32(b: bytes): Option<(nat, bytes)> { DecodeVarint(b, 5, 15) }
  function DecodeU16(b: bytes): Option<(nat, bytes)> { DecodeVarint(b, 3, 3) }

  lemma Capacities()
    ensures Capacity(10, 1) == U64_MAX + 1 && Capacity(5, 15) == 0x1_0000_0000 && Capacity(3, 3) == 0x1_0000
  {
    assert Capacity(4, 1) == 0x40_0000;
    assert Capacity(7, 1) == 0x20_0000 * 0x40_0000;
    assert Capacity(10, 1) == 0x20_0000 * Capacity(7, 1);
    assert Capacity(3, 15) == 0x4_0000;
    assert Capacity(5, 15) == 0x4000 * Capacity(3, 15);
  }

  lemma U64RoundTrip(n: nat, rest: bytes)
    requires n <= U64_MAX
    ensures DecodeU64(EncodeVarint(n) + rest) == Some((n, rest))
  {
    Capacities();
    VarintRoundTrip(n, rest, 10, 1);
  }

  lemma U32RoundTrip(n: nat, rest: bytes)
    requires n < 0x1_0000_0000
    ensures DecodeU32(EncodeVarint(n) + rest) == Some((n, rest))
  {
    Capacities();
    VarintRoundTrip(n, rest, 5, 15);
  }

  lemma U16RoundTrip(n: nat, rest: bytes)
    requires n < 0x1_0000
    ensures DecodeU16(EncodeVarint(n) + rest) == Some((n, rest))
  {
    Capacities();
    VarintRoundTrip(n, rest, 3, 3);
  }

  function DecodeU8(b: bytes): Option<(byte, bytes)> { if b == [] then None else Some((b[0], b[1..])) }

  function EncodeBool(v: bool): bytes { [if v then 1 else 0] }

  function DecodeBool(b: bytes): Option<(bool, bytes)> {
    if b == [] || b[0] > 1 then None else Some((b[0] == 1, b[1..]))
  }

  // ----- arrays, options and sequences -----

  function DecodeArray(n: nat, b: bytes): Option<(bytes, bytes)> {
    if |b| < n then None else Some((b[..n], b[n..]))
  }

  lemma ArrayRoundTrip(a: bytes, rest: bytes)
    ensures DecodeArray(|a|, a + rest) == Some((a, rest))
  {}

  function EncodeOption<T>(value: Option<T>, encode: T -> bytes): bytes {
    match value
    case None => [0]
    case Some(v) => [1] + encode(v)
  }

  function DecodeOption<T>(b: bytes, decode: Decoder<T>): Option<(Option<T>, bytes)> {
    if b == [] || b[0] > 1 then None
    else if b[0] == 0 then Some((None, b[1..]))
    else
      match decode(b[1..])
      case None => None
      case Some((v, rest)) => Some((Some(v), rest))
  }

  lemma OptionRoundTrip<T>(value: Option<T>, encode: T -> bytes, decode: Decoder<T>, rest: bytes)
    requires value.Some? ==> decode(encode(value.value) + rest) == Some((value.value, rest))
    ensures DecodeOption(EncodeOption(value, encode) + rest, decode) == Some((value, rest))
  {
    var b := EncodeOption(value, encode) + rest;
    match value {
      case None => assert b[1..] == rest;
      case Some(v) => assert b[1..] == encode(v) + rest;
    }
  }

  // ----- sequences -----

  function EncodeAll<T>(values: seq<T>, encode: T -> bytes): bytes {
    if values == [] then [] else encode(values[0]) + EncodeAll(values[1..], encode)
  }

  predicate IsId(b: bytes) { |b| == 16 }

  predicate AllIds(ids: seq<bytes>) { forall i :: 0 <= i < |ids| ==> IsId(ids[i]) }

  /** A fixed array is written as it is. */
  function Raw(b: bytes): bytes { b }

  function Ids(ids: seq<bytes>): bytes { EncodeAll(ids, Raw) }

  lemma {:induction false} IdsLength(ids: seq<bytes>)
    requires AllIds(ids)
    ensures |Ids(ids)| == 16 * |ids|
  {
    if ids != [] {
      assert IsId(ids[0]);
      IdsLength(ids[1..]);
    }
  }

  function EncodeVec<T>(values: seq<T>, encode: T -> bytes): bytes {
    EncodeVarint(|values|) + EncodeAll(values, encode)
  }

  function DecodeMany<T>(n: nat, b: bytes, decode: Decoder<T>): Option<(seq<T>, bytes)> {
    if n == 0 then Some(([], b))
    else
      match decode(b)
      case None => None
      case Some((v, rest)) =>
        match DecodeMany(n - 1, rest, decode)
        case None => None
        case Some((vs, rest')) => Some(([v] + vs, rest'))
  }

  /** A sequence that announces more than `limit` elements is refused before any is read. */
  function DecodeVec<T>(limit: nat, b: bytes, decode: Decoder<T>): Option<(seq<T>, bytes)> {
    match DecodeU64(b)
    case None => None
    case Some((n, rest)) => if n > limit then None else DecodeMany(n, rest, decode)
  }

  lemma {:induction false} ManyRoundTrip<T>(values: seq<T>, encode: T -> bytes, decode: Decoder<T>, rest: bytes)
    requires forall i, tail :: 0 <= i < |values| ==>
               decode(encode(values[i]) + tail) == Some((values[i], tail))
    ensures DecodeMany(|values|, EncodeAll(values, encode) + rest, decode) == Some((values, rest))
  {
    if values != [] {
      var tail := EncodeAll(values[1..], encode) + rest;
      assert EncodeAll(values, encode) + rest == encode(values[0]) + tail;
      forall i, t | 0 <= i < |values[1..]| ensures decode(encode(values[1..][i]) + t) == Some((values[1..][i], t)) {
        assert values[1..][i] == values[i + 1];
      }
      ManyRoundTrip(values[1..], encode, decode, rest);
      assert values == [values[0]] + values[1..];
    } else {
      assert EncodeAll(values, encode) + rest == rest;
    }
  }

  lemma VecRoundTrip<T>(values: seq<T>, encode: T -> bytes, decode: Decoder<T>, limit: nat, rest: bytes)
    requires |values| <= limit <= U64_MAX
    requires forall i, tail :: 0 <= i < |values| ==>
               decode(encode(values[i]) + tail) == Some((values[i], tail))
    ensures DecodeVec(limit, EncodeVec(values, encode) + rest, decode) == Some((values, rest))
  {
    var tail := EncodeAll(values, encode) + rest;
    assert EncodeVec(values, encode) + rest == EncodeVarint(|values|) + tail;
    U64RoundTrip(|values|, tail);
    ManyRoundTrip(values, encode, decode, rest);
  }

  /** The elements read so far, in front of the others. */
  function Prepend<T>(values: seq<T>, r: Option<(seq<T>, bytes)>): Option<(seq<T>, bytes)> {
    match r
    case None => None
    case Some((vs, rest)) => Some((values + vs, rest))
  }

  lemma PrependStep<T>(values: seq<T>, n: nat, b: bytes, decode: Decoder<T>, v: T, rest: bytes)
    requires n > 0 && decode(b) == Some((v, rest))
    ensures Prepend(values, DecodeMany(n, b, decode)) == Prepend(values + [v], DecodeMany(n - 1, rest, decode))
  {
    match DecodeMany(n - 1, rest, decode) {
      case None =>
      case Some((vs, _)) => assert values + ([v] + vs) == (values + [v]) + vs;
    }
  }

  /** The visitor that fills a bounded vector element by element. */
  method BoundedVec<T>(limit: nat, b: bytes, decode: Decoder<T>) returns (r: Option<(seq<T>, bytes)>)
    ensures r == DecodeVec(limit, b, decode)
  {
    var header := DecodeU64(b);
    if header == None { return None; }
    var n, rest := header.value.0, header.value.1;
    if n > limit { return None; }
    var values: seq<T> := [];
    ghost var all := DecodeMany(n, rest, decode);
    assert Prepend([], all) == all by {
      if all.Some? { assert [] + all.value.0 == all.value.0; }
    }
    while |values| < n
      invariant |values| <= n
      invariant all == Prepend(values, DecodeMany(n - |values|, rest, decode))
    {
      var element := decode(rest);
      if element.None? { return None; }
      PrependStep(values, n - |values|, rest, decode, element.value.0, element.value.1);
      values := values + [element.value.0];
      rest := element.value.1;
    }
    assert values + [] == values;
    return Some((values, rest));
  }

  // ----- byte strings and text -----

  function EncodeBytes(b: bytes): bytes { EncodeVarint(|b|) + b }

  function EncodeU8(v: byte): bytes { [v] }

  function DecodeBytes(limit: nat, b: bytes): Option<(bytes, bytes)> { DecodeVec(limit, b, DecodeU8) }

  lemma {:induction false} AllBytes(b: bytes)
    ensures EncodeAll(b, EncodeU8) == b
  {
    if b != [] {
      AllBytes(b[1..]);
    }
  }

  lemma BytesRoundTrip(value: bytes, limit: nat, rest: bytes)
    requires |value| <= limit <= U64_MAX
    ensures DecodeBytes(limit, EncodeBytes(value) + rest) == Some((value, rest))
  {
    AllBytes(value);
    forall i, tail | 0 <= i < |value| ensures DecodeU8(EncodeU8(value[i]) + tail) == Some((value[i], tail)) {
      assert (EncodeU8(value[i]) + tail)[1..] == tail;
    }
    VecRoundTrip(value, EncodeU8, DecodeU8, limit, rest);
  }

  /** Well-formed UTF-8: no overlong forms, no surrogates, nothing above U+10FFFF. */
  predicate IsUtf8(b: bytes) { IsUtf8From(b, 0) }

  predicate IsUtf8From(b: bytes, i: nat)
    decreases |b| - i
  {
    if i >= |b| then i == |b|
    else if b[i] < 0x80 then IsUtf8From(b, i + 1)
    else if 0xC2 <= b[i] <= 0xDF then Continues(b, i + 1) && IsUtf8From(b, i + 2)
    else if 0xE0 <= b[i] <= 0xEF then
      Continues(b, i + 1) && Continues(b, i + 2) && (b[i] == 0xE0 ==> b[i + 1] >= 0xA0)
      && (b[i] == 0xED ==> b[i + 1] < 0xA0) && IsUtf8From(b, i + 3)
    else if 0xF0 <= b[i] <= 0xF4 then
      Continues(b, i + 1) && Continues(b, i + 2) && Continues(b, i + 3) && (b[i] == 0xF0 ==> b[i + 1] >= 0x90)
      && (b[i] == 0xF4 ==> b[i + 1] < 0x90) && IsUtf8From(b, i + 4)
    else false
  }

  predicate Continues(b: bytes, i: nat) { i < |b| && 0x80 <= b[i] < 0xC0 }

  function TakeText(limit: nat, text: bytes, rest: bytes): Option<(bytes, bytes)> {
    if !IsUtf8(text) || |text| > limit then None else Some((text, rest))
  }

  /** Text is borrowed from the input as a whole, then checked. */
  function DecodeText(limit: nat, b: bytes): Option<(bytes, bytes)> {
    match DecodeU64(b)
    case None => None
    case Some((n, rest)) => if n > |rest| then None else TakeText(limit, rest[..n], rest[n..])
  }

  lemma TextRoundTrip(text: bytes, limit: nat, rest: bytes)
    requires |text| <= limit <= U64_MAX && IsUtf8(text)
    ensures DecodeText(limit, EncodeBytes(text) + rest) == Some((text, rest))
  {
    var tail := text + rest;
    assert EncodeBytes(text) + rest == EncodeVarint(|text|) + tail;
    U64RoundTrip(|text|, tail);
    assert tail[..|text|] == text && tail[|text|..] == rest;
    assert DecodeText(limit, EncodeVarint(|text|) + tail) == TakeText(limit, text, rest);
  }
}
