/**
 * The sample codec of the client (`float32ToPcm16` and `base64ToFloat32Array`).
 *
 * Samples are `real`: every value the client produces or consumes is a finite
 * float, and the division by 32768 on the decoding side is exact, so nothing of
 * the floating-point behaviour matters for the properties stated here. Typed
 * arrays use the host byte order, which is little-endian on every host the
 * client runs on; the model fixes it to little-endian.
 */
module Pcm {
  import opened Common

  const Int16Min: int := -32768
  const Int16Max: int := 32767

  /** Scale factor for negative samples (0x8000). */
  const NegativeScale: real := 32768.0
  /** Scale factor for non-negative samples (0x7fff). */
  const PositiveScale: real := 32767.0
  /** Divisor used when decoding (32768.0). */
  const DecodeDivisor: real := 32768.0

  predicate IsInt16(v: int) {
    Int16Min <= v <= Int16Max
  }

  predicate AllInt16(vs: seq<int>) {
    forall i :: 0 <= i < |vs| ==> IsInt16(vs[i])
  }

  /** `Math.max(-1, Math.min(1, x))`. */
  function Clamp(x: real): (c: real)
    ensures -1.0 <= c <= 1.0
    ensures -1.0 <= x <= 1.0 ==> c == x
    ensures x >= 1.0 ==> c == 1.0
    ensures x <= -1.0 ==> c == -1.0
  {
    if x > 1.0 then 1.0 else if x < -1.0 then -1.0 else x
  }

  /** Rounding toward zero: what storing a number into an `Int16Array` does to it. */
  function Trunc(x: real): (t: int)
    ensures 0.0 <= x ==> 0 <= t && t as real <= x < t as real + 1.0
    ensures x < 0.0 ==> t <= 0 && t as real - 1.0 < x <= t as real
  {
    if x < 0.0 then -((-x).Floor) else x.Floor
  }

  /**
   * One sample of `float32ToPcm16`: clamp to [-1, 1], then scale negative values
   * by 32768 and the others by 32767, truncating toward zero.
   */
  function SampleToPcm16(x: real): (v: int)
    ensures IsInt16(v)
    ensures x >= 1.0 ==> v == Int16Max
    ensures x <= -1.0 ==> v == Int16Min
    ensures x < 0.0 ==> v <= 0
    ensures x >= 0.0 ==> v >= 0
    ensures -1.0 <= x < 0.0 ==> v as real - 1.0 < x * NegativeScale <= v as real
    ensures 0.0 <= x <= 1.0 ==> v as real <= x * PositiveScale < v as real + 1.0
  {
    var s := Clamp(x);
    if s < 0.0 then Trunc(s * NegativeScale) else Trunc(s * PositiveScale)
  }

  /** The samples `float32ToPcm16` produces for a block, as a value. */
  function Pcm16Of(samples: seq<real>): seq<int> {
    seq(|samples|, i requires 0 <= i < |samples| => SampleToPcm16(samples[i]))
  }

  /** `float32ToPcm16`: fills a new `Int16Array` of the input's length. */
  method Float32ToPcm16(input: array<real>) returns (pcm16: array<int>)
    ensures pcm16.Length == input.Length
    ensures forall i :: 0 <= i < pcm16.Length ==> pcm16[i] == SampleToPcm16(input[i])
    ensures AllInt16(pcm16[..])
  {
    pcm16 := new int[input.Length];
    for i := 0 to input.Length
      invariant forall k :: 0 <= k < i ==> pcm16[k] == SampleToPcm16(input[k])
    {
      var s := Clamp(input[i]);
      pcm16[i] := if s < 0.0 then Trunc(s * NegativeScale) else Trunc(s * PositiveScale);
    }
  }

  /** Low byte of the 16-bit two's-complement pattern of `v`. */
  function LowByte(v: int): Byte {
    (v % 65536) % 256
  }

  /** High byte of the 16-bit two's-complement pattern of `v`. */
  function HighByte(v: int): Byte {
    (v % 65536) / 256
  }

  /** The signed value an `Int16Array` element reads from a little-endian byte pair. */
  function Int16FromBytes(lo: Byte, hi: Byte): (v: int)
    ensures IsInt16(v)
    ensures v < 0 <==> hi >= 128
  {
    if hi < 128 then hi * 256 + lo else hi * 256 + lo - 65536
  }

  /** Splitting an int16 into its two bytes and reading them back gives it again. */
  lemma Int16BytesRoundTrip(v: int)
    requires IsInt16(v)
    ensures Int16FromBytes(LowByte(v), HighByte(v)) == v
  {
    if v < 0 {
      assert v % 65536 == v + 65536;
    }
  }

  /** Every byte pair is the split of exactly the value read from it. */
  lemma BytesInt16RoundTrip(lo: Byte, hi: Byte)
    ensures LowByte(Int16FromBytes(lo, hi)) == lo
    ensures HighByte(Int16FromBytes(lo, hi)) == hi
  {
    var v := Int16FromBytes(lo, hi);
    assert v % 65536 == hi * 256 + lo;
  }

  /**
   * `new Uint8Array(pcm.buffer)`: the bytes of an int16 sequence, low byte first.
   */
  function SplitSamples(vs: seq<int>): (bytes: seq<Byte>)
    ensures |bytes| == 2 * |vs|
  {
    seq(2 * |vs|, k requires 0 <= k < 2 * |vs| =>
      if k % 2 == 0 then LowByte(vs[k / 2]) else HighByte(vs[k / 2]))
  }

  /** `new Int16Array(bytes.buffer)` on an even number of bytes. */
  function PairBytes(bytes: seq<Byte>): (vs: seq<int>)
    requires |bytes| % 2 == 0
    ensures 2 * |vs| == |bytes|
    ensures AllInt16(vs)
  {
    seq(|bytes| / 2, i requires 0 <= i < |bytes| / 2 => Int16FromBytes(bytes[2 * i], bytes[2 * i + 1]))
  }

  /** Splitting samples into bytes before sending and pairing them again on receipt is the identity. */
  lemma PairSplit(vs: seq<int>)
    requires AllInt16(vs)
    ensures PairBytes(SplitSamples(vs)) == vs
  {
    var bytes := SplitSamples(vs);
    forall i | 0 <= i < |vs|
      ensures PairBytes(bytes)[i] == vs[i]
    {
      assert bytes[2 * i] == LowByte(vs[i]) && bytes[2 * i + 1] == HighByte(vs[i]);
      Int16BytesRoundTrip(vs[i]);
    }
  }

  /** Pairing an even byte sequence and splitting it again is the identity. */
  lemma SplitPair(bytes: seq<Byte>)
    requires |bytes| % 2 == 0
    ensures SplitSamples(PairBytes(bytes)) == bytes
  {
    var vs := PairBytes(bytes);
    forall k | 0 <= k < |bytes|
      ensures SplitSamples(vs)[k] == bytes[k]
    {
      var i := k / 2;
      BytesInt16RoundTrip(bytes[2 * i], bytes[2 * i + 1]);
    }
  }

  /** The bytes of a binary string, one per character, as the copy loop stores them. */
  function Latin1Bytes(s: string): (bytes: seq<Byte>)
    ensures |bytes| == |s|
  {
    seq(|s|, i requires 0 <= i < |s| => Latin1(s[i]))
  }

  /**
   * `String.fromCharCode(...bytes)`: one character per byte, the form `btoa` takes;
   * reading it back byte by byte gives the same bytes.
   */
  function BinaryString(bytes: seq<Byte>): (s: string)
    ensures Latin1Bytes(s) == bytes
  {
    seq(|bytes|, i requires 0 <= i < |bytes| => bytes[i] as char)
  }

  /** `pcm16[i] / 32768.0`. */
  function Int16ToFloat(v: int): (x: real)
    ensures IsInt16(v) ==> -1.0 <= x < 1.0
    ensures x * DecodeDivisor == v as real
  {
    v as real / DecodeDivisor
  }

  function FloatsOf(vs: seq<int>): seq<real> {
    seq(|vs|, i requires 0 <= i < |vs| => Int16ToFloat(vs[i]))
  }

  /** Why `base64ToFloat32Array` throws. */
  datatype DecodeError =
    | InvalidBase64   // `atob` raises InvalidCharacterError
    | OddByteLength   // the `Int16Array` view raises RangeError

  /**
   * `base64ToFloat32Array`. `atob` is the browser's base64 decoder and is given as
   * a parameter: `None` stands for the exception it raises on malformed input.
   */
  method Base64ToFloat32Array(base64: string, atob: string -> Option<string>)
    returns (r: Result<array<real>, DecodeError>)
    ensures atob(base64).None? ==> r == Failure(InvalidBase64)
    ensures atob(base64).Some? && |atob(base64).value| % 2 == 1 ==> r == Failure(OddByteLength)
    ensures atob(base64).Some? && |atob(base64).value| % 2 == 0 ==>
      r.Success? && 2 * r.value.Length == |atob(base64).value| &&
      r.value[..] == FloatsOf(PairBytes(Latin1Bytes(atob(base64).value)))
  {
    var decoded := atob(base64);
    if decoded.None? {
      return Failure(InvalidBase64);
    }
    var binary := decoded.value;
    var bytes := new Byte[|binary|];
    for i := 0 to |binary|
      invariant forall k :: 0 <= k < i ==> bytes[k] == Latin1(binary[k])
    {
      bytes[i] := Latin1(binary[i]);
    }
    if bytes.Length % 2 == 1 {
      return Failure(OddByteLength);
    }
    assert bytes[..] == Latin1Bytes(binary);
    var n := bytes.Length / 2;
    var float32 := new real[n];
    for i := 0 to n
      modifies float32
      invariant forall k :: 0 <= k < i ==>
        float32[k] == Int16ToFloat(Int16FromBytes(bytes[2 * k], bytes[2 * k + 1]))
    {
      var sample := Int16FromBytes(bytes[2 * i], bytes[2 * i + 1]);
      float32[i] := sample as real / DecodeDivisor;
    }
    ghost var expected := FloatsOf(PairBytes(Latin1Bytes(binary)));
    assert forall k :: 0 <= k < n ==> float32[k] == expected[k];
    assert float32[..] == expected;
    r := Success(float32);
  }

  /**
   * A decoded sample fed back through the encoder: values at or below zero come back
   * unchanged, positive values come back one lower (the 32768/32767 asymmetry).
   */
  lemma DecodeEncodeSample(v: int)
    requires IsInt16(v)
    ensures SampleToPcm16(Int16ToFloat(v)) == if v <= 0 then v else v - 1
  {
    var x := Int16ToFloat(v);
    if v > 0 {
      assert x * PositiveScale == v as real - x;
    }
  }

  /** The same round trip on a whole block: never more than one step off. */
  lemma DecodeEncodeBlock(vs: seq<int>)
    requires AllInt16(vs)
    ensures |Pcm16Of(FloatsOf(vs))| == |vs|
    ensures forall i :: 0 <= i < |vs| ==>
      Pcm16Of(FloatsOf(vs))[i] == (if vs[i] <= 0 then vs[i] else vs[i] - 1)
    ensures forall i :: 0 <= i < |vs| ==> -1 <= vs[i] - Pcm16Of(FloatsOf(vs))[i] <= 1
  {
    forall i | 0 <= i < |vs|
      ensures Pcm16Of(FloatsOf(vs))[i] == (if vs[i] <= 0 then vs[i] else vs[i] - 1)
    {
      DecodeEncodeSample(vs[i]);
    }
  }
}
