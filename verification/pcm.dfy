/**
 * The PCM codec of the live voice path: base64 text to 16-bit samples
 * scaled into [-1, 1) (`base64ToFloat32`), bytes to base64 text
 * (`arrayBufferToBase64`), and the capture quantiser `int16[i] = x * 32768`.
 *
 * Samples are the exact rationals k/32768; every such value is a float32.
 */
module Pcm {
  import opened Wrappers
  import opened Bytes
  import opened Base64

  /** An element of an `Int16Array`. */
  type Int16 = k: int | -32768 <= k < 32768

  /** The scale between an int16 sample and its float value: 2^15. */
  const Scale: real := 32768.0

  /** Why decoding a payload throws. */
  datatype CodecError =
    | MalformedBase64     // `atob` throws InvalidCharacterError
    | OddByteLength       // `new Int16Array(buffer)` throws RangeError on an odd byte length

  /** The int16 stored little-endian in the bytes `lo`, `hi`. */
  function FromLittleEndian(lo: Byte, hi: Byte): (k: Int16)
    ensures (k - (lo + 256 * hi)) % 65536 == 0
  {
    var u := lo + 256 * hi;
    if u < 32768 then u else u - 65536
  }

  /** The two bytes, low first, of an int16 in two's complement. */
  function ToLittleEndian(k: Int16): (b: seq<Byte>)
    ensures |b| == 2
    ensures FromLittleEndian(b[0], b[1]) == k
  {
    var u := k % 65536;
    [u % 256, u / 256]
  }

  /** Every byte pair is the encoding of the int16 it reads as. */
  lemma ToFromLittleEndian(lo: Byte, hi: Byte)
    ensures ToLittleEndian(FromLittleEndian(lo, hi)) == [lo, hi]
  {
    var u := lo + 256 * hi;
    assert FromLittleEndian(lo, hi) % 65536 == u;
    assert u % 256 == lo && u / 256 == hi;
  }

  /** `new Int16Array(bytes.buffer)` on a little-endian platform. */
  function Int16View(bytes: seq<Byte>): (r: Result<seq<Int16>, CodecError>)
    ensures r.Err? <==> |bytes| % 2 == 1
    ensures r.Ok? ==> |r.value| == |bytes| / 2
  {
    if |bytes| % 2 == 1 then Err(OddByteLength)
    else Ok(seq(|bytes| / 2, i requires 0 <= i < |bytes| / 2 => FromLittleEndian(bytes[2 * i], bytes[2 * i + 1])))
  }

  /** The buffer behind an `Int16Array`: two little-endian bytes per element. */
  function Int16Buffer(ks: seq<Int16>): (bytes: seq<Byte>)
    ensures |bytes| == 2 * |ks|
    ensures forall i | 0 <= i < |ks| :: FromLittleEndian(bytes[2 * i], bytes[2 * i + 1]) == ks[i]
  {
    if |ks| == 0 then [] else ToLittleEndian(ks[0]) + Int16Buffer(ks[1..])
  }

  /** Viewing the buffer of an `Int16Array` gives back its elements. */
  lemma ViewOfBuffer(ks: seq<Int16>)
    ensures Int16View(Int16Buffer(ks)) == Ok(ks)
  {
    var bytes := Int16Buffer(ks);
    assert |bytes| % 2 == 0 && |bytes| / 2 == |ks|;
    var v := Int16View(bytes).value;
    forall i | 0 <= i < |ks| ensures v[i] == ks[i] {
      assert v[i] == FromLittleEndian(bytes[2 * i], bytes[2 * i + 1]);
    }
    assert v == ks;
  }

  /** Dropping the first two bytes drops the first element of the view. */
  lemma ViewTail(bytes: seq<Byte>)
    requires |bytes| % 2 == 0 && |bytes| >= 2
    ensures Int16View(bytes).value[0] == FromLittleEndian(bytes[0], bytes[1])
    ensures Int16View(bytes[2..]).value == Int16View(bytes).value[1..]
  {
    var ks := Int16View(bytes).value;
    var rest := bytes[2..];
    var tail := Int16View(rest).value;
    forall i | 0 <= i < |tail| ensures tail[i] == ks[i + 1] {
      assert 2 * (i + 1) == 2 * i + 2;
    }
  }

  /** Every even-length buffer is the buffer of its own view. */
  lemma {:induction false} BufferOfView(bytes: seq<Byte>)
    requires |bytes| % 2 == 0
    ensures Int16View(bytes).Ok? && Int16Buffer(Int16View(bytes).value) == bytes
    decreases |bytes|
  {
    if |bytes| > 0 {
      var ks := Int16View(bytes).value;
      BufferOfView(bytes[2..]);
      ViewTail(bytes);
      ToFromLittleEndian(bytes[0], bytes[1]);
      assert ToLittleEndian(ks[0]) == bytes[..2];
      assert bytes == bytes[..2] + bytes[2..];
    }
  }

  /** The float value `k / 32768.0` of an int16 sample: always in [-1, 1). */
  function Sample(k: Int16): (x: real)
    ensures -1.0 <= x < 1.0
    ensures x * Scale == k as real
  {
    k as real / Scale
  }

  /**
   * `base64ToFloat32`: decode the base64 text, read the bytes as little-endian
   * int16 values and scale each by 1/32768.
   */
  function DecodePcm(base64: string): (r: Result<seq<real>, CodecError>)
    ensures r == Err(MalformedBase64) <==> Atob(base64).Err?
    ensures r == Err(OddByteLength) <==> Atob(base64).Ok? && |Atob(base64).value| % 2 == 1
    ensures r.Ok? ==> 2 * |r.value| == |Atob(base64).value|
    ensures r.Ok? ==> forall i | 0 <= i < |r.value| :: -1.0 <= r.value[i] < 1.0
    ensures r.Ok? ==> var b := CharCodes(Atob(base64).value);
              forall i | 0 <= i < |r.value| :: r.value[i] * Scale == FromLittleEndian(b[2 * i], b[2 * i + 1]) as real
  {
    match Atob(base64)
    case Err(_) => Err(MalformedBase64)
    case Ok(binary) =>
      match Int16View(CharCodes(binary))
      case Err(e) => Err(e)
      case Ok(ks) => Ok(Samples(ks))
  }

  /** The samples `k / 32768` of a sequence of int16 values. */
  function Samples(ks: seq<Int16>): (xs: seq<real>)
    ensures |xs| == |ks|
    ensures forall i | 0 <= i < |ks| :: xs[i] * Scale == ks[i] as real
    ensures forall i | 0 <= i < |ks| :: -1.0 <= xs[i] < 1.0
  {
    seq(|ks|, i requires 0 <= i < |ks| => Sample(ks[i]))
  }

  /** `arrayBufferToBase64`: one character per byte whose code is the byte, then `btoa`. */
  function EncodeBytes(bytes: seq<Byte>): (s: string)
    ensures Atob(s) == Ok(FromCharCodes(bytes))
    ensures |s| == 4 * ((|bytes| + 2) / 3)
  {
    var binary := FromCharCodes(bytes);
    AtobOfBtoa(binary);
    Btoa(binary).value
  }

  /** Base64 text made from an `Int16Array` decodes back to the samples of its elements. */
  lemma DecodeEncodedInt16(ks: seq<Int16>)
    ensures DecodePcm(EncodeBytes(Int16Buffer(ks))) == Ok(Samples(ks))
  {
    var bytes := Int16Buffer(ks);
    CharCodesOfFromCharCodes(bytes);
    ViewOfBuffer(ks);
  }

  /** The first loop of `base64ToFloat32`: `bytes[i] = binaryString.charCodeAt(i)`. */
  method CopyCharCodes(binary: string) returns (bytes: seq<Byte>)
    ensures bytes == CharCodes(binary)
  {
    bytes := [];
    var i := 0;
    while i < |binary|
      invariant 0 <= i <= |binary|
      invariant bytes == CharCodes(binary)[..i]
    {
      bytes := bytes + [(binary[i] as int) % 256];
      i := i + 1;
    }
  }

  /** The second loop of `base64ToFloat32`: `float32[i] = int16[i] / 32768.0`. */
  method ScaleSamples(ks: seq<Int16>) returns (float32: seq<real>)
    ensures float32 == Samples(ks)
  {
    float32 := [];
    var j := 0;
    while j < |ks|
      invariant 0 <= j <= |ks|
      invariant float32 == Samples(ks)[..j]
    {
      float32 := float32 + [ks[j] as real / 32768.0];
      j := j + 1;
    }
  }

  /**
   * `base64ToFloat32`: decode, copy the character codes into a byte array,
   * view it as int16 values (throwing on an odd length), and scale them.
   */
  method Base64ToFloat32(base64: string) returns (r: Result<seq<real>, CodecError>)
    ensures r == DecodePcm(base64)
  {
    var decoded := Atob(base64);
    if decoded.Err? {
      return Err(MalformedBase64);
    }
    var bytes := CopyCharCodes(decoded.value);
    var view := Int16View(bytes);
    if view.Err? {
      return Err(OddByteLength);
    }
    var float32 := ScaleSamples(view.value);
    return Ok(float32);
  }

  /**
   * The loop of `arrayBufferToBase64`: append `String.fromCharCode` of each
   * byte, then `btoa` the result.
   */
  method ArrayBufferToBase64(bytes: seq<Byte>) returns (s: string)
    ensures s == EncodeBytes(bytes)
    ensures Atob(s) == Ok(FromCharCodes(bytes))
  {
    var binary := "";
    var i := 0;
    while i < |bytes|
      invariant 0 <= i <= |bytes|
      invariant binary == FromCharCodes(bytes)[..i]
    {
      binary := binary + [bytes[i] as char];
      i := i + 1;
    }
    assert binary == FromCharCodes(bytes);
    s := Btoa(binary).value;
  }

  /** ECMAScript truncation toward zero of a finite number. */
  function Truncate(y: real): (t: int)
    ensures 0.0 <= y ==> t as real <= y < t as real + 1.0
    ensures y < 0.0 ==> t as real - 1.0 < y <= t as real
  {
    if y >= 0.0 then y.Floor else -((-y).Floor)
  }

  /** ECMAScript `ToInt16` of a finite number: truncate, then wrap modulo 2^16 into [-2^15, 2^15). */
  function ToInt16(y: real): (k: Int16)
    ensures (k - Truncate(y)) % 65536 == 0
    ensures -32768 <= Truncate(y) < 32768 ==> k == Truncate(y)
  {
    var m := Truncate(y) % 65536;
    if m >= 32768 then m - 65536 else m
  }

  /** The capture quantiser `int16[i] = x * 32768`. */
  function Quantise(x: real): (k: Int16)
    ensures (k - Truncate(x * Scale)) % 65536 == 0
  {
    ToInt16(x * Scale)
  }

  /** Quantising a decoded sample gives back the int16 it came from. */
  lemma QuantiseSample(k: Int16)
    ensures Quantise(Sample(k)) == k
  {
    assert Sample(k) * Scale == k as real;
    assert Truncate(k as real) == k;
  }

  /** On [-1, 1) quantising never wraps, and the decoded value is within one step below |x|. */
  lemma QuantiseInRange(x: real)
    requires -1.0 <= x < 1.0
    ensures Quantise(x) == Truncate(x * Scale)
    ensures x >= 0.0 ==> 0.0 <= x - Sample(Quantise(x)) < 1.0 / Scale
    ensures x < 0.0 ==> 0.0 <= Sample(Quantise(x)) - x < 1.0 / Scale
  {
    var t := Truncate(x * Scale);
    assert -32768 <= t < 32768;
    assert Sample(Quantise(x)) * Scale == t as real;
  }

  /** Full scale 1.0 is not clipped: it wraps to the most negative sample. */
  lemma QuantiseOneWraps()
    ensures Quantise(1.0) == -32768
  {
    assert Truncate(1.0 * Scale) == 32768;
  }
}
