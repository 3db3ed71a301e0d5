/** The stored waveform of a song: the Room type converters that turn its
    float amplitudes into a little-endian byte blob and back, and the
    content-based `equals`/`hashCode` of the entity. A Float is modelled by
    its IEEE 754 bit pattern. */
module Waveform {
  import opened Optional

  // ---------------------------------------------------------------------------
  // One float as four bytes
  // ---------------------------------------------------------------------------

  /** The four bytes of a float, least-significant first (`ByteOrder.LITTLE_ENDIAN`). */
  function LittleEndian(w: bv32): (r: seq<bv8>)
    ensures |r| == 4
  {
    [(w & 0xFF) as bv8, ((w >> 8) & 0xFF) as bv8, ((w >> 16) & 0xFF) as bv8, (w >> 24) as bv8]
  }

  /** The float whose little-endian bytes are b0 b1 b2 b3. */
  function FromLittleEndian(b0: bv8, b1: bv8, b2: bv8, b3: bv8): bv32 {
    (b0 as bv32) | ((b1 as bv32) << 8) | ((b2 as bv32) << 16) | ((b3 as bv32) << 24)
  }

  /** Reading back the four bytes written for a float gives its bits. */
  lemma WordRoundTrip(w: bv32)
    ensures var b := LittleEndian(w); FromLittleEndian(b[0], b[1], b[2], b[3]) == w
  {
  }

  /** Writing the float read from four bytes gives those bytes. */
  lemma BytesRoundTrip(b0: bv8, b1: bv8, b2: bv8, b3: bv8)
    ensures LittleEndian(FromLittleEndian(b0, b1, b2, b3)) == [b0, b1, b2, b3]
  {
  }

  // ---------------------------------------------------------------------------
  // Arrays of floats as byte blobs
  // ---------------------------------------------------------------------------

  /** The blob `fromFloatArray` writes: four bytes per float, in array order. */
  function Encode(a: seq<bv32>): (r: seq<bv8>)
    ensures |r| == 4 * |a|
    decreases |a|
  {
    if a == [] then [] else Encode(a[..|a| - 1]) + LittleEndian(a[|a| - 1])
  }

  /** Slot i of the blob holds the bytes of float i. */
  lemma {:induction false} EncodeSlot(a: seq<bv32>, i: nat)
    requires i < |a|
    ensures Encode(a)[4 * i .. 4 * i + 4] == LittleEndian(a[i])
    decreases |a|
  {
    var n := |a| - 1;
    var p := Encode(a[..n]);
    assert Encode(a) == p + LittleEndian(a[n]);
    if i < n {
      EncodeSlot(a[..n], i);
      assert Encode(a)[4 * i .. 4 * i + 4] == p[4 * i .. 4 * i + 4];
    } else {
      assert i == n && |p| == 4 * i && |Encode(a)| == 4 * i + 4;
      assert (p + LittleEndian(a[n]))[|p|..] == LittleEndian(a[n]);
    }
  }

  /** The floats `toFloatArray` reads: one per complete 4-byte slot; up to
      three trailing bytes are ignored. */
  function Decode(b: seq<bv8>): (r: seq<bv32>)
    ensures |r| == |b| / 4
  {
    seq(|b| / 4, i requires 0 <= i < |b| / 4 => FromLittleEndian(b[4 * i], b[4 * i + 1], b[4 * i + 2], b[4 * i + 3]))
  }

  /** Decoding an encoded array gives back every float, bit for bit. */
  lemma DecodeEncode(a: seq<bv32>)
    ensures Decode(Encode(a)) == a
  {
    var e := Encode(a);
    forall i | 0 <= i < |a|
      ensures Decode(e)[i] == a[i]
    {
      EncodeSlot(a, i);
      WordRoundTrip(a[i]);
      var w := e[4 * i .. 4 * i + 4];
      assert e[4 * i] == w[0] && e[4 * i + 1] == w[1] && e[4 * i + 2] == w[2] && e[4 * i + 3] == w[3];
    }
  }

  /** Encoding a decoded blob gives back the blob when its length is a whole
      number of floats. */
  lemma {:induction false} EncodeDecode(b: seq<bv8>)
    requires |b| % 4 == 0
    ensures Encode(Decode(b)) == b
    decreases |b|
  {
    if b != [] {
      var n := |b| - 4;
      var d := Decode(b);
      EncodeDecode(b[..n]);
      assert d[..|d| - 1] == Decode(b[..n]);
      BytesRoundTrip(b[n], b[n + 1], b[n + 2], b[n + 3]);
      assert b == b[..n] + [b[n], b[n + 1], b[n + 2], b[n + 3]];
    }
  }

  /** Bytes past the last complete slot do not change what is read. */
  lemma TrailingBytesIgnored(b: seq<bv8>)
    ensures Decode(b) == Decode(b[..|b| - |b| % 4])
  {
  }

  /** `fromFloatArray`: null for null, otherwise a fresh byte array holding the encoding. */
  method FromFloatArray(floats: Option<array<bv32>>) returns (bytes: Option<array<bv8>>)
    ensures floats.None? <==> bytes.None?
    ensures floats.Some? ==> fresh(bytes.value) && bytes.value[..] == Encode(floats.value[..])
  {
    if floats.None? {
      return None;
    }
    var a := floats.value;
    var buffer := new bv8[a.Length * 4];
    var position := 0;
    for i := 0 to a.Length
      invariant position == 4 * i
      invariant buffer[..position] == Encode(a[..i])
    {
      var b := LittleEndian(a[i]);
      buffer[position] := b[0];
      buffer[position + 1] := b[1];
      buffer[position + 2] := b[2];
      buffer[position + 3] := b[3];
      assert a[..i + 1][..i] == a[..i];
      assert buffer[..position + 4] == buffer[..position] + b;
      position := position + 4;
    }
    assert a[..a.Length] == a[..];
    return Some(buffer);
  }

  /** `toFloatArray`: null for null, otherwise a fresh float array holding the decoding. */
  method ToFloatArray(bytes: Option<array<bv8>>) returns (floats: Option<array<bv32>>)
    ensures bytes.None? <==> floats.None?
    ensures bytes.Some? ==> fresh(floats.value) && floats.value[..] == Decode(bytes.value[..])
  {
    if bytes.None? {
      return None;
    }
    var b := bytes.value;
    var result := new bv32[b.Length / 4];
    var position := 0;
    for i := 0 to result.Length
      invariant position == 4 * i
      invariant forall j :: 0 <= j < i ==> result[j] == Decode(b[..])[j]
    {
      result[i] := FromLittleEndian(b[position], b[position + 1], b[position + 2], b[position + 3]);
      position := position + 4;
    }
    return Some(result);
  }

  // ---------------------------------------------------------------------------
  // The entity
  // ---------------------------------------------------------------------------

  /** A song's waveform; the id is a Kotlin `Long`. */
  datatype WaveformEntity = WaveformEntity(songId: bv64, amplitudes: seq<bv32>)

  /** What `equals` may be handed: null, an object of some other class, or an entity. */
  datatype Other = Null | OtherClass | Entity(entity: WaveformEntity)

  /** A NaN bit pattern: all exponent bits set and a non-zero fraction. */
  predicate IsNaN(f: bv32) {
    f & 0x7F80_0000 == 0x7F80_0000 && f & 0x007F_FFFF != 0
  }

  /** The canonical NaN of `Float.floatToIntBits`. */
  const CanonicalNaN: bv32 := 0x7FC0_0000

  /** `Float.floatToIntBits`: the bits, with every NaN collapsed to one pattern. */
  function FloatToIntBits(f: bv32): (r: bv32)
    ensures IsNaN(f) ==> r == CanonicalNaN
    ensures !IsNaN(f) ==> r == f
  {
    if IsNaN(f) then CanonicalNaN else f
  }

  /** Two floats have the same `floatToIntBits` exactly when they have the
      same bits or are both NaN. */
  lemma FloatToIntBitsIdentifies(f: bv32, g: bv32)
    ensures FloatToIntBits(f) == FloatToIntBits(g) <==> f == g || (IsNaN(f) && IsNaN(g))
  {
    assert IsNaN(CanonicalNaN);
  }

  /** `FloatArray.contentEquals`: same length, and element-wise equal floatToIntBits. */
  predicate ContentEquals(a: seq<bv32>, b: seq<bv32>) {
    |a| == |b| && forall i :: 0 <= i < |a| ==> FloatToIntBits(a[i]) == FloatToIntBits(b[i])
  }

  /** `WaveformEntity.equals`. */
  predicate Equals(e: WaveformEntity, other: Other) {
    other.Entity? && e.songId == other.entity.songId && ContentEquals(e.amplitudes, other.entity.amplitudes)
  }

  /** 2^32: Kotlin `Int` arithmetic wraps modulo this. Hashes are given as
      the unsigned value of their 32 bits. */
  const IntRange: int := 0x1_0000_0000

  /** `Long.hashCode`: the two 32-bit halves xor-ed. */
  function LongHash(v: bv64): (r: int)
    ensures 0 <= r < IntRange
  {
    ((v ^ (v >> 32)) as int) % IntRange
  }

  /** `FloatArray.contentHashCode`: h = 31·h + floatToIntBits(x) over the
      elements, starting from 1, wrapping at 32 bits. */
  function ContentHash(a: seq<bv32>): (r: int)
    ensures 0 <= r < IntRange
    decreases |a|
  {
    if a == [] then 1
    else (31 * ContentHash(a[..|a| - 1]) + FloatToIntBits(a[|a| - 1]) as int) % IntRange
  }

  /** `WaveformEntity.hashCode`: 31·hash(songId) + contentHash, wrapping at 32 bits. */
  function HashCode(e: WaveformEntity): (r: int)
    ensures 0 <= r < IntRange
  {
    (31 * LongHash(e.songId) + ContentHash(e.amplitudes)) % IntRange
  }

  /** `equals` is an equivalence on entities, and never holds for null or a foreign object. */
  lemma EqualsIsEquivalence(e: WaveformEntity, f: WaveformEntity, g: WaveformEntity)
    ensures Equals(e, Entity(e))
    ensures Equals(e, Entity(f)) ==> Equals(f, Entity(e))
    ensures Equals(e, Entity(f)) && Equals(f, Entity(g)) ==> Equals(e, Entity(g))
    ensures !Equals(e, Null) && !Equals(e, OtherClass)
  {
  }

  /** Arrays with equal contents have equal content hashes. */
  lemma {:induction false} ContentEqualsSameHash(a: seq<bv32>, b: seq<bv32>)
    requires ContentEquals(a, b)
    ensures ContentHash(a) == ContentHash(b)
    decreases |a|
  {
    if a != [] {
      ContentEqualsSameHash(a[..|a| - 1], b[..|b| - 1]);
    }
  }

  /** `hashCode` is consistent with `equals`. */
  lemma EqualEntitiesHashAlike(e: WaveformEntity, f: WaveformEntity)
    requires Equals(e, Entity(f))
    ensures HashCode(e) == HashCode(f)
  {
    ContentEqualsSameHash(e.amplitudes, f.amplitudes);
  }

  /** Equality is on floatToIntBits, not on the raw bits: two different NaN
      patterns compare equal, while 0.0 and -0.0 do not. */
  lemma EqualityExamples(id: bv64)
    ensures Equals(WaveformEntity(id, [0x7FC0_0000]), Entity(WaveformEntity(id, [0xFFC0_0001])))
    ensures !Equals(WaveformEntity(id, [0x0000_0000]), Entity(WaveformEntity(id, [0x8000_0000])))
  {
    assert IsNaN(0xFFC0_0001) && IsNaN(0x7FC0_0000);
    assert !IsNaN(0x0000_0000) && !IsNaN(0x8000_0000);
    assert FloatToIntBits([0x0000_0000][0]) != FloatToIntBits([0x8000_0000][0]);
  }
}
