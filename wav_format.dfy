/**
 * The canonical 44-byte RIFF/WAVE header of the "WAVE Form Definition" in the
 * Microsoft/IBM Multimedia Programming Interface and Data Specifications 1.0:
 * a RIFF chunk of form type WAVE holding a 16-byte PCM "fmt " chunk and a
 * "data" chunk. All integers are little-endian.
 */
module WavFormat {
  newtype byte = x: int | 0 <= x < 256

  const TwoTo16: int := 0x1_0000
  const TwoTo32: int := 0x1_0000_0000

  /** ASCII characters as single bytes. */
  function Ascii(s: string): (r: seq<byte>)
    requires forall k :: 0 <= k < |s| ==> s[k] as int < 128
    ensures |r| == |s| && forall k :: 0 <= k < |s| ==> r[k] as int == s[k] as int
  {
    seq(|s|, k requires 0 <= k < |s| => s[k] as int as byte)
  }

  /** Little-endian unsigned 16-bit encoding (`struct.pack('<H', v)`). */
  function LeU16(v: int): (r: seq<byte>)
    requires 0 <= v < TwoTo16
    ensures |r| == 2
  {
    [(v % 256) as byte, (v / 256) as byte]
  }

  /** Little-endian unsigned 32-bit encoding (`struct.pack('<I', v)`). */
  function LeU32(v: int): (r: seq<byte>)
    requires 0 <= v < TwoTo32
    ensures |r| == 4
  {
    [(v % 256) as byte, (v / 256 % 256) as byte, (v / 0x1_0000 % 256) as byte, (v / 0x100_0000) as byte]
  }

  function ReadU16(s: seq<byte>, off: nat): int
    requires off + 2 <= |s|
  {
    s[off] as int + 256 * s[off + 1] as int
  }

  function ReadU32(s: seq<byte>, off: nat): int
    requires off + 4 <= |s|
  {
    s[off] as int + 256 * (s[off + 1] as int + 256 * (s[off + 2] as int + 256 * s[off + 3] as int))
  }

  /** Reading back an encoded 16-bit value gives the value. */
  lemma {:induction false} ReadLeU16(v: int)
    requires 0 <= v < TwoTo16
    ensures ReadU16(LeU16(v), 0) == v
  {
  }

  /** Reading back an encoded 32-bit value gives the value. */
  lemma {:induction false} ReadLeU32(v: int)
    requires 0 <= v < TwoTo32
    ensures ReadU32(LeU32(v), 0) == v
  {
    var w1 := v / 256;
    var w2 := w1 / 256;
    assert v / 0x1_0000 == w2;
    assert v / 0x100_0000 == w2 / 256;
    assert w2 == w2 % 256 + 256 * (w2 / 256);
    assert w1 == w1 % 256 + 256 * w2;
    assert v == v % 256 + 256 * w1;
  }

  /** The values a canonical header carries. */
  datatype Fields = Fields(
    riffSize: int, numChannels: int, sampleRate: int, byteRate: int,
    blockAlign: int, bitsPerSample: int, dataSize: int)
  {
    predicate InRange() {
      0 <= riffSize < TwoTo32 && 0 <= numChannels < TwoTo16 && 0 <= sampleRate < TwoTo32
      && 0 <= byteRate < TwoTo32 && 0 <= blockAlign < TwoTo16 && 0 <= bitsPerSample < TwoTo16
      && 0 <= dataSize < TwoTo32
    }
  }

  /**
   * `h` is the canonical header for `f`: "RIFF", riffSize, "WAVE", "fmt ", 16,
   * format tag 1 (PCM), channels, sample rate, byte rate, block align, bits per
   * sample, "data", data size, at offsets 0, 4, 8, 12, 16, 20, 22, 24, 28, 32,
   * 34, 36 and 40.
   */
  predicate IsHeader(h: seq<byte>, f: Fields)
    requires f.InRange()
  {
    |h| == 44
    && h[0..4] == Ascii("RIFF") && h[4..8] == LeU32(f.riffSize)
    && h[8..12] == Ascii("WAVE") && h[12..16] == Ascii("fmt ")
    && h[16..20] == LeU32(16) && h[20..22] == LeU16(1)
    && h[22..24] == LeU16(f.numChannels) && h[24..28] == LeU32(f.sampleRate)
    && h[28..32] == LeU32(f.byteRate) && h[32..34] == LeU16(f.blockAlign)
    && h[34..36] == LeU16(f.bitsPerSample)
    && h[36..40] == Ascii("data") && h[40..44] == LeU32(f.dataSize)
  }

  /** The canonical header for `f`, field after field. */
  function HeaderOf(f: Fields): (h: seq<byte>)
    requires f.InRange()
    ensures IsHeader(h, f)
  {
    Ascii("RIFF") + LeU32(f.riffSize) + Ascii("WAVE") + Ascii("fmt ") + LeU32(16) + LeU16(1)
    + LeU16(f.numChannels) + LeU32(f.sampleRate) + LeU32(f.byteRate) + LeU16(f.blockAlign)
    + LeU16(f.bitsPerSample) + Ascii("data") + LeU32(f.dataSize)
  }

  /** A reader of the header recovers every field from its offset. */
  lemma {:induction false} HeaderReadBack(h: seq<byte>, f: Fields)
    requires f.InRange() && IsHeader(h, f)
    ensures ReadU32(h, 4) == f.riffSize && ReadU32(h, 16) == 16 && ReadU16(h, 20) == 1
    ensures ReadU16(h, 22) == f.numChannels && ReadU32(h, 24) == f.sampleRate
    ensures ReadU32(h, 28) == f.byteRate && ReadU16(h, 32) == f.blockAlign
    ensures ReadU16(h, 34) == f.bitsPerSample && ReadU32(h, 40) == f.dataSize
  {
    ReadSlice32(h, 4); ReadLeU32(f.riffSize);
    ReadSlice32(h, 16); ReadLeU32(16);
    ReadSlice16(h, 20); ReadLeU16(1);
    ReadSlice16(h, 22); ReadLeU16(f.numChannels);
    ReadSlice32(h, 24); ReadLeU32(f.sampleRate);
    ReadSlice32(h, 28); ReadLeU32(f.byteRate);
    ReadSlice16(h, 32); ReadLeU16(f.blockAlign);
    ReadSlice16(h, 34); ReadLeU16(f.bitsPerSample);
    ReadSlice32(h, 40); ReadLeU32(f.dataSize);
  }

  lemma {:induction false} ReadSlice16(s: seq<byte>, off: nat)
    requires off + 2 <= |s|
    ensures ReadU16(s, off) == ReadU16(s[off..off + 2], 0)
  {
  }

  lemma {:induction false} ReadSlice32(s: seq<byte>, off: nat)
    requires off + 4 <= |s|
    ensures ReadU32(s, off) == ReadU32(s[off..off + 4], 0)
  {
  }

  /** The fields determine the header: two canonical headers for the same fields are equal. */
  lemma {:induction false} HeaderUnique(h1: seq<byte>, h2: seq<byte>, f: Fields)
    requires f.InRange() && IsHeader(h1, f) && IsHeader(h2, f)
    ensures h1 == h2
  {
    assert forall k :: 0 <= k < 44 ==> h1[k] == h2[k] by {
      forall k | 0 <= k < 44 ensures h1[k] == h2[k] {
        var lo := if k < 4 then 0 else if k < 8 then 4 else if k < 12 then 8 else if k < 16 then 12
                  else if k < 20 then 16 else if k < 22 then 20 else if k < 24 then 22 else if k < 28 then 24
                  else if k < 32 then 28 else if k < 34 then 32 else if k < 36 then 34 else if k < 40 then 36 else 40;
        var hi := if k < 4 then 4 else if k < 8 then 8 else if k < 12 then 12 else if k < 16 then 16
                  else if k < 20 then 20 else if k < 22 then 22 else if k < 24 then 24 else if k < 28 then 28
                  else if k < 32 then 32 else if k < 34 then 34 else if k < 36 then 36 else if k < 40 then 40 else 44;
        assert h1[lo..hi] == h2[lo..hi];
        assert h1[k] == h1[lo..hi][k - lo];
        assert h2[k] == h2[lo..hi][k - lo];
      }
    }
  }
}
