/**
 * The byte layout `SaveAudioClipAsWAV` writes: a canonical RIFF/WAVE file with
 * a 16-byte PCM `fmt ` chunk (audio format 1, 16 bits per sample) and a `data`
 * chunk of interleaved little-endian 16-bit samples, 44 header bytes in all.
 * A reader of that layout is the partner the encoder round-trips with.
 */
module Wav {
  import opened Wrappers

  newtype uint8 = x: int | 0 <= x < 256
  newtype int16 = x: int | -32768 <= x < 32768

  /** The low k bytes of u, least significant first. */
  function LEBytes(u: nat, k: nat): (b: seq<uint8>)
    ensures |b| == k
    decreases k
  {
    if k == 0 then [] else [(u % 256) as uint8] + LEBytes(u / 256, k - 1)
  }

  /** The unsigned little-endian value of a byte string. */
  function FromLE(b: seq<uint8>): nat
    decreases |b|
  {
    if b == [] then 0 else b[0] as nat + 256 * FromLE(b[1..])
  }

  function Pow256(k: nat): (p: nat)
    ensures p >= 1
  {
    if k == 0 then 1 else 256 * Pow256(k - 1)
  }

  lemma {:induction false} FromLEBound(b: seq<uint8>)
    ensures FromLE(b) < Pow256(|b|)
    decreases |b|
  {
    if b != [] {
      FromLEBound(b[1..]);
    }
  }

  lemma {:induction false} FromLEOfLEBytes(u: nat, k: nat)
    requires u < Pow256(k)
    ensures FromLE(LEBytes(u, k)) == u
    decreases k
  {
    if k > 0 {
      assert u / 256 < Pow256(k - 1);
      FromLEOfLEBytes(u / 256, k - 1);
      assert LEBytes(u, k)[1..] == LEBytes(u / 256, k - 1);
    }
  }

  /** `BinaryWriter.Write(short)`: the low 16 bits, two's complement, little-endian. */
  function LE16(x: int): (b: seq<uint8>)
    ensures |b| == 2
  {
    LEBytes(x % 0x1_0000, 2)
  }

  /** `BinaryWriter.Write(int)`: the low 32 bits, two's complement, little-endian (a C# int overflow wraps the same way). */
  function LE32(x: int): (b: seq<uint8>)
    ensures |b| == 4
  {
    LEBytes(x % 0x1_0000_0000, 4)
  }

  /** `BinaryWriter.Write(char[])` of an ASCII tag. */
  function Ascii(s: string): (b: seq<uint8>)
    requires forall i :: 0 <= i < |s| ==> s[i] as int < 128
    ensures |b| == |s|
    ensures forall i :: 0 <= i < |s| ==> b[i] as int == s[i] as int
  {
    seq(|s|, i requires 0 <= i < |s| => s[i] as int as uint8)
  }

  function Riff(): seq<uint8> { Ascii("RIFF") }
  function Wave(): seq<uint8> { Ascii("WAVE") }
  function Fmt(): seq<uint8> { Ascii("fmt ") }
  function Data(): seq<uint8> { Ascii("data") }

  function SampleBytes(samples: seq<int16>): (b: seq<uint8>)
    ensures |b| == 2 * |samples|
    decreases |samples|
  {
    if samples == [] then [] else LE16(samples[0] as int) + SampleBytes(samples[1..])
  }

  /** RIFF chunk descriptor and the `fmt ` tag: bytes 0 to 15. */
  function RiffPart(n: nat): (b: seq<uint8>)
    ensures |b| == 16
    ensures b[0..4] == Riff() && b[4..8] == LE32(36 + n * 2) && b[8..12] == Wave() && b[12..16] == Fmt()
  {
    var b := Riff() + LE32(36 + n * 2) + Wave() + Fmt();
    assert b[0..4] == Riff();
    assert b[4..8] == LE32(36 + n * 2);
    assert b[8..12] == Wave();
    b
  }

  /** The PCM `fmt ` sub-chunk body and its size: bytes 16 to 35. */
  function FormatPart(channels: int, rate: int): (b: seq<uint8>)
    ensures |b| == 20
    ensures b[0..4] == LE32(16) && b[4..6] == LE16(1) && b[6..8] == LE16(channels)
    ensures b[8..12] == LE32(rate) && b[12..16] == LE32(rate * channels * 2)
    ensures b[16..18] == LE16(channels * 2) && b[18..20] == LE16(16)
  {
    var b := LE32(16) + LE16(1) + LE16(channels) + LE32(rate)
             + LE32(rate * channels * 2) + LE16(channels * 2) + LE16(16);
    SevenFields(LE32(16), LE16(1), LE16(channels), LE32(rate), LE32(rate * channels * 2), LE16(channels * 2), LE16(16));
    b
  }

  /** The field boundaries of seven pieces of sizes 4, 2, 2, 4, 4, 2, 2 laid end to end. */
  lemma SevenFields(p1: seq<uint8>, p2: seq<uint8>, p3: seq<uint8>, p4: seq<uint8>,
                    p5: seq<uint8>, p6: seq<uint8>, p7: seq<uint8>)
    requires |p1| == 4 && |p2| == 2 && |p3| == 2 && |p4| == 4 && |p5| == 4 && |p6| == 2 && |p7| == 2
    ensures var b := p1 + p2 + p3 + p4 + p5 + p6 + p7;
            && b[0..4] == p1 && b[4..6] == p2 && b[6..8] == p3 && b[8..12] == p4
            && b[12..16] == p5 && b[16..18] == p6 && b[18..20] == p7
  {
  }

  /** A slice of a piece found at `off` is the same slice of the whole, shifted by `off`. */
  lemma Within(b: seq<uint8>, piece: seq<uint8>, off: nat, lo: nat, hi: nat)
    requires off + |piece| <= |b| && b[off..off + |piece|] == piece
    requires lo <= hi <= |piece|
    ensures b[off + lo..off + hi] == piece[lo..hi]
  {
    forall k | lo <= k < hi
      ensures b[off + k] == piece[k]
    {
      assert piece[k] == b[off..off + |piece|][k];
    }
  }

  /** The `data` sub-chunk header: bytes 36 to 43. */
  function DataPart(n: nat): (b: seq<uint8>)
    ensures |b| == 8 && b[0..4] == Data() && b[4..8] == LE32(n * 2)
  {
    Data() + LE32(n * 2)
  }

  /** `SaveAudioClipAsWAV` once the float samples are scaled to 16 bits. */
  function Encode(channels: int, rate: int, samples: seq<int16>): (b: seq<uint8>)
    ensures |b| == 44 + 2 * |samples|
  {
    RiffPart(|samples|) + (FormatPart(channels, rate) + (DataPart(|samples|) + SampleBytes(samples)))
  }

  lemma SliceLeft(x: seq<uint8>, y: seq<uint8>, lo: nat, hi: nat)
    requires lo <= hi <= |x|
    ensures (x + y)[lo..hi] == x[lo..hi]
  {
  }

  lemma SliceRight(x: seq<uint8>, y: seq<uint8>, lo: nat, hi: nat)
    requires |x| <= lo <= hi <= |x| + |y|
    ensures (x + y)[lo..hi] == y[lo - |x|..hi - |x|]
  {
  }

  lemma {:induction false} SampleBytesAt(samples: seq<int16>, i: nat)
    requires i < |samples|
    ensures SampleBytes(samples)[2 * i..2 * i + 2] == LE16(samples[i] as int)
    decreases i
  {
    if i > 0 {
      SampleBytesAt(samples[1..], i - 1);
      var rest := SampleBytes(samples[1..]);
      assert SampleBytes(samples) == LE16(samples[0] as int) + rest;
      assert SampleBytes(samples)[2 * i..2 * i + 2] == rest[2 * (i - 1)..2 * (i - 1) + 2];
    }
  }

  lemma RiffFields(channels: int, rate: int, samples: seq<int16>)
    ensures var b := Encode(channels, rate, samples);
            && b[0..4] == Riff() && b[4..8] == LE32(36 + 2 * |samples|)
            && b[8..12] == Wave() && b[12..16] == Fmt()
  {
    var r := RiffPart(|samples|);
    var rest := FormatPart(channels, rate) + (DataPart(|samples|) + SampleBytes(samples));
    SliceLeft(r, rest, 0, 4);
    SliceLeft(r, rest, 4, 8);
    SliceLeft(r, rest, 8, 12);
    SliceLeft(r, rest, 12, 16);
  }

  lemma FormatFields(channels: int, rate: int, samples: seq<int16>)
    ensures var b := Encode(channels, rate, samples);
            && b[16..20] == LE32(16) && b[20..22] == LE16(1)
            && b[22..24] == LE16(channels) && b[24..28] == LE32(rate)
            && b[28..32] == LE32(rate * channels * 2) && b[32..34] == LE16(channels * 2)
            && b[34..36] == LE16(16)
  {
    var r := RiffPart(|samples|);
    var f := FormatPart(channels, rate);
    var rest := DataPart(|samples|) + SampleBytes(samples);
    var b := Encode(channels, rate, samples);
    SliceRight(r, f + rest, 16, 36);
    SliceLeft(f, rest, 0, 20);
    Within(b, f, 16, 0, 4);
    Within(b, f, 16, 4, 6);
    Within(b, f, 16, 6, 8);
    Within(b, f, 16, 8, 12);
    Within(b, f, 16, 12, 16);
    Within(b, f, 16, 16, 18);
    Within(b, f, 16, 18, 20);
  }

  lemma DropRight(x: seq<uint8>, y: seq<uint8>, k: nat)
    requires |x| <= k <= |x| + |y|
    ensures (x + y)[k..] == y[k - |x|..]
  {
  }

  lemma DataFields(channels: int, rate: int, samples: seq<int16>)
    ensures var b := Encode(channels, rate, samples);
            b[36..40] == Data() && b[40..44] == LE32(2 * |samples|)
  {
    var r, f := RiffPart(|samples|), FormatPart(channels, rate);
    var d, s := DataPart(|samples|), SampleBytes(samples);
    var t2 := d + s;
    var t1 := f + t2;
    SliceRight(r, t1, 36, 40);
    SliceRight(f, t2, 20, 24);
    SliceLeft(d, s, 0, 4);
    SliceRight(r, t1, 40, 44);
    SliceRight(f, t2, 24, 28);
    SliceLeft(d, s, 4, 8);
  }

  lemma SampleRegion(channels: int, rate: int, samples: seq<int16>)
    ensures Encode(channels, rate, samples)[44..] == SampleBytes(samples)
  {
    var r, f := RiffPart(|samples|), FormatPart(channels, rate);
    var d, s := DataPart(|samples|), SampleBytes(samples);
    var t2 := d + s;
    var t1 := f + t2;
    DropRight(r, t1, 44);
    DropRight(f, t2, 28);
    DropRight(d, s, 8);
  }

  lemma SampleFields(channels: int, rate: int, samples: seq<int16>)
    ensures var b := Encode(channels, rate, samples);
            forall i :: 0 <= i < |samples| ==> b[44 + 2 * i..46 + 2 * i] == LE16(samples[i] as int)
  {
    var b := Encode(channels, rate, samples);
    SampleRegion(channels, rate, samples);
    forall i | 0 <= i < |samples|
      ensures b[44 + 2 * i..46 + 2 * i] == LE16(samples[i] as int)
    {
      SampleBytesAt(samples, i);
      assert b[44 + 2 * i..46 + 2 * i] == b[44..][2 * i..2 * i + 2];
    }
  }

  /**
   * Where every field sits: the tags, the RIFF size 36 + 2n, the PCM format
   * fields, the data size 2n, and sample i at offset 44 + 2i.
   */
  lemma Layout(channels: int, rate: int, samples: seq<int16>)
    ensures var b := Encode(channels, rate, samples);
            var n := |samples|;
            && |b| == 44 + 2 * n
            && b[0..4] == Riff() && b[4..8] == LE32(36 + 2 * n)
            && b[8..12] == Wave() && b[12..16] == Fmt()
            && b[16..20] == LE32(16) && b[20..22] == LE16(1)
            && b[22..24] == LE16(channels) && b[24..28] == LE32(rate)
            && b[28..32] == LE32(rate * channels * 2) && b[32..34] == LE16(channels * 2)
            && b[34..36] == LE16(16) && b[36..40] == Data() && b[40..44] == LE32(2 * n)
            && forall i :: 0 <= i < n ==> b[44 + 2 * i..46 + 2 * i] == LE16(samples[i] as int)
  {
    RiffFields(channels, rate, samples);
    FormatFields(channels, rate, samples);
    DataFields(channels, rate, samples);
    SampleFields(channels, rate, samples);
  }

  // ---------------------------------------------------------------------------
  // Reading the layout back
  // ---------------------------------------------------------------------------

  datatype WavInfo = WavInfo(channels: int, rate: int, samples: seq<int16>)

  /** The signed value of two little-endian bytes. */
  function S16(b: seq<uint8>): int16
    requires |b| == 2
  {
    var u := FromLE(b);
    FromLEBound(b);
    assert Pow256(2) == 0x1_0000;
    if u >= 0x8000 then (u - 0x1_0000) as int16 else u as int16
  }

  function Samples(b: seq<uint8>): (s: seq<int16>)
    ensures |s| == |b| / 2
    decreases |b|
  {
    if |b| < 2 then [] else [S16(b[..2])] + Samples(b[2..])
  }

  /** A reader for a PCM WAVE file of exactly the canonical 44-byte-header shape. */
  function Decode(b: seq<uint8>): Option<WavInfo> {
    if |b| < 44 then None
    else
      var size := FromLE(b[40..44]);
      var channels := FromLE(b[22..24]);
      var rate := FromLE(b[24..28]);
      if || b[0..4] != Riff() || b[8..12] != Wave() || b[12..16] != Fmt() || b[36..40] != Data()
         || FromLE(b[4..8]) != 36 + size || FromLE(b[16..20]) != 16 || FromLE(b[20..22]) != 1
         || FromLE(b[28..32]) != (rate * channels * 2) % 0x1_0000_0000
         || FromLE(b[32..34]) != (channels * 2) % 0x1_0000 || FromLE(b[34..36]) != 16
         || |b| != 44 + size
      then None
      else Some(WavInfo(channels, rate, Samples(b[44..])))
  }

  lemma S16OfLE16(x: int16)
    ensures S16(LE16(x as int)) == x
  {
    FromLEOfLEBytes(x as int % 0x1_0000, 2);
  }

  lemma {:induction false} SamplesOfSampleBytes(s: seq<int16>)
    ensures Samples(SampleBytes(s)) == s
    decreases |s|
  {
    if s != [] {
      var b := SampleBytes(s);
      assert b[..2] == LE16(s[0] as int);
      assert b[2..] == SampleBytes(s[1..]);
      S16OfLE16(s[0]);
      SamplesOfSampleBytes(s[1..]);
    }
  }

  lemma Pow256Values()
    ensures Pow256(2) == 0x1_0000 && Pow256(4) == 0x1_0000_0000
  {
    assert Pow256(1) == 256;
    assert Pow256(2) == 0x1_0000;
    assert Pow256(3) == 0x100_0000;
  }

  lemma LE32Value(x: int)
    requires 0 <= x < 0x1_0000_0000
    ensures FromLE(LE32(x)) == x
  {
    LEModValue(x);
  }

  lemma LE16Value(x: int)
    requires 0 <= x < 0x1_0000
    ensures FromLE(LE16(x)) == x
  {
    LEModValue(x);
  }

  /** A field reads back as its value reduced to the field's width, as the C# casts truncate. */
  lemma LEModValue(x: int)
    ensures FromLE(LE32(x)) == x % 0x1_0000_0000
    ensures FromLE(LE16(x)) == x % 0x1_0000
  {
    Pow256Values();
    FromLEOfLEBytes(x % 0x1_0000_0000, 4);
    FromLEOfLEBytes(x % 0x1_0000, 2);
  }

  /**
   * The file reads back as the channel count, the sample rate and every sample,
   * for any channel count and rate that fit their header fields and any
   * sample count whose RIFF size fits 32 bits.
   */
  lemma RoundTrip(channels: int, rate: int, samples: seq<int16>)
    requires 0 <= channels < 0x1_0000
    requires 0 <= rate < 0x1_0000_0000
    requires 36 + 2 * |samples| < 0x1_0000_0000
    ensures Decode(Encode(channels, rate, samples)) == Some(WavInfo(channels, rate, samples))
  {
    var b := Encode(channels, rate, samples);
    var n := |samples|;
    Layout(channels, rate, samples);
    SampleRegion(channels, rate, samples);
    LE32Value(2 * n);
    LE32Value(36 + 2 * n);
    LE32Value(16);
    LE16Value(1);
    LE16Value(16);
    LE16Value(channels);
    LE32Value(rate);
    LEModValue(rate * channels * 2);
    LEModValue(channels * 2);
    SamplesOfSampleBytes(samples);
  }
}
