/**
 * The browser-side Gemini speech provider (`GeminiTTSProvider`): MIME-type
 * parsing, a WAV header written through a `DataView`, wrapping raw PCM chunks
 * and joining the streamed chunks into one buffer.
 */
module GeminiTts {
  import opened Wrappers
  import opened JsText
  import opened WavFormat

  /** `WavConversionOptions`; the sample rate may be NaN (`parseInt` of a bad value). */
  datatype WavOptions = WavOptions(numChannels: int, sampleRate: Num, bitsPerSample: int)

  // ---------------------------------------------------------- parseMimeType

  /** The trimmed `;`-separated parts of the MIME type. */
  function MimeParts(mimeType: string): (r: seq<string>)
    ensures |r| >= 1
  {
    var parts := Split(mimeType, ';');
    seq(|parts|, i requires 0 <= i < |parts| => Trim(parts[i]))
  }

  /** The parameters: every trimmed part after the first. */
  function MimeParams(mimeType: string): seq<string> { MimeParts(mimeType)[1..] }

  /** `fileType.split('/')[1]`, `None` when there is no '/'. */
  function MimeFormat(mimeType: string): Option<string> {
    var p := Split(MimeParts(mimeType)[0], '/');
    if |p| >= 2 then Some(p[1]) else None
  }

  /** The bit depth: `n` for a subtype `L<n>` with numeric `n`, otherwise 16. */
  function MimeBits(mimeType: string): int {
    match MimeFormat(mimeType)
    case Some(f) =>
      if f != [] && f[0] == 'L' then
        match ParseInt10(f[1..]) case Fin(b) => b case NaN => 16
      else 16
    case None => 16
  }

  /** `key` of `param.split('=').map(s => s.trim())`. */
  function ParamKey(param: string): string { Trim(Split(param, '=')[0]) }

  /** `parseInt(value, 10)`; a parameter without '=' has an undefined value, which is NaN. */
  function ParamRate(param: string): Num {
    var kv := Split(param, '=');
    if |kv| >= 2 then ParseInt10(Trim(kv[1])) else NaN
  }

  /** The value of the last `rate` parameter, or `dflt` when there is none. */
  function LastRate(params: seq<string>, dflt: Num): Num {
    if params == [] then dflt
    else if ParamKey(params[|params| - 1]) == "rate" then ParamRate(params[|params| - 1])
    else LastRate(params[..|params| - 1], dflt)
  }

  /** What `parseMimeType` returns, stated from the last parameter backwards. */
  function MimeOptions(mimeType: string): WavOptions {
    WavOptions(1, LastRate(MimeParams(mimeType), Fin(24000)), MimeBits(mimeType))
  }

  /** The bit-depth step of `parseMimeType`: an `L<n>` subtype with numeric `n` overrides 16. */
  method SubtypeBits(mimeType: string) returns (bits: int)
    ensures bits == MimeBits(mimeType)
  {
    bits := 16;
    var format := MimeFormat(mimeType);
    if format.Some? && format.value != [] && format.value[0] == 'L' {
      var parsed := ParseInt10(format.value[1..]);
      if parsed.Fin? {
        bits := parsed.n;
      }
    }
  }

  /** The parameter loop of `parseMimeType`: each `rate` parameter overwrites the rate. */
  method RateFromParams(params: seq<string>) returns (rate: Num)
    ensures rate == LastRate(params, Fin(24000))
  {
    rate := Fin(24000);
    var i := 0;
    while i < |params|
      invariant 0 <= i <= |params|
      invariant rate == LastRate(params[..i], Fin(24000))
    {
      assert params[..i + 1][..i] == params[..i];
      assert params[..i + 1][i] == params[i];
      if ParamKey(params[i]) == "rate" {
        rate := ParamRate(params[i]);
      }
      i := i + 1;
    }
    assert params[..i] == params;
  }

  /** `parseMimeType`: defaults of 1 channel, 24000 Hz and 16 bits, overridden by the MIME type. */
  method ParseMimeType(mimeType: string) returns (options: WavOptions)
    ensures options == MimeOptions(mimeType)
  {
    var bits := SubtypeBits(mimeType);
    var rate := RateFromParams(MimeParts(mimeType)[1..]);
    options := WavOptions(1, rate, bits);
  }

  /** Without any `rate` parameter the default rate stays. */
  lemma {:induction false} LastRateDefault(params: seq<string>, dflt: Num)
    requires forall i :: 0 <= i < |params| ==> ParamKey(params[i]) != "rate"
    ensures LastRate(params, dflt) == dflt
  {
    if params != [] {
      LastRateDefault(params[..|params| - 1], dflt);
    }
  }

  /** The last `rate` parameter wins over every earlier one. */
  lemma {:induction false} LastRateWins(before: seq<string>, p: string, after: seq<string>, dflt: Num)
    requires ParamKey(p) == "rate"
    requires forall i :: 0 <= i < |after| ==> ParamKey(after[i]) != "rate"
    ensures LastRate(before + [p] + after, dflt) == ParamRate(p)
  {
    var all := before + [p] + after;
    if after == [] {
      assert all[|all| - 1] == p;
    } else {
      var init := all[..|all| - 1];
      var last := all[|all| - 1];
      assert init == before + [p] + after[..|after| - 1];
      assert last == after[|after| - 1];
      assert ParamKey(last) != "rate";
      assert LastRate(all, dflt) == LastRate(init, dflt);
      LastRateWins(before, p, after[..|after| - 1], dflt);
    }
  }

  /** A MIME type that names no format overrides and no rate yields 1 channel, 24000 Hz, 16 bits. */
  lemma {:induction false} MimeDefaults(mimeType: string)
    requires forall i :: 0 <= i < |MimeParams(mimeType)| ==> ParamKey(MimeParams(mimeType)[i]) != "rate"
    requires MimeFormat(mimeType).None? || MimeFormat(mimeType).value == [] || MimeFormat(mimeType).value[0] != 'L'
    ensures MimeOptions(mimeType) == WavOptions(1, Fin(24000), 16)
  {
    LastRateDefault(MimeParams(mimeType), Fin(24000));
  }

  /** A subtype `L<n>` sets the bit depth to `n`. */
  lemma {:induction false} MimeBitsFromSubtype(mimeType: string, n: nat)
    requires MimeFormat(mimeType) == Some("L" + NatToString(n))
    ensures MimeOptions(mimeType).bitsPerSample == n
  {
    var f := "L" + NatToString(n);
    assert f[1..] == NatToString(n);
    ParseInt10NatToString(n);
  }

  // --------------------------------------------------------- createWavHeader

  /** Truncation toward zero of `a / d`. */
  function TruncDiv(a: int, d: int): int
    requires d > 0
  {
    if a >= 0 then a / d else -((-a) / d)
  }

  /** `ToUint32(x / d)`: NaN becomes 0, fractions are truncated, the rest wraps modulo 2^32. */
  function ToUint32(x: Num, d: int): (r: int)
    requires d > 0
    ensures 0 <= r < TwoTo32
  {
    match x case NaN => 0 case Fin(a) => TruncDiv(a, d) % TwoTo32
  }

  /** `ToUint16(x / d)`. */
  function ToUint16(x: Num, d: int): (r: int)
    requires d > 0
    ensures 0 <= r < TwoTo16
  {
    match x case NaN => 0 case Fin(a) => TruncDiv(a, d) % TwoTo16
  }

  function Times(x: Num, k: int): Num {
    match x case NaN => NaN case Fin(a) => Fin(a * k)
  }

  /**
   * The fields the `DataView` receives: `36 + dataLength`, the channel count,
   * the sample rate, `sampleRate * numChannels * bitsPerSample / 8`,
   * `numChannels * bitsPerSample / 8`, the bit depth and `dataLength`, each
   * converted as `setUint16`/`setUint32` convert numbers.
   */
  function HeaderFields(dataLength: nat, o: WavOptions): (f: Fields)
    ensures f.InRange()
  {
    Fields(riffSize := (36 + dataLength) % TwoTo32,
           numChannels := o.numChannels % TwoTo16,
           sampleRate := ToUint32(o.sampleRate, 1),
           byteRate := ToUint32(Times(o.sampleRate, o.numChannels * o.bitsPerSample), 8),
           blockAlign := ToUint16(Fin(o.numChannels * o.bitsPerSample), 8),
           bitsPerSample := o.bitsPerSample % TwoTo16,
           dataSize := dataLength % TwoTo32)
  }

  /** For whole-byte sample sizes the byte rate and block align are the exact products. */
  lemma {:induction false} WholeByteRates(dataLength: nat, o: WavOptions, rate: nat)
    requires o.sampleRate == Fin(rate) && o.numChannels >= 0 && o.bitsPerSample >= 0 && o.bitsPerSample % 8 == 0
    requires rate * o.numChannels * (o.bitsPerSample / 8) < TwoTo32
    requires o.numChannels * (o.bitsPerSample / 8) < TwoTo16
    ensures HeaderFields(dataLength, o).byteRate == rate * o.numChannels * (o.bitsPerSample / 8)
    ensures HeaderFields(dataLength, o).blockAlign == o.numChannels * (o.bitsPerSample / 8)
  {
    var k := o.bitsPerSample / 8;
    var ch := o.numChannels;
    var p := ch * k;
    assert o.bitsPerSample == 8 * k;
    Products(rate, ch, k);
    Eighths(p);
    Eighths(rate * p);
  }

  /** The products the header needs, regrouped around eight bits per byte. */
  lemma {:induction false} Products(rate: nat, ch: nat, k: nat)
    ensures ch * (8 * k) == 8 * (ch * k) && rate * (8 * (ch * k)) == 8 * (rate * (ch * k))
    ensures rate * ch * k == rate * (ch * k) && ch * k >= 0 && rate * (ch * k) >= 0
  {
  }

  lemma {:induction false} Eighths(n: nat)
    ensures TruncDiv(8 * n, 8) == n
  {
  }

  method SetUint8(buf: array<byte>, off: nat, c: char)
    requires off < buf.Length && c as int < 128
    modifies buf
    ensures buf[off] as int == c as int
    ensures forall k :: 0 <= k < buf.Length && k != off ==> buf[k] == old(buf[k])
  {
    buf[off] := c as int as byte;
  }

  method SetUint16(buf: array<byte>, off: nat, v: int)
    requires off + 2 <= buf.Length && 0 <= v < TwoTo16
    modifies buf
    ensures buf[off..off + 2] == LeU16(v)
    ensures forall k :: 0 <= k < buf.Length && !(off <= k < off + 2) ==> buf[k] == old(buf[k])
  {
    buf[off] := (v % 256) as byte;
    buf[off + 1] := (v / 256) as byte;
  }

  method SetUint32(buf: array<byte>, off: nat, v: int)
    requires off + 4 <= buf.Length && 0 <= v < TwoTo32
    modifies buf
    ensures buf[off..off + 4] == LeU32(v)
    ensures forall k :: 0 <= k < buf.Length && !(off <= k < off + 4) ==> buf[k] == old(buf[k])
  {
    buf[off] := (v % 256) as byte;
    buf[off + 1] := (v / 256 % 256) as byte;
    buf[off + 2] := (v / 0x1_0000 % 256) as byte;
    buf[off + 3] := (v / 0x100_0000) as byte;
  }

  /** Bytes 0-11 of `createWavHeader`: "RIFF", the RIFF size, "WAVE". */
  method WriteRiffChunk(buf: array<byte>, f: Fields)
    requires buf.Length == 44 && f.InRange()
    modifies buf
    ensures buf[0..4] == Ascii("RIFF") && buf[4..8] == LeU32(f.riffSize) && buf[8..12] == Ascii("WAVE")
    ensures forall k :: 12 <= k < 44 ==> buf[k] == old(buf[k])
  {
    SetUint8(buf, 0, 'R'); SetUint8(buf, 1, 'I'); SetUint8(buf, 2, 'F'); SetUint8(buf, 3, 'F');
    SetUint32(buf, 4, f.riffSize);
    SetUint8(buf, 8, 'W'); SetUint8(buf, 9, 'A'); SetUint8(buf, 10, 'V'); SetUint8(buf, 11, 'E');
  }

  /** Bytes 12-23 of `createWavHeader`: "fmt ", chunk size 16, PCM, channel count. */
  method WriteFmtHead(buf: array<byte>, f: Fields)
    requires buf.Length == 44 && f.InRange()
    modifies buf
    ensures buf[12..16] == Ascii("fmt ") && buf[16..20] == LeU32(16) && buf[20..22] == LeU16(1)
    ensures buf[22..24] == LeU16(f.numChannels)
    ensures forall k :: 0 <= k < 44 && !(12 <= k < 24) ==> buf[k] == old(buf[k])
  {
    SetUint8(buf, 12, 'f'); SetUint8(buf, 13, 'm'); SetUint8(buf, 14, 't'); SetUint8(buf, 15, ' ');
    SetUint32(buf, 16, 16);
    SetUint16(buf, 20, 1);
    SetUint16(buf, 22, f.numChannels);
  }

  /** Bytes 24-35 of `createWavHeader`: sample rate, byte rate, block align, bit depth. */
  method WriteFmtRates(buf: array<byte>, f: Fields)
    requires buf.Length == 44 && f.InRange()
    modifies buf
    ensures buf[24..28] == LeU32(f.sampleRate) && buf[28..32] == LeU32(f.byteRate)
    ensures buf[32..34] == LeU16(f.blockAlign) && buf[34..36] == LeU16(f.bitsPerSample)
    ensures forall k :: 0 <= k < 44 && !(24 <= k < 36) ==> buf[k] == old(buf[k])
  {
    SetUint32(buf, 24, f.sampleRate);
    SetUint32(buf, 28, f.byteRate);
    SetUint16(buf, 32, f.blockAlign);
    SetUint16(buf, 34, f.bitsPerSample);
  }

  /** Bytes 36-43 of `createWavHeader`: "data" and the data length. */
  method WriteDataHead(buf: array<byte>, f: Fields)
    requires buf.Length == 44 && f.InRange()
    modifies buf
    ensures buf[36..40] == Ascii("data") && buf[40..44] == LeU32(f.dataSize)
    ensures forall k :: 0 <= k < 36 ==> buf[k] == old(buf[k])
  {
    SetUint8(buf, 36, 'd'); SetUint8(buf, 37, 'a'); SetUint8(buf, 38, 't'); SetUint8(buf, 39, 'a');
    SetUint32(buf, 40, f.dataSize);
  }

  /** `createWavHeader`: a 44-byte buffer written offset by offset. */
  method CreateWavHeader(dataLength: nat, o: WavOptions) returns (header: seq<byte>)
    ensures IsHeader(header, HeaderFields(dataLength, o))
  {
    var f := HeaderFields(dataLength, o);
    var buf := new byte[44];
    WriteRiffChunk(buf, f);
    ghost var riff := buf[0..12];
    WriteFmtHead(buf, f);
    assert buf[0..12] == riff;
    ghost var fmtHead := buf[0..24];
    WriteFmtRates(buf, f);
    assert buf[0..24] == fmtHead;
    ghost var fmt := buf[0..36];
    WriteDataHead(buf, f);
    assert buf[0..36] == fmt;
    header := buf[..];
  }

  /** `Uint8Array.prototype.set(src, off)`. */
  method CopyInto(dst: array<byte>, src: seq<byte>, off: nat)
    requires off + |src| <= dst.Length
    modifies dst
    ensures dst[off..off + |src|] == src
    ensures forall k :: 0 <= k < dst.Length && !(off <= k < off + |src|) ==> dst[k] == old(dst[k])
  {
    var i := 0;
    while i < |src|
      invariant 0 <= i <= |src|
      invariant dst[off..off + i] == src[..i]
      invariant forall k :: 0 <= k < dst.Length && !(off <= k < off + i) ==> dst[k] == old(dst[k])
    {
      dst[off + i] := src[i];
      assert dst[off..off + i + 1] == dst[off..off + i] + [src[i]];
      assert src[..i + 1] == src[..i] + [src[i]];
      i := i + 1;
    }
  }

  /** A chunk after `convertToWav`: the header for its length and MIME options, then the data. */
  function Wrapped(audio: seq<byte>, mimeType: string): seq<byte> {
    HeaderOf(HeaderFields(|audio|, MimeOptions(mimeType))) + audio
  }

  /** `convertToWav`: 44 header bytes followed by the audio, unchanged. */
  method ConvertToWav(audio: seq<byte>, mimeType: string) returns (r: seq<byte>)
    ensures r == Wrapped(audio, mimeType)
    ensures |r| == 44 + |audio| && r[44..] == audio
    ensures IsHeader(r[..44], HeaderFields(|audio|, MimeOptions(mimeType)))
  {
    var options := ParseMimeType(mimeType);
    var header := CreateWavHeader(|audio|, options);
    var result := new byte[|header| + |audio|];
    CopyInto(result, header, 0);
    CopyInto(result, audio, |header|);
    r := result[..];
    assert r[..44] == header && r[44..] == audio;
    HeaderUnique(header, HeaderOf(HeaderFields(|audio|, options)), HeaderFields(|audio|, options));
    assert r == r[..44] + r[44..];
  }

  // --------------------------------------------------------- synthesizeSpeech

  /** `inlineData` of one streamed chunk: the decoded payload (absent when `data` is empty) and the MIME type. */
  datatype InlineData = InlineData(data: Option<seq<byte>>, mimeType: Option<string>)

  /** The chunk goes through `convertToWav` only when a MIME type is given and does not mention "wav". */
  predicate NeedsWrapping(d: InlineData) {
    d.mimeType.Some? && d.mimeType.value != [] && !Contains(d.mimeType.value, "wav")
  }

  /** The buffer one chunk contributes: nothing, its bytes as they are, or its bytes wrapped. */
  function ChunkAudio(c: Option<InlineData>): seq<seq<byte>> {
    match c
    case None => []
    case Some(d) =>
      if d.data.None? then []
      else if NeedsWrapping(d) then [Wrapped(d.data.value, d.mimeType.value)]
      else [d.data.value]
  }

  /** `audioChunks` after the whole stream, in arrival order. */
  function AudioChunks(stream: seq<Option<InlineData>>): seq<seq<byte>> {
    if stream == [] then [] else AudioChunks(stream[..|stream| - 1]) + ChunkAudio(stream[|stream| - 1])
  }

  function Concat(chunks: seq<seq<byte>>): seq<byte> {
    if chunks == [] then [] else Concat(chunks[..|chunks| - 1]) + chunks[|chunks| - 1]
  }

  function TotalLength(chunks: seq<seq<byte>>): nat {
    if chunks == [] then 0 else TotalLength(chunks[..|chunks| - 1]) + |chunks[|chunks| - 1]|
  }

  lemma {:induction false} ConcatLength(chunks: seq<seq<byte>>)
    ensures |Concat(chunks)| == TotalLength(chunks)
  {
    if chunks != [] {
      ConcatLength(chunks[..|chunks| - 1]);
    }
  }

  /**
   * Every chunk appears in the joined buffer, at the offset given by the
   * lengths of the chunks before it.
   */
  lemma {:induction false} ConcatPlacesChunk(chunks: seq<seq<byte>>, i: nat)
    requires i < |chunks|
    ensures TotalLength(chunks[..i]) + |chunks[i]| <= |Concat(chunks)|
    ensures Concat(chunks)[TotalLength(chunks[..i])..TotalLength(chunks[..i]) + |chunks[i]|] == chunks[i]
  {
    var init := chunks[..|chunks| - 1];
    ConcatLength(init);
    if i == |chunks| - 1 {
      assert chunks[..i] == init;
    } else {
      assert init[..i] == chunks[..i];
      ConcatPlacesChunk(init, i);
      assert Concat(chunks)[..|Concat(init)|] == Concat(init);
    }
  }

  /** Joining the chunks: `result.set(chunk, offset)` at a moving offset. */
  method JoinChunks(chunks: seq<seq<byte>>) returns (r: seq<byte>)
    ensures r == Concat(chunks) && |r| == TotalLength(chunks)
  {
    var total := 0;
    var j := 0;
    while j < |chunks|
      invariant 0 <= j <= |chunks| && total == TotalLength(chunks[..j])
    {
      assert chunks[..j + 1][..j] == chunks[..j];
      total := total + |chunks[j]|;
      j := j + 1;
    }
    assert chunks[..j] == chunks;
    var result := new byte[total];
    var offset := 0;
    var i := 0;
    ConcatLength(chunks);
    while i < |chunks|
      invariant 0 <= i <= |chunks| && offset == TotalLength(chunks[..i]) && offset == |Concat(chunks[..i])|
      invariant offset <= result.Length && result[..offset] == Concat(chunks[..i])
    {
      ConcatLength(chunks[..i + 1]);
      assert chunks[..i + 1][..i] == chunks[..i];
      assert offset + |chunks[i]| <= result.Length by {
        ConcatPlacesChunk(chunks, i);
      }
      CopyInto(result, chunks[i], offset);
      assert result[..offset + |chunks[i]|] == result[..offset] + result[offset..offset + |chunks[i]|];
      offset := offset + |chunks[i]|;
      i := i + 1;
    }
    assert chunks[..i] == chunks;
    r := result[..];
  }

  class GeminiTtsProvider {
    /** `ai !== null`. */
    var initialized: bool
    var isSpeaking: bool
    var voiceName: string
    var temperature: real

    /** A given non-empty voice name and a given temperature replace the defaults "Zephyr" and 1. */
    constructor (configVoiceName: Option<string>, configTemperature: Option<real>)
      ensures voiceName == (if configVoiceName.Some? && configVoiceName.value != [] then configVoiceName.value else "Zephyr")
      ensures temperature == (if configTemperature.Some? then configTemperature.value else 1.0)
      ensures !initialized && !isSpeaking
    {
      initialized := false;
      isSpeaking := false;
      voiceName := if configVoiceName.Some? && configVoiceName.value != [] then configVoiceName.value else "Zephyr";
      temperature := if configTemperature.Some? then configTemperature.value else 1.0;
    }

    /** `initialize`: an empty API key is refused. */
    method Initialize(apiKey: string) returns (r: Result<(), string>)
      modifies this`initialized
      ensures r.Ok? <==> apiKey != []
      ensures initialized == (apiKey != [] || old(initialized))
    {
      if apiKey == [] {
        return Err("Failed to initialize Gemini TTS: Error: Gemini API key is required");
      }
      initialized := true;
      r := Ok(());
    }

    /**
     * `synthesizeSpeech` over a stream of chunks that the SDK delivers; `failure`
     * is the error the SDK raises, if any. Uninitialised, it throws before
     * touching `isSpeaking`; otherwise `isSpeaking` ends false on both paths.
     */
    method SynthesizeSpeech(stream: seq<Option<InlineData>>, failure: Option<string>) returns (r: Result<seq<byte>, string>)
      modifies this`isSpeaking
      ensures !old(initialized) ==> r == Err("Gemini TTS provider not initialized") && isSpeaking == old(isSpeaking)
      ensures old(initialized) ==> !isSpeaking
      ensures old(initialized) && failure.Some? ==> r == Err("Speech synthesis failed: " + failure.value)
      ensures old(initialized) && failure.None? ==> r == Ok(Concat(AudioChunks(stream)))
    {
      if !initialized {
        return Err("Gemini TTS provider not initialized");
      }
      isSpeaking := true;
      if failure.Some? {
        isSpeaking := false;
        return Err("Speech synthesis failed: " + failure.value);
      }
      var audioChunks: seq<seq<byte>> := [];
      var i := 0;
      while i < |stream|
        invariant 0 <= i <= |stream| && audioChunks == AudioChunks(stream[..i])
      {
        assert stream[..i + 1][..i] == stream[..i];
        var c := stream[i];
        if c.Some? && c.value.data.Some? {
          if NeedsWrapping(c.value) {
            var wav := ConvertToWav(c.value.data.value, c.value.mimeType.value);
            audioChunks := audioChunks + [wav];
          } else {
            audioChunks := audioChunks + [c.value.data.value];
          }
        }
        i := i + 1;
      }
      assert stream[..i] == stream;
      var result := JoinChunks(audioChunks);
      isSpeaking := false;
      r := Ok(result);
    }

    method GetIsSpeaking() returns (b: bool)
      ensures b == isSpeaking
    {
      b := isSpeaking;
    }

    /** `dispose`: drops the client and clears the speaking flag. */
    method Dispose()
      modifies this`initialized, this`isSpeaking
      ensures !initialized && !isSpeaking
    {
      initialized := false;
      isSpeaking := false;
    }
  }

  /** A chunk without a MIME type, or whose MIME type mentions "wav", passes through byte-identical. */
  lemma {:induction false} PassThroughChunk(d: InlineData)
    requires d.data.Some? && (d.mimeType.None? || d.mimeType.value == [] || Contains(d.mimeType.value, "wav"))
    ensures ChunkAudio(Some(d)) == [d.data.value]
  {
  }

  /** The joined buffer is as long as all chunk buffers together. */
  lemma {:induction false} SynthesizedLength(stream: seq<Option<InlineData>>)
    ensures |Concat(AudioChunks(stream))| == TotalLength(AudioChunks(stream))
  {
    ConcatLength(AudioChunks(stream));
  }
}
