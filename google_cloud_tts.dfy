/**
 * The Python text-to-speech backend (`GoogleCloudTTSService`): the Chirp 3 HD
 * voice catalogue, removal of an accidentally repeated utterance, and wrapping
 * 16-bit mono 24 kHz PCM in a WAV header.
 */
module GoogleCloudTts {
  import opened Wrappers
  import opened WavFormat

  datatype Gender = Female | Male

  /** `CHIRP3_HD_VOICES`, in declaration order. */
  const Voices: seq<(string, Gender)> := [
    ("Aoede", Female), ("Puck", Male), ("Charon", Male), ("Kore", Female),
    ("Fenrir", Male), ("Leda", Female), ("Orus", Male), ("Zephyr", Female)]

  /** The catalogue keys, in order. */
  function VoiceNames(): (r: seq<string>)
    ensures |r| == |Voices| && forall i :: 0 <= i < |Voices| ==> r[i] == Voices[i].0
  {
    seq(|Voices|, i requires 0 <= i < |Voices| => Voices[i].0)
  }

  predicate IsVoice(name: string) { name in VoiceNames() }

  // ---------------------------------------------------------------- WAV header

  /** The fields `_create_wav_header` writes for `dataSize` bytes of 24 kHz mono 16-bit PCM. */
  function HeaderFields(dataSize: int): Fields {
    Fields(riffSize := dataSize + 36, numChannels := 1, sampleRate := 24000, byteRate := 48000,
           blockAlign := 2, bitsPerSample := 16, dataSize := dataSize)
  }

  /** `struct.pack('<I', …)` raising `struct.error` for the RIFF size 2^32 or more. */
  datatype HeaderError = StructError

  /**
   * `_create_wav_header`: the canonical header for this PCM, built field by
   * field; it raises once the RIFF size (data size + 36) does not fit 32 bits.
   */
  method CreateWavHeader(pcm: seq<byte>) returns (r: Result<seq<byte>, HeaderError>)
    ensures r.Err? <==> |pcm| + 36 >= TwoTo32
    ensures r.Ok? ==> HeaderFields(|pcm|).InRange() && IsHeader(r.value, HeaderFields(|pcm|))
  {
    var sampleRate := 24000;
    var numChannels := 1;
    var bitsPerSample := 16;
    var byteRate := sampleRate * numChannels * bitsPerSample / 8;
    var blockAlign := numChannels * bitsPerSample / 8;
    var dataSize := |pcm|;
    var fileSize := dataSize + 36;
    if fileSize >= TwoTo32 {
      // the first `struct.pack('<I', file_size)` raises; nothing is returned
      return Err(StructError);
    }
    var header := Ascii("RIFF");
    header := header + LeU32(fileSize);
    header := header + Ascii("WAVE");
    header := header + Ascii("fmt ");
    header := header + LeU32(16);
    header := header + LeU16(1);
    header := header + LeU16(numChannels);
    header := header + LeU32(sampleRate);
    header := header + LeU32(byteRate);
    header := header + LeU16(blockAlign);
    header := header + LeU16(bitsPerSample);
    header := header + Ascii("data");
    header := header + LeU32(dataSize);
    assert byteRate == 48000 && blockAlign == 2;
    assert header == HeaderOf(HeaderFields(dataSize));
    r := Ok(header);
  }

  /** The header of any PCM that fits: 44 bytes whose fields read back as the source's constants. */
  lemma {:induction false} HeaderConstants(h: seq<byte>, dataSize: nat)
    requires dataSize + 36 < TwoTo32 && IsHeader(h, HeaderFields(dataSize))
    ensures |h| == 44
    ensures h[0..4] == Ascii("RIFF") && h[8..12] == Ascii("WAVE")
    ensures h[12..16] == Ascii("fmt ") && h[36..40] == Ascii("data")
    ensures ReadU32(h, 4) == dataSize + 36 && ReadU32(h, 40) == dataSize
    ensures ReadU32(h, 16) == 16 && ReadU16(h, 20) == 1 && ReadU16(h, 22) == 1
    ensures ReadU32(h, 24) == 24000 && ReadU32(h, 28) == 48000
    ensures ReadU16(h, 32) == 2 && ReadU16(h, 34) == 16
  {
    HeaderReadBack(h, HeaderFields(dataSize));
  }

  // ------------------------------------------------------- duplicate removal

  /** `int(sample_rate * 0.5)` at 24 kHz: half a second, in samples. */
  const MinChunkSamples: int := 12000
  /** `sample_rate * 0.1` at 24 kHz: the tolerated remainder, in samples. */
  const MaxRemainder: int := 2400

  /**
   * The correlation test: `similar(a, b)` holds when the Pearson correlation of
   * the amplitude-normalised 16-bit samples encoded by `a` and `b` exceeds 0.95.
   */
  type Similar = (seq<byte>, seq<byte>) -> bool

  predicate TripleGuard(n: nat) { n / 3 > MinChunkSamples && n % 3 < MaxRemainder }

  predicate DoubleGuard(n: nat) { n / 2 > MinChunkSamples && n % 2 < MaxRemainder }

  /** The three thirds of the samples are pairwise similar. */
  predicate TripleRepeat(pcm: seq<byte>, similar: Similar)
    requires |pcm| % 2 == 0
  {
    var n := |pcm| / 2;
    var t := n / 3;
    TripleGuard(n)
    && similar(pcm[..2 * t], pcm[2 * t..4 * t])
    && similar(pcm[2 * t..4 * t], pcm[4 * t..6 * t])
    && similar(pcm[..2 * t], pcm[4 * t..6 * t])
  }

  /** The two halves of the samples are similar. */
  predicate DoubleRepeat(pcm: seq<byte>, similar: Similar)
    requires |pcm| % 2 == 0
  {
    var n := |pcm| / 2;
    var h := n / 2;
    DoubleGuard(n) && similar(pcm[..2 * h], pcm[2 * h..4 * h])
  }

  /**
   * `_remove_duplicate_audio` as written. Odd-length data makes `np.frombuffer`
   * raise and comes back unchanged, as does empty data. The double check calls
   * `normalize_audio`, which is defined only inside the triple-check branch:
   * when that branch was not entered the call raises `UnboundLocalError`, which
   * the handler turns into "return the input".
   */
  function RemoveDuplicateAudioAsWritten(pcm: seq<byte>, similar: Similar): seq<byte> {
    if |pcm| % 2 != 0 || |pcm| == 0 then pcm
    else
      var n := |pcm| / 2;
      if TripleGuard(n) then
        if TripleRepeat(pcm, similar) then pcm[..2 * (n / 3)]
        else if DoubleRepeat(pcm, similar) then pcm[..2 * (n / 2)]
        else pcm
      else pcm
  }

  /** `_remove_duplicate_audio` with the double check independent of the triple branch. */
  function RemoveDuplicateAudio(pcm: seq<byte>, similar: Similar): (r: seq<byte>)
    ensures r == pcm || (|pcm| % 2 == 0 && r == pcm[..2 * (|pcm| / 2 / 3)] && |pcm| / 2 / 3 > MinChunkSamples)
                     || (|pcm| % 2 == 0 && r == pcm[..2 * (|pcm| / 2 / 2)] && |pcm| / 2 / 2 > MinChunkSamples)
  {
    if |pcm| % 2 != 0 || |pcm| == 0 then pcm
    else
      var n := |pcm| / 2;
      if TripleRepeat(pcm, similar) then pcm[..2 * (n / 3)]
      else if DoubleRepeat(pcm, similar) then pcm[..2 * (n / 2)]
      else pcm
  }

  /**
   * Duplicate removal changes the data exactly when a repetition was detected,
   * and then keeps a strict, sample-aligned prefix that was judged similar to
   * the audio right after it; a triple repetition takes precedence.
   */
  lemma {:induction false} RemoveDuplicateAudioCuts(pcm: seq<byte>, similar: Similar)
    ensures var r := RemoveDuplicateAudio(pcm, similar);
      (r != pcm <==> |pcm| % 2 == 0 && |pcm| > 0 && (TripleRepeat(pcm, similar) || DoubleRepeat(pcm, similar)))
      && (r != pcm ==> |r| < |pcm| && |r| % 2 == 0 && 2 * |r| <= |pcm| && r == pcm[..|r|]
                       && similar(r, pcm[|r|..2 * |r|]))
      && (|pcm| % 2 == 0 && TripleRepeat(pcm, similar) ==> |r| == 2 * (|pcm| / 2 / 3))
  {
    if |pcm| % 2 == 0 && |pcm| > 0 {
      if TripleRepeat(pcm, similar) {
        TripleCut(pcm, similar);
      } else if DoubleRepeat(pcm, similar) {
        DoubleCut(pcm, similar);
      }
    }
  }

  /** The cut a triple repetition makes: the first third, similar to the second. */
  lemma {:induction false} TripleCut(pcm: seq<byte>, similar: Similar)
    requires |pcm| % 2 == 0 && TripleRepeat(pcm, similar)
    ensures var r := pcm[..2 * (|pcm| / 2 / 3)];
      |r| < |pcm| && |r| % 2 == 0 && 2 * |r| <= |pcm| && similar(r, pcm[|r|..2 * |r|])
  {
    var t := |pcm| / 2 / 3;
    assert 2 * t < |pcm| && 4 * t <= |pcm|;
  }

  /** The cut a double repetition makes: the first half, similar to the second. */
  lemma {:induction false} DoubleCut(pcm: seq<byte>, similar: Similar)
    requires |pcm| % 2 == 0 && DoubleRepeat(pcm, similar)
    ensures var r := pcm[..2 * (|pcm| / 2 / 2)];
      |r| < |pcm| && |r| % 2 == 0 && 2 * |r| <= |pcm| && similar(r, pcm[|r|..2 * |r|])
  {
    var h := |pcm| / 2 / 2;
    assert 2 * h < |pcm| && 4 * h <= |pcm|;
  }

  /** Odd-length and empty data always come back unchanged. */
  lemma {:induction false} RemoveDuplicateAudioKeepsMalformed(pcm: seq<byte>, similar: Similar)
    requires |pcm| % 2 != 0 || |pcm| == 0
    ensures RemoveDuplicateAudio(pcm, similar) == pcm && RemoveDuplicateAudioAsWritten(pcm, similar) == pcm
  {
  }

  /** Wherever the triple check is attempted, the code as written and the corrected one agree. */
  lemma {:induction false} AsWrittenAgreesWithinTripleGuard(pcm: seq<byte>, similar: Similar)
    requires |pcm| % 2 == 0 && TripleGuard(|pcm| / 2)
    ensures RemoveDuplicateAudioAsWritten(pcm, similar) == RemoveDuplicateAudio(pcm, similar)
  {
  }

  /**
   * As written, data of 24002 to 36002 samples is never shortened, whatever the
   * correlation says: the double check is guarded but always raises there.
   */
  lemma {:induction false} AsWrittenNeverHalvesShortAudio(pcm: seq<byte>, similar: Similar)
    requires |pcm| % 2 == 0 && 24002 <= |pcm| / 2 <= 36002
    ensures DoubleGuard(|pcm| / 2) && !TripleGuard(|pcm| / 2)
    ensures RemoveDuplicateAudioAsWritten(pcm, similar) == pcm
  {
  }

  /**
   * A 1.25-second utterance (15000 samples) repeated twice: as written the
   * repetition survives, the corrected function keeps one copy.
   */
  lemma {:induction false} AsWrittenMissesDoubleRepeat(u: seq<byte>, similar: Similar)
    requires |u| == 30000 && similar(u, u)
    ensures RemoveDuplicateAudioAsWritten(u + u, similar) == u + u
    ensures RemoveDuplicateAudio(u + u, similar) == u
  {
    var pcm := u + u;
    assert pcm[..30000] == u && pcm[30000..60000] == u;
    assert DoubleRepeat(pcm, similar);
  }

  // ------------------------------------------------------------- orchestration

  /** `VoiceSelectionParams`: language code and the full voice name. */
  datatype VoiceSelection = VoiceSelection(languageCode: string, name: string)

  /** The request sent to the provider (LINEAR16, rate 1.0, pitch 0, gain 0 dB). */
  datatype SynthesisRequest = SynthesisRequest(text: string, voice: VoiceSelection)

  datatype TtsError =
    | InvalidVoice(available: seq<string>)   // the `ValueError`, listing the catalogue keys
    | HeaderOverflow                         // `struct.error` from the header

  datatype Synthesis = Synthesis(request: SynthesisRequest, wav: seq<byte>)

  /**
   * `synthesize_speech`. The provider call and the fade stage are parameters.
   * An unknown voice fails before any request exists; otherwise the provider's
   * PCM is de-duplicated, then faded, then prefixed by its header.
   */
  method SynthesizeSpeech(text: string, voiceName: string, languageCode: string,
                          provider: SynthesisRequest -> seq<byte>, fade: seq<byte> -> seq<byte>,
                          similar: Similar)
    returns (r: Result<Synthesis, TtsError>)
    ensures !IsVoice(voiceName) ==> r == Err(InvalidVoice(VoiceNames()))
    ensures IsVoice(voiceName) ==>
      var req := SynthesisRequest(text, VoiceSelection(languageCode, languageCode + "-Chirp3-HD-" + voiceName));
      var p := fade(RemoveDuplicateAudio(provider(req), similar));
      if |p| + 36 >= TwoTo32 then r == Err(HeaderOverflow)
      else r.Ok? && r.value.request == req && |r.value.wav| == 44 + |p| && r.value.wav[44..] == p
           && IsHeader(r.value.wav[..44], HeaderFields(|p|))
  {
    if voiceName !in VoiceNames() {
      return Err(InvalidVoice(VoiceNames()));
    }
    var request := SynthesisRequest(text, VoiceSelection(languageCode, languageCode + "-Chirp3-HD-" + voiceName));
    var audio := provider(request);
    var cleaned := RemoveDuplicateAudio(audio, similar);
    var faded := fade(cleaned);
    var header := CreateWavHeader(faded);
    if header.Err? {
      return Err(HeaderOverflow);
    }
    var wav := header.value + faded;
    assert wav[..44] == header.value && wav[44..] == faded;
    r := Ok(Synthesis(request, wav));
  }

  /**
   * `synthesize_speech` called with its default arguments, the voice Kore and
   * the language ja-JP: the voice is always accepted, so only the header can fail.
   */
  method SynthesizeSpeechWithDefaults(text: string, provider: SynthesisRequest -> seq<byte>,
                                      fade: seq<byte> -> seq<byte>, similar: Similar)
    returns (r: Result<Synthesis, TtsError>)
    ensures r.Err? ==> r == Err(HeaderOverflow)
    ensures r.Ok? ==> r.value.request == SynthesisRequest(text, VoiceSelection("ja-JP", "ja-JP-Chirp3-HD-Kore"))
  {
    assert VoiceNames()[3] == "Kore";
    r := SynthesizeSpeech(text, "Kore", "ja-JP", provider, fade, similar);
  }

  /** One entry of `get_available_voices`. */
  datatype VoiceInfo = VoiceInfo(name: string, gender: Gender, languageCode: string, model: string)

  /** `get_available_voices`: one record per catalogue entry, in catalogue order. */
  function AvailableVoices(): (r: seq<VoiceInfo>)
    ensures |r| == |Voices|
    ensures forall i :: 0 <= i < |r| ==>
      r[i].name == Voices[i].0 && r[i].gender == Voices[i].1 && r[i].languageCode == "ja-JP" && r[i].model == "Chirp3-HD"
  {
    seq(|Voices|, i requires 0 <= i < |Voices| => VoiceInfo(Voices[i].0, Voices[i].1, "ja-JP", "Chirp3-HD"))
  }

  /** The voices offered are exactly the ones synthesis accepts. */
  lemma {:induction false} AvailableVoicesAreAccepted(name: string)
    ensures IsVoice(name) <==> exists i :: 0 <= i < |AvailableVoices()| && AvailableVoices()[i].name == name
  {
    var v := AvailableVoices();
    if IsVoice(name) {
      var i :| 0 <= i < |VoiceNames()| && VoiceNames()[i] == name;
      assert v[i].name == name;
    }
  }
}
