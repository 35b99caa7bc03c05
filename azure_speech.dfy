/**
 * The speech service around the Azure Speech SDK: recognition results are
 * rewritten from readings to dictionary terms, text to be spoken is turned
 * into SSML when it names a dictionary term, and the service keeps its
 * recognising/speaking flags and callback lists. The SDK objects are modelled
 * only by whether they exist; what the SDK does with audio is not modelled.
 */
module AzureSpeech {
  import opened Wrappers
  import opened JsText
  import opened StationDictionary
  import opened Callbacks

  // ----- Converting recognised text -----

  /** One replacement step of the conversion: every occurrence of `from` becomes `term`. */
  function ReplaceIfPresent(t: string, from: string, term: string): string {
    if Contains(t, from) then ReplaceAll(t, from, term) else t
  }

  /** The alternative spellings of one entry replaced, in their order. */
  function ReplaceSpellings(t: string, spellings: seq<string>, term: string): string {
    if spellings == [] then t
    else ReplaceIfPresent(ReplaceSpellings(t, spellings[..|spellings| - 1], term), spellings[|spellings| - 1], term)
  }

  /** One entry: its reading, then each alternative spelling, becomes its term. */
  function ConvertEntry(t: string, e: TermPronunciation): string {
    var afterReading := ReplaceIfPresent(t, e.reading, e.term);
    if e.alternativeSpellings.Some? then ReplaceSpellings(afterReading, e.alternativeSpellings.value, e.term)
    else afterReading
  }

  /** The whole conversion, entry by entry in dictionary order. */
  function Convert(dict: seq<TermPronunciation>, t: string): string {
    if dict == [] then t else ConvertEntry(Convert(dict[..|dict| - 1], t), dict[|dict| - 1])
  }

  /** `convertRecognizedText`: the nested `forEach` loops. */
  method ConvertRecognizedText(dict: seq<TermPronunciation>, text: string) returns (r: string)
    ensures r == Convert(dict, text)
  {
    var convertedText := text;
    for i := 0 to |dict|
      invariant convertedText == Convert(dict[..i], text)
    {
      var term := dict[i];
      assert dict[..i + 1][..i] == dict[..i];
      if Contains(convertedText, term.reading) {
        convertedText := ReplaceAll(convertedText, term.reading, term.term);
      }
      if term.alternativeSpellings.Some? {
        var spellings := term.alternativeSpellings.value;
        var base := convertedText;
        for j := 0 to |spellings|
          invariant convertedText == ReplaceSpellings(base, spellings[..j], term.term)
        {
          assert spellings[..j + 1][..j] == spellings[..j];
          var spelling := spellings[j];
          if Contains(convertedText, spelling) {
            convertedText := ReplaceAll(convertedText, spelling, term.term);
          }
        }
        assert spellings[..|spellings|] == spellings;
      }
    }
    assert dict[..|dict|] == dict;
    r := convertedText;
  }

  /** The readings and spellings an entry rewrites. */
  predicate Spoken(e: TermPronunciation, x: string) {
    x == e.reading || (e.alternativeSpellings.Some? && x in e.alternativeSpellings.value)
  }

  lemma {:induction false} ReplaceSpellingsAbsent(t: string, spellings: seq<string>, term: string)
    requires forall k :: 0 <= k < |spellings| ==> !Contains(t, spellings[k])
    ensures ReplaceSpellings(t, spellings, term) == t
  {
    if spellings != [] {
      ReplaceSpellingsAbsent(t, spellings[..|spellings| - 1], term);
    }
  }

  /** A text holding no reading and no alternative spelling is left as it is. */
  lemma {:induction false} ConvertAbsent(dict: seq<TermPronunciation>, t: string)
    requires forall k, x :: 0 <= k < |dict| && Spoken(dict[k], x) ==> !Contains(t, x)
    ensures Convert(dict, t) == t
  {
    if dict != [] {
      var e := dict[|dict| - 1];
      ConvertAbsent(dict[..|dict| - 1], t);
      assert Spoken(e, e.reading);
      if e.alternativeSpellings.Some? {
        var sp := e.alternativeSpellings.value;
        forall k | 0 <= k < |sp| ensures !Contains(t, sp[k]) {
          assert Spoken(e, sp[k]);
        }
        ReplaceSpellingsAbsent(t, sp, e.term);
      }
    }
  }

  /** The entries apply one after the other: converting with `a + b` is converting with `a`, then with `b`. */
  lemma {:induction false} ConvertAppend(a: seq<TermPronunciation>, b: seq<TermPronunciation>, t: string)
    ensures Convert(a + b, t) == Convert(b, Convert(a, t))
  {
    if b == [] {
      assert a + b == a;
    } else {
      ConvertAppend(a, b[..|b| - 1], t);
      assert (a + b)[..|a + b| - 1] == a + b[..|b| - 1];
    }
  }

  /** Against the fallback dictionary the katakana spelling is rewritten to the station name. */
  lemma {:induction false} ConvertFallbackSpelling()
    ensures Convert(Fallback(), "イタブ駅") == "飯給駅"
  {
    var t := "イタブ駅";
    assert !Contains(t, "いたぶ") by {
      forall j | 0 <= j <= |t| ensures !IsAt(t, "いたぶ", j) {
        if j + 3 <= |t| {
          assert t[j] != 'い';
        }
      }
    }
    assert StartsWith(t, "イタブ");
    assert IsAt(t, "イタブ", 0);
    assert ReplaceAll(t, "イタブ", "飯給") == "飯給" + ReplaceAll("駅", "イタブ", "飯給");
    assert ReplaceAll("駅", "イタブ", "飯給") == "駅";
    assert ReplaceSpellings(t, ["いたぶ"], "飯給") == t;
    assert ["いたぶ", "イタブ"][..1] == ["いたぶ"];
  }

  // ----- Text to speech -----

  /** `dictionary.forEach(term => { if (text.includes(term.term)) hasTargetTerm = true })`. */
  predicate HasTargetTerm(dict: seq<TermPronunciation>, text: string) {
    exists k :: 0 <= k < |dict| && Contains(text, dict[k].term)
  }

  function SubTag(e: TermPronunciation): string {
    "<sub alias=\"" + e.reading + "\">" + e.term + "</sub>"
  }

  /**
   * The substitutions, entry by entry: an entry whose term occurs in the
   * original `text` and that has a reading replaces its term in `s` by its
   * `sub` tag.
   */
  function Substitute(dict: seq<TermPronunciation>, text: string, s: string): string {
    if dict == [] then s
    else
      var e := dict[|dict| - 1];
      var t := Substitute(dict[..|dict| - 1], text, s);
      if Contains(text, e.term) && e.reading != [] then ReplaceAll(t, e.term, SubTag(e)) else t
  }

  const DefaultVoice := "ja-JP-NanamiNeural"

  /** `this.config.voiceName || 'ja-JP-NanamiNeural'`. */
  function VoiceOf(voiceName: string): string { if voiceName != [] then voiceName else DefaultVoice }

  const SpeakOpen := "<speak" + " version=\"1.0\" xmlns=\"http://www.w3.org/2001/10/synthesis\" xml:lang=\"ja-JP\">"

  function SsmlDocument(voice: string, ssmlText: string): string {
    SpeakOpen + "\n      <voice name=\"" + voice + "\">\n        " + ssmlText + "\n      </voice>\n    </speak>"
  }

  /** `processTextForPronunciation`, as a value. */
  function Pronunciation(dict: seq<TermPronunciation>, text: string, voiceName: string): string {
    if !HasTargetTerm(dict, text) then text else SsmlDocument(VoiceOf(voiceName), Substitute(dict, text, text))
  }

  /** `processTextForPronunciation`: the flag loop, then the substitution loop. */
  method ProcessTextForPronunciation(dict: seq<TermPronunciation>, text: string, voiceName: string)
    returns (r: string)
    ensures r == Pronunciation(dict, text, voiceName)
  {
    var hasTargetTerm := false;
    for i := 0 to |dict|
      invariant hasTargetTerm <==> exists k :: 0 <= k < i && Contains(text, dict[k].term)
    {
      if Contains(text, dict[i].term) {
        hasTargetTerm := true;
      }
    }
    if !hasTargetTerm {
      return text;
    }
    var ssmlText := text;
    for i := 0 to |dict|
      invariant ssmlText == Substitute(dict[..i], text, text)
    {
      var term := dict[i];
      assert dict[..i + 1][..i] == dict[..i];
      if Contains(text, term.term) {
        if term.reading != [] {
          ssmlText := ReplaceAll(ssmlText, term.term, SubTag(term));
        }
      }
    }
    assert dict[..|dict|] == dict;
    r := SsmlDocument(VoiceOf(voiceName), ssmlText);
  }

  /** Text naming no dictionary term is spoken as it is. */
  lemma {:induction false} PronunciationPlain(dict: seq<TermPronunciation>, text: string, voiceName: string)
    requires forall k :: 0 <= k < |dict| ==> !Contains(text, dict[k].term)
    ensures Pronunciation(dict, text, voiceName) == text
  {
  }

  lemma {:induction false} SsmlDocumentFrame(voice: string, ssmlText: string)
    ensures StartsWith(SsmlDocument(voice, ssmlText), "<speak")
    ensures EndsWith(SsmlDocument(voice, ssmlText), "</speak>")
  {
    var rest := "\n      <voice name=\"" + voice + "\">\n        " + ssmlText + "\n      </voice>\n    ";
    var d := SsmlDocument(voice, ssmlText);
    assert d == SpeakOpen + rest + "</speak>";
    assert d[..|SpeakOpen|] == SpeakOpen;
    assert SpeakOpen[..6] == "<speak" by {
      assert ("<speak" + SpeakOpen[6..])[..6] == "<speak";
    }
    assert d[..6] == d[..|SpeakOpen|][..6];
    assert d[|d| - 8..] == "</speak>";
  }

  /**
   * Text naming a dictionary term becomes an SSML document: it starts with
   * `<speak`, which selects the SSML synthesis call, and ends with `</speak>`.
   */
  lemma {:induction false} PronunciationSsml(dict: seq<TermPronunciation>, text: string, voiceName: string)
    requires HasTargetTerm(dict, text)
    ensures StartsWith(Pronunciation(dict, text, voiceName), "<speak")
    ensures EndsWith(Pronunciation(dict, text, voiceName), "</speak>")
  {
    SsmlDocumentFrame(VoiceOf(voiceName), Substitute(dict, text, text));
  }

  lemma {:induction false} SubstituteSkips(dict: seq<TermPronunciation>, text: string, s: string)
    requires forall k :: 0 <= k < |dict| ==> !Contains(text, dict[k].term) || dict[k].reading == []
    ensures Substitute(dict, text, s) == s
  {
    if dict != [] {
      SubstituteSkips(dict[..|dict| - 1], text, s);
    }
  }

  /**
   * When one entry with a reading is the only one whose term occurs, the
   * spoken document carries its `sub` tag.
   */
  lemma {:induction false} PronunciationTagsTerm(dict: seq<TermPronunciation>, text: string, voiceName: string, k: nat)
    requires k < |dict| && dict[k].term != [] && dict[k].reading != [] && Contains(text, dict[k].term)
    requires forall i :: 0 <= i < |dict| && i != k ==> !Contains(text, dict[i].term)
    ensures Contains(Pronunciation(dict, text, voiceName), SubTag(dict[k]))
  {
    var e := dict[k];
    SubstituteSkips(dict[..k], text, text);
    assert dict[..k + 1][..k] == dict[..k];
    var tagged := ReplaceAll(text, e.term, SubTag(e));
    assert Substitute(dict[..k + 1], text, text) == tagged;
    SubstituteSkipsAfter(dict, text, k + 1, tagged);
    ReplaceAllIntroduces(text, e.term, SubTag(e));
    assert Pronunciation(dict, text, voiceName) == SpeakOpen + "\n      <voice name=\"" + VoiceOf(voiceName)
      + "\">\n        " + tagged + "\n      </voice>\n    </speak>";
    ContainsInside(SpeakOpen + "\n      <voice name=\"" + VoiceOf(voiceName) + "\">\n        ", tagged,
      "\n      </voice>\n    </speak>", SubTag(e));
  }

  lemma {:induction false} SubstituteSkipsAfter(dict: seq<TermPronunciation>, text: string, n: nat, s: string)
    requires n <= |dict| && Substitute(dict[..n], text, text) == s
    requires forall i :: n <= i < |dict| ==> !Contains(text, dict[i].term)
    ensures Substitute(dict, text, text) == s
    decreases |dict| - n
  {
    if n < |dict| {
      assert dict[..n + 1][..n] == dict[..n];
      SubstituteSkipsAfter(dict, text, n + 1, s);
    } else {
      assert dict[..n] == dict;
    }
  }

  // ----- The service -----

  /** What the SDK reports for a single recognition. */
  datatype RecognitionOutcome = RecognizedSpeech(text: string) | NoMatch | OtherReason | RecognitionFailed(error: string)

  /** What the SDK reports for a synthesis: completed, another reason with its details, or an error. */
  datatype SynthesisOutcome = Completed | NotCompleted(errorDetails: string) | SynthesisFailed(error: string)

  /** The call handed to the synthesizer: the text and whether it is SSML. */
  datatype SynthesisRequest = SynthesisRequest(text: string, ssml: bool)

  const NotInitialized := "Speech service not initialized"

  /** The message `initialize` rethrows when the subscription key is missing. */
  const MissingKey := "Failed to initialize Azure Speech Service: Error: subscriptionKey is required but was not provided"

  class AzureSpeechService {
    const subscriptionKey: string
    const region: string
    const language: string
    const voiceName: string
    var hasSpeechConfig: bool
    var hasRecognizer: bool
    var hasSynthesizer: bool
    var recognitionLanguage: string
    var synthesisVoiceName: string
    var phraseList: seq<string>
    var recognizedCallbacks: seq<nat>
    var recognizingCallbacks: seq<nat>
    var errorCallbacks: seq<nat>
    var isRecognizing: bool
    var isSpeaking: bool

    /** The configuration's absent fields are empty strings. */
    constructor(subscriptionKey: string, region: string, language: string, voiceName: string)
      ensures this.subscriptionKey == subscriptionKey && this.region == region
      ensures this.language == language && this.voiceName == voiceName
      ensures !hasSpeechConfig && !hasRecognizer && !hasSynthesizer && phraseList == []
      ensures recognizedCallbacks == [] && recognizingCallbacks == [] && errorCallbacks == []
      ensures !isRecognizing && !isSpeaking
    {
      this.subscriptionKey := subscriptionKey;
      this.region := region;
      this.language := language;
      this.voiceName := voiceName;
      hasSpeechConfig, hasRecognizer, hasSynthesizer := false, false, false;
      recognitionLanguage, synthesisVoiceName := [], [];
      phraseList := [];
      recognizedCallbacks, recognizingCallbacks, errorCallbacks := [], [], [];
      isRecognizing, isSpeaking := false, false;
    }

    /**
     * `initialize`: without a subscription key it fails and changes nothing;
     * otherwise it creates the config, recognizer and synthesizer and loads
     * the dictionary's recognition phrases into a new phrase list.
     */
    method Initialize(dictionary: TermDictionary) returns (r: Result<(), string>)
      modifies this
      ensures subscriptionKey == [] ==>
        r == Err(MissingKey)
      ensures subscriptionKey == [] ==> unchanged(this)
      ensures subscriptionKey != [] ==> (r.Ok? && hasSpeechConfig && hasRecognizer && hasSynthesizer
        && recognitionLanguage == (if language != [] then language else "ja-JP")
        && synthesisVoiceName == VoiceOf(voiceName)
        && phraseList == Dedup(AllPhrases(dictionary.entries)))
      ensures recognizedCallbacks == old(recognizedCallbacks) && recognizingCallbacks == old(recognizingCallbacks)
      ensures errorCallbacks == old(errorCallbacks)
      ensures isRecognizing == old(isRecognizing) && isSpeaking == old(isSpeaking)
    {
      if subscriptionKey == [] {
        return Err(MissingKey);
      }
      var phrases := dictionary.GetRecognitionPhrases();
      CreateClients(phrases);
      r := Ok(());
    }

    /** The config, the recognizer with its phrase list, and the synthesizer that `initialize` creates. */
    method CreateClients(phrases: seq<string>)
      modifies this
      ensures hasSpeechConfig && hasRecognizer && hasSynthesizer
      ensures recognitionLanguage == (if language != [] then language else "ja-JP")
      ensures synthesisVoiceName == VoiceOf(voiceName) && phraseList == phrases
      ensures recognizedCallbacks == old(recognizedCallbacks) && recognizingCallbacks == old(recognizingCallbacks)
      ensures errorCallbacks == old(errorCallbacks)
      ensures isRecognizing == old(isRecognizing) && isSpeaking == old(isSpeaking)
    {
      hasSpeechConfig := true;
      recognitionLanguage := if language != [] then language else "ja-JP";
      synthesisVoiceName := VoiceOf(voiceName);
      hasRecognizer := true;
      phraseList := phrases;
      hasSynthesizer := true;
    }

    /** `startContinuousRecognition`: throws uninitialised, does nothing while recognising. */
    method StartContinuousRecognition() returns (r: Result<(), string>)
      modifies this
      ensures !old(hasRecognizer) ==> r == Err(NotInitialized) && unchanged(this)
      ensures old(hasRecognizer) ==> r.Ok? && isRecognizing
      ensures old(hasRecognizer) && old(isRecognizing) ==> unchanged(this)
      ensures hasRecognizer == old(hasRecognizer) && hasSynthesizer == old(hasSynthesizer)
      ensures isSpeaking == old(isSpeaking) && phraseList == old(phraseList)
      ensures recognizedCallbacks == old(recognizedCallbacks) && errorCallbacks == old(errorCallbacks)
      ensures recognizingCallbacks == old(recognizingCallbacks)
      ensures hasSpeechConfig == old(hasSpeechConfig) && recognitionLanguage == old(recognitionLanguage)
      ensures synthesisVoiceName == old(synthesisVoiceName)
    {
      if !hasRecognizer {
        return Err(NotInitialized);
      }
      if isRecognizing {
        return Ok(());
      }
      isRecognizing := true;
      r := Ok(());
    }

    /** `stopContinuousRecognition`: does nothing unless initialised and recognising. */
    method StopContinuousRecognition()
      modifies this
      ensures !old(hasRecognizer) || !old(isRecognizing) ==> unchanged(this)
      ensures old(hasRecognizer) ==> !isRecognizing
      ensures hasRecognizer == old(hasRecognizer) && hasSynthesizer == old(hasSynthesizer)
      ensures isSpeaking == old(isSpeaking) && phraseList == old(phraseList)
      ensures recognizedCallbacks == old(recognizedCallbacks) && errorCallbacks == old(errorCallbacks)
      ensures recognizingCallbacks == old(recognizingCallbacks)
      ensures hasSpeechConfig == old(hasSpeechConfig) && recognitionLanguage == old(recognitionLanguage)
      ensures synthesisVoiceName == old(synthesisVoiceName)
    {
      if !hasRecognizer || !isRecognizing {
        return;
      }
      isRecognizing := false;
    }

    /** `recognizeSpeech`: the promise's outcome for what the SDK reports. */
    function RecognizeSpeech(outcome: RecognitionOutcome): (r: Result<string, string>)
      reads this
      ensures !hasRecognizer ==> r == Err(NotInitialized)
      ensures hasRecognizer && outcome.RecognizedSpeech? ==> r == Ok(outcome.text)
      ensures hasRecognizer && outcome.NoMatch? ==> r == Ok("")
      ensures hasRecognizer && (outcome.OtherReason? || outcome.RecognitionFailed?) ==> r.Err?
    {
      if !hasRecognizer then Err(NotInitialized)
      else match outcome
        case RecognizedSpeech(text) => Ok(text)
        case NoMatch => Ok("")
        case OtherReason => Err("Speech recognition failed")
        case RecognitionFailed(error) => Err("Recognition error: " + error)
    }

    /**
     * `synthesizeSpeech` up to the SDK call: the text is processed for
     * pronunciation, sent as SSML exactly when it starts with `<speak`, and
     * the service is speaking until the call settles.
     */
    method SynthesizeSpeech(dict: seq<TermPronunciation>, text: string) returns (r: Result<SynthesisRequest, string>)
      modifies this
      ensures !old(hasSynthesizer) ==> r == Err(NotInitialized) && unchanged(this)
      ensures old(hasSynthesizer) ==> (r.Ok? && isSpeaking
        && r.value.text == Pronunciation(dict, text, voiceName)
        && r.value.ssml == StartsWith(r.value.text, "<speak"))
      ensures hasRecognizer == old(hasRecognizer) && hasSynthesizer == old(hasSynthesizer)
      ensures isRecognizing == old(isRecognizing) && phraseList == old(phraseList)
      ensures recognizedCallbacks == old(recognizedCallbacks) && errorCallbacks == old(errorCallbacks)
      ensures recognizingCallbacks == old(recognizingCallbacks)
    {
      if !hasSynthesizer {
        return Err(NotInitialized);
      }
      var processedText := ProcessTextForPronunciation(dict, text, voiceName);
      var isSsml := StartsWith(processedText, "<speak");
      isSpeaking := true;
      r := Ok(SynthesisRequest(processedText, isSsml));
    }

    /** `synthesizeSsml` up to the SDK call: the SSML goes out as it is. */
    method SynthesizeSsml(ssml: string) returns (r: Result<SynthesisRequest, string>)
      modifies this
      ensures !old(hasSynthesizer) ==> r == Err(NotInitialized) && unchanged(this)
      ensures old(hasSynthesizer) ==> r == Ok(SynthesisRequest(ssml, true)) && isSpeaking
      ensures hasRecognizer == old(hasRecognizer) && hasSynthesizer == old(hasSynthesizer)
      ensures isRecognizing == old(isRecognizing) && phraseList == old(phraseList)
      ensures recognizedCallbacks == old(recognizedCallbacks) && errorCallbacks == old(errorCallbacks)
      ensures recognizingCallbacks == old(recognizingCallbacks)
    {
      if !hasSynthesizer {
        return Err(NotInitialized);
      }
      isSpeaking := true;
      r := Ok(SynthesisRequest(ssml, true));
    }

    /**
     * The synthesis callbacks: speaking ends however the call settles, and
     * the promise rejects unless the audio was completed. `ssmlCall` tells
     * `synthesizeSsml`'s messages from `synthesizeSpeech`'s.
     */
    method SettleSynthesis(ssmlCall: bool, outcome: SynthesisOutcome) returns (r: Result<(), string>)
      modifies this
      ensures !isSpeaking
      ensures r.Ok? <==> outcome.Completed?
      ensures outcome.NotCompleted? ==> r == Err(if ssmlCall then "SSML synthesis failed"
        else "Speech synthesis failed: " + (if outcome.errorDetails != [] then outcome.errorDetails else "Unknown error"))
      ensures outcome.SynthesisFailed? ==> r == Err((if ssmlCall then "SSML synthesis error: " else "Synthesis error: ") + outcome.error)
      ensures hasRecognizer == old(hasRecognizer) && hasSynthesizer == old(hasSynthesizer)
      ensures isRecognizing == old(isRecognizing) && phraseList == old(phraseList)
      ensures recognizedCallbacks == old(recognizedCallbacks) && errorCallbacks == old(errorCallbacks)
      ensures recognizingCallbacks == old(recognizingCallbacks)
    {
      isSpeaking := false;
      match outcome
      case Completed =>
        r := Ok(());
      case NotCompleted(details) =>
        r := Err(if ssmlCall then "SSML synthesis failed"
          else "Speech synthesis failed: " + (if details != [] then details else "Unknown error"));
      case SynthesisFailed(error) =>
        r := Err((if ssmlCall then "SSML synthesis error: " else "Synthesis error: ") + error);
    }

    function GetIsSpeaking(): bool
      reads this
    {
      isSpeaking
    }

    method OnRecognized(callback: nat)
      modifies this
      ensures recognizedCallbacks == old(recognizedCallbacks) + [callback]
      ensures recognizingCallbacks == old(recognizingCallbacks) && errorCallbacks == old(errorCallbacks)
      ensures hasRecognizer == old(hasRecognizer) && hasSynthesizer == old(hasSynthesizer)
      ensures isRecognizing == old(isRecognizing) && isSpeaking == old(isSpeaking)
    {
      recognizedCallbacks := recognizedCallbacks + [callback];
    }

    method OnRecognizing(callback: nat)
      modifies this
      ensures recognizingCallbacks == old(recognizingCallbacks) + [callback]
      ensures recognizedCallbacks == old(recognizedCallbacks) && errorCallbacks == old(errorCallbacks)
      ensures hasRecognizer == old(hasRecognizer) && hasSynthesizer == old(hasSynthesizer)
      ensures isRecognizing == old(isRecognizing) && isSpeaking == old(isSpeaking)
    {
      recognizingCallbacks := recognizingCallbacks + [callback];
    }

    method OnError(callback: nat)
      modifies this
      ensures errorCallbacks == old(errorCallbacks) + [callback]
      ensures recognizedCallbacks == old(recognizedCallbacks) && recognizingCallbacks == old(recognizingCallbacks)
      ensures hasRecognizer == old(hasRecognizer) && hasSynthesizer == old(hasSynthesizer)
      ensures isRecognizing == old(isRecognizing) && isSpeaking == old(isSpeaking)
    {
      errorCallbacks := errorCallbacks + [callback];
    }

    /**
     * `dispose`: the SDK objects are dropped and the recognised and error
     * callbacks cleared; the recognising callbacks and the flags stay.
     */
    method Dispose()
      modifies this
      ensures !hasRecognizer && !hasSynthesizer && !hasSpeechConfig
      ensures recognizedCallbacks == [] && errorCallbacks == []
      ensures recognizingCallbacks == old(recognizingCallbacks)
      ensures isRecognizing == old(isRecognizing) && isSpeaking == old(isSpeaking)
      ensures phraseList == old(phraseList)
    {
      hasRecognizer := false;
      hasSynthesizer := false;
      hasSpeechConfig := false;
      recognizedCallbacks := [];
      errorCallbacks := [];
    }

    /** The `recognized` event: a recognised text is converted and handed to every recognised callback. */
    function RecognizedEvent(dict: seq<TermPronunciation>, recognizedSpeech: bool, text: string): (r: seq<Delivery<string>>)
      reads this
      ensures !recognizedSpeech ==> r == []
      ensures recognizedSpeech ==> (|r| == |recognizedCallbacks|
        && forall k :: 0 <= k < |r| ==> r[k] == Delivery(recognizedCallbacks[k], Convert(dict, text)))
    {
      if recognizedSpeech then Notify(recognizedCallbacks, Convert(dict, text)) else []
    }

    /** The `recognizing` event: the interim text, converted, to every recognising callback. */
    function RecognizingEvent(dict: seq<TermPronunciation>, recognizingSpeech: bool, text: string): (r: seq<Delivery<string>>)
      reads this
      ensures !recognizingSpeech ==> r == []
      ensures recognizingSpeech ==> (|r| == |recognizingCallbacks|
        && forall k :: 0 <= k < |r| ==> r[k] == Delivery(recognizingCallbacks[k], Convert(dict, text)))
    {
      if recognizingSpeech then Notify(recognizingCallbacks, Convert(dict, text)) else []
    }

    /** The `canceled` event: an error cancellation reaches every error callback. */
    function CanceledEvent(isError: bool, errorDetails: string): (r: seq<Delivery<string>>)
      reads this
      ensures !isError ==> r == []
      ensures isError ==> (|r| == |errorCallbacks|
        && forall k :: 0 <= k < |r| ==> r[k] == Delivery(errorCallbacks[k], "Recognition error: " + errorDetails))
    {
      if isError then Notify(errorCallbacks, "Recognition error: " + errorDetails) else []
    }
  }
}
