/**
 * The browser-side Google Cloud provider (`GoogleCloudTTSProvider`): its
 * configuration rules, the voice catalogue it mirrors from the backend, and
 * the `isSpeaking` flag around a proxy call.
 */
module GoogleCloudTtsProvider {
  import opened Wrappers
  import opened WavFormat
  import GoogleCloudTts

  /** The catalogue keys (`CHIRP3_HD_VOICES`), identical to the backend's. */
  function CatalogueKeys(): seq<string> { GoogleCloudTts.VoiceNames() }

  /** Properties every plain object inherits from `Object.prototype`. */
  const ObjectPrototypeKeys: seq<string> := [
    "constructor", "__defineGetter__", "__defineSetter__", "hasOwnProperty", "__lookupGetter__",
    "__lookupSetter__", "isPrototypeOf", "propertyIsEnumerable", "toString", "valueOf",
    "__proto__", "toLocaleString"]

  /** JavaScript `name in CHIRP3_HD_VOICES`: own keys and inherited ones alike. */
  predicate InCatalogueAsWritten(name: string) { name in CatalogueKeys() || name in ObjectPrototypeKeys }

  /** The configured voice as the constructor chooses it: truthy and `in` the catalogue, else "Kore". */
  function ConfiguredVoiceAsWritten(config: Option<string>): string {
    if config.Some? && config.value != [] && InCatalogueAsWritten(config.value) then config.value else "Kore"
  }

  /** The intended choice: a catalogue key, else "Kore". */
  function ConfiguredVoice(config: Option<string>): (v: string)
    ensures v in CatalogueKeys()
    ensures config.Some? && config.value in CatalogueKeys() ==> v == config.value
    ensures (config.None? || config.value !in CatalogueKeys()) ==> v == "Kore"
  {
    if config.Some? && config.value != [] && config.value in CatalogueKeys() then config.value
    else assert CatalogueKeys()[3] == "Kore"; "Kore"
  }

  /** As written, "toString" becomes the voice, and the backend then rejects every request. */
  lemma {:induction false} AsWrittenAcceptsInheritedKey()
    ensures ConfiguredVoiceAsWritten(Some("toString")) == "toString"
    ensures !GoogleCloudTts.IsVoice("toString")
    ensures ConfiguredVoice(Some("toString")) == "Kore"
  {
    assert ObjectPrototypeKeys[8] == "toString";
    assert CatalogueKeys() == ["Aoede", "Puck", "Charon", "Kore", "Fenrir", "Leda", "Orus", "Zephyr"];
  }

  /** The two readings agree on every name that is not an inherited property name. */
  lemma {:induction false} VoiceChoiceAgreesOffPrototype(config: Option<string>)
    requires config.None? || config.value !in ObjectPrototypeKeys
    ensures ConfiguredVoiceAsWritten(config) == ConfiguredVoice(config)
  {
  }

  /** The base URL: a truthy value other than "/api/tts/synthesize", else "". */
  function ConfiguredProxyUrl(config: Option<string>): (u: string)
    ensures u == [] || (config == Some(u) && u != "/api/tts/synthesize")
    ensures config.Some? && config.value != "/api/tts/synthesize" ==> u == config.value
  {
    if config.Some? && config.value != [] && config.value != "/api/tts/synthesize" then config.value else ""
  }

  /** The JSON body posted to `${proxyUrl}/api/tts/synthesize`. */
  datatype ProxyRequest = ProxyRequest(url: string, text: string, voiceName: string, languageCode: string)

  class Provider {
    var proxyUrl: string
    var isSpeaking: bool
    var voiceName: string

    constructor (configProxyUrl: Option<string>, configVoiceName: Option<string>)
      ensures proxyUrl == ConfiguredProxyUrl(configProxyUrl)
      ensures voiceName == ConfiguredVoice(configVoiceName)
      ensures !isSpeaking
    {
      proxyUrl := "";
      isSpeaking := false;
      voiceName := "Kore";
      if configProxyUrl.Some? && configProxyUrl.value != [] && configProxyUrl.value != "/api/tts/synthesize" {
        proxyUrl := configProxyUrl.value;
      }
      if configVoiceName.Some? && configVoiceName.value != [] && configVoiceName.value in CatalogueKeys() {
        voiceName := configVoiceName.value;
      }
    }

    /**
     * `synthesizeSpeech`: posts the text with the configured voice and "ja-JP";
     * `proxy` is the HTTP round trip, giving the audio or the error text.
     */
    method SynthesizeSpeech(text: string, proxy: ProxyRequest -> Result<seq<byte>, string>)
      returns (r: Result<seq<byte>, string>)
      modifies this`isSpeaking
      ensures !isSpeaking
      ensures var req := ProxyRequest(proxyUrl + "/api/tts/synthesize", text, voiceName, "ja-JP");
        r == match proxy(req)
             case Ok(audio) => Ok(audio)
             case Err(e) => Err("Speech synthesis failed: " + e)
    {
      isSpeaking := true;
      var response := proxy(ProxyRequest(proxyUrl + "/api/tts/synthesize", text, voiceName, "ja-JP"));
      if response.Err? {
        isSpeaking := false;
        return Err("Speech synthesis failed: " + response.error);
      }
      isSpeaking := false;
      r := Ok(response.value);
    }

    method GetIsSpeaking() returns (b: bool)
      ensures b == isSpeaking
    {
      b := isSpeaking;
    }

    method Dispose()
      modifies this`isSpeaking
      ensures !isSpeaking
    {
      isSpeaking := false;
    }
  }

  /** One entry of `getAvailableVoices`. */
  datatype Voice = Voice(name: string, gender: string)

  function GenderName(g: GoogleCloudTts.Gender): string {
    match g case Female => "female" case Male => "male"
  }

  /** `getAvailableVoices`: the catalogue's (name, gender) pairs in order. */
  function AvailableVoices(): (r: seq<Voice>)
    ensures |r| == 8
    ensures forall i :: 0 <= i < |r| ==>
      r[i].name == GoogleCloudTts.Voices[i].0 && r[i].gender == GenderName(GoogleCloudTts.Voices[i].1)
  {
    seq(|GoogleCloudTts.Voices|, i requires 0 <= i < |GoogleCloudTts.Voices| =>
      Voice(GoogleCloudTts.Voices[i].0, GenderName(GoogleCloudTts.Voices[i].1)))
  }

  /** Every voice the provider can be configured with is one the backend lists, with the same gender. */
  lemma {:induction false} ConfiguredVoiceIsOffered(config: Option<string>)
    ensures exists i :: (0 <= i < |AvailableVoices()| && AvailableVoices()[i].name == ConfiguredVoice(config)
                         && GoogleCloudTts.AvailableVoices()[i].name == ConfiguredVoice(config))
  {
    var v := ConfiguredVoice(config);
    var i :| 0 <= i < |CatalogueKeys()| && CatalogueKeys()[i] == v;
    assert AvailableVoices()[i].name == v;
    assert GoogleCloudTts.AvailableVoices()[i].name == v;
  }
}
