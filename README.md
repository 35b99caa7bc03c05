# JR ticket-sales voice assistant: a verified model of its deterministic core

The system is a voice assistant that sells JR tickets at a station counter.
A Python backend turns text into speech with Google Cloud's Chirp 3 HD voices.
A TypeScript front end runs the dialogue: it recognises speech, asks the
language model to extract ticket information, searches routes, and leads the
customer through the hearing phases (basic information, then the Joban-line
express, the time specification and the zairai, i.e. other-line, express).

This project models in Dafny the parts of that system that are deterministic
once the network, audio devices and language model are set aside:

- **Speech output.** The backend's voice catalogue, the removal of an
  utterance repeated two or three times, and the canonical 44-byte RIFF/WAVE
  header (the "WAVE Form Definition" of the Microsoft/IBM Multimedia
  Programming Interface and Data Specifications 1.0). The browser-side Gemini
  provider's MIME-type parser, its `DataView`-written WAV header and the
  joining of streamed chunks. The browser-side Google Cloud provider's
  configuration rules and speaking flag.
- **Time and route utilities.** `H:MM` clocks and minute arithmetic, the
  route-search service's parsing, ordering, filtering and text helpers, the
  Joban-express and zairai-express leg scans, the grouping of legs by line,
  the train-name classification and the one-earlier / one-later neighbour
  choice.
- **The ticket state machine.** `TicketSystemManager` as a class: merging
  extracted fields (an `undefined` never overwrites), the cascade reset when
  the requested time changes, post-merge normalisation, the busy flags, the
  Joban data step and reset; the basic-information question order of the
  conversation hooks; the phase-completion test of the communication service.
- **Text and dictionaries.** Katakana to hiragana, edit distance and station
  normalisation; the CSV pronunciation dictionary, recognition phrases and
  SSML lexicon; reading-to-term replacement and SSML wrapping (W3C SSML 1.0,
  section 3.1.10 `sub` and section 3.2.1 `voice`); the hearing-item table,
  the JSON-to-state mapper and the prompt builders.
- **Small stateful services.** The debug chat injector's buffer, the dialog
  flow manager's phases and history, the conversation recorder's message
  queue and hearing-item cache, and the Azure service's chat-history window,
  post-issue guard, retry bound and capped set of ids being spoken.

Each source class whose fields change is a Dafny `class` whose methods state
the whole new state. Pure code is functions with lemmas.
JavaScript semantics the program relies on are stated once:
- `trim`, `split`, `join`, `includes`, `replaceAll`, `parseInt`, `Number` and `toLowerCase` live in `JsText`;
- a stable `Array.prototype.sort` is `StableSort`, with insertion sort as the reference definition;
- `filter` is `Sequences`;
- `undefined` and `null` are `Wrappers.Nullable`;
- a number that may be `NaN` is `Wrappers.Num`.

Services the code awaits are inputs of the operations that await them:
- the language model, the route database, the conversation store and the speech SDKs;
- the clock;
- randomness.

A registered callback is known by its registration index. Invoking callbacks
is the list of calls made (`Callbacks.Delivery`).

## Model

| member | source | states |
|---|---|---|
| GoogleCloudTts.VoiceNames | backend/google_cloud_tts.py:18-27 | the catalogue keys in declaration order, one per Chirp 3 HD voice |
| GoogleCloudTts.CreateWavHeader | backend/google_cloud_tts.py:117-151 | fails exactly when the RIFF size (data size + 36) does not fit 32 bits; otherwise the 44-byte canonical header for 24 kHz, mono, 16-bit PCM of that length |
| GoogleCloudTts.HeaderConstants | backend/google_cloud_tts.py:127-149 | a header that fits is 44 bytes, and its tags and fields read back as RIFF/WAVE/fmt /data, size+36, 16, PCM, 1 channel, 24000 Hz, 48000 B/s, block align 2, 16 bits, size |
| GoogleCloudTts.RemoveDuplicateAudio | backend/google_cloud_tts.py:211-288 | (corrected) the result is the input, or its first third, or its first half, with the cut longer than half a second |
| GoogleCloudTts.RemoveDuplicateAudioCuts | backend/google_cloud_tts.py:228-283 | the data changes iff a triple or double repetition is detected; the result is then a strict, sample-aligned prefix judged similar to the audio that follows it; a triple repetition wins |
| GoogleCloudTts.RemoveDuplicateAudioKeepsMalformed | backend/google_cloud_tts.py:224-229 | odd-length data (frombuffer raises) and empty data come back unchanged, as written and corrected (also lines 285-288) |
| GoogleCloudTts.RemoveDuplicateAudioAsWritten | backend/google_cloud_tts.py:211-288 | (as written) the duplicate removal with the double check failing whenever the triple guard fails, without a contract of its own; AsWrittenAgreesWithinTripleGuard, AsWrittenNeverHalvesShortAudio and AsWrittenMissesDoubleRepeat state its properties |
| GoogleCloudTts.AsWrittenAgreesWithinTripleGuard | backend/google_cloud_tts.py:238-280 | wherever the triple check's length guard holds, the code as written and the corrected code agree |
| GoogleCloudTts.AsWrittenNeverHalvesShortAudio | backend/google_cloud_tts.py:238 | as written, 24002 to 36002 samples pass the double guard but never the triple one, and are never shortened (also lines 245, 268-272, 285-288) |
| GoogleCloudTts.AsWrittenMissesDoubleRepeat | backend/google_cloud_tts.py:238 | a 15000-sample utterance said twice survives as written; the corrected function keeps one copy (also lines 268-280) |
| GoogleCloudTts.SynthesizeSpeech | backend/google_cloud_tts.py:63-115 | (corrected: de-duplication as the corrected RemoveDuplicateAudio of the Findings) an unknown voice fails listing the catalogue; otherwise the request names "<lang>-Chirp3-HD-<voice>", and the WAV is the header for the de-duplicated and faded PCM followed by that PCM, or the header's overflow error |
| GoogleCloudTts.SynthesizeSpeechWithDefaults | backend/google_cloud_tts.py:63-68 | with the default voice Kore and language ja-JP the voice is always accepted, the request names ja-JP-Chirp3-HD-Kore, and the only error is the header overflow |
| GoogleCloudTts.AvailableVoices | backend/google_cloud_tts.py:290-300 | one record per catalogue entry in order, with its gender, ja-JP and Chirp3-HD |
| GoogleCloudTts.AvailableVoicesAreAccepted | backend/google_cloud_tts.py:80-81 | the voices offered are exactly the voices synthesis accepts (also lines 290-300) |
| WavFormat.ReadLeU32 | backend/google_cloud_tts.py:138 | reading back a little-endian 32-bit encoding gives the value |
| WavFormat.HeaderOf | backend/google_cloud_tts.py:136-151 | the field-by-field concatenation is a canonical header for its fields |
| WavFormat.HeaderReadBack | backend/google_cloud_tts.py:136-151 | a reader recovers every header field from its offset |
| WavFormat.HeaderUnique | backend/google_cloud_tts.py:136-151 | the fields determine the header: two canonical headers for the same fields are equal |
| GeminiTts.MimeParts | frontend/src/services/tts/GeminiTTSProvider.ts:158 | splitting on ';' yields at least one part, so the file type always exists |
| GeminiTts.SubtypeBits | frontend/src/services/tts/GeminiTTSProvider.ts:167-173 | the bit depth is n for a subtype L<n> with numeric n, else 16 |
| GeminiTts.RateFromParams | frontend/src/services/tts/GeminiTTSProvider.ts:175-181 | the loop's rate is the value of the last rate parameter, 24000 when there is none |
| GeminiTts.ParseMimeType | frontend/src/services/tts/GeminiTTSProvider.ts:157-184 | 1 channel, the last rate parameter (default 24000) and the subtype's bit depth (default 16) |
| GeminiTts.LastRateDefault | frontend/src/services/tts/GeminiTTSProvider.ts:161-181 | without a rate parameter the default rate stays |
| GeminiTts.LastRateWins | frontend/src/services/tts/GeminiTTSProvider.ts:176-181 | the last rate parameter overrides every earlier one |
| GeminiTts.MimeDefaults | frontend/src/services/tts/GeminiTTSProvider.ts:161-184 | a MIME type that names no L subtype and no rate gives 1 channel, 24000 Hz, 16 bits |
| GeminiTts.MimeBitsFromSubtype | frontend/src/services/tts/GeminiTTSProvider.ts:168-172 | a subtype L<n> sets the bit depth to n |
| GeminiTts.ToUint32 | frontend/src/services/tts/GeminiTTSProvider.ts:203-229 | a number stored with setUint32 lies in 0 .. 2^32-1 (NaN is 0, fractions truncated, the rest wraps) |
| GeminiTts.ToUint16 | frontend/src/services/tts/GeminiTTSProvider.ts:218-222 | a number stored with setUint16 lies in 0 .. 2^16-1 |
| GeminiTts.HeaderFields | frontend/src/services/tts/GeminiTTSProvider.ts:189-229 | the fields the DataView receives are all in range once converted |
| GeminiTts.WholeByteRates | frontend/src/services/tts/GeminiTTSProvider.ts:191-192 | for whole-byte sample sizes the byte rate and block align are the exact products |
| GeminiTts.SetUint16 | frontend/src/services/tts/GeminiTTSProvider.ts:217-218 | writes the little-endian 16-bit encoding at the offset and nothing else |
| GeminiTts.SetUint32 | frontend/src/services/tts/GeminiTTSProvider.ts:203-216 | writes the little-endian 32-bit encoding at the offset and nothing else |
| GeminiTts.WriteRiffChunk | frontend/src/services/tts/GeminiTTSProvider.ts:198-209 | bytes 0-11 are RIFF, the RIFF size and WAVE; the rest is untouched |
| GeminiTts.WriteFmtHead | frontend/src/services/tts/GeminiTTSProvider.ts:211-218 | bytes 12-23 are "fmt ", 16, PCM and the channel count; the rest is untouched |
| GeminiTts.WriteFmtRates | frontend/src/services/tts/GeminiTTSProvider.ts:219-222 | bytes 24-35 are sample rate, byte rate, block align and bit depth; the rest is untouched |
| GeminiTts.WriteDataHead | frontend/src/services/tts/GeminiTTSProvider.ts:224-229 | bytes 36-43 are "data" and the data length; the rest is untouched |
| GeminiTts.CreateWavHeader | frontend/src/services/tts/GeminiTTSProvider.ts:189-232 | the 44 bytes are the canonical header for the converted fields |
| GeminiTts.CopyInto | frontend/src/services/tts/GeminiTTSProvider.ts:114-149 | Uint8Array.set copies the source at the offset and leaves every other byte |
| GeminiTts.ConvertToWav | frontend/src/services/tts/GeminiTTSProvider.ts:139-152 | the result is 44 header bytes for the MIME options followed by the audio unchanged |
| GeminiTts.ConcatLength | frontend/src/services/tts/GeminiTTSProvider.ts:110 | the joined buffer is as long as the sum of the chunk lengths |
| GeminiTts.ConcatPlacesChunk | frontend/src/services/tts/GeminiTTSProvider.ts:111-116 | every chunk appears in the joined buffer at the offset given by the chunks before it |
| GeminiTts.JoinChunks | frontend/src/services/tts/GeminiTTSProvider.ts:109-116 | the buffer is the chunks concatenated in arrival order, of the summed length |
| GeminiTts.GeminiTtsProvider.constructor | frontend/src/services/tts/GeminiTTSProvider.ts:13-23 | a non-empty configured voice replaces "Zephyr"; a configured temperature replaces 1 |
| GeminiTts.GeminiTtsProvider.Initialize | frontend/src/services/tts/GeminiTTSProvider.ts:25-40 | succeeds iff the API key is non-empty, and only then marks the provider initialised |
| GeminiTts.GeminiTtsProvider.SynthesizeSpeech | frontend/src/services/tts/GeminiTTSProvider.ts:42-125 | uninitialised throws and leaves isSpeaking; otherwise isSpeaking ends false, an SDK failure becomes "Speech synthesis failed: …", and success returns the chunks, each wrapped in WAV unless its MIME type is absent or mentions wav, joined in order |
| GeminiTts.GeminiTtsProvider.GetIsSpeaking | frontend/src/services/tts/GeminiTTSProvider.ts:127-129 | returns the speaking flag |
| GeminiTts.GeminiTtsProvider.Dispose | frontend/src/services/tts/GeminiTTSProvider.ts:131-134 | drops the client and clears the speaking flag |
| GeminiTts.PassThroughChunk | frontend/src/services/tts/GeminiTTSProvider.ts:98-104 | a chunk with no MIME type or a MIME type mentioning wav passes through byte-identical |
| GeminiTts.SynthesizedLength | frontend/src/services/tts/GeminiTTSProvider.ts:110-119 | the synthesised buffer is as long as all chunk buffers together |
| GoogleCloudTtsProvider.ConfiguredVoice | frontend/src/services/tts/GoogleCloudTTSProvider.ts:23-32 | (corrected) the voice is always a catalogue key: the configured one when it is a key, else "Kore" |
| GoogleCloudTtsProvider.AsWrittenAcceptsInheritedKey | frontend/src/services/tts/GoogleCloudTTSProvider.ts:30-32 | as written, "toString" passes the `in` test and becomes the voice although the backend rejects it; corrected, the voice is "Kore" |
| GoogleCloudTtsProvider.VoiceChoiceAgreesOffPrototype | frontend/src/services/tts/GoogleCloudTTSProvider.ts:30-32 | the two readings agree on every name that is not an inherited property name |
| GoogleCloudTtsProvider.ConfiguredProxyUrl | frontend/src/services/tts/GoogleCloudTTSProvider.ts:21-29 | the base URL is the configured one unless it is empty or "/api/tts/synthesize", and "" otherwise |
| GoogleCloudTtsProvider.Provider.constructor | frontend/src/services/tts/GoogleCloudTTSProvider.ts:21-33 | (corrected: voice as the corrected ConfiguredVoice of the Findings) the fields are the configured base URL and voice, not speaking |
| GoogleCloudTtsProvider.Provider.SynthesizeSpeech | frontend/src/services/tts/GoogleCloudTTSProvider.ts:54-86 | posts the text, the voice and ja-JP to <base>/api/tts/synthesize; returns the audio, or "Speech synthesis failed: " and the error; isSpeaking ends false |
| GoogleCloudTtsProvider.Provider.GetIsSpeaking | frontend/src/services/tts/GoogleCloudTTSProvider.ts:88-90 | returns the speaking flag |
| GoogleCloudTtsProvider.Provider.Dispose | frontend/src/services/tts/GoogleCloudTTSProvider.ts:92-94 | clears the speaking flag |
| GoogleCloudTtsProvider.AvailableVoices | frontend/src/services/tts/GoogleCloudTTSProvider.ts:99-104 | the eight (name, gender) pairs in catalogue order |
| GoogleCloudTtsProvider.ConfiguredVoiceIsOffered | frontend/src/services/tts/GoogleCloudTTSProvider.ts:9-18 | every voice the provider can be configured with is listed by the provider and by the backend at the same position (also lines 30-32, 99-104) |
| ConversationHooks.TimeToMinutes | frontend/src/services/conversation/ConversationHooks.ts:1876-1886 | a text without an H:MM clock counts as 0 minutes |
| ConversationHooks.PadTwoDigits | frontend/src/services/conversation/ConversationHooks.ts:704 | a number below 100 pads to two digits that denote it |
| ConversationHooks.MinutesToHHMM | frontend/src/services/conversation/ConversationHooks.ts:700-706 | the result is always a five-character HH:MM clock |
| ConversationHooks.MinutesToHHMMDenotes | frontend/src/services/conversation/ConversationHooks.ts:700-706 | the printed clock denotes the minute count modulo one day, with minutes below 60 |
| ConversationHooks.TimeToMinutesOfMinutesToHHMM | frontend/src/services/conversation/ConversationHooks.ts:700-706 | reading back a printed minute count gives it modulo one day (also lines 1876-1886) |
| ConversationHooks.TrimToHHMM | frontend/src/services/conversation/ConversationHooks.ts:714-717 | a missing time is ""; a string loses a trailing :SS when it has the clock shape |
| ConversationHooks.GetDepartureTimeFromMito | frontend/src/services/conversation/ConversationHooks.ts:1746-1752 | the departure time trimmed to H:MM, without a contract of its own; HourMinuteIdempotent, HourMinuteDropsSeconds and HourMinuteEmpty state the trimming's properties |
| ConversationHooks.GetArrivalTimeAtDestination | frontend/src/services/conversation/ConversationHooks.ts:1758-1766 | null exactly for an empty arrival time; otherwise its H:MM part, which is non-empty |
| ConversationHooks.GetArrivalTimeAtStation | frontend/src/services/conversation/ConversationHooks.ts:718-726 | null iff no leg's arrival station contains the name; otherwise the trimmed arrival time of the first such leg |
| ConversationHooks.LastRunEnd | frontend/src/services/conversation/ConversationHooks.ts:1829-1833 | the last leg before the bound that is a zairai limited express ending its through-running, and none after it |
| ConversationHooks.GetLastZairaiExpressLegs | frontend/src/services/conversation/ConversationHooks.ts:1821-1860 | the loop computes the specification LastZairaiExpressLegs over a seq-sorted copy |
| ConversationHooks.RunLeadShape | frontend/src/services/conversation/ConversationHooks.ts:1838-1849 | the legs collected backwards are zairai expresses from before the end leg, in ascending seq |
| ConversationHooks.LastZairaiExpressLegsShape | frontend/src/services/conversation/ConversationHooks.ts:1821-1860 | a found section is non-empty, ends with a leg whose to.directFlag is "0", is in ascending seq, and holds only zairai expresses of the route |
| ConversationHooks.LastZairaiExpressLegsNone | frontend/src/services/conversation/ConversationHooks.ts:1821-1860 | there is no section exactly when no leg is a zairai express ending its run |
| ConversationHooks.LastLegWithoutNeedExpress | frontend/src/services/conversation/ConversationHooks.ts:1852-1855 | without needExpress the result is the single leg with the highest seq, none for no legs |
| ConversationHooks.HasZairaiExpressLeg | frontend/src/services/conversation/ConversationHooks.ts:1775-1778 | true iff some leg is a zairai express ending its run |
| ConversationHooks.DeriveZairaiExpressCategory | frontend/src/services/conversation/ConversationHooks.ts:1863-1871 | no category iff no keyword list matches; 中央線 iff a Chuo train matches; 東海道線 iff Tokaido matches and Chuo does not |
| ConversationHooks.CategoryIgnoresCase | frontend/src/services/conversation/ConversationHooks.ts:1864-1865 | the classification ignores ASCII case |
| ConversationHooks.AzusaIsChuo | frontend/src/services/conversation/ConversationHooks.ts:1866 | a name mentioning あずさ is a Chuo-line train whatever else it mentions |
| ConversationHooks.IndexOfId | frontend/src/services/conversation/ConversationHooks.ts:1473 | findIndex: the first position with the id, or -1 when there is none (also line 1523) |
| ConversationHooks.FindIndexById | frontend/src/services/conversation/ConversationHooks.ts:1473 | the loop computes the first position with the id, or -1 (also line 1523) |
| ConversationHooks.AlternativeProposal | frontend/src/services/conversation/ConversationHooks.ts:1413-1532 | specification of the neighbour choice, without a contract of its own; EarlierIsImmediatePredecessor, LaterIsImmediateSuccessor and ApologyIffNoNeighbour state its properties |
| ConversationHooks.ProposeAlternativeRoute | frontend/src/services/conversation/ConversationHooks.ts:1413-1532 | the decision equals AlternativeProposal, and the apology is pushed onto the actions exactly when neither neighbour exists |
| ConversationHooks.PickEarlier | frontend/src/services/conversation/ConversationHooks.ts:1453-1476 | the earlier proposal is the route just before the current one in the sorted earlier-arrival candidates, none when the current route is first or absent |
| ConversationHooks.PickLater | frontend/src/services/conversation/ConversationHooks.ts:1503-1526 | the later proposal is the route just after the current one in the sorted later-departure candidates, none when the current route is last or absent |
| ConversationHooks.KeepEarlierSimplified | frontend/src/services/conversation/ConversationHooks.ts:1430-1450 | the same-times exclusion is implied by the strict comparison, so each filter keeps the current id or a strictly earlier arrival / later departure (also lines 1480-1500) |
| ConversationHooks.Adjacent | frontend/src/services/conversation/ConversationHooks.ts:1453-1476 | in a list sorted by departure then duration, no element's key lies strictly between two neighbours |
| ConversationHooks.EarlierIsImmediatePredecessor | frontend/src/services/conversation/ConversationHooks.ts:1430-1476 | the earlier candidate is another timed route of the list arriving earlier and sorting immediately before the current route's entry |
| ConversationHooks.LaterIsImmediateSuccessor | frontend/src/services/conversation/ConversationHooks.ts:1480-1526 | the later candidate is a timed route sorting immediately after the current route's entry, departing later when its id differs |
| ConversationHooks.ApologyIffNoNeighbour | frontend/src/services/conversation/ConversationHooks.ts:1528-1532 | the apology is given exactly when neither neighbour exists |
| ConversationHooks.CurrentRouteKept | frontend/src/services/conversation/ConversationHooks.ts:1438-1441 | a timed current route in the list is kept by both filters (also lines 1488-1491) |
| ConversationHooks.NextBasicAction | frontend/src/services/conversation/ConversationHooks.ts:171-225 | the next basic-information step, without a contract of its own; QuestionOrder, AnsweringAdvances and NoticesAreOneShot state its properties |
| ConversationHooks.BasicInfoPhase | frontend/src/services/conversation/ConversationHooks.ts:103-129 | outside the phase nothing changes; inside, the state becomes AfterBasicAction, no message is produced exactly when it advances to Joban phase 1, and otherwise the message lists the unheard items and the step's instruction (also lines 138-160, 165-236) |
| ConversationHooks.BasicStep | frontend/src/services/conversation/ConversationHooks.ts:171-225 | the step's flag updates and instruction are those of the next basic action, and the phase leaves basic information exactly when that action is to advance |
| ConversationHooks.QuestionOrder | frontend/src/services/conversation/ConversationHooks.ts:186-199 | a question is asked only when every item before it in the order destination, date, adults, children, confirmation is known; it advances iff all are known and confirmed |
| ConversationHooks.AnsweringAdvances | frontend/src/services/conversation/ConversationHooks.ts:186-210 | answering never moves the questions backwards, and strictly forward once the item asked for is known |
| ConversationHooks.NoticesAreOneShot | frontend/src/services/conversation/ConversationHooks.ts:172-205 | the welcome-again notice, the not-found notice and the change request each clear their flag, so the next visit does not repeat them |
| JobanExpress.FirstJobanStart | frontend/src/services/ticket/JobanExpressProcessor.ts:27-29 | the first leg that starts a Joban limited express at Mito with from.directFlag "0", and none before it; none when no leg does |
| JobanExpress.LaterThanMember | frontend/src/services/ticket/JobanExpressProcessor.ts:40-41 | the filtered legs come from the route and have a higher seq than the start leg |
| JobanExpress.SubsequentShape | frontend/src/services/ticket/JobanExpressProcessor.ts:40-42 | the subsequent legs are in ascending seq, come from the route and follow the start leg |
| JobanExpress.Stations | frontend/src/services/ticket/JobanExpressProcessor.ts:154-159 | one station name per leg plus the first departure station |
| JobanExpress.ArrivalNames | frontend/src/services/ticket/JobanExpressProcessor.ts:156-159 | the arrival station of each leg, in leg order |
| JobanExpress.TakeUntilRunEnd | frontend/src/services/ticket/JobanExpressProcessor.ts:44-51 | the loop computes UntilRunEnd: the legs up to and including the first whose to.directFlag is "0" |
| JobanExpress.CollectJobanExpressLegs | frontend/src/services/ticket/JobanExpressProcessor.ts:23-54 | the loop computes the specification JobanExpressLegs |
| JobanExpress.WalkThrough | frontend/src/services/ticket/JobanExpressProcessor.ts:98-104 | the walk stops at the start of the boarded-through chain and puts that whole chain, in order, in front of the legs collected so far |
| JobanExpress.JobanExpressRoutes | frontend/src/services/ticket/JobanExpressProcessor.ts:8-77 | specification of extractJobanExpressRoutes, without a contract of its own; JobanExpressRoutesFiltered and JobanExpressLegsShape state its properties |
| JobanExpress.ExtractJobanExpressRoutes | frontend/src/services/ticket/JobanExpressProcessor.ts:8-77 | the loop computes the specification JobanExpressRoutes |
| JobanExpress.JobanExpressRoutesFiltered | frontend/src/services/ticket/JobanExpressProcessor.ts:11-17 | the result keeps exactly the routes with a Joban start leg, in input order, each with the two fields added (also lines 64-71) |
| JobanExpress.AsJobanExpressRouteCopies | frontend/src/services/ticket/JobanExpressProcessor.ts:65-69 | the spread copies every field of the route, and a kept route has a non-empty section |
| JobanExpress.UntilRunEndShape | frontend/src/services/ticket/JobanExpressProcessor.ts:44-51 | the section is a prefix of the subsequent legs, no leg but the last ends the run, and a stop before the end is at a run end |
| JobanExpress.JobanExpressLegsShape | frontend/src/services/ticket/JobanExpressProcessor.ts:23-54 | the section starts with the first start leg, is that leg alone when it ends its run, otherwise continues with later legs in seq order, and only its last leg may end the run |
| JobanExpress.SectionTail | frontend/src/services/ticket/JobanExpressProcessor.ts:33-51 | the start leg followed by the loop's prefix is in seq order, and only its last leg may end the run |
| JobanExpress.RouteExplain | frontend/src/services/ticket/JobanExpressProcessor.ts:147-162 | specification of generateRouteExplain, without a contract of its own; RouteExplainArrows states its properties |
| JobanExpress.JoinCount | frontend/src/services/ticket/JobanExpressProcessor.ts:161 | joining n pieces free of a character with a one-character separator containing it gives n-1 occurrences |
| JobanExpress.RouteExplainArrows | frontend/src/services/ticket/JobanExpressProcessor.ts:147-162 | the explanation of n legs has exactly n arrows when no name contains one |
| JobanExpress.ChainStart | frontend/src/services/ticket/JobanExpressProcessor.ts:98-104 | the inner walk never moves past the start |
| JobanExpress.CollectZairaiLegs | frontend/src/services/ticket/JobanExpressProcessor.ts:90-106 | the backward scan, whose inner walk moves the loop index, computes the specification Collect |
| JobanExpress.CollectShape | frontend/src/services/ticket/JobanExpressProcessor.ts:92-106 | every collected leg comes from the input in input order, and the collection ends on a zairai express |
| JobanExpress.ZairaiLegsNoJoban | frontend/src/services/ticket/JobanExpressProcessor.ts:108-112 | a non-empty zairai list has no Joban-line leg, and is the collection when it is non-empty |
| JobanExpress.CollectNone | frontend/src/services/ticket/JobanExpressProcessor.ts:92-106 | with no zairai express among the legs nothing is collected |
| JobanExpress.AddToGroups | frontend/src/services/ticket/JobanExpressProcessor.ts:170-175 | adding a leg adds at most one entry |
| JobanExpress.AddToGroupsSkip | frontend/src/services/ticket/JobanExpressProcessor.ts:171-174 | entries before the leg's line are passed over unchanged |
| JobanExpress.GroupBySenkuName | frontend/src/services/ticket/JobanExpressProcessor.ts:167-178 | the loop computes the specification Groups |
| JobanExpress.AddToGroupsAt | frontend/src/services/ticket/JobanExpressProcessor.ts:171-174 | adding a leg rewrites exactly the entry of its line, or appends an entry for it |
| JobanExpress.AddToGroupsCounts | frontend/src/services/ticket/JobanExpressProcessor.ts:171-174 | adding a leg keeps one entry per line and adds one leg in all |
| JobanExpress.AddToGroupsEntries | frontend/src/services/ticket/JobanExpressProcessor.ts:171-174 | adding a leg appends it to its line's entry, leaves the other entries, and a new entry holds the leg alone |
| JobanExpress.Groups | frontend/src/services/ticket/JobanExpressProcessor.ts:167-178 | specification of groupBySenkuName, without a contract of its own; GroupsShape states its properties |
| JobanExpress.GroupsShape | frontend/src/services/ticket/JobanExpressProcessor.ts:167-178 | one entry per line in first-appearance order, each line's legs in input order, as many legs as the input, and every leg's line is a key |
| JobanExpress.ExplainList | frontend/src/services/ticket/JobanExpressProcessor.ts:119-127 | one explanation per group, in group order |
| JobanExpress.SortEachRoute | frontend/src/services/ticket/JobanExpressProcessor.ts:87 | each route's own legs become sorted by seq (the in-place sort the caller sees) |
| JobanExpress.ExplainGroups | frontend/src/services/ticket/JobanExpressProcessor.ts:119-127 | the loop computes ExplainList |
| JobanExpress.ZairaiRouteOf | frontend/src/services/ticket/JobanExpressProcessor.ts:86-136 | the route is kept, with its explanation list, iff its zairai list is non-empty |
| JobanExpress.ZairaiRoutes | frontend/src/services/ticket/JobanExpressProcessor.ts:82-141 | specification of extractJobanZairaiExpressRoutes, without a contract of its own; ZairaiRoutesFiltered and ZairaiRouteShape state its properties |
| JobanExpress.ExtractJobanZairaiExpressRoutes | frontend/src/services/ticket/JobanExpressProcessor.ts:82-141 | the result is ZairaiRoutes, and the input afterwards has every route's legs sorted |
| JobanExpress.ExplainListAppend | frontend/src/services/ticket/JobanExpressProcessor.ts:121-123 | one more group adds its explanation at the end |
| JobanExpress.ZairaiRoutesFiltered | frontend/src/services/ticket/JobanExpressProcessor.ts:85-136 | the result keeps, in order, exactly the legs-sorted routes whose zairai list is non-empty |
| JobanExpress.ZairaiRouteShape | frontend/src/services/ticket/JobanExpressProcessor.ts:87 | a kept route has its legs in seq order, a permutation of the original, and a non-empty explanation list (also lines 114-133) |
| TicketSystem.CancellationRestartsHearing | frontend/src/services/ticket/TicketSystemManager.ts:408-459 | after a withdrawn confirmation (and after a reset or at start) the basic-information phase greets again and asks for destination, date and both passenger counts |
| TicketSystem.ResetRecord | frontend/src/services/ticket/TicketSystemManager.ts:592-603 | the record reset() installs, without a contract of its own; CancellationRestartsHearing states what the hearing then asks |
| TicketSystem.Merge | frontend/src/services/ticket/TicketSystemManager.ts:474-479 | specification of the merge, without a contract of its own; MergeNothing, MergeIdempotent and MergeAssociative state its properties |
| TicketSystem.MergeNothing | frontend/src/services/ticket/TicketSystemManager.ts:474-479 | an extraction with every field undefined changes nothing; merged onto an empty record it is the applied difference itself |
| TicketSystem.MergeIdempotent | frontend/src/services/ticket/TicketSystemManager.ts:474-479 | merging the same extraction twice gives the same record as merging it once |
| TicketSystem.MergeAssociative | frontend/src/services/ticket/TicketSystemManager.ts:474-479 | two merges in a row equal one merge of the later fields over the earlier ones |
| TicketSystem.TimeSync | frontend/src/services/ticket/TicketSystemManager.ts:308-328 | specification of the time cascade, without a contract of its own; TimeSyncFrame and SameTimeNoSecondCascade state its properties |
| TicketSystem.TimeSyncFrame | frontend/src/services/ticket/TicketSystemManager.ts:308-328 | the time cascade touches only the proposal fields and the zairai-express choice; on a time change the proposal is cleared and the choice is false exactly when the zairai-express route list is empty |
| TicketSystem.SameTimeNoSecondCascade | frontend/src/services/ticket/TicketSystemManager.ts:308-328 | once an extraction is merged, the same extraction does not count as a time change again (also lines 474-479) |
| TicketSystem.AffirmativeIgnoresCase | frontend/src/services/ticket/TicketSystemManager.ts:494 | any text containing "OK" in upper case is a yes, as the case-insensitive test says |
| TicketSystem.HeuristicsOnlyConfirm | frontend/src/services/ticket/TicketSystemManager.ts:488-516 | the heuristics change only the two confirmation flags, only to true, only after a yes, the seat flag only after a question about unspecified seats; without a yes nothing changes |
| TicketSystem.StripStationOnce | frontend/src/services/ticket/TicketSystemManager.ts:523-526 | at most one trailing 駅 is removed, exactly when the name ends in it, and a name with 駅 appended loses exactly that |
| TicketSystem.Normalise | frontend/src/services/ticket/TicketSystemManager.ts:518-549 | specification of the post-merge fix-ups, without a contract of its own; NormaliseEstablishes states its properties |
| TicketSystem.NormaliseEstablishes | frontend/src/services/ticket/TicketSystemManager.ts:518-549 | after the fix-ups a confirmed ticket is issued, in the basic phase a set adult count has a child count, an accepted unspecified seat confirms phase 2, the destination loses its trailing 駅, and the phase, date and adult count are untouched |
| TicketSystem.MatchingMember | frontend/src/services/ticket/TicketSystemManager.ts:731-737 | a route is kept exactly when it is in the input and departs at or after the requested time |
| TicketSystem.Within45Member | frontend/src/services/ticket/TicketSystemManager.ts:750-754 | a route is kept exactly when it is in the input and departs no more than 45 minutes after the requested time |
| TicketSystem.EarliestByFirstMinimum | frontend/src/services/ticket/TicketSystemManager.ts:758-765 | with every arrival a number the reduce yields the first route with the smallest arrival |
| TicketSystem.FirstMinimumAt | frontend/src/services/ticket/TicketSystemManager.ts:758-765 | the reduce picks the route at a position holding the smallest arrival, with no smaller arrival before it |
| TicketSystem.EarliestByIn | frontend/src/services/ticket/TicketSystemManager.ts:758-765 | the reduce yields a route of the list |
| TicketSystem.TargetRouteShape | frontend/src/services/ticket/TicketSystemManager.ts:756-769 | the target departs at or after the requested time and is within 45 minutes whenever some matching route is |
| TicketSystem.CandidatesOfMember | frontend/src/services/ticket/TicketSystemManager.ts:775-777 | a leg is a candidate exactly when it is an express other than ひたち and ときわ |
| TicketSystem.LastCandidateLeg | frontend/src/services/ticket/TicketSystemManager.ts:775-787 | the first sorted candidate is a candidate of the route with the largest seq; the list is empty only when no leg is a candidate |
| TicketSystem.DeriveInitial | frontend/src/services/ticket/TicketSystemManager.ts:724-803 | specification of the initial proposal, without a contract of its own; DeriveInitialShape and DeriveInitialFrame state its properties |
| TicketSystem.DeriveInitialShape | frontend/src/services/ticket/TicketSystemManager.ts:724-803 | a new proposal is a zairai-express route departing at or after the time; the error is thrown only when it has no candidate leg; otherwise the section is its latest candidate and the express name is that leg's nickname |
| TicketSystem.DeriveInitialFrame | frontend/src/services/ticket/TicketSystemManager.ts:724-803 | the derivation writes only the proposed route, the section, the express name and the category |
| TicketSystem.SortJobanLegs | frontend/src/services/ticket/JobanExpressProcessor.ts:82-141 | each route starting a Joban express at Mito gets its legs sorted by seq, the others are unchanged |
| TicketSystem.JobanData | frontend/src/services/ticket/TicketSystemManager.ts:691-721 | specification of the Joban data step, without a contract of its own; JobanDataShape and JobanDataFrame state its properties |
| TicketSystem.JobanDataShape | frontend/src/services/ticket/TicketSystemManager.ts:691-721 | the Joban list is the filtered routes; the zairai-express choice is false exactly when no route also uses a zairai express, null otherwise; each route keeps its legs up to order and Joban routes end up in seq order |
| TicketSystem.JobanDataFrame | frontend/src/services/ticket/TicketSystemManager.ts:691-721 | the processing writes only the three route lists and the zairai-express choice |
| TicketSystem.SearchAndDeriveFrame | frontend/src/services/ticket/TicketSystemManager.ts:551-574 | the route search and the derivation leave every hearing item and confirmation alone |
| TicketSystem.ExtractionKeepsUndefined | frontend/src/services/ticket/TicketSystemManager.ts:466-574 | a field the extraction leaves undefined and nothing downstream writes keeps its value |
| TicketSystem.ExtractionIssuesConfirmed | frontend/src/services/ticket/TicketSystemManager.ts:408-459 | a withdrawn confirmation installs the cancelled record; otherwise a confirmed ticket ends the round issued (also lines 538-549) |
| TicketSystem.Contents | frontend/src/services/ticket/TicketSystemManager.ts:244-248 | a history of message ids reads back as the messages stored under them, in order |
| TicketSystem.AppendUnlessRepeatProperties | frontend/src/services/ticket/TicketSystemManager.ts:237-249 | offering the same message twice adds it at most once, no two neighbours repeat, and the message ends the history |
| TicketSystem.LastContentWithRoleShape | frontend/src/services/ticket/TicketSystemManager.ts:492-493 | nothing is found exactly when no message has the role; otherwise the content of the last message with it |
| TicketSystem.ContentsFresh | frontend/src/services/ticket/TicketSystemManager.ts:232-236 | storing a new message object does not change what the existing histories read |
| TicketSystem.TicketSystemManager.constructor | frontend/src/services/ticket/TicketSystemManager.ts:77-126 | the initial record with the hearing items null, empty histories, no flag and no error |
| TicketSystem.TicketSystemManager.AddToConversationHistory | frontend/src/services/ticket/TicketSystemManager.ts:228-253 | both histories gain the one new message unless it repeats the last one, and they grow by the same amount; nothing else changes |
| TicketSystem.TicketSystemManager.PushMessage | frontend/src/services/ticket/TicketSystemManager.ts:232-248 | the one new message object is stored under a fresh id and that id is pushed onto both histories; the other fields keep their values |
| TicketSystem.TicketSystemManager.ExecuteChangeTimengSincronize | frontend/src/services/ticket/TicketSystemManager.ts:308-328 | the record becomes the time cascade of the old one; histories and flags unchanged |
| TicketSystem.TicketSystemManager.ProcessJobanExpressData | frontend/src/services/ticket/TicketSystemManager.ts:691-721 | the record becomes the Joban processing of the old one |
| TicketSystem.TicketSystemManager.SearchRoutes | frontend/src/services/ticket/TicketSystemManager.ts:652-688 | skipped while a search runs; otherwise the routes and Joban data on success, the error message on failure, the search flag restored |
| TicketSystem.TicketSystemManager.DeriveInitialProposedZairaiExpress | frontend/src/services/ticket/TicketSystemManager.ts:724-803 | the record and the thrown flag are the derivation of the old record at the given time |
| TicketSystem.TicketSystemManager.NormaliseAfterMerge | frontend/src/services/ticket/TicketSystemManager.ts:518-549 | the record becomes the fix-ups applied to the old one |
| TicketSystem.TicketSystemManager.ExtractInformation | frontend/src/services/ticket/TicketSystemManager.ts:332-583 | skipped while extracting; with an empty phase history the missing-message error; on an extractor error its message; otherwise the last user message converted, the applied difference recorded and the record the full extraction round; flags restored |
| TicketSystem.TicketSystemManager.ApplyExtracted | frontend/src/services/ticket/TicketSystemManager.ts:394-574 | the reset request, the message conversion and the rest of the round, as the extraction function states |
| TicketSystem.TicketSystemManager.ResetAndConvert | frontend/src/services/ticket/TicketSystemManager.ts:394-405 | a reset request clears the proposal and is itself cleared; a conversion text replaces the content of the last current-phase message, seen from both histories; nothing else changes |
| TicketSystem.TicketSystemManager.ContinueExtraction | frontend/src/services/ticket/TicketSystemManager.ts:407-574 | cancellation or the merge, heuristics, fix-ups, search and derivation, as the round function states |
| TicketSystem.TicketSystemManager.MergeAndSettle | frontend/src/services/ticket/TicketSystemManager.ts:466-549 | the cascade, the merge, the heuristics and the fix-ups, with the applied difference recorded |
| TicketSystem.TicketSystemManager.SearchAndDeriveStep | frontend/src/services/ticket/TicketSystemManager.ts:551-574 | the search for a new destination, then the initial proposal, each failure caught as the source does |
| TicketSystem.TicketSystemManager.Reset | frontend/src/services/ticket/TicketSystemManager.ts:586-623 | the reset record, empty histories, both flags and the error cleared |
| TicketTypes.PhaseIdInjective | frontend/src/services/ticket/types.ts:7-21 | distinct phases carry distinct identifier strings |
| RouteModel.SortLegsAscending | frontend/src/services/ticket/JobanExpressProcessor.ts:87 | legs sorted by seq are in ascending seq order and are a permutation of the input |
| RouteSearch.ParseHHMMToSeconds | frontend/src/services/cosmos/RouteSearchService.ts:140-146 | the first H:MM or HH:MM in the text, in seconds; 0 when there is none |
| RouteSearch.ParseHHMMToSecondsBounds | frontend/src/services/cosmos/RouteSearchService.ts:140-146 | the result is a whole number of minutes and at most 99:99 |
| RouteSearch.ParseTimeString | frontend/src/services/cosmos/RouteSearchService.ts:156-168 | specification of `parseTimeString`, without a contract of its own: three parts read as hours, minutes and seconds; ParseTimeStringOfParts, ParseTimeStringPrinted and ParseTimeStringMisshapen state its properties |
| RouteSearch.ParseTimeStringPrinted | frontend/src/services/cosmos/RouteSearchService.ts:156-168 | a printed H:M:S reads back as hours*3600 + minutes*60 + seconds |
| RouteSearch.ParseTimeStringOfParts | frontend/src/services/cosmos/RouteSearchService.ts:156-168 | a text of three colon-separated parts is read as the weighted sum of their integer readings |
| RouteSearch.ParseTimeStringMisshapen | frontend/src/services/cosmos/RouteSearchService.ts:157-161 | a text with any number of colons other than two, so not of three parts, reads as 0 |
| RouteSearch.SortRoutesByArrivalTime | frontend/src/services/cosmos/RouteSearchService.ts:148-154 | the array is sorted in place, stably by arrival time, and the same array is returned |
| RouteSearch.WriteBack | frontend/src/services/cosmos/RouteSearchService.ts:149 | the array's slots end up holding the sorted sequence, in order |
| RouteSearch.SortedByArrival | frontend/src/services/cosmos/RouteSearchService.ts:148-154 | the sorted routes are in arrival order and a permutation of the input |
| RouteSearch.SortByArrivalStable | frontend/src/services/cosmos/RouteSearchService.ts:148-154 | routes with the same arrival keep their query order |
| RouteSearch.SearchRoutes | frontend/src/services/cosmos/RouteSearchService.ts:75-125 | specification of `searchRoutes`, without a contract of its own; SearchRoutesShape, SortedByArrival and SortByArrivalStable state its properties |
| RouteSearch.SearchRoutesShape | frontend/src/services/cosmos/RouteSearchService.ts:75-125 | a blank origin or destination gives no routes and time 0; otherwise the query's routes, permuted into arrival order, with the elapsed time |
| RouteSearch.FilterKeepsSorted | frontend/src/services/cosmos/RouteSearchService.ts:134-136 | filtering keeps a sorted list sorted |
| RouteSearch.SearchRoutesWithMinDeparture | frontend/src/services/cosmos/RouteSearchService.ts:127-138 | specification of `searchRoutesWithMinDeparture`, without a contract of its own; MinDepartureOrder, MinDepartureMembers and NoMinimumUnchanged state its properties |
| RouteSearch.MinDepartureOrder | frontend/src/services/cosmos/RouteSearchService.ts:127-138 | with a minimum the result is the search result filtered by departure at or after it, still in arrival order |
| RouteSearch.MinDepartureMembers | frontend/src/services/cosmos/RouteSearchService.ts:127-138 | with a minimum a route is in the result exactly when the names are not blank, the query found it and it departs at or after the minimum |
| RouteSearch.NoMinimumUnchanged | frontend/src/services/cosmos/RouteSearchService.ts:133 | without a minimum the search result is returned unchanged |
| RouteSearch.FormatDuration | frontend/src/services/cosmos/RouteSearchService.ts:170-181 | specification of `formatDuration`, without a contract of its own; FormatDurationRoundTrip, FormatDurationText and FormatDurationZero state its properties |
| RouteSearch.DurationParts | frontend/src/services/cosmos/RouteSearchService.ts:170-173 | hours, minutes and seconds recompose the duration, minutes and seconds below 60 |
| RouteSearch.FormatDurationRoundTrip | frontend/src/services/cosmos/RouteSearchService.ts:170-181 | a formatted non-negative duration reads back as its number of seconds |
| RouteSearch.FormatDurationText | frontend/src/services/cosmos/RouteSearchService.ts:175-180 | with some positive part the text is the non-zero pieces in the order hours, minutes, seconds |
| RouteSearch.FormatDurationZero | frontend/src/services/cosmos/RouteSearchService.ts:180 | the text is 0秒 exactly when the duration is not positive |
| RouteSearch.RouteDescription | frontend/src/services/cosmos/RouteSearchService.ts:183-202 | specification of `generateRouteDescription`, without a contract of its own; GenerateRouteDescription, RouteDescriptionEnds and RouteDescriptionArrows state its properties |
| RouteSearch.LegTexts | frontend/src/services/cosmos/RouteSearchService.ts:192-198 | one text per leg, in leg order |
| RouteSearch.GenerateRouteDescription | frontend/src/services/cosmos/RouteSearchService.ts:183-202 | the forEach loop computes the description: the first departure station, then each leg's text, joined by spaces; empty for no legs |
| RouteSearch.RouteDescriptionEnds | frontend/src/services/cosmos/RouteSearchService.ts:183-202 | a description starts with the first departure station and ends with the last arrival station |
| RouteSearch.RouteDescriptionArrows | frontend/src/services/cosmos/RouteSearchService.ts:192-198 | when no name holds an arrow the description of n legs holds exactly n arrows |
| StationNormalizer.ToHiragana | frontend/src/services/ticket/StationNameNormalizer.ts:73-79 | the result has the input's length |
| StationNormalizer.ToHiraganaShape | frontend/src/services/ticket/StationNameNormalizer.ts:73-79 | each character is shifted down by 0x60 exactly when it is in U+30A1-U+30F6 and otherwise only lower-cased; no katakana or ASCII capital remains, so converting twice is converting once |
| StationNormalizer.LevenshteinDistance | frontend/src/services/ticket/StationNameNormalizer.ts:84-112 | the table filled row by row yields the edit distance of the two strings |
| StationNormalizer.FillRow | frontend/src/services/ticket/StationNameNormalizer.ts:100-109 | row i is filled from the row above with the recurrence; no other row changes |
| StationNormalizer.DistCell | frontend/src/services/ticket/StationNameNormalizer.ts:102-107 | a cell is the least of deletion, insertion and substitution (cost 0 on equal characters) |
| StationNormalizer.DistSymmetric | frontend/src/services/ticket/StationNameNormalizer.ts:100-109 | swapping the two strings does not change the distance |
| StationNormalizer.DistBounds | frontend/src/services/ticket/StationNameNormalizer.ts:92-109 | the distance is at most the longer length and at least the difference of the lengths |
| StationNormalizer.DistZero | frontend/src/services/ticket/StationNameNormalizer.ts:92-109 | distance 0 means the two prefixes are equal |
| StationNormalizer.EditDistanceProperties | frontend/src/services/ticket/StationNameNormalizer.ts:84-112 | the distance is 0 exactly for equal strings, the length against the empty string, symmetric and bounded by the lengths |
| StationNormalizer.ParseDictionary | frontend/src/services/ticket/StationNameNormalizer.ts:43-58 | specification of the dictionary parse, without a contract of its own; ParseDictionaryRoundTrip and RowsTrimmed state its properties |
| StationNormalizer.RowsOfEntryLines | frontend/src/services/ticket/StationNameNormalizer.ts:47-58 | rows written as name,reading lines read back as the same entries |
| StationNormalizer.ParseDictionaryRoundTrip | frontend/src/services/ticket/StationNameNormalizer.ts:43-58 | entries written one per line under a header read back as the entries: the header is skipped and blank lines dropped |
| StationNormalizer.RowsTrimmed | frontend/src/services/ticket/StationNameNormalizer.ts:48-53 | every name and reading read from the file is trimmed, and there are no more rows than lines |
| StationNormalizer.StripLeadingBars | frontend/src/services/ticket/StationNameNormalizer.ts:145 | a suffix of the input with no leading long-vowel mark |
| StationNormalizer.StripTrailingBars | frontend/src/services/ticket/StationNameNormalizer.ts:145 | a prefix of the input with no trailing long-vowel mark |
| StationNormalizer.CleanInputShape | frontend/src/services/ticket/StationNameNormalizer.ts:145 | the cleaned input has no long-vowel mark at either end and is a piece of the trimmed input |
| StationNormalizer.FindExact | frontend/src/services/ticket/StationNameNormalizer.ts:151-154 | the first entry whose name is the cleaned input or whose reading is its hiragana; none when no entry matches |
| StationNormalizer.NormalizeOf | frontend/src/services/ticket/StationNameNormalizer.ts:132-194 | specification of what normalize returns, without a contract of its own; NormalizeOutcome states its properties |
| StationNormalizer.NormalizeOutcome | frontend/src/services/ticket/StationNameNormalizer.ts:132-194 | a blank input suggests nothing; otherwise the first entry matching by name or reading is suggested with confidence 1 and, without one, nothing with confidence 0 |
| StationNormalizer.FindBestMatch | frontend/src/services/ticket/StationNameNormalizer.ts:168-183 | the loop keeps an entry at least as close as every reading and every name; none only for an empty dictionary |
| StationNormalizer.StationNameNormalizer.constructor | frontend/src/services/ticket/StationNameNormalizer.ts:13-16 | an empty dictionary, not loaded |
| StationNormalizer.StationNameNormalizer.LoadDictionary | frontend/src/services/ticket/StationNameNormalizer.ts:31-68 | nothing once loaded; otherwise the rows of the text, or an empty dictionary when it could not be fetched; loaded afterwards |
| StationNormalizer.ReadRows | frontend/src/services/ticket/StationNameNormalizer.ts:47-58 | the loop from the second line keeps exactly the rows that parse, in order |
| StationNormalizer.StationNameNormalizer.Normalize | frontend/src/services/ticket/StationNameNormalizer.ts:119-195 | loads the dictionary when needed, then answers as the normalisation of the input against it |
| StationDictionary.NonEmptyTrimmed | frontend/src/constants/jrStationDictionary.ts:42-47 | only non-empty trimmed values are kept |
| StationDictionary.CollectAlternatives | frontend/src/constants/jrStationDictionary.ts:40-53 | the loop from column 3 computes the alternative spellings: the non-empty trimmed values, or none when there are none |
| StationDictionary.TermRowsWellFormed | frontend/src/constants/jrStationDictionary.ts:27-55 | every entry read from a text is well formed (trimmed term and reading, ipa absent or non-empty, alternatives absent or non-empty), at most one per line |
| StationDictionary.NonEmptyTrimmedOfTrimmed | frontend/src/constants/jrStationDictionary.ts:42-47 | values already non-empty and trimmed are kept as they are |
| StationDictionary.ParseTermDictionary | frontend/src/constants/jrStationDictionary.ts:19-56 | specification of the dictionary parse, without a contract of its own; ParseTermDictionaryRoundTrip and TermRowsWellFormed state its properties |
| StationDictionary.TermRowRoundTrip | frontend/src/constants/jrStationDictionary.ts:33-54 | a written entry line reads back as the entry |
| StationDictionary.TermLines | frontend/src/constants/jrStationDictionary.ts:33-54 | one line per entry, in order |
| StationDictionary.Columns | frontend/src/constants/jrStationDictionary.ts:33 | an entry's line is its columns joined by commas, at least three of them |
| StationDictionary.TermRowsOfTermLines | frontend/src/constants/jrStationDictionary.ts:32-55 | written entry lines read back as the same entries |
| StationDictionary.TermLineSingle | frontend/src/constants/jrStationDictionary.ts:27 | the line of an entry is one non-blank line |
| StationDictionary.ParseTermDictionaryRoundTrip | frontend/src/constants/jrStationDictionary.ts:19-56 | entries written one per line under a header read back as the entries |
| StationDictionary.FindPronunciation | frontend/src/constants/jrStationDictionary.ts:84-89 | the first entry whose term is the name or whose alternatives include it; none when no entry does |
| StationDictionary.Dedup | frontend/src/constants/jrStationDictionary.ts:121 | `[...new Set(phrases)]`, without a contract of its own; DedupProperties states its properties |
| StationDictionary.FirstIndex | frontend/src/constants/jrStationDictionary.ts:121 | the index of the first occurrence |
| StationDictionary.DedupProperties | frontend/src/constants/jrStationDictionary.ts:121 | the deduplicated list holds exactly the input's values, each once, in order of first occurrence |
| StationDictionary.AllPhrasesMembers | frontend/src/constants/jrStationDictionary.ts:97-118 | a phrase is pushed exactly when it is a phrase of some entry |
| StationDictionary.EntryPhrasesHold | frontend/src/constants/jrStationDictionary.ts:99-117 | an entry's phrases hold its term, reading and alternatives, and for a term other than 発, 着, 行 and 止 also term+駅 and reading+えき |
| StationDictionary.RecognitionPhrasesExact | frontend/src/constants/jrStationDictionary.ts:94-122 | the recognition phrases are duplicate-free and are exactly the phrases of the entries |
| StationDictionary.RecognitionPhrasesCover | frontend/src/constants/jrStationDictionary.ts:94-122 | every term, reading and alternative is a recognition phrase, and so are the 駅 and えき forms of a non-particle |
| StationDictionary.SsmlLexicon | frontend/src/constants/jrStationDictionary.ts:127-143 | specification of generateSSMLLexicon, without a contract of its own; SsmlLexiconFrame, SsmlLexiconHasLexeme and SsmlLexiconEmpty state its properties |
| StationDictionary.FilterHasIpa | frontend/src/constants/jrStationDictionary.ts:129 | the filtered entries all have an ipa |
| StationDictionary.LexemesContain | frontend/src/constants/jrStationDictionary.ts:130-134 | the joined lexemes contain each entry's lexeme |
| StationDictionary.SsmlLexiconFrame | frontend/src/constants/jrStationDictionary.ts:136-143 | the lexicon is the fixed PLS header and footer around the lexemes |
| StationDictionary.SsmlLexiconHasLexeme | frontend/src/constants/jrStationDictionary.ts:127-143 | the lexicon holds the lexeme of every entry with an ipa |
| StationDictionary.SsmlLexiconEmpty | frontend/src/constants/jrStationDictionary.ts:127-143 | without an entry that has an ipa the lexicon is header and footer alone |
| StationDictionary.TermDictionary.constructor | frontend/src/constants/jrStationDictionary.ts:14 | an empty dictionary |
| StationDictionary.TermDictionary.LoadStationDictionary | frontend/src/constants/jrStationDictionary.ts:19-70 | the rows of the text, or the single fallback entry when it could not be fetched |
| StationDictionary.ReadTermRows | frontend/src/constants/jrStationDictionary.ts:32-55 | the loop from the second line keeps exactly the rows that parse, in order |
| StationDictionary.TermDictionary.GetStationPronunciation | frontend/src/constants/jrStationDictionary.ts:84-89 | the first entry of the dictionary naming the term, as `find` returns it; none exactly when no entry names it |
| StationDictionary.TermDictionary.GetRecognitionPhrases | frontend/src/constants/jrStationDictionary.ts:94-122 | the forEach loop computes the deduplicated phrases of all entries |
| AzureSpeech.Convert | frontend/src/services/azure/azureSpeechService.ts:287-309 | specification of convertRecognizedText, without a contract of its own; ConvertRecognizedText, ConvertAbsent, ConvertAppend and ConvertFallbackSpelling state its properties |
| AzureSpeech.ConvertRecognizedText | frontend/src/services/azure/azureSpeechService.ts:287-309 | the nested forEach loops compute the conversion: each entry in order rewrites its reading, then each alternative spelling, to its term |
| AzureSpeech.ReplaceSpellingsAbsent | frontend/src/services/azure/azureSpeechService.ts:298-305 | spellings that do not occur leave the text as it is |
| AzureSpeech.ConvertAbsent | frontend/src/services/azure/azureSpeechService.ts:287-309 | a text holding no reading and no alternative spelling is left as it is |
| AzureSpeech.ConvertAppend | frontend/src/services/azure/azureSpeechService.ts:292-306 | the entries apply one after another: converting with a+b is converting with a, then with b |
| AzureSpeech.ConvertFallbackSpelling | frontend/src/services/azure/azureSpeechService.ts:287-309 | against the fallback dictionary イタブ駅 is recognised as 飯給駅 |
| AzureSpeech.Pronunciation | frontend/src/services/azure/azureSpeechService.ts:158-195 | specification of processTextForPronunciation, without a contract of its own; ProcessTextForPronunciation, PronunciationPlain, PronunciationSsml and PronunciationTagsTerm state its properties |
| AzureSpeech.ProcessTextForPronunciation | frontend/src/services/azure/azureSpeechService.ts:158-195 | the flag loop and the substitution loop compute the pronunciation text |
| AzureSpeech.PronunciationPlain | frontend/src/services/azure/azureSpeechService.ts:169-172 | a text naming no dictionary term is spoken as it is |
| AzureSpeech.SsmlDocumentFrame | frontend/src/services/azure/azureSpeechService.ts:186-190 | the document starts with <speak and ends with </speak> |
| AzureSpeech.PronunciationSsml | frontend/src/services/azure/azureSpeechService.ts:158-195 | a text naming a term becomes an SSML document, as the synthesis call's <speak test needs |
| AzureSpeech.Substitute | frontend/src/services/azure/azureSpeechService.ts:176-182 | the substitution loop as a value, without a contract of its own; SubstituteSkips and PronunciationTagsTerm state its properties |
| AzureSpeech.SubstituteSkips | frontend/src/services/azure/azureSpeechService.ts:176-182 | entries absent from the text or without a reading substitute nothing |
| AzureSpeech.PronunciationTagsTerm | frontend/src/services/azure/azureSpeechService.ts:176-190 | when one entry with a reading is the only one whose term occurs, the document carries its sub tag |
| AzureSpeech.AzureSpeechService.constructor | frontend/src/services/azure/azureSpeechService.ts:5-17 | the configuration kept, no SDK objects, no callbacks, not recognising and not speaking |
| AzureSpeech.AzureSpeechService.Initialize | frontend/src/services/azure/azureSpeechService.ts:19-72 | without a key it fails and changes nothing; otherwise config, recognizer and synthesizer exist, the language defaults to ja-JP, the voice to ja-JP-NanamiNeural, and the phrase list is the dictionary's recognition phrases |
| AzureSpeech.AzureSpeechService.CreateClients | frontend/src/services/azure/azureSpeechService.ts:30-52 | config, recognizer and synthesizer exist with the defaulted language and voice and the given phrases; callbacks and activity flags are kept |
| AzureSpeech.AzureSpeechService.StartContinuousRecognition | frontend/src/services/azure/azureSpeechService.ts:74-88 | throws when not initialised, does nothing while recognising, else starts recognising; the configuration, language, voice, SDK objects, phrases, callbacks and speaking flag stay |
| AzureSpeech.AzureSpeechService.StopContinuousRecognition | frontend/src/services/azure/azureSpeechService.ts:90-100 | does nothing unless initialised and recognising, else stops; the configuration, language, voice, SDK objects, phrases, callbacks and speaking flag stay |
| AzureSpeech.AzureSpeechService.RecognizeSpeech | frontend/src/services/azure/azureSpeechService.ts:102-121 | not initialised is an error; recognised speech gives its text, no match the empty text, anything else an error |
| AzureSpeech.AzureSpeechService.SynthesizeSpeech | frontend/src/services/azure/azureSpeechService.ts:123-137 | not initialised is an error; otherwise the pronunciation text is sent, as SSML exactly when it starts with <speak, and the service is speaking |
| AzureSpeech.AzureSpeechService.SynthesizeSsml | frontend/src/services/azure/azureSpeechService.ts:197-205 | not initialised is an error; otherwise the SSML is sent as it is and the service is speaking |
| AzureSpeech.AzureSpeechService.SettleSynthesis | frontend/src/services/azure/azureSpeechService.ts:138-154 | speaking ends however the call settles; the promise resolves exactly when the audio was completed, with each call's own error message otherwise (also lines 206-218) |
| AzureSpeech.AzureSpeechService.OnRecognized | frontend/src/services/azure/azureSpeechService.ts:227-229 | the callback is appended to the recognised callbacks and nothing else changes |
| AzureSpeech.AzureSpeechService.OnRecognizing | frontend/src/services/azure/azureSpeechService.ts:231-233 | the callback is appended to the recognising callbacks and nothing else changes |
| AzureSpeech.AzureSpeechService.OnError | frontend/src/services/azure/azureSpeechService.ts:235-237 | the callback is appended to the error callbacks and nothing else changes |
| AzureSpeech.AzureSpeechService.Dispose | frontend/src/services/azure/azureSpeechService.ts:239-253 | the SDK objects are dropped and the recognised and error callbacks cleared; the recognising callbacks and flags stay |
| AzureSpeech.AzureSpeechService.RecognizedEvent | frontend/src/services/azure/azureSpeechService.ts:268-275 | a recognised text is converted and handed to every recognised callback in order; nothing otherwise (also lines 311-313) |
| AzureSpeech.AzureSpeechService.RecognizingEvent | frontend/src/services/azure/azureSpeechService.ts:259-266 | an interim text is converted and handed to every recognising callback in order; nothing otherwise (also lines 315-317) |
| AzureSpeech.AzureSpeechService.CanceledEvent | frontend/src/services/azure/azureSpeechService.ts:277-284 | an error cancellation reaches every error callback as "Recognition error: " and the details (also lines 319-321) |
| HearingItems.ItemsOf | frontend/src/services/ticket/schema/HearingItems.ts:5-96 | the table entries of the given keys, in order |
| HearingItems.FindIndex | frontend/src/services/ticket/schema/HearingItems.ts:100 | the index of the first item with the state key; none when no item has it |
| HearingItems.FindItemByStateKey | frontend/src/services/ticket/schema/HearingItems.ts:99-105 | an item of the table with the state key; the error "Hearing item not found for stateKey: " and the key exactly when no item has it |
| HearingItems.StateKeyInjective | frontend/src/services/ticket/schema/HearingItems.ts:5-96 | distinct entries have distinct state keys |
| HearingItems.TableItems | frontend/src/services/ticket/schema/HearingItems.ts:5-96 | the table is the 23 entries in source order |
| HearingItems.TableOrderDistinct | frontend/src/services/ticket/schema/HearingItems.ts:5-96 | no entry appears twice in the table |
| HearingItems.KeyColumns | frontend/src/services/ticket/schema/HearingItems.ts:5-96 | every llmKey is its state key, and only the two passenger counts carry a default, 0 |
| HearingItems.HearingTable | frontend/src/services/ticket/schema/HearingItems.ts:5-96 | 23 items with pairwise-distinct state keys, every llmKey its state key, only the passenger counts defaulting, to 0 |
| HearingItems.FindsEveryItem | frontend/src/services/ticket/schema/HearingItems.ts:99-105 | every entry is found by its own state key |
| HearingItems.LayoutNames | frontend/src/services/ticket/schema/HearingItems.ts:107-145 | each property of the Hearing structure is named by the state key of the entry it looks up |
| HearingItems.BuildHearingStep | frontend/src/services/ticket/schema/HearingItems.ts:107-145 | building one more property appends the item found for it |
| HearingItems.BuildHearingFinds | frontend/src/services/ticket/schema/HearingItems.ts:107-145 | a layout whose properties are state keys builds without error, one item per property, each the table's entry |
| HearingItems.HearingBuilds | frontend/src/services/ticket/schema/HearingItems.ts:107-145 | building the Hearing structure never throws, and each property holds the item whose state key is its name |
| ExtractionMapper.MapJsonToTicketInfo | frontend/src/services/ticket/schema/ExtractionMapper.ts:5-14 | the loop over the items computes the fold that writes each present lookup key's value under the item's state key |
| ExtractionMapper.MapFoldContent | frontend/src/services/ticket/schema/ExtractionMapper.ts:5-14 | a state key is in the result exactly when some item with it finds its lookup key in the parsed object, and it holds the value the last such item found |
| ExtractionMapper.MapOverHearingTable | frontend/src/services/ticket/schema/ExtractionMapper.ts:5-14 | over the hearing table the result is the parsed object restricted to the table's state keys |
| PromptBuilder.LastAssistantMessageShape | frontend/src/services/ticket/schema/PromptBuilder.ts:7-10 | empty exactly when the history has no 駅員 tag; otherwise the history's suffix from the last tag on, which holds no later tag |
| PromptBuilder.HintsWithoutNull | frontend/src/services/ticket/schema/PromptBuilder.ts:20-36 | the never-null hints and the ticketConfirmed hint do not offer null |
| PromptBuilder.TicketConfirmedHintOneLine | frontend/src/services/ticket/schema/PromptBuilder.ts:30 | the ticketConfirmed hint is one line |
| PromptBuilder.TypeHintOffersNull | frontend/src/services/ticket/schema/PromptBuilder.ts:18-39 | a hint offers null exactly when the item is not one of the never-null ones (the two seat-info strings, ticketConfirmed, canExtractFromLastUserMessage), and no hint breaks the line |
| PromptBuilder.ItemLines | frontend/src/services/ticket/schema/PromptBuilder.ts:16-41 | one line per item, in order |
| PromptBuilder.ItemLineOneLine | frontend/src/services/ticket/schema/PromptBuilder.ts:40 | an item line stays on one line when its key and description do |
| PromptBuilder.ItemsTextLines | frontend/src/services/ticket/schema/PromptBuilder.ts:16-41 | when no key or description breaks the line, the items text splits back into exactly the item lines |
| PromptBuilder.AnyDateKey | frontend/src/services/ticket/schema/PromptBuilder.ts:60 | true exactly when some item asks for a date or time key |
| PromptBuilder.FillEdges | frontend/src/services/ticket/schema/PromptBuilder.ts:42-80 | a filled template opens with its opening and the history and ends with the reference section and the rules |
| PromptBuilder.FillQuotes | frontend/src/services/ticket/schema/PromptBuilder.ts:42-80 | a filled template holds the assistant's text, the user's text and every piece of the items text |
| PromptBuilder.BuildExtractionPrompt | frontend/src/services/ticket/schema/PromptBuilder.ts:42-80 | specification of buildExtractionPrompt, without a contract of its own; PromptFrame, PromptQuotes and PromptClock state its properties |
| PromptBuilder.PromptFrame | frontend/src/services/ticket/schema/PromptBuilder.ts:42-80 | the prompt opens with the instructions and the whole history and closes with the rules |
| PromptBuilder.PromptQuotes | frontend/src/services/ticket/schema/PromptBuilder.ts:42-80 | the customer's utterance, the clerk's last utterance and every item's line appear in the prompt |
| PromptBuilder.PromptClock | frontend/src/services/ticket/schema/PromptBuilder.ts:59-64 | the reference section carries the current time exactly when a date or time item is asked for, and is empty otherwise |
| PromptBuilder.HearingTableAsksDate | frontend/src/services/ticket/schema/PromptBuilder.ts:60 | the hearing table asks for the travel date, so a prompt over it carries the clock line |
| PromptManager.GenerateExtractionPrompt | frontend/src/services/ticket/PromptManager.ts:6-44 | a prompt exactly for the basic-information phase and the four later phases: the base text with the history, then the phase's format; "Unknown phase: " and the id for every other phase |
| PromptManager.PromptEmbedsHistory | frontend/src/services/ticket/PromptManager.ts:7-14 | the generated prompt quotes the whole history |
| PromptManager.EntryLabels | frontend/src/services/ticket/PromptManager.ts:56-59 | one label per entry, in order |
| PromptManager.FormattedHistory | frontend/src/services/ticket/PromptManager.ts:48-71 | specification of formatConversationHistory, without a contract of its own; FormattedHistoryLines and FormattedHistoryEmpty state its properties |
| PromptManager.FormatConversationHistory | frontend/src/services/ticket/PromptManager.ts:48-71 | the loop computes the formatted history |
| PromptManager.LabelOneLine | frontend/src/services/ticket/PromptManager.ts:57-58 | a label is one line when its content is |
| PromptManager.ClosingLines | frontend/src/services/ticket/PromptManager.ts:62-70 | the earlier lines, two empty lines, the heading and the last line split back line by line |
| PromptManager.FormattedHistoryLines | frontend/src/services/ticket/PromptManager.ts:48-71 | with no line break in a message the formatted history reads back as the earlier labels, two empty lines, the heading and the last label; one entry starts with three empty lines |
| PromptManager.FormattedHistoryEmpty | frontend/src/services/ticket/PromptManager.ts:51 | the formatted history is empty exactly when there is no history |
| CommunicationService.CheckPhaseCompletion | frontend/src/services/communication/CommunicationService.ts:146-188 | complete only with a ticket system in the basic, Joban-inquiry or confirmation phase: basic when confirmed, confirmation when the ticket is confirmed, Joban inquiry along exactly the four listed paths |
| CommunicationService.ZairaiExpressContinues | frontend/src/services/communication/CommunicationService.ts:176-179 | a departure-time request that adds a zairai express never completes the Joban inquiry |
| CommunicationService.JobanUseDecidedFirst | frontend/src/services/communication/CommunicationService.ts:161-179 | the Joban inquiry never completes before the customer said whether to take the Joban express |
| CommunicationService.CommunicationService.constructor | frontend/src/services/communication/CommunicationService.ts:7-12 | no callbacks, disconnected, not recording, nothing forwarded |
| CommunicationService.CommunicationService.OnMessage | frontend/src/services/communication/CommunicationService.ts:84-86 | the callback is appended to the message callbacks and nothing else changes |
| CommunicationService.CommunicationService.OnMessageComplete | frontend/src/services/communication/CommunicationService.ts:88-90 | the callback is appended to the completion callbacks and nothing else changes |
| CommunicationService.CommunicationService.OnError | frontend/src/services/communication/CommunicationService.ts:92-94 | the callback is appended to the error callbacks and nothing else changes |
| CommunicationService.CommunicationService.OnStateChange | frontend/src/services/communication/CommunicationService.ts:96-98 | the callback is appended to the state callbacks and nothing else changes |
| CommunicationService.CommunicationService.NotifyMessage | frontend/src/services/communication/CommunicationService.ts:108-110 | every message callback is called once with the message, in registration order |
| CommunicationService.CommunicationService.NotifyMessageComplete | frontend/src/services/communication/CommunicationService.ts:112-114 | every completion callback is called once with the message, in registration order |
| CommunicationService.CommunicationService.NotifyError | frontend/src/services/communication/CommunicationService.ts:116-118 | every error callback is called once with the error, in registration order |
| CommunicationService.CommunicationService.NotifyStateChange | frontend/src/services/communication/CommunicationService.ts:100-123 | the state is stored first, so connected exactly when the new state is; every state callback is called once with it, in order |
| CommunicationService.CommunicationService.NotifyTicketSystem | frontend/src/services/communication/CommunicationService.ts:191-196 | with the ticket dialogue manager the message is forwarded as "user" for the user and "ai" otherwise; nothing without it |
| AzureService.IsSystemMessage | frontend/src/services/communication/AzureService.ts:326 | the system-message test, without a contract of its own; SystemMessageWithTopic states that the topic note does not change it |
| AzureService.WithoutTopic | frontend/src/services/communication/AzureService.ts:342 | the text the ticket system receives, without a contract of its own; SendText states that a typed text comes back as typed |
| AzureService.SystemPrefixesOpen | frontend/src/services/communication/AzureService.ts:311-326 | neither system prefix holds the topic note's opening parenthesis, with which the note starts |
| AzureService.StartsWithAppended | frontend/src/services/communication/AzureService.ts:311-326 | appending a text that starts with a character foreign to a prefix does not change whether the input starts with that prefix |
| AzureService.SystemMessageWithTopic | frontend/src/services/communication/AzureService.ts:311-326 | appending the topic note does not change whether an input is a system message |
| AzureService.TopicOpensOnce | frontend/src/services/communication/AzureService.ts:311 | only the topic note's first character is an opening parenthesis |
| AzureService.LimitedHistory | frontend/src/services/communication/AzureService.ts:404-429 | specification of the window sent, without a contract of its own; LimitedHistoryWindow and LimitedHistoryDropsRepeat state its properties |
| AzureService.WindowEmbeds | frontend/src/services/communication/AzureService.ts:413-428 | the first message followed by a suffix is the history with the messages in between left out |
| AzureService.LimitedHistoryWindow | frontend/src/services/communication/AzureService.ts:404-429 | the window sent is at most eleven messages, the whole history up to eleven, keeps the first and the newest message, and is the history with some messages left out, in order |
| AzureService.LimitedHistoryDropsRepeat | frontend/src/services/communication/AzureService.ts:413-428 | past eleven messages the window is ten long exactly when the oldest of the last ten repeats the system message |
| AzureService.SettledAnswer | frontend/src/services/communication/AzureService.ts:459-496 | specification of the retry outcome, without a contract of its own; SettledAnswerProperties and AnswerWithRetries state its properties |
| AzureService.ApologyNotEmpty | frontend/src/services/communication/AzureService.ts:493 | the apology is not blank |
| AzureService.SettledAnswerProperties | frontend/src/services/communication/AzureService.ts:459-496 | the settled answer is never blank, at most three retries are made, a retry only after every earlier answer was blank, and the answer is the first, one of the retries or the apology |
| AzureService.AnswerWithRetries | frontend/src/services/communication/AzureService.ts:459-496 | the retry loop computes the first non-blank answer among the first and three retries, or the apology, with the number of retries made |
| AzureService.TrackedIds | frontend/src/services/communication/AzureService.ts:523-549 | specification of the spoken-id bookkeeping, without a contract of its own; TrackedIdsBounded states its properties |
| AzureService.TrackedIdsBounded | frontend/src/services/communication/AzureService.ts:523-549 | after an answer the new id is remembered last and ids stay distinct; after a successful synthesis at most ten are kept, the oldest dropped past ten; a failed one drops nothing |
| AzureService.AzureService.constructor | frontend/src/services/communication/AzureService.ts:20-29 | a fresh shared service, disconnected and not recording, no history, no remembered ids, no closed transaction |
| AzureService.AzureService.Initialize | frontend/src/services/communication/AzureService.ts:81-192 | connecting and the prompt taken; each client is kept from its assignment on, so a start-up step that throws leaves the clients assigned before it (the speech client unless the TTS step throws, the OpenAI client when the OpenAI or East US step throws); success resets the history to the system prompt alone and is connected, a failure is the error state with the history kept |
| AzureService.AzureService.StartRecording | frontend/src/services/communication/AzureService.ts:194-206 | an error without the speech client, nothing while already recording, else recording; the connection state, ticket messages and callbacks stay |
| AzureService.AzureService.StopRecording | frontend/src/services/communication/AzureService.ts:238-245 | nothing without the speech client, else not recording; the connection state, ticket messages and callbacks stay |
| AzureService.AzureService.ProcessUserInput | frontend/src/services/communication/AzureService.ts:318-554 | an error unless both clients are set; a system message is ignored; an issued ticket closes the transaction, thanking only the first time, without answering; otherwise the history gains the input, a non-system hook message and the settled answer, the window sent is the limited history, the ticket system gets the input without the topic note and the answer, and the spoken ids are updated; the clients, prompt, recognition and processing state, connection, recording and callbacks stay |
| AzureService.AzureService.SendText | frontend/src/services/communication/AzureService.ts:295-316 | the turn is processUserInput on the text with the topic note appended: the same error, ignore, closing and answer cases, with that noted text in the history, the settled answer, the limited window sent and the spoken ids updated; the ticket system receives the text as typed when it does not already hold the note |
| AzureService.AzureService.Disconnect | frontend/src/services/communication/AzureService.ts:556-601 | both clients dropped, the history and remembered ids emptied, recognition and processing state reset, disconnected; the closed-transaction flag, recording flag, ticket messages and callbacks are kept |
| AzureService.FailedStartKeepsClients | frontend/src/services/communication/AzureService.ts:81-128 | after an OpenAI start-up that throws the state is the error state, yet recording starts and a typed input is answered (also lines 194-206, 318-320) |
| DebugChatInjector.Deliveries | frontend/src/services/communication/DebugChatInjector.ts:20-26 | flushing a buffer makes one handler call per buffered message, in buffer order, each carrying that message |
| DebugChatInjector.DeliveriesAppend | frontend/src/services/communication/DebugChatInjector.ts:20-26 | flushing two buffers one after the other makes the same calls as flushing them joined |
| DebugChatInjector.DebugChatInjector.constructor | frontend/src/services/communication/DebugChatInjector.ts:12-14 | the injector starts enabled, with no handler, an empty buffer and nothing delivered |
| DebugChatInjector.DebugChatInjector.SetHandler | frontend/src/services/communication/DebugChatInjector.ts:16-29 | the new handler is installed; while enabled every buffered message goes to it first in, first out and the buffer is emptied; while disabled the buffer stays and nothing is delivered |
| DebugChatInjector.DebugChatInjector.SetEnabled | frontend/src/services/communication/DebugChatInjector.ts:31-33 | only the enabled flag changes |
| DebugChatInjector.DebugChatInjector.Post | frontend/src/services/communication/DebugChatInjector.ts:35-47 | disabled: nothing changes; enabled with a handler: exactly this message goes to the handler and the buffer stays; enabled without one: the message is appended to the buffer and nothing is delivered |
| DebugChatInjector.DebugChatInjector.PostDefault | frontend/src/services/communication/DebugChatInjector.ts:35-47 | as Post with the default role 'system' and importance false |
| DebugChatInjector.PostedBeforeHandlerComeFirst | frontend/src/services/communication/DebugChatInjector.ts:16-47 | two messages posted before any handler reach the first handler in posting order and the buffer ends empty |
| DebugChatInjector.BufferedMessageOvertaken | frontend/src/services/communication/DebugChatInjector.ts:16-47 | a handler set while disabled does not flush, so a message posted after re-enabling reaches the handler while the earlier one stays buffered |
| DialogFlowManager.Lookup | frontend/src/services/dialog/DialogFlowManager.ts:41-42 | a phase is found exactly when its id is in the table, and it is the table's entry |
| DialogFlowManager.Report | frontend/src/services/dialog/DialogFlowManager.ts:105-112 | a state change is reported once to the listener when one is set and not at all otherwise |
| DialogFlowManager.DialogFlowManager.constructor | frontend/src/services/dialog/DialogFlowManager.ts:11-15 | the table is the one given, the current phase is its 'phase1' entry (undefined when absent), the history is empty and no listener is set |
| DialogFlowManager.DialogFlowManager.NotifyStateChange | frontend/src/services/dialog/DialogFlowManager.ts:105-112 | adds the report of the current state and changes nothing else |
| DialogFlowManager.DialogFlowManager.AddMessage | frontend/src/services/dialog/DialogFlowManager.ts:82-90 | exactly one message of the given type and content is appended, then the state is reported |
| DialogFlowManager.DialogFlowManager.TransitionToPhase | frontend/src/services/dialog/DialogFlowManager.ts:40-53 | an unknown id is refused with "Invalid phase: " and the id and changes nothing; a known id becomes the current phase, adds one transition message exactly when the phase's transition message is non-empty, and is reported |
| DialogFlowManager.DialogFlowManager.GetCurrentPrompt | frontend/src/services/dialog/DialogFlowManager.ts:55-60 | the current phase's system prompt; none while the current phase is undefined |
| DialogFlowManager.DialogFlowManager.GenerateTransitionMessage | frontend/src/services/dialog/DialogFlowManager.ts:66-68 | the current phase's transition message, the empty text when it has none or it is empty; none while the current phase is undefined |
| DialogFlowManager.DialogFlowManager.GetMessageHistory | frontend/src/services/dialog/DialogFlowManager.ts:92-94 | the history as it stands |
| DialogFlowManager.DialogFlowManager.ClearHistory | frontend/src/services/dialog/DialogFlowManager.ts:96-99 | the history becomes empty, the state is reported, nothing else changes |
| DialogFlowManager.DialogFlowManager.Reset | frontend/src/services/dialog/DialogFlowManager.ts:114-117 | back to the table's 'phase1' entry with an empty history, and reported |
| DialogFlowManager.DialogFlowManager.SetOnStateChange | frontend/src/services/dialog/DialogFlowManager.ts:101-103 | only the state listener changes |
| DialogFlowManager.DialogFlowManager.SetOnPhaseChanged | frontend/src/services/dialog/DialogFlowManager.ts:119-122 | only the phase listener changes |
| DialogFlowManager.HistoryCopyIsIndependent | frontend/src/services/dialog/DialogFlowManager.ts:82-94 | extending a copy of the history does not touch the manager's history, and a later addition to the manager leaves the copy as it was |
| DialogFlowManager.BaseTableRefusesTransitions | frontend/src/services/dialog/DialogFlowManager.ts:11-15 | with the empty base table every transition is refused and neither the prompt nor the transition message can be read (also lines 40-60, 66-68) |
| DialogFlowManager.TransitionSetsPrompt | frontend/src/services/dialog/DialogFlowManager.ts:40-60 | after a transition to a known phase its system prompt is the current prompt |
| ConversationRecorder.SessionIdFor | frontend/src/services/conversation/ConversationRecorder.ts:21 | the given session id when it is non-empty, otherwise "session-", the clock reading, "-" and the random suffix |
| ConversationRecorder.Merge | frontend/src/services/conversation/ConversationRecorder.ts:120 | the merged cache has the keys of both; an item's value wins over the cache's, and the cache's other entries are kept |
| ConversationRecorder.AddCalls | frontend/src/services/conversation/ConversationRecorder.ts:195-197 | one addMessage call per message of the batch, in batch order, on the given conversation |
| ConversationRecorder.Attempts | frontend/src/services/conversation/ConversationRecorder.ts:194-201 | a batch of n whose call for message failAt throws sends failAt + 1 messages; all n when no call throws |
| ConversationRecorder.ConversationRecorder.constructor | frontend/src/services/conversation/ConversationRecorder.ts:5-26 | the session id is chosen as SessionIdFor says; no conversation, not recording, no run in progress, empty cache, queue, calls and timers |
| ConversationRecorder.ConversationRecorder.StartRecording | frontend/src/services/conversation/ConversationRecorder.ts:28-47 | while recording with an id, that id is returned and nothing changes; otherwise one createConversation for the session, whose id on success becomes current with an empty cache and queue, and whose failure is passed on with the state unchanged |
| ConversationRecorder.ConversationRecorder.EndRecording | frontend/src/services/conversation/ConversationRecorder.ts:67-94 | not recording, no id, empty cache and queue, whatever else happened |
| ConversationRecorder.ConversationRecorder.StopRecording | frontend/src/services/conversation/ConversationRecorder.ts:49-73 | inactive: nothing changes; active: the queued messages are sent unless a run is in progress (up to the failing one), a flush that fails requests the 2000 ms queue retry and no other timer is set, the conversation is closed as completed, the run flag is as before, and the recorder is reset |
| ConversationRecorder.ConversationRecorder.AbortRecording | frontend/src/services/conversation/ConversationRecorder.ts:75-95 | inactive: nothing changes; active: one close as aborted and the recorder is reset |
| ConversationRecorder.ConversationRecorder.RecordMessage | frontend/src/services/conversation/ConversationRecorder.ts:97-104 | inactive: nothing changes; active: the message is appended to the queue and a 300 ms queue run is scheduled, nothing else changes |
| ConversationRecorder.ConversationRecorder.UpdateHearingItem | frontend/src/services/conversation/ConversationRecorder.ts:106-113 | inactive: nothing changes; active: the key is set in the cache and a 500 ms write-back is scheduled |
| ConversationRecorder.ConversationRecorder.UpdateAllHearingItems | frontend/src/services/conversation/ConversationRecorder.ts:115-122 | inactive: nothing changes; active: the items are merged over the cache and a 500 ms write-back is scheduled |
| ConversationRecorder.ConversationRecorder.SendFeedback | frontend/src/services/conversation/ConversationRecorder.ts:124-137 | without an id nothing happens and no error; with one, one addFeedback call and the service's failure passed on |
| ConversationRecorder.ConversationRecorder.UpdateRecordingInfo | frontend/src/services/conversation/ConversationRecorder.ts:139-152 | without an id nothing happens and no error; with one, one updateRecording call with the url and token and the service's failure passed on |
| ConversationRecorder.ConversationRecorder.MarkTicket | frontend/src/services/conversation/ConversationRecorder.ts:154-167 | without an id nothing happens; with one, one ticketIssued update, whose failure is swallowed |
| ConversationRecorder.ConversationRecorder.WriteHearingItems | frontend/src/services/conversation/ConversationRecorder.ts:169-183 | nothing without an id or with an empty cache; otherwise the whole cache is written once and a failure schedules a 2000 ms retry |
| ConversationRecorder.ConversationRecorder.BeginQueueRun | frontend/src/services/conversation/ConversationRecorder.ts:185-192 | without an id, with an empty queue or with a run in progress nothing happens; otherwise the run starts and takes the whole queue, leaving it empty |
| ConversationRecorder.ConversationRecorder.FinishQueueRun | frontend/src/services/conversation/ConversationRecorder.ts:194-206 | the batch is sent in order up to the failing call; on failure the whole batch goes back in front of what was queued meanwhile and a 2000 ms retry is scheduled; the run ends either way |
| ConversationRecorder.ConversationRecorder.ProcessMessageQueue | frontend/src/services/conversation/ConversationRecorder.ts:185-207 | a whole run with nothing queued meanwhile: the queue is sent up to the failing call, and is kept with a retry scheduled on failure and emptied on success |
| ConversationRecorder.ConversationRecorder.GetCurrentConversationId | frontend/src/services/conversation/ConversationRecorder.ts:209-211 | the current conversation id |
| ConversationRecorder.ConversationRecorder.IsCurrentlyRecording | frontend/src/services/conversation/ConversationRecorder.ts:217-219 | whether recording is on |
| ConversationRecorder.FailedBatchGoesFirst | frontend/src/services/conversation/ConversationRecorder.ts:185-207 | a run failing on its second message while a new message is recorded leaves the failed batch first and the new message after it (also lines 97-104) |
| ConversationRecorder.RetrySendsAgain | frontend/src/services/conversation/ConversationRecorder.ts:194-206 | messages sent before a failing call are sent again by the retry |
| ConversationRecorder.StoppedRecorderIgnoresInput | frontend/src/services/conversation/ConversationRecorder.ts:49-73 | after a stop, recording calls leave the recorder with no id, empty queue and empty cache (also lines 97-122) |
| ClockText.FindClock | frontend/src/services/conversation/ConversationHooks.ts:1877 | the leftmost match of the H:MM pattern, without a contract of its own; FindClockLeftmost states its properties |
| ClockText.ClockAt | frontend/src/services/conversation/ConversationHooks.ts:1877 | a clock found at one index has one- or two-digit hours and two-digit minutes, both below 100 |
| ClockText.FindClockLeftmost | frontend/src/services/conversation/ConversationHooks.ts:1877 | the search finds nothing exactly when the pattern matches at no index, and otherwise returns the match at the leftmost index where it matches |
| ClockText.ParseInt10Digits | frontend/src/services/conversation/ConversationHooks.ts:1880-1881 | parseInt in base 10 of a non-empty digit string is its decimal value |
| ClockText.HourMinute | frontend/src/services/conversation/ConversationHooks.ts:714-717 | the trimming to H:MM, without a contract of its own; HourMinuteIdempotent, HourMinuteDropsSeconds and HourMinuteEmpty state its properties |
| ClockText.HourMinuteIdempotent | frontend/src/services/conversation/ConversationHooks.ts:714-717 | trimming to HH:MM twice is trimming once |
| ClockText.HourMinuteDropsSeconds | frontend/src/services/conversation/ConversationHooks.ts:714-717 | a clock followed by :SS loses exactly those three characters |
| ClockText.HourMinuteEmpty | frontend/src/services/conversation/ConversationHooks.ts:714-717 | the trimmed text is empty only for the empty text |
| StableSort.SortBySorted | frontend/src/services/conversation/ConversationHooks.ts:1453-1470 | the sorted routes are in comparator order, departure first and duration second |
| StableSort.SortByPermutes | frontend/src/services/conversation/ConversationHooks.ts:1453-1470 | sorting keeps exactly the same routes, as a multiset |
| StableSort.SortByStable | frontend/src/services/conversation/ConversationHooks.ts:1453-1470 | routes the comparator ties keep their relative order, as Array.prototype.sort guarantees |
| StableSort.SortBySortedInput | frontend/src/services/conversation/ConversationHooks.ts:1453-1470 | sorting routes already in comparator order changes nothing |

## Left out

- The floating-point signal processing of the backend (DC removal, fades, the Butterworth filter and peak normalisation in `_apply_fade_in_out`, backend/google_cloud_tts.py:153-209) is the injected `fade` stage of `GoogleCloudTts.SynthesizeSpeech`, a parameter.
- The Pearson-correlation tests of the duplicate removal (threshold 0.95) are the uninterpreted predicate `similar`; only the lengths, guards, split points and fallbacks are modelled.
- Float PCM conversions and the fractional-minute arithmetic of the conversation hooks are not modelled; JavaScript numbers are integers or `NaN` (`Wrappers.Num`), so precision beyond 2^53 is not modelled either.
- The Google TTS client, the credential loading, the Azure Speech SDK, the Gemini SDK stream, the OpenAI client and the route database are not modelled: what they answer is an input of the operation that awaits them.
- HTTP and WebSocket servers, the asyncio proxy, the streaming socket clients and the blob storage service are outside this model: their point is I/O and concurrency.
- Promises are modelled as completed in program order; two calls overlapping in time are not modelled.
- Timers and debouncing are recorded as the delayed runs they request (`ConversationRecorder` timers), not executed.
- The recorder's `stopRecording` during a queue run that is still awaiting the service is not modelled: `ConversationRecorder.ConversationRecorder.FinishQueueRun` requires the conversation id the run started with.
- `Date.now`, `new Date()` and `Math.random` are inputs; message ids (`generateMessageId`) and timestamps are parameters or left out of the records.
- The dictionary regular expressions built from dictionary strings without escaping are modelled as literal replace-all. For readings that hold regular-expression metacharacters, or for an empty reading, the program's behaviour differs and is not modelled.
- `toLowerCase` is modelled for ASCII letters only.
- `StationNameNormalizer.normalizeWithAI` and the `fetch` of the dictionary files are not modelled; the fetched text is an input, `None` when the fetch failed.
- The LLM retry and selection loop of `proposeAlternativeRoute` (frontend/src/services/conversation/ConversationHooks.ts:1582-1740) is not modelled; only the neighbour selection before it is. The route-search and speech side effects of the `handleTimeSpecified*` handlers, and the regex parsing of model replies, are not modelled either.
- Audio playback, `AudioContext`, `MediaRecorder` and the microphone are not modelled, nor is AzureService's `playAudio` nor the disconnect it schedules after the thank-you.
- The greeting timers, `setupEventHandlers`, `getInitialAIResponse` and the prompt logging of the Azure service are not modelled.
- The dialog handlers the `CommunicationService` constructor installs are not modelled.
- `AzureService.AzureService.ProcessUserInput` requires at least three candidate answers for the retries; the model answers are its inputs.
- `AzureService.AzureService.SendText` has the same requirement.
- `AzureService.AzureService.Disconnect` keeps the closed-transaction flag. That is what the source does, and the model states it.
- The dialog flow manager's phase table is a constructor argument. The ticket dialogue subclass's table and the dialog message timestamps are not modelled.
- The debug chat injector's static fields are one object; what the handler throws is swallowed, so every delivery is made.
- React components, hooks, the configuration singletons and the TTS factories are UI or wiring and are not modelled.
- The pure type declarations are represented only as the datatypes of `TicketTypes` and `RouteModel`.
- `GoogleCloudTts.SynthesizeSpeech` takes the provider call and the fade stage as parameters; the streaming chunk notifications of the providers are not modelled.
- `GeminiTts.GeminiTtsProvider.SynthesizeSpeech` takes the stream of inline-data chunks as a parameter; the temperature is kept but has no effect in the model.
- `GoogleCloudTts.SynthesizeSpeech` de-duplicates with the corrected `RemoveDuplicateAudio` of the Findings, not with the code as written: a doubled 30000-sample utterance comes back halved, where the program hits its `UnboundLocalError` handler and returns it unchanged. `GoogleCloudTts.RemoveDuplicateAudioAsWritten` is the behaviour as written.
- `GoogleCloudTtsProvider.Provider.constructor` chooses the voice with the corrected `ConfiguredVoice` of the Findings, not with the code as written: a configured voice "toString" becomes "Kore", where the program keeps "toString". `GoogleCloudTtsProvider.AsWrittenAcceptsInheritedKey` states the behaviour as written.
- `RouteSearch.SortRoutesByArrivalTime` reads an arrival time that does not parse as 0. In the program the comparator then returns `NaN`, and how `Array.prototype.sort` orders routes under such an inconsistent comparator is not modelled.
- `AzureService.AzureService.Initialize` tracks the speech and OpenAI clients, the two that `startRecording`, `sendText` and `processUserInput` test. The TTS provider and the East US client are assigned as well, but no modelled operation tests them, so they are not tracked.
- `TicketSystem.TicketSystemManager` does not model its calls into the conversation recorder or its `notifyStateChange` listener calls; the recorder is modelled on its own as `ConversationRecorder`.
- The ConversationService store behind the recorder is not modelled: each of its calls is recorded with its arguments, and its failure is an input.

## Findings

| source | as written | input that shows it | evidently intended | confidence | as-written member | corrected member |
|---|---|---|---|---|---|---|
| backend/google_cloud_tts.py:245,268-272 | `normalize_audio` is defined only inside the triple-repeat branch, so whenever that branch's length guard fails, the double-repeat check raises `UnboundLocalError`. The handler then returns the input unchanged. | an utterance of 15000 samples said twice (30000 samples, too short for the triple check) | the double-repeat check halves audio whose two halves are similar | not executed | GoogleCloudTts.AsWrittenMissesDoubleRepeat | GoogleCloudTts.RemoveDuplicateAudio |
| frontend/src/services/tts/GoogleCloudTTSProvider.ts:30 | `voiceName in CHIRP3_HD_VOICES` also accepts keys inherited from `Object.prototype` | a configured voice name "toString" | only the catalogue's own voice names are accepted, anything else falls back to "Kore" | not executed | GoogleCloudTtsProvider.AsWrittenAcceptsInheritedKey | GoogleCloudTtsProvider.ConfiguredVoice |
