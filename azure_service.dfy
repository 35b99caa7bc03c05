/**
 * The Azure communication service: one turn of the conversation from the
 * customer's text to the assistant's answer. It keeps the chat history sent
 * to the language model, closes the transaction once the ticket is issued,
 * retries an empty answer, and remembers which answers are being spoken.
 * What the ticket system, the conversation hook, the language model and the
 * synthesizer return is passed in.
 */
module AzureService {
  import opened Wrappers
  import opened JsText
  import opened CommunicationService

  datatype ChatRole = SystemRole | UserChat | AssistantChat

  datatype ChatMessage = ChatMessage(role: ChatRole, content: string)

  /** The note appended to every typed or spoken input. */
  const TicketTopic := "(JRの切符の話です)"

  const ThankYou := "ありがとうございました。切符を発券いたしました。"

  const Apology := "申し訳ございません。" + "OpenAI からの 応答の取得に失敗しました。" + "もう一度最初からやり直してください。"

  const NotInitialized := "Service not initialized"

  const MaxRetries := 3

  /** The longest history sent whole; a longer one is cut to its first message and the last ten. */
  const HistoryLimit := 11

  const RecentCount := 10

  /** The most message ids remembered after a spoken answer. */
  const IdLimit := 10

  /** Inputs that announce a system event; they are not part of the conversation. */
  predicate IsSystemMessage(text: string) {
    StartsWith(text, "システム：") || StartsWith(text, "システム通知：")
  }

  /** Neither system prefix holds the topic note's opening parenthesis. */
  lemma {:induction false} SystemPrefixesOpen()
    ensures '(' !in "システム：" && '(' !in "システム通知："
    ensures TicketTopic[0] == '('
  { }

  lemma {:induction false} StartsWithAppended(text: string, p: string, topic: string)
    requires topic != [] && topic[0] !in p
    ensures StartsWith(text + topic, p) <==> StartsWith(text, p)
  {
    if |text| < |p| {
      assert (text + topic)[|text|] == topic[0];
      assert forall s: string :: |s| >= |p| && s[..|p|] == p ==> s[|text|] == p[|text|];
    }
    if StartsWith(text, p) {
      assert (text + topic)[..|p|] == text[..|p|];
    }
    if |p| <= |text| && StartsWith(text + topic, p) {
      assert (text + topic)[..|p|] == text[..|p|];
    }
  }

  /** Appending the topic note does not change whether an input is a system message. */
  lemma {:induction false} SystemMessageWithTopic(text: string)
    ensures IsSystemMessage(text + TicketTopic) <==> IsSystemMessage(text)
  {
    SystemPrefixesOpen();
    StartsWithAppended(text, "システム：", TicketTopic);
    StartsWithAppended(text, "システム通知：", TicketTopic);
  }

  /** Only the topic note's first character is an opening parenthesis. */
  lemma {:induction false} TopicOpensOnce()
    ensures TicketTopic != [] && forall k :: 0 < k < |TicketTopic| ==> TicketTopic[k] != TicketTopic[0]
  { }

  /** The text the ticket system receives for an input that carries the topic note. */
  function WithoutTopic(text: string): string {
    ReplaceFirst(text, TicketTopic, "")
  }

  /**
   * The history sent to the language model: all of it up to eleven
   * messages, otherwise the first message and the last ten, the first of
   * those dropped when it repeats the first message as a system message.
   */
  function LimitedHistory(history: seq<ChatMessage>): seq<ChatMessage> {
    if |history| <= HistoryLimit then history
    else
      var head := history[0];
      var recent := history[|history| - RecentCount..];
      if recent[0].role == SystemRole && recent[0].content == head.content then [head] + recent[1..]
      else [head] + recent
  }

  /** `idx` picks the elements of `a` out of `b`, in order. */
  predicate EmbedsBy(a: seq<ChatMessage>, b: seq<ChatMessage>, idx: seq<int>) {
    |idx| == |a|
    && (forall k :: 0 <= k < |idx| ==> 0 <= idx[k] < |b| && a[k] == b[idx[k]])
    && (forall k, l :: 0 <= k < l < |idx| ==> idx[k] < idx[l])
  }

  /** `a` is `b` with some elements left out. */
  ghost predicate IsSubsequence(a: seq<ChatMessage>, b: seq<ChatMessage>) {
    exists idx :: EmbedsBy(a, b, idx)
  }

  lemma {:induction false} WindowEmbeds(history: seq<ChatMessage>, start: int)
    requires 0 < start < |history|
    ensures EmbedsBy([history[0]] + history[start..], history,
                     seq(|history| - start + 1, k => if k == 0 then 0 else start + k - 1))
  {
    var w := [history[0]] + history[start..];
    var idx := seq(|history| - start + 1, k => if k == 0 then 0 else start + k - 1);
    forall k | 0 <= k < |idx| ensures 0 <= idx[k] < |history| && w[k] == history[idx[k]] {
      if k > 0 {
        assert w[k] == history[start..][k - 1];
      }
    }
  }

  /**
   * The window sent is at most eleven messages, keeps the first and the
   * newest message, and is the history with some messages left out, in order.
   */
  lemma {:induction false} LimitedHistoryWindow(history: seq<ChatMessage>)
    ensures |LimitedHistory(history)| <= HistoryLimit
    ensures |history| <= HistoryLimit ==> LimitedHistory(history) == history
    ensures history != [] ==> (LimitedHistory(history) != [] && LimitedHistory(history)[0] == history[0]
      && LimitedHistory(history)[|LimitedHistory(history)| - 1] == history[|history| - 1])
    ensures IsSubsequence(LimitedHistory(history), history)
  {
    var r := LimitedHistory(history);
    if |history| <= HistoryLimit {
      var idx := seq(|history|, k => k);
      assert EmbedsBy(r, history, idx);
    } else {
      var n := |history|;
      var start := if history[n - RecentCount].role == SystemRole && history[n - RecentCount].content == history[0].content
        then n - RecentCount + 1 else n - RecentCount;
      assert history[n - RecentCount..][1..] == history[n - RecentCount + 1..];
      assert r == [history[0]] + history[start..];
      LongWindow(history, start);
    }
  }

  /** The first message and the messages from `start` on, near the end, make a window of the history. */
  lemma {:induction false} LongWindow(history: seq<ChatMessage>, start: int)
    requires |history| > HistoryLimit && |history| - RecentCount <= start <= |history| - RecentCount + 1
    ensures var w := [history[0]] + history[start..];
      |w| <= HistoryLimit && w != [] && w[0] == history[0] && w[|w| - 1] == history[|history| - 1]
      && IsSubsequence(w, history)
  {
    WindowEmbeds(history, start);
  }

  /** Past eleven messages, the window is ten long exactly when the oldest of the last ten repeats the system message. */
  lemma {:induction false} LimitedHistoryDropsRepeat(history: seq<ChatMessage>)
    requires |history| > HistoryLimit
    ensures var m := history[|history| - RecentCount];
      |LimitedHistory(history)| == RecentCount <==> (m.role == SystemRole && m.content == history[0].content)
  { }

  /** What `!s || s.trim() === ''` tests: an answer with nothing to say. */
  predicate EmptyAnswer(s: string) { Blank(s) }

  /**
   * The answer kept after the retries, and how many retries were made: the
   * first non-empty one among the first answer and up to three retries, or
   * the apology when all are empty.
   */
  function SettledAnswer(first: string, retries: seq<string>): (string, nat)
    requires |retries| >= MaxRetries
  {
    if !EmptyAnswer(first) then (first, 0)
    else if !EmptyAnswer(retries[0]) then (retries[0], 1)
    else if !EmptyAnswer(retries[1]) then (retries[1], 2)
    else if !EmptyAnswer(retries[2]) then (retries[2], 3)
    else (Apology, 3)
  }

  lemma {:induction false} ApologyNotEmpty()
    ensures !EmptyAnswer(Apology)
  {
    assert Apology[0] == '申';
    assert !IsWhite(Apology[0]);
    TrimEmptyIffAllWhite(Apology);
  }

  /**
   * The settled answer is never empty, at most three retries are made, and
   * a retry is made only after every earlier answer came back empty.
   */
  lemma {:induction false} SettledAnswerProperties(first: string, retries: seq<string>)
    requires |retries| >= MaxRetries
    ensures var (answer, attempts) := SettledAnswer(first, retries);
      !EmptyAnswer(answer) && attempts <= MaxRetries
      && (attempts == 0 <==> !EmptyAnswer(first))
      && (attempts > 0 ==> EmptyAnswer(first) && forall k :: 0 <= k < attempts - 1 ==> EmptyAnswer(retries[k]))
      && (answer == first || (exists k :: 0 <= k < attempts && answer == retries[k]) || answer == Apology)
  {
    ApologyNotEmpty();
    if !EmptyAnswer(first) {
    } else if !EmptyAnswer(retries[0]) {
      assert SettledAnswer(first, retries).0 == retries[0];
    } else if !EmptyAnswer(retries[1]) {
      assert SettledAnswer(first, retries).0 == retries[1];
    } else if !EmptyAnswer(retries[2]) {
      assert SettledAnswer(first, retries).0 == retries[2];
    }
  }

  /** The retry loop: ask again while the answer is empty, at most three times, then apologise. */
  method AnswerWithRetries(first: string, retries: seq<string>) returns (answer: string, attempts: nat)
    requires |retries| >= MaxRetries
    ensures (answer, attempts) == SettledAnswer(first, retries)
  {
    answer := first;
    attempts := 0;
    while EmptyAnswer(answer) && attempts < MaxRetries
      invariant attempts <= MaxRetries
      invariant attempts == 0 ==> answer == first
      invariant attempts > 0 ==> EmptyAnswer(first) && answer == retries[attempts - 1]
      invariant attempts > 1 ==> EmptyAnswer(retries[0])
      invariant attempts > 2 ==> EmptyAnswer(retries[1])
      decreases MaxRetries - attempts
    {
      attempts := attempts + 1;
      answer := retries[attempts - 1];
    }
    if EmptyAnswer(answer) {
      answer := Apology;
    }
  }

  /**
   * The remembered ids after an answer: a new id is added when the answer is
   * non-empty, and the oldest one is dropped when the synthesis succeeded and
   * more than ten are held.
   */
  function TrackedIds(ids: seq<string>, id: string, answer: string, synthesized: bool): seq<string> {
    if answer == [] || id in ids then ids
    else
      var added := ids + [id];
      if synthesized && |added| > IdLimit then added[1..] else added
  }

  predicate Distinct(ids: seq<string>) {
    forall i, j :: 0 <= i < j < |ids| ==> ids[i] != ids[j]
  }

  /**
   * A successful synthesis keeps at most ten distinct ids, the new one last;
   * a failed one keeps the new id without dropping any.
   */
  lemma {:induction false} TrackedIdsBounded(ids: seq<string>, id: string, answer: string, synthesized: bool)
    requires Distinct(ids) && answer != [] && id !in ids
    ensures var r := TrackedIds(ids, id, answer, synthesized);
      Distinct(r) && r != [] && r[|r| - 1] == id
      && (synthesized && |ids| <= IdLimit ==> |r| <= IdLimit)
      && (!synthesized ==> r == ids + [id])
      && (synthesized && |ids| >= IdLimit ==> r == ids[1..] + [id])
  {
    var added := ids + [id];
    assert Distinct(added);
    if synthesized && |added| > IdLimit {
      assert added[1..] == ids[1..] + [id];
    }
  }

  /** What the ticket system reported after extracting from the input, and the hook's injected message. */
  datatype TicketTurn = TicketTurn(ticketIssued: bool, injection: Option<ChatMessage>)

  /** How a turn ended: a system message ignored, the transaction closed, or an answer. */
  datatype Turn =
    | Ignored
    | Closed(playsThankYou: bool)
    | Answered(sent: seq<ChatMessage>, answer: string, retries: nat)

  /** The awaited start-up steps of `initialize`, in the order they run. */
  datatype StartStep = TtsProviderStep | SpeechStep | OpenAIStep | OpenAIEastUsStep

  class AzureService {
    /** The state this service shares with every communication service. */
    const comm: CommunicationService
    /** Whether `speechService` is set: recording needs it. */
    var hasSpeechService: bool
    /** Whether `openAIService` is set: answering needs it and the speech service. */
    var hasOpenAIService: bool
    var systemPrompt: string
    var conversationHistory: seq<ChatMessage>
    /** The ids of the answers handed to the synthesizer, oldest first. */
    var synthesizingMessageIds: seq<string>
    var transactionCompleted: bool
    var isProcessingResponse: bool
    var currentRecognizingMessageId: Option<string>
    var lastRecognizingText: string

    /** The guard of `sendText` and `processUserInput`: both clients set. */
    predicate Initialized()
      reads this
    {
      hasSpeechService && hasOpenAIService
    }

    constructor(usesTicketManager: bool)
      ensures fresh(comm) && comm.usesTicketManager == usesTicketManager
      ensures comm.connectionState == Disconnected && !comm.recording && comm.ticketMessages == []
      ensures comm.Callbacks() == ([], [], [], [])
      ensures !hasSpeechService && !hasOpenAIService && conversationHistory == [] && synthesizingMessageIds == []
      ensures !transactionCompleted && !isProcessingResponse
      ensures currentRecognizingMessageId == None && lastRecognizingText == ""
    {
      comm := new CommunicationService(usesTicketManager);
      hasSpeechService := false;
      hasOpenAIService := false;
      systemPrompt := "";
      conversationHistory := [];
      synthesizingMessageIds := [];
      transactionCompleted := false;
      isProcessingResponse := false;
      currentRecognizingMessageId := None;
      lastRecognizingText := "";
    }

    /**
     * `initialize`: connecting, the prompt taken, then the clients set up one
     * after another; `failsAt` is the awaited step that throws, if any. A
     * client is kept from the moment it is assigned, so a failure leaves the
     * ones assigned before it (the speech client is assigned before its own
     * start-up is awaited, the OpenAI client likewise). Success resets the
     * history to the system prompt alone and reports connected; a failure
     * reports the error state and keeps the history.
     */
    method Initialize(prompt: string, failsAt: Option<StartStep>) returns (ok: bool)
      modifies this, comm
      ensures ok == failsAt.None?
      ensures systemPrompt == prompt
      ensures hasSpeechService == (old(hasSpeechService) || failsAt != Some(TtsProviderStep))
      ensures hasOpenAIService == (old(hasOpenAIService) || (failsAt != Some(TtsProviderStep) && failsAt != Some(SpeechStep)))
      ensures ok ==> conversationHistory == [ChatMessage(SystemRole, prompt)] && comm.connectionState == Connected
      ensures !ok ==> comm.connectionState == ConnectionError && conversationHistory == old(conversationHistory)
      ensures synthesizingMessageIds == old(synthesizingMessageIds) && transactionCompleted == old(transactionCompleted)
      ensures isProcessingResponse == old(isProcessingResponse)
      ensures currentRecognizingMessageId == old(currentRecognizingMessageId) && lastRecognizingText == old(lastRecognizingText)
      ensures comm.recording == old(comm.recording) && comm.ticketMessages == old(comm.ticketMessages)
      ensures comm.Callbacks() == old(comm.Callbacks())
    {
      var _ := comm.NotifyStateChange(Connecting);
      systemPrompt := prompt;
      if failsAt == Some(TtsProviderStep) {
        var _ := comm.NotifyStateChange(ConnectionError);
        return false;
      }
      hasSpeechService := true;
      if failsAt == Some(SpeechStep) {
        var _ := comm.NotifyStateChange(ConnectionError);
        return false;
      }
      hasOpenAIService := true;
      if failsAt.Some? {
        var _ := comm.NotifyStateChange(ConnectionError);
        return false;
      }
      conversationHistory := [ChatMessage(SystemRole, prompt)];
      var _ := comm.NotifyStateChange(Connected);
      ok := true;
    }

    /** `startRecording`: an error without the speech client, nothing while already recording. */
    method StartRecording() returns (r: Result<bool, string>)
      modifies comm
      ensures !hasSpeechService ==> r == Err(NotInitialized) && comm.recording == old(comm.recording)
      ensures hasSpeechService ==> r == Ok(!old(comm.recording)) && comm.recording
      ensures comm.connectionState == old(comm.connectionState) && comm.ticketMessages == old(comm.ticketMessages)
      ensures comm.Callbacks() == old(comm.Callbacks())
    {
      if !hasSpeechService {
        return Err(NotInitialized);
      }
      if comm.recording {
        return Ok(false);
      }
      comm.recording := true;
      r := Ok(true);
    }

    /** `stopRecording`: nothing without the speech client, otherwise not recording. */
    method StopRecording()
      modifies comm
      ensures hasSpeechService ==> !comm.recording
      ensures !hasSpeechService ==> comm.recording == old(comm.recording)
      ensures comm.connectionState == old(comm.connectionState) && comm.ticketMessages == old(comm.ticketMessages)
      ensures comm.Callbacks() == old(comm.Callbacks())
    {
      if !hasSpeechService {
        return;
      }
      comm.recording := false;
    }

    /** The hook's message when it is kept: a ticket turn, and not a system message. */
    function Injected(ticket: Option<TicketTurn>): seq<ChatMessage>
      reads this, comm
    {
      if comm.usesTicketManager && ticket.Some? && ticket.value.injection.Some?
         && ticket.value.injection.value.role != SystemRole
      then [ticket.value.injection.value]
      else []
    }

    /** Whether the turn ends the transaction: the ticket was issued now or before. */
    predicate Closing(ticket: Option<TicketTurn>)
      reads this, comm
    {
      comm.usesTicketManager && ticket.Some? && (ticket.value.ticketIssued || transactionCompleted)
    }

    /**
     * `processUserInput` for one input. `ticket` is what the ticket system
     * reported, `None` without a ticket system; `first` and `retries` are the
     * language model's answers; `synthesized` is whether speaking succeeded.
     */
    method ProcessUserInput(text: string, ticket: Option<TicketTurn>, first: string, retries: seq<string>,
                            messageId: string, synthesized: bool) returns (r: Result<Turn, string>)
      requires |retries| >= MaxRetries
      modifies this, comm
      ensures !old(Initialized()) ==> r == Err(NotInitialized) && unchanged(this) && unchanged(comm)
      ensures old(Initialized()) && IsSystemMessage(text) ==> r == Ok(Ignored) && unchanged(this) && unchanged(comm)
      ensures old(Initialized()) && !IsSystemMessage(text) && old(Closing(ticket)) ==> (
        r == Ok(Closed(!old(transactionCompleted))) && transactionCompleted
        && conversationHistory == old(conversationHistory) + [ChatMessage(UserChat, text)]
        && comm.ticketMessages == old(comm.ticketMessages) + [TicketMessage("user", WithoutTopic(text))]
        && synthesizingMessageIds == old(synthesizingMessageIds))
      ensures old(Initialized()) && !IsSystemMessage(text) && !old(Closing(ticket)) ==> (
        var before := old(conversationHistory) + [ChatMessage(UserChat, text)] + old(Injected(ticket));
        var (answer, attempts) := SettledAnswer(first, retries);
        r == Ok(Answered(LimitedHistory(before), answer, attempts))
        && conversationHistory == before + [ChatMessage(AssistantChat, answer)]
        && comm.ticketMessages == old(comm.ticketMessages)
             + (if comm.usesTicketManager then [TicketMessage("user", WithoutTopic(text)), TicketMessage("ai", answer)] else [])
        && synthesizingMessageIds == TrackedIds(old(synthesizingMessageIds), messageId, answer, synthesized)
        && transactionCompleted == old(transactionCompleted))
      ensures comm.usesTicketManager ==> |comm.ticketMessages| >= |old(comm.ticketMessages)|
      ensures hasSpeechService == old(hasSpeechService) && hasOpenAIService == old(hasOpenAIService)
      ensures systemPrompt == old(systemPrompt) && isProcessingResponse == old(isProcessingResponse)
      ensures currentRecognizingMessageId == old(currentRecognizingMessageId) && lastRecognizingText == old(lastRecognizingText)
      ensures comm.connectionState == old(comm.connectionState) && comm.recording == old(comm.recording)
      ensures comm.Callbacks() == old(comm.Callbacks())
    {
      if !(hasSpeechService && hasOpenAIService) {
        return Err(NotInitialized);
      }
      if IsSystemMessage(text) {
        return Ok(Ignored);
      }
      var injected := Injected(ticket);
      var closing := Closing(ticket);
      var wasCompleted := transactionCompleted;
      conversationHistory := conversationHistory + [ChatMessage(UserChat, text)];
      comm.NotifyTicketSystem(Message(messageId, UserRole, WithoutTopic(text)));
      if closing {
        if !transactionCompleted {
          transactionCompleted := true;
        }
        return Ok(Closed(!wasCompleted));
      }
      conversationHistory := conversationHistory + injected;
      var sent := LimitedHistory(conversationHistory);
      var answer, attempts := AnswerWithRetries(first, retries);
      conversationHistory := conversationHistory + [ChatMessage(AssistantChat, answer)];
      comm.NotifyTicketSystem(Message(messageId, AssistantRole, answer));
      synthesizingMessageIds := TrackedIds(synthesizingMessageIds, messageId, answer, synthesized);
      r := Ok(Answered(sent, answer, attempts));
    }

    /**
     * `sendText`: the input goes on with the topic note appended, so the turn
     * is `processUserInput` on the noted text; the ticket system receives the
     * text as typed when it does not already hold the note.
     */
    method SendText(text: string, ticket: Option<TicketTurn>, first: string, retries: seq<string>,
                    messageId: string, synthesized: bool) returns (r: Result<Turn, string>)
      requires |retries| >= MaxRetries
      modifies this, comm
      ensures !old(Initialized()) ==> r == Err(NotInitialized) && unchanged(this) && unchanged(comm)
      ensures old(Initialized()) && IsSystemMessage(text) ==> r == Ok(Ignored) && unchanged(this) && unchanged(comm)
      ensures old(Initialized()) && !IsSystemMessage(text) && old(Closing(ticket)) ==> (
        r == Ok(Closed(!old(transactionCompleted))) && transactionCompleted
        && conversationHistory == old(conversationHistory) + [ChatMessage(UserChat, text + TicketTopic)]
        && comm.ticketMessages == old(comm.ticketMessages) + [TicketMessage("user", WithoutTopic(text + TicketTopic))]
        && synthesizingMessageIds == old(synthesizingMessageIds))
      ensures old(Initialized()) && !IsSystemMessage(text) && !old(Closing(ticket)) ==> (
        var before := old(conversationHistory) + [ChatMessage(UserChat, text + TicketTopic)] + old(Injected(ticket));
        var (answer, attempts) := SettledAnswer(first, retries);
        r == Ok(Answered(LimitedHistory(before), answer, attempts))
        && conversationHistory == before + [ChatMessage(AssistantChat, answer)]
        && comm.ticketMessages == old(comm.ticketMessages)
             + (if comm.usesTicketManager
                then [TicketMessage("user", WithoutTopic(text + TicketTopic)), TicketMessage("ai", answer)] else [])
        && synthesizingMessageIds == TrackedIds(old(synthesizingMessageIds), messageId, answer, synthesized)
        && transactionCompleted == old(transactionCompleted))
      ensures old(Initialized()) && !IsSystemMessage(text) ==> (
        comm.usesTicketManager && !Contains(text, TicketTopic) ==>
          comm.ticketMessages[|old(comm.ticketMessages)|] == TicketMessage("user", text))
      ensures hasSpeechService == old(hasSpeechService) && hasOpenAIService == old(hasOpenAIService)
      ensures systemPrompt == old(systemPrompt) && isProcessingResponse == old(isProcessingResponse)
      ensures currentRecognizingMessageId == old(currentRecognizingMessageId) && lastRecognizingText == old(lastRecognizingText)
      ensures comm.connectionState == old(comm.connectionState) && comm.recording == old(comm.recording)
      ensures comm.Callbacks() == old(comm.Callbacks())
    {
      SystemMessageWithTopic(text);
      if !(hasSpeechService && hasOpenAIService) {
        return Err(NotInitialized);
      }
      if !IsSystemMessage(text) && !Contains(text, TicketTopic) {
        TopicOpensOnce();
        RemoveAppendedMarker(text, TicketTopic);
      }
      r := ProcessUserInput(text + TicketTopic, ticket, first, retries, messageId, synthesized);
    }

    /**
     * `disconnect`: both clients dropped, the history and the remembered ids
     * emptied, the recognition and processing state reset and the state
     * disconnected. The closed-transaction flag is kept.
     */
    method Disconnect()
      modifies this, comm
      ensures !hasSpeechService && !hasOpenAIService && conversationHistory == [] && synthesizingMessageIds == []
      ensures currentRecognizingMessageId == None && lastRecognizingText == "" && !isProcessingResponse
      ensures comm.connectionState == Disconnected && !comm.IsConnected()
      ensures transactionCompleted == old(transactionCompleted) && systemPrompt == old(systemPrompt)
      ensures comm.recording == old(comm.recording) && comm.ticketMessages == old(comm.ticketMessages)
      ensures comm.Callbacks() == old(comm.Callbacks())
    {
      hasSpeechService := false;
      hasOpenAIService := false;
      conversationHistory := [];
      synthesizingMessageIds := [];
      currentRecognizingMessageId := None;
      lastRecognizingText := "";
      isProcessingResponse := false;
      var _ := comm.NotifyStateChange(Disconnected);
    }
  }

  /**
   * An OpenAI start-up that throws leaves the error state reported but both
   * clients assigned, so recording starts and a typed input is answered.
   */
  method FailedStartKeepsClients(s: AzureService, prompt: string, text: string) returns (rec: Result<bool, string>, turn: Result<Turn, string>)
    requires !s.comm.recording && !IsSystemMessage(text) && !s.comm.usesTicketManager
    modifies s, s.comm
    ensures s.comm.connectionState == ConnectionError
    ensures rec == Ok(true) && s.comm.recording
    ensures turn.Ok? && turn.value.Answered? && turn.value.answer == "はい"
  {
    var ok := s.Initialize(prompt, Some(OpenAIStep));
    rec := s.StartRecording();
    turn := s.ProcessUserInput(text, None, "はい", ["", "", ""], "m1", true);
  }
}
