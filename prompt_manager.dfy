/**
 * The older prompt helpers: the extraction prompt chosen by ticket phase,
 * and the formatting of the conversation history with the message under
 * evaluation set apart at the end.
 */
module PromptManager {
  import opened Wrappers
  import opened JsText
  import opened TicketTypes

  /** What the extraction prompt is generated from; the current hearing state is not read. */
  datatype ExtractionRequest = ExtractionRequest(conversationHistory: string, lastUserMessage: string, currentPhase: Phase)

  const BaseOpening := "以下の会話履歴から、確定した情報を抽出してください。\n"
    + "最終的に確定した情報のみを返してください。\n"
    + "あいまいな情報や未確定の情報は含めないでください。\n"
    + "\n"
    + "会話履歴:\n"

  const BaseClosing := "\n"
    + "\n"
    + "以下のJSON形式で返してください："

  /** The JSON layout and notes asked for in the basic-information phase. */
  const BasicInfoFormat := "\n"
    + "{\n"
    + "  \"destination\": \"行先駅名（確定していない場合はnull）\",\n"
    + "  \"travelDate\": \"利用日（YYYY-MM-DD形式、確定していない場合はnull）\",\n"
    + "  \"adultCount\": 大人の人数（数値、確定していない場合はnull）,\n"
    + "  \"childCount\": 子供の人数（数値、確定していない場合はnull）\n"
    + "}\n"
    + "\n"
    + "注意事項:\n"
    + "- 駅名は正式名称で記載（例：「東京」「新宿」「横浜」）\n"
    + "- 日付は必ずYYYY-MM-DD形式に変換（例：「明日」→ 実際の日付）\n"
    + "- 人数は数値型で返す（例：1, 2, 3）\n"
    + "- 子供の人数が明示されていない場合は0として扱う"

  /** The placeholder layout of a phase whose items are not written yet. */
  function PendingFormat(p: Phase): string {
    "\n{\n  // Phase" + PhaseId(p) + "の抽出項目（未実装）\n}"
  }

  /** The instructions that embed the conversation history. */
  function BasePrompt(history: string): string {
    BaseOpening + history + BaseClosing
  }

  /** The phases that have an extraction prompt. */
  predicate HasPrompt(p: Phase) {
    p == BasicInfo || p == RouteSearch || p == SeatSelection || p == Payment || p == Confirmation
  }

  /**
   * `generateExtractionPrompt`: the base text followed by the phase's layout,
   * or the "Unknown phase" error for every other phase.
   */
  function GenerateExtractionPrompt(request: ExtractionRequest): (r: Result<string, string>)
    ensures r.Ok? <==> HasPrompt(request.currentPhase)
    ensures r.Ok? ==> StartsWith(r.value, BasePrompt(request.conversationHistory))
    ensures r.Ok? && request.currentPhase == BasicInfo ==> EndsWith(r.value, BasicInfoFormat)
    ensures r.Ok? && request.currentPhase != BasicInfo ==> EndsWith(r.value, PendingFormat(request.currentPhase))
    ensures r.Err? ==> r.error == "Unknown phase: " + PhaseId(request.currentPhase)
  {
    var base := BasePrompt(request.conversationHistory);
    match request.currentPhase
    case BasicInfo => ConcatEdges(base, BasicInfoFormat); Ok(base + BasicInfoFormat)
    case RouteSearch | SeatSelection | Payment | Confirmation =>
      var tail := PendingFormat(request.currentPhase);
      ConcatEdges(base, tail);
      Ok(base + tail)
    case _ => Err("Unknown phase: " + PhaseId(request.currentPhase))
  }

  /** The generated prompt quotes the whole history. */
  lemma {:induction false} PromptEmbedsHistory(request: ExtractionRequest)
    requires HasPrompt(request.currentPhase)
    ensures Contains(GenerateExtractionPrompt(request).value, request.conversationHistory)
  {
    var h := request.conversationHistory;
    ContainsSelf(h);
    ContainsInside(BaseOpening, h, BaseClosing, h);
    PrefixContains(GenerateExtractionPrompt(request).value, BasePrompt(h), h);
  }

  /** One entry of the conversation history; its timestamp is not read. */
  datatype HistoryEntry = HistoryEntry(role: string, content: string)

  /** `ユーザー: content` for the user's entries and `アシスタント: content` for all others. */
  function EntryLabel(e: HistoryEntry): string {
    (if e.role == "user" then "ユーザー" else "アシスタント") + ": " + e.content
  }

  function EntryLabels(history: seq<HistoryEntry>): (r: seq<string>)
    ensures |r| == |history| && forall i :: 0 <= i < |history| ==> r[i] == EntryLabel(history[i])
  {
    if history == [] then []
    else
      assert forall i :: 0 <= i < |history| - 1 ==> history[..|history| - 1][i] == history[i];
      EntryLabels(history[..|history| - 1]) + [EntryLabel(history[|history| - 1])]
  }

  /** The heading put above the message under evaluation. */
  const EvaluationMarker := "今回評価する対象のユーザーの発言："

  /**
   * All labelled entries but the last, one per line, a line break, then the
   * heading and the last entry.
   */
  function FormattedHistory(history: seq<HistoryEntry>): string {
    if history == [] then ""
    else
      var labels := EntryLabels(history);
      Join(labels[..|labels| - 1], "\n") + "\n" + "\n\n" + EvaluationMarker + "\n" + labels[|labels| - 1]
  }

  /** `formatConversationHistory`. */
  method FormatConversationHistory(history: seq<HistoryEntry>) returns (r: string)
    ensures r == FormattedHistory(history)
  {
    if |history| == 0 {
      return "";
    }
    var messages: seq<string> := [];
    for i := 0 to |history|
      invariant |messages| == i && forall k :: 0 <= k < i ==> messages[k] == EntryLabel(history[k])
    {
      var role := if history[i].role == "user" then "ユーザー" else "アシスタント";
      messages := messages + [role + ": " + history[i].content];
    }
    assert messages == EntryLabels(history);
    var lastUserMessage := messages[|messages| - 1];
    var messagesText := Join(messages[..|messages| - 1], "\n");
    var lastUserMessageText := "\n\n" + EvaluationMarker + "\n" + lastUserMessage;
    r := messagesText + "\n" + lastUserMessageText;
  }

  lemma {:induction false} LabelOneLine(e: HistoryEntry)
    requires '\n' !in e.content
    ensures '\n' !in EntryLabel(e)
  {
    assert '\n' !in "ユーザー" && '\n' !in "アシスタント" && '\n' !in ": ";
  }

  /** The four closing lines joined: two empty lines, the heading and the last entry. */
  lemma {:induction false} ClosingJoin(marker: string, last: string)
    ensures Join(["", "", marker, last], "\n") == "\n\n" + marker + "\n" + last
  {
    var closing := ["", "", marker, last];
    assert closing[1..] == ["", marker, last] && closing[1..][1..] == [marker, last];
    assert [marker, last][1..] == [last];
    assert Join([marker, last], "\n") == marker + "\n" + last;
    assert Join(closing, "\n") == "" + "\n" + ("" + "\n" + (marker + "\n" + last));
  }

  /** The layout of the formatted history, over any lines without breaks. */
  lemma {:induction false} ClosingLines(earlier: seq<string>, marker: string, last: string)
    requires earlier != []
    requires forall k :: 0 <= k < |earlier| ==> '\n' !in earlier[k]
    requires '\n' !in marker && '\n' !in last
    ensures Split(Join(earlier, "\n") + "\n" + "\n\n" + marker + "\n" + last, '\n') == earlier + ["", "", marker, last]
  {
    var closing := ["", "", marker, last];
    ClosingJoin(marker, last);
    JoinLinesSplitAppend(earlier, closing);
    assert Join(earlier, "\n") + "\n" + "\n\n" + marker + "\n" + last == Join(earlier, "\n") + "\n" + Join(closing, "\n");
  }

  lemma {:induction false} MarkerOneLine()
    ensures '\n' !in EvaluationMarker
  { }

  /** The lines above the heading hold no line break, nor does the last label. */
  lemma {:induction false} EarlierOneLine(history: seq<HistoryEntry>)
    requires history != []
    requires forall i :: 0 <= i < |history| ==> '\n' !in history[i].content
    ensures var labels := EntryLabels(history);
      var earlier := if |history| == 1 then [""] else labels[..|labels| - 1];
      (forall k :: 0 <= k < |earlier| ==> '\n' !in earlier[k])
      && Join(earlier, "\n") == Join(labels[..|labels| - 1], "\n") && '\n' !in labels[|labels| - 1]
  {
    var labels := EntryLabels(history);
    var earlier := if |history| == 1 then [""] else labels[..|labels| - 1];
    forall k | 0 <= k < |labels| ensures '\n' !in labels[k] {
      LabelOneLine(history[k]);
    }
    assert Join(earlier, "\n") == Join(labels[..|labels| - 1], "\n");
    forall k | 0 <= k < |earlier| ensures '\n' !in earlier[k] {
      if |history| > 1 {
        assert earlier[k] == labels[k];
      }
    }
  }

  /**
   * When no message holds a line break, the formatted history reads back
   * line by line as the earlier entries, two empty lines, the heading and
   * the last entry; a history of one entry starts with three empty lines.
   */
  lemma {:induction false} FormattedHistoryLines(history: seq<HistoryEntry>)
    requires history != []
    requires forall i :: 0 <= i < |history| ==> '\n' !in history[i].content
    ensures var labels := EntryLabels(history);
      var earlier := if |history| == 1 then [""] else labels[..|labels| - 1];
      Split(FormattedHistory(history), '\n') == earlier + ["", "", EvaluationMarker, labels[|labels| - 1]]
  {
    var labels := EntryLabels(history);
    var earlier := if |history| == 1 then [""] else labels[..|labels| - 1];
    EarlierOneLine(history);
    MarkerOneLine();
    ClosingLines(earlier, EvaluationMarker, labels[|labels| - 1]);
  }

  /** The formatted history is empty exactly when there is no history. */
  lemma {:induction false} FormattedHistoryEmpty(history: seq<HistoryEntry>)
    ensures FormattedHistory(history) == [] <==> history == []
  {
    if history != [] {
      var labels := EntryLabels(history);
      assert |FormattedHistory(history)| >= |"\n"|;
    }
  }
}
