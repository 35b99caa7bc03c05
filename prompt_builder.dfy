/**
 * The extraction prompt sent to the language model: the conversation so
 * far, the station clerk's last utterance, the customer's utterance under
 * evaluation, one line per item to extract with a hint on its JSON type, and
 * the current time when a date or time item is asked for. The clock is a
 * parameter.
 */
module PromptBuilder {
  import opened Wrappers
  import opened JsText
  import opened HearingItems

  /** The speaker tag of the clerk's utterances in the history. */
  const ClerkTag := "駅員: "

  /**
   * Everything from the last clerk tag on (not only up to the next line
   * break), or the empty string when the history has none.
   */
  function LastAssistantMessage(history: string): string {
    match LastIndexOf(history, ClerkTag)
    case None => ""
    case Some(i) => history[i..]
  }

  /** What it cuts out is the history's suffix from the last clerk tag on. */
  lemma {:induction false} LastAssistantMessageShape(history: string)
    ensures LastAssistantMessage(history) == [] <==> !Contains(history, ClerkTag)
    ensures var r := LastAssistantMessage(history);
      r != [] ==> (StartsWith(r, ClerkTag) && EndsWith(history, r)
        && forall j :: 0 < j <= |r| ==> !IsAt(r, ClerkTag, j))
  {
    var r := LastAssistantMessage(history);
    match LastIndexOf(history, ClerkTag)
    case None =>
    case Some(i) =>
      assert r[..|ClerkTag|] == history[i..i + |ClerkTag|];
      forall j | 0 < j <= |r| ensures !IsAt(r, ClerkTag, j) {
        if IsAt(r, ClerkTag, j) {
          assert r[j..j + |ClerkTag|] == history[i + j..i + j + |ClerkTag|];
          assert IsAt(history, ClerkTag, i + j);
        }
      }
  }

  // The fixed text of the prompt, between the parts that vary.
  const Opening := "次の会話は、発券業務を行うJRの駅員と、発券を希望している顧客の会話である。\n"
    + "「★評価対象の利用客の発言★」に基づき、確定した情報のみを抽出せよ。\n"
    + "あくまで抽出するのは、「★評価対象の利用客の発言★」の内容に基づくものであり、それ以外の会話部分は、文脈理解にのみ利用すること。\n"
    + "\n"
    + "# 過去の会話内容（文脈理解にのみ利用）：\n"

  const AssistantHeading := "\n"
    + "\n"
    + "# ★評価対象のとなる利用客の返答に対する、駅員の発言\n"

  const CustomerHeading := "\n"
    + "\n"
    + "# ★評価対象の利用客の発言★：\n"

  const ItemsHeading := "\n"
    + "\n"
    + "# 抽出すべき項目：\n"

  const ReferenceHeading := "\n"
    + "\n"
    + "\n"
    + "# 参考情報 - \n"

  const Rules := "\n"
    + "\n"
    + "# 抽出ルール（重要）\n"
    + "- 直前のアシスタント発話が「〜でよろしいでしょうか？」「〜で問題ないでしょうか？」等の確認で、最新のユーザー発話が肯定（例：「はい」「OK」「お願いします」「ええ」など）の場合、該当項目を確定として抽出する\n"
    + "  - 例：直前に「ご利用日は『今日』でよろしいでしょうか？」→最新ユーザーが「はい」→ travelDate に『今日』を設定（本日を意味する文字列で可）\n"
    + "  - 例：直前に「座席未指定でよろしいでしょうか？」→最新ユーザーが「OK」→ confirmUnspecifiedSeat=true を設定\n"
    + "- 会話に言及のない項目は出力しない（空値のための出力は禁止）\n"
    + "- ユーザーが取り消し/否定を示した場合は null または適切なfalseを出力\n"
    + "-「もっと、遅いので」、は「遅い経路にしてください」。「もっと、早いので」「早い経路にしてください」を要求していることに注意。（早いので、もっと遅くしてれという意味ではない）\n"
    + "- フィラーのようなユーザーの発言の場合は、何も出力しないこと。（ええと、あのなど、意味をなさないもの）\n"
    + "\n"
    + "# 注意\n"
    + "- 「よろしいですか？」に対して「いいです」は、「OKです」。\n"
    + "- 会話の履歴全体をもとに、会話を理解。\n"
    + "- 項目の抽出は、最後のユーザーの発言からのみ行うこと。（途中のユーザーとAIの発言は、会話の文脈理解の身に利用し、変更点の検出は最後のユーザーの発言に基づくこと）\n"
    + "\n"
    + "# 出力\n"
    + "canExtractFromLastUserMessageは必ず出力。\n"
    + "それ以外の項目は、変更があった項目のみをJSONで厳密に出力（余計な文字やコメントは不可）"

  /** The ending of every hint that lets the model answer `null`. */
  const OrNull := "またはnull）"

  const StringNotNull := "（文字列。null非許容）"
  const BooleanNotNull := "（true/false。null非許容）"
  const TicketConfirmedHint := "（true/false）※発券内容の最終確認項目。"
    + "内容に合意していないまたは、変更を要求している場合はfalse。"

  /** The hint that tells the model the JSON type of an item, by its key and value type. */
  function TypeHint(key: string, vt: ValueType): string {
    match vt
    case StringValue =>
      if key == "jobanExpressSeatInfo" || key == "zairaiExpressSeatInfo" then StringNotNull
      else "（文字列" + OrNull
    case NumberValue => "（数値" + OrNull
    case BooleanValue =>
      if key == "canExtractFromLastUserMessage" then BooleanNotNull
      else if key == "ticketConfirmed" then TicketConfirmedHint
      else "（true/false" + OrNull
    case DateValue => "（YYYY-MM-DD" + OrNull
  }

  /** The keys whose items the model must never answer with `null`. */
  predicate NeverNull(key: string, vt: ValueType) {
    (vt == StringValue && (key == "jobanExpressSeatInfo" || key == "zairaiExpressSeatInfo"))
    || (vt == BooleanValue && (key == "canExtractFromLastUserMessage" || key == "ticketConfirmed"))
  }

  lemma {:induction false} HintsWithoutNull()
    ensures !EndsWith(StringNotNull, OrNull) && !EndsWith(BooleanNotNull, OrNull)
    ensures !EndsWith(TicketConfirmedHint, OrNull)
  {
    assert StringNotNull[|StringNotNull| - 2] != OrNull[|OrNull| - 2];
    assert BooleanNotNull[|BooleanNotNull| - 2] != OrNull[|OrNull| - 2];
    assert TicketConfirmedHint[|TicketConfirmedHint| - 1] != OrNull[|OrNull| - 1];
  }

  lemma {:induction false} TicketConfirmedHintOneLine()
    ensures '\n' !in TicketConfirmedHint
  {
    var a := "（true/false）※発券内容の最終確認項目。";
    var b := "内容に合意していないまたは、変更を要求している場合はfalse。";
    assert '\n' !in a;
    assert '\n' !in b;
    assert TicketConfirmedHint == a + b;
  }

  /** A hint offers `null` exactly when the item is not one of the never-null ones; no hint breaks the line. */
  lemma {:induction false} TypeHintOffersNull(key: string, vt: ValueType)
    ensures EndsWith(TypeHint(key, vt), OrNull) <==> !NeverNull(key, vt)
    ensures '\n' !in TypeHint(key, vt)
  {
    match vt
    case StringValue => StringHint(key);
    case NumberValue => OrNullHint("（数値");
    case BooleanValue => BooleanHint(key);
    case DateValue => OrNullHint("（YYYY-MM-DD");
  }

  lemma {:induction false} StringHint(key: string)
    ensures EndsWith(TypeHint(key, StringValue), OrNull) <==> !NeverNull(key, StringValue)
    ensures '\n' !in TypeHint(key, StringValue)
  {
    if !NeverNull(key, StringValue) {
      OrNullHint("（文字列");
    } else {
      HintsWithoutNull();
      assert '\n' !in StringNotNull;
    }
  }

  lemma {:induction false} BooleanHint(key: string)
    ensures EndsWith(TypeHint(key, BooleanValue), OrNull) <==> !NeverNull(key, BooleanValue)
    ensures '\n' !in TypeHint(key, BooleanValue)
  {
    if key == "ticketConfirmed" {
      HintsWithoutNull();
      TicketConfirmedHintOneLine();
    } else if !NeverNull(key, BooleanValue) {
      OrNullHint("（true/false");
    } else {
      HintsWithoutNull();
      assert '\n' !in BooleanNotNull;
    }
  }

  /** A hint made of a one-line opening and the `null` ending ends with it and stays on one line. */
  lemma {:induction false} OrNullHint(pre: string)
    requires '\n' !in pre
    ensures EndsWith(pre + OrNull, OrNull) && '\n' !in pre + OrNull
  {
    var h := pre + OrNull;
    assert h[|h| - |OrNull|..] == OrNull;
    assert '\n' !in OrNull;
  }

  /** `・key：description` followed by the type hint. */
  function ItemLine(it: HearingItemDefinition): string {
    var key := LookupKey(it);
    "・" + key + "：" + it.field.description + TypeHint(key, it.field.valueType)
  }

  function ItemLines(items: seq<HearingItemDefinition>): (r: seq<string>)
    ensures |r| == |items| && forall i :: 0 <= i < |items| ==> r[i] == ItemLine(items[i])
  {
    if items == [] then []
    else
      var rest := ItemLines(items[..|items| - 1]);
      assert forall i :: 0 <= i < |items| - 1 ==> items[..|items| - 1][i] == items[i];
      rest + [ItemLine(items[|items| - 1])]
  }

  /** The item lines joined by line breaks. */
  function ItemsText(items: seq<HearingItemDefinition>): string {
    Join(ItemLines(items), "\n")
  }

  /** An item line stays on one line when its key and description do. */
  lemma {:induction false} ItemLineOneLine(it: HearingItemDefinition)
    requires '\n' !in LookupKey(it) && '\n' !in it.field.description
    ensures '\n' !in ItemLine(it)
  {
    var key := LookupKey(it);
    var h := TypeHint(key, it.field.valueType);
    TypeHintOffersNull(key, it.field.valueType);
    assert ItemLine(it) == "・" + key + "：" + it.field.description + h;
    assert '\n' !in "・" && '\n' !in "：";
  }

  /**
   * When no key or description holds a line break, the items text reads back
   * line by line as exactly one line per item, in order.
   */
  lemma {:induction false} ItemsTextLines(items: seq<HearingItemDefinition>)
    requires items != []
    requires forall i :: 0 <= i < |items| ==>
      '\n' !in LookupKey(items[i]) && '\n' !in items[i].field.description
    ensures Split(ItemsText(items), '\n') == ItemLines(items)
  {
    ItemLinesOneLine(items);
    JoinLinesSplit(ItemLines(items));
  }

  lemma {:induction false} ItemLinesOneLine(items: seq<HearingItemDefinition>)
    requires forall i :: 0 <= i < |items| ==>
      '\n' !in LookupKey(items[i]) && '\n' !in items[i].field.description
    ensures forall k :: 0 <= k < |items| ==> '\n' !in ItemLines(items)[k]
  {
    forall k | 0 <= k < |items| ensures '\n' !in ItemLines(items)[k] {
      ItemLineOneLine(items[k]);
    }
  }

  /** The state keys whose items need today's date and time. */
  const DateKeys := ["phase2_timeSpecification", "phase2_timeSpecificationType", "phase2_specificTime", "travelDate"]

  /** `items.some(item => DateKeys.includes(item.field.stateKey))`. */
  function AnyDateKey(items: seq<HearingItemDefinition>): (b: bool)
    ensures b <==> exists i :: 0 <= i < |items| && items[i].field.stateKey in DateKeys
  {
    if items == [] then false
    else
      assert forall i :: 0 < i < |items| ==> items[1..][i - 1] == items[i];
      items[0].field.stateKey in DateKeys || AnyDateKey(items[1..])
  }

  const ClockPrefix := "- 現在日時："

  /** The reference line with the clock's reading, present only when some date item is asked for. */
  function DateTimeLine(items: seq<HearingItemDefinition>, nowString: string): string {
    if AnyDateKey(items) then ClockPrefix + nowString else ""
  }

  /** The fixed text of a prompt around the five parts that vary. */
  datatype Template = Template(opening: string, assistantHeading: string, customerHeading: string,
                               itemsHeading: string, referenceHeading: string, rules: string)

  const ExtractionTemplate := Template(Opening, AssistantHeading, CustomerHeading, ItemsHeading, ReferenceHeading, Rules)

  /** The template with its gaps filled, in order. */
  function Fill(t: Template, history: string, assistant: string, user: string, itemsText: string, clockLine: string): string {
    t.opening + history + t.assistantHeading + assistant + t.customerHeading + user
    + t.itemsHeading + itemsText + t.referenceHeading + clockLine + t.rules
  }

  /** `buildExtractionPrompt`, with the current time as read from the clock passed in. */
  function BuildExtractionPrompt(history: string, lastUserMessage: string, items: seq<HearingItemDefinition>,
                                 nowString: string): string {
    Fill(ExtractionTemplate, history, LastAssistantMessage(history), lastUserMessage, ItemsText(items),
         DateTimeLine(items, nowString))
  }

  /** A filled template opens with its opening and the history, and ends with the reference section and the rules. */
  lemma {:induction false} FillEdges(t: Template, history: string, assistant: string, user: string, itemsText: string, clockLine: string)
    ensures StartsWith(Fill(t, history, assistant, user, itemsText, clockLine), t.opening + history)
    ensures EndsWith(Fill(t, history, assistant, user, itemsText, clockLine), t.referenceHeading + clockLine + t.rules)
  {
    var p := Fill(t, history, assistant, user, itemsText, clockLine);
    var mid := t.assistantHeading + assistant + t.customerHeading + user + t.itemsHeading + itemsText;
    var back := t.referenceHeading + clockLine + t.rules;
    assert p == (t.opening + history) + mid + back;
    assert p[..|t.opening + history|] == t.opening + history;
    assert p[|p| - |back|..] == back;
  }

  /** A filled template holds the assistant's and the user's text and every line of the items text. */
  lemma {:induction false} FillQuotes(t: Template, history: string, assistant: string, user: string, itemsText: string, clockLine: string)
    ensures Contains(Fill(t, history, assistant, user, itemsText, clockLine), user)
    ensures Contains(Fill(t, history, assistant, user, itemsText, clockLine), assistant)
    ensures forall l :: Contains(itemsText, l) ==> Contains(Fill(t, history, assistant, user, itemsText, clockLine), l)
  {
    FillQuotesUser(t, history, assistant, user, itemsText, clockLine);
    FillQuotesAssistant(t, history, assistant, user, itemsText, clockLine);
    forall l | Contains(itemsText, l) ensures Contains(Fill(t, history, assistant, user, itemsText, clockLine), l) {
      FillQuotesItems(t, history, assistant, user, itemsText, clockLine, l);
    }
  }

  lemma {:induction false} FillQuotesUser(t: Template, history: string, assistant: string, user: string, itemsText: string, clockLine: string)
    ensures Contains(Fill(t, history, assistant, user, itemsText, clockLine), user)
  {
    var tail := t.referenceHeading + clockLine + t.rules;
    ContainsSelf(user);
    ContainsInside(t.opening + history + t.assistantHeading + assistant + t.customerHeading, user,
                   t.itemsHeading + itemsText + tail, user);
    assert Fill(t, history, assistant, user, itemsText, clockLine)
      == (t.opening + history + t.assistantHeading + assistant + t.customerHeading) + user + (t.itemsHeading + itemsText + tail);
  }

  lemma {:induction false} FillQuotesAssistant(t: Template, history: string, assistant: string, user: string, itemsText: string, clockLine: string)
    ensures Contains(Fill(t, history, assistant, user, itemsText, clockLine), assistant)
  {
    var tail := t.referenceHeading + clockLine + t.rules;
    ContainsSelf(assistant);
    ContainsInside(t.opening + history + t.assistantHeading, assistant,
                   t.customerHeading + user + t.itemsHeading + itemsText + tail, assistant);
    assert Fill(t, history, assistant, user, itemsText, clockLine)
      == (t.opening + history + t.assistantHeading) + assistant + (t.customerHeading + user + t.itemsHeading + itemsText + tail);
  }

  lemma {:induction false} FillQuotesItems(t: Template, history: string, assistant: string, user: string, itemsText: string,
    clockLine: string, l: string)
    requires Contains(itemsText, l)
    ensures Contains(Fill(t, history, assistant, user, itemsText, clockLine), l)
  {
    var front := t.opening + history + t.assistantHeading + assistant + t.customerHeading + user + t.itemsHeading;
    var tail := t.referenceHeading + clockLine + t.rules;
    ContainsInside(front, itemsText, tail, l);
    assert Fill(t, history, assistant, user, itemsText, clockLine) == front + itemsText + tail;
  }

  /** The prompt opens with the instructions and the whole history, and closes with the rules. */
  lemma {:induction false} PromptFrame(history: string, lastUserMessage: string, items: seq<HearingItemDefinition>, nowString: string)
    ensures StartsWith(BuildExtractionPrompt(history, lastUserMessage, items, nowString), Opening + history)
    ensures EndsWith(BuildExtractionPrompt(history, lastUserMessage, items, nowString), Rules)
  {
    var t := ExtractionTemplate;
    var p := BuildExtractionPrompt(history, lastUserMessage, items, nowString);
    var back := t.referenceHeading + DateTimeLine(items, nowString) + t.rules;
    FillEdges(t, history, LastAssistantMessage(history), lastUserMessage, ItemsText(items), DateTimeLine(items, nowString));
    assert p[|p| - |t.rules|..] == back[|back| - |t.rules|..];
  }

  /**
   * The customer's utterance, the clerk's last utterance and the line of
   * every item all appear in the prompt.
   */
  lemma {:induction false} PromptQuotes(history: string, lastUserMessage: string, items: seq<HearingItemDefinition>, nowString: string)
    ensures Contains(BuildExtractionPrompt(history, lastUserMessage, items, nowString), lastUserMessage)
    ensures Contains(BuildExtractionPrompt(history, lastUserMessage, items, nowString), LastAssistantMessage(history))
    ensures forall k :: 0 <= k < |items| ==>
      Contains(BuildExtractionPrompt(history, lastUserMessage, items, nowString), ItemLine(items[k]))
  {
    FillQuotes(ExtractionTemplate, history, LastAssistantMessage(history), lastUserMessage, ItemsText(items),
               DateTimeLine(items, nowString));
    forall k | 0 <= k < |items|
      ensures Contains(BuildExtractionPrompt(history, lastUserMessage, items, nowString), ItemLine(items[k]))
    {
      JoinContains(ItemLines(items), "\n", k);
    }
  }

  /**
   * The reference section carries the clock's reading exactly when a date
   * or time item is asked for, and is empty otherwise.
   */
  lemma {:induction false} PromptClock(history: string, lastUserMessage: string, items: seq<HearingItemDefinition>, nowString: string)
    ensures AnyDateKey(items) ==>
      EndsWith(BuildExtractionPrompt(history, lastUserMessage, items, nowString), ReferenceHeading + ClockPrefix + nowString + Rules)
    ensures !AnyDateKey(items) ==>
      EndsWith(BuildExtractionPrompt(history, lastUserMessage, items, nowString), ReferenceHeading + Rules)
  {
    var clockLine := DateTimeLine(items, nowString);
    FillEdges(ExtractionTemplate, history, LastAssistantMessage(history), lastUserMessage, ItemsText(items), clockLine);
    ClockSection(ReferenceHeading, clockLine, Rules, ClockPrefix, nowString);
  }

  lemma {:induction false} ClockSection(heading: string, clockLine: string, rules: string, prefix: string, now: string)
    ensures clockLine == prefix + now ==> heading + clockLine + rules == heading + prefix + now + rules
    ensures clockLine == "" ==> heading + clockLine + rules == heading + rules
  { }

  /** The hearing table asks for the travel date, so a prompt over it carries the clock line. */
  lemma {:induction false} HearingTableAsksDate()
    ensures AnyDateKey(HearingItems.HearingItems)
  {
    var i := KeyInTable(TravelDate);
    TableItems();
    DateKeyAt(HearingItems.HearingItems, i);
  }

  /** An item with a date key makes the list ask for a date. */
  lemma {:induction false} DateKeyAt(items: seq<HearingItemDefinition>, i: nat)
    requires i < |items| && items[i].field.stateKey == "travelDate"
    ensures AnyDateKey(items)
  {
    assert items[i].field.stateKey == DateKeys[3];
  }
}
