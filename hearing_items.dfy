/**
 * The table of hearing items: the ticket-information fields the extraction
 * asks the language model for, each with its key, label, description and
 * value type, the lookup by state key, and the grouped `Hearing` structure
 * built from that lookup.
 */
module HearingItems {
  import opened Wrappers

  datatype ValueType = StringValue | NumberValue | BooleanValue | DateValue

  /** `llmKey` absent means the state key is used; only numbers carry a default here. */
  datatype HearingField = HearingField(
    stateKey: string,
    llmKey: Option<string>,
    name: string,
    description: string,
    valueType: ValueType,
    defaultValue: Option<int>)

  datatype HearingItemDefinition = HearingItemDefinition(field: HearingField)

  /** The key the language model answers under: `it.field.llmKey ?? String(it.field.stateKey)`. */
  function LookupKey(it: HearingItemDefinition): string {
    if it.field.llmKey.Some? then it.field.llmKey.value else it.field.stateKey
  }

  /** The entries of the table, one constructor each, in table order. */
  datatype HearingKey =
    | CanExtractFromLastUserMessage
    | Destination
    | TravelDate
    | AdultCount
    | ChildCount
    | BasicInfoConfirmed
    | Phase2JobanExpressUse
    | Phase2UseZairaiExpress
    | Phase2TimeSpecification
    | Phase2TimeSpecificationType
    | Phase2SpecificTime
    | Phase2ConfirmUnspecifiedSeat
    | ProposedRouteOK
    | ProposedRouteRequest
    | JobanExpressSeatInfo
    | ZairaiExpressSeatInfo
    | TicketConfirmed
    | Phase2TimeReConfirmed
    | Phase2JobanDropOffStation
    | Phase2TransferTimeIsNormal
    | ZairaiSpecialTransferMinutes
    | ZairaiSpecialProposedRouteOK
    | ZairaiSpecialProposedRouteRequest

  /** The `stateKey` column. */
  function StateKey(k: HearingKey): string {
    match k
    case CanExtractFromLastUserMessage => "canExtractFromLastUserMessage"
    case Destination => "destination"
    case TravelDate => "travelDate"
    case AdultCount => "adultCount"
    case ChildCount => "childCount"
    case BasicInfoConfirmed => "basicInfoConfirmed"
    case Phase2JobanExpressUse => "phase2_jobanExpressUse"
    case Phase2UseZairaiExpress => "phase2_useZairaiExpress"
    case Phase2TimeSpecification => "phase2_timeSpecification"
    case Phase2TimeSpecificationType => "phase2_timeSpecificationType"
    case Phase2SpecificTime => "phase2_specificTime"
    case Phase2ConfirmUnspecifiedSeat => "phase2_confirmUnspecifiedSeat"
    case ProposedRouteOK => "proposedRouteOK"
    case ProposedRouteRequest => "proposedRouteRequest"
    case JobanExpressSeatInfo => "jobanExpressSeatInfo"
    case ZairaiExpressSeatInfo => "zairaiExpressSeatInfo"
    case TicketConfirmed => "ticketConfirmed"
    case Phase2TimeReConfirmed => "phase2_timeReConfirmed"
    case Phase2JobanDropOffStation => "phase2_jobanDropOffStation"
    case Phase2TransferTimeIsNormal => "phase2_transferTimeIsNormal"
    case ZairaiSpecialTransferMinutes => "zairaiSpecial_transferMinutes"
    case ZairaiSpecialProposedRouteOK => "zairaiSpecial_proposedRouteOK"
    case ZairaiSpecialProposedRouteRequest => "zairaiSpecial_proposedRouteRequest"
  }

  /** The `llmKey` column. */
  function LlmKey(k: HearingKey): string {
    match k
    case CanExtractFromLastUserMessage => "canExtractFromLastUserMessage"
    case Destination => "destination"
    case TravelDate => "travelDate"
    case AdultCount => "adultCount"
    case ChildCount => "childCount"
    case BasicInfoConfirmed => "basicInfoConfirmed"
    case Phase2JobanExpressUse => "phase2_jobanExpressUse"
    case Phase2UseZairaiExpress => "phase2_useZairaiExpress"
    case Phase2TimeSpecification => "phase2_timeSpecification"
    case Phase2TimeSpecificationType => "phase2_timeSpecificationType"
    case Phase2SpecificTime => "phase2_specificTime"
    case Phase2ConfirmUnspecifiedSeat => "phase2_confirmUnspecifiedSeat"
    case ProposedRouteOK => "proposedRouteOK"
    case ProposedRouteRequest => "proposedRouteRequest"
    case JobanExpressSeatInfo => "jobanExpressSeatInfo"
    case ZairaiExpressSeatInfo => "zairaiExpressSeatInfo"
    case TicketConfirmed => "ticketConfirmed"
    case Phase2TimeReConfirmed => "phase2_timeReConfirmed"
    case Phase2JobanDropOffStation => "phase2_jobanDropOffStation"
    case Phase2TransferTimeIsNormal => "phase2_transferTimeIsNormal"
    case ZairaiSpecialTransferMinutes => "zairaiSpecial_transferMinutes"
    case ZairaiSpecialProposedRouteOK => "zairaiSpecial_proposedRouteOK"
    case ZairaiSpecialProposedRouteRequest => "zairaiSpecial_proposedRouteRequest"
  }

  /** The `name` column. */
  function Label(k: HearingKey): string {
    match k
    case CanExtractFromLastUserMessage => "抽出可能な情報があるかどうか"
    case Destination => "行先"
    case TravelDate => "利用日"
    case AdultCount => "大人の人数"
    case ChildCount => "子供の人数"
    case BasicInfoConfirmed => "基本情報の確認完了"
    case Phase2JobanExpressUse => "常磐線特急の利用"
    case Phase2UseZairaiExpress => "在来特急を利用するか"
    case Phase2TimeSpecification => "顧客が出発したいと明示的に伝えた時間指定の有無"
    case Phase2TimeSpecificationType => "顧客が出発または、到着したいと明示的に伝えた時間指定の種別"
    case Phase2SpecificTime => "顧客が出発したいと明示的に伝えた具体的な時刻"
    case Phase2ConfirmUnspecifiedSeat => "座席未指定利用の確認"
    case ProposedRouteOK => "提案経路の承認"
    case ProposedRouteRequest => "提案経路への要望"
    case JobanExpressSeatInfo => "常磐線特急の座席情報"
    case ZairaiExpressSeatInfo => "在来特急の座席情報"
    case TicketConfirmed => "発券内容の最終確認"
    case Phase2TimeReConfirmed => "時間指定の再確認"
    case Phase2JobanDropOffStation => "常磐線の降車駅"
    case Phase2TransferTimeIsNormal => "新宿駅での乗り換え時間は通常か"
    case ZairaiSpecialTransferMinutes => "新宿乗換所要時間（分）"
    case ZairaiSpecialProposedRouteOK => "新宿発の目的地まで経路に対する承認"
    case ZairaiSpecialProposedRouteRequest => "新宿発の目的地まで経路に対する要望"
  }

  /** The `description` column. */
  function Description(k: HearingKey): string {
    match k
    case CanExtractFromLastUserMessage => 
      "過去の会話内容から今何を行っているかを判断したうえで、「★評価対象の利用客の発言★」に基づき、抽出可能な情報があるかどうかを判断するフラグ。"
    case Destination => 
      "利用者が向かいたい駅名。利用客が「XX駅」といった場合は、存在するかどうかをあなたの知識で勝手に判断せずに抽出対象とすること。"
    case TravelDate => 
      "切符を利用する日付（YYYY-MM-DD）"
    case AdultCount => 
      "大人の乗車人数"
    case ChildCount => 
      "子供の乗車人数"
    case BasicInfoConfirmed => 
      "基本情報の口頭確認"
    case Phase2JobanExpressUse => 
      "常磐線特急（ひたち・ときわ）を利用するか"
    case Phase2UseZairaiExpress => 
      "在来特急（常磐線以外の特急）を利用するか"
    case Phase2TimeSpecification => 
      "顧客が出発したいと明示的に伝えた時間指定があるか"
    case Phase2TimeSpecificationType => 
      "顧客が出発または到着したいと明示的に伝えた時間指定の種別。出発の場合は\"start\"、到着の場合は\"stop\"。わからないときはこの項目を出力しないこと。"
    case Phase2SpecificTime => 
      "顧客が出発/到着したい時刻を明示した場合に設定する。24時間表記のため、5時は朝5時です。ユーザーの発言をそのまま採用してください。\nたとえアシスタント側が「利用できません」等と回答していても、ユーザーの直近発話に含まれる時刻を優先的に反映する。\n確定の有無に関わらず、最新に言及された時刻を設定する。\n今すぐ、といった場合は、プロンプトに含まれる「現在時刻」を使用してください。\n24時間表記の時刻を使用してください。出力フォーマットは「HH:MM」です。朝5時であれば「05:00」と出力してください。"
    case Phase2ConfirmUnspecifiedSeat => 
      "時間指定なし時の座席未指定受諾"
    case ProposedRouteOK => 
      "常磐線特急及び、在来特急の具体的な経路（時間と乗車駅・降車駅）を提案しており、その提案経路提案利用経路でよいかに対する返答。承認しない場合はfalseを返答してください。null二は原則なりませんので、nullにしたい場合は、この項目を返さないでください。"
    case ProposedRouteRequest => 
      "提案経路に対する、時間的な変更要望（出発と、到着時刻両方に関して正確に出すこと。（明確に出発、到着に対する希望がなければ、憶測せずそのまま話した内容にすること）。「ちょっと」なども正確に出力すること）"
    case JobanExpressSeatInfo => 
      "常磐線特急の座席情報（窓側、横並びなど発言から分かることを単に要約。聞き取れなかった場合は「聞き取れず」を出力）"
    case ZairaiExpressSeatInfo => 
      "在来特急の座席情報（窓側、横並びなど発言から分かることを単に要約。聞き取れなかった場合は「聞き取れず」を出力）"
    case TicketConfirmed => 
      "最終確認の了承（確認しますがが含まれるメッセージに対するユーザーの返答はこれに該当。確認に対して了承されなければ、false。了承ならtrue。そうでなければ返却に含めないこと。）"
    case Phase2TimeReConfirmed => 
      "水戸からの出発時刻を改めて再確認して、OKの場合true、NGの場合false。それ以外の場合はこの項目は出力しないこと。"
    case Phase2JobanDropOffStation => 
      "常磐線の降車駅（上野／東京）"
    case Phase2TransferTimeIsNormal => 
      "新宿駅での乗り換え時間は通常でよいか"
    case ZairaiSpecialTransferMinutes => 
      "新宿駅での乗換に必要な分数（数字のみ）"
    case ZairaiSpecialProposedRouteOK => 
      "新宿発の目的地まで経路に対する承認"
    case ZairaiSpecialProposedRouteRequest => 
      "新宿発の目的地まで経路に対する要望"
  }

  /** The `valueType` column. */
  function ValueTypeOf(k: HearingKey): ValueType {
    match k
    case CanExtractFromLastUserMessage => BooleanValue
    case Destination => StringValue
    case TravelDate => DateValue
    case AdultCount => NumberValue
    case ChildCount => NumberValue
    case BasicInfoConfirmed => BooleanValue
    case Phase2JobanExpressUse => BooleanValue
    case Phase2UseZairaiExpress => BooleanValue
    case Phase2TimeSpecification => BooleanValue
    case Phase2TimeSpecificationType => StringValue
    case Phase2SpecificTime => StringValue
    case Phase2ConfirmUnspecifiedSeat => BooleanValue
    case ProposedRouteOK => BooleanValue
    case ProposedRouteRequest => StringValue
    case JobanExpressSeatInfo => StringValue
    case ZairaiExpressSeatInfo => StringValue
    case TicketConfirmed => BooleanValue
    case Phase2TimeReConfirmed => BooleanValue
    case Phase2JobanDropOffStation => StringValue
    case Phase2TransferTimeIsNormal => BooleanValue
    case ZairaiSpecialTransferMinutes => NumberValue
    case ZairaiSpecialProposedRouteOK => BooleanValue
    case ZairaiSpecialProposedRouteRequest => StringValue
  }

  /** The `defaultValue` column. */
  function DefaultOf(k: HearingKey): Option<int> {
    match k
    case CanExtractFromLastUserMessage => None
    case Destination => None
    case TravelDate => None
    case AdultCount => Some(0)
    case ChildCount => Some(0)
    case BasicInfoConfirmed => None
    case Phase2JobanExpressUse => None
    case Phase2UseZairaiExpress => None
    case Phase2TimeSpecification => None
    case Phase2TimeSpecificationType => None
    case Phase2SpecificTime => None
    case Phase2ConfirmUnspecifiedSeat => None
    case ProposedRouteOK => None
    case ProposedRouteRequest => None
    case JobanExpressSeatInfo => None
    case ZairaiExpressSeatInfo => None
    case TicketConfirmed => None
    case Phase2TimeReConfirmed => None
    case Phase2JobanDropOffStation => None
    case Phase2TransferTimeIsNormal => None
    case ZairaiSpecialTransferMinutes => None
    case ZairaiSpecialProposedRouteOK => None
    case ZairaiSpecialProposedRouteRequest => None
  }

  /** The table entry of each key. */
  function Item(k: HearingKey): HearingItemDefinition {
    HearingItemDefinition(HearingField(StateKey(k), Some(LlmKey(k)), Label(k), Description(k), ValueTypeOf(k), DefaultOf(k)))
  }

  /** The order of the table. */
  const TableOrder: seq<HearingKey> := [
    CanExtractFromLastUserMessage, Destination, TravelDate, AdultCount, ChildCount, BasicInfoConfirmed,
    Phase2JobanExpressUse, Phase2UseZairaiExpress, Phase2TimeSpecification, Phase2TimeSpecificationType,
    Phase2SpecificTime, Phase2ConfirmUnspecifiedSeat, ProposedRouteOK, ProposedRouteRequest,
    JobanExpressSeatInfo, ZairaiExpressSeatInfo, TicketConfirmed, Phase2TimeReConfirmed,
    Phase2JobanDropOffStation, Phase2TransferTimeIsNormal, ZairaiSpecialTransferMinutes,
    ZairaiSpecialProposedRouteOK, ZairaiSpecialProposedRouteRequest]

  /** The entries of the given keys, in order. */
  function ItemsOf(keys: seq<HearingKey>): (r: seq<HearingItemDefinition>)
    ensures |r| == |keys| && forall i :: 0 <= i < |keys| ==> r[i] == Item(keys[i])
  {
    if keys == [] then [] else ItemsOf(keys[..|keys| - 1]) + [Item(keys[|keys| - 1])]
  }

  /** `HearingItems`. */
  const HearingItems: seq<HearingItemDefinition> := ItemsOf(TableOrder)

  /** `it.field.stateKey === key` over items: the index of the first match. */
  function FindIndex(items: seq<HearingItemDefinition>, key: string): (r: Option<nat>)
    ensures r.Some? ==> (r.value < |items| && items[r.value].field.stateKey == key
      && forall j :: 0 <= j < r.value ==> items[j].field.stateKey != key)
    ensures r.None? ==> forall j :: 0 <= j < |items| ==> items[j].field.stateKey != key
  {
    if items == [] then None
    else if items[0].field.stateKey == key then Some(0)
    else match FindIndex(items[1..], key)
      case None => None
      case Some(j) => Some(j + 1)
  }

  /** `findItemByStateKey`: the first item with the key; an error naming the key otherwise. */
  function FindItemByStateKey(key: string): (r: Result<HearingItemDefinition, string>)
    ensures r.Ok? ==> r.value in HearingItems && r.value.field.stateKey == key
    ensures r.Err? <==> forall j :: 0 <= j < |HearingItems| ==> HearingItems[j].field.stateKey != key
    ensures r.Err? ==> r.error == "Hearing item not found for stateKey: " + key
  {
    match FindIndex(HearingItems, key)
    case None => Err("Hearing item not found for stateKey: " + key)
    case Some(j) => Ok(HearingItems[j])
  }

  /** Distinct entries have distinct state keys. */
  lemma {:induction false} StateKeyInjective(a: HearingKey, b: HearingKey)
    ensures StateKey(a) == StateKey(b) ==> a == b
  {
    var x, y := StateKey(a), StateKey(b);
    if x == y {
      assert |x| == |y| && x[0] == y[0] && x[|x| - 1] == y[|y| - 1];
    }
  }

  /** The table is the entries of `TableOrder`, in that order. */
  lemma {:induction false} TableItems()
    ensures |HearingItems| == |TableOrder| == 23
    ensures forall i :: 0 <= i < |HearingItems| ==> HearingItems[i] == Item(TableOrder[i])
  {
  }

  /** No key appears twice in the table order. */
  lemma {:induction false} TableOrderDistinct()
    ensures forall i, j :: 0 <= i < j < |TableOrder| ==> TableOrder[i] != TableOrder[j]
  {
    TableOrderPositions();
  }

  /** The place of each key in `TableOrder`. */
  function Position(k: HearingKey): nat {
    match k
    case CanExtractFromLastUserMessage => 0
    case Destination => 1
    case TravelDate => 2
    case AdultCount => 3
    case ChildCount => 4
    case BasicInfoConfirmed => 5
    case Phase2JobanExpressUse => 6
    case Phase2UseZairaiExpress => 7
    case Phase2TimeSpecification => 8
    case Phase2TimeSpecificationType => 9
    case Phase2SpecificTime => 10
    case Phase2ConfirmUnspecifiedSeat => 11
    case ProposedRouteOK => 12
    case ProposedRouteRequest => 13
    case JobanExpressSeatInfo => 14
    case ZairaiExpressSeatInfo => 15
    case TicketConfirmed => 16
    case Phase2TimeReConfirmed => 17
    case Phase2JobanDropOffStation => 18
    case Phase2TransferTimeIsNormal => 19
    case ZairaiSpecialTransferMinutes => 20
    case ZairaiSpecialProposedRouteOK => 21
    case ZairaiSpecialProposedRouteRequest => 22
  }

  /** Each key of `TableOrder` sits at its own place. */
  lemma {:induction false} TableOrderPositions()
    ensures forall i :: 0 <= i < |TableOrder| ==> Position(TableOrder[i]) == i
  {
  }

  /** The key columns: every llmKey is its state key, and only the passenger counts default, to 0. */
  lemma {:induction false} KeyColumns(k: HearingKey)
    ensures LlmKey(k) == StateKey(k)
    ensures DefaultOf(k).Some? <==> StateKey(k) in {"adultCount", "childCount"}
    ensures DefaultOf(k).Some? ==> DefaultOf(k).value == 0
  {
    LlmKeyIsStateKey(k);
    DefaultsOnlyCounts(k);
  }

  lemma {:induction false} LlmKeyIsStateKey(k: HearingKey)
    ensures LlmKey(k) == StateKey(k)
  {
  }

  lemma {:induction false} DefaultsOnlyCounts(k: HearingKey)
    ensures DefaultOf(k).Some? <==> StateKey(k) in {"adultCount", "childCount"}
    ensures DefaultOf(k).Some? ==> DefaultOf(k).value == 0
  {
    StateKeyInjective(k, AdultCount);
    StateKeyInjective(k, ChildCount);
    assert StateKey(AdultCount) == "adultCount" && StateKey(ChildCount) == "childCount";
  }

  /**
   * The table holds 23 items with pairwise-distinct state keys; every llmKey
   * is its state key, and only the two passenger counts carry a default, 0.
   */
  lemma {:induction false} HearingTable()
    ensures |HearingItems| == 23
    ensures forall i, j :: 0 <= i < j < |HearingItems| ==> HearingItems[i].field.stateKey != HearingItems[j].field.stateKey
    ensures forall i :: 0 <= i < |HearingItems| ==> HearingItems[i].field.llmKey == Some(HearingItems[i].field.stateKey)
    ensures forall i :: 0 <= i < |HearingItems| ==>
      (HearingItems[i].field.defaultValue.Some? <==> HearingItems[i].field.stateKey in {"adultCount", "childCount"})
    ensures forall i :: 0 <= i < |HearingItems| && HearingItems[i].field.defaultValue.Some? ==>
      HearingItems[i].field.defaultValue.value == 0
  {
    TableItems();
    TableOrderDistinct();
    forall i, j | 0 <= i < j < |HearingItems|
      ensures HearingItems[i].field.stateKey != HearingItems[j].field.stateKey
    {
      StateKeyInjective(TableOrder[i], TableOrder[j]);
    }
    forall i | 0 <= i < |HearingItems|
      ensures HearingItems[i].field.llmKey == Some(HearingItems[i].field.stateKey)
      ensures HearingItems[i].field.defaultValue.Some? <==> HearingItems[i].field.stateKey in {"adultCount", "childCount"}
      ensures HearingItems[i].field.defaultValue.Some? ==> HearingItems[i].field.defaultValue.value == 0
    {
      KeyColumns(TableOrder[i]);
    }
  }

  /** The lookup finds the first entry carrying the key. */
  lemma {:induction false} FindIndexFirst(items: seq<HearingItemDefinition>, key: string, i: nat)
    requires i < |items| && items[i].field.stateKey == key
    requires forall j :: 0 <= j < i ==> items[j].field.stateKey != key
    ensures FindIndex(items, key) == Some(i)
  {
  }

  /** Every key has a place in the table order. */
  lemma {:induction false} KeyInTable(k: HearingKey) returns (i: nat)
    ensures i < |TableOrder| && TableOrder[i] == k
  {
    assert k in TableOrder;
    i :| 0 <= i < |TableOrder| && TableOrder[i] == k;
  }

  /** Every entry of the table is found by its own state key. */
  lemma {:induction false} FindsEveryItem(k: HearingKey)
    ensures FindItemByStateKey(StateKey(k)) == Ok(Item(k))
  {
    HearingTable();
    TableItems();
    var i := KeyInTable(k);
    assert HearingItems[i] == Item(k);
    FindIndexFirst(HearingItems, StateKey(k), i);
  }

  /** One property of the `Hearing` structure: its group, its name, the key it looks up. */
  datatype Slot = Slot(group: string, property: string, key: HearingKey)

  /** The `Hearing` structure, group by group: every property is looked up by its own name. */
  const ExtractSlots: seq<Slot> := [
    Slot("canExtractFromLastUserMessage", "canExtractFromLastUserMessage", CanExtractFromLastUserMessage)]

  const BasicSlots: seq<Slot> := [
    Slot("basic", "destination", Destination),
    Slot("basic", "travelDate", TravelDate),
    Slot("basic", "adultCount", AdultCount),
    Slot("basic", "childCount", ChildCount),
    Slot("basic", "basicInfoConfirmed", BasicInfoConfirmed)]

  const Joban1Slots: seq<Slot> := [
    Slot("joban1", "phase2_jobanExpressUse", Phase2JobanExpressUse),
    Slot("joban1", "phase2_timeSpecification", Phase2TimeSpecification),
    Slot("joban1", "phase2_timeSpecificationType", Phase2TimeSpecificationType),
    Slot("joban1", "phase2_specificTime", Phase2SpecificTime),
    Slot("joban1", "phase2_confirmUnspecifiedSeat", Phase2ConfirmUnspecifiedSeat),
    Slot("joban1", "phase2_useZairaiExpress", Phase2UseZairaiExpress),
    Slot("joban1", "proposedRouteOK", ProposedRouteOK),
    Slot("joban1", "proposedRouteRequest", ProposedRouteRequest)]

  const ConfirmationSlots: seq<Slot> := [
    Slot("confirmation", "jobanExpressSeatInfo", JobanExpressSeatInfo),
    Slot("confirmation", "zairaiExpressSeatInfo", ZairaiExpressSeatInfo),
    Slot("confirmation", "ticketConfirmed", TicketConfirmed)]

  const JobanPhase2Slots: seq<Slot> := [
    Slot("jobanPhase2", "phase2_timeReConfirmed", Phase2TimeReConfirmed),
    Slot("jobanPhase2", "phase2_jobanDropOffStation", Phase2JobanDropOffStation),
    Slot("jobanPhase2", "phase2_transferTimeIsNormal", Phase2TransferTimeIsNormal),
    Slot("jobanPhase2", "zairaiSpecial_transferMinutes", ZairaiSpecialTransferMinutes),
    Slot("jobanPhase2", "zairaiSpecial_proposedRouteOK", ZairaiSpecialProposedRouteOK),
    Slot("jobanPhase2", "zairaiSpecial_proposedRouteRequest", ZairaiSpecialProposedRouteRequest)]

  const HearingLayout: seq<Slot> := ExtractSlots + BasicSlots + Joban1Slots + ConfirmationSlots + JobanPhase2Slots

  /** Each property's lookup by `find` in order; the first that throws ends it. */
  function BuildSlots(slots: seq<Slot>, find: string -> Result<HearingItemDefinition, string>):
    Result<seq<HearingItemDefinition>, string>
  {
    if slots == [] then Ok([])
    else match BuildSlots(slots[..|slots| - 1], find)
      case Err(e) => Err(e)
      case Ok(found) =>
        match find(slots[|slots| - 1].property)
        case Err(e) => Err(e)
        case Ok(item) => Ok(found + [item])
  }

  /** Building `Hearing`: the lookups are `findItemByStateKey`. */
  function BuildHearing(slots: seq<Slot>): Result<seq<HearingItemDefinition>, string> {
    BuildSlots(slots, FindItemByStateKey)
  }

  /** The property is named by the state key the slot looks up. */
  predicate Named(sl: Slot) { sl.property == StateKey(sl.key) }

  predicate AllNamed(slots: seq<Slot>) { forall i :: 0 <= i < |slots| ==> Named(slots[i]) }

  lemma {:induction false} AllNamedAppend(a: seq<Slot>, b: seq<Slot>)
    requires AllNamed(a) && AllNamed(b)
    ensures AllNamed(a + b)
  {
    forall i | 0 <= i < |a + b| ensures Named((a + b)[i]) {
      if i >= |a| {
        assert (a + b)[i] == b[i - |a|];
      }
    }
  }

  lemma {:induction false} ExtractSlotsNamed()
    ensures AllNamed(ExtractSlots)
  {
  }

  lemma {:induction false} BasicSlotsNamed()
    ensures AllNamed(BasicSlots)
  {
  }

  lemma {:induction false} Joban1SlotsNamed()
    ensures AllNamed(Joban1Slots)
  {
  }

  lemma {:induction false} ConfirmationSlotsNamed()
    ensures AllNamed(ConfirmationSlots)
  {
  }

  lemma {:induction false} JobanPhase2SlotsNamed()
    ensures AllNamed(JobanPhase2Slots)
  {
  }

  /** Each property of the layout is named by the state key of its own entry. */
  lemma {:induction false} LayoutNames()
    ensures forall i :: 0 <= i < |HearingLayout| ==> HearingLayout[i].property == StateKey(HearingLayout[i].key)
  {
    ExtractSlotsNamed();
    BasicSlotsNamed();
    Joban1SlotsNamed();
    ConfirmationSlotsNamed();
    JobanPhase2SlotsNamed();
    AllNamedAppend(ExtractSlots, BasicSlots);
    AllNamedAppend(ExtractSlots + BasicSlots, Joban1Slots);
    AllNamedAppend(ExtractSlots + BasicSlots + Joban1Slots, ConfirmationSlots);
    AllNamedAppend(ExtractSlots + BasicSlots + Joban1Slots + ConfirmationSlots, JobanPhase2Slots);
    assert AllNamed(HearingLayout);
  }

  lemma {:induction false} BuildHearingStep(slots: seq<Slot>, found: seq<HearingItemDefinition>, item: HearingItemDefinition)
    requires slots != [] && BuildHearing(slots[..|slots| - 1]) == Ok(found)
    requires FindItemByStateKey(slots[|slots| - 1].property) == Ok(item)
    ensures BuildHearing(slots) == Ok(found + [item])
  {
  }

  /** When every lookup succeeds, the build holds, slot by slot, the items found. */
  lemma {:induction false} BuildSlotsFinds(slots: seq<Slot>, find: string -> Result<HearingItemDefinition, string>,
    item: HearingKey -> HearingItemDefinition)
    requires forall i :: 0 <= i < |slots| ==> find(slots[i].property) == Ok(item(slots[i].key))
    ensures BuildSlots(slots, find).Ok? && |BuildSlots(slots, find).value| == |slots|
    ensures forall i :: 0 <= i < |slots| ==> BuildSlots(slots, find).value[i] == item(slots[i].key)
  {
    if slots != [] {
      var u := slots[..|slots| - 1];
      assert forall i :: 0 <= i < |u| ==> u[i] == slots[i];
      BuildSlotsFinds(u, find, item);
      var found := BuildSlots(u, find).value;
      var r := BuildSlots(slots, find).value;
      assert r == found + [item(slots[|slots| - 1].key)];
      forall i | 0 <= i < |slots| ensures r[i] == item(slots[i].key) {
        if i < |u| {
          assert r[i] == found[i];
        }
      }
    }
  }

  /** A layout whose properties are state keys builds, slot by slot, the table's item for each key. */
  lemma {:induction false} BuildHearingFinds(slots: seq<Slot>)
    requires forall i :: 0 <= i < |slots| ==> slots[i].property == StateKey(slots[i].key)
    ensures BuildHearing(slots).Ok? && |BuildHearing(slots).value| == |slots|
    ensures forall i :: 0 <= i < |slots| ==> BuildHearing(slots).value[i] == Item(slots[i].key)
  {
    forall i | 0 <= i < |slots| ensures FindItemByStateKey(slots[i].property) == Ok(Item(slots[i].key)) {
      FindsEveryItem(slots[i].key);
    }
    BuildSlotsFinds(slots, FindItemByStateKey, Item);
  }

  /**
   * Building `Hearing` never throws, and every property holds the item whose
   * state key is the property's name.
   */
  lemma {:induction false} HearingBuilds()
    ensures BuildHearing(HearingLayout).Ok?
    ensures |BuildHearing(HearingLayout).value| == |HearingLayout|
    ensures forall i :: 0 <= i < |HearingLayout| ==>
      BuildHearing(HearingLayout).value[i].field.stateKey == HearingLayout[i].property
  {
    LayoutNames();
    BuildHearingFinds(HearingLayout);
  }
}
