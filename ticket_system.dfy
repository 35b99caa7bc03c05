/**
 * The ticket state machine: the hearing state, the two conversation
 * histories, and what one round of information extraction does to them. The
 * language-model extractor and the route search service are outside the model;
 * their results are parameters of the operations that await them.
 */
module TicketSystem {
  import opened Wrappers
  import opened JsText
  import opened StableSort
  import opened RouteModel
  import opened TicketTypes
  import opened JobanExpress
  import opened ConversationHooks

  // ----- Records the manager installs -----

  /** The hearing state of a new manager. */
  function InitialRecord(): TicketInfo {
    NoFields().(
      currentPhase := Val(BasicInfo),
      destination := Null, travelDate := Null, adultCount := Null, childCount := Null,
      basicInfoConfirmed := Null, phase2_jobanExpressUse := Null, phase2_confirmed := Null,
      phase2_confirmUnspecifiedSeat := Null, ticketConfirmed := Null,
      phase2_timeSpecification := Null, phase2_timeSpecificationType := Null,
      phase2_specificTime := Null, phase2_useZairaiExpress := Null,
      proposedRoute := Null, proposedRouteOK := Null, proposedRouteRequest := Null,
      ticketIssued := Null)
  }

  /** The record installed when the customer withdraws the ticket confirmation. */
  function CancelledRecord(): TicketInfo {
    InitialRecord().(
      iscleared := Val(true),
      zairaiExpressName := Null, zairaiExpressCategory := Null,
      initialProposedZairaiExpressSection := Null, initialProposedRouteWithZairai := Null)
  }

  /** The record `reset()` installs: the four basic items null, the phase set, nothing else. */
  function ResetRecord(): TicketInfo {
    NoFields().(currentPhase := Val(BasicInfo), destination := Null, travelDate := Null,
      adultCount := Null, childCount := Null)
  }

  /** After a cancellation the basic-information phase greets the customer again and asks for every item. */
  lemma {:induction false} CancellationRestartsHearing()
    ensures NextBasicAction(CancelledRecord()) == WelcomeAgain
    ensures UnheardLabels(CancelledRecord()) == ["行先", "利用日", "大人の人数", "子供の人数"]
    ensures NextBasicAction(ResetRecord()) == Welcome && NextBasicAction(InitialRecord()) == Welcome
  {
  }

  // ----- Merging an extraction -----

  /** One field of the merge: `undefined` keeps the current value, anything else (null included) replaces it. */
  function Pick<T>(cur: Nullable<T>, ext: Nullable<T>): Nullable<T> {
    if ext.Undef? then cur else ext
  }

  /** The `Object.entries(extractedInfo).forEach` merge, field by field. */
  function Merge(c: TicketInfo, e: TicketInfo): TicketInfo {
    TicketInfo(
      Pick(c.currentPhase, e.currentPhase), Pick(c.resetProposedRoute, e.resetProposedRoute),
      Pick(c.iscleared, e.iscleared), Pick(c.destination, e.destination),
      Pick(c.destination_kana, e.destination_kana), Pick(c.notFoundDestination, e.notFoundDestination),
      Pick(c.convertLastUserMessage, e.convertLastUserMessage), Pick(c.travelDate, e.travelDate),
      Pick(c.adultCount, e.adultCount), Pick(c.childCount, e.childCount),
      Pick(c.basicInfoConfirmed, e.basicInfoConfirmed), Pick(c.phase2_jobanExpressUse, e.phase2_jobanExpressUse),
      Pick(c.phase2_timeSpecification, e.phase2_timeSpecification),
      Pick(c.phase2_timeSpecificationType, e.phase2_timeSpecificationType),
      Pick(c.phase2_specificTime, e.phase2_specificTime),
      Pick(c.phase2_confirmUnspecifiedSeat, e.phase2_confirmUnspecifiedSeat),
      Pick(c.phase2_useZairaiExpress, e.phase2_useZairaiExpress), Pick(c.phase2_confirmed, e.phase2_confirmed),
      Pick(c.routes, e.routes), Pick(c.jobanExpressRoutes, e.jobanExpressRoutes),
      Pick(c.jobanZairaiExpressRoutes, e.jobanZairaiExpressRoutes), Pick(c.proposedRoute, e.proposedRoute),
      Pick(c.proposedRouteOK, e.proposedRouteOK), Pick(c.proposedRouteRequest, e.proposedRouteRequest),
      Pick(c.ticketConfirmed, e.ticketConfirmed), Pick(c.ticketIssued, e.ticketIssued),
      Pick(c.zairaiExpressName, e.zairaiExpressName), Pick(c.zairaiExpressCategory, e.zairaiExpressCategory),
      Pick(c.initialProposedZairaiExpressSection, e.initialProposedZairaiExpressSection),
      Pick(c.initialProposedRouteWithZairai, e.initialProposedRouteWithZairai))
  }

  /** An extraction with no fields changes nothing, and merged into no fields it is the applied difference itself. */
  lemma {:induction false} MergeNothing(c: TicketInfo, e: TicketInfo)
    ensures Merge(c, NoFields()) == c
    ensures Merge(NoFields(), e) == e
  {
  }

  /** Applying the same extraction twice is applying it once. */
  lemma {:induction false} MergeIdempotent(c: TicketInfo, e: TicketInfo)
    ensures Merge(Merge(c, e), e) == Merge(c, e)
  {
  }

  /** Two extractions in a row are the one extraction whose fields are the later ones over the earlier ones. */
  lemma {:induction false} MergeAssociative(c: TicketInfo, a: TicketInfo, b: TicketInfo)
    ensures Merge(Merge(c, a), b) == Merge(c, Merge(a, b))
  {
  }

  // ----- The cascade when the requested time changes -----

  function ClearProposal(info: TicketInfo): TicketInfo {
    info.(proposedRoute := Null, proposedRouteOK := Null, proposedRouteRequest := Null)
  }

  /** A non-empty extracted time or time type that differs from the current one (`!=` on strings, null and undefined). */
  predicate TimeChanged(info: TicketInfo, ext: TicketInfo) {
    (StrTruthy(ext.phase2_specificTime) && ext.phase2_specificTime != info.phase2_specificTime)
    || (StrTruthy(ext.phase2_timeSpecificationType) && ext.phase2_timeSpecificationType != info.phase2_timeSpecificationType)
  }

  /** `executeChangeTimengSincronize` as a function of the state and the extraction. */
  function TimeSync(info: TicketInfo, ext: TicketInfo): TicketInfo {
    if TimeChanged(info, ext) then
      ClearProposal(info).(phase2_useZairaiExpress :=
        if info.jobanZairaiExpressRoutes == Val([]) then Val(false) else Null)
    else info
  }

  /** The cascade touches only the proposal and the zairai-express choice. */
  lemma {:induction false} TimeSyncFrame(info: TicketInfo, ext: TicketInfo)
    ensures TimeSync(info, ext).(proposedRoute := info.proposedRoute, proposedRouteOK := info.proposedRouteOK,
      proposedRouteRequest := info.proposedRouteRequest, phase2_useZairaiExpress := info.phase2_useZairaiExpress) == info
    ensures TimeChanged(info, ext) ==> (TimeSync(info, ext).proposedRoute == Null
      && (TimeSync(info, ext).phase2_useZairaiExpress == Val(false) <==> info.jobanZairaiExpressRoutes == Val([])))
  {
  }

  /** Once an extraction is merged, the same extraction does not start the cascade again. */
  lemma {:induction false} SameTimeNoSecondCascade(info: TicketInfo, ext: TicketInfo)
    ensures !TimeChanged(Merge(TimeSync(info, ext), ext), ext)
  {
  }

  // ----- The confirmation heuristics -----

  /** `/(はい|ok|オーケー|お願いします|ええ)/i.test(text)` on a present, non-empty text. */
  predicate Affirmative(text: Option<string>) {
    text.Some? && text.value != [] &&
      (Contains(text.value, "はい") || Contains(ToLower(text.value), "ok") || Contains(text.value, "オーケー")
       || Contains(text.value, "お願いします") || Contains(text.value, "ええ"))
  }

  /** `/(よろしいでしょうか|問題ないでしょうか|よろしいですか)/.test(text)`. */
  predicate IsConfirmQuestion(text: Option<string>) {
    text.Some? && text.value != [] &&
      (Contains(text.value, "よろしいでしょうか") || Contains(text.value, "問題ないでしょうか")
       || Contains(text.value, "よろしいですか"))
  }

  /** The question mentions an unreserved seat. */
  predicate AskedUnspecified(text: Option<string>) {
    text.Some? && text.value != [] && Contains(text.value, "座席未指定")
  }

  /** The affirmative test ignores the case of "ok". */
  lemma {:induction false} AffirmativeIgnoresCase(pre: string, post: string)
    ensures Affirmative(Some(pre + "OK" + post))
  {
    var s := pre + "OK" + post;
    assert ToLower(s)[|pre|..|pre| + 2] == "ok";
    assert IsAt(ToLower(s), "ok", |pre|);
  }

  /** The four basic items are present (`!== null` lets `undefined` counts through). */
  predicate BasicInfoComplete(info: TicketInfo) {
    StrTruthy(info.destination) && StrTruthy(info.travelDate) && info.adultCount != Null && info.childCount != Null
  }

  /**
   * The two confirmations inferred from the last customer and assistant
   * messages of the current phase: a "yes" to a confirmation question confirms
   * the basic information, and a "yes" to the unreserved-seat question accepts it.
   */
  function ConfirmHeuristics(info: TicketInfo, lastUser: Option<string>, lastAssistant: Option<string>): TicketInfo {
    var i1 :=
      if info.currentPhase == Val(BasicInfo) && BasicInfoComplete(info) && info.basicInfoConfirmed != Val(true)
        && Affirmative(lastUser) && IsConfirmQuestion(lastAssistant)
      then info.(basicInfoConfirmed := Val(true)) else info;
    if i1.phase2_jobanExpressUse == Val(true)
      && (i1.phase2_timeSpecification == Val(false) || i1.phase2_timeSpecification.IsNullish())
      && AskedUnspecified(lastAssistant) && Affirmative(lastUser) && i1.phase2_confirmUnspecifiedSeat.IsNullish()
    then i1.(phase2_confirmUnspecifiedSeat := Val(true)) else i1
  }

  /** The heuristics only ever set a confirmation to true, and only after a "yes". */
  lemma {:induction false} HeuristicsOnlyConfirm(info: TicketInfo, lastUser: Option<string>, lastAssistant: Option<string>)
    ensures var r := ConfirmHeuristics(info, lastUser, lastAssistant);
      r.(basicInfoConfirmed := info.basicInfoConfirmed, phase2_confirmUnspecifiedSeat := info.phase2_confirmUnspecifiedSeat) == info
      && (r.basicInfoConfirmed != info.basicInfoConfirmed ==> r.basicInfoConfirmed == Val(true) && Affirmative(lastUser))
      && (r.phase2_confirmUnspecifiedSeat != info.phase2_confirmUnspecifiedSeat ==>
          r.phase2_confirmUnspecifiedSeat == Val(true) && Affirmative(lastUser) && AskedUnspecified(lastAssistant))
      && (!Affirmative(lastUser) ==> r == info)
  {
  }

  // ----- Normalisation after the merge -----

  /** `destination.replace(/駅$/, '')`: one trailing 駅 is removed. */
  function StripStation(d: string): (r: string) {
    if d != [] && d[|d| - 1] == '駅' then d[..|d| - 1] else d
  }

  lemma {:induction false} StripStationOnce(d: string)
    ensures d == StripStation(d) + "駅" || d == StripStation(d)
    ensures EndsWith(d, "駅") <==> |StripStation(d)| + 1 == |d|
    ensures StripStation(d + "駅") == d
  {
    assert (d + "駅")[..|d|] == d;
    if d != [] && d[|d| - 1] == '駅' {
      assert d == d[..|d| - 1] + "駅";
    }
  }

  /**
   * The fix-ups after the merge, in program order: an accepted unreserved seat
   * confirms phase 2, the destination loses a trailing 駅, the child count
   * defaults to 0 in the basic-information phase, and a confirmed ticket is issued.
   */
  function Normalise(info: TicketInfo, ext: TicketInfo): TicketInfo {
    var i1 := if ext.phase2_confirmUnspecifiedSeat == Val(true) && !BoolTruthy(info.phase2_confirmed)
      then info.(phase2_confirmed := Val(true)) else info;
    var i2 := if StrTruthy(i1.destination) then i1.(destination := Val(StripStation(i1.destination.value))) else i1;
    var i3 := if i2.currentPhase == Val(BasicInfo) && !i2.adultCount.IsNullish() && i2.childCount == Null
      then i2.(childCount := Val(0)) else i2;
    if i3.ticketConfirmed == Val(true) && i3.ticketIssued != Val(true) then i3.(ticketIssued := Val(true)) else i3
  }

  /** What holds after normalisation, whatever the merged record was. */
  lemma {:induction false} NormaliseEstablishes(info: TicketInfo, ext: TicketInfo)
    ensures var r := Normalise(info, ext);
      (r.ticketConfirmed == Val(true) ==> r.ticketIssued == Val(true))
      && (r.currentPhase == Val(BasicInfo) && !r.adultCount.IsNullish() ==> r.childCount != Null)
      && (ext.phase2_confirmUnspecifiedSeat == Val(true) ==> BoolTruthy(r.phase2_confirmed))
      && (StrTruthy(info.destination) ==> r.destination == Val(StripStation(info.destination.value)))
      && (!StrTruthy(info.destination) ==> r.destination == info.destination)
      && r.currentPhase == info.currentPhase && r.ticketConfirmed == info.ticketConfirmed
      && r.adultCount == info.adultCount && r.travelDate == info.travelDate
  {
  }

  // ----- The initial zairai-express proposal -----

  /** `const [h, m] = s.split(':').map(Number); h * 60 + m`; a missing minute part is `undefined`, so NaN. */
  function ClockValue(s: string): Num {
    var parts := Split(s, ':');
    var h := NumberOf(parts[0]);
    var m := if |parts| >= 2 then NumberOf(parts[1]) else NaN;
    if h.Fin? && m.Fin? then Fin(h.n * 60 + m.n) else NaN
  }

  /** `a >= b` on numbers: false when either is NaN. */
  predicate NumGe(a: Num, b: Num) { a.Fin? && b.Fin? && a.n >= b.n }

  /** `a < b` on numbers: false when either is NaN. */
  predicate NumLt(a: Num, b: Num) { a.Fin? && b.Fin? && a.n < b.n }

  predicate DepartsFrom(route: Route, spec: Num) { NumGe(ClockValue(route.departureTime), spec) }

  /** `depMinutes - specMinutes <= 45`. */
  predicate DepartsWithin45(route: Route, spec: Num) {
    var d := ClockValue(route.departureTime);
    d.Fin? && spec.Fin? && d.n - spec.n <= 45
  }

  /** The routes departing at or after the requested time, in order. */
  function Matching(routes: seq<Route>, spec: Num): (r: seq<Route>)
    ensures |r| <= |routes|
  {
    if routes == [] then []
    else
      var last := routes[|routes| - 1];
      Matching(routes[..|routes| - 1], spec) + (if DepartsFrom(last, spec) then [last] else [])
  }

  /** The matching routes that depart within 45 minutes of the requested time, in order. */
  function Within45(routes: seq<Route>, spec: Num): (r: seq<Route>)
    ensures |r| <= |routes|
  {
    if routes == [] then []
    else
      var last := routes[|routes| - 1];
      Within45(routes[..|routes| - 1], spec) + (if DepartsWithin45(last, spec) then [last] else [])
  }

  lemma {:induction false} MatchingMember(routes: seq<Route>, spec: Num, x: Route)
    ensures x in Matching(routes, spec) <==> x in routes && DepartsFrom(x, spec)
  {
    if routes != [] {
      MatchingMember(routes[..|routes| - 1], spec, x);
      assert routes == routes[..|routes| - 1] + [routes[|routes| - 1]];
    }
  }

  lemma {:induction false} Within45Member(routes: seq<Route>, spec: Num, x: Route)
    ensures x in Within45(routes, spec) <==> x in routes && DepartsWithin45(x, spec)
  {
    if routes != [] {
      Within45Member(routes[..|routes| - 1], spec, x);
      assert routes == routes[..|routes| - 1] + [routes[|routes| - 1]];
    }
  }

  function ArrivalValue(route: Route): Num { ClockValue(route.arrivalTime) }

  /**
   * The `reduce` keeping the earlier arrival, for any reading `value` of a
   * route's time: a later route replaces the kept one only when its value is
   * strictly smaller.
   */
  function EarliestBy(s: seq<Route>, value: Route -> Num): Route
    requires |s| > 0
  {
    if |s| == 1 then s[0]
    else
      var e := EarliestBy(s[..|s| - 1], value);
      if NumLt(value(s[|s| - 1]), value(e)) then s[|s| - 1] else e
  }

  /** With every value a number, the result is the first route with the smallest value. */
  lemma {:induction false} EarliestByFirstMinimum(s: seq<Route>, value: Route -> Num)
    requires |s| > 0
    requires forall k :: 0 <= k < |s| ==> value(s[k]).Fin?
    ensures exists i :: (0 <= i < |s| && s[i] == EarliestBy(s, value)
      && (forall k :: 0 <= k < |s| ==> value(s[i]).n <= value(s[k]).n)
      && (forall k :: 0 <= k < i ==> value(s[i]).n < value(s[k]).n))
  {
    var i := FirstMinimumAt(s, value);
  }

  /** The position of the route `EarliestBy` picks: the first with the smallest value. */
  lemma {:induction false} FirstMinimumAt(s: seq<Route>, value: Route -> Num) returns (i: nat)
    requires |s| > 0
    requires forall k :: 0 <= k < |s| ==> value(s[k]).Fin?
    ensures 0 <= i < |s| && s[i] == EarliestBy(s, value)
    ensures forall k :: 0 <= k < |s| ==> value(s[i]).n <= value(s[k]).n
    ensures forall k :: 0 <= k < i ==> value(s[i]).n < value(s[k]).n
  {
    if |s| == 1 {
      i := 0;
      assert s[0] == EarliestBy(s, value);
    } else {
      var p := s[..|s| - 1];
      var j := |s| - 1;
      var m := FirstMinimumAt(p, value);
      assert forall k :: 0 <= k < |p| ==> s[k] == p[k];
      i := if NumLt(value(s[j]), value(s[m])) then j else m;
      assert s[i] == EarliestBy(s, value);
      FirstMinimumStep(s, value, m);
    }
  }

  /** The first smallest value of all but the last route, compared with the last one. */
  lemma {:induction false} FirstMinimumStep(s: seq<Route>, value: Route -> Num, i: nat)
    requires 0 <= i < |s| - 1
    requires forall k :: 0 <= k < |s| ==> value(s[k]).Fin?
    requires forall k :: 0 <= k < |s| - 1 ==> value(s[i]).n <= value(s[k]).n
    requires forall k :: 0 <= k < i ==> value(s[i]).n < value(s[k]).n
    ensures var w := if NumLt(value(s[|s| - 1]), value(s[i])) then |s| - 1 else i;
      (forall k :: 0 <= k < |s| ==> value(s[w]).n <= value(s[k]).n)
      && (forall k :: 0 <= k < w ==> value(s[w]).n < value(s[k]).n)
  {
  }

  /** The route the proposal starts from: the earliest arrival within 45 minutes, else the first matching route. */
  function TargetRoute(matching: seq<Route>, spec: Num): Route
    requires |matching| > 0
  {
    var w := Within45(matching, spec);
    if |w| > 0 then EarliestBy(w, ArrivalValue) else matching[0]
  }

  lemma {:induction false} EarliestByIn(s: seq<Route>, value: Route -> Num)
    requires |s| > 0
    ensures EarliestBy(s, value) in s
  {
    if |s| > 1 {
      EarliestByIn(s[..|s| - 1], value);
    }
  }

  /** The target is a matching route, and is within 45 minutes whenever some matching route is. */
  lemma {:induction false} TargetRouteShape(routes: seq<Route>, spec: Num)
    requires |Matching(routes, spec)| > 0
    ensures var t := TargetRoute(Matching(routes, spec), spec);
      t in routes && DepartsFrom(t, spec)
      && ((exists x :: x in routes && DepartsFrom(x, spec) && DepartsWithin45(x, spec)) ==> DepartsWithin45(t, spec))
  {
    var m := Matching(routes, spec);
    var t := TargetRoute(m, spec);
    var w := Within45(m, spec);
    if |w| > 0 {
      EarliestByIn(w, ArrivalValue);
      Within45Member(m, spec, t);
    } else {
      assert t == m[0];
      forall x | x in routes && DepartsFrom(x, spec) ensures !DepartsWithin45(x, spec) {
        MatchingMember(routes, spec, x);
        Within45Member(m, spec, x);
      }
    }
    MatchingMember(routes, spec, t);
  }

  /** A limited-express leg other than the Joban-line ひたち and ときわ. */
  predicate IsZairaiCandidate(leg: RouteLeg) {
    leg.isExpress && leg.nickname != "ひたち" && leg.nickname != "ときわ"
  }

  function CandidatesOf(legs: seq<RouteLeg>): seq<RouteLeg> {
    if legs == [] then []
    else CandidatesOf(legs[..|legs| - 1]) + (if IsZairaiCandidate(legs[|legs| - 1]) then [legs[|legs| - 1]] else [])
  }

  lemma {:induction false} CandidatesOfMember(legs: seq<RouteLeg>, x: RouteLeg)
    ensures x in CandidatesOf(legs) <==> x in legs && IsZairaiCandidate(x)
  {
    if legs != [] {
      CandidatesOfMember(legs[..|legs| - 1], x);
      assert legs == legs[..|legs| - 1] + [legs[|legs| - 1]];
    }
  }

  /** The comparator `(a, b) => b.leg.seq - a.leg.seq`. */
  function DescendingSeq(leg: RouteLeg): (int, int) { (-leg.seqNo, 0) }

  /** The candidate legs, latest `seq` first. */
  function ExpressLegsLatestFirst(legs: seq<RouteLeg>): seq<RouteLeg> {
    SortBy(CandidatesOf(legs), DescendingSeq)
  }

  /** The first entry is a candidate leg of the route with the largest `seq`; there is none only without candidates. */
  lemma {:induction false} LastCandidateLeg(legs: seq<RouteLeg>)
    ensures var c := ExpressLegsLatestFirst(legs);
      (c == [] <==> forall k :: 0 <= k < |legs| ==> !IsZairaiCandidate(legs[k]))
      && (c != [] ==> (c[0] in legs && IsZairaiCandidate(c[0])
          && forall k :: 0 <= k < |legs| && IsZairaiCandidate(legs[k]) ==> legs[k].seqNo <= c[0].seqNo))
  {
    var f := CandidatesOf(legs);
    var c := ExpressLegsLatestFirst(legs);
    SortByPermutes(f, DescendingSeq);
    SortBySorted(f, DescendingSeq);
    forall k | 0 <= k < |legs| && IsZairaiCandidate(legs[k]) ensures legs[k] in c {
      CandidatesOfMember(legs, legs[k]);
      assert legs[k] in multiset(f);
    }
    if c != [] {
      assert c[0] in multiset(f);
      CandidatesOfMember(legs, c[0]);
      forall k | 0 <= k < |legs| && IsZairaiCandidate(legs[k]) ensures legs[k].seqNo <= c[0].seqNo {
        var j :| 0 <= j < |c| && c[j] == legs[k];
        if j > 0 {
          assert KeyLe(DescendingSeq(c[0]), DescendingSeq(c[j]));
        }
      }
    }
  }

  /** The category's `string | null`. */
  function CategoryOf(leg: RouteLeg): Nullable<string> {
    match DeriveZairaiExpressCategory(if leg.nickname != [] then leg.nickname else leg.senkuName)
    case None => Null
    case Some(c) => Val(c)
  }

  /**
   * `deriveInitialProposedZairaiExpress`: the new state and whether it threw.
   * The chosen route is recorded before the express leg is looked for, so it
   * stays recorded when no express leg is found.
   */
  function DeriveInitial(info: TicketInfo, time: string): (TicketInfo, bool) {
    if !info.jobanZairaiExpressRoutes.Val? || info.jobanZairaiExpressRoutes.value == [] then (info, false)
    else
      var spec := ClockValue(time);
      var m := Matching(info.jobanZairaiExpressRoutes.value, spec);
      if m == [] then (info, false)
      else
        var t := TargetRoute(m, spec);
        var i1 := info.(initialProposedRouteWithZairai := Val(t));
        var c := ExpressLegsLatestFirst(t.legs);
        if c == [] then (i1, true)
        else (i1.(initialProposedZairaiExpressSection := Val(c[0]), zairaiExpressName := Val(c[0].nickname),
          zairaiExpressCategory := CategoryOf(c[0])), false)
  }

  /** The proposal departs at or after the requested time and its section is the route's latest zairai express leg. */
  lemma {:induction false} DeriveInitialShape(info: TicketInfo, time: string)
    ensures var (r, thrown) := DeriveInitial(info, time);
      (r.initialProposedRouteWithZairai != info.initialProposedRouteWithZairai ==>
        r.initialProposedRouteWithZairai.Val? && info.jobanZairaiExpressRoutes.Val?
        && r.initialProposedRouteWithZairai.value in info.jobanZairaiExpressRoutes.value
        && DepartsFrom(r.initialProposedRouteWithZairai.value, ClockValue(time)))
      && (thrown ==> (r.initialProposedRouteWithZairai.Val?
        && forall leg :: leg in r.initialProposedRouteWithZairai.value.legs ==> !IsZairaiCandidate(leg)))
      && (!thrown && r != info ==> (r.initialProposedZairaiExpressSection.Val?
        && r.initialProposedRouteWithZairai.Val?
        && r.initialProposedZairaiExpressSection.value in r.initialProposedRouteWithZairai.value.legs
        && IsZairaiCandidate(r.initialProposedZairaiExpressSection.value)
        && r.zairaiExpressName == Val(r.initialProposedZairaiExpressSection.value.nickname)))
  {
    if info.jobanZairaiExpressRoutes.Val? && info.jobanZairaiExpressRoutes.value != [] {
      var routes := info.jobanZairaiExpressRoutes.value;
      var spec := ClockValue(time);
      if Matching(routes, spec) != [] {
        TargetRouteShape(routes, spec);
        var t := TargetRoute(Matching(routes, spec), spec);
        LastCandidateLeg(t.legs);
      }
    }
  }

  // ----- Joban-express data after a route search -----

  /** The routes after `extractJobanZairaiExpressRoutes` sorted the legs they share with the Joban-express routes. */
  function SortJobanLegs(routes: seq<Route>): (r: seq<Route>)
    ensures |r| == |routes|
    ensures forall k :: 0 <= k < |routes| ==>
      r[k] == (if HasJobanStart(routes[k]) then WithSortedLegs(routes[k]) else routes[k])
  {
    if routes == [] then []
    else
      var last := routes[|routes| - 1];
      SortJobanLegs(routes[..|routes| - 1]) + [if HasJobanStart(last) then WithSortedLegs(last) else last]
  }

  /** `processJobanExpressData` as a function of the hearing state. */
  function JobanData(info: TicketInfo): TicketInfo {
    if !info.routes.Val? || info.routes.value == [] then info
    else
      var routes := info.routes.value;
      var j := JobanExpressRoutes(routes);
      if j == [] then info.(jobanExpressRoutes := Val(j))
      else
        var z := ZairaiRoutes(j);
        info.(routes := Val(SortJobanLegs(routes)), jobanExpressRoutes := Val(SortEachRoute(j)),
          jobanZairaiExpressRoutes := Val(z), phase2_useZairaiExpress := if z == [] then Val(false) else Null)
  }

  /**
   * With Joban routes the zairai-express choice is false exactly when no route
   * also uses a zairai express, and undecided otherwise; every route keeps its
   * legs up to order, and the Joban routes' legs end up in `seq` order.
   */
  lemma {:induction false} JobanDataShape(info: TicketInfo)
    requires info.routes.Val? && info.routes.value != []
    ensures var r := JobanData(info); var routes := info.routes.value;
      r.jobanExpressRoutes == Val(SortEachRoute(JobanExpressRoutes(routes)))
      && |r.jobanExpressRoutes.value| == |Sequences.Filter(routes, HasJobanStart)|
      && (JobanExpressRoutes(routes) != [] ==>
          r.jobanZairaiExpressRoutes.Val?
          && (r.phase2_useZairaiExpress == Val(false) <==> r.jobanZairaiExpressRoutes.value == [])
          && (r.phase2_useZairaiExpress != Val(false) ==> r.phase2_useZairaiExpress == Null))
      && r.routes.Val? && |r.routes.value| == |routes|
      && (forall k :: 0 <= k < |routes| ==> (multiset(r.routes.value[k].legs) == multiset(routes[k].legs)
          && r.routes.value[k].(legs := routes[k].legs) == routes[k]
          && (HasJobanStart(routes[k]) ==> AscendingSeq(r.routes.value[k].legs))))
  {
    var routes := info.routes.value;
    JobanExpressRoutesFiltered(routes);
    var s := SortJobanLegs(routes);
    forall k | 0 <= k < |routes| ensures multiset(s[k].legs) == multiset(routes[k].legs)
      && (HasJobanStart(routes[k]) ==> AscendingSeq(s[k].legs))
    {
      SortLegsAscending(routes[k].legs);
    }
    if JobanExpressRoutes(routes) == [] {
      assert SortEachRoute([]) == [];
      forall k | 0 <= k < |routes| ensures !HasJobanStart(routes[k]) {
        if HasJobanStart(routes[k]) {
          Sequences.FilterMember(routes, HasJobanStart, routes[k]);
          assert false;
        }
      }
    }
  }

  // ----- One extraction round as a function -----

  /** The route search the extraction may start, with its error report. */
  function SearchOutcome(info: TicketInfo, err: Nullable<string>, search: Result<seq<Route>, string>): (TicketInfo, Nullable<string>) {
    match search
    case Ok(rs) => (JobanData(info.(routes := Val(rs))), err)
    case Err(msg) => (info, Val(msg))
  }

  /** The derivation of the initial proposal is attempted only under these conditions. */
  predicate DeriveApplies(info: TicketInfo) {
    info.phase2_timeSpecification == Val(true) && info.phase2_timeSpecificationType == Val("start")
    && StrTruthy(info.phase2_specificTime) && info.jobanZairaiExpressRoutes.Val?
    && info.jobanZairaiExpressRoutes.value != [] && info.initialProposedRouteWithZairai.IsNullish()
  }

  /** The derivation step; a throw is caught and what was stored before it stays. */
  function DeriveStep(info: TicketInfo): TicketInfo {
    if DeriveApplies(info) then DeriveInitial(info, info.phase2_specificTime.value).0 else info
  }

  function ClearResetRequest(ext: TicketInfo): TicketInfo {
    if BoolTruthy(ext.resetProposedRoute) then ext.(resetProposedRoute := Null) else ext
  }

  /** The state after the extraction passed its reset request and its cancellation check, up to the search. */
  function Settle(info: TicketInfo, ext: TicketInfo, lastUser: Option<string>, lastAssistant: Option<string>): TicketInfo {
    Normalise(ConfirmHeuristics(Merge(TimeSync(info, ext), ext), lastUser, lastAssistant), ext)
  }

  /** The route search started by a new destination, then the derivation of the initial proposal. */
  function SearchAndDerive(s: TicketInfo, previousDestination: Nullable<string>, search: Result<seq<Route>, string>,
    searching: bool): (TicketInfo, Nullable<string>)
  {
    var (r, err) := if StrTruthy(s.destination) && s.destination != previousDestination && !searching
      then SearchOutcome(s, Null, search) else (s, Null);
    (DeriveStep(r), err)
  }

  /**
   * The new hearing state and error of a successful extraction `ext`, given the
   * last customer and assistant messages and whether a route search is running.
   */
  function Extraction(info: TicketInfo, ext: TicketInfo, lastUser: Option<string>, lastAssistant: Option<string>,
    search: Result<seq<Route>, string>, searching: bool): (TicketInfo, Nullable<string>)
  {
    var i1 := if BoolTruthy(ext.resetProposedRoute) then ClearProposal(info) else info;
    AfterResetRequest(i1, ClearResetRequest(ext), lastUser, lastAssistant, search, searching)
  }

  /** The extraction round after its reset request was handled: cancellation, or merge, search and derivation. */
  function AfterResetRequest(info: TicketInfo, ext: TicketInfo, lastUser: Option<string>, lastAssistant: Option<string>,
    search: Result<seq<Route>, string>, searching: bool): (TicketInfo, Nullable<string>)
  {
    if ext.ticketConfirmed == Val(false) then (CancelledRecord(), Null)
    else SearchAndDerive(Settle(info, ext, lastUser, lastAssistant), info.destination, search, searching)
  }

  /** The Joban-express processing writes only the route lists and the zairai-express choice. */
  lemma {:induction false} JobanDataFrame(info: TicketInfo)
    ensures JobanData(info).(routes := info.routes, jobanExpressRoutes := info.jobanExpressRoutes,
      jobanZairaiExpressRoutes := info.jobanZairaiExpressRoutes, phase2_useZairaiExpress := info.phase2_useZairaiExpress) == info
  {
  }

  /** The derivation writes only the proposal it derives. */
  lemma {:induction false} DeriveInitialFrame(info: TicketInfo, time: string)
    ensures DeriveInitial(info, time).0.(initialProposedRouteWithZairai := info.initialProposedRouteWithZairai,
      initialProposedZairaiExpressSection := info.initialProposedZairaiExpressSection,
      zairaiExpressName := info.zairaiExpressName, zairaiExpressCategory := info.zairaiExpressCategory) == info
  {
  }

  /** Searching and deriving leave the hearing items and the confirmations alone. */
  lemma {:induction false} SearchAndDeriveFrame(s: TicketInfo, previousDestination: Nullable<string>, search: Result<seq<Route>, string>,
    searching: bool)
    ensures var r := SearchAndDerive(s, previousDestination, search, searching).0;
      r.(routes := s.routes, jobanExpressRoutes := s.jobanExpressRoutes,
        jobanZairaiExpressRoutes := s.jobanZairaiExpressRoutes, phase2_useZairaiExpress := s.phase2_useZairaiExpress,
        initialProposedRouteWithZairai := s.initialProposedRouteWithZairai,
        initialProposedZairaiExpressSection := s.initialProposedZairaiExpressSection,
        zairaiExpressName := s.zairaiExpressName, zairaiExpressCategory := s.zairaiExpressCategory) == s
  {
    var (r, err) := if StrTruthy(s.destination) && s.destination != previousDestination && !searching
      then SearchOutcome(s, Null, search) else (s, Null);
    if search.Ok? {
      JobanDataFrame(s.(routes := Val(search.value)));
    }
    if DeriveApplies(r) {
      DeriveInitialFrame(r, r.phase2_specificTime.value);
    }
  }

  /** A field the extraction leaves undefined and nothing downstream writes keeps its value. */
  lemma {:induction false} ExtractionKeepsUndefined(info: TicketInfo, ext: TicketInfo, lastUser: Option<string>, lastAssistant: Option<string>,
    search: Result<seq<Route>, string>, searching: bool)
    requires ext.ticketConfirmed != Val(false)
    requires ext.travelDate.Undef? && ext.adultCount.Undef? && ext.destination_kana.Undef?
    ensures var (r, _) := Extraction(info, ext, lastUser, lastAssistant, search, searching);
      r.travelDate == info.travelDate && r.adultCount == info.adultCount && r.destination_kana == info.destination_kana
  {
    var i1 := if BoolTruthy(ext.resetProposedRoute) then ClearProposal(info) else info;
    var e1 := ClearResetRequest(ext);
    SettleKeepsUndefined(i1, e1, lastUser, lastAssistant);
    SearchAndDeriveKeepsHearing(Settle(i1, e1, lastUser, lastAssistant), i1.destination, search, searching);
  }

  /** Settling keeps the date, the adult count and the destination reading the extraction leaves undefined. */
  lemma {:induction false} SettleKeepsUndefined(info: TicketInfo, ext: TicketInfo, lastUser: Option<string>, lastAssistant: Option<string>)
    requires ext.travelDate.Undef? && ext.adultCount.Undef? && ext.destination_kana.Undef?
    ensures var s := Settle(info, ext, lastUser, lastAssistant);
      s.travelDate == info.travelDate && s.adultCount == info.adultCount && s.destination_kana == info.destination_kana
  {
    var m := Merge(TimeSync(info, ext), ext);
    assert m.travelDate == info.travelDate && m.adultCount == info.adultCount && m.destination_kana == info.destination_kana;
    HeuristicsOnlyConfirm(m, lastUser, lastAssistant);
    NormaliseEstablishes(ConfirmHeuristics(m, lastUser, lastAssistant), ext);
  }

  /** The search and the derivation write neither the date, nor the adult count, nor the destination reading. */
  lemma {:induction false} SearchAndDeriveKeepsHearing(s: TicketInfo, previousDestination: Nullable<string>,
    search: Result<seq<Route>, string>, searching: bool)
    ensures var r := SearchAndDerive(s, previousDestination, search, searching).0;
      r.travelDate == s.travelDate && r.adultCount == s.adultCount && r.destination_kana == s.destination_kana
  {
    SearchAndDeriveFrame(s, previousDestination, search, searching);
  }

  /** A cancellation installs the cancelled record; otherwise a confirmed ticket is issued at the end of the round. */
  lemma {:induction false} ExtractionIssuesConfirmed(info: TicketInfo, ext: TicketInfo, lastUser: Option<string>, lastAssistant: Option<string>,
    search: Result<seq<Route>, string>, searching: bool)
    ensures var (r, _) := Extraction(info, ext, lastUser, lastAssistant, search, searching);
      (ext.ticketConfirmed == Val(false) ==> r == CancelledRecord())
      && (r.ticketConfirmed == Val(true) ==> r.ticketIssued == Val(true))
  {
    var i1 := if BoolTruthy(ext.resetProposedRoute) then ClearProposal(info) else info;
    var e1 := ClearResetRequest(ext);
    if e1.ticketConfirmed != Val(false) {
      var m := Merge(TimeSync(i1, e1), e1);
      NormaliseEstablishes(ConfirmHeuristics(m, lastUser, lastAssistant), e1);
      var s := Settle(i1, e1, lastUser, lastAssistant);
      SearchAndDeriveFrame(s, i1.destination, search, searching);
    }
  }

  // ----- The conversation histories -----

  datatype ChatMessage = ChatMessage(role: string, content: string)

  /** The messages a history refers to (both histories hold the same message objects). */
  function Contents(store: map<nat, ChatMessage>, ids: seq<nat>): (r: seq<ChatMessage>)
    requires forall k :: 0 <= k < |ids| ==> ids[k] in store
    ensures |r| == |ids| && forall k :: 0 <= k < |ids| ==> r[k] == store[ids[k]]
  {
    if ids == [] then [] else Contents(store, ids[..|ids| - 1]) + [store[ids[|ids| - 1]]]
  }

  /** A history after a message is offered: unchanged when its last entry has the same role and content. */
  function AppendUnlessRepeat(h: seq<ChatMessage>, m: ChatMessage): seq<ChatMessage> {
    if h != [] && h[|h| - 1] == m then h else h + [m]
  }

  predicate NoAdjacentRepeat(h: seq<ChatMessage>) {
    forall k :: 0 < k < |h| ==> h[k - 1] != h[k]
  }

  /** Offering the same message twice adds it at most once, and no two neighbours are ever the same. */
  lemma {:induction false} AppendUnlessRepeatProperties(h: seq<ChatMessage>, m: ChatMessage)
    ensures AppendUnlessRepeat(AppendUnlessRepeat(h, m), m) == AppendUnlessRepeat(h, m)
    ensures NoAdjacentRepeat(h) ==> NoAdjacentRepeat(AppendUnlessRepeat(h, m))
    ensures var r := AppendUnlessRepeat(h, m); r != [] && r[|r| - 1] == m
  {
  }

  /** The last message of a role, searched from the end (`[...history].reverse().find`). */
  function LastContentWithRole(h: seq<ChatMessage>, role: string): Option<string> {
    if h == [] then None
    else if h[|h| - 1].role == role then Some(h[|h| - 1].content)
    else LastContentWithRole(h[..|h| - 1], role)
  }

  lemma {:induction false} LastContentWithRoleShape(h: seq<ChatMessage>, role: string)
    ensures LastContentWithRole(h, role).None? <==> forall k :: 0 <= k < |h| ==> h[k].role != role
    ensures LastContentWithRole(h, role).Some? ==>
      exists k :: 0 <= k < |h| && h[k].role == role && h[k].content == LastContentWithRole(h, role).value
        && forall j :: k < j < |h| ==> h[j].role != role
  {
    if h != [] && h[|h| - 1].role != role {
      var p := h[..|h| - 1];
      LastContentWithRoleShape(p, role);
      if LastContentWithRole(p, role).Some? {
        var k :| 0 <= k < |p| && p[k].role == role && p[k].content == LastContentWithRole(p, role).value
          && forall j :: k < j < |p| ==> p[j].role != role;
        assert h[k] == p[k];
        assert forall j :: k < j < |h| ==> h[j].role != role;
      }
    }
  }

  /** `convertLastUserMessage`: the content of the last message of the current phase is replaced. */
  function Converted(store: map<nat, ChatMessage>, ids: seq<nat>, v: Nullable<string>): map<nat, ChatMessage>
    requires ids != [] && ids[|ids| - 1] in store
  {
    if StrTruthy(v) then store[ids[|ids| - 1] := store[ids[|ids| - 1]].(content := v.value)] else store
  }

  lemma {:induction false} ContentsFresh(store: map<nat, ChatMessage>, ids: seq<nat>, id: nat, m: ChatMessage)
    requires forall k :: 0 <= k < |ids| ==> ids[k] in store
    requires id !in store
    ensures Contents(store[id := m], ids) == Contents(store, ids)
  {
  }

  /** Pushing the id of a new message object appends that message to the history's contents. */
  lemma {:induction false} ContentsPush(store: map<nat, ChatMessage>, ids: seq<nat>, id: nat, m: ChatMessage)
    requires forall k :: 0 <= k < |ids| ==> ids[k] in store
    requires id !in store
    ensures forall k :: 0 <= k < |ids + [id]| ==> (ids + [id])[k] in store[id := m]
    ensures Contents(store[id := m], ids + [id]) == Contents(store, ids) + [m]
  {
    ContentsFresh(store, ids, id, m);
    assert (ids + [id])[..|ids|] == ids;
  }

  /** The error an empty current-phase history causes when its last message is read. */
  const MissingMessageError := "Cannot read properties of undefined (reading 'content')"

  // ----- The manager -----

  class TicketSystemManager {
    var info: TicketInfo
    /** The message objects; both histories hold references to them. */
    var messages: map<nat, ChatMessage>
    var conversationHistory: seq<nat>
    var currentPhaseHistory: seq<nat>
    var nextId: nat
    var isExtracting: bool
    var isSearchingRoutes: bool
    var error: Nullable<string>
    var lastExtractedInfo: Option<TicketInfo>

    predicate Valid()
      reads this
    {
      (forall k :: 0 <= k < |conversationHistory| ==> conversationHistory[k] in messages)
      && (forall k :: 0 <= k < |currentPhaseHistory| ==> currentPhaseHistory[k] in messages)
      && (forall id :: id in messages ==> id < nextId)
    }

    /** The part of the state a hearing-state update leaves alone. */
    function Histories(): (map<nat, ChatMessage>, seq<nat>, seq<nat>, nat)
      reads this
    {
      (messages, conversationHistory, currentPhaseHistory, nextId)
    }

    constructor ()
      ensures Valid()
      ensures info == InitialRecord() && messages == map[] && conversationHistory == [] && currentPhaseHistory == []
      ensures !isExtracting && !isSearchingRoutes && error == Null && lastExtractedInfo.None?
    {
      info := InitialRecord();
      messages := map[];
      conversationHistory := [];
      currentPhaseHistory := [];
      nextId := 0;
      isExtracting := false;
      isSearchingRoutes := false;
      error := Null;
      lastExtractedInfo := None;
    }

    /** `addToConversationHistory`: one new message object, pushed onto both histories unless it repeats the last one. */
    method AddToConversationHistory(role: string, content: string)
      requires Valid()
      modifies this
      ensures Valid()
      ensures var m := ChatMessage(role, content);
        Contents(messages, conversationHistory) == AppendUnlessRepeat(old(Contents(messages, conversationHistory)), m)
        && Contents(messages, currentPhaseHistory) == old(Contents(messages, currentPhaseHistory))
          + (if Contents(messages, conversationHistory) == old(Contents(messages, conversationHistory)) then [] else [m])
      ensures |conversationHistory| - |old(conversationHistory)| == |currentPhaseHistory| - |old(currentPhaseHistory)|
      ensures info == old(info) && isExtracting == old(isExtracting) && isSearchingRoutes == old(isSearchingRoutes)
      ensures error == old(error) && lastExtractedInfo == old(lastExtractedInfo)
    {
      var m := ChatMessage(role, content);
      var before := Contents(messages, conversationHistory);
      var isDuplicate := |conversationHistory| > 0 && messages[conversationHistory[|conversationHistory| - 1]] == m;
      assert isDuplicate <==> before != [] && before[|before| - 1] == m;
      if !isDuplicate {
        assert nextId !in messages;
        ContentsPush(messages, conversationHistory, nextId, m);
        ContentsPush(messages, currentPhaseHistory, nextId, m);
        PushMessage(m);
        assert |Contents(messages, conversationHistory)| != |before|;
      }
    }

    /** One new message object, stored under a fresh id and pushed onto both histories. */
    method PushMessage(m: ChatMessage)
      requires Valid()
      modifies this
      ensures Valid() && old(nextId) !in old(messages)
      ensures messages == old(messages)[old(nextId) := m] && nextId == old(nextId) + 1
      ensures conversationHistory == old(conversationHistory) + [old(nextId)]
      ensures currentPhaseHistory == old(currentPhaseHistory) + [old(nextId)]
      ensures info == old(info) && isExtracting == old(isExtracting) && isSearchingRoutes == old(isSearchingRoutes)
      ensures error == old(error) && lastExtractedInfo == old(lastExtractedInfo)
    {
      var id := nextId;
      assert id !in messages;
      var store, conv, cur := messages[id := m], conversationHistory + [id], currentPhaseHistory + [id];
      assert forall k :: k in store ==> k < id + 1;
      messages, conversationHistory, currentPhaseHistory, nextId := store, conv, cur, id + 1;
    }

    /** `executeChangeTimengSincronize`. */
    method ExecuteChangeTimengSincronize(ext: TicketInfo)
      modifies this
      ensures info == TimeSync(old(info), ext)
      ensures Histories() == old(Histories()) && isExtracting == old(isExtracting)
      ensures isSearchingRoutes == old(isSearchingRoutes) && error == old(error) && lastExtractedInfo == old(lastExtractedInfo)
    {
      if (StrTruthy(ext.phase2_specificTime) && ext.phase2_specificTime != info.phase2_specificTime)
        || (StrTruthy(ext.phase2_timeSpecificationType) && ext.phase2_timeSpecificationType != info.phase2_timeSpecificationType)
      {
        if info.jobanZairaiExpressRoutes.Val? && |info.jobanZairaiExpressRoutes.value| == 0 {
          info := info.(phase2_useZairaiExpress := Val(false));
        } else {
          info := info.(phase2_useZairaiExpress := Null);
        }
        info := info.(proposedRoute := Null);
        info := info.(proposedRouteOK := Null);
        info := info.(proposedRouteRequest := Null);
      }
    }

    /** `processJobanExpressData`. */
    method ProcessJobanExpressData()
      modifies this
      ensures info == JobanData(old(info))
      ensures Histories() == old(Histories()) && isExtracting == old(isExtracting)
      ensures isSearchingRoutes == old(isSearchingRoutes) && error == old(error) && lastExtractedInfo == old(lastExtractedInfo)
    {
      if !info.routes.Val? || |info.routes.value| == 0 {
        return;
      }
      var routes := info.routes.value;
      var jobanExpressRoutes := ExtractJobanExpressRoutes(routes);
      info := info.(jobanExpressRoutes := Val(jobanExpressRoutes));
      if |jobanExpressRoutes| > 0 {
        var jobanZairaiExpressRoutes, sortedInput := ExtractJobanZairaiExpressRoutes(jobanExpressRoutes);
        // The legs arrays sorted in place are shared with the Joban routes and the searched routes.
        info := info.(jobanExpressRoutes := Val(sortedInput), routes := Val(SortJobanLegs(routes)));
        info := info.(jobanZairaiExpressRoutes := Val(jobanZairaiExpressRoutes));
        if |jobanZairaiExpressRoutes| == 0 {
          info := info.(phase2_useZairaiExpress := Val(false));
        } else {
          info := info.(phase2_useZairaiExpress := Null);
        }
      }
    }

    /** `searchRoutes`, with the service's answer for the destination as `search`. */
    method SearchRoutes(destination: string, search: Result<seq<Route>, string>)
      modifies this
      ensures isSearchingRoutes == old(isSearchingRoutes)
      ensures old(isSearchingRoutes) ==> info == old(info) && error == old(error)
      ensures !old(isSearchingRoutes) ==> (info, error) == SearchOutcome(old(info), old(error), search)
      ensures Histories() == old(Histories()) && isExtracting == old(isExtracting) && lastExtractedInfo == old(lastExtractedInfo)
    {
      if isSearchingRoutes {
        return;
      }
      isSearchingRoutes := true;
      match search {
        case Ok(rs) =>
          info := info.(routes := Val(rs));
          ProcessJobanExpressData();
        case Err(msg) =>
          error := Val(msg);
      }
      isSearchingRoutes := false;
    }

    /** `deriveInitialProposedZairaiExpress`; `thrown` says whether it threw. */
    method DeriveInitialProposedZairaiExpress(phase2_specificTime: string) returns (thrown: bool)
      modifies this
      ensures (info, thrown) == DeriveInitial(old(info), phase2_specificTime)
      ensures Histories() == old(Histories()) && isExtracting == old(isExtracting)
      ensures isSearchingRoutes == old(isSearchingRoutes) && error == old(error) && lastExtractedInfo == old(lastExtractedInfo)
    {
      thrown := false;
      if !info.jobanZairaiExpressRoutes.Val? || |info.jobanZairaiExpressRoutes.value| == 0 {
        return;
      }
      var spec := ClockValue(phase2_specificTime);
      var matchingRoutes := Matching(info.jobanZairaiExpressRoutes.value, spec);
      if |matchingRoutes| == 0 {
        return;
      }
      var targetRoute := TargetRoute(matchingRoutes, spec);
      info := info.(initialProposedRouteWithZairai := Val(targetRoute));
      var expressLegs := ExpressLegsLatestFirst(targetRoute.legs);
      if |expressLegs| == 0 {
        return true;
      }
      var lastExpressLeg := expressLegs[0];
      info := info.(initialProposedZairaiExpressSection := Val(lastExpressLeg));
      info := info.(zairaiExpressName := Val(lastExpressLeg.nickname));
      info := info.(zairaiExpressCategory := CategoryOf(lastExpressLeg));
    }

    /** The post-merge fix-ups, step by step. */
    method NormaliseAfterMerge(ext: TicketInfo)
      modifies this
      ensures info == Normalise(old(info), ext)
      ensures Histories() == old(Histories()) && isExtracting == old(isExtracting)
      ensures isSearchingRoutes == old(isSearchingRoutes) && error == old(error) && lastExtractedInfo == old(lastExtractedInfo)
    {
      if ext.phase2_confirmUnspecifiedSeat == Val(true) && !BoolTruthy(info.phase2_confirmed) {
        info := info.(phase2_confirmed := Val(true));
      }
      if StrTruthy(info.destination) {
        info := info.(destination := Val(StripStation(info.destination.value)));
      }
      if info.currentPhase == Val(BasicInfo) {
        if info.adultCount != Null && info.adultCount != Undef && info.childCount == Null {
          info := info.(childCount := Val(0));
        }
      }
      if info.ticketConfirmed == Val(true) && info.ticketIssued != Val(true) {
        info := info.(ticketIssued := Val(true));
      }
    }

    /**
     * `extractInformation`, with the extractor's answer as `extracted` (an error
     * message when it failed) and the route service's answer as `search`.
     */
    method ExtractInformation(extracted: Result<TicketInfo, string>, search: Result<seq<Route>, string>)
      requires Valid()
      modifies this
      ensures Valid()
      ensures isExtracting == old(isExtracting) && isSearchingRoutes == old(isSearchingRoutes)
      ensures conversationHistory == old(conversationHistory) && currentPhaseHistory == old(currentPhaseHistory)
      ensures old(isExtracting) ==> (info == old(info) && error == old(error) && messages == old(messages)
        && lastExtractedInfo == old(lastExtractedInfo))
      ensures !old(isExtracting) && old(currentPhaseHistory) == [] ==>
        info == old(info) && error == Val(MissingMessageError) && messages == old(messages)
        && lastExtractedInfo == old(lastExtractedInfo)
      ensures !old(isExtracting) && old(currentPhaseHistory) != [] && extracted.Err? ==>
        info == old(info) && error == Val(extracted.error) && messages == old(messages)
        && lastExtractedInfo == old(lastExtractedInfo)
      ensures !old(isExtracting) && old(currentPhaseHistory) != [] && extracted.Ok? ==>
        messages == Converted(old(messages), old(currentPhaseHistory), extracted.value.convertLastUserMessage)
        && lastExtractedInfo == (if ClearResetRequest(extracted.value).ticketConfirmed == Val(false)
          then old(lastExtractedInfo) else Some(ClearResetRequest(extracted.value)))
        && var h := Contents(messages, currentPhaseHistory);
          (info, error) == Extraction(old(info), extracted.value, LastContentWithRole(h, "user"),
            LastContentWithRole(h, "assistant"), search, old(isSearchingRoutes))
    {
      if isExtracting {
        return;
      }
      isExtracting := true;
      error := Null;
      if |currentPhaseHistory| == 0 {
        error := Val(MissingMessageError);
        isExtracting := false;
        return;
      }
      if extracted.Err? {
        error := Val(extracted.error);
        isExtracting := false;
        return;
      }
      ApplyExtracted(extracted.value, search);
      isExtracting := false;
    }

    /** The body of the `try` once the extractor has answered `ext`. */
    method ApplyExtracted(ext: TicketInfo, search: Result<seq<Route>, string>)
      requires Valid() && currentPhaseHistory != [] && error == Null
      modifies this
      ensures Valid()
      ensures isExtracting == old(isExtracting) && isSearchingRoutes == old(isSearchingRoutes)
      ensures conversationHistory == old(conversationHistory) && currentPhaseHistory == old(currentPhaseHistory)
      ensures nextId == old(nextId)
      ensures messages == Converted(old(messages), old(currentPhaseHistory), ext.convertLastUserMessage)
      ensures lastExtractedInfo == if ClearResetRequest(ext).ticketConfirmed == Val(false) then old(lastExtractedInfo)
        else Some(ClearResetRequest(ext))
      ensures var h := Contents(messages, currentPhaseHistory);
        (info, error) == Extraction(old(info), ext, LastContentWithRole(h, "user"),
          LastContentWithRole(h, "assistant"), search, old(isSearchingRoutes))
    {
      var e1 := ResetAndConvert(ext);
      ContinueExtraction(e1, search);
    }

    /** The reset request and the conversion of the last user message. */
    method ResetAndConvert(ext: TicketInfo) returns (e1: TicketInfo)
      requires Valid() && currentPhaseHistory != []
      modifies this
      ensures Valid() && e1 == ClearResetRequest(ext)
      ensures info == if BoolTruthy(ext.resetProposedRoute) then ClearProposal(old(info)) else old(info)
      ensures messages == Converted(old(messages), old(currentPhaseHistory), ext.convertLastUserMessage)
      ensures isExtracting == old(isExtracting) && isSearchingRoutes == old(isSearchingRoutes)
      ensures conversationHistory == old(conversationHistory) && currentPhaseHistory == old(currentPhaseHistory)
      ensures nextId == old(nextId) && error == old(error) && lastExtractedInfo == old(lastExtractedInfo)
    {
      e1 := ext;
      if BoolTruthy(e1.resetProposedRoute) {
        info := ClearProposal(info);
        e1 := e1.(resetProposedRoute := Null);
      }
      if StrTruthy(e1.convertLastUserMessage) {
        var id := currentPhaseHistory[|currentPhaseHistory| - 1];
        messages := messages[id := messages[id].(content := e1.convertLastUserMessage.value)];
      }
    }

    /** Everything after the reset request and the message conversion. */
    method ContinueExtraction(ext: TicketInfo, search: Result<seq<Route>, string>)
      requires Valid() && error == Null
      modifies this
      ensures Histories() == old(Histories()) && isExtracting == old(isExtracting)
      ensures isSearchingRoutes == old(isSearchingRoutes)
      ensures lastExtractedInfo == if ext.ticketConfirmed == Val(false) then old(lastExtractedInfo) else Some(ext)
      ensures var h := Contents(messages, currentPhaseHistory);
        (info, error) == AfterResetRequest(old(info), ext, LastContentWithRole(h, "user"),
          LastContentWithRole(h, "assistant"), search, old(isSearchingRoutes))
    {
      if ext.ticketConfirmed == Val(false) {
        info := CancelledRecord();
        return;
      }
      var previousDestination := info.destination;
      MergeAndSettle(ext);
      SearchAndDeriveStep(previousDestination, search);
    }

    /** From the time cascade to the post-merge fix-ups. */
    method MergeAndSettle(ext: TicketInfo)
      requires Valid()
      modifies this
      ensures Histories() == old(Histories()) && isExtracting == old(isExtracting)
      ensures var h := Contents(messages, currentPhaseHistory);
        info == Settle(old(info), ext, LastContentWithRole(h, "user"), LastContentWithRole(h, "assistant"))
      ensures lastExtractedInfo == Some(ext)
      ensures isSearchingRoutes == old(isSearchingRoutes) && error == old(error)
    {
      ExecuteChangeTimengSincronize(ext);
      info := Merge(info, ext);
      lastExtractedInfo := Some(ext);
      var history := Contents(messages, currentPhaseHistory);
      info := ConfirmHeuristics(info, LastContentWithRole(history, "user"), LastContentWithRole(history, "assistant"));
      NormaliseAfterMerge(ext);
    }

    /** The route search for a new destination, then the initial proposal, each caught on its own. */
    method SearchAndDeriveStep(previousDestination: Nullable<string>, search: Result<seq<Route>, string>)
      requires error == Null
      modifies this
      ensures (info, error) == SearchAndDerive(old(info), previousDestination, search, old(isSearchingRoutes))
      ensures Histories() == old(Histories()) && isExtracting == old(isExtracting)
      ensures isSearchingRoutes == old(isSearchingRoutes) && lastExtractedInfo == old(lastExtractedInfo)
    {
      if StrTruthy(info.destination) && info.destination != previousDestination {
        SearchRoutes(info.destination.value, search);
      }
      if DeriveApplies(info) {
        var _ := DeriveInitialProposedZairaiExpress(info.phase2_specificTime.value);
      }
    }

    /** `reset`: the reset record, empty histories, flags and error cleared. */
    method Reset()
      requires Valid()
      modifies this
      ensures Valid()
      ensures info == ResetRecord() && conversationHistory == [] && currentPhaseHistory == []
      ensures !isExtracting && !isSearchingRoutes && error == Null && lastExtractedInfo.None?
      ensures messages == old(messages) && nextId == old(nextId)
    {
      info := ResetRecord();
      conversationHistory := [];
      currentPhaseHistory := [];
      isExtracting := false;
      isSearchingRoutes := false;
      error := Null;
      lastExtractedInfo := None;
    }
  }
}
