/**
 * The deterministic helpers of the conversation hooks that run before each
 * assistant reply: clock arithmetic, route queries, the zairai (non-Joban)
 * limited-express scan, the train-name classification, the one-earlier /
 * one-later neighbour choice, and the basic-information question order.
 */
module ConversationHooks {
  import opened Wrappers
  import opened JsText
  import opened ClockText
  import opened StableSort
  import opened RouteModel
  import opened TicketTypes
  import opened Sequences

  // ----- Clock helpers -----

  /** `timeToMinutes`: hours * 60 + minutes of the first clock in the text, 0 without one. */
  function TimeToMinutes(time: string): (r: nat)
    ensures FindClock(time, 0).None? ==> r == 0
  {
    match FindClock(time, 0)
    case None => 0
    case Some(c) => c.hours * 60 + c.minutes
  }

  /** `pad`: a number below 10 gets a leading zero. */
  function Pad(n: nat): string {
    if n < 10 then "0" + NatToString(n) else NatToString(n)
  }

  lemma {:induction false} PadTwoDigits(n: nat)
    requires n < 100
    ensures |Pad(n)| == 2 && IsDigit(Pad(n)[0]) && IsDigit(Pad(n)[1])
    ensures DigitValue(Pad(n)[0]) * 10 + DigitValue(Pad(n)[1]) == n
  {
    if n >= 10 {
      assert NatToString(n) == NatToString(n / 10) + [DigitChar(n % 10)];
    }
  }

  /** `minutesToHHMM`: the minute count wrapped into one day, printed as `HH:MM`. */
  function MinutesToHHMM(mins: int): (r: string)
    ensures |r| == 5 && IsClock(r)
  {
    var m := JsRem(JsRem(mins, 1440) + 1440, 1440);
    PadTwoDigits(m / 60);
    PadTwoDigits(m % 60);
    Pad(m / 60) + ":" + Pad(m % 60)
  }

  /** The printed clock denotes the minute count modulo one day. */
  lemma {:induction false} MinutesToHHMMDenotes(mins: int)
    ensures var r := MinutesToHHMM(mins);
      (DigitValue(r[0]) * 10 + DigitValue(r[1])) * 60 + DigitValue(r[3]) * 10 + DigitValue(r[4]) == mins % 1440
      && DigitValue(r[3]) * 10 + DigitValue(r[4]) < 60
  {
    var m := JsRem(JsRem(mins, 1440) + 1440, 1440);
    JsRemDay(mins);
    PadTwoDigits(m / 60);
    PadTwoDigits(m % 60);
    var r := MinutesToHHMM(mins);
    assert r[..2] == Pad(m / 60) && r[3..] == Pad(m % 60);
    assert r[0] == Pad(m / 60)[0] && r[1] == Pad(m / 60)[1];
    assert r[3] == Pad(m % 60)[0] && r[4] == Pad(m % 60)[1];
  }

  /** Round trip: reading back a printed minute count gives it modulo one day. */
  lemma {:induction false} TimeToMinutesOfMinutesToHHMM(mins: int)
    ensures TimeToMinutes(MinutesToHHMM(mins)) == mins % 1440
  {
    MinutesToHHMMDenotes(mins);
    var r := MinutesToHHMM(mins);
    assert ClockAt(r, 0).Some?;
  }

  /** `trimToHHMM`: a missing time is "", a string loses a trailing `:SS`. */
  function TrimToHHMM(time: Nullable<string>): (r: string)
    ensures time.Val? ==> r == HourMinute(time.value)
    ensures time.IsNullish() ==> r == []
  {
    if time.Val? then HourMinute(time.value) else []
  }

  /** `getDepartureTimeFromMito`: the route's departure time as `H:MM`/`HH:MM` when it has that shape. */
  function GetDepartureTimeFromMito(route: Route): string {
    HourMinute(route.departureTime)
  }

  /** `getArrivalTimeAtDestination`: `null` for an empty arrival time. */
  function GetArrivalTimeAtDestination(route: Route): (r: Option<string>)
    ensures r.None? <==> route.arrivalTime == []
    ensures r.Some? ==> r.value == HourMinute(route.arrivalTime) && r.value != []
  {
    HourMinuteEmpty(route.arrivalTime);
    if route.arrivalTime == [] then None else Some(HourMinute(route.arrivalTime))
  }

  /** The leg whose arrival station `getArrivalTimeAtStation` stops at. */
  predicate ArrivesAt(leg: RouteLeg, stationName: string) {
    leg.to.name != [] && Contains(leg.to.name, stationName)
  }

  /** `getArrivalTimeAtStation`: the arrival time of the first leg whose arrival station contains the name. */
  method GetArrivalTimeAtStation(route: Route, stationName: string) returns (r: Option<string>)
    ensures r.None? <==> forall i :: 0 <= i < |route.legs| ==> !ArrivesAt(route.legs[i], stationName)
    ensures r.Some? ==> exists i :: (0 <= i < |route.legs| && ArrivesAt(route.legs[i], stationName)
      && (forall j :: 0 <= j < i ==> !ArrivesAt(route.legs[j], stationName))
      && r.value == HourMinute(route.legs[i].to.time))
  {
    var i := 0;
    while i < |route.legs|
      invariant 0 <= i <= |route.legs|
      invariant forall j :: 0 <= j < i ==> !ArrivesAt(route.legs[j], stationName)
    {
      var leg := route.legs[i];
      if ArrivesAt(leg, stationName) {
        return Some(TrimToHHMM(Val(leg.to.time)));
      }
      i := i + 1;
    }
    return None;
  }

  // ----- Route queries -----

  /** `hasJobanExpressLeg`: the route carries a non-empty Joban-express section. */
  predicate HasJobanExpressLeg(route: Route) {
    route.jobanExpressLegs.Some? && |route.jobanExpressLegs.value| > 0
  }

  /** A zairai limited express that ends its through-running at its arrival station. */
  predicate EndsZairaiRun(leg: RouteLeg) { IsZairaiExpress(leg) && leg.to.directFlag == "0" }

  /** The highest index below `k` of a leg that ends a zairai run. */
  function LastRunEnd(s: seq<RouteLeg>, k: nat): (r: Option<nat>)
    requires k <= |s|
    ensures r.Some? ==> (r.value < k && EndsZairaiRun(s[r.value])
      && forall j :: r.value < j < k ==> !EndsZairaiRun(s[j]))
    ensures r.None? ==> forall j :: 0 <= j < k ==> !EndsZairaiRun(s[j])
  {
    if k == 0 then None else if EndsZairaiRun(s[k - 1]) then Some(k - 1) else LastRunEnd(s, k - 1)
  }

  /**
   * The inner backward scan: from index `k - 1` down, every zairai express is
   * put in front, until one boards with `from.directFlag` "0".
   */
  function RunLead(s: seq<RouteLeg>, k: nat): seq<RouteLeg>
    requires k <= |s|
  {
    if k == 0 then []
    else if IsZairaiExpress(s[k - 1]) then
      if s[k - 1].from.directFlag == "0" then [s[k - 1]] else RunLead(s, k - 1) + [s[k - 1]]
    else RunLead(s, k - 1)
  }

  /** The result of `getLastZairaiExpressLegs` on legs already sorted by `seq`. */
  function LastZairaiRun(s: seq<RouteLeg>, needExpress: bool): Option<seq<RouteLeg>> {
    if !needExpress then
      if s == [] then None else Some([s[|s| - 1]])
    else
      match LastRunEnd(s, |s|)
      case None => None
      case Some(i) => Some((if s[i].from.directFlag != "0" then RunLead(s, i) else []) + [s[i]])
  }

  /** `getLastZairaiExpressLegs` specified on the route: it scans a sorted copy of the legs. */
  function LastZairaiExpressLegs(route: Route, needExpress: bool): Option<seq<RouteLeg>> {
    LastZairaiRun(SortLegs(route.legs), needExpress)
  }

  /**
   * `getLastZairaiExpressLegs`: sorts a copy of the legs by `seq`, finds the last
   * zairai express that ends its run, and collects the zairai expresses before it
   * back to the one that starts the run. `route.legs` itself is not reordered.
   */
  method GetLastZairaiExpressLegs(route: Route, needExpress: bool) returns (r: Option<seq<RouteLeg>>)
    ensures r == LastZairaiExpressLegs(route, needExpress)
  {
    var sorted := SortLegs(route.legs);
    var collected: seq<RouteLeg> := [];
    var i := |sorted| - 1;
    while i >= 0
      invariant -1 <= i < |sorted|
      invariant needExpress ==> LastRunEnd(sorted, |sorted|) == LastRunEnd(sorted, i + 1)
      invariant !needExpress ==> i == |sorted| - 1
      invariant collected == []
    {
      if needExpress {
        if IsZairaiExpress(sorted[i]) && sorted[i].to.directFlag == "0" {
          var front: seq<RouteLeg> := [];
          if sorted[i].from.directFlag != "0" {
            var j := i - 1;
            var done := false;
            while j >= 0 && !done
              invariant -1 <= j < i
              invariant !done ==> RunLead(sorted, i) == RunLead(sorted, j + 1) + front
              invariant done ==> RunLead(sorted, i) == front
            {
              if IsZairaiExpress(sorted[j]) {
                front := [sorted[j]] + front;
                if sorted[j].from.directFlag == "0" {
                  done := true;
                }
              }
              j := j - 1;
            }
            if !done {
              assert j == -1;
            }
          }
          assert front == (if sorted[i].from.directFlag != "0" then RunLead(sorted, i) else []);
          assert LastRunEnd(sorted, |sorted|) == Some(i);
          collected := front + [sorted[i]];
          return Some(collected);
        }
      } else {
        assert LastZairaiRun(sorted, false) == Some([sorted[i]]);
        collected := collected + [sorted[i]];
        assert !needExpress && collected == [sorted[i]];
        assert LastZairaiExpressLegs(route, needExpress) == Some(collected);
        return Some(collected);
      }
      i := i - 1;
    }
    return None;
  }

  lemma {:induction false} RunLeadShape(s: seq<RouteLeg>, k: nat)
    requires k <= |s|
    ensures forall x :: x in RunLead(s, k) ==> IsZairaiExpress(x) && x in s[..k]
    ensures AscendingSeq(s) ==> AscendingSeq(RunLead(s, k))
  {
    if k > 0 {
      RunLeadShape(s, k - 1);
      assert s[..k - 1] <= s[..k];
      if IsZairaiExpress(s[k - 1]) && s[k - 1].from.directFlag != "0" && AscendingSeq(s) {
        var u := RunLead(s, k - 1);
        var v := u + [s[k - 1]];
        forall a, b | 0 <= a < b < |v| ensures v[a].seqNo <= v[b].seqNo {
          if b == |u| {
            assert v[a] == u[a];
            assert u[a] in s[..k - 1];
          }
        }
      }
    }
  }

  /** Every leg of the result is a zairai express, in ascending `seq`, and the last one ends its run. */
  lemma {:induction false} LastZairaiExpressLegsShape(route: Route)
    ensures var r := LastZairaiExpressLegs(route, true);
      r.Some? ==> (|r.value| > 0 && r.value[|r.value| - 1].to.directFlag == "0"
        && AscendingSeq(r.value) && forall x :: x in r.value ==> IsZairaiExpress(x) && x in route.legs)
  {
    var s := SortLegs(route.legs);
    SortLegsAscending(route.legs);
    match LastRunEnd(s, |s|)
    case None =>
    case Some(i) =>
      var lead := if s[i].from.directFlag != "0" then RunLead(s, i) else [];
      RunLeadShape(s, i);
      var r := lead + [s[i]];
      forall a, b | 0 <= a < b < |r| ensures r[a].seqNo <= r[b].seqNo {
        if b == |r| - 1 {
          assert r[a] in s[..i];
        }
      }
      forall x | x in r ensures IsZairaiExpress(x) && x in route.legs {
        assert x in s;
        assert x in multiset(s);
      }
  }

  /** There is no result exactly when no leg is a zairai express that ends its run. */
  lemma {:induction false} LastZairaiExpressLegsNone(route: Route)
    ensures LastZairaiExpressLegs(route, true).None? <==> forall x :: x in route.legs ==> !EndsZairaiRun(x)
  {
    var s := SortLegs(route.legs);
    SortLegsAscending(route.legs);
    if LastRunEnd(s, |s|).None? {
      forall x | x in route.legs ensures !EndsZairaiRun(x) {
        assert x in multiset(s);
      }
    } else {
      assert s[LastRunEnd(s, |s|).value] in multiset(route.legs);
    }
  }

  /** Without `needExpress` the result is the single leg with the highest `seq`. */
  lemma {:induction false} LastLegWithoutNeedExpress(route: Route)
    ensures var r := LastZairaiExpressLegs(route, false);
      (r.None? <==> route.legs == [])
      && (r.Some? ==> (|r.value| == 1 && r.value[0] in route.legs
        && forall x :: x in route.legs ==> x.seqNo <= r.value[0].seqNo))
  {
    var s := SortLegs(route.legs);
    SortLegsAscending(route.legs);
    if s != [] {
      assert s[|s| - 1] in multiset(route.legs);
      forall x | x in route.legs ensures x.seqNo <= s[|s| - 1].seqNo {
        assert x in multiset(s);
      }
    }
  }

  /** `hasZairaiExpressLeg`: `getLastZairaiExpressLegs` finds a section. */
  method HasZairaiExpressLeg(route: Route) returns (r: bool)
    ensures r <==> exists x :: x in route.legs && EndsZairaiRun(x)
  {
    var legs := GetLastZairaiExpressLegs(route, true);
    LastZairaiExpressLegsNone(route);
    r := legs.Some?;
  }

  // ----- Train-name classification -----

  const ChuoTrains: seq<string> := ["あずさ", "かいじ"]
  const TokaidoTrains: seq<string> := ["踊り子", "湘南", "サフィール踊り子"]
  const ChibaTrains: seq<string> := ["成田エクスプレス", "しおさい", "わかしお", "さざなみ"]
  const NaganoNikkoTrains: seq<string> := ["草津・四万", "きぬがわ", "スペーシア日光"]

  /** `includesAny`: some keyword, lower-cased, occurs in the name. */
  predicate IncludesAny(name: string, keys: seq<string>) {
    exists k :: 0 <= k < |keys| && Contains(name, ToLower(keys[k]))
  }

  /**
   * `deriveZairaiExpressCategory`: the line category of a train name, by
   * case-insensitive substring match in the fixed priority order.
   */
  function DeriveZairaiExpressCategory(trainNameRaw: string): (r: Option<string>)
    ensures r.None? <==> forall keys :: (keys in [ChuoTrains, TokaidoTrains, ChibaTrains, NaganoNikkoTrains]
      ==> !IncludesAny(ToLower(trainNameRaw), keys))
    ensures r == Some("中央線") <==> IncludesAny(ToLower(trainNameRaw), ChuoTrains)
    ensures r == Some("東海道線") <==> (!IncludesAny(ToLower(trainNameRaw), ChuoTrains)
      && IncludesAny(ToLower(trainNameRaw), TokaidoTrains))
  {
    var name := ToLower(trainNameRaw);
    if IncludesAny(name, ChuoTrains) then Some("中央線")
    else if IncludesAny(name, TokaidoTrains) then Some("東海道線")
    else if IncludesAny(name, ChibaTrains) then Some("千葉方面")
    else if IncludesAny(name, NaganoNikkoTrains) then Some("永野日光")
    else None
  }

  lemma {:induction false} ToLowerIdempotent(s: string)
    ensures ToLower(ToLower(s)) == ToLower(s)
  {
    assert forall k :: 0 <= k < |s| ==> LowerChar(LowerChar(s[k])) == LowerChar(s[k]);
  }

  /** The classification ignores ASCII case. */
  lemma {:induction false} CategoryIgnoresCase(trainNameRaw: string)
    ensures DeriveZairaiExpressCategory(ToLower(trainNameRaw)) == DeriveZairaiExpressCategory(trainNameRaw)
  {
    ToLowerIdempotent(trainNameRaw);
  }

  /** A name mentioning あずさ is a Chuo-line train, whatever else it mentions. */
  lemma {:induction false} AzusaIsChuo(pre: string, post: string)
    ensures DeriveZairaiExpressCategory(pre + "あずさ" + post) == Some("中央線")
  {
    var s := pre + "あずさ" + post;
    var name := ToLower(s);
    assert ToLower(ChuoTrains[0]) == "あずさ";
    assert name[|pre|..|pre| + 3] == "あずさ";
    assert IsAt(name, ToLower(ChuoTrains[0]), |pre|);
  }

  // ----- One earlier / one later neighbour before the LLM step -----

  /** A route whose departure and arrival times are both non-empty (`if (!routeDep || !routeArr) return false`). */
  predicate Timed(route: Route) {
    GetDepartureTimeFromMito(route) != [] && GetArrivalTimeAtDestination(route).Some?
  }

  function DepMinutes(route: Route): nat { TimeToMinutes(GetDepartureTimeFromMito(route)) }

  function ArrMinutes(route: Route): nat { TimeToMinutes(HourMinute(route.arrivalTime)) }

  /** The filter for the "earlier" list: the current route's id, or a different pair of times arriving earlier. */
  predicate KeepEarlier(route: Route, cur: Route) {
    Timed(route) && (route.id == cur.id
      || (!(DepMinutes(route) == DepMinutes(cur) && ArrMinutes(route) == ArrMinutes(cur))
        && ArrMinutes(route) < ArrMinutes(cur)))
  }

  /** The filter for the "later" list: the current route's id, or a different pair of times departing later. */
  predicate KeepLater(route: Route, cur: Route) {
    Timed(route) && (route.id == cur.id
      || (!(DepMinutes(route) == DepMinutes(cur) && ArrMinutes(route) == ArrMinutes(cur))
        && DepMinutes(route) > DepMinutes(cur)))
  }

  /** The comparator: departure minutes, then duration. */
  function DepDurKey(route: Route): (int, int) { (DepMinutes(route), route.duration) }

  function EarlierList(routes: seq<Route>, cur: Route): seq<Route> {
    SortBy(Filter(routes, (x: Route) => KeepEarlier(x, cur)), DepDurKey)
  }

  function LaterList(routes: seq<Route>, cur: Route): seq<Route> {
    SortBy(Filter(routes, (x: Route) => KeepLater(x, cur)), DepDurKey)
  }

  /** `findIndex(route => route.id === id)`. */
  function IndexOfId(s: seq<Route>, id: string): (r: int)
    ensures -1 <= r < |s|
    ensures r >= 0 ==> s[r].id == id && forall k :: 0 <= k < r ==> s[k].id != id
    ensures r == -1 ==> forall k :: 0 <= k < |s| ==> s[k].id != id
  {
    if s == [] then -1
    else if s[0].id == id then 0
    else var t := IndexOfId(s[1..], id); if t == -1 then -1 else t + 1
  }

  /** The element just before the first one with the id. */
  function Predecessor(s: seq<Route>, id: string): Option<Route> {
    var i := IndexOfId(s, id);
    if i > 0 then Some(s[i - 1]) else None
  }

  /** The element just after the first one with the id. */
  function Successor(s: seq<Route>, id: string): Option<Route> {
    var i := IndexOfId(s, id);
    if i != -1 && i < |s| - 1 then Some(s[i + 1]) else None
  }

  datatype Proposal =
    | NotAttempted            // no proposed route or no route list: `return null`
    | NoArrival               // `timeToMinutes(null)` throws a TypeError
    | NoAlternative           // the apology is pushed and `null` returned
    | Alternatives(earlier: Option<Route>, later: Option<Route>)  // handed on to the LLM step

  const NoAlternativeApology := "申し訳ございません。ご希望の条件では、現在ご提案しているご要望に即した経路はございません。早い、遅いといったご要望をもう一度お教えいただけますか？それとも先ほどのご提案でよろしいでしょうか？"

  /** What the neighbour selection decides. */
  function AlternativeProposal(proposed: Option<Route>, expressRoutes: Option<seq<Route>>): Proposal {
    if proposed.None? || expressRoutes.None? then NotAttempted
    else if GetArrivalTimeAtDestination(proposed.value).None? then NoArrival
    else
      var earlier := Predecessor(EarlierList(expressRoutes.value, proposed.value), proposed.value.id);
      var later := Successor(LaterList(expressRoutes.value, proposed.value), proposed.value.id);
      if earlier.None? && later.None? then NoAlternative else Alternatives(earlier, later)
  }

  method FindIndexById(s: seq<Route>, id: string) returns (i: int)
    ensures i == IndexOfId(s, id)
  {
    i := 0;
    while i < |s|
      invariant 0 <= i <= |s|
      invariant forall k :: 0 <= k < i ==> s[k].id != id
    {
      if s[i].id == id {
        return;
      }
      i := i + 1;
    }
    i := -1;
  }

  /**
   * The deterministic part of `proposeAlternativeRoute`: filter, sort by
   * departure then duration, and take the neighbours of the current route.
   */
  method ProposeAlternativeRoute(proposed: Option<Route>, expressRoutes: Option<seq<Route>>, nextActions: seq<string>)
    returns (r: Proposal, actions: seq<string>)
    ensures r == AlternativeProposal(proposed, expressRoutes)
    ensures actions == nextActions + (if r.NoAlternative? then [NoAlternativeApology] else [])
  {
    actions := nextActions;
    if proposed.None? || expressRoutes.None? {
      return NotAttempted, actions;
    }
    var cur := proposed.value;
    if GetArrivalTimeAtDestination(cur).None? {
      return NoArrival, actions;
    }
    var earlier := PickEarlier(expressRoutes.value, cur);
    var later := PickLater(expressRoutes.value, cur);
    if earlier.None? && later.None? {
      actions := actions + [NoAlternativeApology];
      return NoAlternative, actions;
    }
    return Alternatives(earlier, later), actions;
  }

  /** The route just before the current one among the earlier candidates. */
  method PickEarlier(routes: seq<Route>, cur: Route) returns (earlier: Option<Route>)
    ensures earlier == Predecessor(EarlierList(routes, cur), cur.id)
  {
    earlier := None;
    var sortedEarlier := EarlierList(routes, cur);
    var i := FindIndexById(sortedEarlier, cur.id);
    if i > 0 {
      earlier := Some(sortedEarlier[i - 1]);
    }
  }

  /** The route just after the current one among the later candidates. */
  method PickLater(routes: seq<Route>, cur: Route) returns (later: Option<Route>)
    ensures later == Successor(LaterList(routes, cur), cur.id)
  {
    later := None;
    var sortedLater := LaterList(routes, cur);
    var j := FindIndexById(sortedLater, cur.id);
    if j != -1 && j < |sortedLater| - 1 {
      later := Some(sortedLater[j + 1]);
    }
  }

  /** The same-times exclusion is implied by the strict comparison. */
  lemma {:induction false} KeepEarlierSimplified(route: Route, cur: Route)
    ensures KeepEarlier(route, cur) <==> Timed(route) && (route.id == cur.id || ArrMinutes(route) < ArrMinutes(cur))
    ensures KeepLater(route, cur) <==> Timed(route) && (route.id == cur.id || DepMinutes(route) > DepMinutes(cur))
  {
  }

  /** In a list sorted by key, the element before position `i` and the one at it enclose no other key. */
  lemma {:induction false} Adjacent(s: seq<Route>, i: nat, x: Route)
    requires 0 < i < |s| && SortedBy(s, DepDurKey) && x in multiset(s)
    ensures KeyLe(DepDurKey(x), DepDurKey(s[i - 1])) || KeyLe(DepDurKey(s[i]), DepDurKey(x))
  {
    var k :| 0 <= k < |s| && s[k] == x;
    if k < i - 1 {
      assert KeyLe(DepDurKey(s[k]), DepDurKey(s[i - 1]));
    } else if k > i {
      assert KeyLe(DepDurKey(s[i]), DepDurKey(s[k]));
    }
  }

  /**
   * The "earlier" candidate is a different route of the list that arrives
   * before the current one and sorts immediately before the current route's
   * entry: no kept route sorts strictly between the two.
   */
  lemma {:induction false} EarlierIsImmediatePredecessor(routes: seq<Route>, cur: Route)
    requires Predecessor(EarlierList(routes, cur), cur.id).Some?
    ensures var e := Predecessor(EarlierList(routes, cur), cur.id).value;
      e in routes && Timed(e) && e.id != cur.id && ArrMinutes(e) < ArrMinutes(cur)
      && exists c :: (c in routes && c.id == cur.id && KeepEarlier(c, cur)
        && KeyLe(DepDurKey(e), DepDurKey(c))
        && forall x :: x in routes && KeepEarlier(x, cur) ==>
          KeyLe(DepDurKey(x), DepDurKey(e)) || KeyLe(DepDurKey(c), DepDurKey(x)))
  {
    var p := (x: Route) => KeepEarlier(x, cur);
    var f := Filter(routes, p);
    var s := EarlierList(routes, cur);
    SortBySorted(f, DepDurKey);
    SortByPermutes(f, DepDurKey);
    var i := IndexOfId(s, cur.id);
    var e := s[i - 1];
    var c := s[i];
    assert e in multiset(f) && c in multiset(f);
    FilterMember(routes, p, e);
    FilterMember(routes, p, c);
    forall x | x in routes && KeepEarlier(x, cur)
      ensures KeyLe(DepDurKey(x), DepDurKey(e)) || KeyLe(DepDurKey(c), DepDurKey(x))
    {
      FilterMember(routes, p, x);
      Adjacent(s, i, x);
    }
  }

  /**
   * The "later" candidate is a route of the list that sorts immediately after
   * the current route's entry; when its id differs, it departs later.
   */
  lemma {:induction false} LaterIsImmediateSuccessor(routes: seq<Route>, cur: Route)
    requires Successor(LaterList(routes, cur), cur.id).Some?
    ensures var l := Successor(LaterList(routes, cur), cur.id).value;
      l in routes && Timed(l) && (l.id != cur.id ==> DepMinutes(l) > DepMinutes(cur))
      && exists c :: (c in routes && c.id == cur.id && KeepLater(c, cur)
        && KeyLe(DepDurKey(c), DepDurKey(l))
        && forall x :: x in routes && KeepLater(x, cur) ==>
          KeyLe(DepDurKey(x), DepDurKey(c)) || KeyLe(DepDurKey(l), DepDurKey(x)))
  {
    var p := (x: Route) => KeepLater(x, cur);
    var f := Filter(routes, p);
    var s := LaterList(routes, cur);
    SortBySorted(f, DepDurKey);
    SortByPermutes(f, DepDurKey);
    var i := IndexOfId(s, cur.id);
    var c := s[i];
    var l := s[i + 1];
    assert l in multiset(f) && c in multiset(f);
    FilterMember(routes, p, l);
    FilterMember(routes, p, c);
    forall x | x in routes && KeepLater(x, cur)
      ensures KeyLe(DepDurKey(x), DepDurKey(c)) || KeyLe(DepDurKey(l), DepDurKey(x))
    {
      FilterMember(routes, p, x);
      Adjacent(s, i + 1, x);
    }
  }

  /** The apology is given exactly when neither neighbour exists. */
  lemma {:induction false} ApologyIffNoNeighbour(proposed: Route, routes: seq<Route>)
    requires GetArrivalTimeAtDestination(proposed).Some?
    ensures AlternativeProposal(Some(proposed), Some(routes)).NoAlternative? <==>
      Predecessor(EarlierList(routes, proposed), proposed.id).None?
      && Successor(LaterList(routes, proposed), proposed.id).None?
  {
  }

  /** When the current route is itself in the list, it is kept by both filters. */
  lemma {:induction false} CurrentRouteKept(routes: seq<Route>, cur: Route)
    requires cur in routes && GetDepartureTimeFromMito(cur) != [] && GetArrivalTimeAtDestination(cur).Some?
    ensures IndexOfId(EarlierList(routes, cur), cur.id) >= 0
    ensures IndexOfId(LaterList(routes, cur), cur.id) >= 0
  {
    var pe := (x: Route) => KeepEarlier(x, cur);
    var pl := (x: Route) => KeepLater(x, cur);
    FilterMember(routes, pe, cur);
    FilterMember(routes, pl, cur);
    SortByPermutes(Filter(routes, pe), DepDurKey);
    SortByPermutes(Filter(routes, pl), DepDurKey);
    assert cur in multiset(EarlierList(routes, cur));
    assert cur in multiset(LaterList(routes, cur));
  }

  // ----- The basic-information phase -----

  datatype InjectionMessage = InjectionMessage(content: string, role: string, timing: string)

  /** Template interpolation of an optional string. */
  function Interp(v: Nullable<string>): string {
    match v
    case Undef => "undefined"
    case Null => "null"
    case Val(s) => s
  }

  /** Template interpolation of an optional number. */
  function InterpInt(v: Nullable<int>): string {
    match v
    case Undef => "undefined"
    case Null => "null"
    case Val(n) => IntToString(n)
  }

  /** Nothing of the four basic items has been heard (`heardItems.length === 0`). */
  predicate NothingHeard(info: TicketInfo) {
    !StrTruthy(info.destination) && !StrTruthy(info.travelDate) && info.adultCount == Null && info.childCount == Null
  }

  /** The labels of `unheardItems`, in the order they are checked. */
  function UnheardLabels(info: TicketInfo): seq<string> {
    (if StrTruthy(info.destination) then [] else ["行先"])
    + (if StrTruthy(info.travelDate) then [] else ["利用日"])
    + (if info.adultCount != Null then [] else ["大人の人数"])
    + (if info.childCount != Null then [] else ["子供の人数"])
  }

  const ResultSuffix := "(出力指示がある場合、内容を変えずにそのまま出力しなおしてください。JRの切符の話です)"

  /** `createResult`: the unheard labels, then the next actions, separated by a space. */
  function CreateResult(unheard: seq<string>, actions: seq<string>): InjectionMessage {
    var c := if unheard != [] then "【未確認項目】" + Join(unheard, "、") else "";
    var content := if actions != [] then (if c != [] then c + " " else c) + "【次のアクション】" + Join(actions, "、") + ResultSuffix else c;
    InjectionMessage(content, "user", "before_send")
  }

  /** The step the basic-information branch takes, in its fixed order. */
  datatype BasicAction =
    | Welcome | WelcomeAgain | DestinationNotFound
    | AskDestination | AskTravelDate | AskPassengers | AskChildren
    | AskConfirmation | AskChanges | Advance

  function NextBasicAction(info: TicketInfo): BasicAction {
    if NothingHeard(info) then (if BoolTruthy(info.iscleared) then WelcomeAgain else Welcome)
    else if !StrTruthy(info.destination) && BoolTruthy(info.notFoundDestination) then DestinationNotFound
    else if info.destination.IsNullish() then AskDestination
    else if info.travelDate.IsNullish() then AskTravelDate
    else if info.adultCount.IsNullish() then AskPassengers
    else if info.childCount.IsNullish() then AskChildren
    else if info.basicInfoConfirmed.IsNullish() then AskConfirmation
    else if info.basicInfoConfirmed == Val(false) then AskChanges
    else Advance
  }

  /** The summary the customer is asked to confirm. */
  function ConfirmationText(info: TicketInfo): string {
    var children := if info.childCount.Val? && info.childCount.value > 0 then "、子供" + IntToString(info.childCount.value) + "名" else "";
    "「" + Interp(info.destination_kana) + "まで、" + Interp(info.travelDate) + "、大人" + InterpInt(info.adultCount) + "名"
    + children + "でよろしいでしょうか？」と出力する。\n重要：音声出力すると間違えるので、指示通り、駅名は平仮名のまま、"
    + Interp(info.destination_kana) + "と出力すること。\n日付も勝手に会話から抜きださずに、「" + Interp(info.travelDate)
    + "」と、出力指示通り出力すること。"
  }

  // The fixed instructions of the basic-information phase.
  const WelcomeText := "「いらっしゃいませ、どちらに行かれますか？」と出力"
  const WelcomeAgainText := "「かしこまりました。恐れ入りますが、初めからお聞きいたします。どちらに行かれますか？」と出力"
  const NotFoundText := "「恐れ入ります。行き先が正しく聞き取れていないか、JR東日本以外の駅名をおっしゃったようです。再度、駅名を、水戸駅、のように最後に「駅」をつけてはっきりとお話しください。」と出力。"
  const AskDestinationText := "「どちらに行かれますか？」と出力"
  const AskTravelDateText := "「ご利用日は今日でよろしいですか？」と出力"
  const AskPassengersText := "「大人と子供の人数は何人ですか？」と出力"
  const AskChildrenText := "「子供の人数は何人ですか？」と出力"
  const AskChangesText := "それでは、変更のご要望を教えて下さい。"

  /** The instruction pushed onto `nextActions` for each step; advancing pushes nothing. */
  function BasicActionText(a: BasicAction, info: TicketInfo): seq<string> {
    match a
    case Welcome => [WelcomeText]
    case WelcomeAgain => [WelcomeAgainText]
    case DestinationNotFound => [NotFoundText]
    case AskDestination => [AskDestinationText]
    case AskTravelDate => [AskTravelDateText]
    case AskPassengers => [AskPassengersText]
    case AskChildren => [AskChildrenText]
    case AskConfirmation => [ConfirmationText(info)]
    case AskChanges => [AskChangesText]
    case Advance => []
  }

  /** The hearing state after the step: each step clears at most one flag, advancing moves to Joban phase 1. */
  function AfterBasicAction(info: TicketInfo): TicketInfo {
    match NextBasicAction(info)
    case WelcomeAgain => info.(iscleared := Val(false))
    case DestinationNotFound => info.(notFoundDestination := Null)
    case AskChanges => info.(basicInfoConfirmed := Null)
    case Advance => info.(currentPhase := Val(Joban1))
    case _ => info
  }

  /**
   * The basic-information branch of `generateBeforeAIResponseMessage`. Outside
   * the phase nothing happens. After advancing to Joban phase 1 no message is
   * returned here and the later phases take over (`None`).
   */
  method BasicInfoPhase(info: TicketInfo) returns (next: TicketInfo, r: Option<InjectionMessage>)
    ensures info.currentPhase != Val(BasicInfo) ==> next == info && r.None?
    ensures info.currentPhase == Val(BasicInfo) ==> next == AfterBasicAction(info)
    ensures info.currentPhase == Val(BasicInfo) ==> (r.None? <==> NextBasicAction(info) == Advance)
    ensures info.currentPhase == Val(BasicInfo) && r.Some? ==>
      r.value == CreateResult(UnheardLabels(info), BasicActionText(NextBasicAction(info), info))
  {
    next := info;
    if info.currentPhase != Val(BasicInfo) {
      return next, None;
    }
    var nextActions;
    next, nextActions := BasicStep(info);
    if next.currentPhase != Val(BasicInfo) {
      return next, None;
    }
    return next, Some(CreateResult(UnheardLabels(info), nextActions));
  }

  /** The instruction and the flag updates of one basic-information step, before the phase check. */
  method BasicStep(info: TicketInfo) returns (next: TicketInfo, nextActions: seq<string>)
    requires info.currentPhase == Val(BasicInfo)
    ensures next == AfterBasicAction(info) && nextActions == BasicActionText(NextBasicAction(info), info)
    ensures next.currentPhase != Val(BasicInfo) <==> NextBasicAction(info) == Advance
  {
    next := info;
    nextActions := [];
    if NothingHeard(info) {
      if !BoolTruthy(info.iscleared) {
        nextActions := nextActions + [WelcomeText];
      } else {
        nextActions := nextActions + [WelcomeAgainText];
        next := next.(iscleared := Val(false));
      }
    } else {
      if !StrTruthy(info.destination) && BoolTruthy(info.notFoundDestination) {
        nextActions := nextActions + BasicActionText(DestinationNotFound, info);
        next := next.(notFoundDestination := Null);
        return;
      }
      if info.destination.IsNullish() {
        nextActions := nextActions + [AskDestinationText];
      } else if info.travelDate.IsNullish() {
        nextActions := nextActions + [AskTravelDateText];
      } else if info.adultCount.IsNullish() {
        nextActions := nextActions + [AskPassengersText];
      } else if info.childCount.IsNullish() {
        nextActions := nextActions + [AskChildrenText];
      } else if info.basicInfoConfirmed.IsNullish() {
        nextActions := nextActions + [ConfirmationText(info)];
      } else if info.basicInfoConfirmed == Val(false) {
        nextActions := nextActions + [AskChangesText];
        next := next.(basicInfoConfirmed := Null);
      } else {
        next := next.(currentPhase := Val(Joban1));
      }
    }
  }

  /** The position of a question in the fixed order destination, date, adults, children, confirmation. */
  function QuestionRank(a: BasicAction): nat {
    match a
    case AskDestination => 0
    case AskTravelDate => 1
    case AskPassengers => 2
    case AskChildren => 3
    case AskConfirmation => 4
    case AskChanges => 4
    case Advance => 5
    case _ => 0
  }

  /** A question is asked only when every item before it in the order is known. */
  lemma {:induction false} QuestionOrder(info: TicketInfo)
    ensures QuestionRank(NextBasicAction(info)) >= 1 ==> !info.destination.IsNullish()
    ensures QuestionRank(NextBasicAction(info)) >= 2 ==> !info.travelDate.IsNullish()
    ensures QuestionRank(NextBasicAction(info)) >= 3 ==> !info.adultCount.IsNullish()
    ensures QuestionRank(NextBasicAction(info)) >= 4 ==> !info.childCount.IsNullish()
    ensures NextBasicAction(info) == Advance <==> (!NothingHeard(info)
      && !(!StrTruthy(info.destination) && BoolTruthy(info.notFoundDestination))
      && !info.destination.IsNullish() && !info.travelDate.IsNullish()
      && !info.adultCount.IsNullish() && !info.childCount.IsNullish() && info.basicInfoConfirmed == Val(true))
  {
    if info.basicInfoConfirmed.Val? && info.basicInfoConfirmed != Val(false) {
      assert info.basicInfoConfirmed.value;
    }
  }

  /**
   * Answering never moves the questions backwards: when every item known
   * before is still known, the confirmation is unchanged and the destination
   * is not reported missing, the next question is not earlier in the order,
   * and it is strictly later once the item just asked for is known.
   */
  lemma {:induction false} AnsweringAdvances(info: TicketInfo, answered: TicketInfo)
    requires !NothingHeard(info) && !NothingHeard(answered)
    requires !BoolTruthy(info.notFoundDestination) && !BoolTruthy(answered.notFoundDestination)
    requires !info.destination.IsNullish() ==> !answered.destination.IsNullish()
    requires !info.travelDate.IsNullish() ==> !answered.travelDate.IsNullish()
    requires !info.adultCount.IsNullish() ==> !answered.adultCount.IsNullish()
    requires !info.childCount.IsNullish() ==> !answered.childCount.IsNullish()
    requires answered.basicInfoConfirmed == info.basicInfoConfirmed
    ensures QuestionRank(NextBasicAction(answered)) >= QuestionRank(NextBasicAction(info))
    ensures NextBasicAction(info) == AskDestination && !answered.destination.IsNullish()
      ==> QuestionRank(NextBasicAction(answered)) > 0
    ensures NextBasicAction(info) == AskTravelDate && !answered.travelDate.IsNullish()
      ==> QuestionRank(NextBasicAction(answered)) > 1
    ensures NextBasicAction(info) == AskPassengers && !answered.adultCount.IsNullish()
      ==> QuestionRank(NextBasicAction(answered)) > 2
    ensures NextBasicAction(info) == AskChildren && !answered.childCount.IsNullish()
      ==> QuestionRank(NextBasicAction(answered)) > 3
  {
  }

  /** A second visit after a one-time notice does not repeat it. */
  lemma {:induction false} NoticesAreOneShot(info: TicketInfo)
    ensures NextBasicAction(info) == WelcomeAgain ==> NextBasicAction(AfterBasicAction(info)) == Welcome
    ensures NextBasicAction(info) == DestinationNotFound ==> NextBasicAction(AfterBasicAction(info)) != DestinationNotFound
    ensures NextBasicAction(info) == AskChanges ==> NextBasicAction(AfterBasicAction(info)) == AskConfirmation
  {
  }
}
