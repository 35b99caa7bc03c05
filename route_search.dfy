/**
 * The route-search service over the route database: the blank-name guard, the
 * arrival-time ordering, the minimum-departure filter and the two text
 * helpers (a duration in 時間/分/秒 and a one-line route description). The
 * database query is outside the model: its result is the parameter `found`.
 */
module RouteSearch {
  import opened Wrappers
  import opened JsText
  import opened ClockText
  import opened StableSort
  import opened Sequences
  import opened RouteModel
  import opened TicketTypes
  import opened JobanExpress

  datatype RouteSearchResult = RouteSearchResult(routes: seq<Route>, searchTime: int)

  // ----- Times of day -----

  /** `parseHHMMToSeconds`: the first `H:MM` or `HH:MM` in the text, in seconds; 0 without one. */
  function ParseHHMMToSeconds(hhmm: string): (r: nat)
    ensures FindClock(hhmm, 0).None? ==> r == 0
    ensures FindClock(hhmm, 0).Some? ==> r == FindClock(hhmm, 0).value.hours * 3600 + FindClock(hhmm, 0).value.minutes * 60
  {
    match FindClock(hhmm, 0)
    case None => 0
    case Some(c) => c.hours * 3600 + c.minutes * 60
  }

  /** The seconds of a clock are below 100 hours and a multiple of a minute. */
  lemma {:induction false} ParseHHMMToSecondsBounds(hhmm: string)
    ensures ParseHHMMToSeconds(hhmm) % 60 == 0
    ensures ParseHHMMToSeconds(hhmm) <= 99 * 3600 + 99 * 60
  {
    FindClockLeftmost(hhmm, 0);
  }

  /** `a * 3600 + b * 60 + c` with NaN absorbing, as JavaScript arithmetic does. */
  function Seconds(a: Num, b: Num, c: Num): Num {
    if a.Fin? && b.Fin? && c.Fin? then Fin(a.n * 3600 + b.n * 60 + c.n) else NaN
  }

  /**
   * `parseTimeString`: a time with exactly three `:`-separated parts is
   * `parseInt` of each part in hours, minutes and seconds; any other shape is 0.
   */
  function ParseTimeString(timeStr: string): Num {
    var parts := Split(timeStr, ':');
    if |parts| != 3 then Fin(0)
    else Seconds(ParseInt10(parts[0]), ParseInt10(parts[1]), ParseInt10(parts[2]))
  }

  /** `${h}:${m}:${s}`. */
  function ClockString(h: nat, m: nat, s: nat): string {
    Join([NatToString(h), NatToString(m), NatToString(s)], ":")
  }

  /** A printed `H:M:S` reads back as its number of seconds. */
  lemma {:induction false} ParseTimeStringPrinted(h: nat, m: nat, s: nat)
    ensures ParseTimeString(ClockString(h, m, s)) == Fin(h * 3600 + m * 60 + s)
  {
    var a, b, c := NatToString(h), NatToString(m), NatToString(s);
    NoColon(h);
    NoColon(m);
    NoColon(s);
    var parts := [a, b, c];
    assert forall k :: 0 <= k < |parts| ==> ':' !in parts[k];
    JoinSplit(parts, ':');
    ParseTimeStringOfParts(ClockString(h, m, s), a, b, c);
    ParseInt10NatToString(h);
    ParseInt10NatToString(m);
    ParseInt10NatToString(s);
    SecondsOfNumbers(h, m, s);
  }

  lemma {:induction false} SecondsOfNumbers(h: int, m: int, s: int)
    ensures Seconds(Fin(h), Fin(m), Fin(s)) == Fin(h * 3600 + m * 60 + s)
  {
  }

  lemma {:induction false} ParseTimeStringOfParts(t: string, a: string, b: string, c: string)
    requires Split(t, ':') == [a, b, c]
    ensures ParseTimeString(t) == Seconds(ParseInt10(a), ParseInt10(b), ParseInt10(c))
  {
  }

  lemma {:induction false} NoColon(n: nat)
    ensures ':' !in NatToString(n)
  {
    var s := NatToString(n);
    forall k | 0 <= k < |s| ensures s[k] != ':' {
      assert IsDigit(s[k]);
    }
  }

  /** Any shape other than three parts, that is any colon count other than two, is read as 0 seconds. */
  lemma {:induction false} ParseTimeStringMisshapen(timeStr: string)
    requires multiset(timeStr)[':'] != 2
    ensures ParseTimeString(timeStr) == Fin(0)
  {
    SplitCount(timeStr, ':');
  }

  // ----- Arrival ordering -----

  /**
   * The comparator `timeA - timeB` as a sort key. A NaN arrival makes the
   * comparator inconsistent; the key treats it as 0.
   */
  function ArrivalKey(r: Route): (int, int) {
    match ParseTimeString(r.arrivalTime)
    case NaN => (0, 0)
    case Fin(n) => (n, 0)
  }

  /**
   * `sortRoutesByArrivalTime`: `routes.sort(...)` reorders the given array
   * itself, stably by arrival, and returns that same array.
   */
  method SortRoutesByArrivalTime(routes: array<Route>) returns (r: array<Route>)
    modifies routes
    ensures r == routes
    ensures routes[..] == SortBy(old(routes[..]), ArrivalKey)
  {
    var sorted := SortBy(routes[..], ArrivalKey);
    WriteBack(routes, sorted);
    r := routes;
  }

  /** The sort writes its result over the array's own slots. */
  method WriteBack(routes: array<Route>, sorted: seq<Route>)
    requires |sorted| == routes.Length
    modifies routes
    ensures routes[..] == sorted
  {
    var i := 0;
    while i < routes.Length
      invariant 0 <= i <= routes.Length
      invariant forall k :: 0 <= k < i ==> routes[k] == sorted[k]
    {
      routes[i] := sorted[i];
      i := i + 1;
    }
  }

  /** The sorted routes are ordered by arrival and are a permutation of the input. */
  lemma {:induction false} SortedByArrival(s: seq<Route>)
    ensures SortedBy(SortBy(s, ArrivalKey), ArrivalKey)
    ensures multiset(SortBy(s, ArrivalKey)) == multiset(s)
    ensures forall i, j :: 0 <= i < j < |s| ==>
      ArrivalKey(SortBy(s, ArrivalKey)[i]).0 <= ArrivalKey(SortBy(s, ArrivalKey)[j]).0
  {
    SortBySorted(s, ArrivalKey);
    SortByPermutes(s, ArrivalKey);
    var t := SortBy(s, ArrivalKey);
    forall i, j | 0 <= i < j < |s| ensures ArrivalKey(t[i]).0 <= ArrivalKey(t[j]).0 {
      assert KeyLe(ArrivalKey(t[i]), ArrivalKey(t[j]));
    }
  }

  /** Routes arriving at the same time keep their order from the query. */
  lemma {:induction false} SortByArrivalStable(s: seq<Route>, k: (int, int))
    ensures WithKey(SortBy(s, ArrivalKey), ArrivalKey, k) == WithKey(s, ArrivalKey, k)
  {
    SortByStable(s, ArrivalKey, k);
  }

  // ----- Searching -----

  /**
   * `searchRoutes`: a blank origin or destination gives no routes and time 0
   * without a query; otherwise the routes the query `found` are sorted by
   * arrival and `elapsed` is the measured search time.
   */
  function SearchRoutes(originName: string, destinationName: string, found: seq<Route>, elapsed: int)
    : (r: RouteSearchResult)
  {
    if Blank(originName) || Blank(destinationName) then RouteSearchResult([], 0)
    else RouteSearchResult(SortBy(found, ArrivalKey), elapsed)
  }

  /** The result of a search. */
  lemma {:induction false} SearchRoutesShape(originName: string, destinationName: string, found: seq<Route>, elapsed: int)
    ensures Blank(originName) || Blank(destinationName) ==>
      SearchRoutes(originName, destinationName, found, elapsed) == RouteSearchResult([], 0)
    ensures !Blank(originName) && !Blank(destinationName) ==>
      var r := SearchRoutes(originName, destinationName, found, elapsed);
      && multiset(r.routes) == multiset(found)
      && SortedBy(r.routes, ArrivalKey)
      && r.searchTime == elapsed
  {
    SortedByArrival(found);
  }

  /** `parseTimeString(r.departureTime) >= minSec`; a NaN is not. */
  predicate DepartsBy(r: Route, minSec: int) {
    var t := ParseTimeString(r.departureTime);
    t.Fin? && t.n >= minSec
  }

  /** The filter callback `r => parseTimeString(r.departureTime) >= minSec`. */
  function DepartsAtOrAfter(minSec: int): Route -> bool {
    (x: Route) => DepartsBy(x, minSec)
  }

  /**
   * `searchRoutesWithMinDeparture`: without a minimum the search result as it
   * is; with one, the routes departing at or after it, sorted by arrival.
   */
  function SearchRoutesWithMinDeparture(originName: string, destinationName: string, found: seq<Route>,
    elapsed: int, minDepartureHHMM: Nullable<string>): (r: RouteSearchResult)
  {
    var result := SearchRoutes(originName, destinationName, found, elapsed);
    if !StrTruthy(minDepartureHHMM) then result
    else
      var minSec := ParseHHMMToSeconds(minDepartureHHMM.value);
      var filtered := Filter(result.routes, DepartsAtOrAfter(minSec));
      RouteSearchResult(SortBy(filtered, ArrivalKey), result.searchTime)
  }

  /** A filter keeps a sorted sequence sorted. */
  lemma {:induction false} FilterKeepsSorted<T>(s: seq<T>, p: T -> bool, key: T -> (int, int))
    requires SortedBy(s, key)
    ensures SortedBy(Filter(s, p), key)
  {
    if s != [] {
      var u := s[..|s| - 1];
      var x := s[|s| - 1];
      assert SortedBy(u, key);
      FilterKeepsSorted(u, p, key);
      if p(x) {
        var f := Filter(u, p);
        forall i | 0 <= i < |f| ensures KeyLe(key(f[i]), key(x)) {
          FilterMember(u, p, f[i]);
          var j :| 0 <= j < |u| && u[j] == f[i];
          assert s[j] == f[i];
        }
      }
    }
  }

  /**
   * With a minimum departure the result is the search result filtered, in the
   * same order: re-sorting the already sorted routes changes nothing, so the
   * result is ordered by arrival.
   */
  lemma {:induction false} MinDepartureOrder(originName: string, destinationName: string, found: seq<Route>,
    elapsed: int, minDepartureHHMM: string)
    requires minDepartureHHMM != []
    ensures var r := SearchRoutesWithMinDeparture(originName, destinationName, found, elapsed, Val(minDepartureHHMM));
      && SortedBy(r.routes, ArrivalKey)
      && r.routes == Filter(SearchRoutes(originName, destinationName, found, elapsed).routes,
        DepartsAtOrAfter(ParseHHMMToSeconds(minDepartureHHMM)))
  {
    var p := DepartsAtOrAfter(ParseHHMMToSeconds(minDepartureHHMM));
    var res := SearchRoutes(originName, destinationName, found, elapsed);
    SortedByArrival(found);
    assert SortedBy(res.routes, ArrivalKey);
    FilterKeepsSorted(res.routes, p, ArrivalKey);
    SortBySortedInput(Filter(res.routes, p), ArrivalKey);
  }

  /**
   * With a minimum departure, a route is in the result exactly when the names
   * are not blank, the query found it and it departs at or after the minimum.
   */
  lemma {:induction false} MinDepartureMembers(originName: string, destinationName: string, found: seq<Route>,
    elapsed: int, minDepartureHHMM: string, x: Route)
    requires minDepartureHHMM != []
    ensures x in SearchRoutesWithMinDeparture(originName, destinationName, found, elapsed, Val(minDepartureHHMM)).routes
      <==> (!Blank(originName) && !Blank(destinationName) && x in found
        && DepartsBy(x, ParseHHMMToSeconds(minDepartureHHMM)))
  {
    var p := DepartsAtOrAfter(ParseHHMMToSeconds(minDepartureHHMM));
    var res := SearchRoutes(originName, destinationName, found, elapsed);
    var f := Filter(res.routes, p);
    SortByPermutes(f, ArrivalKey);
    assert x in SortBy(f, ArrivalKey) <==> x in f by {
      assert x in SortBy(f, ArrivalKey) <==> x in multiset(SortBy(f, ArrivalKey));
      assert x in f <==> x in multiset(f);
    }
    FilterMember(res.routes, p, x);
    if !Blank(originName) && !Blank(destinationName) {
      SortByPermutes(found, ArrivalKey);
      assert x in res.routes <==> x in multiset(res.routes);
      assert x in found <==> x in multiset(found);
    }
  }

  /** Without a minimum the search result comes back unchanged. */
  lemma {:induction false} NoMinimumUnchanged(originName: string, destinationName: string, found: seq<Route>,
    elapsed: int, minDepartureHHMM: Nullable<string>)
    requires minDepartureHHMM.IsNullish() || minDepartureHHMM == Val([])
    ensures SearchRoutesWithMinDeparture(originName, destinationName, found, elapsed, minDepartureHHMM)
      == SearchRoutes(originName, destinationName, found, elapsed)
  {
  }

  // ----- Durations -----

  /** `Math.floor(seconds / 3600)`. */
  function Hours(seconds: int): int { seconds / 3600 }

  /** `Math.floor((seconds % 3600) / 60)` with the truncating `%`. */
  function Minutes(seconds: int): int { JsRem(seconds, 3600) / 60 }

  /** `seconds % 60` with the truncating `%`. */
  function Secs(seconds: int): int { JsRem(seconds, 60) }

  /** The decomposition of a non-negative duration. */
  lemma {:induction false} DurationParts(seconds: int)
    requires seconds >= 0
    ensures Hours(seconds) * 3600 + Minutes(seconds) * 60 + Secs(seconds) == seconds
    ensures 0 <= Minutes(seconds) < 60 && 0 <= Secs(seconds) < 60 && Hours(seconds) >= 0
  {
    var h, r := seconds / 3600, seconds % 3600;
    assert seconds == h * 3600 + r;
    assert r == (r / 60) * 60 + r % 60;
    assert seconds % 60 == r % 60 by {
      assert seconds == (h * 60 + r / 60) * 60 + r % 60;
    }
  }

  /** One pushed part, `${n}時間` and so on, when the amount is positive. */
  function Part(n: int, unit: string): seq<string> {
    if n > 0 then [NatToString(n) + unit] else []
  }

  /** `formatDuration`: the positive parts joined, or `0秒` when there is none. */
  function FormatDuration(seconds: int): string {
    var parts := Part(Hours(seconds), "時間") + Part(Minutes(seconds), "分") + Part(Secs(seconds), "秒");
    if |parts| > 0 then Join(parts, "") else "0秒"
  }

  /** The amount a unit suffix at the front of `t` stands for, and its length. */
  function UnitAt(t: string): Option<(nat, nat)> {
    if StartsWith(t, "時間") then Some((3600, 2))
    else if StartsWith(t, "分") then Some((60, 1))
    else if StartsWith(t, "秒") then Some((1, 1))
    else None
  }

  /** `v` plus the amount of a piece read before it. */
  function AddPiece(v: Option<int>, amount: int): Option<int> {
    match v
    case None => None
    case Some(x) => Some(amount + x)
  }

  /** Reads a text made of `<digits><unit>` pieces, front to back. */
  function ReadPieces(t: string): Option<int>
    decreases |t|
  {
    if t == [] then Some(0)
    else
      var d := DigitPrefix(t);
      var rest := t[|d|..];
      var u := UnitAt(rest);
      if d == [] || u.None? then None
      else AddPiece(ReadPieces(rest[u.value.1..]), DecValue(d) * u.value.0)
  }

  /** Reads a duration text back as a number of seconds; `None` when it is not made of pieces. */
  function ParseDuration(t: string): Option<int> {
    ReadPieces(t)
  }

  lemma {:induction false} DigitPrefixStops(d: string, t: string)
    requires AllDigits(d) && t != [] && !IsDigit(t[0])
    ensures DigitPrefix(d + t) == d
  {
    if d != [] {
      DigitPrefixStops(d[1..], t);
      assert (d + t)[1..] == d[1..] + t;
      assert [d[0]] + d[1..] == d;
    }
  }

  /** Reading digits followed by a unit. */
  lemma {:induction false} ParseAfterDigits(d: string, t: string)
    requires d != [] && AllDigits(d) && t != [] && !IsDigit(t[0]) && UnitAt(t).Some?
    ensures ReadPieces(d + t) == AddPiece(ReadPieces(t[UnitAt(t).value.1..]), DecValue(d) * UnitAt(t).value.0)
  {
    var w := d + t;
    DigitPrefixStops(d, t);
    assert w != [];
    assert w[|d|..] == t;
  }

  /** A unit suffix standing for `amount` seconds, followed by `rest`. */
  predicate UnitFollows(unit: string, amount: nat, rest: string) {
    unit != [] && !IsDigit(unit[0]) && UnitAt(unit + rest) == Some((amount, |unit|)) && (unit + rest)[|unit|..] == rest
  }

  lemma {:induction false} UnitHours(rest: string)
    ensures UnitFollows("時間", 3600, rest)
  {
    assert ("時間" + rest)[..2] == "時間";
  }

  lemma {:induction false} UnitMinutes(rest: string)
    ensures UnitFollows("分", 60, rest)
  {
    var t := "分" + rest;
    assert t[0] == '分';
    assert t[..1] == "分";
  }

  lemma {:induction false} UnitSeconds(rest: string)
    ensures UnitFollows("秒", 1, rest)
  {
    var t := "秒" + rest;
    assert t[0] == '秒';
    assert t[..1] == "秒";
  }

  /** The text of one part, empty when the amount is not positive. */
  function Piece(n: int, unit: string): string {
    if n > 0 then NatToString(n) + unit else ""
  }

  /** Reading one piece in front of the rest adds its amount. */
  lemma {:induction false} PieceStep(n: int, unit: string, amount: nat, rest: string)
    requires n >= 0 && UnitFollows(unit, amount, rest)
    ensures ParseDuration(Piece(n, unit) + rest) == AddPiece(ParseDuration(rest), n * amount)
  {
    if n == 0 {
      assert "" + rest == rest;
      match ParseDuration(rest)
      case None =>
      case Some(v) =>
    } else {
      var d := NatToString(n);
      assert Piece(n, unit) + rest == d + (unit + rest);
      assert (unit + rest)[0] == unit[0];
      ParseAfterDigits(d, unit + rest);
      NatToStringValue(n);
    }
  }

  function Concat(parts: seq<string>): string {
    if parts == [] then [] else parts[0] + Concat(parts[1..])
  }

  lemma {:induction false} JoinNoSep(parts: seq<string>)
    ensures Join(parts, "") == Concat(parts)
  {
    if |parts| == 1 {
      assert Concat(parts[1..]) == [];
    } else if |parts| > 1 {
      JoinNoSep(parts[1..]);
    }
  }

  lemma {:induction false} ConcatAppend(a: seq<string>, b: seq<string>)
    ensures Concat(a + b) == Concat(a) + Concat(b)
  {
    if a == [] {
      assert a + b == b;
    } else {
      assert (a + b)[0] == a[0];
      assert (a + b)[1..] == a[1..] + b;
      ConcatAppend(a[1..], b);
    }
  }

  /** The joined parts are the three pieces one after the other. */
  lemma {:induction false} JoinedParts(h: int, m: int, s: int)
    ensures Join(Part(h, "時間") + Part(m, "分") + Part(s, "秒"), "") == Piece(h, "時間") + Piece(m, "分") + Piece(s, "秒")
  {
    var a, b, c := Part(h, "時間"), Part(m, "分"), Part(s, "秒");
    JoinNoSep(a + b + c);
    ConcatAppend(a + b, c);
    ConcatAppend(a, b);
    PartConcat(h, "時間");
    PartConcat(m, "分");
    PartConcat(s, "秒");
  }

  /** One part, concatenated, is its piece. */
  lemma {:induction false} PartConcat(n: int, unit: string)
    ensures Concat(Part(n, unit)) == Piece(n, unit)
  {
    if n > 0 {
      assert Part(n, unit)[1..] == [];
    }
  }

  /** `0秒` reads back as 0. */
  lemma {:induction false} ZeroSecondsText()
    ensures ParseDuration("0秒") == Some(0)
  {
    UnitSeconds([]);
    assert "0" + "秒" == "0秒";
    assert AllDigits("0");
    ParseAfterDigits("0", "秒");
    assert DecValue("0") == 0 by {
      assert "0"[..0] == [];
    }
  }

  lemma {:induction false} ParseEmpty()
    ensures ParseDuration([]) == Some(0)
  {
  }

  lemma {:induction false} AppendEmpty(t: string)
    ensures t + [] == t
  {
  }

  /** A seconds piece alone reads back as its amount. */
  lemma {:induction false} SecondsRead(s: nat)
    ensures ParseDuration(Piece(s, "秒")) == Some(s)
  {
    UnitSeconds([]);
    PieceStep(s, "秒", 1, []);
    AppendEmpty(Piece(s, "秒"));
    ParseEmpty();
  }

  /** A minutes piece and a seconds piece read back as their weighted sum. */
  lemma {:induction false} MinutesRead(m: nat, s: nat)
    ensures ParseDuration(Piece(m, "分") + Piece(s, "秒")) == Some(m * 60 + s)
  {
    var secs := Piece(s, "秒");
    SecondsRead(s);
    UnitMinutes(secs);
    PieceStep(m, "分", 60, secs);
  }

  /** The three pieces read back as their weighted sum. */
  lemma {:induction false} PiecesRoundTrip(h: nat, m: nat, s: nat)
    ensures ParseDuration(Piece(h, "時間") + (Piece(m, "分") + Piece(s, "秒"))) == Some(h * 3600 + (m * 60 + s))
  {
    var mins := Piece(m, "分") + Piece(s, "秒");
    MinutesRead(m, s);
    HoursStep(h, mins);
    assert AddPiece(Some(m * 60 + s), h * 3600) == Some(h * 3600 + (m * 60 + s));
  }

  /** An hours piece in front of any text adds its hours to what the text reads as. */
  lemma {:induction false} HoursStep(h: nat, rest: string)
    ensures ParseDuration(Piece(h, "時間") + rest) == AddPiece(ParseDuration(rest), h * 3600)
  {
    UnitHours(rest);
    PieceStep(h, "時間", 3600, rest);
  }

  /** A formatted duration reads back as the number of seconds it was made from. */
  lemma {:induction false} FormatDurationRoundTrip(seconds: int)
    requires seconds >= 0
    ensures ParseDuration(FormatDuration(seconds)) == Some(seconds)
  {
    if Hours(seconds) > 0 || Minutes(seconds) > 0 || Secs(seconds) > 0 {
      FormatDurationText(seconds);
      PiecesOfSeconds(seconds);
    } else {
      FormatDurationNone(seconds);
      NoPartsNoSeconds(seconds);
      ZeroSecondsText();
    }
  }

  /** The pieces of a duration read back as its number of seconds. */
  lemma {:induction false} PiecesOfSeconds(seconds: int)
    requires seconds >= 0
    ensures ParseDuration(Piece(Hours(seconds), "時間") + (Piece(Minutes(seconds), "分") + Piece(Secs(seconds), "秒"))) == Some(seconds)
  {
    DurationParts(seconds);
    PiecesRoundTrip(Hours(seconds), Minutes(seconds), Secs(seconds));
  }

  /** A duration without a positive part is zero seconds long. */
  lemma {:induction false} NoPartsNoSeconds(seconds: int)
    requires seconds >= 0 && Hours(seconds) <= 0 && Minutes(seconds) <= 0 && Secs(seconds) <= 0
    ensures seconds == 0
  {
    DurationParts(seconds);
  }

  /** With no positive part, the text is `0秒`. */
  lemma {:induction false} FormatDurationNone(seconds: int)
    requires Hours(seconds) <= 0 && Minutes(seconds) <= 0 && Secs(seconds) <= 0
    ensures FormatDuration(seconds) == "0秒"
  {
    assert Part(Hours(seconds), "時間") == [] && Part(Minutes(seconds), "分") == [] && Part(Secs(seconds), "秒") == [];
  }

  /** With a positive part, the text is the pieces one after the other. */
  lemma {:induction false} FormatDurationText(seconds: int)
    requires Hours(seconds) > 0 || Minutes(seconds) > 0 || Secs(seconds) > 0
    ensures FormatDuration(seconds) == Piece(Hours(seconds), "時間") + (Piece(Minutes(seconds), "分") + Piece(Secs(seconds), "秒"))
  {
    var a, b, c := Part(Hours(seconds), "時間"), Part(Minutes(seconds), "分"), Part(Secs(seconds), "秒");
    assert |a + b + c| > 0 by {
      assert |a + b + c| == |a| + |b| + |c|;
    }
    JoinedParts(Hours(seconds), Minutes(seconds), Secs(seconds));
  }

  /** The text is `0秒` exactly when the duration is not positive. */
  lemma {:induction false} FormatDurationZero(seconds: int)
    ensures FormatDuration(seconds) == "0秒" <==> seconds <= 0
  {
    if seconds > 0 {
      FormatDurationRoundTrip(seconds);
      FormatDurationRoundTrip(0);
    } else {
      assert Hours(seconds) <= 0;
      assert Minutes(seconds) <= 0;
      assert Secs(seconds) <= 0;
    }
  }

  // ----- Route descriptions -----

  /** The text pushed for one leg: `（senku[特急]）→ to`. */
  function LegText(leg: RouteLeg): string {
    "（" + leg.senkuName + (if leg.isExpress then "[特急]" else "") + "）→ " + leg.to.name
  }

  function LegTexts(legs: seq<RouteLeg>): (r: seq<string>)
    ensures |r| == |legs|
    ensures forall k :: 0 <= k < |legs| ==> r[k] == LegText(legs[k])
  {
    if legs == [] then [] else LegTexts(legs[..|legs| - 1]) + [LegText(legs[|legs| - 1])]
  }

  /** The description: the first departure station, then one text per leg, separated by spaces. */
  function RouteDescription(legs: seq<RouteLeg>): string {
    if legs == [] then "" else Join([legs[0].from.name] + LegTexts(legs), " ")
  }

  /** `generateRouteDescription`: the `forEach` over the legs pushing the parts. */
  method GenerateRouteDescription(legs: seq<RouteLeg>) returns (r: string)
    ensures r == RouteDescription(legs)
  {
    if |legs| == 0 {
      return "";
    }
    var parts: seq<string> := [];
    var index := 0;
    while index < |legs|
      invariant 0 <= index <= |legs|
      invariant index == 0 ==> parts == []
      invariant index > 0 ==> parts == [legs[0].from.name] + LegTexts(legs[..index])
    {
      var leg := legs[index];
      if index == 0 {
        parts := parts + [leg.from.name];
      }
      var legDesc := "（" + leg.senkuName;
      if leg.isExpress {
        legDesc := legDesc + "[特急]";
      }
      legDesc := legDesc + "）→ " + leg.to.name;
      assert legDesc == LegText(leg);
      parts := parts + [legDesc];
      assert legs[..index + 1][..index] == legs[..index];
      assert LegTexts(legs[..index + 1]) == LegTexts(legs[..index]) + [LegText(leg)];
      index := index + 1;
    }
    assert legs[..index] == legs;
    r := Join(parts, " ");
  }

  /** A join starts with its first part and ends with its last one. */
  lemma {:induction false} JoinEnds(parts: seq<string>, sep: string)
    requires parts != []
    ensures StartsWith(Join(parts, sep), parts[0])
    ensures EndsWith(Join(parts, sep), parts[|parts| - 1])
  {
    if |parts| > 1 {
      JoinEnds(parts[1..], sep);
      var rest := Join(parts[1..], sep);
      assert Join(parts, sep) == parts[0] + sep + rest;
      assert (parts[0] + sep + rest)[..|parts[0]|] == parts[0];
      var l := parts[|parts| - 1];
      assert (parts[0] + sep + rest)[|parts[0] + sep + rest| - |l|..] == rest[|rest| - |l|..];
    }
  }

  /** A description starts with the first departure station and ends with the last arrival station. */
  lemma {:induction false} RouteDescriptionEnds(legs: seq<RouteLeg>)
    requires legs != []
    ensures StartsWith(RouteDescription(legs), legs[0].from.name)
    ensures EndsWith(RouteDescription(legs), legs[|legs| - 1].to.name)
  {
    var parts := [legs[0].from.name] + LegTexts(legs);
    JoinEnds(parts, " ");
    var l := LegText(legs[|legs| - 1]);
    assert parts[|parts| - 1] == l;
    var name := legs[|legs| - 1].to.name;
    assert l[|l| - |name|..] == name;
  }

  function CountAll(parts: seq<string>, c: char): nat {
    if parts == [] then 0 else Count(parts[0], c) + CountAll(parts[1..], c)
  }

  lemma {:induction false} CountAllAppend(a: seq<string>, b: seq<string>, c: char)
    ensures CountAll(a + b, c) == CountAll(a, c) + CountAll(b, c)
  {
    if a == [] {
      assert a + b == b;
    } else {
      assert (a + b)[0] == a[0];
      assert (a + b)[1..] == a[1..] + b;
      CountAllAppend(a[1..], b, c);
    }
  }

  /** Joining with a separator free of `c` keeps every `c` of the parts and adds none. */
  lemma {:induction false} JoinCountFree(parts: seq<string>, sep: string, c: char)
    requires Count(sep, c) == 0
    ensures Count(Join(parts, sep), c) == CountAll(parts, c)
  {
    if |parts| == 1 {
      assert CountAll(parts[1..], c) == 0;
    } else if |parts| > 1 {
      JoinCountFree(parts[1..], sep, c);
      assert multiset(parts[0] + sep + Join(parts[1..], sep))
        == multiset(parts[0]) + multiset(sep) + multiset(Join(parts[1..], sep));
    }
  }

  /** No station or line name holds an arrow. */
  predicate ArrowFree(legs: seq<RouteLeg>) {
    forall k :: 0 <= k < |legs| ==> Count(legs[k].senkuName, '→') == 0 && Count(legs[k].to.name, '→') == 0
  }

  lemma {:induction false} LegTextArrow(leg: RouteLeg)
    requires Count(leg.senkuName, '→') == 0 && Count(leg.to.name, '→') == 0
    ensures Count(LegText(leg), '→') == 1
  {
    var mid := if leg.isExpress then "[特急]" else "";
    assert Count(mid, '→') == 0;
    assert LegText(leg) == "（" + leg.senkuName + mid + "）→ " + leg.to.name;
    assert multiset(LegText(leg)) ==
      multiset("（") + multiset(leg.senkuName) + multiset(mid) + multiset("）→ ") + multiset(leg.to.name);
    assert Count("）→ ", '→') == 1;
  }

  lemma {:induction false} LegTextsArrows(legs: seq<RouteLeg>)
    requires ArrowFree(legs)
    ensures CountAll(LegTexts(legs), '→') == |legs|
  {
    if legs != [] {
      var u := legs[..|legs| - 1];
      var leg := legs[|legs| - 1];
      assert ArrowFree(u);
      LegTextsArrows(u);
      LegTextArrow(leg);
      CountAllSnoc(LegTexts(u), LegText(leg), '→');
      assert LegTexts(legs) == LegTexts(u) + [LegText(leg)];
    }
  }

  lemma {:induction false} CountAllSnoc(a: seq<string>, t: string, c: char)
    ensures CountAll(a + [t], c) == CountAll(a, c) + Count(t, c)
  {
    CountAllAppend(a, [t], c);
    assert [t][1..] == [];
  }

  /** When no name holds an arrow, a description of n legs has one arrow per leg. */
  lemma {:induction false} RouteDescriptionArrows(legs: seq<RouteLeg>)
    requires legs != [] && Count(legs[0].from.name, '→') == 0 && ArrowFree(legs)
    ensures Count(RouteDescription(legs), '→') == |legs|
  {
    var parts := [legs[0].from.name] + LegTexts(legs);
    JoinCountFree(parts, " ", '→');
    LegTextsArrows(legs);
    CountAllAppend([legs[0].from.name], LegTexts(legs), '→');
    assert CountAll([legs[0].from.name], '→') == 0 by {
      assert [legs[0].from.name][1..] == [];
    }
  }
}
