/**
 * The Joban-express processing of a route search result: which routes start a
 * Joban-line limited express at Mito, which legs make up that express section,
 * which routes also use a zairai (other-line) limited express, the grouping of
 * those legs by line, and the "line: A → B → C" explanations.
 */
module JobanExpress {
  import opened Wrappers
  import opened JsText
  import opened StableSort
  import opened Sequences
  import opened RouteModel

  // ----- The Joban-express section -----

  /** A Joban-line limited express boarded at Mito at the start of its run. */
  predicate IsJobanStart(leg: RouteLeg) {
    leg.senkuName == Joban && leg.isExpress && leg.from.name == Mito && leg.from.directFlag == "0"
  }

  /** `route.legs.some(...)` with the start-leg test. */
  predicate HasJobanStart(route: Route) {
    exists i :: 0 <= i < |route.legs| && IsJobanStart(route.legs[i])
  }

  /** `route.legs.find(...)` with the start-leg test. */
  function FirstJobanStart(legs: seq<RouteLeg>): (r: Option<nat>)
    ensures r.Some? ==> (r.value < |legs| && IsJobanStart(legs[r.value])
      && forall k :: 0 <= k < r.value ==> !IsJobanStart(legs[k]))
    ensures r.None? ==> forall k :: 0 <= k < |legs| ==> !IsJobanStart(legs[k])
  {
    if legs == [] then None
    else if IsJobanStart(legs[0]) then Some(0)
    else match FirstJobanStart(legs[1..])
      case None => None
      case Some(k) => Some(k + 1)
  }

  /** The legs up to and including the first one that ends its through-running; all of them when none does. */
  function UntilRunEnd(s: seq<RouteLeg>): seq<RouteLeg> {
    if s == [] then []
    else if s[0].to.directFlag == "0" then [s[0]]
    else [s[0]] + UntilRunEnd(s[1..])
  }

  /** `legs.filter(leg => leg.seq > startSeq)`. */
  function LaterThan(legs: seq<RouteLeg>, startSeq: int): seq<RouteLeg> {
    if legs == [] then []
    else LaterThan(legs[..|legs| - 1], startSeq) + (if legs[|legs| - 1].seqNo > startSeq then [legs[|legs| - 1]] else [])
  }

  lemma {:induction false} LaterThanMember(legs: seq<RouteLeg>, startSeq: int)
    ensures forall x :: x in LaterThan(legs, startSeq) ==> x in legs && x.seqNo > startSeq
  {
    if legs != [] {
      LaterThanMember(legs[..|legs| - 1], startSeq);
    }
  }

  /** The legs after the start leg, in `seq` order. */
  function Subsequent(legs: seq<RouteLeg>, startSeq: int): seq<RouteLeg> {
    SortLegs(LaterThan(legs, startSeq))
  }

  lemma {:induction false} SubsequentShape(legs: seq<RouteLeg>, startSeq: int)
    ensures AscendingSeq(Subsequent(legs, startSeq))
    ensures forall x :: x in Subsequent(legs, startSeq) ==> x in legs && x.seqNo > startSeq
  {
    SortLegsAscending(LaterThan(legs, startSeq));
    LaterThanMember(legs, startSeq);
    forall x | x in Subsequent(legs, startSeq) ensures x in legs && x.seqNo > startSeq {
      assert x in multiset(LaterThan(legs, startSeq));
    }
  }

  /** The Joban-express section: the start leg, then later legs until the run ends. */
  function JobanExpressLegs(legs: seq<RouteLeg>): seq<RouteLeg> {
    match FirstJobanStart(legs)
    case None => []
    case Some(k) =>
      var start := legs[k];
      [start] + (if start.to.directFlag != "0" then UntilRunEnd(Subsequent(legs, start.seqNo)) else [])
  }

  /** The station names the explanation lists: the first departure station, then every arrival station. */
  function Stations(legs: seq<RouteLeg>): (r: seq<string>)
    requires legs != []
    ensures |r| == |legs| + 1
  {
    [legs[0].from.name] + ArrivalNames(legs)
  }

  function ArrivalNames(legs: seq<RouteLeg>): (r: seq<string>)
    ensures |r| == |legs|
    ensures forall k :: 0 <= k < |legs| ==> r[k] == legs[k].to.name
  {
    if legs == [] then [] else [legs[0].to.name] + ArrivalNames(legs[1..])
  }

  const Arrow := " → "

  /** `generateRouteExplain`: "" for no legs, else "line: A → B → …". */
  function RouteExplain(legs: seq<RouteLeg>): string {
    if legs == [] then "" else legs[0].senkuName + ": " + Join(Stations(legs), Arrow)
  }

  /** The route with the added Joban-express fields; every other field is copied from the route. */
  function AsJobanExpressRoute(route: Route): Route {
    var legs := JobanExpressLegs(route.legs);
    route.(jobanExpressLegs := Some(legs), jobanExpressLegsRouteExplain := Some(RouteExplain(legs)))
  }

  /** `extractJobanExpressRoutes` on a prefix of the routes. */
  function JobanExpressRoutes(routes: seq<Route>): seq<Route> {
    if routes == [] then []
    else
      var last := routes[|routes| - 1];
      JobanExpressRoutes(routes[..|routes| - 1]) + (if HasJobanStart(last) then [AsJobanExpressRoute(last)] else [])
  }

  /** The section loop of `extractJobanExpressRoutes`: push each leg, `break` after the one that ends the run. */
  method TakeUntilRunEnd(subsequent: seq<RouteLeg>) returns (t: seq<RouteLeg>)
    ensures t == UntilRunEnd(subsequent)
  {
    t := [];
    var i := 0;
    while i < |subsequent|
      invariant 0 <= i <= |subsequent|
      invariant UntilRunEnd(subsequent) == t + UntilRunEnd(subsequent[i..])
    {
      var leg := subsequent[i];
      assert subsequent[i..] == [leg] + subsequent[i + 1..];
      t := t + [leg];
      if leg.to.directFlag == "0" {
        return;
      }
      i := i + 1;
    }
  }

  /** The start-leg search of `extractJobanExpressRoutes`, then the section loop. */
  method CollectJobanExpressLegs(legs: seq<RouteLeg>) returns (r: seq<RouteLeg>)
    ensures r == JobanExpressLegs(legs)
  {
    r := [];
    var k := 0;
    while k < |legs| && !IsJobanStart(legs[k])
      invariant 0 <= k <= |legs|
      invariant forall j :: 0 <= j < k ==> !IsJobanStart(legs[j])
    {
      k := k + 1;
    }
    if k == |legs| {
      return;
    }
    assert FirstJobanStart(legs) == Some(k);
    var start := legs[k];
    r := [start];
    if start.to.directFlag != "0" {
      var rest := TakeUntilRunEnd(Subsequent(legs, start.seqNo));
      r := r + rest;
    }
  }

  /** `extractJobanExpressRoutes`. */
  method ExtractJobanExpressRoutes(routes: seq<Route>) returns (r: seq<Route>)
    ensures r == JobanExpressRoutes(routes)
  {
    r := [];
    for i := 0 to |routes|
      invariant r == JobanExpressRoutes(routes[..i])
    {
      var route := routes[i];
      assert routes[..i + 1][..i] == routes[..i];
      if HasJobanStart(route) {
        var legs := CollectJobanExpressLegs(route.legs);
        r := r + [route.(jobanExpressLegs := Some(legs), jobanExpressLegsRouteExplain := Some(RouteExplain(legs)))];
      }
    }
    assert routes[..|routes|] == routes;
  }

  /** The result keeps exactly the routes with a Joban start leg, in input order, each with its fields copied. */
  lemma {:induction false} JobanExpressRoutesFiltered(routes: seq<Route>)
    ensures var kept := Filter(routes, HasJobanStart);
      |JobanExpressRoutes(routes)| == |kept|
      && forall k :: 0 <= k < |kept| ==> JobanExpressRoutes(routes)[k] == AsJobanExpressRoute(kept[k])
  {
    if routes != [] {
      JobanExpressRoutesFiltered(routes[..|routes| - 1]);
    }
  }

  /** Adding the fields changes no field of the route itself. */
  lemma {:induction false} AsJobanExpressRouteCopies(route: Route)
    ensures var j := AsJobanExpressRoute(route);
      j.(jobanExpressLegs := route.jobanExpressLegs, jobanExpressLegsRouteExplain := route.jobanExpressLegsRouteExplain) == route
      && (HasJobanStart(route) ==> j.jobanExpressLegs.Some? && |j.jobanExpressLegs.value| > 0)
  {
  }

  lemma {:induction false} UntilRunEndShape(s: seq<RouteLeg>)
    ensures |UntilRunEnd(s)| <= |s| && UntilRunEnd(s) == s[..|UntilRunEnd(s)|]
    ensures forall k :: 0 <= k < |UntilRunEnd(s)| - 1 ==> UntilRunEnd(s)[k].to.directFlag != "0"
    ensures |UntilRunEnd(s)| < |s| ==> UntilRunEnd(s)[|UntilRunEnd(s)| - 1].to.directFlag == "0"
  {
    if s != [] && s[0].to.directFlag != "0" {
      UntilRunEndShape(s[1..]);
    }
  }

  /**
   * The section starts with the first start leg; when that leg already ends
   * its run it is alone. Otherwise it continues with later legs in `seq`
   * order, and only its last leg may end the run.
   */
  lemma {:induction false} JobanExpressLegsShape(legs: seq<RouteLeg>)
    requires FirstJobanStart(legs).Some?
    ensures var r := JobanExpressLegs(legs); var k := FirstJobanStart(legs).value;
      r != [] && r[0] == legs[k]
      && (legs[k].to.directFlag == "0" ==> r == [legs[k]])
      && (forall j :: 1 <= j < |r| ==> r[j] in legs && r[j].seqNo > legs[k].seqNo)
      && AscendingSeq(r)
      && (forall j :: 0 <= j < |r| - 1 ==> r[j].to.directFlag != "0")
  {
    var k := FirstJobanStart(legs).value;
    var start := legs[k];
    if start.to.directFlag != "0" {
      var sub := Subsequent(legs, start.seqNo);
      var u := UntilRunEnd(sub);
      var r := [start] + u;
      assert r == JobanExpressLegs(legs);
      SubsequentShape(legs, start.seqNo);
      SectionTail(start, sub);
    }
  }

  /** The start leg followed by a prefix of the later legs, sorted, that stops where the run ends. */
  lemma {:induction false} SectionTail(start: RouteLeg, sub: seq<RouteLeg>)
    requires start.to.directFlag != "0"
    requires AscendingSeq(sub) && forall x :: x in sub ==> x.seqNo > start.seqNo
    ensures var r := [start] + UntilRunEnd(sub);
      AscendingSeq(r) && (forall j :: 1 <= j < |r| ==> r[j] in sub)
      && (forall j :: 0 <= j < |r| - 1 ==> r[j].to.directFlag != "0")
  {
    UntilRunEndShape(sub);
    var u := UntilRunEnd(sub);
    var r := [start] + u;
    forall j | 1 <= j < |r| ensures r[j] in sub {
      assert r[j] == u[j - 1] == sub[j - 1];
    }
    forall a, b | 0 <= a < b < |r| ensures r[a].seqNo <= r[b].seqNo {
      assert r[b] == sub[b - 1];
      if a > 0 {
        assert r[a] == sub[a - 1];
      }
    }
    forall j | 0 <= j < |r| - 1 ensures r[j].to.directFlag != "0" {
      if j > 0 {
        assert r[j] == u[j - 1];
      }
    }
  }

  /** How often a character occurs. */
  function Count(s: string, c: char): nat { multiset(s)[c] }

  /** Joining n pieces free of `c` with a separator holding one `c` gives n - 1 of them. */
  lemma {:induction false} JoinCount(parts: seq<string>, sep: string, c: char)
    requires parts != [] && Count(sep, c) == 1
    requires forall k :: 0 <= k < |parts| ==> Count(parts[k], c) == 0
    ensures Count(Join(parts, sep), c) == |parts| - 1
  {
    if |parts| > 1 {
      var rest := Join(parts[1..], sep);
      JoinCount(parts[1..], sep, c);
      assert Join(parts, sep) == parts[0] + sep + rest;
      assert multiset(parts[0] + sep + rest) == multiset(parts[0]) + multiset(sep) + multiset(rest);
    }
  }

  /** An explanation of n legs has exactly n arrows when no name contains one. */
  lemma {:induction false} RouteExplainArrows(legs: seq<RouteLeg>)
    requires legs != [] && Count(legs[0].senkuName, '→') == 0 && Count(legs[0].from.name, '→') == 0
    requires forall k :: 0 <= k < |legs| ==> Count(legs[k].to.name, '→') == 0
    ensures Count(RouteExplain(legs), '→') == |legs|
  {
    var st := Stations(legs);
    forall k | 0 <= k < |st| ensures Count(st[k], '→') == 0 {
      if k > 0 {
        assert st[k] == legs[k - 1].to.name;
      }
    }
    JoinCount(st, Arrow, '→');
    assert Count(Arrow, '→') == 1;
    assert multiset(legs[0].senkuName + ": " + Join(st, Arrow))
      == multiset(legs[0].senkuName) + multiset(": ") + multiset(Join(st, Arrow));
  }

  // ----- The zairai limited-express section -----

  /** Moving back from index `i` while the leg there was boarded through (`from.directFlag` "1"). */
  function ChainStart(s: seq<RouteLeg>, i: nat): (r: nat)
    requires i < |s|
    ensures r <= i
  {
    if s[i].from.directFlag == "1" && i > 0 then ChainStart(s, i - 1) else i
  }

  /**
   * The backward scan over the first `k` sorted legs: each zairai express is
   * collected together with the legs it is through-run from.
   */
  function Collect(s: seq<RouteLeg>, k: nat): seq<RouteLeg>
    requires k <= |s|
  {
    if k == 0 then []
    else if IsZairaiExpress(s[k - 1]) then
      var j := ChainStart(s, k - 1);
      Collect(s, j) + s[j..k]
    else Collect(s, k - 1)
  }

  predicate OnJoban(leg: RouteLeg) { leg.senkuName == Joban }

  /** The collected legs, or none when one of them is on the Joban line. */
  function ZairaiLegs(sorted: seq<RouteLeg>): seq<RouteLeg> {
    var c := Collect(sorted, |sorted|);
    if exists k :: 0 <= k < |c| && OnJoban(c[k]) then [] else c
  }

  /** The backward scan; its inner walk moves the scan index itself. */
  method CollectZairaiLegs(s: seq<RouteLeg>) returns (z: seq<RouteLeg>)
    ensures z == Collect(s, |s|)
  {
    z := [];
    var i := |s| - 1;
    while i >= 0
      invariant -1 <= i < |s|
      invariant Collect(s, |s|) == Collect(s, i + 1) + z
    {
      if IsZairaiExpress(s[i]) {
        var k := i + 1;
        var tail := z;
        i, z := WalkThrough(s, i, z);
        CollectExpressStep(s, k);
        assert Collect(s, |s|) == (Collect(s, i) + s[i..k]) + tail;
      } else {
        CollectOtherStep(s, i + 1);
      }
      i := i - 1;
    }
  }

  /**
   * The inner walk from the express at `start`: while the current leg was
   * boarded through, step back one leg and put it in front.
   */
  method WalkThrough(s: seq<RouteLeg>, start: nat, tail: seq<RouteLeg>) returns (i: nat, z: seq<RouteLeg>)
    requires start < |s|
    ensures i == ChainStart(s, start) && z == s[i..start + 1] + tail
  {
    i := start;
    z := [s[i]] + tail;
    while s[i].from.directFlag == "1" && i > 0
      invariant i <= start
      invariant ChainStart(s, start) == ChainStart(s, i)
      invariant z == s[i..start + 1] + tail
    {
      i := i - 1;
      assert s[i..start + 1] == [s[i]] + s[i + 1..start + 1];
      z := [s[i]] + z;
    }
  }

  /** The scan reaching a zairai express collects it with the legs it is through-run from. */
  lemma {:induction false} CollectExpressStep(s: seq<RouteLeg>, k: nat)
    requires 0 < k <= |s| && IsZairaiExpress(s[k - 1])
    ensures Collect(s, k) == Collect(s, ChainStart(s, k - 1)) + s[ChainStart(s, k - 1)..k]
  {
  }

  /** The scan passes over any other leg. */
  lemma {:induction false} CollectOtherStep(s: seq<RouteLeg>, k: nat)
    requires 0 < k <= |s| && !IsZairaiExpress(s[k - 1])
    ensures Collect(s, k) == Collect(s, k - 1)
  {
  }

  /** Every collected leg comes from the scanned part of the input. */
  lemma {:induction false} CollectFrom(s: seq<RouteLeg>, k: nat)
    requires k <= |s|
    ensures forall x :: x in Collect(s, k) ==> x in s[..k]
  {
    if k > 0 {
      if IsZairaiExpress(s[k - 1]) {
        var j := ChainStart(s, k - 1);
        CollectFrom(s, j);
        var c := Collect(s, j);
        assert s[..j] <= s[..k];
        forall x | x in c + s[j..k] ensures x in s[..k] {
          if x !in c {
            var t :| j <= t < k && s[t] == x;
            assert s[..k][t] == x;
          }
        }
      } else {
        CollectFrom(s, k - 1);
        assert s[..k - 1] <= s[..k];
      }
    }
  }

  /** Ascending legs taken from before `j`, then the ascending legs from `j` to `k`, are ascending. */
  lemma {:induction false} AscendingJoin(c: seq<RouteLeg>, s: seq<RouteLeg>, j: nat, k: nat)
    requires j <= k <= |s| && AscendingSeq(s) && AscendingSeq(c)
    requires forall x :: x in c ==> x in s[..j]
    ensures AscendingSeq(c + s[j..k])
  {
    var r := c + s[j..k];
    forall a, b | 0 <= a < b < |r| ensures r[a].seqNo <= r[b].seqNo {
      if a < |c| && b >= |c| {
        assert r[a] in s[..j];
        var t :| 0 <= t < j && s[t] == r[a];
        assert r[b] == s[j + b - |c|];
      } else if a >= |c| {
        assert r[a] == s[j + a - |c|] && r[b] == s[j + b - |c|];
      } else {
        assert r[a] == c[a] && r[b] == c[b];
      }
    }
  }

  /** Legs in ascending order are collected in ascending order. */
  lemma {:induction false} CollectAscending(s: seq<RouteLeg>, k: nat)
    requires k <= |s| && AscendingSeq(s)
    ensures AscendingSeq(Collect(s, k))
  {
    if k > 0 {
      if IsZairaiExpress(s[k - 1]) {
        var j := ChainStart(s, k - 1);
        CollectAscending(s, j);
        CollectFrom(s, j);
        AscendingJoin(Collect(s, j), s, j, k);
        CollectExpressStep(s, k);
      } else {
        CollectAscending(s, k - 1);
        CollectOtherStep(s, k);
      }
    }
  }

  /** A non-empty collection ends on a zairai express. */
  lemma {:induction false} CollectEndsOnExpress(s: seq<RouteLeg>, k: nat)
    requires k <= |s|
    ensures Collect(s, k) != [] ==> IsZairaiExpress(Collect(s, k)[|Collect(s, k)| - 1])
  {
    if k > 0 {
      if IsZairaiExpress(s[k - 1]) {
        var j := ChainStart(s, k - 1);
        var r := Collect(s, j) + s[j..k];
        assert r[|r| - 1] == s[k - 1];
      } else {
        CollectEndsOnExpress(s, k - 1);
      }
    }
  }

  /** Every collected leg comes from the input, in input order, and the scan ends on a zairai express. */
  lemma {:induction false} CollectShape(s: seq<RouteLeg>, k: nat)
    requires k <= |s|
    ensures forall x :: x in Collect(s, k) ==> x in s[..k]
    ensures AscendingSeq(s) ==> AscendingSeq(Collect(s, k))
    ensures Collect(s, k) != [] ==> IsZairaiExpress(Collect(s, k)[|Collect(s, k)| - 1])
  {
    CollectFrom(s, k);
    if AscendingSeq(s) {
      CollectAscending(s, k);
    }
    CollectEndsOnExpress(s, k);
  }

  /** The Joban-line check: a non-empty result has no leg on the Joban line. */
  lemma {:induction false} ZairaiLegsNoJoban(sorted: seq<RouteLeg>)
    ensures forall k :: 0 <= k < |ZairaiLegs(sorted)| ==> !OnJoban(ZairaiLegs(sorted)[k])
    ensures ZairaiLegs(sorted) == [] || ZairaiLegs(sorted) == Collect(sorted, |sorted|)
  {
  }

  /** With no zairai express among the legs nothing is collected. */
  lemma {:induction false} CollectNone(s: seq<RouteLeg>, k: nat)
    requires k <= |s| && forall j :: 0 <= j < k ==> !IsZairaiExpress(s[j])
    ensures Collect(s, k) == []
  {
    if k > 0 {
      CollectNone(s, k - 1);
    }
  }

  // ----- Grouping by line -----

  /** `Map.set` of a new key appends it; `get(...).push` extends the existing list. */
  function AddToGroups(g: seq<(string, seq<RouteLeg>)>, leg: RouteLeg): (r: seq<(string, seq<RouteLeg>)>)
    ensures |g| <= |r| <= |g| + 1
  {
    if g == [] then [(leg.senkuName, [leg])]
    else if g[0].0 == leg.senkuName then [(g[0].0, g[0].1 + [leg])] + g[1..]
    else [g[0]] + AddToGroups(g[1..], leg)
  }

  /** `groupBySenkuName`: an insertion-ordered map from line names to their legs. */
  function Groups(legs: seq<RouteLeg>): seq<(string, seq<RouteLeg>)> {
    if legs == [] then [] else AddToGroups(Groups(legs[..|legs| - 1]), legs[|legs| - 1])
  }

  /** Entries before the first one with the leg's line are passed over unchanged. */
  lemma {:induction false} AddToGroupsSkip(g: seq<(string, seq<RouteLeg>)>, k: nat, leg: RouteLeg)
    requires k <= |g| && forall j :: 0 <= j < k ==> g[j].0 != leg.senkuName
    ensures AddToGroups(g, leg) == g[..k] + AddToGroups(g[k..], leg)
  {
    if k > 0 {
      AddToGroupsSkip(g[1..], k - 1, leg);
      assert g[1..][k - 1..] == g[k..];
      assert g[..k] == [g[0]] + g[1..][..k - 1];
    }
  }

  /** `groupBySenkuName` as written: one pass, each leg into its line's list. */
  method GroupBySenkuName(legs: seq<RouteLeg>) returns (grouped: seq<(string, seq<RouteLeg>)>)
    ensures grouped == Groups(legs)
  {
    grouped := [];
    for i := 0 to |legs|
      invariant grouped == Groups(legs[..i])
    {
      var leg := legs[i];
      var k := 0;
      while k < |grouped| && grouped[k].0 != leg.senkuName
        invariant 0 <= k <= |grouped|
        invariant forall j :: 0 <= j < k ==> grouped[j].0 != leg.senkuName
      {
        k := k + 1;
      }
      AddToGroupsSkip(grouped, k, leg);
      if k == |grouped| {
        assert grouped[k..] == [];
        grouped := grouped + [(leg.senkuName, [leg])];
      } else {
        assert grouped[k..] == [grouped[k]] + grouped[k + 1..];
        grouped := grouped[..k] + [(grouped[k].0, grouped[k].1 + [leg])] + grouped[k + 1..];
      }
      assert legs[..i + 1][..i] == legs[..i];
    }
    assert legs[..|legs|] == legs;
  }

  predicate DistinctKeys(g: seq<(string, seq<RouteLeg>)>) {
    forall a, b :: 0 <= a < b < |g| ==> g[a].0 != g[b].0
  }

  function Total(g: seq<(string, seq<RouteLeg>)>): nat {
    if g == [] then 0 else |g[0].1| + Total(g[1..])
  }

  /** `legs.filter(leg => leg.senkuName === name)`. */
  function OfLine(legs: seq<RouteLeg>, name: string): seq<RouteLeg> {
    if legs == [] then []
    else OfLine(legs[..|legs| - 1], name) + (if legs[|legs| - 1].senkuName == name then [legs[|legs| - 1]] else [])
  }

  /** The position of the entry for a line, or the number of entries when there is none. */
  function KeyIndex(g: seq<(string, seq<RouteLeg>)>, name: string): (r: nat)
    ensures r <= |g| && (r < |g| ==> g[r].0 == name) && forall j :: 0 <= j < r ==> g[j].0 != name
  {
    if g == [] then 0 else if g[0].0 == name then 0 else KeyIndex(g[1..], name) + 1
  }

  lemma {:induction false} TotalAppend(a: seq<(string, seq<RouteLeg>)>, b: seq<(string, seq<RouteLeg>)>)
    ensures Total(a + b) == Total(a) + Total(b)
  {
    if a != [] {
      TotalAppend(a[1..], b);
      assert (a + b)[1..] == a[1..] + b;
    } else {
      assert a + b == b;
    }
  }

  /** Adding a leg rewrites exactly the entry of its line, or appends one. */
  lemma {:induction false} AddToGroupsAt(g: seq<(string, seq<RouteLeg>)>, leg: RouteLeg)
    ensures var i := KeyIndex(g, leg.senkuName);
      AddToGroups(g, leg) == g[..i] + [(leg.senkuName, (if i < |g| then g[i].1 else []) + [leg])]
        + (if i < |g| then g[i + 1..] else [])
  {
    var i := KeyIndex(g, leg.senkuName);
    AddToGroupsSkip(g, i, leg);
    var t := g[i..];
    if i < |g| {
      assert t[0] == g[i] && t[1..] == g[i + 1..];
      assert t != [] && t[0].0 == leg.senkuName;
      assert AddToGroups(t, leg) == [(t[0].0, t[0].1 + [leg])] + t[1..];
    } else {
      assert t == [];
      assert AddToGroups(t, leg) == [(leg.senkuName, [leg])];
      assert [] + [leg] == [leg];
      assert g[..i] + [(leg.senkuName, [leg])] + [] == g[..i] + [(leg.senkuName, [leg])];
    }
  }

  /** Adding a leg adds one leg in all. */
  lemma {:induction false} AddToGroupsTotal(g: seq<(string, seq<RouteLeg>)>, leg: RouteLeg)
    ensures Total(AddToGroups(g, leg)) == Total(g) + 1
  {
    var i := KeyIndex(g, leg.senkuName);
    AddToGroupsAt(g, leg);
    var entry := (leg.senkuName, (if i < |g| then g[i].1 else []) + [leg]);
    var post := if i < |g| then g[i + 1..] else [];
    TotalAppend(g[..i] + [entry], post);
    TotalAppend(g[..i], [entry]);
    if i < |g| {
      assert g == g[..i] + [g[i]] + post;
      TotalAppend(g[..i] + [g[i]], post);
      TotalAppend(g[..i], [g[i]]);
    } else {
      assert g[..i] == g;
    }
  }

  /** Adding a leg keeps one entry per line. */
  lemma {:induction false} AddToGroupsDistinct(g: seq<(string, seq<RouteLeg>)>, leg: RouteLeg)
    requires DistinctKeys(g)
    ensures DistinctKeys(AddToGroups(g, leg))
  {
    AddToGroupsAt(g, leg);
    var r := AddToGroups(g, leg);
    forall a, b | 0 <= a < b < |r| ensures r[a].0 != r[b].0 {
      assert a < |g| && r[a].0 == g[a].0;
      if b < |g| {
        assert r[b].0 == g[b].0;
      }
    }
  }

  /** Adding a leg keeps one entry per line and adds one leg in all. */
  lemma {:induction false} AddToGroupsCounts(g: seq<(string, seq<RouteLeg>)>, leg: RouteLeg)
    requires DistinctKeys(g)
    ensures DistinctKeys(AddToGroups(g, leg))
    ensures Total(AddToGroups(g, leg)) == Total(g) + 1
  {
    AddToGroupsDistinct(g, leg);
    AddToGroupsTotal(g, leg);
  }

  /** Adding a leg appends it to its line's entry and leaves the other entries as they were. */
  lemma {:induction false} AddToGroupsEntries(g: seq<(string, seq<RouteLeg>)>, leg: RouteLeg)
    requires DistinctKeys(g)
    ensures forall a :: 0 <= a < |g| ==> (AddToGroups(g, leg)[a].0 == g[a].0
      && AddToGroups(g, leg)[a].1 == g[a].1 + (if g[a].0 == leg.senkuName then [leg] else []))
    ensures |AddToGroups(g, leg)| == |g| + 1 ==> (AddToGroups(g, leg)[|g|] == (leg.senkuName, [leg])
      && forall a :: 0 <= a < |g| ==> g[a].0 != leg.senkuName)
    ensures |AddToGroups(g, leg)| == |g| ==> exists a :: 0 <= a < |g| && g[a].0 == leg.senkuName
  {
    var i := KeyIndex(g, leg.senkuName);
    AddToGroupsAt(g, leg);
    var r := AddToGroups(g, leg);
    var post := if i < |g| then g[i + 1..] else [];
    if i < |g| {
      assert |r| == |g|;
    } else {
      assert [] + [leg] == [leg];
      assert r[|g|] == (leg.senkuName, [leg]);
    }
    forall a | 0 <= a < |g| ensures r[a].0 == g[a].0 && r[a].1 == g[a].1 + (if g[a].0 == leg.senkuName then [leg] else []) {
      if a < i {
        assert r[a] == g[a];
      } else if a > i {
        assert r[a] == post[a - i - 1] == g[a];
        assert g[a].0 != g[i].0;
      }
    }
  }

  predicate HasKey(g: seq<(string, seq<RouteLeg>)>, name: string) {
    exists a :: 0 <= a < |g| && g[a].0 == name
  }

  /** A line that is no key of the grouping has no legs among those grouped. */
  lemma {:induction false} OfLineNoKey(u: seq<RouteLeg>, name: string, g: seq<(string, seq<RouteLeg>)>)
    requires forall k :: 0 <= k < |u| ==> HasKey(g, u[k].senkuName)
    requires !HasKey(g, name)
    ensures OfLine(u, name) == []
  {
    if u != [] {
      var v := u[..|u| - 1];
      assert forall k :: 0 <= k < |v| ==> v[k] == u[k];
      OfLineNoKey(v, name, g);
      assert HasKey(g, u[|u| - 1].senkuName);
    }
  }

  lemma {:induction false} GroupsSnoc(u: seq<RouteLeg>, leg: RouteLeg)
    ensures Groups(u + [leg]) == AddToGroups(Groups(u), leg)
  {
    assert (u + [leg])[..|u|] == u;
  }

  lemma {:induction false} OfLineSnoc(u: seq<RouteLeg>, leg: RouteLeg, name: string)
    ensures OfLine(u + [leg], name) == OfLine(u, name) + (if leg.senkuName == name then [leg] else [])
  {
    assert (u + [leg])[..|u|] == u;
  }

  /** One more leg: an entry that was there holds exactly the legs of its line. */
  lemma {:induction false} OldGroupLine(u: seq<RouteLeg>, leg: RouteLeg, a: nat)
    requires var g := Groups(u); DistinctKeys(g) && a < |g| && g[a].1 == OfLine(u, g[a].0)
    ensures var r := AddToGroups(Groups(u), leg); a < |r| && r[a].1 == OfLine(u + [leg], r[a].0)
  {
    var g := Groups(u);
    AddToGroupsEntries(g, leg);
    OfLineSnoc(u, leg, g[a].0);
  }

  /** One more leg: a new entry holds exactly the leg, the first of its line. */
  lemma {:induction false} NewGroupLine(u: seq<RouteLeg>, leg: RouteLeg)
    requires var g := Groups(u); DistinctKeys(g) && forall k :: 0 <= k < |u| ==> HasKey(g, u[k].senkuName)
    requires |AddToGroups(Groups(u), leg)| > |Groups(u)|
    ensures var r := AddToGroups(Groups(u), leg); r[|Groups(u)|].1 == OfLine(u + [leg], r[|Groups(u)|].0)
  {
    var g := Groups(u);
    AddToGroupsEntries(g, leg);
    OfLineSnoc(u, leg, leg.senkuName);
    OfLineNoKey(u, leg.senkuName, g);
  }

  /** One more leg: each entry still holds exactly the legs of its line. */
  lemma {:induction false} GroupsLinesStep(u: seq<RouteLeg>, leg: RouteLeg)
    requires var g := Groups(u);
      DistinctKeys(g) && (forall a :: 0 <= a < |g| ==> g[a].1 == OfLine(u, g[a].0))
      && forall k :: 0 <= k < |u| ==> HasKey(g, u[k].senkuName)
    ensures var r := Groups(u + [leg]); forall a :: 0 <= a < |r| ==> r[a].1 == OfLine(u + [leg], r[a].0)
  {
    GroupsSnoc(u, leg);
    var g := Groups(u);
    forall a | 0 <= a < |Groups(u + [leg])| ensures Groups(u + [leg])[a].1 == OfLine(u + [leg], Groups(u + [leg])[a].0) {
      if a < |g| {
        OldGroupLine(u, leg, a);
      } else {
        NewGroupLine(u, leg);
      }
    }
  }

  /** One more leg: every leg's line is still a key. */
  lemma {:induction false} GroupsKeysStep(legs: seq<RouteLeg>)
    requires legs != []
    requires var u := legs[..|legs| - 1]; var g := Groups(u);
      DistinctKeys(g) && forall k :: 0 <= k < |u| ==> HasKey(g, u[k].senkuName)
    ensures forall k :: 0 <= k < |legs| ==> HasKey(Groups(legs), legs[k].senkuName)
  {
    var u := legs[..|legs| - 1];
    var leg := legs[|legs| - 1];
    var g := Groups(u);
    AddToGroupsEntries(g, leg);
    var r := Groups(legs);
    assert r == AddToGroups(g, leg);
    forall k | 0 <= k < |legs| ensures HasKey(r, legs[k].senkuName) {
      if k < |u| {
        assert HasKey(g, u[k].senkuName);
        var a :| 0 <= a < |g| && g[a].0 == u[k].senkuName;
        assert r[a].0 == legs[k].senkuName;
      } else if |r| == |g| {
        var a :| 0 <= a < |g| && g[a].0 == leg.senkuName;
        assert r[a].0 == legs[k].senkuName;
      } else {
        assert r[|g|].0 == legs[k].senkuName;
      }
    }
  }

  /**
   * The grouping has one entry per line, the legs of each line in their input
   * order, and as many legs in all as the input; every leg's line is a key.
   */
  lemma {:induction false} GroupsShape(legs: seq<RouteLeg>)
    ensures DistinctKeys(Groups(legs))
    ensures Total(Groups(legs)) == |legs|
    ensures forall a :: 0 <= a < |Groups(legs)| ==> Groups(legs)[a].1 == OfLine(legs, Groups(legs)[a].0)
    ensures forall k :: 0 <= k < |legs| ==> HasKey(Groups(legs), legs[k].senkuName)
  {
    if legs != [] {
      var u := legs[..|legs| - 1];
      var leg := legs[|legs| - 1];
      GroupsShape(u);
      AddToGroupsCounts(Groups(u), leg);
      assert legs == u + [leg];
      GroupsLinesStep(u, leg);
      GroupsKeysStep(legs);
    }
  }

  // ----- Routes with a zairai limited express -----

  /** The input route after its legs were sorted in place. */
  function WithSortedLegs(route: Route): Route { route.(legs := SortLegs(route.legs)) }

  function ExplainList(g: seq<(string, seq<RouteLeg>)>): (r: seq<string>)
    ensures |r| == |g|
    ensures forall a :: 0 <= a < |g| ==> r[a] == RouteExplain(g[a].1)
  {
    if g == [] then [] else [RouteExplain(g[0].1)] + ExplainList(g[1..])
  }

  predicate HasZairaiLegs(route: Route) { ZairaiLegs(route.legs) != [] }

  /** The route with its explanation list, one entry per line group of its zairai legs. */
  function ZairaiFields(route: Route): Route {
    route.(zairaiExpressLegsRouteExplainList := Some(ExplainList(Groups(ZairaiLegs(route.legs)))))
  }

  /** The zairai route built from a Joban-express route, or none. */
  function AsZairaiRoute(route: Route): Option<Route> {
    var sorted := WithSortedLegs(route);
    if HasZairaiLegs(sorted) then Some(ZairaiFields(sorted)) else None
  }

  /** `extractJobanZairaiExpressRoutes` on a prefix of its input. */
  function ZairaiRoutes(routes: seq<Route>): seq<Route> {
    if routes == [] then []
    else
      var last := AsZairaiRoute(routes[|routes| - 1]);
      ZairaiRoutes(routes[..|routes| - 1]) + (if last.Some? then [last.value] else [])
  }

  function SortEachRoute(routes: seq<Route>): (r: seq<Route>)
    ensures |r| == |routes|
    ensures forall k :: 0 <= k < |routes| ==> r[k] == WithSortedLegs(routes[k])
  {
    if routes == [] then [] else SortEachRoute(routes[..|routes| - 1]) + [WithSortedLegs(routes[|routes| - 1])]
  }

  /** The explanation loop over the groups. */
  method ExplainGroups(grouped: seq<(string, seq<RouteLeg>)>) returns (explains: seq<string>)
    ensures explains == ExplainList(grouped)
  {
    explains := [];
    for a := 0 to |grouped|
      invariant |explains| == a
      invariant forall b :: 0 <= b < a ==> explains[b] == RouteExplain(grouped[b].1)
    {
      explains := explains + [RouteExplain(grouped[a].1)];
    }
  }

  /** One iteration of `extractJobanZairaiExpressRoutes` on a route whose legs are already sorted. */
  method ZairaiRouteOf(route: Route) returns (o: Option<Route>)
    ensures o == (if HasZairaiLegs(route) then Some(ZairaiFields(route)) else None)
  {
    var zairai := CollectZairaiLegs(route.legs);
    if exists k :: 0 <= k < |zairai| && OnJoban(zairai[k]) {
      zairai := [];
    }
    assert zairai == ZairaiLegs(route.legs);
    if |zairai| > 0 {
      var grouped := GroupBySenkuName(zairai);
      var explains := ExplainGroups(grouped);
      return Some(route.(zairaiExpressLegsRouteExplainList := Some(explains)));
    }
    return None;
  }

  /**
   * `extractJobanZairaiExpressRoutes`. Besides its result the method returns
   * its input as it stands afterwards: `route.legs.sort` reorders every
   * route's own legs array.
   */
  method ExtractJobanZairaiExpressRoutes(routes: seq<Route>) returns (r: seq<Route>, sortedInput: seq<Route>)
    ensures r == ZairaiRoutes(routes)
    ensures sortedInput == SortEachRoute(routes)
  {
    r := [];
    sortedInput := [];
    for i := 0 to |routes|
      invariant r == ZairaiRoutes(routes[..i])
      invariant sortedInput == SortEachRoute(routes[..i])
    {
      assert routes[..i + 1][..i] == routes[..i];
      var route := routes[i].(legs := SortLegs(routes[i].legs));
      sortedInput := sortedInput + [route];
      var o := ZairaiRouteOf(route);
      if o.Some? {
        r := r + [o.value];
      }
    }
    assert routes[..|routes|] == routes;
  }

  lemma {:induction false} ExplainListAppend(g: seq<(string, seq<RouteLeg>)>, x: (string, seq<RouteLeg>))
    ensures ExplainList(g + [x]) == ExplainList(g) + [RouteExplain(x.1)]
  {
    var r := ExplainList(g + [x]);
    assert forall a :: 0 <= a < |g| ==> (g + [x])[a] == g[a];
  }

  /** One more input route: the kept routes gain it exactly when it has zairai legs. */
  lemma {:induction false} KeptSnoc(routes: seq<Route>)
    requires routes != []
    ensures var last := WithSortedLegs(routes[|routes| - 1]);
      Filter(SortEachRoute(routes), HasZairaiLegs)
        == Filter(SortEachRoute(routes[..|routes| - 1]), HasZairaiLegs) + (if HasZairaiLegs(last) then [last] else [])
  {
    var s := SortEachRoute(routes);
    assert s == SortEachRoute(routes[..|routes| - 1]) + [WithSortedLegs(routes[|routes| - 1])];
    assert s[..|s| - 1] == SortEachRoute(routes[..|routes| - 1]);
  }

  /** One more input route: the result gains its zairai version exactly when it has zairai legs. */
  lemma {:induction false} ZairaiRoutesSnoc(routes: seq<Route>)
    requires routes != []
    ensures var last := WithSortedLegs(routes[|routes| - 1]);
      ZairaiRoutes(routes) == ZairaiRoutes(routes[..|routes| - 1]) + (if HasZairaiLegs(last) then [ZairaiFields(last)] else [])
  {
  }

  /** Two lists paired entry by entry stay paired when each gains the matching entry or none. */
  lemma {:induction false} PairedSnoc(z: seq<Route>, kept: seq<Route>, last: Route)
    requires |z| == |kept| && forall k :: 0 <= k < |kept| ==> z[k] == ZairaiFields(kept[k])
    ensures var z' := z + (if HasZairaiLegs(last) then [ZairaiFields(last)] else []);
      var kept' := kept + (if HasZairaiLegs(last) then [last] else []);
      |z'| == |kept'| && forall k :: 0 <= k < |kept'| ==> z'[k] == ZairaiFields(kept'[k])
  {
  }

  /**
   * The result is an order-preserving selection of the legs-sorted input:
   * exactly the routes whose zairai list is non-empty, each with one
   * explanation per line group.
   */
  lemma {:induction false} ZairaiRoutesFiltered(routes: seq<Route>)
    ensures var kept := Filter(SortEachRoute(routes), HasZairaiLegs);
      |ZairaiRoutes(routes)| == |kept|
      && forall k :: 0 <= k < |kept| ==> ZairaiRoutes(routes)[k] == ZairaiFields(kept[k])
  {
    if routes != [] {
      var u := routes[..|routes| - 1];
      ZairaiRoutesFiltered(u);
      KeptSnoc(routes);
      ZairaiRoutesSnoc(routes);
      PairedSnoc(ZairaiRoutes(u), Filter(SortEachRoute(u), HasZairaiLegs), WithSortedLegs(routes[|routes| - 1]));
    }
  }

  /** Every kept route has legs in `seq` order and a non-empty explanation list. */
  lemma {:induction false} ZairaiRouteShape(route: Route)
    requires AsZairaiRoute(route).Some?
    ensures var z := AsZairaiRoute(route).value;
      AscendingSeq(z.legs) && multiset(z.legs) == multiset(route.legs)
      && z.zairaiExpressLegsRouteExplainList.Some? && |z.zairaiExpressLegsRouteExplainList.value| > 0
  {
    SortLegsAscending(route.legs);
    var z := ZairaiLegs(SortLegs(route.legs));
    GroupsShape(z);
    assert Total(Groups(z)) > 0;
  }
}
