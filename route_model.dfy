/**
 * The route records read from the route database, and the fields the
 * Joban-express processing adds to them. In the program a Joban-express route
 * is the route object spread into a new one with extra fields; here those
 * fields are optional members of the one `Route` record (`None` when absent).
 */
module RouteModel {
  import opened Wrappers
  import opened StableSort

  datatype StationTime = StationTime(name: string, time: string, directFlag: string)

  /** One leg; `seqNo` is the leg's `seq` field (its position within the route). */
  datatype RouteLeg = RouteLeg(
    seqNo: int,
    senkuName: string,
    nickname: string,
    isExpress: bool,
    from: StationTime,
    to: StationTime)

  datatype Route = Route(
    id: string,
    departureTime: string,
    arrivalTime: string,
    duration: int,
    legs: seq<RouteLeg>,
    jobanExpressLegs: Option<seq<RouteLeg>>,
    jobanExpressLegsRouteExplain: Option<string>,
    zairaiExpressLegsRouteExplainList: Option<seq<string>>)

  const Joban := "常磐線"
  const Mito := "水戸"

  /** The comparator `(a, b) => a.seq - b.seq`. */
  function SeqKey(leg: RouteLeg): (int, int) { (leg.seqNo, 0) }

  function SortLegs(legs: seq<RouteLeg>): seq<RouteLeg> { SortBy(legs, SeqKey) }

  /** A limited express on a line other than the Joban line. */
  predicate IsZairaiExpress(leg: RouteLeg) { leg.isExpress && leg.senkuName != Joban }

  /** The leg sequence numbers are ascending. */
  predicate AscendingSeq(legs: seq<RouteLeg>) {
    forall i, j :: 0 <= i < j < |legs| ==> legs[i].seqNo <= legs[j].seqNo
  }

  /** Sorted legs have ascending sequence numbers and are a permutation of the input. */
  lemma {:induction false} SortLegsAscending(legs: seq<RouteLeg>)
    ensures AscendingSeq(SortLegs(legs))
    ensures multiset(SortLegs(legs)) == multiset(legs)
  {
    SortBySorted(legs, SeqKey);
    SortByPermutes(legs, SeqKey);
    var s := SortLegs(legs);
    forall i, j | 0 <= i < j < |s| ensures s[i].seqNo <= s[j].seqNo {
      assert KeyLe(SeqKey(s[i]), SeqKey(s[j]));
    }
  }
}
