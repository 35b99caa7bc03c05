/**
 * The ticket-domain record shared by the dialogue code: the phases and the
 * hearing state (`TicketInformation`). Every field may be absent, `undefined`
 * or `null` in the program, so every field is a `Nullable`; an absent field and
 * one holding `undefined` are the same `Undef`.
 */
module TicketTypes {
  import opened Wrappers
  import opened RouteModel

  datatype Phase =
    | BasicInfo
    | Joban1
    | SeatUnspecified
    | ArrivalTimeSpecified
    | DepartureTimeSpecified
    | JobanPhase2
    | TicketConfirmation
    | ZairaiSpecialCase
    | RouteSearch
    | SeatSelection
    | Payment
    | Confirmation

  /** The string each phase constant stands for. */
  function PhaseId(p: Phase): string {
    match p
    case BasicInfo => "basic_info"
    case Joban1 => "joban_express_inquiry"
    case SeatUnspecified => "seat_unspecified"
    case ArrivalTimeSpecified => "arrival_time_specified"
    case DepartureTimeSpecified => "departure_time_specified"
    case JobanPhase2 => "joban_phase_2"
    case TicketConfirmation => "ticket_confirmation"
    case ZairaiSpecialCase => "zairai_special_case"
    case RouteSearch => "route_search"
    case SeatSelection => "seat_selection"
    case Payment => "payment"
    case Confirmation => "confirmation"
  }

  /** Distinct phases have distinct identifiers. */
  lemma {:induction false} PhaseIdInjective(p: Phase, q: Phase)
    ensures PhaseId(p) == PhaseId(q) ==> p == q
  {
    if PhaseId(p) == PhaseId(q) {
      assert PhaseId(p)[..3] == PhaseId(q)[..3];
      assert |PhaseId(p)| == |PhaseId(q)|;
    }
  }

  /**
   * The fields of the hearing state that the modelled operations read or
   * write; the other fields of the record are handled the same way by the
   * merge and are not listed.
   */
  datatype TicketInfo = TicketInfo(
    currentPhase: Nullable<Phase>,
    resetProposedRoute: Nullable<bool>,
    iscleared: Nullable<bool>,
    destination: Nullable<string>,
    destination_kana: Nullable<string>,
    notFoundDestination: Nullable<bool>,
    convertLastUserMessage: Nullable<string>,
    travelDate: Nullable<string>,
    adultCount: Nullable<int>,
    childCount: Nullable<int>,
    basicInfoConfirmed: Nullable<bool>,
    phase2_jobanExpressUse: Nullable<bool>,
    phase2_timeSpecification: Nullable<bool>,
    phase2_timeSpecificationType: Nullable<string>,
    phase2_specificTime: Nullable<string>,
    phase2_confirmUnspecifiedSeat: Nullable<bool>,
    phase2_useZairaiExpress: Nullable<bool>,
    phase2_confirmed: Nullable<bool>,
    routes: Nullable<seq<Route>>,
    jobanExpressRoutes: Nullable<seq<Route>>,
    jobanZairaiExpressRoutes: Nullable<seq<Route>>,
    proposedRoute: Nullable<Route>,
    proposedRouteOK: Nullable<bool>,
    proposedRouteRequest: Nullable<string>,
    ticketConfirmed: Nullable<bool>,
    ticketIssued: Nullable<bool>,
    zairaiExpressName: Nullable<string>,
    zairaiExpressCategory: Nullable<string>,
    initialProposedZairaiExpressSection: Nullable<RouteLeg>,
    initialProposedRouteWithZairai: Nullable<Route>)

  /** A record with every field absent: the empty `Partial<TicketInformation>`. */
  function NoFields(): TicketInfo {
    TicketInfo(Undef, Undef, Undef, Undef, Undef, Undef, Undef, Undef, Undef, Undef,
      Undef, Undef, Undef, Undef, Undef, Undef, Undef, Undef, Undef, Undef,
      Undef, Undef, Undef, Undef, Undef, Undef, Undef, Undef, Undef, Undef)
  }

  /** JavaScript truthiness of an optional string: present and non-empty. */
  predicate StrTruthy(v: Nullable<string>) { v.Val? && v.value != [] }

  /** JavaScript truthiness of an optional number: present and non-zero. */
  predicate IntTruthy(v: Nullable<int>) { v.Val? && v.value != 0 }

  /** JavaScript truthiness of an optional boolean. */
  predicate BoolTruthy(v: Nullable<bool>) { v == Val(true) }
}
