/**
 * The shared part of the communication services: callback registration and
 * notification, the connection state, the phase-completion test over the
 * ticket system's hearing state, and the forwarding of completed messages to
 * the ticket dialogue manager.
 */
module CommunicationService {
  import opened Wrappers
  import opened TicketTypes
  import opened Callbacks

  datatype ConnectionState = Disconnected | Connecting | Connected | ConnectionError

  datatype Role = UserRole | AssistantRole

  /** A chat message; its timestamp and audio are not read here. */
  datatype Message = Message(id: string, role: Role, content: string)

  /** A message as handed to the ticket dialogue manager: `"user"` or `"ai"`, and the text. */
  datatype TicketMessage = TicketMessage(messageType: string, content: string)

  /** The basic-information phase is complete once the customer confirmed it. */
  predicate BasicInfoComplete(t: TicketInfo) {
    t.basicInfoConfirmed == Val(true)
  }

  /** The Joban express inquiry is complete along one of four paths. */
  predicate JobanInquiryComplete(t: TicketInfo) {
    var useJoban := t.phase2_jobanExpressUse;
    var timeSpec := t.phase2_timeSpecification;
    var timeType := t.phase2_timeSpecificationType;
    var unspecifiedOk := t.phase2_confirmUnspecifiedSeat != Null && t.phase2_confirmUnspecifiedSeat != Undef;
    var proposedOk := t.proposedRouteOK == Val(true);
    var zairaiUse := t.phase2_useZairaiExpress;
    if useJoban == Val(false) then true
    else if useJoban == Val(true) && timeSpec == Val(false) && unspecifiedOk then true
    else if useJoban == Val(true) && timeSpec == Val(true) && timeType == Val("stop") && proposedOk then true
    else if useJoban == Val(true) && timeSpec == Val(true) && timeType == Val("start") && zairaiUse == Val(false) && proposedOk then true
    else false
  }

  /**
   * `checkPhaseCompletion`. `ticket` is the ticket system's hearing state,
   * `None` when the dialogue manager is not the ticket one or has no ticket
   * system.
   */
  function CheckPhaseCompletion(ticket: Option<TicketInfo>): (r: bool)
    ensures r ==> ticket.Some? && ticket.value.currentPhase in {Val(BasicInfo), Val(Joban1), Val(TicketConfirmation)}
    ensures ticket.Some? && ticket.value.currentPhase == Val(BasicInfo) ==>
      (r <==> ticket.value.basicInfoConfirmed == Val(true))
    ensures ticket.Some? && ticket.value.currentPhase == Val(TicketConfirmation) ==>
      (r <==> ticket.value.ticketConfirmed == Val(true))
    ensures ticket.Some? && ticket.value.currentPhase == Val(Joban1) ==>
      (r <==> (ticket.value.phase2_jobanExpressUse == Val(false)
        || (ticket.value.phase2_jobanExpressUse == Val(true) && ticket.value.phase2_timeSpecification == Val(false)
            && ticket.value.phase2_confirmUnspecifiedSeat.Val?)
        || (ticket.value.phase2_timeSpecificationType == Val("stop") && ticket.value.proposedRouteOK == Val(true)
            && ticket.value.phase2_jobanExpressUse == Val(true) && ticket.value.phase2_timeSpecification == Val(true))
        || (ticket.value.phase2_timeSpecificationType == Val("start") && ticket.value.phase2_useZairaiExpress == Val(false)
            && ticket.value.proposedRouteOK == Val(true)
            && ticket.value.phase2_jobanExpressUse == Val(true) && ticket.value.phase2_timeSpecification == Val(true))))
  {
    match ticket
    case None => false
    case Some(t) =>
      if t.currentPhase == Val(BasicInfo) then BasicInfoComplete(t)
      else if t.currentPhase == Val(Joban1) then JobanInquiryComplete(t)
      else if t.currentPhase == Val(TicketConfirmation) then t.ticketConfirmed == Val(true)
      else false
  }

  /**
   * A departure-time request with a conventional limited express to add is
   * never complete in the Joban inquiry: it goes on to the second Joban phase.
   */
  lemma {:induction false} ZairaiExpressContinues(t: TicketInfo)
    requires t.currentPhase == Val(Joban1)
    requires t.phase2_jobanExpressUse == Val(true) && t.phase2_timeSpecification == Val(true)
    requires t.phase2_timeSpecificationType == Val("start") && t.phase2_useZairaiExpress == Val(true)
    ensures !CheckPhaseCompletion(Some(t))
  { }

  /** The Joban inquiry never completes while the customer has not said whether to take the Joban express. */
  lemma {:induction false} JobanUseDecidedFirst(t: TicketInfo)
    requires t.currentPhase == Val(Joban1) && !t.phase2_jobanExpressUse.Val?
    ensures !CheckPhaseCompletion(Some(t))
  { }

  class CommunicationService {
    var messageCallbacks: seq<nat>
    var messageCompleteCallbacks: seq<nat>
    var errorCallbacks: seq<nat>
    var stateChangeCallbacks: seq<nat>
    var connectionState: ConnectionState
    var recording: bool
    /** The messages handed to the ticket dialogue manager, in order. */
    var ticketMessages: seq<TicketMessage>
    /** Whether the dialogue manager is the ticket one. */
    const usesTicketManager: bool

    /** The four callback lists: message, completion, error and state change. */
    function Callbacks(): (seq<nat>, seq<nat>, seq<nat>, seq<nat>)
      reads this
    {
      (messageCallbacks, messageCompleteCallbacks, errorCallbacks, stateChangeCallbacks)
    }

    constructor(usesTicketManager: bool)
      ensures this.usesTicketManager == usesTicketManager
      ensures messageCallbacks == [] && messageCompleteCallbacks == [] && errorCallbacks == [] && stateChangeCallbacks == []
      ensures connectionState == Disconnected && !recording && ticketMessages == []
    {
      this.usesTicketManager := usesTicketManager;
      messageCallbacks := [];
      messageCompleteCallbacks := [];
      errorCallbacks := [];
      stateChangeCallbacks := [];
      connectionState := Disconnected;
      recording := false;
      ticketMessages := [];
    }

    method OnMessage(callback: nat)
      modifies this
      ensures messageCallbacks == old(messageCallbacks) + [callback]
      ensures messageCompleteCallbacks == old(messageCompleteCallbacks) && errorCallbacks == old(errorCallbacks)
      ensures stateChangeCallbacks == old(stateChangeCallbacks)
      ensures connectionState == old(connectionState) && recording == old(recording) && ticketMessages == old(ticketMessages)
    {
      messageCallbacks := messageCallbacks + [callback];
    }

    method OnMessageComplete(callback: nat)
      modifies this
      ensures messageCompleteCallbacks == old(messageCompleteCallbacks) + [callback]
      ensures messageCallbacks == old(messageCallbacks) && errorCallbacks == old(errorCallbacks)
      ensures stateChangeCallbacks == old(stateChangeCallbacks)
      ensures connectionState == old(connectionState) && recording == old(recording) && ticketMessages == old(ticketMessages)
    {
      messageCompleteCallbacks := messageCompleteCallbacks + [callback];
    }

    method OnError(callback: nat)
      modifies this
      ensures errorCallbacks == old(errorCallbacks) + [callback]
      ensures messageCallbacks == old(messageCallbacks) && messageCompleteCallbacks == old(messageCompleteCallbacks)
      ensures stateChangeCallbacks == old(stateChangeCallbacks)
      ensures connectionState == old(connectionState) && recording == old(recording) && ticketMessages == old(ticketMessages)
    {
      errorCallbacks := errorCallbacks + [callback];
    }

    method OnStateChange(callback: nat)
      modifies this
      ensures stateChangeCallbacks == old(stateChangeCallbacks) + [callback]
      ensures messageCallbacks == old(messageCallbacks) && messageCompleteCallbacks == old(messageCompleteCallbacks)
      ensures errorCallbacks == old(errorCallbacks)
      ensures connectionState == old(connectionState) && recording == old(recording) && ticketMessages == old(ticketMessages)
    {
      stateChangeCallbacks := stateChangeCallbacks + [callback];
    }

    predicate IsConnected()
      reads this
    {
      connectionState == Connected
    }

    predicate IsRecording()
      reads this
    {
      recording
    }

    /** `notifyMessage`: every message callback once, in registration order. */
    function NotifyMessage(message: Message): (r: seq<Delivery<Message>>)
      reads this
      ensures |r| == |messageCallbacks|
      ensures forall k :: 0 <= k < |r| ==> r[k] == Delivery(messageCallbacks[k], message)
    {
      Notify(messageCallbacks, message)
    }

    /** `notifyMessageComplete`: every completion callback once, in registration order. */
    function NotifyMessageComplete(message: Message): (r: seq<Delivery<Message>>)
      reads this
      ensures |r| == |messageCompleteCallbacks|
      ensures forall k :: 0 <= k < |r| ==> r[k] == Delivery(messageCompleteCallbacks[k], message)
    {
      Notify(messageCompleteCallbacks, message)
    }

    /** `notifyError`: every error callback once, in registration order. */
    function NotifyError(error: string): (r: seq<Delivery<string>>)
      reads this
      ensures |r| == |errorCallbacks|
      ensures forall k :: 0 <= k < |r| ==> r[k] == Delivery(errorCallbacks[k], error)
    {
      Notify(errorCallbacks, error)
    }

    /**
     * `notifyStateChange`: the state is stored before any callback runs, so
     * every callback, and `isConnected`, sees the new state.
     */
    method NotifyStateChange(state: ConnectionState) returns (calls: seq<Delivery<ConnectionState>>)
      modifies this
      ensures connectionState == state
      ensures IsConnected() <==> state == Connected
      ensures |calls| == |stateChangeCallbacks|
      ensures forall k :: 0 <= k < |calls| ==> calls[k] == Delivery(stateChangeCallbacks[k], state)
      ensures messageCallbacks == old(messageCallbacks) && messageCompleteCallbacks == old(messageCompleteCallbacks)
      ensures errorCallbacks == old(errorCallbacks) && stateChangeCallbacks == old(stateChangeCallbacks)
      ensures recording == old(recording) && ticketMessages == old(ticketMessages)
    {
      connectionState := state;
      calls := Notify(stateChangeCallbacks, state);
    }

    /** `notifyTicketSystem`: the user's messages go as "user", every other as "ai". */
    method NotifyTicketSystem(message: Message)
      modifies this
      ensures usesTicketManager ==>
        ticketMessages == old(ticketMessages) + [TicketMessage(if message.role == UserRole then "user" else "ai", message.content)]
      ensures !usesTicketManager ==> ticketMessages == old(ticketMessages)
      ensures messageCallbacks == old(messageCallbacks) && messageCompleteCallbacks == old(messageCompleteCallbacks)
      ensures errorCallbacks == old(errorCallbacks) && stateChangeCallbacks == old(stateChangeCallbacks)
      ensures connectionState == old(connectionState) && recording == old(recording)
    {
      if usesTicketManager {
        var messageType := if message.role == UserRole then "user" else "ai";
        ticketMessages := ticketMessages + [TicketMessage(messageType, message.content)];
      }
    }
  }
}
