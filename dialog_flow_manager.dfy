/**
 * The dialog flow manager: a table of dialog phases, the current phase and
 * the history of dialog messages. Each state change is reported to the
 * registered state listener with a snapshot of the current phase and a copy
 * of the history; `notified` records those reports in order.
 */
module DialogFlowManager {
  import opened Wrappers
  import opened Callbacks

  datatype DialogPhase = DialogPhase(id: string, name: string, systemPrompt: string, transitionMessage: Option<string>)

  datatype DialogMessageType = TransitionMessage | CompletionMessage | ErrorMessage

  datatype DialogMessage = DialogMessage(messageType: DialogMessageType, content: string)

  datatype DialogFlowState = DialogFlowState(currentPhase: Option<DialogPhase>, messageHistory: seq<DialogMessage>)

  /** The phase `reset` returns to. */
  const FirstPhaseId := "phase1"

  /** JavaScript truthiness of an optional string: present and not empty. */
  predicate Truthy(s: Option<string>) {
    s.Some? && s.value != ""
  }

  /** `this.phases.get(id)`. */
  function Lookup(phases: map<string, DialogPhase>, id: string): (r: Option<DialogPhase>)
    ensures r.Some? <==> id in phases
    ensures r.Some? ==> r.value == phases[id]
  {
    if id in phases then Some(phases[id]) else None
  }

  /** The reports a state change produces: one when a listener is set, none otherwise. */
  function Report(listener: Option<nat>, state: DialogFlowState): (r: seq<Delivery<DialogFlowState>>)
    ensures listener.None? <==> r == []
    ensures listener.Some? ==> r == [Delivery(listener.value, state)]
  {
    if listener.Some? then [Delivery(listener.value, state)] else []
  }

  class DialogFlowManager {
    /** The phase table. The base class installs none; a subclass fills it. */
    var phases: map<string, DialogPhase>
    /** `undefined` when the table has no entry for the id last looked up. */
    var currentPhase: Option<DialogPhase>
    var messageHistory: seq<DialogMessage>
    var onStateChange: Option<nat>
    var onPhaseChanged: Option<nat>
    var notified: seq<Delivery<DialogFlowState>>

    function State(): DialogFlowState
      reads this
    {
      DialogFlowState(currentPhase, messageHistory)
    }

    /** The base constructor, given the table its subclass installs (empty for the base class itself). */
    constructor(table: map<string, DialogPhase>)
      ensures phases == table && currentPhase == Lookup(table, FirstPhaseId)
      ensures messageHistory == [] && onStateChange == None && onPhaseChanged == None && notified == []
    {
      phases := table;
      currentPhase := Lookup(table, FirstPhaseId);
      messageHistory := [];
      onStateChange := None;
      onPhaseChanged := None;
      notified := [];
    }

    /** `notifyStateChange`. */
    method NotifyStateChange()
      modifies this
      ensures notified == old(notified) + Report(onStateChange, State())
      ensures phases == old(phases) && currentPhase == old(currentPhase) && messageHistory == old(messageHistory)
      ensures onStateChange == old(onStateChange) && onPhaseChanged == old(onPhaseChanged)
    {
      if onStateChange.Some? {
        notified := notified + [Delivery(onStateChange.value, DialogFlowState(currentPhase, messageHistory))];
      }
    }

    /** `addMessage`: exactly one message at the end, then a report. */
    method AddMessage(messageType: DialogMessageType, content: string)
      modifies this
      ensures messageHistory == old(messageHistory) + [DialogMessage(messageType, content)]
      ensures notified == old(notified) + Report(onStateChange, State())
      ensures phases == old(phases) && currentPhase == old(currentPhase)
      ensures onStateChange == old(onStateChange) && onPhaseChanged == old(onPhaseChanged)
    {
      messageHistory := messageHistory + [DialogMessage(messageType, content)];
      NotifyStateChange();
    }

    /**
     * `transitionToPhase`: an unknown id is an error ("Invalid phase: " and
     * the id) that changes nothing; a known id becomes the current phase,
     * adds one transition message exactly when the phase has a non-empty
     * transition message, and is reported.
     */
    method TransitionToPhase(phaseId: string) returns (error: Option<string>)
      modifies this
      ensures error.Some? <==> phaseId !in old(phases)
      ensures error.Some? ==> error.value == "Invalid phase: " + phaseId
      ensures error.Some? ==> currentPhase == old(currentPhase) && messageHistory == old(messageHistory) && notified == old(notified)
      ensures error.None? ==> currentPhase == Some(old(phases)[phaseId])
      ensures error.None? && Truthy(old(phases)[phaseId].transitionMessage) ==>
        messageHistory == old(messageHistory) + [DialogMessage(TransitionMessage, old(phases)[phaseId].transitionMessage.value)]
        && notified == old(notified)
           + Report(onStateChange, State())
           + Report(onStateChange, State())
      ensures error.None? && !Truthy(old(phases)[phaseId].transitionMessage) ==>
        messageHistory == old(messageHistory) && notified == old(notified) + Report(onStateChange, State())
      ensures phases == old(phases) && onStateChange == old(onStateChange) && onPhaseChanged == old(onPhaseChanged)
    {
      var phase := Lookup(phases, phaseId);
      if phase.None? {
        return Some("Invalid phase: " + phaseId);
      }
      currentPhase := phase;
      var tm := phase.value.transitionMessage;
      if tm.Some? && tm.value != "" {
        AddMessage(TransitionMessage, tm.value);
      }
      NotifyStateChange();
      error := None;
    }

    /** `getCurrentPrompt`; None where reading the undefined current phase throws. */
    function GetCurrentPrompt(): (r: Option<string>)
      reads this
      ensures r.Some? <==> currentPhase.Some?
      ensures r.Some? ==> r.value == currentPhase.value.systemPrompt
    {
      if currentPhase.Some? then Some(currentPhase.value.systemPrompt) else None
    }

    /** `generateTransitionMessage`; None where reading the undefined current phase throws. */
    function GenerateTransitionMessage(): (r: Option<string>)
      reads this
      ensures r.Some? <==> currentPhase.Some?
      ensures r.Some? && Truthy(currentPhase.value.transitionMessage) ==> r.value == currentPhase.value.transitionMessage.value
      ensures r.Some? && !Truthy(currentPhase.value.transitionMessage) ==> r.value == ""
    {
      if currentPhase.None? then None
      else if Truthy(currentPhase.value.transitionMessage) then Some(currentPhase.value.transitionMessage.value)
      else Some("")
    }

    /** `getMessageHistory`: a sequence is a value, so the caller gets a copy. */
    method GetMessageHistory() returns (h: seq<DialogMessage>)
      ensures h == messageHistory
    {
      h := messageHistory;
    }

    /** `clearHistory`. */
    method ClearHistory()
      modifies this
      ensures messageHistory == [] && notified == old(notified) + Report(onStateChange, State())
      ensures phases == old(phases) && currentPhase == old(currentPhase)
      ensures onStateChange == old(onStateChange) && onPhaseChanged == old(onPhaseChanged)
    {
      messageHistory := [];
      NotifyStateChange();
    }

    /** `reset`: back to the table's "phase1" entry, undefined when it has none, with an empty history. */
    method Reset()
      modifies this
      ensures currentPhase == Lookup(phases, FirstPhaseId) && messageHistory == []
      ensures notified == old(notified) + Report(onStateChange, State())
      ensures phases == old(phases) && onStateChange == old(onStateChange) && onPhaseChanged == old(onPhaseChanged)
    {
      currentPhase := Lookup(phases, FirstPhaseId);
      ClearHistory();
    }

    method SetOnStateChange(callback: nat)
      modifies this
      ensures onStateChange == Some(callback)
      ensures phases == old(phases) && currentPhase == old(currentPhase) && messageHistory == old(messageHistory)
      ensures onPhaseChanged == old(onPhaseChanged) && notified == old(notified)
    {
      onStateChange := Some(callback);
    }

    method SetOnPhaseChanged(callback: nat)
      modifies this
      ensures onPhaseChanged == Some(callback)
      ensures phases == old(phases) && currentPhase == old(currentPhase) && messageHistory == old(messageHistory)
      ensures onStateChange == old(onStateChange) && notified == old(notified)
    {
      onPhaseChanged := Some(callback);
    }
  }

  /**
   * A caller that changes its copy of the history does not change the
   * manager's: a later addition to the manager's history leaves the copy as
   * it was too.
   */
  method HistoryCopyIsIndependent(m: DialogFlowManager, extra: DialogMessage) returns (copy: seq<DialogMessage>)
    modifies m
    ensures copy == old(m.messageHistory) + [extra]
    ensures m.messageHistory == old(m.messageHistory) + [DialogMessage(CompletionMessage, extra.content)]
  {
    copy := m.GetMessageHistory();
    copy := copy + [extra];
    m.AddMessage(CompletionMessage, extra.content);
  }

  /**
   * With the base class's empty table every transition is refused, and the
   * current phase stays undefined, so neither the prompt nor the transition
   * message can be read.
   */
  method BaseTableRefusesTransitions(phaseId: string) returns (m: DialogFlowManager, error: Option<string>)
    ensures fresh(m)
    ensures error == Some("Invalid phase: " + phaseId)
    ensures m.GetCurrentPrompt() == None && m.GenerateTransitionMessage() == None
    ensures m.messageHistory == []
  {
    m := new DialogFlowManager(map[]);
    error := m.TransitionToPhase(phaseId);
  }

  /** After a transition to a known phase its system prompt is the current prompt. */
  method TransitionSetsPrompt(m: DialogFlowManager, phaseId: string) returns (error: Option<string>, prompt: Option<string>)
    requires phaseId in m.phases
    modifies m
    ensures error.None? && prompt == Some(old(m.phases)[phaseId].systemPrompt)
  {
    error := m.TransitionToPhase(phaseId);
    prompt := m.GetCurrentPrompt();
  }
}
