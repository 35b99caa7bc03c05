/**
 * The conversation recorder: it opens a stored conversation for the
 * session, queues the dialogue's messages and sends them in batches, keeps
 * a cache of the hearing items and writes it back, and closes the
 * conversation as completed or aborted. The conversation service's calls
 * are recorded in `calls`; what a call answers is a parameter. The
 * debounced runs and the retries are recorded in `timers` as the delayed
 * runs they request.
 */
module ConversationRecorder {
  import opened Wrappers
  import CommunicationService

  datatype QueuedMessage = QueuedMessage(role: CommunicationService.Role, content: string)

  datatype ClosingStatus = Completed | Aborted

  /** A call of the conversation service. */
  datatype ServiceCall<V> =
    | CreateConversation(sessionId: string)
    | CloseConversation(id: string, status: ClosingStatus)
    | AddMessage(id: string, message: QueuedMessage)
    | UpdateHearingItems(id: string, items: map<string, V>)
    | MarkTicketIssued(id: string)
    | AddFeedback(id: string, feedback: string)
    | UpdateRecording(id: string, storageUrl: string, sasToken: string)

  datatype Task = QueueRun | HearingUpdate

  /** A run of `task` requested `delayMs` milliseconds from now. */
  datatype Timer = Timer(task: Task, delayMs: nat)

  const QueueDebounceMs: nat := 300
  const HearingDebounceMs: nat := 500
  const RetryMs: nat := 2000

  /** JavaScript truthiness of the conversation id: not null and not empty. */
  predicate HasId(id: Option<string>) {
    id.Some? && id.value != ""
  }

  /** The session id: the one given when it is truthy, else "session-" with the clock and a random suffix. */
  function SessionIdFor(given: Option<string>, now: string, random: string): (r: string)
    ensures given.Some? && given.value != "" ==> r == given.value
    ensures !(given.Some? && given.value != "") ==> r == "session-" + now + "-" + random
  {
    if given.Some? && given.value != "" then given.value else "session-" + now + "-" + random
  }

  /** `{ ...cache, ...items }`. */
  function Merge<V>(cache: map<string, V>, items: map<string, V>): (r: map<string, V>)
    ensures r.Keys == cache.Keys + items.Keys
    ensures forall k :: k in items ==> r[k] == items[k]
    ensures forall k :: k in cache && k !in items ==> r[k] == cache[k]
  {
    cache + items
  }

  /** One `addMessage` call per message, in order. */
  function AddCalls<V>(id: string, messages: seq<QueuedMessage>): (r: seq<ServiceCall<V>>)
    ensures |r| == |messages|
    ensures forall k :: 0 <= k < |messages| ==> r[k] == AddMessage(id, messages[k])
  {
    if messages == [] then [] else AddCalls<V>(id, messages[..|messages| - 1]) + [AddMessage(id, messages[|messages| - 1])]
  }

  /**
   * How many messages of a batch of `n` are sent when the call that sends
   * message `failAt` (counting from 0) throws: up to and including that one,
   * or all when `failAt` is past the end.
   */
  function Attempts(failAt: nat, n: nat): (r: nat)
    ensures r <= n
    ensures failAt < n ==> r == failAt + 1
    ensures failAt >= n ==> r == n
  {
    if failAt < n then failAt + 1 else n
  }

  class ConversationRecorder<V> {
    var currentConversationId: Option<string>
    const sessionId: string
    var isRecording: bool
    var hearingItemsCache: map<string, V>
    var messagesQueue: seq<QueuedMessage>
    var updateInProgress: bool
    var calls: seq<ServiceCall<V>>
    var timers: seq<Timer>

    /** Recording with a truthy conversation id: the guard of every recording operation. */
    predicate Active()
      reads this
    {
      isRecording && HasId(currentConversationId)
    }

    constructor(given: Option<string>, now: string, random: string)
      ensures sessionId == SessionIdFor(given, now, random)
      ensures currentConversationId == None && !isRecording && !updateInProgress
      ensures hearingItemsCache == map[] && messagesQueue == [] && calls == [] && timers == []
    {
      sessionId := SessionIdFor(given, now, random);
      currentConversationId := None;
      isRecording := false;
      hearingItemsCache := map[];
      messagesQueue := [];
      updateInProgress := false;
      calls := [];
      timers := [];
    }

    /**
     * `startRecording`: the open conversation's id when recording with one,
     * with nothing asked of the service; otherwise a new conversation for
     * the session, which on success becomes current with an empty cache and
     * queue, and whose failure is passed on with nothing changed.
     */
    method StartRecording(created: Result<string, string>) returns (r: Result<string, string>)
      modifies this
      ensures old(Active()) ==> r == Ok(old(currentConversationId).value) && unchanged(this)
      ensures !old(Active()) ==> calls == old(calls) + [CreateConversation(sessionId)]
      ensures !old(Active()) && created.Err? ==>
        r == created && currentConversationId == old(currentConversationId) && isRecording == old(isRecording)
        && hearingItemsCache == old(hearingItemsCache) && messagesQueue == old(messagesQueue)
      ensures !old(Active()) && created.Ok? ==>
        r == created && currentConversationId == Some(created.value) && isRecording
        && hearingItemsCache == map[] && messagesQueue == []
      ensures updateInProgress == old(updateInProgress) && timers == old(timers)
    {
      if isRecording && HasId(currentConversationId) {
        return Ok(currentConversationId.value);
      }
      calls := calls + [CreateConversation(sessionId)];
      if created.Err? {
        return created;
      }
      currentConversationId := Some(created.value);
      isRecording := true;
      hearingItemsCache := map[];
      messagesQueue := [];
      r := created;
    }

    /** The `finally` of stopping and aborting: whatever the service answered. */
    method EndRecording()
      modifies this
      ensures !isRecording && currentConversationId == None && hearingItemsCache == map[] && messagesQueue == []
      ensures updateInProgress == old(updateInProgress) && calls == old(calls) && timers == old(timers)
    {
      isRecording := false;
      currentConversationId := None;
      hearingItemsCache := map[];
      messagesQueue := [];
    }

    /**
     * `stopRecording`: when active, the queue is flushed (its failure is
     * caught inside the run, which still requests its 2000 ms retry), the
     * conversation is closed as completed, and the recorder ends up reset
     * whether or not the service accepted.
     */
    method StopRecording(failAt: nat)
      modifies this
      ensures !old(Active()) ==> unchanged(this)
      ensures old(Active()) ==> !isRecording && currentConversationId == None && hearingItemsCache == map[] && messagesQueue == []
      ensures old(Active()) && old(updateInProgress) ==>
        calls == old(calls) + [CloseConversation(old(currentConversationId).value, Completed)]
      ensures old(Active()) && !old(updateInProgress) && old(messagesQueue) == [] ==>
        calls == old(calls) + [CloseConversation(old(currentConversationId).value, Completed)]
      ensures old(Active()) && !old(updateInProgress) && old(messagesQueue) != [] ==>
        calls == old(calls)
          + AddCalls(old(currentConversationId).value, old(messagesQueue)[..Attempts(failAt, |old(messagesQueue)|)])
          + [CloseConversation(old(currentConversationId).value, Completed)]
      ensures timers == old(timers)
        + (if old(Active()) && !old(updateInProgress) && failAt < |old(messagesQueue)|
           then [Timer(QueueRun, RetryMs)] else [])
      ensures updateInProgress == old(updateInProgress)
    {
      if !(isRecording && HasId(currentConversationId)) {
        return;
      }
      var id := currentConversationId.value;
      ProcessMessageQueue(failAt);
      calls := calls + [CloseConversation(id, Completed)];
      EndRecording();
    }

    /** `abortRecording`: when active, the conversation is closed as aborted and the recorder reset. */
    method AbortRecording()
      modifies this
      ensures !old(Active()) ==> unchanged(this)
      ensures old(Active()) ==> !isRecording && currentConversationId == None && hearingItemsCache == map[] && messagesQueue == []
      ensures old(Active()) ==> calls == old(calls) + [CloseConversation(old(currentConversationId).value, Aborted)]
      ensures updateInProgress == old(updateInProgress) && timers == old(timers)
    {
      if !(isRecording && HasId(currentConversationId)) {
        return;
      }
      calls := calls + [CloseConversation(currentConversationId.value, Aborted)];
      EndRecording();
    }

    /** `recordMessage`: when active, queued at the end and a queue run debounced. */
    method RecordMessage(role: CommunicationService.Role, content: string)
      modifies this
      ensures !old(Active()) ==> unchanged(this)
      ensures old(Active()) ==>
        messagesQueue == old(messagesQueue) + [QueuedMessage(role, content)]
        && timers == old(timers) + [Timer(QueueRun, QueueDebounceMs)]
      ensures currentConversationId == old(currentConversationId) && isRecording == old(isRecording)
      ensures hearingItemsCache == old(hearingItemsCache) && updateInProgress == old(updateInProgress) && calls == old(calls)
    {
      if !(isRecording && HasId(currentConversationId)) {
        return;
      }
      messagesQueue := messagesQueue + [QueuedMessage(role, content)];
      timers := timers + [Timer(QueueRun, QueueDebounceMs)];
    }

    /** `updateHearingItem`: when active, one key set in the cache and a write-back debounced. */
    method UpdateHearingItem(key: string, value: V)
      modifies this
      ensures !old(Active()) ==> unchanged(this)
      ensures old(Active()) ==>
        hearingItemsCache == old(hearingItemsCache)[key := value]
        && timers == old(timers) + [Timer(HearingUpdate, HearingDebounceMs)]
      ensures currentConversationId == old(currentConversationId) && isRecording == old(isRecording)
      ensures messagesQueue == old(messagesQueue) && updateInProgress == old(updateInProgress) && calls == old(calls)
    {
      if !(isRecording && HasId(currentConversationId)) {
        return;
      }
      hearingItemsCache := hearingItemsCache[key := value];
      timers := timers + [Timer(HearingUpdate, HearingDebounceMs)];
    }

    /** `updateAllHearingItems`: when active, the items merged over the cache and a write-back debounced. */
    method UpdateAllHearingItems(items: map<string, V>)
      modifies this
      ensures !old(Active()) ==> unchanged(this)
      ensures old(Active()) ==>
        hearingItemsCache == Merge(old(hearingItemsCache), items)
        && timers == old(timers) + [Timer(HearingUpdate, HearingDebounceMs)]
      ensures currentConversationId == old(currentConversationId) && isRecording == old(isRecording)
      ensures messagesQueue == old(messagesQueue) && updateInProgress == old(updateInProgress) && calls == old(calls)
    {
      if !(isRecording && HasId(currentConversationId)) {
        return;
      }
      hearingItemsCache := Merge(hearingItemsCache, items);
      timers := timers + [Timer(HearingUpdate, HearingDebounceMs)];
    }

    /**
     * `addFeedback`: without an id nothing happens; otherwise the feedback
     * is sent and the service's failure is passed on.
     */
    method SendFeedback(feedback: string, failure: Option<string>) returns (error: Option<string>)
      modifies this
      ensures !HasId(old(currentConversationId)) ==> error == None && unchanged(this)
      ensures HasId(old(currentConversationId)) ==>
        error == failure && calls == old(calls) + [AddFeedback(old(currentConversationId).value, feedback)]
      ensures currentConversationId == old(currentConversationId) && isRecording == old(isRecording)
      ensures hearingItemsCache == old(hearingItemsCache) && messagesQueue == old(messagesQueue)
      ensures updateInProgress == old(updateInProgress) && timers == old(timers)
    {
      if !HasId(currentConversationId) {
        return None;
      }
      calls := calls + [AddFeedback(currentConversationId.value, feedback)];
      error := failure;
    }

    /** `updateRecordingInfo`: like `addFeedback`, for the recording's storage location. */
    method UpdateRecordingInfo(storageUrl: string, sasToken: string, failure: Option<string>) returns (error: Option<string>)
      modifies this
      ensures !HasId(old(currentConversationId)) ==> error == None && unchanged(this)
      ensures HasId(old(currentConversationId)) ==>
        error == failure && calls == old(calls) + [UpdateRecording(old(currentConversationId).value, storageUrl, sasToken)]
      ensures currentConversationId == old(currentConversationId) && isRecording == old(isRecording)
      ensures hearingItemsCache == old(hearingItemsCache) && messagesQueue == old(messagesQueue)
      ensures updateInProgress == old(updateInProgress) && timers == old(timers)
    {
      if !HasId(currentConversationId) {
        return None;
      }
      calls := calls + [UpdateRecording(currentConversationId.value, storageUrl, sasToken)];
      error := failure;
    }

    /** `markTicketIssued`: nothing without an id; otherwise one update, whose failure is swallowed. */
    method MarkTicket()
      modifies this
      ensures !HasId(old(currentConversationId)) ==> unchanged(this)
      ensures HasId(old(currentConversationId)) ==> calls == old(calls) + [MarkTicketIssued(old(currentConversationId).value)]
      ensures currentConversationId == old(currentConversationId) && isRecording == old(isRecording)
      ensures hearingItemsCache == old(hearingItemsCache) && messagesQueue == old(messagesQueue)
      ensures updateInProgress == old(updateInProgress) && timers == old(timers)
    {
      if !HasId(currentConversationId) {
        return;
      }
      calls := calls + [MarkTicketIssued(currentConversationId.value)];
    }

    /**
     * `updateHearingItems`: nothing without an id or with an empty cache;
     * otherwise the whole cache is written, and a failure schedules a retry.
     */
    method WriteHearingItems(fails: bool)
      modifies this
      ensures !HasId(old(currentConversationId)) || old(hearingItemsCache) == map[] ==> unchanged(this)
      ensures HasId(old(currentConversationId)) && old(hearingItemsCache) != map[] ==>
        calls == old(calls) + [UpdateHearingItems(old(currentConversationId).value, old(hearingItemsCache))]
        && timers == old(timers) + (if fails then [Timer(HearingUpdate, RetryMs)] else [])
      ensures currentConversationId == old(currentConversationId) && isRecording == old(isRecording)
      ensures hearingItemsCache == old(hearingItemsCache) && messagesQueue == old(messagesQueue)
      ensures updateInProgress == old(updateInProgress)
    {
      if !HasId(currentConversationId) || |hearingItemsCache| == 0 {
        return;
      }
      calls := calls + [UpdateHearingItems(currentConversationId.value, hearingItemsCache)];
      if fails {
        timers := timers + [Timer(HearingUpdate, RetryMs)];
      }
    }

    /**
     * The first half of `processMessageQueue`, up to its first wait: with an
     * id, a non-empty queue and no run in progress, the run starts and takes
     * the whole queue as its batch.
     */
    method BeginQueueRun() returns (batch: Option<seq<QueuedMessage>>)
      modifies this
      ensures !HasId(old(currentConversationId)) || old(messagesQueue) == [] || old(updateInProgress) ==>
        batch == None && unchanged(this)
      ensures HasId(old(currentConversationId)) && old(messagesQueue) != [] && !old(updateInProgress) ==>
        batch == Some(old(messagesQueue)) && messagesQueue == [] && updateInProgress
      ensures currentConversationId == old(currentConversationId) && isRecording == old(isRecording)
      ensures hearingItemsCache == old(hearingItemsCache) && calls == old(calls) && timers == old(timers)
    {
      if !HasId(currentConversationId) || |messagesQueue| == 0 || updateInProgress {
        return None;
      }
      updateInProgress := true;
      batch := Some(messagesQueue);
      messagesQueue := [];
    }

    /**
     * The rest of `processMessageQueue`: the batch is sent in order until
     * the call for message `failAt` throws; a failure puts the whole batch
     * back in front of whatever was queued meanwhile and schedules a retry;
     * the run ends either way.
     */
    method FinishQueueRun(batch: seq<QueuedMessage>, failAt: nat)
      requires HasId(currentConversationId)
      modifies this
      ensures calls == old(calls) + AddCalls(old(currentConversationId).value, batch[..Attempts(failAt, |batch|)])
      ensures failAt < |batch| ==>
        messagesQueue == batch + old(messagesQueue) && timers == old(timers) + [Timer(QueueRun, RetryMs)]
      ensures failAt >= |batch| ==> messagesQueue == old(messagesQueue) && timers == old(timers)
      ensures !updateInProgress
      ensures currentConversationId == old(currentConversationId) && isRecording == old(isRecording)
      ensures hearingItemsCache == old(hearingItemsCache)
    {
      var id := currentConversationId.value;
      var log := calls;
      var i := 0;
      var failed := false;
      while i < |batch| && !failed
        invariant 0 <= i <= |batch|
        invariant !failed ==> i <= failAt
        invariant failed ==> i == failAt + 1
        invariant log == calls + AddCalls(id, batch[..i])
      {
        assert batch[..i + 1][..i] == batch[..i];
        log := log + [AddMessage(id, batch[i])];
        if i == failAt {
          failed := true;
        }
        i := i + 1;
      }
      calls := log;
      if failed {
        messagesQueue := batch + messagesQueue;
        timers := timers + [Timer(QueueRun, RetryMs)];
      }
      updateInProgress := false;
    }

    /** `processMessageQueue` with nothing queued while it waits. */
    method ProcessMessageQueue(failAt: nat)
      modifies this
      ensures !HasId(old(currentConversationId)) || old(messagesQueue) == [] || old(updateInProgress) ==> unchanged(this)
      ensures HasId(old(currentConversationId)) && old(messagesQueue) != [] && !old(updateInProgress) ==>
        && calls == old(calls) + AddCalls(old(currentConversationId).value, old(messagesQueue)[..Attempts(failAt, |old(messagesQueue)|)])
        && (failAt < |old(messagesQueue)| ==>
              messagesQueue == old(messagesQueue) && timers == old(timers) + [Timer(QueueRun, RetryMs)])
        && (failAt >= |old(messagesQueue)| ==> messagesQueue == [] && timers == old(timers))
        && !updateInProgress
      ensures currentConversationId == old(currentConversationId) && isRecording == old(isRecording)
      ensures hearingItemsCache == old(hearingItemsCache)
    {
      var batch := BeginQueueRun();
      if batch.Some? {
        FinishQueueRun(batch.value, failAt);
        assert batch.value + [] == batch.value;
      }
    }

    function GetCurrentConversationId(): (r: Option<string>)
      reads this
      ensures r == currentConversationId
    {
      currentConversationId
    }

    function IsCurrentlyRecording(): (r: bool)
      reads this
      ensures r == isRecording
    {
      isRecording
    }
  }

  /**
   * A run that fails on its second message while a new message is recorded
   * leaves the queue holding the failed batch first and the new message
   * after it, both in their order.
   */
  method FailedBatchGoesFirst(rec: ConversationRecorder<string>, a: QueuedMessage, b: QueuedMessage, c: QueuedMessage)
    requires rec.Active() && rec.messagesQueue == [a, b] && !rec.updateInProgress
    modifies rec
    ensures rec.messagesQueue == [a, b, c]
    ensures !rec.updateInProgress
  {
    var batch := rec.BeginQueueRun();
    rec.RecordMessage(c.role, c.content);
    rec.FinishQueueRun(batch.value, 1);
  }

  /**
   * Messages sent before a failing call are sent a second time by the
   * retry: a batch failing on its second message and retried successfully
   * adds its first message twice.
   */
  method RetrySendsAgain(rec: ConversationRecorder<string>, a: QueuedMessage, b: QueuedMessage)
    requires rec.Active() && rec.messagesQueue == [a, b] && !rec.updateInProgress
    modifies rec
    ensures rec.messagesQueue == [] && !rec.updateInProgress
    ensures rec.calls == old(rec.calls) + [AddMessage(old(rec.currentConversationId).value, a), AddMessage(old(rec.currentConversationId).value, b),
                                           AddMessage(old(rec.currentConversationId).value, a), AddMessage(old(rec.currentConversationId).value, b)]
  {
    rec.ProcessMessageQueue(1);
    rec.ProcessMessageQueue(2);
  }

  /** After an active recorder is stopped, recording calls change nothing until a new conversation is started. */
  method StoppedRecorderIgnoresInput(rec: ConversationRecorder<string>, content: string, key: string, value: string)
    requires rec.Active()
    modifies rec
    ensures !rec.isRecording && rec.currentConversationId == None
    ensures rec.messagesQueue == [] && rec.hearingItemsCache == map[]
  {
    rec.StopRecording(0);
    rec.RecordMessage(CommunicationService.UserRole, content);
    rec.UpdateHearingItem(key, value);
    rec.UpdateAllHearingItems(map[key := value]);
  }
}
