/**
 * The debug chat injector: debug messages go to the chat's handler once one
 * is set, and are buffered until then. The program keeps this state in
 * static fields; here it is one object. A call of the handler is recorded in
 * `delivered`; whatever the handler throws is swallowed, so every call is
 * made.
 */
module DebugChatInjector {
  import opened Wrappers
  import opened Callbacks

  datatype DebugRole = SystemDebug | AssistantDebug | UserDebug

  datatype DebugMessage = DebugMessage(content: string, role: DebugRole, important: bool)

  /** One call of `handler` per message, in the messages' order. */
  function Deliveries(handler: nat, messages: seq<DebugMessage>): (r: seq<Delivery<DebugMessage>>)
    ensures |r| == |messages|
    ensures forall i :: 0 <= i < |messages| ==> r[i] == Delivery(handler, messages[i])
  {
    if messages == [] then []
    else Deliveries(handler, messages[..|messages| - 1]) + [Delivery(handler, messages[|messages| - 1])]
  }

  lemma {:induction false} DeliveriesAppend(handler: nat, a: seq<DebugMessage>, b: seq<DebugMessage>)
    ensures Deliveries(handler, a + b) == Deliveries(handler, a) + Deliveries(handler, b)
  {
    if b != [] {
      assert (a + b)[..|a + b| - 1] == a + b[..|b| - 1];
      DeliveriesAppend(handler, a, b[..|b| - 1]);
    } else {
      assert a + b == a;
    }
  }

  class DebugChatInjector {
    var handler: Option<nat>
    var enabled: bool
    var buffer: seq<DebugMessage>
    /** Every call of a handler so far, in order. */
    var delivered: seq<Delivery<DebugMessage>>

    constructor()
      ensures handler == None && enabled && buffer == [] && delivered == []
    {
      handler := None;
      enabled := true;
      buffer := [];
      delivered := [];
    }

    /**
     * `setHandler`: while enabled, the buffered messages go to the new
     * handler first in, first out, and the buffer is emptied; while disabled
     * the buffer is kept.
     */
    method SetHandler(h: nat)
      modifies this
      ensures handler == Some(h) && enabled == old(enabled)
      ensures enabled ==> buffer == [] && delivered == old(delivered) + Deliveries(h, old(buffer))
      ensures !enabled ==> buffer == old(buffer) && delivered == old(delivered)
    {
      handler := Some(h);
      if enabled && |buffer| > 0 {
        var calls := delivered;
        for i := 0 to |buffer|
          invariant calls == delivered + Deliveries(h, buffer[..i])
        {
          assert buffer[..i + 1][..i] == buffer[..i];
          calls := calls + [Delivery(h, buffer[i])];
        }
        assert buffer[..|buffer|] == buffer;
        delivered := calls;
        buffer := [];
      }
    }

    method SetEnabled(e: bool)
      modifies this
      ensures enabled == e && handler == old(handler) && buffer == old(buffer) && delivered == old(delivered)
    {
      enabled := e;
    }

    /**
     * `post`: nothing while disabled; delivered to the handler when there is
     * one, the buffer left as it is; appended to the buffer otherwise.
     */
    method Post(content: string, role: DebugRole, important: bool)
      modifies this
      ensures handler == old(handler) && enabled == old(enabled)
      ensures !enabled ==> buffer == old(buffer) && delivered == old(delivered)
      ensures enabled && handler.Some? ==>
        buffer == old(buffer) && delivered == old(delivered) + [Delivery(handler.value, DebugMessage(content, role, important))]
      ensures enabled && handler.None? ==>
        buffer == old(buffer) + [DebugMessage(content, role, important)] && delivered == old(delivered)
    {
      var msg := DebugMessage(content, role, important);
      if !enabled {
        return;
      }
      if handler.Some? {
        delivered := delivered + [Delivery(handler.value, msg)];
      } else {
        buffer := buffer + [msg];
      }
    }

    /** `post` with the defaults: a system message, not important. */
    method PostDefault(content: string)
      modifies this
      ensures handler == old(handler) && enabled == old(enabled)
      ensures !enabled ==> buffer == old(buffer) && delivered == old(delivered)
      ensures enabled && handler.Some? ==>
        buffer == old(buffer) && delivered == old(delivered) + [Delivery(handler.value, DebugMessage(content, SystemDebug, false))]
      ensures enabled && handler.None? ==>
        buffer == old(buffer) + [DebugMessage(content, SystemDebug, false)] && delivered == old(delivered)
    {
      Post(content, SystemDebug, false);
    }
  }

  /**
   * Messages posted before any handler reach the first handler before any
   * message posted after it, in posting order.
   */
  method PostedBeforeHandlerComeFirst(a: string, b: string, h: nat) returns (j: DebugChatInjector)
    ensures fresh(j)
    ensures j.delivered == [Delivery(h, DebugMessage(a, SystemDebug, false)), Delivery(h, DebugMessage(b, SystemDebug, false))]
    ensures j.buffer == []
  {
    j := new DebugChatInjector();
    j.PostDefault(a);
    j.SetHandler(h);
    assert Deliveries(h, [DebugMessage(a, SystemDebug, false)]) == [Delivery(h, DebugMessage(a, SystemDebug, false))];
    j.PostDefault(b);
  }

  /**
   * A handler set while disabled leaves the buffer in place, so a message
   * posted after re-enabling reaches the handler ahead of the buffered one.
   */
  method BufferedMessageOvertaken(a: string, b: string, h: nat) returns (j: DebugChatInjector)
    ensures fresh(j)
    ensures j.delivered == [Delivery(h, DebugMessage(b, SystemDebug, false))]
    ensures j.buffer == [DebugMessage(a, SystemDebug, false)]
  {
    j := new DebugChatInjector();
    j.PostDefault(a);
    j.SetEnabled(false);
    j.SetHandler(h);
    j.SetEnabled(true);
    j.PostDefault(b);
  }
}
