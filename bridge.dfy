/**
 * The panel-side bridge: `chromeRuntimeSendMessage` keeps a table of pending
 * callbacks keyed by message id, posts the message with its id, registers a
 * window listener for the matching response and arms a ten-second timeout.
 *
 * `window.postMessage`, listeners and timers are modelled as state: `posted`
 * records what was posted, `listeners` the ids whose response handler is
 * registered, `timers` the ids whose timeout has not
 * fired yet. A callback is an id (`None` when what was passed is not a
 * function) and each call of one is recorded in `invocations`. Ids are
 * generated at random in the page; here they are supplied and must be fresh.
 */
module Bridge {
  import opened Wrappers

  /** A JSON value as far as the bridge looks at it. */
  datatype JsonValue = JStr(s: string) | JNum(n: int) | JBool(b: bool) | JNull

  type Fields = map<string, JsonValue>

  const MessageIdKey := "_messageId"

  /** What is posted to the window. */
  datatype Envelope = Envelope(source: string, message: Fields)

  /** `{...message, _messageId: messageId}`. */
  function WithMessageId(message: Fields, id: string): (m: Fields)
    ensures MessageIdKey in m && m[MessageIdKey] == JStr(id)
    ensures m.Keys == message.Keys + {MessageIdKey}
    ensures forall k :: k in message && k != MessageIdKey ==> m[k] == message[k]
  {
    message[MessageIdKey := JStr(id)]
  }

  /** A window `message` event: whether it comes from this window, and its
      data (`None` when the data is `null`/`undefined`, so reading a field of
      it throws). */
  datatype WindowEvent = WindowEvent(sameWindow: bool, data: Option<EventData>)

  datatype EventData = EventData(source: string, destination: string, messageId: Option<string>,
                                 response: Option<Fields>)

  /** The response test of the handler for `id`. */
  predicate Matches(e: WindowEvent, id: string) {
    e.sameWindow && e.data.Some? && e.data.value.source == "content-script"
    && e.data.value.destination == "panel" && e.data.value.messageId == Some(id)
  }

  /** Whether the handler for `id` removes itself on event `e`: on its response,
      and when reading the event's data throws. */
  predicate RemovesItself(e: WindowEvent, id: string) {
    e.sameWindow && (e.data.None? || Matches(e, id))
  }

  /** The listeners still registered after every handler has seen `e`. */
  function Remaining(listeners: set<string>, e: WindowEvent): (r: set<string>)
    ensures r <= listeners
    ensures forall id :: id in r <==> id in listeners && !RemovesItself(e, id)
  {
    set id | id in listeners && !RemovesItself(e, id)
  }

  /** An event that does not come from this window changes no listener, and
      one whose data is missing removes every listener. */
  lemma ForeignAndEmptyEvents(listeners: set<string>, e: WindowEvent)
    ensures !e.sameWindow ==> Remaining(listeners, e) == listeners
    ensures e.sameWindow && e.data.None? ==> Remaining(listeners, e) == {}
  {
  }

  /** A matching response removes exactly its own listener. */
  lemma ResponseRemovesOnlyItsListener(listeners: set<string>, e: WindowEvent, id: string)
    requires Matches(e, id)
    ensures Remaining(listeners, e) == listeners - {id}
  {
  }

  /** A call of a callback: the request id, the callback, and its argument. */
  datatype Invocation = Invocation(id: string, callback: nat, arg: Option<Fields>)

  function TimeoutArg(): Fields {
    map["error" := JStr("Timeout waiting for response")]
  }

  function SendErrorArg(reason: string): Fields {
    map["error" := JStr("Error sending message: " + reason)]
  }

  class PendingTable {
    var pending: map<string, Option<nat>>
    var listeners: set<string>
    var timers: set<string>
    var posted: seq<Envelope>
    var invocations: seq<Invocation>
    /** Every id handed out so far. */
    var issued: set<string>

    /** Whether a later event can still call the callback of `id`. */
    predicate Armed(id: string)
      reads this
    {
      (id in listeners || id in timers) && id in pending && pending[id].Some?
    }

    /** Ids are the issued ones, every id has been called back at most once,
        and one that has been called back can no longer be. */
    predicate Valid()
      reads this
    {
      pending.Keys <= issued && timers <= issued && listeners <= issued
      && (forall i, j :: 0 <= i < j < |invocations| ==> invocations[i].id != invocations[j].id)
      && (forall i :: 0 <= i < |invocations| ==> invocations[i].id in issued && !Armed(invocations[i].id))
    }

    constructor()
      ensures Valid()
      ensures pending == map[] && listeners == {} && timers == {} && posted == [] && invocations == [] && issued == {}
    {
      pending := map[];
      listeners := {};
      timers := {};
      posted := [];
      invocations := [];
      issued := {};
    }

    /** `postMessageToExtension(message)`. */
    method PostToExtension(message: Fields)
      modifies this
      ensures posted == old(posted) + [Envelope("panel-script", message)]
      ensures pending == old(pending) && listeners == old(listeners) && timers == old(timers)
      ensures invocations == old(invocations) && issued == old(issued)
    {
      posted := posted + [Envelope("panel-script", message)];
    }

    /** `chromeRuntimeSendMessage(message, callback)` with message id `id`. When
        posting throws (`postFails`, with the error's message `reason`), the
        entry stays in the table, no listener or timer is set up, and the
        callback is called with the send error. */
    method Send(message: Fields, callback: Option<nat>, id: string, postFails: bool, reason: string)
      requires Valid() && id !in issued
      modifies this
      ensures Valid()
      ensures issued == old(issued) + {id}
      ensures pending == old(pending)[id := callback]
      ensures !postFails ==>
              posted == old(posted) + [Envelope("panel-script", WithMessageId(message, id))]
              && listeners == old(listeners) + {id} && timers == old(timers) + {id}
              && invocations == old(invocations)
      ensures postFails ==>
              posted == old(posted) && listeners == old(listeners) && timers == old(timers)
              && invocations == old(invocations)
                 + (if callback.Some? then [Invocation(id, callback.value, Some(SendErrorArg(reason)))] else [])
    {
      issued := issued + {id};
      pending := pending[id := callback];
      if postFails {
        if callback.Some? {
          invocations := invocations + [Invocation(id, callback.value, Some(SendErrorArg(reason)))];
        }
        return;
      }
      posted := posted + [Envelope("panel-script", WithMessageId(message, id))];
      listeners := listeners + {id};
      timers := timers + {id};
    }

    /** A window `message` event reaching every registered response handler.
        The handler whose response it is calls its stored callback (when it is
        a function) with the response, deletes the entry, and removes itself;
        an exception thrown by the callback is caught and changes nothing here. */
    method Receive(e: WindowEvent)
      requires Valid()
      modifies this
      ensures Valid()
      ensures listeners == Remaining(old(listeners), e)
      ensures forall id :: id in old(listeners) && Matches(e, id) && id in old(pending) && old(pending)[id].Some? ==>
                invocations == old(invocations) + [Invocation(id, old(pending)[id].value, e.data.value.response)]
                && pending == old(pending) - {id}
      ensures (forall id :: id in old(listeners) && Matches(e, id) ==> !(id in old(pending) && old(pending)[id].Some?)) ==>
                invocations == old(invocations) && pending == old(pending)
      ensures timers == old(timers) && posted == old(posted) && issued == old(issued)
    {
      if e.sameWindow && e.data.Some? && e.data.value.messageId.Some? {
        var id := e.data.value.messageId.value;
        if Matches(e, id) && id in listeners && id in pending && pending[id].Some? {
          invocations := invocations + [Invocation(id, pending[id].value, e.data.value.response)];
          pending := pending - {id};
        }
      }
      listeners := Remaining(listeners, e);
    }

    /** The timeout of request `id` fires: if its entry is still there and holds
        a callback, the entry is deleted, the listener removed and the callback
        called with the timeout error. */
    method Timeout(id: string)
      requires Valid() && id in timers
      modifies this
      ensures Valid()
      ensures timers == old(timers) - {id}
      ensures old(id in pending && pending[id].Some?) ==>
              pending == old(pending) - {id} && listeners == old(listeners) - {id}
              && invocations == old(invocations) + [Invocation(id, old(pending)[id].value, Some(TimeoutArg()))]
      ensures !old(id in pending && pending[id].Some?) ==>
              pending == old(pending) && listeners == old(listeners) && invocations == old(invocations)
      ensures posted == old(posted) && issued == old(issued)
    {
      timers := timers - {id};
      if id in pending && pending[id].Some? {
        var callback := pending[id].value;
        pending := pending - {id};
        listeners := listeners - {id};
        invocations := invocations + [Invocation(id, callback, Some(TimeoutArg()))];
      }
    }
  }
}
