/**
 * The handler registry of the Telegram client: two ordered lists of
 * handlers, filled by the `on_message` and `on_callback_query` decorators,
 * and the routing of one update to exactly one of the lists.
 */
module Dispatch {
  import opened Wrappers
  import opened PyDict
  import opened Json

  /** One awaited handler call: the handler and the part of the update it
      receives. */
  datatype Call<H> = Call(handler: H, arg: Json)

  /** `update[kind]` when the key is present and its value truthy. */
  function Routed(update: ODict<Json>, kind: string): Option<Json> {
    var v := Get(update, kind);
    if v.Some? && Truthy(v.value) then v else None
  }

  class Dispatcher<H> {
    var messageHandlers: seq<H>
    var callbackQueryHandlers: seq<H>

    constructor()
      ensures messageHandlers == [] && callbackQueryHandlers == []
    {
      messageHandlers := [];
      callbackQueryHandlers := [];
    }

    /** The `on_message()` decorator applied to `func`: registers it last
        and hands it back unchanged. */
    method OnMessage(func: H) returns (registered: H)
      modifies this
      ensures messageHandlers == old(messageHandlers) + [func]
      ensures callbackQueryHandlers == old(callbackQueryHandlers)
      ensures registered == func
    {
      messageHandlers := messageHandlers + [func];
      registered := func;
    }

    /** The `on_callback_query()` decorator applied to `func`. */
    method OnCallbackQuery(func: H) returns (registered: H)
      modifies this
      ensures callbackQueryHandlers == old(callbackQueryHandlers) + [func]
      ensures messageHandlers == old(messageHandlers)
      ensures registered == func
    {
      callbackQueryHandlers := callbackQueryHandlers + [func];
      registered := func;
    }

    /** `route_update`: the handler calls in the order they are awaited. A
        truthy `message` goes to every message handler in registration
        order and to no other; failing that, a truthy `callback_query` goes
        to every callback handler; any other update reaches no handler. */
    method RouteUpdate(update: ODict<Json>) returns (calls: seq<Call<H>>)
      ensures Routed(update, "message").Some? ==>
        |calls| == |messageHandlers|
        && forall i :: 0 <= i < |calls| ==> calls[i] == Call(messageHandlers[i], Routed(update, "message").value)
      ensures Routed(update, "message").None? && Routed(update, "callback_query").Some? ==>
        |calls| == |callbackQueryHandlers|
        && forall i :: 0 <= i < |calls| ==> calls[i] == Call(callbackQueryHandlers[i], Routed(update, "callback_query").value)
      ensures Routed(update, "message").None? && Routed(update, "callback_query").None? ==> calls == []
    {
      calls := [];
      var message := Get(update, "message");
      var callbackQuery := Get(update, "callback_query");
      if message.Some? && Truthy(message.value) {
        var i := 0;
        while i < |messageHandlers|
          invariant 0 <= i <= |messageHandlers|
          invariant |calls| == i
          invariant forall j :: 0 <= j < i ==> calls[j] == Call(messageHandlers[j], message.value)
        {
          calls := calls + [Call(messageHandlers[i], message.value)];
          i := i + 1;
        }
      } else if callbackQuery.Some? && Truthy(callbackQuery.value) {
        var i := 0;
        while i < |callbackQueryHandlers|
          invariant 0 <= i <= |callbackQueryHandlers|
          invariant |calls| == i
          invariant forall j :: 0 <= j < i ==> calls[j] == Call(callbackQueryHandlers[j], callbackQuery.value)
        {
          calls := calls + [Call(callbackQueryHandlers[i], callbackQuery.value)];
          i := i + 1;
        }
      }
    }
  }
}
