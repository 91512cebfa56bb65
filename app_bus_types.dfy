/**
 * The state shapes the event bus is built from: event loops, subscriber
 * records, messages and the dispatch tasks that carry a message to one
 * subscriber's loop.
 */
module AppBusTypes {
  import opened Values

  /** A `uv_loop_t*`: a handle to an event loop, possibly null. */
  datatype LoopPtr = NullLoop | LoopAt(id: nat)

  /**
   * What a subscriber record calls: a native callable (`on` from the host)
   * or a persistent script function (`on` from a script context).
   */
  datatype Callable = Host(fn: nat) | Script(fn: nat)

  /**
   * A subscriber record.  The channel's list and every in-flight dispatch
   * task share the one object, so its identity is the identity of one
   * registration; registering the same callable twice makes two records.
   */
  class EventHandlerHolder {
    const loop: LoopPtr
    const callable: Callable

    /** `loop()` answers exactly the loop the record was built with. */
    constructor (loop: LoopPtr, callable: Callable)
      ensures this.loop == loop && this.callable == callable
    {
      this.loop := loop;
      this.callable := callable;
    }
  }

  /** The argument list of one emission; it starts as an empty array. */
  class EventMessage {
    var args: seq<Value>

    constructor ()
      ensures args == []
    {
      args := [];
    }

    method PushBack(v: Value)
      modifies this
      ensures args == old(args) + [v]
    {
      args := args + [v];
    }
  }

  /**
   * One dispatch task: it later runs the handler with the shared message.
   * Its loop is the handler's own loop, the one the wake-up handle is
   * initialised on, so a task can never run on a foreign loop.
   */
  datatype Task = Task(handler: EventHandlerHolder, message: seq<Value>) {
    const loop: LoopPtr := handler.loop
  }

  /** A record of one call of a subscriber's `handle`. */
  datatype Invocation = Invocation(handler: EventHandlerHolder, args: seq<Value>)
}
