/**
 * The application event bus: a registry of named channels, each an ordered
 * list of subscriber records, and the fan-out of an emitted message into
 * one dispatch task per subscriber, run later on the subscriber's own loop.
 *
 * The registry lock, the per-channel lock and the libuv wake-up are not
 * modelled; delivery is an explicit queue of pending tasks that a loop
 * drains with `Deliver`.
 */
module EventBus {
  import opened Wrappers
  import opened Values
  import opened AppBusTypes

  type Registry = map<CString, seq<EventHandlerHolder>>

  /** The subscribers of `key` in attachment order; none when it has no channel. */
  function Subscribers(m: Registry, key: CString): seq<EventHandlerHolder> {
    if key in m then m[key] else []
  }

  /**
   * The tasks an emission creates for a channel: one per subscriber, in list
   * order, each bound to its subscriber's loop and all sharing one message.
   */
  function DispatchTasks(subs: seq<EventHandlerHolder>, message: seq<Value>): (tasks: seq<Task>)
    ensures |tasks| == |subs|
    ensures forall i :: 0 <= i < |subs| ==>
              tasks[i] == Task(subs[i], message)
  {
    if subs == [] then []
    else [Task(subs[0], message)] + DispatchTasks(subs[1..], message)
  }

  /** The pending tasks bound to loop `l`, in queue order. */
  function TasksOn(q: seq<Task>, l: LoopPtr): (r: seq<Task>)
    ensures |r| <= |q|
    ensures forall i :: 0 <= i < |r| ==> r[i].loop == l
  {
    if q == [] then []
    else (if q[0].loop == l then [q[0]] else []) + TasksOn(q[1..], l)
  }

  /** The subscriber records bound to loop `l`, in list order. */
  function HoldersOn(subs: seq<EventHandlerHolder>, l: LoopPtr): seq<EventHandlerHolder> {
    if subs == [] then []
    else (if subs[0].loop == l then [subs[0]] else []) + HoldersOn(subs[1..], l)
  }

  /** The position of the oldest pending task bound to loop `l`, if any. */
  function FirstTaskOn(q: seq<Task>, l: LoopPtr): (r: Option<nat>)
    ensures r.Some? ==> r.value < |q| && q[r.value].loop == l &&
                        forall j :: 0 <= j < r.value ==> q[j].loop != l
    ensures r.None? ==> forall j :: 0 <= j < |q| ==> q[j].loop != l
  {
    if q == [] then None
    else if q[0].loop == l then Some(0)
    else match FirstTaskOn(q[1..], l)
      case None => None
      case Some(k) => Some(k + 1)
  }

  function RemoveAt(q: seq<Task>, k: nat): seq<Task>
    requires k < |q|
  {
    q[..k] + q[k + 1..]
  }

  /** The per-loop view of a queue distributes over concatenation. */
  lemma {:induction false} TasksOnAppend(a: seq<Task>, b: seq<Task>, l: LoopPtr)
    ensures TasksOn(a + b, l) == TasksOn(a, l) + TasksOn(b, l)
  {
    if a == [] {
      assert a + b == b;
    } else {
      assert (a + b)[1..] == a[1..] + b;
      TasksOnAppend(a[1..], b, l);
    }
  }

  /**
   * The tasks one emission queues for loop `l` are those of the subscribers
   * bound to `l`, in attachment order.
   */
  lemma {:induction false} DispatchOrderPerLoop(subs: seq<EventHandlerHolder>, message: seq<Value>, l: LoopPtr)
    ensures TasksOn(DispatchTasks(subs, message), l) == DispatchTasks(HoldersOn(subs, l), message)
  {
    if subs != [] {
      var tasks := DispatchTasks(subs, message);
      assert tasks == [tasks[0]] + tasks[1..];
      assert tasks[1..] == DispatchTasks(subs[1..], message);
      TasksOnAppend([tasks[0]], tasks[1..], l);
      DispatchOrderPerLoop(subs[1..], message, l);
      var rest := HoldersOn(subs[1..], l);
      if subs[0].loop == l {
        assert HoldersOn(subs, l) == [subs[0]] + rest;
        assert DispatchTasks([subs[0]] + rest, message)[1..] == DispatchTasks(rest, message);
      } else {
        assert HoldersOn(subs, l) == rest;
      }
    }
  }

  /**
   * Delivering the oldest task of loop `l` takes the head of that loop's
   * queue and leaves every other loop's queue as it was: each loop runs its
   * tasks in the order they were queued.
   */
  lemma {:induction false} DeliverTakesLoopHead(q: seq<Task>, l: LoopPtr)
    requires FirstTaskOn(q, l).Some?
    ensures var k := FirstTaskOn(q, l).value;
            TasksOn(q, l) == [q[k]] + TasksOn(RemoveAt(q, k), l)
    ensures var k := FirstTaskOn(q, l).value;
            forall l' :: l' != l ==> TasksOn(RemoveAt(q, k), l') == TasksOn(q, l')
  {
    var k := FirstTaskOn(q, l).value;
    if k == 0 {
      assert RemoveAt(q, 0) == q[1..];
    } else {
      var k' := FirstTaskOn(q[1..], l).value;
      assert k == k' + 1;
      DeliverTakesLoopHead(q[1..], l);
      assert RemoveAt(q, k) == [q[0]] + RemoveAt(q[1..], k');
      assert RemoveAt(q, k)[1..] == RemoveAt(q[1..], k');
    }
  }

  const OnArityError := "It must be two arguments"
  const KeyTypeError := "The key must be a string"
  const HandlerTypeError := "The handler must be a function"
  const EmitArityError := "At least one argument is required"

  /**
   * The error a script-side `on(key, handler)` throws, checked in the
   * source's order; none exactly when the call is well formed.
   */
  function OnArgumentError(info: seq<ScriptArg>): (err: Option<string>)
    ensures err.None? <==> |info| >= 2 && info[0].JsString? && info[1].JsFunction?
    ensures |info| < 2 ==> err == Some(OnArityError)
    ensures |info| >= 2 && !info[0].JsString? ==> err == Some(KeyTypeError)
    ensures |info| >= 2 && info[0].JsString? && !info[1].JsFunction? ==> err == Some(HandlerTypeError)
  {
    if |info| < 2 then Some(OnArityError)
    else if !info[0].JsString? then Some(KeyTypeError)
    else if !info[1].JsFunction? then Some(HandlerTypeError)
    else None
  }

  /** The error a script-side `emit(key, ...)` throws; none exactly when the key is a string. */
  function EmitArgumentError(info: seq<ScriptArg>): (err: Option<string>)
    ensures err.None? <==> |info| >= 1 && info[0].JsString?
    ensures |info| < 1 ==> err == Some(EmitArityError)
    ensures |info| >= 1 && !info[0].JsString? ==> err == Some(KeyTypeError)
  {
    if |info| < 1 then Some(EmitArityError)
    else if !info[0].JsString? then Some(KeyTypeError)
    else None
  }

  /** Script arguments converted one by one, in order, to payload values. */
  function Converted(args: seq<ScriptArg>, toValue: ScriptArg -> Value): (vs: seq<Value>)
    ensures |vs| == |args|
    ensures forall i :: 0 <= i < |args| ==> vs[i] == toValue(args[i])
  {
    if args == [] then [] else [toValue(args[0])] + Converted(args[1..], toValue)
  }

  /**
   * `m1` is `m0` with one more subscriber for `key`, at the end of its list,
   * calling `callable` on loop `l`; every other channel is unchanged.
   */
  predicate Appended(m0: Registry, m1: Registry, key: CString, callable: Callable, l: LoopPtr) {
    var before := Subscribers(m0, key);
    && key in m1
    && m1 == m0[key := m1[key]]
    && |m1[key]| == |before| + 1
    && m1[key][..|before|] == before
    && m1[key][|before|].callable == callable
    && m1[key][|before|].loop == l
  }

  class AppBus {
    /** The default loop of handlers registered without one (`loop_`). */
    var loop: LoopPtr
    /** One channel per exact key, each an ordered subscriber list (`event_map_`). */
    var eventMap: Registry
    /** Dispatch tasks created by emissions and not yet run by their loop. */
    var pending: seq<Task>
    /** Every call of a subscriber's `handle`, in the order they ran. */
    var invocations: seq<Invocation>

    constructor ()
      ensures loop == NullLoop && eventMap == map[] && pending == [] && invocations == []
    {
      loop := NullLoop;
      eventMap := map[];
      pending := [];
      invocations := [];
    }

    method Init(loop: LoopPtr)
      modifies this`loop
      ensures this.loop == loop
    {
      this.loop := loop;
    }

    /**
     * Look up the channel of `key`; when it is missing, create an empty one
     * only if `createIfNotExists`.  `alive` says whether a channel is held.
     */
    method EventLock(key: CString, createIfNotExists: bool) returns (alive: bool)
      modifies this`eventMap
      ensures alive <==> key in old(eventMap) || createIfNotExists
      ensures alive <==> key in eventMap
      ensures eventMap == if key !in old(eventMap) && createIfNotExists
                          then old(eventMap)[key := []] else old(eventMap)
    {
      if key !in eventMap {
        if !createIfNotExists {
          return false;
        }
        eventMap := eventMap[key := []];
      }
      alive := true;
    }

    /** Append `holder` to the channel of `key`, creating the channel if needed. */
    method Attach(key: CString, holder: EventHandlerHolder)
      modifies this`eventMap
      ensures Appended(old(eventMap), eventMap, key, holder.callable, holder.loop)
      ensures eventMap[key][|eventMap[key]| - 1] == holder
    {
      var alive := EventLock(key, true);
      eventMap := eventMap[key := eventMap[key] + [holder]];
    }

    /**
     * Register a native handler for `key`; without a loop it is bound to the
     * bus's default loop.
     */
    method On(key: CString, callable: Callable, loop: LoopPtr := NullLoop)
      modifies this
      ensures Appended(old(eventMap), eventMap, key, callable,
                       if loop != NullLoop then loop else old(this.loop))
      ensures fresh(eventMap[key][|eventMap[key]| - 1])
      ensures this.loop == old(this.loop) && pending == old(pending) && invocations == old(invocations)
    {
      var holder := new EventHandlerHolder(if loop != NullLoop then loop else this.loop, callable);
      Attach(key, holder);
    }

    /**
     * Queue one task per current subscriber of `key`, in list order, all
     * carrying `message`; a key without a channel gets nothing and no channel.
     */
    method EmitImpl(key: CString, message: seq<Value>)
      modifies this`eventMap, this`pending
      ensures eventMap == old(eventMap)
      ensures pending == old(pending) + DispatchTasks(Subscribers(old(eventMap), key), message)
      ensures key !in old(eventMap) ==> pending == old(pending)
      ensures forall l :: TasksOn(pending, l) ==
                TasksOn(old(pending), l) + DispatchTasks(HoldersOn(Subscribers(old(eventMap), key), l), message)
    {
      var alive := EventLock(key, false);
      if alive {
        var list := eventMap[key];
        var i := 0;
        while i < |list|
          invariant 0 <= i <= |list|
          invariant eventMap == old(eventMap)
          invariant pending == old(pending) + DispatchTasks(list[..i], message)
        {
          // EventEmitTask: bound to the subscriber's loop, then sent.
          pending := pending + [Task(list[i], message)];
          assert list[..i + 1] == list[..i] + [list[i]];
          i := i + 1;
        }
        assert list[..i] == list;
      }
      forall l ensures TasksOn(pending, l) ==
          TasksOn(old(pending), l) + DispatchTasks(HoldersOn(Subscribers(old(eventMap), key), l), message)
      {
        TasksOnAppend(old(pending), DispatchTasks(Subscribers(old(eventMap), key), message), l);
        DispatchOrderPerLoop(Subscribers(old(eventMap), key), message, l);
      }
    }

    /**
     * Emit `args` to `key`: as a one-element list when `singleArgument`,
     * otherwise element by element (then `args` must be an array).
     */
    method Emit(key: CString, args: Value, singleArgument: bool := false)
      requires singleArgument || args.Array?
      modifies this
      ensures eventMap == old(eventMap) && loop == old(loop) && invocations == old(invocations)
      ensures pending == old(pending) +
                DispatchTasks(Subscribers(old(eventMap), key), if singleArgument then [args] else args.elems)
    {
      var message := new EventMessage();
      if singleArgument {
        message.PushBack(args);
        assert message.args == [args];
      } else {
        var items := args.elems;
        var i := 0;
        while i < |items|
          modifies message
          invariant 0 <= i <= |items|
          invariant message.args == items[..i]
        {
          message.PushBack(items[i]);
          assert items[..i + 1] == items[..i] + [items[i]];
          i := i + 1;
        }
        assert items[..i] == items;
      }
      EmitImpl(key, message.args);
    }

    /** Emit an empty argument list to `key`. */
    method EmitNoArgs(key: CString)
      modifies this
      ensures eventMap == old(eventMap) && loop == old(loop) && invocations == old(invocations)
      ensures pending == old(pending) + DispatchTasks(Subscribers(old(eventMap), key), [])
    {
      var message := new EventMessage();
      var args := message.args;
      assert args == [];
      EmitImpl(key, args);
    }

    /**
     * Script-side `on(key, handler)`: after the argument checks, registers the
     * script function on the loop of the calling script context.
     */
    method ScriptOn(info: seq<ScriptArg>, contextLoop: LoopPtr) returns (err: Option<string>)
      modifies this
      ensures err == OnArgumentError(info)
      ensures loop == old(loop) && pending == old(pending) && invocations == old(invocations)
      ensures err.Some? ==> eventMap == old(eventMap)
      ensures err.None? ==>
                Appended(old(eventMap), eventMap, CStr(info[0].s), Script(info[1].fn), contextLoop)
    {
      err := OnArgumentError(info);
      if err.Some? {
        return;
      }
      var holder := new EventHandlerHolder(contextLoop, Script(info[1].fn));
      Attach(CStr(info[0].s), holder);
    }

    /**
     * Script-side `emit(key, ...)`: after the argument checks, emits the
     * remaining arguments, converted in order, to `key`.
     */
    method ScriptEmit(info: seq<ScriptArg>, toValue: ScriptArg -> Value) returns (err: Option<string>)
      modifies this
      ensures err == EmitArgumentError(info)
      ensures eventMap == old(eventMap) && loop == old(loop) && invocations == old(invocations)
      ensures err.Some? ==> pending == old(pending)
      ensures err.None? ==>
                pending == old(pending) +
                           DispatchTasks(Subscribers(old(eventMap), CStr(info[0].s)), Converted(info[1..], toValue))
    {
      err := EmitArgumentError(info);
      if err.Some? {
        return;
      }
      var message := new EventMessage();
      var i := 1;
      while i < |info|
        modifies message
        invariant 1 <= i <= |info|
        invariant message.args == Converted(info[1..i], toValue)
      {
        message.PushBack(toValue(info[i]));
        i := i + 1;
      }
      assert info[1..i] == info[1..];
      EmitImpl(CStr(info[0].s), message.args);
    }

    /**
     * One task callback on loop `l`: its oldest pending task calls its
     * handler, which is bound to `l`, once with the task's message, and is
     * then disposed of.  A libuv wake-up runs these callbacks for every
     * pending task of the loop, one after another in creation order.
     */
    method Deliver(l: LoopPtr) returns (ran: bool)
      modifies this`pending, this`invocations
      ensures ran <==> FirstTaskOn(old(pending), l).Some?
      ensures !ran ==> pending == old(pending) && invocations == old(invocations)
      ensures ran ==>
                var k := FirstTaskOn(old(pending), l).value;
                var task := old(pending)[k];
                && pending == RemoveAt(old(pending), k)
                && invocations == old(invocations) + [Invocation(task.handler, task.message)]
                && TasksOn(old(pending), l) == [task] + TasksOn(pending, l)
      ensures ran ==> invocations[|invocations| - 1].handler.loop == l
      ensures forall l' :: l' != l ==> TasksOn(pending, l') == TasksOn(old(pending), l')
    {
      var first := FirstTaskOn(pending, l);
      ran := first.Some?;
      if ran {
        var task := pending[first.value];
        DeliverTakesLoopHead(pending, l);
        pending := RemoveAt(pending, first.value);
        invocations := invocations + [Invocation(task.handler, task.message)];
      }
    }
  }

  /**
   * Two handlers registered on one key without a loop, then an emission with
   * no arguments: the default loop runs both once, with an empty argument
   * list, in attachment order.
   */
  method TwoSubscribersInAttachmentOrder(a: nat, f1: nat, f2: nat) returns (first: Invocation, second: Invocation)
    ensures first.handler.callable == Host(f1) && first.handler.loop == LoopAt(a) && first.args == []
    ensures second.handler.callable == Host(f2) && second.handler.loop == LoopAt(a) && second.args == []
    ensures first.handler != second.handler
  {
    var bus := new AppBus();
    bus.Init(LoopAt(a));
    bus.On("k", Host(f1));
    bus.On("k", Host(f2));
    bus.EmitNoArgs("k");
    var ran := bus.Deliver(LoopAt(a));
    ran := bus.Deliver(LoopAt(a));
    first, second := bus.invocations[0], bus.invocations[1];
  }
}
