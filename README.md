# AppBus and the main-instance bootstrap, in Dafny

This project models two parts of an embedded Node.js host.

**The application event bus (`AppBus`).** The bus keeps a registry from exact event keys to channels. Each channel is an ordered list of subscriber records. A subscriber record is a native function or a persistent script function, plus the event loop it must run on.

- `on` appends a subscriber. Without an explicit loop, the subscriber is bound to the bus's default loop set by `init`.
- `emit` builds one message and creates one dispatch task per current subscriber of the key, in list order. All of those tasks share the message.
- When a subscriber's loop wakes, that loop runs the subscriber's handler once with the message.
- The script-side `on` and `emit` check their arguments first and throw fixed error messages.

**The main-instance bootstrap.**

- The launch argument vector: the program name, `-e`, a slot for the entry source, then the program's remaining arguments.
- The entry source: a prelude that installs virtual-filesystem (VFS) hooks, followed by `require("./<entry>");`.
- `argToRelPath`: turns a script's `(cwd, path)` pair into a path relative to the working directory.
- The three native VFS callbacks and the script hooks that fall back to the original `fs` functions.

## Layout

- `wrappers.dfy`: `Option`.
- `values.dfy`: the payload values, the script arguments a native callback receives, and `CString`. `CString` is a string without NUL. `CStr` is what a script string becomes once it is read through a `char*`: everything before the first NUL.
- `app_bus_types.dfy`: these types are taken from `app_bus.h`.
  - Loops are named by `LoopPtr`, where `NullLoop` is the null pointer.
  - Subscriber records are `EventHandlerHolder` objects. Their loop and callable are fixed at construction, and object identity stands for the `shared_ptr` identity.
  - `EventMessage` is a message, built by `PushBack`.
  - `Task` models a dispatch task. Its loop is always its handler's loop, as `uv_async_init(handler->loop(), ...)` makes it (`app_bus.cc:88`). `Invocation` is one call of a handler.
- `event_bus.dfy`: the `AppBus` class. Its fields are `loop`, `eventMap`, `pending` (the dispatch tasks not yet run) and `invocations` (the handler calls made so far).
  - Tasks are specified by `DispatchTasks`.
  - `TasksOn` gives each loop's view of the queue.
  - Two lemmas tie the per-loop order to the attachment order.
- `main_instance.dfy`:
  - `StrStr` (C `strstr`), `RelativeTo`, `ArgToRelPath`;
  - the VFS callbacks and hooks;
  - `LaunchArguments` and `EntrySource`;
  - the `RunEnvironment` class, whose methods build `arguments` and `entrypointSrc` in place.

Where the header and the implementation disagree, the model follows `main_instance.cc`:

- `main_instance.h` declares `run()`, but the implementation is `run(const char* entry_file)`.
- `RunEnvironment` in the header has no `arguments` member, but the implementation uses one.

Registering through a script binds the handler to the loop stored in the script's bus object (`app_bus.cc:251`, `269`). It does not fall back to the default loop. `ScriptOn` takes that loop as `contextLoop`.

`argToRelPath` searches for the working directory *anywhere* in the path (`strstr`), not only as a prefix. `RelativeTo` and `ArgToRelPath` state this.

## Model

| member | source | states |
|---|---|---|
| Values.CStr | main_instance.cc:226-227 | reading a script string through a `char*` keeps exactly the part before the first NUL (a prefix of the input, ending at the input's end or at a NUL) |
| Values.CStrOfCString | app_bus.cc:268 | a key that already holds no NUL is unchanged by that conversion |
| AppBusTypes.EventHandlerHolder.constructor | app_bus.h:65-69 | a subscriber record reports the loop and callable it was constructed with |
| AppBusTypes.EventMessage.constructor | app_bus.h:46-52 | a new message's argument array is empty |
| AppBusTypes.EventMessage.PushBack | app_bus.cc:296 | pushing a value appends it at the end of the argument array; nothing else changes |
| EventBus.DispatchTasks | app_bus.cc:281-285 | an emission creates one task per subscriber: as many tasks as subscribers, the i-th bound to the i-th subscriber's loop, for that subscriber, with the shared message |
| EventBus.FirstTaskOn | app_bus.cc:88-93 | the task a loop's next callback runs is the oldest pending task bound to that loop; there is none exactly when no pending task is bound to it |
| EventBus.TasksOnAppend | app_bus.cc:282-285 | a loop's view of two successive batches of tasks is the first batch's view followed by the second's |
| EventBus.DispatchOrderPerLoop | app_bus.cc:281-285 | the tasks one emission queues for loop `l` are exactly those of the subscribers bound to `l`, in attachment order |
| EventBus.DeliverTakesLoopHead | app_bus.cc:75-82 | running the oldest task of loop `l` removes the head of `l`'s queue and leaves every other loop's queue as it was |
| EventBus.OnArgumentError | app_bus.cc:253-266 | script `on` is accepted iff there are at least two arguments, a string key and a function handler; otherwise the error is the arity, key or handler message, checked in that order |
| EventBus.EmitArgumentError | app_bus.cc:319-327 | script `emit` is accepted iff there is at least one argument and it is a string; otherwise the error is the arity or key message |
| EventBus.Converted | app_bus.cc:332-336 | the message holds every argument after the key, converted one by one, in order |
| EventBus.AppBus.constructor | app_bus.cc:370-373 | a new bus has a null default loop, no channels, and no pending tasks or calls |
| EventBus.AppBus.Init | app_bus.cc:375-377 | `init` sets the default loop |
| EventBus.AppBus.EventLock | app_bus.cc:31-47 | a channel is held iff the key had one or creation was asked for; a missing channel is created empty only when asked; existing channels are untouched |
| EventBus.AppBus.Attach | app_bus.cc:239-242 | the record is appended at the end of the key's channel, which is created if missing; every other channel is unchanged |
| EventBus.AppBus.On | app_bus.cc:236-243 | a native handler becomes a new last subscriber of the key, bound to the given loop or else to the default loop; no task is queued |
| EventBus.AppBus.EmitImpl | app_bus.cc:277-288 | the queue grows by one task per current subscriber, in list order; each loop's queue grows by its own subscribers' tasks in attachment order; a key without a channel queues nothing and creates no channel |
| EventBus.AppBus.Emit | app_bus.cc:290-305 | the message is `[args]` when single-argument, else the elements of the array `args`; then it is dispatched as `EmitImpl` does; the registry is unchanged |
| EventBus.AppBus.EmitNoArgs | app_bus.cc:307-310 | an emission without arguments dispatches an empty message to every current subscriber |
| EventBus.AppBus.ScriptOn | app_bus.cc:245-275 | on a failed argument check, reports the error and changes nothing; otherwise appends the script function under the key (read up to its first NUL), bound to the calling context's loop |
| EventBus.AppBus.ScriptEmit | app_bus.cc:312-339 | on a failed argument check, reports the error and queues nothing; otherwise dispatches the converted remaining arguments to the key's subscribers |
| EventBus.AppBus.Deliver | app_bus.cc:75-82 | one task callback on loop `l`: when `l` has pending work, its oldest task's handler, which is bound to `l`, runs once with that task's message, and the task is disposed of; other loops' queues are unchanged |
| EventBus.TwoSubscribersInAttachmentOrder | app_bus.cc:236-310 | two handlers registered without a loop after `init(a)`, followed by an argument-less emit: loop `a` runs the first and then the second, each with an empty argument list |
| MainInstance.StrStr | main_instance.cc:234 | `strstr` finds the first position where the needle occurs in the haystack, and finds none exactly when it does not occur |
| MainInstance.RelativeTo | main_instance.cc:234-243 | the relative path is the suffix of the path after the first occurrence of cwd; there is none exactly when cwd does not occur |
| MainInstance.ArgToRelPath | main_instance.cc:212-246 | returns 0 or -1; -1 (also handed to the script) iff the first two arguments are not both strings or cwd does not occur in the path; on success the relative path is as `RelativeTo` gives; the full path is written iff asked for and both are strings |
| MainInstance.ArgToRelPathUnderCwd | main_instance.cc:212-246 | a path spelled as cwd followed by `rel` resolves, with relative path exactly `rel` |
| MainInstance.InternalModuleStat | main_instance.cc:248-265 | the stat callback answers -1 when the arguments do not resolve or no handler is installed, otherwise the handler's `stat` of the relative path |
| MainInstance.InternalModuleStatHook | main_instance.cc:141-145 | the hooked `internalModuleStat` answers the original function unless the VFS is consulted; when it is consulted, it answers the handler's `stat` of the relative path if that is non-negative, else the original function |
| MainInstance.RealpathSync | main_instance.cc:267-288 | as written, the realpath callback answers -1 when the arguments do not resolve; otherwise it answers a string iff a handler is installed and returns a non-negative code, and that string is the handler's resolved path |
| MainInstance.RealpathAnswer | main_instance.cc:275-287 | once the arguments resolve, the realpath callback answers the handler's resolved path when a handler is installed and returns a non-negative code, and nothing otherwise |
| MainInstance.RealpathSyncCorrected | main_instance.cc:267-288 | the corrected realpath callback never answers a number; it answers a string under the same condition as the original, and that string is the handler's resolved path |
| MainInstance.RealpathHook | main_instance.cc:150-153 | the hooked `realpathSync` answers the original function unless the VFS is consulted; when it is consulted, it answers the handler's resolved path if the code is non-negative and the path non-empty, else the original function |
| MainInstance.RealpathHookAsWritten | main_instance.cc:150-153 | as written, the hooked `realpathSync` answers -1 whenever the arguments do not resolve, and otherwise what the corrected hook answers |
| MainInstance.RealpathHookLeaksMinusOne | main_instance.cc:150-153 | as written, for cwd `/srv/app` and path `/m.js` the VFS is not consulted, yet the hooked `realpathSync` answers -1 |
| MainInstance.ReadFileSync | main_instance.cc:290-307 | as written, the read-file callback answers -1 when the arguments do not resolve; otherwise it answers a string iff a handler is installed and wrote data, and that string is the data written |
| MainInstance.ReadFileAnswer | main_instance.cc:297-306 | once the arguments resolve, the read-file callback answers the data the handler wrote, when a handler is installed and wrote some, and nothing otherwise |
| MainInstance.ReadFileSyncCorrected | main_instance.cc:290-307 | the corrected read-file callback never answers a number; it answers a string under the same condition as the original, and that string is the data written |
| MainInstance.ReadFileHook | main_instance.cc:146-157 | the hooked `readFileSync` and `internalModuleReadJSON` answer the original function unless the VFS is consulted; when it is consulted, they answer the data the handler wrote if it is non-empty, else the original function |
| MainInstance.ReadFileHookAsWritten | main_instance.cc:146-157 | as written, the hooked `readFileSync` and `internalModuleReadJSON` answer -1 whenever the arguments do not resolve, and otherwise what the corrected hook answers |
| MainInstance.ReadFileHookLeaksMinusOne | main_instance.cc:154-157 | as written, a non-string path (a file descriptor) means the VFS is not consulted, yet the hooked `readFileSync` answers -1 |
| MainInstance.Ptrs | main_instance.cc:114-117 | the remaining program arguments become one slot each, in order |
| MainInstance.LaunchArguments | main_instance.cc:109-117 | the launch vector is the program name, `-e` and an empty slot, then `argv[1..]` in order; it has `argc + 2` slots, or 3 when `argc` is 0 |
| MainInstance.EntrySource | main_instance.cc:129-161 | the entry source is the prelude, then `require("./`, then the entry file (`index` by default), then `");` |
| MainInstance.RunEnvironment.constructor | main_instance.cc:77-81 | a new run environment has no arguments and an empty entry source |
| MainInstance.RunEnvironment.InitializeArguments | main_instance.cc:109-117 | the argument vector becomes its old contents followed by the launch vector of `argv` |
| MainInstance.RunEnvironment.ComposeEntry | main_instance.cc:129-162 | the entry source is extended by the composed entry source, and slot 2 of the argument vector now points at it, read as a C string |

## Left out

- Concurrency is not modelled: the registry mutex, the per-channel mutex and the threads that call `emit`. Each operation is atomic in the model.
- `uv_async_init`/`uv_async_send`, `uv_close` and the task's self-deletion are not modelled. Instead, a queued task is an element of `pending`, and `Deliver` is one task callback. One libuv wake-up of a loop runs such callbacks for every pending task of that loop, in creation order; the model lets a loop run them one at a time, and other loops may run in between.
- Two or more sends of the same task before the callback runs are not modelled.
- `uv_async_init` is called from the emitting thread, and libuv does not allow that. The model does not capture this.
- A subscriber registered before `init` is bound to a null loop, and emitting to it passes a null loop to `uv_async_init`. The model just queues that task under `NullLoop`.
- The conversion between script values and JSON is the `toValue` parameter of `ScriptEmit`, so the conversion rules (`v8ValueToJsonObject`, `jsonObjectToV8Value`) are not modelled.
- Payload values hold integers but no floating-point numbers.
- The UTF-8 encoding by `v8::String::Utf8Value` is not modelled. Keys and paths are Dafny strings of Unicode scalar values, compared and searched by character rather than by byte. A script string holding a lone surrogate, which UTF-8 conversion replaces, cannot be expressed.
- What a handler does is left out. `Deliver` records the call as an `Invocation`, and handler exceptions are not modelled.
- `registerToContext`, `v8ThrowError` and the V8 handle and scope machinery are not modelled. A thrown error is the returned `Option<string>`.
- `onRequest` and the request/response records are outside this model.
- The process bootstrap is not modelled: platform, isolate and context creation, `node::Init`, the run loop, `EmitExit` and teardown.
- `applyVfs`, the script-side binding of the callbacks and the `setVfsHandler` global are not modelled. The installed handler is the `vfs` parameter.
- The text of the JavaScript prelude is the `prelude` parameter. Its hooks are modelled by the `...Hook` functions.
- The string writers and `console_handler.h` are not part of this model.
- The vector's `reserve`, and the `argc` passed to `node::Init`, are not modelled.
- EventBus.AppBus.Emit: requires `args` to be an array unless `singleArgument` is set, because iterating anything else is undefined behaviour in the JSON library.
- MainInstance.RunEnvironment.ComposeEntry: requires at least three argument slots, because the source writes slot 2 after `initializeOncePerProcess` has pushed three.
- MainInstance.ArgToRelPath: the relative-path and full-path out-parameters are modelled as starting empty, which is how every caller passes them.

## Findings

| source | as written | input that shows it | evidently intended | confidence | as-written member | corrected member |
|---|---|---|---|---|---|---|
| main_instance.cc:215-239, 150-153, 267-273 | `argToRelPath` sets the script's return value to -1 on failure, and `vfs_realpathSync` returns without replacing it. The hook falls back to the original only when the callback's answer is falsy, and -1 is truthy. | cwd `/srv/app`, path `/m.js`: the hooked `realpathSync` answers -1 instead of the original result | a path outside the working directory falls back to the original `realpathSync` | medium, not executed | MainInstance.RealpathHookLeaksMinusOne | MainInstance.RealpathHook |
| main_instance.cc:220-223, 146-149, 154-157, 290-295 | The same -1 reaches the `readFileSync` and `internalModuleReadJSON` hooks. | `readFileSync(fd)` with a numeric descriptor: the hook answers -1 instead of the file's contents | a non-string path falls back to the original `readFileSync` | medium, not executed | MainInstance.ReadFileHookLeaksMinusOne | MainInstance.ReadFileHook |
