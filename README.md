# module-synchroniser in Dafny

This project models the two pieces that hold the logic of `module-synchroniser`.

- **`Queue<T>`** (lib/queue.ts) is a FIFO buffer. It stores elements in a record keyed by consecutive
  integers, with a `_head` and a `_tail` counter. `enqueue` writes at `_tail`. `dequeue` reads and
  deletes at `_head`. `foreach` drains the queue front to back through a callback.
  - In the model it is the class `Queues.Queue`, with a `store: map<int, T>`, the two counters and a
    ghost `contents` sequence. `Valid()` states that the keys of `store` are exactly `[head, tail)`
    and that slot `head + k` holds `contents[k]`.
  - `foreach` is the method `Foreach`, a `while` loop that re-reads `tail` on every round, as the
    source does. It is proved against the reference function `Queues.Drained`.
  - The callback is a pure function. Each run returns what it enqueued (`Continue`) or the exception
    it threw (`Raise`).
- **`ModuleSynchronizer`** (lib/index.ts) is a deferred dispatcher. It wraps a module that is still
  loading. Calls made before the load finishes are queued and replayed in issue order when the load
  succeeds, or rejected when it fails. Calls made after a successful load run at once.
  - In the model it is the class `Dispatch.ModuleSynchronizer`. Its fields are the closure state
    `loadedModule` (`loaded`), the queue of call records, and a table of the settlements of the
    promises handed out (`handles`). Three more fields are the counter that names the next handle
    (`nextId`), a `settled` flag set once the load promise has settled, and a ghost log of the
    invocations that reached the module.
  - The Proxy's `get` trap is `CallNamed`. Its `apply` trap is `CallSelf`. The `.then` handler is
    `OnLoad`, and the `.catch` handler chained after it is `OnFail`.
  - The loaded module is an abstract function from a callee and arguments to `Ok(value)` or
    `Throw(error)`.

The module `Scenarios` replays the cases of lib/async-queue.spec.ts as client methods over the
dispatcher. It also covers the corner cases of lib/index.ts that those cases do not reach. Each
scenario is proved from the dispatcher's contracts alone.

Four behaviours of lib/index.ts are easy to miss. The model states each of them as the code has it:

- **Load failure.** The `.catch` handler (lib/index.ts:20-25) rejects only the calls already queued,
  as the test "should reject each call if the module fails to load" (lib/async-queue.spec.ts:59-70)
  expects. It never sets `loadedModule`. A call made after the failure is therefore queued, and no
  handler will ever run again to settle it (`Scenarios.CallAfterFailureStaysPending`).
- **Throwing replayed call.** The `.then` drain (lib/index.ts:12-18) has no `try`. A replayed call that
  throws escapes the drain and stops it.
  - The call that threw was already dequeued, so its promise is never settled.
  - The `.catch` chained after `.then` then rejects the calls still queued with that call's error,
    not a load error.
  - The module stays loaded.
  - See `Dispatch.ModuleSynchronizer.OnLoad`, `Dispatch.LoadSettlement` and
    `Scenarios.ReplayThrowStrandsCall`.
- **Direct call after the load.** The `apply` trap (lib/index.ts:39-42) does not return a promise once
  the module is loaded. It returns what `loadedModule.apply(thisArg, args)` returns, or lets its
  exception escape (`Dispatch.ModuleSynchronizer.CallSelf`).
- **The "self" selector.** A direct call is queued under the selector `"self"` (lib/index.ts:45). A
  member named `self`, called before the load, is therefore replayed as a call of the module itself
  (lib/index.ts:14-15, `Scenarios.SelfMemberCollision`).

## Model

| member | source | states |
|---|---|---|
| Queues.Queue.constructor | lib/queue.ts:6-10 | A new queue is valid and empty: head = tail = 0 and the record has no keys. |
| Queues.Queue.Size | lib/queue.ts:15-17 | `size` is the number of elements held (`_tail - _head`) and is never negative. |
| Queues.Queue.IsEmpty | lib/queue.ts:12-14 | `isEmpty` holds exactly when the queue holds no element. |
| Queues.Queue.Enqueue | lib/queue.ts:19-22 | The value is appended at the back: the slot at the old tail holds it, tail grows by one, head and every earlier element stay as they were, and the invariant is kept. |
| Queues.Queue.Dequeue | lib/queue.ts:24-32 | On an empty queue: `undefined` comes back and nothing changes. Otherwise: the front element comes back, its slot is deleted, head advances by one, the rest stays in order, and the invariant is kept. |
| Queues.Queue.EnqueueAll | lib/queue.ts:19-22 | The enqueues a callback run makes, one after another, append its items in order at the back. |
| Queues.Queue.Foreach | lib/queue.ts:34-42 | The loop that re-reads `_tail` visits exactly what the reference drain `Drained` visits, in order. It leaves behind exactly what `Drained` leaves, advances head by the number visited, surfaces the same escaping exception, and keeps the invariant. |
| Queues.DrainedVisitsAll | lib/queue.ts:34-42 | With a callback that neither enqueues nor throws, `foreach` visits every element present at the start, front to back, and leaves the queue empty. |
| Queues.DrainedSplits | lib/queue.ts:34-42 | With a callback that does not enqueue, the visited part and the part left behind together are the queue as it was. The callback gets indices index, index + 1, and so on. The drain stops early only on the element the callback threw on, which is the last one visited. |
| Queues.DrainedReentrant | lib/queue.ts:36-38 | Because the bound re-reads `_tail`, elements the callback enqueues are visited by the same `foreach`. When nothing throws, the visited sequence is the original elements followed by everything enqueued during the drain, and the queue ends empty. |
| Queues.FifoOrder | lib/queue.ts:19-31 | Elements enqueued one after another come out of successive dequeues in the order they went in. |
| Dispatch.ResolveSelector | lib/index.ts:14-17 | A queued selector replays as a call of the module itself exactly when it is `"self"`. Any other selector calls the member of that name. |
| Dispatch.Calls | lib/index.ts:12-18 | Replaying queued calls invokes the module once per entry, in queue order, each time with the entry's own recorded arguments and resolved selector. |
| Dispatch.FirstThrow | lib/index.ts:12-18 | The `.then` drain's stopping point. Every replayed call before it returned normally, and the call at it threw. |
| Dispatch.ResolveAll | lib/index.ts:12-18 | Resolving the replayed calls keeps the set of handles. |
| Dispatch.RejectAll | lib/index.ts:21-24 | Rejecting the queued calls keeps the set of handles. |
| Dispatch.ResolveAllEffect | lib/index.ts:12-18 | Each replayed call that returned is resolved with its own result, and one that threw keeps its settlement. Every other handle is untouched. |
| Dispatch.RejectAllEffect | lib/index.ts:21-24 | Each drained call is rejected with the given error, and every other handle is untouched. |
| Dispatch.RejectKeepsSettled | lib/index.ts:20-25 | The reject drain over pending calls never settles a handle that was already settled, and loses none. |
| Dispatch.RejectDrain | lib/index.ts:21-24 | The reject callback neither enqueues nor throws, so the `.catch` drain takes out every queued call and empties the queue. |
| Dispatch.ReplayCallbackBounded | lib/index.ts:11-18 | The replay callback never enqueues. `loadedModule` is set before the drain, so calls made during replay run directly and are not queued. |
| Dispatch.ReplayDrain | lib/index.ts:10-18 | The `.then` drain visits the queued calls up to and including the first that throws, leaves the rest queued, and surfaces that call's error. If no call throws, it visits all of them and surfaces nothing. |
| Dispatch.LoadSettlement | lib/index.ts:9-25 | After a successful load, each queued call is settled by its position. A call before the first throwing one is resolved with its own result. The throwing call stays pending. A call after it is rejected with the thrown error. No other handle changes, and no handle is settled twice. |
| Dispatch.LoadPlan | lib/index.ts:9-25 | How the `.then` drain's outcome, followed by the `.catch` drain of what it left behind, produces the handle table after the load, without settling any handle twice. |
| Dispatch.ModuleSynchronizer.constructor | lib/index.ts:6-7 | At creation the module is unset, the queue is empty, no promise exists and the load has not settled. |
| Dispatch.ModuleSynchronizer.CallNamed | lib/index.ts:28-38 | Before the load, the call is appended to the queue under a fresh, pending handle, and the module is not invoked. After the load, the member runs at once, the queue stays empty, and the promise settles with what the member returned or threw. |
| Dispatch.ModuleSynchronizer.CallSelf | lib/index.ts:39-47 | Before the load, the call is queued under `"self"` and a pending handle comes back. After the load, the call is made synchronously and its raw result or exception comes back, with no promise and no queue change. It is modelled as a call of the module itself (see "## Left out" for a module with its own `apply`). |
| Dispatch.ModuleSynchronizer.OnLoad | lib/index.ts:9-25 | `loadedModule` is set, and the queued calls up to the first throwing one reach the module in issue order. Handles become the load settlement above. The queue ends empty, and no handle is settled twice. |
| Dispatch.ModuleSynchronizer.OnFail | lib/index.ts:20-25 | Every queued call is rejected with the load error. The module stays unset, nothing reaches the module, the queue ends empty, and no settled handle changes. |
| Scenarios.NothingRunsBeforeLoad | lib/async-queue.spec.ts:6-20 | While the load is pending, two calls are queued and both stay pending, and the module is never invoked. |
| Scenarios.ReplayInIssueOrder | lib/async-queue.spec.ts:22-57 | After the load, `add(1, 2)` then `subtract(2, 3)` reach the module in that order with those arguments, and the promises resolve to 3 and -1. |
| Scenarios.ArithReplay | lib/async-queue.spec.ts:22-57 | The load settlement and replay log for the two queued arithmetic calls. |
| Scenarios.ReplayOne | lib/index.ts:12-18 | A load finding one queued call replays exactly it. The call resolves if the module returned, and stays pending if the module threw. |
| Scenarios.LoadFailureRejects | lib/async-queue.spec.ts:59-70 | A call queued before a failed load is rejected with the load's own error, and the module is never invoked. |
| Scenarios.DirectCallBeforeLoad | lib/async-queue.spec.ts:72-81 | A direct call `(4, 4)` made before the load resolves to 8 once the module, itself a function, is loaded. |
| Scenarios.DirectCallAfterLoad | lib/async-queue.spec.ts:83-93 | A direct call after the load returns the raw value 8, and over both calls the module ran twice. |
| Scenarios.NamedCallAfterLoad | lib/async-queue.spec.ts:95-107 | After the load, `add(2, 3)` runs at once and resolves to 5, the queue stays empty, and `add` has run twice with (1, 2) and (2, 3). |
| Scenarios.CallAfterFailureStaysPending | lib/index.ts:20-35 | After a failed load the module stays unset. A later call is queued and stays pending, and since the load has settled, no handler is left to drain it. |
| Scenarios.ReplayThrowStrandsCall | lib/index.ts:9-25 | With `add`, `explode` and `subtract` queued, `add` resolves to 3. `explode` throws and stays pending forever. `subtract` is rejected with the thrown error and never runs. |
| Scenarios.ExplodingReplay | lib/index.ts:9-25 | The load settlement and replay log for the three queued calls of the scenario above. |
| Scenarios.LoadedDespiteReplayThrow | lib/index.ts:9-32 | A replayed call that throws still leaves the module loaded. A later call runs at once and resolves, while the call that threw stays pending. |
| Scenarios.SelfMemberCollision | lib/index.ts:14-32 | For a callable module that also has a member `self`, `self()` made before the load runs the module itself. The same call made after the load runs the member. |

## Left out

- The Proxy mechanics (lib/index.ts:27-48) are not modelled: trap dispatch, symbol property keys,
  reads of non-function members and the `thisArg`/receiver binding. Only the two call kinds are kept,
  a named member call and a direct call.
- Promise and microtask scheduling are replaced by explicit events: `OnLoad` and `OnFail` are called
  by the client, and each caller-side promise is a handle in a settlement table. Promise adoption,
  where a member returns a promise that the caller's promise then follows, is not modelled. A returned
  value is recorded as is.
- The type declarations at lib/index.ts:51-66 exist only at compile time and are not modelled.
- Jest mocks and fake timers are not modelled. The modules of the test cases are written out as small
  target functions over a three-case value type (`undefined`, integers, strings), and calling a
  missing member is a thrown `TypeError`.
- Queues.Queue.Foreach: the callback is a pure function of the element and its index. It reports the
  elements it enqueued into the queue being drained, or the exception it threw. A callback that
  dequeues, or has other effects, is not modelled. Nor is a callback that enqueues and then throws:
  in the source the items it enqueued before the throw stay in the queue, while `Raise` carries no
  items.
- Queues.Queue.Foreach: it also requires a ghost bound after which the callback enqueues nothing. The
  source's loop need not stop for a callback that keeps enqueueing, and the model does not cover that
  case.
- Dispatch.ModuleSynchronizer.OnLoad: the effects of the drain callbacks are applied after each
  `Foreach` returns, rather than interleaved with it. These effects are resolving or rejecting a
  handle and recording an invocation. The handles in the queue are distinct, so the resulting table
  and log are the same.
- Dispatch.ModuleSynchronizer.CallSelf: after the load, lib/index.ts:41 calls the module's `apply`
  property with `(thisArg, args)`, while the replay at lib/index.ts:15 calls `module(...args)`. The model
  sends both to a call of the module itself. A module with its own `apply` member (an object module
  with a member of that name, or a function whose `apply` is shadowed) would have that member called
  after the load instead. This second name collision, like the one on `"self"`, is not modelled.
- Dispatch.ModuleSynchronizer.CallNamed: `if (loadedModule)` is a JavaScript truthiness test. A module
  that loads as a falsy value (`0`, `""`, `null`) would keep calls queued. The model treats any loaded
  module as present.
- Integer arithmetic in the example modules is unbounded. JavaScript numbers are not modelled.
