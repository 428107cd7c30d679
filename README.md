# swift-promise in Dafny

A model of the core of the Swift library swift-promise, a small promise type, together with proofs about that model. The model has three parts:

- **`Callbacks`** (module `Callback`, `callback.dfy`). This is the continuation list. It has a one-element fast path (`first`) and an overflow array (`furthers`). Its trampoline `run()` invokes every callback and every callback those return. It uses a worklist loop instead of recursion.
- **`Promise`** (module `Promise`, `promise.dfy`). This is the write-once cell. `result` is set by the first `done` and never changed after that. `callbacks` are the continuations queued while the promise is pending. `done` runs them in registration order and then empties the queue. `map`, `then`, `catch` and `finally` register continuations.
  - `map`'s continuation settles a child promise.
  - `finally`'s continuation hands the result to an observer.
- **`Promises(_ ps:)`** (module `PromiseEx`, `promise_ex.dfy`). This combinator turns an array of promises into one promise of the array of their values. It waits on the inputs in array order and fails with the first failure it meets.

`opt.dfy` holds the `Option` type that stands in for Swift optionals.

`Callbacks` is a Swift struct, so it is a value. It is modelled as a datatype. Its `mutating` `append` becomes a function whose result the owner assigns back.

`Promise` is a class whose methods update its fields. It is modelled as a Dafny class.
- Each method names the promises it may change through a ghost set `world`.
- A ghost `parent`/`depth`/`slot` trio records which `map` created each promise, and at which queue position. This makes the settle cascade `done -> map closure -> next.done` terminate.
- `Snapshot(world)` reads the two fields of every promise of `world` into a value of type `State`. The ghost function `DoneEffect` computes, from one state, the state that `done(r)` leaves and the `finally` observations it makes on the way. `SettleEffect`, `QueueEffect` and `CallEffect` do the same for settling, for running a queue and for calling one closure.
- Each method is proved to leave exactly the state, and return exactly the observations, that these functions give for the state before the call.

`finally` observers do not run user code in the model. Each observation is returned as an `Event`, so the contracts can say which observer saw which result, and in what order.

What `DoneEffect` means for a tree of promises is proved in the module `Chains` (`chains.dfy`):
- `done` changes only the promise it settles and that promise's descendants (`Promise.DoneFrame`).
- The result is written once, and the promise's own `finally` observers see it in registration order (`Chains.DoneRoot`).
- Below each child queued by `map`, the outcome is exactly what the child's own `done` with the mapped result gives (`Chains.DoneChild`). The outcome depends only on that subtree (`Chains.DoneLocal`).
- Applied link by link, this reaches the end of a chain of any length: the last promise holds the blocks applied in order (`Chains.Delivered`).
- Short programs that chain `map`, `finally` and `done` are proved to end in the states these lemmas describe, two links deep.

In `run()`, callbacks are opaque ids. An environment `Env` gives, for each id, the `Callbacks` value that callback returns. Returned ids rank below the id that returned them, which is the well-founded measure standing in for the absence of cycles. `Run` returns the trace of invoked ids and is proved equal to the specification function `RunTrace`. The properties about callback order are proved about `RunTrace`.

## How `run()` orders callbacks

`run()` has two paths, and they order sibling callbacks differently. The model follows the code:

- **Multi-entry path** (Sources/Promise/Callback.swift:90-95). Callbacks are taken from the front of the worklist, and what they return is queued at the back. This is breadth-first order, and siblings run in registration order.
- **Single-entry path.** When the only callback returns two or more callbacks, those are drained as a stack (`popLast`, Sources/Promise/Callback.swift:83). Siblings then run last-registered first.

So the order in which sibling callbacks run depends on which path `run()` takes. `Callback.SiblingOrderDiffersByPath` shows one concrete input where the two paths run the same two callbacks in opposite orders.

Promise.swift never reaches that difference. Every continuation it registers returns `.empty()`, and `Callback.RunTraceQuiet` proves that `run()` then invokes exactly `all()`, in order. The promise cell therefore runs its queue as a plain in-order loop (`Promise.Promise.RunCallbacks`).

## Model

| member | source | states |
|---|---|---|
| Callback.Empty | Sources/Promise/Callback.swift:17-22 | `init()` / `empty()` build a well-formed list holding no callback |
| Callback.Single | Sources/Promise/Callback.swift:24-27 | `init(_ ele)` builds a well-formed list holding exactly `ele` |
| Callback.Append | Sources/Promise/Callback.swift:29-39 | appending keeps the list well-formed and puts the new callback after all the old ones; on an empty list it gives the one-element fast path; on a non-empty list `first` is unchanged |
| Callback.PutAll | Sources/Promise/Callback.swift:54-65 | `putAll(into:)` keeps the slice's prefix and appends the list's elements in order |
| Callback.All | Sources/Promise/Callback.swift:41-52 | `all()` gives the elements in order; its two fast paths agree with `putAll` into an empty slice |
| Callback.RegistrationOrder | Sources/Promise/Callback.swift:29-52 | registering callbacks one by one on a fresh list and calling `all()` gives them back in registration order |
| Callback.FifoTrace | Sources/Promise/Callback.swift:91-95 | the multi-entry loop as a value: take the front callback, invoke it, queue what it returns at the back; the work left measures termination |
| Callback.LifoTrace | Sources/Promise/Callback.swift:82-86 | the inner `popLast` loop as a value: take the back callback, invoke it, push what it returns |
| Callback.ChainTrace | Sources/Promise/Callback.swift:72-88 | the single-entry loop as a value: stop on an empty result, follow a single result, hand a longer result to `LifoTrace` |
| Callback.RunTrace | Sources/Promise/Callback.swift:67-96 | `run()` as a value: nothing for an empty list, `ChainTrace` for a one-element list, `FifoTrace` otherwise |
| Callback.Run | Sources/Promise/Callback.swift:67-96 | `run()` invokes exactly the trace `RunTrace` describes, and that trace runs every reachable callback exactly once (equal multisets with the forest of returned lists) |
| Callback.RunChain | Sources/Promise/Callback.swift:71-89 | the single-entry path follows single-callback results and drains the first longer result as a stack; its trace is `ChainTrace` |
| Callback.RunStack | Sources/Promise/Callback.swift:82-86 | the `popLast` loop's trace is `LifoTrace` of the worklist |
| Callback.RunQueue | Sources/Promise/Callback.swift:90-95 | the `popFirst` loop's trace is `FifoTrace` of the worklist |
| Callback.ChainStep | Sources/Promise/Callback.swift:74-88 | one round of the single-entry loop stops on an empty result, continues with a single result, and hands a longer result to the stack loop |
| Callback.FifoPop | Sources/Promise/Callback.swift:92-94 | popping the front and queuing its result at the back invokes the front first; the work left strictly decreases |
| Callback.LifoPop | Sources/Promise/Callback.swift:83-85 | popping the back and pushing its result invokes the back first; the work left strictly decreases |
| Callback.FifoRunsEachOnce | Sources/Promise/Callback.swift:90-95 | the multi-entry loop invokes each reachable callback exactly once |
| Callback.LifoRunsEachOnce | Sources/Promise/Callback.swift:82-86 | the stack loop invokes each reachable callback exactly once |
| Callback.ChainRunsEachOnce | Sources/Promise/Callback.swift:71-89 | the single-entry path invokes each reachable callback exactly once |
| Callback.RunRunsEachOnce | Sources/Promise/Callback.swift:67-96 | `run()` on any list invokes each reachable callback exactly once |
| Callback.FifoQuiet | Sources/Promise/Callback.swift:90-95 | when every callback returns an empty list, the multi-entry loop invokes the worklist as it is, in order |
| Callback.RunTraceQuiet | Sources/Promise/Callback.swift:67-96 | when every callback returns an empty list, `run()` invokes exactly `all()`, in order |
| Callback.FifoBreadthFirst | Sources/Promise/Callback.swift:90-95 | the multi-entry loop is breadth-first: a batch of callbacks runs before all the callbacks it returns, and those are queued in the batch's order |
| Callback.RunStartsWithQueue | Sources/Promise/Callback.swift:90-95 | on the multi-entry path the registered callbacks are the first ones invoked, in registration order |
| Callback.LifoStack | Sources/Promise/Callback.swift:82-86 | the stack loop drains the top part of the worklist completely before anything below it |
| Callback.LifoSiblingsReversed | Sources/Promise/Callback.swift:82-86 | two callbacks on the stack run last-pushed first, each with everything it leads to |
| Callback.SiblingsInQueue | Sources/Promise/Callback.swift:90-95 | a concrete two-callback list runs in registration order on the multi-entry path |
| Callback.SiblingsOnStack | Sources/Promise/Callback.swift:71-88 | a single callback that returns two callbacks has them run in reverse order |
| Callback.SiblingOrderDiffersByPath | Sources/Promise/Callback.swift:67-96 | the same two sibling callbacks run in opposite orders on the two paths of `run()` |
| Promise.ThenStep | Sources/Promise/Promise.swift:152-163 | `then`'s closure: the block's outcome on a success, the same error on a failure; a throwing block is one returning `Failure` |
| Promise.CatchStep | Sources/Promise/Promise.swift:190-213 | `catch`'s closure: a success passes; on a failure the handler's answer gives one of six outcomes: a value of the promise's type succeeds, an error fails with it, `Void` or `nil` keeps the original error, another type fails with `UnexpectType`, a thrown error fails with it |
| Promise.ThenBlock | Sources/Promise/Promise.swift:151-164 | the closure `then` hands to `map`, as a value |
| Promise.CatchBlock | Sources/Promise/Promise.swift:189-214 | the closure `catch` hands to `map`, as a value |
| Promise.ThenOutcome | Sources/Promise/Promise.swift:152-163 | `then`'s closure gives the block's outcome on a success; on a failure it forwards the same error, whatever the block |
| Promise.ThenIdentity | Sources/Promise/Promise.swift:152-163 | a block returning its input leaves every result unchanged |
| Promise.ThenThen | Sources/Promise/Promise.swift:152-163 | two `then`s in a row equal one `then` composing the blocks |
| Promise.CatchPassesSuccess | Sources/Promise/Promise.swift:191-193 | `catch`'s closure passes a success through unchanged, whatever the handler |
| Promise.CatchSucceeds | Sources/Promise/Promise.swift:190-213 | a `catch` succeeds if and only if the promise succeeded or the handler returned a value of the promise's type |
| Promise.CatchKeepsError | Sources/Promise/Promise.swift:194-211 | on a failure, `catch` yields the original error if and only if the handler returned `Void`, returned `nil`, or produced that same error |
| Promise.CatchUnexpectedType | Sources/Promise/Promise.swift:204-205 | a handler value of another type becomes an `UnexpectType` error naming that type |
| Promise.Promise.constructor | Sources/Promise/Promise.swift:22 | `init()` builds a pending promise with an empty queue |
| Promise.Promise.Resolved | Sources/Promise/Promise.swift:27-29 | `init(_ value)` builds a promise settled with `.success(value)` and an empty queue |
| Promise.Promise.Rejected | Sources/Promise/Promise.swift:34-36 | `init(_ error)` builds a promise settled with `.failure(error)` and an empty queue |
| Promise.Promise.DoneValue | Sources/Promise/Promise.swift:84-86 | `done(value)` is `done` with `.success(value)`: it leaves the world in the state `DoneEffect` gives for the state before the call, returns exactly its observations, and keeps `Linked` |
| Promise.Promise.DoneError | Sources/Promise/Promise.swift:78-80 | `done(error)` is `done` with `.failure(error)`: it leaves the world in the state `DoneEffect` gives for the state before the call, returns exactly its observations, and keeps `Linked` |
| Promise.Promise.Done | Sources/Promise/Promise.swift:88-94 | `done(r)` leaves the world in the state `DoneEffect` gives for the state before the call, returns exactly its observations, and keeps `Linked`; the meaning of `DoneEffect` is proved in `Chains` |
| Promise.Promise.Settle | Sources/Promise/Promise.swift:89-93 | the first `done` on a pending promise leaves the state `SettleEffect` gives: result stored, the old queue run in order on the stored state, queue emptied |
| Promise.Promise.Store | Sources/Promise/Promise.swift:90 | `self.result = result` sets this promise's result and changes no other field of the world |
| Promise.Promise.Reset | Sources/Promise/Promise.swift:92 | `self.callbacks = Callbacks()` empties this promise's queue, changes no other field of the world and keeps `Linked` |
| Promise.Promise.RunCallbacks | Sources/Promise/Promise.swift:91 | `callbacks.run()` on Promise's continuations calls each queued closure once, in order: the loop's state and events are those of `QueueEffect`, and the result stays stored |
| Promise.Promise.Invoke | Sources/Promise/Promise.swift:129-132 | calling a queued closure leaves the state of `CallEffect`: `map`'s runs `next.done(block(result))`, `finally`'s (lines 230-233) observes `result`; both return `.empty()` and leave this promise's result alone |
| Promise.Promise.AddCallback | Sources/Promise/Promise.swift:98-104 | a pending promise appends the closure to its queue, observes nothing, changes nothing else and returns `.empty()`; a settled one calls the closure at once, with the effect of `CallEffect` |
| Promise.Promise.WithFinish | Sources/Promise/Promise.swift:95-97 | `addCallback` followed by `run()` of what it returned: the same effects, because the returned list is empty |
| Promise.Promise.Map | Sources/Promise/Promise.swift:127-134 | returns a fresh child of this promise with an empty queue. Pending: the child is pending, queued last, and nothing else changes. Settled: the child holds `block(result)` and nothing else changes |
| Promise.Promise.Then | Sources/Promise/Promise.swift:151-164 | `map` with `then`'s closure: the child, with an empty queue, is queued last, or holds `ThenStep` of the result at once |
| Promise.Promise.Catch | Sources/Promise/Promise.swift:189-214 | `map` with `catch`'s closure: the child, with an empty queue, is queued last, or holds `CatchStep` of the result at once |
| Promise.Promise.Finally | Sources/Promise/Promise.swift:229-234 | a pending promise queues the observer and changes nothing else; a settled one shows it the result at once and changes nothing |
| Promise.WriteOnce | Sources/Promise/Promise.swift:89-90 | the write-once cell: an attempt to store `r` keeps the value already held, and stores `r` only into an empty cell |
| Promise.DoneEffect | Sources/Promise/Promise.swift:88-94 | `p.done(r)` on a state: nothing changes and nothing is observed if `p` is settled; otherwise the outcome is `SettleEffect` |
| Promise.SettleEffect | Sources/Promise/Promise.swift:89-92 | the first settle on a state: store `r` in `p`, run `QueueEffect` over `p`'s old queue on that state, then empty `p`'s queue; the observations are those of the queue run |
| Promise.QueueEffect | Sources/Promise/Promise.swift:91 | `callbacks.run()` on a state: the closures of the queue are called one after another, each on the state the previous one left, and their observations are concatenated in queue order |
| Promise.CallEffect | Sources/Promise/Promise.swift:129-132 | calling one closure of a settled promise on a state: `finally`'s (lines 230-233) observes `r` and changes nothing; `map`'s gives `DoneEffect` of its child with `block(r)`, and nothing if the child is not a promise of the world |
| Promise.Observations | Sources/Promise/Promise.swift:91 | the observations the `finally` closures of a queue make when their promise settles, in queue order; at most one per closure |
| Promise.Filter | Sources/Promise/Promise.swift:229-234 | the observations made at one promise, in the order they were made; never more than all of them |
| Promise.DescendsDepth | Sources/Promise/Promise.swift:127-134 | a promise made by a chain of `map`s is deeper than the one it descends from, and at equal depth it is that promise |
| Promise.DoneQuiet | Sources/Promise/Promise.swift:88-94 | `done` on a pending promise with an empty queue only stores the result and empties the queue; nothing is observed |
| Promise.ForwardQuiet | Sources/Promise/Promise.swift:129-132 | `map`'s closure for a pending child with an empty queue only settles that child with `block(r)` |
| Promise.QueueStep | Sources/Promise/Promise.swift:91 | one turn of the queue loop moves the closure at position `k` from the part still to run into the events |
| Promise.DoneFrame | Sources/Promise/Promise.swift:88-94 | `done` on a promise keeps the world's promises, changes only that promise and its descendants, and observes nothing at any other promise |
| Promise.QueueFrame | Sources/Promise/Promise.swift:91 | running a queue changes only the subtrees of the children it settles, and observes nothing outside them except at its own promise |
| Promise.CallFrame | Sources/Promise/Promise.swift:129-132 | calling one closure changes only the subtree of the child it settles |
| Chains.DoneLocal | Sources/Promise/Promise.swift:88-94 | two states that agree on the subtree of a promise give outcomes of its `done` that agree on that subtree, with the same observations |
| Chains.QueueRoot | Sources/Promise/Promise.swift:91 | the observations the queue of a promise makes at that promise are those of its `finally` closures, in registration order |
| Chains.DoneRoot | Sources/Promise/Promise.swift:88-94 | the result is write-once: after `done(r)` it is the old result if there was one, otherwise `r`. A pending promise ends with an empty queue after its `finally` observers saw `r` once each, in registration order. On a settled promise `done` changes nothing and observes nothing |
| Chains.QueueChild | Sources/Promise/Promise.swift:91 | running a queue from any position up to a child's own leaves that child's subtree, and its observations, as the child's own `done` with the mapped result would |
| Chains.DoneChild | Sources/Promise/Promise.swift:127-134 | after `done(r)` on a pending promise, the subtree of each child queued by `map` is exactly as that child's own `done(block(r))` leaves it, with the same observations |
| Chains.ChildSettled | Sources/Promise/Promise.swift:127-134 | after `done(r)` each queued child holds its old result if it had one, otherwise `block(r)`; a pending child's queue is emptied and its observers saw `block(r)` in order; a settled child is untouched and observes nothing |
| Chains.Delivered | Sources/Promise/Promise.swift:127-134 | along a chain of `map`s of any length, `done(r)` on the first promise leaves the last one holding `r` with all the blocks applied in order (or its old result); if it was pending, its queue is emptied and its observers saw that value in order |
| Chains.TwoLinks | Sources/Promise/Promise.swift:127-134 | a pending promise with a pending child that has a pending grandchild: `done(r)` settles them with `r`, `f(r)` and `g(f(r))` and empties all three queues |
| Chains.ObservedBelow | Sources/Promise/Promise.swift:229-234 | an observer registered on a child sees the child's mapped result exactly once when the root is settled |
| Chains.MapThenDone | Sources/Promise/Promise.swift:127-134 | `map` on a pending promise followed by `done(r)` settles the child with `block(r)`, as mapping after settlement would, and empties both queues |
| Chains.FinallyThenDone | Sources/Promise/Promise.swift:229-234 | two `finally` observers registered on a pending promise each see its result once, in registration order |
| Chains.MapFinallyThenDone | Sources/Promise/Promise.swift:127-134 | `map`, then `finally` on the child, then `done(r)` on the root: the child holds `block(r)` with an empty queue, and its observer saw `block(r)` exactly once |
| Chains.MapMapThenDone | Sources/Promise/Promise.swift:127-134 | two `map`s in a row, then `done(r)`: the grandchild holds `second(first(r))`, and all three queues are empty |
| PromiseEx.CollectAll | Sources/Promise/Promise.ex.swift:126-134 | the combinator's outcome: no inputs give an empty array, and a success holds one value per input |
| PromiseEx.AwaitAll | Sources/Promise/Promise.ex.swift:128-133 | the `for` loop waits on inputs in order and stops at the first failure. On success it has waited on all inputs, all succeeded, and the values are theirs in input order. On failure the last input it waited on failed with the returned error, and every input before it succeeded. |
| PromiseEx.Promises | Sources/Promise/Promise.ex.swift:126-134 | `Promises(_ ps:)` gives a fresh promise settled with the loop's outcome and an empty queue |
| PromiseEx.AllSucceed | Sources/Promise/Promise.ex.swift:126-134 | the combinator succeeds if and only if every input succeeds, and then holds their values in input order |
| PromiseEx.FirstFailureWins | Sources/Promise/Promise.ex.swift:129-131 | a failing input whose predecessors all succeeded decides the outcome with its error |
| PromiseEx.RestIgnored | Sources/Promise/Promise.ex.swift:129-131 | once the inputs so far have failed, later inputs never affect the outcome |

## Left out

- Concurrency: threads, locks and `@unchecked Sendable` are not modelled. Every call runs to completion before the next one starts, and the model is sequential.
- `wait()` (Sources/Promise/Promise.swift:255-261) is left out. It is an `async` bridge built on `withUnsafeThrowingContinuation` and `finally`. `PromiseEx` represents a waited-on input by the result it settles with.
- `init(_ initFunc:)` (Sources/Promise/Promise.swift:68-74) is left out. It calls user code with `done` closures, which a caller of the model writes as a call to `Promise.Promise.DoneValue` or `Promise.Promise.DoneError`.
- The `Task`-based initializers (Sources/Promise/Promise.ex.swift:38-84) are left out because they need the Swift concurrency runtime. `PromiseEx.Promises` settles its promise directly with the loop's outcome.
- The parameter-pack `Promises(_ ps: repeat ...)` (Sources/Promise/Promise.ex.swift:104-108) is left out: Dafny has no variadic generics. The file's array version is modelled instead.
- PromiseAll.swift is not part of this model. Neither is Safely.swift.
- `UnexpectType.description` (Sources/Promise/Promise.swift:275-277) is left out because it is string formatting. The error is modelled as `UnexpectType(observed)`, carrying the name of the type observed.
- Errors form a closed datatype (`Fault` or `UnexpectType`) instead of Swift's open `Error` existential.
- Promise.Promise.Map: `map<Other>` changes the value type in Swift. The model keeps a single value type for a whole chain, because the closures queued on a promise must share a type.
- Promise.Promise.Catch: the handler's `Any?` result is read as one of a closed set of shapes (`Recovery`), which do not overlap. A handler result that is also a `Value` must be written `NewValue`, because the code's first case (`as Value`, Sources/Promise/Promise.swift:198) takes it. Examples are `()` on a `Promise<Void>`, or an error when `Value` is itself an error type.
- Promise.Promise.Then: a throwing block is modelled as a block that returns `Failure`.
- Promise.Promise.Finally: the observer does not run user code. It is recorded as an `Event` and never calls back into promises. Re-entrant observers are not modelled.
- The only continuations Promise.swift registers are those of `map` and `finally`. The model's `Continuation` datatype holds exactly those two, not arbitrary closures.
- Promise.Promise.RunCallbacks runs the queue as an in-order loop instead of through the general trampoline. This is exact because every continuation returns `.empty()` (`Callback.RunTraceQuiet`). The trampoline therefore never flattens the cascade: each link recurses once, through `next.done` inside `map`'s closure (Sources/Promise/Promise.swift:91, 130), and the model recurses the same way. Stack depth itself is not modelled.
- Callback.Run: callbacks are opaque ids with an environment of what each returns. Their side effects are not modelled.
- Callback.Run requires that returned ids rank below the id that returned them (`Closed`). A set of callbacks that keeps returning each other forever never ends in Swift, and it is not modelled.
- PromiseEx.Promises takes the inputs' final results. Inputs that never settle are not modelled, and neither is timing ("first in time" against "first in order"). The code waits in input order, and the model follows the code.
