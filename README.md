# Type-erased publish/subscribe dispatcher, modelled in Dafny

This project models `type-erasure/src/lib.rs`, a small message dispatcher.
Observers register with a `MessageSystem` for one message type each. Registering
wraps the observer in an adapter (`ObserverWrapper<T, M>`) that hides its concrete
type behind the uniform `handle_any` operation. `send` publishes a message by
draining a FIFO queue. Each dequeued message is offered to every registration in
registration order. An adapter whose type matches runs its observer on a fresh
`Ctx`, and whatever the observer emitted there is appended to the tail of the queue.
One `GreetingObserver` is registered for both `SayHello` and `SayGoodbye`. Its
counter is therefore shared through the single `Rc<RefCell<_>>` handle behind both
registrations.

The model keeps the source's imperative shape:

- `Context.Ctx` and `Context.MsgQueue` are classes over `seq<Msg>`.
- The observers are classes with handler methods.
- `Erasure.Wrapper.HandleAny` is the adapter.
- `Dispatcher.MessageSystem` holds the registration list. Its `Send` runs the
  `while let` loop (`Dispatcher.Drain`) with the inner `for` loop
  (`Dispatcher.OfferToAll`).

Type erasure becomes an explicit runtime tag: `Messages.TagOf`, and
`Messages.ViewAs` for the downcast. These are the only parts of `Box<dyn Any>`
the dispatcher observes.

The methods are proved against a pure specification, module `Cascade`:

- `Offer` delivers one message to all registrations.
- `Run` is the whole cascade under a dequeue budget.

`Send` leaves the observers in exactly the state `Run` computes and returns the
same pending messages and trace. The breadth-first and FIFO properties,
exactly-once delivery and the greeting scenario are lemmas about `Run` and `Offer`.
In the specification only, each queued message carries a level: 0 for the
published message, k + 1 for anything emitted while handling a level-k message.
The level order lemmas are stated over these levels.

Files:

- `messages.dfy`: message types, `u32`, tags and the downcast.
- `context.dfy`: `Ctx` and the pending queue.
- `observers.dfy`: the two concrete observers.
- `erasure.dfy`: observer handles, the trait-implementation relation and the
  adapter.
- `cascade.dfy`: the specification and its lemmas.
- `message_system.dfy`: the dispatcher.
- `greeting_scenario.dfy`: the crate's test and the duplicate-registration property.

## Model

| member | source | states |
|---|---|---|
| Messages.TagOf | type-erasure/src/lib.rs:129 | The runtime type that `downcast_ref::<M>()` checks. Each message struct has its own tag, and a message has the tag of exactly the struct it was built from. |
| Messages.ViewAs | type-erasure/src/lib.rs:129 | The downcast succeeds if and only if the message's runtime type is the adapter's bound type. On success it yields that very message. A mismatch is a miss, never an error. |
| Context.Ctx.constructor | type-erasure/src/lib.rs:8-11 | A default context holds no messages. |
| Context.Ctx.Send | type-erasure/src/lib.rs:14-19 | `Ctx::send` appends exactly one message at the end. The earlier messages keep their order. |
| Context.MsgQueue.constructor | type-erasure/src/lib.rs:81 | A new pending queue is empty. |
| Context.MsgQueue.PushBack | type-erasure/src/lib.rs:82 | The published message becomes the queue's last element. |
| Context.MsgQueue.PopFront | type-erasure/src/lib.rs:83 | On an empty queue the result is `None` and the queue stays empty. Otherwise the result is the front message and the queue loses exactly that element. |
| Context.MsgQueue.Extend | type-erasure/src/lib.rs:133 | A context's messages are appended to the tail in emission order. |
| Observers.WrappingInc | type-erasure/src/lib.rs:50 | `greet_count += 1` on a `u32` yields the old value plus one, modulo 2^32. |
| Observers.GreetingObserver.constructor | type-erasure/src/lib.rs:43-46 | A default greeting observer has counted nothing. |
| Observers.GreetingObserver.HandleHello | type-erasure/src/lib.rs:48-54 | Handling a hello increments the counter once and emits exactly one `SayGoodbye("blog")` into the context. |
| Observers.GreetingObserver.HandleGoodbye | type-erasure/src/lib.rs:56-61 | Handling a goodbye increments the counter once. The context is not changed. |
| Erasure.Implements | type-erasure/src/lib.rs:33-61 | The three `impl Observer<M> for T` blocks. `UpdateLastLoginTime` implements exactly `UserLoggedIn`, and `GreetingObserver` implements exactly `SayHello` and `SayGoodbye`. |
| Erasure.Emits | type-erasure/src/lib.rs:48-61 | What each handler sends into its `Ctx`. The greeting observer sends exactly one `SayGoodbye("blog")` for a hello and nothing for a goodbye. The login observer sends nothing. |
| Erasure.Wrapper.HandleAny | type-erasure/src/lib.rs:128-135 | The observer runs if and only if the message has the bound type. On a mismatch the queue and the observer's counter are unchanged. On a match the queue becomes the old queue followed by the observer's emissions, and the counter is incremented. Nothing outside the queue and this observer changes. |
| Cascade.Invoke | type-erasure/src/lib.rs:131-133 | One invocation of a greeting observer advances its counter by one, modulo 2^32. It emits exactly what the observer's handler sends into its `Ctx`. Every other counter is unchanged, and no observer is added or removed. |
| Cascade.OfferUpTo | type-erasure/src/lib.rs:84-86 | Offering a message to a prefix of the registrations keeps the set of observers whose state is tracked. |
| Cascade.Offer | type-erasure/src/lib.rs:84-86 | One pass of the inner `for` loop: the message is offered to every registration in order. The set of tracked observers is kept. Which registrations run is stated by `Cascade.OfferFiresMatching`. |
| Cascade.Run | type-erasure/src/lib.rs:81-87 | The loop dequeues at most `fuel` messages. It stops only with an empty queue or exhausted fuel, so pending messages remain only when the whole budget was used. |
| Cascade.OfferFiresMatching | type-erasure/src/lib.rs:84-86 | Offering a message runs the observer of exactly the registrations bound to its type. Each runs once, in registration order, and none runs twice. |
| Cascade.OfferUnmatched | type-erasure/src/lib.rs:84-86 | A message whose type no registration is bound to changes no state, emits nothing and runs nothing. |
| Cascade.RunFifo | type-erasure/src/lib.rs:81-87 | The queue is strictly FIFO. The dequeued messages followed by the pending ones equal the initial queue followed by every emission, in the order they were emitted. |
| Cascade.RunLevelOrder | type-erasure/src/lib.rs:81-87 | Processing is breadth-first. Handled levels never decrease, so all messages at one level are handled before anything they caused. |
| Cascade.RunSettled | type-erasure/src/lib.rs:83 | Once the queue has drained, a larger budget gives the same run. The budget bounds the loop without changing its result. |
| Cascade.RunUnobserved | type-erasure/src/lib.rs:81-87 | Publishing a message of an unregistered type invokes nothing, changes nothing, and ends after one dequeue with an empty queue. |
| Dispatcher.OfferToAll | type-erasure/src/lib.rs:84-86 | The inner `for` loop leaves the observers in the state `Offer` specifies. It appends to the queue exactly what `Offer` says was emitted. |
| Dispatcher.Drain | type-erasure/src/lib.rs:83-87 | The `while let` loop leaves the observers in the state `Run` specifies. The queue then holds `Run`'s pending messages. |
| Dispatcher.MessageSystem.constructor | type-erasure/src/lib.rs:91-97 | A default message system has no registrations. |
| Dispatcher.MessageSystem.AddObserver | type-erasure/src/lib.rs:68-75 | Registration appends exactly one adapter at the end and keeps all earlier registrations in order. It is allowed only for a type the observer implements. |
| Dispatcher.MessageSystem.Send | type-erasure/src/lib.rs:77-88 | After `send`, every registered observer holds the counter `Run` computes from the state before the call. The pending messages and the trace of dequeues are `Run`'s. The registrations are unchanged. |
| Scenario.GreetingCascade | type-erasure/src/lib.rs:48-61 | With the observer registered for hello and for goodbye, a hello runs the first registration and emits the farewell. The farewell runs the second registration. The shared counter rises by exactly two and nothing is left pending, for every budget of two or more. |
| Scenario.DuplicateRegistrations | type-erasure/src/lib.rs:68-75 | Registering one observer n times for `SayHello` is not merged. A hello runs it n times, once per registration in order, adds n to its counter modulo 2^32 and emits n farewells. |
| Scenario.HandlesMultipleMessageTypes | type-erasure/src/lib.rs:143-154 | The crate's test: after registering one greeting observer for both greeting types and sending "world", its count is 2 and the queue is empty. |

## Left out

- Dispatcher.MessageSystem.Send: the source loop has no bound. The model takes a
  budget `fuel` on the number of dequeues and returns what is still pending.
  Termination is shown only for concrete cascades: `Scenario.GreetingCascade`
  drains in two dequeues for every budget of two or more. `Cascade.RunSettled`
  shows a larger budget never changes a drained run.
- Observers.WrappingInc: models release-build wrap-around of `greet_count += 1`.
  A debug build panics on overflow instead, and that panic is not modelled.
- `println!` in both greeting handlers is console output and is not modelled.
- `Box<dyn Any>`, `TypeId` and `PhantomData` are replaced by the closed `Msg`
  datatype and the `Tag` of each message. The set of message types and observer
  types is the crate's own. Observers defined outside the crate are not modelled.
- `Rc<RefCell<T>>` sharing is modelled by object references. Registrations that
  name the same object share its state. The `RefCell` borrow panic of
  `borrow_mut()` in `handle_any` is not modelled. It has two triggers. One is a
  handler that re-enters `send` while its own observer is borrowed; no handler
  in the crate does this. The other is a caller that holds a `borrow()` or
  `borrow_mut()` of a registered observer across `system.send(..)`. The crate's
  only caller, its test, borrows the observer only after `send` has returned
  (lib.rs:150-152). The model assumes neither happens.
- Observers.UpdateLastLoginTime.HandleUserLoggedIn: the source handler body is
  empty. The model is a method that modifies nothing, so it has no `ensures`
  and no row above.
- The `#[derive]` boilerplate (`Debug`, `Clone`, `PartialEq`, `Default`) and the
  `derive_more` import are not modelled. Only the constructors used by the
  dispatcher and its test are modelled.
- Message levels: the level is an annotation of the
  specification only. The source queue carries messages without levels, and
  `Send`'s result drops them (`Cascade.Msgs`).
