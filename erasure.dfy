/**
 * The erasure adapter `ObserverWrapper<T, M>`: a shared observer handle bound
 * to one message type, offering the uniform `handle_any` operation.
 */
module Erasure {
  import opened Messages
  import opened Context
  import opened Observers

  /** A shared handle (`Rc<RefCell<T>>`) to one of the crate's observer types. */
  datatype Handle =
    | Greeting(greeter: GreetingObserver)
    | LastLogin(recorder: UpdateLastLoginTime)

  /** The `impl Observer<M> for T` blocks of the crate: which types a handle can be bound to. */
  predicate Implements(h: Handle, bound: Tag): (ok: bool)
    ensures ok <==> (h.LastLogin? <==> bound == LoginTag)
  {
    match h
    case Greeting(_) => bound == HelloTag || bound == GoodbyeTag
    case LastLogin(_) => bound == LoginTag
  }

  /** The objects whose state an invocation of the handle may change. */
  function Footprint(h: Handle): (objs: set<object>) {
    match h
    case Greeting(g) => {g}
    case LastLogin(_) => {}
  }

  /** What the observer behind `h` emits when it handles `m`. */
  function Emits(h: Handle, m: Msg): (out: seq<Msg>)
    requires Implements(h, TagOf(m))
    ensures h.Greeting? && m.SayHello? ==> out == [Farewell]
    ensures h.Greeting? && m.SayGoodbye? ==> out == []
    ensures h.LastLogin? ==> out == []
  {
    match h
    case Greeting(_) => if m.SayHello? then [Farewell] else []
    case LastLogin(_) => []
  }

  /** One registration: observer handle plus the message type it is bound to. */
  datatype Wrapper = Wrapper(observer: Handle, bound: Tag) {

    predicate Valid() {
      Implements(observer, bound)
    }

    /**
     * `handle_any`: on a message of another type, nothing happens; on a
     * message of the bound type, the observer runs on a fresh context and
     * everything it emitted goes to the tail of `sendMsgs`, in emission order.
     * `fired` records (for the proofs only) whether the observer ran.
     */
    method HandleAny(sendMsgs: MsgQueue, msg: Msg) returns (ghost fired: bool)
      requires Valid()
      modifies sendMsgs, Footprint(observer)
      ensures fired <==> TagOf(msg) == bound
      ensures sendMsgs.items == old(sendMsgs.items) + (if fired then Emits(observer, msg) else [])
      ensures observer.Greeting? ==>
        observer.greeter.greetCount ==
          if fired then WrappingInc(old(observer.greeter.greetCount)) else old(observer.greeter.greetCount)
    {
      var view := ViewAs(msg, bound);
      fired := view.Some?;
      if view.Some? {
        var ctx := new Ctx();
        match observer {
          case Greeting(g) =>
            if bound == HelloTag {
              g.HandleHello(ctx, view.value);
            } else {
              g.HandleGoodbye(ctx, view.value);
            }
          case LastLogin(r) =>
            r.HandleUserLoggedIn(ctx, view.value);
        }
        sendMsgs.Extend(ctx.msgs);
      }
    }
  }
}
