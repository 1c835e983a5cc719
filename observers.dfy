/**
 * The concrete observers of the crate.  Each `impl Observer<M> for T` becomes
 * one handler method of the class `T`; the message it receives is the whole
 * `Msg`, required to be of the handler's type.
 */
module Observers {
  import opened Messages
  import opened Context

  /** `greet_count += 1` on a `u32`, with release-build wrap-around. */
  function WrappingInc(c: u32): (r: u32)
    ensures r as int == (c as int + 1) % 0x1_0000_0000
  {
    if c == U32Max then 0 else c + 1
  }

  /** The reply the greeting observer emits on every `SayHello`. */
  const Farewell: Msg := SayGoodbye("blog")

  /** Counts the greetings it has seen, across both message types it observes. */
  class GreetingObserver {
    var greetCount: u32

    /** `GreetingObserver::default()`. */
    constructor ()
      ensures greetCount == 0
    {
      greetCount := 0;
    }

    /** `Observer<SayHello>::handle`: count the greeting and answer with `Farewell`. */
    method HandleHello(ctx: Ctx, hello: Msg)
      requires hello.SayHello?
      modifies this, ctx
      ensures greetCount == WrappingInc(old(greetCount))
      ensures ctx.msgs == old(ctx.msgs) + [Farewell]
    {
      greetCount := WrappingInc(greetCount);
      ctx.Send(Farewell);
    }

    /** `Observer<SayGoodbye>::handle`: count the greeting; the context is left alone. */
    method HandleGoodbye(ctx: Ctx, goodbye: Msg)
      requires goodbye.SayGoodbye?
      modifies this
      ensures greetCount == WrappingInc(old(greetCount))
    {
      greetCount := WrappingInc(greetCount);
    }
  }

  /** Stand-in for a database update; it has no state and emits nothing. */
  class UpdateLastLoginTime {
    constructor ()
    {
    }

    /** `Observer<UserLoggedIn>::handle`: a no-op (it modifies nothing). */
    method HandleUserLoggedIn(ctx: Ctx, msg: Msg)
      requires msg.UserLoggedIn?
    {
    }
  }
}
