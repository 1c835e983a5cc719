/**
 * The message types of the crate and the runtime type identity that the
 * dispatcher uses to route them.  In the original every message is boxed as
 * `Box<dyn Any>` and recovered with `downcast_ref::<M>()`; here the set of
 * message types is closed, each message carries an explicit `Tag`, and the
 * downcast is a checked comparison of tags.
 */
module Messages {

  /** Rust's `u32`: the type of a user id and of the greeting counter. */
  newtype u32 = x: int | 0 <= x < 0x1_0000_0000

  const U32Max: u32 := 0xFFFF_FFFF

  type UserId = u32

  datatype Option<T> = None | Some(value: T)

  /** One value of each message struct of the crate. */
  datatype Msg =
    | SayHello(who: string)
    | SayGoodbye(who: string)
    | UserLoggedIn(user: UserId)

  /** The runtime type of a message, as `TypeId` distinguishes the structs. */
  datatype Tag = HelloTag | GoodbyeTag | LoginTag

  function TagOf(m: Msg): (t: Tag)
    ensures t == HelloTag <==> m.SayHello?
    ensures t == GoodbyeTag <==> m.SayGoodbye?
    ensures t == LoginTag <==> m.UserLoggedIn?
  {
    match m
    case SayHello(_) => HelloTag
    case SayGoodbye(_) => GoodbyeTag
    case UserLoggedIn(_) => LoginTag
  }

  /**
   * `downcast_ref::<M>()` on an erased message: the message itself when its
   * runtime type is `bound`, a miss otherwise (never an error).
   */
  function ViewAs(m: Msg, bound: Tag): (r: Option<Msg>)
    ensures r.Some? <==> TagOf(m) == bound
    ensures r.Some? ==> r.value == m
  {
    if TagOf(m) == bound then Some(m) else None
  }
}
