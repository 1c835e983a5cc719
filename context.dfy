/**
 * The two message buffers of the dispatcher: `Ctx`, the per-invocation
 * output channel of an observer, and `MsgQueue`, the FIFO of pending
 * messages (a `VecDeque<AnyMsg>`) that one `send` call drains.
 */
module Context {
  import opened Messages

  /** Collects, in order, the messages one observer invocation emits. */
  class Ctx {
    var msgs: seq<Msg>

    /** `Ctx::default()`: a fresh, empty context. */
    constructor ()
      ensures msgs == []
    {
      msgs := [];
    }

    /** `Ctx::send`: append one message at the end; earlier ones stay put. */
    method Send(msg: Msg)
      modifies this
      ensures msgs == old(msgs) + [msg]
    {
      msgs := msgs + [msg];
    }
  }

  /** The pending queue of one `send` call. */
  class MsgQueue {
    var items: seq<Msg>

    constructor ()
      ensures items == []
    {
      items := [];
    }

    /** `VecDeque::push_back`. */
    method PushBack(msg: Msg)
      modifies this
      ensures items == old(items) + [msg]
    {
      items := items + [msg];
    }

    /** `VecDeque::pop_front`: the front message, or `None` on an empty queue. */
    method PopFront() returns (front: Option<Msg>)
      modifies this
      ensures old(items) == [] ==> front == None && items == []
      ensures old(items) != [] ==> front == Some(old(items)[0]) && items == old(items)[1..]
    {
      if items == [] {
        front := None;
      } else {
        front := Some(items[0]);
        items := items[1..];
      }
    }

    /** `VecDeque::extend`: append `msgs` at the tail, in their order. */
    method Extend(msgs: seq<Msg>)
      modifies this
      ensures items == old(items) + msgs
    {
      items := items + msgs;
    }
  }
}
