/**
 * `MessageSystem`: the append-only list of registrations and the
 * breadth-first `send` loop, proved to compute what `Cascade.Run` specifies.
 */
module Dispatcher {
  import opened Messages
  import opened Context
  import opened Observers
  import opened Erasure
  import opened Cascade

  /** The counters of the observers in `gs`, read from the heap. */
  ghost function Snapshot(gs: set<GreetingObserver>): (counts: Counts)
    reads gs
  {
    map g | g in gs :: g.greetCount
  }

  /** The observers in `gs` hold exactly the counters `counts`. */
  ghost predicate Holds(gs: set<GreetingObserver>, counts: Counts)
    reads gs
  {
    counts.Keys == gs && forall g :: g in gs ==> g.greetCount == counts[g]
  }

  lemma SnapshotHolds(gs: set<GreetingObserver>)
    ensures Holds(gs, Snapshot(gs))
  {
  }

  lemma HoldsSnapshot(gs: set<GreetingObserver>, counts: Counts)
    requires Holds(gs, counts)
    ensures Snapshot(gs) == counts
  {
  }

  /** A run that continues after the dequeues already done in `done`. */
  function Resume(done: seq<Step>, r: Result): (resumed: Result) {
    Result(r.counts, r.pending, done + r.trace)
  }

  lemma ResumeResume(t: seq<Step>, u: seq<Step>, r: Result)
    ensures Resume(t, Resume(u, r)) == Resume(t + u, r)
  {
    AppendAssoc(t, u, r.trace);
  }

  /** Handling the front item moves one step from the rest of the run into `done`. */
  lemma ResumeStep(goal: Result, done: seq<Step>, regs: seq<Wrapper>, counts: Counts, queue: seq<Item>,
                   fuel: nat, left: nat, d: Delivery, next: seq<Item>)
    requires Registered(regs, counts) && fuel == left + 1 && queue != []
    requires goal == Resume(done, Run(regs, counts, queue, fuel))
    requires d == Offer(regs, counts, queue[0].msg)
    requires next == queue[1..] + Enqueued(d.emitted, queue[0].level + 1)
    ensures Registered(regs, d.counts)
    ensures goal == Resume(done + [Step(queue[0], d.fired, d.emitted)], Run(regs, d.counts, next, left))
  {
    RunStep(regs, counts, queue, fuel);
    ResumeResume(done, [Step(queue[0], d.fired, d.emitted)], Run(regs, d.counts, next, left));
  }

  /**
   * The body of the `while let` loop of `send`: offer one dequeued message
   * to every registration in registration order, each adapter's emissions
   * reaching the tail of `msgs` before the next adapter runs.  `counts` is
   * the observers' state on entry.
   */
  method OfferToAll(regs: seq<Wrapper>, msgs: MsgQueue, m: Msg, ghost counts: Counts) returns (ghost d: Delivery)
    requires WellTyped(regs) && Holds(Greeters(regs), counts)
    modifies msgs, Greeters(regs)
    ensures Registered(regs, counts)
    ensures d == Offer(regs, counts, m)
    ensures msgs.items == old(msgs.items) + d.emitted
    ensures Holds(Greeters(regs), d.counts)
  {
    ghost var gs := Greeters(regs);
    ghost var queued := msgs.items;
    for i := 0 to |regs|
      invariant msgs.items == queued + OfferUpTo(regs, i, counts, m).emitted
      invariant Holds(gs, OfferUpTo(regs, i, counts, m).counts)
    {
      ghost var pre := OfferUpTo(regs, i, counts, m);
      var w := regs[i];
      if w.observer.Greeting? {
        assert w.observer.greeter in gs;
      }
      var ran := w.HandleAny(msgs, m);
      AppendAssoc(queued, pre.emitted, if ran then Emits(w.observer, m) else []);
    }
    d := Offer(regs, counts, m);
  }

  /**
   * The `while let Some(msg) = msgs.pop_front()` loop of `send`, allowed at
   * most `fuel` dequeues: `msgs` holds the messages of `queue` and the
   * observers hold `counts`; afterwards the observers hold the counters of
   * `Run`, `msgs` holds its pending messages, and `r` is that run.
   */
  method Drain(regs: seq<Wrapper>, msgs: MsgQueue, fuel: nat, ghost counts: Counts, ghost queue: seq<Item>)
    returns (ghost r: Result)
    requires WellTyped(regs) && Holds(Greeters(regs), counts)
    requires msgs.items == Msgs(queue)
    modifies msgs, Greeters(regs)
    ensures Registered(regs, counts)
    ensures r == Run(regs, counts, queue, fuel)
    ensures msgs.items == Msgs(r.pending) && Holds(Greeters(regs), r.counts)
  {
    ghost var gs := Greeters(regs);
    ghost var cur := counts;
    ghost var items := queue;
    ghost var trace := [];
    var remaining := fuel;
    while remaining > 0
      invariant msgs.items == Msgs(items)
      invariant Holds(gs, cur) && Registered(regs, cur)
      invariant Run(regs, counts, queue, fuel) == Resume(trace, Run(regs, cur, items, remaining))
    {
      var next := msgs.PopFront();
      if next.None? {
        break;
      }
      var m := next.value;
      ghost var head := items[0];
      assert msgs.items == Msgs(items[1..]);
      assert head.msg == m;
      ghost var d := OfferToAll(regs, msgs, m, cur);
      ghost var rest := items[1..] + Enqueued(d.emitted, head.level + 1);
      MsgsEnqueued(items[1..], d.emitted, head.level + 1);
      ghost var before := remaining;
      remaining := remaining - 1;
      ResumeStep(Run(regs, counts, queue, fuel), trace, regs, cur, items, before, remaining, d, rest);
      trace := trace + [Step(head, d.fired, d.emitted)];
      items := rest;
      cur := d.counts;
    }
    r := Run(regs, counts, queue, fuel);
  }

  class MessageSystem {
    var observers: seq<Wrapper>

    ghost predicate Valid()
      reads this
    {
      forall i :: 0 <= i < |observers| ==> observers[i].Valid()
    }

    /** The state of every registered observer, as the specification sees it. */
    ghost function State(): (counts: Counts)
      reads this, Greeters(observers)
    {
      Snapshot(Greeters(observers))
    }

    /** `MessageSystem::default()`: no registrations. */
    constructor ()
      ensures Valid() && observers == []
    {
      observers := [];
    }

    /**
     * `add_observer::<T, M>`: append one registration binding `observer` to
     * type `bound`; the earlier registrations and their order are kept.  The
     * requires is the trait bound `T: Observer<M>`.
     */
    method AddObserver(observer: Handle, bound: Tag)
      requires Valid() && Implements(observer, bound)
      modifies this
      ensures Valid()
      ensures observers == old(observers) + [Wrapper(observer, bound)]
    {
      observers := observers + [Wrapper(observer, bound)];
    }

    /** The observers' state always covers every registration. */
    lemma StateRegistered()
      requires Valid()
      ensures Registered(observers, State())
    {
    }

    /**
     * `send`: publish `msg` and drain the cascade, dequeuing at most `fuel`
     * messages.  The final observer state, the messages still pending (empty
     * once the cascade has completed) and the trace of dequeues are those of
     * `Run` from the current state; the registrations are not changed.
     */
    method Send(msg: Msg, fuel: nat) returns (pending: seq<Msg>, ghost trace: seq<Step>)
      requires Valid()
      modifies Greeters(observers)
      ensures Registered(observers, old(State()))
      ensures var r := Run(observers, old(State()), [Item(msg, 0)], fuel);
        State() == r.counts && pending == Msgs(r.pending) && trace == r.trace
    {
      StateRegistered();
      var regs := observers;
      ghost var gs := Greeters(regs);
      ghost var cur := State();
      SnapshotHolds(gs);
      var msgs := new MsgQueue();
      msgs.PushBack(msg);
      ghost var r := Drain(regs, msgs, fuel, cur, [Item(msg, 0)]);
      pending := msgs.items;
      trace := r.trace;
      HoldsSnapshot(gs, r.counts);
    }
  }
}
