/**
 * A pure specification of the dispatcher's cascade.  The state that handlers
 * change is the greeting counters, a map from each registered greeting
 * observer to its count; several registrations that share one observer
 * share its entry.  Every queued message carries a level (0 for the
 * published message, k + 1 for a message emitted while handling a level-k
 * message); levels exist only in this specification and are what the
 * breadth-first lemmas speak about.
 */
module Cascade {
  import opened Messages
  import opened Observers
  import opened Erasure

  type Counts = map<GreetingObserver, u32>

  /** The greeting observers that a list of registrations refers to. */
  function Greeters(regs: seq<Wrapper>): (gs: set<GreetingObserver>) {
    set i | 0 <= i < |regs| && regs[i].observer.Greeting? :: regs[i].observer.greeter
  }

  /** Every registration binds its observer to a type the observer implements. */
  predicate WellTyped(regs: seq<Wrapper>) {
    forall i :: 0 <= i < |regs| ==> regs[i].Valid()
  }

  /** The registrations are well typed and the state of each of their observers is in `counts`. */
  predicate Registered(regs: seq<Wrapper>, counts: Counts) {
    WellTyped(regs) && Greeters(regs) <= counts.Keys
  }

  datatype Outcome = Outcome(counts: Counts, emitted: seq<Msg>)

  /** One invocation of the observer behind `w` on a message of its bound type. */
  function Invoke(w: Wrapper, counts: Counts, m: Msg): (o: Outcome)
    requires w.Valid() && TagOf(m) == w.bound
    requires w.observer.Greeting? ==> w.observer.greeter in counts
    ensures o.counts.Keys == counts.Keys
    ensures forall h :: h in counts && !(w.observer.Greeting? && h == w.observer.greeter) ==> o.counts[h] == counts[h]
    ensures w.observer.Greeting? ==> o.counts[w.observer.greeter] == WrappingInc(counts[w.observer.greeter])
    ensures o.emitted == Emits(w.observer, m)
  {
    match w.observer
    case Greeting(g) => Outcome(counts[g := WrappingInc(counts[g])], Emits(w.observer, m))
    case LastLogin(_) => Outcome(counts, Emits(w.observer, m))
  }

  /**
   * The effect of offering one message to registrations: the new counters,
   * everything emitted (registration order, then emission order) and the
   * indices of the registrations whose observer ran.
   */
  datatype Delivery = Delivery(counts: Counts, emitted: seq<Msg>, fired: seq<nat>)

  /** Offer `m` to the first `n` registrations, one after the other. */
  function OfferUpTo(regs: seq<Wrapper>, n: nat, counts: Counts, m: Msg): (d: Delivery)
    requires n <= |regs| && Registered(regs, counts)
    ensures d.counts.Keys == counts.Keys
    decreases n
  {
    if n == 0 then Delivery(counts, [], [])
    else
      var d := OfferUpTo(regs, n - 1, counts, m);
      var w := regs[n - 1];
      if TagOf(m) == w.bound then
        assert w.observer.Greeting? ==> w.observer.greeter in Greeters(regs);
        var o := Invoke(w, d.counts, m);
        Delivery(o.counts, d.emitted + o.emitted, d.fired + [n - 1])
      else
        d
  }

  /** One pass of the inner `for` loop of `send`: offer `m` to every registration. */
  function Offer(regs: seq<Wrapper>, counts: Counts, m: Msg): (d: Delivery)
    requires Registered(regs, counts)
    ensures d.counts.Keys == counts.Keys
  {
    OfferUpTo(regs, |regs|, counts, m)
  }

  datatype Item = Item(msg: Msg, level: nat)

  /** The handling of one dequeued item. */
  datatype Step = Step(item: Item, fired: seq<nat>, emitted: seq<Msg>)

  /** Final counters, what is still pending, and every dequeue in order. */
  datatype Result = Result(counts: Counts, pending: seq<Item>, trace: seq<Step>)

  /** Messages emitted while handling a level-k item enter the queue at level k + 1. */
  function Enqueued(ms: seq<Msg>, level: nat): (q: seq<Item>)
    ensures |q| == |ms|
    ensures forall i {:trigger q[i]} :: 0 <= i < |q| ==> q[i] == Item(ms[i], level)
  {
    if ms == [] then [] else [Item(ms[0], level)] + Enqueued(ms[1..], level)
  }

  /** The messages of a queue of items, with their levels dropped. */
  function Msgs(q: seq<Item>): (ms: seq<Msg>)
    ensures |ms| == |q|
    ensures forall i {:trigger ms[i]} :: 0 <= i < |q| ==> ms[i] == q[i].msg
  {
    if q == [] then [] else [q[0].msg] + Msgs(q[1..])
  }

  /**
   * The `while let Some(msg) = msgs.pop_front()` loop of `send`, allowed to
   * dequeue at most `fuel` messages: it stops when the queue is empty or the
   * fuel is spent, whichever comes first.
   */
  function Run(regs: seq<Wrapper>, counts: Counts, queue: seq<Item>, fuel: nat): (r: Result)
    requires Registered(regs, counts)
    ensures r.counts.Keys == counts.Keys
    ensures |r.trace| <= fuel
    ensures r.pending == [] || |r.trace| == fuel
    decreases fuel
  {
    if fuel == 0 || queue == [] then
      Result(counts, queue, [])
    else
      var d := Offer(regs, counts, queue[0].msg);
      var rest := Run(regs, d.counts, queue[1..] + Enqueued(d.emitted, queue[0].level + 1), fuel - 1);
      Result(rest.counts, rest.pending, [Step(queue[0], d.fired, d.emitted)] + rest.trace)
  }

  /** One turn of the loop: handle the front item, then go on from the queue it leaves. */
  lemma RunStep(regs: seq<Wrapper>, counts: Counts, queue: seq<Item>, fuel: nat)
    requires Registered(regs, counts) && 0 < fuel && queue != []
    ensures var d := Offer(regs, counts, queue[0].msg);
      var next := Run(regs, d.counts, queue[1..] + Enqueued(d.emitted, queue[0].level + 1), fuel - 1);
      Run(regs, counts, queue, fuel)
        == Result(next.counts, next.pending, [Step(queue[0], d.fired, d.emitted)] + next.trace)
  {
  }

  /** Appending emissions at any level appends exactly those messages. */
  lemma {:induction false} MsgsEnqueued(q: seq<Item>, ms: seq<Msg>, level: nat)
    ensures Msgs(q + Enqueued(ms, level)) == Msgs(q) + ms
  {
    var e := Enqueued(ms, level);
    var lhs, rhs := Msgs(q + e), Msgs(q) + ms;
    forall i | 0 <= i < |lhs| ensures lhs[i] == rhs[i] {
      if i < |q| {
        assert (q + e)[i] == q[i];
      } else {
        assert (q + e)[i] == e[i - |q|];
      }
    }
  }

  /** The items dequeued along a trace, in order. */
  function Dequeued(trace: seq<Step>): (q: seq<Item>) {
    if trace == [] then [] else [trace[0].item] + Dequeued(trace[1..])
  }

  /** The items enqueued along a trace, in order. */
  function Caused(trace: seq<Step>): (q: seq<Item>) {
    if trace == [] then []
    else Enqueued(trace[0].emitted, trace[0].item.level + 1) + Caused(trace[1..])
  }

  /** Levels ascend along the queue and stay within `lo` and `lo + 1`. */
  predicate Banded(q: seq<Item>, lo: nat) {
    && (forall i, j :: 0 <= i < j < |q| ==> q[i].level <= q[j].level)
    && (forall i :: 0 <= i < |q| ==> lo <= q[i].level <= lo + 1)
  }

  /** Every item handled along `t` has level `lo` or more. */
  predicate LevelsFrom(t: seq<Step>, lo: nat) {
    forall i :: 0 <= i < |t| ==> lo <= t[i].item.level
  }

  /** The levels of the items handled along `t` never decrease. */
  predicate LevelsAscend(t: seq<Step>) {
    forall i, j :: 0 <= i < j < |t| ==> t[i].item.level <= t[j].item.level
  }

  /**
   * Offering `m` runs the observer of exactly the registrations bound to the
   * type of `m`, each once, in registration order.
   */
  lemma {:induction false} OfferFiresMatching(regs: seq<Wrapper>, n: nat, counts: Counts, m: Msg)
    requires n <= |regs| && Registered(regs, counts)
    ensures var f := OfferUpTo(regs, n, counts, m).fired;
      && (forall k :: 0 <= k < |f| ==> f[k] < n && regs[f[k]].bound == TagOf(m))
      && (forall i :: 0 <= i < n && regs[i].bound == TagOf(m) ==> i in f)
      && (forall j, k :: 0 <= j < k < |f| ==> f[j] < f[k])
    decreases n
  {
    if n > 0 {
      OfferFiresMatching(regs, n - 1, counts, m);
    }
  }

  /** A message whose type no registration is bound to changes nothing and emits nothing. */
  lemma {:induction false} OfferUnmatched(regs: seq<Wrapper>, n: nat, counts: Counts, m: Msg)
    requires n <= |regs| && Registered(regs, counts)
    requires forall i :: 0 <= i < |regs| ==> regs[i].bound != TagOf(m)
    ensures OfferUpTo(regs, n, counts, m) == Delivery(counts, [], [])
    decreases n
  {
    if n > 0 {
      OfferUnmatched(regs, n - 1, counts, m);
    }
  }

  lemma AppendAssoc<T>(a: seq<T>, b: seq<T>, c: seq<T>)
    ensures (a + b) + c == a + (b + c)
  {
  }

  /** What one more step at the front of a trace dequeues and causes. */
  lemma TraceCons(s: Step, t: seq<Step>)
    ensures Dequeued([s] + t) == [s.item] + Dequeued(t)
    ensures Caused([s] + t) == Enqueued(s.emitted, s.item.level + 1) + Caused(t)
  {
    assert ([s] + t)[1..] == t;
  }

  /** The sequence algebra of one FIFO step: prepend the dequeued item on both sides. */
  lemma FifoStep<T>(x: T, xs: seq<T>, e: seq<T>, dq: seq<T>, c: seq<T>, p: seq<T>)
    requires dq + p == (xs + e) + c
    ensures ([x] + dq) + p == ([x] + xs) + (e + c)
  {
    AppendAssoc(xs, e, c);
    AppendAssoc([x], dq, p);
    AppendAssoc([x], xs, e + c);
  }

  /**
   * The queue is strictly FIFO: the items dequeued, followed by those still
   * pending, are the initial queue followed by everything the handled items
   * caused, in the order they were caused.
   */
  lemma {:induction false} RunFifo(regs: seq<Wrapper>, counts: Counts, queue: seq<Item>, fuel: nat)
    requires Registered(regs, counts)
    ensures var r := Run(regs, counts, queue, fuel);
      Dequeued(r.trace) + r.pending == queue + Caused(r.trace)
    decreases fuel
  {
    if fuel > 0 && queue != [] {
      var d := Offer(regs, counts, queue[0].msg);
      var next := queue[1..] + Enqueued(d.emitted, queue[0].level + 1);
      RunFifo(regs, d.counts, next, fuel - 1);
      RunStep(regs, counts, queue, fuel);
      var rest := Run(regs, d.counts, next, fuel - 1);
      var s := Step(queue[0], d.fired, d.emitted);
      TraceCons(s, rest.trace);
      FifoStep(queue[0], queue[1..], Enqueued(d.emitted, queue[0].level + 1),
               Dequeued(rest.trace), Caused(rest.trace), rest.pending);
      assert queue == [queue[0]] + queue[1..];
    }
  }

  /**
   * Breadth-first order: from a banded queue, the levels of the handled items
   * never decrease, so every level-k message is handled before any message
   * that a level-k message caused.
   */
  lemma {:induction false} RunLevelOrder(regs: seq<Wrapper>, counts: Counts, queue: seq<Item>, fuel: nat, lo: nat)
    requires Registered(regs, counts) && Banded(queue, lo)
    ensures var t := Run(regs, counts, queue, fuel).trace;
      LevelsFrom(t, lo) && LevelsAscend(t)
    decreases fuel
  {
    if fuel > 0 && queue != [] {
      var head := queue[0];
      var d := Offer(regs, counts, head.msg);
      var next := queue[1..] + Enqueued(d.emitted, head.level + 1);
      assert Banded(next, head.level) by {
        forall i | 0 <= i < |next| ensures head.level <= next[i].level <= head.level + 1 {
          if i < |queue| - 1 {
            assert next[i] == queue[i + 1];
          }
        }
        forall i, j | 0 <= i < j < |next| ensures next[i].level <= next[j].level {
          if j < |queue| - 1 {
            assert next[i] == queue[i + 1] && next[j] == queue[j + 1];
          } else if i < |queue| - 1 {
            assert next[i] == queue[i + 1];
          }
        }
      }
      RunLevelOrder(regs, d.counts, next, fuel - 1, head.level);
      var rest := Run(regs, d.counts, next, fuel - 1);
      var t := Run(regs, counts, queue, fuel).trace;
      assert t == [Step(head, d.fired, d.emitted)] + rest.trace;
      assert t[0].item == head;
      forall i | 0 < i < |t| ensures head.level <= t[i].item.level {
        assert t[i] == rest.trace[i - 1];
      }
      forall i, j | 0 <= i < j < |t| ensures t[i].item.level <= t[j].item.level {
        assert t[j] == rest.trace[j - 1];
        if i > 0 {
          assert t[i] == rest.trace[i - 1];
        }
      }
    }
  }

  /**
   * Fuel is only a bound on the loop: once the queue has drained, more fuel
   * changes nothing.
   */
  lemma {:induction false} RunSettled(regs: seq<Wrapper>, counts: Counts, queue: seq<Item>, fuel: nat, more: nat)
    requires Registered(regs, counts)
    requires Run(regs, counts, queue, fuel).pending == []
    requires fuel <= more
    ensures Run(regs, counts, queue, more) == Run(regs, counts, queue, fuel)
    decreases fuel
  {
    if fuel > 0 && queue != [] {
      var d := Offer(regs, counts, queue[0].msg);
      RunSettled(regs, d.counts, queue[1..] + Enqueued(d.emitted, queue[0].level + 1), fuel - 1, more - 1);
    }
  }

  /**
   * Publishing a message whose type nothing is registered for invokes no
   * observer, changes no state, and the loop ends after one dequeue.
   */
  lemma RunUnobserved(regs: seq<Wrapper>, counts: Counts, m: Msg, fuel: nat)
    requires Registered(regs, counts)
    requires forall i :: 0 <= i < |regs| ==> regs[i].bound != TagOf(m)
    requires 1 <= fuel
    ensures Run(regs, counts, [Item(m, 0)], fuel) == Result(counts, [], [Step(Item(m, 0), [], [])])
  {
    OfferUnmatched(regs, |regs|, counts, m);
  }
}
