/**
 * The crate's own scenario: one greeting observer, shared by a registration
 * for `SayHello` and one for `SayGoodbye`, receives "hello", emits the
 * farewell, and receives the farewell, so that its count rises by two and
 * the queue drains.  Also the effect of registering one observer several
 * times for the same type.
 */
module Scenario {
  import opened Messages
  import opened Observers
  import opened Erasure
  import opened Cascade
  import opened Dispatcher

  /** The registrations of the test: `g` for `SayHello`, then `g` again for `SayGoodbye`. */
  function GreetingRegistrations(g: GreetingObserver): (regs: seq<Wrapper>)
    ensures WellTyped(regs) && Greeters(regs) == {g}
  {
    var regs := [Wrapper(Greeting(g), HelloTag), Wrapper(Greeting(g), GoodbyeTag)];
    assert regs[0].observer.greeter in Greeters(regs);
    regs
  }

  /**
   * Publishing a greeting: the hello runs only the first registration and
   * emits the farewell at level 1; the farewell runs only the second one and
   * emits nothing.  Two dequeues, two increments of the one shared counter,
   * nothing left pending.
   */
  lemma GreetingCascade(g: GreetingObserver, c: u32, who: string, fuel: nat)
    requires 2 <= fuel
    ensures Registered(GreetingRegistrations(g), map[g := c])
    ensures Run(GreetingRegistrations(g), map[g := c], [Item(SayHello(who), 0)], fuel)
      == Result(map[g := WrappingInc(WrappingInc(c))], [],
                [Step(Item(SayHello(who), 0), [0], [Farewell]), Step(Item(Farewell, 1), [1], [])])
  {
    var regs := GreetingRegistrations(g);
    var hello := SayHello(who);
    var c0 := map[g := c];
    var c1 := map[g := WrappingInc(c)];
    var c2 := map[g := WrappingInc(WrappingInc(c))];
    assert OfferUpTo(regs, 1, c0, hello) == Delivery(c1, [Farewell], [0]);
    assert Offer(regs, c0, hello) == Delivery(c1, [Farewell], [0]);
    assert OfferUpTo(regs, 1, c1, Farewell) == Delivery(c1, [], []);
    assert Offer(regs, c1, Farewell) == Delivery(c2, [], [1]);
    var second := [Item(Farewell, 1)];
    assert [Item(hello, 0)][1..] + Enqueued([Farewell], 1) == second;
    assert second[1..] + Enqueued([], 2) == [];
    assert Run(regs, c2, [], fuel - 2) == Result(c2, [], []);
    assert Run(regs, c1, second, fuel - 1) == Result(c2, [], [Step(Item(Farewell, 1), [1], [])]);
  }

  /** `n` registrations of one greeting observer, all for `SayHello`. */
  function HelloRegistrations(g: GreetingObserver, n: nat): (regs: seq<Wrapper>)
    ensures |regs| == n && WellTyped(regs)
    ensures forall i :: 0 <= i < n ==> regs[i] == Wrapper(Greeting(g), HelloTag)
  {
    seq(n, _ => Wrapper(Greeting(g), HelloTag))
  }

  /** `c` advanced by `n` wrapping increments. */
  function Advanced(c: u32, n: nat): (r: u32)
    ensures r as int == (c as int + n) % 0x1_0000_0000
    decreases n
  {
    if n == 0 then c else WrappingInc(Advanced(c, n - 1))
  }

  /** Every registration in `HelloRegistrations(g, n)` refers to `g`. */
  lemma HelloGreeters(g: GreetingObserver, n: nat)
    ensures Greeters(HelloRegistrations(g, n)) <= {g}
  {
  }

  /**
   * Duplicate registrations are not merged: a greeting offered to `n`
   * registrations of the same observer runs it `n` times, once per
   * registration in order, and emits `n` farewells.
   */
  lemma {:induction false} DuplicateRegistrations(g: GreetingObserver, n: nat, k: nat, c: u32, who: string)
    requires k <= n
    ensures Registered(HelloRegistrations(g, n), map[g := c])
    ensures OfferUpTo(HelloRegistrations(g, n), k, map[g := c], SayHello(who))
      == Delivery(map[g := Advanced(c, k)], seq(k, _ => Farewell), seq(k, i => i))
    decreases k
  {
    HelloGreeters(g, n);
    if k > 0 {
      var regs := HelloRegistrations(g, n);
      DuplicateRegistrations(g, n, k - 1, c, who);
      var prev := map[g := Advanced(c, k - 1)];
      assert prev[g := Advanced(c, k)] == map[g := Advanced(c, k)];
      assert Invoke(regs[k - 1], prev, SayHello(who)) == Outcome(map[g := Advanced(c, k)], [Farewell]);
      assert seq(k - 1, _ => Farewell) + [Farewell] == seq(k, _ => Farewell);
      assert seq(k - 1, i => i) + [k - 1] == seq(k, i => i);
    }
  }

  /**
   * The crate's test `handles_multiple_message_types`: register one greeting
   * observer for both greeting types, publish "hello world", and read its
   * count.  The cascade takes two dequeues, so a budget of two suffices.
   */
  method HandlesMultipleMessageTypes() returns (count: u32, pending: seq<Msg>)
    ensures count == 2 && pending == []
  {
    var system := new MessageSystem();
    var observer := new GreetingObserver();
    system.AddObserver(Greeting(observer), HelloTag);
    system.AddObserver(Greeting(observer), GoodbyeTag);
    assert system.observers == GreetingRegistrations(observer);
    assert system.State() == map[observer := 0];
    GreetingCascade(observer, 0, "world", 2);
    ghost var trace;
    pending, trace := system.Send(SayHello("world"), 2);
    count := observer.greetCount;
  }
}
