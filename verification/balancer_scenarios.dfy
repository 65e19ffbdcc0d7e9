/**
 * Call sequences over balancers and the shared registry, following the
 * situations the repository's own tests exercise, with what the model
 * proves about their outcome.
 */
module BalancerScenarios {
  import opened JavaInt
  import opened Selection
  import opened JavaString
  import opened Strategies
  import CyclicSelection
  import opened Balancer

  /**
   * Four selections over three servers on any balancer whose strategy is
   * one of the two round-robin ones: the fourth equals the first, whatever
   * earlier callers did to the shared counter, as long as it has not
   * reached the point where it wraps.
   */
  method FourthSelectionRepeatsFirst(b: LoadBalancer, servers: seq<string>)
    returns (r1: Outcome, r4: Outcome)
    requires |servers| == 3
    requires !b.strategy.RandomStrategy?
    requires 0 <= b.strategy.Cursor() as int <= MAX_VALUE - 3
    modifies b.strategy.Repr()
    ensures r1 == r4
    ensures r1.Server? && r1.address in servers
  {
    ghost var c := b.strategy.Cursor();
    r1 := b.SelectServer(Some(servers), "test content");
    assert b.strategy.Cursor() as int == c as int + 1;
    var r2 := b.SelectServer(Some(servers), "test content");
    assert b.strategy.Cursor() as int == c as int + 2;
    var r3 := b.SelectServer(Some(servers), "test content");
    assert b.strategy.Cursor() as int == c as int + 3;
    r4 := b.SelectServer(Some(servers), "test content");
    CyclicSelection.ShiftByPeriod(c as int, 3);
  }

  /**
   * `k` successive selections with the same non-empty list on a round-robin
   * balancer return exactly `Run` from the counter they started at, and leave
   * the counter advanced `k` times; `RunInOrder`, `RunCycles` and
   * `CounterFaultsAfterWrap` therefore describe such a sequence of calls.
   */
  method RepeatedSelections(b: LoadBalancer, servers: seq<string>, requestContent: string, k: nat)
    returns (results: seq<Outcome>)
    requires |servers| > 0 && !b.strategy.RandomStrategy?
    modifies b.strategy.Repr()
    ensures results == CyclicSelection.Run(old(b.strategy.Cursor()), servers, k)
    ensures b.strategy.Cursor() == CyclicSelection.After(old(b.strategy.Cursor()), k)
  {
    ghost var c := b.strategy.Cursor();
    results := [];
    for i := 0 to k
      invariant results == CyclicSelection.Run(c, servers, i)
      invariant b.strategy.Cursor() == CyclicSelection.After(c, i)
    {
      var r := b.SelectServer(Some(servers), requestContent);
      CyclicSelection.RunExtend(c, servers, i);
      CyclicSelection.AfterExtend(c, i);
      results := results + [r];
    }
  }

  /**
   * With a single server every balancer returns that server on every call,
   * for every strategy and every counter value, wrapped or not.
   */
  method SingleServerAlwaysChosen(b: LoadBalancer, server: string) returns (r1: Outcome, r2: Outcome)
    modifies b.strategy.Repr()
    ensures r1 == Server(server) && r2 == Server(server)
  {
    r1 := b.SelectServer(Some([server]), "test content");
    if b.strategy.RandomStrategy? {
      Random.SingleServerAlwaysChosen(server, r1);
    }
    r2 := b.SelectServer(Some([server]), "test content");
    if b.strategy.RandomStrategy? {
      Random.SingleServerAlwaysChosen(server, r2);
    }
  }

  /**
   * A null list and an empty address string both yield null on every
   * balancer, and no strategy counter moves.
   */
  method NullAndBlankInputs(b: LoadBalancer) returns (r1: Outcome, r2: Outcome)
    modifies b.strategy.Repr()
    ensures r1 == NoServer && r2 == NoServer
    ensures unchanged(b.strategy.Repr())
  {
    r1 := b.SelectServer(None, "test content");
    r2 := b.SelectServerFromAddresses(Some(""), "test content");
  }

  /**
   * On a fresh registry, a balancer for "roundRobin" and one for an unknown
   * name share one counter: the second balancer's first call continues where
   * the first balancer left off. Each still reports the name it was given,
   * while the strategy behind the second reports "RoundRobin".
   */
  method UnknownNameSharesRoundRobinCounter()
    returns (r1: Outcome, r2: Outcome, n1: string, n2: string, resolved: string)
    ensures r1 == Server("server1") && r2 == Server("server2")
    ensures n1 == "roundRobin" && n2 == "invalidStrategy"
    ensures resolved == "RoundRobin"
  {
    var registry := new StrategyRegistry();
    var b1 := new LoadBalancer(registry, "roundRobin");
    var b2 := new LoadBalancer(registry, "invalidStrategy");
    assert b2.strategy == b1.strategy;
    r1 := b1.SelectServer(Some(["server1", "server2"]), "test content");
    r2 := b2.SelectServer(Some(["server1", "server2"]), "test content");
    n1, n2 := b1.GetStrategyName(), b2.GetStrategyName();
    resolved := b2.strategy.GetStrategyName();
  }

  /**
   * On a fresh registry, addresses such as "server1,server2,server3" (no
   * piece empty, blank-padded or holding a comma) are parsed back into the
   * list they were joined from, and the round-robin balancer picks the
   * first of them.
   */
  method CommaSeparatedAddresses(servers: seq<string>) returns (r: Outcome)
    requires |servers| >= 1 && servers[0] != "" && servers[|servers| - 1] != ""
    requires forall i :: 0 <= i < |servers| ==> ',' !in servers[i] && Trim(servers[i]) == servers[i]
    ensures r == Server(servers[0])
  {
    var registry := new StrategyRegistry();
    var b := new LoadBalancer(registry, "roundRobin");
    var addresses := Join(servers);
    ParseJoin(servers);
    assert Trim(addresses) != [] by {
      assert addresses[0] == servers[0][0];
    }
    r := b.SelectServerFromAddresses(Some(addresses), "test content");
  }

  /**
   * Registering a strategy under a name already in use: balancers built
   * earlier keep the object they cached, balancers built afterwards get the
   * new one, and switching an old balancer with `setStrategy` picks it up.
   */
  method RegisterAfterConstruction(custom: Strategy) returns (kept: bool, taken: bool, switched: bool)
    ensures kept && taken && switched
  {
    var registry := new StrategyRegistry();
    var old1 := new LoadBalancer(registry, "random");
    var original := old1.strategy;
    LoadBalancer.RegisterStrategy(registry, "random", custom);
    var new1 := new LoadBalancer(registry, "random");
    kept := old1.strategy == original;
    taken := new1.strategy == custom;
    old1.SetStrategy("random");
    switched := old1.strategy == custom;
  }
}
