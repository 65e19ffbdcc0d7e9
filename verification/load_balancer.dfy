/**
 * `LoadBalancer`: a process-wide registry from strategy name to strategy
 * object, and balancers that each cache the strategy their name resolves to
 * and delegate every selection to it.
 */
module Balancer {
  import opened JavaInt
  import opened Selection
  import opened JavaString
  import opened Strategies
  import RoundRobin
  import Random
  import WeightedRoundRobin

  /** The name an unknown name falls back to. */
  const DefaultStrategyName: string := "roundRobin"

  /**
   * `strategies.get(name)`, falling back to `strategies.get("roundRobin")`
   * when `name` is unbound: always one of the registered strategies.
   */
  function Resolve(strategies: map<string, Strategy>, name: string): (s: Strategy)
    requires DefaultStrategyName in strategies
    ensures s in strategies.Values
    ensures name in strategies ==> s == strategies[name]
  {
    if name in strategies then strategies[name] else strategies[DefaultStrategyName]
  }

  /** The static map `strategies` with its initialiser. */
  class StrategyRegistry {
    var strategies: map<string, Strategy>

    /** Bindings are only ever added or replaced, so the fallback stays bound. */
    ghost predicate Valid()
      reads this
    {
      DefaultStrategyName in strategies
    }

    /** The three built-in strategies, each a new object with its counter at zero. */
    constructor()
      ensures Valid()
      ensures strategies.Keys == {"roundRobin", "random", "weightedRoundRobin"}
      ensures strategies["roundRobin"].RoundRobinStrategy?
      ensures strategies["random"].RandomStrategy?
      ensures strategies["weightedRoundRobin"].WeightedRoundRobinStrategy?
      ensures fresh(strategies["roundRobin"].Repr() + strategies["random"].Repr()
                    + strategies["weightedRoundRobin"].Repr())
      ensures strategies["roundRobin"].Cursor() == 0
      ensures strategies["weightedRoundRobin"].Cursor() == 0
    {
      var rr := new RoundRobin.RoundRobinStrategy();
      var rnd := new Random.RandomStrategy();
      var wrr := new WeightedRoundRobin.WeightedRoundRobinStrategy();
      strategies := map[
        "roundRobin" := RoundRobinStrategy(rr),
        "random" := RandomStrategy(rnd),
        "weightedRoundRobin" := WeightedRoundRobinStrategy(wrr)];
    }
  }

  class LoadBalancer {
    /** The process-wide registry every balancer resolves names in. */
    const registry: StrategyRegistry
    var strategy: Strategy
    var strategyName: string

    /**
     * `LoadBalancer(strategyName)`: remembers the name as given and caches
     * the strategy it resolves to, the "roundRobin" one when it is unbound.
     */
    constructor(registry: StrategyRegistry, strategyName: string)
      requires registry.Valid()
      ensures this.registry == registry
      ensures this.strategyName == strategyName
      ensures strategy == Resolve(registry.strategies, strategyName)
    {
      this.registry := registry;
      this.strategyName := strategyName;
      this.strategy := Resolve(registry.strategies, strategyName);
    }

    /** `LoadBalancer()`: the same as `LoadBalancer("roundRobin")`. */
    constructor Default(registry: StrategyRegistry)
      requires registry.Valid()
      ensures this.registry == registry
      ensures strategyName == DefaultStrategyName
      ensures strategy == registry.strategies[DefaultStrategyName]
      ensures strategy == Resolve(registry.strategies, DefaultStrategyName)
    {
      this.registry := registry;
      this.strategyName := DefaultStrategyName;
      this.strategy := Resolve(registry.strategies, DefaultStrategyName);
    }

    /**
     * `getStrategyName`: the name last given to the constructor or to
     * `setStrategy`, kept as given even when it fell back to "roundRobin".
     */
    function GetStrategyName(): (name: string)
      reads this
      ensures name == strategyName
    {
      strategyName
    }

    /**
     * `selectServer(List, String)`: a null or empty list yields null without
     * consulting the strategy; otherwise whatever the cached strategy
     * returns for the same list, with its counter advanced accordingly.
     */
    method SelectServer(servers: Option<seq<string>>, requestContent: string) returns (r: Outcome)
      modifies strategy.Repr()
      ensures IsNullOrEmpty(servers) ==> r == NoServer && unchanged(strategy.Repr())
      ensures strategy.Permits(old(strategy.Cursor()), servers, r)
      ensures strategy.Cursor() == strategy.Advance(old(strategy.Cursor()), servers)
    {
      if IsNullOrEmpty(servers) {
        return NoServer;
      }
      r := strategy.SelectServer(servers, requestContent);
    }

    /**
     * The list the address string stands for: the pieces of
     * `split(",")`, each trimmed, in order.
     */
    static method ParseAddresses(serverAddresses: string) returns (servers: seq<string>)
      ensures servers == ParsedServers(serverAddresses)
    {
      var addresses := Split(serverAddresses);
      servers := [];
      for i := 0 to |addresses|
        invariant |servers| == i
        invariant forall k :: 0 <= k < i ==> servers[k] == Trim(addresses[k])
      {
        servers := servers + [Trim(addresses[i])];
      }
    }

    /**
     * `selectServer(String, String)`: a null or blank string yields null
     * without consulting the strategy; otherwise the list overload applied
     * to the parsed list.
     */
    method SelectServerFromAddresses(serverAddresses: Option<string>, requestContent: string)
      returns (r: Outcome)
      modifies strategy.Repr()
      ensures serverAddresses.None? || Trim(serverAddresses.value) == [] ==>
                r == NoServer && unchanged(strategy.Repr())
      ensures serverAddresses.Some? && Trim(serverAddresses.value) != [] ==>
                var servers := Some(ParsedServers(serverAddresses.value));
                && strategy.Permits(old(strategy.Cursor()), servers, r)
                && strategy.Cursor() == strategy.Advance(old(strategy.Cursor()), servers)
    {
      if serverAddresses.None? || Trim(serverAddresses.value) == [] {
        return NoServer;
      }
      ghost var before := strategy.Cursor();
      var servers := ParseAddresses(serverAddresses.value);
      assert strategy.Cursor() == before;
      r := SelectServer(Some(servers), requestContent);
      assert strategy.Permits(before, Some(servers), r);
    }

    /**
     * `setStrategy(name)`: remembers the name as given and re-resolves the
     * cached strategy in the current registry.
     */
    method SetStrategy(strategyName: string)
      requires registry.Valid()
      modifies this
      ensures this.strategyName == strategyName
      ensures strategy == Resolve(registry.strategies, strategyName)
    {
      this.strategyName := strategyName;
      this.strategy := Resolve(registry.strategies, strategyName);
    }

    /**
     * `registerStrategy(name, strategy)`: binds `name` to `strategy`,
     * replacing any earlier binding and leaving every other name alone.
     * Balancers keep the strategy they cached.
     */
    static method RegisterStrategy(registry: StrategyRegistry, name: string, strategy: Strategy)
      requires registry.Valid()
      modifies registry
      ensures registry.Valid()
      ensures registry.strategies == old(registry.strategies)[name := strategy]
    {
      registry.strategies := registry.strategies[name := strategy];
    }
  }

  /** The list the address string stands for: each piece of `split(",")`, trimmed. */
  function ParsedServers(serverAddresses: string): seq<string>
  {
    var addresses := Split(serverAddresses);
    seq(|addresses|, i requires 0 <= i < |addresses| => Trim(addresses[i]))
  }

  /**
   * Every parsed address is trimmed and comma-free; a string without a
   * comma gives exactly one address.
   */
  lemma ParsedServersShape(serverAddresses: string)
    ensures forall i :: 0 <= i < |ParsedServers(serverAddresses)| ==>
              var a := ParsedServers(serverAddresses)[i];
              ',' !in a && Trim(a) == a
    ensures ',' !in serverAddresses ==> ParsedServers(serverAddresses) == [Trim(serverAddresses)]
  {
    var addresses := Split(serverAddresses);
    forall i | 0 <= i < |addresses|
      ensures ',' !in Trim(addresses[i]) && Trim(Trim(addresses[i])) == Trim(addresses[i])
    {
      TrimIdempotent(addresses[i]);
      TrimKeepsNoComma(addresses[i]);
    }
  }

  lemma TrimKeepsNoComma(s: string)
    requires ',' !in s
    ensures ',' !in Trim(s)
  {
    var r := Trim(s);
    var i := LeadingBlanks(s);
    forall k | 0 <= k < |r| ensures r[k] != ',' {
      assert r[k] == s[i + k];
    }
  }

  /**
   * Joining trimmed, comma-free addresses with commas and parsing the
   * result gives the addresses back, provided the last one is not empty.
   */
  lemma ParseJoin(addresses: seq<string>)
    requires |addresses| >= 1 && addresses[|addresses| - 1] != ""
    requires forall i :: 0 <= i < |addresses| ==>
               ',' !in addresses[i] && Trim(addresses[i]) == addresses[i]
    ensures ParsedServers(Join(addresses)) == addresses
  {
    SplitJoin(addresses);
  }

  /** `split` keeps interior empty pieces: "a,,b" gives three candidates. */
  lemma InteriorEmptyPieceKept()
    ensures ParsedServers("a,,b") == ["a", "", "b"]
  {
    assert "a,,b" == Join(["a", "", "b"]);
    SplitJoin(["a", "", "b"]);
    TrimKeepsTrimmed("a");
    TrimKeepsTrimmed("b");
  }

  /** Trimming comes after `split`, so "a, " gives "a" and an empty candidate. */
  lemma BlankLastPieceKept()
    ensures ParsedServers("a, ") == ["a", ""]
  {
    assert "a, " == Join(["a", " "]);
    SplitJoin(["a", " "]);
    TrimKeepsTrimmed("a");
    assert Trim(" ") == "";
  }

  /** `split` drops trailing empty pieces, so "," gives no candidate at all. */
  lemma LoneCommaGivesNoServers()
    ensures ParsedServers(",") == []
  {
    assert "," == Join(["", ""]);
    PiecesJoin(["", ""]);
    assert ","[0] == ',';
  }

  /** An unbound name resolves to the same object as "roundRobin". */
  lemma UnknownNamesShareDefault(strategies: map<string, Strategy>, name: string)
    requires DefaultStrategyName in strategies && name !in strategies
    ensures Resolve(strategies, name) == Resolve(strategies, DefaultStrategyName)
    ensures Resolve(strategies, name) == strategies[DefaultStrategyName]
  {
  }

  /**
   * After binding `name` to `s`: `name` resolves to `s`, every other bound
   * name resolves as before, and unbound names follow "roundRobin", which
   * moves to `s` only when `name` is "roundRobin" itself.
   */
  lemma ResolveAfterRegister(strategies: map<string, Strategy>, name: string, s: Strategy, other: string)
    requires DefaultStrategyName in strategies
    ensures Resolve(strategies[name := s], name) == s
    ensures other != name && other in strategies ==>
              Resolve(strategies[name := s], other) == Resolve(strategies, other)
    ensures other != name && other !in strategies ==>
              Resolve(strategies[name := s], other) ==
                (if name == DefaultStrategyName then s else strategies[DefaultStrategyName])
  {
  }
}
