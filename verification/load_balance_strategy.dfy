/**
 * The `LoadBalanceStrategy` interface: `selectServer(servers, requestContent)`
 * and `getStrategyName()`. A `Strategy` is a reference to one of the three
 * implementing objects, so two holders of the same `Strategy` share its
 * counter.
 */
module Strategies {
  import opened JavaInt
  import opened Selection
  import CyclicSelection
  import RoundRobin
  import WeightedRoundRobin
  import Random

  datatype Strategy =
    | RoundRobinStrategy(rr: RoundRobin.RoundRobinStrategy)
    | RandomStrategy(rnd: Random.RandomStrategy)
    | WeightedRoundRobinStrategy(wrr: WeightedRoundRobin.WeightedRoundRobinStrategy)
  {
    /** The object behind the reference. */
    function Repr(): set<object>
    {
      match this
      case RoundRobinStrategy(rr) => {rr}
      case RandomStrategy(rnd) => {rnd}
      case WeightedRoundRobinStrategy(wrr) => {wrr}
    }

    /** The selection counter of the object; a random strategy keeps none and reads 0. */
    function Cursor(): int32
      reads Repr()
    {
      match this
      case RoundRobinStrategy(rr) => rr.currentIndex
      case RandomStrategy(_) => 0
      case WeightedRoundRobinStrategy(wrr) => wrr.currentWeight
    }

    /** Whether a call made while the counter reads `c` may return `r`. */
    ghost predicate Permits(c: int32, servers: Option<seq<string>>, r: Outcome)
    {
      match this
      case RandomStrategy(_) => Random.Permits(servers, r)
      case _ => r == CyclicSelection.Select(c, servers)
    }

    /** The counter after a call made while it reads `c`. */
    function Advance(c: int32, servers: Option<seq<string>>): int32
    {
      match this
      case RandomStrategy(_) => c
      case _ => CyclicSelection.Advance(c, servers)
    }

    /** `selectServer`, dispatched to the implementing object. */
    method SelectServer(servers: Option<seq<string>>, requestContent: string) returns (r: Outcome)
      modifies Repr()
      ensures Permits(old(Cursor()), servers, r)
      ensures Cursor() == Advance(old(Cursor()), servers)
    {
      match this
      case RoundRobinStrategy(rr) =>
        r := rr.SelectServer(servers, requestContent);
      case RandomStrategy(rnd) =>
        r := rnd.SelectServer(servers, requestContent);
      case WeightedRoundRobinStrategy(wrr) =>
        r := wrr.SelectServer(servers, requestContent);
    }

    /**
     * `getStrategyName`, dispatched to the implementing object: one of the
     * three class names, never one of the registry keys.
     */
    function GetStrategyName(): (name: string)
      ensures name in {"RoundRobin", "Random", "WeightedRoundRobin"}
      ensures name !in {"roundRobin", "random", "weightedRoundRobin"}
    {
      match this
      case RoundRobinStrategy(rr) => rr.GetStrategyName()
      case RandomStrategy(rnd) => rnd.GetStrategyName()
      case WeightedRoundRobinStrategy(wrr) => wrr.GetStrategyName()
    }
  }

  /**
   * Whatever the strategy, a null or empty list yields null and leaves the
   * counter where it was.
   */
  lemma NullOrEmptyYieldsNull(s: Strategy, c: int32, servers: Option<seq<string>>, r: Outcome)
    requires IsNullOrEmpty(servers) && s.Permits(c, servers, r)
    ensures r == NoServer && s.Advance(c, servers) == c
  {
  }

  /**
   * Whatever the strategy, a call made while its counter is non-negative
   * returns a member of a non-empty list.
   */
  lemma NonNegativeCounterYieldsMember(s: Strategy, c: int32, servers: seq<string>, r: Outcome)
    requires |servers| > 0 && c >= 0 && s.Permits(c, Some(servers), r)
    ensures r.Server? && r.address in servers
  {
  }

  /** Each variant reports the name of the class whose object it holds. */
  lemma ReportedNames(s: Strategy)
    ensures s.RoundRobinStrategy? ==> s.GetStrategyName() == "RoundRobin"
    ensures s.RandomStrategy? ==> s.GetStrategyName() == "Random"
    ensures s.WeightedRoundRobinStrategy? ==> s.GetStrategyName() == "WeightedRoundRobin"
  {
  }
}
