/**
 * `WeightedRoundRobinStrategy`: meant to honour per-server weights, but every
 * server weighs the same, so it hands out the servers in list order exactly
 * as `RoundRobinStrategy` does, on a counter of its own.
 */
module WeightedRoundRobin {
  import opened JavaInt
  import opened Selection
  import CyclicSelection

  class WeightedRoundRobinStrategy {
    /** The `AtomicInteger` counter; read and incremented once per selecting call. */
    var currentWeight: int32

    /** A new instance starts its counter at zero. */
    constructor()
      ensures currentWeight == 0
    {
      currentWeight := 0;
    }

    /**
     * `selectServer`: a null or empty list yields null and leaves the counter
     * alone; otherwise the element at `counter % size` (or the exception
     * `List.get` throws once the counter has wrapped negative), and the
     * counter moves on by one. `requestContent` plays no part, and no
     * weight is consulted.
     */
    method SelectServer(servers: Option<seq<string>>, requestContent: string) returns (r: Outcome)
      modifies this
      ensures r == CyclicSelection.Select(old(currentWeight), servers)
      ensures currentWeight == CyclicSelection.Advance(old(currentWeight), servers)
    {
      if IsNullOrEmpty(servers) {
        return NoServer;
      }
      var index := Rem(currentWeight as int, |servers.value|);
      currentWeight := Increment(currentWeight);
      r := Get(servers.value, index);
    }

    /**
     * `getStrategyName`: the name the instance reports for itself, which is
     * not the key "weightedRoundRobin" the registry binds it to.
     */
    function GetStrategyName(): (name: string)
      ensures name == "WeightedRoundRobin" && name != "weightedRoundRobin"
    {
      "WeightedRoundRobin"
    }
  }
}
