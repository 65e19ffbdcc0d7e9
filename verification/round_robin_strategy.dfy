/** `RoundRobinStrategy`: hands out the servers in list order, one per call. */
module RoundRobin {
  import opened JavaInt
  import opened Selection
  import CyclicSelection

  class RoundRobinStrategy {
    /** The `AtomicInteger` counter; read and incremented once per selecting call. */
    var currentIndex: int32

    /** A new instance starts its counter at zero. */
    constructor()
      ensures currentIndex == 0
    {
      currentIndex := 0;
    }

    /**
     * `selectServer`: a null or empty list yields null and leaves the counter
     * alone; otherwise the element at `counter % size` (or the exception
     * `List.get` throws once the counter has wrapped negative), and the
     * counter moves on by one. `requestContent` plays no part.
     */
    method SelectServer(servers: Option<seq<string>>, requestContent: string) returns (r: Outcome)
      modifies this
      ensures r == CyclicSelection.Select(old(currentIndex), servers)
      ensures currentIndex == CyclicSelection.Advance(old(currentIndex), servers)
    {
      if IsNullOrEmpty(servers) {
        return NoServer;
      }
      var index := Rem(currentIndex as int, |servers.value|);
      currentIndex := Increment(currentIndex);
      r := Get(servers.value, index);
    }

    /**
     * `getStrategyName`: the name the instance reports for itself, which is
     * not the key "roundRobin" the registry binds it to.
     */
    function GetStrategyName(): (name: string)
      ensures name == "RoundRobin" && name != "roundRobin"
    {
      "RoundRobin"
    }
  }
}
