/** `RandomStrategy`: picks a server at an index drawn from `java.util.Random`. */
module Random {
  import opened Selection

  /**
   * What one call may return: null for a null or empty list, otherwise
   * `servers[i]` for some index `i` in `[0, size)`.
   */
  ghost predicate Permits(servers: Option<seq<string>>, r: Outcome)
  {
    if IsNullOrEmpty(servers) then r == NoServer
    else exists i :: 0 <= i < |servers.value| && r == Server(servers.value[i])
  }

  class RandomStrategy {

    constructor()
    {
    }

    /**
     * `selectServer`: the draw `random.nextInt(size)` is any index in
     * `[0, size)`; `List.get` at that index never throws. `requestContent`
     * plays no part.
     */
    method SelectServer(servers: Option<seq<string>>, requestContent: string) returns (r: Outcome)
      ensures Permits(servers, r)
      ensures r.Server? ==> r.address in servers.value
      ensures !r.IndexOutOfBounds?
    {
      if IsNullOrEmpty(servers) {
        return NoServer;
      }
      var index :| 0 <= index < |servers.value|;
      r := Get(servers.value, index);
    }

    /**
     * `getStrategyName`: the name the instance reports for itself, which is
     * not the key "random" the registry binds it to.
     */
    function GetStrategyName(): (name: string)
      ensures name == "Random" && name != "random"
    {
      "Random"
    }
  }

  /** With a single server the only index in range is 0, so that server is returned. */
  lemma SingleServerAlwaysChosen(server: string, r: Outcome)
    requires Permits(Some([server]), r)
    ensures r == Server(server)
  {
  }
}
