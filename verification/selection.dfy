/**
 * The values that flow through a selection: Java references that may be
 * null, and the `Outcome` of one `selectServer` call.
 */
module Selection {

  /** A Java reference that may be null: `None` stands for `null`. */
  datatype Option<+T> = None | Some(value: T)

  /**
   * What one `selectServer` call yields: a candidate address, Java's `null`
   * ("no candidate"), or the `IndexOutOfBoundsException` that `List.get`
   * throws for the index it was given.
   */
  datatype Outcome =
    | Server(address: string)
    | NoServer
    | IndexOutOfBounds(index: int)

  /** The guard `servers == null || servers.isEmpty()`. */
  predicate IsNullOrEmpty(servers: Option<seq<string>>)
  {
    servers.None? || |servers.value| == 0
  }

  /** `servers.get(index)`: the element at `index`, or the exception. */
  function Get(servers: seq<string>, index: int): (r: Outcome)
    ensures r.Server? <==> 0 <= index < |servers|
    ensures r.Server? ==> r.address == servers[index]
    ensures !(0 <= index < |servers|) ==> r == IndexOutOfBounds(index)
  {
    if 0 <= index < |servers| then Server(servers[index]) else IndexOutOfBounds(index)
  }
}
