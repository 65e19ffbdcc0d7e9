# Backend selection of the Netty gateway, modelled in Dafny

The gateway forwards each request to one of several backend servers. Which server is picked is up to a
`LoadBalancer`. The balancer looks up a named strategy in a process-wide registry and caches it. It then
hands every selection to that strategy. The registry starts with three strategies:

- `roundRobin`: a `RoundRobinStrategy` with an `AtomicInteger` counter.
- `random`: a `RandomStrategy` drawing from `java.util.Random`.
- `weightedRoundRobin`: a `WeightedRoundRobinStrategy`. Every server has the same weight, so it is round
  robin on a counter of its own.

An unknown name falls back to the `roundRobin` object itself, so every such balancer shares that object's
counter. A balancer selects either from a list or from a comma-separated address string. The string is cut
with `String.split(",")` and each piece is trimmed.

The model, file by file:

- `java_int.dfy` (`JavaInt`): Java `int` as `int32`. `Increment` is `getAndIncrement` with its
  wrap-around from `MAX_VALUE` to `MIN_VALUE`. `Rem` is Java's truncating `%`.
- `java_string.dfy` (`JavaString`): `String.trim()` (`Trim`, from the two index scans `SkipLeading` and
  `SkipTrailing` that `trim()` performs) and `String.split(",")` (`Split`, built
  from `Pieces` and `DropTrailingEmpty`), with their round trips against `Join`.
- `selection.dfy` (`Selection`): `Option` for Java references that may be null. `Outcome` is a server,
  `null`, or the `IndexOutOfBoundsException` of `List.get`.
- `cyclic_selection.dfy` (`CyclicSelection`): the rule both round-robin classes follow (`Select`,
  `Advance`). It also has runs of successive calls (`Run`) and what they return: servers in cyclic order,
  a period equal to the list size, and the fault once the counter has wrapped.
- `round_robin_strategy.dfy`, `weighted_round_robin_strategy.dfy`, `random_strategy.dfy`: the three
  classes. The two round-robin classes each have a mutable `int32` counter.
- `load_balance_strategy.dfy` (`Strategies`): the `LoadBalanceStrategy` interface is the datatype
  `Strategy`. Each variant holds a reference to one of the three objects, so holders of the same
  `Strategy` share its state. `SelectServer` and `GetStrategyName` dispatch on the variant.
- `load_balancer.dfy` (`Balancer`): the static map is an explicit `StrategyRegistry` object.
  `LoadBalancer` keeps a reference to that registry, the name it was given and the cached `Strategy`.
  Name resolution with its fallback is `Resolve`. The string overload's loop is `ParseAddresses`.
- `balancer_scenarios.dfy` (`BalancerScenarios`): call sequences from the repository's tests, with their
  outcomes proved. These include the fourth round-robin call repeating the first, a single server always
  being chosen, and an unknown name sharing the round-robin counter.

Four behaviours of the code differ from what a reader of its names and comments might expect. The model
follows the code:

- `getStrategyName` returns the name that was asked for, even when it fell back.
- Re-registering a name does not reach balancers that already cached the old object.
- `split(",")` drops trailing empty pieces before trimming. So `","` gives no candidate, but `"a, "`
  gives `"a"` and `""`.
- After 2^31 increments the counter wraps to `Integer.MIN_VALUE` and stays negative for the next 2^31
  calls. Java's `%` then gives a negative index, unless the remainder is zero, and `List.get` throws.
  With one server the remainder is always zero, so that case never throws. Nothing in the code guards
  against the wrap.

Nondeterminism and I/O:

- `random.nextInt(n)` is a nondeterministic choice of an index in `[0, n)`.
- `requestContent` is an ordinary `string` parameter that no strategy reads.

## Model

| member | source | states |
|---|---|---|
| JavaInt.Increment | src/main/java/com/newlandframework/gateway/commons/RoundRobinStrategy.java:23 | The new counter is the old one plus one modulo 2^32, within the `int` range. Below `MAX_VALUE` it is exactly one more. |
| JavaInt.Rem | src/main/java/com/newlandframework/gateway/commons/RoundRobinStrategy.java:23 | Java's `%`: the remainder is smaller than the divisor in magnitude and has the dividend's sign. With the truncating quotient it rebuilds the dividend. |
| Selection.Get | src/main/java/com/newlandframework/gateway/commons/RoundRobinStrategy.java:24 | `List.get` yields the element exactly when the index is in range. Any other index yields the exception carrying that index, never null. |
| CyclicSelection.Select | src/main/java/com/newlandframework/gateway/commons/RoundRobinStrategy.java:19-24 | Null exactly for a null or empty list. Otherwise Java's `servers.get(c % n)` for every counter: `servers[c mod n]` when `c >= 0`; when `c < 0`, `servers[0]` if Java's remainder is zero and otherwise the exception carrying that negative remainder. A fault happens exactly in that last case. |
| CyclicSelection.Advance | src/main/java/com/newlandframework/gateway/commons/RoundRobinStrategy.java:19-23 | The counter is unchanged for a null or empty list. Otherwise it grows by one, except that `MAX_VALUE` wraps to `MIN_VALUE`. |
| CyclicSelection.Run | src/main/java/com/newlandframework/gateway/commons/RoundRobinStrategy.java:19-24 | `k` successive calls on a non-empty list give `k` results, none of them null: each is a server or a fault. |
| CyclicSelection.AfterNoWrap | src/main/java/com/newlandframework/gateway/commons/RoundRobinStrategy.java:23 | Until `MAX_VALUE` is reached, `k` calls raise the counter by exactly `k`. |
| CyclicSelection.AfterExtend | src/main/java/com/newlandframework/gateway/commons/RoundRobinStrategy.java:23 | One more call is one more `getAndIncrement` on the counter reached so far. |
| CyclicSelection.AfterWraps | src/main/java/com/newlandframework/gateway/commons/RoundRobinStrategy.java:23 | From any non-negative counter, the call that passes `MAX_VALUE` leaves the counter at `MIN_VALUE`. |
| CyclicSelection.RunAt | src/main/java/com/newlandframework/gateway/commons/RoundRobinStrategy.java:23-24 | The `i`-th of `k` successive calls selects with the counter advanced `i` times. |
| CyclicSelection.RunExtend | src/main/java/com/newlandframework/gateway/commons/RoundRobinStrategy.java:23-24 | The first `k + 1` calls are the first `k` followed by the selection at the counter advanced `k` times. |
| CyclicSelection.RunInOrder | src/main/java/com/newlandframework/gateway/commons/RoundRobinStrategy.java:23-24 | Without a wrap, call `i` returns `servers[(c + i) mod n]`, so every result is a member, taken in list order. |
| CyclicSelection.RunCycles | src/main/java/com/newlandframework/gateway/commons/RoundRobinStrategy.java:23-24 | Without a wrap, call `i` and call `i + n` return the same server. |
| CyclicSelection.RunSingleServer | src/main/java/com/newlandframework/gateway/commons/RoundRobinStrategy.java:23-24 | With one server every call returns it, even after the counter has wrapped. |
| CyclicSelection.FirstCallOfFreshCounter | src/main/java/com/newlandframework/gateway/commons/RoundRobinStrategy.java:15-24 | A counter starting at 0 selects `servers[0]` first. |
| CyclicSelection.CounterFaultsAfterWrap | src/main/java/com/newlandframework/gateway/commons/RoundRobinStrategy.java:23-24 | From any non-negative counter, the call made after the counter wraps to `MIN_VALUE` computes index -2 on three servers and throws. |
| RoundRobin.RoundRobinStrategy.constructor | src/main/java/com/newlandframework/gateway/commons/RoundRobinStrategy.java:15 | A new instance's counter is 0. |
| RoundRobin.RoundRobinStrategy.SelectServer | src/main/java/com/newlandframework/gateway/commons/RoundRobinStrategy.java:17-25 | Returns `Select(old counter, servers)`. The counter advances by one only for a non-empty list. `requestContent` has no effect. |
| RoundRobin.RoundRobinStrategy.GetStrategyName | src/main/java/com/newlandframework/gateway/commons/RoundRobinStrategy.java:27-30 | Reports "RoundRobin", which is not the registry key "roundRobin". |
| WeightedRoundRobin.WeightedRoundRobinStrategy.constructor | src/main/java/com/newlandframework/gateway/commons/WeightedRoundRobinStrategy.java:15 | A new instance's counter is 0. |
| WeightedRoundRobin.WeightedRoundRobinStrategy.SelectServer | src/main/java/com/newlandframework/gateway/commons/WeightedRoundRobinStrategy.java:17-27 | Same round-robin rule on its own counter. No weight and no `requestContent` affects the result. |
| WeightedRoundRobin.WeightedRoundRobinStrategy.GetStrategyName | src/main/java/com/newlandframework/gateway/commons/WeightedRoundRobinStrategy.java:29-32 | Reports "WeightedRoundRobin", which is not the registry key "weightedRoundRobin". |
| Random.RandomStrategy.SelectServer | src/main/java/com/newlandframework/gateway/commons/RandomStrategy.java:17-25 | Null for a null or empty list. Otherwise `servers[i]` for some `i` in `[0, n)`: always a member, never a fault. |
| Random.RandomStrategy.GetStrategyName | src/main/java/com/newlandframework/gateway/commons/RandomStrategy.java:27-30 | Reports "Random", which is not the registry key "random". |
| Random.SingleServerAlwaysChosen | src/main/java/com/newlandframework/gateway/commons/RandomStrategy.java:23-24 | With one server the only possible result is that server. |
| Strategies.Strategy.SelectServer | src/main/java/com/newlandframework/gateway/commons/LoadBalanceStrategy.java:20 | Dispatch: the result and the new counter are those of the strategy object behind the reference. |
| Strategies.NullOrEmptyYieldsNull | src/main/java/com/newlandframework/gateway/commons/RoundRobinStrategy.java:19-21 | For every strategy, a null or empty list yields null and leaves the counter unchanged. |
| Strategies.NonNegativeCounterYieldsMember | src/main/java/com/newlandframework/gateway/commons/RoundRobinStrategy.java:23-24 | For every strategy whose counter is non-negative, the result on a non-empty list is a member of it. |
| Strategies.ReportedNames | src/main/java/com/newlandframework/gateway/commons/RoundRobinStrategy.java:28-30 | Through the interface, each variant reports the name of the class whose object it holds: "RoundRobin", "Random" or "WeightedRoundRobin". |
| Strategies.Strategy.GetStrategyName | src/main/java/com/newlandframework/gateway/commons/LoadBalanceStrategy.java:27 | Whatever the implementation, the reported name is one of the three class names and never one of the three registry keys. |
| JavaString.Trim | src/main/java/com/newlandframework/gateway/commons/LoadBalancer.java:79 | The result has no blank (≤ U+0020) at either end. It is empty exactly when the input is all blanks. It is the input with only blanks cut from the ends. |
| JavaString.TrimKeepsTrimmed | src/main/java/com/newlandframework/gateway/commons/LoadBalancer.java:79 | A string with no blank at either end is returned unchanged. |
| JavaString.TrimIdempotent | src/main/java/com/newlandframework/gateway/commons/LoadBalancer.java:79 | Trimming twice equals trimming once. |
| JavaString.Pieces | src/main/java/com/newlandframework/gateway/commons/LoadBalancer.java:76 | There is at least one piece, and no piece holds a comma. |
| JavaString.DropTrailingEmpty | src/main/java/com/newlandframework/gateway/commons/LoadBalancer.java:76 | The result is a prefix that ends in a non-empty string. Everything cut off is empty. |
| JavaString.Split | src/main/java/com/newlandframework/gateway/commons/LoadBalancer.java:76 | A string without a comma comes back whole. Otherwise the result is the pieces up to the last non-empty one: interior empty pieces stay, trailing ones go. |
| JavaString.JoinPieces | src/main/java/com/newlandframework/gateway/commons/LoadBalancer.java:76 | Joining the pieces with commas gives back the original string. |
| JavaString.PiecesOfCommaFree | src/main/java/com/newlandframework/gateway/commons/LoadBalancer.java:76 | A string without a comma is one piece. |
| JavaString.PiecesAfterComma | src/main/java/com/newlandframework/gateway/commons/LoadBalancer.java:76 | A comma-free prefix ending at the first comma is the first piece. |
| JavaString.PiecesJoin | src/main/java/com/newlandframework/gateway/commons/LoadBalancer.java:76 | Cutting comma-free pieces joined with commas gives the pieces back. |
| JavaString.SplitJoin | src/main/java/com/newlandframework/gateway/commons/LoadBalancer.java:76 | `split(",")` undoes the join when pieces are comma-free and the last is non-empty. |
| Balancer.Resolve | src/main/java/com/newlandframework/gateway/commons/LoadBalancer.java:43-46 | A bound name gives its binding. Any name gives a registered strategy, never null. |
| Balancer.UnknownNamesShareDefault | src/main/java/com/newlandframework/gateway/commons/LoadBalancer.java:43-46 | An unbound name resolves to the very object bound to "roundRobin". |
| Balancer.ResolveAfterRegister | src/main/java/com/newlandframework/gateway/commons/LoadBalancer.java:113-115 | After `name := s`: `name` resolves to `s` and other bound names are unchanged. Unbound names move to `s` only when `name` is "roundRobin". |
| Balancer.StrategyRegistry.constructor | src/main/java/com/newlandframework/gateway/commons/LoadBalancer.java:17-24 | Exactly three keys, each bound to a new object of the matching class. Both counters start at 0. |
| Balancer.LoadBalancer.constructor | src/main/java/com/newlandframework/gateway/commons/LoadBalancer.java:41-47 | The name is stored exactly as given. The cached strategy is the name's binding, or the "roundRobin" binding when the name is unbound. |
| Balancer.LoadBalancer.Default | src/main/java/com/newlandframework/gateway/commons/LoadBalancer.java:32-34 | Same state as the constructor given "roundRobin". |
| Balancer.LoadBalancer.SelectServer | src/main/java/com/newlandframework/gateway/commons/LoadBalancer.java:56-62 | A null or empty list yields null and no strategy state changes. Otherwise the result and new counter are exactly those of the cached strategy. |
| Balancer.LoadBalancer.ParseAddresses | src/main/java/com/newlandframework/gateway/commons/LoadBalancer.java:76-80 | The loop builds `ParsedServers`: each `split(",")` piece trimmed, in order. |
| Balancer.LoadBalancer.SelectServerFromAddresses | src/main/java/com/newlandframework/gateway/commons/LoadBalancer.java:71-83 | A null or blank string yields null and no state changes. Otherwise it behaves exactly like the list overload on the parsed list. |
| Balancer.LoadBalancer.SetStrategy | src/main/java/com/newlandframework/gateway/commons/LoadBalancer.java:99-105 | The name is stored as given. The cache is re-resolved in the current registry, with fallback. |
| Balancer.LoadBalancer.GetStrategyName | src/main/java/com/newlandframework/gateway/commons/LoadBalancer.java:90-92 | Returns the name last given to the constructor or to `SetStrategy`, which both store it as given. For an unknown name this is not the name of the strategy actually used. |
| Balancer.LoadBalancer.RegisterStrategy | src/main/java/com/newlandframework/gateway/commons/LoadBalancer.java:113-115 | The registry becomes the old map with `name` bound to the new strategy. Only the registry changes, so cached strategies stay. |
| Balancer.ParsedServersShape | src/main/java/com/newlandframework/gateway/commons/LoadBalancer.java:76-80 | Each parsed address is trimmed and comma-free. A string without a comma gives one trimmed address. |
| Balancer.ParseJoin | src/main/java/com/newlandframework/gateway/commons/LoadBalancer.java:76-80 | Parsing trimmed, comma-free addresses joined by commas (last one non-empty) gives them back. |
| Balancer.InteriorEmptyPieceKept | src/main/java/com/newlandframework/gateway/commons/LoadBalancer.java:76-80 | "a,,b" parses to three candidates, the middle one empty. |
| Balancer.BlankLastPieceKept | src/main/java/com/newlandframework/gateway/commons/LoadBalancer.java:76-80 | "a, " parses to "a" and "", because trimming happens after the split. |
| Balancer.LoneCommaGivesNoServers | src/main/java/com/newlandframework/gateway/commons/LoadBalancer.java:76-80 | "," parses to the empty list. |
| BalancerScenarios.FourthSelectionRepeatsFirst | src/test/java/com/newlandframework/gateway/commons/LoadBalancerTest.java:16-34 | On any round-robin balancer whose counter will not wrap, the fourth of four calls over three servers equals the first, and both are members. |
| BalancerScenarios.RepeatedSelections | src/main/java/com/newlandframework/gateway/commons/LoadBalancer.java:56-62 | `k` successive `selectServer` calls with one non-empty list on a round-robin balancer return exactly `Run` from the starting counter and leave the counter advanced `k` times. So the lemmas about `Run` describe real call sequences. |
| BalancerScenarios.SingleServerAlwaysChosen | src/test/java/com/newlandframework/gateway/commons/LoadBalancerTest.java:71-81 | On any balancer, with any strategy and any counter, a single-server list gives that server twice. |
| BalancerScenarios.NullAndBlankInputs | src/test/java/com/newlandframework/gateway/commons/LoadBalancerTest.java:60-69 | A null list and an empty string both yield null, and no strategy state changes. |
| BalancerScenarios.UnknownNameSharesRoundRobinCounter | src/test/java/com/newlandframework/gateway/commons/LoadBalancerTest.java:92-101 | Balancers for "roundRobin" and for an unknown name share one counter: the second picks "server2" after the first picked "server1". Each reports its own requested name, while the strategy behind the unknown name reports "RoundRobin". |
| BalancerScenarios.CommaSeparatedAddresses | src/test/java/com/newlandframework/gateway/commons/LoadBalancerTest.java:49-58 | On a fresh registry, a joined address string of clean addresses selects the first address. |
| BalancerScenarios.RegisterAfterConstruction | src/main/java/com/newlandframework/gateway/commons/LoadBalancer.java:113-115 | After re-registering a name, earlier balancers keep their object and later ones get the new one. `setStrategy` on an earlier balancer picks up the new one. |

## Left out

- Concurrency: every call is sequential. The atomicity of `AtomicInteger.getAndIncrement` is not modelled, and neither is the fact that the registry's plain `HashMap` is not safe under concurrent `registerStrategy`.
- Random.RandomStrategy.constructor: the `java.util.Random` instance it creates (RandomStrategy.java:15) is not modelled, so the object has no state and the constructor promises nothing.
- Random.RandomStrategy.SelectServer: states only that some index in `[0, n)` is drawn. It models neither the state of `java.util.Random` nor any distribution or frequency claim.
- Strategies.Strategy.SelectServer: the interface is a closed datatype over the three built-in classes. A user-written `LoadBalanceStrategy` passed to `registerStrategy` cannot be expressed, so `RegisterStrategy` accepts only objects of those classes.
- Null values other than the list and the address string: a null strategy name, a null strategy passed to `registerStrategy` (bound to any name but "roundRobin" it acts like an unbound name, because `strategies.get` returning null triggers the fallback; bound to "roundRobin" it makes every balancer resolved through the fallback afterwards throw `NullPointerException` at LoadBalancer.java:61), null list elements, and null `requestContent`.
- Lists longer than `Integer.MAX_VALUE` elements, where `List.size()` saturates.
- The Netty pipeline and Spring bootstrap in `GatewayServerInitializer.java`, and the configuration bean `GatewayOptions.java`, apart from the default name "roundRobin".
- Health checking: it exists only as configuration flags and is never implemented.
- BalancerScenarios.FourthSelectionRepeatsFirst: the test runs against the process-wide registry, whose counter earlier tests may have moved. The scenario therefore assumes only a non-negative counter at least 3 below `MAX_VALUE`, not a fresh one.
