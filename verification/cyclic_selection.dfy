/**
 * The selection rule shared by the round-robin and the weighted-round-robin
 * strategies: read the counter, take it modulo the list size with Java's
 * `%`, fetch that element with `List.get`, and advance the counter by one
 * with `int` wrap-around. Requests with a null or empty list neither select
 * nor advance.
 */
module CyclicSelection {
  import opened JavaInt
  import opened Selection

  /**
   * The result of one call made while the counter reads `c`: null for a null
   * or empty list; `servers[c mod n]` for a non-negative counter; for a
   * negative one, `servers[0]` when Java's remainder is zero and otherwise
   * the exception for that negative remainder.
   */
  function Select(c: int32, servers: Option<seq<string>>): (r: Outcome)
    ensures IsNullOrEmpty(servers) <==> r.NoServer?
    ensures !IsNullOrEmpty(servers) && c >= 0 ==>
              r == Server(servers.value[c as int % |servers.value|])
    ensures !IsNullOrEmpty(servers) && c < 0 && Rem(c as int, |servers.value|) == 0 ==>
              r == Server(servers.value[0])
    ensures !IsNullOrEmpty(servers) && c < 0 && Rem(c as int, |servers.value|) != 0 ==>
              r == IndexOutOfBounds(Rem(c as int, |servers.value|))
    ensures r.IndexOutOfBounds? <==>
              !IsNullOrEmpty(servers) && c < 0 && Rem(c as int, |servers.value|) != 0
  {
    if IsNullOrEmpty(servers) then NoServer
    else Get(servers.value, Rem(c as int, |servers.value|))
  }

  /**
   * The counter after one call made while it reads `c`: unchanged for a null
   * or empty list, otherwise one more, except that `MAX_VALUE` wraps to
   * `MIN_VALUE`.
   */
  function Advance(c: int32, servers: Option<seq<string>>): (a: int32)
    ensures IsNullOrEmpty(servers) ==> a == c
    ensures !IsNullOrEmpty(servers) && c as int < MAX_VALUE ==> a as int == c as int + 1
    ensures !IsNullOrEmpty(servers) && c as int == MAX_VALUE ==> a as int == MIN_VALUE
  {
    if IsNullOrEmpty(servers) then c else Increment(c)
  }

  /** The counter after `k` calls with a non-empty list, starting from `c`. */
  function After(c: int32, k: nat): int32
    decreases k
  {
    if k == 0 then c else After(Increment(c), k - 1)
  }

  /**
   * The results of `k` successive calls with the same non-empty list,
   * starting from counter `c`: each is a server or a fault, never null.
   */
  function Run(c: int32, servers: seq<string>, k: nat): (run: seq<Outcome>)
    requires |servers| > 0
    ensures |run| == k
    ensures forall i :: 0 <= i < k ==> !run[i].NoServer?
    decreases k
  {
    if k == 0 then [] else [Select(c, Some(servers))] + Run(Increment(c), servers, k - 1)
  }

  /** One more call advances the counter once more. */
  lemma {:induction false} AfterExtend(c: int32, k: nat)
    ensures After(c, k + 1) == Increment(After(c, k))
    decreases k
  {
    if k > 0 {
      AfterExtend(Increment(c), k - 1);
    }
  }

  /** One more call appends the selection made at the counter reached so far. */
  lemma {:induction false} RunExtend(c: int32, servers: seq<string>, k: nat)
    requires |servers| > 0
    ensures Run(c, servers, k + 1) == Run(c, servers, k) + [Select(After(c, k), Some(servers))]
    decreases k
  {
    if k > 0 {
      RunExtend(Increment(c), servers, k - 1);
      var head := [Select(c, Some(servers))];
      assert Run(c, servers, k + 1) == head + Run(Increment(c), servers, k);
      assert Run(c, servers, k) == head + Run(Increment(c), servers, k - 1);
      assert head + (Run(Increment(c), servers, k - 1) + [Select(After(c, k), Some(servers))])
          == (head + Run(Increment(c), servers, k - 1)) + [Select(After(c, k), Some(servers))];
    }
  }

  /** Until the counter reaches `MAX_VALUE`, `k` calls add exactly `k` to it. */
  lemma {:induction false} AfterNoWrap(c: int32, k: nat)
    requires 0 <= c as int && c as int + k <= MAX_VALUE
    ensures After(c, k) as int == c as int + k
    decreases k
  {
    if k > 0 {
      AfterNoWrap(Increment(c), k - 1);
    }
  }

  /** From any non-negative counter, the call that passes `MAX_VALUE` leaves it at `MIN_VALUE`. */
  lemma {:induction false} AfterWraps(c: int32)
    requires c >= 0
    ensures After(c, MAX_VALUE - c as int + 1) as int == MIN_VALUE
    decreases MAX_VALUE - c as int
  {
    if c as int < MAX_VALUE {
      AfterWraps(Increment(c));
    }
  }

  /** The `i`-th call of a run sees the counter advanced `i` times. */
  lemma {:induction false} RunAt(c: int32, servers: seq<string>, k: nat, i: nat)
    requires |servers| > 0 && i < k
    ensures Run(c, servers, k)[i] == Select(After(c, i), Some(servers))
    decreases i
  {
    if i > 0 {
      RunAt(Increment(c), servers, k - 1, i - 1);
    }
  }

  /**
   * While the counter does not wrap, the `i`-th of `k` successive calls
   * returns `servers[(c + i) mod n]`: a member of the list, in cyclic order.
   */
  lemma RunInOrder(c: int32, servers: seq<string>, k: nat)
    requires |servers| > 0 && 0 <= c && c as int + k <= MAX_VALUE + 1
    ensures forall i :: 0 <= i < k ==>
              Run(c, servers, k)[i] == Server(servers[(c as int + i) % |servers|])
  {
    forall i | 0 <= i < k
      ensures Run(c, servers, k)[i] == Server(servers[(c as int + i) % |servers|])
    {
      RunAt(c, servers, k, i);
      AfterNoWrap(c, i);
    }
  }

  /** While the counter does not wrap, call `i` and call `i + n` return the same server. */
  lemma RunCycles(c: int32, servers: seq<string>, k: nat)
    requires |servers| > 0 && 0 <= c && c as int + k <= MAX_VALUE + 1
    ensures forall i :: 0 <= i && i + |servers| < k ==>
              Run(c, servers, k)[i] == Run(c, servers, k)[i + |servers|]
  {
    RunInOrder(c, servers, k);
    var n := |servers|;
    forall i | 0 <= i && i + n < k
      ensures Run(c, servers, k)[i] == Run(c, servers, k)[i + n]
    {
      ShiftByPeriod(c as int + i, n);
    }
  }

  /** Adding one period does not change the remainder. */
  lemma ShiftByPeriod(a: int, n: int)
    requires a >= 0 && n > 0
    ensures (a + n) % n == a % n
  {
    var q, r := a / n, a % n;
    var q', r' := (a + n) / n, (a + n) % n;
    var d := q' - q - 1;
    assert d * n == r - r' by {
      assert d * n == q' * n - q * n - n;
    }
  }

  /** With a single server every call returns it, wrapped counter or not. */
  lemma RunSingleServer(c: int32, server: string, k: nat)
    ensures forall i :: 0 <= i < k ==> Run(c, [server], k)[i] == Server(server)
  {
    forall i | 0 <= i < k ensures Run(c, [server], k)[i] == Server(server) {
      RunAt(c, [server], k, i);
    }
  }

  /** A fresh counter starts at zero, so its first call returns the first server. */
  lemma FirstCallOfFreshCounter(servers: seq<string>)
    requires |servers| > 0
    ensures Run(0, servers, 1)[0] == Server(servers[0])
  {
    RunAt(0, servers, 1, 0);
  }

  /**
   * From any non-negative counter `c` (a fresh one reads 0), the call that
   * finds the counter wrapped to `MIN_VALUE` (call number 2^31 - c + 1) on
   * three servers gets index -2 from Java's `%`, and `List.get` throws.
   */
  lemma CounterFaultsAfterWrap(c: int32, servers: seq<string>)
    requires c >= 0 && |servers| == 3
    ensures var k := MAX_VALUE - c as int + 1;
            Run(c, servers, k + 1)[k] == IndexOutOfBounds(-2)
  {
    var k := MAX_VALUE - c as int + 1;
    RunAt(c, servers, k + 1, k);
    AfterWraps(c);
    var wrapped := After(c, k);
    assert wrapped as int == -0x8000_0000;
    assert Rem(wrapped as int, 3) == -2;
  }
}
