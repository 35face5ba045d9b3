/** What happens to children when their parent's quota shrinks (`arkhe-kernel/src/state/quota.rs`). */
module Quota {
  import opened Abi
  import opened Instance

  type Usage = seq<(InstanceId, U64)>

  datatype QuotaError = WouldViolateChildren(currentUsage: U64, newQuota: U64)

  function Total(c: Usage): nat {
    if c == [] then 0 else Total(c[..|c|-1]) + c[|c|-1].1
  }

  // ---- proportional shares ----

  /** `floor(usage * quota / total)`. */
  function Share(usage: U64, quota: U64, total: U64): nat
    requires total > 0
  {
    Quotient(usage * quota, total)
  }

  function Quotient(n: nat, t: nat): nat
    requires t > 0
  {
    n / t
  }

  function Shares(c: Usage, quota: U64, total: U64): nat
    requires total > 0
  {
    if c == [] then 0 else Shares(c[..|c|-1], quota, total) + Share(c[|c|-1].1, quota, total)
  }

  function Remainders(c: Usage, quota: U64, total: U64): nat
    requires total > 0
  {
    if c == [] then 0 else Remainders(c[..|c|-1], quota, total) + (c[|c|-1].1 * quota) % total
  }

  /** What is left of the quota once every child has its floor share. */
  function Leftover(c: Usage, quota: U64, total: U64): nat
    requires total > 0
  {
    if Shares(c, quota, total) <= quota then quota - Shares(c, quota, total) else 0
  }

  lemma MulDistributes(a: nat, b: nat, q: nat)
    ensures (a + b) * q == a * q + b * q
  {
  }

  lemma DivMod(n: nat, t: nat)
    requires t > 0
    ensures n == t * (n / t) + n % t
  {
  }

  lemma OneMoreShare(sum: nat, u: U64, quota: U64, total: U64, shares: nat, remainders: nat)
    requires total > 0 && sum * quota == total * shares + remainders
    ensures (sum + u) * quota == total * (shares + Share(u, quota, total)) + (remainders + (u * quota) % total)
  {
    MulDistributes(sum, u, quota);
    DivMod(u * quota, total);
    MulDistributes(shares, Share(u, quota, total), total);
  }

  lemma {:induction false} SharesAndRemainders(c: Usage, quota: U64, total: U64)
    requires total > 0
    ensures Total(c) * quota == total * Shares(c, quota, total) + Remainders(c, quota, total)
    decreases |c|
  {
    if c != [] {
      var init, u := c[..|c|-1], c[|c|-1].1;
      SharesAndRemainders(init, quota, total);
      OneMoreShare(Total(init), u, quota, total, Shares(init, quota, total), Remainders(init, quota, total));
    }
  }

  lemma {:induction false} RemaindersBelow(c: Usage, quota: U64, total: U64)
    requires total > 0
    ensures Remainders(c, quota, total) <= |c| * (total - 1)
    decreases |c|
  {
    if c != [] {
      RemaindersBelow(c[..|c|-1], quota, total);
      MulDistributes(|c| - 1, 1, total - 1);
    }
  }

  lemma PositiveFactor(t: nat, x: int)
    requires t > 0 && t * x > 0
    ensures x > 0
  {
  }

  lemma ProductBelow(t: nat, x: int, n: nat)
    requires t > 0 && t * x <= n * (t - 1) && n > 0
    ensures x < n
  {
  }

  lemma FactorNonNegative(t: nat, x: int)
    requires t > 0 && t * x >= 0
    ensures x >= 0
  {
  }

  /** The floors never exceed the quota and miss it by less than one unit per child, so a single
      pass of increments is enough. */
  lemma LeftoverBelowCount(c: Usage, quota: U64, total: U64)
    requires 0 < Total(c) == total
    ensures Shares(c, quota, total) <= quota && Leftover(c, quota, total) < |c|
  {
    var shares := Shares(c, quota, total);
    SharesAndRemainders(c, quota, total);
    RemaindersBelow(c, quota, total);
    assert total * (quota - shares) == total * quota - total * shares;
    FactorNonNegative(total, quota - shares);
    ProductBelow(total, quota - shares, |c|);
  }

  /** A share is the whole part of the child's proportion. */
  lemma ShareIsFloor(usage: U64, quota: U64, total: U64)
    requires total > 0
    ensures var share := Share(usage, quota, total); total * share <= usage * quota < total * (share + 1)
  {
    DivMod(usage * quota, total);
    MulDistributes(Share(usage, quota, total), 1, total);
  }

  /** A proper reduction leaves every non-zero usage room for the extra unit. */
  lemma ShareBelowUsage(usage: U64, quota: U64, total: U64)
    requires quota < total
    ensures usage > 0 ==> Share(usage, quota, total) < usage
    ensures usage == 0 ==> Share(usage, quota, total) == 0
  {
    if usage > 0 {
      var share := Share(usage, quota, total);
      DivMod(usage * quota, total);
      assert usage * (total - quota) > 0 && usage * (total - quota) == usage * total - usage * quota;
      assert total * (usage - share) == total * usage - total * share;
      PositiveFactor(total, usage - share);
    }
  }

  // ---- the throttled quotas ----

  function Throttled(c: Usage, quota: U64, total: U64, n: nat): (out: Usage)
    requires quota < total && n <= |c|
    ensures |out| == n
  {
    if n == 0 then []
    else
      ShareBelowUsage(c[n-1].1, quota, total);
      Throttled(c, quota, total, n - 1) +
      [(c[n-1].0, Share(c[n-1].1, quota, total) + if n - 1 < Leftover(c, quota, total) then 1 else 0)]
  }

  lemma {:induction false} ThrottledAt(c: Usage, quota: U64, total: U64, n: nat, i: nat)
    requires quota < total && i < n <= |c|
    ensures var out := Throttled(c, quota, total, n);
            && out[i].0 == c[i].0
            && out[i].1 == Share(c[i].1, quota, total) + if i < Leftover(c, quota, total) then 1 else 0
    decreases n
  {
    if i < n - 1 {
      ThrottledAt(c, quota, total, n - 1, i);
    }
  }

  lemma {:induction false} ThrottledTotal(c: Usage, quota: U64, total: U64, n: nat)
    requires quota < total && n <= |c|
    ensures Total(Throttled(c, quota, total, n)) == Shares(c[..n], quota, total) + Min(n, Leftover(c, quota, total))
    decreases n
  {
    if n > 0 {
      ThrottledTotal(c, quota, total, n - 1);
      assert c[..n][..n-1] == c[..n-1];
      var out := Throttled(c, quota, total, n);
      assert out[..n-1] == Throttled(c, quota, total, n - 1);
    }
  }

  /** Throttle exactness: when the true usage sum fits 64 bits and exceeds the new quota, the new
      quotas add up to it exactly, keep the children in order, give each child its floor share or
      one more, never take a child with non-zero usage above what it uses, and one pass hands out
      the whole leftover. */
  lemma ThrottleExact(c: Usage, quota: U64)
    requires quota < Total(c) <= U64_MAX
    ensures var total := Total(c);
            var out := Throttled(c, quota, total, |c|);
            && Total(out) == quota
            && Leftover(c, quota, total) < |c|
            && forall i :: 0 <= i < |c| ==>
                 && out[i].0 == c[i].0
                 && Share(c[i].1, quota, total) <= out[i].1 <= Share(c[i].1, quota, total) + 1
                 && (c[i].1 > 0 ==> out[i].1 <= c[i].1)
  {
    var total := Total(c);
    LeftoverBelowCount(c, quota, total);
    ThrottledTotal(c, quota, total, |c|);
    assert c[..|c|] == c;
    forall i | 0 <= i < |c|
      ensures var out := Throttled(c, quota, total, |c|);
              && out[i].0 == c[i].0
              && Share(c[i].1, quota, total) <= out[i].1 <= Share(c[i].1, quota, total) + 1
              && (c[i].1 > 0 ==> out[i].1 <= c[i].1)
    {
      ThrottledAt(c, quota, total, |c|, i);
      ShareBelowUsage(c[i].1, quota, total);
    }
  }

  /** The documentation says a child is never inflated above its current usage. That holds if and
      only if none of the first `Leftover` children is idle. */
  lemma InflatesExactlyIdleChildren(c: Usage, quota: U64)
    requires quota < Total(c) <= U64_MAX
    ensures (forall i :: 0 <= i < |c| ==> Throttled(c, quota, Total(c), |c|)[i].1 <= c[i].1) <==>
            (forall i :: 0 <= i < Leftover(c, quota, Total(c)) ==> i < |c| && c[i].1 > 0)
  {
    var total := Total(c);
    LeftoverBelowCount(c, quota, total);
    forall i | 0 <= i < |c|
      ensures Throttled(c, quota, total, |c|)[i].1 <= c[i].1 <==> (i < Leftover(c, quota, total) ==> c[i].1 > 0)
    {
      ThrottledAt(c, quota, total, |c|, i);
      ShareBelowUsage(c[i].1, quota, total);
    }
  }

  lemma {:induction false} NoShares(c: Usage, quota: U64, total: U64)
    requires total > 0 && forall i :: 0 <= i < |c| ==> Share(c[i].1, quota, total) == 0
    ensures Shares(c, quota, total) == 0
    decreases |c|
  {
    if c != [] {
      NoShares(c[..|c|-1], quota, total);
    }
  }

  lemma TotalSnoc(c: Usage, child: (InstanceId, U64))
    ensures Total(c + [child]) == Total(c) + child.1
  {
    assert (c + [child])[..|c|] == c;
  }

  /** An idle child first in line is given a unit it does not use. */
  lemma IdleChildInflated()
    ensures var c: Usage := [(1, 0), (2, 3), (3, 3)];
            Total(c) == 6 && Throttled(c, 1, 6, 3)[0] == (1, 1)
  {
    var c: Usage := [(1, 0), (2, 3), (3, 3)];
    TotalSnoc([], (1, 0));
    TotalSnoc([(1, 0)], (2, 3));
    TotalSnoc([(1, 0), (2, 3)], (3, 3));
    assert [] + [(1, 0)] == [(1, 0)] && [(1, 0)] + [(2, 3)] == [(1, 0), (2, 3)] && [(1, 0), (2, 3)] + [(3, 3)] == c;
    NoShares(c, 1, 6);
    ThrottledAt(c, 1, 6, 3, 0);
  }

  // ---- the algorithm ----

  method SaturatedTotal(c: Usage) returns (total: U64)
    ensures total == Min(Total(c), U64_MAX)
  {
    total := 0;
    for n := 0 to |c|
      invariant total == Min(Total(c[..n]), U64_MAX)
    {
      total := SatAdd(total, c[n].1);
      assert c[..n+1][..n] == c[..n];
    }
    assert c[..|c|] == c;
  }

  /** The floor pass: every child's share, and their sum in saturating 128-bit arithmetic. */
  method FloorShares(c: Usage, quota: U64, total: U64) returns (out: Usage, handedOut: U128)
    requires quota < total
    ensures |out| == |c|
    ensures forall i :: 0 <= i < |c| ==> out[i] == (c[i].0, Share(c[i].1, quota, total))
    ensures handedOut == Min(Shares(c, quota, total), U128_MAX)
  {
    out, handedOut := [], 0;
    for n := 0 to |c|
      invariant |out| == n
      invariant forall i :: 0 <= i < n ==> out[i] == (c[i].0, Share(c[i].1, quota, total))
      invariant handedOut == Min(Shares(c[..n], quota, total), U128_MAX)
    {
      var (id, current) := c[n];
      ShareBelowUsage(current, quota, total);
      var scaled := current * quota / total;
      handedOut := SatAdd128(handedOut, scaled);
      out := out + [(id, Min(scaled, U64_MAX))];
      assert c[..n+1][..n] == c[..n];
    }
    assert c[..|c|] == c;
  }

  /** The increment pass: one more unit for each of the first `Leftover` children. */
  method HandOutLeftover(c: Usage, quota: U64, total: U64, floors: Usage, left: U64) returns (out: Usage)
    requires quota < total && |floors| == |c| && left == Leftover(c, quota, total)
    requires forall i :: 0 <= i < |c| ==> floors[i] == (c[i].0, Share(c[i].1, quota, total))
    ensures out == Throttled(c, quota, total, |c|)
  {
    out := floors;
    var remainder, n := left, 0;
    while n < |out| && remainder > 0
      invariant n <= |out| == |c| && n + remainder == left
      invariant forall i :: 0 <= i < |c| ==> out[i] == (c[i].0, Share(c[i].1, quota, total) + if i < n then 1 else 0)
    {
      ShareBelowUsage(c[n].1, quota, total);
      out := out[n := (out[n].0, SatAdd(out[n].1, 1))];
      remainder := remainder - 1;
      n := n + 1;
    }
    forall i | 0 <= i < |c| ensures out[i] == Throttled(c, quota, total, |c|)[i] {
      ThrottledAt(c, quota, total, |c|, i);
    }
  }

  method ApplyQuotaReduction(policy: QuotaReductionPolicy, newQuota: U64, children: Usage)
      returns (r: Result<Usage, QuotaError>)
    ensures policy.Reject? ==>
              r == if Min(Total(children), U64_MAX) > newQuota
                   then Err(WouldViolateChildren(Min(Total(children), U64_MAX), newQuota)) else Ok(children)
    ensures policy.GrandfatherExisting? ==> r == Ok(children)
    ensures policy.ThrottleProportional? ==>
              r == if newQuota >= Min(Total(children), U64_MAX) then Ok(children)
                   else Ok(Throttled(children, newQuota, Min(Total(children), U64_MAX), |children|))
  {
    var total := SaturatedTotal(children);
    match policy
    case Reject =>
      if total > newQuota {
        r := Err(WouldViolateChildren(total, newQuota));
      } else {
        r := Ok(children);
      }
    case GrandfatherExisting => r := Ok(children);
    case ThrottleProportional =>
      if children == [] || total == 0 || newQuota >= total {
        return Ok(children);
      }
      var floors, handedOut := FloorShares(children, newQuota, total);
      var left := if handedOut <= newQuota then newQuota - handedOut else 0;
      var out := HandOutLeftover(children, newQuota, total, floors, left);
      r := Ok(out);
  }
}
