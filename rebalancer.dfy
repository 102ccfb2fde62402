/**
 `redistribute_users`: after a server has been added, every load is overwritten with
 an even split of the whole population and every user is reconnected round-robin.
 */
module Rebalancer {
  import opened Assignment

  /** The load server `s` receives when `n` users are split over `m` servers:
      `n div m`, plus one for each of the first `n mod m` servers. */
  function Share(n: nat, m: nat, s: int): nat
    requires m > 0
  {
    n / m + (if s < n % m then 1 else 0)
  }

  /** The overwritten load list for `n` users over `m` servers. */
  function Balanced(n: nat, m: nat): (b: seq<int>)
    requires m > 0
    ensures |b| == m && forall s :: 0 <= s < m ==> b[s] >= n / m
  {
    seq(m, s => Share(n, m, s))
  }

  /** The reconnection pass: user `i` is linked to server `i mod m`, in user order. */
  function RoundRobin(n: nat, m: nat): (r: seq<Connection>)
    requires m > 0
    ensures |r| == n && forall k :: 0 <= k < n ==> r[k].user == k && r[k].server < m
  {
    seq(n, i requires 0 <= i => Connection(i, i % m))
  }

  /** The pass for one more user is the pass before it plus that user's link. */
  lemma RoundRobinExtends(i: nat, m: nat)
    requires m > 0
    ensures RoundRobin(i + 1, m) == RoundRobin(i, m) + [Connection(i, i % m)]
  {
  }

  /** `redistribute_users` on a pool whose server count is taken from the
      position list, for a population of `n` users. */
  function AfterRedistribution(p: Pool, n: nat): (r: Pool)
    requires |p.positions| > 0 && |p.loads| == |p.positions|
    ensures |r.loads| == |p.loads| && r.positions == p.positions
    ensures |r.log| == |p.log| + n
  {
    var m := |p.positions|;
    Pool(Balanced(n, m), p.positions, p.log + RoundRobin(n, m))
  }

  /** The number of users below `n` whose current server is `s`. */
  function UsersOn(log: seq<Connection>, n: nat, s: nat): nat
  {
    if n == 0 then 0
    else UsersOn(log, n - 1, s) + (if CurrentServer(log, n - 1) == Some(s) then 1 else 0)
  }

  /** The number of users below `n` whose index leaves remainder `s` modulo `m`. */
  function ResidueCount(n: nat, m: nat, s: nat): nat
    requires m > 0
  {
    if n == 0 then 0
    else ResidueCount(n - 1, m, s) + (if (n - 1) % m == s then 1 else 0)
  }

  lemma {:induction false} MulAtLeast(k: int, m: int)
    requires k >= 1 && m > 0
    ensures k * m >= m
  {
    if k > 1 {
      MulAtLeast(k - 1, m);
      assert k * m == (k - 1) * m + m;
    }
  }

  /** Division is determined by quotient and remainder. */
  lemma DivModUnique(a: int, m: int, q: int, r: int)
    requires m > 0 && 0 <= r < m && a == q * m + r
    ensures a / m == q && a % m == r
  {
    var q', r' := a / m, a % m;
    assert a == q' * m + r';
    if q' < q {
      assert (q - q') * m == r' - r;
      MulAtLeast(q - q', m);
    } else if q < q' {
      assert (q' - q) * m == r - r';
      MulAtLeast(q' - q, m);
    }
  }

  /** How quotient and remainder move when the dividend grows by one. */
  lemma DivModStep(n: nat, m: nat)
    requires n > 0 && m > 0
    ensures (n - 1) % m + 1 < m ==> n / m == (n - 1) / m && n % m == (n - 1) % m + 1
    ensures (n - 1) % m + 1 == m ==> n / m == (n - 1) / m + 1 && n % m == 0
  {
    var q, r := (n - 1) / m, (n - 1) % m;
    assert n - 1 == q * m + r;
    if r + 1 < m {
      DivModUnique(n, m, q, r + 1);
    } else {
      DivModUnique(n, m, q + 1, 0);
    }
  }

  /** Among users `0 .. n-1`, exactly `Share(n, m, s)` have index `s` modulo `m`. */
  lemma {:induction false} ResidueCountIsShare(n: nat, m: nat, s: nat)
    requires s < m
    ensures ResidueCount(n, m, s) == Share(n, m, s)
  {
    if n > 0 {
      ResidueCountIsShare(n - 1, m, s);
      DivModStep(n, m);
    }
  }

  /** The first `k` balanced loads add up to `k * (n div m)` plus one for each of
      them inside the remainder. */
  lemma {:induction false} BalancedPrefixSum(n: nat, m: nat, k: nat)
    requires 0 < m && k <= m
    ensures Sum(Balanced(n, m)[..k]) == k * (n / m) + (if k < n % m then k else n % m)
  {
    if k > 0 {
      var b := Balanced(n, m);
      assert b[..k][..k - 1] == b[..k - 1];
      BalancedPrefixSum(n, m, k - 1);
    }
  }

  /** The balanced loads are non-negative, non-increasing by index, differ by at
      most one and add up to the whole population. */
  lemma BalancedIsPartition(n: nat, m: nat)
    requires m > 0
    ensures var b := Balanced(n, m);
            && |b| == m
            && (forall i :: 0 <= i < m ==> b[i] >= 0)
            && (forall i, j :: 0 <= i <= j < m ==> 0 <= b[i] - b[j] <= 1)
            && MaxOf(b) - MinOf(b) <= 1
            && Sum(b) == n
  {
    var b := Balanced(n, m);
    BalancedPrefixSum(n, m, m);
    assert b[..m] == b;
    assert n == m * (n / m) + n % m;
  }

  /** Appending the round-robin pass makes user `u < n` point to `u mod m` and
      leaves the current server of every other user as it was. */
  lemma {:induction false} CurrentAfterRoundRobin(log: seq<Connection>, n: nat, m: nat, u: nat)
    requires m > 0
    ensures CurrentServer(log + RoundRobin(n, m), u) ==
              if u < n then Some(u % m) else CurrentServer(log, u)
  {
    if n > 0 {
      var full := log + RoundRobin(n, m);
      assert full[..|full| - 1] == log + RoundRobin(n - 1, m);
      if u != n - 1 {
        CurrentAfterRoundRobin(log, n - 1, m, u);
      }
    } else {
      assert log + RoundRobin(n, m) == log;
    }
  }

  /** After the round-robin pass, the users below `k <= n` on server `s` are exactly
      those whose index leaves remainder `s`. */
  lemma {:induction false} UsersOnAfterRoundRobin(log: seq<Connection>, n: nat, m: nat, k: nat, s: nat)
    requires m > 0 && k <= n
    ensures UsersOn(log + RoundRobin(n, m), k, s) == ResidueCount(k, m, s)
  {
    if k > 0 {
      UsersOnAfterRoundRobin(log, n, m, k - 1, s);
      CurrentAfterRoundRobin(log, n, m, k - 1);
    }
  }

  /** Redistribution keeps the server count and positions, extends the log by
      one connection per user, and leaves a consistent pool whose loads are the
      even split of all `n` users: each load is `n div m` plus one for the
      first `n mod m` servers, they differ by at most one and sum to `n`. */
  lemma RedistributionBalances(p: Pool, n: nat)
    requires |p.positions| > 0 && |p.loads| == |p.positions|
    ensures var q, m := AfterRedistribution(p, n), |p.positions|;
            && |q.loads| == m
            && q.positions == p.positions
            && |q.log| == |p.log| + n
            && q.log[..|p.log|] == p.log
            && (forall s :: 0 <= s < m ==> q.loads[s] == n / m + (if s < n % m then 1 else 0))
            && (forall i, j :: 0 <= i < m && 0 <= j < m ==> q.loads[i] - q.loads[j] <= 1)
            && MaxOf(q.loads) - MinOf(q.loads) <= 1
            && Sum(q.loads) == n
            && (WellFormed(p, n) ==> WellFormed(q, n))
  {
    var q, m := AfterRedistribution(p, n), |p.positions|;
    BalancedIsPartition(n, m);
    assert q.log[..|p.log|] == p.log;
    if WellFormed(p, n) {
      forall k | 0 <= k < |q.log|
        ensures q.log[k].user < n && q.log[k].server < m
      {
        if k >= |p.log| {
          assert q.log[k] == RoundRobin(n, m)[k - |p.log|];
        }
      }
    }
  }

  /** After redistribution user `u < n` points to server `u mod m`, and the
      number of users pointing to each server is exactly that server's load. */
  lemma RedistributionReconnects(p: Pool, n: nat)
    requires |p.positions| > 0 && |p.loads| == |p.positions|
    ensures var q, m := AfterRedistribution(p, n), |p.positions|;
            && (forall u :: 0 <= u < n ==> CurrentServer(q.log, u) == Some(u % m))
            && (forall s :: 0 <= s < m ==> UsersOn(q.log, n, s) == q.loads[s])
  {
    var q, m := AfterRedistribution(p, n), |p.positions|;
    forall u | 0 <= u < n
      ensures CurrentServer(q.log, u) == Some(u % m)
    {
      CurrentAfterRoundRobin(p.log, n, m, u);
    }
    forall s | 0 <= s < m
      ensures UsersOn(q.log, n, s) == q.loads[s]
    {
      UsersOnAfterRoundRobin(p.log, n, m, n, s);
      ResidueCountIsShare(n, m, s);
    }
  }
}
