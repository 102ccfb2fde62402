/**
 The driver of `run_simulation` as functions on values: reset, create the initial
 servers, then place users one at a time, checking for overload after each
 placement and rebalancing at most once per placement.
 */
module Simulation {
  import opened Assignment
  import opened Rebalancer

  /** The pool `run_simulation` builds before placing anyone: `servers` idle
      servers at x = 150 + 150 times their index, and an empty log. */
  function Initial(servers: nat): (r: Pool)
    ensures |r.loads| == servers && |r.positions| == servers && r.log == []
    ensures forall s :: 0 <= s < servers ==> r.loads[s] == 0
  {
    Pool(seq(servers, _ => 0), seq(servers, i => Point(150 + i * 150, 100)), [])
  }

  /** Whether placing user `u` leaves some server above the threshold. */
  predicate Triggers(p: Pool, u: nat, maxLoad: int)
    requires |p.loads| > 0
  {
    Overloaded(AfterPlacement(p, u).loads, maxLoad)
  }

  /** One iteration of the placement loop, for a population of `n` users:
      place user `u`; on overload add one server and redistribute everybody.
      The pool never shrinks. */
  function AfterArrival(p: Pool, u: nat, n: nat, maxLoad: int): (r: Pool)
    requires |p.loads| > 0 && |p.loads| == |p.positions|
    ensures |r.loads| == |r.positions| && |r.loads| >= |p.loads|
  {
    var q := AfterPlacement(p, u);
    if Overloaded(q.loads, maxLoad) then AfterRedistribution(WithNewServer(q), n) else q
  }

  /** The rest of the run: users `i .. n-1` arrive in order. */
  function RunFrom(p: Pool, i: nat, n: nat, maxLoad: int): (r: Pool)
    requires |p.loads| == |p.positions| && (i < n ==> |p.loads| > 0)
    ensures |r.loads| == |r.positions| && |r.loads| >= |p.loads|
    decreases n - i
  {
    if i >= n then p
    else RunFrom(AfterArrival(p, i, n, maxLoad), i + 1, n, maxLoad)
  }

  /** How many of the arrivals `i .. n-1` cause an overload event. */
  function OverloadsFrom(p: Pool, i: nat, n: nat, maxLoad: int): nat
    requires |p.loads| == |p.positions| && (i < n ==> |p.loads| > 0)
    decreases n - i
  {
    if i >= n then 0
    else
      (if Triggers(p, i, maxLoad) then 1 else 0)
      + OverloadsFrom(AfterArrival(p, i, n, maxLoad), i + 1, n, maxLoad)
  }

  /** The last user among `i .. n-1` whose arrival causes an overload event. */
  function LastOverload(p: Pool, i: nat, n: nat, maxLoad: int): Option<nat>
    requires |p.loads| == |p.positions| && (i < n ==> |p.loads| > 0)
    decreases n - i
  {
    if i >= n then None
    else
      var later := LastOverload(AfterArrival(p, i, n, maxLoad), i + 1, n, maxLoad);
      if later.Some? then later
      else if Triggers(p, i, maxLoad) then Some(i)
      else None
  }

  /** A whole run: `maxLoad`, `servers` and `users` play MAX_LOAD,
      INITIAL_SERVERS and TOTAL_USERS. None when the first `min` is taken over
      an empty pool, which raises in the source. */
  function Simulate(maxLoad: int, servers: nat, users: nat): (r: Option<Pool>)
    ensures r.Some? <==> (servers > 0 || users == 0)
  {
    if servers == 0 && users > 0 then None
    else Some(RunFrom(Initial(servers), 0, users, maxLoad))
  }

  /** One arrival adds a server exactly when it triggers an overload, and the
      log gains the placement plus, on overload, one entry per user. */
  lemma ArrivalEffect(p: Pool, u: nat, n: nat, maxLoad: int)
    requires |p.loads| > 0 && |p.loads| == |p.positions|
    ensures var r, hit := AfterArrival(p, u, n, maxLoad), Triggers(p, u, maxLoad);
            && |r.loads| == |p.loads| + (if hit then 1 else 0)
            && |r.log| == |p.log| + 1 + (if hit then n else 0)
  {
    if Triggers(p, u, maxLoad) {
      RedistributionBalances(WithNewServer(AfterPlacement(p, u)), n);
    }
  }

  /** One arrival keeps every log entry it found. */
  lemma ArrivalKeepsLog(p: Pool, u: nat, n: nat, maxLoad: int)
    requires |p.loads| > 0 && |p.loads| == |p.positions|
    ensures var r := AfterArrival(p, u, n, maxLoad);
            |r.log| > |p.log| && r.log[..|p.log|] == p.log
  {
    var q := AfterPlacement(p, u);
    assert q.log[..|p.log|] == p.log;
    if Triggers(p, u, maxLoad) {
      RedistributionBalances(WithNewServer(q), n);
    }
  }

  /** One arrival sets the total load to the population when it triggers an
      overload and otherwise raises it by one; it keeps the pool consistent. */
  lemma ArrivalLoad(p: Pool, u: nat, n: nat, maxLoad: int)
    requires |p.loads| > 0 && |p.loads| == |p.positions|
    ensures var r, hit := AfterArrival(p, u, n, maxLoad), Triggers(p, u, maxLoad);
            && Sum(r.loads) == (if hit then n else Sum(p.loads) + 1)
            && (WellFormed(p, n) && u < n ==> WellFormed(r, n))
  {
    var q := AfterPlacement(p, u);
    PlacementEffect(p, u, n);
    if Triggers(p, u, maxLoad) {
      NewServerEffect(q, n);
      RedistributionBalances(WithNewServer(q), n);
    }
  }

  /** One step of a run: the first remaining arrival, then the rest. */
  lemma RunUnfold(p: Pool, i: nat, n: nat, maxLoad: int)
    requires |p.loads| == |p.positions| && |p.loads| > 0 && i < n
    ensures var q := AfterArrival(p, i, n, maxLoad);
            && RunFrom(p, i, n, maxLoad) == RunFrom(q, i + 1, n, maxLoad)
            && OverloadsFrom(p, i, n, maxLoad) ==
                 (if Triggers(p, i, maxLoad) then 1 else 0) + OverloadsFrom(q, i + 1, n, maxLoad)
  {
  }

  /** A run with no arrivals left leaves the pool as it is. */
  lemma RunDone(p: Pool, i: nat, n: nat, maxLoad: int)
    requires |p.loads| == |p.positions| && i >= n
    ensures RunFrom(p, i, n, maxLoad) == p
    ensures OverloadsFrom(p, i, n, maxLoad) == 0 && LastOverload(p, i, n, maxLoad) == None
  {
  }

  /** The server count at the end is the starting count plus the number of
      overload events: each event adds exactly one server. */
  lemma {:induction false} RunGrowsPool(p: Pool, i: nat, n: nat, maxLoad: int)
    requires |p.loads| == |p.positions| && (i < n ==> |p.loads| > 0)
    ensures |RunFrom(p, i, n, maxLoad).loads| == |p.loads| + OverloadsFrom(p, i, n, maxLoad)
    decreases n - i
  {
    if i < n {
      RunUnfold(p, i, n, maxLoad);
      ArrivalEffect(p, i, n, maxLoad);
      RunGrowsPool(AfterArrival(p, i, n, maxLoad), i + 1, n, maxLoad);
    } else {
      RunDone(p, i, n, maxLoad);
    }
  }

  /** A run keeps the pool consistent: loads stay non-negative and the log names
      only existing users and servers. */
  lemma {:induction false} RunStaysWellFormed(p: Pool, i: nat, n: nat, maxLoad: int)
    requires |p.loads| == |p.positions| && (i < n ==> |p.loads| > 0)
    requires WellFormed(p, n)
    ensures WellFormed(RunFrom(p, i, n, maxLoad), n)
    decreases n - i
  {
    if i < n {
      RunWellFormedStep(p, i, n, maxLoad);
      RunStaysWellFormed(AfterArrival(p, i, n, maxLoad), i + 1, n, maxLoad);
    } else {
      RunDone(p, i, n, maxLoad);
    }
  }

  /** One arrival's share of consistency: the arrival keeps the pool
      consistent, and if the rest of the run ends consistent, so does the run
      from this arrival. */
  lemma RunWellFormedStep(p: Pool, i: nat, n: nat, maxLoad: int)
    requires |p.loads| == |p.positions| && |p.loads| > 0 && i < n
    requires WellFormed(p, n)
    ensures var q := AfterArrival(p, i, n, maxLoad);
            && WellFormed(q, n)
            && (WellFormed(RunFrom(q, i + 1, n, maxLoad), n) ==> WellFormed(RunFrom(p, i, n, maxLoad), n))
  {
    ArrivalLoad(p, i, n, maxLoad);
    RunUnfold(p, i, n, maxLoad);
  }

  lemma Distribute(n: nat, a: nat, b: nat)
    ensures n * (a + b) == n * a + n * b
  {
  }

  /** The log-length bookkeeping of one arrival, as integers. */
  lemma LogArith(before: nat, after: nat, final: nat, n: nat, i: nat, hit: nat, e: nat, total: nat)
    requires hit <= 1 && i < n && total == hit + e
    requires after == before + 1 + (if hit == 1 then n else 0)
    requires final == after + (n - (i + 1)) + n * e
    ensures final == before + (n - i) + n * total
  {
    Distribute(n, hit, e);
    assert n * hit == (if hit == 1 then n else 0);
  }

  /** One arrival's share of the log length: if the rest of the run satisfies
      the count, so does the run from this arrival. */
  lemma RunLogStep(p: Pool, i: nat, n: nat, maxLoad: int)
    requires |p.loads| == |p.positions| && |p.loads| > 0 && i < n
    ensures var q := AfterArrival(p, i, n, maxLoad);
            |RunFrom(q, i + 1, n, maxLoad).log| == |q.log| + (n - (i + 1)) + n * OverloadsFrom(q, i + 1, n, maxLoad)
            ==> |RunFrom(p, i, n, maxLoad).log| == |p.log| + (n - i) + n * OverloadsFrom(p, i, n, maxLoad)
  {
    var q := AfterArrival(p, i, n, maxLoad);
    var hit: nat := if Triggers(p, i, maxLoad) then 1 else 0;
    RunUnfold(p, i, n, maxLoad);
    ArrivalEffect(p, i, n, maxLoad);
    var rest := RunFrom(q, i + 1, n, maxLoad);
    if |rest.log| == |q.log| + (n - (i + 1)) + n * OverloadsFrom(q, i + 1, n, maxLoad) {
      LogArith(|p.log|, |q.log|, |rest.log|, n, i, hit,
               OverloadsFrom(q, i + 1, n, maxLoad), OverloadsFrom(p, i, n, maxLoad));
    }
  }

  /** The log gains one entry per arrival plus one per user for each overload
      event. */
  lemma {:induction false} RunLogLength(p: Pool, i: nat, n: nat, maxLoad: int)
    requires |p.loads| == |p.positions| && (i < n ==> |p.loads| > 0) && i <= n
    ensures |RunFrom(p, i, n, maxLoad).log| == |p.log| + (n - i) + n * OverloadsFrom(p, i, n, maxLoad)
    decreases n - i
  {
    if i < n {
      RunLogStep(p, i, n, maxLoad);
      RunLogLength(AfterArrival(p, i, n, maxLoad), i + 1, n, maxLoad);
    } else {
      RunDone(p, i, n, maxLoad);
    }
  }

  /** The log is append-only: a run keeps every entry it started with. */
  lemma {:induction false} RunKeepsLog(p: Pool, i: nat, n: nat, maxLoad: int)
    requires |p.loads| == |p.positions| && (i < n ==> |p.loads| > 0)
    ensures var r := RunFrom(p, i, n, maxLoad);
            |r.log| >= |p.log| && r.log[..|p.log|] == p.log
    decreases n - i
  {
    if i < n {
      var q := AfterArrival(p, i, n, maxLoad);
      RunUnfold(p, i, n, maxLoad);
      ArrivalKeepsLog(p, i, n, maxLoad);
      RunKeepsLog(q, i + 1, n, maxLoad);
      var r := RunFrom(q, i + 1, n, maxLoad);
      assert r.log[..|p.log|] == r.log[..|q.log|][..|p.log|];
    } else {
      RunDone(p, i, n, maxLoad);
    }
  }

  /** The total load at the end: without an overload event it is the starting
      total plus one per arrival; otherwise it is the whole population plus one
      per arrival after the last event, so it can exceed the population. */
  lemma {:induction false} RunLoadSum(p: Pool, i: nat, n: nat, maxLoad: int)
    requires |p.loads| == |p.positions| && (i < n ==> |p.loads| > 0) && i <= n
    ensures var last := LastOverload(p, i, n, maxLoad);
            && (last.None? <==> OverloadsFrom(p, i, n, maxLoad) == 0)
            && (last.Some? ==> i <= last.value < n)
            && Sum(RunFrom(p, i, n, maxLoad).loads) ==
                 if last.None? then Sum(p.loads) + (n - i) else n + (n - 1 - last.value)
  {
    RunReachesLoadSum(p, i, n, maxLoad);
  }

  lemma {:induction false} RunReachesLoadSum(p: Pool, i: nat, n: nat, maxLoad: int)
    requires |p.loads| == |p.positions| && (i < n ==> |p.loads| > 0) && i <= n
    ensures LoadSumAt(p, i, n, maxLoad)
    decreases n - i
  {
    if i < n {
      RunLoadStep(p, i, n, maxLoad);
      RunReachesLoadSum(AfterArrival(p, i, n, maxLoad), i + 1, n, maxLoad);
    } else {
      RunLoadDone(p, i, n, maxLoad);
    }
  }

  lemma RunLoadDone(p: Pool, i: nat, n: nat, maxLoad: int)
    requires |p.loads| == |p.positions| && i == n
    ensures LoadSumAt(p, i, n, maxLoad)
  {
    RunDone(p, i, n, maxLoad);
  }

  /** The final total of a run from user `i`, as `RunLoadSum` states it. */
  ghost predicate LoadSumAt(p: Pool, i: nat, n: nat, maxLoad: int)
    requires |p.loads| == |p.positions| && (i < n ==> |p.loads| > 0) && i <= n
  {
    var last := LastOverload(p, i, n, maxLoad);
    && (last.None? <==> OverloadsFrom(p, i, n, maxLoad) == 0)
    && (last.Some? ==> i <= last.value < n)
    && Sum(RunFrom(p, i, n, maxLoad).loads) ==
         if last.None? then Sum(p.loads) + (n - i) else n + (n - 1 - last.value)
  }

  /** One arrival's share of the final total: if the rest of the run ends with
      the stated total, so does the run from this arrival. */
  lemma RunLoadStep(p: Pool, i: nat, n: nat, maxLoad: int)
    requires |p.loads| == |p.positions| && |p.loads| > 0 && i < n
    ensures LoadSumAt(AfterArrival(p, i, n, maxLoad), i + 1, n, maxLoad) ==> LoadSumAt(p, i, n, maxLoad)
  {
    RunUnfold(p, i, n, maxLoad);
    ArrivalLoad(p, i, n, maxLoad);
  }

  lemma {:induction false} SumOfZeros(k: nat)
    ensures Sum(seq(k, _ => 0)) == 0
  {
    if k > 0 {
      assert seq(k, _ => 0)[..k - 1] == seq(k - 1, _ => 0);
      SumOfZeros(k - 1);
    }
  }

  /** A run fails exactly when users arrive at an empty pool. Otherwise it ends
      consistent, with `servers` plus one server per overload event, one log
      entry per placement plus one per user and event, and a total load of
      `users` when no overload occurred, or `users` plus the arrivals after the
      last overload event otherwise. */
  lemma SimulationOutcome(maxLoad: int, servers: nat, users: nat)
    ensures Simulate(maxLoad, servers, users).Some? <==> (servers > 0 || users == 0)
    ensures Simulate(maxLoad, servers, users).Some? ==>
              var p, i := Simulate(maxLoad, servers, users).value, Initial(servers);
              var e, last := OverloadsFrom(i, 0, users, maxLoad), LastOverload(i, 0, users, maxLoad);
              && WellFormed(p, users)
              && |p.loads| == servers + e
              && |p.log| == users + users * e
              && (e == 0 <==> last.None?)
              && Sum(p.loads) == users + (if e == 0 then 0 else users - 1 - last.value)
  {
    if servers > 0 || users == 0 {
      var i := Initial(servers);
      SumOfZeros(servers);
      RunStaysWellFormed(i, 0, users, maxLoad);
      RunGrowsPool(i, 0, users, maxLoad);
      RunLogLength(i, 0, users, maxLoad);
      RunLoadSum(i, 0, users, maxLoad);
    }
  }

  /** A list whose elements are all at most `m` adds up to at most `|s|` times `m`. */
  lemma {:induction false} SumBound(s: seq<int>, m: int)
    ensures (forall k :: 0 <= k < |s| ==> s[k] <= m) ==> Sum(s) <= |s| * m
  {
    if |s| > 0 && forall k :: 0 <= k < |s| ==> s[k] <= m {
      var init := s[..|s| - 1];
      SumBound(init, m);
      assert |s| * m == |init| * m + m;
    }
  }

  /** A run with no overload event ends with every load within the threshold:
      the last placement left no server above it. */
  lemma {:induction false} QuietRunBounded(p: Pool, i: nat, n: nat, maxLoad: int)
    requires |p.loads| == |p.positions| && |p.loads| > 0 && i < n
    ensures var r := RunFrom(p, i, n, maxLoad);
            OverloadsFrom(p, i, n, maxLoad) == 0 ==> forall s :: 0 <= s < |r.loads| ==> r.loads[s] <= maxLoad
    decreases n - i
  {
    var q := AfterArrival(p, i, n, maxLoad);
    assert RunFrom(p, i, n, maxLoad) == RunFrom(q, i + 1, n, maxLoad);
    if !Triggers(p, i, maxLoad) {
      assert OverloadsFrom(p, i, n, maxLoad) == OverloadsFrom(q, i + 1, n, maxLoad);
      if i + 1 < n {
        QuietRunBounded(q, i + 1, n, maxLoad);
      }
    }
  }

  /** A run from the initial pool with no overload event ends with the initial
      servers, a total load of one per user, and every load within the threshold. */
  lemma QuietOutcome(maxLoad: int, servers: nat, users: nat)
    requires servers > 0 && users > 0
    ensures var p := Initial(servers);
            var r := RunFrom(p, 0, users, maxLoad);
            OverloadsFrom(p, 0, users, maxLoad) == 0 ==>
              && |r.loads| == servers
              && Sum(r.loads) == users
              && forall s :: 0 <= s < |r.loads| ==> r.loads[s] <= maxLoad
  {
    var p := Initial(servers);
    SumOfZeros(servers);
    RunGrowsPool(p, 0, users, maxLoad);
    RunLoadSum(p, 0, users, maxLoad);
    QuietRunBounded(p, 0, users, maxLoad);
  }

  /** The pigeonhole principle of the program's title: when there are more users
      than the initial servers can hold at MAX_LOAD each, some arrival overloads a
      server, so the pool grows. */
  lemma Pigeonhole(maxLoad: int, servers: nat, users: nat)
    requires servers > 0 && users > 0 && users > servers * maxLoad
    ensures OverloadsFrom(Initial(servers), 0, users, maxLoad) >= 1
    ensures |Simulate(maxLoad, servers, users).value.loads| > servers
  {
    var p := Initial(servers);
    var r := RunFrom(p, 0, users, maxLoad);
    QuietOutcome(maxLoad, servers, users);
    SumBound(r.loads, maxLoad);
    RunGrowsPool(p, 0, users, maxLoad);
  }
}
