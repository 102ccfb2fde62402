/**
 The value-level view of the load-balancing simulation: the server pool (loads and
 canvas positions, two parallel lists), the append-only connection log, the
 least-loaded assignment policy, the overload detector and the provisioning of one
 more server.
 */
module Assignment {

  datatype Option<T> = None | Some(value: T)

  /** A canvas coordinate of a server node. */
  datatype Point = Point(x: int, y: int)

  /** One entry of the connection log: user `user` was linked to server `server`.
      The canvas line handle stored beside them is not modelled. */
  datatype Connection = Connection(user: nat, server: nat)

  /** The three lists the simulation mutates: `server_loads`, `server_positions`
      and `user_connections`. */
  datatype Pool = Pool(loads: seq<int>, positions: seq<Point>, log: seq<Connection>)

  /** The consistency every operation keeps, for a population of `users` users:
      the two server lists are parallel, loads are never negative, and every log
      entry names an existing user and an existing server. */
  predicate WellFormed(p: Pool, users: nat)
  {
    && |p.positions| == |p.loads|
    && (forall s :: 0 <= s < |p.loads| ==> p.loads[s] >= 0)
    && (forall k :: 0 <= k < |p.log| ==> p.log[k].user < users && p.log[k].server < |p.loads|)
  }

  /** Total load of a pool, summed from the last server backwards. */
  function Sum(s: seq<int>): int
  {
    if s == [] then 0 else Sum(s[..|s| - 1]) + s[|s| - 1]
  }

  lemma {:induction false} SumAppend(s: seq<int>, v: int)
    ensures Sum(s + [v]) == Sum(s) + v
  {
    assert (s + [v])[..|s|] == s;
  }

  /** Overwriting one load changes the total by exactly the difference. */
  lemma {:induction false} SumUpdate(s: seq<int>, i: nat, v: int)
    requires i < |s|
    ensures Sum(s[i := v]) == Sum(s) - s[i] + v
  {
    var last := |s| - 1;
    if i == last {
      assert s[i := v][..last] == s[..last];
    } else {
      assert s[i := v][..last] == s[..last][i := v];
      SumUpdate(s[..last], i, v);
    }
  }

  /** Python's `min` over a non-empty list of loads. */
  function MinOf(s: seq<int>): (m: int)
    requires |s| > 0
    ensures m in s
    ensures forall i :: 0 <= i < |s| ==> m <= s[i]
  {
    if |s| == 1 then s[0]
    else
      var rest := MinOf(s[1..]);
      if s[0] <= rest then s[0] else rest
  }

  /** Python's `max` over a non-empty list of loads. */
  function MaxOf(s: seq<int>): (m: int)
    requires |s| > 0
    ensures m in s
    ensures forall i :: 0 <= i < |s| ==> s[i] <= m
  {
    if |s| == 1 then s[0]
    else
      var rest := MaxOf(s[1..]);
      if s[0] >= rest then s[0] else rest
  }

  /** Python's `list.index`: the first position holding `v`. */
  function IndexOf(s: seq<int>, v: int): (i: nat)
    requires v in s
    ensures i < |s| && s[i] == v
    ensures forall j :: 0 <= j < i ==> s[j] != v
  {
    if s[0] == v then 0 else 1 + IndexOf(s[1..], v)
  }

  /** The server an arriving user is sent to: `server_loads.index(min(server_loads))`.
      It carries a minimum load and every server before it carries strictly more;
      when all loads are equal it is server 0. */
  function LeastLoaded(loads: seq<int>): (t: nat)
    requires |loads| > 0
    ensures t < |loads|
    ensures forall s :: 0 <= s < |loads| ==> loads[t] <= loads[s]
    ensures forall s :: 0 <= s < t ==> loads[s] > loads[t]
    ensures (forall s :: 0 <= s < |loads| ==> loads[s] == loads[0]) ==> t == 0
  {
    IndexOf(loads, MinOf(loads))
  }

  /** The two properties of LeastLoaded determine it: it is the only index that
      holds a minimum load with every earlier server loaded strictly more. */
  lemma LeastLoadedUnique(loads: seq<int>, t: nat)
    requires |loads| > 0
    ensures t == LeastLoaded(loads) <==>
              && t < |loads|
              && (forall s :: 0 <= s < |loads| ==> loads[t] <= loads[s])
              && (forall s :: 0 <= s < t ==> loads[s] > loads[t])
  {
  }

  /** The overload check `max(server_loads) > MAX_LOAD`: true exactly when some
      server carries strictly more than the threshold. */
  function Overloaded(loads: seq<int>, maxLoad: int): (b: bool)
    requires |loads| > 0
    ensures b <==> exists s :: 0 <= s < |loads| && loads[s] > maxLoad
  {
    MaxOf(loads) > maxLoad
  }

  /** The server user `u` currently points to: the server of the user's last
      entry in the append-only log, or None if the user was never connected. */
  function CurrentServer(log: seq<Connection>, u: nat): Option<nat>
  {
    if log == [] then None
    else if log[|log| - 1].user == u then Some(log[|log| - 1].server)
    else CurrentServer(log[..|log| - 1], u)
  }

  /** Appending an entry for user `c.user` makes it that user's current server and
      leaves every other user's current server alone. */
  lemma CurrentAfterAppend(log: seq<Connection>, c: Connection, u: nat)
    ensures CurrentServer(log + [c], u) == if c.user == u then Some(c.server) else CurrentServer(log, u)
  {
    assert (log + [c])[..|log|] == log;
  }

  /** One placement: user `u` is connected to the least-loaded server, whose
      load goes up by one. */
  function AfterPlacement(p: Pool, u: nat): (r: Pool)
    requires |p.loads| > 0
    ensures |r.loads| == |p.loads| && r.positions == p.positions
    ensures |r.log| == |p.log| + 1 && r.log[|p.log|].user == u
  {
    var t := LeastLoaded(p.loads);
    Pool(p.loads[t := p.loads[t] + 1], p.positions, p.log + [Connection(u, t)])
  }

  /** A placement touches only the chosen server's load, by exactly one, keeps
      the server count, logs one connection and raises the total load by one. */
  lemma PlacementEffect(p: Pool, u: nat, users: nat)
    requires |p.loads| > 0
    ensures var q, t := AfterPlacement(p, u), LeastLoaded(p.loads);
            && |q.loads| == |p.loads|
            && q.loads[t] == p.loads[t] + 1
            && (forall s :: 0 <= s < |p.loads| && s != t ==> q.loads[s] == p.loads[s])
            && q.positions == p.positions
            && q.log == p.log + [Connection(u, t)]
            && Sum(q.loads) == Sum(p.loads) + 1
            && (WellFormed(p, users) && u < users ==> WellFormed(q, users))
  {
    var t := LeastLoaded(p.loads);
    SumUpdate(p.loads, t, p.loads[t] + 1);
  }

  /** `add_server`: one more server with load 0, drawn at x = 100 + 140 times
      its index. */
  function WithNewServer(p: Pool): (r: Pool)
    ensures |r.loads| == |p.loads| + 1 && |r.positions| == |p.positions| + 1
    ensures r.log == p.log
  {
    Pool(p.loads + [0], p.positions + [Point(100 + |p.positions| * 140, 100)], p.log)
  }

  /** Adding a server grows the pool by exactly one idle server, leaves every
      existing load, the total load and the log alone, and keeps the pool
      consistent. */
  lemma NewServerEffect(p: Pool, users: nat)
    ensures var q := WithNewServer(p);
            && |q.loads| == |p.loads| + 1
            && q.loads[|p.loads|] == 0
            && q.loads[..|p.loads|] == p.loads
            && q.log == p.log
            && Sum(q.loads) == Sum(p.loads)
            && (WellFormed(p, users) ==> WellFormed(q, users))
  {
    SumAppend(p.loads, 0);
  }
}
