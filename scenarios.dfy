/**
 Worked runs of the simulation with small parameters, followed one arrival at a
 time through the helper lemmas below.

 The parameters, the start index and the intermediate pools are passed in and
 pinned by `requires` equalities (`requires maxLoad == 5 && users == 3`) rather
 than written as literals. Given a call such as `RunFrom(p, 0, 3, 5)` with
 literal arguments, the verifier evaluates the recursive functions eagerly, all
 the way down, inside a single proof, which is far too costly. With parameters,
 each lemma unfolds one arrival, and the next lemma picks up from the pool it
 names.
 */
module Scenarios {
  import opened Assignment
  import opened Rebalancer
  import opened Simulation

  /** An arrival that leaves every server within the threshold only records
      the placement on server `t`, the first one with the least load. */
  lemma QuietArrival(p: Pool, u: nat, n: nat, maxLoad: int, t: nat, q: Pool)
    requires |p.loads| > 0 && |p.loads| == |p.positions| && t < |p.loads|
    requires forall s :: 0 <= s < |p.loads| ==> p.loads[t] <= p.loads[s]
    requires forall s :: 0 <= s < t ==> p.loads[s] > p.loads[t]
    requires forall s :: 0 <= s < |p.loads| ==> p.loads[s] + (if s == t then 1 else 0) <= maxLoad
    requires q == Pool(p.loads[t := p.loads[t] + 1], p.positions, p.log + [Connection(u, t)])
    ensures AfterArrival(p, u, n, maxLoad) == q
  {
    LeastLoadedUnique(p.loads, t);
  }

  /** An arrival that pushes server `t`, the first one with the least load,
      above the threshold ends in a redistribution over one more server. */
  lemma LoudArrival(p: Pool, u: nat, n: nat, maxLoad: int, t: nat, q: Pool)
    requires |p.loads| > 0 && |p.loads| == |p.positions| && t < |p.loads|
    requires forall s :: 0 <= s < |p.loads| ==> p.loads[t] <= p.loads[s]
    requires forall s :: 0 <= s < t ==> p.loads[s] > p.loads[t]
    requires p.loads[t] + 1 > maxLoad
    requires q == AfterRedistribution(WithNewServer(AfterPlacement(p, u)), n)
    ensures AfterArrival(p, u, n, maxLoad) == q
  {
    LeastLoadedUnique(p.loads, t);
  }

  /** The run moves from one pool to the next one arrival at a time. */
  lemma RunStep(p: Pool, i: nat, n: nat, maxLoad: int, q: Pool)
    requires |p.loads| > 0 && |p.loads| == |p.positions| && i < n
    requires AfterArrival(p, i, n, maxLoad) == q
    ensures RunFrom(p, i, n, maxLoad) == RunFrom(q, i + 1, n, maxLoad)
  {
  }

  /** A quiet arrival, as one step of the run. */
  lemma QuietStep(p: Pool, i: nat, n: nat, maxLoad: int, t: nat, q: Pool)
    requires |p.loads| > 0 && |p.loads| == |p.positions| && t < |p.loads| && i < n
    requires forall s :: 0 <= s < |p.loads| ==> p.loads[t] <= p.loads[s]
    requires forall s :: 0 <= s < t ==> p.loads[s] > p.loads[t]
    requires forall s :: 0 <= s < |p.loads| ==> p.loads[s] + (if s == t then 1 else 0) <= maxLoad
    requires q == Pool(p.loads[t := p.loads[t] + 1], p.positions, p.log + [Connection(i, t)])
    ensures RunFrom(p, i, n, maxLoad) == RunFrom(q, i + 1, n, maxLoad)
  {
    QuietArrival(p, i, n, maxLoad, t, q);
    RunStep(p, i, n, maxLoad, q);
  }

  /** The run is over once every user has arrived. */
  lemma RunEnd(p: Pool, n: nat, maxLoad: int)
    requires |p.loads| == |p.positions|
    ensures RunFrom(p, n, n, maxLoad) == p
  {
  }

  /** On a lone server at x = 150, an arrival that keeps its load within the
      threshold only records the connection. */
  lemma LoneQuietStep(maxLoad: int, users: nat, i: nat, p: Pool, q: Pool)
    requires i < users && i + 1 <= maxLoad
    requires p.loads == [i] && p.positions == [Point(150, 100)]
    requires q == Pool([i + 1], p.positions, p.log + [Connection(i, 0)])
    ensures RunFrom(p, i, users, maxLoad) == RunFrom(q, i + 1, users, maxLoad)
  {
    QuietStep(p, i, users, maxLoad, 0, q);
  }

  /** The first three arrivals on a lone server, when MAX_LOAD is at least 3. */
  lemma LonePrefix(maxLoad: int, users: nat, i: nat, p0: Pool, p1: Pool, p2: Pool, p3: Pool)
    requires 3 <= maxLoad && i == 0 && 3 < users
    requires p0 == Pool([0], [Point(150, 100)], [])
    requires p1 == Pool([1], [Point(150, 100)], [Connection(0, 0)])
    requires p2 == Pool([2], [Point(150, 100)], [Connection(0, 0), Connection(1, 0)])
    requires p3 == Pool([3], [Point(150, 100)], [Connection(0, 0), Connection(1, 0), Connection(2, 0)])
    ensures RunFrom(p0, i, users, maxLoad) == RunFrom(p3, 3, users, maxLoad)
  {
    LoneQuietStep(maxLoad, users, i, p0, p1);
    LoneQuietStep(maxLoad, users, 1, p1, p2);
    LoneQuietStep(maxLoad, users, 2, p2, p3);
  }

  // The one-server run with MAX_LOAD 3 and four users, arrival by arrival.

  /** The fourth arrival overloads server 0: a server is added at x = 240 and
      the four users are spread (2, 2) and reconnected round-robin. */
  lemma SingleFourth(maxLoad: int, users: nat, p: Pool, q: Pool)
    requires maxLoad == 3 && users == 4
    requires p == Pool([3], [Point(150, 100)], [Connection(0, 0), Connection(1, 0), Connection(2, 0)])
    requires q == Pool([2, 2], [Point(150, 100), Point(240, 100)],
                       [Connection(0, 0), Connection(1, 0), Connection(2, 0), Connection(3, 0),
                        Connection(0, 0), Connection(1, 1), Connection(2, 0), Connection(3, 1)])
    ensures RunFrom(p, 3, users, maxLoad) == RunFrom(q, 4, users, maxLoad)
  {
    var placed := Pool([4], [Point(150, 100)], p.log + [Connection(3, 0)]);
    assert AfterPlacement(p, 3) == placed;
    var grown := WithNewServer(placed);
    assert grown.positions == [Point(150, 100), Point(240, 100)];
    assert Balanced(users, 2) == [2, 2];
    assert RoundRobin(users, 2) == [Connection(0, 0), Connection(1, 1), Connection(2, 0), Connection(3, 1)];
    LoudArrival(p, 3, users, maxLoad, 0, q);
    RunStep(p, 3, users, maxLoad, q);
  }

  /** The whole one-server run, from the initial pool to the final one. */
  lemma SingleRun(maxLoad: int, users: nat, i: nat, p0: Pool, p1: Pool, p2: Pool, p3: Pool, p4: Pool)
    requires maxLoad == 3 && i == 0 && users == 4
    requires p0 == Pool([0], [Point(150, 100)], [])
    requires p1 == Pool([1], [Point(150, 100)], [Connection(0, 0)])
    requires p2 == Pool([2], [Point(150, 100)], [Connection(0, 0), Connection(1, 0)])
    requires p3 == Pool([3], [Point(150, 100)], [Connection(0, 0), Connection(1, 0), Connection(2, 0)])
    requires p4 == Pool([2, 2], [Point(150, 100), Point(240, 100)],
                        [Connection(0, 0), Connection(1, 0), Connection(2, 0), Connection(3, 0),
                         Connection(0, 0), Connection(1, 1), Connection(2, 0), Connection(3, 1)])
    ensures RunFrom(p0, i, users, maxLoad) == p4
  {
    LonePrefix(maxLoad, users, i, p0, p1, p2, p3);
    SingleFourth(maxLoad, users, p3, p4);
    RunEnd(p4, users, maxLoad);
  }

  /** One server, four users, MAX_LOAD 3: server 0 reaches 1, 2, 3, 4; the fourth
      placement overloads it, a second server is added and the loads become
      (2, 2); every user is then reconnected round-robin. */
  lemma SingleServerRun(maxLoad: int, servers: nat, users: nat)
    requires maxLoad == 3 && servers == 1 && users == 4
    ensures Simulate(maxLoad, servers, users) == Some(Pool(
              [2, 2],
              [Point(150, 100), Point(240, 100)],
              [Connection(0, 0), Connection(1, 0), Connection(2, 0), Connection(3, 0),
               Connection(0, 0), Connection(1, 1), Connection(2, 0), Connection(3, 1)]))
  {
    var at := [Point(150, 100)];
    var p0 := Initial(servers);
    assert p0 == Pool([0], at, []);
    SingleRun(maxLoad, users, 0, p0, Pool([1], at, [Connection(0, 0)]),
              Pool([2], at, [Connection(0, 0), Connection(1, 0)]),
              Pool([3], at, [Connection(0, 0), Connection(1, 0), Connection(2, 0)]),
              Pool([2, 2], [Point(150, 100), Point(240, 100)],
                   [Connection(0, 0), Connection(1, 0), Connection(2, 0), Connection(3, 0),
                    Connection(0, 0), Connection(1, 1), Connection(2, 0), Connection(3, 1)]));
  }

  // The two-server run with MAX_LOAD 5 and three users, arrival by arrival.

  lemma PairFirst(maxLoad: int, users: nat, i: nat, p: Pool, q: Pool)
    requires maxLoad == 5 && i == 0 && users == 3
    requires p == Pool([0, 0], [Point(150, 100), Point(300, 100)], [])
    requires q == Pool([1, 0], [Point(150, 100), Point(300, 100)], [Connection(0, 0)])
    ensures RunFrom(p, i, users, maxLoad) == RunFrom(q, i + 1, users, maxLoad)
  {
    QuietStep(p, i, users, maxLoad, 0, q);
  }

  /** The second user goes to server 1, the only one with the least load. */
  lemma PairSecond(maxLoad: int, users: nat, p: Pool, q: Pool)
    requires maxLoad == 5 && users == 3
    requires p == Pool([1, 0], [Point(150, 100), Point(300, 100)], [Connection(0, 0)])
    requires q == Pool([1, 1], [Point(150, 100), Point(300, 100)], [Connection(0, 0), Connection(1, 1)])
    ensures RunFrom(p, 1, users, maxLoad) == RunFrom(q, 2, users, maxLoad)
  {
    QuietStep(p, 1, users, maxLoad, 1, q);
  }

  /** The third user meets a tie and goes to the lower index, server 0; the run
      is then over. */
  lemma PairThird(maxLoad: int, users: nat, p: Pool, q: Pool)
    requires maxLoad == 5 && users == 3
    requires p == Pool([1, 1], [Point(150, 100), Point(300, 100)], [Connection(0, 0), Connection(1, 1)])
    requires q == Pool([2, 1], [Point(150, 100), Point(300, 100)],
                       [Connection(0, 0), Connection(1, 1), Connection(2, 0)])
    ensures RunFrom(p, 2, users, maxLoad) == q
  {
    QuietStep(p, 2, users, maxLoad, 0, q);
    RunEnd(q, users, maxLoad);
  }

  /** The first two arrivals on the two-server pool. */
  lemma PairPrefix(maxLoad: int, users: nat, i: nat, p0: Pool, p1: Pool, p2: Pool)
    requires maxLoad == 5 && i == 0 && users == 3
    requires p0 == Pool([0, 0], [Point(150, 100), Point(300, 100)], [])
    requires p1 == Pool([1, 0], [Point(150, 100), Point(300, 100)], [Connection(0, 0)])
    requires p2 == Pool([1, 1], [Point(150, 100), Point(300, 100)], [Connection(0, 0), Connection(1, 1)])
    ensures RunFrom(p0, i, users, maxLoad) == RunFrom(p2, 2, users, maxLoad)
  {
    PairFirst(maxLoad, users, i, p0, p1);
    PairSecond(maxLoad, users, p1, p2);
  }

  /** The whole two-server run, from the initial pool to the final one. */
  lemma PairRun(maxLoad: int, users: nat, i: nat, p0: Pool, p1: Pool, p2: Pool, p3: Pool)
    requires maxLoad == 5 && i == 0 && users == 3
    requires p0 == Pool([0, 0], [Point(150, 100), Point(300, 100)], [])
    requires p1 == Pool([1, 0], [Point(150, 100), Point(300, 100)], [Connection(0, 0)])
    requires p2 == Pool([1, 1], [Point(150, 100), Point(300, 100)], [Connection(0, 0), Connection(1, 1)])
    requires p3 == Pool([2, 1], [Point(150, 100), Point(300, 100)],
                        [Connection(0, 0), Connection(1, 1), Connection(2, 0)])
    ensures RunFrom(p0, i, users, maxLoad) == p3
  {
    PairPrefix(maxLoad, users, i, p0, p1, p2);
    PairThird(maxLoad, users, p2, p3);
  }

  /** Two servers, three users, MAX_LOAD 5: no overload, no new server, and the
      least-loaded rule with its lowest-index tie-break gives loads (2, 1). */
  lemma TwoServerRun(maxLoad: int, servers: nat, users: nat)
    requires maxLoad == 5 && servers == 2 && users == 3
    ensures Simulate(maxLoad, servers, users) == Some(Pool(
              [2, 1],
              [Point(150, 100), Point(300, 100)],
              [Connection(0, 0), Connection(1, 1), Connection(2, 0)]))
  {
    var at := [Point(150, 100), Point(300, 100)];
    var p0 := Initial(servers);
    assert p0 == Pool([0, 0], at, []);
    PairRun(maxLoad, users, 0, p0, Pool([1, 0], at, [Connection(0, 0)]),
            Pool([1, 1], at, [Connection(0, 0), Connection(1, 1)]),
            Pool([2, 1], at, [Connection(0, 0), Connection(1, 1), Connection(2, 0)]));
  }

  // One server, five users, MAX_LOAD 3: the redistribution after the fourth
  // arrival already counts user 4, who is then placed once more.

  /** The fourth arrival overloads server 0; the five users are spread (3, 2). */
  lemma ExcessFourth(maxLoad: int, users: nat, p: Pool, q: Pool)
    requires maxLoad == 3 && users == 5
    requires p == Pool([3], [Point(150, 100)], [Connection(0, 0), Connection(1, 0), Connection(2, 0)])
    requires q == Pool([3, 2], [Point(150, 100), Point(240, 100)],
                       [Connection(0, 0), Connection(1, 0), Connection(2, 0), Connection(3, 0),
                        Connection(0, 0), Connection(1, 1), Connection(2, 0), Connection(3, 1),
                        Connection(4, 0)])
    ensures RunFrom(p, 3, users, maxLoad) == RunFrom(q, 4, users, maxLoad)
  {
    var placed := Pool([4], [Point(150, 100)], p.log + [Connection(3, 0)]);
    assert AfterPlacement(p, 3) == placed;
    var grown := WithNewServer(placed);
    assert grown.positions == [Point(150, 100), Point(240, 100)];
    assert Balanced(users, 2) == [3, 2];
    assert RoundRobin(users, 2) ==
      [Connection(0, 0), Connection(1, 1), Connection(2, 0), Connection(3, 1), Connection(4, 0)];
    LoudArrival(p, 3, users, maxLoad, 0, q);
    RunStep(p, 3, users, maxLoad, q);
  }

  /** The fifth user goes to server 1, already counted by the redistribution. */
  lemma ExcessFifth(maxLoad: int, users: nat, p: Pool, q: Pool)
    requires maxLoad == 3 && users == 5
    requires p == Pool([3, 2], [Point(150, 100), Point(240, 100)],
                       [Connection(0, 0), Connection(1, 0), Connection(2, 0), Connection(3, 0),
                        Connection(0, 0), Connection(1, 1), Connection(2, 0), Connection(3, 1),
                        Connection(4, 0)])
    requires q == Pool([3, 3], [Point(150, 100), Point(240, 100)],
                       [Connection(0, 0), Connection(1, 0), Connection(2, 0), Connection(3, 0),
                        Connection(0, 0), Connection(1, 1), Connection(2, 0), Connection(3, 1),
                        Connection(4, 0), Connection(4, 1)])
    ensures RunFrom(p, 4, users, maxLoad) == RunFrom(q, 5, users, maxLoad)
  {
    QuietStep(p, 4, users, maxLoad, 1, q);
  }

  /** The whole five-user run, from the initial pool to the final one. */
  lemma ExcessRun(maxLoad: int, users: nat, i: nat, p0: Pool, p1: Pool, p2: Pool, p3: Pool, p4: Pool, p5: Pool)
    requires maxLoad == 3 && i == 0 && users == 5
    requires p0 == Pool([0], [Point(150, 100)], [])
    requires p1 == Pool([1], [Point(150, 100)], [Connection(0, 0)])
    requires p2 == Pool([2], [Point(150, 100)], [Connection(0, 0), Connection(1, 0)])
    requires p3 == Pool([3], [Point(150, 100)], [Connection(0, 0), Connection(1, 0), Connection(2, 0)])
    requires p4 == Pool([3, 2], [Point(150, 100), Point(240, 100)],
                        [Connection(0, 0), Connection(1, 0), Connection(2, 0), Connection(3, 0),
                         Connection(0, 0), Connection(1, 1), Connection(2, 0), Connection(3, 1),
                         Connection(4, 0)])
    requires p5 == Pool([3, 3], [Point(150, 100), Point(240, 100)],
                        [Connection(0, 0), Connection(1, 0), Connection(2, 0), Connection(3, 0),
                         Connection(0, 0), Connection(1, 1), Connection(2, 0), Connection(3, 1),
                         Connection(4, 0), Connection(4, 1)])
    ensures RunFrom(p0, i, users, maxLoad) == p5
  {
    LonePrefix(maxLoad, users, i, p0, p1, p2, p3);
    ExcessFourth(maxLoad, users, p3, p4);
    ExcessFifth(maxLoad, users, p4, p5);
    RunEnd(p5, users, maxLoad);
  }

  /** One server, five users, MAX_LOAD 3: the fourth arrival overloads server 0
      and the five users are spread (3, 2) over two servers; the fifth user, already
      counted, is then placed on server 1, so the loads end at (3, 3). */
  lemma ExcessServerRun(maxLoad: int, servers: nat, users: nat)
    requires maxLoad == 3 && servers == 1 && users == 5
    ensures Simulate(maxLoad, servers, users) == Some(Pool(
              [3, 3],
              [Point(150, 100), Point(240, 100)],
              [Connection(0, 0), Connection(1, 0), Connection(2, 0), Connection(3, 0),
               Connection(0, 0), Connection(1, 1), Connection(2, 0), Connection(3, 1),
               Connection(4, 0), Connection(4, 1)]))
  {
    var at := [Point(150, 100)];
    var p0 := Initial(servers);
    assert p0 == Pool([0], at, []);
    var p4 := Pool([3, 2], [Point(150, 100), Point(240, 100)],
                   [Connection(0, 0), Connection(1, 0), Connection(2, 0), Connection(3, 0),
                    Connection(0, 0), Connection(1, 1), Connection(2, 0), Connection(3, 1),
                    Connection(4, 0)]);
    var p5 := Pool([3, 3], [Point(150, 100), Point(240, 100)],
                   [Connection(0, 0), Connection(1, 0), Connection(2, 0), Connection(3, 0),
                    Connection(0, 0), Connection(1, 1), Connection(2, 0), Connection(3, 1),
                    Connection(4, 0), Connection(4, 1)]);
    ExcessRun(maxLoad, users, 0, p0, Pool([1], at, [Connection(0, 0)]),
              Pool([2], at, [Connection(0, 0), Connection(1, 0)]),
              Pool([3], at, [Connection(0, 0), Connection(1, 0), Connection(2, 0)]), p4, p5);
  }

  /** The pool that run ends in carries six units of load. In its log, the
      redistribution points users 0 .. 4 round-robin at servers 0 and 1, and user 4
      is then moved to server 1: two users point to server 0. */
  lemma LateArrivalMiscounts(users: nat, r: Pool)
    requires users == 5
    requires r == Pool([3, 3], [Point(150, 100), Point(240, 100)],
                       [Connection(0, 0), Connection(1, 0), Connection(2, 0), Connection(3, 0),
                        Connection(0, 0), Connection(1, 1), Connection(2, 0), Connection(3, 1),
                        Connection(4, 0), Connection(4, 1)])
    ensures Sum(r.loads) == users + 1 && r.loads[0] == 3
    ensures UsersOn(r.log, users, 0) == 2
  {
    var log := r.log;
    assert r.loads[..1] == [3];
    var placed := [Connection(0, 0), Connection(1, 0), Connection(2, 0), Connection(3, 0)];
    var spread := placed + RoundRobin(users, 2);
    assert RoundRobin(users, 2) ==
      [Connection(0, 0), Connection(1, 1), Connection(2, 0), Connection(3, 1), Connection(4, 0)];
    assert log == spread + [Connection(4, 1)];
    forall u | 0 <= u < 4
      ensures CurrentServer(log, u) == Some(u % 2)
    {
      CurrentAfterAppend(spread, Connection(4, 1), u);
      CurrentAfterRoundRobin(placed, users, 2, u);
    }
    CurrentAfterAppend(spread, Connection(4, 1), 4);
    assert CurrentServer(log, 0) == Some(0) && CurrentServer(log, 1) == Some(1);
    assert CurrentServer(log, 2) == Some(0) && CurrentServer(log, 3) == Some(1);
    assert UsersOn(log, 1, 0) == 1;
    assert UsersOn(log, 2, 0) == 1;
    assert UsersOn(log, 3, 0) == 2;
    assert UsersOn(log, 4, 0) == 2;
  }

  /** At the end of that run the total load is one more than the number of
      users, and server 0 carries a load of 3 while only users 0 and 2 point to
      it: load and users per server no longer agree. */
  lemma ExcessMiscounts(maxLoad: int, servers: nat, users: nat)
    requires maxLoad == 3 && servers == 1 && users == 5
    ensures Simulate(maxLoad, servers, users).Some?
    ensures var r := Simulate(maxLoad, servers, users).value;
            && |r.loads| == 2
            && Sum(r.loads) == users + 1
            && r.loads[0] == 3
            && UsersOn(r.log, users, 0) == 2
  {
    ExcessServerRun(maxLoad, servers, users);
    LateArrivalMiscounts(users, Simulate(maxLoad, servers, users).value);
  }

  /** A redistribution need not clear an overload: with MAX_LOAD 1 and three
      users, the second arrival overloads the lone server, and the even split
      over two servers is (2, 1), still above the threshold. The next check
      comes only with the next arrival. */
  lemma RebalanceCanStayOverloaded(maxLoad: int, users: nat, p: Pool)
    requires maxLoad == 1 && users == 3
    requires p == Pool([1], [Point(150, 100)], [Connection(0, 0)])
    ensures Triggers(p, 1, maxLoad)
    ensures AfterArrival(p, 1, users, maxLoad).loads == [2, 1]
    ensures Overloaded(AfterArrival(p, 1, users, maxLoad).loads, maxLoad)
  {
    assert AfterPlacement(p, 1).loads == [2];
    assert Balanced(users, 2) == [2, 1];
  }
}
