/**
 The simulation's module-level state as one object: the lists `server_loads`,
 `server_positions` and `user_connections`, the user list (kept by its length),
 and the parameters MAX_LOAD, INITIAL_SERVERS and TOTAL_USERS. Each method
 updates the fields the way the source's function mutates the lists, and is
 proved against the value-level functions of Assignment, Rebalancer and
 Simulation.
 */
module OverloadManager {
  import opened Assignment
  import opened Rebalancer
  import opened Simulation

  class Network {
    const maxLoad: int
    const initialServers: nat
    const totalUsers: nat

    var loads: seq<int>
    var positions: seq<Point>
    var connections: seq<Connection>
    /** The length of `user_nodes`; user coordinates are not modelled. */
    var userCount: nat

    /** The lists as one value. */
    function Snapshot(): Pool
      reads this
    {
      Pool(loads, positions, connections)
    }

    /** Parallel server lists, non-negative loads, and a log that names only
        existing users and servers. */
    ghost predicate Valid()
      reads this
    {
      WellFormed(Snapshot(), userCount)
    }

    /** The state before the first run: every list empty. */
    constructor (maxLoad: int, initialServers: nat, totalUsers: nat)
      ensures this.maxLoad == maxLoad && this.initialServers == initialServers
      ensures this.totalUsers == totalUsers
      ensures Valid() && Snapshot() == Pool([], [], []) && userCount == 0
    {
      this.maxLoad := maxLoad;
      this.initialServers := initialServers;
      this.totalUsers := totalUsers;
      loads, positions, connections := [], [], [];
      userCount := 0;
    }

    /** `connect_user_to_server`: append one entry to the connection log. */
    method ConnectUserToServer(u: nat, s: nat)
      requires Valid() && u < userCount && s < |positions|
      modifies this`connections
      ensures Valid()
      ensures connections == old(connections) + [Connection(u, s)]
    {
      connections := connections + [Connection(u, s)];
    }

    /** `add_server`: append one position and one zero load. */
    method AddServer()
      requires Valid()
      modifies this`loads, this`positions
      ensures Valid()
      ensures Snapshot() == WithNewServer(old(Snapshot()))
    {
      NewServerEffect(Snapshot(), userCount);
      var newX := 100 + |positions| * 140;
      positions := positions + [Point(newX, 100)];
      loads := loads + [0];
    }

    /** `redistribute_users`: overwrite every load with the even split of the
        whole population, then reconnect user `i` to server `i mod M`. */
    method RedistributeUsers()
      requires Valid() && |positions| > 0
      modifies this`loads, this`connections
      ensures Valid()
      ensures Snapshot() == AfterRedistribution(old(Snapshot()), userCount)
    {
      var allUsers := userCount;
      var numServers := |positions|;
      var perServer := allUsers / numServers;
      var remainder := allUsers % numServers;

      for i := 0 to |loads|
        invariant |loads| == numServers && connections == old(connections)
        invariant forall s :: 0 <= s < i ==> loads[s] == Share(allUsers, numServers, s)
      {
        loads := loads[i := perServer + (if i < remainder then 1 else 0)];
      }
      assert loads == Balanced(allUsers, numServers);

      for i := 0 to allUsers
        invariant Valid() && loads == Balanced(allUsers, numServers)
        invariant connections == old(connections) + RoundRobin(i, numServers)
      {
        var newServer := i % numServers;
        RoundRobinExtends(i, numServers);
        ConnectUserToServer(i, newServer);
      }
    }

    /** One iteration of `run_simulation`'s placement loop: connect user `i`
        to the least-loaded server and bump its load; if some server is then
        above MAX_LOAD, add one server and redistribute everybody. */
    method PlaceUser(i: nat)
      requires Valid() && i < userCount && userCount == totalUsers && |loads| > 0
      modifies this`loads, this`positions, this`connections
      ensures Valid()
      ensures Snapshot() == AfterArrival(old(Snapshot()), i, totalUsers, maxLoad)
    {
      ghost var placed := AfterPlacement(Snapshot(), i);
      PlacementEffect(Snapshot(), i, userCount);
      var target := LeastLoaded(loads);
      ConnectUserToServer(i, target);
      loads := loads[target := loads[target] + 1];
      assert Snapshot() == placed;
      if Overloaded(loads, maxLoad) {
        AddServer();
        RedistributeUsers();
      }
    }

    /** `run_simulation`: reset every list, create the initial servers and the
        users, then place the users one at a time, adding a server and
        redistributing whenever a placement leaves some server overloaded.
        The outcome depends only on the parameters, whatever the state before.
        `ok` is false when users arrive at an empty pool, where the source's
        `min` raises; the state is then the reset one. */
    method RunSimulation() returns (ok: bool)
      modifies this
      ensures Valid() && userCount == totalUsers
      ensures Simulate(maxLoad, initialServers, totalUsers) == if ok then Some(Snapshot()) else None
      ensures !ok ==> Snapshot() == Initial(0)
    {
      loads, positions, connections := [], [], [];
      userCount := 0;

      for i := 0 to initialServers
        invariant Snapshot() == Initial(i) && userCount == 0
      {
        positions := positions + [Point(150 + i * 150, 100)];
        loads := loads + [0];
      }
      userCount := totalUsers;

      ghost var outcome := Simulate(maxLoad, initialServers, totalUsers);
      for i := 0 to totalUsers
        invariant Valid() && userCount == totalUsers
        invariant i == 0 ==> Snapshot() == Initial(initialServers)
        invariant i > 0 ==> |loads| > 0 && outcome == Some(RunFrom(Snapshot(), i, totalUsers, maxLoad))
      {
        if |loads| == 0 {
          return false;
        }
        PlaceUser(i);
      }
      ok := true;
    }
  }
}
