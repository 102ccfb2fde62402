# Network overload manager — a verified model

`serverRedistributor.py` simulates a pool of servers receiving users one at a time.
Each arriving user is connected to the least-loaded server, the first one by index
when several tie. After each placement the program checks whether any server is
above `MAX_LOAD`. If one is, it adds a server and redistributes the whole
population evenly: every load is overwritten with `N div M`, plus one for the first
`N mod M` servers, and user `i` is reconnected to server `i mod M`.

The model has five modules:

- `Assignment`: the pool as a value. It has the parallel lists of loads and
  positions, and the append-only connection log. It defines the least-loaded
  choice (`min` then `index`), the overload test (`max(...) > MAX_LOAD`), one
  placement, and `add_server`.
- `Rebalancer`: `redistribute_users` as a function, with the counting lemmas. They
  prove that the balanced loads partition the population and match the
  round-robin reconnection.
- `Simulation`: the placement/overload/rebalance loop of `run_simulation` as a
  forward recursion over the arriving users. It has lemmas on server growth,
  log growth, load totals and consistency. `MAX_LOAD`, `INITIAL_SERVERS` and
  `TOTAL_USERS` are parameters. `Simulation.Pigeonhole` proves the principle
  in the program's title: with more users than the initial servers can hold at
  `MAX_LOAD` each, some arrival overloads a server and the pool grows.
- `OverloadManager`: the module-level lists as a class, `Network`. Its methods
  update the fields the way the Python functions mutate the lists. Each method
  is proved to produce exactly the function of `Simulation`, `Rebalancer` or
  `Assignment` applied to the old state.
- `Scenarios`: worked runs, computed to the last log entry.

A run with `INITIAL_SERVERS = 0` and at least one user fails in the source. There,
`min` of an empty list raises. The model gives `None` (`Simulate`) or returns
`ok = false` (`Network.RunSimulation`).

A load balancer like this one would be expected to keep three things true. The
code departs from each of them, and the model follows the code:

- **Final total load.** One would expect it to equal the number of users. In
  the code, `redistribute_users` spreads *all* `TOTAL_USERS` users, including
  those that have not arrived yet. Every later arrival is then placed on top. So
  the final total is `N` plus the number of arrivals after the last rebalance.
  `Simulation.RunLoadSum` and `Simulation.SimulationOutcome` state this total.
  `Scenarios.ExcessServerRun` and `Scenarios.ExcessMiscounts` show six units of
  load for five users.
- **Connection log.** One would expect a redistribution to replace the earlier
  assignments. The code deletes only the drawn lines: `user_connections`
  keeps growing. The model keeps the log append-only. A user's current server is
  the one in its last entry.
- **Users per server.** One would expect the number of users pointing at a
  server to equal its load after every operation. In the code this holds right
  after a redistribution (`Rebalancer.RedistributionReconnects`). It no longer
  holds once later arrivals are placed: in `Scenarios.ExcessMiscounts` server 0
  carries a load of 3 while two users point to it.

## Model

| member | source | states |
|---|---|---|
| Assignment.MinOf | serverRedistributor.py:117 | `min(server_loads)` is one of the loads and no load is smaller |
| Assignment.MaxOf | serverRedistributor.py:125 | `max(server_loads)` is one of the loads and no load is larger |
| Assignment.IndexOf | serverRedistributor.py:117 | `list.index` returns a position holding the value, and no earlier position holds it |
| Assignment.LeastLoaded | serverRedistributor.py:117 | the target server is in range, has a minimum load, and every server before it is strictly more loaded; when all loads are equal it is server 0 |
| Assignment.LeastLoadedUnique | serverRedistributor.py:117 | an index is the chosen target if and only if it holds a minimum load and every earlier server is strictly more loaded |
| Assignment.Overloaded | serverRedistributor.py:125 | the overload test holds if and only if some server's load is strictly above MAX_LOAD |
| Assignment.CurrentAfterAppend | serverRedistributor.py:43-48 | appending a (user, server) entry makes that server the user's current one and leaves every other user's current server unchanged |
| Assignment.AfterPlacement | serverRedistributor.py:117-119 | one placement keeps the server count and positions and appends one log entry, for the arriving user |
| Assignment.PlacementEffect | serverRedistributor.py:116-119 | a placement raises only the target's load, by exactly 1; it keeps the server count and positions, appends one log entry, raises the total by 1 and keeps the pool consistent |
| Assignment.WithNewServer | serverRedistributor.py:57-62 | `add_server` adds one load and one position and leaves the log as it was |
| Assignment.NewServerEffect | serverRedistributor.py:57-62 | `add_server` adds exactly one server with load 0 and leaves the existing loads, the log and the total unchanged; the pool stays consistent |
| Rebalancer.Balanced | serverRedistributor.py:70-75 | the overwritten loads are one per server, each at least N div M |
| Rebalancer.RoundRobin | serverRedistributor.py:78-80 | the reconnection pass makes N entries; entry k names user k and a server below M |
| Rebalancer.AfterRedistribution | serverRedistributor.py:65-84 | `redistribute_users` keeps the server count and positions and appends N entries to the log |
| Rebalancer.RoundRobinExtends | serverRedistributor.py:78-80 | the reconnection pass over i+1 users is the pass over i users followed by user i's link to server i mod M |
| Rebalancer.ResidueCountIsShare | serverRedistributor.py:70-80 | among users 0..N-1, the number with index ≡ s (mod M) is N div M, plus 1 when s < N mod M |
| Rebalancer.BalancedPrefixSum | serverRedistributor.py:70-75 | the first k overwritten loads add up to k·(N div M) + min(k, N mod M) |
| Rebalancer.BalancedIsPartition | serverRedistributor.py:70-75 | the overwritten loads are non-negative and non-increasing by index; they differ by at most 1, max − min ≤ 1, and they sum to N |
| Rebalancer.CurrentAfterRoundRobin | serverRedistributor.py:78-80 | after the reconnection pass, user u < N points to server u mod M and every other user's current server is unchanged |
| Rebalancer.UsersOnAfterRoundRobin | serverRedistributor.py:78-80 | after the pass, the number of users below k pointing at server s is the number of indices below k that are ≡ s (mod M) |
| Rebalancer.RedistributionBalances | serverRedistributor.py:65-84 | `redistribute_users` keeps the server count and positions and appends N entries to the log; each load is N div M (+1 for the first N mod M servers), loads differ by at most 1, max − min ≤ 1, the sum is N, and the pool stays consistent |
| Rebalancer.RedistributionReconnects | serverRedistributor.py:65-84 | after `redistribute_users`, user u < N points to server u mod M, and the number of users pointing at each server equals its load |
| Simulation.Initial | serverRedistributor.py:101-104 | the set-up creates INITIAL_SERVERS servers, each with load 0, and an empty log |
| Simulation.RunFrom | serverRedistributor.py:116-131 | the placement loop keeps the lists parallel and never removes a server |
| Simulation.Simulate | serverRedistributor.py:94-131 | a run fails exactly when users arrive at an empty pool |
| Simulation.AfterArrival | serverRedistributor.py:116-131 | one iteration of the placement loop keeps the lists parallel and never removes a server |
| Simulation.ArrivalEffect | serverRedistributor.py:116-131 | one iteration adds a server exactly when the placement triggers an overload; the log gains 1 entry, plus N on an overload |
| Simulation.ArrivalKeepsLog | serverRedistributor.py:116-131 | one iteration grows the connection log and keeps every earlier entry |
| Simulation.ArrivalLoad | serverRedistributor.py:116-131 | one iteration sets the total load to N on an overload and otherwise raises it by 1; it keeps the pool consistent |
| Simulation.RunGrowsPool | serverRedistributor.py:116-131 | at the end of the loop the server count is the starting count plus the number of overload events |
| Simulation.RunStaysWellFormed | serverRedistributor.py:116-131 | the loop keeps the lists parallel, every load non-negative and every log entry naming an existing user and server |
| Simulation.RunLogLength | serverRedistributor.py:116-131 | the log gains one entry per arrival plus N per overload event |
| Simulation.RunKeepsLog | serverRedistributor.py:116-131 | the loop never removes or changes a log entry |
| Simulation.RunLoadSum | serverRedistributor.py:116-131 | with no overload event the total grows by 1 per arrival; otherwise it ends at N plus the number of arrivals after the last event |
| Simulation.SimulationOutcome | serverRedistributor.py:94-131 | a run fails exactly when users arrive at an empty pool; otherwise it ends consistent with INITIAL_SERVERS + e servers, N + N·e log entries and the total of RunLoadSum, where e is the number of overload events |
| Simulation.QuietOutcome | serverRedistributor.py:94-131 | a run from the initial pool with no overload event ends with INITIAL_SERVERS servers, a total load of N and every load at most MAX_LOAD |
| Simulation.Pigeonhole | serverRedistributor.py:94-131 | with at least one server and N > INITIAL_SERVERS · MAX_LOAD, at least one overload event occurs and the run ends with more servers than it started with |
| OverloadManager.Network.constructor | serverRedistributor.py:19-23 | every list starts empty |
| OverloadManager.Network.ConnectUserToServer | serverRedistributor.py:43-48 | `connect_user_to_server` appends exactly one (user, server) entry to the log and changes nothing else |
| OverloadManager.Network.AddServer | serverRedistributor.py:57-62 | the new state is `add_server` applied to the old one, and the pool stays consistent |
| OverloadManager.Network.RedistributeUsers | serverRedistributor.py:65-84 | the two loops leave exactly the state of `redistribute_users` applied to the old one, and the pool stays consistent |
| OverloadManager.Network.PlaceUser | serverRedistributor.py:116-131 | one iteration of the placement loop leaves exactly the state of one arrival applied to the old one |
| OverloadManager.Network.RunSimulation | serverRedistributor.py:94-131 | whatever the state before, the run resets the lists and ends in exactly the outcome of `Simulate` on the three parameters; on an empty pool with users it reports failure |
| Scenarios.SingleServerRun | serverRedistributor.py:94-131 | one server, four users, MAX_LOAD 3: the fourth placement overloads server 0; a server is added at x = 240, the loads end at (2, 2), and the log holds the four placements and then the round-robin pass |
| Scenarios.TwoServerRun | serverRedistributor.py:94-131 | two servers, three users, MAX_LOAD 5: no overload occurs and the tie-break sends users to servers 0, 1, 0, so the loads end at (2, 1) |
| Scenarios.ExcessServerRun | serverRedistributor.py:94-131 | one server, five users, MAX_LOAD 3: the fourth placement overloads server 0, a server is added at x = 240 and all five users are reconnected round-robin; the fifth user is then placed on server 1, so the loads end at (3, 3); the exact final log is given |
| Scenarios.LateArrivalMiscounts | serverRedistributor.py:116-131 | in the pool that run ends in, the total load is six for five users, and server 0 carries a load of 3 while only two users point to it |
| Scenarios.ExcessMiscounts | serverRedistributor.py:94-131 | the run with one server, five users and MAX_LOAD 3 ends with two servers, a total load one more than the number of users, and load 3 on server 0 with only two users pointing to it |
| Scenarios.RebalanceCanStayOverloaded | serverRedistributor.py:124-129 | a redistribution can leave a server above MAX_LOAD, with (2, 1) under MAX_LOAD 1; the loop does not re-check until the next arrival |

## Left out

- Drawing is not modelled: the tkinter window, `draw_servers`, `draw_users`, `update_server_colors` and `show_message`. Neither are the red/blue colouring (the same test as `Overloaded`), `canvas.delete`, `root.update`, `time.sleep`, the button or `mainloop`. None of them changes a load, a position or a connection.
- The canvas line handle stored as the third item of each `user_connections` entry is not modelled. Neither is the list `server_nodes` of canvas ovals, which nothing reads.
- User coordinates are not modelled, some of which are random (`random.randint` at line 110). The user list is kept by its length, which is all `redistribute_users` and the placement loop read.
- Negative `INITIAL_SERVERS` or `TOTAL_USERS` are not modelled. In Python they give empty `range`s. Both are modelled as natural numbers. `MAX_LOAD` may be any integer.
- Re-entrant runs are not modelled. A button press during `time.sleep` is queued. The `root.update()` calls at lines 81, 89 and 121 then dispatch it, which calls `run_simulation` again in the middle of a run; the nested run resets the lists the outer run is still using. Each `RunSimulation` call is modelled as atomic.
- The default parameters (`INITIAL_SERVERS = 4`, `TOTAL_USERS = 20`, `MAX_LOAD = 3`) are not worked out arrival by arrival. `Simulation.Pigeonhole` covers them: 20 > 4 · 3, so at least one overload event occurs. `Scenarios.ExcessMiscounts` shows on a smaller run the effect that late arrivals have on the final total.
