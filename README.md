# Mission allocation in a SPADE planetary-exploration simulation

This Dafny project models the bookkeeping at the centre of a multi-agent planetary
exploration simulation. In that simulation, drones and a satellite scout the terrain.
When they find an area of interest they run a FIPA Contract-Net auction among the bases.
A base assigns idle drones and rovers first-in, first-out. A bitmask records the grid
cells that hold obstacles, and a WebSocket server starts, pauses, resumes and stops the
simulation while it counts discoveries and hazards.

The model replaces message passing with records. What an agent receives is an input
(one message, or the sequence of replies that arrive during an auction window). What it
sends is returned as a sequence of outgoing records. Each stateful component is a
`class` whose fields are the source's fields. Each method is proved against a
value-level transition function (`ensures State() == F(old(State()), …)`), and the
lemmas beside those functions state what the source promises.

Modules:

- `Common` (common.dfy) holds the shared building blocks:
  - Python semantics the core relies on: `int()` truncation, `//` floor division, string truthiness, `split("@")[0]`;
  - insertion-ordered dictionaries (`Put`, `Losers`);
  - the "append if absent" guard;
  - bid-cost parsing;
  - the scan-window step that drone and satellite share.
- `Bits` (bits.dfy) defines Python's `|`, `&`, `1 << k` and "clear bit k" on non-negative integers, bit by bit.
- `GridMap` (grid_map.dfy) models `Map` from src/world/map.py.
- `DroneAgent` (drone.dfy) models the drone's scanning and its Contract-Net initiator (src/agents/drone.py).
- `BaseAgent` (base.dfy) models the base's FIFO allocation registry (src/agents/base.py).
- `SatelliteAgent` (satellite.dfy) models the satellite draft of the initiator (src/agents/satellite.py).
- `SimulationServer` (server.dfy) models the server's control flags and integer counters (src/server.py).

Conventions:

- Costs are `Finite(seconds)` or `Infinite`.
- An exception the source raises is an error value (`Result`, or an `Option` error output).
- Random draws (`is_area_of_interest`) are boolean inputs.

## Model

| member | source | states |
|---|---|---|
| Common.Trunc | src/world/map.py:8 | `int()` on a float truncates toward zero: the result is within 1 of the input, on the zero side |
| Common.FloorDiv | src/agents/drone.py:134 | `//` rounds toward minus infinity for either sign of the divisor |
| Common.ShortName | src/agents/base.py:88 | `split("@")[0]` is the longest '@'-free prefix of the address |
| Common.ShortNameIdempotent | src/agents/base.py:88 | cutting a short name again changes nothing |
| Common.AppendIfAbsentProperties | src/agents/base.py:66-74 | after `if j not in q: q.append(j)`, j is present; the list is unchanged iff j was already there; at most j is added; repeating changes nothing; a duplicate-free list stays duplicate-free |
| Common.Put | src/agents/drone.py:298 | `d[k] = v` grows the dictionary by one exactly when k is new |
| Common.PutPlacesEntries | src/agents/drone.py:298 | `d[k] = v` keeps every entry in place, replaces only k's value, appends a new k at the end, and the key set becomes old keys plus k |
| Common.PutKeepsUniqueKeys | src/agents/drone.py:298 | a dictionary write never creates a second entry under one key |
| Common.LosersCount | src/agents/drone.py:336-337 | iterating the bids and skipping the winner visits each other bidder exactly once and never the winner |
| Common.BidCost | src/agents/drone.py:290 | a missing cost becomes `float('inf')`; only a value `float()` rejects makes the bid unusable |
| Common.NextScanStaysInWindow | src/agents/drone.py:134-141 | `NextScan`, the window step of both scanners: a scan step with a non-negative rate keeps 0 ≤ x ≤ length and 0 ≤ y ≤ height |
| Common.NextScanWrapsExactlyPastLength | src/agents/drone.py:135-141 | x wraps to 0 (and y advances by the rate, or wraps) exactly when x + rate exceeds the length; otherwise only x moves |
| Common.NextScanSweepsRowMajor | src/agents/drone.py:135-141 | each step moves forward in row-major order or restarts the sweep at row 0 |
| Bits.BitOr | src/world/map.py:13 | `Or`, Python's `\|`: bit i of `a \| b` is set iff it is set in a or in b |
| Bits.BitAnd | src/world/map.py:18 | `And`, Python's `&`: bit i of `a & b` is set iff it is set in both |
| Bits.BitClearBit | src/world/map.py:18 | `ClearBit`, the intended `n & ~(1 << k)`: bit i is set iff it is set in n and i ≠ k |
| Bits.BitLowMask | src/world/map.py:18 | `(1 << k) - 1` has exactly the bits below k set |
| Bits.SameBitsSameNumber | src/world/map.py:3 | two masks with the same bits are the same integer |
| GridMap.Normalize | src/world/map.py:7-8 | `normalize` raises ZeroDivisionError iff a limit is zero |
| GridMap.NormalizeFindsContainingCell | src/world/map.py:7-8 | for non-negative positions and positive limits, the cell is (⌊x/height⌋, ⌊y/length⌋) and contains the position |
| GridMap.SweepError | src/world/map.py:11-13 | `Sweep` applies `ApplyOp` at each object's `CellIndex` (`i*length+j` of its normalized cell): the object loop stops at the first object whose cell index raises; when none raises, every object's cell is reached |
| GridMap.AddBits | src/world/map.py:10-13 | after `add`, a bit is set iff it was set before or is the cell of a reached obstacle |
| GridMap.AddMarksEveryObstacle | src/world/map.py:10-13 | after an `add` that raised nothing, the bit `i*length+j` of every obstacle is set |
| GridMap.AddIsMonotone | src/world/map.py:13 | `add` never clears a bit, even when it stops on an exception |
| GridMap.AddIsIdempotent | src/world/map.py:10-13 | adding the same list twice gives the same mask and exception as adding it once; adding an empty list changes nothing |
| GridMap.RemoveBits | src/world/map.py:15-18 | `remove` (mask as written) keeps a bit iff it was set and lies below every reached cell, so bit k and every higher bit are cleared |
| GridMap.RemoveIsSubmask | src/world/map.py:18 | `remove` never sets a bit |
| GridMap.RemoveClearsHigherCells | src/world/map.py:18 | on a 1x1 map with mask 0b11, removing the obstacle at the origin empties cell 1 too; clearing only bit k keeps it |
| GridMap.ClearBits | src/world/map.py:15-18 | the intended `graph &= ~(1 << k)` clears exactly the reached cells' bits |
| GridMap.ClearUndoesAdd | src/world/map.py:10-18 | clearing the obstacles just added restores a mask in which their cells were free |
| GridMap.Map.constructor | src/world/map.py:2-5 | a new map has an empty mask and the given limits |
| GridMap.Map.SweepObjects | src/world/map.py:11-13 | the object loop leaves the mask and exception of the sweep over the objects in order |
| GridMap.Map.Add | src/world/map.py:10-13 | `add` is the OR sweep over the obstacles |
| GridMap.Map.Remove | src/world/map.py:15-18 | `remove`, looping over its parameter, is the `& ((1 << k) - 1)` sweep |
| GridMap.Map.RemoveAsWritten | src/world/map.py:15-16 | `remove` as written raises NameError before touching the mask |
| GridMap.Map.ClearCells | src/world/map.py:15-18 | the intended removal clears each obstacle's own bit |
| DroneAgent.InScanRadiusBoundsOffsets | src/agents/drone.py:111-113 | `InScanRadius`, the `**`-and-`<=` test: inside the scan disc (dx² + dy² ≤ r²), each offset is at most \|r\| |
| DroneAgent.InScanRadiusContainsDiamond | src/agents/drone.py:111-113 | every position with \|dx\| + \|dy\| ≤ \|r\| passes the scan-radius test |
| DroneAgent.RemoveFirst | src/agents/drone.py:238 | `list.remove` shortens the list by one and drops one copy of the element |
| DroneAgent.RemoveFirstDropsFirstOccurrence | src/agents/drone.py:238 | `list.remove` cuts out the first occurrence and keeps the order of the rest |
| DroneAgent.RemoveFirstOfAppended | src/agents/drone.py:257 | removing an address appended to a list that lacked it gives the list back |
| DroneAgent.RefuseMovesSender | src/agents/drone.py:234-239 | `AfterRefuse`, the `on_refuse` transition: a `no_rovers_available` refusal moves the sender from the available list to the end of the parked list and keeps the base count; an absent sender raises ValueError; any other reason changes nothing |
| DroneAgent.CollectKeepsKnownBases | src/agents/drone.py:207-220 | `Collect` folds `Receive`, the dispatch on the performative, over the replies: no sequence of round replies loses or invents a base |
| DroneAgent.BaseAvailableUndoesRefuse | src/agents/drone.py:387-393 | `AfterBaseAvailable`, the inform branch of `ReceiveMessages`: the `has_rovers_available` inform undoes a refusal: the base is available again and the parked list is as before |
| DroneAgent.RecheckRestoresEveryBase | src/agents/drone.py:415-416 | `Recheck`: after the recheck no base is parked and every known base is available |
| DroneAgent.InformDuringRoundIsDropped | src/agents/drone.py:219-220 | the round's own dispatch of an availability inform (an un-awaited coroutine) changes nothing, while the same inform handled by `ReceiveMessages` restores the base |
| DroneAgent.ListenerRestoresBaseDuringRound | src/agents/drone.py:363-393 | `ReceiveWithListener`, a reply handled by the round and by the template-less `ReceiveMessages`: a base parked in a round is restored by its inform in the same round; other replies are the round's alone |
| DroneAgent.ProposeStoresValidBids | src/agents/drone.py:288-303 | `AfterPropose`, the `on_propose` transition: a bid is stored only when its cost parses and base and rover are present; it is keyed by base; a missing cost is infinite; a repeat bid from a base overwrites in place |
| DroneAgent.Cheapest | src/agents/drone.py:322 | `min` over the bids picks a bid no other undercuts, and among ties the first inserted |
| DroneAgent.CountSentAppend | src/agents/drone.py:334-344 | counting messages distributes over concatenation |
| DroneAgent.RejectionsCount | src/agents/drone.py:336-344 | `Rejections`, the reject messages: the reject loop sends each loser exactly one reject and no accept |
| DroneAgent.ResolutionAcceptsCheapestRejectsRest | src/agents/drone.py:316-349 | `Resolution`, the messages of `on_all_responses_received`: without bids, or when the cheapest bid's key is empty (the else-branch of `if best_base:`), nothing is sent; otherwise the winner has the least cost (first among ties), gets exactly one accept and no reject, every other bidder exactly one reject, and nobody else anything |
| DroneAgent.RejectLosers | src/agents/drone.py:336-344 | the reject loop sends, in dictionary order, one reject per bid not from the winner |
| DroneAgent.RoundClearsBidsAndKeepsBases | src/agents/drone.py:193-222 | `Round`, CFPs (`Cfps`) then the collected replies then the resolution: every available base gets one CFP in list order; a completed round leaves no bids; no base is lost |
| DroneAgent.Drone.constructor | src/agents/drone.py:65-81 | a drone starts with its known bases available, nothing parked, no bids, scanning from its own position |
| DroneAgent.Drone.ScanTick | src/agents/drone.py:134-160 | the window steps by `length // SCAN_MAP_SIZE`; an interesting area inside the scan radius is recorded and leads to an auction, or to a recheck when no base is available |
| DroneAgent.Drone.OnRefuse | src/agents/drone.py:225-239 | the registry becomes the refusal transition's result, or is unchanged with the ValueError reported |
| DroneAgent.Drone.OnPropose | src/agents/drone.py:278-303 | the bids become those of the proposal transition, and stay keyed uniquely |
| DroneAgent.Drone.OnAllResponsesReceived | src/agents/drone.py:305-349 | sends the resolution of the stored bids and clears them |
| DroneAgent.Drone.RunRound | src/agents/drone.py:183-222 | a round sends the CFPs, applies the replies in order and resolves, or stops at a failed `list.remove` with the bids kept |
| DroneAgent.Drone.OnBaseAvailable | src/agents/drone.py:387-393 | the registry becomes the availability transition's result, or is unchanged with the ValueError reported |
| DroneAgent.Drone.RecheckBases | src/agents/drone.py:415-416 | the available list becomes the old one followed by the parked one, which empties |
| BaseAgent.Select | src/agents/base.py:54-64 | popping returns None iff the queue is empty; otherwise the front, with the rest in order |
| BaseAgent.SelectKeepsNoDuplicates | src/agents/base.py:54-64 | popping keeps a queue duplicate-free and the popped agent leaves it |
| BaseAgent.StepKeepsQueuesDuplicateFree | src/agents/base.py:80-133 | `Step`, the dispatch on the performative: no message makes an address string appear twice in a queue (the same drone can still be queued under two strings, see `CompletionQueuesDroneTwice`) |
| BaseAgent.RequestAssignsFronts | src/agents/base.py:92-111 | `Request`, the `request` branch: a request served by two non-empty queues records their former fronts under the target, informs the drone, changes no other mission, and leaves both tails |
| BaseAgent.RequestWithEmptyQueueRecordsNothing | src/agents/base.py:98-102 | a request meeting an empty queue records and sends nothing, yet pops the other queue |
| BaseAgent.CompletionRequeuesShortName | src/agents/base.py:114-127 | `inform_done`/`inform_success` re-queue the sender's short name at the back of the drone/rover queue unless present, and touch nothing else |
| BaseAgent.ReportsAndUnknownMessages | src/agents/base.py:130-133 | a resource report is appended once; an unrecognised performative changes nothing |
| BaseAgent.RequestLosesDrone | src/agents/base.py:98-102 | with one idle drone and no idle rover, a request makes the base forget the drone |
| BaseAgent.RequestCheckedConservesAgents | src/agents/base.py:98-105 | `RequestChecked`: the request that checks before popping loses no agent, and agrees with the source when both queues can serve |
| BaseAgent.CompletionQueuesDroneTwice | src/agents/base.py:88 | a drone queued as "d1@x" reporting completion is queued again as "d1" |
| BaseAgent.CompleteCheckedQueuesOnce | src/agents/base.py:114-127 | `CompleteChecked`: re-queueing the full address keeps each agent queued once |
| BaseAgent.Base.constructor | src/agents/base.py:32-37 | a base starts with the given queues, no missions and no reports |
| BaseAgent.Base.SelectDrone | src/agents/base.py:54-58 | `select_drone` is the queue pop |
| BaseAgent.Base.SelectRover | src/agents/base.py:60-64 | `select_rover` is the queue pop |
| BaseAgent.Base.MarkDroneAvailable | src/agents/base.py:66-69 | `mark_drone_available` appends the drone unless queued |
| BaseAgent.Base.MarkRoverAvailable | src/agents/base.py:71-74 | `mark_rover_available` appends the rover unless queued |
| BaseAgent.Base.Handle | src/agents/base.py:87-133 | one message moves the state as the dispatch on its performative says |
| SatelliteAgent.ScanRecordsFirstVisitsOnly | src/agents/satellite.py:78-97 | `Scan`, one run of `ScanTerrain`: the 100-unit step keeps the window on the map; scanned areas never repeat; a mission is requested only on a first visit to an interesting area |
| SatelliteAgent.ProposeStoresBidsBySender | src/agents/satellite.py:176-192 | `AfterPropose`, the `on_propose` transition: a bid naming a rover with a parseable cost is stored under its sender and overwrites that sender's earlier bid; a missing cost is infinite; any other bid is ignored |
| SatelliteAgent.StrictMin | src/agents/satellite.py:202-209 | no winner iff every cost is infinite; otherwise the first bid with the least cost, which is finite |
| SatelliteAgent.SelectBest | src/agents/satellite.py:202-209 | the strict-`<` loop from `float('inf')` ends on that winner and its cost |
| SatelliteAgent.ResolutionAcceptsStrictMin | src/agents/satellite.py:202-231 | `Resolution`: with no finite bid, or when the winner's key is empty (the else-branch of `if best_base:`), nothing is sent; otherwise the winner (the same bid the drone's `min` picks) gets one accept and no reject, each other bidder one reject |
| SatelliteAgent.Satellite.constructor | src/agents/satellite.py:41-50 | a satellite starts at its position with nothing scanned and no bids |
| SatelliteAgent.Satellite.ScanTick | src/agents/satellite.py:78-97 | one scan run moves the state as the scan transition says and keeps scanned areas duplicate-free |
| SatelliteAgent.Satellite.OnPropose | src/agents/satellite.py:171-192 | the bids become those of the proposal transition |
| SatelliteAgent.Satellite.OnAllResponsesReceived | src/agents/satellite.py:195-231 | sends the resolution of the stored bids and clears them |
| SimulationServer.EveryTransitionKeepsPauseInSync | src/server.py:356-370 | `Handle`, `Begin` and `Finish`: every command, the task's start and its `finally` keep "paused" equal to "pause event cleared" |
| SimulationServer.StartRefusals | src/server.py:336-346 | a start without a config file is refused first, even while running; a start while running is refused; neither changes a flag; an accepted start only creates the task |
| SimulationServer.PauseAndResume | src/server.py:356-370 | pausing works only while running and is idempotent; resuming works only while running and paused and undoes a pause |
| SimulationServer.StopClearsRunningOnly | src/server.py:348-354 | a stop clears only the running flag, only when running with a task; a stopped paused simulation stays marked paused until the task's cleanup |
| SimulationServer.FinishResetsOnEveryExit | src/server.py:537-539 | every exit path of `start_simulation` leaves the server stopped, unpaused, with the pause event set, and ready to start again |
| SimulationServer.DiscoverCountsOne | src/server.py:686-689 | `Discover`: one discovery raises its id's count by one (first to 1) and leaves other ids alone |
| SimulationServer.DiscoverAllCountsOccurrences | src/server.py:686-689 | after any sequence of discoveries each id's count is its old count plus its occurrences, and it has an entry iff it had one or was reported |
| SimulationServer.StoredCountsArePositive | src/server.py:686-689 | from empty counters, every stored count equals the number of reports of its id, at least 1 |
| SimulationServer.Server.constructor | src/server.py:272-277 | the server starts stopped, unpaused, with the pause event set, no task and zero counters |
| SimulationServer.Server.HandleCommand | src/server.py:323-371 | one command moves the flags and produces the reply as the command transition says |
| SimulationServer.Server.SimulationBegins | src/server.py:384 | the task sets the running flag when it starts |
| SimulationServer.Server.SimulationEnds | src/server.py:537-539 | the task's `finally` resets the flags whatever the exit |
| SimulationServer.Server.ResourceDiscovered | src/server.py:686-689 | the discovery counter is updated as `Discover` says |
| SimulationServer.Server.HazardDetected | src/server.py:712 | each hazard adds exactly 1 |

## Left out

- Message transport, `receive(timeout=…)` waits, `asyncio.sleep`, the auction's wall-clock window and behaviour kill/re-add scheduling are not modelled. A round is the sequence of replies that arrived in its window. `ScanTick` returns which behaviour runs next instead of scheduling it.
- `eval` of message bodies is not modelled; handlers take already-parsed records. A body without the "reason" key (drone.py:235) or the "inform" key (drone.py:252, :388) raises KeyError in the source, which the model does not represent. The base reads "target" with `.get`, so a missing target is the `None` the model carries.
- Addresses are abstract strings. The source compares `message.sender` (a JID object) with strings held in lists; the model assumes they compare equal when the texts do.
- Random draws (`is_area_of_interest` in drone.py and satellite.py) are boolean inputs.
- `SCAN_MAP_SIZE` comes from a settings module that is not part of this model. It is a constructor parameter of `Drone`, required to be non-zero.
- Costs NaN and `-inf` are not modelled. A cost is finite or `+inf`.
- Coordinates are exact reals, not IEEE doubles, so float rounding is not modelled: the `/` in `normalize` (map.py:8), the `**` in `in_scan_radius` (drone.py:113) and the `+=` of the scan step (drone.py:135-141). `NormalizeFindsContainingCell` relies on exact division. Cost comparisons do not depend on rounding.
- The printed and visualisation messages (`print`, `viz_send_message`, `broadcast`) are not modelled, except the server's reply to each command.
- The sent messages carry the target and the rover, not the literal `str(dict)` bodies.
- In drone.py, `on_not_understood` and `on_failure` only print. The model handles them as no-ops.
- `Base.distance` (square root), `send_msg` and the base's `inform` body layout are not modelled.
- Float telemetry (`totalEnergy`, `terrainMapped`), `simulate_hazards`, `initialize_map`, `generate_world`, configuration loading, logging and the WebSocket plumbing in src/server.py are not modelled.
- A start issued while an earlier task has been created but has not yet set the running flag is a race between coroutines. The model handles commands and task events one at a time and does not explore that interleaving.
- src/agents/rover.py (empty stubs), src/agents/visualizator.py, src/spade_visualization.py, src/drone.py, src/main.py, src/world/world.py and src/utilities/mission.py are not part of this model.
- The satellite draft cannot run as written:
  - the import at satellite.py:12 names a module that does not exist;
  - `super().__init__(self.agent.bases)` at :125 reads the agent before it is attached;
  - the call at :157 omits the `replies` argument of `on_all_responses_received`;
  - `self.bases` (:132) is read on the behaviour but never set on it;
  - `self.send_accept_proposal` and `self.send_reject_proposal` (:218, :226) do not exist on the behaviour.

  The model states its logic as evidently intended. Its `ReceiveMessages` behaviour only prints and is not modelled.
- src/world/map.py as shown uses `Tuple`, `List` and `WorldObject` without importing them. The model assumes they are available. Positions are `Pos` values rather than `WorldObject`s.
- The drone's sync `on_inform` (drone.py:241-258) is shadowed by the coroutine of the same name at :351-361, which only prints; the round calls that coroutine without awaiting it (:220), so the round itself ignores informs. `ReceiveMessages` (added at :432, no template, never killed) gets its own copy of every reply and handles an availability inform with `AfterBaseAvailable`. `Round`, `Collect` and `Drone.RunRound` model the round behaviour alone; `Drone.OnBaseAvailable` is `ReceiveMessages`' handling, and `ReceiveWithListener` composes the two for one reply, taking the copy to be handled right after the round's handling of the same reply. Other interleavings of the two behaviours are not explored. A ValueError in `ReceiveMessages` is an error value in the model; that it ends that behaviour while the round goes on is not modelled.

## Findings

| source | as written | input that shows it | evidently intended | confidence | as-written member | corrected member |
|---|---|---|---|---|---|---|
| src/world/map.py:16 | `remove` loops over `obstacles`, but its parameter is `obstables` | any call, e.g. `remove([])` raises NameError | loop over the parameter | high, not executed | GridMap.Map.RemoveAsWritten | GridMap.Map.Remove |
| src/world/map.py:18 | `graph &= (1 << k) - 1` keeps only the bits below k | with the loop over the parameter (the code as written raises at :16 first): 1x1 map, graph 0b11, remove an obstacle at (0, 0): graph becomes 0 | `graph &= ~(1 << k)` clears only cell k | high, not executed | GridMap.RemoveClearsHigherCells | GridMap.ClearUndoesAdd |
| src/agents/base.py:98-102 | both queues are popped before the emptiness check | drones ["d1@x"], rovers [], a `request`: the drone leaves the queue and no mission records it | pop only when both queues can serve | high, not executed | BaseAgent.RequestLosesDrone | BaseAgent.RequestCheckedConservesAgents |
| src/agents/base.py:88 | completions re-queue `split("@")[0]` of the sender while the queues hold full addresses | drones ["d1@x"], `inform_done` from "d1@x": the queue becomes ["d1@x", "d1"] | re-queue the full address | medium, not executed | BaseAgent.CompletionQueuesDroneTwice | BaseAgent.CompleteCheckedQueuesOnce |
