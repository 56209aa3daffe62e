# Network simulator, routing and reliable transfer: a verified model

Three programs of one repository are modelled here and their central promises proved, for all
topologies, all runs and all choices of the network:

1. **The discrete-event simulator** (`simulation.py`, `router.py`, `sdn_router.py`, `packet.py`,
   `stats.py`) — stop-and-wait TCP and fire-and-forget UDP over routers that queue packets and links
   that lose, delay, reorder and duplicate them.
2. **Routing** (`graph.py`, with the older `packet-forward/forward.py` and the store-and-forward
   program `05-topology`) — least-delay routes, forwarding tables that keep only first hops, and what
   following those tables achieves.
3. **Reliable file transfer** (`03-reliable`) — a chunking server with a bounded queue of delayed
   answers, a ten-slot inbox filled by a reader thread, and a client with a request window.

## Main results

- **Routing.** `get_route` returns a least-delay walk or raises exactly when there is none, expands no
  node twice, and its early exit and stale heap entries are harmless (`Routing.GraphManager.GetRoute`).
  Tables made of independent first hops compose into loop-free least-delay paths whichever way ties
  were broken (`Forwarding.FirstHopsCompose`).
- **Transport.** In every state of every session TCP has delivered exactly an initial segment of the
  sequences (`Guarantees.TcpSafety`), exactly one timer would do anything and it is due within one
  timeout (`Guarantees.TcpNeverStalls`), repeats and pauses are paid for in time
  (`Guarantees.TimeSpent`), and a run that ends early has really finished
  (`Guarantees.EarlyEndMeansDone`). A frame ends a run exactly when 25 seconds are over or nothing is left to do
  (`Endings.RunsEndExactly`), so every run ends (`Endings.EveryRunEnds`), with its end on record
  (`Endings.RunsAreRecorded`).
- **Frames.** What a frame does to every timer, router, link and record is stated of the packets themselves and
  independently of the functions that compute it (`Frames.FrameExact`).
- **Conservation and load.** Every packet id is in exactly one place (`Guarantees.PacketsAreConserved`),
  the statistics add up (`Guarantees.StatisticsAddUp`) and count what packets are marked as
  (`Marks.StatisticsCountMarks`), every duplicate was made of a packet that is accounted for too
  (`Marks.DuplicatesHaveOriginals`), duplication is bounded by
  2^h (1 + 2^h') packets per data transmission (`Guarantees.DuplicationIsBounded`), and without new
  transmissions the network is empty after a time that is stated (`Idle.NetworkFallsIdle`).
- **Liveness.** On links that lose nothing but duplicates, and may be as slow as they like, whatever TCP waits
  for is on its way (`FaithfulLinks.WhatIsAwaitedIsOnItsWay`). Whatever is lost, all is delivered by an explicit
  time, which grows by one round trip, one timeout and one frame for each packet lost, if only the routers' turns
  for one transmission take less than the timeout, however long round trips are (`Delivery.TcpDelivers`); and if
  nothing is lost and the round trip takes less than the timeout, no sequence is ever sent twice
  (`Delivery.TcpNeverRepeats`). These are worked out for presets with their own end points and delays
  (`Presets.CampusDelivers`, `Presets.RingNeverRepeats`, `Presets.RingSurvivesLosses`). Under UDP every sequence
  is delivered or has a loss on record (`Traces.NothingVanishes`, `Traces.UdpDelivers`).
- **Paths and firewall.** Histories are prefixes of the forwarding path and nothing ever raises
  (`Guarantees.HistoriesFollowTheTables`); the firewall rule blocks all data or none, and without SDN nothing is
  ever filtered (`Guarantees.FirewallDecides`).
- **The engine itself.** The class `Engine.SimulationEngine` changes its fields as `simulation.py` does,
  and every method is proved equal to the state function the results above speak about; `Valid()`, kept
  by `Update`, `StartRun` and the setting changes, is the invariant that carries them all.
- **File transfer.** Under any interleaving, loss, delay, duplication and reordering the client's file
  is a prefix of the padded text (`Transfer.FileIsAlwaysAPrefix`), complete when the loop ends
  (`Transfer.FinishedFileIsTheText`), can be completed from every state
  (`Completion.TransferCanAlwaysFinish`), and is completed by every fair run with enough rounds in which
  nothing is dropped (`Fairness.FairRunsFinish`); the bytes the server writes are exactly the answers to the
  requests it accepted, none sent before the delay drawn for its request has passed
  (`Transfer.AcceptedIsAnsweredOnce`).
- **Store and forward, tracing.** The tables alone tell, before the start, whether the program ends and
  whether everything is then received, in both directions (`Program.ProgramEndsExactly`,
  `Program.ProgramReceivesAllExactly`), and the delays of links bound the time that takes, however fast its
  loop spins (`Clocks.ProgramEndsInTime`); a trace marked as dropped proves that forwarding never gets there
  (`HopTrace.DroppedMeansUnreachable`). Those delays are waited out: a message is under way until they
  have passed on all the links it takes (`Holding.ProgramTakesItsTime`).

## How it is organised

| area | modules, in the order they build on each other |
|---|---|
| shared | `Wrappers`, `Sums`, `Subsequences`, `Ranges` |
| routing | `Graphs`, `Dijkstra`, `Topologies`, `Forwarding`, `Certificates`, `Routing` (classes) |
| simulator, values | `Packets`, `Simulation` (state and one function per method of the engine) |
| simulator, proofs | `Totals`, `Network`, `NetworkSteps`, `Accounts`, `Ledger`, `Drain`, `Protocol`, `ProtocolSteps`, `Invariants`, `Sessions`, `Guarantees`, `Progress`, `Idle`, `FaithfulLinks`, `Traces`, `Couriers`, `Timetable`, `RoundTrips`, `Delivery`, `Presets`, `Endings`, `Frames`, `Marks` |
| simulator, program | `Engine` (class) |
| transfer | `Chunks`, `Server` (class), `Inbox` (class), `Client` (class), `Transfer`, `Completion`, `Fairness` |
| store and forward | `StoreForward`, `Fates`, `Program`, `Clocks`, `Holding`, `TopologyManager` (class, in `Manager.dfy`) |
| tracing | `HopTrace` |

A *session* is any sequence of frame ticks, run starts and setting changes; every setting change of the
engine is made together with a reset, so `Configure` covers `setup_topology`, `set_mode`,
`cycle_topology`, `toggle_sdn`, `toggle_traffic_profile` and, with an unchanged configuration, the
controls that only change the odds of loss, delay and duplication. Each tick carries a `choice` of what
each router's link does to the packet it sends: any delay, lost or not, duplicated or not.

The fields `log`, `attempted` and `moves` of `Simulation.State`, `accepted` (requests with the time they came in at
and the delay drawn for them), `answered` and `sent` of the server,
`read` and `consumed` of the transfer, and `added`, `received` and `lost` of the store-and-forward
network are histories that exist for the statements only; no step looks at them.

## Hypotheses

- Link delays are positive, as in every preset (graph.py:72-82, 97-105, 120-130), and the topology is
  connected. The code checks neither; `build_forwarding_tables` raises exactly on a topology that is not
  connected, and that is proved.
- Together these conditions are `Sessions.Configured`; `Sessions.PairIsConfigured` shows a configuration
  that meets them, and `Engine.SimulationEngine.CycleTopology` that the engine establishes them.
- The source and the destination of a run are distinct nodes of the graph. `cycle_topology` keeps the
  old pair when it moves to another preset (simulation.py:131-134), so the condition is about that pair;
  all presets have the nodes 0 to 5.
- `packet_goal` is at least 1. Its value in the code is 6.
- For the padded text to come out whole, the server's text has NUM_MSGS chunks. What happens with more
  chunks or fewer is stated as well.
- `FaithfulLinks` supposes links that lose no packet; duplicates may be lost. `Delivery` supposes that the links a
  router sends on delay by no more than a bound for that router, that frames are no longer than a bound f, and
  that the firewall does not stand on the data's way. Then
  - with h links there and h' back and no duplication a transmission costs the routers (h + h') (45 + f) ms
    (`Delivery.PlainLoad`); below 950 ms, every sequence is delivered by `Delivery.DeliveryTime`, for any delays
    and any number of losses. With duplication the cost is the potential of `Drain` with a toll on dispatches;
  - without loss and duplication, if the delays of the links there and back, and 45 + 2 f ms for each of them,
    come to less than 950 ms, there is never a repeat. With one bound d for all links that is
    (h + h') (d + 45 + 2 f) < 950 (`Delivery.EvenLinksAreSwift`).

  At 60 frames a second the first covers Campus Backbone without losses at its normal delays and jitter, with a
  delivery time within the 25 s limit, although its round trips are longer than the timeout; the second covers
  Redundant Ring with the shortest delays a user can set, and there up to eight packets may be lost.
- `Clocks` supposes that passes over the routers come at most some time f after one another, that links have
  bounded delays and that routers were built before the first pass.
- `Fairness` counts rounds in which the client asks when it may, the server serves and answers what is there, the
  reader reads and the client takes and writes; a round in which something is dropped may be spent in vain.
- `05-topology` needs no hypothesis: messages that its tables lose or send round for ever are counted, and
  the statements say exactly what happens then.

## Model

| member | source | states |
|---|---|---|
| Routing.SimpleGraph.constructor | graph.py:19-21 | a new graph has no nodes and no links |
| Routing.SimpleGraph.Clear | graph.py:23-25 | whatever was there is gone |
| Routing.SimpleGraph.AddNodesFrom | graph.py:27-31 | adds the missing nodes once each, keeps the links of known ones, and keeps nodes list, adjacency keys and symmetry in step |
| Routing.SimpleGraph.AddEdge | graph.py:33-37 | the link exists in both directions with the one delay, also when its ends are new, and the graph stays symmetric |
| Topologies.LinkKeepsSymmetry | graph.py:33-37 | overwriting or adding a link keeps equal delays both ways for every pair of nodes |
| Topologies.TopologyExact | graph.py:167-172 | after loading, two nodes are linked iff some listed link joins them, and the delay is that of the last such link |
| Topologies.NodesExact | graph.py:167-172 | after loading, the nodes are exactly those listed and the ends of the listed links |
| Topologies.TopologyFit | graph.py:72-82 | a preset with positive delays gives a symmetric, closed graph with positive delays |
| Routing.GraphManager.constructor | graph.py:139-145 | a manager starts with an empty well-formed graph and no topology |
| Routing.GraphManager.BuildGraph | graph.py:169-172 | the old graph is gone and the new one is exactly that of the listed nodes and links |
| Routing.GraphManager.LoadTopology | graph.py:167-177 | a known name shows exactly that preset, graph, name and end points; an unknown one raises and changes nothing |
| Routing.NextPreset | graph.py:180-185 | the first preset before any is loaded, otherwise the one so many steps on from the current, going round; none where the current one is no preset or there are none |
| Routing.CyclingGoesRound | graph.py:179-187 | pressing the key k + 1 times shows preset k, going round: every preset has its turn and none twice before that |
| Routing.GraphManager.CycleTopology | graph.py:179-187 | shows the preset that follows the current one, going round, or the first; raises and changes nothing when the current topology is no preset |
| Routing.GraphManager.GetRoute | graph.py:195-225 | the route has least total delay among all walks; it raises iff no walk exists; the nodes expanded are distinct, contain all of the route but its end, and without a route every node in reach |
| Routing.GraphManager.Search | graph.py:196-213 | the heap loop with stale entries and early break ends; the nodes expanded are each settled once; it has a least-delay label and predecessor tree for the destination, or has settled every node in reach and not found it |
| Routing.GraphManager.Relax | graph.py:207-213 | relaxing every neighbour, in any order, restores the invariant of the search |
| Dijkstra.WayIsSettled | graph.py:211-212 | every predecessor on a recorded way has been expanded |
| Routing.GraphManager.Backtrack | graph.py:218-225 | the predecessor chain is acyclic, ends at the source and spells out the recorded walk, so the second raise cannot happen |
| Routing.GraphManager.BuildRow | graph.py:229-236 | every entry of a row is the first hop of a least-delay route; fails only when some node is unreachable |
| Routing.GraphManager.BuildForwardingTables | graph.py:227-237 | succeeds iff the topology is connected, and then every entry of every router is a first hop towards every other node |
| Dijkstra.DropStale | graph.py:205-206 | skipping an overtaken heap entry loses nothing |
| Dijkstra.Settle | graph.py:202-207 | the node of a current least entry was not settled before and may be expanded |
| Dijkstra.Improve | graph.py:208-213 | a shorter label never touches a settled node, is new in the heap, and keeps tree, heap and relaxed edges consistent |
| Dijkstra.NoImprovement | graph.py:209-210 | an edge that offers nothing shorter may be skipped |
| Dijkstra.LowerBound | graph.py:201-213 | no walk at all undercuts a settled label or the least label still waiting |
| Dijkstra.PoppedIsShortest | graph.py:203-204 | breaking as soon as the destination is popped is sound: its label is already the least delay |
| Dijkstra.DryIsComplete | graph.py:215-216 | when the heap runs dry every reachable node has been settled |
| Dijkstra.NowhereToGo | graph.py:39-40 | the lookup of a node that is not in the graph fails only when nothing else is reachable either |
| Graphs.ReverseWalk | graph.py:33-37 | on these graphs every walk can be taken backwards at the same total delay |
| Graphs.DistanceSymmetric | graph.py:33-37 | the least delay is the same in both directions |
| Forwarding.ShortestFirstHop | graph.py:234-235 | route[1] exists and is a neighbour from which the rest of the way is again a least-delay way |
| Forwarding.PathIsShortest | graph.py:227-237 | following the tables hop by hop is a least-delay walk to the destination |
| Forwarding.PathNoRepeats | graph.py:227-237 | following the tables never visits a node twice and takes at most as many nodes as there are |
| Forwarding.NeverBack | graph.py:227-237 | the distance still to go never grows along the way |
| Forwarding.PathSuffix | router.py:23-27 | every router on the way sends the packet along its own forwarding path |
| Forwarding.FirstHopsCompose | graph.py:227-237 | independently computed first hops compose: loop free, at most n - 1 hops, least delay, and data and ACK ways cost the same |
| Packets.ApplyRules | sdn_router.py:34-38 | the action of the first matching rule, none iff no rule matches |
| Simulation.FireUsesUpDue | simulation.py:184-187 | running one due event leaves strictly fewer due events, so the loop ends |
| Protocol.InsertSorted | simulation.py:179-182 | pushing an event with a fresh id keeps the heap strictly ordered by due time and id |
| NetworkSteps.QueuedNext | simulation.py:189-210 | a queued packet has a next hop over a real link, never names its own router, and is dropped by rule iff it is data for port 80 at the firewall |
| NetworkSteps.ArrivedNext | simulation.py:233-245 | an arriving packet is either complete along its whole path or belongs in the next router's queue |
| NetworkSteps.TransmitKeeps | simulation.py:247-268 | sending data keeps every packet on its path with a known sequence |
| NetworkSteps.SendAckKeeps | simulation.py:270-280 | an ACK is only ever made for a delivered sequence and starts on its path |
| NetworkSteps.LaunchKeeps | simulation.py:319-364 | original and duplicate leave on the same link with the same past, and all packets stay on their paths |
| NetworkSteps.FireKeeps | simulation.py:184-187 | whatever a fired event does, all packets stay on their paths and nothing raises |
| NetworkSteps.DispatchKeeps | simulation.py:189-210 | dispatching a router keeps all packets on their paths and cannot raise |
| NetworkSteps.LandKeeps | simulation.py:212-245 | the end of a flight keeps all packets on their paths and cannot raise |
| Accounts.DispatchCases | simulation.py:189-210 | a ready router with work either filters the head of its queue or launches it to its table's next hop |
| Accounts.TransmitTotal | simulation.py:247-268 | any quantity added up over all packets grows by the new packet's, or not at all past the goal |
| Accounts.DispatchTotal | simulation.py:189-210 | for any quantity: what leaves the queue equals what is logged, or what is put on the link with its copy |
| Accounts.LandTotal | simulation.py:212-245 | for any quantity: what leaves the link is logged as lost, queued again, or delivered together with a new ACK |
| Ledger.TransmitBalances | simulation.py:247-288 | a transmission opens a new sequence or counts as a repeat; census and statistics stay exact |
| Ledger.DispatchBalances | simulation.py:189-210 | dispatching, filtering and duplicating keep census and statistics exact |
| Ledger.LandCounters | simulation.py:384-428 | exactly which counters the end of a flight changes, and by how much |
| Ledger.LandBalances | simulation.py:212-245 | loss, forwarding, delivery and acknowledgement keep census and statistics exact |
| Drain.TransmitWorth | simulation.py:247-268 | a transmission brings exactly one budget of potential into the network |
| Drain.DispatchWorth | simulation.py:319-364 | a dispatch never raises the potential, duplicates included, and lowers the strict one |
| Drain.LandedWorth | simulation.py:233-245 | an arrival, a loss and an arrival that triggers an ACK never raise the potential, and lower the strict one |
| Drain.WorthClosed | simulation.py:335-364 | the potential of a packet with k hops to go is its base times 2^k |
| ProtocolSteps.FireCases | simulation.py:406-411 | a timer either transmits what the sender waits for, marked as a repeat iff it is one, or is stale and changes nothing |
| ProtocolSteps.TransmitInOrder | simulation.py:247-268 | sequences are opened in order and each transmission is covered by elapsed time |
| ProtocolSteps.NewTimer | simulation.py:261-268 | after a transmission its timeout is the only live event, whatever stale ones remain |
| ProtocolSteps.FireStaysOk | simulation.py:184-187 | the protocol invariant survives every due timer in both modes |
| ProtocolSteps.DataStaysOk | simulation.py:384-391 | arriving data is old or exactly the next sequence, so the delivered set stays an initial segment |
| ProtocolSteps.AckStaysOk | simulation.py:393-404 | the awaited ACK schedules the next sequence or completes the run; any other changes nothing that matters |
| ProtocolSteps.LandStaysOk | simulation.py:212-245 | the protocol invariant survives every end of a flight |
| Invariants.UpdateKeeps | simulation.py:107-122 | whatever every inner step keeps, a whole update keeps |
| Invariants.UpdateGood | simulation.py:107-122 | one frame keeps network, ledger, potential and protocol invariants together, for any luck on the links |
| Sessions.ScheduleAllExact | simulation.py:99-103 | the UDP schedule is sequence i at 260 i ms with id i + 1, and nothing else |
| Sessions.ResetGood | simulation.py:73-93 | every invariant holds after a reset |
| Sessions.StartGood | simulation.py:95-105 | every invariant holds at the start of a run in either mode |
| Sessions.SessionGood | simulation.py:95-151 | every state of every session of ticks, starts and setting changes satisfies every invariant |
| Guarantees.TcpSafety | simulation.py:384-411 | delivered and sent are initial segments at most one apart; no data in the network is ahead of what was sent; every ACK is for a delivered sequence; completed while running means all delivered |
| Guarantees.UdpSafety | simulation.py:99-103 | UDP sends in order, repeats and acknowledges nothing, delivers only what was sent, and its timers are to send exactly the sequences not yet sent, each at its own time |
| Guarantees.TcpNeverStalls | simulation.py:393-411 | until completion exactly one pending event has any effect: the awaited sequence's timeout, due within 950 ms, or the next sending, due within 150 ms |
| Guarantees.CompletedTimersAreIdle | simulation.py:406-411 | once completed, every timer left is without effect |
| Guarantees.TimeSpent | simulation.py:261-268 | 950 R + 150 (F - 1) ms have passed after F first sendings and R repeats in TCP; 260 (F - 1) in UDP |
| Guarantees.EarlyEndMeansDone | simulation.py:117-122 | a run that ends before the time limit has an idle network, everything sent has arrived or been dropped, TCP has delivered and UDP has sent every sequence |
| Guarantees.PacketsAreConserved | simulation.py:282-317 | every id handed out is in exactly one place once; sent = queued + in flight + dropped + arrived |
| Guarantees.StatisticsAddUp | simulation.py:384-391 | sent = first sendings + repeats + ACKs + duplicates; ACKs = data arrivals in TCP and 0 in UDP; delivered counts the distinct sequences |
| Marks.StatisticsCountMarks | simulation.py:282-288 | first sendings, repeats, ACKs and duplicates are counted exactly as the packets are marked; no ACK is marked as a repeat |
| Marks.DuplicatesHaveOriginals | simulation.py:335-348 | every duplicate names an earlier packet that is somewhere too and agrees with it in ends, kind, sequence, port and repeat mark; no other packet names one |
| Guarantees.DuplicationIsBounded | simulation.py:335-364 | at most 2^h (1 + 2^h') packets per data transmission in TCP and 2^h in UDP |
| Guarantees.NetworkDrains | simulation.py:189-245 | dispatches and landings together are bounded by the transmissions alone |
| Guarantees.HistoriesFollowTheTables | simulation.py:335-348 | every history, of copies, lost and filtered packets too, is a prefix of the forwarding path; no packet is queued at its own destination; delivered ones took a least-delay path of equal cost both ways; nothing raises |
| Guarantees.FirewallDecides | sdn_router.py:41-69 | without SDN, a firewall in the topology or data for port 80 nothing is ever filtered; with all three no data leaves the firewall; on the data's way before its end it lets nothing be delivered, elsewhere it drops nothing; it never drops an ACK |
| Guarantees.FiredAreTheDue | simulation.py:184-187 | the loop fires the due events it found at entry although callbacks schedule more |
| Guarantees.EventLoopExact | simulation.py:184-187 | the loop runs exactly the events due at entry, in (due, id) order, and leaves only later ones |
| Frames.DispatchExact | simulation.py:189-210 | a router that is free and has a packet takes the head off its queue and is busy for 45 ms; data for port 80 at the firewall goes on record, any other packet goes on its link with the delay and fate drawn, followed by its duplicate if there is one; nothing else changes |
| Frames.PassExact | simulation.py:189-210 | every router has exactly one such turn, in order, and what they send joins the links in that order |
| Frames.AdvanceExact | simulation.py:212-231 | exactly the flights with no more than the frame to go end, in order, and leave their packet on record as lost or delivered or go on; the others are that much older and keep their order |
| Frames.FrameExact | simulation.py:107-115 | a frame runs exactly the timers due by its end in (due, id) order, then gives every router its turn in ascending order, then ends exactly the flights whose time is up, those just launched among them |
| Endings.StartsExactly | simulation.py:95-105 | a run starts from a clean engine with exactly the sends of UDP 260 ms apart, or the first of TCP at once, on the timers |
| Endings.RunsAreRecorded | simulation.py:73-122 | in every state of every session: a run that is on is before 25 s and has a packet, flight or timer left or waits for its last ACK; one that is over has its start and end on record; otherwise nothing at all has happened |
| Endings.RunsEndExactly | simulation.py:117-122 | a frame ends a run iff 25 s are reached or nothing is left to do, and records that time; an engine that is not running stays as it is |
| Endings.EveryRunEnds | simulation.py:121-122 | after 25 s of frames a run is over, whatever the links and the firewall do |
| Progress.DispatchMoves | simulation.py:189-210 | a dispatch moves a packet iff the router is due, and disturbs no other router and no flight |
| Progress.AdvanceMoves | simulation.py:212-231 | a pass over the flights ends at least one if any is due |
| Progress.DueIsMoved | simulation.py:107-122 | an update that finds a router or a flight due moves something |
| Progress.BusyTicksAreFew | simulation.py:107-122 | over any stretch of ticks, those that find something due are no more than the transmissions pay for, and the clock bounds these |
| Idle.SessionBrisk | simulation.py:189-231 | with link delays of at most d no flight ever has more than d to go and no router is busy for longer than 45 ms |
| Idle.TickWaits | simulation.py:107-122 | a packet that is due by some time is moved by the frame that reaches that time, and waits unharmed until then |
| Idle.NetworkFallsIdle | simulation.py:189-245 | a stretch of frames without a new transmission that lasts longer than the moves left can take contains a moment when every queue and link is empty |
| Traces.LandTraced | simulation.py:212-245 | the end of a flight leaves every sequence that was sent delivered, in the network or on record |
| Traces.NothingVanishes | simulation.py:117-122 | on any links, after an early end every sequence sent was delivered, or a packet of it is on record as lost or filtered |
| Traces.UdpDelivers | simulation.py:99-103 | without loss and filter a UDP run that ends early has delivered all its sequences |
| FaithfulLinks.LandAwaited | simulation.py:233-280 | when a flight ends, whatever the sender waits for is still on its way: as data, or as the ACK it became |
| FaithfulLinks.OpenIsAwaitedOrPausing | simulation.py:393-411 | without loss an empty network of an unfinished run only pauses: the next sequence is sent within 150 ms |
| FaithfulLinks.WhatIsAwaitedIsOnItsWay | simulation.py:393-411 | in every state of every session, without loss but with any delays: an unfinished, unfiltered TCP run waits for a sequence that is in the network, or sends the next within 150 ms |
| Couriers.CourierTurn | simulation.py:189-210 | a packet that waits at a router is at most a turn later for every packet that is dispatched before it |
| Couriers.LandCourier | simulation.py:212-245 | a packet, or the ACK it becomes, reaches each next queue no later than its link and a frame allow |
| Timetable.RepeatOnSchedule | simulation.py:406-411 | a retransmission does not delay the packet that is on its way already |
| Timetable.LandOnSchedule | simulation.py:393-404 | the awaited ACK, whichever transmission it answers, is home on schedule and sets the pause before the next sequence |
| Timetable.DispatchExpected | simulation.py:319-333 | a turn of a router leaves the awaited packet on schedule, or its link loses it and its timer takes over, at the cost of a loss |
| Timetable.RepeatSetsOut | simulation.py:406-411 | what the timer of a lost packet sends has the whole round trip before it |
| Timetable.FrameOnSchedule | simulation.py:107-115 | a whole frame keeps to the schedule: one period for each sequence sent, one round trip and timeout for each packet lost, and the turns that routers have spent |
| RoundTrips.TimerIsAhead | simulation.py:261-268 | while the packet of the only transmission is on its way, its timer has not come |
| RoundTrips.FrameUnrepeated | simulation.py:107-115 | if round trips are swift, a frame keeps the network at one packet at most, in time for its timer, and nothing repeated |
| Delivery.TcpTimeIsAccounted | simulation.py:247-268 | without filter the clock of an unfinished run is bounded by one period for each sequence sent, the cost of each packet lost and the routers' turns for all transmissions |
| Delivery.PlainLoad | simulation.py:189-210 | without duplication a transmission costs one turn of a router for each link there and back |
| Delivery.EvenLinksAreSwift | simulation.py:366-372 | with one bound on all delays, the number of links tells whether round trips beat the timer |
| Delivery.TcpNeverRepeats | simulation.py:406-411 | without loss, duplication and filter, and with round trips shorter than the timeout, no sequence is ever sent twice |
| Delivery.TcpDelivers | simulation.py:107-122 | without filter, and with routers that are not overloaded, a run still on at a time that depends on the number of packets lost has delivered every sequence, and so has every run that ended if that time is within the limit |
| Presets.CampusRoutes | graph.py:62-86 | whatever tables are built for Campus Backbone, data takes 0, 2, 4, 5 and ACKs the same way back |
| Presets.CampusIsConfigured | graph.py:62-86 | Campus Backbone is connected and has tables, so runs on it exist |
| Presets.CampusDelivers | simulation.py:107-122 | on Campus Backbone at its normal delays and jitter and 60 frames a second, without loss and duplication, every TCP run that ends has delivered all six sequences |
| Presets.RingRoutes | graph.py:110-134 | whatever tables are built for Redundant Ring, data takes 5, 4, 2 and ACKs the same way back |
| Presets.RingIsConfigured | graph.py:110-134 | Redundant Ring is connected and has tables, so runs on it exist |
| Presets.RingNeverRepeats | simulation.py:406-411 | on Redundant Ring with the delay multiplier at 0.4, without loss and duplication, nothing is sent twice and all six sequences are delivered within 6073 ms |
| Presets.RingSurvivesLosses | simulation.py:374-382 | on the same ring up to eight packets may be lost, and every TCP run that ends has still delivered all six sequences |
| Certificates.ForcedPath | graph.py:195-237 | a route whose links are each the only least-delay way on is the one any tables spell out |
| Engine.SimulationEngine.constructor | simulation.py:24-61 | a new engine has no routers, is UDP, six packets, port 443 without SDN, and is in the reset state |
| Engine.SimulationEngine.SetupTopology | simulation.py:63-71 | the named topology, the shown one or the first, with its own end points, clean and with every invariant if those fit; succeeds iff there is such a topology and it is connected |
| Engine.SimulationEngine.ShowTopology | simulation.py:64-67 | which topology that is: a given name wins, then what is shown, then the first preset |
| Engine.SimulationEngine.ResetRunState | simulation.py:73-93 | after a reset nothing of the previous run is left, and tables and rules are those of the topology |
| Engine.SimulationEngine.ClearRouters | simulation.py:91-93 | emptying queues and clocks gives back the routers as they were built |
| Engine.SimulationEngine.Schedule | simulation.py:179-182 | the new event takes its place by (due, id) and the id is used up |
| Engine.SimulationEngine.BeginRun | simulation.py:95-105 | the loop over the goal and the TCP branch give exactly the starting state of a run |
| Engine.SimulationEngine.StartRun | simulation.py:95-105 | as BeginRun, and every invariant holds |
| Engine.SimulationEngine.Enqueue | router.py:17-18 | the packet is last in the queue of the node's router and of no other |
| Engine.SimulationEngine.InjectPacket | simulation.py:282-288 | counts the packet under the right headings and queues it at its source |
| Engine.SimulationEngine.MakePacket | simulation.py:290-317 | a packet with the next free id, at its source, with the run's port and a history of just its source |
| Engine.SimulationEngine.SendDataPacket | simulation.py:247-268 | nothing past the goal; otherwise one packet, and in TCP a new token with its timeout |
| Engine.SimulationEngine.StartTimer | simulation.py:261-268 | the sequence is awaited under a token of its own, with a timeout 950 ms away |
| Engine.SimulationEngine.SendAckPacket | simulation.py:270-280 | one ACK from the destination, counted as sent and as acknowledgement |
| Engine.SimulationEngine.OnTimeout | simulation.py:406-411 | only the live token of the awaited sequence of a run in progress retransmits |
| Engine.SimulationEngine.RunDueEvents | simulation.py:184-187 | the popping loop ends and computes the state the event-loop theorem is about |
| Engine.SimulationEngine.RecordDrop | simulation.py:413-428 | one more dropped packet, on record with its reason |
| Engine.SimulationEngine.LaunchLink | simulation.py:319-364 | one flight, or two with the duplicate's new id, past and counters |
| Engine.SimulationEngine.DispatchRouter | simulation.py:191-210 | busy or empty routers wait; otherwise the head of the queue is handled |
| Engine.SimulationEngine.HandleHead | simulation.py:195-210 | the head leaves its queue, the router is busy for 45 ms, and the first matching rule or the table decides |
| Engine.SimulationEngine.HandlePacket | simulation.py:199-210 | dropped and recorded, sent where the rule says, or sent to the table's next hop |
| Engine.SimulationEngine.DispatchRouters | simulation.py:189-210 | one pass over the routers in ascending order, each once |
| Engine.SimulationEngine.OnDataReceived | simulation.py:384-391 | a sequence is counted once however often it arrives; TCP acknowledges every arrival |
| Engine.SimulationEngine.OnAckReceived | simulation.py:393-404 | only the awaited ACK counts; it completes the run or schedules the next sequence in 150 ms |
| Engine.SimulationEngine.HandleArrival | simulation.py:233-245 | delivered at its destination, queued at the next router otherwise |
| Engine.SimulationEngine.AdvanceOne | simulation.py:214-229 | one turn of the loop keeps done and still-to-do flights on course for the pass's result |
| Engine.SimulationEngine.AdvanceInFlightPackets | simulation.py:212-231 | collecting survivors on the side while arrivals are handled gives the same as ending flights one by one in place |
| Engine.StepOver | simulation.py:212-231 | arrivals neither see nor touch the flight list, so replacing it only at the end is the same |
| Engine.SortIsAscending | simulation.py:190 | sorting the ids keeps each once, in ascending order |
| Engine.SimulationEngine.IsNetworkIdle | simulation.py:442-444 | true iff every queue, the links and the timers are empty |
| Engine.SimulationEngine.FinishRun | simulation.py:446-451 | ends a running run once, with its end time |
| Engine.SimulationEngine.FinishIfDone | simulation.py:117-122 | ends the run iff its mode's work is done and nothing is left, or 25 s are over; `Endings.FinishedExactly` says so of queues, flights, timers and clock |
| Engine.SimulationEngine.Advance | simulation.py:112-115 | clock, timers, routers and links in this order |
| Engine.SimulationEngine.Update | simulation.py:107-122 | one frame of any length keeps every invariant and cannot raise |
| Engine.SimulationEngine.SetMode | simulation.py:124-126 | the new mode starts from a clean state that satisfies every invariant |
| Engine.SimulationEngine.ToggleMode | simulation.py:128-129 | the other mode, clean, with every invariant |
| Engine.SimulationEngine.ToggleTrafficProfile | simulation.py:149-151 | the other port, clean, with every invariant |
| Engine.SimulationEngine.RebuildRouters | simulation.py:164-177 | fails iff the topology is not connected; otherwise fresh routers with fit tables, and a router has the rule iff SDN is on and it is the firewall of the topology shown |
| Engine.SimulationEngine.RulesAlwaysStand | sdn_router.py:41-69 | between any two calls a router has the rule iff SDN is on and it is the firewall of the topology shown |
| Engine.SimulationEngine.ToggleSdn | simulation.py:144-147 | flips the setting; a router then has the rule iff SDN is on and it is the firewall of the topology shown; clean with every invariant; it cannot fail |
| Engine.SimulationEngine.CycleTopology | simulation.py:131-134 | succeeds iff there is a next preset and it is connected; the manager shows it, and the engine is clean with the old end points, mode and port, and has every invariant if those ends fit |
| Chunks.LoadData | 03-reliable/src/server.cpp:29-44 | the chunks put together are the text and NULs up to a whole number of chunks, and no more chunks than needed |
| Chunks.IdRoundTrip | 03-reliable/src/server.cpp:133-134 | an id written as two bytes is read back, whatever follows it on the stream |
| Chunks.ReadsFrames | 03-reliable/src/sender.cpp:25-39 | fixed-size reads find exactly the frames that were written, first to last |
| Chunks.ReadsIds | 03-reliable/src/server.cpp:126-134 | the server reads exactly the ids that were requested, first to last |
| Server.PassesAgree | 03-reliable/src/server.cpp:87-118 | in every mode the frames written answer exactly the entries the erase pass removes, in order, each with its own chunk once or, in chaos mode, perhaps twice, and what is sent and what stays keep their order; what stays is not due |
| Server.RepliesAnswer | 03-reliable/src/server.cpp:87-112 | the frames of a send pass are the expired requests' own chunks in order, once or (chaos only) twice |
| Server.AnswersAppend | 03-reliable/src/server.cpp:79-118 | answers of successive passes, one after the other, answer the requests of all of them |
| Server.EachIsAnswered | 03-reliable/src/server.cpp:87-112 | no answered request is without a frame of its own chunk |
| Server.FramesForRequests | 03-reliable/src/server.cpp:101-107 | no fewer frames than requests answered and no more than two for each |
| Server.SendingKeepsOk | 03-reliable/src/server.cpp:87-118 | accepted requests are waiting, in the order they came in, or answered, after their delay, and the frames sent so far are exactly the answers |
| Server.RequestKeepsOk | 03-reliable/src/server.cpp:133-177 | the queue never exceeds ten entries, all for real chunks |
| Server.RefusedExactly | 03-reliable/src/server.cpp:137-177 | in every mode a request is refused iff it is invalid, swallowed by a burst or starts one, lost, or finds the queue full, and then only the count of a burst changes; any other waits behind the rest, due exactly its delay after it came in |
| Server.DelaysAreKept | 03-reliable/src/server.cpp:172-177 | whatever has been answered was accepted, and answered more than its own delay after it came in, unless there are to be no delays |
| Server.OneReplyEach | 03-reliable/src/server.cpp:87-112 | outside chaos mode every expired request is answered exactly once, in order, with its own chunk |
| Server.RepeatedExactly | 03-reliable/src/server.cpp:101-107 | a chaotic server writes one frame more for exactly the answers the dice repeat, and none outside chaos mode |
| Server.RepliesAreTrue | 03-reliable/src/server.cpp:87-112 | in every mode each frame carries the chunk its id names, for an expired request |
| Server.RequestHandler.ProcessDelayed | 03-reliable/src/server.cpp:87-118 | both loops together send the replies and leave the rest in order |
| Server.RequestHandler.SendExpired | 03-reliable/src/server.cpp:87-112 | the loop over the queue writes one frame per expired entry, or two by chance in chaos mode |
| Server.RequestHandler.EraseExpired | 03-reliable/src/server.cpp:114-118 | what is not expired stays, in order |
| Server.RequestHandler.HandleRequest | 03-reliable/src/server.cpp:126-177 | all refusals in their order, otherwise queued for the delay that was drawn, and the queue stays sound |
| Inbox.Sender.StoreMsg | 03-reliable/src/sender.cpp:33-41 | a full inbox drops the newest frame and keeps the others |
| Inbox.Sender.DataReady | 03-reliable/src/sender.cpp:52-55 | true iff there is something to take |
| Inbox.Sender.GetMsg | 03-reliable/src/sender.cpp:57-70 | the shifting loop takes the oldest frame and keeps the order of the rest; it aborts iff the inbox is empty |
| Inbox.DeliverKeepsOrder | 03-reliable/src/sender.cpp:33-41 | consumed and waiting frames are exactly those read that did not find ten waiting |
| Inbox.StoredIsSubsequence | 03-reliable/src/sender.cpp:33-41 | and so a subsequence of those read |
| Client.AskedExactly | 03-reliable/src/client.cpp:42-52 | an id is requested iff it is in range, not here, and new or timed out |
| Client.WindowIsCovered | 03-reliable/src/client.cpp:42-52 | a pass asks for exactly the chunks of the ten from next_expected on that are not here and not asked for within 700 ms, stamps exactly those, changes nothing else, and leaves none in the window to be asked for |
| Client.MsgKeepsOk | 03-reliable/src/client.cpp:55-69 | unknown and repeated ids are ignored; a new chunk is stored where it belongs, and no other is touched |
| Client.WritingKeepsOk | 03-reliable/src/client.cpp:71-76 | the file stays the first next_expected chunks and writing stops only at a gap or the end |
| Client.Receiver.RequestWindow | 03-reliable/src/client.cpp:36-52 | asks for exactly what is wanted in the window, in order, and stamps exactly that; the window ends with the last chunk at the latest |
| Client.Receiver.RequestUpTo | 03-reliable/src/client.cpp:42-52 | the loop asks for new and timed-out chunks below the end of the window, in order, and touches no other |
| Client.Receiver.Receive | 03-reliable/src/client.cpp:57-68 | stores a message at most once, at its own place, and makes progress iff it does |
| Client.Receiver.WriteInOrder | 03-reliable/src/client.cpp:71-76 | the write loop appends the ready chunks in order and makes progress iff there is one |
| Transfer.NextOk | 03-reliable/src/client.cpp:35-81 | every turn of client, reader thread or server keeps the whole system sound, in any interleaving |
| Transfer.Run | 03-reliable/src/client.cpp:35-81 | every state of every run is sound: true frames on the streams and in the inbox, a sound queue at the server, and the file as it should be |
| Transfer.FileIsAlwaysAPrefix | 03-reliable/src/client.cpp:71-76 | at any time the file is the first next_expected * 128 bytes of the padded text |
| Transfer.FinishedFileIsTheText | 03-reliable/src/client.cpp:35-83 | when the loop ends the file is the padded text iff the server has NUM_MSGS chunks, its beginning if there are more; with fewer it never ends |
| Transfer.WindowBoundsTheBuffer | 03-reliable/src/client.cpp:37-52 | nothing beyond the window is ever held, and what is held was asked for and is the server's chunk |
| Transfer.InboxIsFifoWithTailDrop | 03-reliable/src/sender.cpp:33-41 | over every run consumed and waiting frames are those read, in order, without exactly those that found ten waiting |
| Transfer.AcceptedIsAnsweredOnce | 03-reliable/src/server.cpp:87-118 | over every run accepted requests are due exactly their delay after they came in; they are those waiting, in that order, and those answered, none before its delay has passed; the frames read and the bytes still on the socket are the answers in order, one each, or perhaps two in chaos mode |
| Transfer.ReadyMeansGettable | 03-reliable/src/client.cpp:55-56 | after data_ready said yes, whatever the other threads do, get_msg finds the same frame |
| Completion.FetchNext | 03-reliable/src/client.cpp:42-69 | from every reachable state there are turns that get the next missing chunk to the client, bursts and full queues notwithstanding |
| Completion.TransferCanAlwaysFinish | 03-reliable/src/client.cpp:35-81 | from every reachable state, on clocks that run forward, some turns complete the file, iff the server has at least NUM_MSGS chunks |
| Fairness.RoundAdvances | 03-reliable/src/client.cpp:35-81 | a round in which everybody gets his turns and nothing is dropped gets the next chunk written, whatever else happens in between |
| Fairness.FairRunsFinish | 03-reliable/src/client.cpp:35-81 | every run that goes through NUM_MSGS such rounds, and any number of spoilt ones, with any turns between them, has completed the file |
| StoreForward.TickConserves | 05-topology/src/router.cpp:26-70 | a tick neither creates nor forgets a message, whatever the tables |
| StoreForward.AddExactly | 05-topology/src/manager.cpp:13-21 | an added message is last in the queue of the first router with its source's id, and no other queue changes |
| StoreForward.TicksExactly | 05-topology/src/router.cpp:26-70 | what a tick does to each router: before its time nothing; past it the held message is last at its next hop, and the head of the queue is received, or held for exactly its link's delay; queues are first in, first out |
| StoreForward.PassExactly | 05-topology/src/manager.cpp:7-11 | a pass is one such tick of every router in order, each by its own clock |
| StoreForward.SendHeldTotal | 05-topology/src/router.cpp:37-49 | for any weight: what is held becomes queued at its hop, or is lost where there is no such router |
| StoreForward.TakeNextTotal | 05-topology/src/router.cpp:51-69 | for any weight: what is queued becomes received here or held for its next hop |
| StoreForward.FinishedExactly | 05-topology/src/manager.cpp:23-30 | finished() iff every added message was received or lost, whatever the tables |
| Fates.FateIsCheckable | 05-topology/src/router.cpp:62-65 | looking as many hops ahead as there are routers decides whether a message is delivered and whether it leaves at all |
| Fates.TickFates | 05-topology/src/router.cpp:26-70 | a tick dooms no message and saves none, whatever the tables; without looping messages it lowers the effort left iff it does anything |
| Program.PassProgresses | 05-topology/src/manager.cpp:7-11 | one pass makes progress if any router with work is past its time, whatever the others do before it |
| Program.AddFates | 05-topology/src/manager.cpp:13-21 | an added message is one more doomed or looping one exactly as its look-ahead says; an unknown source is ignored |
| Program.FinishedMeansReceivedExactly | 05-topology/src/manager.cpp:23-30 | from any state: when finished() holds exactly the doomed messages are lost, so everything was received iff none was; with one, received never reaches added |
| Program.MainLoopEndsExactly | 05-topology/src/main.cpp:27-29 | with a message that goes round for ever finished() never holds; without one it holds once more passes have found a router past its time than there is effort left, blocked passes notwithstanding |
| Program.EverythingArrivesExactly | 05-topology/src/main.cpp:27-29 | once that many passes have been unblocked everything has been received iff no message was doomed |
| Program.ProgramReceivesAllExactly | 05-topology/src/main.cpp:22-29 | when the program ends, every message main added has been received iff the look-ahead delivers each of them |
| Program.ProgramEndsExactly | 05-topology/src/main.cpp:27-29 | once that many passes have been unblocked, among any number of blocked ones, the program has ended iff by the look-ahead none of the messages goes round for ever |
| Clocks.OneMorePass | 05-topology/src/router.cpp:31-35 | a pass does something, or every router with work was still waiting, and no wait is longer than a link takes |
| Holding.HeldForItsDelay | 05-topology/src/router.cpp:31-35 | a message taken is not touched by its router before the delay of its link has passed |
| Holding.OthersLeaveHeld | 05-topology/src/router.cpp:26-36 | and other routers' ticks leave what it holds, and until when, as it is |
| Clocks.ProgramEndsInTime | 05-topology/src/main.cpp:27-29 | however fast the loop spins: after one link delay and one pass for each of 2 n + 2 moves per message it has ended iff none goes round for ever, and everything has been received iff the look-ahead delivers each |
| Holding.ProgramTakesItsTime | 05-topology/src/main.cpp:27-29 | until k m ms have passed, for a message with k hops to go over links of at least m, a message for its destination is under way (itself, if no other goes there) and the program not finished |
| Clocks.MainReceivesBoth | 05-topology/src/main.cpp:7-29 | main's own three routers receive both messages within 16 seconds and 16 passes |
| Holding.MainTakesTwoSeconds | 05-topology/src/main.cpp:7-29 | the message of main from 1 to 3 is under way, and main not finished, before two seconds have passed |
| Program.MissingEntryLosesTheMessage | 05-topology/src/router.cpp:63-65 | a missing table entry means router 0: a concrete message that is lost although the program finishes |
| TopologyManager.Manager.FindRouter | 05-topology/src/router.cpp:39-44 | the scan with its break finds the first router with the id |
| TopologyManager.Manager.AddMessage | 05-topology/src/manager.cpp:13-21 | the message is queued at the first router with the source's id |
| TopologyManager.Manager.TickRouter | 05-topology/src/router.cpp:26-70 | the guards, the sending and the preparing in this order, on the shared vector in place |
| TopologyManager.Manager.ForwardHeld | 05-topology/src/router.cpp:37-49 | the held message is queued at its next hop, also when that is the router itself, and no longer held |
| TopologyManager.Manager.PrepareNext | 05-topology/src/router.cpp:51-69 | the next message is received here, or held for the delay of its link; `StoreForward.TicksExactly` says how long |
| TopologyManager.Manager.Tick | 05-topology/src/manager.cpp:7-11 | every router once, in order, each seeing what the earlier ones did |
| TopologyManager.Manager.IsFinished | 05-topology/src/manager.cpp:23-30 | the scan with its early return answers for all routers |
| HopTrace.Forward | packet-forward/forward.py:6-12 | an entry for the destination wins, otherwise that for "*"; it raises iff there is neither |
| HopTrace.FollowsTables | packet-forward/forward.py:6-12 | what forwarding visits is what the tables name, node by node |
| HopTrace.GetPacketRoute | packet-forward/forward.py:14-39 | each hop reported is the entry of the node before it for the destination, or for "*" if it has none; the trace ends at the destination's first visit, in the drop mark after the limit, or raises where a node has neither entry |
| HopTrace.ArrivesExactly | packet-forward/forward.py:16-31 | a destination k hops away is reported with k + 1 nodes iff k <= max_hops - 2, and never with an error |
| HopTrace.ArrivesInTime | packet-forward/forward.py:16-31 | what arrives at all does so within as many hops as there are other routers |
| HopTrace.DroppedMeansUnreachable | packet-forward/forward.py:19-22 | with a limit of at least the other routers + 2, the drop mark proves that forwarding never arrives |
| HopTrace.RouterCountSuffices | packet-forward/forward.py:19-22 | for n routers including the destination, max_hops >= n + 1 is enough for that |

## Left out

- Times are integers. The frame lengths are whole milliseconds in `main.py`, and a real link delay
  rounded up gives the same arrivals. A packet launched in a frame is also advanced by that frame, as in the code.
- Random loss, delay, chaos bursts and duplication: any choice is allowed instead, which includes every
  choice the code can make.
- Packets, flights and routers of the simulator are values held in fields of the engine, each referred to
  from one place only; the dictionary of routers is a sequence in ascending order of ids, the event heap a
  sorted list and the heap of the route search a multiset. Aliasing and the iteration order of
  dictionaries are not captured: neighbours are relaxed in an arbitrary order.
- Exceptions of the simulator set `failed`, which is proved to stay false; after one nothing is claimed.
- The lifetime of packet events, status and control text, the renderer, node positions and `main.py`:
  user interface. The labels, session ids and protocol names of packets: never read by the engine.
- The contents of the Bottleneck Path preset and of the table of firewall nodes: the general results hold for
  any presets and any table.
- `create_graph`: the same calls as loading a topology, with a default delay.
- Routing.GraphManager.GetRoute: negative delays and links to unknown nodes are excluded; neither can
  arise from a preset.
- Delivery.TcpDelivers: the turns of all routers on the way are added up, although each has only two for a
  transmission; a condition on each router alone would need the order in which packets leave the queues that data
  and acknowledgements share. A loss is charged a whole round trip beside the timeout, also where an earlier
  repeat is already on its way.
- Chunks.LoadData: does not model the wrap-around of the 32-bit index, which a text shorter than 2^32 - 127
  bytes never reaches.
- Sockets: a TCP connection is taken as a reliable stream of bytes between hosts of little-endian order. The
  clocks of the transfer may read anything at any time, also backwards.
- The server's heartbeat (server.cpp:75-84, 179-182): a connection on which no request was accepted for five
  seconds is closed, so that a transfer still going on would stop.
- Reconnecting, socket errors, command-line flags, logging and sleeping: plumbing.
- HopTrace.Forward: a table that maps an address to None, which the code treats as having no entry, cannot
  be written down in the model; no table in the repository is like that.
- TopologyManager.Manager.PrepareNext: the insertion of a zero entry by `operator[]` on a missing key is not
  modelled; the value read is the same zero.
- `packet-forward/sdn.py`: the same tracing again, with rules.
