# Network simulator: verified model

A Dafny model of a discrete-event network simulator with three backends, and proofs of what its runs do.

- **Event queue.** `StableQueue` is the flat reference: a queue ordered by time, and among equal times by the order of
  scheduling. `EventQueues` is the program's list of event lists as a class, proved against it.
- **Congestion-aware backend.** `Network` is the simulator as a state machine: links that serve one chunk at a time,
  chunks that hop along routes, two kinds of event. `Devices` and `Simulator` are the objects (chunk, link, device, the
  world around them) whose methods update their fields; each method is proved to carry out the corresponding step.
  `Runs` defines runs: events one at a time, with chunks handed in by the user at any moment, between events or from a
  callback (`Replies` is what callbacks send). On runs rest the theorems about order (`Ordering`, `Overtaking`), times (`Timing`, `LowerBounds`), the number
  of events and the length of a run (`Accounting`, `Makespan`) and delivery (`Delivery`). `Collectives` puts it all
  together: an all-gather on a ring, from the constructor of the ring to the last event.
- **Routing.** `Paths` says what the best route is, without reference to any search: the shortest, and among the shortest
  the least in dictionary order of device ids. `Routing` is the breadth-first search over arrays, `RouteTable` the table of
  all routes and what becomes of a chunk that follows it.
- **Reconfiguration.** `Drain` is the drain-then-swap protocol as a state machine over all links; `Respects` spells out
  what its users must respect for it to work. `DrainTheorems` has its safety and progress. `DrainLimits` says exactly which
  requests and sends are unsafe, and when a link without bandwidth serves a chunk. `Reconfigurable` and `TopologyManagers` are the device and manager objects, proved against it.
- **Address and ring arithmetic.** `Rings`, `MultiDim` and `Backends`: ring links and routes, mixed-radix addresses, and
  how the congestion-unaware estimate relates to the simulated time.

Times are whole nanoseconds of unbounded size. Bandwidths, latencies and quotients are exact reals, and a delay is
truncated where the program converts it to its event time. What the program asserts of its callers is a precondition.

## Results that hold only under a condition

- *Order on a link.* With a fractional latency a chunk can overtake the one served before it. `Overtaking.InOrderIff`: for
  chunks of any given sizes, a link delivers in order in every run if and only if no such chunk's communication delay exceeds
  its serialization delay by more than another one's communication delay. Chunks of one size always stay in order
  (`Delays.OneSizeKeepsOrder`), those of any sizes do for the figures that `Delays.KeepsOrderIff` names, and
  `Overtaking.Overtaken` gives the overtaking run for any link and sizes where one exists.
- *Following the route table.* A reconfigurable device replaces a chunk's route by its own entry for the next device on it,
  not for the destination. `RouteTable.DeliveredIff`: a chunk sent towards a device that can be reached gets there if and
  only if the table's route has at most two hops.
- *Draining.* No link is reconfigured while it is busy if no chunk is started by sending it during a drain, and if neither a
  chunk is started on an idle link whose event from the last swap is still outstanding nor a reconfiguration accepted while
  there is such a link. `Drain.KeepsIffRespects`: the protocol's invariant survives exactly these actions.
  `DrainLimits.RequestSafeIff`: an accepted request can lead to a swap under a busy link if and only if some link is busy and
  another is idle with its event outstanding; `DrainLimits.SendSafeIff`: a send during a drain can if and only if it starts
  its chunk; and `DrainLimits.StartSafeIff`: outside a drain, a chunk that is started can see its link set free before it is
  through if and only if an event of the link is outstanding. `DrainLimits.CountedTwice` is such a run; `DrainLimits.LoneDeviceNeverSwaps` shows why two devices are needed.
- *Bandwidth.* A link that becomes free serves what it holds up without a look at its bandwidth.
  `DrainLimits.ServedWithoutBandwidthIff`: a link without bandwidth can come to serve a chunk if and only if one has an event
  outstanding and a chunk to let go, or the swap to come will leave one that way; `DrainLimits.ServedWithoutBandwidth` is a
  run of users who respect the protocol in which it happens.
- *Rings.* `Rings.BuildableIff`: the constructor makes no connection twice if and only if the ring is unidirectional or has
  at least three NPUs.

## Model

| member | source | states |
|---|---|---|
| StableQueue.ReplayIsPriorityQueue | common/event-queue/EventQueue.cpp:26-82 | After any sequence of schedulings and takings, the queue is the content of a reference bag from which always the event due first, and among those the one scheduled first, is taken; laid out in that order |
| StableQueue.LineUnique | common/event-queue/EventQueue.cpp:54-82 | A bag of stamped events has only one order by (time, scheduling number): the reference leaves no choice |
| StableQueue.InsertKeepsLine | common/event-queue/EventQueue.cpp:60-81 | Insertion puts a new event behind those that are due no later and in front of all others, so that the order by (time, scheduling number) is kept |
| EventQueues.PutStable | common/event-queue/EventQueue.cpp:60-81 | Adding an event to the list of lists, read off list by list, is insertion into the flat queue |
| EventQueues.PutOrdered | common/event-queue/EventQueue.cpp:66-81 | List times stay strictly increasing, no list is empty, nothing is earlier than the current time |
| EventQueues.EventQueue.ScheduleEvent | common/event-queue/EventQueue.cpp:54-82 | The scan finds the place: the content afterwards is the flat insertion, also when events are scheduled at the current time while a list is being executed |
| EventQueues.EventQueue.Advance | common/event-queue/EventQueue.cpp:36-45 | The list taken off holds exactly the events due first, in order; time does not decrease and what is left is later |
| Delays.DelaysAre | congestion_aware/network/Link.cpp:111-129 | The serialization delay is the whole part of size over bandwidth, the communication delay that of latency and transfer together |
| Delays.GigabytesPerSecond | common/NetworkFunction.cpp:13-20 | A gigabyte is 2^30 bytes, a second 10^9 nanoseconds |
| Delays.DelayGap | congestion_aware/network/Link.cpp:111-129 | A communication delay exceeds the serialization delay by the truncated latency or one more |
| Delays.WholeLatencyKeepsOrder | congestion_aware/network/Link.cpp:111-129 | With a whole latency no chunk of any size can be overtaken |
| Delays.OneSizeKeepsOrder | congestion_aware/network/Link.cpp:111-129 | Whatever the latency, chunks of one size cannot overtake each other |
| Delays.KeepsOrderIff | congestion_aware/network/Link.cpp:111-129 | No chunk of any size can be overtaken iff the smallest one's delay exceeds the truncated latency, or the latency's fraction never tips a delay over |
| Network.StepKeeps | congestion_aware/network/Link.cpp:35-51 | Every event keeps the invariant: a link is busy iff exactly one event is going to free it, an idle link holds up nobody, every chunk is in exactly one place and has its own event iff it is in flight; the clock does not go back |
| Network.InjectKeeps | congestion_aware/topology/Topology.cpp:57-68 | So does handing in a chunk with a route over existing links |
| Network.FreeKeeps | congestion_aware/network/Link.cpp:35-51 | When a link's event happens the link was busy until that very time; afterwards it is idle with nobody held up, or the first chunk held up is about to take it |
| Network.LandKeeps | congestion_aware/network/Chunk.cpp:14-32 | When a chunk's event happens the chunk was in flight until that very time and had a hop to go, so the assertions on the way hold |
| Network.TransmitKeeps | congestion_aware/network/Link.cpp:131-168 | Starting a transmission on an idle link schedules the arrival and the link's event, each once, and keeps the invariant |
| Runs.RunKeeps | common/event-queue/EventQueue.cpp:26-52 | The invariant holds after every run |
| Accounting.StepWork | congestion_aware/network/Link.cpp:131-168 | For every weighing of hops, the weight still owed plus the weight begun is the same after an event as before |
| Accounting.InjectWork | congestion_aware/topology/Topology.cpp:57-68 | A chunk handed in adds the weight of its route |
| Makespan.StepEvents | congestion_aware/network/Link.cpp:131-168 | Twice the hops not yet begun plus the events outstanding goes down by exactly one with every event |
| Makespan.EventCount | congestion_aware/network/Chunk.cpp:14-32 | A run from the empty simulator until no event is left takes exactly two events for every hop of every chunk |
| Makespan.RunToEnd | congestion_aware/example.cpp:49-52 | From every reachable state, exactly as many events as are owing bring the simulator to rest |
| Makespan.QuietIsDone | congestion_aware/network/Link.cpp:35-51 | With no event left, every chunk is at its destination, every link idle and nobody held up |
| Makespan.RunDeadline | congestion_aware/network/Link.cpp:121-168 | The latest time settled plus all communication delays still owed never grows but by what is handed in |
| LowerBounds.LinkTime | congestion_aware/network/Link.cpp:111-168 | No run ends before each link has had the serialization delays of all chunks that cross it |
| LowerBounds.ChunkTime | congestion_aware/network/Link.cpp:121-168 | No chunk is delivered before the sum of its hops' communication delays |
| LowerBounds.LastTime | congestion_aware/example.cpp:38-55 | No run ends after the sum of all communication delays of all hops of all chunks |
| LowerBounds.LoneChunk | congestion_aware/network/Link.cpp:121-168 | A chunk alone takes exactly the sum of its hops' communication delays |
| Delivery.DeliveredOnce | congestion_aware/network/Chunk.cpp:14-32 | Once no event is left, each chunk has crossed the links of its route in order, each once, and its callback was invoked exactly once, at the last device |
| Delivery.NobodyElse | congestion_aware/network/Chunk.cpp:14-32 | And no callback but those of the chunks handed in has been invoked |
| Ordering.FirstSentFirstServed | congestion_aware/network/Link.cpp:72-94 | In every run, what was sent into a link is what it began to transmit, in order, followed by what it holds up |
| Ordering.FirstSentFirstLanded | congestion_aware/network/Link.cpp:72-168 | If its delays keep the sizes sent over it in order, a link's chunks come out at the far side in the order they were sent, also those that arrive at the same time |
| Overtaking.InOrderIff | congestion_aware/network/Link.cpp:111-168 | For any set of sizes: a link delivers chunks of these sizes in order in every run iff its delays keep them in order |
| Overtaking.Overtaken | congestion_aware/network/Link.cpp:111-168 | Otherwise there is a run of two chunks of these sizes in which the second comes out first |
| Timing.ServedApart | congestion_aware/network/Link.cpp:131-168 | Service intervals of one link never overlap, and a chunk served later comes out at most one nanosecond before one served earlier |
| Timing.SendSettles | congestion_aware/network/Link.cpp:72-94 | When a chunk is handed to a link, its arrival is settled: after everything the link was given before |
| Timing.DeliveredWhenDue | congestion_aware/network/Link.cpp:35-51 | A chunk on its last hop is delivered exactly then, whatever is handed in and happens meanwhile |
| Timing.BurstTimes | congestion_aware/network/Link.cpp:72-168 | Of chunks of any sizes sent over one link at once, the j-th arrives at the sum of the serialization delays before it plus its own communication delay, after what the link had to do already |
| Devices.Link.Send | congestion_aware/network/Link.cpp:72-82 | A busy link holds the chunk up at the end; an idle one schedules its arrival and its own event, in that order |
| Devices.Link.BecomeFree | congestion_aware/network/Link.cpp:35-51 | The chunk held up longest is taken, or the link is idle |
| Devices.Link.ScheduleChunkTransmission | congestion_aware/network/Link.cpp:131-168 | The link is busy; the queue has the arrival and the link's event in it |
| Devices.Device.Connect | congestion_aware/network/Device.cpp:45-55 | A new idle link and nothing else changed; a connection is not made twice |
| Devices.Device.Send | congestion_aware/network/Device.cpp:23-43 | The chunk goes to the link to its next device, and only that link and the queue change |
| Devices.Connect | congestion_aware/topology/Topology.cpp:70-90 | The links afterwards are those before and the new one or two, which are idle and fresh |
| Simulator.World.Send | congestion_aware/topology/Topology.cpp:57-68 | Handing a chunk to the objects is handing it in in the state machine |
| Simulator.World.ChunkArrived | congestion_aware/network/Chunk.cpp:14-32 | The objects follow the state machine when a chunk arrives: callback at the last device, otherwise sent on |
| Simulator.World.LinkBecomeFree | congestion_aware/network/Link.cpp:35-51 | And when a link becomes free |
| Simulator.World.InvokeEvents | common/event-queue/EventList.cpp:30-37 | Executing an event list is that many events of the state machine, each the first of its queue and followed by what its callback sends, although all they schedule goes into the queue without the list |
| Simulator.World.InvokeEvent | congestion_aware/network/Chunk.cpp:23-31 | An event invokes at most one callback, and what is handed in after it is all that the callback sends |
| Simulator.World.Proceed | common/event-queue/EventQueue.cpp:26-52 | Proceeding is a run of one or more events and the answers of their callbacks that begins with the first event due, and moves the clock to it |
| Replies.AnsweringProgress | common/event-queue/EventList.cpp:30-37 | A run of events with callbacks hands in nothing, or finishes at least one of the chunks whose callbacks send |
| Replies.AnsweringHands | congestion_aware/network/Chunk.cpp:23-31 | The chunks handed in by any run of events with callbacks are, in order, all that the callbacks it invoked send |
| Simulator.World.Simulate | congestion_aware/example.cpp:49-52 | If only finitely many callbacks send, the user's loop terminates, after exactly the events owing at its start and two for every hop of what the callbacks sent; and that is, in order, all that the recorded calls say |
| Collectives.RunAll | congestion_aware/example.cpp:38-55 | For any list of chunks with valid routes, and any callbacks that in the end stop sending: what is simulated is the list followed by all that the recorded calls sent; the number of events, each callback once at the right device within its bounds and no other, and both bounds on the finishing time, of the objects |
| Collectives.AllGather | congestion_aware/example.cpp:27-61 | The same for a ring built by its constructor and one chunk for every ordered pair of NPUs along the ring's route |
| Paths.BestUnique | reconfigurable/network/TopologyManager.cpp:212-235 | There is at most one least shortest walk between two devices |
| Paths.BestPrefix | reconfigurable/network/TopologyManager.cpp:225-235 | Every prefix of it is the least shortest walk to where it ends |
| Routing.FoundInOrder | reconfigurable/network/TopologyManager.cpp:212-222 | The order of discovery is the order of (distance, dictionary order of the path over the parents) |
| Routing.QueueSpan | reconfigurable/network/TopologyManager.cpp:212-222 | Distances in the queue are within one of each other |
| Routing.FoundIsBest | reconfigurable/network/TopologyManager.cpp:212-222 | Everything that can be reached has been discovered, over a path as good as any |
| Routing.TreeIsBest | reconfigurable/network/TopologyManager.cpp:212-235 | The path over the parents is the lexicographically least of all shortest walks |
| Routing.InfMeansNew | reconfigurable/network/TopologyManager.cpp:200-221 | An entry is the sentinel iff the device has not been discovered: no distance is that large |
| Routing.Search | reconfigurable/network/TopologyManager.cpp:205-222 | The search terminates with every device enqueued at most once, and the arrays record the tree of discovery |
| RouteTable.GraphOfOk | reconfigurable/network/TopologyManager.cpp:183-194 | The adjacency lists hold exactly the devices with bandwidth to them, increasing and without repetition |
| RouteTable.BuildGraph | reconfigurable/network/TopologyManager.cpp:183-194 | The loops build these lists |
| RouteTable.Reconstruct | reconfigurable/network/TopologyManager.cpp:231-234 | Following the parents terminates, and reversed is the path of the tree |
| RouteTable.PrecomputeRoutes | reconfigurable/network/TopologyManager.cpp:181-238 | For every matrix and every pair, the entry is the lexicographically least of the shortest sequences of devices whose steps all have `bandwidths[a][b] > 0`, and the stub iff there is no such sequence |
| RouteTable.TableIsRouted | reconfigurable/network/TopologyManager.cpp:185-189 | What is best in the graph of the adjacency lists is best in terms of the entries of the matrix |
| RouteTable.TableUnique | reconfigurable/network/TopologyManager.cpp:181-238 | Only one table satisfies that |
| RouteTable.TableConsistent | reconfigurable/network/TopologyManager.cpp:224-236 | Cutting a route at either end gives the table's entry for what is left, and no route repeats a device |
| RouteTable.FirstHopUsable | reconfigurable/network/TopologyManager.cpp:228-229 | The first hop of an entry has bandwidth iff the destination can be reached |
| RouteTable.DeliveredIff | reconfigurable/network/Device.cpp:94-115 | A chunk that follows the table is delivered iff the table's route has at most two hops |
| RouteTable.Journey | reconfigurable/network/Device.cpp:94-115 | Otherwise it ends at the second device on the way |
| Links.PairsCount | reconfigurable/network/TopologyManager.cpp:53-67 | The loops pass every ordered pair of different devices once: n(n-1) of them |
| Drain.DoKeeps | reconfigurable/network/TopologyManager.cpp:53-165 | Whatever respectful users do keeps the invariant: during a drain the counter is the number of idle links and less than n(n-1), busy links have exactly one event and idle ones none, and devices are one iteration behind the manager during a drain and level with it otherwise |
| Drain.KeepsIffRespects | reconfigurable/network/TopologyManager.cpp:53-165 | And nothing else keeps it |
| Drain.InitInv | reconfigurable/network/TopologyManager.cpp:10-45 | It holds at the start |
| Drain.IdleComplete | reconfigurable/network/TopologyManager.cpp:83-86 | The counter's target is met iff every link is idle |
| DrainTheorems.SwapsWhenQuiet | reconfigurable/network/TopologyManager.cpp:73-114 | During a drain a link-free event swaps the network iff it leaves every link idle |
| DrainTheorems.SwapIsLegal | reconfigurable/network/Link.cpp:124-132 | So `Link::reconfigure` never meets a busy link |
| DrainTheorems.RequestSwapsWhenQuiet | reconfigurable/network/TopologyManager.cpp:53-67 | An accepted request swaps at once iff all links are idle |
| DrainTheorems.Draining | reconfigurable/network/Device.cpp:44-76 | From its start, a drain owes one event for each busy link and one for each chunk held up there that the old topology still serves, and one more for each such chunk that joins; it goes on exactly until that many have happened |
| DrainTheorems.NewChunksDoNotJoin | reconfigurable/network/Device.cpp:123-128 | Chunks for the topology to come never join |
| DrainTheorems.DrainEnds | reconfigurable/network/Device.cpp:44-76 | The event that completes the number swaps the network |
| DrainTheorems.DrainStarts | reconfigurable/network/TopologyManager.cpp:160-164 | The number is read off the state in which the request came |
| DrainTheorems.DrainNotStuck | reconfigurable/network/Device.cpp:123-134 | During a drain there is always a busy link with its event outstanding |
| DrainLimits.RequestSafeIff | reconfigurable/network/TopologyManager.cpp:116-165 | An accepted request can lead to a swap under a busy link iff some link is busy and some idle link has an event outstanding |
| DrainLimits.SendSafeIff | reconfigurable/network/Device.cpp:94-135 | A send during a drain can lead to one iff it starts its chunk |
| DrainLimits.StartSafeIff | reconfigurable/network/Device.cpp:130-134 | Outside a drain, a chunk that is started can see its link set free too early iff an event of the link is outstanding |
| DrainLimits.OvercountedSwaps | reconfigurable/network/TopologyManager.cpp:79-89 | Once more links have been counted than are idle, the links' events lead to a swap under a busy link |
| DrainLimits.CountedTwice | reconfigurable/network/Link.cpp:125-128 | A run of two devices: a second reconfiguration is accepted while the unchanged link's event is outstanding, that link is counted twice and the swap meets a busy link whose figures change |
| DrainLimits.FirstSwap | reconfigurable/network/Link.cpp:125-128 | The state it begins in is reached by one request from the start |
| DrainLimits.LoneDeviceNeverSwaps | reconfigurable/network/TopologyManager.cpp:56-63 | With fewer than two devices a drain never ends |
| DrainLimits.LoneDeviceRequest | reconfigurable/network/TopologyManager.cpp:160-164 | And every accepted request starts one |
| DrainLimits.ServedWithoutBandwidthIff | reconfigurable/network/Device.cpp:44-76 | The links' events can start a chunk on a link without bandwidth iff such a link has an event outstanding and a chunk that its device lets go, or the drain that is on ends with one |
| DrainLimits.ServedWithoutBandwidth | reconfigurable/network/Device.cpp:64-75 | A run of respectful users: after a swap a chunk is held up for want of bandwidth, and the event of the unchanged link starts it |
| Reconfigurable.Device.Send | reconfigurable/network/Device.cpp:94-135 | The chunk is rerouted, and it is the rerouted chunk that is started, or held up at the end because the link is busy, without bandwidth, or the chunk ahead of the device's topology |
| Reconfigurable.Device.LinkBecomeFree | reconfigurable/network/Device.cpp:44-76 | The first held-up chunk of this topology leaves the queue and is started, or the link is idle and the drain is told; every chunk held up for a link is at its one end and goes to the other next |
| Reconfigurable.Device.Reconfigure | reconfigurable/network/Device.cpp:150-177 | Every link but the device's own gets its figures, its route and one event |
| TopologyManagers.BuildTopology | reconfigurable/topology/Topology.cpp:28-43 | Every device is connected to every device, by pristine links, no connection being made twice |
| TopologyManagers.TopologyManager.constructor | reconfigurable/network/TopologyManager.cpp:10-45 | No topology is current, no drain on, no collective in flight |
| TopologyManagers.FirstRequest | reconfigurable/network/TopologyManager.cpp:116-165 | A new manager accepts a request for any topology from 0 on |
| TopologyManagers.TopologyManager.IncrementCallback | reconfigurable/network/TopologyManager.cpp:73-114 | Counts, resets, or swaps all devices, as the protocol says |
| TopologyManagers.TopologyManager.DrainNetwork | reconfigurable/network/TopologyManager.cpp:53-67 | The loops count the idle links, and if they swap it is at the last pair |
| TopologyManagers.TopologyManager.Reconfigure | reconfigurable/network/TopologyManager.cpp:116-165 | A request for the current topology is accepted and changes nothing; any other is turned down and changes nothing during a drain or while a collective is in flight; the rest are accepted, become current with their figures and routes, and raise the iteration by one |
| TopologyManagers.TopologyManager.RoutesHaveBandwidth | reconfigurable/network/TopologyManager.cpp:101-113 | Between drains, every step of a device's route to a device that can be reached is over a link of the objects that has bandwidth; where none can be, the stub's link has none |
| TopologyManagers.TopologyManager.LinkBecomeFree | reconfigurable/network/Device.cpp:44-92 | A link's event is one step of the protocol, in every state in which the assertion of `Link::reconfigure` is met if it swaps |
| TopologyManagers.TopologyManager.Send | reconfigurable/network/TopologyManager.cpp:240-275 | A chunk without a tag gets the manager's; with the device's route for it, it is started or held up on the first link of that route |
| Rings.Ring.constructor | congestion_aware/basic-topology/Ring.cpp:12-23 | The links are those from a to a+1 modulo the size, and back if bidirectional, all new and idle |
| Rings.BuildableIff | congestion_aware/basic-topology/Ring.cpp:12-23 | No connection is made twice iff the ring is unidirectional or has at least three NPUs |
| Rings.Ring.Route | congestion_aware/basic-topology/Ring.cpp:25-68 | The loop terminates with a route from source to destination over links of the ring, no device twice, of as many hops as the other backend computes; device k is source + k modulo the size, or source - k if the ring is bidirectional and that way round is strictly shorter |
| Rings.NoShorterWalk | congestion_unaware/basic-topology/Ring.cpp:23-49 | No walk over links of the ring is shorter than the computed hop count |
| MultiDim.MultiDimTopology.AppendDimension | congestion_unaware/multi-dim-topology/MultiDimTopology.cpp:44-59 | The count stays the product of the sizes; an address is the old one of the id modulo the old count, followed by the quotient |
| MultiDim.MultiDimTopology.TranslateAddress | congestion_unaware/multi-dim-topology/MultiDimTopology.cpp:61-97 | The loop computes the mixed-radix digits, each in range: digit i is the id over the product of the sizes below i, modulo size i |
| MultiDim.DigitIs | congestion_unaware/multi-dim-topology/MultiDimTopology.cpp:75-87 | Successive quotients and remainders come to that closed form |
| MultiDim.Divides | congestion_unaware/multi-dim-topology/MultiDimTopology.cpp:77-79 | Every division of the denominator is exact |
| MultiDim.IdOfAddress | congestion_unaware/multi-dim-topology/MultiDimTopology.cpp:61-97 | Reading an NPU's address off again gives its id |
| MultiDim.AddressOfId | congestion_unaware/multi-dim-topology/MultiDimTopology.cpp:61-97 | Every vector of digits in range is the address of the NPU it denotes |
| MultiDim.AddressInRangeIff | congestion_unaware/multi-dim-topology/MultiDimTopology.cpp:89-93 | The closing assertions hold for an id iff there is an NPU with it |
| MultiDim.MultiDimTopology.GetDimToTransfer | congestion_unaware/multi-dim-topology/MultiDimTopology.cpp:99-112 | The lowest dimension in which the addresses differ, or none iff they are equal |
| MultiDim.MultiDimTopology.Send | congestion_unaware/multi-dim-topology/MultiDimTopology.cpp:24-42 | Gives up iff source and destination are the same; otherwise the delay between the local ids in the lowest differing dimension, both in range |
| MultiDim.SameNpuIff | congestion_unaware/multi-dim-topology/MultiDimTopology.cpp:24-42 | Different NPUs differ in some lowest dimension, with local ids in range |
| MultiDim.SendIs | congestion_unaware/basic-topology/BasicTopology.cpp:35-61 | A send takes the whole part of its hops' latencies and one transfer, with the hops of a ring in plain arithmetic |
| MultiDim.HopsSymmetricIff | congestion_unaware/basic-topology/Ring.cpp:33-48 | Hop counts there and back agree iff the topology is no unidirectional ring or the NPUs lie half-way round |
| MultiDim.DelaySymmetric | congestion_unaware/multi-dim-topology/MultiDimTopology.cpp:24-42 | In any dimension but a unidirectional ring the way back takes the same dimension and as long |
| Backends.LoneChunkTime | congestion_aware/network/Link.cpp:121-168 | A chunk alone on h links of a kind takes exactly h communication delays |
| Backends.EstimateBound | congestion_unaware/basic-topology/BasicTopology.cpp:48-61 | The estimate exceeds that by at most h-1 nanoseconds, and not at all when the latency is whole |
| Backends.EstimateBoundReached | congestion_unaware/basic-topology/BasicTopology.cpp:48-61 | For every h there is a link on which it exceeds it by h-1 |
| Backends.RingBackends | congestion_unaware/basic-topology/Ring.cpp:23-49 | Both statements for a chunk on a ring, sent along a route of the computed length |

## Left out

- Network configuration, trace files, printing, example programs and build files: input and output only.
- Rounding of floating-point numbers and overflow of 64-bit times: reals with truncation and unbounded times instead.
- Ownership of chunks, callbacks as function pointers with an opaque argument, and the static event queue: events and chunks
  are named by ids, and the simulator is one object. What the callback of a chunk sends is a function of the chunk and of the
  time, and is sent right after the event, since invoking the callback is the last thing the event does.
- `invoke_events` copies its list before executing it; the model's event list is a value, which does the same.
- Times of events in the reconfigurable backend: its link-free events are a bag from which any one may happen next, which
  covers every order that times could impose. Chunks put on a link are recorded, but their
  arrival has no effect on draining and is left out, so that chunks sent on by the devices they arrive at appear as chunks
  sent by users.
- The links of reconfigurable devices to themselves exist but are never sent over or counted.
- `Device::drain_all_flow` is fixed to its value, true; `Device::draining`, `reconfig_time` and the overload of
  `reconfigure` that looks a topology up by its number only pass values on.
- `sort` and `unique` on the adjacency lists: the lists are built increasing and without repetition, so neither does anything.
- The search's sentinel is 10^9; with more devices than that it could be a distance, and the precondition excludes it.
- `FullyConnected` and `Switch` of the congestion-aware backend: every theorem about runs takes any links and any routes
  over them.
- Rings.Ring.constructor: bidirectional rings of one or two NPUs, where the constructor connects twice, are excluded by the
  precondition; BuildableIff shows that they are exactly the ones.
- DrainTheorems.Draining: stated for users that respect the protocol. Without that a drain need not end in a quiet network,
  which is what RequestSafeIff, SendSafeIff and StartSafeIff are about; how many events it then takes is not stated.
- RouteTable.Journey: end-to-end delivery over three or more hops is false of the code and not claimed.
