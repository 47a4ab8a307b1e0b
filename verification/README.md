# A verified model of the network simulator and its replay verifier

The repository simulates an IP network as discrete events: hosts create packets, nodes store them
in a byte-limited buffer, every candidate link is offered each packet, one link wins and paces it
out, and after the link's delay it arrives at the next node or is lost. Everything that happens is
recorded as a trace. A separate verifier replays a trace and checks it against the topology. The two
are written independently; this project models both, and proves that they agree.

## What is modelled

* **Simulator** (`Simulator.dfy`): the simulator as a state machine. The runtime has one thread, so
  what a task does between two await points is one atomic action; actions interleave freely.
  Random rolls are choices of the action, packet ids are any unused ones, time never runs backwards.
  Packets are records in an append-only log; queues refer to records, and each record has one fate.
* **Network, Route, StableSort** (`Network.dfy`, `Route.dfy`, `StableSort.dfy`): the topology, the
  walk over candidate links, CIDR ranges, and stable sorting.
* **Status, Pacing, link tasks** (`Status.dfy`, `Pacing.dfy`, `LinkTasks.dfy`, `LinkMoves.dfy`, `LinkDecisions.dfy`,
  `Wipes.dfy`, `Turns.dfy`): notifiers, the pacer, what the waits of a link's task guarantee, what each of
  its steps decides, exactly when it sends or finds a packet wiped, and whose turn it is.
* **Arrivals** (`Arrivals.dfy`, `Losses.dfy`, `Creations.dfy`): what becomes of a packet that is created or comes off a
  link, which packets are lost there, and how packets are numbered.
* **Order on links** (`LinkOrder.dfy`, `LinkFifo.dfy`, `FifoRuns.dfy`, `QueueContents.dfy`): offers, sends and
  arrivals of each link over whole runs, and what the queues at its far end hold.
* **Replay** (`NodeReplay.dfy`, `BandwidthWindow.dfy`, `Replay.dfy`, `BufferCheck.dfy`, `ReplayTotals.dfy`,
  `ErrorCauses.dfy`, `LinkErrors.dfy`): the verifier as a fold over a trace, with the laws of its counters,
  windows and buffer check, and exactly when it tracks an error.
* **Judgement** (`TraceFlights.dfy`, `TraceHoldings.dfy`, `TraceFacts.dfy`, `TraceCounters.dfy`, `TraceJudgement.dfy`,
  `BufferOrder.dfy`, `Chronicle.dfy`, `Failures.dfy`, `Reports.dfy`): an independent reading of a trace,
  without any replay: who holds what, what flies, what is at fault, what is to be counted. The replay's
  errors, failures and report are proved to be that.
* **Verifier objects** (`ReplayedObjects.dfy`, `Verifier.dfy`, `VerifierMetadata.dfy`): the verifier as the
  source has it, a loop over the steps that updates records of nodes and links in place, proved to
  compute that fold; and how it gets its metadata from the network's specification.
* **Agreement** (`Ledger.dfy`, `Agreement*.dfy`, `Sanity.dfy`, `Runs.dfy`, `RunStates.dfy`,
  `Progress.dfy`, `RunSends.dfy`, `Phantoms.dfy`, `VerifiedRuns.dfy`, `Conservation.dfy`): the relation between a simulator
  state and the verifier's state on its trace, kept by every action; the theorems about all runs.
* **Witness** (`Witness.dfy`): one concrete run, which also shows that runs exist.
* **Devices, Deliveries, Events** (`Devices.dfy`, `InboundQueue.dfy`, `Deliveries.dfy`, `Events.dfy`): nodes,
  links, buffers, pacers and queues as objects, tied to the values of the state machine; deliveries
  over any interleaving of sends and polls; initial statuses.

## Where the code and its documentation differ

The model follows the code. The validation section of the repository's readme promises more than
the code keeps, in four places, each with its exact condition here:

* Packets are never sent from a node while it is down: three paths of a link's task lead to a send
  without another look at the node, a start with bandwidth available, a resumption from a yield, and
  one from the wait for the node itself, which may have gone down again (`SendsThoughDownExactly`,
  `DownSendsExactlyInRuns`, `DownAgainStillSends`).
* Links never exceed their bandwidth: the verifier's window counts both of its ends, so pacing bounds
  the excess by one packet but does not prevent it, neither for a first packet that is too large
  (`FirstSendExceedsIff`) nor for a link in full use (`FullUseExceedsIff`). `LinkOverloadedIff` has the
  exact condition for every run, `PacingBoundsBandwidth` the bound.
* Nodes never exceed their buffer size: routers never do, but a host's packets that wait for the
  application count for the verifier and take no buffer space (`BufferErrorsExactlyInRuns`,
  `TheseAreNeverDrawn`).
* Packets are lost if the link goes down after they were sent: a Down update at the instant of the
  send does not lose them, and the verifier objects (`LandingErrors`, `LossTestsAgree`,
  `OfflineArrivalsReportedExactly`).

`EveryExcusedErrorIsDrawn` is one run in which all of these happen, together with a host that creates a
packet while it is down.

## Model

Functions that only compute have no row of their own; the lemmas and methods about them do.

| member | source | states |
|---|---|---|
| VerifiedRuns.EveryTraceReplays | in-memory-network/src/tracing/simulation_verifier.rs:273-525 | For every topology, every interleaving of task steps and every iteration order of the node map, the trace replays without a fatal error. Each non-fatal error has its cause in the run, and, buffers apart, whatever has such a cause is reported: a send step of a node whose last status event was a Down; a host's creation of the packet while it was down; an arrival of a packet whose send step over that link was at the very instant of a Down update of it; a send of that packet with which the bits in the link's window, added up anew from the run's sends, exceed the bandwidth, by at most that packet. A buffer error gives the usage of a host at the end of an instant at which its unread and phantom bytes outweighed the free and wiped space. At the end the verifier's packet maps are exactly the packets in the nodes and on the links |
| VerifiedRuns.EveryReportIsVerified | in-memory-network/src/tracing/simulation_verifier.rs:198-271 | The recorded steps are already in order, so sorting leaves them alone, and the report is statistics, with the errors that have such a cause |
| VerifiedRuns.BufferErrorsExactlyInRuns | in-memory-network/src/tracing/simulation_verifier.rs:527-541 | In every run, the verdict has a NodeExceedsBufferSize exactly if, after some of the run's actions, an instant ended at which some node's unread and phantom bytes outweighed its free and wiped space |
| VerifiedRuns.OverloadsExactlyInRuns | in-memory-network/src/tracing/simulation_verifier.rs:404-421 | In every run, the verdict has a LinkBandwidthExceeded with these figures exactly if some send of the run, of that packet over that link, brought the usage to that figure, above the bandwidth: the bits of all the link's sends no more than one second older, or for less than 9984 bps a tenth of those no more than ten seconds older. The excess is at most that packet's share |
| VerifiedRuns.LinkOverloadedIff | in-memory-network/src/tracing/simulation_verifier.rs:820-854 | In every run, a link is reported as over its bandwidth exactly if at some send that the run made and its pacer allowed, the bits of the last second, or of the last ten for less than 9984 bps, both ends included, exceed what the bandwidth allows for that time |
| VerifiedRuns.UnusedLinksAreNotOverloaded | in-memory-network/src/tracing/simulation_verifier.rs:404-421 | In every run without a send over a link, that link draws no bandwidth error |
| VerifiedRuns.PhantomsExactlyInRuns | in-memory-network/src/tracing/simulation_verifier.rs:743-775 | In every run, NodeDownPacketReceive is reported exactly if the node is recorded to have created the packet while down, and exactly if a step put it there after a last status event of Down |
| RunSends.RunSendsAreSeen | in-memory-network/src/tracing/simulation_verifier.rs:820-854 | In every run, the sends that the verifier counts for a link are, in time, order and bits, the sends that the link's task made, which its pacer allowed |
| LinkErrors.OfflineArrivalsReportedExactly | in-memory-network/src/tracing/simulation_verifier.rs:291-328 | On every replayed trace, OfflinePacketReceive is tracked exactly if a packet comes off the link into that node that went onto it at `sent`, and the link's last Down update before is at `lastDown`, not before `sent` |
| VerifiedRuns.TheseAreNeverDrawn | in-memory-network/src/tracing/simulation_verifier.rs:290-434 | No run draws MissingLostPacket, OfflinePacketSend, DisconnectedPacketSend, DisconnectedPacketReceive, TooFastPacketReceive, PacketCreatedByRouterNode, NodeUpPacketDroppedOnArrival or PacketSurvivedBufferCorruption; NodeExceedsBufferSize only for hosts; LinkBandwidthExceeded by one packet at most |
| TraceJudgement.VerdictIsJudgement | in-memory-network/src/tracing/simulation_verifier.rs:273-525 | On every trace that can be replayed, for each of the twelve kinds of error that a step can draw: the verdict holds the error exactly if some step is at fault in that way, read off the trace alone. What a node holds, which packets fly and since when, whether a node or link is down, the last clear and the last Down, and a link's usage in seconds are all functions of the steps before |
| Chronicle.ErrorsAreListed | in-memory-network/src/tracing/simulation_verifier.rs:273-525 | On every such trace, the errors stand in the order of the steps: each step adds each of its faults exactly once, in the order of the checks it undergoes, after the error, if any, of the buffer check before it |
| Chronicle.LastCheckIsListed | in-memory-network/src/tracing/simulation_verifier.rs:483-487 | After the last step, the verdict adds the error of one more check, if any |
| TraceJudgement.BuffersAreJudged | in-memory-network/src/tracing/simulation_verifier.rs:527-541 | On every such trace, some buffer error is tracked exactly if at the end of some instant some node holds packets of more bytes than its size |
| BufferOrder.BuffersAreJudgedInOrder | in-memory-network/src/tracing/simulation_verifier.rs:527-541 | On every such trace, each buffer error and each maximum exactly, with the early return: an error names the first node in the map's order that has ever held too much by the end of that instant, with the most it held; a maximum is the most that the node held at the end of an instant until a node before it held too much |
| TraceJudgement.FatalErrorsAreJudged | in-memory-network/src/tracing/simulation_verifier.rs:289-480 | A trace is replayed to its end exactly if every step names a known node and link, takes out of a node what is there, and puts in what is not; else the fatal error is that of the first step that does not |
| Failures.FailuresAreJudged | in-memory-network/src/tracing/simulation_verifier.rs:273-525 | When the replay fails, the report gives that fatal error with exactly the faults of the steps before and of the failing step itself, but for what would be held against a failing send on account of its link, and the buffer errors of the instants that ended before |
| Reports.ReportsAreRight | in-memory-network/src/tracing/simulation_verifier.rs:489-525 | On every trace that can be replayed, the report field by field: each counter of a node has the packets and the bytes of exactly the steps of its kind (sends, receipts, overtaken receipts, duplicates, drops for each of three reasons, drops on arrival, congestion marks), each link has the losses that steps blame on it, and the maxima are the true ones |
| Reports.PeaksInRuns | in-memory-network/src/tracing/simulation_verifier.rs:820-854 | In every run, the peak reported for a link is the largest usage, in seconds, at any of the sends that the link's task made, and zero if it made none |
| Witness.EveryExcusedErrorIsDrawn | in-memory-network/src/tracing/simulation_verifier.rs:273-525 | The five excused kinds do occur: one concrete run of seven actions whose verdict is exactly one error of each, in this order |
| VerifiedRuns.RouterBuffersBalance | in-memory-network/src/network/outbound_buffer.rs:14-28 | In every reachable state of a router, the verifier's usage plus the bytes dropped by clears is capacity minus available; cleared space is never released |
| VerifiedRuns.NodeBuffersBalance | in-memory-network/src/network/node.rs:120-134 | The same for hosts, with what applications have yet to read and packets created while down set apart |
| VerifiedRuns.BufferExceededIff | in-memory-network/src/tracing/simulation_verifier.rs:527-541 | The verifier counts more in a node than its buffer exactly if unread and phantom bytes exceed the free and the wiped space |
| VerifiedRuns.WaitsEndReadyInRuns | in-memory-network/src/network/link.rs:177-233 | In every run, under any status events, a wait that ends for an unhandled packet ends with the link up and the pacer free |
| VerifiedRuns.OnlyYieldedTasksFail | in-memory-network/src/network/link.rs:147-148 | In every run, only a task that yielded to preferred links and then lost its link can fail an assertion in `send` |
| ErrorCauses.DownSendsReportedExactly | in-memory-network/src/tracing/simulation_verifier.rs:671-697 | On every replayed trace, NodeDownPacketSend is tracked exactly if some step sends the packet from the node and the last event before it to set the node's status was a Down |
| ErrorCauses.BufferErrorsAreReal | in-memory-network/src/tracing/simulation_verifier.rs:527-541 | On every replayed trace, a NodeExceedsBufferSize gives a usage that the node did have at the end of some instant, and that exceeds its size |
| ErrorCauses.DownReceiptsReportedExactly | in-memory-network/src/tracing/simulation_verifier.rs:743-775 | On every replayed trace, NodeDownPacketReceive is tracked exactly if some step puts the packet into the node (newly made, off a link and not dropped, or as a duplicate) and the last event before it to set the node's status was a Down |
| VerifiedRuns.NoEventsNoDownErrors | in-memory-network/src/tracing/simulation_verifier.rs:671-697 | In every run without an event that sets a node's status, that node draws no error for sending or receiving while down |
| VerifiedRuns.DownSendsExactlyInRuns | in-memory-network/src/network/link.rs:177-247 | In every run, the verdict reports a packet as sent from a node that was down exactly if some action of the run met the guard of `SendsThoughDown` for it |
| LinkMoves.SendsExactly | in-memory-network/src/network/mod.rs:637-680 | In any state whose tasks wait as they should, an action records a send exactly if it is of that link's task, the packet is the first that the task has before it, has its turn, is unclaimed and no older than the last clear, and the link is up, and paced or waited for; no other action ever sends |
| LinkMoves.SendsThoughDownExactly | in-memory-network/src/network/link.rs:177-247 | The readme's promise that packets are never sent from a node that is down fails exactly for these actions: a task that starts with bandwidth available, or one that resumes from a yield or from the wait for its node while its link is up; with its turn, and a packet neither handled nor wiped |
| LinkMoves.DownAgainStillSends | in-memory-network/src/network/link.rs:218-231 | A case of it: a task waits for its node, the node comes up and goes down again before the task resumes, and the task sends |
| RunStates.SendsExactlyInRuns | in-memory-network/src/network/mod.rs:637-680 | `SendsExactly` holds in every reachable state |
| RunStates.NoTaskIsStuck | in-memory-network/src/network/link.rs:177-233 | No task is stuck, nor kept longer than it need be: in every reachable state a link's task can resume exactly unless its packet is still unclaimed and it sleeps until the very time at which its pacer gets free, or its link, or its node, is down and will fire its notifier at the next Up. So a sleeping task can resume as soon as its pacer permits a send |
| Progress.NothingHoldsUp | in-memory-network/src/network/mod.rs:577-720 | In every reachable state of a run that did not fail: time can pass, hosts can create packets, applications can read, events can happen; an idle link with an offer can start on it; a link with a packet that is due can let one off that is due no later; a node can offer its first packet if any link leads on |
| RunStates.RunsAreSane | in-memory-network/src/network/mod.rs:590-720 | In every reachable state the queues are sane, the tasks wait as they should, and no packet is half-way placed; the verifier plays no part in it |
| RunStates.InstantsAreStates | in-memory-network/src/tracing/simulation_verifier.rs:280-287 | Whatever part of a run's trace ends an instant is itself the trace of a part of the run, so that what the verifier sees then, the simulator was in |
| LinkOrder.RunsAreOrdered | in-memory-network/src/network/mod.rs:637-680 | In every run, a link's sends are of its offers in queue order, its pacer allowed them all and stands as after them, its trace steps are exactly these sends, and what it has yet to deal with is the rest of its offers |
| FifoRuns.SendsInQueueOrder | in-memory-network/src/network/link.rs:273-299 | In every run, the packets that go onto a link are a subsequence of what it was offered, in the order of its queue, at strictly increasing times |
| FifoRuns.LandingsInSendOrder | in-memory-network/src/network/mod.rs:690-720 | In every run in which a link delays alike all that it is offered, what comes off it (into a node, dropped on arrival, or lost) is the beginning of what went onto it, in that order |
| FifoRuns.ZeroExtraDelayIsFifo | in-memory-network/src/network/mod.rs:690-720 | So a link without an extra delay is first in, first out, in every run |
| FifoRuns.ZeroExtraDelayIsPunctual | in-memory-network/src/network/inbound_queue.rs:60-113 | The queue of such a link, given what the link sends in any run and polled in any way, delivers it in that order, and no poll without a result leaves a packet whose time has come |
| FifoRuns.ForwarderPops | in-memory-network/src/network/inbound_queue.rs:148-156 | In every run, the forwarder takes what the link's queue pops: a first element of its heap, whose time has come, and just that element leaves the queue |
| Losses.LossesFollowEdges | in-memory-network/src/network/mod.rs:690-720 | In every run and on its trace alone: whatever comes off a link was on it, and is lost there exactly if some event strictly later than its send took the link from up to down |
| Losses.LinksFollowEvents | in-memory-network/src/network/link.rs:101-138 | In every run, a link's status is that of its last status event, and `last_down` is the time of the last event that took it from up to down |
| Creations.PacketsAreNumbered | in-memory-network/src/network/mod.rs:463-473 | In every run, packets are numbered from zero in the order in which hosts create them, and none is smaller than its headers of 28 bytes |
| QueueContents.FirstOffIsFirst | in-memory-network/src/network/inbound_queue.rs:128-156 | The packets that may come off a link next are exactly those that the heap puts first |
| Conservation.EachStayEndsOnce | in-memory-network/src/network/mod.rs:637-680 | In every run, the recorded sends, wipes and reads of a packet in a node are exactly the stays that ended so, and together at most its stays, however many links each was offered to |
| LinkTasks.AssertionsFailExactly | in-memory-network/src/network/mod.rs:642-678 | The assertions in `send` fail exactly if a task resumes from a yield, has its turn, still owns a packet that no clear has wiped, and its link is down; no other step fails them |
| LinkDecisions.TasksDecide | in-memory-network/src/network/mod.rs:637-680 | Every step of a link's task, case by case from the bare facts: how long it sleeps (until the pacer is free, not longer), which notifier it takes, whom it lets go first, and whether it gives up, wipes, sends or fails. What each decision does to the task, the record, the trace, the node's space and the pacer is the whole change |
| Wipes.WipesExactly | in-memory-network/src/network/mod.rs:663-679 | An action records a packet as dropped by a buffer clear exactly if it is of a link's task that has its turn and gets to look at the packet, no link has claimed the packet yet, and it came into its node strictly before the last clear |
| Wipes.WipesFollowClears | in-memory-network/src/network/mod.rs:663-679 | In every run and on its trace alone: of each packet that a link's task claims there is the step that put it into its node for that stay, and it is wiped, not sent, exactly if some event strictly later than that step cleared the node's buffer |
| Turns.TurnsInRuns | in-memory-network/src/network/mod.rs:595-662 | In every run, a link whose task works on a packet is a candidate for it and has let some candidates before its own first place go first, one per yield; it has its turn exactly when it has let all of these go |
| LinkTasks.WaitsEndReady | in-memory-network/src/network/link.rs:177-233 | What a single resumption guarantees: leaving the wait with an unhandled packet means link up and pacer free |
| LinkTasks.EveryCandidateIsOffered | in-memory-network/src/network/mod.rs:595-633 | A node's task takes the first packet in line and offers it, behind what is queued, to each candidate link once for each place it has among the candidates, with the extra delay rolled there and all candidates to prefer; nothing else changes |
| LinkTasks.DownWhileYieldedFails | in-memory-network/src/network/mod.rs:654-676 | The failing case is real: every such yielded task fails if its link goes down before it resumes |
| Runs.PerformGood | in-memory-network/src/network/mod.rs:590-720 | Every enabled action, of any task, keeps the whole invariant: queues sane, tasks waiting properly, simulator and verifier in agreement, no packet half-way placed |
| RunStates.RunsAreGood | in-memory-network/src/network/mod.rs:182-230 | The invariant holds after every run from the start |
| AgreementMoves.TransmitAgrees | in-memory-network/src/network/link.rs:140-175 | Putting a packet on a link keeps the agreement; all errors stay excused |
| AgreementMoves.LinkEventAgrees | in-memory-network/src/network/mod.rs:257-312 | A link event keeps the agreement, in particular what later Down updates mean for every packet in flight |
| AgreementMoves.NodeEventAgrees | in-memory-network/src/network/mod.rs:239-255 | A node event, with a status or a buffer clear, keeps the agreement |
| AgreementSteps.LandingErrors | in-memory-network/src/tracing/simulation_verifier.rs:291-328 | A packet that the simulator lets arrive draws an error exactly if its link had a Down update at the very instant it was sent |
| AgreementSteps.ArriveFromLinkAgrees | in-memory-network/src/network/mod.rs:690-720 | Coming off a link into a node that is up keeps the agreement |
| AgreementSteps.DropOnArrivalAgrees | in-memory-network/src/network/mod.rs:484-487 | Coming off a link into a node that is down is recorded by both sides as dropped on arrival |
| AgreementSteps.CreateWhileDownAgrees | in-memory-network/src/tracing/simulation_verifier.rs:334-350 | A host that creates a packet while down leaves a phantom that the verifier holds and the simulator does not |
| AgreementSteps.LoseAgrees | in-memory-network/src/network/mod.rs:707-713 | A packet lost in transit was in flight for the verifier too |
| AgreementRuns.TickTracked | in-memory-network/src/tracing/simulation_verifier.rs:280-287 | The passage of time, with the end-of-instant check it triggers, keeps the agreement |
| AgreementRuns.RouterUsageFits | in-memory-network/src/network/outbound_buffer.rs:14-28 | At rest, what the verifier counts in a router and what was wiped is the space taken |
| Ledger.MirrorSend | in-memory-network/src/tracing/simulation_verifier.rs:376-434 | Packet maps, in-flight map and byte counters stay exact mirrors when a packet goes from a node onto a link |
| Ledger.MirrorAdd | in-memory-network/src/tracing/simulation_verifier.rs:743-775 | The same when a packet turns up in a node; its id was nowhere before |
| Ledger.BytesSplit | in-memory-network/src/network/outbound_buffer.rs:14-28 | Held and wiped bytes together are the charged and the uncharged ones |
| Sanity.ForwardSane | in-memory-network/src/network/mod.rs:479-549 | Forwarding keeps every queue's references to records of the right node |
| Sanity.ResumeSane | in-memory-network/src/network/mod.rs:637-680 | Resuming a link task keeps the queues sane and the task waiting on a notifier that was really made |
| BufferCheck.BufferErrorsExact | in-memory-network/src/tracing/simulation_verifier.rs:527-541 | Without a fatal error, NodeExceedsBufferSize is tracked iff some node's usage at the end of some instant exceeds its size; if not, every reported maximum is the true maximum over instants, whatever the iteration order |
| BufferCheck.CheckPasses | in-memory-network/src/tracing/simulation_verifier.rs:527-541 | One check passes iff no node ever held too much, and then all maxima are up to date despite the early return |
| BufferCheck.CheckBlames | in-memory-network/src/tracing/simulation_verifier.rs:527-541 | A check that does not pass names a node that did hold too much, with its true figures |
| BufferCheck.VerdictChecks | in-memory-network/src/tracing/simulation_verifier.rs:483-487 | The last instant is always checked |
| BufferCheck.StepKeepsMaxima | in-memory-network/src/tracing/simulation_verifier.rs:289-480 | Steps leave the maxima alone and track no buffer errors |
| ReplayTotals.NodeBytesBalance | in-memory-network/src/tracing/simulation_verifier.rs:628-719 | On every replayed trace: created + received - dropped on arrival + duplicated bytes = held + sent + read + injected + buffer-full + cleared bytes, and the usage counter is the sum of the sizes held |
| ReplayTotals.ReportedBandwidthIsMaximum | in-memory-network/src/tracing/simulation_verifier.rs:820-854 | On every replayed trace, a link's reported maximum is the largest usage, in seconds, at any of its sends, and is reached |
| ReplayTotals.ReorderedAreOvertaken | in-memory-network/src/tracing/simulation_verifier.rs:632-641 | On every replayed trace, the counters of packets received, and received out of order, have the number and the bytes of exactly the packets that came off links into the node, and of those with a smaller number than one received before |
| TraceHoldings.HoldingsFollowTrace | in-memory-network/src/tracing/simulation_verifier.rs:743-784 | On every replayed trace, each node's packets, with time of arrival, size and extra delay, are those that its steps put in and did not take out |
| TraceCounters.CountersFollowTrace | in-memory-network/src/tracing/simulation_verifier.rs:628-723 | On every replayed trace, each of a node's nine counters has the number and the bytes of exactly the steps that count for it |
| TraceCounters.LossesFollowTrace | in-memory-network/src/tracing/simulation_verifier.rs:363-375 | On every replayed trace, the losses noted of a link are the packets and the bytes, as sent, of exactly the steps that lose a flying packet there |
| TraceFacts.TimesFollowTrace | in-memory-network/src/tracing/simulation_verifier.rs:612-626 | On every replayed trace, a node's last clear and last Down are those of its events |
| TraceFacts.LinksFollowTrace | in-memory-network/src/tracing/simulation_verifier.rs:812-818 | On every replayed trace, a link is up unless its last status event was a Down |
| TraceFacts.CargoFollowsTrace | in-memory-network/src/tracing/simulation_verifier.rs:376-434 | On every replayed trace, a flight has the size and the extra delay that the packet had when its node last sent it |
| NodeReplay.StepsKeepTally | in-memory-network/src/tracing/simulation_verifier.rs:743-784 | Every call keeps the usage counter equal to the sum of sizes held, so `checked_sub` never fails |
| Replay.ApplyStepPreserves | in-memory-network/src/tracing/simulation_verifier.rs:289-480 | Every step keeps the verifier's state well formed: counters tallied, windows summed, flights on known links and not from the future |
| BandwidthWindow.WindowIsBruteForce | in-memory-network/src/tracing/simulation_verifier.rs:820-854 | For time-sorted sends the incremental usage is the brute-force sum over all sends in the last window, ends included |
| BandwidthWindow.MaxUsageIsMaximum | in-memory-network/src/tracing/simulation_verifier.rs:849-853 | The reported maximum bounds the usage in seconds at every prefix of the sends, and is reached |
| BandwidthWindow.WindowIsInSeconds | in-memory-network/src/tracing/simulation_verifier.rs:820-854 | The usage after the newest of time-sorted sends: the bits of the sends of the last 1_000_000_000 ns from 9984 bps on, a tenth of those of the last 10_000_000_000 ns below |
| BandwidthWindow.FastLinkWindow | in-memory-network/src/tracing/simulation_verifier.rs:829-853 | A first packet of 1500 bytes at 10000 bps makes a usage and a maximum of 12000 |
| BandwidthWindow.ExpireIsRecent | in-memory-network/src/tracing/simulation_verifier.rs:831-841 | Dropping from the front keeps exactly the sends that still count |
| Pacing.PacingBoundsBandwidth | in-memory-network/src/network/link.rs:273-299 | For any sends the pacer allows, the usage that the verifier computes is at most the bandwidth plus the newest packet's bits over the window |
| Pacing.PacedSendExceedsIff | in-memory-network/src/tracing/simulation_verifier.rs:823-853 | The readme's promise that links never exceed their bandwidth, for any sends that the pacer allows: the newest send is over the bandwidth exactly if the bits of the last second, or of the last ten, both ends included, exceed what the bandwidth allows for that time |
| Pacing.FullUseExceedsIff | in-memory-network/src/tracing/simulation_verifier.rs:823-853 | When a link in full use is over its bandwidth, for every packet size and bandwidth: by the number of sends that fit the window |
| Pacing.SaturatedLinkExceeds | in-memory-network/src/tracing/simulation_verifier.rs:823-853 | Full use is enough: eleven packets of 1000 bytes at 8000 bps, sent without a pause, draw the error |
| Pacing.FirstSendExceedsIff | in-memory-network/src/tracing/simulation_verifier.rs:823-853 | A first packet is over the bandwidth exactly if it alone is larger than what the link sends in a window |
| Pacing.SendTakesMilliseconds | in-memory-network/src/network/link.rs:292-299 | A send keeps the pacer busy for a whole number of milliseconds, as many as its bits need at the bandwidth and not one more |
| Pacing.SendStaysPaced | in-memory-network/src/network/link.rs:292-299 | Each permitted send keeps the window paced and covered by the pacer |
| Pacing.PacedWindowIsBounded | in-memory-network/src/tracing/simulation_verifier.rs:826-853 | Any window of paced sends stays within the bound |
| Status.NotifierFiresAtNextUp | in-memory-network/src/network/link.rs:112-138 | No lost wakeup: a notifier handed out while down has fired iff an Up came since; until then it is the one the next Up fires, redundant Downs or not |
| Status.FiredStaysFired | in-memory-network/src/network/link.rs:48-70 | A fired notifier stays fired |
| Status.LossTestsAgree | in-memory-network/src/network/link.rs:101-137 | The simulator's edge-triggered test and the verifier's test agree on every packet unless a Down update shares the instant of its send |
| Network.HasRouteIffCandidates | in-memory-network/src/network/mod.rs:421-424 | There is a route exactly when the full walk finds some link |
| Network.WalkVisitsCandidates | in-memory-network/src/network/mod.rs:430-461 | For any visiting function, a walk ends with the value of the first candidate that breaks off, and without one exactly if every candidate says to go on |
| Network.CandidatesInOrder | in-memory-network/src/network/mod.rs:430-461 | The candidates of a node are the first links of all ways to the destination from all its addresses, each way once: straight ways by address, then ways by routes, by address and within it by the place of the route, cheapest first |
| Network.CandidatesAre | in-memory-network/src/network/mod.rs:430-461 | A link is a candidate exactly if from some address of the node it leads straight to the destination or to the next hop of a matching route of that address |
| Network.HasRouteIff | in-memory-network/src/network/mod.rs:421-424 | There is a route exactly if such a link exists |
| Network.AddressesInOrder | in-memory-network/src/network/node.rs:144-146 | A node's addresses are those of all its interfaces, by interface and then as listed |
| Network.RoutedLinksByCost | in-memory-network/src/network/mod.rs:446-457 | Routed links come from exactly the matching routes, in nondecreasing cost |
| Network.CandidatesStartHere | in-memory-network/src/network/mod.rs:430-461 | Every candidate link starts at an address of the node, which is its only possible sender |
| Network.DirectLinksLead | in-memory-network/src/network/mod.rs:437-443 | The direct links are exactly those from an address of the node to the destination |
| Route.CidrRangeIsPrefix | in-memory-network/src/network/route.rs:12-40 | A CIDR range contains exactly the addresses that share the prefix, as in section 3.1 of RFC 4632 |
| Route.CidrRangeIsBits | in-memory-network/src/network/route.rs:28-40 | Bit by bit: the range holds exactly the IPv4 addresses whose first `prefix` bits are those of the block's address |
| Route.CidrRangesNestOrAreDisjoint | in-memory-network/src/network/route.rs:28-40 | Two CIDR ranges are nested or disjoint |
| StableSort.SortByIsStableSort | in-memory-network/src/network/mod.rs:90 | `sort_by_key` sorts, permutes, and keeps the order of equal keys |
| StableSort.SortingSortedIsIdentity | in-memory-network/src/tracing/simulation_verifier.rs:199-201 | Sorting sorted steps changes nothing, so skipping the sort is right |
| Events.NewNetworkEvents | in-memory-network/src/network/event.rs:15-28 | The events in stable order, and one initial event for each link and node that has a status event or is in the spec; it starts down exactly if the first event in the given list to set its status, by time and then place, takes it up; no initial event clears a buffer |
| Events.InitialLinkEvents | in-memory-network/src/network/event.rs:90-143 | Each link gets the opposite of its first update, or up; none is missing and, for distinct ids, none is there twice |
| Events.InitialNodeEvents | in-memory-network/src/network/event.rs:145-186 | The same for nodes, and no initial event clears a buffer |
| Events.FirstUpdateIsEarliest | in-memory-network/src/network/event.rs:20-22 | The deciding update is the earliest; of several at one time, the first in the list as it was given |
| Events.FirstUpdateChangesStatus | in-memory-network/src/network/event.rs:106-109 | A link or node keeps its initial status until its first scheduled update, which is a genuine change |
| InboundQueues.NextPacketDelivery.Poll | in-memory-network/src/network/inbound_queue.rs:60-113 | A poll takes the due packets in order, or as many as asked for; it does nothing while its timer runs; its timer is set for the first packet left; it registers its waker only if the queue is empty or nothing was asked for |
| InboundQueues.InboundQueue.Send | in-memory-network/src/network/inbound_queue.rs:24-34 | A send queues the packet and wakes everyone who waits |
| InboundQueues.InboundQueue.Pop | in-memory-network/src/network/inbound_queue.rs:148-156 | A pop takes a packet that is first by arrival time, then number |
| Deliveries.DeliveriesInOrder | in-memory-network/src/network/inbound_queue.rs:60-113 | Over any interleaving of sends and polls, with arbitrary delays: deliveries are in order of arrival time over all batches, never early, and with the queue make up what was sent |
| Deliveries.BatchesInOrder | in-memory-network/src/network/inbound_queue.rs:60-113 | A batch is due, and in order of the time of arrival and then of the packet number, before all that stays queued; unless it is full, nothing that stays is due |
| Deliveries.PendingLeavesDueIff | in-memory-network/src/network/inbound_queue.rs:67-78 | A poll without result leaves a due packet iff a timer set earlier still runs and an earlier packet came in since; and the caller will be woken |
| Deliveries.FasterPacketOverlooked | in-memory-network/src/network/inbound_queue.rs:67-78 | A concrete history in which a due packet is overlooked |
| Deliveries.SteadyLinksArePunctual | in-memory-network/src/network/inbound_queue.rs:67-101 | With one delay for all packets no poll leaves a due packet behind |
| Deliveries.SteadyLinksAreFifo | in-memory-network/src/network/inbound_queue.rs:60-113 | With one delay and sends at distinct times, what was delivered is the beginning of what was sent, and the queue holds the rest |
| Deliveries.PacedSendsAreSpaced | in-memory-network/src/network/link.rs:273-299 | The pacer allows sends at strictly increasing times only |
| Devices.Forward | in-memory-network/src/network/mod.rs:479-549 | Forwarding traces, queues, reserves and hands to the application exactly what the roll, the node's status, its endpoint and its space call for |
| Devices.ForwardHasEffect | in-memory-network/src/network/mod.rs:479-549 | The state machine's forwarding has that very effect on the node, with what is then held for its application, and none on other nodes, their applications or links |
| Arrivals.CreationsFare | in-memory-network/src/network/mod.rs:463-549 | What becomes of a packet that a host creates, case by case: the steps recorded, what joins the buffer and what the application gets, by the node's status, its first address and port 8080, the roll and the free space; a duplicate follows with what space is left |
| Arrivals.ArrivalsFare | in-memory-network/src/network/mod.rs:690-720 | What comes off a link is lost if the link last went down after its send, and else fares likewise in the node at the far end |
| LinkMoves.OthersRecord | in-memory-network/src/network/mod.rs:239-312 | A read shows the packet with its number and size and ends its stay; an event shows as given and touches its link or node only; offers and time show nothing |
| Devices.TransmitHasEffect | in-memory-network/src/network/link.rs:166-174 | The state machine's sending has the very effect of the link's method: step, pacer, buffer, and one item with its arrival time added to what the link's queue holds according to the records; every other queue, link and node is untouched |
| Devices.Node.EnqueueOutbound | in-memory-network/src/network/node.rs:120-134 | Reserves and queues, or traces a drop for lack of space |
| Devices.Node.UpdateStatus | in-memory-network/src/network/node.rs:163-181 | The node's status changes as the status machine says |
| Devices.NotifyingStatus.Update | in-memory-network/src/network/link.rs:112-138 | On the heap: every notifier ever made has fired, but for the one that the next Up fires |
| Devices.NotifyingStatus.NotifierForUp | in-memory-network/src/network/link.rs:64-69 | The notifier handed out is the one the next Up will fire, not fired yet |
| Devices.OutboundBuffer.Reserve | in-memory-network/src/network/outbound_buffer.rs:14-24 | Takes the space iff there is enough |
| Devices.PacketPacer.TrackSend | in-memory-network/src/network/link.rs:292-299 | Busy until the first whole millisecond that leaves time for all bits, and not a millisecond longer |
| Devices.PacketPacer.DurationUntilCanSend | in-memory-network/src/network/link.rs:282-290 | The shortest wait after which a send is allowed |
| Devices.NetworkLink.UpdateStatus | in-memory-network/src/network/link.rs:112-138 | Status and `last_down` change together; only a change from up to down sets `last_down` |
| Devices.NetworkLink.HasBandwidthAvailable | in-memory-network/src/network/link.rs:235-247 | True iff no task holds the permit, the link is up and the pacer is free; the node does not matter |
| Devices.NetworkLink.Send | in-memory-network/src/network/link.rs:140-175 | Does what a send's effect says: traces, paces, releases and queues the packet with the link's delay and the extra delay; wakes everyone who waits for the queue |
| ReplayedObjects.ReplayedNode.HandleEvent | in-memory-network/src/tracing/simulation_verifier.rs:612-626 | Updates status, last down and last clear as its specification says |
| ReplayedObjects.ReplayedNode.PacketCreated | in-memory-network/src/tracing/simulation_verifier.rs:628-630 | Adds the packet, whatever its dropped-on-arrival flag |
| ReplayedObjects.ReplayedNode.PacketReceived | in-memory-network/src/tracing/simulation_verifier.rs:632-660 | Counters, out-of-order count and errors as specified; a packet dropped on arrival is not added |
| ReplayedObjects.ReplayedNode.PacketDuplicated | in-memory-network/src/tracing/simulation_verifier.rs:662-669 | Counts the duplicate and adds it |
| ReplayedObjects.ReplayedNode.PacketSent | in-memory-network/src/tracing/simulation_verifier.rs:671-697 | Removes and returns the packet held, tracks sends while down and survivors of a clear, or fails for a missing packet |
| ReplayedObjects.ReplayedNode.PacketDeliveredToAppLayer | in-memory-network/src/tracing/simulation_verifier.rs:699-704 | Removes the packet or fails |
| ReplayedObjects.ReplayedNode.PacketDropped | in-memory-network/src/tracing/simulation_verifier.rs:706-719 | Removes the packet under the counter of its reason, or fails |
| ReplayedObjects.ReplayedNode.PacketHasExtraDelay | in-memory-network/src/tracing/simulation_verifier.rs:725-736 | Notes the delay on a held packet, or fails |
| ReplayedObjects.ReplayedNode.UpdateMaxBufferUsage | in-memory-network/src/tracing/simulation_verifier.rs:738-741 | The maximum takes in the present usage |
| ReplayedObjects.ReplayedNode.AddPacketToBuffer | in-memory-network/src/tracing/simulation_verifier.rs:743-775 | Adds the packet and its bytes, or fails for one already held |
| ReplayedObjects.ReplayedNode.RemovePacketFromBuffer | in-memory-network/src/tracing/simulation_verifier.rs:777-784 | Removes the packet and its bytes; the subtraction never underflows |
| ReplayedObjects.ReplayedLink.SetStatus | in-memory-network/src/tracing/simulation_verifier.rs:812-818 | Every Down update sets the time, also while down |
| ReplayedObjects.ReplayedLink.DropExpired | in-memory-network/src/tracing/simulation_verifier.rs:831-841 | The popping loop counts down to the sum of what is left, without underflow |
| ReplayedObjects.ReplayedLink.PacketSent | in-memory-network/src/tracing/simulation_verifier.rs:820-854 | The incremental counters equal the window function's |
| VerifierMetadata.ReadSpec | in-memory-network/src/tracing/simulation_verifier.rs:198-258 | The spec is accepted exactly if no two nodes share an address and every link's ends are addresses of nodes; an error names a real fault; the metadata describes the spec, with the last of several entries for one id |
| VerifierMetadata.NewVerifier | in-memory-network/src/tracing/simulation_verifier.rs:198-271 | A verifier of the sorted steps with that metadata and one fresh record for each node and link, or the fault of the spec |
| VerifierMetadata.TopologyIsReadBack | in-memory-network/src/tracing/simulation_verifier.rs:207-258 | From a spec that lists the simulator's topology, the verifier reads exactly the metadata that all agreement results are about |
| VerifierMetadata.TopologyIsAccepted | in-memory-network/src/tracing/simulation_verifier.rs:226-247 | Such a spec is always accepted |
| Verifier.SimulationVerifier.constructor | in-memory-network/src/tracing/simulation_verifier.rs:260-271 | From given metadata: one fresh record for each node and link; steps in stable time order |
| Verifier.VerifyTrace | in-memory-network/src/tracing/simulation_verifier.rs:198-271 | Verifying steps in any order is the verdict on the stably sorted steps |
| Verifier.SimulationVerifier.Verify | in-memory-network/src/tracing/simulation_verifier.rs:273-525 | The loop's report is that of the fold over the trace: the fatal error with the errors so far, or statistics with all errors |
| Verifier.SimulationVerifier.ReplayNext | in-memory-network/src/tracing/simulation_verifier.rs:280-481 | One round of the loop is one step of the fold |
| Verifier.SimulationVerifier.Advance | in-memory-network/src/tracing/simulation_verifier.rs:280-287 | A new instant triggers the buffer check of the one before |
| Verifier.SimulationVerifier.CheckBuffers | in-memory-network/src/tracing/simulation_verifier.rs:281-283 | The check's error, if any, is tracked; the maxima visited are updated |
| Verifier.SimulationVerifier.UpdateMaxBufferUsage | in-memory-network/src/tracing/simulation_verifier.rs:527-541 | The loop with its early return is the specified check, in the map's order |
| Verifier.SimulationVerifier.StepOffLink | in-memory-network/src/tracing/simulation_verifier.rs:290-332 | A packet off a link: checks on target, time and link, then the node |
| Verifier.SimulationVerifier.StepNewPacket | in-memory-network/src/tracing/simulation_verifier.rs:333-350 | A new packet: the check on hosts, then the node |
| Verifier.SimulationVerifier.StepInTransit | in-memory-network/src/tracing/simulation_verifier.rs:376-434 | A send: node, link lookup, checks, window and in-flight map, or the fatal error |
| Verifier.SimulationVerifier.StepLost | in-memory-network/src/tracing/simulation_verifier.rs:363-375 | A loss counts for the link named by the step, or is tracked as missing |
| Verifier.SimulationVerifier.StepNode | in-memory-network/src/tracing/simulation_verifier.rs:352-362 | A step that concerns one node only, done by that node's record |
| Verifier.SimulationVerifier.StepEvent | in-memory-network/src/tracing/simulation_verifier.rs:457-479 | A network event: link status first, then node event; either may be missing |
| Verifier.SimulationVerifier.Stats | in-memory-network/src/tracing/simulation_verifier.rs:489-516 | Statistics of every node, and of every link that exists or was named by a loss |
| Verifier.FailureStays | in-memory-network/src/tracing/simulation_verifier.rs:149-161 | A fatal error ends the replay, whatever follows |

## Left out

- Integers: sizes, counters and times are unbounded; `usize`, `u64` and `Duration` overflow and the truncation of `bandwidth_bps as usize` are not modelled.
- Floating point: `track_send`'s quotient is an exact rounded-up division by a positive bandwidth, and random ratios are free choices.
- Identifiers: ids of nodes, links and packets are numbers; a new packet id is assumed unused, as 128 random bits make it.
- Bit masks: CIDR masks are modelled as block arithmetic on 32-bit numbers; other prefix lengths than 1 to 32 are refused by the parser, which is not part of this model.
- Scheduler: any enabled action may run next; nothing is claimed about fairness, or about which ready link wins; `NothingHoldsUp` and `NoTaskIsStuck` say what can run.
- Awaited futures: a wait may end only if its cause has happened, but may end later; batches of arrivals are handed over one packet at a time, and applications may read waiting packets in any order.
- Clock: the time does not change within one atomic step, nor within one poll.
- Failed assertions: a run ends with the first failed assertion in `send`; what other tasks do after a task has panicked is not modelled.
- Missing routes: a node's task is not run for a packet without candidate links, where the source prints an error and ends the task.
- Initialisation: the address tables and their checks are a validity condition on the configuration; a link target that is no entry of the simulator's table is excluded. The verifier's own reading of the spec is modelled with its errors.
- Congestion marking: marks on packets, the assertion on ECN support, and the trace steps for marks and extra delays are never emitted by the modelled simulator; the verifier's handling of those steps is modelled.
- Event fields that the source ignores with a warning: bandwidth, delay and ratio changes; events for unknown links and nodes.
- Binary heap: the inbound queue is a multiset from which a first element is taken; equal elements may leave in either order.
- Hash maps: the node map is visited in a fixed but arbitrary order.
- Sharing and locks: mutexes and reference counts are left out; each object is updated by one caller at a time, and the endless loops of the tasks (`process_buffer_for_node`, `process_link_queue`, `sleep_until_ready_to_send`, `forward_packets_from_link_to_node`) are states and actions of the state machine rather than methods, since other tasks run between their await points.
- `assert_connectivity_between_hosts`, ping and throughput drivers: drivers, whose reads are not traced.
- QUIC endpoints, TLS, congestion controllers, pcap export, log files, command line, warnings and golden tests: input and output.
