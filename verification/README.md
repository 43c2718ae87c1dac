# Verification of the hub's capture pipeline

k8s-sniffer captures packets from Kubernetes pods. A *hub* runs capture sessions:
it schedules one agent pod per node, hands each agent an assignment of target
pods, takes in the agents' capture streams and fans the records out to packet
subscribers. This project models that pipeline in Dafny and proves what its
protocols keep under every interleaving, and what its loops compute.

Check it with `dafny verify dfyconfig.toml` (Dafny 4.11; add
`--resource-limit 2000000 --verification-time-limit 0`).

## How the model is laid out

Code that runs under a mutex appears twice: as a function of the guarded state
(one per lock region), and as a method of a class that runs the region in place
and is proved to have exactly that effect. The protocols are transition systems
over the same functions: a step is one lock region, one channel operation, one
choice of a `select`, or one API call, and a theorem about a protocol holds in
every state of every finite run.

| file | contents |
|---|---|
| `Channels.dfy` | Go channels that are closed, and the closing of a closed one |
| `PacketLog.dfy`, `PacketProtocol.dfy`, `PublishProtocol.dfy`, `DrainProtocol.dfy` | `packetLog`: the object; publishers, subscribers and closers interleaving; how a publish ends and that it tries again; which closes lose nothing, and that a close can complete |
| `Records.dfy`, `Session.dfy` | messages; `sessionState` with its maps, claims, batch validation and counters |
| `IngestProtocol.dfy`, `IngestRecords.dfy`, `Sender.dfy` | `StreamCapture` handlers interleaving with reconciliation; what becomes of each record; the agent's `sendBatches`; both ends together |
| `Discovery.dfy`, `Assignments.dfy`, `Strings.dfy`, `Sequences.dfy` | grouping of pods by node; building and comparing assignments; facts about strings and sequences |
| `Pods.dfy`, `Cluster.dfy` | agent pods as an abstract set, and the lifecycle manager over it |
| `Reconcile.dfy`, `Reconciler.dfy` | one reconcile pass as a function, and the reconciler that runs it in place |
| `StopProtocol.dfy`, `PhaseProtocol.dfy`, `StopProgress.dfy`, `AgentPods.dfy`, `EnsureProtocol.dfy` | CreateSession, reconcile passes, stopSession, failSession and the cluster interleaving; what the phases tell; that nothing deadlocks; how many agents a node can have; that the steps of ensureNodeAgent refine the pass function of `Reconcile.dfy` |
| `WatchProtocol.dfy` | `WatchTargets` streams against everything they wait for |
| `Captures.dfy`, `Batching.dfy` | the agent's running captures; its batching loop over a reused slice |
| `Delivery.dfy` | from the reconciled listing through the stream to the agent's captures |
| `EventLog.dfy` | `eventLog`: the object, and appenders and subscribers interleaving |
| `TlsParse.dfy` | the line state machine of the TLS worker |

Input and output, clocks, contexts, randomness and the API server are choices
left open: a timeout or a cancellation may happen at any step, an API call may
fail or take effect although it failed, a stream id is any string.
Range order over a Go map is any order. Counters and sequence numbers are
natural numbers.

## Properties that hold only sometimes

Where the code does not have a natural property always, the model proves exactly
when it does:

- *Graceful drain.* When a close is about to sweep, every continuation is lossless for subscribers that leave through their done channel exactly if no publisher is still to send to a subscriber in its main loop (`DrainProtocol.LosslessExactly`). That is so after the wait for the publishers (`PacketProtocol.LosslessDrain`), not after every timeout (`PacketProtocol.TimedOutCloseLosesRecord`). In any state of a closed log, in which a further close returns nil at once, the same holds exactly if nothing is lost yet and no publisher is still to send to a subscriber that has not given up (`DrainProtocol.LosslessOnceClosedExactly`); so that nil alone says nothing (`PacketProtocol.RefusedCloseLosesRecord`).
- *Single claim.* Recording an agent keeps the claim on each capture stream single exactly if no live handler has claimed that stream on that node (`IngestProtocol.ReadoptionExactly`), and all are single throughout a run exactly if it has no other recording, which is called orderly (`IngestProtocol.SingleClaimExactly`). A surviving pod may be recorded again before its handler has gone (`IngestProtocol.ReadoptedAgentClaimedTwice`). The sequence theorems hold in any run for a handler that has held its node alone, with no agent recorded there, since its claim (`IngestProtocol.HoldsSince`), which in orderly runs is every holder (`IngestProtocol.OrderlyHolds`).
- *Finality of stop.* After a stop's deletion of the agents no pod of the session ever appears exactly if no Create whose client had given up is still pending at the API server (`StopProtocol.StopIsFinalExactly`).
- *One agent per node.* There is at most one agent pod of the session on each node, and none where one is about to be created, throughout a run exactly if every Create that takes effect after its client gave up does so on a node without an agent and on which none is about to be created (`AgentPods.OneAgentExactly`); otherwise there may be two (`AgentPods.TwoAgentsOnANode`).
- *STOPPED.* It is absorbing once CreateSession is done; before that it is left exactly by CreateSession's own `setState` calls (`StopProtocol.LeavesStopped`), for instance by `failSession`, which does not hold `lifecycleMu` (`StopProtocol.FailedAfterStopped`).
- *assignmentTargetsEqual.* It is set equality for all assignments exactly if the group has no duplicate UIDs (`Assignments.SetEqualityExactly`); the API server gives every pod its own.
- *Event order.* Every subscriber has its events in log order exactly in the runs in which no append's send overtakes an event still owed to the same subscriber (`EventProtocol.InOrderExactly`); overlapping appends may (`EventProtocol.OverlapReorders`), serialized ones cannot (`EventProtocol.SerialRunIsOrderly`). A send panics exactly if its subscriber has left since the snapshot (`EventProtocol.SendPanics`), and without further leaving a panic lies ahead exactly if a subscriber who has left is still owed an event (`EventProtocol.PanicsExactly`).
- *Cutting a TLS stream.* `parse(a ++ b)` is `parse(a) ++ parse(b)` exactly if `b` begins with no plain line, or no block is open at the end of `a`, or the open block and the plain lines that follow it are blank (`TlsParse.ParseConcatExactly`).

## Model

| member | source | states |
|---|---|---|
| PacketLogs.PacketLog.constructor | pkg/hub/packets.go:30-38 | a new log is open and empty, its idle channel closed, its broadcast channel open |
| PacketLogs.PacketLog.PollSubscriber | pkg/hub/packets.go:40-58 | the lock region of waitForSubscriber: closed, ready, or wait on the current broadcast |
| PacketLogs.PacketLog.EnterPublish | pkg/hub/packets.go:66-80 | a publisher enters unless the log is closed, and gets each subscriber exactly once; the first one in replaces the closed idle channel |
| PacketLogs.PacketLog.FinishPublish | pkg/hub/packets.go:159-166 | one publisher fewer; the last one out closes the idle channel, which was open |
| PacketLogs.PacketLog.Subscribe | pkg/hub/packets.go:100-115 | registers under the next id with an open done channel and wakes the waiters, unless closed |
| PacketLogs.PacketLog.Unsubscribe | pkg/hub/packets.go:117-125 | forgets the subscriber and closes its done channel once; an unknown id changes nothing |
| PacketLogs.PacketLog.BeginClose | pkg/hub/packets.go:127-136 | only the first close marks the log closed and wakes the waiters; it will wait for the idle channel current now |
| PacketLogs.PacketLog.CloseSubscribers | pkg/hub/packets.go:149-157 | every registered subscriber is forgotten and its done channel closed, each once |
| PacketLogs.PacketLog.NotifyLocked | pkg/hub/packets.go:168-171 | whoever waits on the old channel is woken, the new one is open, and nothing was closed twice |
| PacketLogs.FinishPublishDisciplined | pkg/hub/packets.go:159-166 | leaving keeps: idle is closed exactly when nobody publishes, nothing is closed twice |
| PacketLogs.CloseSubscribersDisciplined | pkg/hub/packets.go:149-157 | the sweep keeps the channel discipline |
| PacketProtocol.ChannelDiscipline | pkg/hub/packets.go:61-171 | in every reachable state active counts the publishers between registration and finishPublish, idle is closed iff there are none, done is closed iff its subscriber has left subs, no queue exceeds 256, no channel was closed twice |
| PacketProtocol.NoLostWakeup | pkg/hub/packets.go:40-59 | a publisher parked on an unclosed channel holds the current one, and there is no subscriber and the log is open |
| PacketProtocol.FanOut | pkg/hub/packets.go:61-98 | no queue ever takes a record twice, even across retry passes; each publisher's order is kept; nil means some queue took it, errPacketLogClosed that none did |
| PacketProtocol.ExactlyOnce | pkg/hub/packets.go:61-98 | a publish that returned nil put its record exactly once into the queue of every subscriber registered from before the call until now |
| PacketProtocol.CallKept | pkg/hub/packets.go:61-98 | a call keeps its record and its starting point through any further steps until a later call begins |
| PublishProtocol.RefusedOnlyByClosed | pkg/hub/packets.go:40-70 | a publish that has returned errPacketLogClosed found the log closed |
| PublishProtocol.CancelledOnlyByContext | pkg/hub/packets.go:53-90 | a publish that has returned ctx.Err() saw its context done in one of that call's own selects |
| PublishProtocol.ContextEndsEveryWait | pkg/hub/packets.go:53-90 | wherever a publish waits, its context can end it |
| PublishProtocol.PublishCanDeliver | pkg/hub/packets.go:61-98 | a pass that nobody took is tried again: while the log is open and a registered subscriber is in its main loop, some continuation in which nobody gives up ends the same call with nil |
| PublishProtocol.SubscriberCanLeave | pkg/hub/server.go:326-358 | wherever its loop is, a subscriber can leave it, drained if it has seen its done channel closed, and is then registered no more |
| PacketProtocol.MatchesFilter | pkg/hub/server.go:360-377 | the loop over the kinds: a wire frame if those are listed, a TLS event if those are, anything if no kind is |
| PacketProtocol.KindsKept | pkg/hub/server.go:317-345 | a subscriber is registered with the kinds it asked for and keeps them |
| PacketProtocol.FrozenAfterDrain | pkg/hub/packets.go:127-157 | after a close that waited out the publishers, nobody joins and no queue takes a record |
| PacketProtocol.LosslessDrain | pkg/hub/server.go:328-357 | after the close that waited out the publishers and swept, every subscriber that left through its done channel handled exactly the records ever enqueued to it, in order, and sent, in order, those at exactly the positions whose kind it asked for |
| PacketProtocol.TimedOutCloseLosesRecord | pkg/hub/packets.go:137-146 | a run in which close times out and publish returns nil for a record nobody handles |
| PacketProtocol.RefusedCloseLosesRecord | pkg/hub/packets.go:128-132 | a run in which a record is lost after a second close has returned nil |
| DrainProtocol.LosslessExactly | pkg/hub/packets.go:137-157 | from a state in which a sweep comes next every continuation is lossless iff no sending publisher has a subscriber in its main loop on its list |
| DrainProtocol.LosslessOnceClosedExactly | pkg/hub/packets.go:127-157 | in every state of a closed log, whichever close closed it and however it returned, every continuation is lossless iff the state is and no sending publisher has on its list a subscriber that has not given up |
| DrainProtocol.LosslessIfIdle | pkg/hub/packets.go:137-157 | no active publisher is enough, even after a timeout |
| DrainProtocol.CloseCanComplete | pkg/hub/packets.go:61-147 | from every state in which a close waits, some continuation without any cancellation, timeout or failed send drains and completes it |
| DrainProtocol.ServeOne | pkg/hub/packets.go:84-92 | a sending publisher is never stuck: after at most one step of the subscriber at the head of its list it gets past it |
| PacketProtocol.NeverTwice | pkg/hub/packets.go:61-98 | call-ordered queues hold no record twice |
| Records.AssignedTarget | pkg/hub/session.go:572-586 | the first target of the assignment with exactly that pod; none is found only if there is none |
| Sessions.ValidateCaptureRecord | pkg/hub/session.go:522-557 | succeeds exactly on acceptable records, with the payload length |
| Sessions.SessionState.SetState | pkg/hub/session.go:96-106 | sets the state and replaces the broadcast channel, closing the old one once |
| Sessions.SessionState.RecordAgent | pkg/hub/session.go:186-192 | a fresh agent record and its assignment, one generation later; the maps still agree if the assignment fits the agent |
| Sessions.SessionState.UpdateAssignment | pkg/hub/session.go:194-199 | the assignment alone changes, one generation later; the maps still agree if it fits the node's agent |
| Sessions.SessionState.RemoveAgent | pkg/hub/session.go:201-212 | agent and assignment both go, one generation later |
| Sessions.SessionState.AssignmentFor | pkg/hub/session.go:353-371 | the node's assignment exactly for the pod and stream id of the agent recorded there, none empty |
| Sessions.SessionState.PollRunning | pkg/hub/session.go:108-121 | RUNNING, ended, or wait on the current state broadcast |
| Sessions.SessionState.PollAssign | pkg/hub/session.go:260-276 | stopping, agent removed, changed, or wait on the current assignment broadcast at the generation asked for |
| Sessions.SessionState.ClaimCaptureStream | pkg/hub/session.go:461-474 | claims exactly when pod and stream are the agent's and nobody has claimed it |
| Sessions.SessionState.ReleaseCaptureStream | pkg/hub/session.go:476-485 | clears the claim of that incarnation only |
| Sessions.SessionState.ValidateCaptureBatch | pkg/hub/session.go:373-416 | nil exactly for batches addressed to the live incarnation, of at most 64 acceptable records, consecutively numbered, within the payload bound; an error names the first offending record |
| Sessions.ExtendPrefix | pkg/hub/session.go:398-414 | three tests decide whether one more record keeps a prefix acceptable, and a record that fails spoils the batch |
| Sessions.SessionState.CommitCaptureRecord | pkg/hub/session.go:418-443 | a wire frame commits exactly when the incarnation is current and the number is the next; only then is lastSequence advanced and, if asked, the packet counted |
| Sessions.SessionState.AddPacketLocked | pkg/hub/session.go:287-299 | one packet of n bytes more for the session; for a pod with a UID the sum over all pods grows by as much and every other pod's counters stand, otherwise no pod's change |
| Sessions.SessionState.AddDropped | pkg/hub/session.go:301-313 | n drops more for the session and, for a pod with a UID, for the sum over all pods, every other pod's counters standing |
| Sessions.SessionState.ActiveCaptureStreams | pkg/hub/session.go:487-497 | the number of agents whose stream is claimed |
| Sessions.SessionState.CountPod | pkg/hub/session.go:315-322 | the counters of the event's pod are found or made and grow by the event, the other pods' stand |
| IngestProtocol.SingleClaim | pkg/hub/session.go:461-485 | in every orderly run ingestActive holds iff exactly one live handler claims that node and stream, so a superseded handler's release never clears its replacement's claim |
| IngestProtocol.SingleClaimExactly | pkg/hub/session.go:186-192 | throughout a run each claim is single and ingestActive tells whether there is one iff no step records an agent under a stream that a live handler has claimed on that node |
| IngestProtocol.OrderlyHolds | pkg/hub/session.go:461-485 | in every orderly run whoever holds a node's claim has held it alone, with the agent not recorded again, since it claimed |
| IngestProtocol.ValidatedBatchCommits | pkg/hub/server.go:447-470 | in every run a handler that has held its incarnation alone since its claim cannot fail at a commit, and lastSequence has advanced by the batch's wire frames so far, skipped ones included |
| IngestProtocol.AdvancedByBatches | pkg/hub/server.go:412-486 | in every run lastSequence has, for such a handler, advanced between batches by exactly the wire frames of the batches handled |
| IngestProtocol.SequenceExpected | pkg/hub/session.go:396-409 | in every run, if such a handler is the first of its stream, the number expected is the count of wire frames received |
| IngestProtocol.CountersConserved | pkg/hub/session.go:287-341 | in every run packets, bytes and drops are the sums over counted frames and batch drop counts, each pod's over its own frames, and pods plus frames without a pod add up to the session |
| IngestProtocol.CountedMeansPublished | pkg/hub/server.go:450-472 | in every run every counted frame was published first, every published wire frame whose commit succeeded is counted, none twice |
| IngestRecords.PublishedIfAssigned | pkg/hub/server.go:449-470 | in every run an accepted record was published, as it came, iff the assignment read for its batch has a target of the record's own pod, and a wire frame was counted iff so |
| IngestRecords.JudgedByItsNode | pkg/hub/server.go:449 | that assignment is one the handler's node had before, or none if it had none |
| IngestRecords.NoRecordLeftOut | pkg/hub/server.go:450-472 | the records accepted are those of the batches handled, in order, none left out |
| IngestRecords.AcceptableBatchIsTaken | pkg/hub/server.go:412-486 | a handler that waits, and has claimed the batch's stream or may claim it, can take every acceptable batch to its end |
| IngestRecords.HandlerCanEnd | pkg/hub/server.go:412-426 | every handler can come to its end, and then leaves no claim of its own behind |
| IngestRecords.FirstBatchIsTaken | pkg/hub/server.go:412-486 | a run from a new session in which the recorded agent's first acceptable batch is claimed for and taken |
| IngestProtocol.ReadoptionExactly | pkg/hub/session.go:186-192 | recording an agent keeps the claim single iff no live handler has claimed that stream on that node |
| IngestProtocol.ReadoptedAgentClaimedTwice | pkg/hub/session.go:186-192 | a run in which a surviving pod is recorded again while its handler lives and two live handlers hold its claim |
| Sender.NumberBatch | pkg/agent/runner.go:304-309 | writes the next numbers into the wire frames of the batch, in place |
| Sender.SendBatches | pkg/agent/runner.go:293-318 | the batches sent are the queue's, numbered, up to the first send error, which is reported once; the rest is drained |
| Sender.NumberingIsConsecutive | pkg/agent/runner.go:304-309 | numbering leaves no gap |
| Sender.NumberRecordsAt | pkg/agent/runner.go:304-309 | numbering changes nothing but the sequence numbers |
| Sender.NumberBatchesAt | pkg/agent/runner.go:298-309 | each batch continues where the batches before it ended |
| Sender.SentRecords | pkg/agent/runner.go:298-312 | on the wire a TLS event is as it was queued, a wire frame too but for its number, one more than there are wire frames before it |
| Sender.EndToEndInSequence | pkg/hub/session.go:373-416 | whatever was queued in whatever order, in every run the hub's first handler, holding its incarnation alone since its claim, finds the sender's batches in sequence |
| Sender.EndToEndCount | pkg/agent/runner.go:293-318 | and its lastSequence is the number of wire frames received |
| Discovery.GroupByNode | pkg/hub/discovery/group.go:28-54 | the map-and-order loops compute the groups and the skipped pods as specified position by position |
| Discovery.Partition | pkg/hub/discovery/group.go:28-54 | every pod lands exactly once: in its node's group, or among the skipped; no group is empty |
| Discovery.NodesInFirstSeenOrder | pkg/hub/discovery/group.go:41-45 | groups have distinct nodes in first-seen order |
| Discovery.TargetsKeepOrder | pkg/hub/discovery/group.go:44-52 | a group's targets are all the pods of its node, in input order |
| Discovery.SkippedKeepOrder | pkg/hub/discovery/group.go:36-39 | the skipped pods are those without a node, in input order |
| Discovery.GroupsAreWellFormed | pkg/hub/discovery/group.go:28-54 | distinct nodes, targets on their node, UIDs distinct when the pods' are |
| Assignments.BuildAssignment | pkg/hub/server.go:181-197 | the group's pods, in order, with the spec's filter, TLS mode and snap length |
| Assignments.AssignmentTargetsEqual | pkg/hub/watch.go:435-449 | equal length and every UID of the group assigned |
| Assignments.TargetsEqualIsSetEquality | pkg/hub/watch.go:435-449 | for a group without duplicates: equal UID sets of duplicate-free lists, by pigeonhole |
| Assignments.SetEqualityExactly | pkg/hub/watch.go:435-449 | the test is set equality for every assignment iff the group has no duplicate UIDs |
| Assignments.RepeatedUidHidesOther | pkg/hub/watch.go:435-449 | with a repeated UID, an assignment with any other pod in the place of one of the two passes the test |
| Assignments.AttachesAreNew | pkg/hub/watch.go:451-478 | the pods reported as attached are, in group order, those at exactly the positions whose UID is not the non-empty UID of a target assigned before |
| Captures.BuiltIsAcceptable | pkg/agent/runner.go:549-574 | what the hub builds for an incarnation from complete pods its agent accepts |
| Cluster.Manager.AgentOnNode | pkg/hub/agent/lifecycle.go:95-119 | a pod of that session and node that neither terminates nor has failed or succeeded, or none when there is none |
| Cluster.Manager.CreateForNode | pkg/hub/agent/lifecycle.go:123-160 | returns an agent that neither terminates nor has ended; a new one is made only on a node cleared of old ones, and no call is made without a stream id |
| Cluster.Manager.DeleteAgentOnNode | pkg/hub/agent/lifecycle.go:386-426 | nil iff every deletion succeeded or found nothing and the last listing was empty; then no agent of the session is on the node |
| Cluster.Manager.DeleteSessionAgents | pkg/hub/agent/lifecycle.go:300-368 | nil iff the collection's and every pod's deletion succeeded or found nothing and the last listing was empty; then no pod of the session exists |
| Cluster.Manager.WaitGone | pkg/hub/agent/lifecycle.go:370-383 | nil iff the last listing was empty, and then the selector matches nothing; it polls at least once and on after a retriable fault only |
| Cluster.Manager.WaitReady | pkg/hub/agent/lifecycle.go:164-227 | nil iff the last look saw the pod running with containers, all of them ready, and no terminal condition or container; it polls on while the pod is neither that nor hopeless and after a retriable fault |
| Cluster.Judge | pkg/hub/agent/lifecycle.go:193-216 | one look at a pod: ready, hopeless or still waiting, each exactly when it is |
| Cluster.OneAgentPerNode | pkg/hub/agent/lifecycle.go:95-160 | at most one reusable agent exists per session and node |
| Reconcile.Converges | pkg/hub/watch.go:141-255 | an error-free pass leaves exactly the wanted nodes with an assignment whose UIDs are the group's |
| Reconcile.ConvergedMeans | pkg/hub/watch.go:162-179 | in terms of the listing: assigned nodes are the nodes of the matched pods, assigned UIDs those of the pods on the node |
| Reconcile.Fixpoint | pkg/hub/watch.go:141-255 | on a converged plan a pass that finds its agents changes no assignment, bumps no generation, emits nothing |
| Reconcile.SecondPassIsQuiet | pkg/hub/watch.go:141-255 | after an error-free pass a second one on the same listing is the identity |
| Reconcile.HotUpdate | pkg/hub/watch.go:271-296 | with its agent and an assignment, a node with equal targets is left alone; else it is announced as captured from, exactly the pods not assigned before are attached, and the stream id stays |
| Reconcile.NewAgent | pkg/hub/watch.go:298-368 | a node with a new agent is announced as scheduled and then, if it gets ready, as ready with all its pods attached; if not, it is left without an assignment |
| Reconcile.EventsTellThePods | pkg/hub/watch.go:181-255 | a client who follows the attach and detach events of an error-free pass, knowing the pods assigned before it, knows those assigned after it |
| Reconcile.NodeStepSettles | pkg/hub/watch.go:257-426 | looking after one node without an error settles it |
| Reconcile.NodeStepIsLocal | pkg/hub/watch.go:257-426 | and touches no other node's assignment |
| Reconcile.NothingToDetach | pkg/hub/watch.go:181-201 | a converged plan assigns no pod that is not desired |
| Reconcilers.Reconciler.ReconcileSession | pkg/hub/watch.go:141-255 | the pass run in place does what the function of the listing and the API answers says, keeps one agent per node, and when nothing failed it converges and its events tell the pods now assigned |
| Reconcilers.Reconciler.EnsureNodeAgent | pkg/hub/watch.go:257-368 | update, create or fail exactly as specified, through the unlock around WaitReady; a created agent is recorded under its pod's name and stream id |
| Reconcilers.Reconciler.RemoveNodeAgent | pkg/hub/watch.go:382-426 | terminating and gone events around the removal, which succeeds iff the deletion did or the context is done; else all is kept |
| Reconcilers.Reconciler.AbandonNodeAgent | pkg/hub/watch.go:370-380 | agent and assignment are forgotten even if the deletion fails |
| Reconcilers.Reconciler.DetachMissing | pkg/hub/watch.go:181-201 | exactly one detach, of an assigned pod, for each assigned UID that is no longer desired |
| Reconcilers.Reconciler.CurrentTargets | pkg/hub/session.go:236-248 | the non-empty UIDs of all assignments, each with an assigned pod of that UID |
| Reconcilers.Reconciler.EmitNewAttaches | pkg/hub/watch.go:451-478 | adds, in group order, an attach for exactly the pods whose UID is not the non-empty UID of a target assigned before, and nothing else |
| StopProtocol.StopIsFinal | pkg/hub/server.go:226-258 | after a stop's deletion of the agents no thread, parked in WaitReady or not, can ever create one, and if no abandoned Create is pending then no pod of the session ever exists again |
| StopProtocol.StopIsFinalExactly | pkg/hub/server.go:239-241 | from the deletion on no pod of the session ever appears iff no abandoned Create is pending |
| PhaseProtocol.AtMostPending | pkg/hub/server.go:239-241 | after the deletion there are never more pods of the session than abandoned Creates were pending then |
| PhaseProtocol.SucceedsOnlyByRunning | pkg/hub/server.go:147-169 | a CreateSession that succeeds has set the session RUNNING |
| PhaseProtocol.PassesFollowSuccess | pkg/hub/server.go:52-67 | no reconcile pass begins before CreateSession has succeeded |
| PhaseProtocol.StopShowsStopping | pkg/hub/server.go:235-252 | from its decision until it says STOPPED a stop shows STOPPING, or FAILED if failSession says so meanwhile |
| StopProtocol.CancelledNeverRuns | pkg/hub/watch.go:298-351 | a cancelled session never shows RUNNING again |
| AgentPods.OneAgentExactly | pkg/hub/agent/lifecycle.go:123-160 | at most one agent pod per session and node, and none where one is about to be created, throughout a run iff every abandoned Create in it lands on a node without an agent and without such a creator |
| AgentPods.OneAgentPod | pkg/hub/agent/lifecycle.go:123-160 | at most one agent pod per session and node in every state up to which all landings were harmless |
| AgentPods.TwoAgentsOnANode | pkg/hub/agent/manifest.go:97-105 | a run in which an abandoned Create lands beside the agent of the next pass, under a generated name of its own |
| EnsureProtocol.OneEnsuresEach | pkg/hub/session.go:170-184 | a node is marked exactly while one call is between its beginEnsure and its endEnsure, also while that has let go of reconcileMu |
| EnsureProtocol.StepsRefinePass | pkg/hub/watch.go:257-426 | step by step, whatever runs in between, ensureNodeAgent and removeNodeAgent do to the assignments and return what the pass function says for some answers of the API server, if nobody changes the assignments during WaitReady |
| EnsureProtocol.KeptIfReadyAndScheduling | pkg/hub/watch.go:343-351 | after its wait an agent is kept iff it got ready and the session is still STARTING or RUNNING, else abandoned |
| EnsureProtocol.ForgetsOnlyIfGone | pkg/hub/watch.go:408-411 | a node is forgotten in a session that is not cancelled only if no agent pod is left on it |
| EnsureProtocol.PassesWorkWhileRunning | pkg/hub/watch.go:141-146 | a reconcile pass lists and works only after it has seen the session RUNNING |
| EnsureProtocol.CreatesWhileScheduling | pkg/hub/watch.go:298-303 | whoever is about to create an agent has seen the session STARTING or RUNNING and not cancelled |
| StopProgress.NoDeadlock | pkg/hub/watch.go:339-341 | from every reachable state every call of CreateSession, of a reconcile pass and of stopSession can come to its end |
| StopProgress.RemovalCanSucceed | pkg/hub/watch.go:411-426 | removeNodeAgent can come to forget its node |
| StopProgress.AgentCanBeReused | pkg/hub/agent/lifecycle.go:123-140 | an agent on the node that can be kept can be taken over, under its own stream id |
| StopProgress.StopCanStop | pkg/hub/server.go:226-258 | from every reachable state a stopSession about to begin can end with the session in a terminal state, STOPPED if by its own doing |
| StopProtocol.SessionMapsAgree | pkg/hub/session.go:186-212 | agents and assignments have the same nodes and stream ids, and every target's pod is on its assignment's node |
| StopProtocol.MutualExclusion | pkg/hub/watch.go:339-341 | each mutex is held exactly by the thread between its Lock and its Unlock, through the Unlock and Lock around WaitReady, so none unlocks what it does not hold |
| StopProtocol.StoppedIsAbsorbing | pkg/hub/server.go:29-72 | STOPPED stays once CreateSession sets no more states |
| StopProtocol.LeavesStopped | pkg/hub/server.go:74-107 | otherwise it is left exactly by CreateSession's setState calls |
| StopProtocol.FailedAfterStopped | pkg/hub/server.go:74-83 | a run in which FAILED follows STOPPED |
| WatchProtocol.NoLostWakeup | pkg/hub/session.go:108-285 | parked on an unclosed broadcast: the state is as read and neither RUNNING nor ending; no packet subscriber; the generation as read and the agent present |
| WatchProtocol.NeverStale | pkg/hub/server.go:396-409 | a stream parked in waitAssignChange on an open channel has last sent the node's current assignment |
| WatchProtocol.SentToItsIncarnation | pkg/hub/session.go:353-371 | everything sent is for the stream's node and incarnation, with targets on that node |
| WatchProtocol.SentToTheAgent | pkg/hub/server.go:396-405 | whatever a stream is sent was the node's assignment in an earlier state in which the agent recorded there was the stream's own, by pod and by stream id |
| WatchProtocol.AdmittedAsTheAgent | pkg/hub/server.go:379-390 | a stream that waits for anything was admitted as the recorded agent's |
| WatchProtocol.SentOnlyOnChange | pkg/hub/server.go:396-409 | a stream is sent at most one assignment and one more for each change of the assignments |
| WatchProtocol.AgentCanBeSent | pkg/hub/server.go:379-410 | from every reachable state in which the recorded agent's stream is open, the session RUNNING and a packet subscriber there, the stream can be sent the node's current assignment |
| WatchProtocol.UpdateReaches | pkg/hub/watch.go:272-280 | after an updateAssignment such a stream can be sent the new assignment |
| WatchProtocol.FirstAssignmentReaches | pkg/hub/server.go:379-410 | a run from a new session in which the recorded agent's stream is sent its first assignment |
| WatchProtocol.SentAfterRunningThenSubscriber | pkg/hub/server.go:388-395 | every send is preceded by a RUNNING state and then by a state with a packet subscriber |
| Captures.ValidateAssignment | pkg/agent/runner.go:549-574 | nil exactly for an acceptable assignment; a pod error names the first bad target |
| Captures.CaptureSet.StartTarget | pkg/agent/runner.go:153-184 | starts a capture unless that UID has one |
| Captures.CaptureSet.StopTarget | pkg/agent/runner.go:185-197 | the capture of that UID is cancelled, awaited and forgotten |
| Captures.CaptureSet.Apply | pkg/agent/runner.go:198-228 | afterwards the captured UIDs are the assignment's; surviving UIDs keep the same capture, removed ones were cancelled and have ended; an invalid assignment changes nothing |
| Delivery.CapturesTheListing | pkg/agent/runner.go:230-246 | once the hub has converged on a listing and a stream is parked on an open channel, an agent that applied what it was sent and accepts the first assignment and the last captures exactly the matched pods of its node |
| Captures.FollowAssignments | pkg/agent/runner.go:111-246 | nothing starts unless the first assignment is valid; then the captured UIDs are those of the last valid one |
| Captures.LastTargetWins | pkg/agent/runner.go:206-209 | of several targets with one UID the last is captured |
| Captures.WantedAfterValid | pkg/agent/runner.go:198-205 | invalid assignments after a valid one have no effect |
| Batching.Slice.Append | pkg/agent/runner.go:433-435 | append in place or into a new array |
| Batching.Slice.Clone | pkg/agent/runner.go:641-651 | the copy shares nothing with the slice |
| Batching.ReadFrame | pkg/agent/runner.go:433-441 | one frame more keeps: queued batches and the waiting one hold the frames read, full batches have exactly the batch size |
| Batching.CaptureLoop | pkg/agent/runner.go:394-443 | the queued batches are the frames read, in order, of 1 to n records each, untouched by later reuse of the slice; what a read error or failed send loses is exact |
| Batching.FullBatches | pkg/agent/runner.go:436-441 | what is left over after full batches |
| EventLogs.EventLog.BeginAppend | pkg/hub/events.go:23-37 | the event is logged unless closed, and each subscriber is to be sent it once |
| EventLogs.EventLog.SubscribeWithReplay | pkg/hub/events.go:43-53 | history is the log so far, and the subscriber is registered from here on |
| EventLogs.EventLog.Unsubscribe | pkg/hub/events.go:55-62 | the subscriber leaves and its channel is closed once |
| EventLogs.EventLog.Close | pkg/hub/events.go:64-75 | the first close closes every subscriber's channel once; a second changes nothing |
| EventProtocol.ReplayOrLive | pkg/hub/events.go:23-53 | every event logged before the subscriber's channel was closed is in exactly one of its history, its live sends, and what one appender still owes it |
| EventProtocol.ClosedLogIsFixed | pkg/hub/events.go:27-31 | a closed log takes no more events |
| EventProtocol.SendInOrderExactly | pkg/hub/events.go:38-40 | a send keeps its subscriber's events in order iff it overtakes no event still owed to that subscriber |
| EventProtocol.InOrderExactly | pkg/hub/events.go:23-53 | every subscriber has its events in order all along iff no send of the run overtakes |
| EventProtocol.ReplayThenLive | pkg/hub/events.go:23-53 | without overtaking and with nothing owed, history followed by live events is the log in order |
| EventProtocol.SerialRunIsOrderly | pkg/hub/events.go:23-41 | serialized appenders never overtake |
| EventProtocol.SendPanics | pkg/hub/events.go:38-40 | a send panics exactly when its subscriber has left since the snapshot |
| EventProtocol.PanicsExactly | pkg/hub/events.go:38-75 | from any state some continuation that closes no further channel panics iff a subscriber who has left is still owed an event |
| EventProtocol.UnsubscribeInTheWindow | pkg/hub/events.go:38-62 | a run that does |
| EventProtocol.CloseInTheWindow | pkg/hub/events.go:38-75 | so does a run with a close in that window |
| EventProtocol.AppendCanReturn | pkg/hub/events.go:38-41 | an append none of whose subscribers has left can return, each of them having been sent the event |
| EventProtocol.OverlapReorders | pkg/hub/events.go:23-41 | a run in which overlapping appends reach a subscriber out of order |
| TlsParse.ParseStream | pkg/agent/tlsworker/parse.go:33-87 | emits what the block-splitting specification says, or a prefix of it when cancelled |
| TlsParse.ParseByLines | pkg/agent/tlsworker/parse.go:54-86 | the output is, line by line, what the JSON and header lines begin, so no continuation line goes to the wrong block |
| TlsParse.JoinKeepsLines | pkg/agent/tlsworker/parse.go:81-85 | a block's text tells its lines: none is lost, cut or run together with another |
| TlsParse.BoundaryIsNext | pkg/agent/tlsworker/parse.go:54-86 | a block's text is the plain lines up to the next JSON or header line or the end |
| TlsParse.NoBlankText | pkg/agent/tlsworker/parse.go:45-53 | no text event is blank |
| TlsParse.ParseConcatExactly | pkg/agent/tlsworker/parse.go:33-87 | parsing distributes over a cut iff no block is open there, no plain line follows, or open block and continuation are blank |
| TlsParse.ParseFromOpenBlock | pkg/agent/tlsworker/parse.go:54-86 | whatever follows goes on from the block that is open, and nothing else of the past matters |
| TlsParse.ParseConcat | pkg/agent/tlsworker/parse.go:33-87 | so it distributes over a cut before a JSON or header line |
| TlsParse.CutBlockLosesText | pkg/agent/tlsworker/parse.go:81-85 | an instance: a visible line cut from its header is lost |

## Left out

- gRPC and protobuf plumbing, metadata, logging, Kubernetes client calls, tcpdump and ecapture processes, CRI lookup: input and output; what they may answer is left open.
- Clocks, tickers, drain timeouts and waitCaptureStreamsIdle: a timeout is a step that may happen at any time.
- 64-bit wrap-around of sequence numbers and counters; the 32-bit truncation of the payload length in validateCaptureRecord is modelled.
- Event fields beyond kind, node, phase and pods (timestamps, messages, agent pod names), and the node list shown in a session.
- The syntax of label values: a selector that cannot be built is one of the failures a listing may have.
- Agent pods of the session made by anyone but the hub. In Cluster and Reconcile, a Create that takes effect only after its client has given up on it; StopProtocol and AgentPods have it.
- WatchEvents, which may return when the session ends without draining its channel.
- The shutdown order of Run, and sends on its batch channel during it; attach and detach events are not claimed to balance after errors.
- The loop of publish as one method: its retries and selects are the steps of PacketProtocol, whose lock regions are the methods of PacketLog; likewise SubscribePackets, WatchTargets, StreamCapture, startSession and stopSession.
- JSON decoding and header matching in the TLS parser: any classification of lines; payload bytes are taken as characters.
- Spec and config validation, TLS mode names, manifests, link types, file sinks: single-branch code.
- Sessions.SessionState.RemoveAgent: leaves out the list of nodes shown for the session, which the code rewrites there.
- Cluster.OneAgentPerNode: a Create carried out after its client gave up is outside the calls considered; AgentPods.OneAgentExactly is about it.
- Reconcilers.Reconciler.EnsureNodeAgent: which answer the API gave is a ghost result; the contract ties the state and the result to that answer.
