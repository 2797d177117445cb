# A verified model of the Flux broker's overlay network

Flux brokers form a tree rooted at rank 0, the tree based overlay network. Over its links they start up
and shut down together, route requests, responses and events, keep track of which brokers are online, and
gather group membership at rank 0. This project models the decision logic of those protocols in Dafny and
proves what they guarantee, for every tree and every run.

`dafny verify dfyconfig.toml` checks the whole project.

| file | models |
|---|---|
| `Wrappers.dfy` | the option type |
| `Tree.dfy` | the theory of parent arrays: levels, ancestors, subtrees |
| `Topology.dfy` | the topology queries |
| `Builders.dfy` | the flat, k-ary, binomial and custom topologies |
| `Routing.dfy` | routing of requests and responses over the tree, and the error path of a failed send |
| `Overlay.dfy` | one broker's table of children: status, index of online children, pending requests |
| `Answers.dfy` | requests in flight between a broker and its children, and the answers to them |
| `Upstream.dfy` | requests in flight between a broker and its parent, and the answers to them |
| `Health.dfy` | subtree status over the whole tree |
| `Lifecycle.dfy` | the life-cycle state machine of one broker |
| `Monitoring.dfy` | the same as an object, with its monitor and wait requests |
| `Startup.dfy` | start-up of the whole tree: parents' state streams, the group of online brokers, the quorum |
| `StartupProgress.dfy` | start-up does not stall |
| `Shutdown.dfy` | shut-down of the whole tree: hello, goodbye, and the wait for children |
| `ShutdownProgress.dfy` | shut-down does not stall |
| `EarlyShutdown.dfy` | brokers that turn to shut-down before RUN |
| `Groups.dfy` | the groups service of one broker: the batch of updates and its reduction |
| `GroupTree.dfy` | groups over the whole tree |
| `Events.dfy` | event numbering and distribution |
| `Modules.dfy` | load and remove requests over the life of a broker module |

Each protocol is a state machine over explicit steps. A run is a sequence of steps in any order, so that
every interleaving of messages, local events and failures is covered. Objects that the source updates in
place are classes whose methods are proved against functions on values; the theorems over whole runs are
about those functions.

Four properties one might expect are false of the code. Each is given with a concrete failing run and the
exact condition under which it holds:

- A broker whose request to join the group of online brokers fails on entering QUORUM does not look at its
  parent, so a parent already in RUN is not acted on. `Lifecycle.StepLosesIff` and
  `Lifecycle.RunLosesNothingIff` say exactly which steps lose a parent transition. The failure itself then
  takes the broker to SHUTDOWN.
- A broker that turns to shut-down before RUN skips CLEANUP, goes on accepting children, and may enter
  FINALIZE with a child online (`EarlyShutdown.FinalizesAloneIff`).
- A broker that loses its parent does not always move on: in QUORUM neither the overlay's notice nor the
  broken monitor stream posts an event, and it stays there until it is told to stop
  (`Lifecycle.LossIsActedOnIff`).
- The error response to a request that cannot be sent does not always reach the sender. When an online child
  turns out to be unreachable, the two routes already pushed stay on the request and its error response is
  dropped; and a request of the broker itself that fails before it has left is thrown away without a response
  (`Routing.ErrorReachesSenderIff`, `Routing.ErrorRetracesIff`).

Three more hold because of how the code is used. A broker above rank 0 with an `rc2` script of its own would
lose its parent's move to SHUTDOWN, but only rank 0 is given one (`Lifecycle.NothingIsLostIff`;
src/broker/broker.c:753). A hello that brings another identity than that of the socket it comes from could
leave the index of online children wrong, but a broker always sends its own
(`Overlay.HelloKeepsIff`, `Overlay.HelloOfItsSenderKeeps`, `Overlay.ForeignIdentityBreaksIndex`). A request
of the broker itself to a rank below it is tracked under the broker's identity, but its response is looked up
under no identity, so the response does not end the tracking and the request is answered again when the child
goes (`Overlay.KeysAgreeIff`, `Answers.AnsweredOnceIff`, `Answers.OwnAnsweredTwice`); but every request of the
broker's own is addressed to any node or upstream, and so never goes down (for example
src/broker/groups.c:351-353, src/broker/state_machine.c:1093-1095).

## Assumptions

- Identities (uuids) are unique. A broker does not restart within a run, except in `Answers` and `Health`,
  where it may, under a new identity.
- A connection is a first-in first-out channel. A router socket takes the last route off to choose the peer,
  and puts the sender's identity on what it receives.
- In `Answers` and `Upstream` every request expects one response and has a match tag, and a match tag is used
  again only once its last use has been answered. A parent responds only to children it lists as online
  (src/broker/broker.c:1724), and an identity that has left that list does not come back to it.
- Event sequence numbers stay below 2^31; ranks and sizes are C integers of 32 bits, and this is modelled in
  `Builders`.
- Only the state machine joins the group `broker.online`.
- Time-outs, subprocess exits and signals are events that may come at any time. What a foreign call returns
  (a send, an encoding, a start of a script) is a parameter of the step that makes it.

## Model

| member | source | states |
|---|---|---|
| `Topology.GetLevel` | src/broker/topology.c:242-254 | the walk to the root counts the level of the broker's own rank |
| `Topology.GetMaxLevel` | src/broker/topology.c:257-274 | the result is the level of some rank, and no rank is deeper |
| `Topology.IsDescendantOfMeansBelow` | src/broker/topology.c:277-289 | the recursive test is true exactly of strict descendants, also for ranks out of range |
| `Topology.ChildRanksAt` | src/broker/topology.c:197-225 | counts the children and lists them in increasing order at the start of the buffer, changing nothing behind them; EINVAL exactly for a rank out of range or a missing buffer said to have places, EOVERFLOW exactly for a buffer that is too short |
| `Topology.DescendantCountAt` | src/broker/topology.c:292-302 | the count is the size of the set of strict descendants |
| `Topology.DescendantCountIsSumOverChildren` | src/broker/topology.c:292-302 | a rank's descendant count is the sum over its children of their count plus one |
| `Topology.ChildRouteIsTheOnlyWayDown` | src/broker/topology.c:310-317 | a child route exists exactly for strict descendants, and is the one child whose subtree holds the target |
| `Topology.SubtreeListsEachRankOnce` | src/broker/topology.c:319-362 | the recursive subtree document names each rank of the subtree once, no other rank, and has the right size |
| `Topology.AddSubtreeIdsIsSubtree` | src/broker/groups.c:644-659 | collecting ids from that document adds exactly the ranks of the subtree |
| `Builders.FlatIsTree` | src/broker/topology.c:117-146 | the initial parent array is a tree |
| `Builders.GetHostRank` | src/broker/topology.c:472-486 | finds the first host entry of that name, or fails when there is none |
| `Builders.MovingKeepsTree` | src/broker/topology.c:520-540 | hanging a rank under one that is not in its own subtree keeps a tree |
| `Builders.CycleTestIsExact` | src/broker/topology.c:520-540 | when the cycle test fires, what the configuration asks for is not a tree, whatever entries follow |
| `Builders.CustomInit` | src/broker/topology.c:488-544 | accepts exactly the configurations that are well formed and describe a tree, then holds what was asked for, and holds a tree at every moment, also on failure |
| `Builders.BinomialSmallestK` | src/broker/topology.c:424-434 | the least k with 2^k at least the size; it fails exactly beyond 2^30, and no shift overflows an int |
| `Builders.BinomialGenerate` | src/broker/topology.c:436-445 | writes each rank of its block once and no other, with the lowest set bit cleared, and without integer overflow |
| `Builders.BinomialInit` | src/broker/topology.c:447-463 | every rank's parent is the rank with its lowest bit cleared, and the array is a tree |
| `Builders.BinomialLevels` | src/broker/topology.c:447-463 | in that tree a rank's level is the number of its set bits, which is at most k |
| `Builders.KaryParentIsQuotient` | src/common/libutil/kary.c:17-24 | the parent formula is (r - 1) / k |
| `Builders.KaryParentIsBlock` | src/common/libutil/kary.c:17-24 | rank r hangs under a exactly if k*a+1 <= r <= k*a+k |
| `Builders.KaryInit` | src/broker/topology.c:404-420 | every rank r > 0 hangs under the a with k*a+1 <= r <= k*a+k, the array is a tree, and k = 0 leaves the flat tree |
| `Routing.NextHopIsTheNearerNeighbour` | src/broker/overlay.c:594-614 | the next hop is a neighbour, one link nearer to the target |
| `Routing.PathIsAWalk` | src/broker/broker.c:1640-1681 | the ranks visited are a walk along links from sender to target of length the tree distance |
| `Routing.PathIsTheShortestWalk` | src/broker/broker.c:1640-1681 | no walk between two ranks is shorter, and no other is as short: the path is the tree path |
| `Routing.AddressedFollowsPath` | src/broker/overlay.c:588-628 | in any state of the links and sockets, as long as they take it, a request to a rank is after n hops at the n-th rank of the tree path, carrying the identities behind it |
| `Routing.AddressedStops` | src/broker/overlay.c:594-614 | at the first link that is down or does not take it, it is refused at that rank: EHOSTUNREACH, or the socket's own error |
| `Routing.AddressedArrives` | src/broker/broker.c:1640-1681 | if every link takes it, it ends after the tree distance at the target, served there or refused with ENOSYS |
| `Routing.ServedNearest` | src/broker/broker.c:1650-1672 | a request to any node, or flagged upstream of a rank, is served by the nearest broker from the sender up that offers the service and is not that rank, as long as the links take it, carrying the identities of the brokers below |
| `Routing.RefusedWhereItStops` | src/broker/broker.c:1650-1681 | where it can go no further up it is refused, with ENOSYS if it was looking for its service; a request to an address that is no rank is refused with EHOSTUNREACH |
| `Routing.FlightIsAWalk` | src/broker/overlay.c:576-628 | whatever a request asks for and whatever the links do, the ranks it has been at are a walk, and it carries the identities of those behind it |
| `Routing.BackToNeighbour` | src/broker/overlay.c:1066-1077 | a response whose last route names a neighbour goes there and loses that route, upwards and downwards; if that link is down it is dropped |
| `Routing.ResponseRetraces` | src/broker/broker.c:1712-1733 | as long as the links are up that way, a response retraces the walk of its request hop for hop |
| `Routing.ResponseStops` | src/broker/broker.c:1712-1733 | at the first link that is not, it is dropped |
| `Routing.RoundTrip` | src/broker/broker.c:1712-1733 | it reaches the sender with the routes the request started with |
| `Routing.EveryFlightReturns` | src/broker/broker.c:1640-1733 | any request and its response end to end: from wherever the request has come, what it carries leads the response back to the sender |
| `Routing.HomeIsReachedIff` | src/broker/broker.c:1712-1733 | the response reaches the sender exactly if the links of the walk are up for the way back |
| `Routing.MadeUpEqualsReal` | src/broker/overlay.c:735-746 | the made-up EHOSTUNREACH response for a lost child has the routes of the response the child would have sent |
| `Routing.MadeUpForParentEqualsReal` | src/broker/overlay.c:1093-1102 | the same for a lost parent |
| `Routing.SendRequest` | src/broker/overlay.c:576-628 | one hop of the flights above, for every outcome of the send, and the routes left on the message |
| `Routing.FailedSendDownIsDropped` | src/broker/overlay.c:796-818 | when an online child turns out to be unreachable, the error response is dropped |
| `Routing.OtherErrorBounces` | src/broker/overlay.c:796-818 | on any other socket error the child stays online, and the error response goes down to it and comes back |
| `Routing.ErrorReachesSenderIff` | src/broker/broker.c:1687-1705 | for a failure at the broker the request was sent from, in any state of the links: the error response reaches the sender exactly if that is not the broker itself, and the failure was not in a send to a child that is unreachable or cannot send |
| `Routing.ErrorRetracesIff` | src/broker/broker.c:1687-1787 | for a failure at the end of any walk, in any state of the links: the error response reaches the sender exactly if the links of the walk are up for the way back, the request has left its broker or is not the broker's own, and it did not fail in a send to a child that is unreachable or cannot send |
| `Routing.AnAnswerIsLost` | src/broker/overlay.c:606-622 | a network and a client's request whose error response is dropped and never reaches the client |
| `Routing.TheBrokersOwnIsLost` | src/broker/broker.c:1757-1787 | a request of the broker itself, for a service that nobody offers, that fails and is never answered |
| `Overlay.SummaryIgnoresOrder` | src/broker/overlay.c:244-273 | the order of the children does not matter |
| `Overlay.StatusChangedKeeps` | src/broker/overlay.c:748-772 | a change of status keeps the index exact, the summary right and no request pending at an offline child |
| `Overlay.GreetedIsValidIff` | src/broker/overlay.c:1268-1285 | so does recording a hello, also after a crash, exactly if it does not bring another online child's identity |
| `Overlay.HelloKeepsIff` | src/broker/overlay.c:1017-1034 | the whole handling of a hello, with its guards and its reply, keeps the table valid exactly if it is not accepted or does not bring such an identity |
| `Overlay.HelloOfItsSenderKeeps` | src/broker/overlay.c:1342-1360 | so it always does for a hello that brings the identity of its own socket, as a broker's does |
| `Overlay.ForeignIdentityBreaksIndex` | src/broker/overlay.c:1284-1285 | a table and a hello with another identity after which the index misses an online child |
| `Overlay.RejectedHelloKeeps` | src/broker/overlay.c:1268-1283 | so does a refused hello |
| `Overlay.RecordingKeeps` | src/broker/overlay.c:1284-1284 | writing a child's identity changes no key of the index, because the child is not online then |
| `Overlay.Overlay.constructor` | src/broker/overlay.c:286-340 | all children offline, the summary PARTIAL, or FULL without children |
| `Overlay.Overlay.Summarise` | src/broker/overlay.c:246-266 | the one-pass loop computes the summary |
| `Overlay.Overlay.SubtreeStatusUpdate` | src/broker/overlay.c:267-272 | the new summary is recorded, and reported to the parent if it changed |
| `Overlay.Overlay.ChildStatusUpdate` | src/broker/overlay.c:748-772 | the update in place of child, index, pending requests, failures and summary |
| `Overlay.Overlay.LookupByRank` | src/broker/overlay.c:466-469 | finds the child of that rank, or none |
| `Overlay.Overlay.Greet` | src/broker/overlay.c:1252-1285 | drops the old connection of a crashed child, and records identity and status if the version is accepted |
| `Overlay.Overlay.HelloRequest` | src/broker/overlay.c:1215-1306 | when a hello is accepted, the table after it and after its reply, which may find the child gone; the table stays valid exactly if identities do not clash, and always for a hello with the sender's own |
| `Overlay.Overlay.ControlStatus` | src/broker/overlay.c:1057-1064 | a status report counts only from an online child |
| `Overlay.Overlay.SendMsgChild` | src/broker/overlay.c:796-818 | an online child that is unreachable becomes lost; nothing else changes |
| `Overlay.Overlay.Goodbye` | src/broker/overlay.c:1644-1673 | offline once the reply is sent, lost if the reply finds it unreachable, no change for an unknown peer |
| `Overlay.KeysDistinguish` | src/common/librouter/msg_hash.c:58-69 | two messages have the same key exactly if they have the same sender and the same match tag |
| `Overlay.KeysAgreeIff` | src/common/librouter/msg_hash.c:27-32 | a response from a child is looked up under the key its request was tracked under exactly if the request reached this broker with a route |
| `Overlay.ResponseEndsOne` | src/common/librouter/rpc_track.c:107-120 | a response ends the tracking of the request with its sender and match tag, and of no other |
| `Overlay.CancelledKeepsOthers` | src/common/librouter/rpc_track.c:88-105 | a disconnect keeps exactly the tracked requests of other senders |
| `Overlay.DepartedIsGone` | src/broker/overlay.c:1644-1673 | after a goodbye the child is offline, or lost if it did not get the reply, and no other child has changed |
| `Overlay.Overlay.SendRequestToChild` | src/broker/overlay.c:601-628 | a request is tracked exactly if it was sent, under the key of the routes it was sent with |
| `Overlay.Overlay.SendDisconnectToChild` | src/common/librouter/rpc_track.c:88-129 | word that a requester has gone stops the tracking of its requests only |
| `Overlay.Overlay.ResponseFrom` | src/broker/overlay.c:1068-1077 | a response from an online child ends the tracking of what has the key of the routes left on it, from anyone else it is dropped |
| `Overlay.Overlay.McastChildOne` | src/broker/overlay.c:843-854 | one child of a broadcast: it gets the message, or is lost and its requests are failed, and no other child changes |
| `Overlay.Overlay.McastChild` | src/broker/overlay.c:856-878 | a broadcast reaches, in order, every online child but those whose send fails; a lost child keeps no other from getting it, its requests are failed, and each change of the summary on the way is reported |
| `Answers.InvHolds` | src/broker/overlay.c:994-1088 | after every step of every run the index holds exactly the online children, the summary is right, and every request is accounted for |
| `Answers.TrackedAsSent` | src/broker/overlay.c:606-626 | the key of a request as it is sent down, and of its response as it comes up, by sender and match tag |
| `Answers.AnsweredExactlyOnce` | src/broker/overlay.c:735-772 | per sender, other than the broker itself, and match tag: each request sent to a child is answered at most once, and once exactly when it is no longer pending at an online child, also when its match tag is used again while a late response is on its way |
| `Answers.ResponseLeavesOthers` | src/broker/overlay.c:1068-1077 | a response leaves every request of another sender or match tag pending |
| `Answers.OwnAnsweredTwice` | src/broker/overlay.c:1068-1077 | from the start of any broker with a child, a run in which one request of its own is answered by the child and again when the child is lost |
| `Answers.AnsweredOnceIff` | src/broker/overlay.c:735-746 | all runs answer the requests under a key once exactly if they are not the broker's own |
| `Answers.LateResponsesAreDropped` | src/broker/overlay.c:1017-1050 | a response on a connection that went down is dropped for ever after, whether or not the child came back under a new identity |
| `Upstream.InvHolds` | src/broker/overlay.c:1104-1178 | after every step of every run no response is on its way behind a disconnect, and every request sent to the parent is accounted for |
| `Upstream.AnsweredExactlyOnce` | src/broker/overlay.c:1093-1165 | per sender, the broker itself included, and match tag: each request sent to the parent is answered at most once, by a response or a made-up error, and once exactly when it is no longer tracked; a disconnect leaves none tracked |
| `Upstream.ResponseLeavesOthers` | src/broker/overlay.c:1139-1141 | a response leaves every request of another sender or match tag tracked |
| `Health.InvHolds` | src/broker/overlay.c:244-273 | in every run, with brokers leaving, getting lost and restarting, every broker's status is the summary of what it has recorded of its children, and what is on the way will bring each record up to date |
| `Health.FullIffAllLinked` | src/broker/overlay.c:1057-1064 | once all messages are handled and broken connections noticed, a broker is FULL exactly if every rank below it is connected |
| `Health.RecordsTellFate` | src/broker/overlay.c:748-772 | in every run, a parent records a child as online, lost or offline exactly as the last thing that happened to the connection was a welcome, its discovery as broken, or a goodbye or nothing at all |
| `Health.LinkedIffWelcomed` | src/broker/overlay.c:1057-1064 | once all is handled, a link is up exactly if the last thing that happened to it was a welcome |
| `Health.DegradedIffLossVisible` | src/broker/overlay.c:246-266 | then a broker is DEGRADED exactly if a chain of connected links leads down to a broker whose last news of a child was that its connection was broken |
| `Health.RootTellsAll` | src/broker/overlay.c:244-273 | rank 0 is FULL exactly if every rank was last welcomed, and DEGRADED exactly if such a loss is visible |
| `Health.StatusChangeIsRecord` | src/broker/overlay.c:748-772 | the model of the whole tree and that of one broker's table agree on every change of status and on whether it is reported |
| `Health.LoseIsOldDropped` | src/broker/overlay.c:796-818 | a connection found broken is, in the table of one broker, an online child that becomes lost |
| `Health.ReportIsControl` | src/broker/overlay.c:1052-1064 | a status message handled is the change of that child's status in the table |
| `Health.GoodbyeIsDeparted` | src/broker/overlay.c:1644-1673 | a goodbye handled is the departure of that child in the table |
| `Health.HelloIsHandled` | src/broker/overlay.c:1215-1306 | a hello, ignored while shutting down or without the right credentials, refused or accepted, is what it is in the table |
| `Health.HelloReplyIsLost` | src/broker/overlay.c:1294-1306 | a hello whose reply finds the peer gone is, in the table, an accepted hello and then a lost child |
| `Lifecycle.EveryEventMovesOn` | src/broker/state_machine.c:128-152 | each event is ignored in all states but one; from that it moves the broker on by one state, or to SHUTDOWN if it tells of a failure before RUN, and only rc2-none leaves it where it is |
| `Lifecycle.LookupNext` | src/broker/state_machine.c:128-188 | the search of the transition table computes that function |
| `Lifecycle.EachStateIsEnteredOnce` | src/broker/state_machine.c:511-541 | in every run the states entered rise strictly, at most nine of them |
| `Lifecycle.GetsToExit` | src/broker/state_machine.c:203-442 | a broker that works off its queue, and for which what it waits for does happen, is in EXIT before 35 inputs, and until then is never stuck |
| `Lifecycle.EntryIsExact` | src/broker/state_machine.c:203-442 | entering a state posts an event that leads on exactly if there is nothing to wait for; with a parent to look at, whatever that calls for |
| `Lifecycle.ScriptEndMovesOn` | src/broker/state_machine.c:621-663 | the end of a script, good or bad, takes the broker out of the state it ran in |
| `Lifecycle.CheckIsExact` | src/broker/state_machine.c:706-785 | a look at the parent posts an event exactly for a move that the parent's state calls for |
| `Lifecycle.FailedParentCheck` | src/broker/state_machine.c:706-785 | a look at a parent that has failed leads to SHUTDOWN from JOIN and QUORUM, and to nothing from RUN |
| `Lifecycle.LossIsActedOnIff` | src/broker/state_machine.c:1059-1142 | a broker that waits and learns that its parent is gone moves on exactly if it is not in QUORUM |
| `Lifecycle.StepLosesIff` | src/broker/state_machine.c:706-785 | a step leaves a move that the parent's state calls for, by the order of the states, without a queued event that makes it exactly if it enters QUORUM with a failed join over a parent in RUN, or RUN with a started rc2 script over a parent in SHUTDOWN |
| `Lifecycle.RunLosesNothingIff` | src/broker/state_machine.c:1059-1081 | in every run, for every interleaving, every such move is queued at every moment exactly if no step is one of those |
| `Lifecycle.NothingLostFrom` | src/broker/state_machine.c:203-215 | so nothing is lost while joins succeed and there is no rc2 script |
| `Lifecycle.RunLostWithoutJoin` | src/broker/state_machine.c:288-300 | a run, with a parent that goes through its states one by one, in which RUN is lost after a failed join |
| `Lifecycle.ShutdownLostWithScript` | src/broker/state_machine.c:343-352 | such a run in which a broker with an rc2 script loses its parent's shut-down |
| `Lifecycle.NothingIsLostIff` | src/broker/state_machine.c:280-361 | over all such runs nothing is lost exactly if joins do not fail and there is no rc2 script |
| `Monitoring.StateMachine.constructor` | src/broker/state_machine.c:1229-1260 | no state entered, nothing queued, parent not heard |
| `Monitoring.StateMachine.MonitorUpdate` | src/broker/state_machine.c:1026-1038 | the walk that deletes in place serves each request once and keeps those that stay, in order |
| `Monitoring.StateMachine.WaitUpdate` | src/broker/state_machine.c:954-967 | the same for wait requests |
| `Monitoring.StateMachine.EnterState` | src/broker/state_machine.c:519-540 | the entry action, then the requests that want to know |
| `Monitoring.StateMachine.Check` | src/broker/state_machine.c:691-704 | one event off the queue is one step of the machine; it keeps the history rising, and loses no parent transition but in the two cases above |
| `Monitoring.StateMachine.MonitorContinuation` | src/broker/state_machine.c:1059-1081 | after a state report from the parent, every move it calls for is queued |
| `Monitoring.StateMachine.OverlayMonitor` | src/broker/state_machine.c:1109-1142 | a lost parent queues what takes a broker in JOIN to SHUTDOWN and one in RUN to CLEANUP; no child left queues what takes one in SHUTDOWN to FINALIZE |
| `Monitoring.StateMachine.BrokerOnline` | src/broker/state_machine.c:870-931 | the quorum queues what takes rank 0 from QUORUM to RUN, and a smaller group queues nothing |
| `Monitoring.StateMachine.RunatCompletion` | src/broker/state_machine.c:621-663 | the end of a script queues the one event that takes the broker on from the state the script ran in |
| `Monitoring.StateMachine.HandleSignal` | src/broker/state_machine.c:549-592 | a signal queues what takes a broker in JOIN or QUORUM to SHUTDOWN, and one in RUN without an rc2 script to CLEANUP |
| `Monitoring.StateMachine.MonitorRequested` | src/broker/state_machine.c:1040-1057 | a new streaming request has been sent exactly what the present state calls for, and is listed if there is more to come |
| `Monitoring.StateMachine.WaitRequested` | src/broker/state_machine.c:976-993 | a new wait request has been answered if the present state calls for it, and is listed otherwise |
| `Monitoring.MonitorStreamIsExact` | src/broker/state_machine.c:1003-1057 | over any run a streaming request is sent the states met, strictly rising, up to its final one, then exactly one end-of-data once that is reached or passed |
| `Monitoring.WaitIsAnsweredOnce` | src/broker/state_machine.c:933-993 | over any run a wait request gets one reply, success exactly if RUN is the first state at or beyond RUN that is met |
| `Startup.ToldIsMonitorService` | src/broker/state_machine.c:1089-1105 | the parent's stream in the start-up model is what the monitor service sends |
| `Startup.InvHolds` | src/broker/state_machine.c:734-785 | the start-up invariant holds in every run |
| `Startup.NobodyRunsEarly` | src/broker/state_machine.c:870-909 | a broker has entered RUN only if every ancestor has, and at least the configured quorum of ranks has entered QUORUM |
| `Startup.ParentIsNeverBehind` | src/broker/state_machine.c:762-785 | what a broker has seen of its parent only rises, never runs ahead of the parent, and in QUORUM is at least QUORUM, so that the branch for INIT is dead |
| `StartupProgress.RunFlows` | src/broker/state_machine.c:734-785 | in every run without failures, whatever a broker no longer waits for is queued, streams end with the parent's state, and rank 0 is told of the members |
| `StartupProgress.StartUpDoesNotStall` | src/broker/state_machine.c:203-361 | in every tree and every interleaving without failures, once nothing is left to be done or delivered every broker is in RUN |
| `Shutdown.OnlyHelloBringsOnline` | src/broker/overlay.c:1017-1034 | a child comes online only by a hello handled while its parent is not shutting down |
| `Shutdown.OnlineNeverGrows` | src/broker/overlay.c:1575-1583 | from then on the set of online children never grows |
| `Shutdown.ChildrenFinishFirst` | src/broker/state_machine.c:363-409 | after a run through RUN, from FINALIZE on no child is online, and every child accepted and not lost has reached GOODBYE |
| `Shutdown.SubtreeFinishesFirst` | src/broker/state_machine.c:398-442 | the same for whole subtrees along links that were not lost |
| `ShutdownProgress.ShutDownDoesNotStall` | src/broker/state_machine.c:398-442 | in every tree and run in which goodbyes get off, once nothing is queued or on its way and every broker counted online is in SHUTDOWN or done, none is in SHUTDOWN |
| `EarlyShutdown.RootNeverTurnsInJoin` | src/broker/state_machine.c:203-220 | rank 0 never turns to shut-down in JOIN |
| `EarlyShutdown.DriveAncestors` | src/broker/state_machine.c:734-757 | in every tree there is a run that takes all brokers above a given one to QUORUM |
| `EarlyShutdown.ChildOnlineInFinalize` | src/broker/state_machine.c:1135-1138 | in every tree, for every broker with a child and every state before RUN it can turn in, a run in which the child is online in FINALIZE |
| `EarlyShutdown.FinalizesAloneIff` | src/broker/state_machine.c:363-409 | in every tree, a broker that turned to shut-down in a given state is sure to have no child online in FINALIZE exactly if that state is RUN, or it has no children, or it is rank 0 and the state is JOIN |
| `Groups.ApplyAllIsEffect` | src/broker/groups.c:184-208 | applying updates in order acts on each rank by itself: the last update that names it decides |
| `Groups.ReductionPreservesMeaning` | src/broker/groups.c:275-339 | for every member set, the reduced list has the effect of the list, merged or left alone |
| `Groups.ReducedIsShort` | src/broker/groups.c:275-314 | two or more updates of one kind become one, any other list stays as it is |
| `Groups.BatchReduceOne` | src/broker/groups.c:275-314 | merges exactly lists of two or more well-formed updates with one flag, into an update with the same effect on every member set |
| `Groups.Service.constructor` | src/broker/groups.c:805-840 | no groups, nothing queued |
| `Groups.Service.BatchAppend` | src/broker/groups.c:242-269 | queues at the end of that group's list and no other's |
| `Groups.Service.BatchReduce` | src/broker/groups.c:321-339 | each group's list is reduced |
| `Groups.Service.RespondAll` | src/broker/groups.c:551-563 | each watcher is told the membership, in order |
| `Groups.Service.ApplyToGroup` | src/broker/groups.c:184-208 | the loop over one group's updates, creating the group if need be |
| `Groups.Service.BatchApply` | src/broker/groups.c:213-235 | every group's queue is applied and emptied, and the watchers of each are told the result once, group after group |
| `Groups.Service.BatchFlush` | src/broker/groups.c:346-362 | the reduced queue goes up, unless this is rank 0, and is applied here |
| `Groups.Service.UpdateRequest` | src/broker/groups.c:379-397 | updates from below are queued behind what is queued |
| `Groups.Service.JoinRequest` | src/broker/groups.c:436-479 | when a join is accepted or refused, and what it queues |
| `Groups.Service.LeaveRequest` | src/broker/groups.c:485-524 | the same for a leave |
| `Groups.Service.GetRequest` | src/broker/groups.c:572-603 | the members are told at once, and a streaming request becomes a watcher; only on rank 0 |
| `Groups.Service.LeaveAll` | src/broker/groups.c:610-639 | leaves exactly the groups this client had joined |
| `Groups.Service.Disconnect` | src/broker/groups.c:610-639 | flushes, sending up what was queued and telling the watchers of those groups, then leaves for the client that went away and drops its watches |
| `Groups.RepliesInOrder` | src/broker/groups.c:551-563 | the i-th reply goes to the i-th watcher, with the group's members |
| `Groups.AnnouncedToWatchers` | src/broker/groups.c:213-235 | the watchers of the groups brought up to date, and only they, are told the members |
| `Groups.WithoutKeepsOthers` | src/broker/groups.c:610-639 | exactly the other clients' watches stay, in their order |
| `GroupTree.ServiceJoins` | src/broker/groups.c:436-479 | for any one group, a join on the service is a join of the tree model |
| `GroupTree.ServiceLeaves` | src/broker/groups.c:485-524 | the same for a leave |
| `GroupTree.ServiceFlushes` | src/broker/groups.c:346-362 | the same for a flush |
| `GroupTree.ServiceReceives` | src/broker/groups.c:379-397 | the same for a delivery from a child's service |
| `GroupTree.InvHolds` | src/broker/groups.c:213-269 | the refinement invariant holds in every run |
| `GroupTree.ParentViewRefinesChild` | src/broker/groups.c:346-429 | at any time a parent's members, with its queue and what is in flight from a child applied, are on the child's subtree the child's own |
| `GroupTree.GroupsAgreeAtQuiescence` | src/broker/groups.c:346-429 | with nothing queued or in flight, every broker holds exactly the ranks of its subtree that were last asked to join |
| `Events.Publisher.constructor` | src/broker/publisher.c:230-246 | nothing published |
| `Events.Publisher.Publish` | src/broker/publisher.c:93-135 | a refused request or failed encoding uses up no number; otherwise the next number is sent and returned |
| `Events.Publisher.Send` | src/broker/publisher.c:137-153 | the same for an event message sent up to be published |
| `Events.Distributor.HandleEvent` | src/broker/broker.c:1519-1556 | an event is distributed exactly if it is beyond all before it; gaps are counted right, and without a gap the sequence stays consecutive |
| `Events.BroadcastSends` | src/broker/overlay.c:856-878 | what distribution does to a child is what the overlay's broadcast does |
| `Events.InvHolds` | src/broker/broker.c:1519-1556 | the invariant of event distribution holds in every run |
| `Events.RootHasNoGap` | src/broker/publisher.c:122-153 | rank 0 distributes 1, 2, 3 up to the number of successful attempts to publish, whatever encodings failed |
| `Events.DistributionIsOrdered` | src/broker/broker.c:1519-1556 | what any broker distributes is strictly increasing, among the numbers published, and was distributed by its parent |
| `Events.SteadyMissesNothing` | src/broker/overlay.c:856-878 | a child that stays online with no failed send gets, in order, all its parent distributes from when it joined |
| `Events.SteadyIsGapFree` | src/broker/overlay.c:856-878 | if that holds all the way up, its events are consecutive from the first |
| `Modules.Module.constructor` | src/broker/module.c:306-417 | a new module has no request and no history |
| `Modules.Module.PushInsmod` | src/broker/module.c:731-738 | a second load request is refused |
| `Modules.Module.InsmodRespond` | src/broker/modhash.c:73-94 | a pending load request is answered once, and none is pending then |
| `Modules.Module.RmmodRespond` | src/broker/modhash.c:96-106 | the loop answers every queued remove request |
| `Modules.Module.SetStatus` | src/broker/module.c:699-707 | INIT is never re-entered, nothing changes after EXITED, and on exit no request is left pending |
| `Modules.Module.StatusReport` | src/broker/modhash.c:510-558 | a report counts exactly while the module has not ended, and keeps every load and remove request accounted for |
| `Modules.Module.Unload` | src/broker/modhash.c:358-374 | a remove request is accepted exactly while the module has not ended and can be told to stop, and every request stays accounted for |
| `Modules.Module.Destroyed` | src/broker/module.c:563-585 | a module destroyed before it reported its exit ends then, with every request accounted for |
| `Modules.Load` | src/broker/modhash.c:249-355 | a load is accepted and left to the module, or refused at once |
| `Modules.LoadIsAnsweredOnce` | src/broker/modhash.c:204-237 | over any run the load request is answered at most once, and exactly once by the time the module has ended |
| `Modules.LoadResultIsDecided` | src/broker/modhash.c:204-237 | success if the first change of status is to RUNNING, otherwise the error the module exits with |
| `Modules.RemovesAreAnsweredOnce` | src/broker/modhash.c:96-106 | every accepted remove request is pending or answered once, and none is pending once the module has ended |
| `Modules.NothingAfterTheEnd` | src/broker/module.c:699-707 | nothing follows the end of a module |

## Left out

- Socket set-up, CURVE certificates, ZAP, socket monitors and connect time-outs: foreign calls; only FIFO channels and the effect on the child table are modelled.
- Bootstrap, option parsing and `main`: I/O and environment.
- Torpid peers and the group `broker.torpid`: depend on clocks.
- Auto-leave of a subtree's ranks when it is lost: the outcome depends on updates still queued from that subtree.
- Streaming requests and requests without a match tag in the trackers: `Answers` and `Upstream` cover single-response requests.
- Requests sent downstream explicitly rather than by address: no caller in the broker sends one that expects a response.
- A requester that disconnects: `Answers` and `Upstream` model the request that says so, and make no promise of an answer to it.
- A broker that says goodbye while requests to its parent are pending: it is about to exit, and `Upstream` leaves them pending.
- Clients of monitor requests that disconnect, and the `state-machine.get` request.
- Quorum time-out warnings and the deprecated configuration of the quorum as a set of ranks.
- Message tracing, logging, health queries, systemd notification and hostname look-up: output only.
- `attr.c`, `service.c`, `exec.c`, `heaptrace.c`, `brokercfg.c`, `modservice.c`, `log.c`: tables and thin handlers.
- `runat.c` and `shutdown.c`: represented by the events they post to the state machine.
- The parsing of the k in a k-ary topology's URI.
- Credentials, roles and payloads of messages.
- Memory allocation failures and reference counts.
- A local service that fails to take a request for another reason than that it does not exist.
- Restarts of brokers in `Startup`, `Shutdown`, `GroupTree` and `Events`.
- Requests that ask for no response: an error in sending one is not answered.
