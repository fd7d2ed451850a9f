# gim, verified

A Dafny model of the hard core of gim, a websocket messaging server: temporary groups that are created,
joined, left, killed and recreated by concurrent calls; clients with bounded send queues; logins that
race for one key of a shared directory; messages routed and broadcast between nodes; peer discovery; and
the codec of the RPC requests between nodes.

`dafny verify dfyconfig.toml` checks everything.

## How it is modelled

**Groups, as a step system** (`GroupProtocol`). Every group object ever created has a number; the manager
maps a gid to at most one of them. Joins, leaves, leave-alls, posts and one listener per object run in any
interleaving; a step is one lock-protected action. A join may find a dead object and retry, a leave that
empties a group holds its lock over the four steps unmap, `State = 2`, close, unlock, a listener holds it
while it fans a message out, and posts check `State` and push in two steps. `GroupInvariant` has the
invariant, `GroupHistory` what the steps do to queues, deliveries and retries, `GroupMembership` the
refinement of an atomic membership table and the agreement with what clients note, `GroupFanOut` the
exactness of a fan-out. `GroupTheorems` and `GroupProgress` state the results over all runs, `GroupOutcomes` and
`GroupCalls` what calls and listeners achieve.

**Locks** (`LockOrder`, `LockProgress`). The same calls at the level of single lock acquisitions: every lock
of the package, with Go's reader-writer semantics (an announced writer bars new readers), and blocking
channel sends. Each path of each call is a script of acquisitions, accesses to what the locks guard, releases and
sends; the scripts are composed as the code composes its routines.

**One node** (`NodeSpec`, `Effects`, `LocalNode`). The objects of a node, updated in place by single calls: classes
with the fields of `TGroup`, `Client` and the two managers. Each method is proved against an operation on
values; the operations are what `LocalProxy` offers. `Effects` says what each operation does to queues and members.

**One client's queue** (`ClientQueue`). Senders, the send loop, closers and the teardown at once. `EndToEnd` runs the
group protocol and one client's queue together, from the groups' channels to the socket.

**Cluster** (`Cluster`, `Broadcast`). Nodes, the directory and the peer tables. `Merge` turns a cluster into
the one node whose clients and members are those of all nodes together; routing and publishing are shown to
do to it what `LocalProxy` does on one node. `Interleaving` lets each node handle published messages in its own
time, among any other changes. `Composition` derives what routing assumes of the directory and the peer tables
from what login, discovery and the group protocol leave. `UserMessages` has the messages that name a user, and
clusters in which publishing differs from the local proxy; `MessageEffects` says what a message does, by its fields.

**Login** (`Login`). Everything kept for one uid, with directory and registry actions as separate steps, and
the product over all uids.

**Discovery** (`Discovery`). The store as a log of events; a snapshot at some revision and a watch after it.

**Codec** (`Thrift`, `RequestCodec`, `CodecAccepts`). Values of the Thrift binary protocol, its skip function, and the
generated reader and writer.

## Where the code does less than it says

- README.md:212 promises one connection per uid. It is kept in runs where a login begins only after the one before
  has ended and while the uid's key is in the directory, or else with nothing under way for the uid, and where the
  store neither fails nor expires the key (`Login.UniqueLogin`); logging in again during an ordinary disconnect, any
  number of times, is covered. It is not kept otherwise: `Login.OverlapAllowsTwo`, `Login.StaleEraseAllowsTwo` and
  `Login.FailureAllowsTwo` give runs. For all runs, `Login.ExactlyWhenUnique` says that two connections arise
  exactly when the key of a connected uid is erased and, with the key still missing, another login swaps.
- A published group message loses its status (it always arrives as 1), and one with an empty gid reaches no
  group (`UserMessages.StatusIsLost`, `UserMessages.EmptyGidIsLost`). `Broadcast.BroadcastExactly` says exactly when
  this can be seen.
- A published message that names a user, with or without groups, is routed to that user by every node that handles
  it, so on k nodes it does k times what the local proxy does once (`Broadcast.ToUserOncePerNode`;
  `UserMessages.TwoNodesTwoCopies`). `UserMessages.UserMessageExactly`: that makes no difference exactly when there is
  one node, or the user is not connected, is in none of the message's groups, or would not take all its copies.
- Peers are watched by service-name prefix, so a service whose name extends this one's can be found under a
  wrong address (`Discovery.LongerNameCollides`). `Discovery.LookupIsRight`: that cannot happen exactly when every
  registration whose key starts with the service's name is of that service.
- A nil request in the RPC arguments is read back as an empty one (`RequestCodec.ArgsRoundTripIff`).

## Model

| member | source | states |
|---|---|---|
| `GroupInvariant.StepKeepsInv` | service/ws/tgroup.go:35-142 | every step of every join, leave, leave-all, post and listener keeps the protocol's invariant: who may hold which lock, what a reference to a group still guarantees, when a group is mapped, dead, closed or empty |
| `GroupTheorems.RunIsGood` | service/ws/tgroup_manager.go:24-102 | every state of every interleaving satisfies all invariants: life cycle, retries, order of deliveries, no leak, exact fan-out |
| `GroupTheorems.LiveIffMapped` | service/ws/tgroup.go:35-65 | a group whose users lock is not write-held is live iff the manager maps its gid to that very object; a dead one has no users; at most one object of a gid has users |
| `GroupTheorems.DeadForever` | service/ws/tgroup.go:82-94 | a dead group object stays dead and is never mapped again, over any stretch of any run |
| `GroupTheorems.ClosedAtMostOnce` | service/ws/tgroup.go:82-94 | each group's channel is closed at most once, only when dead, and exactly once when dead with its lock released |
| `GroupTheorems.TeardownIsNoOp` | service/ws/tgroup.go:127-142 | the teardown a listener runs on exit unmaps, kills and closes nothing |
| `GroupOutcomes.ListenerEnds` | service/ws/tgroup.go:127-142 | with its channel closed and drained the listener ends after three steps of its own and leaves everything else as it was |
| `GroupTheorems.StaleLeaveIsHarmless` | service/ws/tgroup_manager.go:57-70 | no step of a leave holding a reference to group g touches or unmaps another group object, and on a dead g it changes nothing but its lock |
| `GroupTheorems.RetriesAreBounded` | service/ws/tgroup_manager.go:73-80 | a join has retried no more often than groups of its gid died since it began |
| `GroupOutcomes.RetriesDuringCall` | service/ws/tgroup_manager.go:73-80 | the same said of the states alone: at any point of a join, retries are at most the groups of its gid that died since the state in which it began |
| `GroupTheorems.CallLasts` | service/ws/tgroup_manager.go:73-80 | throughout one join call the recorded caller, gid and set of groups dead at its start stay the same, so the bound on retries counts deaths during the call |
| `GroupTheorems.JoinLands` | service/ws/tgroup.go:35-46 | a join succeeds only on an object live and mapped at that moment, which then has the user; otherwise it met one that is not mapped and changed nothing |
| `GroupTheorems.DeliveredByMapped` | service/ws/tgroup.go:97-124 | each delivery is made by the object mapped at that moment, to one of its users who is not excluded |
| `GroupTheorems.DeliveriesAreOrdered` | service/ws/tgroup.go:97-142 | of two deliveries for one gid the earlier is by the same or an older object, and of an earlier message or of the same one to another user: incarnations never interleave |
| `GroupTheorems.AcceptedInOrder` | service/ws/tgroup.go:68-142 | a client accepts the messages of a gid in the order they entered the group channels, across all incarnations, none twice |
| `GroupTheorems.FanOutIsExact` | service/ws/tgroup.go:97-124 | when a fan-out ends, exactly the group's users but the excluded one have been offered the message |
| `GroupOutcomes.NothingIsDropped` | service/ws/tgroup.go:97-142 | over every run: a message queued in a group and later not there left at a step at which the group was dead, or the message had been offered to exactly its users at that moment but the excluded one |
| `GroupOutcomes.PostEnds` | service/ws/tgroup.go:68-79 | a post that returns has found no group, or a dead or closed one, and changed nothing; or its message, exclusion included, is last in that group's hands, once more than before |
| `GroupOutcomes.PostGoesOn` | service/ws/tgroup_manager.go:94-102 | until then it keeps gid and message and changes no group; it goes on only to the group mapped at the lookup, and only if that is live at the check |
| `GroupCalls.PostWorks` | service/ws/tgroup_manager.go:94-102 | the same for the whole call, said of the gid and message it was called with |
| `GroupTheorems.EmptyGroupIsAttended` | service/ws/tgroup_manager.go:24-44 | an empty mapped group always has a joiner about to enter it or a leaver about to unmap it |
| `GroupTheorems.NoGroupLeaks` | service/ws/tgroup.go:49-58 | with no join or leave in flight the group table is exactly the gids with a member |
| `GroupMembership.StepIsAtomic` | service/ws/tgroup_manager.go:24-91 | the protocol refines an atomic membership table: entering a live group adds a member, getting the lock to leave removes one, every other step is invisible |
| `GroupMembership.StepKeepsAgree` | service/ws/client.go:83-119 | with calls on each client serialised, every step keeps what clients note equal to the table, up to the one group a call is half done with |
| `GroupTheorems.MembershipAgrees` | service/ws/client.go:83-119 | over every such run, for a client with no call in flight: gid in its own set iff the mapped group of gid has it as user |
| `GroupOutcomes.CallsDoTheirWork` | service/ws/client.go:83-119 | over every run with calls on each client serialised: when a join returns the user is in the group, on both sides; when a leave returns it is not; when a leave-all returns it is in no group |
| `GroupCalls.ClientCallsWork` | service/ws/client.go:83-119 | the same for whole calls, said of the uid and gid they were called with |
| `GroupOutcomes.LeaveAllIsAlone` | service/ws/client.go:112-119 | in every run, while a leave-all holds the client's group lock only its own steps change the client's set, and only by leaving |
| `GroupProgress.NoDeadlock` | service/ws/tgroup.go:49-142 | in every reachable state of the protocol each call in flight, and each listener with a message to fan out or a closed channel, can step or waits through at most two others for one that can |
| `LockOrder.CallIsDisciplined` | service/ws/client.go:83-119 | every path of every call takes locks in strictly increasing rank, accesses guarded data only under its lock and changes it only under the lock for writing, sends on a channel with none in hand and ends with none |
| `LockOrder.CallHas` | service/ws/tgroup_manager.go:24-91 | the script of each call has every access to guarded data, channel send and close that the call makes on that path |
| `LockOrder.FanOutHas` | service/ws/tgroup.go:106-119 | so has the script of a fan-out, for each of its targets |
| `LockOrder.NeutralFanOut` | service/ws/tgroup.go:97-124 | a fan-out to any targets, closing any of them, keeps the discipline under its group's lock |
| `LockOrder.NeutralOnClose` | service/ws/client.go:233-262 | so does a teardown leaving any groups, under the once-lock |
| `LockProgress.StepKeepsInv` | service/ws/tgroup.go:35-142 | every acquisition, announcement, release, send, receive and close keeps the lock invariant |
| `LockProgress.MutualExclusion` | service/ws/tgroup.go:14-16 | a lock held for writing is held by nobody else, in every reachable state |
| `LockProgress.NoRace` | service/ws/tgroup_manager.go:28-69 | in no reachable state are two threads about to access the same guarded map or set, one of them to change it |
| `LockProgress.OrderIsKept` | service/ws/tgroup.go:106-119 | in every reachable state each thread holds at most one lock per rank, waits only for locks of higher rank, and holds none when it sends on a group's channel |
| `LockProgress.NoDeadlock` | service/ws/client.go:112-119 | in every reachable state each unfinished thread, and the listener of each group with a message queued, can step or waits through a chain of at most nine others, each waiting for the next, for one that can; writer preference and full channels included |
| `LocalNode.TGroup.UserJoin` | service/ws/tgroup.go:35-46 | refused iff the group is deleted; else the user is added and nothing else changes |
| `LocalNode.TGroup.CloseSend` | service/ws/tgroup.go:82-94 | the group is then deleted; the channel is closed only by the first call |
| `LocalNode.TGroup.SendChan` | service/ws/tgroup.go:68-79 | queued last; nothing if the group is deleted or its channel closed; on a full channel the caller waits and nothing has changed |
| `LocalNode.Client.SafeSendMsg` | service/ws/client.go:169-195 | the queue gains the message, last, exactly if the client is online, the send asynchronous, the channel open and there is room; the client stays online unless an asynchronous send found the channel closed or full; the result is an error exactly if it was offline or the queue full |
| `LocalNode.Client.Close` | service/ws/client.go:216-230 | the client is then offline |
| `LocalNode.Node.GetOrCreateTGroup` | service/ws/tgroup_manager.go:24-44 | the mapped group, or a new live one, empty in users and channel and of the configured capacity, now mapped; the membership table does not change |
| `LocalNode.Node.DeleteTGroup` | service/ws/tgroup_manager.go:57-70 | the entry goes iff it is this very object |
| `LocalNode.Node.JoinFound` | service/ws/tgroup_manager.go:74-79 | from a group found earlier and perhaps deleted since: a deleted one refuses, the call starts again, and the table gains exactly this member |
| `LocalNode.Node.UserJoinTGroup` | service/ws/tgroup_manager.go:73-80 | the call ends, retry included; the table gains exactly this member; all mapped groups stay live and non-empty |
| `LocalNode.Node.UserOutTGroup` | service/ws/tgroup_manager.go:83-91 | the table loses exactly this member; an emptied group is unmapped, deleted and closed once |
| `LocalNode.Node.InTGroup` | service/ws/client.go:83-91 | the node afterwards is the node with the member joined, on both sides of the relation |
| `LocalNode.Node.OutTGroup` | service/ws/client.go:94-102 | likewise for leaving |
| `LocalNode.Node.OutAllTGroup` | service/ws/client.go:105-119 | the loop that deletes from the set it ranges over ends, in any order, with the client out of exactly its groups |
| `LocalNode.Node.Register` | service/ws/client_manager.go:47-60 | both indices gain the client; they stay in one-to-one correspondence iff the uid was not registered |
| `LocalNode.Node.OnConnect` | service/ws/client_manager.go:32-35 | the same for the whole node, whose groups do not change |
| `LocalNode.Node.Forget` | service/ws/client_manager.go:63-76 | the client is in neither index and the correspondence holds |
| `LocalNode.Node.OnClose` | service/ws/client.go:233-267 | the first call takes the client out of its groups and both indices, offline, and closes its queue once; a second changes nothing |
| `LocalNode.Node.OfferEach` | service/ws/tgroup.go:111-120 | in whatever order members are visited, each one but the excluded, with a client, is offered the message once; no other client changes |
| `LocalNode.Node.SendToUsers` | service/ws/tgroup.go:97-124 | each member but the excluded has the message behind what it had, or is offline if there was no room; nobody else changes; nothing happens if the group is deleted |
| `LocalNode.Node.ListenSendChan` | service/ws/tgroup.go:127-142 | with an open channel each member ends with its old queue and behind it, as far as there is room, the queued messages that do not exclude it, in channel order, and the listener waits; with a closed one the queue is drained without effect and the teardown on exit changes nothing |
| `LocalNode.Node.SendMsgToUser` | service/ws/client_manager.go:129-136 | the message is offered to that user only; success iff that user's queue has gained it |
| `LocalNode.Node.SendMsgToUserByTgid` | service/ws/client_manager.go:139-149 | the same if the client is in the group; not being in it is success without effect |
| `LocalNode.Node.StopClient` | service/ws/client_manager.go:97-102 | that user, if there, is offline, and nothing else changes |
| `LocalNode.Node.SendMessageToTGroup` | service/ws/tgroup_manager.go:94-102 | the mapped group, if any, gains the message last in its channel, or is full and the caller waits; no other group or client changes |
| `Effects.SendMeans` | service/ws/client_manager.go:105-136 | only the named user changes: its queue gains the message last, or it goes offline for want of room; success iff the queue gained it |
| `Effects.SendByTgidMeans` | service/ws/client_manager.go:115-149 | the same on condition of the group; out of the group nothing happens and that is success |
| `Effects.FanOutMeans` | service/ws/tgroup.go:97-142 | of any group messages handed out in turn each member receives those that do not exclude it, in that order and as far as there is room; nobody else anything |
| `Effects.JoinMeans` | service/ws/client.go:83-91 | joining adds this user to this group, in the table and in its own set, and changes nothing else |
| `Effects.OutMeans` | service/ws/client.go:94-102 | leaving removes exactly that |
| `Effects.StopMeans` | service/ws/client.go:216-230 | after a stop the user is offline, with queue and groups as they were, and nothing else changes |
| `Effects.TeardownMeans` | service/ws/client.go:233-262 | after a teardown the user is not connected and in no group; every other client and membership is as before |
| `Effects.AbsentMeans` | service/ws/client_manager.go:97-149 | an operation on a user that is not connected changes nothing, and a send to it fails |
| `NodeSpec.TeardownIsComplete` | service/ws/client.go:233-262 | leaving the groups the client itself notes leaves every group, given agreement: the uid is a member nowhere |
| `NodeSpec.SendsKeepCoherent` | service/ws/client_manager.go:97-149 | sends, fan-outs and stops keep clients and groups in agreement |
| `NodeSpec.JoinKeepsCoherent` | service/ws/client.go:83-91 | so does joining |
| `NodeSpec.OutKeepsCoherent` | service/ws/client.go:94-102 | so does leaving |
| `NodeSpec.ConnectionsKeepCoherent` | service/ws/client_manager.go:32-76 | so do disconnecting, and connecting a user not connected |
| `ClientQueue.StepKeepsInv` | service/ws/client.go:169-267 | every step of any sender, the loop, a closer or the teardown keeps queue conservation; offline is final; what was accepted or written only grows |
| `ClientQueue.Conservation` | service/ws/client.go:169-211 | at every point of every run: accepted = written, then at most one in hand, then buffered, in order; the buffer fits its capacity; the channel is closed at most once |
| `ClientQueue.OnlyForward` | service/ws/client.go:169-230 | over any stretch of a run the client never comes back online and nothing accepted or written is lost or reordered |
| `ClientQueue.EnqueueOutcome` | service/ws/client.go:183-192 | over every run: an asynchronous send whose turn it is enters the queue, last, iff the channel is open and has room; then it has returned and the client is as online as before; otherwise nothing entered and it goes on to close the client |
| `ClientQueue.CheckOutcome` | service/ws/client.go:171-185 | an offline client ends the call without effect; an online one lets it go on to the queue or, if synchronous, to the socket |
| `ClientQueue.CallCarries` | service/ws/client.go:169-195 | throughout a call it carries the message and mode it was begun with, and never passes the check if the client was offline when it began |
| `ClientQueue.LoopDrains` | service/ws/client.go:198-211 | over every run: while its writes succeed, two loop steps a message bring what is written to all that was accepted at the start, whatever else runs and even if the client goes offline or the channel is closed |
| `ClientQueue.LoopEnds` | service/ws/client.go:198-211 | on a closed and drained channel, or after a failed write, the loop ends and takes the client offline; the failed message is not written |
| `ClientQueue.NobodyIsStuck` | service/ws/client.go:169-211 | with something to write the loop can always step, and a call always can |
| `ClientQueue.ClosersWork` | service/ws/client.go:216-267 | closing and the teardown take the client offline for good; the first teardown sees to the closing of the channel, which happens once; a later one changes nothing |
| `ClientQueue.LateCallIsRefused` | service/ws/client.go:171-173 | a call begun with the client offline has only one step, which ends it and changes nothing else, at whatever later point it takes it |
| `ClientQueue.FullQueueCloses` | service/ws/client.go:186-192 | over every run: a send that meets a full queue enqueues nothing, and from the moment it has returned the client is offline for good, whatever else runs meanwhile |
| `ClientQueue.QueuedOrOffline` | service/ws/client.go:169-195 | over every run: an asynchronous send returns with its message last among the accepted, and kept there, or with the client offline for good |
| `EndToEnd.StepKeepsInv` | service/ws/tgroup.go:97-124 | with a listener handing a message to the client by a call whose steps interleave with everything else, every step keeps: the call carries what the listener has in hand, and what the client accepted was delivered, in channel order per gid |
| `EndToEnd.WrittenInOrder` | service/ws/client.go:198-211 | over every run of groups and queue together: what the send loop has written for one gid is in the order the messages entered the gid's channels, across incarnations, none twice, and each was delivered to the user with that payload |
| `EndToEnd.SendCanGoOn` | service/ws/client.go:169-195 | a listener's call on the client can always take its next step |
| `EndToEnd.CallIsOnRecord` | service/ws/tgroup.go:111-119 | a listener's call on the client ends with one delivery on record, of what the listener had in hand, accepted iff that message has entered the queue |
| `Cluster.MergeIsCoherent` | service/ws/local_proxy.go:15-126 | the one big node a cluster stands for is itself in order: its clients and groups agree |
| `Cluster.OpMeans` | service/ws/local_proxy.go:36-126 | what each operation of the local proxy does to the user's queue, state and groups, that it touches no other client, and when it reports success |
| `Cluster.MergeOp` | service/ws/redis_proxy.go:44-159 | a local call on the node that hosts a user is the same call on the one big node, with the same success |
| `Cluster.RouteReachesHost` | service/ws/redis_proxy.go:44-159 | with directory and peers right, sending, joining or leaving from any node changes the cluster exactly as the local call on the hosting node |
| `Cluster.RouteToNobody` | service/ws/cache.go:89-126 | if the user is nowhere nothing changes and the call fails, whatever the directory still says |
| `Cluster.LocationTransparency` | service/ws/redis_proxy.go:44-159 | routed from any node, an operation on a user is the `LocalProxy` operation on the one big node, with the same success |
| `Cluster.StopReachesHost` | service/ws/redis_proxy.go:116-128 | stopping by the entry a node had made for a user stops the user on that node, local or remote, whatever the directory holds by then |
| `Cluster.StopIsTransparent` | service/ws/handler_ws.go:219-225 | if the entry names the hosting node, or the user is nowhere, stopping by it from any node is the `LocalProxy` stop on the one big node |
| `Cluster.RouteKeepsSettled` | service/api/server/handler.go:27-75 | no routed operation disturbs the conditions under which routing is right |
| `Broadcast.HandleSubMsg` | service/ws/proxy_msg_queue.go:28-69 | one call per named group in order, skipping empty gids, each to the whole local group or, if a user is named, to that user of the group; one direct call if only a user is named |
| `Broadcast.HandleIsLocal` | service/ws/proxy_msg_queue.go:63-69 | unless a user is named, those calls fan the message out to each named group on the handling node and change nothing elsewhere |
| `MessageEffects.UserMessageMeans` | service/ws/proxy_msg_queue.go:38-69 | on one node a message naming a user brings that user one copy per occurrence, in `tgid` or else `tgidList`, of a group it is in, or one if neither names a group, with the data under mol and ctrl as given; nobody else anything |
| `MessageEffects.GroupMessageMeans` | service/ws/proxy_msg_queue.go:38-69 | a message naming no user brings each member but the excluded one copy per occurrence of a group it is in; nobody else anything |
| `MessageEffects.LocalSendMeans` | service/ws/local_proxy.go:15-28 | the local proxy hands each member but the excluded the response with the data and status given |
| `Broadcast.HandledOnEach` | service/ws/proxy_msg_queue.go:28-60 | nodes handling a message one after the other, in any order, is each node having handled it once |
| `Broadcast.MergeFanOut` | service/ws/tgroup.go:97-124 | all nodes fanning a message out to their part of a group is the one big node fanning it out |
| `Broadcast.MergeSendList` | service/ws/proxy_msg_queue.go:49-54 | the same for a list of groups |
| `Broadcast.HandleRefinesLocal` | service/ws/proxy_msg_queue.go:28-69 | any message to groups, handled once on every node in any order, is that message handled on the one big node |
| `Broadcast.BroadcastRefinesLocal` | service/ws/redis_proxy.go:27-41 | for a non-empty gid and status 1, publishing reaches exactly the members `LocalProxy` would reach on the one big node, with the same payload and exclusion, once each |
| `Broadcast.BroadcastExactly` | pkg/types/response_types.go:62-69 | for every gid and status: the refinement holds iff the gid is non-empty and the status 1 or no member would have accepted, or the gid is empty and no member is online |
| `Broadcast.ToUserOncePerNode` | service/ws/proxy_msg_queue.go:47-69 | every message that names a user, with or without groups, handled on k nodes, does to the merged cluster k times over what the local proxy does once |
| `UserMessages.TimesIsOnceIff` | service/ws/proxy_msg_queue.go:63-69 | handling such a message k times is handling it once iff k is 1, or the user is absent, in none of its groups, or without room for all its copies |
| `UserMessages.UserMessageExactly` | service/ws/proxy_msg_queue.go:47-69 | handled once on every node it does what the local proxy does on the one big node iff there is one node or the user is spared in one of those ways |
| `UserMessages.TwoNodesTwoCopies` | service/ws/proxy_msg_queue.go:55-69 | a cluster of two nodes in which the user gets two copies where the local proxy sends one, with a group named and without |
| `UserMessages.StatusIsLost` | service/ws/redis_proxy.go:29-37 | a cluster and a message with status 0 for which publishing differs from the local proxy |
| `UserMessages.EmptyGidIsLost` | service/ws/proxy_msg_queue.go:47-57 | the same for a message to the empty gid, which has a member |
| `Broadcast.CallRefinesLocal` | service/ws/local_proxy.go:15-126 | each proxy call on any node does to the merged cluster what `LocalProxy` does to one node |
| `Broadcast.ClusterIsOneNode` | service/ws/local_proxy.go:15-126 | any run of proxy calls, stops by true entries among them, each from any node, leaves the merged cluster as the same calls leave a single node |
| `Interleaving.HandleOffers` | service/ws/proxy_msg_queue.go:47-69 | handling a group message on a node offers it to that node's members at that moment but the excluded one, and changes no other client of the cluster |
| `Interleaving.EachMessageOnce` | service/ws/redis_proxy.go:27-41 | nodes handling in their own time, among any other changes: a user who stays connected and joined from the publishing until its node has handled the message is offered it at exactly one step, and no other handling of it touches that user |
| `Login.Arbitration` | service/ws/handler_ws.go:198-228 | at every interleaving, with failures and expiry: won logins = effective removals of the key + 1 if it is present |
| `Login.Win` | service/ws/handler_ws.go:117-156 | a login that finds no client on its node and no key ends with its client registered and its key in the directory |
| `Login.RemovalBetweenWins` | service/ws/cache.go:30-56 | between two won logins of a uid the key has been removed, however many nodes race |
| `Login.OneConnection` | service/ws/handler_ws.go:117-156 | when each login begins after the one before has ended, and with the key present or nothing under way, a uid is registered on at most one node at every moment |
| `Login.DirectoryMatches` | service/ws/client.go:233-262 | and when nothing is under way the key exists iff a client is registered and names it; a duplicate login has left neither |
| `Login.UniqueLogin` | service/ws/handler_ws.go:198-228 | both for every uid, with all uids logging in and out at once |
| `Login.OverlapAllowsTwo` | service/ws/handler_ws.go:212-227 | a run with overlapping logins that ends with a uid online on two nodes |
| `Login.StaleEraseAllowsTwo` | service/ws/client.go:248-249 | a run without overlapping logins that ends with a uid on two nodes: a login loses to a connection being torn down, the next one wins, and the teardown then deletes its key |
| `Login.FailureAllowsTwo` | service/ws/handler_ws.go:213-217 | two runs without overlap that end with a uid on two nodes: the key expired, or a failed swap was followed by the delete |
| `Login.StepClaims` | service/ws/handler_ws.go:117-156 | only a won swap adds a connection, and it adds exactly one |
| `Login.UncoveredByErasing` | service/ws/cache.go:80-86 | a uid comes to have a connection the directory does not show exactly by a step that erases its key: a lost or failed login, a close, or expiry |
| `Login.ExactlyWhenUnique` | service/ws/handler_ws.go:198-228 | over every run: two connections arise iff some step erases the key of a connected uid and, with that connection still there and the key still missing, another login swaps |
| `Discovery.Peers.OnRegister` | service/api/client/client.go:46-69 | the entry is set, unless unchanged or the peer cannot be dialled |
| `Discovery.Peers.OnUnregister` | service/api/client/client.go:72-79 | that entry goes and no other |
| `Discovery.Peers.WatchService` | pkg/etcd_registry/discovery.go:32-82 | the two loops apply the snapshot, then every later event, in order |
| `Discovery.DiscoveryAgrees` | pkg/etcd_registry/discovery.go:32-48 | for every log and every revision R: the snapshot at R in any order, then the events from R+1, give the table of the whole log |
| `Discovery.WatchKeepsUp` | pkg/etcd_registry/discovery.go:68-82 | following the prefix watch from any state of the store keeps up with it |
| `Discovery.PutIsNotedIff` | service/api/client/client.go:50-63 | a put ends with its address in the table iff it can be dialled or was there already; if it cannot be dialled the table is as it was; no other entry changes |
| `Discovery.LookupIsRight` | service/api/client/client.go:82-94 | for a store holding any services' registrations under name + address: lookup never answers with another address iff every registration whose key starts with the service name is of that service |
| `Discovery.LongerNameCollides` | service/api/server/server.go:28 | a store in which a service with a longer name makes lookup answer with another address |
| `Discovery.PeersAreRight` | service/api/client/client.go:82-94 | nodes registered under service name + address and watches that have kept up give peer tables under which routing is right |
| `Composition.LoginKeepsDirectoryRight` | service/ws/handler_ws.go:198-228 | after any orderly run of logins and closes of all users, with nothing under way, the directory names the hosting node of every connected user |
| `Composition.IdleNodeIsCoherent` | service/ws/client.go:83-119 | after any run of the group protocol with calls on each client serialised, and none in flight, a node's clients and groups agree and no group is empty |
| `Composition.DeploymentIsSettled` | service/ws/redis_proxy.go:44-159 | so, with nodes idle and registered and watches caught up, all conditions under which routing is right hold |
| `Thrift.SkipsVal` | service/api/server/kitex_gen/im/rpc/k-api.go:488-528 | skip passes over exactly one well-formed value of any type, nested to any depth, whatever follows |
| `RequestCodec.LengthIsRight` | service/api/server/kitex_gen/im/rpc/k-api.go:599-651 | `BLength` is the number of bytes written |
| `RequestCodec.SendMsgByTgidReq.FastRead` | service/api/server/kitex_gen/im/rpc/k-api.go:464-582 | the loop succeeds iff the buffer starts with a readable struct, and then yields its request and length; on a fault it yields the offset reached and keeps the fields assigned before |
| `RequestCodec.SendMsgByTgidReq.FastWriteNocopy` | service/api/server/kitex_gen/im/rpc/k-api.go:588-629 | the buffer from the offset on is the encoded request; nothing before or behind it changes |
| `RequestCodec.ReadsStruct` | service/api/server/kitex_gen/im/rpc/k-api.go:464-538 | every well-formed struct is read to its end: the last string of each slot wins, all else is ignored |
| `CodecAccepts.AcceptsExactly` | service/api/server/kitex_gen/im/rpc/k-api.go:464-582 | the reader succeeds iff the buffer begins with the encoding of a well-formed struct |
| `CodecAccepts.StructRead` | service/api/server/kitex_gen/im/rpc/k-api.go:464-582 | what it consumed is that encoding to the byte, and the request is what its fields give |
| `RequestCodec.RoundTrip` | service/api/server/kitex_gen/im/rpc/k-api.go:464-651 | reading inverts writing, consumes exactly `BLength` bytes, leaves trailing bytes, whatever the request held before |
| `RequestCodec.InsertedFieldIsIgnored` | service/api/server/kitex_gen/im/rpc/k-api.go:476-531 | a well-formed field of unknown id or other type, inserted anywhere, does not change what is read |
| `RequestCodec.ReadsArgs` | service/api/server/kitex_gen/im/rpc/k-api.go:1588-1647 | every well-formed argument struct is read to its end: the last well-typed request wins |
| `CodecAccepts.ArgsAcceptExactly` | service/api/server/kitex_gen/im/rpc/k-api.go:1588-1647 | the same for the arguments |
| `RequestCodec.ImRpcSendMsgToUserByTgidArgs.FastRead` | service/api/server/kitex_gen/im/rpc/k-api.go:1588-1647 | the same for the arguments: each well-typed field 1 puts a new request in place of the one held; on a fault the offset reached and the request held stay |
| `RequestCodec.ImRpcSendMsgToUserByTgidArgs.FastWriteNocopy` | service/api/server/kitex_gen/im/rpc/k-api.go:1653-1676 | the front of the buffer is the encoded arguments, a nil request as an empty struct, and nothing behind it changes |
| `RequestCodec.ArgsRoundTripIff` | service/api/server/kitex_gen/im/rpc/k-api.go:1588-1683 | reading the arguments inverts writing them iff the request is not nil; exactly the announced length is consumed |

## Left out

- Sockets, the websocket upgrade, JSON and logging: a write is a step that succeeds or fails, an encoding is a function (one-to-one where that matters).
- The worker pool and the subscription reader: each published message is taken to be handled once on every node.
- RPC failures between nodes: a call to a known peer is answered; kinds of error are reduced to success or failure.
- Redis expiry as real time, and heartbeats: expiry is a removal of the key at any moment. A GETSET that fails is taken not to have changed the key.
- Lease registration and its retries; the unused watcher; the user callback on close, which is taken not to call back.
- The slow codec and the other generated structs, which repeat the shape of the ones here; the depth limit of the library's skip function.
- System statistics, HTTP pages, configuration, start-up and shutdown.
- Client objects of one uid are not told apart in `GroupProtocol`: its clients are uids.
- `GroupProtocol` takes the sections under the managers' locks and the clients' own short sections as single steps; `LockOrder` and `LockProgress` treat every lock on its own, with where guarded data is accessed but not what it holds.
- Accesses without a lock, which the code makes to `State` of groups and clients and to the number of groups: they are steps of their own in `GroupProtocol` and `ClientQueue`, and not covered by `LockProgress.NoRace`.
- RequestCodec.SendMsgByTgidReq.FastRead: a failing skip is taken to report no bytes passed; what the library reports there is not part of this model.
- Login.UniqueLogin: does not cover expiry of the key, failing swaps, overlapping logins, and logins that begin with the key missing while something is under way for the uid, under which the promise can fail (`Login.FailureAllowsTwo`, `Login.OverlapAllowsTwo`, `Login.StaleEraseAllowsTwo`).
