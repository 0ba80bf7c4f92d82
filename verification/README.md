# cineyma in Dafny

cineyma is an actor runtime (bounded mailboxes, supervision, streams) with a request/response transport and a gossip
cluster on top. This project models the parts whose correctness depends on interleaving and proves what holds in every
run. `dafny verify dfyconfig.toml` checks all of it.

## How it is organised

| files | part |
|---|---|
| `Basics` | options and time |
| `Membership`, `ClusterNodes` | membership views, gossip messages, the node object with its loops over hash maps |
| `ClusterMachine`, `ClusterLocks`, `ClusterClosure`, `ClusterProvenance`, `ClusterTheorems`, `ClusterTasks`, `ClusterAlone`, `ClusterSnapshots`, `ClusterPurge` | the whole cluster as a transition system at the granularity of lock operations |
| `Convergence` | what exchanges of gossip spread, and when nodes agree |
| `Tracker`, `ActorLife`, `ActorOutcomes`, `ActorTasks` | the restart limiter, one actor's life, the loops that run it |
| `SupervisionTree`, `SupervisionTheorems`, `SupervisionRest`, `SupervisionUndisturbed`, `SupervisionOutcomes` | trees of actors of any size and depth, all tasks interleaved |
| `Frames`, `Handlers`, `Clients`, `Correlation`, `IdReuse`, `ClientOutcomes` | the frame codec, handlers and router, the client's event loop, client and server end to end |
| `Streams` | polling many streams in one actor |

Main results, each over every input or every run:

- Cluster: no deadlock and every schedule of tasks finishes (`NoRunDeadlocks`, `SchedulesFinish`); a lookup followed by a
  member search always finds the host, and sends go to the address filed for it (`RoutingFindsTheHost`,
  `EverySendIsRouted`); every message is one view its sender had (`EveryMessageIsASnapshot`); every registry entry, every
  suspicion and every heartbeat has a cause in the run (`LookupsAreRegistered`, `LookupsAgree`, `SuspicionHasACause`,
  `HealthyClusterStaysUp`, `EveryHeartbeatHasACause`); the lock-level code of an operation left alone does what the node
  object does (`AddMemberAlone`, `MergeAlone`, `GossipTickAlone`); exactly when the cleanup leaves no actor on a Down
  node, and when a purged host comes back (`TickCleansIff`, `PurgedHostsReturn`).
- Convergence: exactly what any schedule of exchanges delivers (`KnowledgeTravels`); the chain there and back makes any
  number of nodes agree (`ChainConverges`, `GossipAgreement`), on whole records under an exact condition
  (`ChainRecordsAgreeIff`).
- Supervision: no orphans at any depth (`OrphansAreDoomed`, `NoOrphansAtRest`), and a tree left to itself comes to rest
  (`TreesComeToRest`); with any number of panics, each is exactly one failure at every actor it reaches, with the exact
  place where it stops (`OnePanicOneFailureEach`, `PanicStopsSomewhere`), which in a tree that nobody stops is the end of
  its chain (`UndisturbedPanic`); lives in complete blocks, restarts exactly as the limit allows and conserved mailboxes
  (`EveryDeadChild`, `EveryDecision`, `EveryDeadRestart`, `EveryRestartLimit`, `EveryMailbox`).
- Transport: no caller is lost or answered twice (`NoCallerIsLost`, `ResolvedOnce`); the exact condition under which a
  call can share an id without anyone getting what is not theirs, in both directions (`EndToEnd`, `FreshIdsWrongNobody`,
  `ReuseWrongsSomeone`), met by counted ids and by calls made one at a time (`CounterIdsAreFresh`, `OneAtATime`);
  framing does not depend on how bytes are cut (`DrainInPieces`, `MidStream`).

Modelling decisions:

- A call on a cluster node is a task: a list of instructions over three read-write locks and three maps, interleaved
  with all others. Locks are granted in the order they were asked for. A sent message may be received by any node, any
  number of times or never. Hash-map order and the random peer are left open.
- A node joins once and stays: it does not leave, crash or come back under its id with an empty view. What a node knows
  therefore only grows, which `IdsNeverShrink` and `RoutingFindsTheHost` rest on.
- Times are natural numbers. `duration_since` saturates at zero, as in `Elapsed`.
- `notify_one` is a permit that stays until it is used. An escalate signal belongs to one instance, as each instance has
  its own context. `select!` with `biased` takes the first ready branch. Handlers may panic; the factory, `started`,
  `stopped` and stream handlers do not, and `stopped` spawns no children.
- The `None` arm of `rx.recv()` (src/context.rs:286) is absent: the actor holds an address of its own mailbox, so
  the channel cannot close under it.
- A server has one router for all its life. Which actor answers, with what, and whether it answers at all is open.
- Panics are numbered as they happen, so that a failure can be followed to the panic it goes back to.

Where the repository says more than its code does, the code is followed:

- README.md:370 promises converging views. Statuses, ids and the registry converge; addresses need not, because a
  record is only replaced when its status differs (src/remote/cluster.rs:131). `RecordsAgreeIff` gives the exact
  condition for one exchange, `ChainRecordsAgreeIff` for the whole chain, and `AddressesMayDiffer` builds two nodes that
  keep different addresses.
- README.md:379 has Down follow Suspect. The detector takes a member from Up to Down directly, exactly if it has been
  silent for more than twice the timeout (src/remote/cluster.rs:309): `DetectSettles`.
- README.md:403 promises that actors on Down nodes are removed. A tick removes those of the nodes it marks Down itself,
  so it leaves no actor on a Down node exactly if there was none on a node already Down: `TickCleansIff`. A merge or an
  `add_member` may set Down without removing anything, and a purged host comes back exactly by gossip that locates an
  actor on it or by its own registration: `PurgedHostsReturn`. A node need not be Up in its own view either;
  `SelfDoubtComesFromOthers` says where that comes from. `DownMembersMayHost` is a run that shows both.
- src/remote/cluster_client.rs:124 leaves correlation to the client, but every request goes out under id 0
  (src/remote/cluster_client.rs:106), and so does every fire-and-forget (src/remote/cluster_client.rs:186).
  `ReusedIdMisroutes` shows what two overlapping calls lead to. `CallOk` is the condition a call has to meet: nobody
  waits under its id and, if it waits itself, no response may still come under it. If all calls meet it nobody is wronged
  (`FreshIdsWrongNobody`); any call that does not meet it can wrong someone (`ReuseWrongsSomeone`). With a fixed id it is
  met by making each call after the last one's answer (`OneAtATime`).
- src/remote/tcp.rs:51 casts the length to 32 bits. `RoundTripIff`: a payload survives exactly when its length fits.

## Model

| member | source | states |
|---|---|---|
| Membership.InfoRoundTrip | src/remote/cluster.rs:357-384 | a node survives its wire form; a wire form survives unless its status code is unknown, which reads as Down; the codes are 0, 1 and 2 |
| Membership.MergeInfosIsOverride | src/remote/cluster.rs:124-136 | the loop over gossiped members is one pointwise override whatever order they are listed in, and on statuses a right-biased map union |
| Membership.MergeInfosSource | src/remote/cluster.rs:128-135 | after merging any gossip, every record was there before or was carried by it |
| Membership.MergeActorsIsOverride | src/remote/cluster.rs:142-148 | merging gossiped actor locations is a right-biased map union in any order |
| Membership.DetectSettles | src/remote/cluster.rs:301-318 | what a tick settles for each member by its silence alone: self and untracked untouched, beyond twice the timeout Down, beyond it not Up, otherwise unchanged; an Up member goes Down exactly beyond twice the timeout; id and address are kept; exactly who counts as demoted |
| Membership.TickCleansIff | src/remote/cluster.rs:295-337 | a tick leaves no actor on a Down member exactly if none was on a member already Down |
| ClusterNodes.ClusterNode.constructor | src/remote/cluster.rs:43-62 | a new node knows itself as Up with a heartbeat, and no actors |
| ClusterNodes.ClusterNode.AddMember | src/remote/cluster.rs:65-72 | the record is replaced and the heartbeat renewed, nothing else changes |
| ClusterNodes.ClusterNode.CreateGossip | src/remote/cluster.rs:100-118 | the message lists every member and every actor exactly once, in any order |
| ClusterNodes.ClusterNode.MergeGossip | src/remote/cluster.rs:120-149 | members and registry become the merges defined above; only the sender's heartbeat is renewed |
| ClusterNodes.ClusterNode.DetectFailures | src/remote/cluster.rs:295-319 | for every order of iteration: the pointwise verdicts, and the list of exactly the members this tick demoted to Down |
| ClusterNodes.ClusterNode.CleanUp | src/remote/cluster.rs:322-337 | the nested retain loops are one filter that removes exactly the entries hosted by the listed nodes |
| ClusterNodes.ClusterNode.Tick | src/remote/cluster.rs:295-337 | detector and cleanup together, and when they leave no actor on a Down member |
| ClusterNodes.ClusterNode.SendGossipTo | src/remote/cluster.rs:233-280 | push, merge at the peer, answer, merge back: both ends' new knowledge and heartbeats, also for a node gossiping with itself |
| ClusterLocks.CodeDisciplined | src/remote/cluster.rs:65-149 | every operation touches a map only under its lock, takes locks in the order members, last_heartbeat, actor_registry, and gives all of them back |
| ClusterLocks.LocksHoldStep | src/remote/cluster.rs:297-347 | every step of the cluster keeps the discipline, mutual exclusion of writers and the waiting line |
| ClusterLocks.SomeoneIsGranted | src/remote/cluster.rs:65-149 | if all unfinished tasks of a node wait for locks, one of them can be granted its lock |
| ClusterLocks.DeadlockFree | src/remote/cluster.rs:297-347 | any number of tasks, any lock state that keeps the discipline: an unfinished task means some task can step |
| ClusterLocks.SchedulesFinish | src/remote/cluster.rs:120-149 | a schedule of a node's tasks has bounded length, and one that cannot go on has finished them all with every lock free |
| ClusterTheorems.NoRunDeadlocks | src/remote/cluster.rs:291-352 | in every reachable state of the cluster a node with an unfinished task has an enabled step |
| ClusterClosure.RunsAreClosed | src/remote/cluster.rs:100-149 | in every reachable state: own id known, records under their own id, heartbeats and registry hosts among the members, messages listing the hosts they name |
| ClusterTheorems.SnapshotsAreClosed | src/remote/cluster.rs:100-118 | every message ever sent lists its sender and the host of every actor in it; only members have heartbeats |
| ClusterTheorems.IdsNeverShrink | src/remote/cluster.rs:120-136 | through merges, ticks and anything between, a node knows itself and forgets no id |
| ClusterTheorems.RoutingFindsTheHost | src/remote/cluster_client.rs:75-90 | after a successful lookup the host is among the members at any later time |
| ClusterTheorems.NoSendMissesItsNode | src/remote/cluster_client.rs:85-90 | no send to an actor, on any node of any reachable state, ends in "node not found" |
| ClusterMachine.FindInfo | src/remote/cluster_client.rs:85-90 | the search fails exactly if the id is not listed, and otherwise gives the address listed with it |
| ClusterTasks.EverySendIsRouted | src/remote/cluster_client.rs:75-115 | a finished send, whatever went on meanwhile: "actor not found" exactly if the actor was not in the registry when looked up, otherwise the address under which its host was filed when the members were copied |
| ClusterTasks.EveryHeartbeatIsKept | src/remote/cluster.rs:69-71 | once a node has finished adding id or merging a message from it, it has a heartbeat of id at every later time, not older than the moment that operation took the lock |
| ClusterTasks.EveryHeartbeatHasACause | src/remote/cluster.rs:138-139 | every heartbeat is the clock of a step that recorded it, or of the node's own join |
| ClusterAlone.JoinIs | src/remote/cluster.rs:43-62 | a node that joins knows itself as Up, with a heartbeat of that moment, and no actors |
| ClusterAlone.AddMemberAlone | src/remote/cluster.rs:65-72 | the lock-level code with no other task of the node in between replaces the record and its heartbeat, nothing else |
| ClusterAlone.RegisterActorAlone | src/remote/cluster.rs:81-84 | the same for registering: the actor is located here, nothing else |
| ClusterAlone.MergeAlone | src/remote/cluster.rs:120-149 | the same for a message: members and registry merged, the sender's heartbeat renewed, nothing else |
| ClusterAlone.GossipTickAlone | src/remote/cluster.rs:295-337 | the same for a tick: everyone judged by one reading of the clock, and exactly the actors of the demoted removed |
| ClusterSnapshots.EveryMessageIsASnapshot | src/remote/cluster.rs:100-118 | every message ever sent lists exactly the members and the registry its sender had at one moment, although they are copied one after the other |
| ClusterSnapshots.EveryGossipIsSent | src/remote/cluster.rs:233-266 | gossip asked for is sent, and lists a view the node had meanwhile |
| ClusterSnapshots.EveryAnswerIsSent | src/remote/cluster.rs:172-190 | the answer to a message is sent, and lists a view the node had after it had merged that message |
| ClusterSnapshots.EveryTickGossips | src/remote/cluster.rs:339-351 | a tick that is done has gossiped, unless its node knew no one else when it drew a peer |
| ClusterTheorems.LookupsAreRegistered | src/remote/cluster.rs:81-90 | an actor found at any node was registered earlier, with that type, by the node it is found on |
| ClusterTheorems.GossipedActorsAreRegistered | src/remote/cluster.rs:104-112 | so was every location in every message |
| ClusterTheorems.LookupsAgree | src/remote/cluster.rs:87-90 | with one owner and type per actor id, any two successful lookups agree, on any nodes at any times |
| ClusterTheorems.SuspicionHasACause | src/remote/cluster.rs:306-317 | a Suspect or Down in any view goes back to a member added so or to a tick that found it silent beyond the timeout, twice that for Down |
| ClusterTheorems.GossipedSuspicionHasACause | src/remote/cluster.rs:124-136 | so does one in any message |
| ClusterTheorems.HealthyClusterStaysUp | src/remote/cluster.rs:301-318 | if only Up members are added and all ticks find fresh heartbeats, every view and message stays Up |
| ClusterPurge.PurgedHostsReturn | src/remote/cluster.rs:321-337 | after a tick purged host h, an entry on h is there at some later time up to k exactly if in between the node merged locations that leave one, or is h and registered an actor |
| ClusterPurge.SelfDoubtComesFromOthers | src/remote/cluster.rs:124-136 | a node that is not Up in its own view was added so, or another node's tick found it silent |
| ClusterPurge.DownMembersMayHost | src/remote/cluster.rs:65-84 | a run after which, with no operation left, a Down member hosts an actor and a node is Down in its own view |
| Convergence.ExchangeAgrees | src/remote/cluster.rs:233-280 | after an exchange both ends hold the same ids, statuses and registry, the pusher's winning; others are untouched |
| Convergence.RecordsAgreeIff | src/remote/cluster.rs:128-135 | whole records agree after an exchange exactly when no id was filed at both ends under one status with different records |
| Convergence.ChainRecordsAgreeIff | src/remote/cluster.rs:128-135 | for any number of nodes, whole records agree after the chain there and back exactly when, for each id, all nodes that file it under the status that prevails file the same record |
| Convergence.AddressesMayDiffer | src/remote/cluster.rs:128-135 | two new nodes, each given another address for a third, keep them through the whole chain |
| Convergence.ChainConverges | tests/cluster.rs:70-103 | for any number of nodes and any views, the chain there and back leaves all with the override fold, node 0 strongest |
| Convergence.ChainReachesAll | tests/cluster.rs:94-103 | everyone then knows every id anyone knew |
| Convergence.GossipChain | tests/cluster.rs:70-90 | the schedule run on node objects is that chain |
| Convergence.GossipAgreement | tests/cluster.rs:70-103 | the node objects agree afterwards |
| Convergence.KnowledgeTravels | src/remote/cluster.rs:120-149 | after any schedule of exchanges a node knows exactly the ids and actors initially known to nodes with a time-respecting path to it |
| Tracker.RestartTracker.RecordRestart | src/supervisor.rs:41-54 | prunes, then grants if there is room |
| Tracker.TrackedIsRecent | src/supervisor.rs:41-54 | for calls in time order the pruned list is the recent part of the full history of grants, and the answers are those of a limiter that keeps all of it |
| Tracker.RefusedExactlyWhenFull | src/supervisor.rs:48-53 | a call is refused exactly when the window ending now already holds the maximum number of grants |
| Tracker.WindowBound | src/supervisor.rs:41-54 | no window of the given length, anywhere in time, holds more than the maximum number of grants |
| ActorLife.TurnInv | src/context.rs:265-299 | one turn of the `select!` keeps mailbox, trace and tracker in order |
| ActorLife.DecidedInv | src/context.rs:305-333 | so does what the strategy makes of an ended instance |
| ActorLife.DeadChildLife | src/context.rs:235-333 | a dead child lived in complete blocks, one more than its tracker's grants, and notified its watchers once, last |
| ActorLife.DeadTopLife | src/system.rs:161-173 | a dead top-level actor had one instance and notified its watchers once, before `stopped` |
| ActorLife.RestartsAreLimited | src/context.rs:311-320 | instances after the first number exactly the grants, and those keep to the limit |
| ActorOutcomes.MessagesComeFirst | src/context.rs:265-288 | whatever else is ready, a turn with a message takes the oldest one and keeps all permits |
| ActorOutcomes.GracefulTurn | src/context.rs:293-294 | a turn ends the instance gracefully exactly if there is no message, no ready stream, and shutdown or a stop permit; a permit seen together with shutdown is kept |
| ActorOutcomes.EscalatedTurn | src/context.rs:295-298 | it ends it by an escalation exactly if nothing before that branch is ready, and uses the permit up |
| ActorOutcomes.DecisionIs | src/context.rs:305-330 | a failed Restart child goes on as a new instance, with its mailbox and stop permit, exactly if the window that ends now has room for a grant; everyone else dies |
| ActorOutcomes.OfferIs | src/address.rs:114-126 | a message is accepted exactly if the mailbox is open and has room, and a refusal says which of the two it was |
| ActorTasks.ActorTask.Choose | src/context.rs:265-299 | the branches of the `select!`, in their order, and how the loop is left |
| ActorTasks.ActorTask.StopChildren | src/context.rs:84-88 | every child of the instance is told to stop, in order |
| ActorTasks.ActorTask.Conclude | src/context.rs:302-330 | children told, `stopped` called, and stop, restart or escalation as the strategy has it |
| ActorTasks.ActorTask.Run | src/context.rs:226-334 | the nested loops, for a child and for a top-level actor, leave the state and signals that reacting to the inputs one by one leads to |
| ActorTasks.TaskRunsKeep | src/context.rs:216-334 | whatever happens to an actor, its mailbox, trace and restarts are in order at every moment |
| ActorTasks.EmitsAre | src/context.rs:84-88 | the signals of an ending instance: a stop to each child in order, then an escalation exactly if it failed under Escalate |
| ActorTasks.PolledIs | src/context.rs:305-330 | a turn that ends an instance is followed by the next exactly if a child failed and the limit leaves room |
| SupervisionTree.StepKeeps | src/context.rs:205-343 | every step of a tree keeps its shape, the absence of orphans, and the origin and arrival of failures |
| SupervisionTheorems.OrphansAreDoomed | src/context.rs:84-88 | in every state of every run a child under an ended instance is dead, leaving, or has a stop permit that survives its restarts |
| SupervisionTheorems.NoOrphansAtRest | src/context.rs:302-303 | once a run has come to rest, every live actor belongs to the running instance that spawned it, and so on up to a top-level actor |
| SupervisionRest.TreesComeToRest | src/context.rs:235-334 | without spawns, sends and stops from outside, however actors are scheduled and handlers panic, the steps that do anything are bounded by messages, permits, untold children and live instances; and a tree is at rest exactly when nobody can go on |
| SupervisionTheorems.PanicCountsOncePerChain | src/context.rs:295-327 | a panic is at most one failure at each actor from the panicking one up over escalating actors to the first that does not escalate, and none at any other actor |
| SupervisionTheorems.OnePanicOneFailureEach | src/context.rs:322-326 | at rest, with any number of panics: a panic is exactly one failure at each actor of its chain with no escalating actor below it cut off, that is, with the instance it escalates to ended otherwise; none at any other actor; and every escalating actor it failed is dead |
| SupervisionTheorems.PanicStopsSomewhere | src/context.rs:295-327 | every panic of a run at rest has a last actor: all of the chain up to it failed once, nobody above, and it does not escalate or is cut off |
| SupervisionUndisturbed.UndisturbedPanic | src/context.rs:295-327 | with one panic, no stop called from outside and no shutdown seen: at rest every actor of the chain has failed exactly once, no other at all, and the escalating ones are dead |
| SupervisionTheorems.FailuresStayInTheirInstance | src/context.rs:224 | an instance fails only by its own panic or one escalated by a child that instance spawned, never by a child of an earlier instance |
| SupervisionTheorems.EveryDeadChild | src/context.rs:182-187 | in any run of any tree a dead child lived in complete blocks and notified once, last; without Restart there is one block, so a one-shot factory is called once |
| SupervisionTheorems.EveryDeadTop | src/system.rs:91-174 | the same for top-level actors, with one instance |
| SupervisionTheorems.EveryMailbox | src/context.rs:268-287 | accepted messages are those taken, in order, then those queued, within capacity; each is handled once; an answer is Ok exactly when its handler returned normally, and a dead actor has answered everyone |
| SupervisionTheorems.EveryRestartLimit | src/supervisor.rs:41-54 | no child of any tree is restarted more often than allowed in any stretch of time |
| SupervisionOutcomes.EveryDecision | src/context.rs:305-330 | in any run a child that has ended is restarted or not as the limit has it at that moment |
| SupervisionOutcomes.EveryDeadRestart | src/context.rs:311-320 | the tracker of a Restart child was asked once for every failure, and a dead one ended gracefully or failed when the window ending then was full |
| SupervisionOutcomes.EverySend | src/address.rs:114-126 | in any run a send is accepted exactly if the actor lives and its mailbox has room |
| SupervisionOutcomes.GracefulEndsTakeAll | src/context.rs:265-294 | an actor that leaves its loop gracefully has taken every message it had accepted |
| SupervisionOutcomes.EveryStopIsObeyed | src/address.rs:203-206 | once stop was called an actor is bound to end, restarts or not, and at rest it is dead |
| SupervisionOutcomes.EveryActorWasBorn | src/context.rs:205-224 | every actor was spawned by some step, with the strategy and capacity asked for, by the instance running then |
| Frames.Codec.Decode | src/remote/tcp.rs:22-43 | one whole frame is taken off the front exactly if there is one; otherwise the buffer is unchanged |
| Frames.Codec.Encode | src/remote/tcp.rs:49-57 | the frame is appended |
| Frames.Codec.Receive | src/remote/tcp.rs:22-43 | a chunk arrives and every frame it completes is taken |
| Frames.Codec.ReceiveAll | src/remote/tcp.rs:22-43 | any chunks lead to the frames and the rest of their concatenation |
| Frames.DrainInPieces | src/remote/tcp.rs:22-43 | for any bytes, draining early and going on is the same as draining once |
| Frames.DrainIsExact | src/remote/tcp.rs:27-37 | frames taken and rest make up exactly the bytes that came, and the rest holds no whole frame |
| Frames.ChunkingIndependence | src/remote/tcp.rs:22-57 | however frames are cut, the payloads come out in order with nothing left over |
| Frames.MidStream | src/remote/tcp.rs:22-57 | at any point exactly the payloads fully arrived are out, and a proper prefix of the next frame is buffered |
| Frames.RoundTripIff | src/remote/tcp.rs:51-55 | a payload survives framing exactly when its length is below 2^32 |
| Frames.PrefixIsBigEndian | src/remote/tcp.rs:27 | the length prefix is read most significant byte first |
| Clients.RemoteClient.HandleCommand | src/remote/client.rs:41-64 | a command sent, failed or closing, with the callers it resolves |
| Clients.RemoteClient.HandleIncoming | src/remote/client.rs:66-78 | a response goes to the caller pending under its id, if any |
| Clients.RemoteClient.EventLoop | src/remote/client.rs:38-81 | the loop leaves the state that reacting to its events one by one leads to, and its end drops every channel it owned |
| Clients.TakeConserves | src/remote/client.rs:43-58 | taking a command keeps every waiting caller in exactly one place |
| Clients.EndConserves | src/remote/client.rs:38-81 | at the end all queued and pending callers, and only they, are resolved as disconnected |
| Correlation.NoCallerIsLost | src/remote/client.rs:108-120 | in every run a waiting caller is in exactly one of queue, map and resolved, and with the loop over all are resolved |
| Correlation.ResolvedOnce | src/remote/client.rs:108-120 | a result, once given, never changes |
| Correlation.HandledInOrder | src/remote/server.rs:37-47 | a connection's envelopes are handled in the order of submission, none twice |
| Correlation.EndToEnd | src/remote/client.rs:66-78 | if every call meets its condition, an Ok is what the handler made of exactly the envelope that caller sent |
| Correlation.CounterIdsAreFresh | src/remote/addr.rs:11-13 | ids from the shared 64-bit counter meet the condition, in whatever order their callers submit, as long as they were drawn within one turn of it |
| Correlation.AnswersMatchIds | src/remote/handler.rs:77-84 | whatever the ids, an answer carries its caller's id |
| Correlation.ReusedIdMisroutes | src/remote/cluster_client.rs:103-133 | two calls under one id: the first is told the connection is gone, the second gets the first one's answer |
| IdReuse.FreshIdsWrongNobody | src/remote/client.rs:41-78 | if every call of a run, waiting or fire-and-forget, meets its condition, no step hands a caller a response not made for it, a disconnect while the loop goes on, or the failure of someone else's transmission |
| IdReuse.ReuseWrongsSomeone | src/remote/client.rs:41-78 | conversely, from every reachable state, a call of either kind that does not meet its condition has a continuation in which a caller under that id gets one of these |
| IdReuse.OneAtATime | src/remote/client.rs:108-120 | if each call is made after all earlier ones were answered, no step wrongs anyone, whatever the ids, one fixed id included |
| IdReuse.CallsCanBeAnswered | src/remote/client.rs:108-120 | from every reachable state with the connection open, a call whose handler asks an actor has a continuation that answers it |
| ClientOutcomes.EveryTransmission | src/remote/client.rs:43-58 | a command taken: a waiting caller is in the map if it went out and gets the I/O error if not; the envelope goes up unless lost |
| ClientOutcomes.EveryResponse | src/remote/client.rs:66-74 | a response goes, as it came, to the caller in the map under its id and to no one else |
| ClientOutcomes.EveryEnd | src/remote/client.rs:60-75 | the connection lost or a close taken: the loop is over and exactly those still waiting are told of a disconnect |
| ClientOutcomes.EveryAnswer | src/remote/server.rs:37-47 | the server logs what its router made of the envelope, sends a response if there is one, and ends if it cannot |
| Handlers.DispatchAnswers | src/remote/handler.rs:62-158 | which handler answers in terms of the routes and the fallback; a response exactly if it asks and is answered, with the request's id, back to its sender, from the handler's node |
| Streams.StreamSet.PollStreams | src/stream.rs:68-88 | every stream polled once in order, ended ones removed; the result is true exactly if some ready stream had an item left |
| Streams.OneEventPerStream | src/stream.rs:76-85 | in one pass no stream is heard twice, and streams are heard in their order |
| Streams.PassMeans | src/stream.rs:76-85 | in a pass a ready stream with items left yields the next one and moves on, one with none left finishes, one that is not ready stays |
| Streams.EveryReadinessIsHeard | src/stream.rs:33-50 | over any run a stream polled ready r times has delivered its first r items, all if it has no more, and has finished exactly if r exceeds their number |
| Streams.StreamsDeliverInOrder | src/stream.rs:33-88 | over any run a stream's deliveries are a prefix of its items in order; `finished` comes once, after all of them, exactly when the stream is no longer polled; survivors keep their order |

## Left out

- Sockets, listeners and tokio scheduling: foreign; connections are queues, scheduling is any interleaving of steps.
- Protobuf encoding and decoding of envelopes and gossip: library code; payloads are bytes, gossip is a lossless value.
- Timeouts of callers (`RemoteClient::send_timeout`, `Addr::send_timeout`): the caller stops waiting, nothing else changes.
- The address of a peer when gossip is sent: any node may receive any message, which includes stale addresses.
- `test_insert_actor`: a test helper; with it the registry can name hosts that are no members.
- Who is told of a death: the model has the moment watchers are notified, not the list of watchers or the `try_send` to each.
- The moment a shutdown is requested: `notify_waiters` reaches only those waiting, so the model lets any turn see it or not.
- Nodes that leave, crash or restart under their id: see the modelling decisions.
- Named registries, timers and the connection pool: small map wrappers and sleeps that would only add easy members.
- Streams of an actor that ends: they are dropped with the instance; the stream model covers one instance.
- Codec.Decode: returns the payload bytes; an undecodable payload is consumed the same way before the error is returned.
