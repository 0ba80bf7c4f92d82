/**
 The whole cluster as a transition system at the granularity of lock operations.

 Every call on a node is a task: a list of instructions over that node's three read-write locks and three maps,
 interleaved with every other task. A lock is granted to the longest-waiting task first. What is sent stays in
 `net` and may be received by any node, any number of times or never, so loss, delay, reordering, duplication and
 stale peer addresses are all covered. The events later claims refer back to are collected in `history`.
 */
module ClusterMachine {
  import opened Basics
  import opened Membership

  datatype Lock = MembersLock | BeatsLock | RegistryLock

  function Rank(l: Lock): nat {
    match l case MembersLock => 0 case BeatsLock => 1 case RegistryLock => 2
  }

  datatype Mode = Read | Write

  /** How one task holds one lock. */
  datatype Grip = Free | Reading | Writing

  datatype Held = Held(members: Grip, beats: Grip, registry: Grip) {
    function On(l: Lock): Grip {
      match l case MembersLock => members case BeatsLock => beats case RegistryLock => registry
    }

    function With(l: Lock, g: Grip): Held {
      match l
      case MembersLock => this.(members := g)
      case BeatsLock => this.(beats := g)
      case RegistryLock => this.(registry := g)
    }
  }

  const NOTHING := Held(Free, Free, Free)

  datatype Instr =
    | Acquire(lock: Lock, mode: Mode)
    | Release(lock: Lock)
    | PutMember(node: Node)
    | TakeInfos(infos: seq<NodeInfo>)
    | Beat(id: NodeId)
    | PutActor(actor: ActorName, kind: string)
    | TakeLocations(locs: seq<ActorLocation>)
    | CopyMembers
    | CopyActors
    | Post
    | ReadClock
    | JudgeAll(timeout: nat)
    | IfDown
    | PurgeDown
    | PickPeer
    | IfPeer
    | FindActor(actor: ActorName)
    | IfFound
    | FindHost

  /** How far a task's copy of the members goes: none, still under the read lock, no longer so, or with the registry. */
  datatype Stage = Blank | Fresh | Stale | Paired

  datatype Outcome = Unknown | ActorNotFound | NodeNotFound | RouteTo(addr: string)

  datatype Task = Task(
    code: seq<Instr>, held: Held, stage: Stage,
    infos: seq<NodeInfo>, locs: seq<ActorLocation>,
    now: Instant, down: set<NodeId>, peer: Option<NodeId>,
    hit: Option<Location>, outcome: Outcome)

  function NewTask(code: seq<Instr>): Task {
    Task(code, NOTHING, Blank, [], [], 0, {}, None, None, Unknown)
  }

  datatype Message = Message(sender: NodeId, gossip: Gossip)

  datatype Event =
    | Added(id: NodeId, status: NodeStatus)
    | Registered(node: NodeId, actor: ActorName, kind: string)
    | Silent(observer: NodeId, id: NodeId, elapsed: nat, timeout: nat)

  datatype NodeState = NodeState(view: View, tasks: seq<Task>, waiting: seq<nat>)

  datatype State = State(nodes: map<NodeId, NodeState>, net: set<Message>, clock: Instant, history: set<Event>)

  // ---------- The operations as code ----------

  datatype Operation =
    | AddMember(node: Node)
    | RegisterActor(actor: ActorName, kind: string)
    | SendToActor(actor: ActorName)
    | SendGossip
    | GossipTick(timeout: nat)

  function MergeCode(m: Message): seq<Instr> {
    [ Acquire(MembersLock, Write), Acquire(BeatsLock, Write), TakeInfos(m.gossip.members), Beat(m.sender),
      Acquire(RegistryLock, Write), TakeLocations(m.gossip.actors),
      Release(RegistryLock), Release(BeatsLock), Release(MembersLock) ]
  }

  function GossipCode(): seq<Instr> {
    [ Acquire(MembersLock, Read), CopyMembers, Acquire(RegistryLock, Read), CopyActors,
      Release(RegistryLock), Release(MembersLock), Post ]
  }

  function PurgeCode(): seq<Instr> {
    [ Acquire(RegistryLock, Write), PurgeDown, Release(RegistryLock) ]
  }

  function HostCode(): seq<Instr> {
    [ Acquire(MembersLock, Read), CopyMembers, Release(MembersLock), FindHost ]
  }

  function CodeOf(op: Operation): seq<Instr> {
    match op
    case AddMember(node) =>
      [ Acquire(MembersLock, Write), PutMember(node), Acquire(BeatsLock, Write), Beat(node.id),
        Release(BeatsLock), Release(MembersLock) ]
    case RegisterActor(actor, kind) =>
      [ Acquire(RegistryLock, Write), PutActor(actor, kind), Release(RegistryLock) ]
    case SendToActor(actor) =>
      [ Acquire(RegistryLock, Read), FindActor(actor), Release(RegistryLock), IfFound ]
    case SendGossip => GossipCode()
    case GossipTick(timeout) =>
      [ ReadClock, Acquire(MembersLock, Write), Acquire(BeatsLock, Read), JudgeAll(timeout),
        Release(BeatsLock), Release(MembersLock), IfDown,
        Acquire(MembersLock, Read), PickPeer, Release(MembersLock), IfPeer ]
  }

  /** The code a conditional instruction continues with when its condition holds. */
  function Branch(i: Instr): seq<Instr> {
    match i
    case IfDown => PurgeCode()
    case IfPeer => GossipCode()
    case IfFound => HostCode()
    case _ => []
  }

  predicate Taken(i: Instr, t: Task) {
    match i
    case IfDown => t.down != {}
    case IfPeer => t.peer.Some?
    case IfFound => t.hit.Some?
    case _ => false
  }

  function HeldAfter(i: Instr, held: Held): Held {
    match i
    case Acquire(l, m) => held.With(l, if m == Read then Reading else Writing)
    case Release(l) => held.With(l, Free)
    case _ => held
  }

  function StageAfter(i: Instr, stage: Stage): Stage {
    match i
    case CopyMembers => Fresh
    case CopyActors => Paired
    case Release(MembersLock) => if stage == Fresh then Stale else stage
    case PutMember(_) => if stage == Fresh then Stale else stage
    case TakeInfos(_) => if stage == Fresh then Stale else stage
    case JudgeAll(_) => if stage == Fresh then Stale else stage
    case _ => stage
  }

  // ---------- Executing one instruction ----------

  /** What the code leaves open: the order a hash map is walked in, and which peer is drawn. */
  datatype Choice = Choice(infos: seq<NodeInfo>, locs: seq<ActorLocation>, peer: Option<NodeId>)

  ghost predicate ChoiceOk(self: NodeId, v: View, i: Instr, c: Choice) {
    match i
    case CopyMembers => ListsMembers(c.infos, v.members)
    case CopyActors => ListsActors(c.locs, v.registry)
    case PickPeer => if c.peer.Some? then c.peer.value in v.members && c.peer.value != self
                     else v.members.Keys <= {self}
    case _ => true
  }

  function ViewAfter(self: NodeId, v: View, clock: Instant, t: Task, i: Instr): View {
    match i
    case PutMember(node) => v.(members := v.members[node.id := node])
    case TakeInfos(infos) => v.(members := MergeInfos(v.members, infos))
    case Beat(id) => v.(beats := v.beats[id := clock])
    case PutActor(actor, kind) => v.(registry := v.registry[actor := Location(self, kind)])
    case TakeLocations(locs) => v.(registry := MergeActors(v.registry, locs))
    case JudgeAll(timeout) => v.(members := Detect(v, self, t.now, timeout))
    case PurgeDown => v.(registry := Purge(v.registry, t.down))
    case _ => v
  }

  function FindInfo(infos: seq<NodeInfo>, id: NodeId): (o: Outcome)
    ensures o == NodeNotFound <==> id !in InfoIds(infos)
    ensures o == NodeNotFound || exists i :: 0 <= i < |infos| && infos[i].id == id && o == RouteTo(infos[i].addr)
  {
    if infos == [] then NodeNotFound
    else if infos[0].id == id then RouteTo(infos[0].addr)
    else
      assert InfoIds(infos) == {infos[0].id} + InfoIds(infos[1..]) by {
        assert forall i :: 0 < i < |infos| ==> infos[i] == infos[1..][i - 1];
      }
      assert forall i :: 0 <= i < |infos[1..]| ==> infos[1..][i] == infos[i + 1];
      FindInfo(infos[1..], id)
  }

  function TaskAfter(self: NodeId, v: View, clock: Instant, t: Task, c: Choice): Task
    requires t.code != []
  {
    var i := t.code[0];
    var rest := t.code[1..];
    var u := t.(code := if Taken(i, t) then Branch(i) + rest else rest,
                held := HeldAfter(i, t.held), stage := StageAfter(i, t.stage));
    match i
    case CopyMembers => u.(infos := c.infos)
    case CopyActors => u.(locs := c.locs)
    case ReadClock => u.(now := clock)
    case JudgeAll(timeout) => u.(down := Demoted(v, self, t.now, timeout))
    case PickPeer => u.(peer := c.peer)
    case FindActor(actor) => u.(hit := if actor in v.registry then Some(v.registry[actor]) else None)
    case IfFound => if t.hit.Some? then u else u.(outcome := ActorNotFound)
    case FindHost => if t.hit.Some? then u.(outcome := FindInfo(t.infos, t.hit.value.node)) else u
    case _ => u
  }

  function Sent(self: NodeId, t: Task, i: Instr): set<Message> {
    if i.Post? then {Message(self, Gossip(t.infos, t.locs))} else {}
  }

  function Noted(self: NodeId, v: View, t: Task, i: Instr): set<Event> {
    match i
    case PutMember(node) => {Added(node.id, node.status)}
    case PutActor(actor, kind) => {Registered(self, actor, kind)}
    case JudgeAll(timeout) =>
      set id | id in v.members && Judged(id, v.beats, self) && Elapsed(t.now, v.beats[id]) > timeout ::
        Silent(self, id, Elapsed(t.now, v.beats[id]), timeout)
    case _ => {}
  }

  // ---------- Steps of the cluster ----------

  datatype Label =
    | Pass(time: nat)
    | Join(id: NodeId, addr: string)
    | Start(n: NodeId, op: Operation)
    | Receive(n: NodeId, m: Message, answer: bool)
    | Request(n: NodeId, i: nat)
    | Grant(n: NodeId, i: nat)
    | Run(n: NodeId, i: nat, c: Choice)

  predicate NextIsAcquire(ns: NodeState, i: nat) {
    i < |ns.tasks| && ns.tasks[i].code != [] && ns.tasks[i].code[0].Acquire?
  }

  /** No task holds the lock in a mode that excludes the one asked for. */
  predicate Available(ns: NodeState, l: Lock, m: Mode) {
    forall j :: 0 <= j < |ns.tasks| && ns.tasks[j].held.On(l) != Free ==> m == Read && ns.tasks[j].held.On(l) == Reading
  }

  /** `i` is the longest-waiting task among those waiting for the same lock. */
  predicate FirstInLine(ns: NodeState, i: nat)
    requires NextIsAcquire(ns, i)
  {
    exists p :: 0 <= p < |ns.waiting| && ns.waiting[p] == i
      && forall q :: 0 <= q < p && NextIsAcquire(ns, ns.waiting[q]) ==>
           ns.tasks[ns.waiting[q]].code[0].lock != ns.tasks[i].code[0].lock
  }

  predicate CanRequest(ns: NodeState, i: nat) {
    NextIsAcquire(ns, i) && i !in ns.waiting
  }

  predicate CanGrant(ns: NodeState, i: nat) {
    && NextIsAcquire(ns, i)
    && FirstInLine(ns, i)
    && Available(ns, ns.tasks[i].code[0].lock, ns.tasks[i].code[0].mode)
  }

  ghost predicate CanRun(n: NodeId, ns: NodeState, i: nat, c: Choice) {
    && i < |ns.tasks| && ns.tasks[i].code != [] && !ns.tasks[i].code[0].Acquire?
    && ChoiceOk(n, ns.view, ns.tasks[i].code[0], c)
  }

  function Without(s: seq<nat>, x: nat): seq<nat> {
    if s == [] then [] else if s[0] == x then s[1..] else [s[0]] + Without(s[1..], x)
  }

  function Requested(ns: NodeState, i: nat): NodeState {
    ns.(waiting := ns.waiting + [i])
  }

  function Granted(ns: NodeState, i: nat): NodeState
    requires NextIsAcquire(ns, i)
  {
    var t := ns.tasks[i];
    ns.(tasks := ns.tasks[i := t.(code := t.code[1..], held := HeldAfter(t.code[0], t.held))],
        waiting := Without(ns.waiting, i))
  }

  function Ran(n: NodeId, ns: NodeState, clock: Instant, i: nat, c: Choice): NodeState
    requires i < |ns.tasks| && ns.tasks[i].code != []
  {
    var t := ns.tasks[i];
    ns.(view := ViewAfter(n, ns.view, clock, t, t.code[0]),
        tasks := ns.tasks[i := TaskAfter(n, ns.view, clock, t, c)])
  }

  function Started(ns: NodeState, code: seq<Instr>): NodeState {
    ns.(tasks := ns.tasks + [NewTask(code)])
  }

  function NewNode(id: NodeId, addr: string, clock: Instant): NodeState {
    NodeState(View(map[id := Node(id, addr, Up)], map[id := clock], map[]), [], [])
  }

  function ReceiveCode(m: Message, answer: bool): seq<Instr> {
    MergeCode(m) + (if answer then GossipCode() else [])
  }

  ghost predicate Enabled(s: State, l: Label) {
    match l
    case Pass(_) => true
    case Join(id, _) => id !in s.nodes
    case Start(n, _) => n in s.nodes
    case Receive(n, m, _) => n in s.nodes && m in s.net
    case Request(n, i) => n in s.nodes && CanRequest(s.nodes[n], i)
    case Grant(n, i) => n in s.nodes && CanGrant(s.nodes[n], i)
    case Run(n, i, c) => n in s.nodes && CanRun(n, s.nodes[n], i, c)
  }

  ghost function Apply(s: State, l: Label): State
    requires Enabled(s, l)
  {
    match l
    case Pass(time) => s.(clock := s.clock + time)
    case Join(id, addr) => s.(nodes := s.nodes[id := NewNode(id, addr, s.clock)])
    case Start(n, op) => s.(nodes := s.nodes[n := Started(s.nodes[n], CodeOf(op))])
    case Receive(n, m, answer) => s.(nodes := s.nodes[n := Started(s.nodes[n], ReceiveCode(m, answer))])
    case Request(n, i) => s.(nodes := s.nodes[n := Requested(s.nodes[n], i)])
    case Grant(n, i) => s.(nodes := s.nodes[n := Granted(s.nodes[n], i)])
    case Run(n, i, c) =>
      var ns := s.nodes[n];
      var t := ns.tasks[i];
      s.(nodes := s.nodes[n := Ran(n, ns, s.clock, i, c)],
         net := s.net + Sent(n, t, t.code[0]),
         history := s.history + Noted(n, ns.view, t, t.code[0]))
  }

  const EMPTY := State(map[], {}, 0, {})

  /** `run` is a run of the cluster: it starts empty and each state is one enabled step after the one before. */
  ghost predicate IsRun(run: seq<State>, labels: seq<Label>) {
    && |run| == |labels| + 1
    && run[0] == EMPTY
    && forall k :: 0 <= k < |labels| ==> Enabled(run[k], labels[k]) && run[k + 1] == Apply(run[k], labels[k])
  }
}
