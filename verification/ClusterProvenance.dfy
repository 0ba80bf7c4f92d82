/**
 Where the contents of every view and every message come from: a registry entry from its host's own registration,
 a Suspect or Down status from a member added that way or from a tick that found the member silent for too long.
 */
module ClusterProvenance {
  import opened Basics
  import opened Membership
  import opened ClusterMachine

  // ---------- Causes ----------

  /** The event accounts for `id` having that status. */
  predicate Causes(e: Event, id: NodeId, status: NodeStatus) {
    match e
    case Added(i, st) => i == id && st == status
    case Silent(_, i, elapsed, timeout) =>
      i == id && ((status == Suspect && elapsed > timeout) || (status == Down && elapsed > timeout * 2))
    case _ => false
  }

  ghost predicate Justified(id: NodeId, status: NodeStatus, h: set<Event>) {
    status == Up || exists e :: e in h && Causes(e, id, status)
  }

  ghost predicate MembersJustified(ms: Members, h: set<Event>) {
    forall id :: id in ms ==> Justified(id, ms[id].status, h)
  }

  ghost predicate InfosJustified(infos: seq<NodeInfo>, h: set<Event>) {
    forall i :: 0 <= i < |infos| ==> Justified(infos[i].id, FromInfo(infos[i]).status, h)
  }

  predicate RegistrySourced(reg: Registry, h: set<Event>) {
    forall a :: a in reg ==> Registered(reg[a].node, a, reg[a].kind) in h
  }

  predicate LocationsSourced(locs: seq<ActorLocation>, h: set<Event>) {
    forall i :: 0 <= i < |locs| ==> Registered(locs[i].node, locs[i].actor, locs[i].kind) in h
  }

  // ---------- The invariant ----------

  ghost predicate CodeFounded(code: seq<Instr>, h: set<Event>) {
    forall i :: 0 <= i < |code| ==>
      && (code[i].TakeInfos? ==> InfosJustified(code[i].infos, h))
      && (code[i].TakeLocations? ==> LocationsSourced(code[i].locs, h))
  }

  ghost predicate ViewFounded(v: View, h: set<Event>) {
    Keyed(v.members) && MembersJustified(v.members, h) && RegistrySourced(v.registry, h)
  }

  ghost predicate TaskFounded(t: Task, h: set<Event>) {
    CodeFounded(t.code, h) && InfosJustified(t.infos, h) && LocationsSourced(t.locs, h)
  }

  ghost predicate NodeFounded(ns: NodeState, h: set<Event>) {
    ViewFounded(ns.view, h) && forall i :: 0 <= i < |ns.tasks| ==> TaskFounded(ns.tasks[i], h)
  }

  ghost predicate MessageFounded(m: Message, h: set<Event>) {
    InfosJustified(m.gossip.members, h) && LocationsSourced(m.gossip.actors, h)
  }

  ghost predicate Founded(s: State) {
    && (forall n :: n in s.nodes ==> NodeFounded(s.nodes[n], s.history))
    && (forall m :: m in s.net ==> MessageFounded(m, s.history))
  }

  lemma JustifiedMonotone(id: NodeId, status: NodeStatus, h: set<Event>, h': set<Event>)
    requires Justified(id, status, h) && h <= h'
    ensures Justified(id, status, h')
  {
    if status != Up {
      var e :| e in h && Causes(e, id, status);
      assert e in h';
    }
  }

  lemma InfosMonotone(infos: seq<NodeInfo>, h: set<Event>, h': set<Event>)
    requires InfosJustified(infos, h) && h <= h'
    ensures InfosJustified(infos, h')
  {
    forall i | 0 <= i < |infos|
      ensures Justified(infos[i].id, FromInfo(infos[i]).status, h')
    {
      JustifiedMonotone(infos[i].id, FromInfo(infos[i]).status, h, h');
    }
  }

  lemma TaskMonotone(t: Task, h: set<Event>, h': set<Event>)
    requires TaskFounded(t, h) && h <= h'
    ensures TaskFounded(t, h')
  {
    InfosMonotone(t.infos, h, h');
    forall i | 0 <= i < |t.code| && t.code[i].TakeInfos?
      ensures InfosJustified(t.code[i].infos, h')
    {
      InfosMonotone(t.code[i].infos, h, h');
    }
  }

  lemma MembersMonotone(ms: Members, h: set<Event>, h': set<Event>)
    requires MembersJustified(ms, h) && h <= h'
    ensures MembersJustified(ms, h')
  {
    forall id | id in ms
      ensures Justified(id, ms[id].status, h')
    {
      JustifiedMonotone(id, ms[id].status, h, h');
    }
  }

  lemma NodeMonotone(ns: NodeState, h: set<Event>, h': set<Event>)
    requires NodeFounded(ns, h) && h <= h'
    ensures NodeFounded(ns, h')
  {
    MembersMonotone(ns.view.members, h, h');
    forall i | 0 <= i < |ns.tasks|
      ensures TaskFounded(ns.tasks[i], h')
    {
      TaskMonotone(ns.tasks[i], h, h');
    }
  }

  // ---------- One instruction ----------

  lemma MergeStaysJustified(ms: Members, infos: seq<NodeInfo>, h: set<Event>)
    requires Keyed(ms) && MembersJustified(ms, h) && InfosJustified(infos, h)
    ensures Keyed(MergeInfos(ms, infos)) && MembersJustified(MergeInfos(ms, infos), h)
  {
    MergeInfosIds(ms, infos);
    var r := MergeInfos(ms, infos);
    forall id | id in r
      ensures Justified(id, r[id].status, h)
    {
      MergeInfosSource(ms, infos, id);
      if !(id in ms && r[id] == ms[id]) {
        var i :| 0 <= i < |infos| && FromInfo(infos[i]) == r[id];
        assert Justified(infos[i].id, FromInfo(infos[i]).status, h);
      }
    }
  }

  /** A tick's verdicts are backed by the silence it records. */
  lemma JudgedStaysJustified(self: NodeId, v: View, t: Task, timeout: nat, h: set<Event>)
    requires MembersJustified(v.members, h)
    ensures MembersJustified(Detect(v, self, t.now, timeout), h + Noted(self, v, t, JudgeAll(timeout)))
  {
    var r := Detect(v, self, t.now, timeout);
    var h' := h + Noted(self, v, t, JudgeAll(timeout));
    forall id | id in r
      ensures Justified(id, r[id].status, h')
    {
      DetectSettles(v, self, t.now, timeout, id);
      if r[id] != v.members[id] {
        var e := Silent(self, id, Elapsed(t.now, v.beats[id]), timeout);
        assert e in h' && Causes(e, id, r[id].status);
      } else {
        JustifiedMonotone(id, r[id].status, h, h');
      }
    }
  }

  lemma ViewStaysFounded(self: NodeId, v: View, clock: Instant, t: Task, i: Instr, h: set<Event>)
    requires ViewFounded(v, h) && CodeFounded([i], h)
    ensures ViewFounded(ViewAfter(self, v, clock, t, i), h + Noted(self, v, t, i))
  {
    var h' := h + Noted(self, v, t, i);
    assert [i][0] == i;
    MembersMonotone(v.members, h, h');
    match i
    case PutMember(node) =>
      assert Causes(Added(node.id, node.status), node.id, node.status);
    case TakeInfos(infos) => MergeStaysJustified(v.members, infos, h);
    case TakeLocations(locs) =>
      forall a | a in MergeActors(v.registry, locs)
        ensures Registered(MergeActors(v.registry, locs)[a].node, a, MergeActors(v.registry, locs)[a].kind) in h
      {
        MergeActorsSource(v.registry, locs, a);
      }
    case JudgeAll(timeout) => JudgedStaysJustified(self, v, t, timeout, h);
    case _ =>
  }

  lemma ListedIsFounded(v: View, i: Instr, c: Choice, self: NodeId, h: set<Event>)
    requires ViewFounded(v, h) && ChoiceOk(self, v, i, c)
    ensures i.CopyMembers? ==> InfosJustified(c.infos, h)
    ensures i.CopyActors? ==> LocationsSourced(c.locs, h)
  {
    if i.CopyMembers? {
      forall k | 0 <= k < |c.infos|
        ensures Justified(c.infos[k].id, FromInfo(c.infos[k]).status, h)
      {
        InfoRoundTrip(v.members[c.infos[k].id], c.infos[k]);
      }
    }
  }

  lemma TaskStaysFounded(self: NodeId, v: View, clock: Instant, t: Task, c: Choice, h: set<Event>)
    requires t.code != [] && ChoiceOk(self, v, t.code[0], c)
    requires ViewFounded(v, h) && TaskFounded(t, h)
    ensures TaskFounded(TaskAfter(self, v, clock, t, c), h)
  {
    ListedIsFounded(v, t.code[0], c, self, h);
  }

  // ---------- Every step, every run ----------

  lemma RanStaysFounded(n: NodeId, ns: NodeState, clock: Instant, i: nat, c: Choice, h: set<Event>)
    requires NodeFounded(ns, h) && CanRun(n, ns, i, c)
    ensures NodeFounded(Ran(n, ns, clock, i, c), h + Noted(n, ns.view, ns.tasks[i], ns.tasks[i].code[0]))
  {
    var t := ns.tasks[i];
    var h' := h + Noted(n, ns.view, t, t.code[0]);
    assert TaskFounded(t, h);
    ViewStaysFounded(n, ns.view, clock, t, t.code[0], h);
    TaskStaysFounded(n, ns.view, clock, t, c, h);
    TaskMonotone(TaskAfter(n, ns.view, clock, t, c), h, h');
    forall j | 0 <= j < |ns.tasks|
      ensures TaskFounded(ns.tasks[j], h')
    {
      TaskMonotone(ns.tasks[j], h, h');
    }
  }

  lemma StartedStaysFounded(ns: NodeState, code: seq<Instr>, h: set<Event>)
    requires NodeFounded(ns, h) && CodeFounded(code, h)
    ensures NodeFounded(Started(ns, code), h)
  {
  }

  lemma GrantedStaysFounded(ns: NodeState, i: nat, h: set<Event>)
    requires NodeFounded(ns, h) && NextIsAcquire(ns, i)
    ensures NodeFounded(Granted(ns, i), h)
  {
    assert TaskFounded(ns.tasks[i], h);
  }

  lemma RunStaysFounded(s: State, n: NodeId, i: nat, c: Choice)
    requires Founded(s) && Enabled(s, Run(n, i, c))
    ensures Founded(Apply(s, Run(n, i, c)))
  {
    var s' := Apply(s, Run(n, i, c));
    var t := s.nodes[n].tasks[i];
    assert TaskFounded(t, s.history);
    RanStaysFounded(n, s.nodes[n], s.clock, i, c, s.history);
    forall m | m in s'.nodes
      ensures NodeFounded(s'.nodes[m], s'.history)
    {
      if m != n {
        NodeMonotone(s.nodes[m], s.history, s'.history);
      }
    }
    forall m | m in s'.net
      ensures MessageFounded(m, s'.history)
    {
      if m in s.net {
        assert MessageFounded(m, s.history);
      }
      InfosMonotone(m.gossip.members, s.history, s'.history);
    }
  }

  lemma PutFounded(s: State, n: NodeId, ns: NodeState)
    requires Founded(s) && NodeFounded(ns, s.history)
    ensures Founded(s.(nodes := s.nodes[n := ns]))
  {
  }

  lemma NewNodeFounded(id: NodeId, addr: string, clock: Instant, h: set<Event>)
    ensures NodeFounded(NewNode(id, addr, clock), h)
  {
  }

  lemma FoundedStep(s: State, l: Label)
    requires Founded(s) && Enabled(s, l)
    ensures Founded(Apply(s, l))
  {
    match l
    case Pass(_) =>
    case Join(id, addr) =>
      NewNodeFounded(id, addr, s.clock, s.history);
      PutFounded(s, id, NewNode(id, addr, s.clock));
    case Start(n, op) => StartFounded(s, n, op);
    case Receive(n, m, answer) => ReceivedFounded(s, n, m, answer);
    case Request(n, i) => PutFounded(s, n, Requested(s.nodes[n], i));
    case Grant(n, i) =>
      GrantedStaysFounded(s.nodes[n], i, s.history);
      PutFounded(s, n, Granted(s.nodes[n], i));
    case Run(n, i, c) => RunStaysFounded(s, n, i, c);
  }

  lemma StartFounded(s: State, n: NodeId, op: Operation)
    requires Founded(s) && n in s.nodes
    ensures Founded(s.(nodes := s.nodes[n := Started(s.nodes[n], CodeOf(op))]))
  {
    StartedStaysFounded(s.nodes[n], CodeOf(op), s.history);
    PutFounded(s, n, Started(s.nodes[n], CodeOf(op)));
  }

  lemma ReceivedFounded(s: State, n: NodeId, m: Message, answer: bool)
    requires Founded(s) && n in s.nodes && m in s.net
    ensures Founded(s.(nodes := s.nodes[n := Started(s.nodes[n], ReceiveCode(m, answer))]))
  {
    assert MessageFounded(m, s.history);
    StartedStaysFounded(s.nodes[n], ReceiveCode(m, answer), s.history);
    PutFounded(s, n, Started(s.nodes[n], ReceiveCode(m, answer)));
  }

  lemma {:induction false} RunsAreFounded(run: seq<State>, labels: seq<Label>, k: nat)
    requires IsRun(run, labels) && k < |run|
    ensures Founded(run[k])
  {
    if k > 0 {
      RunsAreFounded(run, labels, k - 1);
      FoundedStep(run[k - 1], labels[k - 1]);
    }
  }
}
