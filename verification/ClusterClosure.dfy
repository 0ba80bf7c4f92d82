/**
 What every reachable state of the cluster keeps about ids: views and gossip never name a host they do not list,
 heartbeats are only kept for members, and a node never forgets an id.
 */
module ClusterClosure {
  import opened Basics
  import opened Membership
  import opened ClusterMachine
  import opened ClusterLocks

  // ---------- What code will need to know by the time it runs ----------

  /** Ids an instruction relies on being members. */
  function Needs(i: Instr): set<NodeId> {
    match i
    case Beat(id) => {id}
    case TakeLocations(locs) => LocationHosts(locs)
    case _ => {}
  }

  /** Ids an instruction makes members. */
  function Teaches(i: Instr): set<NodeId> {
    match i
    case PutMember(node) => {node.id}
    case TakeInfos(infos) => InfoIds(infos)
    case _ => {}
  }

  predicate Safe(code: seq<Instr>, known: set<NodeId>) {
    code == [] || (Needs(code[0]) <= known && Safe(code[1..], known + Teaches(code[0])))
  }

  lemma {:induction false} SafeMonotone(code: seq<Instr>, known: set<NodeId>, more: set<NodeId>)
    requires Safe(code, known) && known <= more
    ensures Safe(code, more)
  {
    if code != [] {
      SafeMonotone(code[1..], known + Teaches(code[0]), more + Teaches(code[0]));
    }
  }

  predicate Plain(code: seq<Instr>) {
    forall i :: 0 <= i < |code| ==> Needs(code[i]) == {}
  }

  lemma {:induction false} PlainThen(code: seq<Instr>, rest: seq<Instr>, known: set<NodeId>)
    requires Plain(code) && Safe(rest, known)
    ensures Safe(code + rest, known)
  {
    if code == [] {
      assert code + rest == rest;
    } else {
      assert (code + rest)[1..] == code[1..] + rest;
      SafeMonotone(rest, known, known + Teaches(code[0]));
      PlainThen(code[1..], rest, known + Teaches(code[0]));
    }
  }

  /** A message names no host it does not list, and lists its sender. */
  predicate MessageClosed(m: Message) {
    LocationHosts(m.gossip.actors) <= InfoIds(m.gossip.members) && m.sender in InfoIds(m.gossip.members)
  }

  lemma CodeSafe(op: Operation, known: set<NodeId>)
    ensures Safe(CodeOf(op), known)
  {
    var c := CodeOf(op);
    if op.AddMember? {
      AddSafe(op.node, c, known);
    } else {
      PlainThen(c, [], known);
      assert c + [] == c;
    }
  }

  lemma AddSafe(node: Node, c: seq<Instr>, known: set<NodeId>)
    requires c == CodeOf(AddMember(node))
    ensures Safe(c, known)
  {
    var k := known + {node.id};
    PlainThen(c[4..], [], k);
    assert c[4..] + [] == c[4..];
    SafeAt(c, 3, k, k);
    SafeAt(c, 2, k, k);
    SafeAt(c, 1, known, k);
    SafeAt(c, 0, known, known);
    assert c[0..] == c;
  }

  /** Once the members of the gossip are known, beating for its sender and taking its locations is safe. */
  lemma MergeTailSafe(c: seq<Instr>, sender: NodeId, locs: seq<ActorLocation>, known: set<NodeId>)
    requires |c| >= 6 && c[3] == Beat(sender) && c[4].Acquire? && c[5] == TakeLocations(locs) && Plain(c[6..])
    requires sender in known && LocationHosts(locs) <= known
    ensures Safe(c[3..], known)
  {
    PlainThen(c[6..], [], known);
    assert c[6..] + [] == c[6..];
    SafeAt(c, 5, known, known);
    SafeAt(c, 4, known, known);
    SafeAt(c, 3, known, known);
  }

  lemma MergeHeadSafe(c: seq<Instr>, infos: seq<NodeInfo>, known: set<NodeId>)
    requires |c| >= 3 && c[0].Acquire? && c[1].Acquire? && c[2] == TakeInfos(infos)
    requires Safe(c[3..], known + InfoIds(infos))
    ensures Safe(c, known)
  {
    SafeAt(c, 2, known, known + InfoIds(infos));
    SafeAt(c, 1, known, known);
    SafeAt(c, 0, known, known);
    assert c[0..] == c;
  }

  lemma ReceiveSafe(m: Message, answer: bool, known: set<NodeId>)
    requires MessageClosed(m)
    ensures Safe(ReceiveCode(m, answer), known)
  {
    var c := ReceiveCode(m, answer);
    MergeTailSafe(c, m.sender, m.gossip.actors, known + InfoIds(m.gossip.members));
    MergeHeadSafe(c, m.gossip.members, known);
  }

  lemma SafeAt(c: seq<Instr>, k: nat, known: set<NodeId>, next: set<NodeId>)
    requires k < |c| && Needs(c[k]) <= known
    requires Safe(c[k + 1..], next) && next <= known + Teaches(c[k])
    ensures Safe(c[k..], known)
  {
    SafeMonotone(c[k + 1..], next, known + Teaches(c[k]));
    assert c[k..][1..] == c[k + 1..];
  }

  // ---------- The invariant ----------

  predicate ViewClosed(self: NodeId, v: View) {
    && self in v.members
    && Keyed(v.members)
    && v.beats.Keys <= v.members.Keys
    && Hosts(v.registry) <= v.members.Keys
  }

  predicate TaskClosed(self: NodeId, v: View, t: Task) {
    && Safe(t.code, v.members.Keys)
    && CopiesClosed(self, v, t)
  }

  /** What a task has copied out of the maps and still relies on. */
  predicate CopiesClosed(self: NodeId, v: View, t: Task) {
    && (t.stage == Fresh ==> t.held.members != Free && InfoIds(t.infos) == v.members.Keys)
    && (t.stage == Paired ==> LocationHosts(t.locs) <= InfoIds(t.infos) && self in InfoIds(t.infos))
    && (t.hit.Some? ==> t.hit.value.node in v.members)
    && (t.hit.Some? && t.stage != Blank ==> t.hit.value.node in InfoIds(t.infos))
    && t.outcome != NodeNotFound
  }

  predicate NodeClosed(self: NodeId, ns: NodeState) {
    && ViewClosed(self, ns.view)
    && forall i :: 0 <= i < |ns.tasks| ==> TaskClosed(self, ns.view, ns.tasks[i])
  }

  ghost predicate Closed(s: State) {
    && LocksHold(s)
    && (forall n :: n in s.nodes ==> NodeClosed(n, s.nodes[n]))
    && (forall m :: m in s.net ==> MessageClosed(m))
  }

  /** An instruction never removes a member, and only adds what it teaches. */
  lemma IdsAfter(self: NodeId, v: View, clock: Instant, t: Task, i: Instr)
    ensures ViewAfter(self, v, clock, t, i).members.Keys == v.members.Keys + Teaches(i)
  {
    if i.TakeInfos? {
      MergeInfosIds(v.members, i.infos);
    }
  }

  lemma ViewStaysClosed(self: NodeId, v: View, clock: Instant, t: Task, i: Instr)
    requires ViewClosed(self, v) && Needs(i) <= v.members.Keys
    ensures ViewClosed(self, ViewAfter(self, v, clock, t, i))
  {
    IdsAfter(self, v, clock, t, i);
    match i
    case TakeInfos(infos) => MergeInfosIds(v.members, infos);
    case TakeLocations(locs) => MergeActorsHosts(v.registry, locs);
    case _ =>
  }

  /** The running task: its copies are made under the locks that keep them true. */
  lemma TaskStaysClosed(self: NodeId, v: View, clock: Instant, t: Task, c: Choice)
    requires t.code != [] && !t.code[0].Acquire? && Allowed(t.code[0], t.held, t.stage)
    requires ViewClosed(self, v) && TaskClosed(self, v, t) && ChoiceOk(self, v, t.code[0], c)
    ensures TaskClosed(self, ViewAfter(self, v, clock, t, t.code[0]), TaskAfter(self, v, clock, t, c))
  {
    IdsAfter(self, v, clock, t, t.code[0]);
    CodeStaysSafe(t, v.members.Keys);
    CopiesStayClosed(self, v, clock, t, c);
  }

  lemma CopiesStayClosed(self: NodeId, v: View, clock: Instant, t: Task, c: Choice)
    requires t.code != [] && !t.code[0].Acquire? && Allowed(t.code[0], t.held, t.stage)
    requires ViewClosed(self, v) && CopiesClosed(self, v, t) && ChoiceOk(self, v, t.code[0], c)
    ensures CopiesClosed(self, ViewAfter(self, v, clock, t, t.code[0]), TaskAfter(self, v, clock, t, c))
  {
    var i := t.code[0];
    IdsAfter(self, v, clock, t, i);
    match i
    case CopyActors => ListedHosts(c.locs, v.registry);
    case Release(l) =>
    case _ =>
  }

  lemma CodeStaysSafe(t: Task, known: set<NodeId>)
    requires t.code != [] && Safe(t.code, known)
    ensures Safe(if Taken(t.code[0], t) then Branch(t.code[0]) + t.code[1..] else t.code[1..],
                 known + Teaches(t.code[0]))
  {
    if Taken(t.code[0], t) {
      PlainThen(Branch(t.code[0]), t.code[1..], known + Teaches(t.code[0]));
    }
  }

  /** A task that still relies on its fresh copy of the members holds the lock that keeps writers out. */
  lemma OthersStayClosed(self: NodeId, ns: NodeState, clock: Instant, i: nat, c: Choice, j: nat)
    requires LockInv(ns) && NodeClosed(self, ns) && CanRun(self, ns, i, c)
    requires j < |ns.tasks| && j != i
    ensures TaskClosed(self, ViewAfter(self, ns.view, clock, ns.tasks[i], ns.tasks[i].code[0]), ns.tasks[j])
  {
    var instr := ns.tasks[i].code[0];
    var u := ns.tasks[j];
    IdsAfter(self, ns.view, clock, ns.tasks[i], instr);
    SafeMonotone(u.code, ns.view.members.Keys, ns.view.members.Keys + Teaches(instr));
    assert Disciplined(ns.tasks[i].code, ns.tasks[i].held, ns.tasks[i].stage);
    if u.stage == Fresh {
      assert ns.tasks[i].held.On(MembersLock) == Writing ==> u.held.On(MembersLock) == Free;
    }
  }

  lemma RanStaysClosed(n: NodeId, ns: NodeState, clock: Instant, i: nat, c: Choice)
    requires LockInv(ns) && NodeClosed(n, ns) && CanRun(n, ns, i, c)
    ensures NodeClosed(n, Ran(n, ns, clock, i, c))
  {
    var t := ns.tasks[i];
    assert Disciplined(t.code, t.held, t.stage);
    ViewStaysClosed(n, ns.view, clock, t, t.code[0]);
    TaskStaysClosed(n, ns.view, clock, t, c);
    forall j | 0 <= j < |ns.tasks| && j != i
      ensures TaskClosed(n, ViewAfter(n, ns.view, clock, t, t.code[0]), ns.tasks[j])
    {
      OthersStayClosed(n, ns, clock, i, c, j);
    }
  }

  lemma PostedIsClosed(n: NodeId, ns: NodeState, i: nat, c: Choice, m: Message)
    requires LockInv(ns) && NodeClosed(n, ns) && CanRun(n, ns, i, c)
    requires m in Sent(n, ns.tasks[i], ns.tasks[i].code[0])
    ensures MessageClosed(m)
  {
    assert Disciplined(ns.tasks[i].code, ns.tasks[i].held, ns.tasks[i].stage);
    assert TaskClosed(n, ns.view, ns.tasks[i]);
  }

  lemma StartedStaysClosed(n: NodeId, ns: NodeState, code: seq<Instr>)
    requires NodeClosed(n, ns) && Safe(code, ns.view.members.Keys)
    ensures NodeClosed(n, Started(ns, code))
  {
  }

  lemma ClosedStep(s: State, l: Label)
    requires Closed(s) && Enabled(s, l)
    ensures Closed(Apply(s, l))
  {
    LocksHoldStep(s, l);
    match l
    case Pass(_) =>
    case Join(_, _) =>
    case Start(n, op) =>
      CodeSafe(op, s.nodes[n].view.members.Keys);
      StartedStaysClosed(n, s.nodes[n], CodeOf(op));
    case Receive(n, m, answer) =>
      ReceiveSafe(m, answer, s.nodes[n].view.members.Keys);
      StartedStaysClosed(n, s.nodes[n], ReceiveCode(m, answer));
    case Request(n, i) =>
      assert NodeClosed(n, Requested(s.nodes[n], i));
    case Grant(n, i) => GrantedStaysClosed(n, s.nodes[n], i);
    case Run(n, i, c) => RunStaysClosed(s, n, i, c);
  }

  lemma RunStaysClosed(s: State, n: NodeId, i: nat, c: Choice)
    requires Closed(s) && Enabled(s, Run(n, i, c))
    ensures var s' := Apply(s, Run(n, i, c));
            && (forall m :: m in s'.nodes ==> NodeClosed(m, s'.nodes[m]))
            && (forall m :: m in s'.net ==> MessageClosed(m))
  {
    RanStaysClosed(n, s.nodes[n], s.clock, i, c);
    forall m | m in Apply(s, Run(n, i, c)).net
      ensures MessageClosed(m)
    {
      if m !in s.net {
        PostedIsClosed(n, s.nodes[n], i, c, m);
      }
    }
  }

  lemma GrantedStaysClosed(n: NodeId, ns: NodeState, i: nat)
    requires LockInv(ns) && NodeClosed(n, ns) && CanGrant(ns, i)
    ensures NodeClosed(n, Granted(ns, i))
  {
    var t := ns.tasks[i];
    assert TaskClosed(n, ns.view, t);
    assert ns.view.members.Keys + Teaches(t.code[0]) == ns.view.members.Keys;
    assert Disciplined(t.code, t.held, t.stage);
  }

  lemma {:induction false} RunsAreClosed(run: seq<State>, labels: seq<Label>, k: nat)
    requires IsRun(run, labels) && k < |run|
    ensures Closed(run[k])
  {
    if k > 0 {
      RunsAreClosed(run, labels, k - 1);
      ClosedStep(run[k - 1], labels[k - 1]);
    }
  }
}
