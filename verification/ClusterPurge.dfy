/**
 What the cleanup of actors on Down nodes amounts to. It does not keep the registry free of them, and a node need not
 be Up in its own view; a purged host comes back exactly by gossip that names it or its own registration.
 */
module ClusterPurge {
  import opened Basics
  import opened Membership
  import opened ClusterMachine
  import opened ClusterTheorems

  /** Node `n` locates some actor on `h`. */
  predicate Hosted(s: State, n: NodeId, h: NodeId) {
    n in s.nodes && h in Hosts(s.nodes[n].view.registry)
  }

  /** Step `j` is node `n` removing the entries of `h`, which its tick has just marked Down. */
  ghost predicate Purges(run: seq<State>, labels: seq<Label>, j: nat, n: NodeId, h: NodeId)
    requires IsRun(run, labels)
  {
    Executes(run, labels, j, n, PurgeDown) && h in run[j].nodes[n].tasks[labels[j].i].down
  }

  /** The instruction leaves an entry on `h`: gossip whose locations do, or its own registration. */
  predicate Brings(n: NodeId, h: NodeId, instr: Instr) {
    (instr.TakeLocations? && h in Hosts(MergeActors(map[], instr.locs))) || (instr.PutActor? && h == n)
  }

  lemma MergeBrings(reg: Registry, locs: seq<ActorLocation>, h: NodeId)
    ensures h in Hosts(MergeActors(map[], locs)) ==> h in Hosts(MergeActors(reg, locs))
    ensures h in Hosts(MergeActors(reg, locs)) ==> h in Hosts(reg) || h in Hosts(MergeActors(map[], locs))
  {
    var m, all := MergeActors(map[], locs), MergeActors(reg, locs);
    MergeActorsAdds(reg, locs);
    if h in Hosts(m) {
      var a :| a in m && m[a].node == h;
      assert a in all && all[a].node == h;
    }
    if h in Hosts(all) {
      var a :| a in all && all[a].node == h;
      assert a in m ==> m[a].node in Hosts(m);
    }
  }

  /** A host is there after an instruction that brings it, and, if it was not before, only then. */
  lemma InstrBrings(n: NodeId, v: View, clock: Instant, t: Task, instr: Instr, h: NodeId)
    ensures Brings(n, h, instr) ==> h in Hosts(ViewAfter(n, v, clock, t, instr).registry)
    ensures h !in Hosts(v.registry) && h in Hosts(ViewAfter(n, v, clock, t, instr).registry) ==> Brings(n, h, instr)
  {
    var reg := ViewAfter(n, v, clock, t, instr).registry;
    match instr
    case TakeLocations(locs) => MergeBrings(v.registry, locs, h);
    case PutActor(actor, kind) => assert reg[actor].node == n;
    case _ =>
  }

  ghost predicate StepsBring(s: State, l: Label, n: NodeId, h: NodeId)
    requires Enabled(s, l)
  {
    l.Run? && l.n == n && Brings(n, h, s.nodes[n].tasks[l.i].code[0])
  }

  lemma StepBrings(s: State, l: Label, n: NodeId, h: NodeId)
    requires Enabled(s, l) && n in s.nodes
    ensures n in Apply(s, l).nodes
    ensures StepsBring(s, l, n, h) ==> Hosted(Apply(s, l), n, h)
    ensures !Hosted(s, n, h) && Hosted(Apply(s, l), n, h) ==> StepsBring(s, l, n, h)
  {
    if l.Run? && l.n == n {
      var t := s.nodes[n].tasks[l.i];
      InstrBrings(n, s.nodes[n].view, s.clock, t, t.code[0], h);
    }
  }

  /** Between `j` and `k` a step of node `n` brings the host. */
  ghost predicate Brought(run: seq<State>, labels: seq<Label>, j: nat, k: nat, n: NodeId, h: NodeId)
    requires IsRun(run, labels) && k <= |labels|
  {
    exists i :: j <= i < k && StepsBring(run[i], labels[i], n, h)
  }

  lemma {:induction false} HostAppears(run: seq<State>, labels: seq<Label>, j: nat, k: nat, n: NodeId, h: NodeId)
    requires IsRun(run, labels) && j <= k < |run| && n in run[j].nodes && !Hosted(run[j], n, h) && Hosted(run[k], n, h)
    ensures Brought(run, labels, j, k, n, h)
    decreases k - j
  {
    StepBrings(run[j], labels[j], n, h);
    if !Hosted(run[j + 1], n, h) {
      HostAppears(run, labels, j + 1, k, n, h);
    }
  }

  lemma PurgeEmpties(s: State, l: Label, n: NodeId, h: NodeId)
    requires Enabled(s, l) && l.Run? && l.n == n && s.nodes[n].tasks[l.i].code[0] == PurgeDown
    requires h in s.nodes[n].tasks[l.i].down
    ensures n in Apply(s, l).nodes && !Hosted(Apply(s, l), n, h)
  {
    assert Apply(s, l).nodes[n].view.registry == Purge(s.nodes[n].view.registry, s.nodes[n].tasks[l.i].down);
  }

  /**
   Once a tick has purged a host, an entry on it is there at some time up to `k` exactly if in between the node merged
   locations that leave one, or is that host and registered an actor.
   */
  lemma PurgedHostsReturn(run: seq<State>, labels: seq<Label>, j: nat, k: nat, n: NodeId, h: NodeId)
    requires IsRun(run, labels) && j < k < |run| && Purges(run, labels, j, n, h)
    ensures (exists m :: j < m <= k && Hosted(run[m], n, h)) <==> Brought(run, labels, j + 1, k, n, h)
  {
    PurgeEmpties(run[j], labels[j], n, h);
    if m :| j < m <= k && Hosted(run[m], n, h) {
      HostAppears(run, labels, j + 1, m, n, h);
    }
    if Brought(run, labels, j + 1, k, n, h) {
      var i :| j + 1 <= i < k && StepsBring(run[i], labels[i], n, h);
      StepBrings(run[i], labels[i], n, h);
      assert Hosted(run[i + 1], n, h);
    }
  }

  /** A node is not Up in its own view only if it was added so, or another node's tick found it silent. */
  lemma SelfDoubtComesFromOthers(run: seq<State>, labels: seq<Label>, k: nat, n: NodeId)
    requires IsRun(run, labels) && k < |run| && n in run[k].nodes && n in run[k].nodes[n].view.members
    requires run[k].nodes[n].view.members[n].status != Up
    ensures var status := run[k].nodes[n].view.members[n].status;
            || (exists j, m, addr :: 0 <= j < k && Executes(run, labels, j, m, PutMember(Node(n, addr, status))))
            || (exists j, m :: 0 <= j < k && m != n && FindsSilent(run, labels, j, m, n, status))
  {
    SuspicionHasACause(run, labels, k, n, n);
    var status := run[k].nodes[n].view.members[n].status;
    if j, m :| 0 <= j < k && FindsSilent(run, labels, j, m, n, status) {
      assert m != n;
    }
  }

  // ---------- A run in which a Down member hosts an actor ----------

  const SELF: NodeId := "a"
  const GONE := Node(SELF, "host:1", Down)
  const ADDING := CodeOf(AddMember(GONE))
  const LISTING := CodeOf(RegisterActor("x", "T"))
  const ANY := Choice([], [], None)

  /** The one node, nobody waiting or `waiting` in line. */
  function Alone(v: View, tasks: seq<Task>, waiting: seq<nat>, h: set<Event>): State {
    State(map[SELF := NodeState(v, tasks, waiting)], {}, 0, h)
  }

  ghost predicate Moves(s: State, l: Label, t: State) {
    Enabled(s, l) && t == Apply(s, l)
  }

  lemma Extend(run: seq<State>, labels: seq<Label>, l: Label, t: State) returns (run': seq<State>, labels': seq<Label>)
    requires IsRun(run, labels) && Moves(run[|labels|], l, t)
    ensures IsRun(run', labels') && run'[|labels'|] == t
  {
    run', labels' := run + [t], labels + [l];
  }

  /** Task `i` asks for the lock it is at and gets it. */
  lemma Lock(run: seq<State>, labels: seq<Label>, v: View, tasks: seq<Task>, h: set<Event>, i: nat, after: Task)
    returns (run': seq<State>, labels': seq<Label>)
    requires IsRun(run, labels) && run[|labels|] == Alone(v, tasks, [], h)
    requires i < |tasks| && tasks[i].code != [] && tasks[i].code[0].Acquire?
    requires Available(NodeState(v, tasks, [i]), tasks[i].code[0].lock, tasks[i].code[0].mode)
    requires after == tasks[i].(code := tasks[i].code[1..], held := HeldAfter(tasks[i].code[0], tasks[i].held))
    ensures IsRun(run', labels') && run'[|labels'|] == Alone(v, tasks[i := after], [], h)
  {
    assert [] + [i] == [i] && [i][1..] == [] && Without([i], i) == [];
    var asked := Alone(v, tasks, [i], h);
    assert NodeState(v, tasks, [i]).waiting[0] == i;
    run', labels' := Extend(run, labels, Request(SELF, i), asked);
    run', labels' := Extend(run', labels', Grant(SELF, i), Alone(v, tasks[i := after], [], h));
  }

  /** Task `i` executes an instruction that leaves nothing open and sends nothing. */
  lemma Do(run: seq<State>, labels: seq<Label>, v: View, tasks: seq<Task>, h: set<Event>, i: nat, v': View, after: Task)
    returns (run': seq<State>, labels': seq<Label>)
    requires IsRun(run, labels) && run[|labels|] == Alone(v, tasks, [], h)
    requires i < |tasks| && tasks[i].code != []
    requires var c := tasks[i].code[0]; c.PutMember? || c.Beat? || c.PutActor? || c.Release?
    requires v' == ViewAfter(SELF, v, 0, tasks[i], tasks[i].code[0]) && after == TaskAfter(SELF, v, 0, tasks[i], ANY)
    ensures IsRun(run', labels')
    ensures run'[|labels'|] == Alone(v', tasks[i := after], [], h + Noted(SELF, v, tasks[i], tasks[i].code[0]))
  {
    var t := Alone(v', tasks[i := after], [], h + Noted(SELF, v, tasks[i], tasks[i].code[0]));
    run', labels' := Extend(run, labels, Run(SELF, i, ANY), t);
  }

  function Rest(code: seq<Instr>, k: nat, held: Held): Task
    requires k <= |code|
  {
    NewTask(code[k..]).(held := held)
  }

  lemma RestSteps(code: seq<Instr>, k: nat, held: Held)
    requires k < |code|
    ensures Rest(code, k, held).code[0] == code[k] && Rest(code, k, held).code[1..] == code[k + 1..]
  {
  }

  const FIRST := View(map[SELF := Node(SELF, "host:1", Up)], map[SELF := 0], map[])
  const SECOND := View(map[SELF := GONE], map[SELF := 0], map[])
  const THIRD := View(map[SELF := GONE], map[SELF := 0], map["x" := Location(SELF, "T")])

  /** Node "a" joins and is about to be added to itself as Down. */
  lemma Joined() returns (run: seq<State>, labels: seq<Label>)
    ensures IsRun(run, labels) && run[|labels|] == Alone(FIRST, [Rest(ADDING, 0, NOTHING)], [], {})
  {
    run, labels := Extend([EMPTY], [], Join(SELF, "host:1"), Alone(FIRST, [], [], {}));
    assert ADDING[0..] == ADDING;
    var tasks: seq<Task> := [];
    assert tasks + [NewTask(ADDING)] == [Rest(ADDING, 0, NOTHING)];
    run, labels := Extend(run, labels, Start(SELF, AddMember(GONE)), Alone(FIRST, [Rest(ADDING, 0, NOTHING)], [], {}));
  }

  lemma Replaced(t: Task, u: Task)
    ensures [t][0 := u] == [u]
  {
  }

  const ON_MEMBERS := Held(Writing, Free, Free)
  const ALL_BUT_REGISTRY := Held(Writing, Writing, Free)
  const ON_REGISTRY := Held(Free, Free, Writing)

  lemma PutAsDown() returns (run: seq<State>, labels: seq<Label>, h: set<Event>)
    ensures IsRun(run, labels) && run[|labels|] == Alone(SECOND, [Rest(ADDING, 2, ON_MEMBERS)], [], h)
  {
    var t0, t1, t2 := Rest(ADDING, 0, NOTHING), Rest(ADDING, 1, ON_MEMBERS), Rest(ADDING, 2, ON_MEMBERS);
    run, labels := Joined();
    RestSteps(ADDING, 0, NOTHING);
    run, labels := Lock(run, labels, FIRST, [t0], {}, 0, t1);
    Replaced(t0, t1);
    RestSteps(ADDING, 1, ON_MEMBERS);
    run, labels := Do(run, labels, FIRST, [t1], {}, 0, SECOND, t2);
    Replaced(t1, t2);
    h := {} + Noted(SELF, FIRST, t1, ADDING[1]);
  }

  lemma BeatOnce() returns (run: seq<State>, labels: seq<Label>, h: set<Event>)
    ensures IsRun(run, labels) && run[|labels|] == Alone(SECOND, [Rest(ADDING, 4, ALL_BUT_REGISTRY)], [], h)
  {
    var t2, t3, t4 := Rest(ADDING, 2, ON_MEMBERS), Rest(ADDING, 3, ALL_BUT_REGISTRY), Rest(ADDING, 4, ALL_BUT_REGISTRY);
    var h';
    run, labels, h' := PutAsDown();
    RestSteps(ADDING, 2, ON_MEMBERS);
    run, labels := Lock(run, labels, SECOND, [t2], h', 0, t3);
    Replaced(t2, t3);
    RestSteps(ADDING, 3, ALL_BUT_REGISTRY);
    run, labels := Do(run, labels, SECOND, [t3], h', 0, SECOND, t4);
    Replaced(t3, t4);
    h := h' + Noted(SELF, SECOND, t3, ADDING[3]);
  }

  lemma AddedAsDown() returns (run: seq<State>, labels: seq<Label>, h: set<Event>)
    ensures IsRun(run, labels) && run[|labels|] == Alone(SECOND, [Rest(ADDING, 6, NOTHING)], [], h)
  {
    var t4, t5, t6 := Rest(ADDING, 4, ALL_BUT_REGISTRY), Rest(ADDING, 5, ON_MEMBERS), Rest(ADDING, 6, NOTHING);
    var h';
    run, labels, h' := BeatOnce();
    RestSteps(ADDING, 4, ALL_BUT_REGISTRY);
    run, labels := Do(run, labels, SECOND, [t4], h', 0, SECOND, t5);
    Replaced(t4, t5);
    RestSteps(ADDING, 5, ON_MEMBERS);
    run, labels := Do(run, labels, SECOND, [t5], h' + {}, 0, SECOND, t6);
    Replaced(t5, t6);
    h := h' + {} + {};
  }

  lemma ActorAsked() returns (run: seq<State>, labels: seq<Label>, h: set<Event>)
    ensures IsRun(run, labels)
    ensures run[|labels|] == Alone(SECOND, [Rest(ADDING, 6, NOTHING), Rest(LISTING, 1, ON_REGISTRY)], [], h)
  {
    var done, t0, t1 := Rest(ADDING, 6, NOTHING), Rest(LISTING, 0, NOTHING), Rest(LISTING, 1, ON_REGISTRY);
    run, labels, h := AddedAsDown();
    assert LISTING[0..] == LISTING && [done] + [NewTask(LISTING)] == [done, t0];
    run, labels := Extend(run, labels, Start(SELF, RegisterActor("x", "T")), Alone(SECOND, [done, t0], [], h));
    RestSteps(LISTING, 0, NOTHING);
    run, labels := Lock(run, labels, SECOND, [done, t0], h, 1, t1);
    assert [done, t0][1 := t1] == [done, t1];
  }

  lemma ActorListed() returns (run: seq<State>, labels: seq<Label>, h: set<Event>)
    ensures IsRun(run, labels)
    ensures run[|labels|] == Alone(THIRD, [Rest(ADDING, 6, NOTHING), Rest(LISTING, 3, NOTHING)], [], h)
  {
    var done, t1 := Rest(ADDING, 6, NOTHING), Rest(LISTING, 1, ON_REGISTRY);
    var t2, t3 := Rest(LISTING, 2, ON_REGISTRY), Rest(LISTING, 3, NOTHING);
    var h';
    run, labels, h' := ActorAsked();
    RestSteps(LISTING, 1, ON_REGISTRY);
    run, labels := Do(run, labels, SECOND, [done, t1], h', 1, THIRD, t2);
    assert [done, t1][1 := t2] == [done, t2];
    h := h' + Noted(SELF, SECOND, t1, LISTING[1]);
    RestSteps(LISTING, 2, ON_REGISTRY);
    run, labels := Do(run, labels, THIRD, [done, t2], h, 1, THIRD, t3);
    assert [done, t2][1 := t3] == [done, t3];
    h := h + Noted(SELF, THIRD, t2, LISTING[2]);
  }

  /** A Down member hosts an entry, and a node is Down in its own view, with no task left. */
  lemma DownMembersMayHost() returns (run: seq<State>, labels: seq<Label>)
    ensures IsRun(run, labels)
    ensures var ns := run[|labels|].nodes;
            && SELF in ns && SELF in ns[SELF].view.members && ns[SELF].view.members[SELF].status == Down
            && Hosted(run[|labels|], SELF, SELF)
            && forall i :: 0 <= i < |ns[SELF].tasks| ==> ns[SELF].tasks[i].code == []
  {
    var h;
    run, labels, h := ActorListed();
    assert THIRD.registry["x"].node == SELF;
    assert ADDING[6..] == [] && LISTING[3..] == [];
  }
}
