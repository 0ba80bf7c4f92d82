/**
 The lock-level code of each operation against the operations of the node object: a task that no other task of its node
 comes in between changes the view exactly as `add_member`, `register_actor`, a merge or a tick does.
 */
module ClusterAlone {
  import opened Basics
  import opened Membership
  import opened ClusterMachine
  import opened ClusterTasks

  /** One instruction of a task, done at this time: what becomes of the view and of that task. */
  ghost predicate Does(self: NodeId, v: View, t: Task, v': View, t': Task, clock: Instant, c: Choice) {
    && t.code != []
    && if t.code[0].Acquire? then v' == v && t' == t.(code := t.code[1..], held := HeldAfter(t.code[0], t.held))
       else
         && ChoiceOk(self, v, t.code[0], c)
         && v' == ViewAfter(self, v, clock, t, t.code[0]) && t' == TaskAfter(self, v, clock, t, c)
  }

  /** View and task at one moment, and the time and choices with which the next instruction is done. */
  datatype Moment = Moment(view: View, task: Task, clock: Instant, choice: Choice)

  /** From moment to moment one task does one instruction, all of them between `lo` and `hi`. */
  ghost predicate Alone(self: NodeId, path: seq<Moment>, lo: Instant, hi: Instant) {
    && path != []
    && forall q :: 0 <= q < |path| - 1 ==>
         && lo <= path[q].clock <= hi
         && Does(self, path[q].view, path[q].task, path[q + 1].view, path[q + 1].task, path[q].clock, path[q].choice)
  }

  /** The path ends with nothing left to do. */
  predicate Ends(path: seq<Moment>) {
    path != [] && path[|path| - 1].task.code == []
  }

  /** From step `i` to step `k` no other task of node `n` does anything. */
  predicate OnlyMoves(labels: seq<Label>, i: nat, k: nat, n: NodeId, x: nat) {
    forall j :: i <= j < k && j < |labels| && (labels[j].Grant? || labels[j].Run?) && labels[j].n == n ==>
      labels[j].i == x
  }

  lemma StepAlone(s: State, l: Label, n: NodeId, x: nat)
    requires Enabled(s, l) && HasTask(s, n, x) && ((l.Grant? || l.Run?) && l.n == n ==> l.i == x)
    ensures HasTask(Apply(s, l), n, x)
    ensures var v, t, v', t' := s.nodes[n].view, TaskOf(s, n, x), Apply(s, l).nodes[n].view, TaskOf(Apply(s, l), n, x);
            if Moves(l, n, x) then
              Does(n, v, t, v', t', s.clock, if l.Run? then l.c else Choice([], [], None))
            else v' == v && t' == t
  {
    TaskStep(s, l, n, x);
  }

  lemma {:induction false} AloneOf(run: seq<State>, labels: seq<Label>, i: nat, k: nat, n: NodeId, x: nat,
                                   lo: Instant, hi: Instant) returns (path: seq<Moment>)
    requires IsRun(run, labels) && i <= k < |run| && HasTask(run[i], n, x) && OnlyMoves(labels, i, k, n, x)
    requires lo <= run[i].clock && run[k].clock <= hi
    ensures HasTask(run[k], n, x) && Alone(n, path, lo, hi)
    ensures path[0].view == run[i].nodes[n].view && path[0].task == TaskOf(run[i], n, x)
    ensures path[|path| - 1].view == run[k].nodes[n].view && path[|path| - 1].task == TaskOf(run[k], n, x)
    decreases k - i
  {
    var c := if i < |labels| && labels[i].Run? then labels[i].c else Choice([], [], None);
    var first := Moment(run[i].nodes[n].view, TaskOf(run[i], n, x), run[i].clock, c);
    if i == k {
      path := [first];
    } else {
      assert run[i + 1] == Apply(run[i], labels[i]);
      StepAlone(run[i], labels[i], n, x);
      ClockGrows(run, labels, i, i + 1);
      ClockGrows(run, labels, i, k);
      path := AloneOf(run, labels, i + 1, k, n, x, lo, hi);
      if Moves(labels[i], n, x) {
        path := PrependMoment(n, first, path, lo, hi);
      }
    }
  }

  lemma PrependMoment(self: NodeId, first: Moment, rest: seq<Moment>, lo: Instant, hi: Instant)
    returns (path: seq<Moment>)
    requires Alone(self, rest, lo, hi) && lo <= first.clock <= hi
    requires Does(self, first.view, first.task, rest[0].view, rest[0].task, first.clock, first.choice)
    ensures Alone(self, path, lo, hi) && path == [first] + rest
  {
    path := [first] + rest;
  }

  /** Before its end a task does the next instruction of its code. */
  lemma Next(self: NodeId, path: seq<Moment>, lo: Instant, hi: Instant, k: nat, code: seq<Instr>, q: nat)
    requires Alone(self, path, lo, hi) && Ends(path) && k < |path| && q < |code|
    requires path[k].task.code == code[q..] && Branch(code[q]) == []
    ensures k + 1 < |path| && lo <= path[k].clock <= hi && path[k + 1].task.code == code[q + 1..]
    ensures path[k + 1].view == if code[q].Acquire? then path[k].view
                                else ViewAfter(self, path[k].view, path[k].clock, path[k].task, code[q])
    ensures path[k + 1].task.now == if code[q].ReadClock? then path[k].clock else path[k].task.now
    ensures path[k + 1].task.down == if code[q].JudgeAll? then
                                       Demoted(path[k].view, self, path[k].task.now, code[q].timeout)
                                     else path[k].task.down
  {
    assert code[q..][0] == code[q] && code[q..][1..] == code[q + 1..];
    assert k < |path| - 1;
  }

  /** Taking or giving back a lock changes neither the view nor what a task knows. */
  lemma NextLock(self: NodeId, path: seq<Moment>, lo: Instant, hi: Instant, k: nat, code: seq<Instr>, q: nat)
    requires Alone(self, path, lo, hi) && Ends(path) && k < |path| && q < |code|
    requires path[k].task.code == code[q..] && (code[q].Acquire? || code[q].Release?)
    ensures k + 1 < |path| && path[k + 1].task.code == code[q + 1..] && path[k + 1].view == path[k].view
    ensures path[k + 1].task.now == path[k].task.now && path[k + 1].task.down == path[k].task.down
  {
    Next(self, path, lo, hi, k, code, q);
  }

  // ---------- Code that leaves the view alone ----------

  predicate QuietInstr(i: Instr) {
    i.Acquire? || i.Release? || i.CopyMembers? || i.CopyActors? || i.Post? || i.PickPeer? || i.IfPeer?
  }

  predicate Quiet(code: seq<Instr>) {
    forall q :: 0 <= q < |code| ==> QuietInstr(code[q])
  }

  lemma QuietStep(self: NodeId, v: View, t: Task, v': View, t': Task, clock: Instant, c: Choice)
    requires Does(self, v, t, v', t', clock, c) && Quiet(t.code)
    ensures v' == v && Quiet(t'.code)
  {
    assert QuietInstr(t.code[0]);
    assert Quiet(t.code[1..]);
    assert Quiet(GossipCode());
  }

  lemma {:induction false} QuietLeaves(self: NodeId, path: seq<Moment>, lo: Instant, hi: Instant, k: nat)
    requires Alone(self, path, lo, hi) && k < |path| && Quiet(path[k].task.code)
    ensures path[|path| - 1].view == path[k].view
    decreases |path| - k
  {
    if k < |path| - 1 {
      QuietStep(self, path[k].view, path[k].task, path[k + 1].view, path[k + 1].task, path[k].clock, path[k].choice);
      QuietLeaves(self, path, lo, hi, k + 1);
    }
  }

  // ---------- The operations ----------

  lemma AddAlone(self: NodeId, path: seq<Moment>, lo: Instant, hi: Instant, node: Node) returns (now: Instant)
    requires Alone(self, path, lo, hi) && Ends(path) && path[0].task == NewTask(CodeOf(AddMember(node)))
    ensures lo <= now <= hi
    ensures var v := path[0].view;
            path[|path| - 1].view == View(v.members[node.id := node], v.beats[node.id := now], v.registry)
  {
    var c := CodeOf(AddMember(node));
    assert c[0..] == c;
    Next(self, path, lo, hi, 0, c, 0);
    Next(self, path, lo, hi, 1, c, 1);
    Next(self, path, lo, hi, 2, c, 2);
    Next(self, path, lo, hi, 3, c, 3);
    QuietLeaves(self, path, lo, hi, 4);
    now := path[3].clock;
  }

  lemma RegisterAlone(self: NodeId, path: seq<Moment>, lo: Instant, hi: Instant, actor: ActorName, kind: string)
    requires Alone(self, path, lo, hi) && Ends(path) && path[0].task == NewTask(CodeOf(RegisterActor(actor, kind)))
    ensures var v := path[0].view;
            path[|path| - 1].view == v.(registry := v.registry[actor := Location(self, kind)])
  {
    var c := CodeOf(RegisterActor(actor, kind));
    assert c[0..] == c;
    Next(self, path, lo, hi, 0, c, 0);
    Next(self, path, lo, hi, 1, c, 1);
    QuietLeaves(self, path, lo, hi, 2);
  }

  lemma ReceiveAlone(self: NodeId, path: seq<Moment>, lo: Instant, hi: Instant, m: Message, answer: bool)
    returns (now: Instant)
    requires Alone(self, path, lo, hi) && Ends(path) && path[0].task == NewTask(ReceiveCode(m, answer))
    ensures lo <= now <= hi
    ensures var v := path[0].view;
            path[|path| - 1].view == View(MergeInfos(v.members, m.gossip.members), v.beats[m.sender := now],
                                          MergeActors(v.registry, m.gossip.actors))
  {
    var c := ReceiveCode(m, answer);
    MergeCodeIs(m, answer, c);
    assert c[0..] == c;
    NextLock(self, path, lo, hi, 0, c, 0);
    NextLock(self, path, lo, hi, 1, c, 1);
    Next(self, path, lo, hi, 2, c, 2);
    now := MergeEndAlone(self, path, lo, hi, c, m);
  }

  /** The second half of a merge, from the heartbeat on. */
  lemma MergeEndAlone(self: NodeId, path: seq<Moment>, lo: Instant, hi: Instant, c: seq<Instr>, m: Message)
    returns (now: Instant)
    requires Alone(self, path, lo, hi) && Ends(path) && |path| > 3 && |c| > 6 && path[3].task.code == c[3..]
    requires c[3] == Beat(m.sender) && c[4].Acquire? && c[5] == TakeLocations(m.gossip.actors) && Quiet(c[6..])
    ensures lo <= now <= hi
    ensures var v := path[3].view;
            path[|path| - 1].view == View(v.members, v.beats[m.sender := now], MergeActors(v.registry, m.gossip.actors))
  {
    Next(self, path, lo, hi, 3, c, 3);
    NextLock(self, path, lo, hi, 4, c, 4);
    Next(self, path, lo, hi, 5, c, 5);
    QuietLeaves(self, path, lo, hi, 6);
    now := path[3].clock;
  }

  lemma MergeCodeIs(m: Message, answer: bool, c: seq<Instr>)
    requires c == ReceiveCode(m, answer)
    ensures |c| >= 9 && c[0].Acquire? && c[1].Acquire? && c[2] == TakeInfos(m.gossip.members) && c[3] == Beat(m.sender)
    ensures c[4].Acquire? && c[5] == TakeLocations(m.gossip.actors) && Quiet(c[6..])
  {
    assert Quiet(MergeCode(m)[6..]) && Quiet(GossipCode());
    assert c[6..] == MergeCode(m)[6..] + if answer then GossipCode() else [];
  }

  /** The second half of a tick: the members it demoted are purged, and then it gossips. */
  lemma TickEndAlone(self: NodeId, path: seq<Moment>, lo: Instant, hi: Instant, k: nat, rest: seq<Instr>)
    requires Alone(self, path, lo, hi) && Ends(path) && k < |path|
    requires path[k].task.code == [IfDown] + rest && Quiet(rest)
    ensures path[|path| - 1].view == path[k].view.(registry := Purge(path[k].view.registry, path[k].task.down))
  {
    assert ([IfDown] + rest)[1..] == rest && k < |path| - 1;
    var v := path[k].view;
    assert path[k + 1].view == v;
    if path[k].task.down == {} {
      QuietLeaves(self, path, lo, hi, k + 1);
      assert Purge(v.registry, {}) == v.registry;
    } else {
      PurgeAlone(self, path, lo, hi, k + 1, rest);
    }
  }

  lemma PurgeAlone(self: NodeId, path: seq<Moment>, lo: Instant, hi: Instant, k: nat, rest: seq<Instr>)
    requires Alone(self, path, lo, hi) && Ends(path) && k < |path|
    requires path[k].task.code == PurgeCode() + rest && Quiet(rest)
    ensures path[|path| - 1].view == path[k].view.(registry := Purge(path[k].view.registry, path[k].task.down))
  {
    var c := PurgeCode() + rest;
    assert c[0..] == c && c[2..] == [Release(RegistryLock)] + rest;
    Next(self, path, lo, hi, k, c, 0);
    Next(self, path, lo, hi, k + 1, c, 1);
    QuietLeaves(self, path, lo, hi, k + 2);
  }

  /** The first half: the clock is read, and everyone judged by it. */
  lemma JudgeAlone(self: NodeId, path: seq<Moment>, lo: Instant, hi: Instant, timeout: nat)
    requires Alone(self, path, lo, hi) && Ends(path) && path[0].task == NewTask(CodeOf(GossipTick(timeout)))
    ensures |path| > 6 && lo <= path[0].clock <= hi
    ensures var v, now := path[0].view, path[0].clock;
            && path[6].view == v.(members := Detect(v, self, now, timeout))
            && path[6].task.down == Demoted(v, self, now, timeout)
    ensures path[6].task.code == CodeOf(GossipTick(timeout))[6..]
  {
    var c := CodeOf(GossipTick(timeout));
    ClockRead(self, path, lo, hi, c, timeout);
    Next(self, path, lo, hi, 3, c, 3);
    NextLock(self, path, lo, hi, 4, c, 4);
    NextLock(self, path, lo, hi, 5, c, 5);
  }

  lemma ClockRead(self: NodeId, path: seq<Moment>, lo: Instant, hi: Instant, c: seq<Instr>, timeout: nat)
    requires Alone(self, path, lo, hi) && Ends(path) && path[0].task == NewTask(c) && c == CodeOf(GossipTick(timeout))
    ensures |path| > 3 && lo <= path[0].clock <= hi && path[3].view == path[0].view
    ensures path[3].task.now == path[0].clock && path[3].task.code == c[3..]
  {
    assert c[0..] == c;
    Next(self, path, lo, hi, 0, c, 0);
    NextLock(self, path, lo, hi, 1, c, 1);
    NextLock(self, path, lo, hi, 2, c, 2);
  }

  lemma TickAlone(self: NodeId, path: seq<Moment>, lo: Instant, hi: Instant, timeout: nat) returns (now: Instant)
    requires Alone(self, path, lo, hi) && Ends(path) && path[0].task == NewTask(CodeOf(GossipTick(timeout)))
    ensures lo <= now <= hi
    ensures var v := path[0].view;
            path[|path| - 1].view ==
            View(Detect(v, self, now, timeout), v.beats, Purge(v.registry, Demoted(v, self, now, timeout)))
  {
    var c := CodeOf(GossipTick(timeout));
    JudgeAlone(self, path, lo, hi, timeout);
    assert c[6..] == [IfDown] + c[7..];
    TickEndAlone(self, path, lo, hi, 6, c[7..]);
    now := path[0].clock;
  }

  // ---------- In runs ----------

  /** Task `x` of node `n`, started at step `i`, is done at step `k` and no other task of the node moved in between. */
  ghost predicate RanAlone(run: seq<State>, labels: seq<Label>, i: nat, k: nat, n: NodeId, x: nat)
    requires IsRun(run, labels)
  {
    && i < k < |run| && n in run[i].nodes && x == |run[i].nodes[n].tasks| && OnlyMoves(labels, i + 1, k, n, x)
    && HasTask(run[k], n, x) && TaskOf(run[k], n, x).code == []
  }

  lemma RunAlone(run: seq<State>, labels: seq<Label>, i: nat, k: nat, n: NodeId, x: nat, code: seq<Instr>)
    returns (path: seq<Moment>)
    requires IsRun(run, labels) && RanAlone(run, labels, i, k, n, x) && Starts(run, labels, i, n, x, code)
    ensures Alone(n, path, run[i].clock, run[k].clock) && Ends(path)
    ensures path[0].view == run[i].nodes[n].view && path[0].task == NewTask(code)
    ensures path[|path| - 1].view == run[k].nodes[n].view
  {
    StartedTask(run, labels, i, n, x, code);
    assert run[i + 1] == Apply(run[i], labels[i]);
    path := AloneOf(run, labels, i + 1, k, n, x, run[i].clock, run[k].clock);
  }

  /** `add_member` alone: the record is replaced and its heartbeat is some moment of the operation. */
  lemma AddMemberAlone(run: seq<State>, labels: seq<Label>, i: nat, k: nat, n: NodeId, x: nat, node: Node)
    returns (now: Instant)
    requires IsRun(run, labels) && RanAlone(run, labels, i, k, n, x) && labels[i] == Start(n, AddMember(node))
    ensures run[i].clock <= now <= run[k].clock
    ensures var v := run[i].nodes[n].view;
            run[k].nodes[n].view == View(v.members[node.id := node], v.beats[node.id := now], v.registry)
  {
    var path := RunAlone(run, labels, i, k, n, x, CodeOf(AddMember(node)));
    now := AddAlone(n, path, run[i].clock, run[k].clock, node);
  }

  /** `register_actor` alone: the actor is located here. */
  lemma RegisterActorAlone(run: seq<State>, labels: seq<Label>, i: nat, k: nat, n: NodeId, x: nat, actor: ActorName,
                           kind: string)
    requires IsRun(run, labels) && RanAlone(run, labels, i, k, n, x)
    requires labels[i] == Start(n, RegisterActor(actor, kind))
    ensures var v := run[i].nodes[n].view;
            run[k].nodes[n].view == v.(registry := v.registry[actor := Location(n, kind)])
  {
    var path := RunAlone(run, labels, i, k, n, x, CodeOf(RegisterActor(actor, kind)));
    RegisterAlone(n, path, run[i].clock, run[k].clock, actor, kind);
  }

  /** A message received alone: members and registry are merged, and only the sender's heartbeat is renewed. */
  lemma MergeAlone(run: seq<State>, labels: seq<Label>, i: nat, k: nat, n: NodeId, x: nat, m: Message, answer: bool)
    returns (now: Instant)
    requires IsRun(run, labels) && RanAlone(run, labels, i, k, n, x) && labels[i] == Receive(n, m, answer)
    ensures run[i].clock <= now <= run[k].clock
    ensures var v := run[i].nodes[n].view;
            run[k].nodes[n].view == View(MergeInfos(v.members, m.gossip.members), v.beats[m.sender := now],
                                         MergeActors(v.registry, m.gossip.actors))
  {
    var path := RunAlone(run, labels, i, k, n, x, ReceiveCode(m, answer));
    now := ReceiveAlone(n, path, run[i].clock, run[k].clock, m, answer);
  }

  /** A tick alone: everyone is judged by one reading of the clock, and the actors of those it demoted are removed. */
  lemma GossipTickAlone(run: seq<State>, labels: seq<Label>, i: nat, k: nat, n: NodeId, x: nat, timeout: nat)
    returns (now: Instant)
    requires IsRun(run, labels) && RanAlone(run, labels, i, k, n, x) && labels[i] == Start(n, GossipTick(timeout))
    ensures run[i].clock <= now <= run[k].clock
    ensures var v := run[i].nodes[n].view;
            run[k].nodes[n].view ==
            View(Detect(v, n, now, timeout), v.beats, Purge(v.registry, Demoted(v, n, now, timeout)))
  {
    var path := RunAlone(run, labels, i, k, n, x, CodeOf(GossipTick(timeout)));
    now := TickAlone(n, path, run[i].clock, run[k].clock, timeout);
  }

  /** A node that joins knows itself as Up, with a heartbeat of that moment, and no actors. */
  lemma JoinIs(run: seq<State>, labels: seq<Label>, k: nat, id: NodeId, addr: string)
    requires IsRun(run, labels) && k < |labels| && labels[k] == Join(id, addr)
    ensures id in run[k + 1].nodes
    ensures run[k + 1].nodes[id].view == View(map[id := Node(id, addr, Up)], map[id := run[k].clock], map[])
  {
  }
}
