/** Single tasks followed through a run in which everything else goes on: where sends go, and what heartbeats say. */
module ClusterTasks {
  import opened Basics
  import opened Membership
  import opened ClusterMachine
  import opened ClusterTheorems

  // ---------- One task ----------

  ghost predicate HasTask(s: State, n: NodeId, x: nat) {
    n in s.nodes && x < |s.nodes[n].tasks|
  }

  ghost function TaskOf(s: State, n: NodeId, x: nat): Task
    requires HasTask(s, n, x)
  {
    s.nodes[n].tasks[x]
  }

  /** The step is task `x` of node `n` doing its next instruction. */
  predicate Moves(l: Label, n: NodeId, x: nat) {
    l == Grant(n, x) || (l.Run? && l.n == n && l.i == x)
  }

  /** A step moves task `x` of node `n` on by one instruction, or leaves it as it is. */
  lemma TaskStep(s: State, l: Label, n: NodeId, x: nat)
    requires Enabled(s, l) && HasTask(s, n, x)
    ensures HasTask(Apply(s, l), n, x)
    ensures var t, t' := TaskOf(s, n, x), TaskOf(Apply(s, l), n, x);
            if l == Grant(n, x) then
              t.code != [] && t.code[0].Acquire? && t' == t.(code := t.code[1..], held := HeldAfter(t.code[0], t.held))
            else if Moves(l, n, x) then
              && t.code != [] && !t.code[0].Acquire? && ChoiceOk(n, s.nodes[n].view, t.code[0], l.c)
              && t' == TaskAfter(n, s.nodes[n].view, s.clock, t, l.c)
            else t' == t
  {
  }

  /** Step `j` is task `x` of node `n` doing `instr`. */
  ghost predicate Performs(run: seq<State>, labels: seq<Label>, j: nat, n: NodeId, x: nat, instr: Instr)
    requires IsRun(run, labels)
  {
    && j < |labels| && Moves(labels[j], n, x) && HasTask(run[j], n, x)
    && TaskOf(run[j], n, x).code != [] && TaskOf(run[j], n, x).code[0] == instr
  }

  /** The step starts a task with this code, as the last of node `n`. */
  ghost predicate Starts(run: seq<State>, labels: seq<Label>, i: nat, n: NodeId, x: nat, code: seq<Instr>)
    requires IsRun(run, labels)
  {
    && i < |labels| && n in run[i].nodes && x == |run[i].nodes[n].tasks|
    && match labels[i]
       case Start(m, op) => m == n && code == CodeOf(op)
       case Receive(m, msg, answer) => m == n && code == ReceiveCode(msg, answer)
       case _ => false
  }

  lemma StartedTask(run: seq<State>, labels: seq<Label>, i: nat, n: NodeId, x: nat, code: seq<Instr>)
    requires IsRun(run, labels) && Starts(run, labels, i, n, x, code)
    ensures HasTask(run[i + 1], n, x) && TaskOf(run[i + 1], n, x) == NewTask(code)
  {
    assert run[i + 1] == Apply(run[i], labels[i]);
  }

  // ---------- Sends ----------

  function Lookup(v: View, a: ActorName): Option<Location> {
    if a in v.registry then Some(v.registry[a]) else None
  }

  /** What is left of a send: 0 to 3 up to the branch, 4 nothing found, 5 to 8 the search for the host, 9 done. */
  function SendCode(a: ActorName, p: nat): seq<Instr>
    requires p <= 9
  {
    if p <= 4 then CodeOf(SendToActor(a))[p..] else HostCode()[p - 5..]
  }

  lemma SendCodeIs(a: ActorName, p: nat)
    requires p <= 9
    ensures SendCode(a, p) ==
            (match p
             case 0 => [Acquire(RegistryLock, Read), FindActor(a), Release(RegistryLock), IfFound]
             case 1 => [FindActor(a), Release(RegistryLock), IfFound]
             case 2 => [Release(RegistryLock), IfFound]
             case 3 => [IfFound]
             case 5 => [Acquire(MembersLock, Read), CopyMembers, Release(MembersLock), FindHost]
             case 6 => [CopyMembers, Release(MembersLock), FindHost]
             case 7 => [Release(MembersLock), FindHost]
             case 8 => [FindHost]
             case _ => [])
  {
  }

  /** A send at position `p`, with what it looked up in `found` and copied from `members`. */
  ghost predicate SendIs(t: Task, a: ActorName, p: nat, found: View, copied: View) {
    && p <= 9 && t.code == SendCode(a, p)
    && (p >= 2 ==> t.hit == Lookup(found, a)) && (p == 4 ==> t.hit.None?) && (p >= 5 ==> t.hit.Some?)
    && (p >= 7 ==> ListsMembers(t.infos, copied.members))
    && t.outcome == if p == 4 then ActorNotFound
                    else if p == 9 && t.hit.Some? then FindInfo(t.infos, t.hit.value.node) else Unknown
  }

  function SendNext(p: nat, hit: bool): nat {
    if p == 3 && hit then 5 else p + 1
  }

  /** One instruction of a send, done in view `v`. */
  lemma SendMoves(self: NodeId, v: View, clock: Instant, t: Task, t': Task, c: Choice, a: ActorName, p: nat,
                  found: View, copied: View)
    requires SendIs(t, a, p, found, copied) && t.code != []
    requires if t.code[0].Acquire? then t' == t.(code := t.code[1..], held := HeldAfter(t.code[0], t.held))
             else ChoiceOk(self, v, t.code[0], c) && t' == TaskAfter(self, v, clock, t, c)
    ensures var p' := SendNext(p, t.hit.Some?);
            SendIs(t', a, p', if t.code[0].FindActor? then v else found, if t.code[0].CopyMembers? then v else copied)
    ensures p == 1 <==> t.code[0] == FindActor(a)
    ensures p == 6 <==> t.code[0] == CopyMembers
  {
    SendCodeIs(a, p);
    SendCodeIs(a, if p < 9 then p + 1 else p);
    SendCodeIs(a, 5);
  }

  /** The view in which step `f` was done. */
  ghost function ViewAt(run: seq<State>, f: nat, n: NodeId): View {
    if f < |run| && n in run[f].nodes then run[f].nodes[n].view else View(map[], map[], map[])
  }

  /** Where a send is at step `k`, and at which steps it looked up the actor and copied the members. */
  ghost predicate SendAt(run: seq<State>, labels: seq<Label>, i: nat, k: nat, n: NodeId, x: nat, a: ActorName,
                         p: nat, f: nat, c: nat)
    requires IsRun(run, labels)
  {
    && i < k < |run| && HasTask(run[k], n, x)
    && SendIs(TaskOf(run[k], n, x), a, p, ViewAt(run, f, n), ViewAt(run, c, n))
    && (p >= 2 ==> i < f < k && Performs(run, labels, f, n, x, FindActor(a)))
    && (p >= 7 ==> f < c < k && Performs(run, labels, c, n, x, CopyMembers))
  }

  lemma {:induction false} SendProgress(
    run: seq<State>, labels: seq<Label>, i: nat, k: nat, n: NodeId, x: nat, a: ActorName)
    returns (p: nat, f: nat, c: nat)
    requires IsRun(run, labels) && Starts(run, labels, i, n, x, CodeOf(SendToActor(a))) && i < k < |run|
    ensures SendAt(run, labels, i, k, n, x, a, p, f, c)
  {
    if k == i + 1 {
      StartedTask(run, labels, i, n, x, CodeOf(SendToActor(a)));
      SendCodeIs(a, 0);
      p, f, c := 0, 0, 0;
    } else {
      p, f, c := SendProgress(run, labels, i, k - 1, n, x, a);
      p, f, c := SendStep(run, labels, i, k - 1, n, x, a, p, f, c);
    }
  }

  lemma SendStep(run: seq<State>, labels: seq<Label>, i: nat, j: nat, n: NodeId, x: nat, a: ActorName,
                 p: nat, f: nat, c: nat) returns (p': nat, f': nat, c': nat)
    requires IsRun(run, labels) && j < |labels| && SendAt(run, labels, i, j, n, x, a, p, f, c)
    ensures SendAt(run, labels, i, j + 1, n, x, a, p', f', c')
  {
    p', f', c' := p, f, c;
    TaskStep(run[j], labels[j], n, x);
    assert run[j + 1] == Apply(run[j], labels[j]);
    if Moves(labels[j], n, x) {
      p' := SendMoved(run, labels, j, n, x, a, p, ViewAt(run, f, n), ViewAt(run, c, n));
      f' := if p == 1 then j else f;
      c' := if p == 6 then j else c;
    }
  }

  lemma SendMoved(run: seq<State>, labels: seq<Label>, j: nat, n: NodeId, x: nat, a: ActorName, p: nat,
                  found: View, copied: View) returns (p': nat)
    requires IsRun(run, labels) && j < |labels| && Moves(labels[j], n, x) && HasTask(run[j], n, x)
    requires SendIs(TaskOf(run[j], n, x), a, p, found, copied)
    ensures HasTask(run[j + 1], n, x) && p < p' && (p < 2 ==> p' == p + 1) && (5 <= p < 7 ==> p' == p + 1)
    ensures p < 5 ==> p' <= 5
    ensures SendIs(TaskOf(run[j + 1], n, x), a, p', if p == 1 then ViewAt(run, j, n) else found,
                   if p == 6 then ViewAt(run, j, n) else copied)
    ensures p == 1 ==> Performs(run, labels, j, n, x, FindActor(a))
    ensures p == 6 ==> Performs(run, labels, j, n, x, CopyMembers)
  {
    TaskStep(run[j], labels[j], n, x);
    assert run[j + 1] == Apply(run[j], labels[j]);
    var t, t' := TaskOf(run[j], n, x), TaskOf(run[j + 1], n, x);
    var choice := if labels[j].Run? then labels[j].c else Choice([], [], None);
    SendMoves(n, ViewAt(run, j, n), run[j].clock, t, t', choice, a, p, found, copied);
    p' := SendNext(p, t.hit.Some?);
    if p == 1 || p == 6 {
      SendCodeIs(a, p);
    }
  }

  lemma FoundInListing(infos: seq<NodeInfo>, ms: Members, id: NodeId)
    requires ListsMembers(infos, ms) && FindInfo(infos, id) != NodeNotFound
    ensures id in ms && FindInfo(infos, id) == RouteTo(ms[id].addr)
  {
  }

  /**
   Every send to an actor that has come to its end, whatever went on meanwhile: it is told the actor was not found
   exactly if the actor was not in the registry when it looked; otherwise it goes to the address under which its node
   had filed the actor's host when it copied the members.
   */
  lemma EverySendIsRouted(run: seq<State>, labels: seq<Label>, i: nat, k: nat, n: NodeId, a: ActorName)
    returns (f: nat, c: nat)
    requires IsRun(run, labels) && i < k < |run| && labels[i] == Start(n, SendToActor(a)) && n in run[i].nodes
    requires var x := |run[i].nodes[n].tasks|; HasTask(run[k], n, x) && TaskOf(run[k], n, x).code == []
    ensures var x := |run[i].nodes[n].tasks|;
            var outcome := TaskOf(run[k], n, x).outcome;
            && i < f < k && Performs(run, labels, f, n, x, FindActor(a))
            && (outcome == ActorNotFound <==> a !in run[f].nodes[n].view.registry)
            && (a in run[f].nodes[n].view.registry ==>
                  && f < c < k && Performs(run, labels, c, n, x, CopyMembers)
                  && var host, ms := run[f].nodes[n].view.registry[a].node, run[c].nodes[n].view.members;
                     host in ms && outcome == RouteTo(ms[host].addr))
  {
    var x := |run[i].nodes[n].tasks|;
    var p;
    p, f, c := SendProgress(run, labels, i, k, n, x, a);
    SendCodeIs(a, p);
    NoSendMissesItsNode(run, labels, k, n, x);
    if p == 9 {
      var t := TaskOf(run[k], n, x);
      FoundInListing(t.infos, run[c].nodes[n].view.members, t.hit.value.node);
    }
  }

  // ---------- Straight-line tasks ----------

  predicate Straight(code: seq<Instr>) {
    forall q :: 0 <= q < |code| ==> Branch(code[q]) == []
  }

  /** Task `x` has done the first instructions of its code, at these steps, one after the other. */
  ghost predicate DoneAt(run: seq<State>, labels: seq<Label>, i: nat, k: nat, n: NodeId, x: nat, code: seq<Instr>,
                         steps: seq<nat>)
    requires IsRun(run, labels)
  {
    && i < k < |run| && HasTask(run[k], n, x) && |steps| <= |code| && TaskOf(run[k], n, x).code == code[|steps|..]
    && (forall q :: 0 <= q < |steps| ==> i < steps[q] < k && Performs(run, labels, steps[q], n, x, code[q]))
    && (forall q, r :: 0 <= q < r < |steps| ==> steps[q] < steps[r])
  }

  lemma {:induction false} Progress(
    run: seq<State>, labels: seq<Label>, i: nat, k: nat, n: NodeId, x: nat, code: seq<Instr>)
    returns (steps: seq<nat>)
    requires IsRun(run, labels) && Starts(run, labels, i, n, x, code) && Straight(code) && i < k < |run|
    ensures DoneAt(run, labels, i, k, n, x, code, steps)
  {
    if k == i + 1 {
      StartedTask(run, labels, i, n, x, code);
      steps := [];
    } else {
      var before := Progress(run, labels, i, k - 1, n, x, code);
      steps := ProgressStep(run, labels, i, k - 1, n, x, code, before);
    }
  }

  lemma ProgressStep(run: seq<State>, labels: seq<Label>, i: nat, j: nat, n: NodeId, x: nat, code: seq<Instr>,
                     before: seq<nat>) returns (steps: seq<nat>)
    requires IsRun(run, labels) && Straight(code) && j < |labels| && DoneAt(run, labels, i, j, n, x, code, before)
    ensures DoneAt(run, labels, i, j + 1, n, x, code, steps)
  {
    TaskStep(run[j], labels[j], n, x);
    steps := before;
    if Moves(labels[j], n, x) {
      var t := TaskOf(run[j], n, x);
      assert t.code[0] == code[|before|] && t.code[1..] == code[|before| + 1..];
      NextCode(n, run[j].nodes[n].view, run[j].clock, t, if labels[j].Run? then labels[j].c else Choice([], [], None));
      steps := before + [j];
    }
  }

  lemma NextCode(n: NodeId, v: View, clock: Instant, t: Task, c: Choice)
    requires t.code != [] && Branch(t.code[0]) == []
    ensures TaskAfter(n, v, clock, t, c).code == t.code[1..]
  {
  }

  // ---------- Heartbeats ----------

  lemma ClockGrows(run: seq<State>, labels: seq<Label>, j: nat, k: nat)
    requires IsRun(run, labels) && j <= k < |run|
    ensures run[j].clock <= run[k].clock
    decreases k - j
  {
    if j < k {
      assert run[j + 1] == Apply(run[j], labels[j]);
      ClockGrows(run, labels, j + 1, k);
    }
  }

  /** A heartbeat once recorded is there at every later time, and only ever replaced by a later one. */
  lemma {:induction false} BeatsStay(run: seq<State>, labels: seq<Label>, j: nat, k: nat, n: NodeId, id: NodeId,
                                     at: Instant)
    requires IsRun(run, labels) && j <= k < |run| && at <= run[j].clock
    requires n in run[j].nodes && id in run[j].nodes[n].view.beats && run[j].nodes[n].view.beats[id] >= at
    ensures n in run[k].nodes && id in run[k].nodes[n].view.beats && run[k].nodes[n].view.beats[id] >= at
    decreases k - j
  {
    if j < k {
      assert run[j + 1] == Apply(run[j], labels[j]);
      BeatsStay(run, labels, j + 1, k, n, id, at);
    }
  }

  /** The code records a heartbeat of `id`, after taking the lock for it. */
  predicate BeatsIn(code: seq<Instr>, lock: nat, beat: nat, id: NodeId) {
    lock < beat < |code| && code[lock] == Acquire(BeatsLock, Write) && code[beat] == Beat(id)
  }

  lemma FinishedTaskBeats(run: seq<State>, labels: seq<Label>, i: nat, k: nat, n: NodeId, x: nat, code: seq<Instr>,
                          lock: nat, beat: nat, id: NodeId) returns (g: nat)
    requires IsRun(run, labels) && Starts(run, labels, i, n, x, code) && Straight(code) && BeatsIn(code, lock, beat, id)
    requires i < k < |run| && HasTask(run[k], n, x) && TaskOf(run[k], n, x).code == []
    ensures i < g < k && Performs(run, labels, g, n, x, Acquire(BeatsLock, Write))
    ensures n in run[k].nodes && id in run[k].nodes[n].view.beats && run[k].nodes[n].view.beats[id] >= run[g].clock
  {
    var steps := Progress(run, labels, i, k, n, x, code);
    var b := steps[beat];
    g := steps[lock];
    BeatRecords(run, labels, b, n, x, id);
    ClockGrows(run, labels, g, b);
    assert run[b + 1].clock == run[b].clock;
    BeatsStay(run, labels, b + 1, k, n, id, run[g].clock);
  }

  lemma BeatRecords(run: seq<State>, labels: seq<Label>, b: nat, n: NodeId, x: nat, id: NodeId)
    requires IsRun(run, labels) && Performs(run, labels, b, n, x, Beat(id))
    ensures run[b + 1].clock == run[b].clock && n in run[b + 1].nodes
    ensures id in run[b + 1].nodes[n].view.beats && run[b + 1].nodes[n].view.beats[id] == run[b].clock
  {
    assert run[b + 1] == Apply(run[b], labels[b]);
  }

  /** The operation is an `add_member` of `id` or a merge of a message from it. */
  predicate HearsOf(l: Label, id: NodeId) {
    match l
    case Start(_, op) => op.AddMember? && op.node.id == id
    case Receive(_, m, _) => m.sender == id
    case _ => false
  }

  /**
   Once a node has finished adding `id` or merging a message from it, it has a heartbeat of `id` at every later time,
   and one not older than the moment that operation took the lock for it.
   */
  lemma EveryHeartbeatIsKept(run: seq<State>, labels: seq<Label>, i: nat, k: nat, m: nat, n: NodeId, x: nat, id: NodeId)
    returns (g: nat)
    requires IsRun(run, labels) && i < k <= m < |run| && HearsOf(labels[i], id)
    requires labels[i].n == n && n in run[i].nodes && x == |run[i].nodes[n].tasks|
    requires HasTask(run[k], n, x) && TaskOf(run[k], n, x).code == []
    ensures i < g < k && Performs(run, labels, g, n, x, Acquire(BeatsLock, Write))
    ensures n in run[m].nodes && id in run[m].nodes[n].view.beats && run[m].nodes[n].view.beats[id] >= run[g].clock
  {
    if labels[i].Start? {
      g := FinishedTaskBeats(run, labels, i, k, n, x, CodeOf(labels[i].op), 2, 3, id);
    } else {
      var msg, answer := labels[i].m, labels[i].answer;
      ReceiveIsStraight(msg, answer);
      g := FinishedTaskBeats(run, labels, i, k, n, x, ReceiveCode(msg, answer), 1, 3, id);
    }
    ClockGrows(run, labels, g, k);
    BeatsStay(run, labels, k, m, n, id, run[g].clock);
  }

  lemma ReceiveIsStraight(m: Message, answer: bool)
    ensures Straight(ReceiveCode(m, answer)) && BeatsIn(ReceiveCode(m, answer), 1, 3, m.sender)
  {
    var a, b := MergeCode(m), if answer then GossipCode() else [];
    assert ReceiveCode(m, answer) == a + b;
    assert forall q :: 0 <= q < |a| ==> Branch(a[q]) == [];
    assert forall q :: 0 <= q < |b| ==> Branch(b[q]) == [];
  }

  /** Every heartbeat is the clock of a step at which the node recorded it, or joined and recorded its own. */
  lemma {:induction false} EveryHeartbeatHasACause(run: seq<State>, labels: seq<Label>, k: nat, n: NodeId, id: NodeId)
    returns (j: nat)
    requires IsRun(run, labels) && k < |run| && n in run[k].nodes && id in run[k].nodes[n].view.beats
    ensures j < k && run[k].nodes[n].view.beats[id] == run[j].clock
    ensures Executes(run, labels, j, n, Beat(id)) || (id == n && labels[j].Join? && labels[j].id == n)
  {
    assert k > 0;
    assert run[k] == Apply(run[k - 1], labels[k - 1]);
    var s, l := run[k - 1], labels[k - 1];
    if n in s.nodes && id in s.nodes[n].view.beats && s.nodes[n].view.beats[id] == run[k].nodes[n].view.beats[id] {
      j := EveryHeartbeatHasACause(run, labels, k - 1, n, id);
    } else {
      j := k - 1;
    }
  }
}
