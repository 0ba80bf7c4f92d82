/** Lock discipline on one node: mutual exclusion, freedom from deadlock and completion of all tasks. */
module ClusterLocks {
  import opened Basics
  import opened Membership
  import opened ClusterMachine

  // ---------- Discipline: what the code of a task promises about locks ----------

  /** The instruction touches only what is locked, and locks are asked for in rank order. */
  predicate Allowed(i: Instr, held: Held, stage: Stage) {
    match i
    case Acquire(l, _) => forall h: Lock :: held.On(h) != Free ==> Rank(h) < Rank(l)
    case Release(l) => held.On(l) != Free
    case PutMember(_) => held.members == Writing
    case TakeInfos(_) => held.members == Writing
    case Beat(_) => held.beats == Writing
    case PutActor(_, _) => held.registry == Writing
    case TakeLocations(_) => held.registry == Writing
    case CopyMembers => held.members != Free
    case CopyActors => held.registry != Free && stage == Fresh
    case Post => held == NOTHING && stage == Paired
    case ReadClock => true
    case JudgeAll(_) => held.members == Writing && held.beats != Free
    case IfDown => held == NOTHING
    case PurgeDown => held.registry == Writing
    case PickPeer => held.members != Free
    case IfPeer => held == NOTHING
    case FindActor(_) => held.registry != Free && stage == Blank
    case IfFound => held == NOTHING && stage == Blank
    case FindHost => stage == Stale
  }

  function BranchStage(i: Instr, stage: Stage): Stage {
    match i
    case IfPeer => Paired
    case IfFound => Stale
    case _ => stage
  }

  /** Code that keeps the discipline to its end, conditional parts included, and ends holding nothing. */
  predicate Disciplined(code: seq<Instr>, held: Held, stage: Stage) {
    if code == [] then held == NOTHING
    else
      && Allowed(code[0], held, stage)
      && Disciplined(code[1..], HeldAfter(code[0], held), StageAfter(code[0], stage))
      && (Branch(code[0]) != [] ==> Disciplined(code[1..], held, BranchStage(code[0], stage)))
  }

  lemma Prepend(i: Instr, rest: seq<Instr>, held: Held, stage: Stage)
    requires Allowed(i, held, stage)
    requires Disciplined(rest, HeldAfter(i, held), StageAfter(i, stage))
    requires Branch(i) != [] ==> Disciplined(rest, held, BranchStage(i, stage))
    ensures Disciplined([i] + rest, held, stage)
  {
    assert ([i] + rest)[1..] == rest;
  }

  /** The rest of `code` from `k` on is straight-line, keeps the discipline and leads from one lock state to another. */
  predicate Leads(code: seq<Instr>, k: nat, held: Held, stage: Stage, held': Held, stage': Stage)
    requires k <= |code|
    decreases |code| - k
  {
    if k == |code| then held == held' && stage == stage'
    else
      && Branch(code[k]) == []
      && Allowed(code[k], held, stage)
      && Leads(code, k + 1, HeldAfter(code[k], held), StageAfter(code[k], stage), held', stage')
  }

  lemma {:induction false} LeadsThen(code: seq<Instr>, k: nat, held: Held, stage: Stage, held': Held, stage': Stage,
                                     rest: seq<Instr>)
    requires k <= |code| && Leads(code, k, held, stage, held', stage')
    requires Disciplined(rest, held', stage')
    ensures Disciplined(code[k..] + rest, held, stage)
    decreases |code| - k
  {
    if k == |code| {
      assert code[k..] + rest == rest;
    } else {
      LeadsThen(code, k + 1, HeldAfter(code[k], held), StageAfter(code[k], stage), held', stage', rest);
      assert (code[k..] + rest)[1..] == code[k + 1..] + rest;
    }
  }

  lemma MergeLeads(m: Message)
    ensures Leads(MergeCode(m), 0, NOTHING, Blank, NOTHING, Blank)
  {
    var c := MergeCode(m);
    assert Leads(c, 7, Held(Writing, Writing, Free), Blank, NOTHING, Blank);
    assert Leads(c, 5, Held(Writing, Writing, Writing), Blank, NOTHING, Blank);
    assert Leads(c, 3, Held(Writing, Writing, Free), Blank, NOTHING, Blank);
    assert Leads(c, 1, Held(Writing, Free, Free), Blank, NOTHING, Blank);
  }

  lemma GossipLeads(stage: Stage)
    ensures Leads(GossipCode(), 0, NOTHING, stage, NOTHING, Paired)
  {
    var c := GossipCode();
    assert Leads(c, 5, Held(Reading, Free, Free), Paired, NOTHING, Paired);
    assert Leads(c, 3, Held(Reading, Free, Reading), Fresh, NOTHING, Paired);
    assert Leads(c, 1, Held(Reading, Free, Free), stage, NOTHING, Paired);
  }

  /** What a conditional continues with keeps the discipline, so taking it does too. */
  lemma BranchDisciplined(i: Instr, rest: seq<Instr>, held: Held, stage: Stage)
    requires Branch(i) != [] && Allowed(i, held, stage)
    requires Disciplined(rest, held, BranchStage(i, stage))
    ensures Disciplined(Branch(i) + rest, held, stage)
  {
    var c := Branch(i);
    BranchLeads(i, stage);
    LeadsThen(c, 0, held, stage, NOTHING, BranchStage(i, stage), rest);
    assert c[0..] == c;
  }

  lemma BranchLeads(i: Instr, stage: Stage)
    requires Branch(i) != []
    ensures Leads(Branch(i), 0, NOTHING, stage, NOTHING, BranchStage(i, stage))
  {
    if i.IfPeer? {
      GossipLeads(stage);
    } else if i.IfFound? {
      assert Leads(HostCode(), 2, Held(Reading, Free, Free), Fresh, NOTHING, Stale);
    } else {
      assert Leads(PurgeCode(), 1, Held(Free, Free, Writing), stage, NOTHING, stage);
    }
  }

  lemma TickDisciplined(timeout: nat)
    ensures Disciplined(CodeOf(GossipTick(timeout)), NOTHING, Blank)
  {
    var front := [ReadClock, Acquire(MembersLock, Write), Acquire(BeatsLock, Read), JudgeAll(timeout),
                  Release(BeatsLock), Release(MembersLock)];
    var draw := [Acquire(MembersLock, Read), PickPeer, Release(MembersLock)];
    TickFrontLeads(timeout, front);
    DrawDisciplined(draw);
    assert front[0..] == front;
    Prepend(IfDown, draw + [IfPeer], NOTHING, Blank);
    LeadsThen(front, 0, NOTHING, Blank, NOTHING, Blank, [IfDown] + (draw + [IfPeer]));
    assert front + ([IfDown] + (draw + [IfPeer])) == CodeOf(GossipTick(timeout));
  }

  lemma DrawDisciplined(draw: seq<Instr>)
    requires draw == [Acquire(MembersLock, Read), PickPeer, Release(MembersLock)]
    ensures Disciplined(draw + [IfPeer], NOTHING, Blank)
  {
    assert Leads(draw, 1, Held(Reading, Free, Free), Blank, NOTHING, Blank);
    Prepend(IfPeer, [], NOTHING, Blank);
    LeadsThen(draw, 0, NOTHING, Blank, NOTHING, Blank, [IfPeer]);
    assert draw[0..] == draw;
  }

  lemma TickFrontLeads(timeout: nat, front: seq<Instr>)
    requires front == [ReadClock, Acquire(MembersLock, Write), Acquire(BeatsLock, Read), JudgeAll(timeout),
                       Release(BeatsLock), Release(MembersLock)]
    ensures Leads(front, 0, NOTHING, Blank, NOTHING, Blank)
  {
    assert Leads(front, 4, Held(Writing, Reading, Free), Blank, NOTHING, Blank);
    assert Leads(front, 2, Held(Writing, Free, Free), Blank, NOTHING, Blank);
  }

  lemma AddDisciplined(node: Node)
    ensures Disciplined(CodeOf(AddMember(node)), NOTHING, Blank)
  {
    var c := CodeOf(AddMember(node));
    assert Leads(c, 4, Held(Writing, Writing, Free), Blank, NOTHING, Blank);
    assert Leads(c, 2, Held(Writing, Free, Free), Blank, NOTHING, Blank);
    Closing(c);
  }

  lemma RegisterDisciplined(actor: ActorName, kind: string)
    ensures Disciplined(CodeOf(RegisterActor(actor, kind)), NOTHING, Blank)
  {
    var c := CodeOf(RegisterActor(actor, kind));
    assert Leads(c, 1, Held(Free, Free, Writing), Blank, NOTHING, Blank);
    Closing(c);
  }

  lemma LookupDisciplined(actor: ActorName)
    ensures Disciplined(CodeOf(SendToActor(actor)), NOTHING, Blank)
  {
    var front := [Acquire(RegistryLock, Read), FindActor(actor), Release(RegistryLock)];
    assert Leads(front, 1, Held(Free, Free, Reading), Blank, NOTHING, Blank);
    Prepend(IfFound, [], NOTHING, Blank);
    LeadsThen(front, 0, NOTHING, Blank, NOTHING, Blank, [IfFound]);
    assert front[0..] + [IfFound] == CodeOf(SendToActor(actor));
  }

  lemma GossipDisciplined()
    ensures Disciplined(GossipCode(), NOTHING, Blank)
  {
    var c := GossipCode();
    GossipLeads(Blank);
    LeadsThen(c, 0, NOTHING, Blank, NOTHING, Paired, []);
    assert c[0..] + [] == c;
  }

  /** Every operation's code keeps the discipline from the start. */
  lemma CodeDisciplined(op: Operation)
    ensures Disciplined(CodeOf(op), NOTHING, Blank)
  {
    match op
    case AddMember(node) => AddDisciplined(node);
    case RegisterActor(actor, kind) => RegisterDisciplined(actor, kind);
    case SendToActor(actor) => LookupDisciplined(actor);
    case SendGossip => GossipDisciplined();
    case GossipTick(timeout) => TickDisciplined(timeout);
  }

  lemma Closing(c: seq<Instr>)
    requires Leads(c, 0, NOTHING, Blank, NOTHING, Blank)
    ensures Disciplined(c, NOTHING, Blank)
  {
    LeadsThen(c, 0, NOTHING, Blank, NOTHING, Blank, []);
    assert c[0..] + [] == c;
  }

  lemma ReceiveDisciplined(m: Message, answer: bool)
    ensures Disciplined(ReceiveCode(m, answer), NOTHING, Blank)
  {
    var reply := if answer then GossipCode() else [];
    if answer {
      CodeDisciplined(SendGossip);
    }
    MergeLeads(m);
    LeadsThen(MergeCode(m), 0, NOTHING, Blank, NOTHING, Blank, reply);
    assert MergeCode(m)[0..] == MergeCode(m);
  }

  // ---------- Mutual exclusion ----------

  predicate Exclusive(tasks: seq<Task>) {
    forall i, j, l: Lock :: 0 <= i < |tasks| && 0 <= j < |tasks| && i != j && tasks[i].held.On(l) == Writing ==>
      tasks[j].held.On(l) == Free
  }

  predicate AllDisciplined(tasks: seq<Task>) {
    forall i :: 0 <= i < |tasks| ==> Disciplined(tasks[i].code, tasks[i].held, tasks[i].stage)
  }

  predicate Queued(ns: NodeState) {
    && (forall p :: 0 <= p < |ns.waiting| ==> NextIsAcquire(ns, ns.waiting[p]))
    && (forall p, q :: 0 <= p < q < |ns.waiting| ==> ns.waiting[p] != ns.waiting[q])
  }

  predicate LockInv(ns: NodeState) {
    AllDisciplined(ns.tasks) && Exclusive(ns.tasks) && Queued(ns)
  }

  lemma {:induction false} WithoutMembers(s: seq<nat>, x: nat, y: nat)
    requires forall p, q :: 0 <= p < q < |s| ==> s[p] != s[q]
    ensures y in Without(s, x) <==> y in s && y != x
  {
    if s != [] {
      assert y in s <==> y == s[0] || y in s[1..];
      if s[0] != x {
        WithoutMembers(s[1..], x, y);
        assert y in Without(s, x) <==> y == s[0] || y in Without(s[1..], x);
      }
    }
  }

  lemma {:induction false} WithoutDistinct(s: seq<nat>, x: nat)
    requires forall p, q :: 0 <= p < q < |s| ==> s[p] != s[q]
    ensures forall p, q :: 0 <= p < q < |Without(s, x)| ==> Without(s, x)[p] != Without(s, x)[q]
    ensures |Without(s, x)| == |s| - (if x in s then 1 else 0)
  {
    if s != [] && s[0] != x {
      var t := Without(s[1..], x);
      WithoutDistinct(s[1..], x);
      assert x in s <==> x in s[1..];
      forall p | 0 <= p < |t|
        ensures t[p] != s[0]
      {
        assert t[p] in t;
        WithoutMembers(s[1..], x, t[p]);
      }
    }
  }

  lemma WithoutIs(s: seq<nat>, x: nat)
    requires forall p, q :: 0 <= p < q < |s| ==> s[p] != s[q]
    ensures forall y :: y in Without(s, x) <==> y in s && y != x
    ensures forall p, q :: 0 <= p < q < |Without(s, x)| ==> Without(s, x)[p] != Without(s, x)[q]
    ensures |Without(s, x)| == |s| - (if x in s then 1 else 0)
  {
    WithoutDistinct(s, x);
    forall y
      ensures y in Without(s, x) <==> y in s && y != x
    {
      WithoutMembers(s, x, y);
    }
  }

  lemma StartedKeepsLocks(ns: NodeState, code: seq<Instr>)
    requires LockInv(ns) && Disciplined(code, NOTHING, Blank)
    ensures LockInv(Started(ns, code))
  {
    var ns' := Started(ns, code);
    forall p | 0 <= p < |ns'.waiting|
      ensures NextIsAcquire(ns', ns'.waiting[p])
    {
      assert NextIsAcquire(ns, ns.waiting[p]);
    }
  }

  lemma RequestedKeepsLocks(ns: NodeState, i: nat)
    requires LockInv(ns) && CanRequest(ns, i)
    ensures LockInv(Requested(ns, i))
  {
    var ns' := Requested(ns, i);
    forall p | 0 <= p < |ns'.waiting|
      ensures NextIsAcquire(ns', ns'.waiting[p])
    {
      assert p < |ns.waiting| ==> NextIsAcquire(ns, ns.waiting[p]);
    }
  }

  lemma GrantedKeepsLocks(ns: NodeState, i: nat)
    requires LockInv(ns) && CanGrant(ns, i)
    ensures LockInv(Granted(ns, i))
  {
    var ns' := Granted(ns, i);
    var lock := ns.tasks[i].code[0].lock;
    WithoutIs(ns.waiting, i);
    assert ns'.tasks[i].stage == StageAfter(ns.tasks[i].code[0], ns.tasks[i].stage);
    forall p | 0 <= p < |ns'.waiting|
      ensures NextIsAcquire(ns', ns'.waiting[p])
    {
      assert ns'.waiting[p] in ns'.waiting;
      var q :| 0 <= q < |ns.waiting| && ns.waiting[q] == ns'.waiting[p];
      assert NextIsAcquire(ns, ns.waiting[q]);
    }
    forall j, k, l: Lock | 0 <= j < |ns'.tasks| && 0 <= k < |ns'.tasks| && j != k && ns'.tasks[j].held.On(l) == Writing
      ensures ns'.tasks[k].held.On(l) == Free
    {
      if l != lock {
        assert ns'.tasks[j].held.On(l) == ns.tasks[j].held.On(l);
        assert ns'.tasks[k].held.On(l) == ns.tasks[k].held.On(l);
      }
    }
  }

  /** Running an instruction changes locks only by giving one back, and leaves disciplined code to run. */
  lemma TaskStaysDisciplined(self: NodeId, v: View, clock: Instant, t: Task, c: Choice)
    requires t.code != [] && !t.code[0].Acquire? && Disciplined(t.code, t.held, t.stage)
    ensures var u := TaskAfter(self, v, clock, t, c);
            && Disciplined(u.code, u.held, u.stage)
            && u.held == HeldAfter(t.code[0], t.held)
            && forall l: Lock :: u.held.On(l) != Free ==> u.held.On(l) == t.held.On(l)
  {
    if Taken(t.code[0], t) {
      BranchDisciplined(t.code[0], t.code[1..], t.held, t.stage);
    }
  }

  lemma RanKeepsLocks(n: NodeId, ns: NodeState, clock: Instant, i: nat, c: Choice)
    requires LockInv(ns) && CanRun(n, ns, i, c)
    ensures LockInv(Ran(n, ns, clock, i, c))
  {
    var ns' := Ran(n, ns, clock, i, c);
    TaskStaysDisciplined(n, ns.view, clock, ns.tasks[i], c);
    forall p | 0 <= p < |ns'.waiting|
      ensures NextIsAcquire(ns', ns'.waiting[p])
    {
      assert NextIsAcquire(ns, ns.waiting[p]);
    }
  }

  ghost predicate LocksHold(s: State) {
    forall n :: n in s.nodes ==> LockInv(s.nodes[n])
  }

  lemma LocksHoldStep(s: State, l: Label)
    requires LocksHold(s) && Enabled(s, l)
    ensures LocksHold(Apply(s, l))
  {
    match l
    case Pass(_) =>
    case Join(_, _) =>
    case Start(n, op) =>
      CodeDisciplined(op);
      StartedKeepsLocks(s.nodes[n], CodeOf(op));
    case Receive(n, m, answer) =>
      ReceiveDisciplined(m, answer);
      StartedKeepsLocks(s.nodes[n], ReceiveCode(m, answer));
    case Request(n, i) => RequestedKeepsLocks(s.nodes[n], i);
    case Grant(n, i) => GrantedKeepsLocks(s.nodes[n], i);
    case Run(n, i, c) => RanKeepsLocks(n, s.nodes[n], s.clock, i, c);
  }

  // ---------- Deadlock freedom ----------

  predicate Finished(ns: NodeState) {
    forall i :: 0 <= i < |ns.tasks| ==> ns.tasks[i].code == []
  }

  /** Some task of the node can ask for its lock, be granted it, or run its next instruction. */
  ghost predicate CanStep(n: NodeId, ns: NodeState) {
    exists i: nat :: TaskCanStep(n, ns, i)
  }

  ghost predicate TaskCanStep(n: NodeId, ns: NodeState, i: nat) {
    CanRequest(ns, i) || CanGrant(ns, i) || exists c :: CanRun(n, ns, i, c)
  }

  /** Of the waiting tasks from position `p` on, one whose lock has the highest rank. */
  lemma {:induction false} HighestWaiting(ns: NodeState, p: nat) returns (k: nat)
    requires Queued(ns) && p < |ns.waiting|
    ensures p <= k < |ns.waiting|
    ensures forall q :: p <= q < |ns.waiting| ==>
              NextIsAcquire(ns, ns.waiting[q]) &&
              Rank(ns.tasks[ns.waiting[q]].code[0].lock) <= Rank(ns.tasks[ns.waiting[k]].code[0].lock)
    decreases |ns.waiting| - p
  {
    k := p;
    if p + 1 < |ns.waiting| {
      var best := HighestWaiting(ns, p + 1);
      if Rank(ns.tasks[ns.waiting[p]].code[0].lock) <= Rank(ns.tasks[ns.waiting[best]].code[0].lock) {
        k := best;
      }
    }
  }

  /** The first waiting task that wants `lock`. */
  lemma {:induction false} FirstFor(ns: NodeState, lock: Lock, p: nat) returns (k: nat)
    requires Queued(ns) && p < |ns.waiting|
    requires ns.tasks[ns.waiting[p]].code[0].lock == lock
    ensures k <= p && ns.tasks[ns.waiting[k]].code[0].lock == lock
    ensures FirstInLine(ns, ns.waiting[k])
  {
    if q :| 0 <= q < p && ns.tasks[ns.waiting[q]].code[0].lock == lock {
      k := FirstFor(ns, lock, q);
    } else {
      k := p;
      assert FirstInLine(ns, ns.waiting[k]);
    }
  }

  /** If every unfinished task waits, the highest lock waited for is free and the head of its line gets it. */
  lemma SomeoneIsGranted(ns: NodeState)
    requires LockInv(ns) && !Finished(ns)
    requires forall i :: 0 <= i < |ns.tasks| && ns.tasks[i].code != [] ==> i in ns.waiting
    ensures exists i: nat :: CanGrant(ns, i)
  {
    var top := HighestWaiting(ns, 0);
    var lock := ns.tasks[ns.waiting[top]].code[0].lock;
    var k := FirstFor(ns, lock, top);
    var i := ns.waiting[k];
    assert NextIsAcquire(ns, i);
    forall j | 0 <= j < |ns.tasks|
      ensures ns.tasks[j].held.On(lock) == Free
    {
      var u := ns.tasks[j];
      assert Disciplined(u.code, u.held, u.stage);
      if u.code != [] {
        var q :| 0 <= q < |ns.waiting| && ns.waiting[q] == j;
        assert NextIsAcquire(ns, j);
        assert Rank(u.code[0].lock) <= Rank(lock);
      }
    }
    assert CanGrant(ns, i);
  }

  lemma {:induction false} MembersCanBeListed(ms: Members, keys: set<NodeId>) returns (infos: seq<NodeInfo>)
    requires Keyed(ms) && keys <= ms.Keys
    ensures forall i, j :: 0 <= i < j < |infos| ==> infos[i].id != infos[j].id
    ensures forall i :: 0 <= i < |infos| ==> infos[i].id in ms && infos[i] == ToInfo(ms[infos[i].id])
    ensures InfoIds(infos) == keys
  {
    if keys == {} {
      infos := [];
    } else {
      var id :| id in keys;
      var others := MembersCanBeListed(ms, keys - {id});
      forall i | 0 <= i < |others|
        ensures others[i].id != id
      {
        assert others[i].id in InfoIds(others);
      }
      infos := others + [ToInfo(ms[id])];
      assert InfoIds(infos) == InfoIds(others) + {id} by {
        assert forall i :: 0 <= i < |others| ==> infos[i] == others[i];
        assert infos[|others|].id == id;
      }
    }
  }

  lemma {:induction false} ActorsCanBeListed(reg: Registry, keys: set<ActorName>) returns (locs: seq<ActorLocation>)
    requires keys <= reg.Keys
    ensures forall i, j :: 0 <= i < j < |locs| ==> locs[i].actor != locs[j].actor
    ensures forall i :: 0 <= i < |locs| ==>
              locs[i].actor in reg && Location(locs[i].node, locs[i].kind) == reg[locs[i].actor]
    ensures LocationActors(locs) == keys
  {
    if keys == {} {
      locs := [];
    } else {
      var a :| a in keys;
      var others := ActorsCanBeListed(reg, keys - {a});
      forall i | 0 <= i < |others|
        ensures others[i].actor != a
      {
        assert others[i].actor in LocationActors(others);
      }
      locs := others + [ActorLocation(a, reg[a].node, reg[a].kind)];
      assert LocationActors(locs) == LocationActors(others) + {a} by {
        assert forall i :: 0 <= i < |others| ==> locs[i] == others[i];
        assert locs[|others|].actor == a;
      }
    }
  }

  lemma ChoiceExists(n: NodeId, v: View, i: Instr) returns (c: Choice)
    requires Keyed(v.members)
    ensures ChoiceOk(n, v, i, c)
  {
    var infos := MembersCanBeListed(v.members, v.members.Keys);
    var locs := ActorsCanBeListed(v.registry, v.registry.Keys);
    if peer :| peer in v.members && peer != n {
      c := Choice(infos, locs, Some(peer));
    } else {
      c := Choice(infos, locs, None);
    }
  }

  /** No deadlock: as long as one task is unfinished, some task of the node can take a step. */
  lemma DeadlockFree(n: NodeId, ns: NodeState)
    requires LockInv(ns) && Keyed(ns.view.members) && !Finished(ns)
    ensures CanStep(n, ns)
  {
    if i: nat :| i < |ns.tasks| && ns.tasks[i].code != [] && i !in ns.waiting {
      if !ns.tasks[i].code[0].Acquire? {
        var c := ChoiceExists(n, ns.view, ns.tasks[i].code[0]);
        assert CanRun(n, ns, i, c);
      }
      assert TaskCanStep(n, ns, i);
    } else {
      SomeoneIsGranted(ns);
      var i: nat :| CanGrant(ns, i);
      assert TaskCanStep(n, ns, i);
    }
  }

  // ---------- Completion ----------

  /** An upper bound on the steps an instruction still needs; what it may continue with is counted in. */
  function Cost(i: Instr): nat {
    if Branch(i) == [] then 2 else 1 + 2 * |Branch(i)|
  }

  function Work(code: seq<Instr>): nat {
    if code == [] then 0 else Cost(code[0]) + Work(code[1..])
  }

  function TotalWork(tasks: seq<Task>): nat {
    if tasks == [] then 0 else Work(tasks[0].code) + TotalWork(tasks[1..])
  }

  /** Steps left at most; a task already in line has taken the first half of its acquisition. */
  function Remaining(ns: NodeState): int {
    TotalWork(ns.tasks) + |ns.tasks| - |ns.waiting|
  }

  lemma {:induction false} WorkConcat(a: seq<Instr>, b: seq<Instr>)
    ensures Work(a + b) == Work(a) + Work(b)
  {
    if a == [] {
      assert a + b == b;
    } else {
      assert (a + b)[1..] == a[1..] + b;
      WorkConcat(a[1..], b);
    }
  }

  lemma {:induction false} StraightWork(code: seq<Instr>)
    requires forall i :: 0 <= i < |code| ==> Branch(code[i]) == []
    ensures Work(code) == 2 * |code|
  {
    if code != [] {
      StraightWork(code[1..]);
    }
  }

  lemma BranchWork(i: Instr)
    ensures Branch(i) != [] ==> Work(Branch(i)) < Cost(i)
  {
    StraightWork(Branch(i));
  }

  lemma {:induction false} TotalWorkUpdate(tasks: seq<Task>, i: nat, u: Task)
    requires i < |tasks|
    ensures TotalWork(tasks[i := u]) == TotalWork(tasks) - Work(tasks[i].code) + Work(u.code)
  {
    if i > 0 {
      TotalWorkUpdate(tasks[1..], i - 1, u);
      assert tasks[i := u][1..] == tasks[1..][i - 1 := u];
    } else {
      assert tasks[i := u][1..] == tasks[1..];
    }
  }

  lemma {:induction false} DistinctBelow(s: seq<nat>, n: nat)
    requires forall p :: 0 <= p < |s| ==> s[p] < n
    requires forall p, q :: 0 <= p < q < |s| ==> s[p] != s[q]
    ensures |s| <= n
    decreases n
  {
    if s != [] {
      assert s[0] < n;
      WithoutIs(s, n - 1);
      var t := Without(s, n - 1);
      forall p | 0 <= p < |t|
        ensures t[p] < n - 1
      {
        assert t[p] in t;
      }
      DistinctBelow(t, n - 1);
    }
  }

  lemma RemainingNonNegative(ns: NodeState)
    requires Queued(ns)
    ensures 0 <= Remaining(ns)
  {
    forall p | 0 <= p < |ns.waiting|
      ensures ns.waiting[p] < |ns.tasks|
    {
      assert NextIsAcquire(ns, ns.waiting[p]);
    }
    DistinctBelow(ns.waiting, |ns.tasks|);
  }

  /** One step of some task of node `n`, as the cluster's `Request`, `Grant` and `Run` take it. */
  ghost predicate LocalStep(n: NodeId, a: NodeState, b: NodeState, clock: Instant, l: Label) {
    match l
    case Request(m, i) => m == n && CanRequest(a, i) && b == Requested(a, i)
    case Grant(m, i) => m == n && CanGrant(a, i) && b == Granted(a, i)
    case Run(m, i, c) => m == n && CanRun(n, a, i, c) && b == Ran(n, a, clock, i, c)
    case _ => false
  }

  lemma StepUsesWork(n: NodeId, a: NodeState, b: NodeState, clock: Instant, l: Label)
    requires LockInv(a) && LocalStep(n, a, b, clock, l)
    ensures LockInv(b) && Remaining(b) < Remaining(a)
  {
    match l
    case Request(_, i) => RequestedKeepsLocks(a, i);
    case Grant(_, i) =>
      GrantedKeepsLocks(a, i);
      WithoutIs(a.waiting, i);
      TotalWorkUpdate(a.tasks, i, b.tasks[i]);
    case Run(_, i, c) =>
      RanKeepsLocks(n, a, clock, i, c);
      RanUsesWork(n, a, clock, i, c);
  }

  lemma RanUsesWork(n: NodeId, a: NodeState, clock: Instant, i: nat, c: Choice)
    requires CanRun(n, a, i, c)
    ensures Remaining(Ran(n, a, clock, i, c)) < Remaining(a)
  {
    var u := TaskAfter(n, a.view, clock, a.tasks[i], c);
    CodeAfter(n, a.view, clock, a.tasks[i], c);
    CodeUsesWork(a.tasks[i].code, u.code);
    TotalWorkUpdate(a.tasks, i, u);
  }

  lemma CodeAfter(n: NodeId, v: View, clock: Instant, t: Task, c: Choice)
    requires t.code != []
    ensures var rest, code := t.code[1..], TaskAfter(n, v, clock, t, c).code;
            code == rest || (Branch(t.code[0]) != [] && code == Branch(t.code[0]) + rest)
  {
  }

  lemma CodeUsesWork(code: seq<Instr>, after: seq<Instr>)
    requires code != []
    requires after == code[1..] || (Branch(code[0]) != [] && after == Branch(code[0]) + code[1..])
    ensures Work(after) < Work(code)
  {
    BranchWork(code[0]);
    WorkConcat(Branch(code[0]), code[1..]);
  }

  /**
   Whatever the scheduler does, the tasks present on a node finish: a schedule of their steps is no longer than
   `Remaining`, and one that cannot be continued has run every task to its end, with all locks given back.
   */
  lemma {:induction false} SchedulesFinish(n: NodeId, path: seq<NodeState>, clocks: seq<Instant>, labels: seq<Label>)
    requires |path| == |labels| + 1 && |clocks| == |labels|
    requires LockInv(path[0])
    requires forall k :: 0 <= k < |labels| ==> LocalStep(n, path[k], path[k + 1], clocks[k], labels[k])
    ensures |labels| <= Remaining(path[0])
    ensures var last := path[|labels|];
            Keyed(last.view.members) && !CanStep(n, last) ==>
              forall i :: 0 <= i < |last.tasks| ==> last.tasks[i].code == [] && last.tasks[i].held == NOTHING
    decreases |labels|
  {
    RemainingNonNegative(path[0]);
    if labels == [] {
      if Keyed(path[0].view.members) && !CanStep(n, path[0]) {
        if !Finished(path[0]) {
          DeadlockFree(n, path[0]);
        }
      }
    } else {
      StepUsesWork(n, path[0], path[1], clocks[0], labels[0]);
      assert path[|labels|] == path[1..][|labels[1..]|];
      SchedulesFinish(n, path[1..], clocks[1..], labels[1..]);
    }
  }
}
