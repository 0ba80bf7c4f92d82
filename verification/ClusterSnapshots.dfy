/**
 What gossip says: every message is one view its sender had, members and registry at the same moment, although both are
 copied one after the other while other tasks go on.
 */
module ClusterSnapshots {
  import opened Basics
  import opened Membership
  import opened ClusterMachine
  import opened ClusterLocks
  import opened ClusterClosure
  import opened ClusterTasks

  /** At some time after step `i`, up to step `k`, node `n` had exactly the view this gossip lists. */
  ghost predicate WasView(run: seq<State>, i: nat, k: nat, n: NodeId, g: Gossip) {
    exists j :: i < j <= k && j < |run| && n in run[j].nodes && GossipOf(g, run[j].nodes[n].view)
  }

  /** What a task has copied: the members as they still are, or a view of a moment since it started. */
  ghost predicate CopiesTrue(run: seq<State>, i: nat, k: nat, n: NodeId, x: nat) {
    && k < |run| && HasTask(run[k], n, x)
    && var t := TaskOf(run[k], n, x);
       && (t.stage == Fresh ==> t.held.members != Free && ListsMembers(t.infos, run[k].nodes[n].view.members))
       && (t.stage == Paired ==> WasView(run, i, k, n, Gossip(t.infos, t.locs)))
  }

  lemma WasViewLater(run: seq<State>, i: nat, k: nat, n: NodeId, g: Gossip)
    requires WasView(run, i, k, n, g)
    ensures WasView(run, i, k + 1, n, g)
  {
  }

  /** A step of this task. */
  lemma OwnCopies(self: NodeId, v: View, clock: Instant, t: Task, c: Choice)
    requires t.code != [] && !t.code[0].Acquire? && Allowed(t.code[0], t.held, t.stage)
    requires ChoiceOk(self, v, t.code[0], c)
    requires t.stage == Fresh ==> t.held.members != Free && ListsMembers(t.infos, v.members)
    ensures var t', v' := TaskAfter(self, v, clock, t, c), ViewAfter(self, v, clock, t, t.code[0]);
            && (t'.stage == Fresh ==> t'.held.members != Free && ListsMembers(t'.infos, v'.members))
            && (t'.stage == Paired && t.stage != Paired ==> v' == v && GossipOf(Gossip(t'.infos, t'.locs), v))
            && (t'.stage == Paired && t.stage == Paired ==> t'.infos == t.infos && t'.locs == t.locs)
  {
  }

  /** Another task of the node: it cannot change the members while this one holds their lock. */
  lemma OthersKeepMembers(self: NodeId, ns: NodeState, clock: Instant, y: nat, c: Choice, x: nat)
    requires LockInv(ns) && CanRun(self, ns, y, c) && x < |ns.tasks| && x != y && ns.tasks[x].held.members != Free
    ensures ViewAfter(self, ns.view, clock, ns.tasks[y], ns.tasks[y].code[0]).members == ns.view.members
  {
    assert Disciplined(ns.tasks[y].code, ns.tasks[y].held, ns.tasks[y].stage);
    assert ns.tasks[y].held.On(MembersLock) == Writing ==> ns.tasks[x].held.On(MembersLock) == Free;
  }

  lemma MembersStay(s: State, l: Label, n: NodeId, x: nat)
    requires Enabled(s, l) && HasTask(s, n, x) && LockInv(s.nodes[n]) && TaskOf(s, n, x).held.members != Free
    requires !(l.Run? && Moves(l, n, x))
    ensures n in Apply(s, l).nodes && Apply(s, l).nodes[n].view.members == s.nodes[n].view.members
  {
    if l.Run? && l.n == n {
      OthersKeepMembers(n, s.nodes[n], s.clock, l.i, l.c, x);
    }
  }

  lemma RunStepCopies(run: seq<State>, labels: seq<Label>, i: nat, j: nat, n: NodeId, x: nat)
    requires IsRun(run, labels) && i < j < |labels| && CopiesTrue(run, i, j, n, x) && LockInv(run[j].nodes[n])
    requires labels[j].Run? && Moves(labels[j], n, x)
    ensures CopiesTrue(run, i, j + 1, n, x)
  {
    var t := TaskOf(run[j], n, x);
    var v := run[j].nodes[n].view;
    TaskStep(run[j], labels[j], n, x);
    assert run[j + 1] == Apply(run[j], labels[j]);
    assert Disciplined(t.code, t.held, t.stage);
    OwnCopies(n, v, run[j].clock, t, labels[j].c);
    var t' := TaskOf(run[j + 1], n, x);
    if t'.stage == Paired {
      var g := Gossip(t'.infos, t'.locs);
      if t.stage == Paired {
        WasViewLater(run, i, j, n, g);
      } else {
        assert GossipOf(g, run[j].nodes[n].view);
        assert WasView(run, i, j + 1, n, g);
      }
    }
  }

  lemma OtherStepCopies(run: seq<State>, labels: seq<Label>, i: nat, j: nat, n: NodeId, x: nat)
    requires IsRun(run, labels) && i < j < |labels| && CopiesTrue(run, i, j, n, x) && LockInv(run[j].nodes[n])
    requires !(labels[j].Run? && Moves(labels[j], n, x))
    ensures CopiesTrue(run, i, j + 1, n, x)
  {
    TaskStep(run[j], labels[j], n, x);
    assert run[j + 1] == Apply(run[j], labels[j]);
    var t, t' := TaskOf(run[j], n, x), TaskOf(run[j + 1], n, x);
    assert t'.stage == t.stage && t'.infos == t.infos && t'.locs == t.locs;
    if t.stage == Fresh {
      GrantKeepsMembers(run[j].nodes[n], labels[j], n, x);
      MembersStay(run[j], labels[j], n, x);
    }
    if t.stage == Paired {
      WasViewLater(run, i, j, n, Gossip(t.infos, t.locs));
    }
  }

  /** A lock granted to a task is not the one it holds on the members: locks are taken in order. */
  lemma GrantKeepsMembers(ns: NodeState, l: Label, n: NodeId, x: nat)
    requires LockInv(ns) && x < |ns.tasks| && ns.tasks[x].held.members != Free
    requires l == Grant(n, x) ==> NextIsAcquire(ns, x)
    ensures l == Grant(n, x) ==> HeldAfter(ns.tasks[x].code[0], ns.tasks[x].held).members != Free
  {
  }

  lemma LocksHold(run: seq<State>, labels: seq<Label>, j: nat, n: NodeId)
    requires IsRun(run, labels) && j < |run| && n in run[j].nodes
    ensures LockInv(run[j].nodes[n])
  {
    RunsAreClosed(run, labels, j);
  }

  lemma StepCopies(run: seq<State>, labels: seq<Label>, i: nat, j: nat, n: NodeId, x: nat)
    requires IsRun(run, labels) && i < j < |labels| && CopiesTrue(run, i, j, n, x)
    ensures CopiesTrue(run, i, j + 1, n, x)
  {
    LocksHold(run, labels, j, n);
    if labels[j].Run? && Moves(labels[j], n, x) {
      RunStepCopies(run, labels, i, j, n, x);
    } else {
      OtherStepCopies(run, labels, i, j, n, x);
    }
  }

  /** From a moment at which a task has copied nothing. */
  lemma {:induction false} CopiesSince(run: seq<State>, labels: seq<Label>, i: nat, k: nat, n: NodeId, x: nat)
    requires IsRun(run, labels) && i < k < |run|
    requires HasTask(run[i + 1], n, x) && TaskOf(run[i + 1], n, x).stage == Blank
    ensures CopiesTrue(run, i, k, n, x)
  {
    if k > i + 1 {
      CopiesSince(run, labels, i, k - 1, n, x);
      StepCopies(run, labels, i, k - 1, n, x);
    }
  }

  /** Every task was started by some step. */
  lemma {:induction false} EveryTaskWasStarted(run: seq<State>, labels: seq<Label>, k: nat, n: NodeId, x: nat)
    returns (i: nat, code: seq<Instr>)
    requires IsRun(run, labels) && k < |run| && HasTask(run[k], n, x)
    ensures i < k && Starts(run, labels, i, n, x, code)
  {
    assert k > 0;
    assert run[k] == Apply(run[k - 1], labels[k - 1]);
    if HasTask(run[k - 1], n, x) {
      i, code := EveryTaskWasStarted(run, labels, k - 1, n, x);
    } else {
      i := k - 1;
      code := if labels[i].Start? then CodeOf(labels[i].op)
              else if labels[i].Receive? then ReceiveCode(labels[i].m, labels[i].answer) else [];
    }
  }

  /** What a task posts is what it has copied, and that is a view of its node since it had copied nothing. */
  lemma PostedWasView(run: seq<State>, labels: seq<Label>, i: nat, b: nat, n: NodeId, x: nat)
    requires IsRun(run, labels) && i < b && Performs(run, labels, b, n, x, Post)
    requires HasTask(run[i + 1], n, x) && TaskOf(run[i + 1], n, x).stage == Blank
    ensures labels[b].Run?
    ensures var t := TaskOf(run[b], n, x); WasView(run, i, b, n, Gossip(t.infos, t.locs))
  {
    CopiesSince(run, labels, i, b, n, x);
    RunsAreClosed(run, labels, b);
    TaskStep(run[b], labels[b], n, x);
    var t := TaskOf(run[b], n, x);
    assert Disciplined(t.code, t.held, t.stage);
  }

  /** Every message ever sent lists exactly the members and the registry its sender had at one moment. */
  lemma {:induction false} EveryMessageIsASnapshot(run: seq<State>, labels: seq<Label>, k: nat, m: Message)
    returns (j: nat)
    requires IsRun(run, labels) && k < |run| && m in run[k].net
    ensures j < k && m.sender in run[j].nodes && GossipOf(m.gossip, run[j].nodes[m.sender].view)
  {
    assert k > 0;
    assert run[k] == Apply(run[k - 1], labels[k - 1]);
    if m in run[k - 1].net {
      j := EveryMessageIsASnapshot(run, labels, k - 1, m);
    } else {
      var b, n, x := k - 1, labels[k - 1].n, labels[k - 1].i;
      var i, code := EveryTaskWasStarted(run, labels, b, n, x);
      StartedTask(run, labels, i, n, x, code);
      PostedWasView(run, labels, i, b, n, x);
      var t := TaskOf(run[b], n, x);
      j :| i < j <= b && n in run[j].nodes && GossipOf(Gossip(t.infos, t.locs), run[j].nodes[n].view);
    }
  }

  lemma {:induction false} NetGrows(run: seq<State>, labels: seq<Label>, j: nat, k: nat)
    requires IsRun(run, labels) && j <= k < |run|
    ensures run[j].net <= run[k].net
    decreases k - j
  {
    if j < k {
      assert run[j + 1] == Apply(run[j], labels[j]);
      NetGrows(run, labels, j + 1, k);
    }
  }

  /** A message posted at step `b` is there from then on. */
  lemma PostedStays(run: seq<State>, labels: seq<Label>, i: nat, b: nat, k: nat, n: NodeId, x: nat) returns (g: Gossip)
    requires IsRun(run, labels) && i < b < k < |run| && Performs(run, labels, b, n, x, Post)
    requires HasTask(run[i + 1], n, x) && TaskOf(run[i + 1], n, x).stage == Blank
    ensures Message(n, g) in run[k].net && WasView(run, i, k, n, g)
  {
    PostedWasView(run, labels, i, b, n, x);
    var t := TaskOf(run[b], n, x);
    g := Gossip(t.infos, t.locs);
    assert run[b + 1] == Apply(run[b], labels[b]);
    assert Message(n, g) in run[b + 1].net;
    NetGrows(run, labels, b + 1, k);
    var j :| i < j <= b && n in run[j].nodes && GossipOf(g, run[j].nodes[n].view);
  }

  /** Gossip asked for is sent: a message from the node that lists a view it had meanwhile. */
  lemma EveryGossipIsSent(run: seq<State>, labels: seq<Label>, i: nat, k: nat, n: NodeId, x: nat) returns (g: Gossip)
    requires IsRun(run, labels) && i < k < |run| && n in run[i].nodes && x == |run[i].nodes[n].tasks|
    requires labels[i] == Start(n, SendGossip) && HasTask(run[k], n, x) && TaskOf(run[k], n, x).code == []
    ensures Message(n, g) in run[k].net && WasView(run, i, k, n, g)
  {
    var code := GossipCode();
    StartedTask(run, labels, i, n, x, code);
    var steps := Progress(run, labels, i, k, n, x, code);
    g := PostedStays(run, labels, i, steps[6], k, n, x);
  }

  predicate CopiesFrom(code: seq<Instr>, q: nat) {
    forall p :: 0 <= p < q && p < |code| ==> !code[p].CopyMembers? && !code[p].CopyActors?
  }

  lemma BlankMove(n: NodeId, v: View, clock: Instant, t: Task, t': Task, c: Choice, code: seq<Instr>, q: nat, p: nat)
    requires Straight(code) && CopiesFrom(code, q) && p < |code| && t.code == code[p..] && (p <= q ==> t.stage == Blank)
    requires if t.code[0].Acquire? then t' == t.(code := t.code[1..], held := HeldAfter(t.code[0], t.held))
             else t' == TaskAfter(n, v, clock, t, c)
    ensures t'.code == code[p + 1..] && (p + 1 <= q ==> t'.stage == Blank)
  {
    assert t.code[0] == code[p] && t.code[1..] == code[p + 1..];
    NextCode(n, v, clock, t, c);
  }

  /** Until a task comes to the part of its code that copies, it has copied nothing. */
  lemma {:induction false} BlankUntilCopying(run: seq<State>, labels: seq<Label>, i: nat, k: nat, n: NodeId, x: nat,
                                             code: seq<Instr>, q: nat) returns (p: nat)
    requires IsRun(run, labels) && Starts(run, labels, i, n, x, code) && Straight(code) && CopiesFrom(code, q)
    requires i < k < |run|
    ensures p <= |code| && HasTask(run[k], n, x) && TaskOf(run[k], n, x).code == code[p..]
    ensures p <= q ==> TaskOf(run[k], n, x).stage == Blank
  {
    if k == i + 1 {
      StartedTask(run, labels, i, n, x, code);
      p := 0;
    } else {
      p := BlankUntilCopying(run, labels, i, k - 1, n, x, code, q);
      TaskStep(run[k - 1], labels[k - 1], n, x);
      assert run[k] == Apply(run[k - 1], labels[k - 1]);
      if Moves(labels[k - 1], n, x) {
        var t, t' := TaskOf(run[k - 1], n, x), TaskOf(run[k], n, x);
        var c := if labels[k - 1].Run? then labels[k - 1].c else Choice([], [], None);
        BlankMove(n, run[k - 1].nodes[n].view, run[k - 1].clock, t, t', c, code, q, p);
        p := p + 1;
      }
    }
  }

  /**
   The answer to a message is sent, and lists a view the node had after it merged that message: the merge was done at
   step `c`, and the view is of a later moment.
   */
  lemma EveryAnswerIsSent(run: seq<State>, labels: seq<Label>, i: nat, k: nat, n: NodeId, x: nat, m: Message)
    returns (c: nat, g: Gossip)
    requires IsRun(run, labels) && i < k < |run| && n in run[i].nodes && x == |run[i].nodes[n].tasks|
    requires labels[i] == Receive(n, m, true) && HasTask(run[k], n, x) && TaskOf(run[k], n, x).code == []
    ensures i < c < k && Performs(run, labels, c, n, x, TakeLocations(m.gossip.actors))
    ensures Message(n, g) in run[k].net && WasView(run, c, k, n, g)
  {
    var code := ReceiveCode(m, true);
    AnswerCodeIs(m, code);
    var steps := Progress(run, labels, i, k, n, x, code);
    c := steps[5];
    MergedBeforeCopying(run, labels, i, c, n, x, m, code);
    g := PostedStays(run, labels, c, steps[15], k, n, x);
  }

  /** When the merge is done nothing has been copied yet. */
  lemma MergedBeforeCopying(run: seq<State>, labels: seq<Label>, i: nat, c: nat, n: NodeId, x: nat, m: Message,
                            code: seq<Instr>)
    requires IsRun(run, labels) && Starts(run, labels, i, n, x, code) && code == ReceiveCode(m, true) && i < c
    requires Performs(run, labels, c, n, x, TakeLocations(m.gossip.actors))
    ensures HasTask(run[c + 1], n, x) && TaskOf(run[c + 1], n, x).stage == Blank
  {
    AnswerCodeIs(m, code);
    var p := BlankUntilCopying(run, labels, i, c, n, x, code, 10);
    assert TaskOf(run[c], n, x).code[0] == code[p];
    TaskStep(run[c], labels[c], n, x);
    assert run[c + 1] == Apply(run[c], labels[c]);
  }

  lemma AnswerCodeIs(m: Message, code: seq<Instr>)
    requires code == ReceiveCode(m, true)
    ensures |code| == 16 && code[5] == TakeLocations(m.gossip.actors) && code[15] == Post
    ensures Straight(code) && CopiesFrom(code, 10) && forall q :: 10 <= q < 16 ==> !code[q].TakeLocations?
  {
    ReceiveIsStraight(m, true);
    assert code == MergeCode(m) + GossipCode();
  }

  // ---------- Ticks gossip ----------

  const DRAW := [PickPeer, Release(MembersLock), IfPeer]

  /** Where a tick is: 0 before drawing a peer, 1 and 2 after it, 3 done without one, 4 to 11 gossiping with one. */
  ghost predicate TickIs(t: Task, q: nat, before: seq<Instr>) {
    match q
    case 0 => t.code == before + DRAW
    case 1 => t.code == DRAW[1..]
    case 2 => t.code == DRAW[2..]
    case 3 => t.code == [] && t.peer.None?
    case _ => q <= 11 && t.code == GossipCode()[q - 4..] && t.peer.Some?
  }

  predicate DrawsNow(q: nat, before: seq<Instr>) {
    q == 0 && before == []
  }

  function TickNext(q: nat, before: seq<Instr>, peer: bool): nat {
    if q == 0 then (if before == [] then 1 else 0) else if q == 2 && peer then 4 else q + 1
  }

  lemma TickMoves(self: NodeId, v: View, clock: Instant, t: Task, t': Task, c: Choice, q: nat, before: seq<Instr>)
    returns (before': seq<Instr>)
    requires TickIs(t, q, before) && t.code != []
    requires if t.code[0].Acquire? then t' == t.(code := t.code[1..], held := HeldAfter(t.code[0], t.held))
             else ChoiceOk(self, v, t.code[0], c) && t' == TaskAfter(self, v, clock, t, c)
    ensures TickIs(t', TickNext(q, before, t.peer.Some?), before')
    ensures DrawsNow(q, before) ==> t.code[0] == PickPeer && (t'.peer.None? ==> v.members.Keys <= {self})
    ensures q > 0 ==> t'.peer == t.peer
    ensures q == 10 <==> q >= 4 && t.code[0] == Post
  {
    before' := [];
    if q == 0 {
      before' := BeforeDraw(self, v, clock, t, t', c, before);
    } else if q >= 4 {
      assert GossipCode()[q - 4..][1..] == GossipCode()[q - 3..];
    } else if q == 2 {
      assert DRAW[2..][1..] == [] && GossipCode() + [] == GossipCode() && GossipCode()[0..] == GossipCode();
    }
  }

  lemma BeforeDraw(self: NodeId, v: View, clock: Instant, t: Task, t': Task, c: Choice, before: seq<Instr>)
    returns (before': seq<Instr>)
    requires t.code == before + DRAW
    requires if t.code[0].Acquire? then t' == t.(code := t.code[1..], held := HeldAfter(t.code[0], t.held))
             else ChoiceOk(self, v, t.code[0], c) && t' == TaskAfter(self, v, clock, t, c)
    ensures if before == [] then t'.code == DRAW[1..] && (t'.peer.None? ==> v.members.Keys <= {self})
            else t'.code == before' + DRAW
  {
    before' := [];
    if before == [] {
      assert t.code == DRAW;
    } else {
      assert t.code[0] == before[0] && t.code[1..] == before[1..] + DRAW;
      var rest := before[1..];
      before' := if !t.code[0].Acquire? && Taken(t.code[0], t) then Branch(t.code[0]) + rest else rest;
      assert Branch(t.code[0]) + (rest + DRAW) == (Branch(t.code[0]) + rest) + DRAW;
    }
  }

  /** Where a tick is at step `k`; it drew its peer at step `p` and posted at step `b`. */
  ghost predicate TickAt(run: seq<State>, labels: seq<Label>, i: nat, k: nat, n: NodeId, x: nat,
                         q: nat, before: seq<Instr>, p: nat, b: nat)
    requires IsRun(run, labels)
  {
    && i < k < |run| && HasTask(run[k], n, x) && TickIs(TaskOf(run[k], n, x), q, before)
    && (q >= 1 ==> i < p < k && Performs(run, labels, p, n, x, PickPeer)
                   && (TaskOf(run[k], n, x).peer.None? ==> run[p].nodes[n].view.members.Keys <= {n}))
    && (q == 11 ==> i < b < k && Performs(run, labels, b, n, x, Post))
  }

  lemma TickCodeIs(timeout: nat) returns (before: seq<Instr>)
    ensures CodeOf(GossipTick(timeout)) == before + DRAW
  {
    before := CodeOf(GossipTick(timeout))[..8];
  }

  lemma {:induction false} TickProgress(run: seq<State>, labels: seq<Label>, i: nat, k: nat, n: NodeId, x: nat,
                                        timeout: nat)
    returns (q: nat, before: seq<Instr>, p: nat, b: nat)
    requires IsRun(run, labels) && Starts(run, labels, i, n, x, CodeOf(GossipTick(timeout))) && i < k < |run|
    ensures TickAt(run, labels, i, k, n, x, q, before, p, b)
  {
    if k == i + 1 {
      StartedTask(run, labels, i, n, x, CodeOf(GossipTick(timeout)));
      before := TickCodeIs(timeout);
      q, p, b := 0, 0, 0;
    } else {
      q, before, p, b := TickProgress(run, labels, i, k - 1, n, x, timeout);
      q, before, p, b := TickStep(run, labels, i, k - 1, n, x, q, before, p, b);
    }
  }

  lemma TickStep(run: seq<State>, labels: seq<Label>, i: nat, j: nat, n: NodeId, x: nat,
                 q: nat, before: seq<Instr>, p: nat, b: nat) returns (q': nat, before': seq<Instr>, p': nat, b': nat)
    requires IsRun(run, labels) && j < |labels| && TickAt(run, labels, i, j, n, x, q, before, p, b)
    ensures TickAt(run, labels, i, j + 1, n, x, q', before', p', b')
  {
    q', before', p', b' := q, before, p, b;
    TaskStep(run[j], labels[j], n, x);
    assert run[j + 1] == Apply(run[j], labels[j]);
    if Moves(labels[j], n, x) {
      var t, t' := TaskOf(run[j], n, x), TaskOf(run[j + 1], n, x);
      var c := if labels[j].Run? then labels[j].c else Choice([], [], None);
      before' := TickMoves(n, run[j].nodes[n].view, run[j].clock, t, t', c, q, before);
      q' := TickNext(q, before, t.peer.Some?);
      p' := if DrawsNow(q, before) then j else p;
      b' := if q == 10 then j else b;
    }
  }

  /** A tick that is done has gossiped, unless its node knew no one else when it drew a peer. */
  lemma EveryTickGossips(run: seq<State>, labels: seq<Label>, i: nat, k: nat, n: NodeId, x: nat, timeout: nat)
    returns (p: nat, g: Gossip)
    requires IsRun(run, labels) && i < k < |run| && n in run[i].nodes && x == |run[i].nodes[n].tasks|
    requires labels[i] == Start(n, GossipTick(timeout)) && HasTask(run[k], n, x) && TaskOf(run[k], n, x).code == []
    ensures i < p < k && Performs(run, labels, p, n, x, PickPeer)
    ensures !(run[p].nodes[n].view.members.Keys <= {n}) ==> Message(n, g) in run[k].net && WasView(run, i, k, n, g)
  {
    var q, before, b;
    q, before, p, b := TickProgress(run, labels, i, k, n, x, timeout);
    g := Gossip([], []);
    if q == 11 {
      StartedTask(run, labels, i, n, x, CodeOf(GossipTick(timeout)));
      g := PostedStays(run, labels, i, b, k, n, x);
    }
  }
}
