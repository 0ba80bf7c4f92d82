/** What the cluster guarantees over every run, stated on runs and the instructions executed in them. */
module ClusterTheorems {
  import opened Basics
  import opened Membership
  import opened ClusterMachine
  import opened ClusterLocks
  import opened ClusterClosure
  import opened ClusterProvenance

  /** Step `j` of the run is node `n` executing `instr`. */
  ghost predicate Executes(run: seq<State>, labels: seq<Label>, j: nat, n: NodeId, instr: Instr)
    requires IsRun(run, labels)
  {
    && j < |labels| && labels[j].Run? && labels[j].n == n
    && Enabled(run[j], labels[j])
    && run[j].nodes[n].tasks[labels[j].i].code[0] == instr
  }

  /** Step `j` is a tick of node `n` that finds `id` silent too long: past its timeout, or twice that for Down. */
  ghost predicate FindsSilent(run: seq<State>, labels: seq<Label>, j: nat, n: NodeId, id: NodeId, status: NodeStatus)
    requires IsRun(run, labels)
  {
    && j < |labels| && labels[j].Run? && labels[j].n == n
    && Enabled(run[j], labels[j])
    && var t := run[j].nodes[n].tasks[labels[j].i];
       var v := run[j].nodes[n].view;
       && t.code[0].JudgeAll?
       && id in v.members && Judged(id, v.beats, n)
       && Elapsed(t.now, v.beats[id]) > (if status == Down then t.code[0].timeout * 2 else t.code[0].timeout)
  }

  /** Everything in the history was noted by an earlier step. */
  lemma {:induction false} EventHappened(run: seq<State>, labels: seq<Label>, k: nat, e: Event) returns (j: nat)
    requires IsRun(run, labels) && k < |run| && e in run[k].history
    ensures j < k && labels[j].Run? && Enabled(run[j], labels[j])
    ensures var n := labels[j].n;
            var ns := run[j].nodes[n];
            e in Noted(n, ns.view, ns.tasks[labels[j].i], ns.tasks[labels[j].i].code[0])
  {
    if k > 0 && e in run[k - 1].history {
      j := EventHappened(run, labels, k - 1, e);
    } else {
      assert k > 0 && run[k] == Apply(run[k - 1], labels[k - 1]);
      j := k - 1;
    }
  }

  // ---------- Registry ----------

  /** An actor found anywhere was registered, with that type, by the very node it is found on. */
  lemma LookupsAreRegistered(run: seq<State>, labels: seq<Label>, k: nat, n: NodeId, a: ActorName)
    requires IsRun(run, labels) && k < |run| && n in run[k].nodes && a in run[k].nodes[n].view.registry
    ensures var found := run[k].nodes[n].view.registry[a];
            exists j :: 0 <= j < k && Executes(run, labels, j, found.node, PutActor(a, found.kind))
  {
    var found := run[k].nodes[n].view.registry[a];
    RunsAreFounded(run, labels, k);
    assert NodeFounded(run[k].nodes[n], run[k].history);
    var j := EventHappened(run, labels, k, Registered(found.node, a, found.kind));
    assert Executes(run, labels, j, found.node, PutActor(a, found.kind));
  }

  /** The same for every location in a message. */
  lemma GossipedActorsAreRegistered(run: seq<State>, labels: seq<Label>, k: nat, m: Message, i: nat)
    requires IsRun(run, labels) && k < |run| && m in run[k].net && i < |m.gossip.actors|
    ensures var l := m.gossip.actors[i];
            exists j :: 0 <= j < k && Executes(run, labels, j, l.node, PutActor(l.actor, l.kind))
  {
    var l := m.gossip.actors[i];
    RunsAreFounded(run, labels, k);
    assert MessageFounded(m, run[k].history);
    var j := EventHappened(run, labels, k, Registered(l.node, l.actor, l.kind));
    assert Executes(run, labels, j, l.node, PutActor(l.actor, l.kind));
  }

  /** Each actor id is registered by one node with one type. */
  ghost predicate OneOwner(run: seq<State>, labels: seq<Label>)
    requires IsRun(run, labels)
  {
    forall i, j, m, n, a, s, t ::
      Executes(run, labels, i, m, PutActor(a, s)) && Executes(run, labels, j, n, PutActor(a, t)) ==> m == n && s == t
  }

  /** With one owner per actor id, two successful lookups agree, on any nodes and at any times. */
  lemma LookupsAgree(run: seq<State>, labels: seq<Label>, k: nat, n: NodeId, k': nat, n': NodeId, a: ActorName)
    requires IsRun(run, labels) && OneOwner(run, labels)
    requires k < |run| && n in run[k].nodes && a in run[k].nodes[n].view.registry
    requires k' < |run| && n' in run[k'].nodes && a in run[k'].nodes[n'].view.registry
    ensures run[k].nodes[n].view.registry[a] == run[k'].nodes[n'].view.registry[a]
  {
    LookupsAreRegistered(run, labels, k, n, a);
    LookupsAreRegistered(run, labels, k', n', a);
  }

  // ---------- Suspicion ----------

  /** Before step `k` someone added `id` with this status, or a tick found it silent long enough for it. */
  ghost predicate HasCause(run: seq<State>, labels: seq<Label>, k: nat, id: NodeId, status: NodeStatus)
    requires IsRun(run, labels)
  {
    || (exists j, n, addr :: 0 <= j < k && Executes(run, labels, j, n, PutMember(Node(id, addr, status))))
    || (exists j, n :: 0 <= j < k && FindsSilent(run, labels, j, n, id, status))
  }

  lemma JustifiedHasCause(run: seq<State>, labels: seq<Label>, k: nat, id: NodeId, status: NodeStatus)
    requires IsRun(run, labels) && k < |run| && status != Up && Justified(id, status, run[k].history)
    ensures HasCause(run, labels, k, id, status)
  {
    var e :| e in run[k].history && Causes(e, id, status);
    var j := EventHappened(run, labels, k, e);
    var n := labels[j].n;
    var instr := run[j].nodes[n].tasks[labels[j].i].code[0];
    if e.Added? {
      assert Executes(run, labels, j, n, PutMember(Node(id, instr.node.addr, status)));
    } else {
      assert FindsSilent(run, labels, j, n, id, status);
    }
  }

  /** A Suspect or Down status in any view has a cause. */
  lemma SuspicionHasACause(run: seq<State>, labels: seq<Label>, k: nat, n: NodeId, id: NodeId)
    requires IsRun(run, labels) && k < |run| && n in run[k].nodes && id in run[k].nodes[n].view.members
    requires run[k].nodes[n].view.members[id].status != Up
    ensures HasCause(run, labels, k, id, run[k].nodes[n].view.members[id].status)
  {
    RunsAreFounded(run, labels, k);
    assert NodeFounded(run[k].nodes[n], run[k].history);
    JustifiedHasCause(run, labels, k, id, run[k].nodes[n].view.members[id].status);
  }

  /** So has one in any message. */
  lemma GossipedSuspicionHasACause(run: seq<State>, labels: seq<Label>, k: nat, m: Message, i: nat)
    requires IsRun(run, labels) && k < |run| && m in run[k].net && i < |m.gossip.members|
    requires FromInfo(m.gossip.members[i]).status != Up
    ensures HasCause(run, labels, k, m.gossip.members[i].id, FromInfo(m.gossip.members[i]).status)
  {
    RunsAreFounded(run, labels, k);
    assert MessageFounded(m, run[k].history);
    JustifiedHasCause(run, labels, k, m.gossip.members[i].id, FromInfo(m.gossip.members[i]).status);
  }

  /** If only Up members are added and every tick finds fresh heartbeats, the whole cluster stays Up. */
  lemma HealthyClusterStaysUp(run: seq<State>, labels: seq<Label>, k: nat)
    requires IsRun(run, labels) && k < |run|
    requires forall j, n, node :: Executes(run, labels, j, n, PutMember(node)) ==> node.status == Up
    requires forall j, n, id :: !FindsSilent(run, labels, j, n, id, Suspect)
    ensures forall n, id :: n in run[k].nodes && id in run[k].nodes[n].view.members ==>
              run[k].nodes[n].view.members[id].status == Up
    ensures forall m, i :: m in run[k].net && 0 <= i < |m.gossip.members| ==>
              FromInfo(m.gossip.members[i]).status == Up
  {
    forall n, id | n in run[k].nodes && id in run[k].nodes[n].view.members
      ensures run[k].nodes[n].view.members[id].status == Up
    {
      if run[k].nodes[n].view.members[id].status != Up {
        SuspicionHasACause(run, labels, k, n, id);
        NoCauseWhenHealthy(run, labels, k, id, run[k].nodes[n].view.members[id].status);
      }
    }
    forall m, i | m in run[k].net && 0 <= i < |m.gossip.members|
      ensures FromInfo(m.gossip.members[i]).status == Up
    {
      if FromInfo(m.gossip.members[i]).status != Up {
        GossipedSuspicionHasACause(run, labels, k, m, i);
        NoCauseWhenHealthy(run, labels, k, m.gossip.members[i].id, FromInfo(m.gossip.members[i]).status);
      }
    }
  }

  lemma NoCauseWhenHealthy(run: seq<State>, labels: seq<Label>, k: nat, id: NodeId, status: NodeStatus)
    requires IsRun(run, labels)
    requires forall j, n, node :: Executes(run, labels, j, n, PutMember(node)) ==> node.status == Up
    requires forall j, n, id :: !FindsSilent(run, labels, j, n, id, Suspect)
    ensures HasCause(run, labels, k, id, status) ==> status == Up
  {
    forall j: nat, n | FindsSilent(run, labels, j, n, id, status)
      ensures FindsSilent(run, labels, j, n, id, Suspect)
    {
    }
  }

  // ---------- Ids, snapshots and routing ----------

  lemma StepKeepsIds(s: State, l: Label, n: NodeId)
    requires Enabled(s, l) && n in s.nodes
    ensures n in Apply(s, l).nodes
    ensures s.nodes[n].view.members.Keys <= Apply(s, l).nodes[n].view.members.Keys
  {
    if l.Run? && l.n == n {
      var t := s.nodes[n].tasks[l.i];
      IdsAfter(n, s.nodes[n].view, s.clock, t, t.code[0]);
    }
  }

  /** A node knows itself and never forgets an id, through merges, ticks and everything between. */
  lemma {:induction false} IdsNeverShrink(run: seq<State>, labels: seq<Label>, j: nat, k: nat, n: NodeId)
    requires IsRun(run, labels) && j <= k < |run| && n in run[j].nodes
    ensures n in run[k].nodes && n in run[k].nodes[n].view.members
    ensures run[j].nodes[n].view.members.Keys <= run[k].nodes[n].view.members.Keys
    decreases k - j
  {
    if j == k {
      RunsAreClosed(run, labels, j);
    } else {
      StepKeepsIds(run[j], labels[j], n);
      IdsNeverShrink(run, labels, j + 1, k, n);
    }
  }

  /**
   A lookup that finds an actor and a later search of the members: the host is there, whatever happened in between,
   a tick or a half-done merge included.
   */
  lemma RoutingFindsTheHost(run: seq<State>, labels: seq<Label>, j: nat, k: nat, n: NodeId, a: ActorName)
    requires IsRun(run, labels) && j <= k < |run| && n in run[j].nodes && a in run[j].nodes[n].view.registry
    ensures n in run[k].nodes && run[j].nodes[n].view.registry[a].node in run[k].nodes[n].view.members
  {
    RunsAreClosed(run, labels, j);
    IdsNeverShrink(run, labels, j, k, n);
    assert run[j].nodes[n].view.registry[a].node in Hosts(run[j].nodes[n].view.registry);
  }

  /** No send to an actor, on any node of any reachable state, ends with the host missing from the members. */
  lemma NoSendMissesItsNode(run: seq<State>, labels: seq<Label>, k: nat, n: NodeId, i: nat)
    requires IsRun(run, labels) && k < |run| && n in run[k].nodes && i < |run[k].nodes[n].tasks|
    ensures run[k].nodes[n].tasks[i].outcome != NodeNotFound
  {
    RunsAreClosed(run, labels, k);
    assert TaskClosed(n, run[k].nodes[n].view, run[k].nodes[n].tasks[i]);
  }

  /** Every message lists its sender and the host of every actor it locates; heartbeats are kept for members only. */
  lemma SnapshotsAreClosed(run: seq<State>, labels: seq<Label>, k: nat)
    requires IsRun(run, labels) && k < |run|
    ensures forall m, i :: m in run[k].net && 0 <= i < |m.gossip.actors| ==>
              exists j :: 0 <= j < |m.gossip.members| && m.gossip.members[j].id == m.gossip.actors[i].node
    ensures forall m :: m in run[k].net ==>
              exists j :: 0 <= j < |m.gossip.members| && m.gossip.members[j].id == m.sender
    ensures forall n, id :: n in run[k].nodes && id in run[k].nodes[n].view.beats ==>
              id in run[k].nodes[n].view.members
  {
    RunsAreClosed(run, labels, k);
    forall m, i | m in run[k].net && 0 <= i < |m.gossip.actors|
      ensures exists j :: 0 <= j < |m.gossip.members| && m.gossip.members[j].id == m.gossip.actors[i].node
    {
      assert m.gossip.actors[i].node in LocationHosts(m.gossip.actors);
      assert MessageClosed(m);
      assert m.gossip.actors[i].node in InfoIds(m.gossip.members);
    }
    forall m | m in run[k].net
      ensures exists j :: 0 <= j < |m.gossip.members| && m.gossip.members[j].id == m.sender
    {
      assert MessageClosed(m);
      assert m.sender in InfoIds(m.gossip.members);
    }
  }

  /** No reachable state of the cluster is stuck on a lock: a node with an unfinished task can always step. */
  lemma NoRunDeadlocks(run: seq<State>, labels: seq<Label>, k: nat, n: NodeId)
    requires IsRun(run, labels) && k < |run| && n in run[k].nodes && !Finished(run[k].nodes[n])
    ensures exists l :: Enabled(run[k], l) && (l.Request? || l.Grant? || l.Run?) && l.n == n
  {
    RunsAreClosed(run, labels, k);
    var ns := run[k].nodes[n];
    DeadlockFree(n, ns);
    var i: nat :| TaskCanStep(n, ns, i);
    if CanRequest(ns, i) {
      assert Enabled(run[k], Request(n, i));
    } else if CanGrant(ns, i) {
      assert Enabled(run[k], Grant(n, i));
    } else {
      var c :| CanRun(n, ns, i, c);
      assert Enabled(run[k], Run(n, i, c));
    }
  }
}
