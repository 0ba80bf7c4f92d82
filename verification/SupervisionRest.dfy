/** Left to itself a tree comes to rest: the stop cascade, restarts and escalations use up what there is to do. */
module SupervisionRest {
  import opened Basics
  import opened ActorLife
  import opened SupervisionTree
  import opened SupervisionTheorems

  /** What the actors do themselves, as opposed to spawning, sending and stopping from outside. */
  predicate Internal(l: Label) {
    l.Pass? || l.Loop? || l.TellChild? || l.Wind? || l.Settle?
  }

  /** The step changes something: a turn that only waits or polls does not, nor does the passing of time. */
  predicate Works(s: Tree, l: Label)
    requires Enabled(s, l)
  {
    match l
    case Loop(a, w) => Select(s.actors[a], w) != PollStreams && Select(s.actors[a], w) != Wait
    case TellChild(_) => true
    case Wind(_) => true
    case Settle(_) => true
    case _ => false
  }

  // ---------- What is left to do ----------

  /** A failed instance still has a restart or an escalation to give; a child yet to be told, a permit. */
  function PhaseWork(phase: Phase, children: nat): nat {
    match phase
    case Looping => 3 + 2 * children
    case Stopping(why, next) => (if why.Failed? then 5 else 2) + (if next <= children then 2 * (children - next) else 0)
    case Deciding(why) => if why.Failed? then 4 else 1
    case Dead => 0
  }

  /** Messages, permits, and what is left of the current instance. */
  function ActorWork(a: Actor): nat {
    3 * |a.queue| + (if a.stopPermit then 1 else 0) + (if a.escPermit.Some? then 3 else 0)
    + PhaseWork(a.phase, |a.children|)
  }

  function Work(actors: seq<Actor>): nat {
    if actors == [] then 0 else Work(actors[..|actors| - 1]) + ActorWork(actors[|actors| - 1])
  }

  lemma {:induction false} WorkPut(actors: seq<Actor>, a: nat, b: Actor)
    requires a < |actors|
    ensures Work(actors[a := b]) + ActorWork(actors[a]) == Work(actors) + ActorWork(b)
  {
    var n := |actors| - 1;
    if a == n {
      assert actors[a := b][..n] == actors[..n];
    } else {
      WorkPut(actors[..n], a, b);
      assert actors[a := b][..n] == actors[..n][a := b];
    }
  }

  // ---------- Every working step uses some of it ----------

  lemma TurnUses(a: Actor, w: World)
    requires a.phase.Looping? && Select(a, w) != PollStreams && Select(a, w) != Wait
    ensures ActorWork(Turn(a, w)) < ActorWork(a)
  {
  }

  lemma WoundUses(a: Actor)
    requires a.phase.Stopping? && a.phase.next == |a.children|
    ensures ActorWork(Wound(a)) < ActorWork(a)
  {
  }

  lemma NextChildUses(a: Actor)
    requires a.phase.Stopping? && a.phase.next < |a.children|
    ensures ActorWork(NextChild(a)) + 2 == ActorWork(a)
  {
  }

  /** An escalation pays for the permit it gives. */
  lemma DecideUses(a: Actor, now: Instant)
    requires a.phase.Deciding?
    ensures ActorWork(Decide(a, now)) < ActorWork(a)
    ensures EscalatesNow(a) ==> ActorWork(Decide(a, now)) + 4 <= ActorWork(a)
  {
  }

  lemma TellUses(s: Tree, a: nat)
    requires Enabled(s, TellChild(a)) && s.actors[a].children[s.actors[a].phase.next] != a
    ensures Work(Apply(s, TellChild(a)).actors) < Work(s.actors)
  {
    var c := s.actors[a].children[s.actors[a].phase.next];
    var told := s.actors[c := AskStop(s.actors[c])];
    WorkPut(s.actors, c, AskStop(s.actors[c]));
    WorkPut(told, a, NextChild(s.actors[a]));
    NextChildUses(s.actors[a]);
  }

  lemma SettleUses(s: Tree, a: nat)
    requires Enabled(s, Settle(a)) && s.actors[a].parent.value.actor != a
    ensures Work(Apply(s, Settle(a)).actors) < Work(s.actors)
  {
    DecideUses(s.actors[a], s.now);
    if EscalatesNow(s.actors[a]) {
      var link := s.actors[a].parent.value;
      var b := AskEscalate(s.actors[link.actor], link.gen, s.actors[a].phase.why.panic);
      WorkPut(s.actors, link.actor, b);
      WorkPut(s.actors[link.actor := b], a, Decide(s.actors[a], s.now));
    } else {
      WorkPut(s.actors, a, Decide(s.actors[a], s.now));
    }
  }

  lemma LoopUses(s: Tree, a: nat, w: World)
    requires Enabled(s, Loop(a, w))
    ensures var after := Work(Apply(s, Loop(a, w)).actors);
            if Works(s, Loop(a, w)) then after < Work(s.actors) else after == Work(s.actors)
  {
    WorkPut(s.actors, a, Turn(s.actors[a], w));
    if Works(s, Loop(a, w)) {
      TurnUses(s.actors[a], w);
    }
  }

  lemma StepUses(s: Tree, l: Label)
    requires TreeInv(s) && Enabled(s, l) && Internal(l)
    ensures var after := Work(Apply(s, l).actors);
            if Works(s, l) then after < Work(s.actors) else after == Work(s.actors)
  {
    match l
    case Pass(_) =>
    case Loop(a, w) => LoopUses(s, a, w);
    case TellChild(a) =>
      assert ChildrenOk(s.actors, a);
      TellUses(s, a);
    case Wind(a) =>
      WorkPut(s.actors, a, Wound(s.actors[a]));
      WoundUses(s.actors[a]);
    case Settle(a) =>
      assert LinkOk(s.actors, a);
      SettleUses(s, a);
  }

  // ---------- Whole runs ----------

  /** How many of the steps from `j` to before `k` work. */
  function Working(run: seq<Tree>, labels: seq<Label>, j: nat, k: nat): nat
    requires IsRun(run, labels) && j <= k < |run|
    decreases k - j
  {
    if j == k then 0 else (if Works(run[j], labels[j]) then 1 else 0) + Working(run, labels, j + 1, k)
  }

  /** Some actor can do something without being asked to shut down. */
  ghost predicate CanWork(s: Tree) {
    exists l :: Enabled(s, l) && Works(s, l) && (l.Loop? ==> !l.w.shutdown)
  }

  lemma BusyCanWork(s: Tree, a: nat)
    requires TreeInv(s) && a < |s.actors| && !s.actors[a].phase.Dead?
    requires s.actors[a].phase.Looping? ==>
               s.actors[a].queue != [] || s.actors[a].stopPermit || s.actors[a].escPermit.Some?
    ensures CanWork(s)
  {
    At(s, a);
    var x := s.actors[a];
    match x.phase
    case Looping =>
      var l := Loop(a, World(false, false, false, |s.panics|));
      assert Enabled(s, l) && Works(s, l);
    case Stopping(_, next) =>
      if next < |x.children| {
        assert ChildrenOk(s.actors, a);
        assert Enabled(s, TellChild(a)) && Works(s, TellChild(a));
      } else {
        assert Enabled(s, Wind(a)) && Works(s, Wind(a));
      }
    case Deciding(_) =>
      assert LifeInv(x);
      assert Enabled(s, Settle(a)) && Works(s, Settle(a));
  }

  lemma RestIsNoWork(s: Tree)
    requires TreeInv(s)
    ensures AtRest(s) <==> !CanWork(s)
  {
    if !AtRest(s) {
      var a :| 0 <= a < |s.actors| && !s.actors[a].phase.Dead?
               && !(s.actors[a].phase.Looping? && s.actors[a].queue == [] && !s.actors[a].stopPermit
                    && s.actors[a].escPermit.None?);
      BusyCanWork(s, a);
    }
  }

  lemma {:induction false} WorkingBounded(run: seq<Tree>, labels: seq<Label>, j: nat, k: nat)
    requires IsRun(run, labels) && j <= k < |run|
    requires forall i :: j <= i < k ==> Internal(labels[i])
    ensures Working(run, labels, j, k) + Work(run[k].actors) <= Work(run[j].actors)
    decreases k - j
  {
    if j < k {
      RunsKeep(run, labels, j);
      StepUses(run[j], labels[j]);
      WorkingBounded(run, labels, j + 1, k);
    }
  }

  /**
   Once nothing is spawned, sent or stopped from outside any more, however the actors are scheduled, whatever handlers
   panic and whenever shutdown is seen: the number of steps that do anything is bounded by the messages, permits,
   untold children and live instances there are, and a tree in which nobody can go on is at rest, and conversely.
   */
  lemma TreesComeToRest(run: seq<Tree>, labels: seq<Label>, j: nat, k: nat)
    requires IsRun(run, labels) && j <= k < |run|
    requires forall i :: j <= i < k ==> Internal(labels[i])
    ensures Working(run, labels, j, k) <= Work(run[j].actors)
    ensures AtRest(run[k]) <==> !CanWork(run[k])
  {
    WorkingBounded(run, labels, j, k);
    RunsKeep(run, labels, k);
    RestIsNoWork(run[k]);
  }
}
