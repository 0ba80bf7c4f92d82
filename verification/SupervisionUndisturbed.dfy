/**
 Trees that nobody disturbs: no stop is called from outside and no shutdown seen. Then an instance ends gracefully only
 because the one that spawned it is over, and a single panic reaches all of its chain.
 */
module SupervisionUndisturbed {
  import opened Basics
  import opened ActorLife
  import opened SupervisionTree
  import opened SupervisionTheorems

  predicate Disturbs(l: Label) {
    l.CallStop? || (l.Loop? && l.w.shutdown)
  }

  /** The instance that spawned this actor is over. */
  predicate SpawnerOver(actors: seq<Actor>, a: Actor) {
    && a.parent.Some? && a.parent.value.actor < |actors|
    && |actors[a.parent.value.actor].ends| > a.parent.value.gen
  }

  predicate Told(a: Actor) {
    a.stopPermit || Graceful in a.ends
  }

  ghost predicate OnlyFromAbove(s: Tree) {
    forall c :: 0 <= c < |s.actors| && Told(s.actors[c]) ==> SpawnerOver(s.actors, s.actors[c])
  }

  /** Changing one actor keeps this if its ends only grow and it is told only if it was, or its spawner is over. */
  lemma PutFromAbove(s: Tree, a: nat, b: Actor)
    requires OnlyFromAbove(s) && a < |s.actors| && s.actors[a].ends <= b.ends && b.parent == s.actors[a].parent
    requires Told(b) ==> Told(s.actors[a]) || SpawnerOver(s.actors, b)
    ensures OnlyFromAbove(Put(s, a, b))
  {
    var t := Put(s, a, b);
    forall c | 0 <= c < |t.actors| && Told(t.actors[c])
      ensures SpawnerOver(t.actors, t.actors[c])
    {
      assert c != a ==> SpawnerOver(s.actors, s.actors[c]);
    }
  }

  lemma SpawnFromAbove(s: Tree, child: Actor)
    requires OnlyFromAbove(s) && !Told(child)
    ensures OnlyFromAbove(Spawn(s, child))
  {
    var t := Spawn(s, child);
    forall c | 0 <= c < |t.actors| && Told(t.actors[c])
      ensures SpawnerOver(t.actors, t.actors[c])
    {
      assert c < |s.actors| && SpawnerOver(s.actors, s.actors[c]);
    }
  }

  lemma TurnTold(a: Actor, w: World)
    requires a.phase.Looping? && !w.shutdown
    ensures var b := Turn(a, w); a.ends <= b.ends && b.parent == a.parent && (Told(b) ==> Told(a))
  {
  }

  lemma DecideTold(a: Actor, now: Instant)
    requires a.phase.Deciding?
    ensures var b := Decide(a, now); a.ends == b.ends && b.parent == a.parent && b.stopPermit == a.stopPermit
  {
  }

  lemma TellFromAbove(s: Tree, a: nat)
    requires TreeInv(s) && OnlyFromAbove(s) && Enabled(s, TellChild(a))
    ensures OnlyFromAbove(Apply(s, TellChild(a)))
  {
    var x := s.actors[a];
    var c := x.children[x.phase.next];
    At(s, a);
    assert ChildrenOk(s.actors, a);
    PutFromAbove(s, c, AskStop(s.actors[c]));
    PutFromAbove(Put(s, c, AskStop(s.actors[c])), a, NextChild(x));
  }

  lemma SettleFromAbove(s: Tree, a: nat)
    requires TreeInv(s) && OnlyFromAbove(s) && Enabled(s, Settle(a))
    ensures OnlyFromAbove(Apply(s, Settle(a)))
  {
    assert LinkOk(s.actors, a);
    if EscalatesNow(s.actors[a]) {
      var link := s.actors[a].parent.value;
      PutFromAbove(s, link.actor, AskEscalate(s.actors[link.actor], link.gen, s.actors[a].phase.why.panic));
    }
    DecideTold(s.actors[a], s.now);
    PutFromAbove(Escalated(s, a), a, Decide(s.actors[a], s.now));
  }

  lemma SpawnChildFromAbove(s: Tree, p: nat, strategy: Strategy, capacity: nat)
    requires OnlyFromAbove(s) && Enabled(s, SpawnChild(p, strategy, capacity))
    ensures OnlyFromAbove(Apply(s, SpawnChild(p, strategy, capacity)))
  {
    var child := Newborn(Some(Link(p, s.actors[p].gen)), strategy, capacity);
    SpawnFromAbove(s, child);
    PutFromAbove(Spawn(s, child), p, Adopt(s.actors[p], |s.actors|));
  }

  lemma StepFromAbove(s: Tree, l: Label)
    requires TreeInv(s) && OnlyFromAbove(s) && Enabled(s, l) && !Disturbs(l)
    ensures OnlyFromAbove(Apply(s, l))
  {
    match l
    case Pass(_) =>
    case SpawnTop(capacity) => SpawnFromAbove(s, Newborn(None, Stop, capacity));
    case SpawnChild(p, strategy, capacity) => SpawnChildFromAbove(s, p, strategy, capacity);
    case Send(a, m) => PutFromAbove(s, a, Offer(s.actors[a], m).0);
    case Loop(a, w) =>
      TurnTold(s.actors[a], w);
      assert OnlyFromAbove(Panicked(s, a, w));
      PutFromAbove(Panicked(s, a, w), a, Turn(s.actors[a], w));
    case TellChild(a) => TellFromAbove(s, a);
    case Wind(a) => PutFromAbove(s, a, Wound(s.actors[a]));
    case Settle(a) => SettleFromAbove(s, a);
  }

  ghost predicate Undisturbed(labels: seq<Label>, k: nat) {
    k <= |labels| && forall i :: 0 <= i < k ==> !Disturbs(labels[i])
  }

  lemma {:induction false} RunsFromAbove(run: seq<Tree>, labels: seq<Label>, k: nat)
    requires IsRun(run, labels) && k < |run| && Undisturbed(labels, k)
    ensures OnlyFromAbove(run[k])
  {
    if k > 0 {
      RunsFromAbove(run, labels, k - 1);
      RunsKeep(run, labels, k - 1);
      StepFromAbove(run[k - 1], labels[k - 1]);
    }
  }

  /** Undisturbed, every graceful end goes back to a failure further up. */
  lemma {:induction false} GracefulGoesBack(s: Tree, p: nat) returns (a: nat, i: nat, panic: nat)
    requires TreeInv(s) && OnlyFromAbove(s) && p < |s.actors| && Graceful in s.actors[p].ends
    ensures a < p && FailedBy(s.actors[a], i, panic)
    decreases p
  {
    var link := s.actors[p].parent.value;
    assert SpawnerOver(s.actors, s.actors[p]) && LinkOk(s.actors, p);
    var end := s.actors[link.actor].ends[link.gen];
    if end.Failed? {
      a, i, panic := link.actor, link.gen, end.panic;
    } else {
      a, i, panic := GracefulGoesBack(s, link.actor);
    }
  }

  /** With one panic and no disturbance nothing is cut off: what would cut is above the panic's own failures. */
  lemma NeverCut(s: Tree, z: nat)
    requires TreeInv(s) && OnlyFromAbove(s) && |s.panics| == 1 && z < |s.actors|
    requires OnChain(s.actors, s.panics[0].actor, z)
    ensures !Cut(s.actors, z, 0)
  {
    if Cut(s.actors, z, 0) {
      var link := s.actors[z].parent.value;
      var end := s.actors[link.actor].ends[link.gen];
      assert LinkOk(s.actors, z);
      if end.Failed? {
        var c := FailureCause(s, link.actor, link.gen, end.panic);
      } else {
        var a, i, panic := GracefulGoesBack(s, link.actor);
        var c := FailureCause(s, a, i, panic);
        FailureUncut(s, a, i, 0, z);
      }
    }
  }

  /**
   One panic in a tree that nobody stops or shuts down: once at rest, every actor of its chain has failed exactly once,
   no other actor at all, and every escalating actor of the chain is dead.
   */
  lemma UndisturbedPanic(run: seq<Tree>, labels: seq<Label>, k: nat, y: nat)
    requires IsRun(run, labels) && k < |run| && AtRest(run[k]) && |run[k].panics| == 1 && y < |run[k].actors|
    requires Undisturbed(labels, k)
    ensures var s := run[k];
            var onChain := OnChain(s.actors, s.panics[0].actor, y);
            && Failures(s.actors[y].ends, 0) == (if onChain then 1 else 0)
            && (onChain && s.actors[y].strategy.Escalate? && s.actors[y].parent.Some? ==> s.actors[y].phase.Dead?)
  {
    var s := run[k];
    OnePanicOneFailureEach(run, labels, k, 0, y);
    RunsKeep(run, labels, k);
    RunsFromAbove(run, labels, k);
    forall z | y < z < |s.actors| && OnChain(s.actors, s.panics[0].actor, z)
      ensures !Cut(s.actors, z, 0)
    {
      NeverCut(s, z);
    }
  }
}
