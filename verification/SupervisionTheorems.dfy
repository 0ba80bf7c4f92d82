/** What supervision guarantees over every run of every tree. */
module SupervisionTheorems {
  import opened Tracker
  import opened ActorLife
  import opened SupervisionTree

  /** Nothing is left to do: every actor is dead, or waits in its loop with no message and no permit. */
  predicate AtRest(s: Tree) {
    forall a :: 0 <= a < |s.actors| ==>
      || s.actors[a].phase.Dead?
      || (s.actors[a].phase.Looping? && s.actors[a].queue == []
          && !s.actors[a].stopPermit && s.actors[a].escPermit.None?)
  }

  // ---------- No orphans ----------

  /** The actor lives, and so does the instance that spawned it, and so on up to a top-level actor. */
  predicate Anchored(actors: seq<Actor>, c: nat) {
    && c < |actors| && actors[c].phase.Looping?
    && (actors[c].parent.Some? ==>
          var link := actors[c].parent.value;
          link.actor < c && actors[link.actor].gen == link.gen && c in actors[link.actor].children
          && Anchored(actors, link.actor))
  }

  lemma {:induction false} AnchoredAtRest(s: Tree, c: nat)
    requires TreeInv(s) && AtRest(s) && c < |s.actors| && !s.actors[c].phase.Dead?
    ensures Anchored(s.actors, c)
    decreases c
  {
    assert LinkOk(s.actors, c) && Kept(s.actors, c);
    if s.actors[c].parent.Some? {
      var p := s.actors[c].parent.value.actor;
      assert c in Pending(s.actors[p]);
      AnchoredAtRest(s, p);
    }
  }

  /** In every state of every run a live child under an ended instance is bound to stop, restarts or not. */
  lemma OrphansAreDoomed(run: seq<Tree>, labels: seq<Label>, k: nat, c: nat)
    requires IsRun(run, labels) && k < |run| && c < |run[k].actors| && run[k].actors[c].parent.Some?
    requires var link := run[k].actors[c].parent.value;
             link.actor < |run[k].actors| ==>
               run[k].actors[link.actor].gen != link.gen || !(run[k].actors[link.actor].phase.Looping?
                                                              || run[k].actors[link.actor].phase.Stopping?)
    ensures Doomed(run[k].actors[c])
  {
    RunsKeep(run, labels, k);
    assert LinkOk(run[k].actors, c) && Kept(run[k].actors, c);
  }

  /** Hence once a run has come to rest, no actor lives under an ended instance, at any depth. */
  lemma NoOrphansAtRest(run: seq<Tree>, labels: seq<Label>, k: nat, c: nat)
    requires IsRun(run, labels) && k < |run| && AtRest(run[k])
    requires c < |run[k].actors| && !run[k].actors[c].phase.Dead?
    ensures Anchored(run[k].actors, c)
  {
    RunsKeep(run, labels, k);
    AnchoredAtRest(run[k], c);
  }

  // ---------- Escalation ----------

  /** `y` is `x` or is reached from it by going up over escalating actors, to the first that is not one. */
  predicate OnChain(actors: seq<Actor>, x: nat, y: nat) {
    || x == y
    || (x < |actors| && actors[x].strategy.Escalate? && actors[x].parent.Some? && actors[x].parent.value.actor < x
        && OnChain(actors, actors[x].parent.value.actor, y))
  }

  lemma {:induction false} ChainUp(actors: seq<Actor>, x: nat, c: nat)
    requires c < |actors| && OnChain(actors, x, c)
    requires actors[c].strategy.Escalate? && actors[c].parent.Some? && actors[c].parent.value.actor < c
    ensures OnChain(actors, x, actors[c].parent.value.actor)
    decreases x
  {
    if x != c {
      ChainUp(actors, actors[x].parent.value.actor, c);
    }
  }

  lemma {:induction false} ChainGoesDown(actors: seq<Actor>, x: nat, y: nat)
    requires OnChain(actors, x, y)
    ensures y <= x
    decreases x
  {
    if x != y {
      ChainGoesDown(actors, actors[x].parent.value.actor, y);
    }
  }

  /** There is only one way up: whoever of the chain is not at or above `c`'s parent is at or below `c`. */
  lemma {:induction false} ChainGap(actors: seq<Actor>, x: nat, c: nat, z: nat)
    requires OnChain(actors, x, c) && OnChain(actors, x, z) && c < |actors| && actors[c].parent.Some?
    requires actors[c].parent.value.actor < z
    ensures z >= c
    decreases x
  {
    if x == z {
      ChainGoesDown(actors, x, c);
    } else if x == c {
      ChainGoesDown(actors, actors[x].parent.value.actor, z);
    } else {
      ChainGap(actors, actors[x].parent.value.actor, c, z);
    }
  }

  /** So two members of a chain with the same parent are the same. */
  lemma ChainSiblings(actors: seq<Actor>, x: nat, c: nat, d: nat, p: nat)
    requires OnChain(actors, x, c) && OnChain(actors, x, d) && c < |actors| && d < |actors| && p < c && p < d
    requires actors[c].parent.Some? && actors[c].parent.value.actor == p
    requires actors[d].parent.Some? && actors[d].parent.value.actor == p
    ensures c == d
  {
    ChainGap(actors, x, c, d);
    ChainGap(actors, x, d, c);
  }

  predicate FailedBy(a: Actor, i: nat, panic: nat) {
    i < |a.ends| && a.ends[i] == Failed(panic)
  }

  /** A failure is the instance's own panic or was escalated by a child of that very instance. */
  lemma FailureCause(s: Tree, y: nat, i: nat, panic: nat) returns (c: nat)
    requires TreeInv(s) && y < |s.actors| && FailedBy(s.actors[y], i, panic)
    ensures panic < |s.panics|
    ensures s.panics[panic] == Link(y, i)
            || (y < c < |s.actors| && Escalating(s.actors[c], y, i, panic))
  {
    assert Explained(s, y, i, s.actors[y].ends[i].panic);
    c := 0;
    if s.panics[panic] != Link(y, i) {
      c :| 0 <= c < |s.actors| && Escalating(s.actors[c], y, i, panic);
      assert LinkOk(s.actors, c);
    }
  }

  lemma {:induction false} FailureOnChain(s: Tree, y: nat, i: nat, panic: nat)
    requires TreeInv(s) && y < |s.actors| && FailedBy(s.actors[y], i, panic)
    ensures panic < |s.panics| && OnChain(s.actors, s.panics[panic].actor, y)
    decreases |s.actors| - y
  {
    var c := FailureCause(s, y, i, panic);
    if s.panics[panic] != Link(y, i) {
      FailureOnChain(s, c, 0, panic);
      ChainUp(s.actors, s.panics[panic].actor, c);
    }
  }

  /** One panic fails an actor at most once: no second instance of it pays for the same panic. */
  lemma FailsOnce(s: Tree, y: nat, i: nat, j: nat, panic: nat)
    requires TreeInv(s) && y < |s.actors| && FailedBy(s.actors[y], i, panic) && FailedBy(s.actors[y], j, panic)
    ensures i == j
  {
    var c := FailureCause(s, y, i, panic);
    var d := FailureCause(s, y, j, panic);
    var x := s.panics[panic].actor;
    if s.panics[panic] == Link(y, i) && s.panics[panic] != Link(y, j) {
      FailureOnChain(s, d, 0, panic);
      ChainGoesDown(s.actors, x, d);
    } else if s.panics[panic] != Link(y, i) && s.panics[panic] == Link(y, j) {
      FailureOnChain(s, c, 0, panic);
      ChainGoesDown(s.actors, x, c);
    } else if s.panics[panic] != Link(y, i) {
      FailureOnChain(s, c, 0, panic);
      FailureOnChain(s, d, 0, panic);
      ChainSiblings(s.actors, x, c, d, y);
    }
  }

  /** How many of the ended instances failed because of this panic. */
  function Failures(ends: seq<Cause>, panic: nat): nat {
    if ends == [] then 0
    else Failures(ends[..|ends| - 1], panic) + (if ends[|ends| - 1] == Failed(panic) then 1 else 0)
  }

  lemma {:induction false} CountFailures(ends: seq<Cause>, panic: nat)
    requires forall i, j ::
               0 <= i < |ends| && 0 <= j < |ends| && ends[i] == Failed(panic) && ends[j] == Failed(panic) ==> i == j
    ensures Failures(ends, panic) == if Failed(panic) in ends then 1 else 0
  {
    if ends != [] {
      var n := |ends| - 1;
      CountFailures(ends[..n], panic);
      if ends[n] == Failed(panic) {
        assert Failed(panic) !in ends[..n];
      }
      assert ends == ends[..n] + [ends[n]];
    }
  }

  lemma FailuresAre(s: Tree, y: nat, panic: nat)
    requires TreeInv(s) && y < |s.actors|
    ensures Failures(s.actors[y].ends, panic) == if Failed(panic) in s.actors[y].ends then 1 else 0
  {
    var ends := s.actors[y].ends;
    forall i, j | 0 <= i < |ends| && 0 <= j < |ends| && ends[i] == Failed(panic) && ends[j] == Failed(panic)
      ensures i == j
    {
      FailsOnce(s, y, i, j, panic);
    }
    CountFailures(ends, panic);
  }

  /**
   In every state of every run a panic counts as at most one failure at each actor of its chain, up to the nearest
   actor that does not escalate, and as none anywhere else.
   */
  lemma PanicCountsOncePerChain(run: seq<Tree>, labels: seq<Label>, k: nat, panic: nat, y: nat)
    requires IsRun(run, labels) && k < |run| && panic < |run[k].panics| && y < |run[k].actors|
    ensures Failures(run[k].actors[y].ends, panic) <=
              if OnChain(run[k].actors, run[k].panics[panic].actor, y) then 1 else 0
  {
    RunsKeep(run, labels, k);
    var s := run[k];
    FailuresAre(s, y, panic);
    if Failed(panic) in s.actors[y].ends {
      var i :| 0 <= i < |s.actors[y].ends| && s.actors[y].ends[i] == Failed(panic);
      FailureOnChain(s, y, i, panic);
    }
  }

  /** An instance fails only by its own panic or by one escalated from a child that very instance spawned. */
  lemma FailuresStayInTheirInstance(run: seq<Tree>, labels: seq<Label>, k: nat, y: nat, i: nat, panic: nat)
    requires IsRun(run, labels) && k < |run| && y < |run[k].actors| && FailedBy(run[k].actors[y], i, panic)
    ensures panic < |run[k].panics|
    ensures run[k].panics[panic] == Link(y, i)
            || exists c :: 0 <= c < |run[k].actors| && Escalating(run[k].actors[c], y, i, panic)
  {
    RunsKeep(run, labels, k);
    var c := FailureCause(run[k], y, i, panic);
  }

  /** At rest, an escalating actor that failed is dead and the instance above it is over. */
  lemma EscalationArrived(s: Tree, c: nat)
    requires TreeInv(s) && AtRest(s) && c < |s.actors|
    requires s.actors[c].strategy.Escalate? && s.actors[c].parent.Some?
    requires s.actors[c].ends != [] && s.actors[c].ends[0].Failed?
    ensures s.actors[c].phase.Dead?
    ensures var link := s.actors[c].parent.value; link.actor < c && |s.actors[link.actor].ends| > link.gen
  {
    At(s, c);
    At(s, s.actors[c].parent.value.actor);
    assert ParentHeard(s.actors, c);
  }

  /** The instance that spawned `z`, to which `z` escalates, ended gracefully or by another panic. */
  predicate Cut(actors: seq<Actor>, z: nat, panic: nat) {
    && z < |actors| && actors[z].strategy.Escalate? && actors[z].parent.Some?
    && var link := actors[z].parent.value;
       && link.actor < |actors| && link.gen < |actors[link.actor].ends|
       && actors[link.actor].ends[link.gen] != Failed(panic)
  }

  /** Nobody on the chain from `x` to below `y` is cut off. */
  predicate Clear(actors: seq<Actor>, x: nat, y: nat, panic: nat) {
    forall z :: y < z < |actors| && OnChain(actors, x, z) ==> !Cut(actors, z, panic)
  }

  /** At rest a panic has climbed as far as nothing cut it off. */
  lemma {:induction false} PanicClimbs(s: Tree, x: nat, i: nat, y: nat, panic: nat) returns (j: nat)
    requires TreeInv(s) && AtRest(s) && x < |s.actors| && OnChain(s.actors, x, y)
    requires FailedBy(s.actors[x], i, panic) && Clear(s.actors, x, y, panic)
    ensures y < |s.actors| && FailedBy(s.actors[y], j, panic)
    decreases x
  {
    if x == y {
      j := i;
    } else {
      var link := s.actors[x].parent.value;
      At(s, x);
      EscalationArrived(s, x);
      ChainGoesDown(s.actors, link.actor, y);
      assert OnChain(s.actors, x, x) && !Cut(s.actors, x, panic);
      assert forall z :: OnChain(s.actors, link.actor, z) ==> OnChain(s.actors, x, z);
      j := PanicClimbs(s, link.actor, link.gen, y, panic);
    }
  }

  /** And it has climbed no further: below whoever it failed, nothing cut it off. */
  lemma {:induction false} FailureUncut(s: Tree, y: nat, i: nat, panic: nat, z: nat)
    requires TreeInv(s) && y < |s.actors| && FailedBy(s.actors[y], i, panic)
    requires panic < |s.panics| && OnChain(s.actors, s.panics[panic].actor, z) && y < z
    ensures !Cut(s.actors, z, panic)
    decreases |s.actors| - y
  {
    var c := FailureCause(s, y, i, panic);
    var x := s.panics[panic].actor;
    if s.panics[panic] == Link(y, i) {
      ChainGoesDown(s.actors, x, z);
    } else {
      FailureOnChain(s, c, 0, panic);
      ChainGap(s.actors, x, c, z);
      if z != c {
        FailureUncut(s, c, 0, panic, z);
      }
    }
  }

  /**
   Any run that has come to rest, with any number of panics: a panic is exactly one failure at each actor of its chain
   up to where some escalating actor is cut off, and none at any other actor; every escalating actor it failed is dead.
   */
  lemma OnePanicOneFailureEach(run: seq<Tree>, labels: seq<Label>, k: nat, panic: nat, y: nat)
    requires IsRun(run, labels) && k < |run| && AtRest(run[k]) && panic < |run[k].panics| && y < |run[k].actors|
    ensures var s := run[k];
            var x := s.panics[panic].actor;
            var reached := OnChain(s.actors, x, y) && Clear(s.actors, x, y, panic);
            && Failures(s.actors[y].ends, panic) == (if reached then 1 else 0)
            && (reached && s.actors[y].strategy.Escalate? && s.actors[y].parent.Some? ==> s.actors[y].phase.Dead?)
  {
    var s := run[k];
    var x := s.panics[panic].actor;
    RunsKeep(run, labels, k);
    FailuresAre(s, y, panic);
    if OnChain(s.actors, x, y) && Clear(s.actors, x, y, panic) {
      assert PanicEnded(s, panic);
      var j := PanicClimbs(s, x, s.panics[panic].gen, y, panic);
      if s.actors[y].strategy.Escalate? && s.actors[y].parent.Some? {
        At(s, y);
        EscalationArrived(s, y);
      }
    } else if Failed(panic) in s.actors[y].ends {
      var i :| 0 <= i < |s.actors[y].ends| && s.actors[y].ends[i] == Failed(panic);
      FailureOnChain(s, y, i, panic);
      forall z | y < z < |s.actors| && OnChain(s.actors, x, z)
        ensures !Cut(s.actors, z, panic)
      {
        FailureUncut(s, y, i, panic, z);
      }
    }
  }

  /** The panic goes no further: this actor does not escalate, or is cut off. */
  predicate EndsAt(actors: seq<Actor>, y: nat, panic: nat)
    requires y < |actors|
  {
    !actors[y].strategy.Escalate? || actors[y].parent.None? || Cut(actors, y, panic)
  }

  /**
   So every panic of a run at rest has one last actor on its chain: all from the panicking one up to it failed once,
   it does not escalate or is cut off, and nobody above it failed.
   */
  lemma PanicStopsSomewhere(run: seq<Tree>, labels: seq<Label>, k: nat, panic: nat) returns (last: nat)
    requires IsRun(run, labels) && k < |run| && AtRest(run[k]) && panic < |run[k].panics|
    ensures var s := run[k];
            && last < |s.actors| && OnChain(s.actors, s.panics[panic].actor, last)
            && EndsAt(s.actors, last, panic)
            && forall y :: 0 <= y < |s.actors| ==>
                 Failures(s.actors[y].ends, panic) ==
                 if OnChain(s.actors, s.panics[panic].actor, y) && y >= last then 1 else 0
  {
    last := LastOf(run, labels, k, panic);
    forall y | 0 <= y < |run[k].actors|
      ensures Failures(run[k].actors[y].ends, panic) ==
              if OnChain(run[k].actors, run[k].panics[panic].actor, y) && y >= last then 1 else 0
    {
      FailuresUpTo(run, labels, k, panic, last, y);
    }
  }

  lemma LastOf(run: seq<Tree>, labels: seq<Label>, k: nat, panic: nat) returns (last: nat)
    requires IsRun(run, labels) && k < |run| && panic < |run[k].panics|
    ensures var s := run[k];
            && last < |s.actors| && OnChain(s.actors, s.panics[panic].actor, last)
            && Clear(s.actors, s.panics[panic].actor, last, panic) && EndsAt(s.actors, last, panic)
  {
    RunsKeep(run, labels, k);
    assert PanicEnded(run[k], panic);
    var x := run[k].panics[panic].actor;
    assert Clear(run[k].actors, x, x, panic) by {
      forall z | OnChain(run[k].actors, x, z)
        ensures z <= x
      {
        ChainGoesDown(run[k].actors, x, z);
      }
    }
    ParentsComeFirst(run[k]);
    last := LastReached(run[k].actors, x, x, panic);
  }

  lemma FailuresUpTo(run: seq<Tree>, labels: seq<Label>, k: nat, panic: nat, last: nat, y: nat)
    requires IsRun(run, labels) && k < |run| && AtRest(run[k]) && panic < |run[k].panics|
    requires y < |run[k].actors| && last < |run[k].actors|
    requires OnChain(run[k].actors, run[k].panics[panic].actor, last)
    requires Clear(run[k].actors, run[k].panics[panic].actor, last, panic) && EndsAt(run[k].actors, last, panic)
    ensures Failures(run[k].actors[y].ends, panic) ==
            if OnChain(run[k].actors, run[k].panics[panic].actor, y) && y >= last then 1 else 0
  {
    var s := run[k];
    var x := s.panics[panic].actor;
    OnePanicOneFailureEach(run, labels, k, panic, y);
    if OnChain(s.actors, x, y) {
      ClearToLast(s.actors, x, last, y, panic);
    }
  }

  predicate ParentsFirst(actors: seq<Actor>) {
    forall z :: 0 <= z < |actors| && actors[z].parent.Some? ==> actors[z].parent.value.actor < z
  }

  lemma ParentsComeFirst(s: Tree)
    requires Shaped(s)
    ensures ParentsFirst(s.actors)
  {
    forall z | 0 <= z < |s.actors| && s.actors[z].parent.Some?
      ensures s.actors[z].parent.value.actor < z
    {
      assert LinkOk(s.actors, z);
    }
  }

  /** Climbing from `y`, which nothing below cuts off, to the first that does not escalate or is cut off. */
  lemma {:induction false} LastReached(actors: seq<Actor>, x: nat, y: nat, panic: nat) returns (last: nat)
    requires ParentsFirst(actors) && x < |actors| && y <= x && OnChain(actors, x, y) && Clear(actors, x, y, panic)
    ensures last <= x && OnChain(actors, x, last) && Clear(actors, x, last, panic) && EndsAt(actors, last, panic)
    decreases y
  {
    if EndsAt(actors, y, panic) {
      last := y;
    } else {
      var p := actors[y].parent.value.actor;
      ChainUp(actors, x, y);
      forall z | p < z < |actors| && OnChain(actors, x, z)
        ensures !Cut(actors, z, panic)
      {
        ChainGap(actors, x, y, z);
      }
      last := LastReached(actors, x, p, panic);
    }
  }

  /** Above an actor that does not escalate the chain does not go on. */
  lemma {:induction false} NothingAbove(actors: seq<Actor>, x: nat, last: nat, y: nat)
    requires OnChain(actors, x, last) && last < |actors|
    requires !actors[last].strategy.Escalate? || actors[last].parent.None?
    requires OnChain(actors, x, y)
    ensures y >= last
    decreases x
  {
    if x == y {
      ChainGoesDown(actors, x, last);
    } else if x != last {
      NothingAbove(actors, actors[x].parent.value.actor, last, y);
    }
  }

  lemma ClearToLast(actors: seq<Actor>, x: nat, last: nat, y: nat, panic: nat)
    requires OnChain(actors, x, last) && last < |actors| && Clear(actors, x, last, panic) && EndsAt(actors, last, panic)
    requires OnChain(actors, x, y)
    ensures Clear(actors, x, y, panic) <==> y >= last
  {
    if y < last && !Cut(actors, last, panic) {
      NothingAbove(actors, x, last, y);
    }
  }

  // ---------- Every child of every tree ----------

  /** A dead child, in any run of any tree: complete blocks, one more than its restarts, and one notification, last. */
  lemma EveryDeadChild(run: seq<Tree>, labels: seq<Label>, k: nat, c: nat)
    requires IsRun(run, labels) && k < |run| && c < |run[k].actors|
    requires run[k].actors[c].phase.Dead? && run[k].actors[c].parent.Some?
    ensures var a := run[k].actors[c];
            var n := |a.trace| - 1;
            && n >= 0 && a.trace[n] == Notified && Notified !in a.trace[..n]
            && Blocks(a.trace[..n], a.ends)
            && Starts(a.trace) == |a.ends| == a.gen + 1
            && (!a.strategy.Restart? ==> Starts(a.trace) == 1)
  {
    RunsKeep(run, labels, k);
    DeadChildLife(run[k].actors[c], run[k].now);
  }

  /** A dead top-level actor: one instance, watchers notified once, before `stopped`. */
  lemma EveryDeadTop(run: seq<Tree>, labels: seq<Label>, k: nat, c: nat)
    requires IsRun(run, labels) && k < |run| && c < |run[k].actors|
    requires run[k].actors[c].phase.Dead? && run[k].actors[c].parent.None?
    ensures var a := run[k].actors[c];
            var n := |a.trace| - 2;
            && n >= 0 && a.trace[n..] == [Notified, Stopped] && Notified !in a.trace[..n]
            && Starts(a.trace) == |a.ends| == 1 && BrokenBlock(a.trace[..n], a.ends[0])
  {
    RunsKeep(run, labels, k);
    DeadTopLife(run[k].actors[c], run[k].now);
  }

  /** Nothing accepted is lost, doubled or reordered, and a dead actor has answered everyone. */
  lemma EveryMailbox(run: seq<Tree>, labels: seq<Label>, k: nat, a: nat)
    requires IsRun(run, labels) && k < |run| && a < |run[k].actors|
    ensures var x := run[k].actors[a];
            && x.accepted == x.taken + x.queue && |x.queue| <= x.capacity
            && Indices(x.trace) == UpTo(|x.taken|)
            && (forall i :: i in x.answers ==> (x.answers[i] <==> Handled(i, true) in x.trace))
            && (x.phase.Dead? ==> forall i :: 0 <= i < |x.accepted| ==> i in x.answers)
  {
    RunsKeep(run, labels, k);
    assert MailboxInv(run[k].actors[a]);
  }

  /** No child of any tree is restarted more than `max` times within any stretch of length `within`. */
  lemma EveryRestartLimit(run: seq<Tree>, labels: seq<Label>, k: nat, c: nat, lo: int)
    requires IsRun(run, labels) && k < |run| && c < |run[k].actors| && run[k].actors[c].strategy.Restart?
    ensures var a := run[k].actors[c];
            var grants := Grants(a.asked, a.strategy.max, a.strategy.within);
            a.gen == |grants| && CountIn(grants, lo, lo + a.strategy.within) <= a.strategy.max
  {
    RunsKeep(run, labels, k);
    RestartsAreLimited(run[k].actors[c], run[k].now, lo);
  }
}
