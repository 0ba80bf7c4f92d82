/**
 A whole tree of actors, every task interleaved with every other: spawning, sending, stopping, panicking, the stop
 cascade, restarts and escalation.
 */
module SupervisionTree {
  import opened Basics
  import opened ActorLife

  /** Actors are numbered as they are spawned; `panics[k]` is the instance in which panic number k happened. */
  datatype Tree = Tree(actors: seq<Actor>, now: Instant, panics: seq<Link>)

  datatype Label =
    | Pass(time: nat)
    | SpawnTop(capacity: nat)
    | SpawnChild(p: nat, strategy: Strategy, capacity: nat)
    | Send(a: nat, m: Msg)
    | CallStop(a: nat)
    | Loop(a: nat, w: World)
    | TellChild(a: nat)
    | Wind(a: nat)
    | Settle(a: nat)

  predicate Enabled(s: Tree, l: Label) {
    match l
    case Pass(_) => true
    case SpawnTop(_) => true
    case SpawnChild(p, _, _) => p < |s.actors| && s.actors[p].phase.Looping?
    case Send(a, _) => a < |s.actors|
    case CallStop(a) => a < |s.actors|
    case Loop(a, w) => a < |s.actors| && s.actors[a].phase.Looping? && w.panic == |s.panics|
    case TellChild(a) =>
      && a < |s.actors| && s.actors[a].phase.Stopping? && s.actors[a].phase.next < |s.actors[a].children|
      && s.actors[a].children[s.actors[a].phase.next] < |s.actors|
    case Wind(a) =>
      a < |s.actors| && s.actors[a].phase.Stopping? && s.actors[a].phase.next == |s.actors[a].children|
    case Settle(a) =>
      && a < |s.actors| && s.actors[a].phase.Deciding?
      && s.actors[a].parent.Some? && s.actors[a].parent.value.actor < |s.actors|
  }

  predicate PanicsNow(a: Actor, w: World) {
    Select(a, w) == TakeMessage && w.handlerPanics
  }

  predicate EscalatesNow(a: Actor) {
    a.phase.Deciding? && a.phase.why.Failed? && a.strategy.Escalate? && a.parent.Some?
  }

  function Put(s: Tree, a: nat, b: Actor): Tree
    requires a < |s.actors|
  {
    s.(actors := s.actors[a := b])
  }

  function Spawn(s: Tree, child: Actor): Tree {
    s.(actors := s.actors + [child])
  }

  function Panicked(s: Tree, a: nat, w: World): Tree
    requires a < |s.actors|
  {
    if PanicsNow(s.actors[a], w) then s.(panics := s.panics + [Link(a, s.actors[a].gen)]) else s
  }

  /** A child that escalates notifies its parent's instance before it ends. */
  function Escalated(s: Tree, a: nat): Tree
    requires a < |s.actors| && s.actors[a].parent.Some? && s.actors[a].parent.value.actor < |s.actors|
  {
    if EscalatesNow(s.actors[a]) then
      var link := s.actors[a].parent.value;
      Put(s, link.actor, AskEscalate(s.actors[link.actor], link.gen, s.actors[a].phase.why.panic))
    else s
  }

  function Apply(s: Tree, l: Label): Tree
    requires Enabled(s, l)
  {
    match l
    case Pass(time) => s.(now := s.now + time)
    case SpawnTop(capacity) => Spawn(s, Newborn(None, Stop, capacity))
    case SpawnChild(p, strategy, capacity) =>
      var t := Spawn(s, Newborn(Some(Link(p, s.actors[p].gen)), strategy, capacity));
      Put(t, p, Adopt(t.actors[p], |s.actors|))
    case Send(a, m) => Put(s, a, Offer(s.actors[a], m).0)
    case CallStop(a) => Put(s, a, AskStop(s.actors[a]))
    case Loop(a, w) => Put(Panicked(s, a, w), a, Turn(s.actors[a], w))
    case TellChild(a) =>
      var c := s.actors[a].children[s.actors[a].phase.next];
      var t := Put(s, c, AskStop(s.actors[c]));
      Put(t, a, NextChild(s.actors[a]))
    case Wind(a) => Put(s, a, Wound(s.actors[a]))
    case Settle(a) => Put(Escalated(s, a), a, Decide(s.actors[a], s.now))
  }

  const BARE := Tree([], 0, [])

  predicate IsRun(run: seq<Tree>, labels: seq<Label>) {
    && |run| == |labels| + 1
    && run[0] == BARE
    && forall k :: 0 <= k < |labels| ==> Enabled(run[k], labels[k]) && run[k + 1] == Apply(run[k], labels[k])
  }

  // ---------- Shape: who spawned whom ----------

  predicate LinkOk(actors: seq<Actor>, c: nat)
    requires c < |actors|
  {
    actors[c].parent.Some? ==>
      actors[c].parent.value.actor < c && actors[c].parent.value.gen <= actors[actors[c].parent.value.actor].gen
  }

  predicate ChildrenOk(actors: seq<Actor>, p: nat)
    requires p < |actors|
  {
    forall k :: 0 <= k < |actors[p].children| ==>
      && p < actors[p].children[k] < |actors|
      && actors[actors[p].children[k]].parent == Some(Link(p, actors[p].gen))
  }

  ghost predicate Shaped(s: Tree) {
    && (forall c :: 0 <= c < |s.actors| ==> ActorInv(s.actors[c], s.now))
    && (forall c :: 0 <= c < |s.actors| ==> LinkOk(s.actors, c))
    && (forall p :: 0 <= p < |s.actors| ==> ChildrenOk(s.actors, p))
  }

  /** What no step undoes: parent and strategy stay, instances are only added, and so are the records of their ends. */
  predicate Grows(a: Actor, b: Actor) {
    && b.parent == a.parent && b.strategy == a.strategy
    && a.gen <= b.gen && a.ends <= b.ends
    && (b.children == [] || (b.children == a.children && b.gen == a.gen))
  }

  lemma PutShaped(s: Tree, a: nat, b: Actor)
    requires Shaped(s) && a < |s.actors| && Grows(s.actors[a], b) && ActorInv(b, s.now)
    ensures Shaped(Put(s, a, b))
  {
    var t := Put(s, a, b);
    forall c | 0 <= c < |t.actors|
      ensures LinkOk(t.actors, c)
    {
      assert LinkOk(s.actors, c);
    }
    forall p | 0 <= p < |t.actors|
      ensures ChildrenOk(t.actors, p)
    {
      assert ChildrenOk(s.actors, p);
    }
  }

  lemma SpawnShaped(s: Tree, child: Actor)
    requires Shaped(s) && ActorInv(child, s.now) && child.children == []
    requires child.parent.Some? ==>
               child.parent.value.actor < |s.actors| && child.parent.value.gen <= s.actors[child.parent.value.actor].gen
    ensures Shaped(Spawn(s, child))
  {
    var t := Spawn(s, child);
    forall c | 0 <= c < |t.actors|
      ensures LinkOk(t.actors, c)
    {
      assert c < |s.actors| ==> LinkOk(s.actors, c);
    }
    forall p | 0 <= p < |t.actors|
      ensures ChildrenOk(t.actors, p)
    {
      assert p < |s.actors| ==> ChildrenOk(s.actors, p);
    }
  }

  lemma AdoptShaped(s: Tree, p: nat, c: nat)
    requires Shaped(s) && p < c < |s.actors| && s.actors[c].parent == Some(Link(p, s.actors[p].gen))
    ensures Shaped(Put(s, p, Adopt(s.actors[p], c)))
  {
    var b := Adopt(s.actors[p], c);
    var actors := s.actors[p := b];
    SignalledInv(s.actors[p], b, s.now);
    forall d | 0 <= d < |actors|
      ensures LinkOk(actors, d)
    {
      assert LinkOk(s.actors, d);
    }
    forall q | 0 <= q < |actors|
      ensures ChildrenOk(actors, q)
    {
      assert ChildrenOk(s.actors, q);
      AdoptedChildren(s.actors, p, c, b, q);
    }
  }

  lemma AdoptedChildren(actors: seq<Actor>, p: nat, c: nat, b: Actor, q: nat)
    requires p < c < |actors| && actors[c].parent == Some(Link(p, actors[p].gen)) && b == Adopt(actors[p], c)
    requires q < |actors| && ChildrenOk(actors, q)
    ensures ChildrenOk(actors[p := b], q)
  {
  }

  // ---------- No orphans ----------

  /** Gracefully on its way out: this instance is the last. */
  predicate Leaving(a: Actor) {
    (a.phase.Stopping? && a.phase.why == Graceful) || (a.phase.Deciding? && a.phase.why == Graceful)
  }

  /** Dead, leaving, or with a stop permit that no restart takes away. */
  predicate Doomed(a: Actor) {
    a.phase.Dead? || Leaving(a) || a.stopPermit
  }

  /** The children an instance has yet to answer for. */
  function Pending(a: Actor): seq<nat> {
    if a.phase.Looping? then a.children
    else if a.phase.Stopping? && a.phase.next <= |a.children| then a.children[a.phase.next..]
    else []
  }

  predicate Kept(actors: seq<Actor>, c: nat)
    requires c < |actors| && LinkOk(actors, c)
  {
    actors[c].parent.Some? ==>
      var link := actors[c].parent.value;
      (actors[link.actor].gen == link.gen && c in Pending(actors[link.actor])) || Doomed(actors[c])
  }

  /** Every live child belongs to the running instance that spawned it, or is bound to stop. */
  ghost predicate NoOrphans(s: Tree) {
    forall c :: 0 <= c < |s.actors| ==> LinkOk(s.actors, c) && Kept(s.actors, c)
  }

  lemma PutNoOrphans(s: Tree, a: nat, b: Actor)
    requires Shaped(s) && NoOrphans(s) && a < |s.actors| && Grows(s.actors[a], b)
    requires Shaped(Put(s, a, b))
    requires Doomed(s.actors[a]) ==> Doomed(b)
    requires forall c :: c in Pending(s.actors[a]) && c < |s.actors| ==>
               (b.gen == s.actors[a].gen && c in Pending(b)) || Doomed(s.actors[c])
    ensures NoOrphans(Put(s, a, b))
  {
    var t := Put(s, a, b);
    forall c | 0 <= c < |t.actors|
      ensures LinkOk(t.actors, c) && Kept(t.actors, c)
    {
      assert LinkOk(s.actors, c) && Kept(s.actors, c) && LinkOk(t.actors, c);
    }
  }

  // ---------- Failures and where they come from ----------

  predicate Escalating(a: Actor, p: nat, gen: nat, panic: nat) {
    a.parent == Some(Link(p, gen)) && a.strategy.Escalate? && a.ends == [Failed(panic)]
  }

  /** A child of exactly that instance escalated exactly that panic. */
  ghost predicate Evidence(actors: seq<Actor>, p: nat, gen: nat, panic: nat) {
    exists c :: 0 <= c < |actors| && Escalating(actors[c], p, gen, panic)
  }

  ghost predicate Explained(s: Tree, a: nat, i: nat, panic: nat) {
    panic < |s.panics| && (s.panics[panic] == Link(a, i) || Evidence(s.actors, a, i, panic))
  }

  ghost predicate PermitExplained(s: Tree, a: nat)
    requires a < |s.actors|
  {
    s.actors[a].escPermit.Some? ==> Evidence(s.actors, a, s.actors[a].gen, s.actors[a].escPermit.value)
  }

  /** Every failure and every pending escalation goes back to a panic of that instance or of a child of it. */
  ghost predicate FailuresTraced(s: Tree) {
    && (forall a :: 0 <= a < |s.actors| ==> PermitExplained(s, a))
    && (forall a, i :: 0 <= a < |s.actors| && 0 <= i < |s.actors[a].ends| && s.actors[a].ends[i].Failed? ==>
          Explained(s, a, i, s.actors[a].ends[i].panic))
  }

  /** The instance has been told of an escalation, or is over. */
  predicate Heard(actors: seq<Actor>, p: nat, gen: nat)
    requires p < |actors|
  {
    |actors[p].ends| > gen || (actors[p].gen == gen && actors[p].escPermit.Some?)
  }

  predicate HasEscalated(a: Actor) {
    a.parent.Some? && a.strategy.Escalate? && a.phase.Dead? && a.ends != [] && a.ends[0].Failed?
  }

  predicate ParentHeard(actors: seq<Actor>, c: nat)
    requires c < |actors|
  {
    HasEscalated(actors[c]) ==>
      LinkOk(actors, c) && Heard(actors, actors[c].parent.value.actor, actors[c].parent.value.gen)
  }

  ghost predicate FailuresHeard(s: Tree) {
    forall c :: 0 <= c < |s.actors| ==> ParentHeard(s.actors, c)
  }

  predicate PanicEnded(s: Tree, k: nat)
    requires k < |s.panics|
  {
    && s.panics[k].actor < |s.actors| && s.panics[k].gen < |s.actors[s.panics[k].actor].ends|
    && s.actors[s.panics[k].actor].ends[s.panics[k].gen] == Failed(k)
  }

  /** Every panic has ended the instance it happened in. */
  ghost predicate PanicsEnded(s: Tree) {
    forall k :: 0 <= k < |s.panics| ==> PanicEnded(s, k)
  }

  /** An escalating child has one instance and one end, so evidence never goes away. */
  lemma EvidenceStays(actors: seq<Actor>, a: nat, b: Actor, p: nat, gen: nat, panic: nat)
    requires a < |actors| && Grows(actors[a], b) && (b.strategy.Escalate? ==> |b.ends| <= 1)
    requires Evidence(actors, p, gen, panic)
    ensures Evidence(actors[a := b], p, gen, panic)
  {
    var c :| 0 <= c < |actors| && Escalating(actors[c], p, gen, panic);
    assert Escalating(actors[a := b][c], p, gen, panic);
  }

  lemma PutTraced(s: Tree, a: nat, b: Actor)
    requires FailuresTraced(s) && a < |s.actors| && Grows(s.actors[a], b) && (b.strategy.Escalate? ==> |b.ends| <= 1)
    requires b.escPermit.Some? ==> Evidence(s.actors, a, b.gen, b.escPermit.value)
    requires forall i :: |s.actors[a].ends| <= i < |b.ends| && b.ends[i].Failed? ==> Explained(s, a, i, b.ends[i].panic)
    ensures FailuresTraced(Put(s, a, b))
  {
    var t := Put(s, a, b);
    forall d | 0 <= d < |t.actors|
      ensures PermitExplained(t, d)
    {
      assert PermitExplained(s, d);
      if t.actors[d].escPermit.Some? {
        EvidenceStays(s.actors, a, b, d, t.actors[d].gen, t.actors[d].escPermit.value);
      }
    }
    forall d, i | 0 <= d < |t.actors| && 0 <= i < |t.actors[d].ends| && t.actors[d].ends[i].Failed?
      ensures Explained(t, d, i, t.actors[d].ends[i].panic)
    {
      var k := t.actors[d].ends[i].panic;
      assert Explained(s, d, i, k);
      if s.panics[k] != Link(d, i) {
        EvidenceStays(s.actors, a, b, d, i, k);
      }
    }
  }

  lemma PutHeard(s: Tree, a: nat, b: Actor)
    requires FailuresHeard(s) && a < |s.actors| && Grows(s.actors[a], b)
    requires HasEscalated(b) ==> LinkOk(s.actors, a) && Heard(s.actors, b.parent.value.actor, b.parent.value.gen)
    requires s.actors[a].escPermit.Some? ==>
               (b.gen == s.actors[a].gen && b.escPermit.Some?) || |b.ends| > s.actors[a].gen
    ensures FailuresHeard(Put(s, a, b))
  {
    var t := Put(s, a, b);
    forall c | 0 <= c < |t.actors|
      ensures ParentHeard(t.actors, c)
    {
      assert ParentHeard(s.actors, c);
    }
  }

  lemma PutEnded(s: Tree, a: nat, b: Actor)
    requires PanicsEnded(s) && a < |s.actors| && Grows(s.actors[a], b)
    ensures PanicsEnded(Put(s, a, b))
  {
    forall k | 0 <= k < |s.panics|
      ensures PanicEnded(Put(s, a, b), k)
    {
      assert PanicEnded(s, k);
    }
  }

  // ---------- Every step keeps it all ----------

  ghost predicate Sound(s: Tree) {
    Shaped(s) && NoOrphans(s) && FailuresTraced(s) && FailuresHeard(s)
  }

  ghost predicate TreeInv(s: Tree) {
    Sound(s) && PanicsEnded(s)
  }

  /** What a change of one actor must respect, as a child and as a parent, for the invariant to survive it. */
  ghost predicate Respects(s: Tree, a: nat, x: Actor, b: Actor) {
    && Grows(x, b) && (b.strategy.Escalate? ==> |b.ends| <= 1)
    && (Doomed(x) ==> Doomed(b))
    && (forall c :: c in Pending(x) && c < |s.actors| ==> (b.gen == x.gen && c in Pending(b)) || Doomed(s.actors[c]))
    && (b.escPermit.Some? ==> Evidence(s.actors, a, b.gen, b.escPermit.value))
    && (forall i :: |x.ends| <= i < |b.ends| && b.ends[i].Failed? ==> Explained(s, a, i, b.ends[i].panic))
    && (HasEscalated(b) ==>
          a < |s.actors| && LinkOk(s.actors, a) && b.parent == s.actors[a].parent
          && Heard(s.actors, b.parent.value.actor, b.parent.value.gen))
    && (x.escPermit.Some? ==> (b.gen == x.gen && b.escPermit.Some?) || |b.ends| > x.gen)
  }

  lemma PutKeeps(s: Tree, a: nat, b: Actor)
    requires Sound(s) && a < |s.actors| && ActorInv(b, s.now) && Respects(s, a, s.actors[a], b)
    ensures Sound(Put(s, a, b))
    ensures PanicsEnded(s) ==> PanicsEnded(Put(s, a, b))
  {
    PutShaped(s, a, b);
    PutNoOrphans(s, a, b);
    PutTraced(s, a, b);
    PutHeard(s, a, b);
    if PanicsEnded(s) {
      PutEnded(s, a, b);
    }
  }

  /** The few facts about one actor the steps below build on. */
  lemma At(s: Tree, a: nat)
    requires Sound(s) && a < |s.actors|
    ensures var x := s.actors[a];
            && |x.ends| == x.gen + (if x.phase.Looping? then 0 else 1)
            && (!x.strategy.Restart? || x.parent.None? ==> x.gen == 0)
            && (x.phase.Stopping? ==> x.phase.next <= |x.children| && x.phase.why == x.ends[x.gen])
            && (x.phase.Deciding? ==> x.phase.why == x.ends[x.gen])
            && (x.escPermit.Some? ==> Evidence(s.actors, a, x.gen, x.escPermit.value))
            && LinkOk(s.actors, a) && ParentHeard(s.actors, a) && ActorInv(x, s.now)
  {
    assert LifeInv(s.actors[a]);
    assert PermitExplained(s, a);
  }

  /** A message, a stop permit: nothing the tree depends on is taken away. */
  lemma SignalKeeps(s: Tree, a: nat, b: Actor)
    requires TreeInv(s) && a < |s.actors| && ActorInv(b, s.now)
    requires b == s.actors[a].(stopPermit := b.stopPermit, queue := b.queue, accepted := b.accepted)
    requires s.actors[a].stopPermit ==> b.stopPermit
    ensures TreeInv(Put(s, a, b))
  {
    At(s, a);
    PutKeeps(s, a, b);
  }

  /** A turn of the loop, seen from the tree: it goes on, or is left for a reason. */
  predicate LoopStep(x: Actor, b: Actor) {
    && b.parent == x.parent && b.strategy == x.strategy && b.gen == x.gen && b.children == x.children
    && x.phase.Looping?
    && if b.phase.Looping? then b.ends == x.ends && b.stopPermit == x.stopPermit && b.escPermit == x.escPermit
       else
         && b.phase.Stopping? && b.phase.next == 0 && b.ends == x.ends + [b.phase.why]
         && (b.phase.why == Graceful || b.stopPermit == x.stopPermit)
         && (b.escPermit == x.escPermit || b.escPermit.None?)
  }

  lemma TurnIsLoopStep(x: Actor, w: World)
    requires x.phase.Looping?
    ensures LoopStep(x, Turn(x, w))
    ensures Turn(x, w).phase.Stopping? && Turn(x, w).phase.why.Failed? ==>
              if PanicsNow(x, w) then Turn(x, w).phase.why == Failed(w.panic)
              else x.escPermit == Some(Turn(x, w).phase.why.panic)
    ensures PanicsNow(x, w) ==> Turn(x, w).phase.Stopping? && Turn(x, w).phase.why.Failed?
  {
  }

  lemma LoopStepKeeps(s: Tree, a: nat, x: Actor, b: Actor)
    requires Sound(s) && a < |s.actors| && s.actors[a] == x && LoopStep(x, b) && ActorInv(b, s.now)
    requires b.phase.Stopping? && b.phase.why.Failed? ==> Explained(s, a, x.gen, b.phase.why.panic)
    ensures Sound(Put(s, a, b))
    ensures PanicsEnded(s) ==> PanicsEnded(Put(s, a, b))
  {
    At(s, a);
    LoopStepRespects(s, a, x, b);
    PutKeeps(s, a, b);
  }

  lemma LoopStepRespects(s: Tree, a: nat, x: Actor, b: Actor)
    requires LoopStep(x, b) && |x.ends| == x.gen && (x.strategy.Escalate? ==> x.gen == 0)
    requires x.escPermit.Some? ==> Evidence(s.actors, a, x.gen, x.escPermit.value)
    requires b.phase.Stopping? && b.phase.why.Failed? ==> Explained(s, a, x.gen, b.phase.why.panic)
    ensures Respects(s, a, x, b)
  {
    assert Pending(b) == Pending(x) by {
      assert b.children[0..] == b.children;
    }
  }

  lemma MorePanics(s: Tree, link: Link)
    requires Sound(s)
    ensures Sound(s.(panics := s.panics + [link]))
  {
    var t := s.(panics := s.panics + [link]);
    forall a | 0 <= a < |t.actors|
      ensures PermitExplained(t, a)
    {
      assert PermitExplained(s, a);
    }
    forall a, i | 0 <= a < |t.actors| && 0 <= i < |t.actors[a].ends| && t.actors[a].ends[i].Failed?
      ensures Explained(t, a, i, t.actors[a].ends[i].panic)
    {
      assert Explained(s, a, i, s.actors[a].ends[i].panic);
    }
  }

  lemma LoopKeeps(s: Tree, a: nat, w: World)
    requires TreeInv(s) && Enabled(s, Loop(a, w))
    ensures TreeInv(Apply(s, Loop(a, w)))
  {
    var x := s.actors[a];
    var b := Turn(x, w);
    At(s, a);
    TurnInv(x, w, s.now);
    TurnIsLoopStep(x, w);
    if PanicsNow(x, w) {
      MorePanics(s, Link(a, x.gen));
      PanicKeeps(s, a, x, b);
    } else {
      LoopStepKeeps(s, a, x, b);
    }
  }

  /** A panic is recorded together with the end it brings about. */
  lemma PanicKeeps(s: Tree, a: nat, x: Actor, b: Actor)
    requires TreeInv(s) && a < |s.actors| && s.actors[a] == x && LoopStep(x, b) && ActorInv(b, s.now)
    requires Sound(s.(panics := s.panics + [Link(a, x.gen)]))
    requires b.phase.Stopping? && b.phase.why == Failed(|s.panics|)
    ensures TreeInv(Put(s.(panics := s.panics + [Link(a, x.gen)]), a, b))
  {
    var t := s.(panics := s.panics + [Link(a, x.gen)]);
    var u := Put(t, a, b);
    At(s, a);
    LoopStepKeeps(t, a, x, b);
    forall k | 0 <= k < |u.panics|
      ensures PanicEnded(u, k)
    {
      assert k < |s.panics| ==> PanicEnded(s, k);
    }
  }

  lemma StopKeeps(s: Tree, c: nat)
    requires TreeInv(s) && c < |s.actors|
    ensures TreeInv(Put(s, c, AskStop(s.actors[c])))
  {
    At(s, c);
    SignalledInv(s.actors[c], AskStop(s.actors[c]), s.now);
    SignalKeeps(s, c, AskStop(s.actors[c]));
  }

  lemma TellKeeps(s: Tree, a: nat)
    requires TreeInv(s) && Enabled(s, TellChild(a))
    ensures TreeInv(Apply(s, TellChild(a)))
  {
    var x := s.actors[a];
    var c := x.children[x.phase.next];
    assert c != a by {
      assert ChildrenOk(s.actors, a);
    }
    assert ActorInv(NextChild(x), s.now) by {
      At(s, a);
      AllToldInv(x, x.phase.next + 1, s.now);
    }
    StopKeeps(s, c);
    ToldKeeps(Put(s, c, AskStop(s.actors[c])), a, x, NextChild(x), c);
  }

  lemma ToldKeeps(s: Tree, a: nat, x: Actor, b: Actor, c: nat)
    requires TreeInv(s) && a < |s.actors| && s.actors[a] == x && ActorInv(b, s.now)
    requires x.phase.Stopping? && x.phase.next < |x.children| && x.children[x.phase.next] == c
    requires b == x.(phase := Stopping(x.phase.why, x.phase.next + 1))
    requires c < |s.actors| && s.actors[c].stopPermit
    ensures TreeInv(Put(s, a, b))
  {
    ToldRespects(s, a, x, b, c);
    PutKeeps(s, a, b);
  }

  lemma ToldRespects(s: Tree, a: nat, x: Actor, b: Actor, c: nat)
    requires Sound(s) && a < |s.actors| && s.actors[a] == x
    requires x.phase.Stopping? && x.phase.next < |x.children| && x.children[x.phase.next] == c
    requires b == x.(phase := Stopping(x.phase.why, x.phase.next + 1))
    requires c < |s.actors| && s.actors[c].stopPermit
    ensures Respects(s, a, x, b)
  {
    At(s, a);
    var k := x.phase.next;
    assert x.children[k..] == [c] + x.children[k + 1..];
  }

  lemma WindKeeps(s: Tree, a: nat)
    requires TreeInv(s) && Enabled(s, Wind(a))
    ensures TreeInv(Apply(s, Wind(a)))
  {
    At(s, a);
    WoundInv(s.actors[a], s.now);
    WoundKeeps(s, a, s.actors[a], Wound(s.actors[a]));
  }

  lemma WoundKeeps(s: Tree, a: nat, x: Actor, b: Actor)
    requires TreeInv(s) && a < |s.actors| && s.actors[a] == x && ActorInv(b, s.now)
    requires x.phase.Stopping? && x.phase.next == |x.children|
    requires b.(trace := x.trace, answers := x.answers, phase := x.phase) == x
    requires b.phase == if x.parent.None? then Dead else Deciding(x.phase.why)
    ensures TreeInv(Put(s, a, b))
  {
    At(s, a);
    PutKeeps(s, a, b);
  }

  /** The escalating child is itself the evidence its parent's permit needs. */
  lemma EscalatedKeeps(s: Tree, a: nat)
    requires TreeInv(s) && Enabled(s, Settle(a))
    ensures TreeInv(Escalated(s, a)) && Escalated(s, a).actors[a] == s.actors[a] && Escalated(s, a).now == s.now
    ensures |Escalated(s, a).actors| == |s.actors|
    ensures EscalatesNow(s.actors[a]) ==>
              Heard(Escalated(s, a).actors, s.actors[a].parent.value.actor, s.actors[a].parent.value.gen)
  {
    var x := s.actors[a];
    At(s, a);
    if EscalatesNow(x) {
      var link := x.parent.value;
      assert x.ends == [Failed(x.phase.why.panic)];
      assert Escalating(s.actors[a], link.actor, link.gen, x.phase.why.panic);
      AskEscalateKeeps(s, link.actor, link.gen, x.phase.why.panic);
    }
  }

  lemma AskEscalateKeeps(s: Tree, p: nat, gen: nat, panic: nat)
    requires TreeInv(s) && p < |s.actors| && gen <= s.actors[p].gen && Evidence(s.actors, p, gen, panic)
    ensures var t := Put(s, p, AskEscalate(s.actors[p], gen, panic)); TreeInv(t) && Heard(t.actors, p, gen)
  {
    var y := s.actors[p];
    var b := AskEscalate(y, gen, panic);
    SignalledInv(y, b, s.now);
    At(s, p);
    AskEscalateRespects(s, p, y, b, gen, panic);
    PutKeeps(s, p, b);
  }

  lemma AskEscalateRespects(s: Tree, p: nat, y: Actor, b: Actor, gen: nat, panic: nat)
    requires p < |s.actors| && y == s.actors[p] && b == AskEscalate(y, gen, panic)
    requires gen <= y.gen <= |y.ends| && (y.strategy.Escalate? ==> |y.ends| <= 1)
    requires Evidence(s.actors, p, gen, panic) && PermitExplained(s, p)
    requires LinkOk(s.actors, p) && ParentHeard(s.actors, p)
    ensures Respects(s, p, y, b) && Heard(s.actors[p := b], p, gen)
  {
  }

  /** A decision, seen from the tree: the actor dies, or a failed instance is followed by another. */
  predicate Decision(x: Actor, b: Actor) {
    && b.parent == x.parent && b.strategy == x.strategy && b.ends == x.ends && b.stopPermit == x.stopPermit
    && x.phase.Deciding?
    && ( || (b.phase.Dead? && b.gen == x.gen && b.children == x.children && b.escPermit == x.escPermit)
         || (b.phase.Looping? && x.phase.why.Failed? && x.strategy.Restart?
             && b.gen == x.gen + 1 && b.children == [] && b.escPermit.None?))
  }

  lemma DecideIsDecision(x: Actor, now: Instant)
    requires x.phase.Deciding?
    ensures Decision(x, Decide(x, now))
  {
  }

  lemma DecisionKeeps(s: Tree, a: nat, x: Actor, b: Actor)
    requires TreeInv(s) && a < |s.actors| && s.actors[a] == x && ActorInv(b, s.now) && Decision(x, b)
    requires EscalatesNow(x) ==> LinkOk(s.actors, a) && Heard(s.actors, x.parent.value.actor, x.parent.value.gen)
    ensures TreeInv(Put(s, a, b))
  {
    At(s, a);
    PutKeeps(s, a, b);
  }

  lemma SettleKeeps(s: Tree, a: nat)
    requires TreeInv(s) && Enabled(s, Settle(a))
    ensures TreeInv(Apply(s, Settle(a)))
  {
    var x := s.actors[a];
    At(s, a);
    EscalatedKeeps(s, a);
    At(Escalated(s, a), a);
    DecidedInv(x, s.now);
    DecideIsDecision(x, s.now);
    DecisionKeeps(Escalated(s, a), a, x, Decide(x, s.now));
  }

  lemma EvidenceSpawn(actors: seq<Actor>, child: Actor, p: nat, gen: nat, panic: nat)
    requires Evidence(actors, p, gen, panic)
    ensures Evidence(actors + [child], p, gen, panic)
  {
    var c :| 0 <= c < |actors| && Escalating(actors[c], p, gen, panic);
    assert Escalating((actors + [child])[c], p, gen, panic);
  }

  /** A new actor changes nothing about the others. */
  lemma SpawnTraced(s: Tree, child: Actor)
    requires FailuresTraced(s) && FailuresHeard(s) && PanicsEnded(s)
    requires child.escPermit.None? && child.ends == []
    ensures FailuresTraced(Spawn(s, child)) && FailuresHeard(Spawn(s, child)) && PanicsEnded(Spawn(s, child))
  {
    var t := Spawn(s, child);
    forall d | 0 <= d < |t.actors|
      ensures PermitExplained(t, d) && ParentHeard(t.actors, d)
    {
      if d < |s.actors| {
        assert PermitExplained(s, d) && ParentHeard(s.actors, d);
        if s.actors[d].escPermit.Some? {
          EvidenceSpawn(s.actors, child, d, s.actors[d].gen, s.actors[d].escPermit.value);
        }
      }
    }
    forall d, i | 0 <= d < |t.actors| && 0 <= i < |t.actors[d].ends| && t.actors[d].ends[i].Failed?
      ensures Explained(t, d, i, t.actors[d].ends[i].panic)
    {
      var k := s.actors[d].ends[i].panic;
      assert Explained(s, d, i, k);
      if s.panics[k] != Link(d, i) {
        EvidenceSpawn(s.actors, child, d, i, k);
      }
    }
    forall k | 0 <= k < |t.panics|
      ensures PanicEnded(t, k)
    {
      assert PanicEnded(s, k);
    }
  }

  lemma SpawnTopKeeps(s: Tree, capacity: nat)
    requires TreeInv(s)
    ensures TreeInv(Apply(s, SpawnTop(capacity)))
  {
    var child := Newborn(None, Stop, capacity);
    var t := Spawn(s, child);
    NewbornInv(None, Stop, capacity, s.now);
    SpawnShaped(s, child);
    SpawnTraced(s, child);
    forall c | 0 <= c < |t.actors|
      ensures LinkOk(t.actors, c) && Kept(t.actors, c)
    {
      assert c < |s.actors| ==> LinkOk(s.actors, c) && Kept(s.actors, c);
    }
  }

  /** Adopting changes only the list of children, of which nothing but `Pending` is read below. */
  lemma AdoptTraced(s: Tree, p: nat, b: Actor)
    requires FailuresTraced(s) && FailuresHeard(s) && PanicsEnded(s) && p < |s.actors|
    requires b == s.actors[p].(children := b.children)
    ensures FailuresTraced(Put(s, p, b)) && FailuresHeard(Put(s, p, b)) && PanicsEnded(Put(s, p, b))
  {
    var t := Put(s, p, b);
    forall q, gen, panic | Evidence(s.actors, q, gen, panic)
      ensures Evidence(t.actors, q, gen, panic)
    {
      var c :| 0 <= c < |s.actors| && Escalating(s.actors[c], q, gen, panic);
      assert Escalating(t.actors[c], q, gen, panic);
    }
    forall d | 0 <= d < |t.actors|
      ensures PermitExplained(t, d) && ParentHeard(t.actors, d)
    {
      assert PermitExplained(s, d) && ParentHeard(s.actors, d);
    }
    forall d, i | 0 <= d < |t.actors| && 0 <= i < |t.actors[d].ends| && t.actors[d].ends[i].Failed?
      ensures Explained(t, d, i, t.actors[d].ends[i].panic)
    {
      assert Explained(s, d, i, s.actors[d].ends[i].panic);
    }
    forall k | 0 <= k < |t.panics|
      ensures PanicEnded(t, k)
    {
      assert PanicEnded(s, k);
    }
  }

  lemma SpawnChildKeeps(s: Tree, p: nat, strategy: Strategy, capacity: nat)
    requires TreeInv(s) && Enabled(s, SpawnChild(p, strategy, capacity))
    ensures TreeInv(Apply(s, SpawnChild(p, strategy, capacity)))
  {
    var child := Newborn(Some(Link(p, s.actors[p].gen)), strategy, capacity);
    var t := Spawn(s, child);
    var u := Put(t, p, Adopt(t.actors[p], |s.actors|));
    NewbornInv(child.parent, strategy, capacity, s.now);
    SpawnShaped(s, child);
    SpawnTraced(s, child);
    AdoptShaped(t, p, |s.actors|);
    AdoptTraced(t, p, u.actors[p]);
    AdoptedKept(s, p, u, child);
  }

  lemma AdoptedKept(s: Tree, p: nat, u: Tree, child: Actor)
    requires NoOrphans(s) && p < |s.actors| && s.actors[p].phase.Looping?
    requires child.parent == Some(Link(p, s.actors[p].gen))
    requires u.actors == s.actors[p := Adopt(s.actors[p], |s.actors|)] + [child]
    ensures NoOrphans(u)
  {
    forall c | 0 <= c < |u.actors|
      ensures LinkOk(u.actors, c) && Kept(u.actors, c)
    {
      if c < |s.actors| {
        assert LinkOk(s.actors, c) && Kept(s.actors, c);
      }
    }
  }

  lemma PassKeeps(s: Tree, time: nat)
    requires TreeInv(s)
    ensures TreeInv(s.(now := s.now + time))
  {
    var t := s.(now := s.now + time);
    forall c | 0 <= c < |s.actors|
      ensures ActorInv(t.actors[c], t.now) && LinkOk(t.actors, c) && ChildrenOk(t.actors, c) && PermitExplained(t, c)
    {
      assert LinkOk(s.actors, c) && ChildrenOk(s.actors, c) && PermitExplained(s, c);
      LaterInv(s.actors[c], s.now, t.now);
    }
    forall d, i | 0 <= d < |t.actors| && 0 <= i < |t.actors[d].ends| && t.actors[d].ends[i].Failed?
      ensures Explained(t, d, i, t.actors[d].ends[i].panic)
    {
      assert Explained(s, d, i, s.actors[d].ends[i].panic);
    }
    forall k | 0 <= k < |t.panics|
      ensures PanicEnded(t, k)
    {
      assert PanicEnded(s, k);
    }
  }

  lemma SendKeeps(s: Tree, a: nat, m: Msg)
    requires TreeInv(s) && a < |s.actors|
    ensures TreeInv(Put(s, a, Offer(s.actors[a], m).0))
  {
    At(s, a);
    OfferInv(s.actors[a], m, s.now);
    SignalKeeps(s, a, Offer(s.actors[a], m).0);
  }

  lemma StepKeeps(s: Tree, l: Label)
    requires TreeInv(s) && Enabled(s, l)
    ensures TreeInv(Apply(s, l))
  {
    match l
    case Pass(time) => PassKeeps(s, time);
    case SpawnTop(capacity) => SpawnTopKeeps(s, capacity);
    case SpawnChild(p, strategy, capacity) => SpawnChildKeeps(s, p, strategy, capacity);
    case Send(a, m) => SendKeeps(s, a, m);
    case CallStop(a) => StopKeeps(s, a);
    case Loop(a, w) => LoopKeeps(s, a, w);
    case TellChild(a) => TellKeeps(s, a);
    case Wind(a) => WindKeeps(s, a);
    case Settle(a) => SettleKeeps(s, a);
  }

  lemma {:induction false} RunsKeep(run: seq<Tree>, labels: seq<Label>, k: nat)
    requires IsRun(run, labels) && k < |run|
    ensures TreeInv(run[k])
  {
    if k > 0 {
      RunsKeep(run, labels, k - 1);
      StepKeeps(run[k - 1], labels[k - 1]);
    }
  }
}
