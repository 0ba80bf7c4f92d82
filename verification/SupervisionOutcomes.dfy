/** What becomes of messages, stops, failures and births, in every run of every tree. */
module SupervisionOutcomes {
  import opened Basics
  import opened Tracker
  import opened ActorLife
  import opened ActorOutcomes
  import opened SupervisionTree
  import opened SupervisionTheorems

  // ---------- The supervisor's decision ----------

  /** In every run, a child that has ended is restarted or not as the limit has it at that moment. */
  lemma EveryDecision(run: seq<Tree>, labels: seq<Label>, k: nat, c: nat)
    requires IsRun(run, labels) && k < |labels| && labels[k] == Settle(c)
    ensures c < |run[k].actors| && c < |run[k + 1].actors| && run[k].actors[c].phase.Deciding?
    ensures var a, b := run[k].actors[c], run[k + 1].actors[c];
            if a.phase.why.Failed? && HasRoom(a, run[k].now) then
              b.phase.Looping? && b.gen == a.gen + 1 && b.queue == a.queue && b.stopPermit == a.stopPermit
            else b.phase.Dead?
  {
    RunsKeep(run, labels, k);
    At(run[k], c);
    DecisionIs(run[k].actors[c], run[k].now);
  }

  // ---------- Every failure is put to the tracker ----------

  function FailedIn(ends: seq<Cause>): nat {
    if ends == [] then 0 else FailedIn(ends[..|ends| - 1]) + (if ends[|ends| - 1].Failed? then 1 else 0)
  }

  /** The ends the supervisor has decided on. */
  function Settled(a: Actor): seq<Cause> {
    if (a.phase.Stopping? || a.phase.Deciding?) && a.ends != [] then a.ends[..|a.ends| - 1] else a.ends
  }

  /** The window ending at `now` is full of restarts granted. */
  predicate FullAt(asked: seq<Instant>, now: Instant, max: nat, within: nat) {
    CountIn(Grants(asked, max, within), now - within, now) >= max
  }

  /** The last call was made when the window ending then was full. */
  predicate Refused(asked: seq<Instant>, max: nat, within: nat) {
    asked != [] && FullAt(asked[..|asked| - 1], asked[|asked| - 1], max, within)
  }

  /** A Restart child's tracker was asked once for each failure decided on, and it died of one only when refused. */
  predicate AskedInv(a: Actor) {
    a.strategy.Restart? && a.parent.Some? ==>
      && |a.asked| == FailedIn(Settled(a))
      && (a.phase.Dead? ==>
            a.ends != [] && (a.ends[|a.ends| - 1] == Graceful || Refused(a.asked, a.strategy.max, a.strategy.within)))
  }

  lemma TurnAsked(a: Actor, w: World)
    requires AskedInv(a) && a.phase.Looping?
    ensures AskedInv(Turn(a, w))
  {
    var b := Turn(a, w);
    if b.phase.Stopping? {
      assert b.ends[..|b.ends| - 1] == a.ends;
    }
  }

  lemma DecideAsked(a: Actor, now: Instant)
    requires AskedInv(a) && TrackerInv(a, now)
    requires a.phase.Deciding? && a.ends != [] && a.phase.why == a.ends[|a.ends| - 1]
    ensures AskedInv(Decide(a, now))
  {
    var room := WithoutRoom(a, now);
    var b := Decided(a, now, room);
    AskedOnce(a, b, now, room);
  }

  lemma WithoutRoom(a: Actor, now: Instant) returns (room: bool)
    ensures room <==> HasRoom(a, now)
    ensures a.strategy.Restart? && !room ==> Refused(a.asked + [now], a.strategy.max, a.strategy.within)
  {
    room := HasRoom(a, now);
    if a.strategy.Restart? && !room {
      RefusedNow(a.asked, now, a.strategy.max, a.strategy.within);
    }
  }

  lemma Decided(a: Actor, now: Instant, room: bool) returns (b: Actor)
    requires TrackerInv(a, now) && a.phase.Deciding? && (room <==> HasRoom(a, now))
    ensures b == Decide(a, now)
    ensures b.ends == a.ends && b.strategy == a.strategy && b.parent == a.parent
    ensures if a.phase.why.Failed? && room then b.phase.Looping? else b.phase.Dead?
    ensures b.asked == a.asked + if a.phase.why.Failed? && a.strategy.Restart? then [now] else []
  {
    DecisionIs(a, now);
    b := Decide(a, now);
  }

  lemma AskedOnce(a: Actor, b: Actor, now: Instant, room: bool)
    requires AskedInv(a) && a.phase.Deciding? && a.ends != [] && a.phase.why == a.ends[|a.ends| - 1]
    requires b.ends == a.ends && b.strategy == a.strategy && b.parent == a.parent
    requires if a.phase.why.Failed? && room then b.phase.Looping? else b.phase.Dead?
    requires b.asked == a.asked + if a.phase.why.Failed? && a.strategy.Restart? then [now] else []
    requires a.strategy.Restart? && !room ==> Refused(a.asked + [now], a.strategy.max, a.strategy.within)
    ensures AskedInv(b)
  {
    LastFailed(a.ends);
  }

  lemma LastFailed(ends: seq<Cause>)
    requires ends != []
    ensures FailedIn(ends) == FailedIn(ends[..|ends| - 1]) + if ends[|ends| - 1].Failed? then 1 else 0
  {
  }

  lemma RefusedNow(asked: seq<Instant>, now: Instant, max: nat, within: nat)
    requires FullAt(asked, now, max, within)
    ensures Refused(asked + [now], max, within)
  {
    LastOf(asked, now);
  }

  lemma LastOf(asked: seq<Instant>, now: Instant)
    ensures var all := asked + [now]; all[..|all| - 1] == asked && all[|all| - 1] == now
  {
  }

  ghost predicate AllAsked(s: Tree) {
    forall c :: 0 <= c < |s.actors| ==> AskedInv(s.actors[c])
  }

  lemma PutAsked(s: Tree, a: nat, b: Actor)
    requires AllAsked(s) && a < |s.actors| && AskedInv(b)
    ensures AllAsked(Put(s, a, b))
  {
  }

  /** What others do to an actor is nothing to its restarts. */
  lemma SameAsked(s: Tree, a: nat, b: Actor)
    requires AllAsked(s) && a < |s.actors|
    requires var x := s.actors[a];
             && b.parent == x.parent && b.strategy == x.strategy && b.phase == x.phase
             && b.ends == x.ends && b.asked == x.asked
    ensures AllAsked(Put(s, a, b))
  {
    PutAsked(s, a, b);
  }

  lemma TellAsked(s: Tree, a: nat)
    requires AllAsked(s) && Enabled(s, TellChild(a))
    ensures AllAsked(Apply(s, TellChild(a)))
  {
    var c := s.actors[a].children[s.actors[a].phase.next];
    SameAsked(s, c, AskStop(s.actors[c]));
    PutAsked(Put(s, c, AskStop(s.actors[c])), a, NextChild(s.actors[a]));
  }

  lemma SettleAsked(s: Tree, a: nat)
    requires TreeInv(s) && AllAsked(s) && Enabled(s, Settle(a))
    ensures AllAsked(Apply(s, Settle(a)))
  {
    At(s, a);
    DecideAsked(s.actors[a], s.now);
    if EscalatesNow(s.actors[a]) {
      var link := s.actors[a].parent.value;
      SameAsked(s, link.actor, AskEscalate(s.actors[link.actor], link.gen, s.actors[a].phase.why.panic));
    }
    PutAsked(Escalated(s, a), a, Decide(s.actors[a], s.now));
  }

  lemma SpawnAsked(s: Tree, child: Actor)
    requires AllAsked(s) && AskedInv(child)
    ensures AllAsked(Spawn(s, child))
  {
  }

  lemma StepAsked(s: Tree, l: Label)
    requires TreeInv(s) && AllAsked(s) && Enabled(s, l)
    ensures AllAsked(Apply(s, l))
  {
    match l
    case Pass(_) =>
    case SpawnTop(capacity) => SpawnAsked(s, Newborn(None, Stop, capacity));
    case SpawnChild(p, strategy, capacity) =>
      var child := Newborn(Some(Link(p, s.actors[p].gen)), strategy, capacity);
      SpawnAsked(s, child);
      SameAsked(Spawn(s, child), p, Adopt(s.actors[p], |s.actors|));
    case Send(a, m) => SameAsked(s, a, Offer(s.actors[a], m).0);
    case CallStop(a) => SameAsked(s, a, AskStop(s.actors[a]));
    case Loop(a, w) =>
      TurnAsked(s.actors[a], w);
      assert AllAsked(Panicked(s, a, w));
      PutAsked(Panicked(s, a, w), a, Turn(s.actors[a], w));
    case TellChild(a) => TellAsked(s, a);
    case Wind(a) => WindAsked(s, a);
    case Settle(a) => SettleAsked(s, a);
  }

  lemma WindAsked(s: Tree, a: nat)
    requires AllAsked(s) && Enabled(s, Wind(a))
    ensures AllAsked(Apply(s, Wind(a)))
  {
    PutAsked(s, a, Wound(s.actors[a]));
  }

  lemma {:induction false} RunsAsk(run: seq<Tree>, labels: seq<Label>, k: nat)
    requires IsRun(run, labels) && k < |run|
    ensures AllAsked(run[k])
  {
    if k > 0 {
      RunsAsk(run, labels, k - 1);
      RunsKeep(run, labels, k - 1);
      StepAsked(run[k - 1], labels[k - 1]);
    }
  }

  /**
   In any run of any tree, the tracker of a Restart child was asked once for every failure, and a dead one ended
   gracefully or failed when the window that ended then already held the maximum number of grants.
   */
  lemma EveryDeadRestart(run: seq<Tree>, labels: seq<Label>, k: nat, c: nat)
    requires IsRun(run, labels) && k < |run| && c < |run[k].actors|
    requires run[k].actors[c].phase.Dead? && run[k].actors[c].parent.Some? && run[k].actors[c].strategy.Restart?
    ensures var a := run[k].actors[c];
            && |a.asked| == FailedIn(a.ends) && a.ends != []
            && (a.ends[|a.ends| - 1] == Graceful || Refused(a.asked, a.strategy.max, a.strategy.within))
  {
    RunsAsk(run, labels, k);
    assert AskedInv(run[k].actors[c]);
  }

  // ---------- Messages ----------

  /** In every run a send is accepted exactly if the actor lives and its mailbox has room. */
  lemma EverySend(run: seq<Tree>, labels: seq<Label>, k: nat, a: nat, m: Msg)
    requires IsRun(run, labels) && k < |labels| && labels[k] == Send(a, m)
    ensures a < |run[k].actors| == |run[k + 1].actors|
    ensures var x, y := run[k].actors[a], run[k + 1].actors[a];
            y.accepted == x.accepted + if !x.phase.Dead? && |x.queue| < x.capacity then [m] else []
  {
    OfferIs(run[k].actors[a], m);
  }

  /** When an actor leaves its loop gracefully, it has taken every message it had accepted. */
  lemma GracefulEndsTakeAll(run: seq<Tree>, labels: seq<Label>, k: nat, a: nat, w: World)
    requires IsRun(run, labels) && k < |labels| && labels[k] == Loop(a, w)
    requires run[k + 1].actors[a].ends == run[k].actors[a].ends + [Graceful]
    ensures run[k + 1].actors[a].taken == run[k + 1].actors[a].accepted
  {
    RunsKeep(run, labels, k + 1);
    GracefulTurn(run[k].actors[a], w);
    assert MailboxInv(run[k + 1].actors[a]);
    QuietEnd(run[k].actors[a], w);
  }

  lemma QuietEnd(a: Actor, w: World)
    requires a.phase.Looping? && a.queue == []
    ensures Turn(a, w).queue == []
  {
  }

  // ---------- Stops ----------

  lemma TurnDoomed(a: Actor, w: World)
    requires a.phase.Looping? && Doomed(a)
    ensures Doomed(Turn(a, w))
  {
  }

  lemma StepKeepsDoomed(s: Tree, l: Label, a: nat)
    requires Enabled(s, l) && a < |s.actors| && Doomed(s.actors[a])
    ensures a < |Apply(s, l).actors| && Doomed(Apply(s, l).actors[a])
  {
    if l.Loop? && l.a == a {
      TurnDoomed(s.actors[a], l.w);
    }
  }

  lemma {:induction false} DoomedStays(run: seq<Tree>, labels: seq<Label>, j: nat, k: nat, a: nat)
    requires IsRun(run, labels) && j <= k < |run| && a < |run[j].actors| && Doomed(run[j].actors[a])
    ensures a < |run[k].actors| && Doomed(run[k].actors[a])
    decreases k - j
  {
    if j < k {
      StepKeepsDoomed(run[j], labels[j], a);
      DoomedStays(run, labels, j + 1, k, a);
    }
  }

  /** Once `stop` was called on an actor it is bound to end, whatever happens to it, and at rest it is dead. */
  lemma EveryStopIsObeyed(run: seq<Tree>, labels: seq<Label>, j: nat, k: nat, a: nat)
    requires IsRun(run, labels) && j < k < |run| && labels[j] == CallStop(a)
    ensures a < |run[k].actors| && Doomed(run[k].actors[a])
    ensures AtRest(run[k]) ==> run[k].actors[a].phase.Dead?
  {
    DoomedStays(run, labels, j + 1, k, a);
  }

  // ---------- Births ----------

  /** Step `i` spawned actor `c` as it is. */
  predicate BornAt(run: seq<Tree>, labels: seq<Label>, i: nat, c: nat, a: Actor)
    requires IsRun(run, labels) && i < |labels|
  {
    && c == |run[i].actors|
    && match labels[i]
       case SpawnTop(capacity) => a.parent == None && a.strategy == Stop && a.capacity == capacity
       case SpawnChild(p, strategy, capacity) =>
         && p < |run[i].actors| && a.parent == Some(Link(p, run[i].actors[p].gen))
         && a.strategy == strategy && a.capacity == capacity
       case _ => false
  }

  lemma StepKeepsIdentity(s: Tree, l: Label, c: nat)
    requires Enabled(s, l) && c < |s.actors|
    ensures c < |Apply(s, l).actors|
    ensures var a, b := s.actors[c], Apply(s, l).actors[c];
            b.parent == a.parent && b.strategy == a.strategy && b.capacity == a.capacity
  {
  }

  /** Every actor was spawned by some step, with the strategy and capacity asked for, by the instance running then. */
  lemma {:induction false} EveryActorWasBorn(run: seq<Tree>, labels: seq<Label>, k: nat, c: nat) returns (i: nat)
    requires IsRun(run, labels) && k < |run| && c < |run[k].actors|
    ensures i < k && BornAt(run, labels, i, c, run[k].actors[c])
  {
    assert k > 0;
    if c < |run[k - 1].actors| {
      i := EveryActorWasBorn(run, labels, k - 1, c);
      StepKeepsIdentity(run[k - 1], labels[k - 1], c);
    } else {
      i := k - 1;
    }
  }
}
