/**
 What each step of an actor comes to, in terms of what it had before: which branch of the `select!` a turn takes, who is
 restarted and who is not, what becomes of a message.
 */
module ActorOutcomes {
  import opened Basics
  import opened Tracker
  import opened ActorLife

  // ---------- One turn ----------

  /** Messages come first: whatever else is ready, a turn with a message takes the oldest one and keeps all permits. */
  lemma MessagesComeFirst(a: Actor, w: World)
    requires a.phase.Looping? && a.queue != []
    ensures var b := Turn(a, w);
            && b.taken == a.taken + [a.queue[0]] && b.queue == a.queue[1..] && b.accepted == a.accepted
            && b.stopPermit == a.stopPermit && b.escPermit == a.escPermit
            && b.ends == a.ends + (if w.handlerPanics then [Failed(w.panic)] else [])
  {
  }

  /**
   A turn ends the instance gracefully exactly if there is no message, no ready stream, and shutdown or a stop permit. A
   stop permit seen together with shutdown is kept.
   */
  lemma GracefulTurn(a: Actor, w: World)
    requires a.phase.Looping?
    ensures var b := Turn(a, w);
            && (b.ends == a.ends + [Graceful] <==> a.queue == [] && !w.streamReady && (w.shutdown || a.stopPermit))
            && (b.ends == a.ends + [Graceful] ==> b.stopPermit == (a.stopPermit && w.shutdown)
                                                  && b.escPermit == a.escPermit)
  {
    var b := Turn(a, w);
    assert forall why :: b.ends == a.ends + [why] ==> b.ends[|a.ends|] == why;
  }

  /** It ends it by an escalated panic exactly if nothing before that branch is ready, and uses the permit up. */
  lemma EscalatedTurn(a: Actor, w: World, panic: nat)
    requires a.phase.Looping? && a.queue == []
    ensures var b := Turn(a, w);
            && (b.ends == a.ends + [Failed(panic)] <==>
                  !w.streamReady && !w.shutdown && !a.stopPermit && a.escPermit == Some(panic))
            && (b.ends == a.ends + [Failed(panic)] ==> b.escPermit == None)
  {
    var b := Turn(a, w);
    assert forall why :: b.ends == a.ends + [why] ==> b.ends[|a.ends|] == why;
  }

  /** Otherwise the loop goes on, and a turn without a message changes nothing. */
  lemma QuietTurn(a: Actor, w: World)
    requires a.phase.Looping? && a.queue == []
    ensures var b := Turn(a, w);
            (w.streamReady || (!w.shutdown && !a.stopPermit && a.escPermit.None?)) <==> b == a
  {
    var b := Turn(a, w);
    assert b.phase.Stopping? ==> b != a;
  }

  // ---------- The supervisor's decision ----------

  /** The tracker would let this actor restart: the window that ends now has room for one more grant. */
  predicate HasRoom(a: Actor, now: Instant) {
    && a.strategy.Restart?
    && CountIn(Grants(a.asked, a.strategy.max, a.strategy.within), now - a.strategy.within, now) < a.strategy.max
  }

  lemma RoomIsGrant(a: Actor, now: Instant)
    requires TrackerInv(a, now) && a.strategy.Restart?
    ensures Record(a.tracker, now, a.strategy.max, a.strategy.within).1 <==> HasRoom(a, now)
  {
    GrantedWithRoom(a.asked, now, a.strategy.max, a.strategy.within);
  }

  lemma GrantedWithRoom(asked: seq<Instant>, now: Instant, max: nat, within: nat)
    requires LastAt(asked, now)
    ensures Record(Tracked(asked, max, within), now, max, within).1 <==>
            CountIn(Grants(asked, max, within), now - within, now) < max
  {
    AskedTracker(asked, now, max, within);
    GrantsAppend(asked, now, max, within);
  }

  lemma GrantsAppend(asked: seq<Instant>, now: Instant, max: nat, within: nat)
    ensures |Grants(asked + [now], max, within)| ==
            |Grants(asked, max, within)| + if CountIn(Grants(asked, max, within), now - within, now) < max then 1 else 0
  {
    assert (asked + [now])[..|asked|] == asked;
  }

  /**
   A failed instance under Restart is followed by another exactly if the limit leaves room; the new one has the mailbox,
   what was handled and the stop permit of the old, no children and no escalation. Anyone else dies.
   */
  lemma DecisionIs(a: Actor, now: Instant)
    requires TrackerInv(a, now) && a.phase.Deciding?
    ensures var b := Decide(a, now);
            && b.parent == a.parent && b.strategy == a.strategy
            && b.ends == a.ends && b.accepted == a.accepted && b.taken == a.taken && b.queue == a.queue
            && b.stopPermit == a.stopPermit
            && (if a.phase.why.Failed? && HasRoom(a, now) then
                  && b.phase.Looping? && b.gen == a.gen + 1 && b.answers == a.answers
                  && b.children == [] && b.escPermit == None && b.trace == a.trace + [Started]
                else b.phase.Dead? && b.gen == a.gen && b.trace == a.trace + [Notified])
            && b.asked == a.asked + (if a.phase.why.Failed? && a.strategy.Restart? then [now] else [])
  {
    if a.strategy.Restart? {
      RoomIsGrant(a, now);
    }
  }

  // ---------- Messages ----------

  /** A message is accepted exactly if the mailbox is open and has room; a refusal says which of the two it was. */
  lemma OfferIs(a: Actor, m: Msg)
    ensures var (b, r) := Offer(a, m);
            && (r == Sent <==> b.accepted == a.accepted + [m])
            && (r == Sent <==> !a.phase.Dead? && |a.queue| < a.capacity)
            && (r == MailboxClosed <==> a.phase.Dead?)
            && (r == Sent ==> b == a.(queue := a.queue + [m], accepted := a.accepted + [m]))
            && (r != Sent ==> b == a)
  {
    var (b, r) := Offer(a, m);
    assert |b.accepted| == |a.accepted| + if r == Sent then 1 else 0;
  }
}
