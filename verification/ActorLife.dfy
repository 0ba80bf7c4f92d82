/**
 The life of one actor: its bounded mailbox, the branches of its `select!`, the stop and escalate permits, and what
 happens when an instance ends. An actor without a parent is a top-level one.
 */
module ActorLife {
  import opened Basics
  import opened Tracker

  type Msg = nat

  datatype Strategy = Stop | Restart(max: nat, within: nat) | Escalate

  /** The instance of an actor that spawned another one: instances are numbered from 0. */
  datatype Link = Link(actor: nat, gen: nat)

  /** Why an instance left its loop; a failure carries the number of the panic it goes back to. */
  datatype Cause = Graceful | Failed(panic: nat)

  datatype Phase = Looping | Stopping(why: Cause, next: nat) | Deciding(why: Cause) | Dead

  /** `Handled` names a message by its position among the accepted ones. */
  datatype Life = Started | Handled(index: nat, ok: bool) | Stopped | Notified

  datatype Actor = Actor(
    parent: Option<Link>, strategy: Strategy, capacity: nat,
    queue: seq<Msg>, accepted: seq<Msg>, taken: seq<Msg>, answers: map<nat, bool>,
    stopPermit: bool, escPermit: Option<nat>,
    gen: nat, phase: Phase, children: seq<nat>, ends: seq<Cause>,
    tracker: seq<Instant>, asked: seq<Instant>,
    trace: seq<Life>, mark: nat)

  function Newborn(parent: Option<Link>, strategy: Strategy, capacity: nat): Actor {
    Actor(parent, strategy, capacity, [], [], [], map[], false, None, 0, Looping, [], [], [], [], [Started], 0)
  }

  // ---------- Signals and messages from outside ----------

  datatype SendResult = Sent | MailboxFull | MailboxClosed

  /** A send without waiting; a send that waits is an `Offer` made when there is room. */
  function Offer(a: Actor, m: Msg): (Actor, SendResult) {
    if a.phase.Dead? then (a, MailboxClosed)
    else if |a.queue| >= a.capacity then (a, MailboxFull)
    else (a.(queue := a.queue + [m], accepted := a.accepted + [m]), Sent)
  }

  /** `notify_one`: one permit is kept until it is used, and more than one makes no difference. */
  function AskStop(a: Actor): Actor {
    a.(stopPermit := true)
  }

  /** The escalate signal belongs to one instance; one held by a child of an earlier instance is nobody's. */
  function AskEscalate(a: Actor, gen: nat, panic: nat): Actor {
    if gen == a.gen && a.escPermit.None? then a.(escPermit := Some(panic)) else a
  }

  function Adopt(a: Actor, child: nat): Actor {
    a.(children := a.children + [child])
  }

  // ---------- One turn of the loop ----------

  /** What the rest of the world contributes to one `select!`; `panic` numbers the panic if the handler panics. */
  datatype World = World(streamReady: bool, shutdown: bool, handlerPanics: bool, panic: nat)

  datatype Choice = TakeMessage | PollStreams | ObeyShutdown | ObeyStop | ObeyEscalate | Wait

  /** `biased`: the first ready branch, in the order written. */
  function Select(a: Actor, w: World): Choice {
    if a.queue != [] then TakeMessage
    else if w.streamReady then PollStreams
    else if w.shutdown then ObeyShutdown
    else if a.stopPermit then ObeyStop
    else if a.escPermit.Some? then ObeyEscalate
    else Wait
  }

  /** The loop is left. A top-level actor notifies its watchers right away. */
  function Break(a: Actor, why: Cause): Actor {
    a.(phase := Stopping(why, 0), ends := a.ends + [why],
       trace := if a.parent.None? then a.trace + [Notified] else a.trace)
  }

  function HandleOne(a: Actor, w: World): Actor
    requires a.queue != []
  {
    var k := |a.taken|;
    a.(queue := a.queue[1..], taken := a.taken + [a.queue[0]],
       trace := a.trace + [Handled(k, !w.handlerPanics)], answers := a.answers[k := !w.handlerPanics])
  }

  function TakeOne(a: Actor, w: World): Actor
    requires a.queue != []
  {
    var b := HandleOne(a, w);
    if w.handlerPanics then Break(b, Failed(w.panic)) else b
  }

  function Turn(a: Actor, w: World): Actor
    requires a.phase.Looping?
  {
    match Select(a, w)
    case TakeMessage => TakeOne(a, w)
    case PollStreams => a
    case ObeyShutdown => Break(a, Graceful)
    case ObeyStop => Break(a.(stopPermit := false), Graceful)
    case ObeyEscalate => Break(a.(escPermit := None), Failed(a.escPermit.value))
    case Wait => a
  }

  // ---------- After the loop ----------

  function NextChild(a: Actor): Actor
    requires a.phase.Stopping? && a.phase.next < |a.children|
  {
    a.(phase := Stopping(a.phase.why, a.phase.next + 1))
  }

  /** The mailbox goes: whoever still waits for an answer gets an error. */
  function Close(a: Actor): Actor {
    a.(phase := Dead,
       answers := map k | 0 <= k < |a.accepted| :: k < |a.taken| && k in a.answers && a.answers[k])
  }

  /** All children have been told to stop; `stopped` runs. */
  function Wound(a: Actor): Actor
    requires a.phase.Stopping? && a.phase.next == |a.children|
  {
    var b := a.(trace := a.trace + [Stopped]);
    if a.parent.None? then Close(b) else b.(phase := Deciding(a.phase.why))
  }

  function Die(a: Actor): Actor {
    Close(a.(trace := a.trace + [Notified]))
  }

  /** A new instance: new context, so no children and an unused escalate signal; same mailbox, same stop permit. */
  function Reborn(a: Actor): Actor {
    a.(gen := a.gen + 1, phase := Looping, children := [], escPermit := None,
       mark := |a.trace|, trace := a.trace + [Started])
  }

  function Decide(a: Actor, now: Instant): Actor
    requires a.phase.Deciding?
  {
    if a.phase.why.Failed? && a.strategy.Restart? then
      var (times, allowed) := Record(a.tracker, now, a.strategy.max, a.strategy.within);
      var b := a.(tracker := times, asked := a.asked + [now]);
      if allowed then Reborn(b) else Die(b)
    else Die(a)
  }

  // ---------- Mailbox conservation ----------

  /** The handled messages, as positions, in the order they were handled. */
  function Indices(trace: seq<Life>): seq<nat> {
    if trace == [] then []
    else
      var n := |trace| - 1;
      Indices(trace[..n]) + (if trace[n].Handled? then [trace[n].index] else [])
  }

  function UpTo(n: nat): seq<nat> {
    seq(n, i => i)
  }

  /**
   Accepted messages are those taken, in order, followed by those still queued, never more than the capacity; each
   taken message was handled exactly once; and an answer is Ok exactly when its handler returned normally.
   */
  ghost predicate MailboxInv(a: Actor) {
    && a.accepted == a.taken + a.queue
    && |a.queue| <= a.capacity
    && Indices(a.trace) == UpTo(|a.taken|)
    && (forall k :: k in a.answers <==> 0 <= k < if a.phase.Dead? then |a.accepted| else |a.taken|)
    && (forall k :: k in a.answers ==> (a.answers[k] <==> Handled(k, true) in a.trace))
  }

  lemma IndicesAppend(trace: seq<Life>, e: Life)
    ensures Indices(trace + [e]) == Indices(trace) + (if e.Handled? then [e.index] else [])
  {
    assert (trace + [e])[..|trace|] == trace;
  }

  lemma {:induction false} IndicesIn(trace: seq<Life>, i: nat)
    requires i < |trace| && trace[i].Handled?
    ensures trace[i].index in Indices(trace)
  {
    var n := |trace| - 1;
    if i < n {
      IndicesIn(trace[..n], i);
    }
  }

  /** Appending an event that is not a handling changes nothing for the mailbox. */
  lemma MailboxQuiet(a: Actor, e: Life)
    requires MailboxInv(a) && !e.Handled?
    ensures MailboxInv(a.(trace := a.trace + [e]))
  {
    IndicesAppend(a.trace, e);
    forall k
      ensures Handled(k, true) in a.trace + [e] <==> Handled(k, true) in a.trace
    {
    }
  }

  lemma NotYetHandled(a: Actor, k: nat, ok: bool)
    requires MailboxInv(a) && k >= |a.taken|
    ensures Handled(k, ok) !in a.trace
  {
    if Handled(k, ok) in a.trace {
      var i :| 0 <= i < |a.trace| && a.trace[i] == Handled(k, ok);
      IndicesIn(a.trace, i);
    }
  }

  lemma TakenMailbox(a: Actor, w: World)
    requires MailboxInv(a) && a.phase.Looping? && a.queue != []
    ensures MailboxInv(TakeOne(a, w))
  {
    HandledMailbox(a, w, HandleOne(a, w));
    BrokenMailbox(HandleOne(a, w), Failed(w.panic));
  }

  lemma HandledMailbox(a: Actor, w: World, b: Actor)
    requires MailboxInv(a) && a.phase.Looping? && a.queue != [] && b == HandleOne(a, w)
    ensures MailboxInv(b)
  {
    var k := |a.taken|;
    var e := Handled(k, !w.handlerPanics);
    IndicesAppend(a.trace, e);
    assert UpTo(k + 1) == UpTo(k) + [k];
    NotYetHandled(a, k, true);
    assert a.accepted == (a.taken + [a.queue[0]]) + a.queue[1..];
    forall j | j in b.answers
      ensures b.answers[j] <==> Handled(j, true) in b.trace
    {
      assert Handled(j, true) in b.trace <==> Handled(j, true) in a.trace || e == Handled(j, true);
    }
  }

  lemma BrokenMailbox(a: Actor, why: Cause)
    requires MailboxInv(a) && !a.phase.Dead?
    ensures MailboxInv(Break(a, why))
  {
    MailboxQuiet(a, Notified);
  }

  lemma TurnMailbox(a: Actor, w: World)
    requires MailboxInv(a) && a.phase.Looping?
    ensures MailboxInv(Turn(a, w))
  {
    if a.queue != [] {
      TakenMailbox(a, w);
    } else {
      BrokenMailbox(a, Graceful);
      BrokenMailbox(a.(stopPermit := false), Graceful);
      if a.escPermit.Some? {
        BrokenMailbox(a.(escPermit := None), Failed(a.escPermit.value));
      }
    }
  }

  lemma ClosedMailbox(a: Actor)
    requires MailboxInv(a) && !a.phase.Dead?
    ensures MailboxInv(Close(a))
  {
    var b := Close(a);
    forall k | k in b.answers
      ensures b.answers[k] <==> Handled(k, true) in b.trace
    {
      if k >= |a.taken| {
        NotYetHandled(a, k, true);
      }
    }
  }

  lemma WoundMailbox(a: Actor)
    requires MailboxInv(a) && a.phase.Stopping? && a.phase.next == |a.children|
    ensures MailboxInv(Wound(a))
  {
    MailboxQuiet(a, Stopped);
    if a.parent.None? {
      ClosedMailbox(a.(trace := a.trace + [Stopped]));
    }
  }

  lemma DecidedMailbox(a: Actor, now: Instant)
    requires MailboxInv(a) && a.phase.Deciding?
    ensures MailboxInv(Decide(a, now))
  {
    MailboxQuiet(a, Started);
    MailboxQuiet(a, Notified);
    ClosedMailbox(a.(trace := a.trace + [Notified]));
  }

  // ---------- Life as a sequence of blocks ----------

  predicate AllOk(events: seq<Life>) {
    forall i :: 0 <= i < |events| ==> events[i].Handled? && events[i].ok
  }

  /** `started`, then messages handled without a panic. */
  predicate OpenBlock(t: seq<Life>) {
    |t| > 0 && t[0] == Started && AllOk(t[1..])
  }

  /** The same, or with one more message whose handler panicked. */
  predicate BrokenBlock(t: seq<Life>, why: Cause) {
    || OpenBlock(t)
    || (why.Failed? && |t| > 1 && OpenBlock(t[..|t| - 1]) && t[|t| - 1].Handled? && !t[|t| - 1].ok)
  }

  /** A whole life of one instance: `started`, messages, a panic only as the last of them, `stopped`. */
  predicate Block(t: seq<Life>, why: Cause) {
    |t| > 1 && t[|t| - 1] == Stopped && BrokenBlock(t[..|t| - 1], why)
  }

  /** Complete blocks, one for each entry of `ends`. */
  ghost predicate Blocks(t: seq<Life>, ends: seq<Cause>) {
    if ends == [] then t == []
    else
      var n := |ends| - 1;
      exists k :: 0 <= k <= |t| && Block(t[k..], ends[n]) && Blocks(t[..k], ends[..n])
  }

  lemma BlocksAppend(t: seq<Life>, ends: seq<Cause>, b: seq<Life>, why: Cause)
    requires Blocks(t, ends) && Block(b, why)
    ensures Blocks(t + b, ends + [why])
  {
    var k := |t|;
    assert (t + b)[k..] == b && (t + b)[..k] == t;
    assert (ends + [why])[..|ends|] == ends;
  }

  /** What the current instance has left in the trace, by phase. Only a top-level actor notifies before `stopped`. */
  predicate Present(top: bool, phase: Phase, t: seq<Life>, why: Cause) {
    match phase
    case Looping => OpenBlock(t)
    case Stopping(cause, _) =>
      cause == why && if top then Ends(t, Notified) && BrokenBlock(t[..|t| - 1], why) else BrokenBlock(t, why)
    case Deciding(cause) => cause == why && !top && Block(t, why)
    case Dead =>
      if top then Ends(t, Stopped) && Ends(t[..|t| - 1], Notified) && BrokenBlock(t[..|t| - 2], why)
      else Ends(t, Notified) && Block(t[..|t| - 1], why)
  }

  predicate Ends(t: seq<Life>, e: Life) {
    |t| > 0 && t[|t| - 1] == e
  }

  function CurrentCause(a: Actor): Cause {
    if a.gen < |a.ends| then a.ends[a.gen] else Graceful
  }

  /** What the trace looks like at every moment: a complete block for every earlier instance, then the current one. */
  ghost predicate LifeInv(a: Actor) {
    && |a.ends| == a.gen + (if a.phase.Looping? then 0 else 1)
    && (!a.strategy.Restart? || a.parent.None? ==> a.gen == 0)
    && (a.phase.Stopping? ==> a.phase.next <= |a.children|)
    && a.mark <= |a.trace|
    && Past(a)
    && Present(a.parent.None?, a.phase, a.trace[a.mark..], CurrentCause(a))
  }

  ghost predicate Past(a: Actor)
    requires a.mark <= |a.trace| && a.gen <= |a.ends|
  {
    Blocks(a.trace[..a.mark], a.ends[..a.gen])
  }

  lemma TailAppend(t: seq<Life>, k: nat, e: Life)
    requires k <= |t|
    ensures (t + [e])[k..] == t[k..] + [e] && (t + [e])[..k] == t[..k]
  {
  }

  lemma OpenAppend(t: seq<Life>, e: Life)
    requires OpenBlock(t) && e.Handled? && e.ok
    ensures OpenBlock(t + [e])
  {
    assert (t + [e])[1..] == t[1..] + [e];
  }

  lemma BreakLife(a: Actor, b: Actor, why: Cause)
    requires LifeInv(a) && a.phase.Looping?
    requires b.(trace := a.trace) == a.(queue := b.queue, taken := b.taken, answers := b.answers,
                                        stopPermit := b.stopPermit, escPermit := b.escPermit)
    requires b.trace == a.trace || (why.Failed? && |b.trace| == |a.trace| + 1 && b.trace[..|a.trace|] == a.trace
                                    && b.trace[|a.trace|].Handled? && !b.trace[|a.trace|].ok)
    ensures LifeInv(Break(b, why))
  {
    var c := Break(b, why);
    var current := b.trace[a.mark..];
    assert c.ends[..c.gen] == a.ends[..a.gen];
    assert b.trace[..a.mark] == a.trace[..a.mark];
    assert c.trace[..c.mark] == a.trace[..a.mark];
    if b.trace != a.trace {
      assert current[..|current| - 1] == a.trace[a.mark..];
    }
    assert BrokenBlock(current, why);
    if a.parent.None? {
      assert c.trace[a.mark..] == current + [Notified];
      assert c.trace[a.mark..][..|current|] == current;
    }
  }

  lemma TurnLife(a: Actor, w: World)
    requires LifeInv(a) && a.phase.Looping?
    ensures LifeInv(Turn(a, w))
  {
    match Select(a, w)
    case TakeMessage =>
      var e := Handled(|a.taken|, !w.handlerPanics);
      if w.handlerPanics {
        BreakLife(a, HandleOne(a, w), Failed(w.panic));
      } else {
        TailAppend(a.trace, a.mark, e);
        OpenAppend(a.trace[a.mark..], e);
      }
    case ObeyShutdown => BreakLife(a, a, Graceful);
    case ObeyStop => BreakLife(a, a.(stopPermit := false), Graceful);
    case ObeyEscalate => BreakLife(a, a.(escPermit := None), Failed(a.escPermit.value));
    case PollStreams =>
    case Wait =>
  }

  lemma WoundPresent(top: bool, t: seq<Life>, why: Cause, k: nat)
    requires Present(top, Stopping(why, k), t, why)
    ensures Present(top, if top then Dead else Deciding(why), t + [Stopped], why)
  {
    assert (t + [Stopped])[..|t|] == t;
    if top {
      assert (t + [Stopped])[..|t| - 1] == t[..|t| - 1];
    }
  }

  lemma WoundLife(a: Actor)
    requires LifeInv(a) && a.phase.Stopping? && a.phase.next == |a.children|
    ensures LifeInv(Wound(a))
  {
    var b := Wound(a);
    WoundPresent(a.parent.None?, a.trace[a.mark..], CurrentCause(a), a.phase.next);
    TailAppend(a.trace, a.mark, Stopped);
    assert Past(b);
  }

  lemma DeadPresent(t: seq<Life>, why: Cause)
    requires Present(false, Deciding(why), t, why)
    ensures Present(false, Dead, t + [Notified], why)
  {
    assert (t + [Notified])[..|t|] == t;
  }

  lemma DiedLife(a: Actor)
    requires LifeInv(a) && a.phase.Deciding?
    ensures LifeInv(Die(a))
  {
    var b := Die(a);
    DeadPresent(a.trace[a.mark..], CurrentCause(a));
    TailAppend(a.trace, a.mark, Notified);
  }

  lemma RebornLife(a: Actor)
    requires LifeInv(a) && a.phase.Deciding? && a.strategy.Restart?
    ensures LifeInv(Reborn(a))
  {
    var b := Reborn(a);
    AllBlocks(a);
    assert a.trace == b.trace[..b.mark] && a.ends == b.ends[..b.gen];
    assert b.trace[b.mark..] == [Started];
    assert OpenBlock([Started]);
  }

  /** Between instances the trace consists of complete blocks. */
  lemma AllBlocks(a: Actor)
    requires LifeInv(a) && a.phase.Deciding?
    ensures Blocks(a.trace, a.ends) && |a.ends| == a.gen + 1
  {
    var past, current := a.trace[..a.mark], a.trace[a.mark..];
    assert Block(current, a.ends[a.gen]);
    BlocksAppend(past, a.ends[..a.gen], current, a.ends[a.gen]);
    assert past + current == a.trace;
    assert a.ends[..a.gen] + [a.ends[a.gen]] == a.ends;
  }

  lemma DecidedLife(a: Actor, now: Instant)
    requires LifeInv(a) && a.phase.Deciding?
    ensures LifeInv(Decide(a, now))
  {
    if a.phase.why.Failed? && a.strategy.Restart? {
      var b := a.(tracker := Record(a.tracker, now, a.strategy.max, a.strategy.within).0, asked := a.asked + [now]);
      DiedLife(b);
      RebornLife(b);
    } else {
      DiedLife(a);
    }
  }

  // ---------- The restart limit ----------

  predicate LastAt(times: seq<Instant>, now: Instant) {
    Ordered(times) && (times != [] ==> times[|times| - 1] <= now)
  }

  /** The tracker is asked in time order, and the instances after the first number exactly its grants. */
  predicate TrackerInv(a: Actor, now: Instant) {
    if a.strategy.Restart? then
      && LastAt(a.asked, now)
      && a.tracker == Tracked(a.asked, a.strategy.max, a.strategy.within)
      && a.gen == |Grants(a.asked, a.strategy.max, a.strategy.within)|
    else a.asked == [] && a.gen == 0
  }

  lemma AskedTracker(asked: seq<Instant>, now: Instant, max: nat, within: nat)
    requires LastAt(asked, now)
    ensures var r := Record(Tracked(asked, max, within), now, max, within);
            && LastAt(asked + [now], now)
            && Tracked(asked + [now], max, within) == r.0
            && |Grants(asked + [now], max, within)| == |Grants(asked, max, within)| + (if r.1 then 1 else 0)
  {
    var calls := asked + [now];
    assert calls[..|asked|] == asked;
    assert Ordered(calls);
    TrackedIsRecent(calls, max, within);
    LastCall(calls, max, within);
  }

  lemma DecidedTracker(a: Actor, now: Instant)
    requires TrackerInv(a, now) && a.phase.Deciding?
    ensures TrackerInv(Decide(a, now), now)
  {
    if a.phase.why.Failed? && a.strategy.Restart? {
      AskedTracker(a.asked, now, a.strategy.max, a.strategy.within);
    }
  }

  // ---------- All of it ----------

  ghost predicate ActorInv(a: Actor, now: Instant) {
    MailboxInv(a) && LifeInv(a) && TrackerInv(a, now)
  }

  lemma NewbornInv(parent: Option<Link>, strategy: Strategy, capacity: nat, now: Instant)
    ensures ActorInv(Newborn(parent, strategy, capacity), now)
  {
    var a := Newborn(parent, strategy, capacity);
    assert a.trace[..0] == [] && a.ends[..0] == [] && a.trace[0..] == [Started];
    IndicesAppend([], Started);
    assert [] + [Started] == [Started];
    assert Indices(a.trace) == UpTo(0);
  }

  lemma OfferInv(a: Actor, m: Msg, now: Instant)
    requires ActorInv(a, now)
    ensures ActorInv(Offer(a, m).0, now)
  {
  }

  lemma TurnInv(a: Actor, w: World, now: Instant)
    requires ActorInv(a, now) && a.phase.Looping?
    ensures ActorInv(Turn(a, w), now)
  {
    var b := Turn(a, w);
    assert MailboxInv(b) by {
      TurnMailbox(a, w);
    }
    assert LifeInv(b) by {
      TurnLife(a, w);
    }
    TurnTracker(a, w, now);
  }

  lemma TurnTracker(a: Actor, w: World, now: Instant)
    requires TrackerInv(a, now) && a.phase.Looping?
    ensures TrackerInv(Turn(a, w), now)
  {
    var b := Turn(a, w);
    assert b.asked == a.asked && b.tracker == a.tracker && b.gen == a.gen && b.strategy == a.strategy;
  }

  lemma WoundInv(a: Actor, now: Instant)
    requires ActorInv(a, now) && a.phase.Stopping? && a.phase.next == |a.children|
    ensures ActorInv(Wound(a), now)
  {
    WoundMailbox(a);
    WoundLife(a);
  }

  lemma DecidedInv(a: Actor, now: Instant)
    requires ActorInv(a, now) && a.phase.Deciding?
    ensures ActorInv(Decide(a, now), now)
  {
    DecidedMailbox(a, now);
    DecidedLife(a, now);
    DecidedTracker(a, now);
  }

  /** Permits and the list of children are no part of what the mailbox, the trace and the tracker promise. */
  lemma SignalledInv(a: Actor, b: Actor, now: Instant)
    requires ActorInv(a, now)
    requires b == a.(stopPermit := b.stopPermit, escPermit := b.escPermit, children := b.children)
    requires |a.children| <= |b.children|
    ensures ActorInv(b, now)
  {
  }

  lemma AllToldInv(a: Actor, next: nat, now: Instant)
    requires ActorInv(a, now) && a.phase.Stopping? && next <= |a.children|
    ensures ActorInv(a.(phase := Stopping(a.phase.why, next)), now)
  {
  }

  lemma LaterInv(a: Actor, now: Instant, later: Instant)
    requires ActorInv(a, now) && now <= later
    ensures ActorInv(a, later)
  {
  }

  /** How often the factory was called: once for each `started`. */
  function Starts(t: seq<Life>): nat {
    if t == [] then 0 else Starts(t[..|t| - 1]) + (if t[|t| - 1] == Started then 1 else 0)
  }

  lemma {:induction false} StartsConcat(t: seq<Life>, u: seq<Life>)
    ensures Starts(t + u) == Starts(t) + Starts(u)
  {
    if u == [] {
      assert t + u == t;
    } else {
      var n := |u| - 1;
      assert (t + u)[..|t + u| - 1] == t + u[..n];
      StartsConcat(t, u[..n]);
    }
  }

  lemma {:induction false} OpenStarts(t: seq<Life>)
    requires OpenBlock(t)
    ensures Starts(t) == 1
  {
    if |t| > 1 {
      var n := |t| - 1;
      assert t[1..][n - 1] == t[n];
      assert t[..n][1..] == t[1..][..n - 1];
      OpenStarts(t[..n]);
    } else {
      assert t == [Started];
    }
  }

  lemma BrokenStarts(t: seq<Life>, why: Cause)
    requires BrokenBlock(t, why)
    ensures Starts(t) == 1
  {
    if OpenBlock(t) {
      OpenStarts(t);
    } else {
      OpenStarts(t[..|t| - 1]);
    }
  }

  lemma {:induction false} BlocksStarts(t: seq<Life>, ends: seq<Cause>)
    requires Blocks(t, ends)
    ensures Starts(t) == |ends|
    decreases |ends|
  {
    if ends != [] {
      var n := |ends| - 1;
      var k :| 0 <= k <= |t| && Block(t[k..], ends[n]) && Blocks(t[..k], ends[..n]);
      BlocksStarts(t[..k], ends[..n]);
      BlockStarts(t[k..], ends[n]);
      StartsConcat(t[..k], t[k..]);
      assert t == t[..k] + t[k..];
    }
  }

  lemma BlockStarts(t: seq<Life>, why: Cause)
    requires Block(t, why)
    ensures Starts(t) == 1
  {
    BrokenStarts(t[..|t| - 1], why);
  }

  /** A dead child lived in complete blocks, one more than its tracker's grants, and notified watchers once, last. */
  lemma DeadChildLife(a: Actor, now: Instant)
    requires ActorInv(a, now) && a.phase.Dead? && a.parent.Some?
    ensures var n := |a.trace| - 1;
            && n >= 0 && a.trace[n] == Notified && Notified !in a.trace[..n]
            && Blocks(a.trace[..n], a.ends)
            && Starts(a.trace) == |a.ends| == a.gen + 1
            && a.gen == (if a.strategy.Restart? then |Grants(a.asked, a.strategy.max, a.strategy.within)| else 0)
  {
    var n := |a.trace| - 1;
    DeadBlocks(a);
    BlocksStarts(a.trace[..n], a.ends);
    BlocksDoNotNotify(a.trace[..n], a.ends);
  }

  /** A dead top-level actor had one instance, and its watchers were notified once, just before `stopped`. */
  lemma DeadTopLife(a: Actor, now: Instant)
    requires ActorInv(a, now) && a.phase.Dead? && a.parent.None?
    ensures var n := |a.trace| - 2;
            && n >= 0 && a.trace[n..] == [Notified, Stopped] && |a.ends| == 1
            && BrokenBlock(a.trace[..n], a.ends[0]) && Notified !in a.trace[..n] && Starts(a.trace) == 1
  {
    assert a.trace[..a.mark] == [];
    assert a.trace[a.mark..] == a.trace;
    TopTrace(a.trace, a.ends[0]);
  }

  lemma TopTrace(t: seq<Life>, why: Cause)
    requires Ends(t, Stopped) && Ends(t[..|t| - 1], Notified) && BrokenBlock(t[..|t| - 2], why)
    ensures var n := |t| - 2;
            t[n..] == [Notified, Stopped] && Notified !in t[..n] && Starts(t) == 1
  {
    var n := |t| - 2;
    assert t[n..] == [Notified, Stopped] && t == t[..n] + [Notified, Stopped];
    BrokenStarts(t[..n], why);
    BrokenDoesNotNotify(t[..n], why);
    StartsConcat(t[..n], [Notified, Stopped]);
    assert [Notified, Stopped][..1] == [Notified];
  }

  lemma DeadBlocks(a: Actor)
    requires LifeInv(a) && a.phase.Dead? && a.parent.Some?
    ensures |a.trace| > 0 && a.trace[|a.trace| - 1] == Notified && Blocks(a.trace[..|a.trace| - 1], a.ends)
  {
    var current := a.trace[a.mark..];
    var block := current[..|current| - 1];
    assert Present(false, Dead, current, a.ends[a.gen]);
    assert a.trace[|a.trace| - 1] == current[|current| - 1];
    BlocksAppend(a.trace[..a.mark], a.ends[..a.gen], block, a.ends[a.gen]);
    assert a.trace[..a.mark] + block == a.trace[..|a.trace| - 1];
    assert a.ends[..a.gen] + [a.ends[a.gen]] == a.ends;
  }

  lemma {:induction false} BlocksDoNotNotify(t: seq<Life>, ends: seq<Cause>)
    requires Blocks(t, ends)
    ensures Notified !in t
    decreases |ends|
  {
    if ends != [] {
      var n := |ends| - 1;
      var k :| 0 <= k <= |t| && Block(t[k..], ends[n]) && Blocks(t[..k], ends[..n]);
      BlocksDoNotNotify(t[..k], ends[..n]);
      BlockDoesNotNotify(t[k..], ends[n]);
      assert t == t[..k] + t[k..];
    }
  }

  lemma BlockDoesNotNotify(t: seq<Life>, why: Cause)
    requires Block(t, why)
    ensures Notified !in t
  {
    BrokenDoesNotNotify(t[..|t| - 1], why);
    assert t == t[..|t| - 1] + [Stopped];
  }

  lemma BrokenDoesNotNotify(t: seq<Life>, why: Cause)
    requires BrokenBlock(t, why)
    ensures Notified !in t
  {
    var open := if OpenBlock(t) then t else t[..|t| - 1];
    assert open == [open[0]] + open[1..];
    assert t == open || t == open + [t[|t| - 1]];
  }

  /** A child is restarted at most `max` times in any stretch of time of length `within`. */
  lemma RestartsAreLimited(a: Actor, now: Instant, lo: int)
    requires ActorInv(a, now) && a.strategy.Restart?
    ensures a.gen == |Grants(a.asked, a.strategy.max, a.strategy.within)|
    ensures CountIn(Grants(a.asked, a.strategy.max, a.strategy.within), lo, lo + a.strategy.within) <= a.strategy.max
  {
    WindowBound(a.asked, a.strategy.max, a.strategy.within, lo);
  }
}
