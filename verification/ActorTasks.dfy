/**
 The tokio task behind an actor, run against whatever happens to it. For a supervised child it is the restart loop
 around the message loop; for a top-level actor, which has no parent, the message loop alone.
 */
module ActorTasks {
  import opened Basics
  import opened Tracker
  import opened ActorLife
  import opened ActorOutcomes

  /** What happens to an actor, in order. `now` is what the clock shows should this turn be the instance's last. */
  datatype Input =
    | Arrives(m: Msg)
    | StopCalled
    | Escalated(panic: nat)
    | Spawned(child: nat)
    | Poll(w: World, now: Instant)

  datatype Signal = StopTo(child: nat) | EscalateTo(link: Link)

  // ---------- What an actor's tokio task amounts to, one input at a time ----------

  /** From the end of the message loop to the end of the actor or the next instance: children told, `stopped` called. */
  function Concluded(a: Actor, now: Instant): (b: Actor)
    requires a.phase.Stopping?
    ensures b.parent == a.parent && (b.phase.Looping? || b.phase.Dead?)
  {
    var w := Wound(a.(phase := Stopping(a.phase.why, |a.children|)));
    if w.phase.Deciding? then Decide(w, now) else w
  }

  /** The turn that ends an instance runs on through `stop_children`, `stopped` and the supervisor's decision. */
  function Polled(a: Actor, w: World, now: Instant): (b: Actor)
    requires a.phase.Looping?
    ensures b.parent == a.parent && (b.phase.Looping? || b.phase.Dead?)
  {
    var t := Turn(a, w);
    if t.phase.Stopping? then Concluded(t, now) else t
  }

  /** One input; a dead actor stays as it is. */
  function React(a: Actor, i: Input): (b: Actor)
    requires a.phase.Looping? || a.phase.Dead?
    ensures b.parent == a.parent && (b.phase.Looping? || b.phase.Dead?)
  {
    if a.phase.Dead? then a
    else
      match i
      case Arrives(m) => Offer(a, m).0
      case StopCalled => AskStop(a)
      case Escalated(panic) => AskEscalate(a, a.gen, panic)
      case Spawned(child) => Adopt(a, child)
      case Poll(w, now) => Polled(a, w, now)
  }

  /** An instance that ends tells its children to stop, in order, and, if it escalates, its parent's instance. */
  function Emits(a: Actor, i: Input): seq<Signal> {
    if a.phase.Looping? && i.Poll? && Turn(a, i.w).phase.Stopping? then
      StopAll(a.children) + Upward(a.parent, a.strategy, Turn(a, i.w).phase.why)
    else []
  }

  function Upward(parent: Option<Link>, strategy: Strategy, why: Cause): seq<Signal> {
    if parent.Some? && strategy.Escalate? && why.Failed? then [EscalateTo(parent.value)] else []
  }

  function StopAll(children: seq<nat>): seq<Signal> {
    if children == [] then [] else StopAll(children[..|children| - 1]) + [StopTo(children[|children| - 1])]
  }

  function After(a: Actor, inputs: seq<Input>): (r: Actor)
    requires a.phase.Looping? || a.phase.Dead?
    ensures r.parent == a.parent && (r.phase.Looping? || r.phase.Dead?)
  {
    if inputs == [] then a else React(After(a, inputs[..|inputs| - 1]), inputs[|inputs| - 1])
  }

  function Signals(a: Actor, inputs: seq<Input>): seq<Signal>
    requires a.phase.Looping? || a.phase.Dead?
  {
    if inputs == [] then []
    else
      var front := inputs[..|inputs| - 1];
      Signals(a, front) + Emits(After(a, front), inputs[|inputs| - 1])
  }

  lemma {:induction false} StopAllIs(children: seq<nat>)
    ensures |StopAll(children)| == |children|
    ensures forall i :: 0 <= i < |children| ==> StopAll(children)[i] == StopTo(children[i])
  {
    if children != [] {
      StopAllIs(children[..|children| - 1]);
    }
  }

  /**
   The signals of one input: none unless an instance ends; then a stop to each of its children, in order, and after them
   an escalation to the instance that spawned it, exactly if it failed under Escalate.
   */
  lemma EmitsAre(a: Actor, i: Input)
    requires a.phase.Looping?
    ensures !i.Poll? || Turn(a, i.w).ends == a.ends ==> Emits(a, i) == []
    ensures i.Poll? && Turn(a, i.w).ends != a.ends ==>
              var ends, g, n := Turn(a, i.w).ends, Emits(a, i), |a.children|;
              && |ends| == |a.ends| + 1 && n <= |g| <= n + 1
              && (forall k :: 0 <= k < n ==> g[k] == StopTo(a.children[k]))
              && (|g| == n + 1 <==> a.parent.Some? && a.strategy.Escalate? && ends[|a.ends|].Failed?)
              && (|g| == n + 1 ==> g[n] == EscalateTo(a.parent.value))
  {
    StopAllIs(a.children);
  }

  /** Between turns: a message joins the mailbox if it has room, a permit stays until used, a child is listed last. */
  lemma ReachedIs(a: Actor, i: Input)
    requires a.phase.Looping? && !i.Poll?
    ensures var b := React(a, i);
            && b.queue == a.queue + (if i.Arrives? && |a.queue| < a.capacity then [i.m] else [])
            && b.accepted == a.accepted + (if i.Arrives? && |a.queue| < a.capacity then [i.m] else [])
            && b.stopPermit == (a.stopPermit || i.StopCalled?)
            && b.escPermit == (if i.Escalated? && a.escPermit.None? then Some(i.panic) else a.escPermit)
            && b.children == a.children + (if i.Spawned? then [i.child] else [])
            && b.taken == a.taken && b.ends == a.ends && b.trace == a.trace && b.phase == a.phase && b.gen == a.gen
  {
  }

  /** A turn that ends an instance is followed by the next one exactly if a child failed and the limit leaves room. */
  lemma PolledIs(a: Actor, w: World, now: Instant)
    requires TrackerInv(a, now) && a.phase.Looping?
    ensures var t, b := Turn(a, w), React(a, Poll(w, now));
            if t.ends == a.ends then b == t
            else
              && b.ends == t.ends && b.queue == t.queue && b.taken == t.taken && b.stopPermit == t.stopPermit
              && (if a.parent.Some? && t.ends[|t.ends| - 1].Failed? && HasRoom(a, now) then
                    b.phase.Looping? && b.gen == a.gen + 1
                  else b.phase.Dead?)
  {
    var t := Turn(a, w);
    TurnTracker(a, w, now);
    TurnEnds(a, w, t);
    if t.phase.Stopping? {
      ConcludedIs(t, now);
    }
  }

  lemma TurnEnds(a: Actor, w: World, t: Actor)
    requires a.phase.Looping? && t == Turn(a, w)
    ensures t.parent == a.parent && t.strategy == a.strategy && t.asked == a.asked && t.gen == a.gen
    ensures if t.phase.Stopping? then t.ends == a.ends + [t.phase.why] else t.phase.Looping? && t.ends == a.ends
  {
  }

  lemma ConcludedIs(t: Actor, now: Instant)
    requires TrackerInv(t, now) && t.phase.Stopping?
    ensures var b := Concluded(t, now);
            && b.ends == t.ends && b.queue == t.queue && b.taken == t.taken && b.stopPermit == t.stopPermit
            && (if t.parent.Some? && t.phase.why.Failed? && HasRoom(t, now) then
                  b.phase.Looping? && b.gen == t.gen + 1
                else b.phase.Dead?)
  {
    var u := t.(phase := Stopping(t.phase.why, |t.children|));
    if t.parent.Some? {
      DecisionIs(Wound(u), now);
    }
  }

  lemma AfterNext(a: Actor, inputs: seq<Input>, k: nat)
    requires (a.phase.Looping? || a.phase.Dead?) && k < |inputs|
    ensures After(a, inputs[..k + 1]) == React(After(a, inputs[..k]), inputs[k])
    ensures Signals(a, inputs[..k + 1]) == Signals(a, inputs[..k]) + Emits(After(a, inputs[..k]), inputs[k])
  {
    assert inputs[..k + 1][..k] == inputs[..k];
  }

  /** A dead actor stays as it is and signals no one. */
  lemma {:induction false} DeadStays(a: Actor, inputs: seq<Input>, k: nat)
    requires (a.phase.Looping? || a.phase.Dead?) && k <= |inputs|
    requires After(a, inputs[..k]).phase.Dead?
    ensures After(a, inputs) == After(a, inputs[..k]) && Signals(a, inputs) == Signals(a, inputs[..k])
    decreases |inputs| - k
  {
    if k < |inputs| {
      AfterNext(a, inputs, k);
      DeadStays(a, inputs, k + 1);
    } else {
      assert inputs[..k] == inputs;
    }
  }

  /** A context just made for a new instance, which has just started. */
  function Begun(a: Actor): Actor {
    a.(phase := Looping, children := [], escPermit := None, mark := |a.trace|, trace := a.trace + [Started])
  }

  /** The actor is over: a child notifies its watchers now, a top-level actor has already done so. */
  function Ended(a: Actor): Actor {
    if a.parent.Some? then Die(a) else Close(a)
  }

  /** State and signals together. */
  function Account(a: Actor, inputs: seq<Input>): Reckoning
    requires a.phase.Looping? || a.phase.Dead?
  {
    (After(a, inputs), Signals(a, inputs))
  }

  type Reckoning = (Actor, seq<Signal>)

  predicate Next(p: Reckoning, i: Input, q: Reckoning) {
    && (p.0.phase.Looping? || p.0.phase.Dead?)
    && q == (React(p.0, i), p.1 + Emits(p.0, i))
  }

  /** State and signals before and after each input. */
  predicate Path(path: seq<Reckoning>, inputs: seq<Input>) {
    |path| == |inputs| + 1 && forall k :: 0 <= k < |inputs| ==> Next(path[k], inputs[k], path[k + 1])
  }

  lemma PathOf(a: Actor, inputs: seq<Input>) returns (path: seq<Reckoning>)
    requires a.phase.Looping? || a.phase.Dead?
    ensures Path(path, inputs)
    ensures forall k :: 0 <= k <= |inputs| ==> path[k] == Account(a, inputs[..k])
  {
    path := seq(|inputs| + 1, k requires 0 <= k <= |inputs| => Account(a, inputs[..k]));
    forall k | 0 <= k < |inputs|
      ensures Next(path[k], inputs[k], path[k + 1])
    {
      AfterNext(a, inputs, k);
    }
  }

  // ---------- The restart and message loops ----------

  class ActorTask {
    const parent: Option<Link>
    const strategy: Strategy
    const capacity: nat
    const tracker: RestartTracker

    var queue: seq<Msg>
    var stopPermit: bool
    var escPermit: Option<nat>
    var children: seq<nat>
    var signals: seq<Signal>

    ghost var accepted: seq<Msg>
    ghost var taken: seq<Msg>
    ghost var answers: map<nat, bool>
    ghost var gen: nat
    ghost var phase: Phase
    ghost var ends: seq<Cause>
    ghost var asked: seq<Instant>
    ghost var trace: seq<Life>
    ghost var mark: nat

    ghost function State(): (a: Actor)
      reads this, tracker
      ensures a.parent == parent
    {
      Actor(parent, strategy, capacity, queue, accepted, taken, answers, stopPermit, escPermit,
            gen, phase, children, ends, tracker.restartTimes, asked, trace, mark)
    }

    ghost predicate Valid()
      reads this
    {
      strategy.Restart? ==> tracker.maxRestarts == strategy.max && tracker.within == strategy.within
    }

    constructor (parent: Option<Link>, strategy: Strategy, capacity: nat)
      ensures Valid() && fresh(tracker)
      ensures this.parent == parent && this.strategy == strategy && this.capacity == capacity
      ensures Begun(State()) == Newborn(parent, strategy, capacity) && signals == []
    {
      this.parent := parent;
      this.strategy := strategy;
      this.capacity := capacity;
      match strategy {
        case Restart(max, within) => tracker := new RestartTracker(max, within);
        case _ => tracker := new RestartTracker(0, 0);
      }
      queue, stopPermit, escPermit, children, signals := [], false, None, [], [];
      accepted, taken, answers, gen, phase, ends, asked, trace, mark := [], [], map[], 0, Dead, [], [], [], 0;
    }

    /** A new instance with its own context. */
    method Begin()
      requires Valid()
      modifies this
      ensures Valid() && State() == Begun(old(State())) && signals == old(signals)
    {
      children := [];
      escPermit := None;
      phase := Looping;
      mark := |trace|;
      trace := trace + [Started];
    }

    /** Something reaches the actor between two turns. */
    method Reach(i: Input)
      requires Valid() && phase.Looping? && !i.Poll?
      modifies this
      ensures Valid() && State() == React(old(State()), i) && signals == old(signals)
    {
      match i
      case Arrives(m) =>
        if |queue| < capacity {
          queue := queue + [m];
          accepted := accepted + [m];
        }
      case StopCalled => stopPermit := true;
      case Escalated(panic) =>
        if escPermit == None {
          escPermit := Some(panic);
        }
      case Spawned(child) => children := children + [child];
    }

    /** The first message is taken and handled. */
    method Handle(w: World)
      requires Valid() && phase.Looping? && queue != []
      modifies this
      ensures Valid() && signals == old(signals)
      ensures State() == HandleOne(old(State()), w)
    {
      queue, taken := queue[1..], taken + [queue[0]];
      trace := trace + [Handled(|taken| - 1, !w.handlerPanics)];
      answers := answers[|taken| - 1 := !w.handlerPanics];
    }

    /** The loop is broken out of. */
    method Leave(why: Cause)
      requires Valid() && phase.Looping?
      modifies this
      ensures Valid() && signals == old(signals)
      ensures State() == Break(old(State()), why)
    {
      ends := ends + [why];
      phase := Stopping(why, 0);
      if parent.None? {
        trace := trace + [Notified];
      }
    }

    /** One `select!`: `left` says whether the loop is broken out of, `why` with what result. */
    method Choose(w: World) returns (left: bool, why: Cause)
      requires Valid() && phase.Looping?
      modifies this
      ensures Valid() && signals == old(signals)
      ensures State() == Turn(old(State()), w)
      ensures phase == if left then Stopping(why, 0) else Looping
    {
      left, why := false, Graceful;
      if queue != [] {
        Handle(w);
        if w.handlerPanics {
          left, why := true, Failed(w.panic);
        }
      } else if w.streamReady {
      } else if w.shutdown {
        left := true;
      } else if stopPermit {
        stopPermit := false;
        left := true;
      } else if escPermit.Some? {
        left, why := true, Failed(escPermit.value);
        escPermit := None;
      }
      if left {
        Leave(why);
      }
    }

    method StopChildren()
      requires Valid() && phase.Stopping? && phase.next == 0
      modifies this
      ensures Valid() && State() == old(State()).(phase := Stopping(old(phase).why, |children|))
      ensures signals == old(signals) + StopAll(children)
    {
      for k := 0 to |children|
        invariant Valid() && State() == old(State()).(phase := Stopping(old(phase).why, k))
        invariant signals == old(signals) + StopAll(children[..k])
      {
        assert children[..k + 1][..k] == children[..k];
        signals := signals + [StopTo(children[k])];
        phase := Stopping(phase.why, k + 1);
      }
      assert children[..|children|] == children;
    }

    /** `stop_children`, `stopped`, and what the strategy makes of a failure; `again` if there is a new instance. */
    method Conclude(why: Cause, now: Instant) returns (again: bool)
      requires Valid() && phase.Stopping? && phase.next == 0 && phase.why == why
      modifies this, tracker
      ensures Valid()
      ensures var b := Concluded(old(State()), now);
              if again then Begun(State()) == b else Ended(State()) == b
      ensures signals == old(signals) + (StopAll(old(children)) + Upward(parent, strategy, why))
    {
      StopChildren();
      trace := trace + [Stopped];
      again := false;
      if parent.Some? {
        phase := Deciding(why);
        again := Supervise(why, now);
      }
    }

    /** What the strategy makes of an instance that has stopped. */
    method Supervise(why: Cause, now: Instant) returns (again: bool)
      requires Valid() && parent.Some? && phase == Deciding(why)
      modifies this, tracker
      ensures Valid()
      ensures var b := Decide(old(State()), now);
              if again then Begun(State()) == b else Ended(State()) == b
      ensures signals == old(signals) + Upward(parent, strategy, why)
    {
      again := false;
      if why.Failed? {
        match strategy
        case Stop =>
        case Restart(_, _) =>
          again := tracker.RecordRestart(now);
          asked := asked + [now];
          if again {
            gen := gen + 1;
          }
        case Escalate => signals := signals + [EscalateTo(parent.value)];
      }
    }

    /** A child's watchers are notified, and the mailbox is dropped. */
    method Finish()
      requires Valid()
      modifies this
      ensures Valid() && State() == Ended(old(State())) && signals == old(signals)
    {
      if parent.Some? {
        trace := trace + [Notified];
      }
      answers := map k | 0 <= k < |accepted| :: k < |taken| && k in answers && answers[k];
      phase := Dead;
    }

    /** What state and signals come to: now, or once the instance whose loop is left has been concluded. */
    ghost function Outlook(now: Instant): Reckoning
      reads this, tracker
    {
      if phase.Stopping? then
        (Concluded(State(), now), signals + (StopAll(children) + Upward(parent, strategy, phase.why)))
      else (State(), signals)
    }

    /** One input: the actor does what `React` and `Emits` say, or leaves its loop on the way to it. */
    method Meet(i: Input) returns (left: bool, why: Cause, now: Instant)
      requires Valid() && phase.Looping?
      modifies this
      ensures Valid() && phase == if left then Stopping(why, 0) else Looping
      ensures Outlook(now) == (React(old(State()), i), old(signals) + Emits(old(State()), i))
    {
      left, why, now := false, Graceful, 0;
      if i.Poll? {
        left, why := Choose(i.w);
        now := i.now;
      } else {
        Reach(i);
      }
      assert old(signals) + [] == signals;
    }

    /** The message loop of one instance, from its first turn until it is left or the inputs are used up. */
    method Live(inputs: seq<Input>, from: nat, ghost path: seq<Reckoning>)
      returns (pos: nat, left: bool, why: Cause, now: Instant)
      requires Valid() && phase.Looping? && from <= |inputs| && Path(path, inputs)
      requires Outlook(0) == path[from]
      modifies this
      ensures Valid() && phase == if left then Stopping(why, 0) else Looping
      ensures from <= pos <= |inputs| && if left then from < pos else pos == |inputs|
      ensures Outlook(now) == path[pos]
    {
      pos, left, why, now := from, false, Graceful, 0;
      while !left && pos < |inputs|
        invariant from <= pos <= |inputs| && Valid() && (left ==> from < pos)
        invariant phase == if left then Stopping(why, 0) else Looping
        invariant Outlook(now) == path[pos]
        decreases |inputs| - pos
      {
        assert Next(path[pos], inputs[pos], path[pos + 1]);
        left, why, now := Meet(inputs[pos]);
        pos := pos + 1;
      }
    }

    /** The nested loops do what reacting to the inputs one by one amounts to. */
    method Run(inputs: seq<Input>)
      requires Valid() && Begun(State()) == Newborn(parent, strategy, capacity) && signals == []
      modifies this, tracker
      ensures var a := Newborn(parent, strategy, capacity);
              State() == After(a, inputs) && signals == Signals(a, inputs)
    {
      ghost var a := Newborn(parent, strategy, capacity);
      ghost var path := PathOf(a, inputs);
      var pos := 0;
      while true
        invariant 0 <= pos <= |inputs| && Valid()
        invariant (Begun(State()), signals) == path[pos]
        decreases |inputs| - pos
      {
        Begin();
        var left, why, now;
        pos, left, why, now := Live(inputs, pos, path);
        if !left {
          assert inputs[..pos] == inputs;
          return;
        }
        var again := Conclude(why, now);
        if !again {
          Finish();
          DeadStays(a, inputs, pos);
          return;
        }
      }
    }
  }

  // ---------- What every run of an actor keeps ----------

  /** The clock does not run backwards. */
  predicate InTime(inputs: seq<Input>) {
    forall i, j :: 0 <= i < j < |inputs| && inputs[i].Poll? && inputs[j].Poll? ==> inputs[i].now <= inputs[j].now
  }

  function Clock(inputs: seq<Input>): Instant {
    if inputs == [] then 0
    else
      var n := |inputs| - 1;
      if inputs[n].Poll? then inputs[n].now else Clock(inputs[..n])
  }

  lemma {:induction false} ClockBelow(inputs: seq<Input>, now: Instant)
    requires forall i :: 0 <= i < |inputs| && inputs[i].Poll? ==> inputs[i].now <= now
    ensures Clock(inputs) <= now
  {
    if inputs != [] {
      ClockBelow(inputs[..|inputs| - 1], now);
    }
  }

  lemma ReactInv(a: Actor, i: Input, b: Actor, before: Instant, now: Instant)
    requires (a.phase.Looping? || a.phase.Dead?) && b == React(a, i)
    requires ActorInv(a, before) && before <= now && (i.Poll? ==> i.now == now)
    ensures ActorInv(b, now)
  {
    LaterInv(a, before, now);
    if a.phase.Looping? {
      match i
      case Arrives(m) => OfferInv(a, m, now);
      case StopCalled => SignalledInv(a, AskStop(a), now);
      case Escalated(panic) => SignalledInv(a, AskEscalate(a, a.gen, panic), now);
      case Spawned(child) => SignalledInv(a, Adopt(a, child), now);
      case Poll(w, _) => PollInv(a, w, now);
    }
  }

  lemma PollInv(a: Actor, w: World, now: Instant)
    requires a.phase.Looping? && ActorInv(a, now)
    ensures ActorInv(Polled(a, w, now), now)
  {
    var t := Turn(a, w);
    TurnInv(a, w, now);
    if t.phase.Stopping? {
      ConcludedInv(t, now);
    }
  }

  lemma ConcludedInv(a: Actor, now: Instant)
    requires a.phase.Stopping? && ActorInv(a, now)
    ensures ActorInv(Concluded(a, now), now)
  {
    var b := a.(phase := Stopping(a.phase.why, |a.children|));
    AllToldInv(a, |a.children|, now);
    WoundInv(b, now);
    if Wound(b).phase.Deciding? {
      DecidedInv(Wound(b), now);
    }
  }

  lemma ClockMoves(inputs: seq<Input>)
    requires inputs != [] && InTime(inputs)
    ensures var n := |inputs| - 1;
            Clock(inputs[..n]) <= Clock(inputs) && (inputs[n].Poll? ==> inputs[n].now == Clock(inputs))
  {
    var n := |inputs| - 1;
    if inputs[n].Poll? {
      ClockBelow(inputs[..n], inputs[n].now);
    }
  }

  /** Whatever happens to an actor, at every moment its mailbox, its trace and its restarts are in order. */
  lemma {:induction false} TaskRunsKeep(parent: Option<Link>, strategy: Strategy, capacity: nat, inputs: seq<Input>)
    requires InTime(inputs)
    ensures ActorInv(After(Newborn(parent, strategy, capacity), inputs), Clock(inputs))
    decreases |inputs|
  {
    var a := Newborn(parent, strategy, capacity);
    if inputs == [] {
      NewbornInv(parent, strategy, capacity, 0);
    } else {
      var n := |inputs| - 1;
      var b, c := After(a, inputs[..n]), After(a, inputs);
      assert ActorInv(b, Clock(inputs[..n])) by {
        TaskRunsKeep(parent, strategy, capacity, inputs[..n]);
      }
      assert c == React(b, inputs[n]) by {
        AfterNext(a, inputs, n);
        assert inputs[..n + 1] == inputs;
      }
      ClockMoves(inputs);
      ReactInv(b, inputs[n], c, Clock(inputs[..n]), Clock(inputs));
    }
  }
}
