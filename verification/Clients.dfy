/** The client's event loop: a command queue, a map of pending requests and the callers waiting for their results. */
module Clients {
  import opened Handlers

  datatype TransportError = Io | Disconnected

  datatype Outcome = Answered(env: Envelope) | Failed(error: TransportError)

  /** Submissions are numbered; `n` stands for the one-shot channel its caller waits on, if `wants`. */
  datatype Command = Send(n: nat, env: Envelope, wants: bool) | Close

  /** An envelope on its way, with the number of the submission it is or answers (bookkeeping, not transmitted). */
  datatype Wire = Wire(env: Envelope, origin: nat)

  /** A failed transmission may still leave the envelope in the send buffer, to go out later. */
  datatype Transmission = Delivered | Lost | Doubtful

  const CAPACITY: nat := 32

  datatype Client = Client(
    alive: bool, queue: seq<Command>, pending: map<nat, nat>, resolved: map<nat, Outcome>, up: seq<Wire>)

  const FRESH := Client(true, [], map[], map[], [])

  /** One thing that happens to the loop. */
  datatype Event =
    | Submitted(n: nat, env: Envelope, wants: bool)
    | CloseAsked
    | Commanded(tx: Transmission)
    | Incoming(env: Envelope)
    | BadFrame
    | HungUp

  function Resolve(c: Client, n: nat, o: Outcome): Client {
    c.(resolved := c.resolved[n := o])
  }

  function Drop(c: Client, id: nat): Client {
    c.(pending := c.pending - {id})
  }

  /** Inserting over an older request drops its channel, so its caller sees a disconnect. */
  function Track(c: Client, id: nat, n: nat): Client {
    var d := if id in c.pending then Resolve(c, c.pending[id], Failed(Disconnected)) else c;
    d.(pending := d.pending[id := n])
  }

  function Fail(c: Client, id: nat): Client {
    if id in c.pending then Resolve(Drop(c, id), c.pending[id], Failed(Io)) else c
  }

  function Transmit(c: Client, n: nat, env: Envelope, tx: Transmission): Client {
    var d := if tx == Lost then c else c.(up := c.up + [Wire(env, n)]);
    if tx == Delivered then d else Fail(d, env.id)
  }

  function Take(c: Client, tx: Transmission): Client
    requires c.queue != []
  {
    var d := c.(queue := c.queue[1..]);
    match c.queue[0]
    case Send(n, env, wants) => Transmit(if wants then Track(d, env.id, n) else d, n, env, tx)
    case Close => End(d)
  }

  function Receive(c: Client, env: Envelope): Client {
    if env.isResponse && env.id in c.pending then Resolve(Drop(c, env.id), c.pending[env.id], Answered(env)) else c
  }

  function Queued(queue: seq<Command>): set<nat> {
    set i | 0 <= i < |queue| && queue[i].Send? && queue[i].wants :: queue[i].n
  }

  /** These callers' channels are dropped. */
  function Dropped(resolved: map<nat, Outcome>, callers: set<nat>): map<nat, Outcome> {
    map n | n in resolved.Keys + callers :: if n in callers then Failed(Disconnected) else resolved[n]
  }

  /** The loop is left: queue and map are dropped with every channel in them. */
  function End(c: Client): Client {
    c.(alive := false, queue := [], pending := map[],
       resolved := Dropped(c.resolved, Queued(c.queue) + c.pending.Values))
  }

  function Submit(c: Client, n: nat, env: Envelope, wants: bool): Client {
    if c.alive then c.(queue := c.queue + [Send(n, env, wants)])
    else if wants then Resolve(c, n, Failed(Disconnected))
    else c
  }

  function React(c: Client, e: Event): Client {
    match e
    case Submitted(n, env, wants) => Submit(c, n, env, wants)
    case CloseAsked => if c.alive then c.(queue := c.queue + [Close]) else c
    case Commanded(tx) => if c.alive && c.queue != [] then Take(c, tx) else c
    case Incoming(env) => if c.alive then Receive(c, env) else c
    case BadFrame => c
    case HungUp => if c.alive then End(c) else c
  }

  function After(c: Client, events: seq<Event>): Client {
    if events == [] then c else React(After(c, events[..|events| - 1]), events[|events| - 1])
  }

  lemma DropNone(resolved: map<nat, Outcome>)
    ensures Dropped(resolved, {}) == resolved
  {
  }

  lemma DropOne(resolved: map<nat, Outcome>, callers: set<nat>, n: nat)
    ensures Dropped(resolved, callers + {n}) == Dropped(resolved, callers)[n := Failed(Disconnected)]
  {
  }

  // ---------- The loop in place ----------

  class RemoteClient {
    var alive: bool
    var queue: seq<Command>
    var pending: map<nat, nat>
    var resolved: map<nat, Outcome>
    var up: seq<Wire>

    function State(): Client
      reads this
    {
      Client(alive, queue, pending, resolved, up)
    }

    constructor ()
      ensures State() == FRESH
    {
      alive, queue, pending, resolved, up := true, [], map[], map[], [];
    }

    /** The command branch; `open` is false if the loop is to be left. */
    method HandleCommand(tx: Transmission) returns (open: bool)
      requires alive && queue != []
      modifies this
      ensures open ==> State() == Take(old(State()), tx) && alive
      ensures !open ==> End(State()) == Take(old(State()), tx)
    {
      var cmd := queue[0];
      queue := queue[1..];
      match cmd {
        case Close => return false;
        case Send(n, env, wants) =>
          var id := env.id;
          if wants {
            if id in pending {
              resolved := resolved[pending[id] := Failed(Disconnected)];
            }
            pending := pending[id := n];
          }
          if tx != Lost {
            up := up + [Wire(env, n)];
          }
          if tx != Delivered {
            if id in pending {
              var waiter := pending[id];
              pending := pending - {id};
              resolved := resolved[waiter := Failed(Io)];
            }
          }
          return true;
      }
    }

    method HandleIncoming(env: Envelope)
      modifies this
      ensures State() == Receive(old(State()), env)
    {
      if env.isResponse {
        if env.id in pending {
          var waiter := pending[env.id];
          pending := pending - {env.id};
          resolved := resolved[waiter := Answered(env)];
        }
      }
    }

    /** What leaving the loop does to the channels it still owned. */
    method DropAll()
      modifies this
      ensures State() == End(old(State()))
    {
      var waiting := Queued(queue) + pending.Values;
      ghost var start := waiting;
      ghost var before := resolved;
      DropNone(before);
      assert start - waiting == {};
      while waiting != {}
        invariant waiting <= start && queue == old(queue) && pending == old(pending) && up == old(up)
        invariant resolved == Dropped(before, start - waiting)
        decreases waiting
      {
        var n :| n in waiting;
        DropOne(before, start - waiting, n);
        assert start - (waiting - {n}) == (start - waiting) + {n};
        waiting := waiting - {n};
        resolved := resolved[n := Failed(Disconnected)];
      }
      assert start - {} == start;
      alive := false;
      queue := [];
      pending := map[];
    }

    /** The event loop: runs until it is told to close, loses the connection or has seen all of `events`. */
    method EventLoop(events: seq<Event>) returns (used: nat)
      requires alive
      modifies this
      ensures used <= |events| && State() == After(old(State()), events[..used])
      ensures alive ==> used == |events|
    {
      used := 0;
      var open := true;
      while open && used < |events|
        invariant used <= |events|
        invariant open ==> alive && State() == After(old(State()), events[..used])
        invariant !open ==> End(State()) == After(old(State()), events[..used])
        decreases |events| - used
      {
        assert events[..used + 1][..used] == events[..used];
        match events[used] {
          case Submitted(n, env, wants) => queue := queue + [Send(n, env, wants)];
          case CloseAsked => queue := queue + [Close];
          case Commanded(tx) =>
            if queue != [] {
              open := HandleCommand(tx);
            }
          case Incoming(env) => HandleIncoming(env);
          case BadFrame =>
          case HungUp => open := false;
        }
        used := used + 1;
      }
      if !open {
        DropAll();
      }
    }
  }

  // ---------- Conservation ----------

  datatype Submission = Submission(env: Envelope, wants: bool)

  predicate InQueue(c: Client, subs: seq<Submission>, n: nat)
    requires n < |subs|
  {
    Send(n, subs[n].env, subs[n].wants) in c.queue
  }

  predicate InPending(c: Client, subs: seq<Submission>, n: nat)
    requires n < |subs|
  {
    subs[n].env.id in c.pending && c.pending[subs[n].env.id] == n
  }

  /** A caller who waits is in exactly one place: the queue, the map, or done. */
  predicate Placed(c: Client, subs: seq<Submission>, n: nat)
    requires n < |subs|
  {
    var q, p, r := InQueue(c, subs, n), InPending(c, subs, n), n in c.resolved;
    (q && !p && !r) || (!q && p && !r) || (!q && !p && r)
  }

  predicate QueueOk(queue: seq<Command>, subs: seq<Submission>) {
    && (forall i :: 0 <= i < |queue| && queue[i].Send? ==>
          queue[i].n < |subs| && subs[queue[i].n] == Submission(queue[i].env, queue[i].wants))
    && (forall i, j :: 0 <= i < j < |queue| && queue[i].Send? && queue[j].Send? ==> queue[i].n < queue[j].n)
  }

  predicate PendingOk(pending: map<nat, nat>, subs: seq<Submission>) {
    forall id :: id in pending ==> pending[id] < |subs| && subs[pending[id]].wants && subs[pending[id]].env.id == id
  }

  ghost predicate Conserved(c: Client, subs: seq<Submission>) {
    && QueueOk(c.queue, subs)
    && PendingOk(c.pending, subs)
    && (forall n :: n in c.resolved ==> n < |subs| && subs[n].wants)
    && (forall n :: 0 <= n < |subs| && subs[n].wants ==> Placed(c, subs, n))
    && (!c.alive ==> c.queue == [] && c.pending == map[])
  }

  lemma SubmitConserves(c: Client, subs: seq<Submission>, env: Envelope, wants: bool)
    requires Conserved(c, subs)
    ensures Conserved(Submit(c, |subs|, env, wants), subs + [Submission(env, wants)])
  {
    var n := |subs|;
    var c' := Submit(c, n, env, wants);
    var subs' := subs + [Submission(env, wants)];
    forall m | 0 <= m < |subs'| && subs'[m].wants
      ensures Placed(c', subs', m)
    {
      if m < n {
        assert Placed(c, subs, m);
        assert InQueue(c', subs', m) <==> InQueue(c, subs, m);
      } else if c.alive {
        assert c'.queue[|c.queue|] == Send(n, env, wants);
      } else {
        assert c'.queue == [];
      }
    }
  }

  /** The head of the queue leaves it: only its own caller's place changes. */
  lemma HeadLeaves(c: Client, subs: seq<Submission>, m: nat)
    requires Conserved(c, subs) && c.queue != [] && m < |subs|
    ensures QueueOk(c.queue[1..], subs)
    ensures var d := c.(queue := c.queue[1..]);
            InQueue(d, subs, m) <==> InQueue(c, subs, m) && !(c.queue[0].Send? && c.queue[0].n == m)
  {
    var d := c.(queue := c.queue[1..]);
    var cmd := Send(m, subs[m].env, subs[m].wants);
    assert c.queue == [c.queue[0]] + d.queue;
    if cmd in d.queue {
      var i :| 0 <= i < |d.queue| && d.queue[i] == cmd;
      assert c.queue[i + 1] == cmd;
    }
  }

  lemma TakeConserves(c: Client, subs: seq<Submission>, tx: Transmission)
    requires Conserved(c, subs) && c.alive && c.queue != []
    ensures Conserved(Take(c, tx), subs)
  {
    var d := c.(queue := c.queue[1..]);
    match c.queue[0]
    case Close =>
      forall m | 0 <= m < |subs| && subs[m].wants
        ensures Placed(d, subs, m)
      {
        assert Placed(c, subs, m);
        HeadLeaves(c, subs, m);
      }
      if subs != [] {
        HeadLeaves(c, subs, 0);
      }
      assert QueueOk(d.queue, subs);
      EndConserves(d, subs);
    case Send(n, env, wants) =>
      HeadLeaves(c, subs, n);
      var e := if wants then Track(d, env.id, n) else d;
      TrackConserves(c, subs, d, e);
      TransmitConserves(e, subs, n, env, tx);
  }

  lemma TrackConserves(c: Client, subs: seq<Submission>, d: Client, e: Client)
    requires Conserved(c, subs) && c.alive && c.queue != [] && c.queue[0].Send? && d == c.(queue := c.queue[1..])
    requires e == if c.queue[0].wants then Track(d, c.queue[0].env.id, c.queue[0].n) else d
    ensures Conserved(e, subs) && e.alive
  {
    var n, id := c.queue[0].n, c.queue[0].env.id;
    HeadLeaves(c, subs, n);
    assert c.queue[0] in c.queue;
    forall m | 0 <= m < |subs| && subs[m].wants
      ensures Placed(e, subs, m)
    {
      TrackPlaced(c, subs, d, e, m);
    }
  }

  lemma TrackPlaced(c: Client, subs: seq<Submission>, d: Client, e: Client, m: nat)
    requires Conserved(c, subs) && c.alive && c.queue != [] && c.queue[0].Send? && d == c.(queue := c.queue[1..])
    requires e == if c.queue[0].wants then Track(d, c.queue[0].env.id, c.queue[0].n) else d
    requires m < |subs| && subs[m].wants
    ensures Placed(e, subs, m)
  {
    assert Placed(c, subs, m);
    HeadLeaves(c, subs, m);
    assert InQueue(e, subs, m) <==> InQueue(d, subs, m);
    if c.queue[0].wants {
      assert Placed(c, subs, c.queue[0].n);
    }
  }

  lemma DropResolves(c: Client, subs: seq<Submission>, id: nat, o: Outcome)
    requires Conserved(c, subs) && id in c.pending
    ensures Conserved(Resolve(Drop(c, id), c.pending[id], o), subs)
  {
    var d := Resolve(Drop(c, id), c.pending[id], o);
    forall m | 0 <= m < |subs| && subs[m].wants
      ensures Placed(d, subs, m)
    {
      assert Placed(c, subs, m);
      assert InQueue(d, subs, m) <==> InQueue(c, subs, m);
    }
  }

  lemma TransmitConserves(c: Client, subs: seq<Submission>, n: nat, env: Envelope, tx: Transmission)
    requires Conserved(c, subs)
    ensures Conserved(Transmit(c, n, env, tx), subs)
  {
    var d := if tx == Lost then c else c.(up := c.up + [Wire(env, n)]);
    assert Conserved(d, subs) by {
      forall m | 0 <= m < |subs| && subs[m].wants
        ensures Placed(d, subs, m)
      {
        assert Placed(c, subs, m);
      }
    }
    if env.id in d.pending {
      DropResolves(d, subs, env.id, Failed(Io));
    }
  }

  lemma QueuedIs(c: Client, subs: seq<Submission>, n: nat)
    requires QueueOk(c.queue, subs) && n < |subs|
    ensures n in Queued(c.queue) <==> subs[n].wants && InQueue(c, subs, n)
  {
  }

  lemma EndConserves(c: Client, subs: seq<Submission>)
    requires Conserved(c, subs)
    ensures Conserved(End(c), subs)
    ensures forall n :: n in c.resolved ==> End(c).resolved[n] == c.resolved[n]
    ensures forall n :: 0 <= n < |subs| && subs[n].wants && n !in c.resolved ==>
              n in End(c).resolved && End(c).resolved[n] == Failed(Disconnected)
  {
    var d := End(c);
    forall n | 0 <= n < |subs|
      ensures subs[n].wants ==> n in d.resolved
      ensures n in c.pending.Values ==> subs[n].wants && InPending(c, subs, n)
      ensures n in Queued(c.queue) <==> subs[n].wants && InQueue(c, subs, n)
    {
      QueuedIs(c, subs, n);
      assert subs[n].wants ==> Placed(c, subs, n);
      assert InPending(c, subs, n) ==> n in c.pending.Values;
    }
    forall n | n in c.resolved
      ensures d.resolved[n] == c.resolved[n]
    {
      assert Placed(c, subs, n);
    }
  }

  lemma ReceiveConserves(c: Client, subs: seq<Submission>, env: Envelope)
    requires Conserved(c, subs)
    ensures Conserved(Receive(c, env), subs)
  {
    if env.isResponse && env.id in c.pending {
      DropResolves(c, subs, env.id, Answered(env));
    }
  }

  lemma CloseConserves(c: Client, subs: seq<Submission>)
    requires Conserved(c, subs) && c.alive
    ensures Conserved(c.(queue := c.queue + [Close]), subs)
  {
    var d := c.(queue := c.queue + [Close]);
    forall m | 0 <= m < |subs| && subs[m].wants
      ensures Placed(d, subs, m)
    {
      assert Placed(c, subs, m);
      assert InQueue(d, subs, m) <==> InQueue(c, subs, m);
    }
  }
}
