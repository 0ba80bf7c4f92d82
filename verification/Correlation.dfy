/** A client, a connection and the server task at its other end, interleaved in every way. */
module Correlation {
  import opened Basics
  import opened Handlers
  import opened Clients

  datatype Server = Idle | Busy(wire: Wire) | Gone

  /** What the server's handler made of one envelope. */
  datatype Handling = Handling(origin: nat, env: Envelope, response: Option<Envelope>)

  /** The router is the server's and stays the same. */
  datatype Net = Net(
    router: Router, client: Client, subs: seq<Submission>, server: Server, down: seq<Wire>, log: seq<Handling>)

  function Start(router: Router): Net {
    Net(router, FRESH, [], Idle, [], [])
  }

  datatype Label =
    | Call(env: Envelope, wants: bool)
    | AskClose
    | TakeCommand(tx: Transmission)
    | GetResponse
    | GetBadFrame
    | HangUp
    | ServerGet
    | ServerAnswer(reply: ActorReply, sent: bool)
    | ServerQuit

  predicate Enabled(s: Net, l: Label) {
    match l
    case Call(_, _) => !s.client.alive || |s.client.queue| < CAPACITY
    case AskClose => s.client.alive && |s.client.queue| < CAPACITY
    case TakeCommand(_) => s.client.alive && s.client.queue != []
    case GetResponse => s.client.alive && s.down != []
    case GetBadFrame => s.client.alive && s.down != []
    case HangUp => s.client.alive
    case ServerGet => s.server.Idle? && s.client.up != []
    case ServerAnswer(_, _) => s.server.Busy?
    case ServerQuit => s.server.Idle?
  }

  /** The server's loop: handle one envelope to its end, send what there is to send, stop if that fails. */
  function Served(s: Net, reply: ActorReply, sent: bool): Net
    requires s.server.Busy?
  {
    var w := s.server.wire;
    var response := Dispatch(s.router, w.env, reply);
    var t := s.(log := s.log + [Handling(w.origin, w.env, response)], server := Idle);
    if response.None? then t
    else if sent then t.(down := t.down + [Wire(response.value, w.origin)])
    else t.(server := Gone)
  }

  function Apply(s: Net, l: Label): Net
    requires Enabled(s, l)
  {
    match l
    case Call(env, wants) =>
      s.(client := React(s.client, Submitted(|s.subs|, env, wants)), subs := s.subs + [Submission(env, wants)])
    case AskClose => s.(client := React(s.client, CloseAsked))
    case TakeCommand(tx) => s.(client := React(s.client, Commanded(tx)))
    case GetResponse => s.(client := React(s.client, Incoming(s.down[0].env)), down := s.down[1..])
    case GetBadFrame => s.(client := React(s.client, BadFrame), down := s.down[1..])
    case HangUp => s.(client := React(s.client, HungUp))
    case ServerGet => s.(server := Busy(s.client.up[0]), client := s.client.(up := s.client.up[1..]))
    case ServerAnswer(reply, sent) => Served(s, reply, sent)
    case ServerQuit => s.(server := Gone)
  }

  predicate IsRun(run: seq<Net>, labels: seq<Label>) {
    && |run| == |labels| + 1 && run[0] == Start(run[0].router)
    && forall k :: 0 <= k < |labels| ==> Enabled(run[k], labels[k]) && run[k + 1] == Apply(run[k], labels[k])
  }

  // ---------- Conservation over runs ----------

  lemma StepConserves(s: Net, l: Label)
    requires Enabled(s, l) && Conserved(s.client, s.subs)
    ensures Conserved(Apply(s, l).client, Apply(s, l).subs)
  {
    match l
    case Call(env, wants) => SubmitConserves(s.client, s.subs, env, wants);
    case AskClose => CloseConserves(s.client, s.subs);
    case TakeCommand(tx) => TakeConserves(s.client, s.subs, tx);
    case GetResponse => ReceiveConserves(s.client, s.subs, s.down[0].env);
    case HangUp => EndConserves(s.client, s.subs);
    case ServerGet => UpConserves(s.client, s.subs, s.client.up[1..]);
    case _ =>
  }

  lemma UpConserves(c: Client, subs: seq<Submission>, up: seq<Wire>)
    requires Conserved(c, subs)
    ensures Conserved(c.(up := up), subs)
  {
    forall n | 0 <= n < |subs| && subs[n].wants
      ensures Placed(c.(up := up), subs, n)
    {
      assert Placed(c, subs, n);
    }
  }

  lemma {:induction false} RunsConserve(run: seq<Net>, labels: seq<Label>, k: nat)
    requires IsRun(run, labels) && k < |run|
    ensures Conserved(run[k].client, run[k].subs)
  {
    if k > 0 {
      RunsConserve(run, labels, k - 1);
      StepConserves(run[k - 1], labels[k - 1]);
    }
  }

  /** Always a waiting caller is in exactly one of queue, map and resolved; with the loop over, all are resolved. */
  lemma NoCallerIsLost(run: seq<Net>, labels: seq<Label>, k: nat, n: nat)
    requires IsRun(run, labels) && k < |run| && n < |run[k].subs| && run[k].subs[n].wants
    ensures Placed(run[k].client, run[k].subs, n)
    ensures !run[k].client.alive ==> n in run[k].client.resolved
  {
    RunsConserve(run, labels, k);
  }

  /** A resolved caller keeps its result: nothing resolves it again. */
  lemma StepKeepsResolved(s: Net, l: Label, n: nat)
    requires Enabled(s, l) && Conserved(s.client, s.subs) && n in s.client.resolved
    ensures n in Apply(s, l).client.resolved && Apply(s, l).client.resolved[n] == s.client.resolved[n]
  {
    var c := s.client;
    assert Placed(c, s.subs, n);
    forall id | id in c.pending
      ensures c.pending[id] != n
    {
      assert s.subs[c.pending[id]].env.id == id;
    }
    match l
    case TakeCommand(tx) => TakeKeepsResolved(c, s.subs, tx, n);
    case HangUp => EndConserves(c, s.subs);
    case _ =>
  }

  lemma TakeKeepsResolved(c: Client, subs: seq<Submission>, tx: Transmission, n: nat)
    requires Conserved(c, subs) && c.alive && c.queue != [] && n in c.resolved
    requires forall id :: id in c.pending ==> c.pending[id] != n
    ensures n in Take(c, tx).resolved && Take(c, tx).resolved[n] == c.resolved[n]
  {
    assert Placed(c, subs, n);
    assert c.queue[0] in c.queue;
    if c.queue[0].Close? {
      assert n !in c.pending.Values;
      assert n !in Queued(c.queue[1..]) by {
        forall i | 0 <= i < |c.queue[1..]| && c.queue[1..][i].Send?
          ensures c.queue[1..][i].n != n
        {
          assert c.queue[1..][i] == c.queue[i + 1] && c.queue[i + 1] in c.queue;
        }
      }
    }
  }

  lemma {:induction false} ResolvedOnce(run: seq<Net>, labels: seq<Label>, j: nat, k: nat, n: nat)
    requires IsRun(run, labels) && j <= k < |run| && n in run[j].client.resolved
    ensures n in run[k].client.resolved && run[k].client.resolved[n] == run[j].client.resolved[n]
    decreases k - j
  {
    if j < k {
      RunsConserve(run, labels, j);
      StepKeepsResolved(run[j], labels[j], n);
      ResolvedOnce(run, labels, j + 1, k, n);
    }
  }

  // ---------- Order: one pipeline from the queue to the handler ----------

  function Numbers(queue: seq<Command>): seq<nat> {
    if queue == [] then []
    else (if queue[0].Send? then [queue[0].n] else []) + Numbers(queue[1..])
  }

  function Origins(wires: seq<Wire>): seq<nat> {
    if wires == [] then [] else [wires[0].origin] + Origins(wires[1..])
  }

  function Handled(log: seq<Handling>): seq<nat> {
    if log == [] then [] else Handled(log[..|log| - 1]) + [log[|log| - 1].origin]
  }

  function InHand(server: Server): seq<nat> {
    if server.Busy? then [server.wire.origin] else []
  }

  /** The numbers of everything handled, being handled, on the way and queued, in that order. */
  function Line(log: seq<Handling>, server: Server, up: seq<Wire>, queue: seq<Command>): seq<nat> {
    Handled(log) + InHand(server) + Origins(up) + Numbers(queue)
  }

  function Pipeline(s: Net): seq<nat> {
    Line(s.log, s.server, s.client.up, s.client.queue)
  }

  predicate Rising(ns: seq<nat>, bound: nat) {
    && (forall i, j :: 0 <= i < j < |ns| ==> ns[i] < ns[j])
    && (forall i :: 0 <= i < |ns| ==> ns[i] < bound)
  }

  lemma {:induction false} OriginsConcat(a: seq<Wire>, b: seq<Wire>)
    ensures Origins(a + b) == Origins(a) + Origins(b)
  {
    if a == [] {
      assert a + b == b;
    } else {
      assert (a + b)[1..] == a[1..] + b;
      OriginsConcat(a[1..], b);
      assert [a[0].origin] + (Origins(a[1..]) + Origins(b)) == ([a[0].origin] + Origins(a[1..])) + Origins(b);
    }
  }

  lemma {:induction false} NumbersConcat(a: seq<Command>, b: seq<Command>)
    ensures Numbers(a + b) == Numbers(a) + Numbers(b)
  {
    if a == [] {
      assert a + b == b;
    } else {
      var head := if a[0].Send? then [a[0].n] else [];
      assert (a + b)[1..] == a[1..] + b;
      NumbersConcat(a[1..], b);
      assert Numbers(a + b) == head + Numbers(a[1..] + b);
      assert head + (Numbers(a[1..]) + Numbers(b)) == (head + Numbers(a[1..])) + Numbers(b);
    }
  }

  lemma LineAsks(log: seq<Handling>, server: Server, up: seq<Wire>, queue: seq<Command>, cmd: Command)
    ensures Line(log, server, up, queue + [cmd]) == Line(log, server, up, queue) + if cmd.Send? then [cmd.n] else []
  {
    NumbersConcat(queue, [cmd]);
    assert Numbers([cmd]) == if cmd.Send? then [cmd.n] else [];
  }

  /** A command taken and sent moves from the queue to the wire; one lost or a `Close` just leaves. */
  lemma LineTakes(log: seq<Handling>, server: Server, up: seq<Wire>, queue: seq<Command>, bound: nat)
    requires queue != [] && Rising(Line(log, server, up, queue), bound)
    ensures queue[0].Send? ==>
              Line(log, server, up + [Wire(queue[0].env, queue[0].n)], queue[1..]) == Line(log, server, up, queue)
    ensures Rising(Line(log, server, up, queue[1..]), bound)
  {
    if queue[0].Send? {
      LineSends(log, server, up, queue);
      RisingWithout(Handled(log) + InHand(server) + Origins(up), queue[0].n, Numbers(queue[1..]), bound);
    } else {
      assert Numbers(queue) == Numbers(queue[1..]);
    }
  }

  lemma LineSends(log: seq<Handling>, server: Server, up: seq<Wire>, queue: seq<Command>)
    requires queue != [] && queue[0].Send?
    ensures var front := Handled(log) + InHand(server) + Origins(up);
            Line(log, server, up, queue) == front + [queue[0].n] + Numbers(queue[1..])
    ensures Line(log, server, up + [Wire(queue[0].env, queue[0].n)], queue[1..]) == Line(log, server, up, queue)
  {
    var w := Wire(queue[0].env, queue[0].n);
    var ahead, out, n, back := Handled(log) + InHand(server), Origins(up), [queue[0].n], Numbers(queue[1..]);
    OriginsConcat(up, [w]);
    assert Origins([w]) == n;
    assert Numbers(queue) == n + back;
    assert ahead + out + (n + back) == ahead + out + n + back;
    assert ahead + (out + n) + back == ahead + out + n + back;
  }

  lemma LineGets(log: seq<Handling>, up: seq<Wire>, queue: seq<Command>)
    requires up != []
    ensures Line(log, Busy(up[0]), up[1..], queue) == Line(log, Idle, up, queue)
  {
  }

  lemma LineServes(log: seq<Handling>, w: Wire, h: Handling, up: seq<Wire>, queue: seq<Command>)
    requires h.origin == w.origin
    ensures Line(log + [h], Idle, up, queue) == Line(log, Busy(w), up, queue)
    ensures Line(log + [h], Gone, up, queue) == Line(log, Busy(w), up, queue)
  {
    assert (log + [h])[..|log|] == log;
  }

  lemma LineEnds(log: seq<Handling>, server: Server, up: seq<Wire>, queue: seq<Command>, bound: nat)
    requires Rising(Line(log, server, up, queue), bound)
    ensures Rising(Line(log, server, up, []), bound)
  {
    var p, q := Line(log, server, up, queue), Line(log, server, up, []);
    assert q == p[..|q|];
  }

  /** What taking a command does to the queue and the wire. */
  lemma TakeMoves(c: Client, tx: Transmission)
    requires c.queue != []
    ensures var d := Take(c, tx);
            if c.queue[0].Close? then d.queue == [] && d.up == c.up
            else d.queue == c.queue[1..]
                 && d.up == if tx == Lost then c.up else c.up + [Wire(c.queue[0].env, c.queue[0].n)]
  {
  }

  lemma TakenKeepsOrder(s: Net, tx: Transmission, d: Client)
    requires Rising(Pipeline(s), |s.subs|) && s.client.queue != []
    requires var c := s.client;
             if c.queue[0].Close? then d.queue == [] && d.up == c.up
             else d.queue == c.queue[1..]
                  && d.up == if tx == Lost then c.up else c.up + [Wire(c.queue[0].env, c.queue[0].n)]
    ensures Rising(Pipeline(s.(client := d)), |s.subs|)
  {
    LineTakes(s.log, s.server, s.client.up, s.client.queue, |s.subs|);
    LineEnds(s.log, s.server, s.client.up, s.client.queue, |s.subs|);
  }

  lemma CallKeepsOrder(s: Net, env: Envelope, wants: bool)
    requires Enabled(s, Call(env, wants)) && Rising(Pipeline(s), |s.subs|)
    ensures Rising(Pipeline(Apply(s, Call(env, wants))), |s.subs| + 1)
  {
    LineAsks(s.log, s.server, s.client.up, s.client.queue, Send(|s.subs|, env, wants));
  }

  lemma ServerKeepsOrder(s: Net, l: Label)
    requires Enabled(s, l) && (l.ServerGet? || l.ServerAnswer? || l.ServerQuit?)
    ensures Pipeline(Apply(s, l)) == Pipeline(s)
  {
    match l
    case ServerGet => LineGets(s.log, s.client.up, s.client.queue);
    case ServerAnswer(reply, sent) =>
      var w := s.server.wire;
      LineServes(s.log, w, Handling(w.origin, w.env, Dispatch(s.router, w.env, reply)), s.client.up, s.client.queue);
    case ServerQuit =>
  }

  lemma ClientKeepsOrder(s: Net, l: Label)
    requires Enabled(s, l) && (l.AskClose? || l.TakeCommand? || l.HangUp?) && Rising(Pipeline(s), |s.subs|)
    ensures Rising(Pipeline(Apply(s, l)), |s.subs|)
  {
    var c := s.client;
    match l
    case AskClose => LineAsks(s.log, s.server, c.up, c.queue, Close);
    case TakeCommand(tx) => TakeCommandKeepsOrder(s, tx);
    case HangUp => HangUpKeepsOrder(s);
  }

  lemma HangUpKeepsOrder(s: Net)
    requires s.client.alive && Rising(Pipeline(s), |s.subs|)
    ensures Rising(Pipeline(Apply(s, HangUp)), |s.subs|)
  {
    LineEnds(s.log, s.server, s.client.up, s.client.queue, |s.subs|);
  }

  lemma TakeCommandKeepsOrder(s: Net, tx: Transmission)
    requires Enabled(s, TakeCommand(tx)) && Rising(Pipeline(s), |s.subs|)
    ensures Rising(Pipeline(Apply(s, TakeCommand(tx))), |s.subs|)
  {
    TakeMoves(s.client, tx);
    TakenKeepsOrder(s, tx, Take(s.client, tx));
  }

  /** A step passes numbers along, drops some, or adds the next one at the end. */
  lemma StepKeepsOrder(s: Net, l: Label)
    requires Enabled(s, l) && Rising(Pipeline(s), |s.subs|)
    ensures Rising(Pipeline(Apply(s, l)), |Apply(s, l).subs|)
  {
    match l
    case Call(env, wants) => CallKeepsOrder(s, env, wants);
    case GetResponse => assert Pipeline(Apply(s, l)) == Pipeline(s);
    case GetBadFrame => assert Pipeline(Apply(s, l)) == Pipeline(s);
    case AskClose => ClientKeepsOrder(s, l);
    case TakeCommand(_) => ClientKeepsOrder(s, l);
    case HangUp => ClientKeepsOrder(s, l);
    case _ => ServerKeepsOrder(s, l);
  }

  lemma RisingWithout(front: seq<nat>, n: nat, back: seq<nat>, bound: nat)
    requires Rising(front + [n] + back, bound)
    ensures Rising(front + back, bound)
  {
    var whole, rest := front + [n] + back, front + back;
    forall i | 0 <= i < |rest|
      ensures rest[i] == whole[if i < |front| then i else i + 1]
    {
    }
    forall i, j | 0 <= i < j < |rest|
      ensures rest[i] < rest[j]
    {
      var i', j' := if i < |front| then i else i + 1, if j < |front| then j else j + 1;
      assert whole[i'] < whole[j'];
    }
  }

  lemma {:induction false} RunsKeepOrder(run: seq<Net>, labels: seq<Label>, k: nat)
    requires IsRun(run, labels) && k < |run|
    ensures Rising(Pipeline(run[k]), |run[k].subs|)
  {
    if k > 0 {
      RunsKeepOrder(run, labels, k - 1);
      StepKeepsOrder(run[k - 1], labels[k - 1]);
    }
  }

  lemma {:induction false} HandledAt(log: seq<Handling>, i: nat)
    requires i < |log|
    ensures |Handled(log)| == |log| && Handled(log)[i] == log[i].origin
  {
    var n := |log| - 1;
    if i < n {
      HandledAt(log[..n], i);
    } else if n > 0 {
      HandledAt(log[..n], 0);
    }
  }

  /** The server handles what one connection sends in the order it was submitted, nothing twice. */
  lemma HandledInOrder(run: seq<Net>, labels: seq<Label>, k: nat, i: nat, j: nat)
    requires IsRun(run, labels) && k < |run| && i < j < |run[k].log|
    ensures run[k].log[i].origin < run[k].log[j].origin
  {
    RunsKeepOrder(run, labels, k);
    HandledAt(run[k].log, i);
    HandledAt(run[k].log, j);
    assert Pipeline(run[k])[i] == Handled(run[k].log)[i] && Pipeline(run[k])[j] == Handled(run[k].log)[j];
  }

  // ---------- Correlation ----------

  predicate WireOk(w: Wire, subs: seq<Submission>) {
    w.origin < |subs| && subs[w.origin].env == w.env
  }

  /** The server's log has this response to this submission's envelope. */
  predicate Logged(log: seq<Handling>, subs: seq<Submission>, n: nat, response: Envelope) {
    n < |subs| && Handling(n, subs[n].env, Some(response)) in log
  }

  /** What is on the wires is what was submitted, and what comes back is what the handler made of it. */
  ghost predicate Genuine(s: Net) {
    && (forall i :: 0 <= i < |s.client.up| ==> WireOk(s.client.up[i], s.subs))
    && (s.server.Busy? ==> WireOk(s.server.wire, s.subs))
    && (forall i :: 0 <= i < |s.log| ==> s.log[i].origin < |s.subs| && s.subs[s.log[i].origin].env == s.log[i].env)
    && (forall i :: 0 <= i < |s.down| ==>
          && Logged(s.log, s.subs, s.down[i].origin, s.down[i].env)
          && s.down[i].env.id == s.subs[s.down[i].origin].env.id && s.down[i].env.isResponse)
  }

  // ---------- What may not share an id ----------

  /** The commands that will be taken: those ahead of the first close. */
  function Ahead(queue: seq<Command>): (r: seq<Command>)
    ensures forall i :: 0 <= i < |r| ==> r[i].Send?
  {
    if queue == [] || queue[0].Close? then [] else [queue[0]] + Ahead(queue[1..])
  }

  predicate ToTake(s: Net, n: nat) {
    exists i :: 0 <= i < |Ahead(s.client.queue)| && Ahead(s.client.queue)[i].n == n
  }

  /** Submission `n` has a caller who waits, in the map or in a command that will be taken. */
  predicate Waiting(s: Net, n: nat)
    requires n < |s.subs|
  {
    (s.subs[n].wants && ToTake(s, n)) || InPending(s.client, s.subs, n)
  }

  predicate GoingUp(s: Net, n: nat) {
    exists i :: 0 <= i < |s.client.up| && s.client.up[i].origin == n
  }

  predicate AtServer(s: Net, n: nat) {
    s.server.Busy? && s.server.wire.origin == n
  }

  predicate ComingDown(s: Net, n: nat) {
    exists i :: 0 <= i < |s.down| && s.down[i].origin == n
  }

  /** A response to submission `n` is under way or may still be made. */
  predicate MayReturn(s: Net, n: nat)
    requires n < |s.subs|
  {
    || ComingDown(s, n)
    || (!s.server.Gone? && Asks(s.router, s.subs[n].env) && (ToTake(s, n) || GoingUp(s, n) || AtServer(s, n)))
  }

  /** `m` will be taken when `n` is in the map: its caller, or its failure, would take the place of `n`. */
  predicate Behind(s: Net, m: nat, n: nat)
    requires n < |s.subs|
  {
    ToTake(s, m) && (n < m || InPending(s.client, s.subs, n))
  }

  /** If they shared an id, `m` could answer or displace `n`, who waits. */
  predicate Threatens(s: Net, m: nat, n: nat)
    requires m < |s.subs| && n < |s.subs|
  {
    m != n && Waiting(s, n) && (MayReturn(s, m) || Behind(s, m, n))
  }

  ghost predicate Distinct(s: Net) {
    forall m, n :: 0 <= m < |s.subs| && 0 <= n < |s.subs| && Threatens(s, m, n) ==> s.subs[m].env.id != s.subs[n].env.id
  }

  /** Nobody waits under this id. */
  predicate Unwaited(s: Net, id: nat) {
    forall n :: 0 <= n < |s.subs| && Waiting(s, n) ==> s.subs[n].env.id != id
  }

  /** No response under this id is under way or may still be made. */
  predicate Unanswered(s: Net, id: nat) {
    forall n :: 0 <= n < |s.subs| && MayReturn(s, n) ==> s.subs[n].env.id != id
  }

  predicate Open(c: Client) {
    c.alive && Close !in c.queue
  }

  /**
   A call does no harm: nobody waits under its id and, if it waits itself, no response is to come under it. On a client
   that is closed or about to be, it goes nowhere.
   */
  predicate CallOk(s: Net, env: Envelope, wants: bool) {
    Open(s.client) ==> Unwaited(s, env.id) && (wants ==> Unanswered(s, env.id))
  }

  ghost predicate IdsFresh(run: seq<Net>, labels: seq<Label>)
    requires IsRun(run, labels)
  {
    forall k :: 0 <= k < |labels| && labels[k].Call? ==> CallOk(run[k], labels[k].env, labels[k].wants)
  }

  /** Every answer given so far is the handler's response to that caller's own envelope. */
  ghost predicate Correlated(s: Net) {
    forall n :: n in s.client.resolved && s.client.resolved[n].Answered? ==>
      Logged(s.log, s.subs, n, s.client.resolved[n].env)
  }

  /** A command's envelope is the submitted one, so what goes up is genuine. */
  lemma TakeGenuine(s: Net, tx: Transmission)
    requires Enabled(s, TakeCommand(tx)) && Genuine(s) && Conserved(s.client, s.subs)
    ensures Genuine(Apply(s, TakeCommand(tx)))
  {
    TakeMoves(s.client, tx);
    var up := Take(s.client, tx).up;
    forall i | 0 <= i < |up|
      ensures WireOk(up[i], s.subs)
    {
      if i < |s.client.up| {
        assert up[i] == s.client.up[i];
      }
    }
  }

  lemma ServedGenuine(s: Net, reply: ActorReply, sent: bool)
    requires Genuine(s) && s.server.Busy?
    ensures Genuine(Served(s, reply, sent))
  {
    var t := Served(s, reply, sent);
    var w := s.server.wire;
    DispatchAnswers(s.router, w.env, reply);
    assert t.log[|s.log|] == Handling(w.origin, w.env, Dispatch(s.router, w.env, reply));
    forall i | 0 <= i < |t.down|
      ensures Logged(t.log, t.subs, t.down[i].origin, t.down[i].env)
      ensures t.down[i].env.id == t.subs[t.down[i].origin].env.id && t.down[i].env.isResponse
    {
      if i < |s.down| {
        assert t.down[i] == s.down[i] && Logged(s.log, s.subs, s.down[i].origin, s.down[i].env);
      }
    }
  }

  lemma CallGenuine(s: Net, env: Envelope, wants: bool)
    requires Genuine(s) && Enabled(s, Call(env, wants))
    ensures Genuine(Apply(s, Call(env, wants)))
  {
  }

  lemma StepGenuine(s: Net, l: Label)
    requires Enabled(s, l) && Genuine(s) && Conserved(s.client, s.subs)
    ensures Genuine(Apply(s, l))
  {
    match l
    case Call(env, wants) => CallGenuine(s, env, wants);
    case TakeCommand(tx) => TakeGenuine(s, tx);
    case ServerAnswer(reply, sent) => ServedGenuine(s, reply, sent);
    case _ =>
  }

  lemma {:induction false} AheadOfClose(queue: seq<Command>)
    ensures |Ahead(queue)| <= |queue| && forall i :: 0 <= i < |Ahead(queue)| ==> Ahead(queue)[i] == queue[i]
    ensures Close !in queue ==> Ahead(queue) == queue
  {
    if queue != [] && !queue[0].Close? {
      AheadOfClose(queue[1..]);
    }
  }

  lemma {:induction false} AheadAppend(queue: seq<Command>, c: Command)
    ensures Ahead(queue + [c]) == if Close in queue || c.Close? then Ahead(queue) else Ahead(queue) + [c]
  {
    if queue == [] {
      assert queue + [c] == [c] && [c][1..] == [];
    } else if !queue[0].Close? {
      AheadAppend(queue[1..], c);
      assert (queue + [c])[1..] == queue[1..] + [c];
      assert queue == [queue[0]] + queue[1..];
    }
  }

  /** A step makes nothing more to take but a new call. */
  lemma TakeOnlyFromCalls(s: Net, l: Label, n: nat)
    requires Enabled(s, l) && ToTake(Apply(s, l), n)
    ensures ToTake(s, n) || (l.Call? && n == |s.subs| && Open(s.client))
  {
    var q, q' := s.client.queue, Apply(s, l).client.queue;
    QueueMoves(s, l);
    var i :| 0 <= i < |Ahead(q')| && Ahead(q')[i].n == n;
    if q != [] && q[0].Send? && q' == q[1..] {
      assert Ahead(q)[i + 1].n == n;
    } else if q' == q + [Close] {
      AheadAppend(q, Close);
    } else if l.Call? {
      AheadAppend(q, Send(|s.subs|, l.env, l.wants));
    }
  }

  /** The queue stays, is dropped, loses its first command or gains one at the end. */
  lemma QueueMoves(s: Net, l: Label)
    requires Enabled(s, l)
    ensures var q, q' := s.client.queue, Apply(s, l).client.queue;
            || q' == q || q' == [] || (q != [] && q[0].Send? && q' == q[1..]) || q' == q + [Close]
            || (l.Call? && s.client.alive && q' == q + [Send(|s.subs|, l.env, l.wants)])
  {
    if l.TakeCommand? {
      TakeMoves(s.client, l.tx);
    }
  }

  lemma WaitOnlyFromCalls(s: Net, l: Label, n: nat)
    requires Enabled(s, l) && Conserved(s.client, s.subs) && n < |s.subs| && Waiting(Apply(s, l), n)
    ensures Waiting(s, n)
  {
    SubStays(s, l, n);
    if InPending(Apply(s, l).client, Apply(s, l).subs, n) {
      PendingFrom(s, l, n);
      if OwnSend(s, l, n) {
        HeadToTake(s, n);
      }
    } else {
      TakeOnlyFromCalls(s, l, n);
    }
  }

  lemma SubStays(s: Net, l: Label, n: nat)
    requires Enabled(s, l) && n < |s.subs|
    ensures n < |Apply(s, l).subs| && Apply(s, l).subs[n] == s.subs[n]
  {
  }

  lemma HeadToTake(s: Net, n: nat)
    requires s.client.queue != [] && s.client.queue[0].Send? && s.client.queue[0].n == n
    ensures ToTake(s, n)
  {
    assert Ahead(s.client.queue)[0] == s.client.queue[0];
  }

  /** Who is in the map was there before, or is the one just taken. */
  lemma PendingFrom(s: Net, l: Label, n: nat)
    requires Enabled(s, l) && n < |s.subs| && InPending(Apply(s, l).client, Apply(s, l).subs, n)
    requires Conserved(s.client, s.subs)
    ensures InPending(s.client, s.subs, n) || (OwnSend(s, l, n) && s.subs[n].wants)
  {
    if l.TakeCommand? {
      TakenPending(s.client, l.tx, s.subs[n].env.id);
    }
  }

  lemma TakenPending(c: Client, tx: Transmission, id: nat)
    requires c.queue != [] && id in Take(c, tx).pending
    ensures || (id in c.pending && Take(c, tx).pending[id] == c.pending[id])
            || (c.queue[0].Send? && c.queue[0].wants && c.queue[0].n == Take(c, tx).pending[id])
  {
  }

  lemma UpFrom(s: Net, l: Label, n: nat)
    requires Enabled(s, l) && GoingUp(Apply(s, l), n)
    ensures GoingUp(s, n) || ToTake(s, n)
  {
    var up := Apply(s, l).client.up;
    var i :| 0 <= i < |up| && up[i].origin == n;
    if l.ServerGet? {
      assert s.client.up[i + 1] == up[i];
    } else if l.TakeCommand? {
      TakeMoves(s.client, l.tx);
      if i < |s.client.up| {
        assert up[i] == s.client.up[i];
      } else {
        assert Ahead(s.client.queue)[0].n == n;
      }
    }
  }

  lemma DownFrom(s: Net, l: Label, n: nat)
    requires Enabled(s, l) && ComingDown(Apply(s, l), n)
    ensures ComingDown(s, n) || (AtServer(s, n) && Asks(s.router, s.server.wire.env))
  {
    var down := Apply(s, l).down;
    var i :| 0 <= i < |down| && down[i].origin == n;
    if l.GetResponse? || l.GetBadFrame? {
      assert s.down[i + 1] == down[i];
    } else if i < |s.down| {
      assert s.down[i] == down[i];
    } else {
      DispatchAnswers(s.router, s.server.wire.env, l.reply);
    }
  }

  lemma ReturnsOnlyFromCalls(s: Net, l: Label, n: nat)
    requires Enabled(s, l) && Genuine(s) && n < |s.subs| && MayReturn(Apply(s, l), n)
    ensures MayReturn(s, n)
  {
    var t := Apply(s, l);
    if ComingDown(t, n) {
      DownFrom(s, l, n);
    } else if ToTake(t, n) {
      TakeOnlyFromCalls(s, l, n);
    } else if GoingUp(t, n) {
      UpFrom(s, l, n);
    } else if l.ServerGet? {
      assert s.client.up[0].origin == n;
    }
  }

  /** Who is ahead of whom does not change. */
  lemma BehindBefore(s: Net, l: Label, m: nat, n: nat)
    requires Enabled(s, l) && Conserved(s.client, s.subs) && m < |s.subs| && n < |s.subs|
    requires Behind(Apply(s, l), m, n)
    ensures Behind(s, m, n)
  {
    TakeOnlyFromCalls(s, l, m);
    if InPending(Apply(s, l).client, Apply(s, l).subs, n) {
      PendingFrom(s, l, n);
      if !InPending(s.client, s.subs, n) {
        TakeMoves(s.client, l.tx);
        HeadIsFirst(s.client.queue, s.subs, m);
      }
    }
  }

  lemma HeadIsFirst(q: seq<Command>, subs: seq<Submission>, m: nat)
    requires q != [] && QueueOk(q, subs) && q[0].Send?
    requires exists i :: 0 <= i < |Ahead(q[1..])| && Ahead(q[1..])[i].n == m
    ensures q[0].n < m
  {
    AheadOfClose(q[1..]);
    var i :| 0 <= i < |Ahead(q[1..])| && Ahead(q[1..])[i].n == m;
    assert q[1..][i] == q[i + 1];
  }

  /** A new call meets nobody it could harm or be harmed by. */
  lemma CallDistinct(s: Net, l: Label, m: nat, n: nat)
    requires Enabled(s, l) && Conserved(s.client, s.subs) && Genuine(s) && l.Call? && CallOk(s, l.env, l.wants)
    requires m <= |s.subs| && n <= |s.subs| && (m == |s.subs| || n == |s.subs|) && Threatens(Apply(s, l), m, n)
    ensures Apply(s, l).subs[m].env.id != Apply(s, l).subs[n].env.id
  {
    var t, last := Apply(s, l), |s.subs|;
    if n == last {
      NewWaits(s, l);
      if MayReturn(t, m) {
        ReturnsOnlyFromCalls(s, l, m);
      }
    } else {
      WaitOnlyFromCalls(s, l, n);
      if MayReturn(t, last) {
        NewReturns(s, l);
      }
      TakeOnlyFromCalls(s, l, last);
      NotYetTaken(s);
    }
  }

  lemma NotYetTaken(s: Net)
    requires Conserved(s.client, s.subs)
    ensures !ToTake(s, |s.subs|)
  {
    AheadOfClose(s.client.queue);
  }

  lemma NewWaits(s: Net, l: Label)
    requires Enabled(s, l) && Conserved(s.client, s.subs) && l.Call? && Waiting(Apply(s, l), |s.subs|)
    ensures Open(s.client) && l.wants && !InPending(Apply(s, l).client, Apply(s, l).subs, |s.subs|)
  {
    NotYetTaken(s);
    TakeOnlyFromCalls(s, l, |s.subs|);
  }

  lemma NewReturns(s: Net, l: Label)
    requires Enabled(s, l) && Genuine(s) && l.Call? && MayReturn(Apply(s, l), |s.subs|)
    ensures ToTake(Apply(s, l), |s.subs|)
  {
  }

  lemma StepDistinct(s: Net, l: Label)
    requires Enabled(s, l) && Conserved(s.client, s.subs) && Genuine(s) && Distinct(s)
    requires l.Call? ==> CallOk(s, l.env, l.wants)
    ensures Distinct(Apply(s, l))
  {
    var t := Apply(s, l);
    forall m, n | 0 <= m < |t.subs| && 0 <= n < |t.subs| && Threatens(t, m, n)
      ensures t.subs[m].env.id != t.subs[n].env.id
    {
      if m < |s.subs| && n < |s.subs| {
        OldDistinct(s, l, m, n);
      } else {
        CallDistinct(s, l, m, n);
      }
    }
  }

  lemma OldDistinct(s: Net, l: Label, m: nat, n: nat)
    requires Enabled(s, l) && Conserved(s.client, s.subs) && Genuine(s) && Distinct(s)
    requires m < |s.subs| && n < |s.subs| && Threatens(Apply(s, l), m, n)
    ensures s.subs[m].env.id != s.subs[n].env.id
  {
    WaitOnlyFromCalls(s, l, n);
    if MayReturn(Apply(s, l), m) {
      ReturnsOnlyFromCalls(s, l, m);
    } else {
      BehindBefore(s, l, m, n);
    }
    assert Threatens(s, m, n);
  }

  // ---------- What may go wrong for a caller ----------

  predicate OwnSend(s: Net, l: Label, n: nat) {
    l.TakeCommand? && s.client.queue != [] && s.client.queue[0].Send? && s.client.queue[0].n == n
  }

  /**
   The step settles caller `n` with what is not its own: a response not made for its envelope, a disconnect while the
   loop goes on, or the failure of someone else's transmission.
   */
  predicate Wrongs(s: Net, l: Label, n: nat)
    requires Enabled(s, l)
  {
    var t := Apply(s, l);
    && n !in s.client.resolved && n in t.client.resolved
    && match t.client.resolved[n]
       case Answered(env) => !Logged(t.log, t.subs, n, env)
       case Failed(Disconnected) => t.client.alive
       case Failed(Io) => !OwnSend(s, l, n)
  }

  /** Only a command that is taken fails anyone while the loop goes on, and only the one in the map under its id. */
  lemma OnlyTakingFails(s: Net, l: Label, n: nat)
    requires Enabled(s, l) && Wrongs(s, l, n) && Apply(s, l).client.resolved[n].Failed?
    ensures l.TakeCommand? && s.client.queue[0].Send?
    ensures s.client.queue[0].env.id in s.client.pending && s.client.pending[s.client.queue[0].env.id] == n
  {
  }

  lemma NobodyFailsAnother(s: Net, l: Label, n: nat)
    requires Enabled(s, l) && Conserved(s.client, s.subs) && Distinct(s) && n !in s.client.resolved
    requires n in Apply(s, l).client.resolved && Apply(s, l).client.resolved[n].Failed?
    ensures !Wrongs(s, l, n)
  {
    if Wrongs(s, l, n) {
      OnlyTakingFails(s, l, n);
      var head := s.client.queue[0];
      assert Ahead(s.client.queue)[0] == head && ToTake(s, head.n);
      assert InPending(s.client, s.subs, n) && Placed(s.client, s.subs, n);
      assert Threatens(s, head.n, n);
      assert false;
    }
  }

  /** The response at hand and the caller found under its id have one id, hence are of the same submission. */
  lemma AnswersAreOwn(s: Net, l: Label, n: nat)
    requires Enabled(s, l) && Conserved(s.client, s.subs) && Genuine(s) && Distinct(s)
    requires n !in s.client.resolved && n in Apply(s, l).client.resolved && Apply(s, l).client.resolved[n].Answered?
    ensures Logged(Apply(s, l).log, Apply(s, l).subs, n, Apply(s, l).client.resolved[n].env)
  {
    OnlyResponsesAnswer(s, l, n);
    var w := s.down[0];
    assert ComingDown(s, w.origin) && (w.origin != n ==> Threatens(s, w.origin, n));
  }

  lemma StepWrongsNobody(s: Net, l: Label, n: nat)
    requires Enabled(s, l) && Conserved(s.client, s.subs) && Genuine(s) && Distinct(s)
    ensures !Wrongs(s, l, n)
  {
    if Wrongs(s, l, n) {
      if Apply(s, l).client.resolved[n].Answered? {
        AnswersAreOwn(s, l, n);
      } else {
        NobodyFailsAnother(s, l, n);
      }
    }
  }

  lemma StepCorrelated(s: Net, l: Label)
    requires Enabled(s, l) && Conserved(s.client, s.subs) && Genuine(s) && Distinct(s) && Correlated(s)
    ensures Correlated(Apply(s, l))
  {
    var t := Apply(s, l);
    forall n | n in t.client.resolved && t.client.resolved[n].Answered?
      ensures Logged(t.log, t.subs, n, t.client.resolved[n].env)
    {
      if n in s.client.resolved {
        StepKeepsResolved(s, l, n);
      } else {
        AnswersAreOwn(s, l, n);
      }
    }
  }

  lemma OnlyResponsesAnswer(s: Net, l: Label, n: nat)
    requires Enabled(s, l) && Conserved(s.client, s.subs)
    requires n !in s.client.resolved && n in Apply(s, l).client.resolved && Apply(s, l).client.resolved[n].Answered?
    ensures l.GetResponse? && s.down[0].env.id in s.client.pending && s.client.pending[s.down[0].env.id] == n
    ensures Apply(s, l).client.resolved[n] == Answered(s.down[0].env)
    ensures n < |s.subs| && InPending(s.client, s.subs, n)
  {
    match l
    case TakeCommand(tx) => TakeAnswersNobody(s.client, tx, n);
    case _ =>
  }

  lemma TakeAnswersNobody(c: Client, tx: Transmission, n: nat)
    requires c.queue != [] && n !in c.resolved
    ensures n in Take(c, tx).resolved ==> Take(c, tx).resolved[n].Failed?
  {
  }

  lemma {:induction false} RunsCorrelate(run: seq<Net>, labels: seq<Label>, k: nat)
    requires IsRun(run, labels) && k < |run| && IdsFresh(run, labels)
    ensures Genuine(run[k]) && Distinct(run[k]) && Correlated(run[k])
  {
    if k > 0 {
      RunsCorrelate(run, labels, k - 1);
      RunsConserve(run, labels, k - 1);
      StepGenuine(run[k - 1], labels[k - 1]);
      StepDistinct(run[k - 1], labels[k - 1]);
      StepCorrelated(run[k - 1], labels[k - 1]);
    }
  }

  /**
   End to end, whatever interleaves: if no call reuses the id of a live one, an Ok handed to a caller is what the
   server's handler made of exactly the envelope that caller sent.
   */
  lemma EndToEnd(run: seq<Net>, labels: seq<Label>, k: nat, n: nat)
    requires IsRun(run, labels) && k < |run| && IdsFresh(run, labels)
    requires n in run[k].client.resolved && run[k].client.resolved[n].Answered?
    ensures n < |run[k].subs|
    ensures exists i :: 0 <= i < |run[k].log|
                        && run[k].log[i] == Handling(n, run[k].subs[n].env, Some(run[k].client.resolved[n].env))
  {
    RunsCorrelate(run, labels, k);
    assert Logged(run[k].log, run[k].subs, n, run[k].client.resolved[n].env);
  }

  // ---------- Where fresh ids come from, and what happens without them ----------

  const WRAP: nat := 0x1_0000_0000_0000_0000

  /**
   The ids of these submissions are values of one 64-bit counter, drawn less than one turn apart. Callers may overtake
   each other between drawing and submitting.
   */
  predicate Counted(subs: seq<Submission>, tickets: seq<nat>) {
    && |tickets| == |subs|
    && (forall i, j :: 0 <= i < |tickets| && 0 <= j < |tickets| && i != j ==>
          tickets[i] != tickets[j] && tickets[i] < tickets[j] + WRAP)
    && (forall i :: 0 <= i < |subs| ==> subs[i].env.id == tickets[i] % WRAP)
  }

  lemma ModDistinct(a: nat, b: nat)
    requires a < b < a + WRAP
    ensures a % WRAP != b % WRAP
  {
    var qa, qb := a / WRAP, b / WRAP;
    assert a == qa * WRAP + a % WRAP && b == qb * WRAP + b % WRAP;
  }

  lemma {:induction false} SubsGrow(run: seq<Net>, labels: seq<Label>, j: nat, k: nat)
    requires IsRun(run, labels) && j <= k < |run|
    ensures run[j].subs <= run[k].subs
    decreases k - j
  {
    if j < k {
      assert run[j].subs <= Apply(run[j], labels[j]).subs;
      SubsGrow(run, labels, j + 1, k);
    }
  }

  /** Ids drawn from the shared counter are fresh, whoever else draws in between, until the counter has turned round. */
  lemma CounterIdsAreFresh(run: seq<Net>, labels: seq<Label>, tickets: seq<nat>)
    requires IsRun(run, labels) && Counted(run[|labels|].subs, tickets)
    ensures IdsFresh(run, labels)
  {
    var all := run[|labels|].subs;
    forall k, n | 0 <= k < |labels| && labels[k].Call? && 0 <= n < |run[k].subs|
      ensures run[k].subs[n].env.id != labels[k].env.id
    {
      var m := |run[k].subs|;
      SubsGrow(run, labels, k, |labels|);
      SubsGrow(run, labels, k + 1, |labels|);
      assert run[k + 1].subs[m] == Submission(labels[k].env, labels[k].wants);
      assert all[m] == run[k + 1].subs[m] && all[n] == run[k].subs[n];
      if tickets[n] < tickets[m] {
        ModDistinct(tickets[n], tickets[m]);
      } else {
        ModDistinct(tickets[m], tickets[n]);
      }
    }
  }

  /** Whatever the ids, an answer carries the id of the caller's envelope. */
  lemma {:induction false} AnswersMatchIds(run: seq<Net>, labels: seq<Label>, k: nat)
    requires IsRun(run, labels) && k < |run|
    ensures Genuine(run[k])
    ensures forall n :: n in run[k].client.resolved && run[k].client.resolved[n].Answered? ==>
              n < |run[k].subs| && run[k].client.resolved[n].env.id == run[k].subs[n].env.id
  {
    if k > 0 {
      var s, t, l := run[k - 1], run[k], labels[k - 1];
      AnswersMatchIds(run, labels, k - 1);
      RunsConserve(run, labels, k - 1);
      StepGenuine(s, l);
      forall n | n in t.client.resolved && t.client.resolved[n].Answered?
        ensures n < |t.subs| && t.client.resolved[n].env.id == t.subs[n].env.id
      {
        if n in s.client.resolved {
          StepKeepsResolved(s, l, n);
        } else {
          OnlyResponsesAnswer(s, l, n);
        }
      }
    }
  }

  /**
   Two calls under one id, as the cluster client makes them with its fixed id 0: the first caller is told the
   connection is gone, and the second is handed the response to the first one's envelope.
   */
  lemma ReusedIdMisroutes(a: Envelope, b: Envelope, router: Router, reply: ActorReply)
    returns (run: seq<Net>, labels: seq<Label>)
    requires a.id == b.id && Dispatch(router, a, reply).Some?
    ensures IsRun(run, labels)
    ensures var s := run[|labels|];
            && s.router == router && s.subs == [Submission(a, true), Submission(b, true)]
            && s.client.resolved == map[0 := Failed(Disconnected), 1 := Answered(Dispatch(router, a, reply).value)]
            && s.log == [Handling(0, a, Dispatch(router, a, reply))]
            && !Logged(s.log, s.subs, 1, s.client.resolved[1].env)
  {
    DispatchAnswers(router, a, reply);
    var r, h := Dispatch(router, a, reply).value, Handling(0, a, Dispatch(router, a, reply));
    var subs, dropped := [Submission(a, true), Submission(b, true)], map[0 := Failed(Disconnected)];
    run, labels := BothSent(router, a, b);
    var got := Net(router, Client(true, [], map[a.id := 1], dropped, [Wire(b, 1)]), subs, Busy(Wire(a, 0)), [], []);
    var answered := Net(router, got.client, subs, Idle, [Wire(r, 0)], [h]);
    var last := Net(router, Client(true, [], map[], dropped[1 := Answered(r)], [Wire(b, 1)]), subs, Idle, [], [h]);
    run, labels := Extend(run, labels, ServerGet, got);
    run, labels := Extend(run, labels, ServerAnswer(reply, true), answered);
    assert last.client.pending == answered.client.pending - {a.id};
    run, labels := Extend(run, labels, GetResponse, last);
  }

  lemma Extend(run: seq<Net>, labels: seq<Label>, l: Label, t: Net) returns (run': seq<Net>, labels': seq<Label>)
    requires IsRun(run, labels) && Enabled(run[|labels|], l) && t == Apply(run[|labels|], l)
    ensures IsRun(run', labels') && run'[|labels'|] == t
  {
    run', labels' := run + [t], labels + [l];
  }

  /** Both calls go out, and the second takes the place of the first. */
  lemma BothSent(router: Router, a: Envelope, b: Envelope) returns (run: seq<Net>, labels: seq<Label>)
    requires a.id == b.id
    ensures IsRun(run, labels)
    ensures var both := Client(true, [], map[a.id := 1], map[0 := Failed(Disconnected)], [Wire(a, 0), Wire(b, 1)]);
            run[|labels|] == Net(router, both, [Submission(a, true), Submission(b, true)], Idle, [], [])
  {
    var subs := [Submission(a, true), Submission(b, true)];
    var one := Net(router, Client(true, [Send(0, a, true)], map[], map[], []), subs[..1], Idle, [], []);
    var two := Net(router, Client(true, [Send(0, a, true), Send(1, b, true)], map[], map[], []), subs, Idle, [], []);
    var out := Net(router, Client(true, [Send(1, b, true)], map[a.id := 0], map[], [Wire(a, 0)]), subs, Idle, [], []);
    var both := Client(true, [], map[a.id := 1], map[0 := Failed(Disconnected)], [Wire(a, 0), Wire(b, 1)]);
    run, labels := Extend([Start(router)], [], Call(a, true), one);
    run, labels := Extend(run, labels, Call(b, true), two);
    run, labels := Extend(run, labels, TakeCommand(Delivered), out);
    run, labels := Extend(run, labels, TakeCommand(Delivered), Net(router, both, subs, Idle, [], []));
  }
}
