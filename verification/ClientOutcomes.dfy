/** What becomes of a call at each step of the client's loop, in every run. */
module ClientOutcomes {
  import opened Handlers
  import opened Clients
  import opened Correlation

  /** The caller has this result and is no longer in the map. */
  predicate Gets(c: Client, n: nat, o: Outcome) {
    n in c.resolved && c.resolved[n] == o && n !in c.pending.Values
  }

  /**
   A command taken off the queue: its envelope goes up unless it is lost. A caller who waits is in the map under the id,
   in place of whoever was, who is told of a disconnect; if the transmission fails, the one under the id, and no one
   else, gets the error.
   */
  lemma TakeSettles(c: Client, subs: seq<Submission>, tx: Transmission)
    requires Conserved(c, subs) && c.queue != [] && c.queue[0].Send?
    ensures var cmd, d := c.queue[0], Take(c, tx);
            var id := cmd.env.id;
            && d.alive == c.alive && d.queue == c.queue[1..]
            && d.up == c.up + (if tx == Lost then [] else [Wire(cmd.env, cmd.n)])
            && d.pending - {id} == c.pending - {id}
            && (tx != Delivered ==> id !in d.pending)
            && (tx == Delivered && cmd.wants ==> id in d.pending && d.pending[id] == cmd.n)
            && (tx == Delivered && !cmd.wants ==> d.pending == c.pending && d.resolved == c.resolved)
            && (tx != Delivered && cmd.wants ==> Gets(d, cmd.n, Failed(Io)))
            && (id in c.pending && cmd.wants ==> Gets(d, c.pending[id], Failed(Disconnected)))
            && (id in c.pending && tx != Delivered && !cmd.wants ==> Gets(d, c.pending[id], Failed(Io)))
            && (forall n :: n in d.resolved && n !in c.resolved ==>
                  n == cmd.n || (id in c.pending && n == c.pending[id]))
  {
    var cmd := c.queue[0];
    assert cmd in c.queue;
    if cmd.wants {
      assert InQueue(c, subs, cmd.n) && Placed(c, subs, cmd.n);
    }
    if cmd.env.id in c.pending {
      assert InPending(c, subs, c.pending[cmd.env.id]) && Placed(c, subs, c.pending[cmd.env.id]);
    }
  }

  /** In every run a command that is taken settles as just said. */
  lemma EveryTransmission(run: seq<Net>, labels: seq<Label>, k: nat, tx: Transmission)
    requires IsRun(run, labels) && k < |labels| && labels[k] == TakeCommand(tx) && run[k].client.queue[0].Send?
    ensures var cmd, d := run[k].client.queue[0], run[k + 1].client;
            && (cmd.wants && tx == Delivered ==>
                  cmd.n < |run[k + 1].subs| && InPending(d, run[k + 1].subs, cmd.n))
            && (cmd.wants && tx != Delivered ==> Gets(d, cmd.n, Failed(Io)))
            && (tx != Lost <==> d.up == run[k].client.up + [Wire(cmd.env, cmd.n)])
  {
    RunsConserve(run, labels, k);
    TakeSettles(run[k].client, run[k].subs, tx);
    assert run[k].client.queue[0] in run[k].client.queue;
    assert |run[k + 1].client.up| == |run[k].client.up| + if tx == Lost then 0 else 1;
  }

  /** In every run a response goes, as it came, to the caller in the map under its id, or to no one if none is. */
  lemma EveryResponse(run: seq<Net>, labels: seq<Label>, k: nat)
    requires IsRun(run, labels) && k < |labels| && labels[k] == GetResponse
    ensures var c, d, e := run[k].client, run[k + 1].client, run[k].down[0].env;
            if e.id in c.pending then
              && Gets(d, c.pending[e.id], Answered(e)) && d.pending == c.pending - {e.id}
              && forall n :: n in d.resolved && n !in c.resolved ==> n == c.pending[e.id]
            else d == c
  {
    RunsConserve(run, labels, k);
    AnswersMatchIds(run, labels, k);
    var c, e := run[k].client, run[k].down[0].env;
    if e.id in c.pending {
      assert InPending(c, run[k].subs, c.pending[e.id]) && Placed(c, run[k].subs, c.pending[e.id]);
    }
  }

  /** The command channel holds at most 32 commands. */
  lemma {:induction false} QueueIsBounded(run: seq<Net>, labels: seq<Label>, k: nat)
    requires IsRun(run, labels) && k < |run|
    ensures |run[k].client.queue| <= 32
  {
    if k > 0 {
      QueueIsBounded(run, labels, k - 1);
      QueueMoves(run[k - 1], labels[k - 1]);
    }
  }

  /** A call joins the queue, last; on a client whose loop is over it fails at once. */
  lemma EveryCall(run: seq<Net>, labels: seq<Label>, k: nat, env: Envelope, wants: bool)
    requires IsRun(run, labels) && k < |labels| && labels[k] == Call(env, wants)
    ensures var s, t, n := run[k], run[k + 1], |run[k].subs|;
            && t.subs == s.subs + [Submission(env, wants)]
            && (s.client.alive ==> t.client == s.client.(queue := s.client.queue + [Send(n, env, wants)]))
            && (!s.client.alive && wants ==> n in t.client.resolved && t.client.resolved[n] == Failed(Disconnected))
  {
  }

  /** A frame that cannot be decoded costs the client that frame and nothing else. */
  lemma EveryBadFrame(run: seq<Net>, labels: seq<Label>, k: nat)
    requires IsRun(run, labels) && k < |labels| && labels[k] == GetBadFrame
    ensures run[k].down != [] && run[k + 1] == run[k].(down := run[k].down[1..])
  {
  }

  /** The connection lost, or a close taken: the loop is over, and exactly those still waiting are told so. */
  lemma EveryEnd(run: seq<Net>, labels: seq<Label>, k: nat)
    requires IsRun(run, labels) && k < |labels|
    requires labels[k] == HangUp || (labels[k].TakeCommand? && run[k].client.queue[0] == Close)
    ensures var c, d := run[k].client, run[k + 1].client;
            && !d.alive && d.queue == [] && d.pending == map[]
            && (forall n :: n in c.resolved ==> n in d.resolved && d.resolved[n] == c.resolved[n])
            && (forall n :: 0 <= n < |run[k].subs| && run[k].subs[n].wants && n !in c.resolved ==>
                  n in d.resolved && d.resolved[n] == Failed(Disconnected))
  {
    RunsConserve(run, labels, k);
    var c := run[k].client;
    if labels[k] == HangUp {
      EndConserves(c, run[k].subs);
    } else {
      CloseLeaves(c, run[k].subs);
      EndConserves(c.(queue := c.queue[1..]), run[k].subs);
    }
  }

  /** A close waits in the queue behind all commands that came before it. */
  lemma EveryClose(run: seq<Net>, labels: seq<Label>, k: nat)
    requires IsRun(run, labels) && k < |labels| && labels[k] == AskClose
    ensures run[k + 1] == run[k].(client := run[k].client.(queue := run[k].client.queue + [Close]))
  {
  }

  lemma CloseLeaves(c: Client, subs: seq<Submission>)
    requires Conserved(c, subs) && c.queue != [] && c.queue[0] == Close
    ensures Conserved(c.(queue := c.queue[1..]), subs)
  {
    var d := c.(queue := c.queue[1..]);
    forall i | 0 <= i < |d.queue|
      ensures d.queue[i] == c.queue[i + 1]
    {
    }
    forall n | 0 <= n < |subs| && subs[n].wants
      ensures Placed(d, subs, n)
    {
      assert Placed(c, subs, n);
      SameInQueue(c, d, subs, n);
    }
  }

  lemma SameInQueue(c: Client, d: Client, subs: seq<Submission>, n: nat)
    requires c.queue != [] && c.queue[0] == Close && d == c.(queue := c.queue[1..]) && n < |subs|
    ensures InQueue(c, subs, n) <==> InQueue(d, subs, n)
  {
    if InQueue(c, subs, n) {
      var i :| 0 <= i < |c.queue| && c.queue[i] == Send(n, subs[n].env, subs[n].wants);
      assert d.queue[i - 1] == c.queue[i];
    }
    if InQueue(d, subs, n) {
      var i :| 0 <= i < |d.queue| && d.queue[i] == Send(n, subs[n].env, subs[n].wants);
      assert c.queue[i + 1] == d.queue[i];
    }
  }

  /** The server logs what its router made of the envelope, sends a response if there is one, and ends if it cannot. */
  lemma EveryAnswer(run: seq<Net>, labels: seq<Label>, k: nat, reply: ActorReply, sent: bool)
    requires IsRun(run, labels) && k < |labels| && labels[k] == ServerAnswer(reply, sent)
    ensures run[k].server.Busy?
    ensures var s, t, w := run[k], run[k + 1], run[k].server.wire;
            var response := Dispatch(s.router, w.env, reply);
            && t.log == s.log + [Handling(w.origin, w.env, response)]
            && t.down == s.down + (if response.Some? && sent then [Wire(response.value, w.origin)] else [])
            && t.server == (if response.Some? && !sent then Gone else Idle)
            && t.client == s.client && t.subs == s.subs
  {
  }
}
