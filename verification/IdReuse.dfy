/**
 When calls may share an id: a call that meets its condition never wrongs anyone, and one that does not can, from any
 reachable state.
 */
module IdReuse {
  import opened Handlers
  import opened Clients
  import opened Correlation

  /** If every call of a run meets its condition, no step of it wrongs anyone. */
  lemma FreshIdsWrongNobody(run: seq<Net>, labels: seq<Label>, k: nat, n: nat)
    requires IsRun(run, labels) && k < |labels| && IdsFresh(run, labels)
    ensures !Wrongs(run[k], labels[k], n)
  {
    RunsConserve(run, labels, k);
    RunsCorrelate(run, labels, k);
    StepWrongsNobody(run[k], labels[k], n);
  }

  // ---------- One call at a time ----------

  function Happy(c: Client): set<nat> {
    set n | n in c.resolved && c.resolved[n].Answered?
  }

  /** Submissions queued, going up, being handled, or with a response coming down. */
  function OnTheWay(s: Net): nat {
    |Numbers(s.client.queue)| + |s.client.up| + |InHand(s.server)| + |s.down|
  }

  /** Each submission makes at most one response, and each response serves at most one caller. */
  ghost predicate Accounted(s: Net) {
    |Happy(s.client)| + OnTheWay(s) <= |s.subs|
  }

  lemma HappyGrows(s: Net, l: Label)
    requires Enabled(s, l) && Conserved(s.client, s.subs)
    ensures |Happy(Apply(s, l).client)| <= |Happy(s.client)| + if l.GetResponse? then 1 else 0
  {
    var before, after := Happy(s.client), Happy(Apply(s, l).client);
    var found := if l.GetResponse? && s.down[0].env.id in s.client.pending then
                   {s.client.pending[s.down[0].env.id]}
                 else {};
    forall n | n in after
      ensures n in before + found
    {
      if n in s.client.resolved {
        StepKeepsResolved(s, l, n);
      } else {
        OnlyResponsesAnswer(s, l, n);
      }
    }
    Within(after, before + found);
  }

  lemma {:induction false} Within(a: set<nat>, b: set<nat>)
    requires a <= b
    ensures |a| <= |b|
  {
    assert b == a + (b - a);
  }

  lemma WayShrinks(s: Net, l: Label)
    requires Enabled(s, l)
    ensures OnTheWay(Apply(s, l)) + (if l.GetResponse? then 1 else 0) <= OnTheWay(s) + if l.Call? then 1 else 0
  {
    match l
    case Call(env, wants) => NumbersConcat(s.client.queue, [Send(|s.subs|, env, wants)]);
    case AskClose => NumbersConcat(s.client.queue, [Close]);
    case TakeCommand(tx) => TakeMoves(s.client, tx);
    case _ =>
  }

  lemma {:induction false} RunsAccount(run: seq<Net>, labels: seq<Label>, k: nat)
    requires IsRun(run, labels) && k < |run|
    ensures Accounted(run[k])
  {
    if k > 0 {
      RunsAccount(run, labels, k - 1);
      RunsConserve(run, labels, k - 1);
      HappyGrows(run[k - 1], labels[k - 1]);
      WayShrinks(run[k - 1], labels[k - 1]);
    }
  }

  /** Every submission so far has its answer. */
  predicate AllAnswered(s: Net) {
    forall n :: 0 <= n < |s.subs| ==> n in s.client.resolved && s.client.resolved[n].Answered?
  }

  function Below(n: nat): (r: set<nat>)
    ensures |r| == n && forall i :: i in r <==> 0 <= i < n
  {
    if n == 0 then {} else Below(n - 1) + {n - 1}
  }

  lemma NothingOnTheWay(s: Net)
    requires Accounted(s) && AllAnswered(s)
    ensures OnTheWay(s) == 0
  {
    Within(Below(|s.subs|), Happy(s.client));
  }

  /** Once everyone has an answer, a call under any id does no harm, the fixed one included. */
  lemma AnsweredThenOk(run: seq<Net>, labels: seq<Label>, k: nat, env: Envelope, wants: bool)
    requires IsRun(run, labels) && k < |run| && AllAnswered(run[k])
    ensures CallOk(run[k], env, wants)
  {
    var s := run[k];
    RunsAccount(run, labels, k);
    RunsConserve(run, labels, k);
    NothingOnTheWay(s);
    forall n | 0 <= n < |s.subs|
      ensures !Waiting(s, n) && !MayReturn(s, n)
    {
      assert Placed(s.client, s.subs, n);
      NotToTake(s.client.queue);
    }
  }

  lemma NotToTake(queue: seq<Command>)
    requires |Numbers(queue)| == 0
    ensures Ahead(queue) == []
  {
  }

  /** Calls made one at a time, each after the last one's answer, wrong nobody, whatever their ids. */
  lemma OneAtATime(run: seq<Net>, labels: seq<Label>, k: nat, n: nat)
    requires IsRun(run, labels) && k < |labels|
    requires forall i :: 0 <= i < |labels| && labels[i].Call? ==> AllAnswered(run[i])
    ensures !Wrongs(run[k], labels[k], n)
  {
    forall i | 0 <= i < |labels| && labels[i].Call?
      ensures CallOk(run[i], labels[i].env, labels[i].wants)
    {
      AnsweredThenOk(run, labels, i, labels[i].env, labels[i].wants);
    }
    FreshIdsWrongNobody(run, labels, k, n);
  }

  // ---------- Continuing a run ----------

  predicate Runs(s: Net, labels: seq<Label>)
    decreases |labels|
  {
    labels == [] || (Enabled(s, labels[0]) && Runs(Apply(s, labels[0]), labels[1..]))
  }

  function Last(s: Net, labels: seq<Label>): Net
    requires Runs(s, labels)
    decreases |labels|
  {
    if labels == [] then s else Last(Apply(s, labels[0]), labels[1..])
  }

  /** After these steps, `l` wrongs a caller under `id`, and no call was made on the way. */
  predicate Harms(s: Net, labels: seq<Label>, l: Label, n: nat, id: nat) {
    && Runs(s, labels) && Last(s, labels).subs == s.subs
    && Enabled(Last(s, labels), l) && Wrongs(Last(s, labels), l, n)
    && n < |s.subs| && s.subs[n].env.id == id
  }

  lemma Prepend(s: Net, l: Label, rest: seq<Label>)
    requires Enabled(s, l) && Runs(Apply(s, l), rest)
    ensures Runs(s, [l] + rest) && Last(s, [l] + rest) == Last(Apply(s, l), rest)
  {
    assert ([l] + rest)[1..] == rest;
  }

  lemma {:induction false} Append(s: Net, a: seq<Label>, b: seq<Label>)
    requires Runs(s, a) && Runs(Last(s, a), b)
    ensures Runs(s, a + b) && Last(s, a + b) == Last(Last(s, a), b)
    decreases |a|
  {
    if a == [] {
      assert a + b == b;
    } else {
      Append(Apply(s, a[0]), a[1..], b);
      Prepend(s, a[0], a[1..] + b);
      assert a + b == [a[0]] + (a[1..] + b);
    }
  }

  // ---------- A wire under the id comes back ----------

  /** The first `i` wires up, the one being handled and all that were handled are older than submission `m`. */
  predicate Older(s: Net, m: nat, i: nat) {
    && i <= |s.client.up| && (forall j :: 0 <= j < i ==> s.client.up[j].origin < m)
    && (s.server.Busy? ==> s.server.wire.origin < m)
    && (forall j :: 0 <= j < |s.log| ==> s.log[j].origin < m)
  }

  predicate Returning(s: Net, id: nat) {
    exists j :: 0 <= j < |s.down| && s.down[j].env.id == id
  }

  predicate Hopeful(s: Net, w: Wire, id: nat) {
    w.env.id == id && Asks(s.router, w.env)
  }

  /**
   One coming down has this id or, while the server reads, the one being handled or one of the first `i` going up has,
   and its handler asks an actor.
   */
  predicate OnWire(s: Net, id: nat, i: nat)
    requires i <= |s.client.up|
  {
    || Returning(s, id)
    || (s.server.Busy? && Hopeful(s, s.server.wire, id))
    || (!s.server.Gone? && exists j :: 0 <= j < i && Hopeful(s, s.client.up[j], id))
  }

  /** The actor, if one is asked, answers. */
  const ANSWERED := ServerAnswer(Answer("", []), true)

  lemma AnswerOne(s: Net, m: nat, i: nat, id: nat)
    requires Genuine(s) && s.server.Busy? && Older(s, m, i) && OnWire(s, id, i)
    ensures var t := Apply(s, ANSWERED);
            && Genuine(t) && t.server.Idle? && t.client == s.client && t.subs == s.subs && t.router == s.router
            && Older(t, m, i) && OnWire(t, id, i)
  {
    var t := Apply(s, ANSWERED);
    var w := s.server.wire;
    ServedGenuine(s, Answer("", []), true);
    DispatchAnswers(s.router, w.env, Answer("", []));
    if Hopeful(s, w, id) {
      assert t.down[|s.down|].env.id == id;
    } else if j :| 0 <= j < |s.down| && s.down[j].env.id == id {
      assert t.down[j].env.id == id;
    } else {
      var j :| 0 <= j < i && Hopeful(s, s.client.up[j], id);
      assert Hopeful(t, t.client.up[j], id);
    }
  }

  lemma GetOne(s: Net, m: nat, i: nat, id: nat)
    requires Genuine(s) && s.server.Idle? && i > 0 && Older(s, m, i) && OnWire(s, id, i)
    ensures var t := Apply(s, ServerGet);
            && Genuine(t) && t.server.Busy? && t.client == s.client.(up := t.client.up) && t.subs == s.subs
            && t.router == s.router && Older(t, m, i - 1) && OnWire(t, id, i - 1)
  {
    var t := Apply(s, ServerGet);
    if j :| 0 <= j < i && Hopeful(s, s.client.up[j], id) {
      if j > 0 {
        assert Hopeful(t, t.client.up[j - 1], id);
      }
    } else if j :| 0 <= j < |s.down| && s.down[j].env.id == id {
      assert t.down[j].env.id == id;
    }
  }

  /** The server works until a response under `id` is on its way down, before it hears of submission `m`. */
  lemma {:induction false} WireReturns(s: Net, m: nat, i: nat, id: nat) returns (labels: seq<Label>)
    requires Genuine(s) && Older(s, m, i) && OnWire(s, id, i)
    ensures Runs(s, labels)
    ensures var t := Last(s, labels);
            && Genuine(t) && Returning(t, id) && t.client == s.client.(up := t.client.up) && t.subs == s.subs
            && forall j :: 0 <= j < |t.log| ==> t.log[j].origin < m
    decreases i, if s.server.Busy? then 1 else 0
  {
    if Returning(s, id) {
      labels := [];
    } else if s.server.Busy? {
      AnswerOne(s, m, i, id);
      var rest := WireReturns(Apply(s, ANSWERED), m, i, id);
      Prepend(s, ANSWERED, rest);
      labels := [ANSWERED] + rest;
    } else {
      GetOne(s, m, i, id);
      var rest := WireReturns(Apply(s, ServerGet), m, i - 1, id);
      Prepend(s, ServerGet, rest);
      labels := [ServerGet] + rest;
    }
  }

  /** The next response the client gets is for `m`, who waits under `id`. */
  predicate NextIsFor(s: Net, id: nat, m: nat) {
    && s.client.alive && id in s.client.pending && s.client.pending[id] == m && m !in s.client.resolved
    && s.down != [] && s.down[0].env.id == id && s.down[0].env.isResponse
  }

  /** The first response under `id` goes to whoever is pending under it. */
  lemma {:induction false} ResponseArrives(s: Net, id: nat, m: nat, i: nat) returns (labels: seq<Label>)
    requires s.client.alive && id in s.client.pending && s.client.pending[id] == m && m !in s.client.resolved
    requires i < |s.down| && s.down[i].env.id == id
    requires forall j :: 0 <= j < |s.down| ==> s.down[j].env.isResponse
    requires forall other :: other in s.client.pending && s.client.pending[other] == m ==> other == id
    ensures Runs(s, labels) && Last(s, labels).subs == s.subs && Last(s, labels).log == s.log
    ensures NextIsFor(Last(s, labels), id, m)
    decreases i
  {
    if s.down[0].env.id == id {
      labels := [];
    } else {
      var t := Apply(s, GetResponse);
      assert t.down[i - 1] == s.down[i];
      var rest := ResponseArrives(t, id, m, i - 1);
      Prepend(s, GetResponse, rest);
      labels := [GetResponse] + rest;
    }
  }

  /** Whoever waits under an id that wires carry can be brought to the point of being answered. */
  lemma AnswerComes(s: Net, id: nat, m: nat, bound: nat, i: nat) returns (labels: seq<Label>)
    requires Conserved(s.client, s.subs) && Genuine(s) && s.client.alive && Older(s, bound, i) && OnWire(s, id, i)
    requires id in s.client.pending && s.client.pending[id] == m && m < |s.subs|
    ensures Runs(s, labels) && Last(s, labels).subs == s.subs && NextIsFor(Last(s, labels), id, m)
    ensures forall j :: 0 <= j < |Last(s, labels).log| ==> Last(s, labels).log[j].origin < bound
  {
    var serve := WireReturns(s, bound, i, id);
    var t := Last(s, serve);
    var j :| 0 <= j < |t.down| && t.down[j].env.id == id;
    assert Placed(s.client, s.subs, m);
    var receive := ResponseArrives(t, id, m, j);
    Append(s, serve, receive);
    labels := serve + receive;
  }

  /** If those wires are all older than `m`, the response was made for another. */
  lemma StrangerAnswered(s: Net, id: nat, m: nat, i: nat) returns (labels: seq<Label>)
    requires Conserved(s.client, s.subs) && Genuine(s) && s.client.alive && Older(s, m, i) && OnWire(s, id, i)
    requires id in s.client.pending && s.client.pending[id] == m && m < |s.subs|
    ensures Harms(s, labels, GetResponse, m, id)
  {
    labels := AnswerComes(s, id, m, m, i);
  }

  // ---------- The queue is worked off ----------

  /**
   A submission older than the last command waits under this id, queued or pending; or, if `wants`, can still bring a
   response under it.
   */
  predicate InUse(s: Net, id: nat, wants: bool)
    requires s.client.queue != []
  {
    || id in s.client.pending
    || (exists j :: 0 <= j < |s.client.queue| - 1 && s.client.queue[j].Send? && s.client.queue[j].env.id == id
                    && (s.client.queue[j].wants || (wants && !s.server.Gone? && Asks(s.router, s.client.queue[j].env))))
    || (wants && OnWire(s, id, |s.client.up|))
  }

  /** `m`, called under `env`, is the last command queued, no close is, and all on the wires is older. */
  ghost predicate Ready(s: Net, m: nat, env: Envelope, wants: bool) {
    && Conserved(s.client, s.subs) && Genuine(s) && s.client.alive
    && s.client.queue != [] && s.client.queue[|s.client.queue| - 1] == Send(m, env, wants)
    && (forall j :: 0 <= j < |s.client.queue| ==> s.client.queue[j].Send?)
    && Older(s, m, |s.client.up|)
  }

  const TAKEN := TakeCommand(Delivered)

  lemma TakeOlder(s: Net, m: nat, env: Envelope, wants: bool)
    requires Ready(s, m, env, wants) && InUse(s, env.id, wants) && |s.client.queue| > 1
    ensures Ready(Apply(s, TAKEN), m, env, wants) && InUse(Apply(s, TAKEN), env.id, wants)
    ensures Apply(s, TAKEN).subs == s.subs && |Apply(s, TAKEN).client.queue| < |s.client.queue|
  {
    var t := Apply(s, TAKEN);
    var head := s.client.queue[0];
    TakeNext(s, m, env, wants);
    TakenIs(s, t, head);
    UseStays(s, t, head, env.id, wants);
  }

  lemma TakeNext(s: Net, m: nat, env: Envelope, wants: bool)
    requires Ready(s, m, env, wants) && |s.client.queue| > 1
    ensures var t := Apply(s, TAKEN);
            && Ready(t, m, env, wants) && t.subs == s.subs && t.server == s.server && t.router == s.router
            && |t.client.queue| < |s.client.queue|
  {
    var t := Apply(s, TAKEN);
    StepConserves(s, TAKEN);
    StepGenuine(s, TAKEN);
    TakenIs(s, t, s.client.queue[0]);
    StaysReady(s, t, s.client.queue[0], m, env, wants);
  }

  /** A command goes out: it leaves the queue, goes up and, if it waits, is in the map. */
  predicate Took(s: Net, t: Net, head: Command)
    requires s.client.queue != [] && head == s.client.queue[0] && head.Send?
  {
    && t.client.queue == s.client.queue[1..] && t.client.up == s.client.up + [Wire(head.env, head.n)]
    && t.client.alive == s.client.alive && t.subs == s.subs && t.log == s.log
    && t.router == s.router && t.server == s.server && t.down == s.down
    && s.client.pending.Keys <= t.client.pending.Keys && (head.wants ==> head.env.id in t.client.pending)
  }

  lemma TakenIs(s: Net, t: Net, head: Command)
    requires Enabled(s, TAKEN) && t == Apply(s, TAKEN) && head == s.client.queue[0] && head.Send?
    ensures Took(s, t, head)
  {
  }

  lemma StaysReady(s: Net, t: Net, head: Command, m: nat, env: Envelope, wants: bool)
    requires Ready(s, m, env, wants) && |s.client.queue| > 1 && head == s.client.queue[0] && Took(s, t, head)
    requires Conserved(t.client, t.subs) && Genuine(t)
    ensures Ready(t, m, env, wants)
  {
    assert head.n < s.client.queue[|s.client.queue| - 1].n;
  }

  lemma UseStays(s: Net, t: Net, head: Command, id: nat, wants: bool)
    requires |s.client.queue| > 1 && head == s.client.queue[0] && head.Send? && InUse(s, id, wants)
    requires Took(s, t, head)
    ensures InUse(t, id, wants)
  {
    var q, up := s.client.queue, s.client.up;
    if j :| 0 <= j < |q| - 1 && q[j].Send? && q[j].env.id == id
            && (q[j].wants || (wants && !s.server.Gone? && Asks(s.router, q[j].env))) {
      if j > 0 {
        assert t.client.queue[j - 1] == q[j];
      } else if !head.wants {
        assert Hopeful(t, t.client.up[|up|], id);
      }
    } else if wants && !s.server.Gone? {
      if j :| 0 <= j < |up| && Hopeful(s, up[j], id) {
        assert Hopeful(t, t.client.up[j], id);
      }
    }
  }

  /** The one pending under the id is displaced by a call that waits, or failed by one that does not. */
  lemma PendingHarmed(s: Net, m: nat, env: Envelope, wants: bool) returns (l: Label)
    requires Ready(s, m, env, wants) && |s.client.queue| == 1 && env.id in s.client.pending
    ensures Harms(s, [], l, s.client.pending[env.id], env.id)
  {
    var n := s.client.pending[env.id];
    l := TakeCommand(if wants then Delivered else Lost);
    assert Placed(s.client, s.subs, n) && InPending(s.client, s.subs, n);
    assert n != m;
  }

  /** Its turn: the one pending under the id is harmed, or else `m` waits for what older wires will bring. */
  lemma TakeReuse(s: Net, m: nat, env: Envelope, wants: bool) returns (labels: seq<Label>, l: Label, n: nat)
    requires Ready(s, m, env, wants) && InUse(s, env.id, wants) && |s.client.queue| == 1
    ensures Harms(s, labels, l, n, env.id)
  {
    if env.id in s.client.pending {
      labels, n := [], s.client.pending[env.id];
      l := PendingHarmed(s, m, env, wants);
    } else {
      var t := Apply(s, TAKEN);
      StepConserves(s, TAKEN);
      StepGenuine(s, TAKEN);
      assert t.client.up == s.client.up + [Wire(env, m)];
      WiresStay(s, t, env.id);
      var rest := StrangerAnswered(t, env.id, m, |s.client.up|);
      Prepend(s, TAKEN, rest);
      labels, l, n := [TAKEN] + rest, GetResponse, m;
    }
  }

  lemma WiresStay(s: Net, t: Net, id: nat)
    requires OnWire(s, id, |s.client.up|) && |s.client.up| <= |t.client.up|
    requires forall j :: 0 <= j < |s.client.up| ==> t.client.up[j] == s.client.up[j]
    requires t.router == s.router && t.server == s.server && t.down == s.down
    ensures OnWire(t, id, |s.client.up|)
  {
    if j :| 0 <= j < |s.client.up| && Hopeful(s, s.client.up[j], id) {
      assert Hopeful(t, t.client.up[j], id);
    }
  }

  lemma HarmsLater(s: Net, first: Label, rest: seq<Label>, l: Label, n: nat, id: nat)
    requires Enabled(s, first) && Apply(s, first).subs == s.subs && Harms(Apply(s, first), rest, l, n, id)
    ensures Harms(s, [first] + rest, l, n, id)
  {
    Prepend(s, first, rest);
  }

  lemma {:induction false} QueueWorkedOff(s: Net, m: nat, env: Envelope, wants: bool)
    returns (labels: seq<Label>, l: Label, n: nat)
    requires Ready(s, m, env, wants) && InUse(s, env.id, wants)
    ensures Harms(s, labels, l, n, env.id)
    decreases |s.client.queue|
  {
    if |s.client.queue| == 1 {
      labels, l, n := TakeReuse(s, m, env, wants);
    } else {
      TakeOlder(s, m, env, wants);
      var rest;
      rest, l, n := QueueWorkedOff(Apply(s, TAKEN), m, env, wants);
      HarmsLater(s, TAKEN, rest, l, n, env.id);
      labels := [TAKEN] + rest;
    }
  }

  lemma UsedByWaiting(s: Net, env: Envelope, wants: bool)
    requires Conserved(s.client, s.subs) && Open(s.client) && !Unwaited(s, env.id) && Enabled(s, Call(env, wants))
    ensures InUse(Apply(s, Call(env, wants)), env.id, wants)
  {
    var t := Apply(s, Call(env, wants));
    var n :| 0 <= n < |s.subs| && Waiting(s, n) && s.subs[n].env.id == env.id;
    AheadOfClose(s.client.queue);
    if !InPending(s.client, s.subs, n) {
      var i :| 0 <= i < |Ahead(s.client.queue)| && Ahead(s.client.queue)[i].n == n;
      assert t.client.queue[i] == s.client.queue[i];
    }
  }

  lemma UsedByResponse(s: Net, env: Envelope)
    requires Conserved(s.client, s.subs) && Genuine(s) && Open(s.client) && !Unanswered(s, env.id)
    requires Enabled(s, Call(env, true))
    ensures InUse(Apply(s, Call(env, true)), env.id, true)
  {
    var t := Apply(s, Call(env, true));
    var n :| 0 <= n < |s.subs| && MayReturn(s, n) && s.subs[n].env.id == env.id;
    AheadOfClose(s.client.queue);
    if ComingDown(s, n) {
      var i :| 0 <= i < |s.down| && s.down[i].origin == n;
      assert t.down[i].env.id == env.id;
    } else if ToTake(s, n) {
      var i :| 0 <= i < |Ahead(s.client.queue)| && Ahead(s.client.queue)[i].n == n;
      assert t.client.queue[i] == s.client.queue[i];
    } else if GoingUp(s, n) {
      var i :| 0 <= i < |s.client.up| && s.client.up[i].origin == n;
      assert WireOk(s.client.up[i], s.subs) && Hopeful(t, t.client.up[i], env.id);
    }
  }

  /** From any reachable state, a call that does not meet its condition has a continuation that wrongs someone. */
  lemma ReuseWrongsSomeone(run: seq<Net>, steps: seq<Label>, k: nat, env: Envelope, wants: bool)
    returns (labels: seq<Label>, l: Label, n: nat)
    requires IsRun(run, steps) && k < |run| && Enabled(run[k], Call(env, wants)) && !CallOk(run[k], env, wants)
    ensures Harms(Apply(run[k], Call(env, wants)), labels, l, n, env.id)
  {
    var s, m, call := run[k], |run[k].subs|, Call(env, wants);
    RunsConserve(run, steps, k);
    AnswersMatchIds(run, steps, k);
    var t := Apply(s, call);
    StepConserves(s, call);
    StepGenuine(s, call);
    if !Unwaited(s, env.id) {
      UsedByWaiting(s, env, wants);
    } else {
      UsedByResponse(s, env);
    }
    CallIsReady(s, env, wants);
    labels, l, n := QueueWorkedOff(t, m, env, wants);
  }

  lemma CallIsReady(s: Net, env: Envelope, wants: bool)
    requires Conserved(s.client, s.subs) && Genuine(s) && Open(s.client) && Enabled(s, Call(env, wants))
    ensures Ready(Apply(s, Call(env, wants)), |s.subs|, env, wants)
  {
    var t := Apply(s, Call(env, wants));
    StepConserves(s, Call(env, wants));
    StepGenuine(s, Call(env, wants));
    forall j | 0 <= j < |t.client.queue|
      ensures t.client.queue[j].Send?
    {
      if j < |s.client.queue| {
        assert t.client.queue[j] == s.client.queue[j] && s.client.queue[j] in s.client.queue;
      }
    }
  }

  // ---------- Calls can be answered ----------

  /** Its turn: it goes out, is handled, and the response reaches it. */
  lemma TakenIsAnswered(s: Net, m: nat, env: Envelope) returns (labels: seq<Label>)
    requires Ready(s, m, env, true) && |s.client.queue| == 1 && !s.server.Gone? && Asks(s.router, env) && m < |s.subs|
    ensures Runs(s, labels) && NextIsFor(Last(s, labels), env.id, m)
  {
    var t := Apply(s, TAKEN);
    StepConserves(s, TAKEN);
    StepGenuine(s, TAKEN);
    OwnWireIsLast(s, t, m, env);
    var rest := AnswerComes(t, env.id, m, m + 1, |s.client.up| + 1);
    Prepend(s, TAKEN, rest);
    labels := [TAKEN] + rest;
  }

  lemma OwnWireIsLast(s: Net, t: Net, m: nat, env: Envelope)
    requires Ready(s, m, env, true) && |s.client.queue| == 1 && t == Apply(s, TAKEN)
    requires !s.server.Gone? && Asks(s.router, env)
    ensures t.client.alive && t.subs == s.subs && env.id in t.client.pending && t.client.pending[env.id] == m
    ensures var i := |s.client.up| + 1; Older(t, m + 1, i) && OnWire(t, env.id, i)
  {
    var i := |s.client.up|;
    TakenIs(s, t, s.client.queue[0]);
    assert Hopeful(t, t.client.up[i], env.id);
  }

  lemma {:induction false} ReadyIsAnswered(s: Net, m: nat, env: Envelope) returns (labels: seq<Label>)
    requires Ready(s, m, env, true) && !s.server.Gone? && Asks(s.router, env) && m < |s.subs|
    ensures Runs(s, labels) && NextIsFor(Last(s, labels), env.id, m)
    decreases |s.client.queue|
  {
    if |s.client.queue| == 1 {
      labels := TakenIsAnswered(s, m, env);
    } else {
      TakeNext(s, m, env, true);
      var rest := ReadyIsAnswered(Apply(s, TAKEN), m, env);
      Prepend(s, TAKEN, rest);
      labels := [TAKEN] + rest;
    }
  }

  /** From any reachable state with the connection open, a call whose handler asks an actor can be answered. */
  lemma CallsCanBeAnswered(run: seq<Net>, steps: seq<Label>, k: nat, env: Envelope) returns (labels: seq<Label>)
    requires IsRun(run, steps) && k < |run| && Enabled(run[k], Call(env, true))
    requires Open(run[k].client) && !run[k].server.Gone? && Asks(run[k].router, env)
    ensures Runs(run[k], [Call(env, true)] + labels + [GetResponse])
    ensures var t, m := Last(run[k], [Call(env, true)] + labels + [GetResponse]), |run[k].subs|;
            m in t.client.resolved && t.client.resolved[m].Answered?
  {
    var s, call := run[k], Call(env, true);
    RunsConserve(run, steps, k);
    AnswersMatchIds(run, steps, k);
    CallIsReady(s, env, true);
    labels := ReadyIsAnswered(Apply(s, call), |s.subs|, env);
    Prepend(s, call, labels);
    var last := Last(s, [call] + labels);
    assert [GetResponse][1..] == [];
    assert Runs(last, [GetResponse]) && Last(last, [GetResponse]) == Apply(last, GetResponse);
    Append(s, [call] + labels, [GetResponse]);
  }
}
