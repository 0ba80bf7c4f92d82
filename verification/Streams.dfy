/** Streams handled by an actor: polled together, each pass at most one item from each, removed when they end. */
module Streams {

  type Item = nat

  /** A stream, numbered as it was added, with all items it will ever yield and how many it has yielded. */
  datatype Stream = Stream(id: nat, items: seq<Item>, at: nat)

  datatype Event = Got(id: nat, item: Item) | Finished(id: nat)

  datatype PollResult = Pending | Next(item: Item) | End

  /** `ready` is the world's part: a stream that is not ready has nothing to say yet, not even that it has ended. */
  function Poll(s: Stream, ready: bool): PollResult {
    if !ready then Pending
    else if s.at < |s.items| then Next(s.items[s.at])
    else End
  }

  function Heard(s: Stream, ready: bool): seq<Event> {
    match Poll(s, ready)
    case Pending => []
    case Next(item) => [Got(s.id, item)]
    case End => [Finished(s.id)]
  }

  function Kept(s: Stream, ready: bool): seq<Stream> {
    match Poll(s, ready)
    case Pending => [s]
    case Next(_) => [s.(at := s.at + 1)]
    case End => []
  }

  function Survivors(streams: seq<Stream>, ready: seq<bool>): seq<Stream>
    requires |ready| == |streams|
  {
    if streams == [] then []
    else
      var n := |streams| - 1;
      Survivors(streams[..n], ready[..n]) + Kept(streams[n], ready[n])
  }

  function Events(streams: seq<Stream>, ready: seq<bool>): seq<Event>
    requires |ready| == |streams|
  {
    if streams == [] then []
    else
      var n := |streams| - 1;
      Events(streams[..n], ready[..n]) + Heard(streams[n], ready[n])
  }

  /** The actor's side of it: the streams it polls, what its handlers were called with, and all streams ever added. */
  datatype Mux = Mux(streams: seq<Stream>, trace: seq<Event>, added: seq<seq<Item>>)

  function Pass(m: Mux, ready: seq<bool>): Mux
    requires |ready| == |m.streams|
  {
    m.(streams := Survivors(m.streams, ready), trace := m.trace + Events(m.streams, ready))
  }

  function Add(m: Mux, items: seq<Item>): Mux {
    m.(streams := m.streams + [Stream(|m.added|, items, 0)], added := m.added + [items])
  }

  predicate SomeItem(events: seq<Event>) {
    exists k :: 0 <= k < |events| && events[k].Got?
  }

  lemma ItemAppend(events: seq<Event>, heard: seq<Event>)
    requires |heard| <= 1
    ensures SomeItem(events + heard) <==> SomeItem(events) || (heard != [] && heard[0].Got?)
  {
    var all := events + heard;
    if SomeItem(events) {
      var k :| 0 <= k < |events| && events[k].Got?;
      assert all[k].Got?;
    }
    if heard != [] && heard[0].Got? {
      assert all[|events|].Got?;
    }
  }

  lemma PassNext(streams: seq<Stream>, ready: seq<bool>, i: nat)
    requires |ready| == |streams| && i < |streams|
    ensures Survivors(streams[..i + 1], ready[..i + 1]) ==
            Survivors(streams[..i], ready[..i]) + Kept(streams[i], ready[i])
    ensures Events(streams[..i + 1], ready[..i + 1]) == Events(streams[..i], ready[..i]) + Heard(streams[i], ready[i])
  {
    assert streams[..i + 1][..i] == streams[..i] && ready[..i + 1][..i] == ready[..i];
  }

  // ---------- What one pass comes to ----------

  predicate HasMore(s: Stream) {
    s.at < |s.items|
  }

  /** A ready stream with items left yields the next one and moves on; with none left it ends; otherwise it waits. */
  lemma PollMeans(s: Stream, ready: bool)
    ensures Heard(s, ready) ==
            if !ready then [] else if HasMore(s) then [Got(s.id, s.items[s.at])] else [Finished(s.id)]
    ensures Kept(s, ready) == if !ready then [s] else if HasMore(s) then [s.(at := s.at + 1)] else []
  {
  }

  /** In a pass every stream is heard and kept as its own readiness has it. */
  lemma {:induction false} PassMeans(streams: seq<Stream>, ready: seq<bool>, i: nat)
    requires |ready| == |streams| && i < |streams|
    ensures var s, events, kept := streams[i], Events(streams, ready), Survivors(streams, ready);
            if !ready[i] then s in kept
            else if HasMore(s) then Got(s.id, s.items[s.at]) in events && s.(at := s.at + 1) in kept
            else Finished(s.id) in events
  {
    var n := |streams| - 1;
    PollMeans(streams[n], ready[n]);
    if i < n {
      PassMeans(streams[..n], ready[..n], i);
    }
  }

  /** And nothing else is heard or kept. */
  lemma {:induction false} OnlyFromPolling(streams: seq<Stream>, ready: seq<bool>)
    requires |ready| == |streams|
    ensures forall e :: e in Events(streams, ready) ==>
              exists i :: 0 <= i < |streams| && e in Heard(streams[i], ready[i])
    ensures forall s :: s in Survivors(streams, ready) ==>
              exists i :: 0 <= i < |streams| && s in Kept(streams[i], ready[i])
  {
    if streams != [] {
      var n := |streams| - 1;
      OnlyFromPolling(streams[..n], ready[..n]);
      forall e | e in Events(streams, ready)
        ensures exists i :: 0 <= i < |streams| && e in Heard(streams[i], ready[i])
      {
        if e in Events(streams[..n], ready[..n]) {
          var i :| 0 <= i < n && e in Heard(streams[..n][i], ready[..n][i]);
          assert e in Heard(streams[i], ready[i]);
        }
      }
      forall s | s in Survivors(streams, ready)
        ensures exists i :: 0 <= i < |streams| && s in Kept(streams[i], ready[i])
      {
        if s in Survivors(streams[..n], ready[..n]) {
          var i :| 0 <= i < n && s in Kept(streams[..n][i], ready[..n][i]);
          assert s in Kept(streams[i], ready[i]);
        }
      }
    }
  }

  lemma HeardSomeIff(streams: seq<Stream>, ready: seq<bool>)
    requires |ready| == |streams|
    ensures SomeItem(Events(streams, ready)) <==> exists i :: 0 <= i < |ready| && ready[i] && HasMore(streams[i])
  {
    var events := Events(streams, ready);
    OnlyFromPolling(streams, ready);
    if SomeItem(events) {
      var k :| 0 <= k < |events| && events[k].Got?;
      assert events[k] in events;
      var i :| 0 <= i < |streams| && events[k] in Heard(streams[i], ready[i]);
      PollMeans(streams[i], ready[i]);
      assert ready[i] && HasMore(streams[i]);
    }
    if i :| 0 <= i < |ready| && ready[i] && HasMore(streams[i]) {
      PassMeans(streams, ready, i);
      var k :| 0 <= k < |events| && events[k] == Got(streams[i].id, streams[i].items[streams[i].at]);
    }
  }

  // ---------- The loop in place ----------

  class StreamSet {
    var streams: seq<Stream>
    var trace: seq<Event>
    var added: seq<seq<Item>>

    function State(): Mux
      reads this
    {
      Mux(streams, trace, added)
    }

    constructor ()
      ensures State() == Mux([], [], [])
    {
      streams, trace, added := [], [], [];
    }

    /** A stream added by a handler joins at the end before the next pass. */
    method Append(items: seq<Item>)
      modifies this
      ensures State() == Add(old(State()), items)
    {
      streams := streams + [Stream(|added|, items, 0)];
      added := added + [items];
    }

    /** Every stream polled once, in order; those that ended are dropped. */
    method PollStreams(ready: seq<bool>) returns (anyReady: bool)
      requires |ready| == |streams|
      modifies this
      ensures State() == Pass(old(State()), ready)
      ensures anyReady <==> exists i :: 0 <= i < |ready| && ready[i] && HasMore(old(streams)[i])
    {
      HeardSomeIff(streams, ready);
      anyReady := false;
      var kept: seq<Stream> := [];
      var heard: seq<Event> := [];
      for i := 0 to |streams|
        invariant State() == old(State())
        invariant kept == Survivors(streams[..i], ready[..i])
        invariant heard == Events(streams[..i], ready[..i])
        invariant anyReady <==> SomeItem(heard)
      {
        PassNext(streams, ready, i);
        ItemAppend(heard, Heard(streams[i], ready[i]));
        var s := streams[i];
        match Poll(s, ready[i])
        case Next(item) =>
          heard := heard + [Got(s.id, item)];
          anyReady := true;
          kept := kept + [s.(at := s.at + 1)];
        case End =>
          heard := heard + [Finished(s.id)];
        case Pending =>
          kept := kept + [s];
      }
      assert streams[..|streams|] == streams && ready[..|ready|] == ready;
      streams := kept;
      trace := trace + heard;
    }
  }

  // ---------- What every run keeps ----------

  function Delivered(trace: seq<Event>, id: nat): seq<Item> {
    if trace == [] then []
    else
      var e := trace[|trace| - 1];
      Delivered(trace[..|trace| - 1], id) + (if e.Got? && e.id == id then [e.item] else [])
  }

  function Finishes(trace: seq<Event>, id: nat): nat {
    if trace == [] then 0
    else
      var e := trace[|trace| - 1];
      Finishes(trace[..|trace| - 1], id) + (if e == Finished(id) then 1 else 0)
  }

  predicate InOrder(streams: seq<Stream>) {
    forall i, j :: 0 <= i < j < |streams| ==> streams[i].id < streams[j].id
  }

  predicate Polled(streams: seq<Stream>, id: nat) {
    exists i :: 0 <= i < |streams| && streams[i].id == id
  }

  /** Nothing comes from a stream once its `finished` was called. */
  predicate QuietAfterFinish(trace: seq<Event>) {
    forall i, j :: 0 <= i < j < |trace| && trace[i].Finished? ==> trace[j].id != trace[i].id
  }

  /**
   Each stream still polled has delivered the first items it yields, in order, and has not finished; each stream no
   longer polled delivered all of them and then finished, once. The streams polled are in the order they were added.
   */
  ghost predicate MuxInv(m: Mux) {
    && InOrder(m.streams)
    && QuietAfterFinish(m.trace)
    && (forall k :: 0 <= k < |m.trace| ==> m.trace[k].id < |m.added|)
    && (forall i :: 0 <= i < |m.streams| ==> Running(m, m.streams[i]))
    && (forall id :: 0 <= id < |m.added| && !Polled(m.streams, id) ==> Over(m, id))
  }

  predicate Running(m: Mux, s: Stream) {
    && s.id < |m.added| && s.items == m.added[s.id] && s.at <= |s.items|
    && Delivered(m.trace, s.id) == s.items[..s.at] && Finishes(m.trace, s.id) == 0
  }

  predicate Over(m: Mux, id: nat)
    requires id < |m.added|
  {
    Delivered(m.trace, id) == m.added[id] && Finishes(m.trace, id) == 1
  }

  lemma TraceAppend(trace: seq<Event>, e: Event, id: nat)
    ensures Delivered(trace + [e], id) == Delivered(trace, id) + (if e.Got? && e.id == id then [e.item] else [])
    ensures Finishes(trace + [e], id) == Finishes(trace, id) + (if e == Finished(id) then 1 else 0)
  {
    assert (trace + [e])[..|trace|] == trace;
  }

  lemma {:induction false} Unheard(trace: seq<Event>, id: nat)
    requires forall k :: 0 <= k < |trace| ==> trace[k].id != id
    ensures Delivered(trace, id) == [] && Finishes(trace, id) == 0
  {
    if trace != [] {
      Unheard(trace[..|trace| - 1], id);
    }
  }

  lemma {:induction false} FinishCounts(trace: seq<Event>, k: nat)
    requires k < |trace| && trace[k].Finished?
    ensures Finishes(trace, trace[k].id) >= 1
  {
    var n := |trace| - 1;
    if k < n {
      FinishCounts(trace[..n], k);
    }
  }

  lemma PolledPrefix(s: seq<Stream>, t: seq<Stream>, d: nat)
    requires s <= t
    ensures Polled(s, d) ==> Polled(t, d)
  {
    forall i | 0 <= i < |s| && s[i].id == d
      ensures Polled(t, d)
    {
      assert t[i].id == d;
    }
  }

  lemma AddKeeps(m: Mux, items: seq<Item>)
    requires MuxInv(m)
    ensures MuxInv(Add(m, items))
  {
    var m' := Add(m, items);
    var id := |m.added|;
    Unheard(m.trace, id);
    assert m'.streams[|m.streams|].id == id;
    forall i | 0 <= i < |m'.streams|
      ensures Running(m', m'.streams[i])
    {
      assert i < |m.streams| ==> Running(m, m.streams[i]);
    }
    forall d | 0 <= d < |m'.added| && !Polled(m'.streams, d)
      ensures Over(m', d)
    {
      if d < id {
        PolledPrefix(m.streams, m'.streams, d);
        assert Over(m, d);
      }
    }
    forall i, j | 0 <= i < j < |m'.streams|
      ensures m'.streams[i].id < m'.streams[j].id
    {
      assert Running(m, m.streams[i]);
    }
  }

  /** A pass in the middle: the streams before `n` have been polled, the others not yet. */
  function Midway(m: Mux, ready: seq<bool>, n: nat): Mux
    requires |ready| == |m.streams| && n <= |m.streams|
  {
    m.(streams := Survivors(m.streams[..n], ready[..n]) + m.streams[n..],
       trace := m.trace + Events(m.streams[..n], ready[..n]))
  }

  /** Polling the one stream at position `k`. */
  function PollAt(m: Mux, k: nat, ready: bool): Mux
    requires k < |m.streams|
  {
    var s := m.streams[k];
    m.(streams := m.streams[..k] + Kept(s, ready) + m.streams[k + 1..], trace := m.trace + Heard(s, ready))
  }

  lemma MidwayStep(m: Mux, ready: seq<bool>, n: nat) returns (k: nat)
    requires |ready| == |m.streams| && n < |m.streams|
    ensures k < |Midway(m, ready, n).streams|
    ensures Midway(m, ready, n + 1) == PollAt(Midway(m, ready, n), k, ready[n])
  {
    var before := Survivors(m.streams[..n], ready[..n]);
    var mid := Midway(m, ready, n);
    k := |before|;
    assert m.streams[..n + 1][..n] == m.streams[..n] && ready[..n + 1][..n] == ready[..n];
    Between(before, m.streams, n);
    var e := Heard(m.streams[n], ready[n]);
    assert m.trace + (Events(m.streams[..n], ready[..n]) + e) == (m.trace + Events(m.streams[..n], ready[..n])) + e;
  }

  lemma Between(before: seq<Stream>, streams: seq<Stream>, n: nat)
    requires n < |streams|
    ensures var all, k := before + streams[n..], |before|;
            k < |all| && all[k] == streams[n] && all[..k] == before && all[k + 1..] == streams[n + 1..]
  {
  }

  lemma NextKeeps(m: Mux, k: nat)
    requires MuxInv(m) && k < |m.streams| && m.streams[k].at < |m.streams[k].items|
    ensures MuxInv(PollAt(m, k, true))
  {
    var s := m.streams[k];
    var m' := PollAt(m, k, true);
    var e := Got(s.id, s.items[s.at]);
    assert Running(m, s);
    assert m'.streams == m.streams[k := s.(at := s.at + 1)];
    forall i | 0 <= i < |m'.streams|
      ensures Running(m', m'.streams[i])
    {
      assert Running(m, m.streams[i]);
      TraceAppend(m.trace, e, m.streams[i].id);
    }
    forall d | 0 <= d < |m'.added| && !Polled(m'.streams, d)
      ensures Over(m', d)
    {
      assert m'.streams[k].id == s.id;
      StillPolled(m, m', d);
      TraceAppend(m.trace, e, d);
    }
    QuietAppend(m, e);
  }

  lemma StillPolled(m: Mux, m': Mux, d: nat)
    requires |m'.streams| == |m.streams| && forall i :: 0 <= i < |m.streams| ==> m'.streams[i].id == m.streams[i].id
    ensures Polled(m.streams, d) ==> Polled(m'.streams, d)
  {
    if Polled(m.streams, d) {
      var i :| 0 <= i < |m.streams| && m.streams[i].id == d;
      assert m'.streams[i].id == d;
    }
  }

  lemma QuietAppend(m: Mux, e: Event)
    requires MuxInv(m) && Polled(m.streams, e.id)
    ensures QuietAfterFinish(m.trace + [e])
  {
    var i :| 0 <= i < |m.streams| && m.streams[i].id == e.id;
    assert Running(m, m.streams[i]);
    forall k | 0 <= k < |m.trace| && m.trace[k].Finished?
      ensures m.trace[k].id != e.id
    {
      FinishCounts(m.trace, k);
    }
  }

  lemma EndKeeps(m: Mux, k: nat)
    requires MuxInv(m) && k < |m.streams| && m.streams[k].at >= |m.streams[k].items|
    ensures MuxInv(PollAt(m, k, true))
  {
    var s := m.streams[k];
    var m' := PollAt(m, k, true);
    var e := Finished(s.id);
    assert Running(m, s);
    assert m'.streams == m.streams[..k] + m.streams[k + 1..];
    QuietAppend(m, e);
    forall i | 0 <= i < |m'.streams|
      ensures Running(m', m'.streams[i])
    {
      var j := if i < k then i else i + 1;
      assert m'.streams[i] == m.streams[j] && m.streams[j].id != s.id;
      OtherRuns(m, m', m.streams[j], e);
    }
    forall d | 0 <= d < |m'.added| && !Polled(m'.streams, d)
      ensures Over(m', d)
    {
      if d == s.id {
        NowOver(m, m', s);
      } else {
        PolledWithout(m.streams, k, d);
        TraceAppend(m.trace, e, d);
        assert Over(m, d);
      }
    }
  }

  lemma OtherRuns(m: Mux, m': Mux, s: Stream, e: Event)
    requires Running(m, s) && e.id != s.id && m'.trace == m.trace + [e] && m'.added == m.added
    ensures Running(m', s)
  {
    TraceAppend(m.trace, e, s.id);
  }

  lemma NowOver(m: Mux, m': Mux, s: Stream)
    requires Running(m, s) && s.at >= |s.items| && m'.trace == m.trace + [Finished(s.id)] && m'.added == m.added
    ensures Over(m', s.id)
  {
    TraceAppend(m.trace, Finished(s.id), s.id);
    assert s.items[..s.at] == s.items;
  }

  lemma PolledWithout(streams: seq<Stream>, k: nat, d: nat)
    requires k < |streams| && d != streams[k].id
    ensures Polled(streams, d) ==> Polled(streams[..k] + streams[k + 1..], d)
  {
    var rest := streams[..k] + streams[k + 1..];
    forall j | 0 <= j < |streams| && streams[j].id == d
      ensures Polled(rest, d)
    {
      assert rest[if j < k then j else j - 1].id == d;
    }
  }

  lemma PollAtKeeps(m: Mux, k: nat, ready: bool, m': Mux)
    requires MuxInv(m) && k < |m.streams| && m' == PollAt(m, k, ready)
    ensures MuxInv(m')
  {
    if !ready {
      assert m'.streams == m.streams;
      assert m.trace + [] == m.trace;
      assert m' == m;
    } else if m.streams[k].at < |m.streams[k].items| {
      NextKeeps(m, k);
    } else {
      EndKeeps(m, k);
    }
  }

  lemma {:induction false} MidwayKeeps(m: Mux, ready: seq<bool>, n: nat)
    requires MuxInv(m) && |ready| == |m.streams| && n <= |m.streams|
    ensures MuxInv(Midway(m, ready, n))
  {
    if n == 0 {
      MidwayStart(m, ready);
    } else {
      MidwayKeeps(m, ready, n - 1);
      MidwayStepKeeps(m, ready, n - 1, Midway(m, ready, n - 1), Midway(m, ready, n));
    }
  }

  lemma MidwayStepKeeps(m: Mux, ready: seq<bool>, n: nat, before: Mux, after: Mux)
    requires |ready| == |m.streams| && n < |m.streams| && MuxInv(before)
    requires before == Midway(m, ready, n) && after == Midway(m, ready, n + 1)
    ensures MuxInv(after)
  {
    var k := MidwayStep(m, ready, n);
    PollAtKeeps(before, k, ready[n], after);
  }

  lemma MidwayStart(m: Mux, ready: seq<bool>)
    requires |ready| == |m.streams|
    ensures Midway(m, ready, 0) == m
  {
    assert m.streams[..0] == [] && ready[..0] == [];
    assert [] + m.streams[0..] == m.streams && m.trace + [] == m.trace;
  }

  lemma PassKeeps(m: Mux, ready: seq<bool>)
    requires MuxInv(m) && |ready| == |m.streams|
    ensures MuxInv(Pass(m, ready))
  {
    var n := |m.streams|;
    MidwayKeeps(m, ready, n);
    assert m.streams[..n] == m.streams && ready[..n] == ready;
    assert Midway(m, ready, n) == Pass(m, ready);
  }

  /** In one pass no stream is heard twice, and streams are heard in their order. */
  lemma {:induction false} OneEventPerStream(streams: seq<Stream>, ready: seq<bool>)
    requires InOrder(streams) && |ready| == |streams|
    ensures forall i, j :: 0 <= i < j < |Events(streams, ready)| ==>
              Events(streams, ready)[i].id < Events(streams, ready)[j].id
    ensures forall i :: 0 <= i < |Events(streams, ready)| ==> Polled(streams, Events(streams, ready)[i].id)
  {
    if streams != [] {
      var n := |streams| - 1;
      var front := Events(streams[..n], ready[..n]);
      OneEventPerStream(streams[..n], ready[..n]);
      forall i | 0 <= i < |front|
        ensures front[i].id < streams[n].id && Polled(streams, front[i].id)
      {
        var j :| 0 <= j < n && streams[..n][j].id == front[i].id;
        assert streams[j].id == front[i].id;
      }
    }
  }

  // ---------- Runs ----------

  datatype Step = AddStream(items: seq<Item>) | PollAll(ready: seq<bool>)

  predicate Fits(m: Mux, s: Step) {
    s.PollAll? ==> |s.ready| == |m.streams|
  }

  function Do(m: Mux, s: Step): Mux
    requires Fits(m, s)
  {
    match s
    case AddStream(items) => Add(m, items)
    case PollAll(ready) => Pass(m, ready)
  }

  predicate IsRun(run: seq<Mux>, steps: seq<Step>) {
    && |run| == |steps| + 1 && run[0] == Mux([], [], [])
    && forall k :: 0 <= k < |steps| ==> Fits(run[k], steps[k]) && run[k + 1] == Do(run[k], steps[k])
  }

  lemma {:induction false} RunsKeep(run: seq<Mux>, steps: seq<Step>, k: nat)
    requires IsRun(run, steps) && k < |run|
    ensures MuxInv(run[k])
  {
    if k > 0 {
      RunsKeep(run, steps, k - 1);
      match steps[k - 1]
      case AddStream(items) => AddKeeps(run[k - 1], items);
      case PollAll(ready) => PassKeeps(run[k - 1], ready);
    }
  }

  /**
   Over any run of passes, with streams added in between: what a stream delivered is a prefix of its items, in order;
   `finished` is called at most once, exactly when the stream is no longer polled, and then all its items are out.
   */
  lemma StreamsDeliverInOrder(run: seq<Mux>, steps: seq<Step>, k: nat, id: nat)
    requires IsRun(run, steps) && k < |run| && id < |run[k].added|
    ensures Delivered(run[k].trace, id) <= run[k].added[id]
    ensures Finishes(run[k].trace, id) == if Polled(run[k].streams, id) then 0 else 1
    ensures Finishes(run[k].trace, id) == 1 ==> Delivered(run[k].trace, id) == run[k].added[id]
    ensures QuietAfterFinish(run[k].trace) && InOrder(run[k].streams)
  {
    RunsKeep(run, steps, k);
    var m := run[k];
    if Polled(m.streams, id) {
      var i :| 0 <= i < |m.streams| && m.streams[i].id == id;
      assert Running(m, m.streams[i]);
    } else {
      assert Over(m, id);
    }
  }

  // ---------- How often a stream was ready ----------

  predicate ReadyAt(m: Mux, s: Step, id: nat) {
    s.PollAll? && exists i :: 0 <= i < |m.streams| && i < |s.ready| && m.streams[i].id == id && s.ready[i]
  }

  /** In how many passes before step `k` stream `id` was polled and ready. */
  function TimesReady(run: seq<Mux>, steps: seq<Step>, k: nat, id: nat): nat
    requires k <= |steps| && |run| == |steps| + 1
  {
    if k == 0 then 0
    else TimesReady(run, steps, k - 1, id) + if ReadyAt(run[k - 1], steps[k - 1], id) then 1 else 0
  }

  /** Where stream `id` stands after it was ready `r` times. */
  predicate StandsAt(m: Mux, id: nat, r: nat)
    requires id < |m.added|
  {
    && (forall i :: 0 <= i < |m.streams| && m.streams[i].id == id ==> m.streams[i].at == r)
    && (!Polled(m.streams, id) ==> r == |m.added[id]| + 1)
  }

  lemma {:induction false} NotYetReady(run: seq<Mux>, steps: seq<Step>, k: nat, id: nat)
    requires IsRun(run, steps) && k < |run| && id >= |run[k].added|
    ensures TimesReady(run, steps, k, id) == 0
  {
    if k > 0 {
      RunsKeep(run, steps, k - 1);
      assert |run[k - 1].added| <= |run[k].added|;
      NotYetReady(run, steps, k - 1, id);
      var m := run[k - 1];
      forall i | 0 <= i < |m.streams|
        ensures m.streams[i].id != id
      {
        assert Running(m, m.streams[i]);
      }
    }
  }

  lemma AddStands(m: Mux, items: seq<Item>, id: nat, r: nat)
    requires MuxInv(m) && id <= |m.added|
    requires if id < |m.added| then StandsAt(m, id, r) else r == 0
    ensures StandsAt(Add(m, items), id, r)
  {
    var m' := Add(m, items);
    PolledPrefix(m.streams, m'.streams, id);
    assert m'.streams[|m.streams|].id == |m.added|;
    forall i | 0 <= i < |m'.streams| && m'.streams[i].id == id
      ensures m'.streams[i].at == r
    {
      if i < |m.streams| {
        assert Running(m, m.streams[i]);
      }
    }
  }

  lemma PassStands(m: Mux, ready: seq<bool>, id: nat, r: nat)
    requires MuxInv(m) && |ready| == |m.streams| && id < |m.added| && StandsAt(m, id, r)
    ensures StandsAt(Pass(m, ready), id, r + if ReadyAt(m, PollAll(ready), id) then 1 else 0)
  {
    var m' := Pass(m, ready);
    OnlyFromPolling(m.streams, ready);
    forall j | 0 <= j < |m'.streams| && m'.streams[j].id == id
      ensures m'.streams[j].at == r + if ReadyAt(m, PollAll(ready), id) then 1 else 0
    {
      assert m'.streams[j] in Survivors(m.streams, ready);
      var i :| 0 <= i < |m.streams| && m'.streams[j] in Kept(m.streams[i], ready[i]);
      PollMeans(m.streams[i], ready[i]);
      OnlyOne(m, ready, i);
    }
    if !Polled(m'.streams, id) && Polled(m.streams, id) {
      var i :| 0 <= i < |m.streams| && m.streams[i].id == id;
      PassMeans(m.streams, ready, i);
      StaysPolled(m'.streams, m.streams[i]);
      StaysPolled(m'.streams, m.streams[i].(at := m.streams[i].at + 1));
      OnlyOne(m, ready, i);
      assert Running(m, m.streams[i]);
    }
  }

  lemma StaysPolled(streams: seq<Stream>, s: Stream)
    ensures s in streams ==> Polled(streams, s.id)
  {
    if s in streams {
      var i :| 0 <= i < |streams| && streams[i] == s;
      assert streams[i].id == s.id;
    }
  }

  lemma OnlyOne(m: Mux, ready: seq<bool>, i: nat)
    requires InOrder(m.streams) && |ready| == |m.streams| && i < |m.streams|
    ensures ReadyAt(m, PollAll(ready), m.streams[i].id) <==> ready[i]
  {
  }

  lemma {:induction false} StandsAsOftenReady(run: seq<Mux>, steps: seq<Step>, k: nat, id: nat)
    requires IsRun(run, steps) && k < |run| && id < |run[k].added|
    ensures StandsAt(run[k], id, TimesReady(run, steps, k, id))
  {
    assert k > 0;
    RunsKeep(run, steps, k - 1);
    if id < |run[k - 1].added| {
      StandsAsOftenReady(run, steps, k - 1, id);
    } else {
      NotYetReady(run, steps, k - 1, id);
    }
    match steps[k - 1]
    case AddStream(items) => AddStands(run[k - 1], items, id, TimesReady(run, steps, k - 1, id));
    case PollAll(ready) => PassStands(run[k - 1], ready, id, TimesReady(run, steps, k - 1, id));
  }

  /**
   Every readiness is heard: a stream polled ready `r` times has delivered its first `r` items, all of them if it has no
   more, and has finished exactly if it was ready once more than it has items.
   */
  lemma EveryReadinessIsHeard(run: seq<Mux>, steps: seq<Step>, k: nat, id: nat)
    requires IsRun(run, steps) && k < |run| && id < |run[k].added|
    ensures var items, r := run[k].added[id], TimesReady(run, steps, k, id);
            && Delivered(run[k].trace, id) == (if r <= |items| then items[..r] else items)
            && (Finishes(run[k].trace, id) == 1 <==> r > |items|)
  {
    RunsKeep(run, steps, k);
    StandsAsOftenReady(run, steps, k, id);
    var m := run[k];
    if Polled(m.streams, id) {
      var i :| 0 <= i < |m.streams| && m.streams[i].id == id;
      assert Running(m, m.streams[i]);
    } else {
      assert Over(m, id);
    }
  }

  /** The items of the streams added by these steps, in order. */
  function Adds(steps: seq<Step>): seq<seq<Item>> {
    if steps == [] then []
    else
      var last := steps[|steps| - 1];
      Adds(steps[..|steps| - 1]) + if last.AddStream? then [last.items] else []
  }

  /** Every stream that was added is there, under its number and with its items. */
  lemma {:induction false} EveryStreamIsAdded(run: seq<Mux>, steps: seq<Step>, k: nat)
    requires IsRun(run, steps) && k < |run|
    ensures run[k].added == Adds(steps[..k])
  {
    if k > 0 {
      EveryStreamIsAdded(run, steps, k - 1);
      assert steps[..k][..k - 1] == steps[..k - 1];
    }
  }
}
