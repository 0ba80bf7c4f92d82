/** How exchanges spread knowledge: what any schedule delivers, and a schedule after which all nodes agree. */
module Convergence {
  import opened Basics
  import opened Membership
  import opened ClusterNodes

  /** One push-pull exchange: `i` pushes to `j`, `j` merges and answers, `i` merges the answer. */
  function Exchange(ks: seq<Knowledge>, i: nat, j: nat): (r: seq<Knowledge>)
    requires i < |ks| && j < |ks|
    ensures |r| == |ks|
  {
    var heard := ks[j := Absorb(ks[j], ks[i])];
    heard[i := Absorb(heard[i], heard[j])]
  }

  /** What nodes are to agree on: who is a member with which status, and where each actor is. */
  datatype Facts = Facts(statuses: map<NodeId, NodeStatus>, registry: Registry)

  function FactsOf(k: Knowledge): Facts {
    Facts(Statuses(k.members), k.registry)
  }

  /** `b` where it says something, else `a`. */
  function Under(a: Facts, b: Facts): Facts {
    Facts(a.statuses + b.statuses, a.registry + b.registry)
  }

  predicate Covers(a: Facts, b: Facts) {
    b.statuses.Keys <= a.statuses.Keys && b.registry.Keys <= a.registry.Keys
  }

  /** `both` are the facts of two ends after an exchange: the pusher's win. */
  predicate Agreed(strong: Facts, weak: Facts, both: Facts) {
    both == Under(weak, strong)
  }

  lemma AbsorbIsUnder(k: Knowledge, g: Knowledge)
    ensures FactsOf(Absorb(k, g)) == Under(FactsOf(k), FactsOf(g))
  {
    var a, b := Statuses(k.members), Statuses(g.members);
    assert Statuses(Override(k.members, g.members)) == a + b;
  }

  lemma UnderCovered(a: Facts, b: Facts)
    requires Covers(b, a)
    ensures Under(a, b) == b
  {
  }

  /** After an exchange both ends hold the same facts, those of the pusher over those of the other. */
  lemma ExchangeAgrees(ks: seq<Knowledge>, i: nat, j: nat)
    requires i < |ks| && j < |ks| && i != j
    ensures var r := Exchange(ks, i, j);
            && Agreed(FactsOf(ks[i]), FactsOf(ks[j]), FactsOf(r[i]))
            && Agreed(FactsOf(ks[i]), FactsOf(ks[j]), FactsOf(r[j]))
            && forall k :: 0 <= k < |ks| && k != i && k != j ==> r[k] == ks[k]
  {
    var r := Exchange(ks, i, j);
    AbsorbIsUnder(ks[j], ks[i]);
    AbsorbIsUnder(ks[i], r[j]);
    UnderCovered(FactsOf(ks[i]), FactsOf(r[j]));
  }

  /** Full records agree too exactly when no id was filed at both ends with one status but different records. */
  lemma RecordsAgreeIff(ks: seq<Knowledge>, i: nat, j: nat)
    requires i < |ks| && j < |ks| && i != j
    ensures var r := Exchange(ks, i, j);
            r[i].members == r[j].members <==>
            forall id :: id in ks[i].members && id in ks[j].members
                         && ks[i].members[id].status == ks[j].members[id].status ==>
              ks[i].members[id] == ks[j].members[id]
  {
    var r := Exchange(ks, i, j);
    var a, b := ks[i].members, ks[j].members;
    var a', b' := r[i].members, r[j].members;
    assert a'.Keys == b'.Keys == a.Keys + b.Keys;
    forall id | id in a'
      ensures a'[id] == b'[id] <==> (id in a && id in b && a[id].status == b[id].status ==> a[id] == b[id])
    {
    }
  }

  // ---------- Chains there and back ----------

  /** 0 -> 1, 1 -> 2, ..., n-1 -> n. */
  function Forward(ks: seq<Knowledge>, n: nat): (r: seq<Knowledge>)
    requires n < |ks|
    ensures |r| == |ks|
  {
    if n == 0 then ks else Exchange(Forward(ks, n - 1), n - 1, n)
  }

  /** n -> n-1, ..., i+1 -> i. */
  function BackwardTo(ks: seq<Knowledge>, n: nat, i: nat): (r: seq<Knowledge>)
    requires i <= n < |ks|
    ensures |r| == |ks|
    decreases n - i
  {
    if i == n then ks else Exchange(BackwardTo(ks, n, i + 1), i + 1, i)
  }

  /** n -> n-1, ..., 1 -> 0. */
  function Backward(ks: seq<Knowledge>, n: nat): (r: seq<Knowledge>)
    requires n < |ks|
    ensures |r| == |ks|
  {
    BackwardTo(ks, n, 0)
  }

  /** The whole chain, there and back. */
  function Chained(ks: seq<Knowledge>): (r: seq<Knowledge>)
    requires |ks| > 0
    ensures |r| == |ks|
  {
    Backward(Forward(ks, |ks| - 1), |ks| - 1)
  }

  /** All facts of nodes 0..n, a lower-numbered node winning over a higher one. */
  function Combined(ks: seq<Knowledge>, n: nat): Facts
    requires n < |ks|
  {
    if n == 0 then FactsOf(ks[0]) else Under(FactsOf(ks[n]), Combined(ks, n - 1))
  }

  lemma {:induction false} CombinedCovers(ks: seq<Knowledge>, m: nat, n: nat)
    requires m <= n < |ks|
    ensures Covers(Combined(ks, n), Combined(ks, m))
    ensures Covers(Combined(ks, n), FactsOf(ks[m]))
    decreases n
  {
    if m < n {
      CombinedCovers(ks, m, n - 1);
    }
  }

  /** The chain has come to `n`: each node on the way holds what its peer and all before it knew. */
  predicate CameTo(ks: seq<Knowledge>, r: seq<Knowledge>, n: nat) {
    && n < |ks| == |r|
    && FactsOf(r[n]) == Combined(ks, n)
    && (forall k :: 0 <= k < n ==> FactsOf(r[k]) == Combined(ks, k + 1))
    && (forall k :: n < k < |ks| ==> r[k] == ks[k])
  }

  lemma {:induction false} ForwardHolds(ks: seq<Knowledge>, n: nat)
    requires n < |ks|
    ensures CameTo(ks, Forward(ks, n), n)
  {
    if n > 0 {
      ForwardHolds(ks, n - 1);
      HandUp(ks, Forward(ks, n - 1), n);
    }
  }

  lemma HandUp(ks: seq<Knowledge>, r: seq<Knowledge>, n: nat)
    requires 0 < n && CameTo(ks, r, n - 1) && n < |ks|
    ensures CameTo(ks, Exchange(r, n - 1, n), n)
  {
    ExchangeAgrees(r, n - 1, n);
  }

  /** Whoever is at `i` or above holds all the facts, those below are as they were. */
  predicate Spread(ks: seq<Knowledge>, r: seq<Knowledge>, i: nat, all: Facts) {
    && |r| == |ks| && i <= |ks|
    && (forall k :: i <= k < |ks| ==> FactsOf(r[k]) == all)
    && (forall k :: 0 <= k < i ==> r[k] == ks[k])
  }

  lemma {:induction false} BackwardHolds(ks: seq<Knowledge>, n: nat, i: nat, all: Facts)
    requires i <= n < |ks| && Spread(ks, ks, n, all)
    requires forall k :: 0 <= k < n ==> Covers(all, FactsOf(ks[k]))
    ensures Spread(ks, BackwardTo(ks, n, i), i, all)
    decreases n - i
  {
    if i < n {
      BackwardHolds(ks, n, i + 1, all);
      HandDown(ks, BackwardTo(ks, n, i + 1), i, all);
    }
  }

  /** Who has all the facts keeps them and passes them on. */
  lemma HandDown(ks: seq<Knowledge>, r: seq<Knowledge>, i: nat, all: Facts)
    requires i + 1 < |ks| && Spread(ks, r, i + 1, all) && Covers(all, FactsOf(ks[i]))
    ensures Spread(ks, Exchange(r, i + 1, i), i, all)
  {
    var r' := Exchange(r, i + 1, i);
    ExchangeAgrees(r, i + 1, i);
    AgreedCovered(all, FactsOf(ks[i]), FactsOf(r'[i]));
    AgreedCovered(all, FactsOf(ks[i]), FactsOf(r'[i + 1]));
  }

  lemma AgreedCovered(strong: Facts, weak: Facts, both: Facts)
    requires Agreed(strong, weak, both) && Covers(strong, weak)
    ensures both == strong
  {
    UnderCovered(weak, strong);
  }

  /**
   For any number of nodes and any initial views, the chain there and back leaves every node with the same ids, the
   same status for each and the same registry: the override fold with node 0 strongest.
   */
  lemma ChainConverges(ks: seq<Knowledge>)
    requires |ks| > 0
    ensures forall k :: 0 <= k < |ks| ==> FactsOf(Chained(ks)[k]) == Combined(ks, |ks| - 1)
  {
    var n := |ks| - 1;
    ForwardHolds(ks, n);
    ForwardCovered(ks);
    BackwardHolds(Forward(ks, n), n, 0, Combined(ks, n));
  }

  lemma ForwardCovered(ks: seq<Knowledge>)
    requires |ks| > 0
    ensures var n := |ks| - 1;
            forall k :: 0 <= k < n ==> Covers(Combined(ks, n), FactsOf(Forward(ks, n)[k]))
  {
    var n := |ks| - 1;
    ForwardHolds(ks, n);
    forall k | 0 <= k < n
      ensures Covers(Combined(ks, n), FactsOf(Forward(ks, n)[k]))
    {
      CombinedCovers(ks, k + 1, n);
    }
  }

  /** In particular everyone then knows whatever anyone knew, themselves included. */
  lemma ChainReachesAll(ks: seq<Knowledge>, i: nat, j: nat, id: NodeId)
    requires i < |ks| && j < |ks| && id in ks[j].members
    ensures id in Chained(ks)[i].members
  {
    ChainConverges(ks);
    CombinedCovers(ks, j, |ks| - 1);
    assert id in FactsOf(ks[j]).statuses;
    assert id in FactsOf(Chained(ks)[i]).statuses;
  }

  // ---------- Whole records ----------

  predicate Files(k: Knowledge, id: NodeId, status: NodeStatus) {
    id in k.members && k.members[id].status == status
  }

  predicate DrawnFrom(ks: seq<Knowledge>, record: Node, id: NodeId, status: NodeStatus) {
    exists h :: 0 <= h < |ks| && Files(ks[h], id, status) && ks[h].members[id] == record
  }

  /** A node that filed `id` under `status` still has that record, and one under it is a record somebody had. */
  predicate LoyalNode(ks: seq<Knowledge>, was: Knowledge, now: Knowledge, id: NodeId, status: NodeStatus) {
    && (Files(was, id, status) ==> id in now.members && now.members[id] == was.members[id])
    && (Files(now, id, status) ==> DrawnFrom(ks, now.members[id], id, status))
  }

  predicate Loyal(ks: seq<Knowledge>, r: seq<Knowledge>, id: NodeId, status: NodeStatus) {
    |r| == |ks| && forall k :: 0 <= k < |ks| ==> LoyalNode(ks, ks[k], r[k], id, status)
  }

  /** An exchange that pushes no other status replaces no record under this one. */
  lemma ExchangeLoyal(ks: seq<Knowledge>, r: seq<Knowledge>, i: nat, j: nat, id: NodeId, status: NodeStatus)
    requires Loyal(ks, r, id, status) && i < |r| && j < |r| && i != j
    requires id in r[i].members ==> r[i].members[id].status == status
    requires id !in r[i].members && id in r[j].members ==> r[j].members[id].status == status
    ensures Loyal(ks, Exchange(r, i, j), id, status)
  {
    assert LoyalNode(ks, ks[i], r[i], id, status) && LoyalNode(ks, ks[j], r[j], id, status);
    forall k | 0 <= k < |ks|
      ensures LoyalNode(ks, ks[k], Exchange(r, i, j)[k], id, status)
    {
      assert k != i && k != j ==> LoyalNode(ks, ks[k], r[k], id, status);
    }
  }

  lemma {:induction false} CombinedIsFirm(ks: seq<Knowledge>, m: nat, n: nat, id: NodeId)
    requires m <= n < |ks| && id in Combined(ks, m).statuses
    ensures id in Combined(ks, n).statuses && Combined(ks, n).statuses[id] == Combined(ks, m).statuses[id]
    decreases n
  {
    if m < n {
      CombinedIsFirm(ks, m, n - 1, id);
    }
  }

  lemma FactsFile(k: Knowledge, id: NodeId)
    ensures id in FactsOf(k).statuses <==> id in k.members
    ensures id in k.members ==> FactsOf(k).statuses[id] == k.members[id].status
  {
  }

  /** On the way there nothing is pushed but the status that prevails. */
  lemma ForwardPushes(ks: seq<Knowledge>, r: seq<Knowledge>, n: nat, id: NodeId, status: NodeStatus)
    requires 0 < n < |ks| && |r| == |ks| && FactsOf(r[n - 1]) == Combined(ks, n - 1) && r[n] == ks[n]
    requires id in Combined(ks, n).statuses ==> Combined(ks, n).statuses[id] == status
    ensures id in Combined(ks, n - 1).statuses ==> Combined(ks, n - 1).statuses[id] == status
    ensures id in r[n - 1].members ==> r[n - 1].members[id].status == status
    ensures id !in r[n - 1].members && id in r[n].members ==> r[n].members[id].status == status
  {
    if id in Combined(ks, n - 1).statuses {
      CombinedIsFirm(ks, n - 1, n, id);
    }
    FactsFile(r[n - 1], id);
    FactsFile(ks[n], id);
  }

  lemma ForwardReady(ks: seq<Knowledge>, n: nat)
    requires 0 < n < |ks|
    ensures FactsOf(Forward(ks, n - 1)[n - 1]) == Combined(ks, n - 1) && Forward(ks, n - 1)[n] == ks[n]
  {
    ForwardHolds(ks, n - 1);
  }

  lemma {:induction false} ForwardLoyal(ks: seq<Knowledge>, n: nat, id: NodeId, status: NodeStatus)
    requires n < |ks| && (id in Combined(ks, n).statuses ==> Combined(ks, n).statuses[id] == status)
    ensures Loyal(ks, Forward(ks, n), id, status)
  {
    if n > 0 {
      ForwardReady(ks, n);
      ForwardPushes(ks, Forward(ks, n - 1), n, id, status);
      ForwardLoyal(ks, n - 1, id, status);
      ExchangeLoyal(ks, Forward(ks, n - 1), n - 1, n, id, status);
    }
  }

  predicate HandsOn(there: seq<Knowledge>, n: nat, i: nat, id: NodeId, status: NodeStatus)
    requires i <= n < |there|
  {
    Files(BackwardTo(there, n, i)[i], id, status)
  }

  /** On the way back nothing is pushed but the status that prevails. */
  lemma BackwardPushes(there: seq<Knowledge>, n: nat, i: nat, all: Facts, id: NodeId)
    requires i <= n < |there| && Spread(there, there, n, all) && id in all.statuses
    requires forall k :: 0 <= k < n ==> Covers(all, FactsOf(there[k]))
    ensures HandsOn(there, n, i, id, all.statuses[id])
  {
    BackwardHolds(there, n, i, all);
    FactsFile(BackwardTo(there, n, i)[i], id);
  }

  lemma {:induction false} BackwardLoyal(
    ks: seq<Knowledge>, there: seq<Knowledge>, n: nat, i: nat, id: NodeId, status: NodeStatus)
    returns (r: seq<Knowledge>)
    requires i <= n < |there| && Loyal(ks, there, id, status)
    requires forall k :: 0 < k <= n ==> HandsOn(there, n, k, id, status)
    ensures r == BackwardTo(there, n, i) && Loyal(ks, r, id, status)
    decreases n - i
  {
    r := there;
    if i < n {
      var above := BackwardLoyal(ks, there, n, i + 1, id, status);
      assert HandsOn(there, n, i + 1, id, status);
      r := PassLoyal(ks, above, i, id, status);
    }
  }

  lemma PassLoyal(ks: seq<Knowledge>, above: seq<Knowledge>, i: nat, id: NodeId, status: NodeStatus)
    returns (r: seq<Knowledge>)
    requires Loyal(ks, above, id, status) && i + 1 < |above| && Files(above[i + 1], id, status)
    ensures r == Exchange(above, i + 1, i) && Loyal(ks, r, id, status)
  {
    ExchangeLoyal(ks, above, i + 1, i, id, status);
    r := Exchange(above, i + 1, i);
  }

  /** After the chain: who filed an id under the status that prevails keeps the record, others have one of theirs. */
  lemma ChainLoyal(ks: seq<Knowledge>, id: NodeId)
    requires |ks| > 0 && id in Combined(ks, |ks| - 1).statuses
    ensures Loyal(ks, Chained(ks), id, Combined(ks, |ks| - 1).statuses[id])
    ensures forall k :: 0 <= k < |ks| ==> Files(Chained(ks)[k], id, Combined(ks, |ks| - 1).statuses[id])
  {
    var n := |ks| - 1;
    var status := Combined(ks, n).statuses[id];
    ForwardLoyal(ks, n, id, status);
    ForwardHandsOn(ks, id);
    var r := BackwardLoyal(ks, Forward(ks, n), n, 0, id, status);
    ChainConverges(ks);
    forall k | 0 <= k < |ks|
      ensures Files(Chained(ks)[k], id, status)
    {
      FactsFile(Chained(ks)[k], id);
    }
  }

  lemma ForwardHandsOn(ks: seq<Knowledge>, id: NodeId)
    requires |ks| > 0 && id in Combined(ks, |ks| - 1).statuses
    ensures var n := |ks| - 1;
            forall k :: 0 < k <= n ==> HandsOn(Forward(ks, n), n, k, id, Combined(ks, n).statuses[id])
  {
    var n := |ks| - 1;
    var there, all := Forward(ks, n), Combined(ks, n);
    ForwardCovered(ks);
    ForwardHolds(ks, n);
    forall k | 0 < k <= n
      ensures HandsOn(there, n, k, id, all.statuses[id])
    {
      BackwardPushes(there, n, k, all, id);
    }
  }

  /** For each id, all nodes that file it under the status that will prevail file the same record. */
  ghost predicate FiledAlike(ks: seq<Knowledge>)
    requires |ks| > 0
  {
    var all := Combined(ks, |ks| - 1).statuses;
    forall id, a, b :: id in all && 0 <= a < |ks| && 0 <= b < |ks|
                       && Files(ks[a], id, all[id]) && Files(ks[b], id, all[id]) ==>
      ks[a].members[id] == ks[b].members[id]
  }

  ghost predicate SameRecords(r: seq<Knowledge>) {
    forall a, b :: 0 <= a < |r| && 0 <= b < |r| ==> r[a].members == r[b].members
  }

  /** After the chain there and back whole records agree, addresses included, exactly when they were filed alike. */
  lemma ChainRecordsAgreeIff(ks: seq<Knowledge>)
    requires |ks| > 0
    ensures SameRecords(Chained(ks)) <==> FiledAlike(ks)
  {
    if FiledAlike(ks) {
      forall a, b | 0 <= a < |ks| && 0 <= b < |ks|
        ensures Chained(ks)[a].members == Chained(ks)[b].members
      {
        SameFromAlike(ks, a, b);
      }
    }
    if SameRecords(Chained(ks)) {
      var all := Combined(ks, |ks| - 1).statuses;
      forall id, a, b | id in all && 0 <= a < |ks| && 0 <= b < |ks|
                        && Files(ks[a], id, all[id]) && Files(ks[b], id, all[id])
        ensures ks[a].members[id] == ks[b].members[id]
      {
        ChainLoyal(ks, id);
        assert Chained(ks)[a].members == Chained(ks)[b].members;
      }
    }
  }

  lemma SameFromAlike(ks: seq<Knowledge>, a: nat, b: nat)
    requires a < |ks| && b < |ks| && FiledAlike(ks)
    ensures Chained(ks)[a].members == Chained(ks)[b].members
  {
    var r := Chained(ks);
    var all := Combined(ks, |ks| - 1).statuses;
    ChainConverges(ks);
    assert FactsOf(r[a]).statuses == all == FactsOf(r[b]).statuses;
    forall id | id in all
      ensures id in r[a].members && id in r[b].members && r[a].members[id] == r[b].members[id]
    {
      ChainLoyal(ks, id);
      assert DrawnFrom(ks, r[a].members[id], id, all[id]) && DrawnFrom(ks, r[b].members[id], id, all[id]);
    }
    assert r[a].members.Keys == all.Keys == r[b].members.Keys;
  }

  // ---------- The chain on the nodes themselves ----------

  function AllKnown(nodes: seq<ClusterNode>): (ks: seq<Knowledge>)
    reads nodes
    ensures |ks| == |nodes| && forall i :: 0 <= i < |nodes| ==> ks[i] == nodes[i].Known()
  {
    seq(|nodes|, i reads nodes requires 0 <= i < |nodes| => nodes[i].Known())
  }

  ghost predicate Separate(nodes: seq<ClusterNode>)
    reads nodes
  {
    && (forall i, j :: 0 <= i < j < |nodes| ==> nodes[i] != nodes[j])
    && (forall i :: 0 <= i < |nodes| ==> nodes[i].Valid())
  }

  /** One exchange between two of the nodes is `Exchange` on what they all know. */
  method GossipBetween(nodes: seq<ClusterNode>, i: nat, j: nat, now: Instant)
    requires Separate(nodes) && i < |nodes| && j < |nodes| && i != j
    modifies nodes
    ensures Separate(nodes)
    ensures AllKnown(nodes) == Exchange(old(AllKnown(nodes)), i, j)
  {
    ghost var before := AllKnown(nodes);
    nodes[i].SendGossipTo(nodes[j], now, now);
    assert forall k :: 0 <= k < |nodes| && k != i && k != j ==> nodes[k].Known() == before[k];
    assert AllKnown(nodes) == Exchange(before, i, j);
  }

  method ForwardStep(nodes: seq<ClusterNode>, i: nat, now: Instant, ghost ks: seq<Knowledge>)
    requires Separate(nodes) && |ks| == |nodes| && i + 1 < |nodes|
    requires AllKnown(nodes) == Forward(ks, i)
    modifies nodes
    ensures Separate(nodes) && AllKnown(nodes) == Forward(ks, i + 1)
  {
    GossipBetween(nodes, i, i + 1, now);
  }

  method BackwardStep(nodes: seq<ClusterNode>, i: nat, now: Instant, ghost ks: seq<Knowledge>)
    requires Separate(nodes) && |ks| == |nodes| && i + 1 < |nodes|
    requires AllKnown(nodes) == BackwardTo(ks, |ks| - 1, i + 1)
    modifies nodes
    ensures Separate(nodes) && AllKnown(nodes) == BackwardTo(ks, |ks| - 1, i)
  {
    GossipBetween(nodes, i + 1, i, now);
  }

  /** The schedule there and back, run on the nodes themselves, is `Forward` and then `Backward`. */
  method GossipChain(nodes: seq<ClusterNode>, now: Instant)
    requires Separate(nodes) && |nodes| > 0
    modifies nodes
    ensures Separate(nodes)
    ensures AllKnown(nodes) == Chained(old(AllKnown(nodes)))
  {
    ghost var ks := AllKnown(nodes);
    for i := 0 to |nodes| - 1
      invariant Separate(nodes) && AllKnown(nodes) == Forward(ks, i)
    {
      ForwardStep(nodes, i, now, ks);
    }
    ghost var there := AllKnown(nodes);
    for i := |nodes| - 1 downto 0
      invariant Separate(nodes) && AllKnown(nodes) == BackwardTo(there, |nodes| - 1, i)
    {
      BackwardStep(nodes, i, now, there);
    }
  }

  /** Hence after the schedule the nodes agree. */
  method GossipAgreement(nodes: seq<ClusterNode>, now: Instant)
    requires Separate(nodes) && |nodes| > 0
    modifies nodes
    ensures Separate(nodes)
    ensures forall i :: 0 <= i < |nodes| ==> Holds(nodes[i].Known(), Combined(old(AllKnown(nodes)), |nodes| - 1))
  {
    ghost var ks := AllKnown(nodes);
    GossipChain(nodes, now);
    forall i | 0 <= i < |nodes|
      ensures Holds(nodes[i].Known(), Combined(ks, |nodes| - 1))
    {
      assert nodes[i].Known() == AllKnown(nodes)[i];
      ChainHolds(ks, i);
    }
  }

  /** Addresses need not converge: two nodes given different addresses for a third keep them through the whole chain. */
  method AddressesMayDiffer(now: Instant) returns (a: ClusterNode, b: ClusterNode)
    ensures fresh(a) && fresh(b) && Separate([a, b]) && a.id != b.id
    ensures "c" in a.members && "c" in b.members && a.members["c"].addr == "host:1" && b.members["c"].addr == "host:2"
    ensures a.members["c"].status == b.members["c"].status == Up
  {
    a := Started("a", Node("c", "host:1", Up), now);
    b := Started("b", Node("c", "host:2", Up), now);
    ghost var ks := AllKnown([a, b]);
    GossipChain([a, b], now);
    assert AllKnown([a, b])[0] == a.Known() && AllKnown([a, b])[1] == b.Known();
    KeepsOwn(ks, "c");
  }

  method Started(id: NodeId, peer: Node, now: Instant) returns (n: ClusterNode)
    ensures fresh(n) && n.Valid() && n.id == id && peer.id in n.members && n.members[peer.id] == peer
  {
    n := new ClusterNode(id, "host:7", now);
    n.AddMember(peer, now);
  }

  lemma KeepsOwn(ks: seq<Knowledge>, id: NodeId)
    requires |ks| == 2 && Files(ks[0], id, Up) && Files(ks[1], id, Up)
    ensures forall k :: 0 <= k < 2 ==> id in Chained(ks)[k].members && Chained(ks)[k].members[id] == ks[k].members[id]
  {
    assert Combined(ks, 0).statuses[id] == Up;
    CombinedIsFirm(ks, 0, 1, id);
    ChainLoyal(ks, id);
  }

  predicate Holds(k: Knowledge, f: Facts) {
    FactsOf(k) == f
  }

  lemma ChainHolds(ks: seq<Knowledge>, i: nat)
    requires i < |ks|
    ensures Holds(Chained(ks)[i], Combined(ks, |ks| - 1))
  {
    ChainConverges(ks);
  }

  // ---------- Any schedule ----------

  /** A contact: who pushes and to whom. */
  datatype Contact = Contact(from: nat, to: nat)

  predicate Fits(schedule: seq<Contact>, n: nat) {
    forall t :: 0 <= t < |schedule| ==> schedule[t].from < n && schedule[t].to < n
  }

  function After(ks: seq<Knowledge>, schedule: seq<Contact>): (r: seq<Knowledge>)
    requires Fits(schedule, |ks|)
    ensures |r| == |ks|
  {
    if schedule == [] then ks
    else
      var last := schedule[|schedule| - 1];
      Exchange(After(ks, schedule[..|schedule| - 1]), last.from, last.to)
  }

  predicate Joins(c: Contact, x: nat, y: nat) {
    (c.from == x && c.to == y) || (c.from == y && c.to == x)
  }

  /** A way for news to travel from `u` to `v`: hop by hop, over contacts that come one after the other. */
  ghost predicate Journey(schedule: seq<Contact>, u: nat, v: nat, stops: seq<nat>, times: seq<nat>) {
    && |stops| == |times| + 1
    && stops[0] == u && stops[|times|] == v
    && (forall k :: 0 <= k < |times| ==> times[k] < |schedule|)
    && (forall k, l :: 0 <= k < l < |times| ==> times[k] < times[l])
    && (forall k :: 0 <= k < |times| ==> Joins(schedule[times[k]], stops[k], stops[k + 1]))
  }

  ghost predicate Reaches(schedule: seq<Contact>, u: nat, v: nat) {
    exists stops, times :: Journey(schedule, u, v, stops, times)
  }

  lemma HopNeedsContact(schedule: seq<Contact>, u: nat, v: nat, stops: seq<nat>, times: seq<nat>)
    requires Journey(schedule, u, v, stops, times)
    ensures |times| > 0 ==> |schedule| > 0
  {
    assert |times| > 0 ==> times[0] < |schedule|;
  }

  lemma StayIsJourney(schedule: seq<Contact>, u: nat)
    ensures Reaches(schedule, u, u)
  {
    assert Journey(schedule, u, u, [u], []);
  }

  /** A longer schedule keeps every journey. */
  lemma JourneyGrows(schedule: seq<Contact>, c: Contact, u: nat, v: nat)
    requires Reaches(schedule, u, v)
    ensures Reaches(schedule + [c], u, v)
  {
    var stops, times :| Journey(schedule, u, v, stops, times);
    assert Journey(schedule + [c], u, v, stops, times);
  }

  /** The last contact carries what reached one end to the other. */
  lemma JourneyHops(schedule: seq<Contact>, c: Contact, u: nat, x: nat, y: nat)
    requires Reaches(schedule, u, x) && Joins(c, x, y)
    ensures Reaches(schedule + [c], u, y)
  {
    var stops, times :| Journey(schedule, u, x, stops, times);
    var now: nat := |schedule|;
    var stops' := stops + [y];
    var times' := times + [now];
    forall k | 0 <= k < |times'|
      ensures times'[k] < |schedule| + 1 && Joins((schedule + [c])[times'[k]], stops'[k], stops'[k + 1])
    {
      if k < |times| {
        assert times'[k] == times[k] && stops'[k] == stops[k] && stops'[k + 1] == stops[k + 1];
      }
    }
    assert Journey(schedule + [c], u, y, stops', times');
  }

  /** And it carries nothing else. */
  lemma JourneySplits(schedule: seq<Contact>, c: Contact, u: nat, v: nat)
    requires Reaches(schedule + [c], u, v)
    ensures Reaches(schedule, u, v) || exists x :: Joins(c, x, v) && Reaches(schedule, u, x)
  {
    var whole := schedule + [c];
    var stops, times :| Journey(whole, u, v, stops, times);
    var n := |times|;
    if n > 0 && times[n - 1] == |schedule| {
      var x := stops[n - 1];
      assert Joins(whole[times[n - 1]], x, stops[n - 1 + 1]);
      forall k | 0 <= k < n - 1
        ensures times[k] < |schedule|
      {
        assert times[k] < times[n - 1];
      }
      assert Journey(schedule, u, x, stops[..n], times[..n - 1]);
      assert Reaches(schedule, u, x) && Joins(c, x, v);
    } else {
      forall k | 0 <= k < n
        ensures times[k] < |schedule|
      {
        assert k < n - 1 ==> times[k] < times[n - 1];
      }
      assert Journey(schedule, u, v, stops, times);
    }
  }

  /** An exchange leaves both ends with the union of what they knew, and no one else with anything new. */
  lemma ExchangeUnites(ks: seq<Knowledge>, i: nat, j: nat, v: nat)
    requires i < |ks| && j < |ks| && v < |ks|
    ensures var r := Exchange(ks, i, j);
            && (v == i || v == j ==>
                  r[v].members.Keys == ks[i].members.Keys + ks[j].members.Keys
                  && r[v].registry.Keys == ks[i].registry.Keys + ks[j].registry.Keys)
            && (v != i && v != j ==> r[v] == ks[v])
  {
  }

  /**
   What a node knows after any schedule of exchanges: exactly the ids, and the actors, that were initially known to
   some node with a journey to it. Nothing is lost and nothing appears.
   */
  lemma {:induction false} KnowledgeTravels(
    ks: seq<Knowledge>, schedule: seq<Contact>, v: nat, id: NodeId, a: ActorName)
    requires Fits(schedule, |ks|) && v < |ks|
    ensures id in After(ks, schedule)[v].members <==>
              exists u :: 0 <= u < |ks| && id in ks[u].members && Reaches(schedule, u, v)
    ensures a in After(ks, schedule)[v].registry <==>
              exists u :: 0 <= u < |ks| && a in ks[u].registry && Reaches(schedule, u, v)
    decreases |schedule|
  {
    if schedule == [] {
      StayIsJourney(schedule, v);
      forall u | Reaches(schedule, u, v)
        ensures u == v
      {
        var stops, times :| Journey(schedule, u, v, stops, times);
        HopNeedsContact(schedule, u, v, stops, times);
      }
    } else {
      var t := |schedule| - 1;
      var front, c := schedule[..t], schedule[t];
      assert schedule == front + [c];
      ExchangeUnites(After(ks, front), c.from, c.to, v);
      forall x | 0 <= x < |ks|
        ensures id in After(ks, front)[x].members <==>
                  exists u :: 0 <= u < |ks| && id in ks[u].members && Reaches(front, u, x)
        ensures a in After(ks, front)[x].registry <==>
                  exists u :: 0 <= u < |ks| && a in ks[u].registry && Reaches(front, u, x)
      {
        KnowledgeTravels(ks, front, x, id, a);
      }
      ReachSteps(front, c, |ks|, v);
    }
  }

  /** Reaching `v` over one more contact: as before, or through the other end of it. */
  lemma ReachSteps(front: seq<Contact>, c: Contact, n: nat, v: nat)
    requires c.from < n && c.to < n && v < n
    ensures forall u :: Reaches(front + [c], u, v) <==>
              || Reaches(front, u, v)
              || (v == c.from && Reaches(front, u, c.to)) || (v == c.to && Reaches(front, u, c.from))
  {
    forall u
      ensures Reaches(front + [c], u, v) <==>
                || Reaches(front, u, v)
                || (v == c.from && Reaches(front, u, c.to)) || (v == c.to && Reaches(front, u, c.from))
    {
      if Reaches(front + [c], u, v) {
        JourneySplits(front, c, u, v);
      }
      if Reaches(front, u, v) {
        JourneyGrows(front, c, u, v);
      }
      if v == c.from && Reaches(front, u, c.to) {
        JourneyHops(front, c, u, c.to, v);
      }
      if v == c.to && Reaches(front, u, c.from) {
        JourneyHops(front, c, u, c.from, v);
      }
    }
  }
}
