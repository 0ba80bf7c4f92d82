/** Membership views, gossip messages and what merging, detecting and purging mean for them. */
module Membership {
  import opened Basics

  type NodeId = string
  type ActorName = string

  datatype NodeStatus = Up | Suspect | Down

  datatype Node = Node(id: NodeId, addr: string, status: NodeStatus)

  /** The wire form of a node; `status` is a protobuf enum, so any integer can arrive. */
  datatype NodeInfo = NodeInfo(id: NodeId, addr: string, status: int)

  datatype ActorLocation = ActorLocation(actor: ActorName, node: NodeId, kind: string)

  datatype Gossip = Gossip(members: seq<NodeInfo>, actors: seq<ActorLocation>)

  datatype Location = Location(node: NodeId, kind: string)

  type Members = map<NodeId, Node>
  type Beats = map<NodeId, Instant>
  type Registry = map<ActorName, Location>

  datatype View = View(members: Members, beats: Beats, registry: Registry)

  function ToInfo(n: Node): NodeInfo {
    NodeInfo(n.id, n.addr, match n.status case Up => 0 case Suspect => 1 case Down => 2)
  }

  function FromInfo(i: NodeInfo): Node {
    Node(i.id, i.addr, if i.status == 0 then Up else if i.status == 1 then Suspect else Down)
  }

  /** Nodes survive the wire, and an info survives unless its status code was unknown. */
  lemma InfoRoundTrip(n: Node, i: NodeInfo)
    ensures FromInfo(ToInfo(n)) == n
    ensures ToInfo(FromInfo(i)) == i <==> 0 <= i.status <= 2
    ensures ToInfo(n).status == match n.status case Up => 0 case Suspect => 1 case Down => 2
    ensures !(0 <= i.status <= 2) ==> FromInfo(i) == Node(i.id, i.addr, Down)
  {
  }

  // ---------- Merging gossip, entry by entry as it arrives ----------

  /** A record is taken when the id is new or the status differs; otherwise nothing changes, not even the address. */
  function MergeNode(ms: Members, n: Node): Members {
    if n.id in ms && ms[n.id].status == n.status then ms else ms[n.id := n]
  }

  function MergeInfos(ms: Members, infos: seq<NodeInfo>): Members {
    if infos == [] then ms
    else MergeNode(MergeInfos(ms, infos[..|infos| - 1]), FromInfo(infos[|infos| - 1]))
  }

  function MergeActors(reg: Registry, locs: seq<ActorLocation>): Registry {
    if locs == [] then reg
    else
      var l := locs[|locs| - 1];
      MergeActors(reg, locs[..|locs| - 1])[l.actor := Location(l.node, l.kind)]
  }

  function InfoIds(infos: seq<NodeInfo>): set<NodeId> {
    set i | 0 <= i < |infos| :: infos[i].id
  }

  function Hosts(reg: Registry): set<NodeId> {
    set a | a in reg :: reg[a].node
  }

  function LocationHosts(locs: seq<ActorLocation>): set<NodeId> {
    set i | 0 <= i < |locs| :: locs[i].node
  }

  /** Every record is filed under its own id. */
  predicate Keyed(ms: Members) {
    forall id :: id in ms ==> ms[id].id == id
  }

  lemma {:induction false} MergeInfosIds(ms: Members, infos: seq<NodeInfo>)
    ensures MergeInfos(ms, infos).Keys == ms.Keys + InfoIds(infos)
    ensures Keyed(ms) ==> Keyed(MergeInfos(ms, infos))
  {
    if infos == [] {
    } else {
      var n := |infos| - 1;
      MergeInfosIds(ms, infos[..n]);
      assert InfoIds(infos) == InfoIds(infos[..n]) + {infos[n].id};
    }
  }

  /** Every merged record was there before or was carried by the gossip. */
  lemma {:induction false} MergeInfosSource(ms: Members, infos: seq<NodeInfo>, id: NodeId)
    requires id in MergeInfos(ms, infos)
    ensures (id in ms && MergeInfos(ms, infos)[id] == ms[id])
            || exists i :: 0 <= i < |infos| && FromInfo(infos[i]) == MergeInfos(ms, infos)[id]
  {
    if infos == [] {
    } else {
      var n := |infos| - 1;
      var front := infos[..n];
      var node := MergeInfos(ms, infos)[id];
      if id in MergeInfos(ms, front) && MergeInfos(ms, front)[id] == node {
        MergeInfosSource(ms, front, id);
        if !(id in ms && node == ms[id]) {
          var i :| 0 <= i < |front| && FromInfo(front[i]) == node;
          assert infos[i] == front[i];
        }
      } else {
        assert FromInfo(infos[n]) == node;
      }
    }
  }

  lemma {:induction false} MergeActorsSource(reg: Registry, locs: seq<ActorLocation>, a: ActorName)
    requires a in MergeActors(reg, locs)
    ensures (a in reg && MergeActors(reg, locs)[a] == reg[a])
            || exists i :: 0 <= i < |locs| && locs[i].actor == a
                           && Location(locs[i].node, locs[i].kind) == MergeActors(reg, locs)[a]
  {
    if locs == [] {
    } else {
      var n := |locs| - 1;
      var front := locs[..n];
      if locs[n].actor != a {
        MergeActorsSource(reg, front, a);
        if !(a in reg && MergeActors(reg, front)[a] == reg[a]) {
          var i :| 0 <= i < |front| && front[i].actor == a
                   && Location(front[i].node, front[i].kind) == MergeActors(reg, front)[a];
          assert locs[i] == front[i];
        }
      }
    }
  }

  // ---------- Gossip made from a view ----------

  /** `infos` lists the records of `ms`, each once, in some order (hash maps promise none). */
  ghost predicate ListsMembers(infos: seq<NodeInfo>, ms: Members) {
    && (forall i, j :: 0 <= i < j < |infos| ==> infos[i].id != infos[j].id)
    && (forall i :: 0 <= i < |infos| ==> infos[i].id in ms && infos[i] == ToInfo(ms[infos[i].id]))
    && InfoIds(infos) == ms.Keys
  }

  function LocationActors(locs: seq<ActorLocation>): set<ActorName> {
    set i | 0 <= i < |locs| :: locs[i].actor
  }

  ghost predicate ListsActors(locs: seq<ActorLocation>, reg: Registry) {
    && (forall i, j :: 0 <= i < j < |locs| ==> locs[i].actor != locs[j].actor)
    && (forall i :: 0 <= i < |locs| ==>
          locs[i].actor in reg && Location(locs[i].node, locs[i].kind) == reg[locs[i].actor])
    && LocationActors(locs) == reg.Keys
  }

  ghost predicate GossipOf(g: Gossip, v: View) {
    ListsMembers(g.members, v.members) && ListsActors(g.actors, v.registry)
  }

  /** What merging a whole view `g` into `ms` amounts to, id by id. */
  function Override(ms: Members, g: Members): Members {
    map id | id in ms.Keys + g.Keys ::
      if id !in g || (id in ms && ms[id].status == g[id].status) then ms[id] else g[id]
  }

  /** The two things every node has to agree on: who is a member with what status. */
  function Statuses(ms: Members): map<NodeId, NodeStatus> {
    map id | id in ms :: ms[id].status
  }

  /** The loop over gossiped members computes `Override`, whatever order they were listed in. */
  lemma MergeInfosIsOverride(ms: Members, g: Members, infos: seq<NodeInfo>)
    requires ListsMembers(infos, g) && Keyed(g)
    ensures MergeInfos(ms, infos) == Override(ms, g)
    ensures Statuses(MergeInfos(ms, infos)) == Statuses(ms) + Statuses(g)
  {
    MergeInfosIds(ms, infos);
    var r := MergeInfos(ms, infos);
    forall id | id in r
      ensures r[id] == Override(ms, g)[id]
    {
      if id in g {
        assert id in InfoIds(infos);
        var k :| 0 <= k < |infos| && infos[k].id == id;
        MergeDistinctAt(ms, infos, k);
        InfoRoundTrip(g[id], infos[k]);
      } else {
        MergeUntouched(ms, infos, id);
      }
    }
  }

  /** With distinct ids the entry at `k` alone decides what happens to its id. */
  lemma {:induction false} MergeDistinctAt(ms: Members, infos: seq<NodeInfo>, k: nat)
    requires k < |infos|
    requires forall i, j :: 0 <= i < j < |infos| ==> infos[i].id != infos[j].id
    ensures infos[k].id in MergeInfos(ms, infos)
    ensures MergeInfos(ms, infos)[infos[k].id] == MergeNode(ms, FromInfo(infos[k]))[infos[k].id]
  {
    var n := |infos| - 1;
    if k == n {
      MergeUntouched(ms, infos[..n], infos[k].id);
    } else {
      MergeDistinctAt(ms, infos[..n], k);
    }
  }

  lemma {:induction false} MergeUntouched(ms: Members, infos: seq<NodeInfo>, id: NodeId)
    requires id !in InfoIds(infos)
    ensures id in MergeInfos(ms, infos) <==> id in ms
    ensures id in ms ==> MergeInfos(ms, infos)[id] == ms[id]
  {
    if infos != [] {
      var n := |infos| - 1;
      assert infos[n].id in InfoIds(infos);
      assert InfoIds(infos) == InfoIds(infos[..n]) + {infos[n].id};
      MergeUntouched(ms, infos[..n], id);
    }
  }

  lemma {:induction false} MergeActorsUntouched(reg: Registry, locs: seq<ActorLocation>, a: ActorName)
    requires a !in LocationActors(locs)
    ensures a in MergeActors(reg, locs) <==> a in reg
    ensures a in reg ==> MergeActors(reg, locs)[a] == reg[a]
  {
    if locs != [] {
      var n := |locs| - 1;
      assert locs[n].actor in LocationActors(locs);
      assert LocationActors(locs) == LocationActors(locs[..n]) + {locs[n].actor};
      MergeActorsUntouched(reg, locs[..n], a);
    }
  }

  lemma {:induction false} MergeActorsAt(reg: Registry, locs: seq<ActorLocation>, k: nat)
    requires k < |locs|
    requires forall i, j :: 0 <= i < j < |locs| ==> locs[i].actor != locs[j].actor
    ensures locs[k].actor in MergeActors(reg, locs)
    ensures MergeActors(reg, locs)[locs[k].actor] == Location(locs[k].node, locs[k].kind)
  {
    var n := |locs| - 1;
    if k != n {
      MergeActorsAt(reg, locs[..n], k);
    }
  }

  /** Merging a listed registry is a right-biased map override, whatever the order of the list. */
  lemma MergeActorsIsOverride(reg: Registry, g: Registry, locs: seq<ActorLocation>)
    requires ListsActors(locs, g)
    ensures MergeActors(reg, locs) == reg + g
  {
    var r := MergeActors(reg, locs);
    forall a
      ensures a in r <==> a in reg + g
      ensures a in r ==> r[a] == (reg + g)[a]
    {
      if a in g {
        assert a in LocationActors(locs);
        var k :| 0 <= k < |locs| && locs[k].actor == a;
        MergeActorsAt(reg, locs, k);
      } else {
        MergeActorsUntouched(reg, locs, a);
      }
    }
  }

  lemma ListedHosts(locs: seq<ActorLocation>, reg: Registry)
    requires ListsActors(locs, reg)
    ensures LocationHosts(locs) == Hosts(reg)
  {
    forall n | n in Hosts(reg)
      ensures n in LocationHosts(locs)
    {
      var a :| a in reg && reg[a].node == n;
      assert a in LocationActors(locs);
    }
  }

  /** What gossiped locations do to a registry depends on the locations alone: a right-biased union. */
  lemma {:induction false} MergeActorsAdds(reg: Registry, locs: seq<ActorLocation>)
    ensures MergeActors(reg, locs) == reg + MergeActors(map[], locs)
  {
    if locs != [] {
      MergeActorsAdds(reg, locs[..|locs| - 1]);
    }
  }

  lemma MergeActorsHosts(reg: Registry, locs: seq<ActorLocation>)
    ensures Hosts(MergeActors(reg, locs)) <= Hosts(reg) + LocationHosts(locs)
  {
    var r := MergeActors(reg, locs);
    forall n | n in Hosts(r)
      ensures n in Hosts(reg) + LocationHosts(locs)
    {
      var a :| a in r && r[a].node == n;
      MergeActorsSource(reg, locs, a);
    }
  }

  // ---------- The failure detector ----------

  function Judge(n: Node, elapsed: nat, timeout: nat): Node {
    if elapsed > timeout * 2 && n.status != Down then n.(status := Down)
    else if elapsed > timeout && n.status == Up then n.(status := Suspect)
    else n
  }

  predicate Judged(id: NodeId, beats: Beats, self: NodeId) {
    id != self && id in beats
  }

  function Detect(v: View, self: NodeId, now: Instant, timeout: nat): Members {
    map id | id in v.members ::
      if Judged(id, v.beats, self) then Judge(v.members[id], Elapsed(now, v.beats[id]), timeout) else v.members[id]
  }

  /** The members this very tick takes down; those already Down are not among them. */
  function Demoted(v: View, self: NodeId, now: Instant, timeout: nat): set<NodeId> {
    set id | id in v.members && Judged(id, v.beats, self)
             && Elapsed(now, v.beats[id]) > timeout * 2 && v.members[id].status != Down
  }

  function Purge(reg: Registry, down: set<NodeId>): Registry {
    map a | a in reg && reg[a].node !in down :: reg[a]
  }

  /** What one tick settles for a member, in terms of silence alone. */
  lemma DetectSettles(v: View, self: NodeId, now: Instant, timeout: nat, id: NodeId)
    requires id in v.members
    ensures Detect(v, self, now, timeout).Keys == v.members.Keys
    ensures Detect(v, self, now, timeout)[id] == v.members[id].(status := Detect(v, self, now, timeout)[id].status)
    ensures !Judged(id, v.beats, self) ==> Detect(v, self, now, timeout)[id] == v.members[id]
    ensures Judged(id, v.beats, self) ==>
              var silent := Elapsed(now, v.beats[id]);
              var was := v.members[id].status;
              var after := Detect(v, self, now, timeout)[id].status;
              && (silent > timeout * 2 ==> after == Down)
              && (silent > timeout ==> after != Up)
              && (silent <= timeout ==> after == was)
              && (after == Up ==> was == Up)
              && (was == Up ==> (after == Down <==> silent > timeout * 2))
              && (after != was ==> silent > timeout && (after == Down ==> silent > timeout * 2))
    ensures id in Demoted(v, self, now, timeout) <==>
              Detect(v, self, now, timeout)[id].status == Down && v.members[id].status != Down
  {
  }

  /** No actor is located on a member that is Down. */
  predicate NoDownHost(ms: Members, reg: Registry) {
    forall a :: a in reg && reg[a].node in ms ==> ms[reg[a].node].status != Down
  }

  /** A tick, cleanup included, leaves no actor on a Down member exactly if there was none on one already Down. */
  lemma TickCleansIff(v: View, self: NodeId, now: Instant, timeout: nat)
    ensures NoDownHost(Detect(v, self, now, timeout), Purge(v.registry, Demoted(v, self, now, timeout))) <==>
            NoDownHost(v.members, v.registry)
  {
    var ms, reg := Detect(v, self, now, timeout), Purge(v.registry, Demoted(v, self, now, timeout));
    forall a | a in v.registry && v.registry[a].node in v.members
      ensures a in reg && ms[reg[a].node].status == Down <==> v.members[v.registry[a].node].status == Down
    {
      DetectSettles(v, self, now, timeout, v.registry[a].node);
    }
  }
}
