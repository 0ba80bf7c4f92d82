/** One cluster node, updated in place: the three maps behind the locks and the loops that walk them. */
module ClusterNodes {
  import opened Basics
  import opened Membership

  /** What gossip spreads: everything in a view but the heartbeats. */
  datatype Knowledge = Knowledge(members: Members, registry: Registry)

  function Absorb(k: Knowledge, g: Knowledge): Knowledge {
    Knowledge(Override(k.members, g.members), k.registry + g.registry)
  }

  function Elements(s: seq<NodeId>): set<NodeId> {
    set n | n in s
  }

  class ClusterNode {
    const id: NodeId
    const addr: string
    var members: Members
    var lastHeartbeat: Beats
    var registry: Registry

    predicate Valid()
      reads this
    {
      id in members && Keyed(members)
    }

    function Current(): View
      reads this
    {
      View(members, lastHeartbeat, registry)
    }

    function Known(): Knowledge
      reads this
    {
      Knowledge(members, registry)
    }

    constructor (id: NodeId, addr: string, now: Instant)
      ensures Valid() && this.id == id && this.addr == addr
      ensures Current() == View(map[id := Node(id, addr, Up)], map[id := now], map[])
    {
      this.id := id;
      this.addr := addr;
      members := map[id := Node(id, addr, Up)];
      lastHeartbeat := map[id := now];
      registry := map[];
    }

    method AddMember(node: Node, now: Instant)
      requires Valid()
      modifies this
      ensures Valid()
      ensures Current() == View(old(members)[node.id := node], old(lastHeartbeat)[node.id := now], old(registry))
    {
      members := members[node.id := node];
      lastHeartbeat := lastHeartbeat[node.id := now];
    }

    method RegisterActor(actor: ActorName, kind: string)
      requires Valid()
      modifies this`registry
      ensures registry == old(registry)[actor := Location(id, kind)]
    {
      registry := registry[actor := Location(id, kind)];
    }

    /** Lists the members and the registry, each entry once, in whatever order the maps give them up. */
    method CreateGossip() returns (g: Gossip)
      requires Valid()
      ensures GossipOf(g, Current())
    {
      var infos: seq<NodeInfo> := [];
      var ids := members.Keys;
      while ids != {}
        invariant ids <= members.Keys
        invariant InfoIds(infos) == members.Keys - ids
        invariant forall i :: 0 <= i < |infos| ==> infos[i].id in members && infos[i] == ToInfo(members[infos[i].id])
        invariant forall i, j :: 0 <= i < j < |infos| ==> infos[i].id != infos[j].id
        decreases ids
      {
        var next :| next in ids;
        forall i | 0 <= i < |infos|
          ensures infos[i].id != next
        {
          assert infos[i].id in InfoIds(infos);
        }
        ghost var before := infos;
        infos := infos + [ToInfo(members[next])];
        InfoIdsAppend(before, infos[|before|]);
        ids := ids - {next};
      }
      var locs: seq<ActorLocation> := [];
      var actors := registry.Keys;
      while actors != {}
        invariant actors <= registry.Keys
        invariant LocationActors(locs) == registry.Keys - actors
        invariant forall i :: 0 <= i < |locs| ==>
                    locs[i].actor in registry && Location(locs[i].node, locs[i].kind) == registry[locs[i].actor]
        invariant forall i, j :: 0 <= i < j < |locs| ==> locs[i].actor != locs[j].actor
        decreases actors
      {
        var next :| next in actors;
        forall i | 0 <= i < |locs|
          ensures locs[i].actor != next
        {
          assert locs[i].actor in LocationActors(locs);
        }
        ghost var before := locs;
        locs := locs + [ActorLocation(next, registry[next].node, registry[next].kind)];
        LocationActorsAppend(before, locs[|before|]);
        actors := actors - {next};
      }
      g := Gossip(infos, locs);
    }

    method MergeGossip(g: Gossip, sender: NodeId, now: Instant)
      requires Valid()
      modifies this
      ensures Valid()
      ensures members == MergeInfos(old(members), g.members)
      ensures lastHeartbeat == old(lastHeartbeat)[sender := now]
      ensures registry == MergeActors(old(registry), g.actors)
    {
      for i := 0 to |g.members|
        invariant members == MergeInfos(old(members), g.members[..i])
        invariant lastHeartbeat == old(lastHeartbeat) && registry == old(registry)
      {
        assert g.members[..i + 1][..i] == g.members[..i];
        var node := FromInfo(g.members[i]);
        if node.id in members {
          if members[node.id].status != node.status {
            members := members[node.id := node];
          }
        } else {
          members := members[node.id := node];
        }
      }
      assert g.members[..|g.members|] == g.members;
      MergeInfosIds(old(members), g.members);
      lastHeartbeat := lastHeartbeat[sender := now];
      for i := 0 to |g.actors|
        invariant registry == MergeActors(old(registry), g.actors[..i])
        invariant members == MergeInfos(old(members), g.members)
        invariant lastHeartbeat == old(lastHeartbeat)[sender := now]
      {
        assert g.actors[..i + 1][..i] == g.actors[..i];
        var l := g.actors[i];
        registry := registry[l.actor := Location(l.node, l.kind)];
      }
      assert g.actors[..|g.actors|] == g.actors;
    }

    /** One member: skipped if it is this node or has no heartbeat, else marked by its silence. */
    method JudgeOne(n: NodeId, now: Instant, timeout: nat) returns (demoted: bool)
      requires n in members
      modifies this`members
      ensures var was := old(members)[n];
              if Judged(n, lastHeartbeat, id) then
                var elapsed := Elapsed(now, lastHeartbeat[n]);
                && members == old(members)[n := Judge(was, elapsed, timeout)]
                && (demoted <==> elapsed > timeout * 2 && was.status != Down)
              else members == old(members) && !demoted
    {
      demoted := false;
      if n == id {
        return;
      }
      if n in lastHeartbeat {
        var elapsed := Elapsed(now, lastHeartbeat[n]);
        if elapsed > timeout * 2 && members[n].status != Down {
          members := members[n := members[n].(status := Down)];
          demoted := true;
        } else if elapsed > timeout && members[n].status == Up {
          members := members[n := members[n].(status := Suspect)];
        } else {
          assert members == members[n := members[n]];
        }
      }
    }

    /** The detector half of a tick, walking the members in any order and noting whom it takes down. */
    method DetectFailures(now: Instant, timeout: nat) returns (down: seq<NodeId>)
      requires Valid()
      modifies this`members
      ensures Valid()
      ensures members == Detect(old(Current()), id, now, timeout)
      ensures Elements(down) == Demoted(old(Current()), id, now, timeout)
    {
      down := [];
      var todo := members.Keys;
      ghost var v := Current();
      ghost var judged, demotions := Detect(v, id, now, timeout), Demoted(v, id, now, timeout);
      while todo != {}
        invariant todo <= members.Keys == v.members.Keys == judged.Keys
        invariant forall n :: n in members ==> members[n] == if n in todo then v.members[n] else judged[n]
        invariant forall n :: n in down <==> n !in todo && n in demotions
        decreases todo
      {
        var n :| n in todo;
        todo := todo - {n};
        var demoted := JudgeOne(n, now, timeout);
        if demoted {
          down := down + [n];
        }
      }
      assert members == judged;
    }

    /** The cleanup half: one pass over the registry for every node taken down. */
    method CleanUp(down: seq<NodeId>)
      modifies this`registry
      ensures registry == Purge(old(registry), Elements(down))
    {
      for i := 0 to |down|
        invariant registry == Purge(old(registry), Elements(down[..i]))
      {
        ghost var before := registry;
        var kept: Registry := map[];
        var actors := registry.Keys;
        while actors != {}
          invariant actors <= registry.Keys && registry == before
          invariant kept == map a | a in registry && a !in actors && registry[a].node != down[i] :: registry[a]
          decreases actors
        {
          var a :| a in actors;
          actors := actors - {a};
          if registry[a].node != down[i] {
            kept := kept[a := registry[a]];
          }
        }
        registry := kept;
        assert Elements(down[..i + 1]) == Elements(down[..i]) + {down[i]};
      }
      assert down[..|down|] == down;
    }

    /** A whole detector tick, from the reading of the clock to the purged registry. */
    method Tick(now: Instant, timeout: nat)
      requires Valid()
      modifies this`members, this`registry
      ensures Valid()
      ensures members == Detect(old(Current()), id, now, timeout)
      ensures registry == Purge(old(registry), Demoted(old(Current()), id, now, timeout))
      ensures NoDownHost(members, registry) <==> NoDownHost(old(members), old(registry))
    {
      TickCleansIff(Current(), id, now, timeout);
      var down := DetectFailures(now, timeout);
      if down != [] {
        CleanUp(down);
      } else {
        assert Elements(down) == {};
      }
    }

    /** One gossip message from `from` to this node, made and merged. */
    method Hear(from: ClusterNode, now: Instant)
      requires Valid() && from.Valid()
      modifies this
      ensures Valid() && from.Valid()
      ensures Known() == Absorb(old(Known()), old(from.Known()))
      ensures lastHeartbeat == old(lastHeartbeat)[from.id := now]
    {
      var g := from.CreateGossip();
      MergedIsAbsorbed(Known(), from.Known(), g, from.Current());
      MergeGossip(g, from.id, now);
    }

    /** Push to `peer`, which merges and answers with what it then knows; merge the answer. */
    method SendGossipTo(peer: ClusterNode, pushed: Instant, answered: Instant)
      requires Valid() && peer.Valid()
      modifies this, peer
      ensures Valid() && peer.Valid()
      ensures peer != this ==>
                && peer.Known() == Absorb(old(peer.Known()), old(Known()))
                && Known() == Absorb(old(Known()), peer.Known())
                && peer.lastHeartbeat == old(peer.lastHeartbeat)[id := pushed]
                && lastHeartbeat == old(lastHeartbeat)[peer.id := answered]
      ensures peer == this ==> Known() == old(Known()) && lastHeartbeat == old(lastHeartbeat)[id := answered]
    {
      ghost var k := Known();
      peer.Hear(this, pushed);
      if peer == this {
        AbsorbSelf(k);
      }
      Hear(peer, answered);
    }
  }

  lemma MergedIsAbsorbed(k: Knowledge, other: Knowledge, g: Gossip, v: View)
    requires GossipOf(g, v) && Keyed(v.members) && other == Knowledge(v.members, v.registry)
    ensures Knowledge(MergeInfos(k.members, g.members), MergeActors(k.registry, g.actors)) == Absorb(k, other)
  {
    MergeInfosIsOverride(k.members, v.members, g.members);
    MergeActorsIsOverride(k.registry, v.registry, g.actors);
  }

  lemma AbsorbSelf(k: Knowledge)
    ensures Absorb(k, k) == k
  {
    assert k.registry + k.registry == k.registry;
  }

  lemma InfoIdsAppend(infos: seq<NodeInfo>, i: NodeInfo)
    ensures InfoIds(infos + [i]) == InfoIds(infos) + {i.id}
  {
    assert (infos + [i])[|infos|] == i;
    assert forall k :: 0 <= k < |infos| ==> (infos + [i])[k] == infos[k];
  }

  lemma LocationActorsAppend(locs: seq<ActorLocation>, l: ActorLocation)
    ensures LocationActors(locs + [l]) == LocationActors(locs) + {l.actor}
  {
    assert (locs + [l])[|locs|] == l;
    assert forall k :: 0 <= k < |locs| ==> (locs + [l])[k] == locs[k];
  }
}
