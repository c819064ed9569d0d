/**
 * The watch's capability lookup: the platform answers capability by
 * capability with the reachable nodes advertising it, and the repository
 * turns that around into the set of capabilities of each node.
 */
module Capabilities {
  import opened Wrappers

  type NodeId = string
  type Capability = string

  /** One capability and the nodes advertising it, as `getAllCapabilities` reports it. */
  type CapabilityInfo = (Capability, seq<NodeId>)

  /** Some entry lists `n` under capability `c`. */
  ghost predicate Advertises(entries: seq<CapabilityInfo>, n: NodeId, c: Capability)
  {
    exists i :: 0 <= i < |entries| && entries[i].0 == c && n in entries[i].1
  }

  /** `flatMap { (capability, info) -> info.nodes.map { node -> node to capability } }`. */
  function FlatPairs(entries: seq<CapabilityInfo>): (r: seq<(NodeId, Capability)>)
    ensures forall n, c :: (n, c) in r <==> Advertises(entries, n, c)
  {
    if entries == [] then []
    else
      var (c, nodes) := entries[|entries| - 1];
      var tail := seq(|nodes|, i requires 0 <= i < |nodes| => (nodes[i], c));
      assert forall n :: (n, c) in tail <==> n in nodes by {
        forall n | n in nodes
          ensures (n, c) in tail
        {
          var i :| 0 <= i < |nodes| && nodes[i] == n;
          assert tail[i] == (n, c);
        }
      }
      var init := entries[..|entries| - 1];
      assert forall n, c' :: Advertises(entries, n, c') <==> Advertises(init, n, c') || (c' == c && n in nodes) by {
        forall n, c' | Advertises(entries, n, c')
          ensures Advertises(init, n, c') || (c' == c && n in nodes)
        {
          var i :| 0 <= i < |entries| && entries[i].0 == c' && n in entries[i].1;
          if i < |init| {
            assert init[i] == entries[i];
          }
        }
        forall n, c' | Advertises(init, n, c')
          ensures Advertises(entries, n, c')
        {
          var i :| 0 <= i < |init| && init[i].0 == c' && n in init[i].1;
          assert entries[i] == init[i];
        }
        forall n | n in nodes
          ensures Advertises(entries, n, c)
        {
          assert entries[|entries| - 1] == (c, nodes);
        }
      }
      FlatPairs(init) + tail
  }

  /** `groupBy(keySelector = first, valueTransform = second)`: each node with its capabilities in order. */
  function GroupBy(pairs: seq<(NodeId, Capability)>): (g: map<NodeId, seq<Capability>>)
    ensures forall n :: n in g ==> |g[n]| > 0
    ensures forall n, c :: n in g && c in g[n] <==> (n, c) in pairs
  {
    if pairs == [] then map[]
    else
      var g0 := GroupBy(pairs[..|pairs| - 1]);
      var (n, c) := pairs[|pairs| - 1];
      assert forall p :: p in pairs <==> p in pairs[..|pairs| - 1] || p == (n, c) by {
        assert pairs == pairs[..|pairs| - 1] + [(n, c)];
      }
      g0[n := (if n in g0 then g0[n] else []) + [c]]
  }

  /** `mapValues { it.value.toSet() }`. */
  function ToSets(g: map<NodeId, seq<Capability>>): (r: map<NodeId, set<Capability>>)
    ensures r.Keys == g.Keys
    ensures forall n :: n in r ==> forall c :: c in r[n] <==> c in g[n]
  {
    map n | n in g :: set c | c in g[n]
  }

  /**
   * `getCapabilitiesForReachableNodes`: the inverted relation when the lookup
   * succeeds, the empty map when it throws.
   */
  function CapabilitiesForReachableNodes(lookup: Option<seq<CapabilityInfo>>): (r: map<NodeId, set<Capability>>)
    ensures lookup.None? ==> r == map[]
  {
    match lookup
    case None => map[]
    case Some(entries) => ToSets(GroupBy(FlatPairs(entries)))
  }

  /** A node maps to a capability exactly when the lookup listed the node under that capability. */
  lemma InversionExact(entries: seq<CapabilityInfo>, n: NodeId, c: Capability)
    ensures var r := CapabilitiesForReachableNodes(Some(entries));
      (n in r && c in r[n]) <==> Advertises(entries, n, c)
  {
    var pairs := FlatPairs(entries);
    assert (n, c) in pairs <==> Advertises(entries, n, c);
  }

  /**
   * The nodes of the result are exactly the nodes listed under some capability,
   * and none of them has an empty set.
   */
  lemma InversionKeys(entries: seq<CapabilityInfo>, n: NodeId)
    ensures var r := CapabilitiesForReachableNodes(Some(entries));
      (n in r <==> exists c :: Advertises(entries, n, c)) && (n in r ==> r[n] != {})
  {
    var pairs := FlatPairs(entries);
    var g := GroupBy(pairs);
    if n in g {
      var c := g[n][0];
      assert c in g[n];
      assert Advertises(entries, n, c);
      assert c in ToSets(g)[n];
    }
    if c :| Advertises(entries, n, c) {
      assert (n, c) in pairs;
    }
  }
}
