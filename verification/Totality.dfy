/** The specification of the generator can always be met: a services worker that has read its topology is never
    stuck. */
module Totality {
  import opened Kube
  import Annotations
  import opened Stream
  import opened Configurator

  lemma {:induction false} ListingExists(nodes: map<string, Node>, addressType: AddressType, t: Target)
    returns (servers: seq<StreamUpstreamServer>, ns: seq<Node>)
    requires Registry(nodes)
    ensures NodeListing(nodes, addressType, t, servers, ns)
    decreases |nodes|
  {
    if nodes == map[] {
      servers, ns := [], [];
      assert Addresses(servers) == [];
      assert forall a :: NodesAt(nodes, addressType, t, a) == {};
    } else {
      var k :| k in nodes;
      var rest := nodes - {k};
      assert nodes == rest[k := nodes[k]];
      servers, ns := ListingExists(rest, addressType, t);
      NodeListingStep(rest, addressType, t, servers, ns, nodes[k]);
      servers, ns := servers + [PlainServer(FormatAddress(addressType, nodes[k], t))], ns + [nodes[k]];
    }
  }

  lemma ContributionExists(nodes: map<string, Node>, spec: ServiceSpec, t: Target)
    returns (servers: seq<StreamUpstreamServer>)
    requires Registry(nodes)
    ensures AllPlain(servers) && forall a :: multiset(Addresses(servers))[a] == TargetCount(nodes, spec, t, a)
  {
    var addressType := NodeAddressType(spec.service);
    if spec.upstreamType.HostNode? && NodeSet(spec.service).All? {
      var ns;
      servers, ns := ListingExists(nodes, addressType, t);
    } else {
      var addresses :=
        if spec.upstreamType.Pod? then [PodAddress(t)]
        else if spec.upstreamType.ClusterIP? then [ClusterAddress(spec, t)]
        else if spec.upstreamType.HostNode? && t.nodeName in nodes
        then [FormatAddress(addressType, nodes[t.nodeName], t)]
        else [];
      servers := seq(|addresses|, i requires 0 <= i < |addresses| => PlainServer(addresses[i]));
      assert Addresses(servers) == addresses;
    }
  }

  lemma {:induction false} CollectedExists(nodes: map<string, Node>, spec: ServiceSpec, n: nat)
    returns (ups: map<string, StreamUpstream>)
    requires Registry(nodes) && n <= |spec.topology|
    ensures Collected(nodes, spec, spec.topology[..n], ups)
  {
    ups := map[];
    if n > 0 {
      ups := CollectedExists(nodes, spec, n - 1);
      var t := spec.topology[n - 1];
      var servers := ContributionExists(nodes, spec, t);
      var su := StreamUpstream(TargetName(spec, t), AlgorithmOf(spec), MethodOf(spec), servers);
      if su.name in ups {
        CollectMore(nodes, spec, spec.topology, n - 1, ups, su);
        ups := ups[su.name := ups[su.name].(servers := ups[su.name].servers + servers)];
      } else {
        CollectNew(nodes, spec, spec.topology, n - 1, ups, su);
        ups := ups[su.name := su];
      }
    }
  }

  lemma {:induction false} SliceExists(ups: map<string, StreamUpstream>) returns (us: seq<StreamUpstream>)
    requires forall name :: name in ups ==> ups[name].name == name
    ensures NamesDistinct(us)
    ensures forall name :: UpstreamNamed(us, name) <==> name in ups
    ensures forall i :: 0 <= i < |us| ==> us[i].name in ups && us[i] == ups[us[i].name]
    decreases |ups|
  {
    us := [];
    if ups != map[] {
      var k :| k in ups;
      us := SliceExists(ups - {k});
      forall name | name in ups && name != k ensures UpstreamNamed(us + [ups[k]], name) {
        assert UpstreamNamed(us, name);
        var i :| 0 <= i < |us| && us[i].name == name;
        assert (us + [ups[k]])[i].name == name;
      }
      assert (us + [ups[k]])[|us|].name == k;
      us := us + [ups[k]];
    }
  }

  /** Whatever the registry and the specification, there is a configuration that meets `Generates`. */
  lemma GeneratorTotal(nodes: map<string, Node>, spec: ServiceSpec) returns (cfg: StreamConfig)
    requires Registry(nodes)
    ensures Generates(nodes, spec, cfg)
  {
    var ups := CollectedExists(nodes, spec, |spec.topology|);
    assert spec.topology[..|spec.topology|] == spec.topology;
    var us := SliceExists(ups);
    cfg := StreamConfig(Annotations.OptionalString(Annotations.RESOLVER_KEY, spec.service), us,
                        ServersOf(spec, spec.topology));
  }

  lemma IndexTotal(nodes: map<string, Node>, spec: ServiceSpec, before: map<string, seq<Node>>)
    returns (after: map<string, seq<Node>>)
    requires Registry(nodes)
    ensures IndexAfter(nodes, spec, spec.topology, before, after)
  {
    after := before;
    if spec.upstreamType.HostNode? && |spec.topology| > 0 {
      if NodeSet(spec.service).All? {
        var servers, ns := ListingExists(nodes, Internal, spec.topology[0]);
        after := before[spec.key := ns];
      } else {
        var r := LastResolved(nodes, spec.topology);
        if r > 0 {
          after := before[spec.key := [nodes[spec.topology[r - 1].nodeName]]];
        }
      }
    }
  }
}
