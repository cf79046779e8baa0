/** The configurator: the node registry, the index of nodes per service, and the written stream files
    (nginx/configurator.go, with nginx/stream.go's directory of files as a map from name to configuration). */
module Configurator {
  import opened Kube
  import opened Annotations
  import opened Stream

  datatype Configuration = StreamCfg | HTTPCfg | StreamHTTPCfg | LocalCfg

  // ----- node registry transitions -----

  /** The registry after `AddOrUpdateNode`. */
  function NodesAfter(nodes: map<string, Node>, n: Node): map<string, Node> {
    if n.name !in nodes || n.active then nodes[n.name := n] else nodes - {n.name}
  }

  predicate HasAddress(ns: seq<Node>, address: string) {
    exists i :: 0 <= i < |ns| && (ns[i].internalIP == address || ns[i].externalIP == address)
  }

  predicate HasName(ns: seq<Node>, name: string) {
    exists i :: 0 <= i < |ns| && ns[i].name == name
  }

  function KeysByAddress(index: map<string, seq<Node>>, address: string): set<string> {
    set k | k in index && HasAddress(index[k], address)
  }

  function KeysByName(index: map<string, seq<Node>>, name: string): set<string> {
    set k | k in index && HasName(index[k], name)
  }

  /** The services `AddOrUpdateNode` reports, with multiplicity: a service can be listed for each changed address. */
  function AffectedBag(nodes: map<string, Node>, index: map<string, seq<Node>>, n: Node): multiset<string> {
    if n.name !in nodes then multiset{}
    else if n.active then
      var old_ := nodes[n.name];
      (if old_.internalIP != n.internalIP then multiset(KeysByAddress(index, old_.internalIP)) else multiset{})
      + (if old_.externalIP != n.externalIP then multiset(KeysByAddress(index, old_.externalIP)) else multiset{})
    else multiset(KeysByName(index, n.name))
  }

  /** Inner loop of `serviceListByNodeAddress`. */
  method SearchAddress(ns: seq<Node>, address: string) returns (found: bool)
    ensures found == HasAddress(ns, address)
  {
    for i := 0 to |ns|
      invariant forall j :: 0 <= j < i ==> !(ns[j].internalIP == address || ns[j].externalIP == address)
    {
      if ns[i].internalIP == address || ns[i].externalIP == address {
        return true;
      }
    }
    return false;
  }

  /** Inner loop of `serviceListByNodeName`. */
  method SearchName(ns: seq<Node>, name: string) returns (found: bool)
    ensures found == HasName(ns, name)
  {
    for i := 0 to |ns|
      invariant forall j :: 0 <= j < i ==> ns[j].name != name
    {
      if ns[i].name == name {
        return true;
      }
    }
    return false;
  }

  lemma KeysByAddressStep(seen: map<string, seq<Node>>, svc: string, ns: seq<Node>, address: string)
    requires svc !in seen
    ensures multiset(KeysByAddress(seen[svc := ns], address)) ==
            multiset(KeysByAddress(seen, address)) + (if HasAddress(ns, address) then multiset{svc} else multiset{})
  {
    var before, after := KeysByAddress(seen, address), KeysByAddress(seen[svc := ns], address);
    assert after == before + (if HasAddress(ns, address) then {svc} else {});
    assert svc !in before;
  }

  lemma KeysByNameStep(seen: map<string, seq<Node>>, svc: string, ns: seq<Node>, name: string)
    requires svc !in seen
    ensures multiset(KeysByName(seen[svc := ns], name)) ==
            multiset(KeysByName(seen, name)) + (if HasName(ns, name) then multiset{svc} else multiset{})
  {
    var before, after := KeysByName(seen, name), KeysByName(seen[svc := ns], name);
    assert after == before + (if HasName(ns, name) then {svc} else {});
    assert svc !in before;
  }

  // ----- facts about group counts used by the generator's loop -----

  lemma {:induction false} GroupCountAbsent(nodes: map<string, Node>, spec: ServiceSpec, ts: seq<Target>, name: string,
                                            a: string)
    requires !NameIn(spec, ts, name)
    ensures GroupCount(nodes, spec, ts, name, a) == 0
    decreases |ts|
  {
    if |ts| > 0 {
      AbsentBefore(spec, ts, name);
      GroupCountAbsent(nodes, spec, ts[..|ts| - 1], name, a);
    }
  }

  lemma AbsentBefore(spec: ServiceSpec, ts: seq<Target>, name: string)
    requires |ts| > 0 && !NameIn(spec, ts, name)
    ensures !NameIn(spec, ts[..|ts| - 1], name) && TargetName(spec, ts[|ts| - 1]) != name
  {
    assert forall i :: 0 <= i < |ts| - 1 ==> ts[..|ts| - 1][i] == ts[i];
  }

  lemma AddressesConcat(x: seq<StreamUpstreamServer>, y: seq<StreamUpstreamServer>)
    ensures Addresses(x + y) == Addresses(x) + Addresses(y)
  {
  }

  /** Adding one target: its servers join the upstream it belongs to. */
  lemma BalanceStep(nodes: map<string, Node>, spec: ServiceSpec, ts: seq<Target>, i: nat,
                    servers: seq<StreamUpstreamServer>, more: seq<StreamUpstreamServer>)
    requires i < |ts|
    requires Balances(nodes, spec, ts[..i], TargetName(spec, ts[i]), servers)
    requires AllPlain(more) && forall a :: multiset(Addresses(more))[a] == TargetCount(nodes, spec, ts[i], a)
    ensures Balances(nodes, spec, ts[..i + 1], TargetName(spec, ts[i]), servers + more)
  {
    AddressesConcat(servers, more);
    assert ts[..i + 1][..i] == ts[..i];
  }

  /** Adding one target leaves every other upstream as it was. */
  lemma BalanceFrame(nodes: map<string, Node>, spec: ServiceSpec, ts: seq<Target>, i: nat, name: string,
                     servers: seq<StreamUpstreamServer>)
    requires i < |ts| && TargetName(spec, ts[i]) != name
    requires Balances(nodes, spec, ts[..i], name, servers)
    ensures Balances(nodes, spec, ts[..i + 1], name, servers)
  {
    assert ts[..i + 1][..i] == ts[..i];
  }

  lemma BalanceEmpty(nodes: map<string, Node>, spec: ServiceSpec, ts: seq<Target>, name: string)
    requires !NameIn(spec, ts, name)
    ensures Balances(nodes, spec, ts, name, [])
  {
    forall a ensures GroupCount(nodes, spec, ts, name, a) == 0 {
      GroupCountAbsent(nodes, spec, ts, name, a);
    }
    assert Addresses([]) == [];
  }

  lemma NameInStep(spec: ServiceSpec, ts: seq<Target>, i: nat, name: string)
    requires i < |ts|
    ensures NameIn(spec, ts[..i + 1], name) <==> NameIn(spec, ts[..i], name) || TargetName(spec, ts[i]) == name
  {
    if NameIn(spec, ts[..i], name) {
      var j :| 0 <= j < i && TargetName(spec, ts[..i][j]) == name;
      assert ts[..i + 1][j] == ts[..i][j];
    }
    if TargetName(spec, ts[i]) == name {
      assert ts[..i + 1][i] == ts[i];
    }
    if NameIn(spec, ts[..i + 1], name) {
      var j :| 0 <= j < i + 1 && TargetName(spec, ts[..i + 1][j]) == name;
      if j < i { assert ts[..i][j] == ts[..i + 1][j]; }
    }
  }

  // ----- the generator's loop state -----

  /** Upstreams collected from the first targets, by name. */
  ghost predicate Collected(nodes: map<string, Node>, spec: ServiceSpec, ts: seq<Target>,
                            ups: map<string, StreamUpstream>) {
    && (forall name :: name in ups <==> NameIn(spec, ts, name))
    && (forall name :: name in ups ==> ups[name].name == name && UpstreamFor(nodes, spec, ts, ups[name]))
  }

  lemma CollectNew(nodes: map<string, Node>, spec: ServiceSpec, ts: seq<Target>, i: nat,
                   ups: map<string, StreamUpstream>, su: StreamUpstream)
    requires i < |ts| && Collected(nodes, spec, ts[..i], ups)
    requires su.name == TargetName(spec, ts[i]) && su.name !in ups
    requires su.algorithm == AlgorithmOf(spec) && su.leastTimeMethod == MethodOf(spec)
    requires AllPlain(su.servers)
             && forall a :: multiset(Addresses(su.servers))[a] == TargetCount(nodes, spec, ts[i], a)
    ensures Collected(nodes, spec, ts[..i + 1], ups[su.name := su])
  {
    var after := ups[su.name := su];
    forall name ensures NameIn(spec, ts[..i + 1], name) <==> name in after {
      NameInStep(spec, ts, i, name);
    }
    BalanceEmpty(nodes, spec, ts[..i], su.name);
    BalanceStep(nodes, spec, ts, i, [], su.servers);
    assert [] + su.servers == su.servers;
    forall name | name in ups ensures UpstreamFor(nodes, spec, ts[..i + 1], ups[name]) {
      BalanceFrame(nodes, spec, ts, i, name, ups[name].servers);
    }
  }

  lemma CollectMore(nodes: map<string, Node>, spec: ServiceSpec, ts: seq<Target>, i: nat,
                    ups: map<string, StreamUpstream>, su: StreamUpstream)
    requires i < |ts| && Collected(nodes, spec, ts[..i], ups)
    requires su.name == TargetName(spec, ts[i]) && su.name in ups
    requires AllPlain(su.servers)
             && forall a :: multiset(Addresses(su.servers))[a] == TargetCount(nodes, spec, ts[i], a)
    ensures var elem := ups[su.name];
            Collected(nodes, spec, ts[..i + 1], ups[su.name := elem.(servers := elem.servers + su.servers)])
  {
    var elem := ups[su.name];
    forall name ensures NameIn(spec, ts[..i + 1], name) <==> name in ups {
      NameInStep(spec, ts, i, name);
    }
    BalanceStep(nodes, spec, ts, i, elem.servers, su.servers);
    forall name | name in ups && name != su.name ensures UpstreamFor(nodes, spec, ts[..i + 1], ups[name]) {
      BalanceFrame(nodes, spec, ts, i, name, ups[name].servers);
    }
  }

  // ----- the index, one target at a time -----

  /** How one target changes the index. */
  predicate IndexStep(nodes: map<string, Node>, spec: ServiceSpec, t: Target,
                      before: map<string, seq<Node>>, after: map<string, seq<Node>>) {
    if !spec.upstreamType.HostNode? then after == before
    else if NodeSet(spec.service).All? then
      spec.key in after && after == before[spec.key := after[spec.key]] && ListsRegistry(nodes, after[spec.key])
    else after == if t.nodeName in nodes then before[spec.key := [nodes[t.nodeName]]] else before
  }

  lemma IndexExtend(nodes: map<string, Node>, spec: ServiceSpec, ts: seq<Target>, i: nat,
                    before: map<string, seq<Node>>, mid: map<string, seq<Node>>, after: map<string, seq<Node>>)
    requires i < |ts| && IndexAfter(nodes, spec, ts[..i], before, mid) && IndexStep(nodes, spec, ts[i], mid, after)
    ensures IndexAfter(nodes, spec, ts[..i + 1], before, after)
  {
    LastResolvedStep(nodes, ts, i);
  }

  lemma LastResolvedStep(nodes: map<string, Node>, ts: seq<Target>, i: nat)
    requires i < |ts|
    ensures LastResolved(nodes, ts[..i + 1]) == if ts[i].nodeName in nodes then i + 1 else LastResolved(nodes, ts[..i])
  {
    assert ts[..i + 1][..i] == ts[..i];
  }

  /** The first target of an upstream adds its listener, if it has one. */
  lemma {:induction false} ListenerStep(spec: ServiceSpec, ts: seq<Target>, i: nat)
    requires i < |ts|
    ensures ServersOf(spec, ts[..i + 1]) ==
            if NameIn(spec, ts[..i], TargetName(spec, ts[i])) || !ListenPort(spec, ts[i]).Found?
            then ServersOf(spec, ts[..i])
            else ServersOf(spec, ts[..i]) + [ServerFor(spec, ts[i], ListenPort(spec, ts[i]).value)]
  {
    assert ts[..i + 1][..i] == ts[..i];
  }

  class Configurator {
    const cfgType: Configuration
    var nodes: map<string, Node>
    var serviceUpstreamNodes: map<string, seq<Node>>
    var serviceUpstreamTarget: map<string, seq<Target>>
    var files: map<string, StreamConfig>

    ghost predicate Valid()
      reads this
    {
      Registry(nodes)
    }

    constructor (cfgType: Configuration)
      ensures Valid() && this.cfgType == cfgType
      ensures nodes == map[] && serviceUpstreamNodes == map[] && serviceUpstreamTarget == map[] && files == map[]
    {
      this.cfgType := cfgType;
      nodes, serviceUpstreamNodes, serviceUpstreamTarget, files := map[], map[], map[], map[];
    }

    /** The index is searched entry by entry, in no particular order. */
    method ServiceListByNodeAddress(address: string) returns (list: seq<string>)
      ensures multiset(list) == multiset(KeysByAddress(serviceUpstreamNodes, address))
    {
      list := [];
      var rest := serviceUpstreamNodes.Keys;
      ghost var seen: map<string, seq<Node>> := map[];
      while rest != {}
        invariant rest <= serviceUpstreamNodes.Keys && seen.Keys == serviceUpstreamNodes.Keys - rest
        invariant forall k :: k in seen ==> seen[k] == serviceUpstreamNodes[k]
        invariant multiset(list) == multiset(KeysByAddress(seen, address))
        decreases rest
      {
        var svc :| svc in rest;
        var ns := serviceUpstreamNodes[svc];
        var hit := SearchAddress(ns, address);
        KeysByAddressStep(seen, svc, ns, address);
        if hit {
          list := list + [svc];
        }
        seen := seen[svc := ns];
        rest := rest - {svc};
      }
      assert seen == serviceUpstreamNodes;
    }

    method ServiceListByNodeName(name: string) returns (list: seq<string>)
      ensures multiset(list) == multiset(KeysByName(serviceUpstreamNodes, name))
    {
      list := [];
      var rest := serviceUpstreamNodes.Keys;
      ghost var seen: map<string, seq<Node>> := map[];
      while rest != {}
        invariant rest <= serviceUpstreamNodes.Keys && seen.Keys == serviceUpstreamNodes.Keys - rest
        invariant forall k :: k in seen ==> seen[k] == serviceUpstreamNodes[k]
        invariant multiset(list) == multiset(KeysByName(seen, name))
        decreases rest
      {
        var svc :| svc in rest;
        var ns := serviceUpstreamNodes[svc];
        var hit := SearchName(ns, name);
        KeysByNameStep(seen, svc, ns, name);
        if hit {
          list := list + [svc];
        }
        seen := seen[svc := ns];
        rest := rest - {svc};
      }
      assert seen == serviceUpstreamNodes;
    }

    method AddOrUpdateNode(node: Node) returns (services: seq<string>)
      requires Valid()
      modifies this`nodes
      ensures Valid() && nodes == NodesAfter(old(nodes), node)
      ensures multiset(services) == AffectedBag(old(nodes), serviceUpstreamNodes, node)
    {
      services := [];
      if node.name !in nodes {
        nodes := nodes[node.name := node];
      } else {
        var elem := nodes[node.name];
        if node.active {
          nodes := nodes[node.name := node];
          if elem.internalIP != node.internalIP {
            services := ServiceListByNodeAddress(elem.internalIP);
          }
          if elem.externalIP != node.externalIP {
            var more := ServiceListByNodeAddress(elem.externalIP);
            services := services + more;
          }
        } else {
          nodes := nodes - {node.name};
          services := ServiceListByNodeName(node.name);
        }
      }
    }

    method DeleteNode(key: string) returns (services: seq<string>)
      requires Valid()
      modifies this`nodes
      ensures Valid() && nodes == old(nodes) - {key}
      ensures multiset(services) ==
              if key in old(nodes) then multiset(KeysByName(serviceUpstreamNodes, key)) else multiset{}
    {
      services := [];
      if key in nodes {
        services := AddOrUpdateNode(nodes[key].(active := false));
      }
    }

    /** `createPodStreamUpstream` and `createClusterStreamUpstream`. */
    method CreateSingleUpstream(spec: ServiceSpec, t: Target) returns (su: StreamUpstream)
      requires spec.upstreamType.Pod? || spec.upstreamType.ClusterIP?
      modifies this`serviceUpstreamTarget
      ensures su.name == TargetName(spec, t) && AllPlain(su.servers)
      ensures forall a :: multiset(Addresses(su.servers))[a] == TargetCount(nodes, spec, t, a)
    {
      var soFar := if spec.key in serviceUpstreamTarget then serviceUpstreamTarget[spec.key] else [];
      serviceUpstreamTarget := serviceUpstreamTarget[spec.key := soFar + [t]];
      var address := if spec.upstreamType.Pod? then PodAddress(t) else ClusterAddress(spec, t);
      su := StreamUpstream(UpstreamName(spec.service, t.portName), "", "", [PlainServer(address)]);
      assert Addresses(su.servers) == [address];
    }

    method CreateNodesUpstream(spec: ServiceSpec, t: Target) returns (su: StreamUpstream)
      requires Valid() && spec.upstreamType.HostNode?
      modifies this`serviceUpstreamNodes
      ensures su.name == TargetName(spec, t) && AllPlain(su.servers)
      ensures forall a :: multiset(Addresses(su.servers))[a] == TargetCount(nodes, spec, t, a)
      ensures IndexStep(nodes, spec, t, old(serviceUpstreamNodes), serviceUpstreamNodes)
    {
      var addressType := NodeAddressType(spec.service);
      var servers: seq<StreamUpstreamServer> := [];
      if NodeSet(spec.service).Host? {
        if t.nodeName in nodes {
          var node := nodes[t.nodeName];
          servers := [PlainServer(FormatAddress(addressType, node, t))];
          serviceUpstreamNodes := serviceUpstreamNodes[spec.key := [node]];
          assert Addresses(servers) == [FormatAddress(addressType, node, t)];
        } else {
          assert Addresses(servers) == [];
        }
      } else {
        var upstreamNodes: seq<Node>;
        servers, upstreamNodes := ListNodes(addressType, t);
        serviceUpstreamNodes := serviceUpstreamNodes[spec.key := upstreamNodes];
      }
      su := StreamUpstream(UpstreamName(spec.service, t.portName), "", "", servers);
    }

    /** The loop over the registry for node set `all`, in no particular order. */
    method ListNodes(addressType: AddressType, t: Target) returns (servers: seq<StreamUpstreamServer>, ns: seq<Node>)
      requires Valid()
      ensures NodeListing(nodes, addressType, t, servers, ns)
    {
      servers, ns := [], [];
      var rest := nodes.Keys;
      ghost var seen: map<string, Node> := map[];
      while rest != {}
        invariant rest <= nodes.Keys && seen.Keys == nodes.Keys - rest
        invariant forall k :: k in seen ==> seen[k] == nodes[k]
        invariant NodeListing(seen, addressType, t, servers, ns)
        decreases rest
      {
        var k :| k in rest;
        var node := nodes[k];
        NodeListingStep(seen, addressType, t, servers, ns, node);
        servers := servers + [PlainServer(FormatAddress(addressType, node, t))];
        ns := ns + [node];
        seen := seen[k := node];
        rest := rest - {k};
      }
      assert seen == nodes;
    }

    /** The switch on the upstream type; an unknown type leaves the zero value. */
    method CreateUpstream(spec: ServiceSpec, t: Target) returns (su: StreamUpstream)
      requires Valid()
      modifies this`serviceUpstreamNodes, this`serviceUpstreamTarget
      ensures su.name == TargetName(spec, t) && AllPlain(su.servers)
      ensures forall a :: multiset(Addresses(su.servers))[a] == TargetCount(nodes, spec, t, a)
      ensures IndexStep(nodes, spec, t, old(serviceUpstreamNodes), serviceUpstreamNodes)
    {
      su := StreamUpstream("", "", "", []);
      assert Addresses(su.servers) == [];
      if spec.upstreamType.HostNode? {
        su := CreateNodesUpstream(spec, t);
      } else if spec.upstreamType.Pod? || spec.upstreamType.ClusterIP? {
        su := CreateSingleUpstream(spec, t);
      }
    }

    /** One turn of the generator's loop: the target's upstream is new, or its servers join an existing one. */
    method AddTarget(spec: ServiceSpec, i: nat, ups: map<string, StreamUpstream>, servers: seq<StreamServer>)
      returns (newUps: map<string, StreamUpstream>, newServers: seq<StreamServer>)
      requires Valid() && i < |spec.topology|
      requires Collected(nodes, spec, spec.topology[..i], ups) && servers == ServersOf(spec, spec.topology[..i])
      modifies this`serviceUpstreamNodes, this`serviceUpstreamTarget
      ensures Collected(nodes, spec, spec.topology[..i + 1], newUps)
      ensures newServers == ServersOf(spec, spec.topology[..i + 1])
      ensures IndexStep(nodes, spec, spec.topology[i], old(serviceUpstreamNodes), serviceUpstreamNodes)
    {
      ghost var ts := spec.topology;
      var t := spec.topology[i];
      var su := CreateUpstream(spec, t);
      newServers := servers;
      ListenerStep(spec, ts, i);
      if su.name !in ups {
        su := su.(algorithm := if spec.algorithm != ROUND_ROBIN then spec.algorithm else "");
        su := su.(leastTimeMethod := if su.algorithm == LOWEST_LATENCY
                                     then ValidateMethod(OptionalString(METHOD_KEY, spec.service)) else "");
        CollectNew(nodes, spec, ts, i, ups, su);
        newUps := ups[su.name := su];
        var reading := ListenPort(spec, t);
        if reading.Found? {
          newServers := servers + [ServerFor(spec, t, reading.value)];
        }
      } else {
        CollectMore(nodes, spec, ts, i, ups, su);
        var elem := ups[su.name];
        newUps := ups[su.name := elem.(servers := elem.servers + su.servers)];
      }
    }

    method GenerateStreamConfig(spec: ServiceSpec) returns (cfg: StreamConfig)
      requires Valid()
      modifies this`serviceUpstreamNodes, this`serviceUpstreamTarget
      ensures Generates(nodes, spec, cfg)
      ensures IndexAfter(nodes, spec, spec.topology, old(serviceUpstreamNodes), serviceUpstreamNodes)
    {
      var ts := spec.topology;
      var ups: map<string, StreamUpstream> := map[];
      var servers: seq<StreamServer> := [];
      for i := 0 to |ts|
        invariant Collected(nodes, spec, ts[..i], ups)
        invariant servers == ServersOf(spec, ts[..i])
        invariant IndexAfter(nodes, spec, ts[..i], old(serviceUpstreamNodes), serviceUpstreamNodes)
      {
        ghost var index := serviceUpstreamNodes;
        ups, servers := AddTarget(spec, i, ups, servers);
        IndexExtend(nodes, spec, ts, i, old(serviceUpstreamNodes), index, serviceUpstreamNodes);
      }
      assert ts[..|ts|] == ts;
      var upstreams := MapToSlice(ups);
      cfg := StreamConfig(OptionalString(RESOLVER_KEY, spec.service), upstreams, servers);
    }

    method AddOrUpdateService(spec: ServiceSpec) returns (ok: bool)
      requires Valid()
      modifies this`serviceUpstreamNodes, this`serviceUpstreamTarget, this`files
      ensures ok == (cfgType == StreamCfg || cfgType == StreamHTTPCfg)
      ensures !ok ==> serviceUpstreamNodes == old(serviceUpstreamNodes) && files == old(files)
      ensures ok ==> IndexAfter(nodes, spec, spec.topology, old(serviceUpstreamNodes), serviceUpstreamNodes)
      ensures ok ==> spec.configName in files && Generates(nodes, spec, files[spec.configName])
      ensures ok ==> files == old(files)[spec.configName := files[spec.configName]]
    {
      if cfgType != StreamCfg && cfgType != StreamHTTPCfg {
        return false;
      }
      var cfg := GenerateStreamConfig(spec);
      files := files[spec.configName := cfg];
      return true;
    }

    /** `DeleteConfiguration` for stream files. The index is cleared under the file's name, not the service's key. */
    method DeleteStreamConfiguration(name: string)
      requires Valid()
      modifies this`serviceUpstreamNodes, this`serviceUpstreamTarget, this`files
      ensures serviceUpstreamNodes == old(serviceUpstreamNodes) - {name}
      ensures serviceUpstreamTarget == old(serviceUpstreamTarget) - {name}
      ensures files == if cfgType == LocalCfg then old(files) else old(files) - {name}
    {
      if cfgType != LocalCfg && name in files {
        files := files - {name};
      }
      serviceUpstreamNodes := serviceUpstreamNodes - {name};
      serviceUpstreamTarget := serviceUpstreamTarget - {name};
    }
  }

  /** Servers and index entries collected from part of the registry. */
  ghost predicate NodeListing(seen: map<string, Node>, addressType: AddressType, t: Target,
                              servers: seq<StreamUpstreamServer>, ns: seq<Node>) {
    && AllPlain(servers) && ListsRegistry(seen, ns)
    && forall a :: multiset(Addresses(servers))[a] == |NodesAt(seen, addressType, t, a)|
  }

  lemma OneMore<T>(before: set<T>, after: set<T>, k: T, hit: bool)
    requires k !in before && (k in after <==> hit) && forall n :: n != k ==> (n in after <==> n in before)
    ensures |after| == |before| + if hit then 1 else 0
  {
    assert after == before + if hit then {k} else {};
  }

  lemma NodesAtStep(seen: map<string, Node>, addressType: AddressType, t: Target, k: string, node: Node, a: string)
    requires k !in seen
    ensures |NodesAt(seen[k := node], addressType, t, a)| ==
            |NodesAt(seen, addressType, t, a)| + (if FormatAddress(addressType, node, t) == a then 1 else 0)
  {
    OneMore(NodesAt(seen, addressType, t, a), NodesAt(seen[k := node], addressType, t, a), k,
            FormatAddress(addressType, node, t) == a);
  }

  lemma AddressCountStep(servers: seq<StreamUpstreamServer>, address: string, a: string)
    ensures multiset(Addresses(servers + [PlainServer(address)]))[a] ==
            multiset(Addresses(servers))[a] + (if address == a then 1 else 0)
  {
    AddressesConcat(servers, [PlainServer(address)]);
    assert Addresses([PlainServer(address)]) == [address];
  }

  lemma NodeListingStep(seen: map<string, Node>, addressType: AddressType, t: Target,
                        servers: seq<StreamUpstreamServer>, ns: seq<Node>, node: Node)
    requires node.name !in seen && NodeListing(seen, addressType, t, servers, ns)
    ensures NodeListing(seen[node.name := node], addressType, t,
                        servers + [PlainServer(FormatAddress(addressType, node, t))], ns + [node])
  {
    var address := FormatAddress(addressType, node, t);
    var more, bigger := servers + [PlainServer(address)], seen[node.name := node];
    forall a ensures multiset(Addresses(more))[a] == |NodesAt(bigger, addressType, t, a)| {
      NodesAtStep(seen, addressType, t, node.name, node, a);
      AddressCountStep(servers, address, a);
    }
  }

  /** The final loop over the map of upstreams, in no particular order. */
  method MapToSlice(ups: map<string, StreamUpstream>) returns (us: seq<StreamUpstream>)
    requires forall name :: name in ups ==> ups[name].name == name
    ensures NamesDistinct(us)
    ensures forall name :: UpstreamNamed(us, name) <==> name in ups
    ensures forall i :: 0 <= i < |us| ==> us[i].name in ups && us[i] == ups[us[i].name]
  {
    us := [];
    var rest := ups.Keys;
    while rest != {}
      invariant rest <= ups.Keys
      invariant forall i :: 0 <= i < |us| ==> us[i].name in ups.Keys - rest && us[i] == ups[us[i].name]
      invariant forall name :: name in ups.Keys - rest ==> UpstreamNamed(us, name)
      invariant NamesDistinct(us)
      decreases rest
    {
      var k :| k in rest;
      ghost var before := us;
      us := us + [ups[k]];
      forall name | name in ups.Keys - (rest - {k}) ensures UpstreamNamed(us, name) {
        if name == k {
          assert us[|before|].name == k;
        } else {
          assert UpstreamNamed(before, name);
          var i :| 0 <= i < |before| && before[i].name == name;
          assert us[i].name == name;
        }
      }
      rest := rest - {k};
    }
  }
}
