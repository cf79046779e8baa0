/** The addresses in the files of services that balance over nodes. */
module NodeAddresses {
  import opened Text
  import opened Kube
  import opened Annotations
  import opened Topology
  import opened TopologyFacts
  import opened Witnesses
  import opened Stream
  import opened StreamFacts
  import opened Contents
  import opened RegistryFacts
  import opened Configurator
  import opened Reconcile
  import opened ReconcileInvariant
  import opened Convergence
  import opened Dangling
  import opened NodeRegistry

  // ----- where a server comes from -----

  /** A node target counts an address only when a node it is balanced over has it. */
  lemma CountedNode(nodes: map<string, Node>, spec: ServiceSpec, i: int, a: string) returns (k: string)
    requires spec.upstreamType.HostNode? && 0 <= i < |spec.topology|
    requires TargetCount(nodes, spec, spec.topology[i], a) > 0
    ensures k in nodes && nodes[k] in UsedNodes(nodes, spec)
    ensures Spreads(spec.service, spec.topology[i].nodeName, k)
    ensures NodeIP(spec.service, nodes[k]) + ":" + Itoa(spec.topology[i].nodePort) == a
  {
    var t := spec.topology[i];
    if NodeSet(spec.service).All? {
      k :| k in NodesAt(nodes, NodeAddressType(spec.service), t, a);
    } else {
      k := t.nodeName;
    }
    NodeSetSpelled(spec.service, t.nodeName, k);
    AddressSpelled(spec.service, nodes[k], t);
  }

  /** Every server of a node service's file has the address of a node that a target of the server's own upstream is
      balanced over. */
  lemma ServerNode(nodes: map<string, Node>, spec: ServiceSpec, cfg: StreamConfig, u: int, j: int)
    returns (k: string, i: int)
    requires Generates(nodes, spec, cfg) && spec.upstreamType.HostNode?
    requires 0 <= u < |cfg.upstreams| && 0 <= j < |cfg.upstreams[u].servers|
    ensures k in nodes && nodes[k] in UsedNodes(nodes, spec) && 0 <= i < |spec.topology|
    ensures UpstreamFrom(spec.service, spec.topology[i].portName) == cfg.upstreams[u].name
    ensures Spreads(spec.service, spec.topology[i].nodeName, k)
    ensures cfg.upstreams[u].servers[j].address ==
            NodeIP(spec.service, nodes[k]) + ":" + Itoa(spec.topology[i].nodePort)
  {
    var a := cfg.upstreams[u].servers[j].address;
    assert UpstreamFor(nodes, spec, spec.topology, cfg.upstreams[u]);
    assert Addresses(cfg.upstreams[u].servers)[j] == a;
    assert a in multiset(Addresses(cfg.upstreams[u].servers));
    i := CountedTarget(nodes, spec, spec.topology, cfg.upstreams[u].name, a);
    k := CountedNode(nodes, spec, i, a);
  }

  /** Some target of this upstream is balanced over a registered node that has this address for it. */
  predicate ServerRegistered(nodes: map<string, Node>, spec: ServiceSpec, name: string, a: string) {
    exists k, i :: k in nodes && 0 <= i < |spec.topology|
                   && Serves(nodes[k], spec.service, spec.topology[i], k, name, a)
  }

  predicate Serves(n: Node, s: Service, t: Target, k: string, name: string, a: string) {
    && UpstreamFrom(s, t.portName) == name && Spreads(s, t.nodeName, k)
    && NodeIP(s, n) + ":" + Itoa(t.nodePort) == a
  }

  predicate AddressesRegistered(nodes: map<string, Node>, spec: ServiceSpec, cfg: StreamConfig) {
    forall u, j :: 0 <= u < |cfg.upstreams| && 0 <= j < |cfg.upstreams[u].servers| ==>
      ServerRegistered(nodes, spec, cfg.upstreams[u].name, cfg.upstreams[u].servers[j].address)
  }

  lemma SurvivorsRegistered(nodes: map<string, Node>, at: map<string, Node>, spec: ServiceSpec, cfg: StreamConfig)
    requires Generates(at, spec, cfg) && spec.upstreamType.HostNode? && AllRegistered(nodes, UsedNodes(at, spec))
    requires Registry(at)
    ensures AddressesRegistered(nodes, spec, cfg)
  {
    forall u, j | 0 <= u < |cfg.upstreams| && 0 <= j < |cfg.upstreams[u].servers|
      ensures ServerRegistered(nodes, spec, cfg.upstreams[u].name, cfg.upstreams[u].servers[j].address)
    {
      var k, i := ServerNode(at, spec, cfg, u, j);
      assert StillRegistered(nodes, at[k]) && at[k].name == k;
      assert Serves(nodes[k], spec.service, spec.topology[i], k, cfg.upstreams[u].name,
                    cfg.upstreams[u].servers[j].address);
    }
  }

  // ----- from stored objects -----

  /** The address of a stored node that the service uses: the last one of its kind. */
  function StoredIP(s: Service, o: NodeObject): string {
    LastOfKind(o.addresses, if UsesExternal(s) then ExternalIPKind else InternalIPKind)
  }

  /** Some combination of the stored service and its stored endpoints belongs to the upstream and is balanced over a
      stored node, whose address with the node port is this one. */
  predicate ServerStored(nodeObjs: map<string, NodeObject>, s: Service, ss: seq<EndpointSubset>, name: string,
                         a: string) {
    exists k, t :: k in nodeObjs && t in Sites(s.ports, ss) && StoredServes(nodeObjs[k], s, ss, t, k, name, a)
  }

  predicate StoredServes(o: NodeObject, s: Service, ss: seq<EndpointSubset>, t: Site, k: string, name: string,
                         a: string)
    requires InBounds(s.ports, ss, t)
  {
    && UpstreamAt(s, ss, t) == name && Spreads(s, ss[t.subset].addresses[t.address].nodeName, k)
    && StoredIP(s, o) + ":" + Itoa(s.ports[t.port].nodePort) == a
  }

  predicate AddressesStored(nodeObjs: map<string, NodeObject>, s: Service, ss: seq<EndpointSubset>,
                            cfg: StreamConfig) {
    forall u, j :: 0 <= u < |cfg.upstreams| && 0 <= j < |cfg.upstreams[u].servers| ==>
      ServerStored(nodeObjs, s, ss, cfg.upstreams[u].name, cfg.upstreams[u].servers[j].address)
  }

  lemma RegisteredStored(nodeObjs: map<string, NodeObject>, nodes: map<string, Node>, store: map<string, Endpoints>,
                         key: string, s: Service, es: seq<Entry>, cfg: StreamConfig)
    requires (forall k :: Agrees(nodeObjs, nodes, k)) && IsListing(s, ListsOf(store, s), es)
    requires AddressesRegistered(nodes, MakeSpec(key, s, es), cfg)
    ensures AddressesStored(nodeObjs, s, SubsetsFor(store, s), cfg)
  {
    forall u, j | 0 <= u < |cfg.upstreams| && 0 <= j < |cfg.upstreams[u].servers|
      ensures ServerStored(nodeObjs, s, SubsetsFor(store, s), cfg.upstreams[u].name,
                           cfg.upstreams[u].servers[j].address)
    {
      var name, a := cfg.upstreams[u].name, cfg.upstreams[u].servers[j].address;
      assert ServerRegistered(nodes, MakeSpec(key, s, es), name, a);
      OneStored(nodeObjs, nodes, store, key, s, es, name, a);
    }
  }

  lemma OneStored(nodeObjs: map<string, NodeObject>, nodes: map<string, Node>, store: map<string, Endpoints>,
                  key: string, s: Service, es: seq<Entry>, name: string, a: string)
    requires (forall k :: Agrees(nodeObjs, nodes, k)) && IsListing(s, ListsOf(store, s), es)
    requires ServerRegistered(nodes, MakeSpec(key, s, es), name, a)
    ensures ServerStored(nodeObjs, s, SubsetsFor(store, s), name, a)
  {
    var spec, ss := MakeSpec(key, s, es), SubsetsFor(store, s);
    var k, i :| k in nodes && 0 <= i < |spec.topology| && Serves(nodes[k], s, spec.topology[i], k, name, a);
    var t := TargetSite(store, key, s, es, i);
    assert Agrees(nodeObjs, nodes, k);
    assert t in Sites(s.ports, ss) && StoredServes(nodeObjs[k], s, ss, t, k, name, a);
  }

  // ----- at every point of every run -----

  /** The file of `k` is one whose nodes the index names in full. */
  ghost predicate CoveredNodeFile(s: State, k: string) {
    && Alone(s.seen, k) && !InNamespace(k, "kube-system") && Stem(k) in s.files && Stem(k) in s.origins
    && var o := s.origins[Stem(k)]; o.key == k && BalancesNodes(o.svc) && Covered(o)
  }

  /** At every point of every run: each server of such a file has the address of a node that is registered now, or a
      rebuild of the file is pending. */
  lemma NoDanglingServers(c: Config, steps: seq<Step>, k: string)
    requires CanRun(c, INIT, steps)
    ensures var s := Run(c, INIT, steps);
            CoveredNodeFile(s, k) ==>
              Pending(c, s, k) || AddressesRegistered(s.nodes, s.origins[Stem(k)].Spec(), s.files[Stem(k)])
  {
    FilteredIff(k);
    InitBasics(c);
    RunKeepsBasics(c, INIT, steps);
    NoDanglingNodes(c, steps, k);
    var s := Run(c, INIT, steps);
    if CoveredNodeFile(s, k) && !Pending(c, s, k) {
      FileRegistered(c, s, k);
    }
  }

  lemma FileRegistered(c: Config, s: State, k: string)
    requires FilesOk(c, s.seen, s.files, s.origins) && CoveredNodeFile(s, k)
    requires AllRegistered(s.nodes, s.origins[Stem(k)].Used())
    ensures AddressesRegistered(s.nodes, s.origins[Stem(k)].Spec(), s.files[Stem(k)])
  {
    var o := s.origins[Stem(k)];
    assert OriginOk(s.seen, Stem(k), o, s.files[Stem(k)]);
    KindSpelled(o.svc);
    SurvivorsRegistered(s.nodes, o.nodes, o.Spec(), s.files[Stem(k)]);
  }

  // ----- when everything is settled -----

  /** A key the guarantees below are about: no shared file, not in the system namespace, not dropped by a failed
      lookup, stored, with a topology. */
  predicate Served(c: Config, s: State, k: string) {
    && Alone(s.seen, k) && !InNamespace(k, "kube-system") && k !in s.lost
    && k in s.services && !EmptyTopology(c, s.services, s.endpoints, k)
  }

  lemma NothingPending(c: Config, s: State, k: string)
    requires s.sw.SIdle? && s.ew.EIdle? && s.nw.NIdle? && s.sq.dirty == {} && s.eq.dirty == {}
    requires s.svcEvent.None? && s.epEvent.None? && Served(c, s, k)
    ensures !Pending(c, s, k)
  {
  }

  lemma QuietRegistered(c: Config, s: State, k: string)
    requires QueueOk(s.sq, ServiceBusy(s.sw)) && QueueOk(s.eq, EndpointsBusy(s.ew)) && QueueOk(s.nq, NodeBusy(s.nw))
    requires NodesOk(c, s, k) && Settled(s) && NodesSettled(s) && Served(c, s, k) && CoveredNodeFile(s, k)
    ensures AllRegistered(s.nodes, s.origins[Stem(k)].Used())
  {
    FilteredIff(k);
    KindSpelled(s.origins[Stem(k)].svc);
    SettledIdle(s);
    assert NodeBusy(s.nw) == {};
    NothingPending(c, s, k);
  }

  /** Everything is settled and the file of `k` is one of a service that balances over nodes. */
  ghost predicate SettledNodeFile(c: Config, s: State, k: string) {
    && Settled(s) && NodesSettled(s) && Served(c, s, k) && FileMatches(s, k)
    && BalancesNodes(s.services[k]) && Covered(s.origins[Stem(k)])
  }

  lemma SettledRegistered(c: Config, steps: seq<Step>, k: string)
    requires CanRun(c, INIT, steps)
    ensures var s := Run(c, INIT, steps);
            && Basics(c, s)
            && (Settled(s) && Served(c, s, k) ==> FileMatches(s, k))
            && (SettledNodeFile(c, s, k) ==> CoveredNodeFile(s, k) && AllRegistered(s.nodes, s.origins[Stem(k)].Used()))
  {
    InitBasics(c);
    RunKeepsBasics(c, INIT, steps);
    Convergence.Convergence(c, steps, k);
    NoDanglingNodes(c, steps, k);
    var s := Run(c, INIT, steps);
    if SettledNodeFile(c, s, k) {
      QuietRegistered(c, s, k);
    }
  }

  /** In every run, when everything is settled, a served key has a file that matches the stores; and if no node
      deletion was missed, each server of a node file whose nodes the index names in full has the address of a stored
      node that a combination of the stored service and endpoints, of the server's own upstream, is balanced over. */
  lemma NoDanglingAddresses(c: Config, steps: seq<Step>, k: string)
    requires CanRun(c, INIT, steps)
    ensures var s := Run(c, INIT, steps);
            && (Settled(s) && Served(c, s, k) ==> FileMatches(s, k))
            && (SettledNodeFile(c, s, k) && s.missed == {} ==>
                  AddressesStored(s.nodeObjs, s.services[k], SubsetsFor(s.endpoints, s.services[k]),
                                  s.files[Stem(k)]))
  {
    SettledRegistered(c, steps, k);
    var s := Run(c, INIT, steps);
    if SettledNodeFile(c, s, k) && s.missed == {} {
      forall n ensures Agrees(s.nodeObjs, s.nodes, n) {
        RegistryConverges(c, steps, n);
      }
      FileRegistered(c, s, k);
      RegisteredStored(s.nodeObjs, s.nodes, s.endpoints, k, s.services[k], s.origins[Stem(k)].entries,
                       s.files[Stem(k)]);
    }
  }

  /** In every run, when everything is settled: such a file is what the generator would make of the registry as it is
      now exactly when no node was registered since it was written that the service would balance over. */
  lemma CurrentRegistryIff(c: Config, steps: seq<Step>, k: string)
    requires CanRun(c, INIT, steps)
    ensures var s := Run(c, INIT, steps);
            SettledNodeFile(c, s, k) ==>
              var o := s.origins[Stem(k)];
              Generates(s.nodes, o.Spec(), s.files[Stem(k)]) <==> forall n :: !Joined(o.nodes, s.nodes, o.Spec(), n)
  {
    SettledRegistered(c, steps, k);
    var s := Run(c, INIT, steps);
    if SettledNodeFile(c, s, k) {
      RegistryStill(c, s, k);
    }
  }

  lemma RegistryStill(c: Config, s: State, k: string)
    requires FilesOk(c, s.seen, s.files, s.origins) && Registry(s.nodes) && CoveredNodeFile(s, k)
    requires AllRegistered(s.nodes, s.origins[Stem(k)].Used())
    ensures var o := s.origins[Stem(k)];
            Generates(s.nodes, o.Spec(), s.files[Stem(k)]) <==> forall n :: !Joined(o.nodes, s.nodes, o.Spec(), n)
  {
    var o := s.origins[Stem(k)];
    assert OriginOk(s.seen, Stem(k), o, s.files[Stem(k)]);
    KindSpelled(o.svc);
    StillGeneratedIff(o.nodes, s.nodes, o.Spec(), s.files[Stem(k)]);
  }

  // ----- when removals are reported -----

  /** Right after its configuration is generated, the removal of every node the configuration uses is reported for
      the service exactly when the node set is `all` or the registered targets share one node. */
  lemma RemovalsReportedIff(nodes: map<string, Node>, spec: ServiceSpec, before: map<string, seq<Node>>,
                            after: map<string, seq<Node>>)
    requires Registry(nodes) && spec.upstreamType.HostNode?
    requires IndexAfter(nodes, spec, spec.topology, before, after)
    ensures (forall n :: n in UsedNodes(nodes, spec) ==> spec.key in AffectedBag(nodes, after, n.(active := false)))
            <==> NodeSet(spec.service).All? || OneHost(nodes, spec.topology)
  {
    var used := UsedNodes(nodes, spec);
    IndexCoversIff(nodes, spec, before, after);
    forall n | n in used
      ensures spec.key in AffectedBag(nodes, after, n.(active := false)) <==> spec.key in after && n in after[spec.key]
    {
      IndexNames(nodes, spec, before, after, n);
    }
  }

  lemma IndexNames(nodes: map<string, Node>, spec: ServiceSpec, before: map<string, seq<Node>>,
                   after: map<string, seq<Node>>, n: Node)
    requires Registry(nodes) && spec.upstreamType.HostNode? && n in UsedNodes(nodes, spec)
    requires IndexAfter(nodes, spec, spec.topology, before, after)
    ensures spec.key in AffectedBag(nodes, after, n.(active := false)) <==> spec.key in after && n in after[spec.key]
  {
    assert n.name in nodes && nodes[n.name] == n;
    assert spec.key in after && forall m :: m in after[spec.key] ==> m.name in nodes && nodes[m.name] == m;
    assert HasName(after[spec.key], n.name) <==> n in after[spec.key];
  }

  const NAMED_NOTES := map[CLASS_KEY := CLASS_VALUE, PORT_BASE + "http" := Itoa(8080)]
  const TWO_PODS := [EndpointAddress("10.1.0.1", "a"), EndpointAddress("10.1.0.2", "b")]
  const TWO_NODES := map["a" := Node("a", "a", "", "10.0.0.1", true), "b" := Node("b", "b", "", "10.0.0.2", true)]

  /** A managed service with pods on two nodes, balanced over the nodes that host it. */
  lemma TwoHosts()
    ensures var s := Web("http", NAMED_NOTES);
            && Managed(DEFAULTS, s)
            && IsListing(s, ListsOf(WebStore("http", TWO_PODS), s), WebEntries("http", "http", NAMED_NOTES, TWO_PODS))
  {
    KeysDiffer("http");
    WebManaged("http", NAMED_NOTES, 8080);
    WebListing("http", "http", NAMED_NOTES, TWO_PODS);
  }

  lemma TwoHostsOptions()
    ensures var spec := WebSpec("http", "http", NAMED_NOTES, TWO_PODS);
            spec.upstreamType.HostNode? && NodeSet(spec.service).Host?
  {
    KeysDiffer("http");
  }

  lemma TwoHostsApart(ts: seq<Target>)
    requires |ts| == 2 && ts[0].nodeName == "a" && ts[1].nodeName == "b"
    ensures !OneHost(TWO_NODES, ts)
  {
    assert ts[0].nodeName in TWO_NODES && ts[1].nodeName in TWO_NODES && ts[0].nodeName[0] != ts[1].nodeName[0];
  }

  /** For it, whatever the index was before, some node its configuration uses can go without a report. */
  lemma FirstHostForgotten(before: map<string, seq<Node>>, after: map<string, seq<Node>>)
    requires var spec := WebSpec("http", "http", NAMED_NOTES, TWO_PODS);
             IndexAfter(TWO_NODES, spec, spec.topology, before, after)
    ensures var spec := WebSpec("http", "http", NAMED_NOTES, TWO_PODS);
            exists n :: n in UsedNodes(TWO_NODES, spec)
                        && spec.key !in AffectedBag(TWO_NODES, after, n.(active := false))
  {
    TwoHostsOptions();
    WebTopology("http", "http", NAMED_NOTES, TWO_PODS);
    TwoHostsApart(WebSpec("http", "http", NAMED_NOTES, TWO_PODS).topology);
    RemovalsReportedIff(TWO_NODES, WebSpec("http", "http", NAMED_NOTES, TWO_PODS), before, after);
  }
}
