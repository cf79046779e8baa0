/** What a generated file says, spelled out from the fields of the service, its Endpoints object and the registry, and
    from the texts of the annotations: a reference that uses none of the generator's own functions. */
module Contents {
  import opened Text
  import opened Kube
  import opened Annotations
  import opened Topology
  import opened TopologyFacts
  import opened Stream
  import opened StreamFacts
  import opened ListingFacts

  // ----- the reference -----

  /** The text of an annotation, empty when there is none. */
  function Note(s: Service, key: string): string { if key in s.annotations then s.annotations[key] else "" }

  predicate BalancesPods(s: Service) { Note(s, "loadbalancer.lbex/upstream-type") == "pod" }

  predicate BalancesClusterIP(s: Service) { Note(s, "loadbalancer.lbex/upstream-type") == "cluster-ip" }

  predicate BalancesNodes(s: Service) { !BalancesPods(s) && !BalancesClusterIP(s) }

  /** The node set is `all`, or the pod runs on the node. */
  predicate Spreads(s: Service, host: string, node: string) {
    Note(s, "loadbalancer.lbex/node-set") == "all" || host == node
  }

  predicate UsesExternal(s: Service) { Note(s, "loadbalancer.lbex/node-address-type") == "external" }

  function NodeIP(s: Service, n: Node): string { if UsesExternal(s) then n.externalIP else n.internalIP }

  /** The name of the upstream for endpoint ports of this name. */
  function UpstreamFrom(s: Service, epName: string): string {
    s.ns + "-" + s.name + "-" + (if epName == "" then "unnamed" else epName)
  }

  function EndPortAt(ss: seq<EndpointSubset>, t: Site): EndpointPort
    requires 0 <= t.subset < |ss| && 0 <= t.epPort < |ss[t.subset].ports|
  {
    ss[t.subset].ports[t.epPort]
  }

  function UpstreamAt(s: Service, ss: seq<EndpointSubset>, t: Site): string
    requires InBounds(s.ports, ss, t)
  {
    UpstreamFrom(s, EndPortAt(ss, t).name)
  }

  /** The registered nodes through which a combination puts the address `a` into the upstream `name`. Addresses of pods
      and of the cluster need no node; the empty name stands in for it. */
  function Through(nodes: map<string, Node>, s: Service, ss: seq<EndpointSubset>, t: Site, name: string, a: string)
    : set<string>
    requires InBounds(s.ports, ss, t)
  {
    var sp, ep, addr := s.ports[t.port], EndPortAt(ss, t), ss[t.subset].addresses[t.address];
    if UpstreamAt(s, ss, t) != name then {}
    else if BalancesPods(s) then (if addr.ip + ":" + Itoa(ep.port) == a then {""} else {})
    else if BalancesClusterIP(s) then (if s.clusterIP + ":" + Itoa(sp.port) == a then {""} else {})
    else set n | n in nodes && Spreads(s, addr.nodeName, n) && NodeIP(s, nodes[n]) + ":" + Itoa(sp.nodePort) == a
  }

  /** A combination of service port, subset, endpoint port and address, and a node it is balanced over. */
  datatype Route = Route(site: Site, node: string)

  function Routes(nodes: map<string, Node>, s: Service, ss: seq<EndpointSubset>, name: string, a: string): set<Route> {
    set t, n | t in Sites(s.ports, ss) && n in Through(nodes, s, ss, t, name, a) :: Route(t, n)
  }

  // ----- options -----

  lemma KindSpelled(s: Service)
    ensures ValidateUpstreamType(OptionalString(UPSTREAM_TYPE_KEY, s)) ==
            if BalancesPods(s) then Pod else if BalancesClusterIP(s) then ClusterIP else HostNode
  {
  }

  lemma NodeSetSpelled(s: Service, host: string, node: string)
    ensures Spreads(s, host, node) <==> NodeSet(s).All? || host == node
  {
  }

  lemma AddressSpelled(s: Service, n: Node, t: Target)
    ensures FormatAddress(NodeAddressType(s), n, t) == NodeIP(s, n) + ":" + Itoa(t.nodePort)
  {
  }

  // ----- one combination -----

  /** The target of a combination, from the fields of its parts. */
  function TargetAt(s: Service, ss: seq<EndpointSubset>, t: Site): Target
    requires InBounds(s.ports, ss, t)
  {
    var sp, ep, addr := s.ports[t.port], EndPortAt(ss, t), ss[t.subset].addresses[t.address];
    Target(sp.port, "", addr.nodeName, sp.nodePort, ep.name, addr.ip, ep.port, ep.protocol)
  }

  lemma NodesThrough(nodes: map<string, Node>, s: Service, t: Target, a: string)
    ensures |set n | n in nodes && Spreads(s, t.nodeName, n) && NodeIP(s, nodes[n]) + ":" + Itoa(t.nodePort) == a| ==
            NodeTargetCount(nodes, NodeSet(s), NodeAddressType(s), t, a)
  {
    var through := set n | n in nodes && Spreads(s, t.nodeName, n) && NodeIP(s, nodes[n]) + ":" + Itoa(t.nodePort) == a;
    forall n | n in nodes
      ensures FormatAddress(NodeAddressType(s), nodes[n], t) == NodeIP(s, nodes[n]) + ":" + Itoa(t.nodePort)
    {
      AddressSpelled(s, nodes[n], t);
    }
    forall n ensures Spreads(s, t.nodeName, n) <==> NodeSet(s).All? || t.nodeName == n {
      NodeSetSpelled(s, t.nodeName, n);
    }
    if NodeSet(s).All? {
      assert through == NodesAt(nodes, NodeAddressType(s), t, a);
    } else {
      assert through == if t.nodeName in nodes && a == FormatAddress(NodeAddressType(s), nodes[t.nodeName], t)
                        then {t.nodeName} else {};
    }
  }

  lemma ThroughCount(nodes: map<string, Node>, key: string, s: Service, es: seq<Entry>, ss: seq<EndpointSubset>,
                     t: Site, name: string, a: string)
    requires IsSite(s.ports, ss, t)
    ensures |Through(nodes, s, ss, t, name, a)| ==
            Contribution(nodes, MakeSpec(key, s, es), ToTarget(EndpointAt(s.ports, ss, t)), name, a)
  {
    KindSpelled(s);
    if BalancesNodes(s) {
      NodesThrough(nodes, s, TargetAt(s, ss, t), a);
    }
  }

  // ----- all combinations -----

  function RoutesOver(nodes: map<string, Node>, s: Service, ss: seq<EndpointSubset>, ts: seq<Site>, name: string,
                      a: string): set<Route> {
    set t, n | t in ts && InBounds(s.ports, ss, t) && n in Through(nodes, s, ss, t, name, a) :: Route(t, n)
  }

  function Tagged(t: Site, ns: set<string>): set<Route> { set n | n in ns :: Route(t, n) }

  lemma {:induction false} TaggedSize(t: Site, ns: set<string>)
    ensures |Tagged(t, ns)| == |ns|
  {
    if ns != {} {
      var n :| n in ns;
      TaggedSize(t, ns - {n});
      assert Tagged(t, ns) == Tagged(t, ns - {n}) + {Route(t, n)};
    }
  }

  lemma RoutesSplit(nodes: map<string, Node>, s: Service, ss: seq<EndpointSubset>, ts: seq<Site>, t: Site, name: string,
                    a: string)
    requires t !in ts && InBounds(s.ports, ss, t)
    ensures var before, last := RoutesOver(nodes, s, ss, ts, name, a), Tagged(t, Through(nodes, s, ss, t, name, a));
            RoutesOver(nodes, s, ss, ts + [t], name, a) == before + last && before !! last
  {
  }

  lemma RoutesStep(nodes: map<string, Node>, s: Service, ss: seq<EndpointSubset>, ts: seq<Site>, name: string,
                   a: string)
    requires |ts| > 0 && Distinct(ts) && InBounds(s.ports, ss, ts[|ts| - 1])
    ensures var n := |ts| - 1;
            |RoutesOver(nodes, s, ss, ts, name, a)| ==
            |RoutesOver(nodes, s, ss, ts[..n], name, a)| + |Through(nodes, s, ss, ts[n], name, a)|
  {
    var n := |ts| - 1;
    assert ts == ts[..n] + [ts[n]];
    RoutesSplit(nodes, s, ss, ts[..n], ts[n], name, a);
    TaggedSize(ts[n], Through(nodes, s, ss, ts[n], name, a));
  }

  lemma {:induction false} RoutesCount(nodes: map<string, Node>, key: string, s: Service, es: seq<Entry>,
                                       ss: seq<EndpointSubset>, ts: seq<Site>, eps: seq<Endpoint>, name: string,
                                       a: string)
    requires Enumerates(s.ports, ss, ts, eps)
    ensures GroupCount(nodes, MakeSpec(key, s, es), ToTargets(eps), name, a) ==
            |RoutesOver(nodes, s, ss, ts, name, a)|
    decreases |ts|
  {
    if |ts| > 0 {
      var n := |ts| - 1;
      RoutesCount(nodes, key, s, es, ss, ts[..n], eps[..n], name, a);
      RoutesStep(nodes, s, ss, ts, name, a);
      ThroughCount(nodes, key, s, es, ss, ts[n], name, a);
      assert ToTargets(eps)[..n] == ToTargets(eps[..n]);
      assert ToTargets(eps)[n] == ToTarget(EndpointAt(s.ports, ss, ts[n]));
    }
  }

  /** End to end, for every kind of service: the generated upstream lists an address exactly once for every combination
      of a service port, a subset, a selected endpoint port and an address in it, and every node it is balanced over,
      that give this address. */
  lemma UpstreamContents(store: map<string, Endpoints>, nodes: map<string, Node>, key: string, s: Service,
                         es: seq<Entry>, cfg: StreamConfig, u: int, a: string)
    requires IsListing(s, ListsOf(store, s), es) && Generates(nodes, MakeSpec(key, s, es), cfg)
    requires 0 <= u < |cfg.upstreams|
    ensures multiset(Addresses(cfg.upstreams[u].servers))[a] ==
            |Routes(nodes, s, SubsetsFor(store, s), cfg.upstreams[u].name, a)|
  {
    var spec, lists, ss, name := MakeSpec(key, s, es), ListsOf(store, s), SubsetsFor(store, s), cfg.upstreams[u].name;
    assert UpstreamFor(nodes, spec, spec.topology, cfg.upstreams[u]);
    FlatListing(s, lists, es);
    TargetsPermutation(FlatEndpoints(es), FlatLists(lists));
    GroupPermutation(nodes, spec, spec.topology, ToTargets(FlatLists(lists)), name, a);
    var ts := ServiceSites(store, s, |s.ports|);
    assert lists[..|s.ports|] == lists;
    RoutesCount(nodes, key, s, es, ss, ts, FlatLists(lists), name, a);
    assert RoutesOver(nodes, s, ss, ts, name, a) == Routes(nodes, s, ss, name, a);
  }

  // ----- targets and combinations -----

  /** The combinations behind the flattened listing. */
  lemma FlatSites(store: map<string, Endpoints>, s: Service, es: seq<Entry>) returns (ts: seq<Site>)
    requires IsListing(s, ListsOf(store, s), es)
    ensures multiset(FlatEndpoints(es)) == multiset(FlatLists(ListsOf(store, s)))
    ensures Enumerates(s.ports, SubsetsFor(store, s), ts, FlatLists(ListsOf(store, s)))
    ensures forall t :: t in ts <==> IsSite(s.ports, SubsetsFor(store, s), t)
  {
    FlatListing(s, ListsOf(store, s), es);
    ts := ServiceSites(store, s, |s.ports|);
    assert ListsOf(store, s)[..|s.ports|] == ListsOf(store, s);
  }

  lemma SameElement<T>(x: seq<T>, y: seq<T>, i: int) returns (k: int)
    requires multiset(x) == multiset(y) && 0 <= i < |x|
    ensures 0 <= k < |y| && y[k] == x[i]
  {
    assert x[i] in multiset(y);
    k :| 0 <= k < |y| && y[k] == x[i];
  }

  /** Every target of the specification is that of a combination. */
  lemma TargetSite(store: map<string, Endpoints>, key: string, s: Service, es: seq<Entry>, k: int) returns (t: Site)
    requires IsListing(s, ListsOf(store, s), es) && 0 <= k < |MakeSpec(key, s, es).topology|
    ensures IsSite(s.ports, SubsetsFor(store, s), t)
    ensures MakeSpec(key, s, es).topology[k] == TargetAt(s, SubsetsFor(store, s), t)
  {
    var ts := FlatSites(store, s, es);
    var i := SameElement(FlatEndpoints(es), FlatLists(ListsOf(store, s)), k);
    t := ts[i];
  }

  /** Every combination has a target. */
  lemma SiteTarget(store: map<string, Endpoints>, key: string, s: Service, es: seq<Entry>, t: Site) returns (k: int)
    requires IsListing(s, ListsOf(store, s), es) && IsSite(s.ports, SubsetsFor(store, s), t)
    ensures 0 <= k < |MakeSpec(key, s, es).topology|
    ensures MakeSpec(key, s, es).topology[k] == TargetAt(s, SubsetsFor(store, s), t)
  {
    var ts := FlatSites(store, s, es);
    var i :| 0 <= i < |ts| && ts[i] == t;
    k := SameElement(FlatLists(ListsOf(store, s)), FlatEndpoints(es), i);
  }

  lemma NameSpelled(key: string, s: Service, es: seq<Entry>, t: Target)
    ensures TargetName(MakeSpec(key, s, es), t) == UpstreamFrom(s, t.portName)
  {
    KindSpelled(s);
  }

  /** Some combination belongs to the upstream. */
  predicate Belongs(s: Service, ss: seq<EndpointSubset>, name: string) {
    exists t :: t in Sites(s.ports, ss) && UpstreamAt(s, ss, t) == name
  }

  lemma NamedIff(store: map<string, Endpoints>, key: string, s: Service, es: seq<Entry>, name: string)
    requires IsListing(s, ListsOf(store, s), es)
    ensures var spec := MakeSpec(key, s, es);
            NameIn(spec, spec.topology, name) <==> Belongs(s, SubsetsFor(store, s), name)
  {
    var spec, ss := MakeSpec(key, s, es), SubsetsFor(store, s);
    if NameIn(spec, spec.topology, name) {
      var k :| 0 <= k < |spec.topology| && TargetName(spec, spec.topology[k]) == name;
      var t := TargetSite(store, key, s, es, k);
      NameSpelled(key, s, es, spec.topology[k]);
      assert t in Sites(s.ports, ss) && UpstreamAt(s, ss, t) == name;
    }
    if Belongs(s, ss, name) {
      var t :| t in Sites(s.ports, ss) && UpstreamAt(s, ss, t) == name;
      var k := SiteTarget(store, key, s, es, t);
      NameSpelled(key, s, es, spec.topology[k]);
    }
  }

  // ----- settings -----

  /** The balancing directive: none for round robin, which is also the default. */
  function Directive(s: Service): string {
    var algorithm := Note(s, "loadbalancer.lbex/algorithm");
    if algorithm == "least_conn" || algorithm == "least_time" then algorithm else ""
  }

  const LATENCIES: seq<string> :=
    ["connect", "first_byte", "last_byte", "connect inflight", "first_byte inflight", "last_byte inflight"]

  /** What `least_time` measures, `connect` by default; other directives take no argument. */
  function Latency(s: Service): string {
    if Note(s, "loadbalancer.lbex/algorithm") != "least_time" then ""
    else if Note(s, "loadbalancer.lbex/method") in LATENCIES then Note(s, "loadbalancer.lbex/method") else "connect"
  }

  lemma AlgorithmSpelled(key: string, s: Service, es: seq<Entry>)
    ensures AlgorithmOf(MakeSpec(key, s, es)) == Directive(s)
  {
  }

  lemma MethodSpelled(key: string, s: Service, es: seq<Entry>)
    ensures MethodOf(MakeSpec(key, s, es)) == Latency(s)
  {
  }

  predicate Plain(server: StreamUpstreamServer) {
    && server.weight == "" && server.maxConns == "" && server.maxFails == "" && server.failTimeout == ""
    && !server.backup && !server.down
  }

  // ----- listeners -----

  /** The number in the port annotation for endpoint ports of this name. */
  function PortNote(s: Service, epName: string): Option<int> { Atoi(Note(s, "loadbalancer-port.lbex/" + epName)) }

  const UDP_SPELLINGS: seq<string> := ["udp", "udP", "uDp", "uDP", "Udp", "UdP", "UDp", "UDP"]

  const TRUE_SPELLINGS: seq<string> := ["1", "t", "T", "TRUE", "true", "True"]

  /** The listener that a combination asks for. */
  predicate Asks(s: Service, ss: seq<EndpointSubset>, t: Site, v: StreamServer)
    requires InBounds(s.ports, ss, t)
  {
    && v.proxyPassAddress == UpstreamAt(s, ss, t)
    && PortNote(s, EndPortAt(ss, t).name).Some?
    && v.listen.address == "" && v.listen.port == Itoa(PortNote(s, EndPortAt(ss, t).name).value)
    && (v.listen.udp <==> EndPortAt(ss, t).protocol in UDP_SPELLINGS)
    && (v.proxyPassthrough <==> Note(s, "loadbalancer.lbex/passthrough") in TRUE_SPELLINGS)
    && !v.proxyProtocol && v.proxyProtocolTimeout == ""
  }

  lemma PortSpelled(key: string, s: Service, es: seq<Entry>, t: Target)
    ensures var r, port := ListenPort(MakeSpec(key, s, es), t), PortNote(s, t.portName);
            (r.Found? <==> port.Some?) && (r.Found? ==> r.value == port.value)
  {
    assert Atoi("").None?;
  }

  lemma FoldSpelled(p: string)
    ensures EqualFold(p, "udp") <==> p in UDP_SPELLINGS
  {
    if EqualFold(p, "udp") {
      assert p == [p[0], p[1], p[2]];
    }
  }

  lemma PassthroughSpelled(s: Service)
    ensures OptionalBool(PASSTHROUGH_KEY, s) <==> Note(s, "loadbalancer.lbex/passthrough") in TRUE_SPELLINGS
  {
  }

  lemma AsksSpelled(key: string, s: Service, es: seq<Entry>, ss: seq<EndpointSubset>, t: Site)
    requires IsSite(s.ports, ss, t) && PortNote(s, EndPortAt(ss, t).name).Some?
    ensures var spec, u := MakeSpec(key, s, es), TargetAt(s, ss, t);
            ListenPort(spec, u).Found? && Asks(s, ss, t, ServerFor(spec, u, ListenPort(spec, u).value))
  {
    var u := TargetAt(s, ss, t);
    PortSpelled(key, s, es, u);
    FoldSpelled(u.protocol);
    PassthroughSpelled(s);
    NameSpelled(key, s, es, u);
  }

  /** Some combination asks for the listener. */
  ghost predicate Asked(s: Service, ss: seq<EndpointSubset>, v: StreamServer) {
    exists t :: t in Sites(s.ports, ss) && Asks(s, ss, t, v)
  }

  /** The upstream has combinations, and the ports of all of them have a number in their annotation. */
  predicate Annotated(s: Service, ss: seq<EndpointSubset>, name: string) {
    && Belongs(s, ss, name)
    && forall t :: t in Sites(s.ports, ss) && UpstreamAt(s, ss, t) == name ==> PortNote(s, EndPortAt(ss, t).name).Some?
  }

  predicate PassedTo(cfg: StreamConfig, name: string) {
    exists i :: 0 <= i < |cfg.servers| && cfg.servers[i].proxyPassAddress == name
  }

  lemma ListenerAsked(store: map<string, Endpoints>, nodes: map<string, Node>, key: string, s: Service, es: seq<Entry>,
                      cfg: StreamConfig, i: int)
    requires IsListing(s, ListsOf(store, s), es) && Generates(nodes, MakeSpec(key, s, es), cfg)
    requires 0 <= i < |cfg.servers|
    ensures Asked(s, SubsetsFor(store, s), cfg.servers[i])
  {
    var spec, ss := MakeSpec(key, s, es), SubsetsFor(store, s);
    var k := ServersSound(spec, spec.topology, i);
    var t := TargetSite(store, key, s, es, k);
    PortSpelled(key, s, es, spec.topology[k]);
    AsksSpelled(key, s, es, ss, t);
    assert t in Sites(s.ports, ss);
  }

  lemma AnnotatedListens(store: map<string, Endpoints>, nodes: map<string, Node>, key: string, s: Service,
                         es: seq<Entry>, cfg: StreamConfig, name: string)
    requires IsListing(s, ListsOf(store, s), es) && Generates(nodes, MakeSpec(key, s, es), cfg)
    requires Annotated(s, SubsetsFor(store, s), name)
    ensures PassedTo(cfg, name)
  {
    var spec, ss := MakeSpec(key, s, es), SubsetsFor(store, s);
    NamedIff(store, key, s, es, name);
    var k := FirstOf(spec, spec.topology, name);
    var t := TargetSite(store, key, s, es, k);
    NameSpelled(key, s, es, spec.topology[k]);
    assert t in Sites(s.ports, ss);
    PortSpelled(key, s, es, spec.topology[k]);
    ServersComplete(spec, spec.topology, k);
    var port := ListenPort(spec, spec.topology[k]).value;
    var i :| 0 <= i < |cfg.servers| && cfg.servers[i] == ServerFor(spec, spec.topology[k], port);
  }

  // ----- the whole file -----

  /** The file has exactly the upstreams of the service's combinations, each with the servers of its routes and the
      annotated settings. */
  ghost predicate SaysUpstreams(nodes: map<string, Node>, s: Service, ss: seq<EndpointSubset>, cfg: StreamConfig) {
    && NamesDistinct(cfg.upstreams)
    && (forall name :: UpstreamNamed(cfg.upstreams, name) <==> Belongs(s, ss, name))
    && (forall u, a :: 0 <= u < |cfg.upstreams| ==>
          multiset(Addresses(cfg.upstreams[u].servers))[a] == |Routes(nodes, s, ss, cfg.upstreams[u].name, a)|)
    && (forall u :: 0 <= u < |cfg.upstreams| ==>
          && cfg.upstreams[u].algorithm == Directive(s) && cfg.upstreams[u].leastTimeMethod == Latency(s)
          && forall j :: 0 <= j < |cfg.upstreams[u].servers| ==> Plain(cfg.upstreams[u].servers[j]))
  }

  /** It has at most one listener for an upstream, only such as some combination asks for, and one for every upstream
      all of whose ports are annotated. */
  ghost predicate SaysListeners(s: Service, ss: seq<EndpointSubset>, cfg: StreamConfig) {
    && (forall i :: 0 <= i < |cfg.servers| ==> Asked(s, ss, cfg.servers[i]))
    && (forall i, j :: 0 <= i < j < |cfg.servers| ==>
          cfg.servers[i].proxyPassAddress != cfg.servers[j].proxyPassAddress)
    && (forall name :: Annotated(s, ss, name) ==> PassedTo(cfg, name))
  }

  ghost predicate Says(nodes: map<string, Node>, s: Service, ss: seq<EndpointSubset>, cfg: StreamConfig) {
    && cfg.resolver == Note(s, "loadbalancer.lbex/resolver")
    && SaysUpstreams(nodes, s, ss, cfg) && SaysListeners(s, ss, cfg)
  }

  lemma UpstreamsSaid(store: map<string, Endpoints>, nodes: map<string, Node>, key: string, s: Service, es: seq<Entry>,
                      cfg: StreamConfig)
    requires IsListing(s, ListsOf(store, s), es) && Generates(nodes, MakeSpec(key, s, es), cfg)
    ensures SaysUpstreams(nodes, s, SubsetsFor(store, s), cfg)
  {
    var spec := MakeSpec(key, s, es);
    forall name ensures UpstreamNamed(cfg.upstreams, name) <==> Belongs(s, SubsetsFor(store, s), name) {
      NamedIff(store, key, s, es, name);
    }
    forall u, a | 0 <= u < |cfg.upstreams|
      ensures multiset(Addresses(cfg.upstreams[u].servers))[a] ==
              |Routes(nodes, s, SubsetsFor(store, s), cfg.upstreams[u].name, a)|
    {
      UpstreamContents(store, nodes, key, s, es, cfg, u, a);
    }
    AlgorithmSpelled(key, s, es);
    MethodSpelled(key, s, es);
    forall u | 0 <= u < |cfg.upstreams|
      ensures cfg.upstreams[u].algorithm == Directive(s) && cfg.upstreams[u].leastTimeMethod == Latency(s)
      ensures forall j :: 0 <= j < |cfg.upstreams[u].servers| ==> Plain(cfg.upstreams[u].servers[j])
    {
      assert UpstreamFor(nodes, spec, spec.topology, cfg.upstreams[u]);
    }
  }

  lemma ListenersSaid(store: map<string, Endpoints>, nodes: map<string, Node>, key: string, s: Service, es: seq<Entry>,
                      cfg: StreamConfig)
    requires IsListing(s, ListsOf(store, s), es) && Generates(nodes, MakeSpec(key, s, es), cfg)
    ensures SaysListeners(s, SubsetsFor(store, s), cfg)
  {
    var spec := MakeSpec(key, s, es);
    forall i | 0 <= i < |cfg.servers| ensures Asked(s, SubsetsFor(store, s), cfg.servers[i]) {
      ListenerAsked(store, nodes, key, s, es, cfg, i);
    }
    ServersDistinct(spec, spec.topology);
    forall name | Annotated(s, SubsetsFor(store, s), name) ensures PassedTo(cfg, name) {
      AnnotatedListens(store, nodes, key, s, es, cfg, name);
    }
  }

  /** Every configuration generated from the stores says what their objects call for. */
  lemma GeneratedSays(store: map<string, Endpoints>, nodes: map<string, Node>, key: string, s: Service, es: seq<Entry>,
                      cfg: StreamConfig)
    requires IsListing(s, ListsOf(store, s), es) && Generates(nodes, MakeSpec(key, s, es), cfg)
    ensures Says(nodes, s, SubsetsFor(store, s), cfg)
  {
    UpstreamsSaid(store, nodes, key, s, es, cfg);
    ListenersSaid(store, nodes, key, s, es, cfg);
  }
}
