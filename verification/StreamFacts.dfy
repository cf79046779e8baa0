/** Properties of generated stream configurations: well-formedness, conservation of pod addresses, balance
    weights, soundness of listen ports, independence of history, names, and what the index of nodes covers. */
module StreamFacts {
  import opened Text
  import opened Kube
  import opened Topology
  import opened TopologyFacts
  import opened Stream

  // ----- listeners and upstreams -----

  predicate IsFirst(spec: ServiceSpec, ts: seq<Target>, k: int) {
    0 <= k < |ts| && forall j :: 0 <= j < k ==> TargetName(spec, ts[j]) != TargetName(spec, ts[k])
  }

  /** A listener made from the target at `k`, the first of its upstream. */
  predicate MadeFrom(spec: ServiceSpec, ts: seq<Target>, k: int, server: StreamServer) {
    IsFirst(spec, ts, k) && ListenPort(spec, ts[k]).Found?
    && server == ServerFor(spec, ts[k], ListenPort(spec, ts[k]).value)
  }

  lemma IsFirstPrefix(spec: ServiceSpec, ts: seq<Target>, n: nat, k: int)
    requires n <= |ts| && k < n
    ensures IsFirst(spec, ts[..n], k) <==> IsFirst(spec, ts, k)
  {
    if 0 <= k {
      assert forall j :: 0 <= j <= k ==> ts[..n][j] == ts[j];
    }
  }

  lemma NameInIsFirst(spec: ServiceSpec, ts: seq<Target>, n: nat)
    requires n < |ts|
    ensures IsFirst(spec, ts, n) <==> !NameIn(spec, ts[..n], TargetName(spec, ts[n]))
  {
    assert forall j :: 0 <= j < n ==> ts[..n][j] == ts[j];
  }

  lemma MadeFromPrefix(spec: ServiceSpec, ts: seq<Target>, n: nat, k: int, server: StreamServer)
    requires n <= |ts| && k < n
    ensures MadeFrom(spec, ts[..n], k, server) <==> MadeFrom(spec, ts, k, server)
  {
    IsFirstPrefix(spec, ts, n, k);
  }

  /** Every listener comes from the first target of an upstream. */
  lemma {:induction false} ServersSound(spec: ServiceSpec, ts: seq<Target>, i: int) returns (k: int)
    requires 0 <= i < |ServersOf(spec, ts)|
    ensures MadeFrom(spec, ts, k, ServersOf(spec, ts)[i])
    decreases |ts|
  {
    var n := |ts| - 1;
    NameInIsFirst(spec, ts, n);
    if i < |ServersOf(spec, ts[..n])| {
      k := ServersSound(spec, ts[..n], i);
      MadeFromPrefix(spec, ts, n, k, ServersOf(spec, ts[..n])[i]);
    } else {
      k := n;
    }
  }

  /** Later targets add listeners and remove none. */
  lemma {:induction false} ServersStay(spec: ServiceSpec, ts: seq<Target>, v: StreamServer)
    requires |ts| > 0 && v in ServersOf(spec, ts[..|ts| - 1])
    ensures v in ServersOf(spec, ts)
  {
  }

  lemma {:induction false} ServersAddLast(spec: ServiceSpec, ts: seq<Target>)
    requires |ts| > 0 && IsFirst(spec, ts, |ts| - 1) && ListenPort(spec, ts[|ts| - 1]).Found?
    ensures ServerFor(spec, ts[|ts| - 1], ListenPort(spec, ts[|ts| - 1]).value) in ServersOf(spec, ts)
  {
    NameInIsFirst(spec, ts, |ts| - 1);
  }

  /** Every first target with a readable port annotation has a listener. */
  lemma {:induction false} ServersComplete(spec: ServiceSpec, ts: seq<Target>, k: int)
    requires IsFirst(spec, ts, k) && ListenPort(spec, ts[k]).Found?
    ensures ServerFor(spec, ts[k], ListenPort(spec, ts[k]).value) in ServersOf(spec, ts)
    decreases |ts|
  {
    var n := |ts| - 1;
    if k == n {
      ServersAddLast(spec, ts);
    } else {
      IsFirstPrefix(spec, ts, n, k);
      assert ts[..n][k] == ts[k];
      ServersComplete(spec, ts[..n], k);
      ServersStay(spec, ts, ServerFor(spec, ts[k], ListenPort(spec, ts[k]).value));
    }
  }

  predicate PassesDistinct(servers: seq<StreamServer>) {
    forall i, j :: 0 <= i < j < |servers| ==> servers[i].proxyPassAddress != servers[j].proxyPassAddress
  }

  predicate HasListener(servers: seq<StreamServer>, name: string) {
    exists i :: 0 <= i < |servers| && servers[i].proxyPassAddress == name
  }

  lemma AppendPass(servers: seq<StreamServer>, last: StreamServer)
    requires PassesDistinct(servers) && !HasListener(servers, last.proxyPassAddress)
    ensures PassesDistinct(servers + [last])
  {
  }

  lemma PassesOthers(spec: ServiceSpec, ts: seq<Target>)
    requires |ts| > 0 && IsFirst(spec, ts, |ts| - 1)
    ensures !HasListener(ServersOf(spec, ts[..|ts| - 1]), TargetName(spec, ts[|ts| - 1]))
  {
    var n := |ts| - 1;
    var before := ServersOf(spec, ts[..n]);
    forall i | 0 <= i < |before| ensures before[i].proxyPassAddress != TargetName(spec, ts[n]) {
      var k := ServersSound(spec, ts[..n], i);
      assert ts[..n][k] == ts[k];
    }
  }

  lemma {:induction false} ServersDistinct(spec: ServiceSpec, ts: seq<Target>)
    ensures PassesDistinct(ServersOf(spec, ts))
    decreases |ts|
  {
    if |ts| > 0 {
      ServersDistinct(spec, ts[..|ts| - 1]);
      ServersDistinctStep(spec, ts);
    }
  }

  lemma {:induction false} ServersDistinctStep(spec: ServiceSpec, ts: seq<Target>)
    requires |ts| > 0 && PassesDistinct(ServersOf(spec, ts[..|ts| - 1]))
    ensures PassesDistinct(ServersOf(spec, ts))
  {
    var n := |ts| - 1;
    NameInIsFirst(spec, ts, n);
    if IsFirst(spec, ts, n) && ListenPort(spec, ts[n]).Found? {
      PassesOthers(spec, ts);
      AppendPass(ServersOf(spec, ts[..n]), ServerFor(spec, ts[n], ListenPort(spec, ts[n]).value));
    }
  }

  lemma {:induction false} FirstOf(spec: ServiceSpec, ts: seq<Target>, name: string) returns (k: int)
    requires NameIn(spec, ts, name)
    ensures IsFirst(spec, ts, k) && TargetName(spec, ts[k]) == name
    decreases |ts|
  {
    var n := |ts| - 1;
    if NameIn(spec, ts[..n], name) {
      k := FirstOf(spec, ts[..n], name);
      IsFirstPrefix(spec, ts, n, k);
    } else {
      assert forall i :: 0 <= i < n ==> ts[..n][i] == ts[i];
      k := n;
      NameInIsFirst(spec, ts, n);
    }
  }

  /** Each upstream passes to at most one listener, and has one exactly when the port annotation of its
      first target is readable; each listener passes to exactly one emitted upstream. */
  ghost predicate WellFormed(spec: ServiceSpec, cfg: StreamConfig) {
    && NamesDistinct(cfg.upstreams) && PassesDistinct(cfg.servers)
    && (forall i :: 0 <= i < |cfg.servers| ==> UpstreamNamed(cfg.upstreams, cfg.servers[i].proxyPassAddress))
    && (forall u :: 0 <= u < |cfg.upstreams| ==> ListenerRule(spec, cfg, cfg.upstreams[u].name))
  }

  ghost predicate ListenerRule(spec: ServiceSpec, cfg: StreamConfig, name: string) {
    exists k :: IsFirst(spec, spec.topology, k) && TargetName(spec, spec.topology[k]) == name
                && (HasListener(cfg.servers, name) <==> ListenPort(spec, spec.topology[k]).Found?)
  }

  lemma GeneratedWellFormed(nodes: map<string, Node>, spec: ServiceSpec, cfg: StreamConfig)
    requires Generates(nodes, spec, cfg)
    ensures WellFormed(spec, cfg)
  {
    ServersDistinct(spec, spec.topology);
    forall i | 0 <= i < |cfg.servers| ensures UpstreamNamed(cfg.upstreams, cfg.servers[i].proxyPassAddress) {
      ListenerNamesTarget(spec, spec.topology, i);
    }
    forall u | 0 <= u < |cfg.upstreams| ensures ListenerRule(spec, cfg, cfg.upstreams[u].name) {
      assert UpstreamNamed(cfg.upstreams, cfg.upstreams[u].name);
      ListenerRuleHolds(spec, cfg, cfg.upstreams[u].name);
    }
  }

  lemma ListenerNamesTarget(spec: ServiceSpec, ts: seq<Target>, i: int)
    requires 0 <= i < |ServersOf(spec, ts)|
    ensures NameIn(spec, ts, ServersOf(spec, ts)[i].proxyPassAddress)
  {
    var k := ServersSound(spec, ts, i);
  }

  lemma ListenerRuleHolds(spec: ServiceSpec, cfg: StreamConfig, name: string)
    requires cfg.servers == ServersOf(spec, spec.topology) && NameIn(spec, spec.topology, name)
    ensures ListenerRule(spec, cfg, name)
  {
    var k := FirstOf(spec, spec.topology, name);
    ListenerIff(spec, spec.topology, k);
  }

  lemma ListenerIff(spec: ServiceSpec, ts: seq<Target>, k: int)
    requires IsFirst(spec, ts, k)
    ensures HasListener(ServersOf(spec, ts), TargetName(spec, ts[k])) <==> ListenPort(spec, ts[k]).Found?
  {
    var servers, name := ServersOf(spec, ts), TargetName(spec, ts[k]);
    if ListenPort(spec, ts[k]).Found? {
      ServersComplete(spec, ts, k);
    }
    if HasListener(servers, name) {
      var i :| 0 <= i < |servers| && servers[i].proxyPassAddress == name;
      var j := ServersSound(spec, ts, i);
      assert j == k;
    }
  }

  // ----- conservation -----

  /** All upstream server addresses of a configuration. */
  function ConfigAddresses(us: seq<StreamUpstream>): multiset<string> {
    if |us| == 0 then multiset{}
    else ConfigAddresses(us[..|us| - 1]) + multiset(Addresses(us[|us| - 1].servers))
  }

  /** How many servers with address `a` a list of targets calls for. */
  function TopologyCount(nodes: map<string, Node>, spec: ServiceSpec, ts: seq<Target>, a: string): nat {
    if |ts| == 0 then 0 else TopologyCount(nodes, spec, ts[..|ts| - 1], a) + TargetCount(nodes, spec, ts[|ts| - 1], a)
  }

  function SumGroups(nodes: map<string, Node>, spec: ServiceSpec, ts: seq<Target>, us: seq<StreamUpstream>,
                     a: string): nat {
    if |us| == 0 then 0
    else SumGroups(nodes, spec, ts, us[..|us| - 1], a) + GroupCount(nodes, spec, ts, us[|us| - 1].name, a)
  }

  lemma {:induction false} AddressesAreGroups(nodes: map<string, Node>, spec: ServiceSpec, ts: seq<Target>,
                                              us: seq<StreamUpstream>, a: string)
    requires forall i :: 0 <= i < |us| ==> UpstreamFor(nodes, spec, ts, us[i])
    ensures ConfigAddresses(us)[a] == SumGroups(nodes, spec, ts, us, a)
    decreases |us|
  {
    if |us| > 0 {
      var n := |us| - 1;
      AddressesAreGroups(nodes, spec, ts, us[..n], a);
      assert UpstreamFor(nodes, spec, ts, us[n]);
    }
  }

  /** One more target adds its count once, in the one upstream that bears its name. */
  lemma {:induction false} SumGroupsStep(nodes: map<string, Node>, spec: ServiceSpec, ts: seq<Target>,
                                         us: seq<StreamUpstream>, a: string)
    requires |ts| > 0 && NamesDistinct(us)
    ensures var n := |ts| - 1;
            SumGroups(nodes, spec, ts, us, a) == SumGroups(nodes, spec, ts[..n], us, a)
              + (if UpstreamNamed(us, TargetName(spec, ts[n])) then TargetCount(nodes, spec, ts[n], a) else 0)
    decreases |us|
  {
    var n := |ts| - 1;
    var name := TargetName(spec, ts[n]);
    if |us| > 0 {
      var m := |us| - 1;
      SumGroupsStep(nodes, spec, ts, us[..m], a);
      NamedStep(us, name);
    }
  }

  lemma NamedStep(us: seq<StreamUpstream>, name: string)
    requires |us| > 0 && NamesDistinct(us)
    ensures var m := |us| - 1;
            && (UpstreamNamed(us, name) <==> UpstreamNamed(us[..m], name) || us[m].name == name)
            && !(UpstreamNamed(us[..m], name) && us[m].name == name)
  {
    var m := |us| - 1;
    assert forall i :: 0 <= i < m ==> us[..m][i] == us[i];
    if UpstreamNamed(us, name) && us[m].name != name {
      var i :| 0 <= i < |us| && us[i].name == name;
      assert us[..m][i].name == name;
    }
  }

  lemma {:induction false} GroupsPartition(nodes: map<string, Node>, spec: ServiceSpec, ts: seq<Target>,
                                           us: seq<StreamUpstream>, a: string)
    requires NamesDistinct(us)
    requires forall i :: 0 <= i < |ts| ==> UpstreamNamed(us, TargetName(spec, ts[i]))
    ensures SumGroups(nodes, spec, ts, us, a) == TopologyCount(nodes, spec, ts, a)
    decreases |ts|
  {
    if |ts| == 0 {
      SumGroupsEmpty(nodes, spec, us, a);
    } else {
      var n := |ts| - 1;
      assert forall i :: 0 <= i < n ==> ts[..n][i] == ts[i];
      GroupsPartition(nodes, spec, ts[..n], us, a);
      SumGroupsStep(nodes, spec, ts, us, a);
    }
  }

  lemma {:induction false} SumGroupsEmpty(nodes: map<string, Node>, spec: ServiceSpec, us: seq<StreamUpstream>,
                                          a: string)
    ensures SumGroups(nodes, spec, [], us, a) == 0
    decreases |us|
  {
    if |us| > 0 {
      SumGroupsEmpty(nodes, spec, us[..|us| - 1], a);
    }
  }

  /** Grouping by upstream loses and invents nothing, for every upstream type. */
  lemma GroupingConserves(nodes: map<string, Node>, spec: ServiceSpec, cfg: StreamConfig, a: string)
    requires Generates(nodes, spec, cfg)
    ensures ConfigAddresses(cfg.upstreams)[a] == TopologyCount(nodes, spec, spec.topology, a)
  {
    AddressesAreGroups(nodes, spec, spec.topology, cfg.upstreams, a);
    forall i | 0 <= i < |spec.topology| ensures UpstreamNamed(cfg.upstreams, TargetName(spec, spec.topology[i])) {
      assert NameIn(spec, spec.topology, TargetName(spec, spec.topology[i]));
    }
    GroupsPartition(nodes, spec, spec.topology, cfg.upstreams, a);
  }

  function PodAddresses(eps: seq<Endpoint>): (r: seq<string>)
    ensures |r| == |eps|
  {
    seq(|eps|, i requires 0 <= i < |eps| => PodAddress(ToTarget(eps[i])))
  }

  lemma PodTargetCount(nodes: map<string, Node>, spec: ServiceSpec, t: Target, a: string)
    requires spec.upstreamType.Pod?
    ensures TargetCount(nodes, spec, t, a) == if a == PodAddress(t) then 1 else 0
  {
  }

  lemma AppendCount(xs: seq<string>, x: string, a: string)
    ensures multiset(xs + [x])[a] == multiset(xs)[a] + (if a == x then 1 else 0)
  {
  }

  lemma SplitLast(eps: seq<Endpoint>)
    requires |eps| > 0
    ensures var n := |eps| - 1;
            && ToTargets(eps)[..n] == ToTargets(eps[..n]) && ToTargets(eps)[n] == ToTarget(eps[n])
            && PodAddresses(eps) == PodAddresses(eps[..n]) + [PodAddress(ToTarget(eps[n]))]
  {
  }

  lemma {:induction false} PodCount(nodes: map<string, Node>, spec: ServiceSpec, eps: seq<Endpoint>, a: string)
    requires spec.upstreamType.Pod?
    ensures TopologyCount(nodes, spec, ToTargets(eps), a) == multiset(PodAddresses(eps))[a]
    decreases |eps|
  {
    if |eps| > 0 {
      PodCount(nodes, spec, eps[..|eps| - 1], a);
      PodCountStep(nodes, spec, eps, a);
    }
  }

  lemma {:induction false} PodCountStep(nodes: map<string, Node>, spec: ServiceSpec, eps: seq<Endpoint>, a: string)
    requires spec.upstreamType.Pod? && |eps| > 0
    requires TopologyCount(nodes, spec, ToTargets(eps[..|eps| - 1]), a) == multiset(PodAddresses(eps[..|eps| - 1]))[a]
    ensures TopologyCount(nodes, spec, ToTargets(eps), a) == multiset(PodAddresses(eps))[a]
  {
    var n := |eps| - 1;
    SplitLast(eps);
    AppendCount(PodAddresses(eps[..n]), PodAddress(ToTarget(eps[n])), a);
    PodTargetCount(nodes, spec, ToTarget(eps[n]), a);
  }

  lemma PodAddressesWithout(x: seq<Endpoint>, k: nat)
    requires k < |x|
    ensures PodAddresses(x)[..k] + PodAddresses(x)[k + 1..] == PodAddresses(x[..k] + x[k + 1..])
  {
  }

  lemma PodAddressesRemove(x: seq<Endpoint>, k: nat)
    requires k < |x|
    ensures multiset(PodAddresses(x)) ==
            multiset(PodAddresses(x[..k] + x[k + 1..])) + multiset{PodAddress(ToTarget(x[k]))}
  {
    MultisetRemove(PodAddresses(x), k);
    PodAddressesWithout(x, k);
  }

  lemma PodAddressesPick(x: seq<Endpoint>, y: seq<Endpoint>) returns (rest: seq<Endpoint>)
    requires |x| > 0 && multiset(x) == multiset(y)
    ensures multiset(x[1..]) == multiset(rest)
    ensures multiset(PodAddresses(x)) == multiset(PodAddresses(x[1..])) + multiset{PodAddress(ToTarget(x[0]))}
    ensures multiset(PodAddresses(y)) == multiset(PodAddresses(rest)) + multiset{PodAddress(ToTarget(x[0]))}
  {
    var k := PickFirst(x, y);
    rest := y[..k] + y[k + 1..];
    assert x[..0] + x[1..] == x[1..];
    PodAddressesRemove(x, 0);
    PodAddressesRemove(y, k);
  }

  /** Reordering endpoints reorders their addresses. */
  lemma {:induction false} PodAddressesPermutation(x: seq<Endpoint>, y: seq<Endpoint>)
    requires multiset(x) == multiset(y)
    ensures multiset(PodAddresses(x)) == multiset(PodAddresses(y))
    decreases |x|
  {
    if |x| == 0 {
      EmptyBag(y);
    } else {
      var rest := PodAddressesPick(x, y);
      PodAddressesPermutation(x[1..], rest);
    }
  }

  /** The combinations of service port, subset, matching endpoint port and address behind a pod address. */
  function SitesAtAddress(ps: seq<ServicePort>, ss: seq<EndpointSubset>, a: string): set<Site> {
    set t | t in Sites(ps, ss)
            && ss[t.subset].addresses[t.address].ip + ":" + Itoa(ss[t.subset].ports[t.epPort].port) == a
  }

  lemma CountAddresses(ps: seq<ServicePort>, ss: seq<EndpointSubset>, ts: seq<Site>, eps: seq<Endpoint>, a: string)
    requires Enumerates(ps, ss, ts, eps) && forall t :: t in ts <==> IsSite(ps, ss, t)
    ensures multiset(PodAddresses(eps))[a] == |SitesAtAddress(ps, ss, a)|
  {
    var xs := PodAddresses(eps);
    CountSites(ts, xs, a);
    var hits := Hits(ts, xs, a);
    forall t | t in hits ensures t in SitesAtAddress(ps, ss, a) {
      HitsListed(ts, xs, a, t);
      var i :| 0 <= i < |ts| && ts[i] == t && xs[i] == a;
      assert IsSite(ps, ss, ts[i]);
    }
    forall t | t in SitesAtAddress(ps, ss, a) ensures t in hits {
      var i :| 0 <= i < |ts| && ts[i] == t;
      assert xs[i] == a;
    }
    assert hits == SitesAtAddress(ps, ss, a);
  }

  /** End to end, for a pod service: the generated configuration contains each pod address as many times as
      there are matching combinations in the service and its Endpoints object with that IP and port. Filtering,
      sorting, flattening and grouping neither drop nor add a server. */
  lemma PodConservation(store: map<string, Endpoints>, nodes: map<string, Node>, key: string, s: Service,
                        es: seq<Entry>, cfg: StreamConfig, a: string)
    requires IsListing(s, ListsOf(store, s), es)
    requires "loadbalancer.lbex/upstream-type" in s.annotations
             && s.annotations["loadbalancer.lbex/upstream-type"] == "pod"
    requires Generates(nodes, MakeSpec(key, s, es), cfg)
    ensures ConfigAddresses(cfg.upstreams)[a] == |SitesAtAddress(s.ports, SubsetsFor(store, s), a)|
  {
    var spec, lists, flat := MakeSpec(key, s, es), ListsOf(store, s), FlatEndpoints(es);
    GroupingConserves(nodes, spec, cfg, a);
    PodCount(nodes, spec, flat, a);
    FlatListing(s, lists, es);
    PodAddressesPermutation(flat, FlatLists(lists));
    var ts := ServiceSites(store, s, |s.ports|);
    assert lists[..|s.ports|] == lists;
    CountAddresses(s.ports, SubsetsFor(store, s), ts, FlatLists(lists), a);
  }

  // ----- balance weights of node upstreams -----

  /** Positions of the targets of one upstream. */
  function Group(spec: ServiceSpec, ts: seq<Target>, name: string): set<int> {
    set i | 0 <= i < |ts| && TargetName(spec, ts[i]) == name
  }

  /** Positions of the targets of one upstream whose node is registered and has address `a`. */
  function GroupOnAddress(nodes: map<string, Node>, spec: ServiceSpec, ts: seq<Target>, name: string,
                          a: string): set<int> {
    set i | 0 <= i < |ts| && TargetName(spec, ts[i]) == name && HasHostAddress(nodes, spec, ts[i], a)
  }

  /** The target's own node is registered and has address `a`. */
  predicate HasHostAddress(nodes: map<string, Node>, spec: ServiceSpec, t: Target, a: string) {
    t.nodeName in nodes && FormatAddress(NodeAddressType(spec.service), nodes[t.nodeName], t) == a
  }

  lemma GroupStep(spec: ServiceSpec, ts: seq<Target>, name: string)
    requires |ts| > 0
    ensures var n := |ts| - 1;
            && n !in Group(spec, ts[..n], name)
            && Group(spec, ts, name) ==
               Group(spec, ts[..n], name) + (if TargetName(spec, ts[n]) == name then {n} else {})
  {
    var n := |ts| - 1;
    assert forall i :: 0 <= i < n ==> ts[..n][i] == ts[i];
  }

  lemma HostTargetCount(nodes: map<string, Node>, spec: ServiceSpec, t: Target, a: string)
    requires spec.upstreamType.HostNode? && NodeSet(spec.service).Host?
    ensures TargetCount(nodes, spec, t, a) ==
            if HasHostAddress(nodes, spec, t, a) then 1 else 0
  {
  }

  lemma GroupOnAddressStep(nodes: map<string, Node>, spec: ServiceSpec, ts: seq<Target>, name: string, a: string)
    requires |ts| > 0
    ensures var n := |ts| - 1;
            |GroupOnAddress(nodes, spec, ts, name, a)| == |GroupOnAddress(nodes, spec, ts[..n], name, a)|
              + (if TargetName(spec, ts[n]) == name && HasHostAddress(nodes, spec, ts[n], a) then 1 else 0)
  {
    var n := |ts| - 1;
    var before, after := GroupOnAddress(nodes, spec, ts[..n], name, a), GroupOnAddress(nodes, spec, ts, name, a);
    forall i | 0 <= i < n ensures i in before <==> i in after {
      assert ts[..n][i] == ts[i];
    }
    assert after - {n} == before;
  }

  lemma {:induction false} HostCount(nodes: map<string, Node>, spec: ServiceSpec, ts: seq<Target>, name: string,
                                     a: string)
    requires spec.upstreamType.HostNode? && NodeSet(spec.service).Host?
    ensures GroupCount(nodes, spec, ts, name, a) == |GroupOnAddress(nodes, spec, ts, name, a)|
    decreases |ts|
  {
    if |ts| > 0 {
      var n := |ts| - 1;
      HostCount(nodes, spec, ts[..n], name, a);
      GroupOnAddressStep(nodes, spec, ts, name, a);
      HostTargetCount(nodes, spec, ts[n], a);
    }
  }

  lemma SamePortNodesAt(nodes: map<string, Node>, addressType: AddressType, t: Target, u: Target, a: string)
    requires t.nodePort == u.nodePort
    ensures NodesAt(nodes, addressType, t, a) == NodesAt(nodes, addressType, u, a)
  {
  }

  lemma MulStep(m: int, k: int)
    ensures (m + 1) * k == m * k + k
  {
  }

  lemma AllTargetCount(nodes: map<string, Node>, spec: ServiceSpec, t: Target, u: Target, a: string)
    requires spec.upstreamType.HostNode? && NodeSet(spec.service).All? && t.nodePort == u.nodePort
    ensures TargetCount(nodes, spec, t, a) == |NodesAt(nodes, NodeAddressType(spec.service), u, a)|
  {
    SamePortNodesAt(nodes, NodeAddressType(spec.service), t, u, a);
  }

  lemma {:induction false} AllCount(nodes: map<string, Node>, spec: ServiceSpec, ts: seq<Target>, name: string,
                                    t: Target, a: string)
    requires spec.upstreamType.HostNode? && NodeSet(spec.service).All?
    requires forall i :: i in Group(spec, ts, name) ==> ts[i].nodePort == t.nodePort
    ensures GroupCount(nodes, spec, ts, name, a) ==
            |Group(spec, ts, name)| * |NodesAt(nodes, NodeAddressType(spec.service), t, a)|
    decreases |ts|
  {
    if |ts| > 0 {
      var n := |ts| - 1;
      GroupStep(spec, ts, name);
      forall i | i in Group(spec, ts[..n], name) ensures ts[..n][i].nodePort == t.nodePort {
        assert ts[..n][i] == ts[i];
      }
      AllCount(nodes, spec, ts[..n], name, t, a);
      if TargetName(spec, ts[n]) == name {
        assert n in Group(spec, ts, name);
        AllTargetCount(nodes, spec, ts[n], t, a);
      }
      AllCountStep(nodes, spec, ts, name, a, |Group(spec, ts[..n], name)|,
                   |NodesAt(nodes, NodeAddressType(spec.service), t, a)|);
    }
  }

  lemma {:induction false} AllCountStep(nodes: map<string, Node>, spec: ServiceSpec, ts: seq<Target>, name: string,
                                        a: string, m: nat, k: nat)
    requires |ts| > 0 && GroupCount(nodes, spec, ts[..|ts| - 1], name, a) == m * k
    requires TargetName(spec, ts[|ts| - 1]) == name ==> TargetCount(nodes, spec, ts[|ts| - 1], a) == k
    ensures GroupCount(nodes, spec, ts, name, a) == (if TargetName(spec, ts[|ts| - 1]) == name then m + 1 else m) * k
  {
    MulStep(m, k);
  }

  /** Weights. With node set `all` and one node port, every address is listed once per target of the upstream
      and per registered node that has it. With node set `host`, as often as the upstream has targets on it. */
  lemma BalanceWeights(nodes: map<string, Node>, spec: ServiceSpec, cfg: StreamConfig, u: int, a: string)
    requires spec.upstreamType.HostNode? && Generates(nodes, spec, cfg) && 0 <= u < |cfg.upstreams|
    ensures var name := cfg.upstreams[u].name;
            NodeSet(spec.service).Host? ==>
              multiset(Addresses(cfg.upstreams[u].servers))[a] == |GroupOnAddress(nodes, spec, spec.topology, name, a)|
    ensures var name := cfg.upstreams[u].name;
            NodeSet(spec.service).All? ==>
            forall i :: i in Group(spec, spec.topology, name)
                        && (forall j :: j in Group(spec, spec.topology, name) ==>
                            spec.topology[j].nodePort == spec.topology[i].nodePort) ==>
              multiset(Addresses(cfg.upstreams[u].servers))[a] ==
              |Group(spec, spec.topology, name)| * |NodesAt(nodes, NodeAddressType(spec.service), spec.topology[i], a)|
  {
    var ts, name := spec.topology, cfg.upstreams[u].name;
    assert UpstreamFor(nodes, spec, ts, cfg.upstreams[u]);
    if NodeSet(spec.service).Host? {
      HostCount(nodes, spec, ts, name, a);
    } else {
      forall i | i in Group(spec, ts, name)
                 && forall j :: j in Group(spec, ts, name) ==> ts[j].nodePort == ts[i].nodePort
        ensures GroupCount(nodes, spec, ts, name, a) ==
                |Group(spec, ts, name)| * |NodesAt(nodes, NodeAddressType(spec.service), ts[i], a)|
      {
        AllCount(nodes, spec, ts, name, ts[i], a);
      }
    }
  }

  // ----- independence of history and of order -----

  /** Two configurations that differ at most in the order of upstreams and of servers within an upstream. */
  ghost predicate SameUpToOrder(x: StreamConfig, y: StreamConfig) {
    && x.resolver == y.resolver && x.servers == y.servers
    && (forall name :: UpstreamNamed(x.upstreams, name) <==> UpstreamNamed(y.upstreams, name))
    && (forall i, j ::
          0 <= i < |x.upstreams| && 0 <= j < |y.upstreams| && x.upstreams[i].name == y.upstreams[j].name ==>
          && x.upstreams[i].algorithm == y.upstreams[j].algorithm
          && x.upstreams[i].leastTimeMethod == y.upstreams[j].leastTimeMethod
          && multiset(Addresses(x.upstreams[i].servers)) == multiset(Addresses(y.upstreams[j].servers)))
  }

  /** What is generated depends on the specification and the registry alone: not on the index, on earlier
      calls or on the order in which maps are visited. */
  lemma HistoryIndependence(nodes: map<string, Node>, spec: ServiceSpec, x: StreamConfig, y: StreamConfig)
    requires Generates(nodes, spec, x) && Generates(nodes, spec, y)
    ensures SameUpToOrder(x, y)
  {
    forall i, j | 0 <= i < |x.upstreams| && 0 <= j < |y.upstreams| && x.upstreams[i].name == y.upstreams[j].name
      ensures multiset(Addresses(x.upstreams[i].servers)) == multiset(Addresses(y.upstreams[j].servers))
      ensures x.upstreams[i].algorithm == y.upstreams[j].algorithm
      ensures x.upstreams[i].leastTimeMethod == y.upstreams[j].leastTimeMethod
    {
      assert UpstreamFor(nodes, spec, spec.topology, x.upstreams[i]);
      assert UpstreamFor(nodes, spec, spec.topology, y.upstreams[j]);
      var p, q := Addresses(x.upstreams[i].servers), Addresses(y.upstreams[j].servers);
      assert forall a :: multiset(p)[a] == multiset(q)[a];
    }
  }

  lemma {:induction false} CountIgnoresNodes(m: map<string, Node>, n: map<string, Node>, spec: ServiceSpec,
                                             ts: seq<Target>, name: string, a: string)
    requires spec.upstreamType.Pod? || spec.upstreamType.ClusterIP?
    ensures GroupCount(m, spec, ts, name, a) == GroupCount(n, spec, ts, name, a)
    decreases |ts|
  {
    if |ts| > 0 {
      CountIgnoresNodes(m, n, spec, ts[..|ts| - 1], name, a);
    }
  }

  /** Pod and cluster address upstreams do not depend on the registry either. */
  lemma RegistryIndependence(m: map<string, Node>, n: map<string, Node>, spec: ServiceSpec, cfg: StreamConfig)
    requires spec.upstreamType.Pod? || spec.upstreamType.ClusterIP?
    requires Generates(m, spec, cfg)
    ensures Generates(n, spec, cfg)
  {
    forall i | 0 <= i < |cfg.upstreams| ensures UpstreamFor(n, spec, spec.topology, cfg.upstreams[i]) {
      var u := cfg.upstreams[i];
      assert UpstreamFor(m, spec, spec.topology, u);
      forall a ensures GroupCount(m, spec, spec.topology, u.name, a) == GroupCount(n, spec, spec.topology, u.name, a) {
        CountIgnoresNodes(m, n, spec, spec.topology, u.name, a);
      }
    }
  }

  // ----- names -----

  /** With hyphen-free namespaces and port names, an upstream name determines service and port. */
  lemma UpstreamNameInjective(s1: Service, p1: string, s2: Service, p2: string)
    requires !Contains(s1.ns, '-') && !Contains(s2.ns, '-') && !Contains(p1, '-') && !Contains(p2, '-')
    requires UpstreamName(s1, p1) == UpstreamName(s2, p2)
    ensures s1.ns == s2.ns && s1.name == s2.name
    ensures p1 == p2 || (p1 == "" && p2 == DEFAULT_PORT_NAME) || (p1 == DEFAULT_PORT_NAME && p2 == "")
  {
    var q1 := if p1 == "" then DEFAULT_PORT_NAME else p1;
    var q2 := if p2 == "" then DEFAULT_PORT_NAME else p2;
    var x1, x2 := s1.name + "-" + q1, s2.name + "-" + q2;
    assert UpstreamName(s1, p1) == s1.ns + ['-'] + x1;
    assert UpstreamName(s2, p2) == s2.ns + ['-'] + x2;
    SplitUnique(s1.ns, x1, s2.ns, x2, '-');
    assert x1 == s1.name + ['-'] + q1 && x2 == s2.name + ['-'] + q2;
    SplitLastUnique(s1.name, q1, s2.name, q2, '-');
  }

  /** Two services have one file: they are the same, or one namespace continues the other after a hyphen and the
      names make up for it. */
  predicate SharesFile(ns1: string, name1: string, ns2: string, name2: string) {
    (ns1 == ns2 && name1 == name2) || Shifted(ns1, name1, ns2, name2, '-') || Shifted(ns2, name2, ns1, name1, '-')
  }

  /** Exactly which services share a file. */
  lemma StemEqualIff(ns1: string, name1: string, ns2: string, name2: string)
    requires ValidNames(ns1, name1) && ValidNames(ns2, name2)
    ensures Stem(MetaKey(ns1, name1)) == Stem(MetaKey(ns2, name2)) <==> SharesFile(ns1, name1, ns2, name2)
  {
    StemOfMetaKey(ns1, name1);
    StemOfMetaKey(ns2, name2);
    JoinedEqualIff(ns1, name1, ns2, name2, '-');
  }

  /** Services that share a file also share their upstream names, port by port. */
  lemma SharedFileSharesUpstreams(s1: Service, s2: Service, portName: string)
    requires ValidNames(s1.ns, s1.name) && ValidNames(s2.ns, s2.name)
    requires Stem(MetaKey(s1.ns, s1.name)) == Stem(MetaKey(s2.ns, s2.name))
    ensures UpstreamName(s1, portName) == UpstreamName(s2, portName)
  {
    StemOfMetaKey(s1.ns, s1.name);
    StemOfMetaKey(s2.ns, s2.name);
  }

  /** Different services can share a file. */
  lemma StemCollision()
    ensures ValidNames("a", "b-c") && ValidNames("a-b", "c")
    ensures MetaKey("a", "b-c") != MetaKey("a-b", "c") && Stem(MetaKey("a", "b-c")) == Stem(MetaKey("a-b", "c"))
  {
    assert !Contains("a", '/') && !Contains("b-c", '/') && !Contains("a-b", '/') && !Contains("c", '/');
    assert "a" + ['-'] == "a-" && "a-b"[..2] == "a-" && "a-b"[2..] == "b";
    StemEqualIff("a", "b-c", "a-b", "c");
    assert MetaKey("a", "b-c")[1] == '/' && MetaKey("a-b", "c")[1] == '-';
  }

  function PortOrDefault(portName: string): string { if portName == "" then DEFAULT_PORT_NAME else portName }

  /** Exactly which services and ports share an upstream name. */
  lemma UpstreamNameEqualIff(s1: Service, p1: string, s2: Service, p2: string)
    ensures var h1, h2, q1, q2 := s1.ns + "-" + s1.name, s2.ns + "-" + s2.name, PortOrDefault(p1), PortOrDefault(p2);
            UpstreamName(s1, p1) == UpstreamName(s2, p2) <==>
            (h1 == h2 && q1 == q2) || Shifted(h1, q1, h2, q2, '-') || Shifted(h2, q2, h1, q1, '-')
  {
    JoinedEqualIff(s1.ns + "-" + s1.name, PortOrDefault(p1), s2.ns + "-" + s2.name, PortOrDefault(p2), '-');
  }

  // ----- where addresses come from -----

  /** An address that is counted in an upstream is contributed by one of its targets. */
  lemma {:induction false} CountedTarget(nodes: map<string, Node>, spec: ServiceSpec, ts: seq<Target>, name: string,
                                         a: string)
    returns (i: int)
    requires GroupCount(nodes, spec, ts, name, a) > 0
    ensures 0 <= i < |ts| && TargetName(spec, ts[i]) == name && TargetCount(nodes, spec, ts[i], a) > 0
  {
    i := |ts| - 1;
    if !(TargetName(spec, ts[i]) == name && TargetCount(nodes, spec, ts[i], a) > 0) {
      i := CountedTarget(nodes, spec, ts[..i], name, a);
    }
  }

  // ----- what the index of nodes covers -----

  /** Targets whose node is registered all name the same node. */
  predicate OneHost(nodes: map<string, Node>, ts: seq<Target>) {
    forall i, j :: 0 <= i < |ts| && 0 <= j < |ts| && ts[i].nodeName in nodes && ts[j].nodeName in nodes ==>
      ts[i].nodeName == ts[j].nodeName
  }

  predicate Covers(index: map<string, seq<Node>>, key: string, used: set<Node>) {
    forall n :: n in used ==> key in index && n in index[key]
  }

  /** After a configuration is generated, the index entry of its service names every node whose address the
      configuration contains, exactly when the node set is `all` or the registered targets share one node. */
  lemma IndexCoversIff(nodes: map<string, Node>, spec: ServiceSpec, before: map<string, seq<Node>>,
                       after: map<string, seq<Node>>)
    requires Registry(nodes) && spec.upstreamType.HostNode?
    requires IndexAfter(nodes, spec, spec.topology, before, after)
    ensures Covers(after, spec.key, UsedNodes(nodes, spec)) <==>
            NodeSet(spec.service).All? || OneHost(nodes, spec.topology)
  {
    var ts := spec.topology;
    if |ts| > 0 && NodeSet(spec.service).Host? {
      var r := LastResolved(nodes, ts);
      if r > 0 {
        var last := nodes[ts[r - 1].nodeName];
        assert after[spec.key] == [last];
        if OneHost(nodes, ts) {
          forall n | n in UsedNodes(nodes, spec) ensures n == last {
            var i :| 0 <= i < |ts| && ts[i].nodeName in nodes && nodes[ts[i].nodeName] == n;
          }
        }
        if Covers(after, spec.key, UsedNodes(nodes, spec)) {
          forall i | 0 <= i < |ts| && ts[i].nodeName in nodes ensures ts[i].nodeName == last.name {
            assert nodes[ts[i].nodeName] in UsedNodes(nodes, spec);
          }
        }
      }
    }
  }
}
