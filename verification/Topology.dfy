/** From a service and its Endpoints object to the flattened list of targets
    (controller.go: getEndpoints, getServiceNetworkTopo, baseCheck, checkAffinity). */
module Topology {
  import opened Text
  import opened Kube
  import opened Annotations

  datatype Config = Config(
    serviceName: string, servicePool: string, strictAffinity: bool, antiAffinity: bool, requirePort: bool)

  datatype Endpoint = Endpoint(
    servicePort: int, nodeIP: string, nodeName: string, nodePort: int,
    portName: string, podIP: string, podPort: int, protocol: string)

  /** One load balancer rule of a service (the source's `Service` record). */
  datatype Entry = Entry(name: string, endpoints: seq<Endpoint>, backendPort: int, frontendPort: int, host: string)

  // ----- which services are managed -----

  const DEFAULT_PORT_NAME := "unnamed"

  /** The annotation `baseCheck` looks up for a service port. */
  function CheckedAnnotation(p: ServicePort): string {
    PORT_BASE + (if p.name != "" then p.name else DEFAULT_PORT_NAME)
  }

  predicate PortInRange(n: int) { 0 < n <= 65535 }

  /** `ValidateServiceObject`. */
  predicate ValidService(s: Service) { ValidServiceType(s) && SelectsLbex(s) }

  /** What `baseCheck` decides: some port carries a usable annotation, and none an unusable number. */
  predicate BaseCheck(c: Config, s: Service) {
    && ValidService(s)
    && c.requirePort
    && (exists i :: 0 <= i < |s.ports| && IntAnnotation(CheckedAnnotation(s.ports[i]), s).Found?)
    && (forall i :: 0 <= i < |s.ports| && IntAnnotation(CheckedAnnotation(s.ports[i]), s).Found? ==>
          PortInRange(IntAnnotation(CheckedAnnotation(s.ports[i]), s).value))
  }

  method RunBaseCheck(c: Config, s: Service) returns (ok: bool)
    ensures ok == BaseCheck(c, s)
  {
    ok := false;
    if !ValidService(s) {
      return false;
    }
    if c.requirePort {
      for i := 0 to |s.ports|
        invariant ok <==> exists j :: 0 <= j < i && IntAnnotation(CheckedAnnotation(s.ports[j]), s).Found?
        invariant forall j :: 0 <= j < i && IntAnnotation(CheckedAnnotation(s.ports[j]), s).Found? ==>
                    PortInRange(IntAnnotation(CheckedAnnotation(s.ports[j]), s).value)
      {
        var reading := IntAnnotation(CheckedAnnotation(s.ports[i]), s);
        if reading.Found? {
          if reading.value <= 0 || reading.value > 65535 {
            return false;
          }
          ok := true;
        }
      }
    }
  }

  /** `checkAffinity`. */
  predicate AffinityAllows(c: Config, pool: string) {
    if c.strictAffinity then pool == c.servicePool
    else if c.antiAffinity then pool != c.servicePool
    else pool == "" || pool == c.servicePool
  }

  /** The checks of `getServiceNetworkTopo` that come before any endpoint is read. */
  predicate Managed(c: Config, s: Service) {
    && BaseCheck(c, s)
    && (c.serviceName == "" || c.serviceName == s.name)
    && AffinityAllows(c, OptionalString(POOL_KEY, s))
  }

  // ----- endpoints of one service port -----

  /** The pod port an endpoint port stands for; 0 when the service port does not select it. */
  function TargetPortFor(sp: ServicePort, ep: EndpointPort): int {
    match sp.targetPort
    case IntPort(v) => if ep.port == v then v else 0
    case NamedPort(v) => if ep.name == v then ep.port else 0
  }

  function MakeEndpoint(sp: ServicePort, ep: EndpointPort, a: EndpointAddress): Endpoint {
    Endpoint(sp.port, "", a.nodeName, sp.nodePort, ep.name, a.ip, TargetPortFor(sp, ep), ep.protocol)
  }

  function AddressEndpoints(sp: ServicePort, ep: EndpointPort, addrs: seq<EndpointAddress>): seq<Endpoint> {
    if TargetPortFor(sp, ep) == 0 then []
    else seq(|addrs|, i requires 0 <= i < |addrs| => MakeEndpoint(sp, ep, addrs[i]))
  }

  function PortEndpoints(sp: ServicePort, ports: seq<EndpointPort>, addrs: seq<EndpointAddress>): seq<Endpoint> {
    if |ports| == 0 then []
    else PortEndpoints(sp, ports[..|ports| - 1], addrs) + AddressEndpoints(sp, ports[|ports| - 1], addrs)
  }

  function SubsetEndpoints(sp: ServicePort, subsets: seq<EndpointSubset>): seq<Endpoint> {
    if |subsets| == 0 then []
    else
      var last := subsets[|subsets| - 1];
      SubsetEndpoints(sp, subsets[..|subsets| - 1]) + PortEndpoints(sp, last.ports, last.addresses)
  }

  /** Stores hold every object under its own key. */
  predicate KeyedEndpoints(store: map<string, Endpoints>) {
    forall k :: k in store ==> MetaKey(store[k].ns, store[k].name) == k && ValidNames(store[k].ns, store[k].name)
  }

  predicate KeyedServices(store: map<string, Service>) {
    forall k :: k in store ==> MetaKey(store[k].ns, store[k].name) == k && ValidNames(store[k].ns, store[k].name)
  }

  /** Subsets of the Endpoints object that carries the service's name, none when there is no such object. */
  function SubsetsFor(store: map<string, Endpoints>, s: Service): seq<EndpointSubset> {
    var k := MetaKey(s.ns, s.name);
    if k in store then store[k].subsets else []
  }

  function GetEndpoints(store: map<string, Endpoints>, s: Service, sp: ServicePort): seq<Endpoint> {
    SubsetEndpoints(sp, SubsetsFor(store, s))
  }

  /** `getServiceEndpoints`: a search of the listed objects, in whatever order the store lists them. */
  method FindEndpoints(store: map<string, Endpoints>, s: Service) returns (r: Option<Endpoints>)
    requires KeyedEndpoints(store) && ValidNames(s.ns, s.name)
    ensures r.Some? <==> MetaKey(s.ns, s.name) in store
    ensures r.Some? ==> r.value == store[MetaKey(s.ns, s.name)]
  {
    var rest := store.Keys;
    while rest != {}
      invariant rest <= store.Keys
      invariant forall k :: k in store.Keys - rest ==> !(store[k].name == s.name && store[k].ns == s.ns)
      decreases rest
    {
      var k :| k in rest;
      if s.name == store[k].name && s.ns == store[k].ns {
        return Some(store[k]);
      }
      rest := rest - {k};
    }
    if MetaKey(s.ns, s.name) in store {
      var k := MetaKey(s.ns, s.name);
      MetaKeyInjective(store[k].ns, store[k].name, s.ns, s.name);
    }
    return None;
  }

  /** `getEndpoints`: the nested loops over subsets, their ports and their addresses. */
  method RunGetEndpoints(store: map<string, Endpoints>, s: Service, sp: ServicePort) returns (eps: seq<Endpoint>)
    requires KeyedEndpoints(store) && ValidNames(s.ns, s.name)
    ensures eps == GetEndpoints(store, s, sp)
  {
    eps := [];
    var found := FindEndpoints(store, s);
    if found.None? {
      return;
    }
    var subsets := found.value.subsets;
    for i := 0 to |subsets|
      invariant eps == SubsetEndpoints(sp, subsets[..i])
    {
      assert subsets[..i + 1][..i] == subsets[..i];
      var more := RunSubset(sp, subsets[i]);
      eps := eps + more;
    }
    assert subsets[..|subsets|] == subsets;
  }

  /** The two inner loops of `getEndpoints`, over one subset. */
  method RunSubset(sp: ServicePort, subset: EndpointSubset) returns (eps: seq<Endpoint>)
    ensures eps == PortEndpoints(sp, subset.ports, subset.addresses)
  {
    eps := [];
    var ports, addrs := subset.ports, subset.addresses;
    for j := 0 to |ports|
      invariant eps == PortEndpoints(sp, ports[..j], addrs)
    {
      assert ports[..j + 1][..j] == ports[..j];
      var targetPort := TargetPortFor(sp, ports[j]);
      if targetPort != 0 {
        ghost var base, all := eps, AddressEndpoints(sp, ports[j], addrs);
        for a := 0 to |addrs|
          invariant eps == base + all[..a]
        {
          assert all[..a + 1] == all[..a] + [all[a]];
          eps := eps + [Endpoint(sp.port, "", addrs[a].nodeName, sp.nodePort, ports[j].name,
                                 addrs[a].ip, targetPort, ports[j].protocol)];
        }
        assert all[..|addrs|] == all;
      }
    }
    assert ports[..|ports|] == ports;
  }

  // ----- the rules of one service -----

  /** `GetServiceNameForLBRule`. */
  function RuleName(serviceName: string, port: int): string {
    if port == 80 then serviceName else serviceName + ":" + Itoa(port)
  }

  /** `GetServicePortTargetPortInt`. */
  function TargetPortInt(sp: ServicePort): int {
    match sp.targetPort
    case IntPort(v) => v
    case NamedPort(v) => match Atoi(v) case Some(i) => i case None => 0
  }

  function MakeEntry(s: Service, sp: ServicePort, eps: seq<Endpoint>): Entry {
    Entry(RuleName(s.name, sp.port), eps, TargetPortInt(sp), sp.port, OptionalString(HOST_KEY, s))
  }

  /** Endpoint lists read for the first `|lists|` ports, as rules; empty lists are dropped. */
  function EntriesOf(s: Service, lists: seq<seq<Endpoint>>): seq<Entry>
    requires |lists| <= |s.ports|
  {
    if |lists| == 0 then []
    else
      var n := |lists| - 1;
      EntriesOf(s, lists[..n]) + (if |lists[n]| == 0 then [] else [MakeEntry(s, s.ports[n], lists[n])])
  }

  /** The lists read from one state of the endpoint store. */
  function ListsOf(store: map<string, Endpoints>, s: Service): (lists: seq<seq<Endpoint>>)
    ensures |lists| == |s.ports|
  {
    seq(|s.ports|, i requires 0 <= i < |s.ports| => GetEndpoints(store, s, s.ports[i]))
  }

  /** `serviceByName`: no entry is followed by one with a smaller name. */
  predicate SortedByName(es: seq<Entry>) {
    forall i, j :: 0 <= i < j < |es| ==> !Less(es[j].name, es[i].name)
  }

  /** A possible result of sorting: `sort.Sort` may leave equal names in any order. */
  predicate IsListing(s: Service, lists: seq<seq<Endpoint>>, es: seq<Entry>)
    requires |lists| <= |s.ports|
  {
    SortedByName(es) && multiset(es) == multiset(EntriesOf(s, lists))
  }

  /** `sort.Sort(serviceByName(es))`; the contract promises no more than the library does. */
  function SortEntries(es: seq<Entry>): (r: seq<Entry>)
    ensures SortedByName(r) && multiset(r) == multiset(es)
  {
    if |es| == 0 then []
    else
      assert es == es[..|es| - 1] + [es[|es| - 1]];
      InsertEntry(SortEntries(es[..|es| - 1]), es[|es| - 1])
  }

  function InsertEntry(es: seq<Entry>, e: Entry): (r: seq<Entry>)
    requires SortedByName(es)
    ensures SortedByName(r) && multiset(r) == multiset(es) + multiset{e}
  {
    if |es| == 0 then [e]
    else
      var n := |es| - 1;
      assert es == es[..n] + [es[n]];
      if Less(e.name, es[n].name) then
        var front := InsertEntry(es[..n], e);
        LastStaysLast(es, e, front);
        front + [es[n]]
      else
        SmallestLast(es, e);
        es + [e]
  }

  lemma LastStaysLast(es: seq<Entry>, e: Entry, front: seq<Entry>)
    requires |es| > 0 && SortedByName(es) && SortedByName(front) && Less(e.name, es[|es| - 1].name)
    requires multiset(front) == multiset(es[..|es| - 1]) + multiset{e}
    ensures SortedByName(front + [es[|es| - 1]])
  {
    LessTrichotomy(e.name, es[|es| - 1].name);
    forall i | 0 <= i < |front| ensures !Less(es[|es| - 1].name, front[i].name) {
      assert front[i] in multiset(front);
      assert front[i] == e || front[i] in es[..|es| - 1];
    }
  }

  lemma SmallestLast(es: seq<Entry>, e: Entry)
    requires |es| > 0 && SortedByName(es) && !Less(e.name, es[|es| - 1].name)
    ensures SortedByName(es + [e])
  {
    forall i | 0 <= i < |es| - 1 ensures !Less(e.name, es[i].name) {
      NotLessTransitive(es[i].name, es[|es| - 1].name, e.name);
    }
  }

  /** The lists of one more port add an entry, unless they are empty. */
  lemma {:induction false} EntriesStep(s: Service, lists: seq<seq<Endpoint>>, i: nat)
    requires i < |lists| <= |s.ports|
    ensures EntriesOf(s, lists[..i + 1]) ==
            EntriesOf(s, lists[..i]) + if |lists[i]| == 0 then [] else [MakeEntry(s, s.ports[i], lists[i])]
  {
    assert lists[..i + 1][..i] == lists[..i];
  }

  /** `getServiceNetworkTopo` over one state of the stores: nothing for an unmanaged service. */
  method RunTopology(c: Config, services: map<string, Service>, store: map<string, Endpoints>, key: string)
    returns (es: seq<Entry>)
    requires KeyedEndpoints(store) && KeyedServices(services)
    ensures key in services && Managed(c, services[key]) ==> IsListing(services[key], ListsOf(store, services[key]), es)
    ensures !(key in services && Managed(c, services[key])) ==> es == []
  {
    es := [];
    if key !in services {
      return;
    }
    var s := services[key];
    var base := RunBaseCheck(c, s);
    if !base || (c.serviceName != "" && c.serviceName != s.name) || !AffinityAllows(c, OptionalString(POOL_KEY, s)) {
      return;
    }
    ghost var lists := ListsOf(store, s);
    for i := 0 to |s.ports|
      invariant es == EntriesOf(s, lists[..i])
    {
      EntriesStep(s, lists, i);
      var eps := RunGetEndpoints(store, s, s.ports[i]);
      if |eps| != 0 {
        es := es + [Entry(RuleName(s.name, s.ports[i].port), eps, TargetPortInt(s.ports[i]),
                          s.ports[i].port, OptionalString(HOST_KEY, s))];
      }
    }
    assert lists[..|s.ports|] == lists;
    es := SortEntries(es);
  }

  /** The endpoints of all rules in order: what `syncServices` copies into the service's `Topology`. */
  function FlatEndpoints(es: seq<Entry>): seq<Endpoint> {
    if |es| == 0 then [] else FlatEndpoints(es[..|es| - 1]) + es[|es| - 1].endpoints
  }
}
