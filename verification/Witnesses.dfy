/** Services that pass every check of the controller, and what it compiles them to: inputs for the lemmas that show
    where a property fails. */
module Witnesses {
  import opened Text
  import opened Kube
  import opened Annotations
  import opened Topology
  import opened Stream

  // ----- a service with one port -----

  /** The flags at their defaults. */
  const DEFAULTS := Config("", "", false, false, true)

  function Port(portName: string): ServicePort { ServicePort(portName, 80, 30080, IntPort(8080)) }

  function Web(portName: string, notes: map<string, string>): Service {
    Service("ns", "web", notes, "NodePort", "10.0.0.1", [Port(portName)])
  }

  function EndPort(epName: string): EndpointPort { EndpointPort(epName, 8080, "TCP") }

  /** Its Endpoints object, whose port need not have the name of the service's port. */
  function WebStore(epName: string, addrs: seq<EndpointAddress>): map<string, Endpoints> {
    map[MetaKey("ns", "web") := Endpoints("ns", "web", [EndpointSubset(addrs, [EndPort(epName)])])]
  }

  lemma ClusterIPSet()
    ensures !EqualFold("10.0.0.1", "none")
  {
    assert |"10.0.0.1"| == 8 && |"none"| == 4;
  }

  lemma WebManaged(portName: string, notes: map<string, string>, p: int)
    requires CLASS_KEY in notes && notes[CLASS_KEY] == CLASS_VALUE && POOL_KEY !in notes
    requires CheckedAnnotation(Port(portName)) in notes && notes[CheckedAnnotation(Port(portName))] == Itoa(p)
             && PortInRange(p)
    ensures Managed(DEFAULTS, Web(portName, notes))
  {
    var s := Web(portName, notes);
    AtoiItoa(p);
    ClusterIPSet();
    assert IntAnnotation(CheckedAnnotation(s.ports[0]), s) == Found(p);
    assert SelectsLbex(s) && ValidServiceType(s);
  }

  // ----- its topology -----

  function WebEndpoints(portName: string, epName: string, addrs: seq<EndpointAddress>): (eps: seq<Endpoint>)
    ensures |eps| == |addrs|
  {
    seq(|addrs|, i requires 0 <= i < |addrs| => MakeEndpoint(Port(portName), EndPort(epName), addrs[i]))
  }

  lemma WebList(portName: string, epName: string, notes: map<string, string>, addrs: seq<EndpointAddress>)
    ensures ListsOf(WebStore(epName, addrs), Web(portName, notes)) == [WebEndpoints(portName, epName, addrs)]
  {
    var s, sp, ep := Web(portName, notes), Port(portName), EndPort(epName);
    var subset := EndpointSubset(addrs, [ep]);
    assert SubsetsFor(WebStore(epName, addrs), s) == [subset];
    OnePortEndpoints(sp, ep, addrs);
    assert SubsetEndpoints(sp, [subset]) == SubsetEndpoints(sp, [subset][..0]) + PortEndpoints(sp, [ep], addrs);
    assert AddressEndpoints(sp, ep, addrs) == WebEndpoints(portName, epName, addrs);
    assert s.ports[0] == sp && GetEndpoints(WebStore(epName, addrs), s, sp) == WebEndpoints(portName, epName, addrs);
  }

  lemma OnePortEndpoints(sp: ServicePort, ep: EndpointPort, addrs: seq<EndpointAddress>)
    ensures PortEndpoints(sp, [ep], addrs) == AddressEndpoints(sp, ep, addrs)
  {
    assert PortEndpoints(sp, [ep], addrs) == PortEndpoints(sp, [ep][..0], addrs) + AddressEndpoints(sp, ep, addrs);
  }

  function WebEntries(portName: string, epName: string, notes: map<string, string>, addrs: seq<EndpointAddress>)
    : seq<Entry>
  {
    [MakeEntry(Web(portName, notes), Port(portName), WebEndpoints(portName, epName, addrs))]
  }

  lemma WebListing(portName: string, epName: string, notes: map<string, string>, addrs: seq<EndpointAddress>)
    requires |addrs| > 0
    ensures IsListing(Web(portName, notes), ListsOf(WebStore(epName, addrs), Web(portName, notes)),
                      WebEntries(portName, epName, notes, addrs))
  {
    var s, lists := Web(portName, notes), [WebEndpoints(portName, epName, addrs)];
    WebList(portName, epName, notes, addrs);
    assert EntriesOf(s, lists) == EntriesOf(s, lists[..0]) + WebEntries(portName, epName, notes, addrs);
  }

  function WebSpec(portName: string, epName: string, notes: map<string, string>, addrs: seq<EndpointAddress>)
    : ServiceSpec
  {
    MakeSpec(MetaKey("ns", "web"), Web(portName, notes), WebEntries(portName, epName, notes, addrs))
  }

  /** One target per address, in order. */
  lemma WebTopology(portName: string, epName: string, notes: map<string, string>, addrs: seq<EndpointAddress>)
    ensures var ts := WebSpec(portName, epName, notes, addrs).topology;
            && |ts| == |addrs|
            && forall i :: 0 <= i < |addrs| ==> ts[i].nodeName == addrs[i].nodeName && ts[i].portName == epName
  {
    var es := WebEntries(portName, epName, notes, addrs);
    assert FlatEndpoints(es) == FlatEndpoints(es[..0]) + WebEndpoints(portName, epName, addrs);
  }

  // ----- a service with two ports of one number -----

  const TIED_NOTES := map[CLASS_KEY := CLASS_VALUE, PORT_BASE + "a" := Itoa(8080), PORT_BASE + "x" := Itoa(8081)]

  function Tied(): Service {
    Service("ns", "web", TIED_NOTES, "NodePort", "10.0.0.1",
            [ServicePort("a", 80, 30080, IntPort(8080)), ServicePort("b", 80, 30090, IntPort(9090))])
  }

  const TCP_PORT := EndpointPort("x", 8080, "TCP")
  const UDP_PORT := EndpointPort("x", 9090, "UDP")
  const POD := EndpointAddress("10.1.0.1", "n1")

  /** One subset for each of the two ports, whose endpoint ports have one name and different protocols. */
  function TiedStore(): map<string, Endpoints> {
    map[MetaKey("ns", "web") :=
          Endpoints("ns", "web", [EndpointSubset([POD], [TCP_PORT]), EndpointSubset([POD], [UDP_PORT])])]
  }

  function TCPEndpoint(): Endpoint { MakeEndpoint(Tied().ports[0], TCP_PORT, POD) }

  function UDPEndpoint(): Endpoint { MakeEndpoint(Tied().ports[1], UDP_PORT, POD) }

  lemma TwoSubsetEndpoints(sp: ServicePort, p: EndpointPort, q: EndpointPort, addr: EndpointAddress)
    ensures SubsetEndpoints(sp, [EndpointSubset([addr], [p]), EndpointSubset([addr], [q])]) ==
            AddressEndpoints(sp, p, [addr]) + AddressEndpoints(sp, q, [addr])
  {
    var x, y := EndpointSubset([addr], [p]), EndpointSubset([addr], [q]);
    assert [x, y][..1] == [x] && [x][..0] == [];
    OnePortEndpoints(sp, p, [addr]);
    OnePortEndpoints(sp, q, [addr]);
    assert SubsetEndpoints(sp, [x]) == SubsetEndpoints(sp, [x][..0]) + AddressEndpoints(sp, p, [addr]);
    assert SubsetEndpoints(sp, [x, y]) == SubsetEndpoints(sp, [x]) + AddressEndpoints(sp, q, [addr]);
  }

  lemma TiedLists()
    ensures ListsOf(TiedStore(), Tied()) == [[TCPEndpoint()], [UDPEndpoint()]]
  {
    var s := Tied();
    assert SubsetsFor(TiedStore(), s) == [EndpointSubset([POD], [TCP_PORT]), EndpointSubset([POD], [UDP_PORT])];
    TwoSubsetEndpoints(s.ports[0], TCP_PORT, UDP_PORT, POD);
    TwoSubsetEndpoints(s.ports[1], TCP_PORT, UDP_PORT, POD);
    assert AddressEndpoints(s.ports[0], TCP_PORT, [POD]) == [TCPEndpoint()];
    assert AddressEndpoints(s.ports[1], UDP_PORT, [POD]) == [UDPEndpoint()];
    assert GetEndpoints(TiedStore(), s, s.ports[0]) == [TCPEndpoint()];
    assert GetEndpoints(TiedStore(), s, s.ports[1]) == [UDPEndpoint()];
  }

  lemma TiedReadings()
    ensures IntAnnotation(PORT_BASE + "x", Tied()) == Found(8081)
    ensures IntAnnotation(PORT_BASE + "a", Tied()).Found?
    ensures forall name :: IntAnnotation(PORT_BASE + name, Tied()).Found? ==>
              PortInRange(IntAnnotation(PORT_BASE + name, Tied()).value)
  {
    AtoiItoa(8080);
    AtoiItoa(8081);
    forall name ensures PORT_BASE + name != CLASS_KEY {
      KeysDiffer(name);
    }
  }

  lemma TiedManaged()
    ensures Managed(DEFAULTS, Tied())
  {
    var s := Tied();
    TiedReadings();
    KeysDiffer("a");
    KeysDiffer("x");
    ClusterIPSet();
    assert CheckedAnnotation(s.ports[0]) == PORT_BASE + "a" && CheckedAnnotation(s.ports[1]) == PORT_BASE + "b";
    assert SelectsLbex(s) && ValidServiceType(s);
  }

  // ----- annotation keys -----

  /** Keys the witnesses leave out differ from those they have. */
  lemma KeysDiffer(suffix: string)
    ensures PORT_BASE + suffix !in {CLASS_KEY, POOL_KEY, NODE_SET_KEY, UPSTREAM_TYPE_KEY}
    ensures CLASS_KEY !in {POOL_KEY, NODE_SET_KEY, UPSTREAM_TYPE_KEY}
  {
    var key := PORT_BASE + suffix;
    assert key[0] == 'l' && key[12] == '-';
    assert CLASS_KEY[0] == 'k' && POOL_KEY[0] == 'l' && NODE_SET_KEY[0] == 'l' && UPSTREAM_TYPE_KEY[0] == 'l';
    assert POOL_KEY[12] == '.' && NODE_SET_KEY[12] == '.' && UPSTREAM_TYPE_KEY[12] == '.';
  }
}
