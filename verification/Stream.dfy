/** What a generated stream configuration must be, stated without reference to the order in which the
    generator visits maps (nginx/configurator.go: generateStreamNginxConfig and its helpers). */
module Stream {
  import opened Text
  import opened Kube
  import opened Annotations
  import opened Topology

  // ----- option values (nginx/service.go) -----

  const ROUND_ROBIN := "round_robin"
  const LEAST_CONNECTIONS := "least_conn"
  const LOWEST_LATENCY := "least_time"
  const METHODS: seq<string> :=
    ["connect", "first_byte", "last_byte", "connect inflight", "first_byte inflight", "last_byte inflight"]

  /** Upstream types; `UnknownType` stands for any string the generator's switch has no case for. */
  datatype UpstreamType = HostNode | Pod | ClusterIP | UnknownType

  /** Node sets: the nodes that host a pod of the service, or every registered node. */
  datatype NodeSetKind = Host | All

  datatype AddressType = Internal | External

  function OneOf(v: string, allowed: seq<string>, default: string): (r: string)
    ensures r in allowed + [default]
  {
    if v in allowed then v else default
  }

  function ValidateAlgorithm(v: string): string {
    OneOf(v, [ROUND_ROBIN, LEAST_CONNECTIONS, LOWEST_LATENCY], ROUND_ROBIN)
  }

  function ValidateMethod(v: string): string { OneOf(v, METHODS, "connect") }

  /** `node` is also the default. */
  function ValidateUpstreamType(v: string): UpstreamType {
    if v == "pod" then Pod else if v == "cluster-ip" then ClusterIP else HostNode
  }

  /** `host` is also the default. */
  function ValidateNodeSet(v: string): NodeSetKind { if v == "all" then All else Host }

  /** `internal` is also the default. */
  function ValidateNodeAddressType(v: string): AddressType { if v == "external" then External else Internal }

  // ----- the generator's input -----

  datatype Target = Target(
    servicePort: int, nodeIP: string, nodeName: string, nodePort: int,
    portName: string, podIP: string, podPort: int, protocol: string)

  datatype ServiceSpec = ServiceSpec(
    service: Service, key: string, algorithm: string, clusterIP: string,
    configName: string, upstreamType: UpstreamType, topology: seq<Target>)

  function ToTarget(e: Endpoint): Target {
    Target(e.servicePort, e.nodeIP, e.nodeName, e.nodePort, e.portName, e.podIP, e.podPort, e.protocol)
  }

  function ToTargets(eps: seq<Endpoint>): (ts: seq<Target>)
    ensures |ts| == |eps|
  {
    seq(|eps|, i requires 0 <= i < |eps| => ToTarget(eps[i]))
  }

  /** The specification `syncServices` hands to the configurator. */
  function MakeSpec(key: string, s: Service, es: seq<Entry>): ServiceSpec {
    ServiceSpec(s, key, ValidateAlgorithm(OptionalString(ALGORITHM_KEY, s)), s.clusterIP, Stem(key),
                ValidateUpstreamType(OptionalString(UPSTREAM_TYPE_KEY, s)), ToTargets(FlatEndpoints(es)))
  }

  // ----- the generator's output -----

  datatype StreamUpstreamServer = StreamUpstreamServer(
    address: string, weight: string, maxConns: string, maxFails: string, failTimeout: string, backup: bool, down: bool)

  datatype StreamUpstream = StreamUpstream(
    name: string, algorithm: string, leastTimeMethod: string, servers: seq<StreamUpstreamServer>)

  datatype StreamListen = StreamListen(address: string, port: string, udp: bool)

  datatype StreamServer = StreamServer(
    listen: StreamListen, proxyProtocol: bool, proxyPassthrough: bool, proxyProtocolTimeout: string,
    proxyPassAddress: string)

  datatype StreamConfig = StreamConfig(resolver: string, upstreams: seq<StreamUpstream>, servers: seq<StreamServer>)

  function PlainServer(address: string): StreamUpstreamServer {
    StreamUpstreamServer(address, "", "", "", "", false, false)
  }

  function Addresses(servers: seq<StreamUpstreamServer>): (r: seq<string>)
    ensures |r| == |servers|
  {
    seq(|servers|, i requires 0 <= i < |servers| => servers[i].address)
  }

  predicate AllPlain(servers: seq<StreamUpstreamServer>) {
    forall i :: 0 <= i < |servers| ==> servers[i] == PlainServer(servers[i].address)
  }

  // ----- naming and addressing -----

  /** `getNameForStreamUpstream`. */
  function UpstreamName(s: Service, portName: string): string {
    s.ns + "-" + s.name + "-" + (if portName == "" then DEFAULT_PORT_NAME else portName)
  }

  /** The upstream a target belongs to; an unknown upstream type leaves the zero value's empty name. */
  function TargetName(spec: ServiceSpec, t: Target): string {
    if spec.upstreamType.UnknownType? then "" else UpstreamName(spec.service, t.portName)
  }

  function PodAddress(t: Target): string { t.podIP + ":" + Itoa(t.podPort) }

  function ClusterAddress(spec: ServiceSpec, t: Target): string { spec.clusterIP + ":" + Itoa(t.servicePort) }

  /** `formatAddress`. */
  function FormatAddress(addressType: AddressType, n: Node, t: Target): string {
    (if addressType.Internal? then n.internalIP else n.externalIP) + ":" + Itoa(t.nodePort)
  }

  function NodeSet(s: Service): NodeSetKind { ValidateNodeSet(OptionalString(NODE_SET_KEY, s)) }

  function NodeAddressType(s: Service): AddressType {
    ValidateNodeAddressType(OptionalString(NODE_ADDRESS_TYPE_KEY, s))
  }

  /** Registered nodes whose address for this target is `a`. */
  function NodesAt(nodes: map<string, Node>, addressType: AddressType, t: Target, a: string): set<string> {
    set n | n in nodes && FormatAddress(addressType, nodes[n], t) == a
  }

  /** How many servers with address `a` one target contributes to its upstream. */
  function TargetCount(nodes: map<string, Node>, spec: ServiceSpec, t: Target, a: string): nat {
    match spec.upstreamType
    case Pod => if a == PodAddress(t) then 1 else 0
    case ClusterIP => if a == ClusterAddress(spec, t) then 1 else 0
    case HostNode => NodeTargetCount(nodes, NodeSet(spec.service), NodeAddressType(spec.service), t, a)
    case UnknownType => 0
  }

  function NodeTargetCount(nodes: map<string, Node>, kind: NodeSetKind, addressType: AddressType, t: Target,
                           a: string): nat {
    match kind
    case All => |NodesAt(nodes, addressType, t, a)|
    case Host => if t.nodeName in nodes && a == FormatAddress(addressType, nodes[t.nodeName], t) then 1 else 0
  }

  /** How many servers with address `a` the targets of one upstream contribute. */
  function GroupCount(nodes: map<string, Node>, spec: ServiceSpec, ts: seq<Target>, name: string, a: string): nat {
    if |ts| == 0 then 0
    else
      var t := ts[|ts| - 1];
      GroupCount(nodes, spec, ts[..|ts| - 1], name, a)
        + (if TargetName(spec, t) == name then TargetCount(nodes, spec, t, a) else 0)
  }

  predicate NameIn(spec: ServiceSpec, ts: seq<Target>, name: string) {
    exists i :: 0 <= i < |ts| && TargetName(spec, ts[i]) == name
  }

  // ----- listeners -----

  /** The annotation the generator looks up for a target. */
  function ListenPort(spec: ServiceSpec, t: Target): Reading<int> {
    IntAnnotation(PORT_BASE + t.portName, spec.service)
  }

  function ServerFor(spec: ServiceSpec, t: Target, port: int): StreamServer {
    StreamServer(StreamListen("", Itoa(port), EqualFold(t.protocol, "udp")), false,
                 OptionalBool(PASSTHROUGH_KEY, spec.service), "", TargetName(spec, t))
  }

  /** One listener per upstream, made from the first target of the upstream when its port annotation parses. */
  function ServersOf(spec: ServiceSpec, ts: seq<Target>): seq<StreamServer> {
    if |ts| == 0 then []
    else
      var n := |ts| - 1;
      var before := ServersOf(spec, ts[..n]);
      if NameIn(spec, ts[..n], TargetName(spec, ts[n])) then before
      else match ListenPort(spec, ts[n])
        case Found(port) => before + [ServerFor(spec, ts[n], port)]
        case _ => before
  }

  function AlgorithmOf(spec: ServiceSpec): string {
    if spec.algorithm != ROUND_ROBIN then spec.algorithm else ""
  }

  function MethodOf(spec: ServiceSpec): string {
    if AlgorithmOf(spec) == LOWEST_LATENCY then ValidateMethod(OptionalString(METHOD_KEY, spec.service)) else ""
  }

  // ----- the specification -----

  /** Servers of an upstream, counted by address. */
  ghost predicate Balances(nodes: map<string, Node>, spec: ServiceSpec, ts: seq<Target>, name: string,
                           servers: seq<StreamUpstreamServer>) {
    && AllPlain(servers)
    && forall a :: multiset(Addresses(servers))[a] == GroupCount(nodes, spec, ts, name, a)
  }

  ghost predicate UpstreamFor(nodes: map<string, Node>, spec: ServiceSpec, ts: seq<Target>, u: StreamUpstream) {
    && u.algorithm == AlgorithmOf(spec) && u.leastTimeMethod == MethodOf(spec)
    && Balances(nodes, spec, ts, u.name, u.servers)
  }

  predicate NamesDistinct(us: seq<StreamUpstream>) {
    forall i, j :: 0 <= i < j < |us| ==> us[i].name != us[j].name
  }

  predicate UpstreamNamed(us: seq<StreamUpstream>, name: string) {
    exists i :: 0 <= i < |us| && us[i].name == name
  }

  /** `cfg` is a possible result of `generateStreamNginxConfig` for this registry and specification. */
  ghost predicate Generates(nodes: map<string, Node>, spec: ServiceSpec, cfg: StreamConfig) {
    && cfg.resolver == OptionalString(RESOLVER_KEY, spec.service)
    && cfg.servers == ServersOf(spec, spec.topology)
    && NamesDistinct(cfg.upstreams)
    && (forall name :: UpstreamNamed(cfg.upstreams, name) <==> NameIn(spec, spec.topology, name))
    && (forall i :: 0 <= i < |cfg.upstreams| ==> UpstreamFor(nodes, spec, spec.topology, cfg.upstreams[i]))
  }

  // ----- the service index -----

  predicate Registry(nodes: map<string, Node>) { forall k :: k in nodes ==> nodes[k].name == k }

  /** A listing of the whole registry. */
  predicate ListsRegistry(nodes: map<string, Node>, ns: seq<Node>) {
    && (forall k :: k in nodes ==> nodes[k] in ns)
    && (forall n :: n in ns ==> n.name in nodes && nodes[n.name] == n)
  }

  /** Position just after the last target whose node is registered; 0 when there is none. */
  function LastResolved(nodes: map<string, Node>, ts: seq<Target>): (r: nat)
    ensures r <= |ts|
    ensures r > 0 ==> ts[r - 1].nodeName in nodes
    ensures forall i :: r <= i < |ts| ==> ts[i].nodeName !in nodes
  {
    if |ts| == 0 then 0
    else if ts[|ts| - 1].nodeName in nodes then |ts|
    else LastResolved(nodes, ts[..|ts| - 1])
  }

  /** How a generated configuration changes the index of nodes per service. */
  predicate IndexAfter(nodes: map<string, Node>, spec: ServiceSpec, ts: seq<Target>,
                       before: map<string, seq<Node>>, after: map<string, seq<Node>>) {
    if !spec.upstreamType.HostNode? || |ts| == 0 then after == before
    else if NodeSet(spec.service).All? then
      spec.key in after && after == before[spec.key := after[spec.key]] && ListsRegistry(nodes, after[spec.key])
    else
      var r := LastResolved(nodes, ts);
      after == if r == 0 then before else before[spec.key := [nodes[ts[r - 1].nodeName]]]
  }

  /** Registry entries whose addresses a generated configuration contains. */
  function UsedNodes(nodes: map<string, Node>, spec: ServiceSpec): (used: set<Node>)
    ensures forall n :: n in used ==> exists k :: k in nodes && nodes[k] == n
  {
    if !spec.upstreamType.HostNode? || |spec.topology| == 0 then {}
    else if NodeSet(spec.service).All? then set k | k in nodes :: nodes[k]
    else set i | 0 <= i < |spec.topology| && spec.topology[i].nodeName in nodes :: nodes[spec.topology[i].nodeName]
  }
}
