/** When the ports that NGINX is told to listen on are the ones that were checked. `baseCheck` reads the annotation of
    an unnamed service port under a default name, the generator reads it with nothing after the slash. */
module PortFacts {
  import opened Text
  import opened Kube
  import opened Annotations
  import opened Topology
  import opened Stream
  import opened StreamFacts
  import opened Witnesses

  /** The listener stands on a port a socket can have. */
  predicate ListenerInRange(server: StreamServer) {
    match Atoi(server.listen.port)
    case Some(port) => PortInRange(port) && server.listen.port == Itoa(port)
    case None => false
  }

  predicate ListenersInRange(cfg: StreamConfig) {
    forall i :: 0 <= i < |cfg.servers| ==> ListenerInRange(cfg.servers[i])
  }

  /** The target's port name is the name of one of the service's named ports. */
  predicate NamedPortOf(s: Service, portName: string) {
    portName != "" && exists i :: 0 <= i < |s.ports| && s.ports[i].name == portName
  }

  /** Not a number, or one in range. */
  predicate HarmlessReading(r: Reading<int>) { r.Found? ==> PortInRange(r.value) }

  /** A number that an annotation can carry is in range exactly when its text is that of a port. */
  lemma InRangeIff(port: int, server: StreamServer)
    requires INT64_MIN <= port <= INT64_MAX && server.listen.port == Itoa(port)
    ensures ListenerInRange(server) <==> PortInRange(port)
  {
    AtoiItoa(port);
  }

  lemma ReadingIsInt64(name: string, s: Service)
    requires IntAnnotation(name, s).Found?
    ensures INT64_MIN <= IntAnnotation(name, s).value <= INT64_MAX
  {
  }

  lemma NamedReadingHarmless(c: Config, spec: ServiceSpec, t: Target)
    requires BaseCheck(c, spec.service) && NamedPortOf(spec.service, t.portName)
    ensures HarmlessReading(ListenPort(spec, t))
  {
    var p :| 0 <= p < |spec.service.ports| && spec.service.ports[p].name == t.portName;
    assert CheckedAnnotation(spec.service.ports[p]) == PORT_BASE + t.portName;
  }

  /** The first targets of upstreams whose port name the check did not look at read a harmless annotation. */
  ghost predicate UncheckedHarmless(spec: ServiceSpec) {
    forall k :: IsFirst(spec, spec.topology, k) && !NamedPortOf(spec.service, spec.topology[k].portName) ==>
      HarmlessReading(ListenPort(spec, spec.topology[k]))
  }

  lemma ListenerFrom(nodes: map<string, Node>, spec: ServiceSpec, cfg: StreamConfig, i: int) returns (k: int)
    requires Generates(nodes, spec, cfg) && 0 <= i < |cfg.servers|
    ensures MadeFrom(spec, spec.topology, k, cfg.servers[i])
    ensures ListenerInRange(cfg.servers[i]) <==> HarmlessReading(ListenPort(spec, spec.topology[k]))
  {
    k := ServersSound(spec, spec.topology, i);
    ReadingIsInt64(PORT_BASE + spec.topology[k].portName, spec.service);
    InRangeIff(ListenPort(spec, spec.topology[k]).value, cfg.servers[i]);
  }

  /** Port soundness, exactly. For a service that passed the base check every emitted listen port is in 1..65535 and
      reads back as the annotated number if and only if no upstream's first target has an unchecked port name whose
      annotation is a number out of range. */
  lemma PortsSoundIff(c: Config, nodes: map<string, Node>, spec: ServiceSpec, cfg: StreamConfig)
    requires BaseCheck(c, spec.service) && Generates(nodes, spec, cfg)
    ensures ListenersInRange(cfg) <==> UncheckedHarmless(spec)
  {
    if UncheckedHarmless(spec) {
      forall i | 0 <= i < |cfg.servers| ensures ListenerInRange(cfg.servers[i]) {
        var k := ListenerFrom(nodes, spec, cfg, i);
        if NamedPortOf(spec.service, spec.topology[k].portName) {
          NamedReadingHarmless(c, spec, spec.topology[k]);
        }
      }
    }
    if ListenersInRange(cfg) {
      forall k | IsFirst(spec, spec.topology, k) && !NamedPortOf(spec.service, spec.topology[k].portName)
        ensures HarmlessReading(ListenPort(spec, spec.topology[k]))
      {
        if ListenPort(spec, spec.topology[k]).Found? {
          FirstInRange(spec, cfg, k);
        }
      }
    }
  }

  lemma FirstInRange(spec: ServiceSpec, cfg: StreamConfig, k: int)
    requires cfg.servers == ServersOf(spec, spec.topology) && ListenersInRange(cfg)
    requires IsFirst(spec, spec.topology, k) && ListenPort(spec, spec.topology[k]).Found?
    ensures PortInRange(ListenPort(spec, spec.topology[k]).value)
  {
    var port := ListenPort(spec, spec.topology[k]).value;
    ServersComplete(spec, spec.topology, k);
    var i :| 0 <= i < |cfg.servers| && cfg.servers[i] == ServerFor(spec, spec.topology[k], port);
    ReadingIsInt64(PORT_BASE + spec.topology[k].portName, spec.service);
    InRangeIff(port, cfg.servers[i]);
  }

  /** When endpoint ports are named after service ports, the only unchecked name is the empty one: every listen port
      is sound if and only if no upstream is made from an unnamed port, or the annotation with nothing after the slash
      is harmless. */
  lemma UnnamedPortsIff(c: Config, nodes: map<string, Node>, spec: ServiceSpec, cfg: StreamConfig)
    requires BaseCheck(c, spec.service) && Generates(nodes, spec, cfg)
    requires forall k :: 0 <= k < |spec.topology| ==>
               exists i :: 0 <= i < |spec.service.ports| && spec.service.ports[i].name == spec.topology[k].portName
    ensures ListenersInRange(cfg) <==>
            ((exists k :: IsFirst(spec, spec.topology, k) && spec.topology[k].portName == "") ==>
               HarmlessReading(IntAnnotation(PORT_BASE, spec.service)))
  {
    PortsSoundIff(c, nodes, spec, cfg);
    assert PORT_BASE + "" == PORT_BASE;
    forall k | IsFirst(spec, spec.topology, k)
      ensures NamedPortOf(spec.service, spec.topology[k].portName) <==> spec.topology[k].portName != ""
      ensures spec.topology[k].portName == "" ==>
              ListenPort(spec, spec.topology[k]) == IntAnnotation(PORT_BASE, spec.service)
    {
    }
  }

  // ----- the condition can fail -----

  const ONE_POD := [EndpointAddress("10.1.0.1", "n1")]

  lemma OneTarget(nodes: map<string, Node>, spec: ServiceSpec, cfg: StreamConfig)
    requires Generates(nodes, spec, cfg) && |spec.topology| == 1
    ensures var r := ListenPort(spec, spec.topology[0]);
            cfg.servers == if r.Found? then [ServerFor(spec, spec.topology[0], r.value)] else []
  {
    var ts := spec.topology;
    assert ts[..0] == [] && ServersOf(spec, ts[..0]) == [];
  }

  /** The port `http` is checked; `x` is the name of a port of the Endpoints object only. */
  const UNCHECKED_NOTES :=
    map[CLASS_KEY := CLASS_VALUE, PORT_BASE + "http" := Itoa(8080), PORT_BASE + "x" := Itoa(70000)]

  lemma UncheckedReadings()
    ensures Managed(DEFAULTS, Web("http", UNCHECKED_NOTES))
    ensures IntAnnotation(PORT_BASE + "x", Web("http", UNCHECKED_NOTES)) == Found(70000)
  {
    KeysDiffer("http");
    KeysDiffer("x");
    assert |PORT_BASE + "http"| > |PORT_BASE + "x"|;
    AtoiItoa(70000);
    WebManaged("http", UNCHECKED_NOTES, 8080);
  }

  lemma OutOfRange(server: StreamServer)
    requires server.listen.port == Itoa(70000)
    ensures !ListenerInRange(server)
  {
    AtoiItoa(70000);
  }

  /** A managed service whose Endpoints object names its port otherwise than the service does: every configuration
      listens on a port that does not exist. */
  lemma UncheckedPortUnsound(nodes: map<string, Node>, cfg: StreamConfig)
    requires Generates(nodes, WebSpec("http", "x", UNCHECKED_NOTES, ONE_POD), cfg)
    ensures var s := Web("http", UNCHECKED_NOTES);
            && Managed(DEFAULTS, s)
            && IsListing(s, ListsOf(WebStore("x", ONE_POD), s), WebEntries("http", "x", UNCHECKED_NOTES, ONE_POD))
    ensures !ListenersInRange(cfg)
  {
    UncheckedReadings();
    WebListing("http", "x", UNCHECKED_NOTES, ONE_POD);
    WebTopology("http", "x", UNCHECKED_NOTES, ONE_POD);
    OneTarget(nodes, WebSpec("http", "x", UNCHECKED_NOTES, ONE_POD), cfg);
    OutOfRange(cfg.servers[0]);
  }

  const UNNAMED_NOTES := map[CLASS_KEY := CLASS_VALUE, PORT_BASE + DEFAULT_PORT_NAME := Itoa(8080)]

  lemma UnnamedReadings()
    ensures Managed(DEFAULTS, Web("", UNNAMED_NOTES)) && IntAnnotation(PORT_BASE, Web("", UNNAMED_NOTES)) == Missing
  {
    KeysDiffer("");
    KeysDiffer(DEFAULT_PORT_NAME);
    assert PORT_BASE + "" == PORT_BASE && |PORT_BASE + DEFAULT_PORT_NAME| > |PORT_BASE|;
    WebManaged("", UNNAMED_NOTES, 8080);
  }

  /** A managed service with one unnamed port, annotated as the check wants it: no configuration of it listens. */
  lemma UnnamedPortSilent(nodes: map<string, Node>, cfg: StreamConfig)
    requires Generates(nodes, WebSpec("", "", UNNAMED_NOTES, ONE_POD), cfg)
    ensures var s := Web("", UNNAMED_NOTES);
            && Managed(DEFAULTS, s)
            && IsListing(s, ListsOf(WebStore("", ONE_POD), s), WebEntries("", "", UNNAMED_NOTES, ONE_POD))
    ensures cfg.servers == []
  {
    UnnamedReadings();
    WebListing("", "", UNNAMED_NOTES, ONE_POD);
    WebTopology("", "", UNNAMED_NOTES, ONE_POD);
    assert PORT_BASE + "" == PORT_BASE;
    OneTarget(nodes, WebSpec("", "", UNNAMED_NOTES, ONE_POD), cfg);
  }
}
