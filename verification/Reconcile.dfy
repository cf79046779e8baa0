/** The controller as a state machine: three informers, three task queues with one worker each, and the
    configurator they share. Every read of a store is a step of its own, so store changes and the other workers
    can come between any two of them; the configurator's locked sections are single steps. */
module Reconcile {
  import opened Text
  import opened Kube
  import opened Topology
  import opened Stream
  import opened Configurator
  import opened WorkQueue

  /** Where the services worker is inside `syncServices`. */
  datatype ServiceWorker =
    | SIdle
    | SGot(key: string)                                                               // key taken from the queue
    | SFound(key: string, svc: Service)                                               // first read found the service
    | SGone(key: string)                                                              // first read found nothing
    | SListing(key: string, svc: Service, svc2: Service, lists: seq<seq<Endpoint>>)   // inside getServiceNetworkTopo
    | SFailing(key: string)                                                           // returned an error
    | SFinish(key: string)                                                            // returned; Done is next

  /** Where the endpoints worker is inside `syncEndpoints`. */
  datatype EndpointWorker =
    | EIdle
    | EGot(key: string)
    | EPresent(key: string)
    | EListing(key: string, svc2: Service, lists: seq<seq<Endpoint>>)
    | EHandoff(key: string)
    | EFailing(key: string)
    | EFinish(key: string)

  /** Where the nodes worker is inside `syncNodes`. */
  datatype NodeWorker =
    | NIdle
    | NGot(key: string)
    | NRead(key: string, obj: Option<NodeObject>)
    | NHandoff(key: string, affected: seq<string>)
    | NFailing(key: string)

  /** What the file of a service was made from. */
  datatype Origin = Origin(key: string, svc: Service, entries: seq<Entry>, nodes: map<string, Node>) {
    function Spec(): ServiceSpec { MakeSpec(key, svc, entries) }
    function Used(): set<Node> { UsedNodes(nodes, Spec()) }
  }

  datatype State = State(
    // informer stores, and the changed key whose handler has not run yet
    services: map<string, Service>, endpoints: map<string, Endpoints>, nodeObjs: map<string, NodeObject>,
    svcEvent: Option<string>, epEvent: Option<string>, nodeEvent: Option<string>,
    // queues and workers
    sq: WorkQueue, eq: WorkQueue, nq: WorkQueue,
    sw: ServiceWorker, ew: EndpointWorker, nw: NodeWorker,
    // configurator
    nodes: map<string, Node>, index: map<string, seq<Node>>, files: map<string, StreamConfig>,
    // history: service keys ever stored; keys a failed lookup dropped since their last sync began; nodes whose
    // deletion came as a tombstone; what each file was made from
    seen: set<string>, lost: set<string>, missed: set<string>, origins: map<string, Origin>)

  const INIT := State(map[], map[], map[], None, None, None, EMPTY, EMPTY, EMPTY, SIdle, EIdle, NIdle,
                      map[], map[], map[], {}, {}, {}, map[])

  /** The cluster changes, and the informer updates its store. `touched` says that the object also changed in
      fields this model leaves out, so that the update handler does not find it equal to the old one. */
  datatype Change =
    | PutService(svc: Service, touched: bool) | DropService(key: string)
    | PutEndpoints(eps: Endpoints, touched: bool) | DropEndpoints(key: string)
    | PutNode(key: string, obj: NodeObject) | DropNode(key: string, tombstone: bool)

  /** The informer's handler enqueues the changed key. */
  datatype Delivery = DeliverService | DeliverEndpoints | DeliverNode

  datatype ServiceAct =
    | ServiceGet | ServiceRead | ServiceReadFails | ServiceReadAgain | ServiceReadAgainFails | ServiceReadPort
    | ServiceUnmanaged | ServiceCommit(entries: seq<Entry>, cfg: StreamConfig, after: map<string, seq<Node>>)
    | ServiceDelete
    | ServiceRequeue | ServiceDone

  datatype EndpointsAct =
    | EndpointsGet | EndpointsRead | EndpointsReadFails | EndpointsTopology | EndpointsTopologyFails | EndpointsReadPort
    | EndpointsDecide | EndpointsHandoff | EndpointsHandoffFails | EndpointsRequeue | EndpointsDone

  datatype NodeAct =
    | NodeGet | NodeRead | NodeReadFails | NodeCommit(list: seq<string>) | NodeHandoff | NodeHandoffFails
    | NodeRequeue | NodeDone

  /** Changes belong to the environment; all other steps to the controller. */
  datatype Step =
    Cluster(change: Change) | Handler(delivery: Delivery)
    | ServicesWork(sact: ServiceAct) | EndpointsWork(eact: EndpointsAct) | NodesWork(nact: NodeAct)

  function ServiceKey(s: Service): string { MetaKey(s.ns, s.name) }

  function EndpointsKey(e: Endpoints): string { MetaKey(e.ns, e.name) }

  /** The key a service or endpoints handler will enqueue. */
  function Notify(key: string): Option<string> { if Filtered(key) then None else Some(key) }

  predicate ListingDone(svc: Service, lists: seq<seq<Endpoint>>) { |lists| == |svc.ports| }

  predicate NothingListed(lists: seq<seq<Endpoint>>) { forall i :: 0 <= i < |lists| ==> lists[i] == [] }

  /** The registry entry `syncNodes` passes on: built from the object, or the registered one marked inactive. */
  function NodeUpdate(s: State, key: string, obj: Option<NodeObject>): Option<Node> {
    match obj
    case Some(o) => Some(NodeOf(key, o))
    case None => if key in s.nodes then Some(s.nodes[key].(active := false)) else None
  }

  predicate ChangeEnabled(s: State, change: Change) {
    match change
    case PutService(svc, _) => s.svcEvent.None? && ValidNames(svc.ns, svc.name)
    case DropService(key) => s.svcEvent.None? && key in s.services
    case PutEndpoints(eps, _) => s.epEvent.None? && ValidNames(eps.ns, eps.name)
    case DropEndpoints(key) => s.epEvent.None? && key in s.endpoints
    case PutNode(_, _) => s.nodeEvent.None?
    case DropNode(key, _) => s.nodeEvent.None? && key in s.nodeObjs
  }

  function AfterChange(s: State, change: Change): State
    requires ChangeEnabled(s, change)
  {
    match change
    case PutService(svc, touched) =>
      var key := ServiceKey(svc);
      if key in s.services && s.services[key] == svc && !touched then s
      else s.(services := s.services[key := svc], seen := s.seen + {key}, svcEvent := Notify(key))
    case DropService(key) => s.(services := s.services - {key}, svcEvent := Notify(key))
    case PutEndpoints(eps, touched) =>
      var key := EndpointsKey(eps);
      if key in s.endpoints && s.endpoints[key] == eps && !touched then s
      else s.(endpoints := s.endpoints[key := eps], epEvent := Notify(key))
    case DropEndpoints(key) => s.(endpoints := s.endpoints - {key}, epEvent := Notify(key))
    case PutNode(key, obj) =>
      s.(nodeObjs := s.nodeObjs[key := obj],
         nodeEvent := if key in s.nodeObjs && NodeUpdateEqual(s.nodeObjs[key], obj) then None else Some(key))
    case DropNode(key, tombstone) =>
      s.(nodeObjs := s.nodeObjs - {key}, nodeEvent := if tombstone then None else Some(key),
         missed := if tombstone then s.missed + {key} else s.missed)
  }

  predicate DeliveryEnabled(s: State, delivery: Delivery) {
    match delivery
    case DeliverService => s.svcEvent.Some?
    case DeliverEndpoints => s.epEvent.Some?
    case DeliverNode => s.nodeEvent.Some?
  }

  function AfterDelivery(s: State, delivery: Delivery): State
    requires DeliveryEnabled(s, delivery)
  {
    match delivery
    case DeliverService => s.(svcEvent := None, sq := s.sq.Add(s.svcEvent.value))
    case DeliverEndpoints => s.(epEvent := None, eq := s.eq.Add(s.epEvent.value))
    case DeliverNode => s.(nodeEvent := None, nq := s.nq.Add(s.nodeEvent.value))
  }

  ghost predicate ServiceEnabled(s: State, act: ServiceAct) {
    match act
    case ServiceGet => s.sw.SIdle? && |s.sq.queue| > 0
    case ServiceRead => s.sw.SGot?
    case ServiceReadFails => s.sw.SGot?
    case ServiceReadAgain => s.sw.SFound?
    case ServiceReadAgainFails => s.sw.SFound?
    case ServiceReadPort => s.sw.SListing? && |s.sw.lists| < |s.sw.svc2.ports|
    case ServiceUnmanaged => s.sw.SListing? && ListingDone(s.sw.svc2, s.sw.lists) && NothingListed(s.sw.lists)
    case ServiceCommit(entries, cfg, after) =>
      && s.sw.SListing? && ListingDone(s.sw.svc2, s.sw.lists) && !NothingListed(s.sw.lists)
      && IsListing(s.sw.svc2, s.sw.lists, entries)
      && var spec := MakeSpec(s.sw.key, s.sw.svc, entries);
         Generates(s.nodes, spec, cfg) && IndexAfter(s.nodes, spec, spec.topology, s.index, after)
    case ServiceDelete => s.sw.SGone?
    case ServiceRequeue => s.sw.SFailing?
    case ServiceDone => s.sw.SFinish? && s.sw.key in s.sq.processing
  }

  ghost function AfterService(c: Config, s: State, act: ServiceAct): State
    requires ServiceEnabled(s, act)
  {
    match act
    case ServiceGet => s.(sw := SGot(s.sq.queue[0]), sq := s.sq.Get(), lost := s.lost - {s.sq.queue[0]})
    case ServiceRead =>
      s.(sw := if s.sw.key in s.services then SFound(s.sw.key, s.services[s.sw.key]) else SGone(s.sw.key))
    case ServiceReadFails => s.(sw := SFailing(s.sw.key))
    case ServiceReadAgain =>
      var key := s.sw.key;
      s.(sw := if key in s.services && Managed(c, s.services[key]) then SListing(key, s.sw.svc, s.services[key], [])
               else SFinish(key))
    case ServiceReadAgainFails => s.(sw := SFinish(s.sw.key), lost := s.lost + {s.sw.key})
    case ServiceReadPort =>
      s.(sw := s.sw.(lists := s.sw.lists + [GetEndpoints(s.endpoints, s.sw.svc2, s.sw.svc2.ports[|s.sw.lists|])]))
    case ServiceUnmanaged => s.(sw := SFinish(s.sw.key))
    case ServiceCommit(entries, cfg, after) =>
      var name := Stem(s.sw.key);
      s.(sw := SFinish(s.sw.key), files := s.files[name := cfg], index := after,
         origins := s.origins[name := Origin(s.sw.key, s.sw.svc, entries, s.nodes)])
    case ServiceDelete =>
      var name := Stem(s.sw.key);
      s.(sw := SFinish(s.sw.key), files := s.files - {name}, index := s.index - {name}, origins := s.origins - {name})
    case ServiceRequeue => s.(sw := SFinish(s.sw.key), sq := s.sq.Add(s.sw.key))
    case ServiceDone => s.(sw := SIdle, sq := s.sq.Done(s.sw.key))
  }

  predicate EndpointsEnabled(s: State, act: EndpointsAct) {
    match act
    case EndpointsGet => s.ew.EIdle? && |s.eq.queue| > 0
    case EndpointsRead => s.ew.EGot?
    case EndpointsReadFails => s.ew.EGot?
    case EndpointsTopology => s.ew.EPresent?
    case EndpointsTopologyFails => s.ew.EPresent?
    case EndpointsReadPort => s.ew.EListing? && |s.ew.lists| < |s.ew.svc2.ports|
    case EndpointsDecide => s.ew.EListing? && ListingDone(s.ew.svc2, s.ew.lists)
    case EndpointsHandoff => s.ew.EHandoff?
    case EndpointsHandoffFails => s.ew.EHandoff?
    case EndpointsRequeue => s.ew.EFailing?
    case EndpointsDone => s.ew.EFinish? && s.ew.key in s.eq.processing
  }

  function AfterEndpoints(c: Config, s: State, act: EndpointsAct): State
    requires EndpointsEnabled(s, act)
  {
    match act
    case EndpointsGet => s.(ew := EGot(s.eq.queue[0]), eq := s.eq.Get())
    case EndpointsRead => s.(ew := if s.ew.key in s.endpoints then EPresent(s.ew.key) else EHandoff(s.ew.key))
    case EndpointsReadFails => s.(ew := EFailing(s.ew.key))
    case EndpointsTopology =>
      var key := s.ew.key;
      s.(ew := if key in s.services && Managed(c, s.services[key]) then EListing(key, s.services[key], [])
               else EFinish(key))
    case EndpointsTopologyFails => s.(ew := EFinish(s.ew.key), lost := s.lost + {s.ew.key})
    case EndpointsReadPort =>
      s.(ew := s.ew.(lists := s.ew.lists + [GetEndpoints(s.endpoints, s.ew.svc2, s.ew.svc2.ports[|s.ew.lists|])]))
    case EndpointsDecide => s.(ew := if NothingListed(s.ew.lists) then EFinish(s.ew.key) else EHandoff(s.ew.key))
    case EndpointsHandoff =>
      s.(ew := EFinish(s.ew.key), sq := if s.ew.key in s.services then s.sq.Add(s.ew.key) else s.sq)
    case EndpointsHandoffFails => s.(ew := EFinish(s.ew.key), lost := s.lost + {s.ew.key})
    case EndpointsRequeue => s.(ew := EFinish(s.ew.key), eq := s.eq.Add(s.ew.key))
    case EndpointsDone => s.(ew := EIdle, eq := s.eq.Done(s.ew.key))
  }

  predicate NodeEnabled(s: State, act: NodeAct) {
    match act
    case NodeGet => s.nw.NIdle? && |s.nq.queue| > 0
    case NodeRead => s.nw.NGot?
    case NodeReadFails => s.nw.NGot?
    case NodeCommit(list) =>
      && s.nw.NRead?
      && multiset(list) == (match NodeUpdate(s, s.nw.key, s.nw.obj)
                            case Some(n) => AffectedBag(s.nodes, s.index, n)
                            case None => multiset{})
    case NodeHandoff => s.nw.NHandoff? && |s.nw.affected| > 0
    case NodeHandoffFails => s.nw.NHandoff? && |s.nw.affected| > 0
    case NodeRequeue => s.nw.NFailing?
    case NodeDone => s.nw.NHandoff? && s.nw.affected == [] && s.nw.key in s.nq.processing
  }

  function AfterNode(s: State, act: NodeAct): State
    requires NodeEnabled(s, act)
  {
    match act
    case NodeGet => s.(nw := NGot(s.nq.queue[0]), nq := s.nq.Get(), missed := s.missed - {s.nq.queue[0]})
    case NodeRead =>
      s.(nw := NRead(s.nw.key, if s.nw.key in s.nodeObjs then Some(s.nodeObjs[s.nw.key]) else None))
    case NodeReadFails => s.(nw := NFailing(s.nw.key))
    case NodeCommit(list) =>
      s.(nw := NHandoff(s.nw.key, list),
         nodes := match NodeUpdate(s, s.nw.key, s.nw.obj) case Some(n) => NodesAfter(s.nodes, n) case None => s.nodes)
    case NodeHandoff =>
      var k := s.nw.affected[0];
      s.(nw := NHandoff(s.nw.key, s.nw.affected[1..]), sq := if k in s.services then s.sq.Add(k) else s.sq)
    case NodeHandoffFails =>
      s.(nw := NHandoff(s.nw.key, s.nw.affected[1..]), lost := s.lost + {s.nw.affected[0]})
    case NodeRequeue => s.(nw := NHandoff(s.nw.key, []), nq := s.nq.Add(s.nw.key))
    case NodeDone => s.(nw := NIdle, nq := s.nq.Done(s.nw.key))
  }

  ghost predicate Enabled(s: State, step: Step) {
    match step
    case Cluster(change) => ChangeEnabled(s, change)
    case Handler(delivery) => DeliveryEnabled(s, delivery)
    case ServicesWork(act) => ServiceEnabled(s, act)
    case EndpointsWork(act) => EndpointsEnabled(s, act)
    case NodesWork(act) => NodeEnabled(s, act)
  }

  ghost function Apply(c: Config, s: State, step: Step): State
    requires Enabled(s, step)
  {
    match step
    case Cluster(change) => AfterChange(s, change)
    case Handler(delivery) => AfterDelivery(s, delivery)
    case ServicesWork(act) => AfterService(c, s, act)
    case EndpointsWork(act) => AfterEndpoints(c, s, act)
    case NodesWork(act) => AfterNode(s, act)
  }

  // ----- runs -----

  ghost predicate CanRun(c: Config, s: State, steps: seq<Step>)
    decreases |steps|
  {
    |steps| > 0 ==> Enabled(s, steps[0]) && CanRun(c, Apply(c, s, steps[0]), steps[1..])
  }

  ghost function Run(c: Config, s: State, steps: seq<Step>): State
    requires CanRun(c, s, steps)
    decreases |steps|
  {
    if |steps| == 0 then s else Run(c, Apply(c, s, steps[0]), steps[1..])
  }
}
