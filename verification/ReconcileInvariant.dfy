/** Facts that every reachable state of the controller satisfies, whatever the interleaving: queues and workers
    agree, the system namespace stays out, and every file is a generated configuration with a known origin. */
module ReconcileInvariant {
  import opened Text
  import opened Kube
  import opened Topology
  import opened TopologyFacts
  import opened Stream
  import opened Configurator
  import opened WorkQueue
  import opened Reconcile

  /** A service key the controller may work on. */
  predicate Eligible(seen: set<string>, k: string) { k in seen && !Filtered(k) }

  predicate Named(svc: Service, key: string) { ServiceKey(svc) == key && ValidNames(svc.ns, svc.name) }

  ghost predicate StoresOk(services: map<string, Service>, endpoints: map<string, Endpoints>, seen: set<string>) {
    && KeyedServices(services) && KeyedEndpoints(endpoints)
    && services.Keys <= seen
    && (forall k :: k in seen ==> Contains(k, '/'))
  }

  function ServiceBusy(w: ServiceWorker): set<string> { if w.SIdle? then {} else {w.key} }
  function EndpointsBusy(w: EndpointWorker): set<string> { if w.EIdle? then {} else {w.key} }
  function NodeBusy(w: NodeWorker): set<string> { if w.NIdle? then {} else {w.key} }

  /** A worker holds exactly the key its queue has marked as being processed. */
  ghost predicate QueueOk(q: WorkQueue, busy: set<string>) { q.Valid() && q.processing == busy }

  /** No key of the system namespace is pending or in work as a service. */
  ghost predicate ServiceKeysOk(seen: set<string>, event: Option<string>, dirty: set<string>, w: ServiceWorker) {
    && (event.Some? ==> Eligible(seen, event.value))
    && (forall k :: k in dirty ==> Eligible(seen, k))
    && (!w.SIdle? ==> Eligible(seen, w.key))
  }

  /** Nor in the index of nodes per service, nor in the list the nodes worker hands on. */
  ghost predicate IndexKeysOk(seen: set<string>, index: map<string, seq<Node>>, w: NodeWorker) {
    && (forall k :: k in index ==> Eligible(seen, k))
    && (w.NHandoff? ==> forall k :: k in w.affected ==> Eligible(seen, k))
  }

  /** Nor pending or in work as endpoints. */
  ghost predicate EndpointsKeysOk(event: Option<string>, dirty: set<string>, w: EndpointWorker) {
    && (event.Some? ==> !Filtered(event.value))
    && (forall k :: k in dirty ==> !Filtered(k))
    && (!w.EIdle? ==> !Filtered(w.key))
  }

  /** Objects a worker holds carry the worker's key, and listing only begins for managed services. */
  predicate ServiceWorkerOk(c: Config, w: ServiceWorker) {
    && (w.SFound? ==> Named(w.svc, w.key))
    && (w.SListing? ==>
          Named(w.svc, w.key) && Named(w.svc2, w.key) && |w.lists| <= |w.svc2.ports| && Managed(c, w.svc2))
  }

  predicate EndpointsWorkerOk(w: EndpointWorker) {
    w.EListing? ==> Named(w.svc2, w.key) && |w.lists| <= |w.svc2.ports|
  }

  /** A file is one of the configurations that can be generated from its origin. */
  ghost predicate OriginOk(seen: set<string>, name: string, o: Origin, cfg: StreamConfig) {
    && Eligible(seen, o.key) && Stem(o.key) == name && Named(o.svc, o.key)
    && |o.Spec().topology| > 0 && Registry(o.nodes)
    && Generates(o.nodes, o.Spec(), cfg)
  }

  ghost predicate OriginsOk(seen: set<string>, files: map<string, StreamConfig>, origins: map<string, Origin>)
    requires files.Keys == origins.Keys
  {
    forall name :: name in files ==> OriginOk(seen, name, origins[name], files[name])
  }

  ghost predicate FilesOk(c: Config, seen: set<string>, files: map<string, StreamConfig>,
                          origins: map<string, Origin>) {
    && files.Keys == origins.Keys && OriginsOk(seen, files, origins)
    && (files != map[] ==> c.requirePort)
  }

  ghost predicate Basics(c: Config, s: State) {
    && StoresOk(s.services, s.endpoints, s.seen)
    && QueueOk(s.sq, ServiceBusy(s.sw)) && QueueOk(s.eq, EndpointsBusy(s.ew)) && QueueOk(s.nq, NodeBusy(s.nw))
    && ServiceKeysOk(s.seen, s.svcEvent, s.sq.dirty, s.sw)
    && IndexKeysOk(s.seen, s.index, s.nw)
    && EndpointsKeysOk(s.epEvent, s.eq.dirty, s.ew)
    && ServiceWorkerOk(c, s.sw) && EndpointsWorkerOk(s.ew)
    && FilesOk(c, s.seen, s.files, s.origins) && Registry(s.nodes)
  }

  lemma InitBasics(c: Config)
    ensures Basics(c, INIT)
  {
  }

  // ----- preservation -----

  lemma FilesOkMonotone(c: Config, seen: set<string>, more: set<string>, files: map<string, StreamConfig>,
                        origins: map<string, Origin>)
    requires FilesOk(c, seen, files, origins) && seen <= more
    ensures FilesOk(c, more, files, origins)
  {
    forall name | name in files ensures OriginOk(more, name, origins[name], files[name]) {
      assert OriginOk(seen, name, origins[name], files[name]);
    }
  }

  lemma ServiceStored(services: map<string, Service>, endpoints: map<string, Endpoints>, seen: set<string>,
                      svc: Service)
    requires StoresOk(services, endpoints, seen) && ValidNames(svc.ns, svc.name)
    ensures StoresOk(services[ServiceKey(svc) := svc], endpoints, seen + {ServiceKey(svc)})
  {
    MetaKeyHasSlash(svc.ns, svc.name);
  }

  lemma PutServiceKeepsBasics(c: Config, s: State, change: Change)
    requires Basics(c, s) && ChangeEnabled(s, change) && change.PutService?
    ensures Basics(c, AfterChange(s, change))
  {
    ServiceStored(s.services, s.endpoints, s.seen, change.svc);
    FilesOkMonotone(c, s.seen, s.seen + {ServiceKey(change.svc)}, s.files, s.origins);
  }

  lemma ChangeKeepsBasics(c: Config, s: State, change: Change)
    requires Basics(c, s) && ChangeEnabled(s, change) && !change.PutService?
    ensures Basics(c, AfterChange(s, change))
  {
  }

  lemma DeliveryKeepsBasics(c: Config, s: State, delivery: Delivery)
    requires Basics(c, s) && DeliveryEnabled(s, delivery)
    ensures Basics(c, AfterDelivery(s, delivery))
  {
  }

  lemma EndpointsKeepBasics(c: Config, s: State, act: EndpointsAct)
    requires Basics(c, s) && EndpointsEnabled(s, act)
    ensures Basics(c, AfterEndpoints(c, s, act))
  {
  }

  lemma AffectedIndexed(nodes: map<string, Node>, index: map<string, seq<Node>>, n: Node, k: string)
    requires k in AffectedBag(nodes, index, n)
    ensures k in index
  {
  }

  lemma CommitListIndexed(s: State, list: seq<string>, k: string)
    requires NodeEnabled(s, NodeCommit(list)) && k in list
    ensures k in s.index
  {
    assert k in multiset(list);
    var update := NodeUpdate(s, s.nw.key, s.nw.obj);
    if update.Some? {
      AffectedIndexed(s.nodes, s.index, update.value, k);
    }
  }

  lemma NodeKeepsBasics(c: Config, s: State, act: NodeAct)
    requires Basics(c, s) && NodeEnabled(s, act)
    ensures Basics(c, AfterNode(s, act))
  {
    if act.NodeCommit? {
      forall k | k in act.list ensures k in s.index {
        CommitListIndexed(s, act.list, k);
      }
    }
  }

  /** A listing of something non-empty flattens to something non-empty. */
  lemma ListedTopology(svc: Service, lists: seq<seq<Endpoint>>, entries: seq<Entry>)
    requires ListingDone(svc, lists) && !NothingListed(lists) && IsListing(svc, lists, entries)
    ensures |FlatEndpoints(entries)| > 0
  {
    EmptyListing(svc, lists);
    if entries == [] {
      EmptyBag(EntriesOf(svc, lists));
      assert false;
    }
    ListingSound(svc, lists, entries);
    var n := |entries| - 1;
    assert |entries[n].endpoints| > 0;
  }

  lemma ServiceKeepsBasics(c: Config, s: State, act: ServiceAct)
    requires Basics(c, s) && ServiceEnabled(s, act) && !act.ServiceCommit? && !act.ServiceDelete?
    ensures Basics(c, AfterService(c, s, act))
  {
  }

  lemma DeleteKeepsBasics(c: Config, s: State)
    requires Basics(c, s) && ServiceEnabled(s, ServiceDelete)
    ensures Basics(c, AfterService(c, s, ServiceDelete))
  {
    FileRemoved(c, s.seen, s.files, s.origins, Stem(s.sw.key));
  }

  lemma FileRemoved(c: Config, seen: set<string>, files: map<string, StreamConfig>, origins: map<string, Origin>,
                    name: string)
    requires FilesOk(c, seen, files, origins)
    ensures FilesOk(c, seen, files - {name}, origins - {name})
  {
    forall n | n in files && n != name ensures OriginOk(seen, n, origins[n], files[n]) {
    }
  }

  lemma IndexAfterKeys(nodes: map<string, Node>, spec: ServiceSpec, ts: seq<Target>,
                       before: map<string, seq<Node>>, after: map<string, seq<Node>>)
    requires IndexAfter(nodes, spec, ts, before, after)
    ensures after.Keys <= before.Keys + {spec.key}
    ensures forall k :: k in before && k != spec.key ==> k in after && after[k] == before[k]
  {
  }

  lemma CommitKeepsBasics(c: Config, s: State, act: ServiceAct)
    requires Basics(c, s) && ServiceEnabled(s, act) && act.ServiceCommit?
    ensures Basics(c, AfterService(c, s, act))
  {
    ListedTopology(s.sw.svc2, s.sw.lists, act.entries);
    var t := AfterService(c, s, act);
    var spec := MakeSpec(s.sw.key, s.sw.svc, act.entries);
    IndexAfterKeys(s.nodes, spec, spec.topology, s.index, act.after);
    var o := Origin(s.sw.key, s.sw.svc, act.entries, s.nodes);
    assert OriginOk(s.seen, Stem(s.sw.key), o, act.cfg);
    FileWritten(c, s.seen, s.files, s.origins, Stem(s.sw.key), o, act.cfg);
  }

  lemma OriginKept(seen: set<string>, files: map<string, StreamConfig>, origins: map<string, Origin>, name: string,
                   o: Origin, cfg: StreamConfig, n: string)
    requires files.Keys == origins.Keys && OriginsOk(seen, files, origins) && n in files && n != name
    ensures OriginOk(seen, n, origins[name := o][n], files[name := cfg][n])
  {
    assert origins[name := o][n] == origins[n] && files[name := cfg][n] == files[n];
  }

  lemma FileWritten(c: Config, seen: set<string>, files: map<string, StreamConfig>, origins: map<string, Origin>,
                    name: string, o: Origin, cfg: StreamConfig)
    requires FilesOk(c, seen, files, origins) && OriginOk(seen, name, o, cfg) && c.requirePort
    ensures FilesOk(c, seen, files[name := cfg], origins[name := o])
  {
    forall n | n in files && n != name ensures OriginOk(seen, n, origins[name := o][n], files[name := cfg][n]) {
      OriginKept(seen, files, origins, name, o, cfg, n);
    }
  }

  lemma StepKeepsBasics(c: Config, s: State, step: Step)
    requires Basics(c, s) && Enabled(s, step)
    ensures Basics(c, Apply(c, s, step))
  {
    match step
    case Cluster(change) =>
      if change.PutService? {
        PutServiceKeepsBasics(c, s, change);
      } else {
        ChangeKeepsBasics(c, s, change);
      }
    case Handler(delivery) => DeliveryKeepsBasics(c, s, delivery);
    case ServicesWork(act) =>
      if act.ServiceCommit? {
        CommitKeepsBasics(c, s, act);
      } else if act.ServiceDelete? {
        DeleteKeepsBasics(c, s);
      } else {
        ServiceKeepsBasics(c, s, act);
      }
    case EndpointsWork(act) => EndpointsKeepBasics(c, s, act);
    case NodesWork(act) => NodeKeepsBasics(c, s, act);
  }

  lemma {:induction false} RunKeepsBasics(c: Config, s: State, steps: seq<Step>)
    requires Basics(c, s) && CanRun(c, s, steps)
    ensures Basics(c, Run(c, s, steps))
    decreases |steps|
  {
    if |steps| > 0 {
      StepKeepsBasics(c, s, steps[0]);
      RunKeepsBasics(c, Apply(c, s, steps[0]), steps[1..]);
    }
  }

  // ----- steps that write nothing -----

  predicate Quiet(s: State, t: State) { t.files == s.files && t.index == s.index && t.origins == s.origins }

  lemma ServiceQuiet(c: Config, s: State, act: ServiceAct)
    requires ServiceEnabled(s, act) && !act.ServiceCommit? && !act.ServiceDelete?
    ensures Quiet(s, AfterService(c, s, act))
  {
  }

  lemma EndpointsQuiet(c: Config, s: State, act: EndpointsAct)
    requires EndpointsEnabled(s, act)
    ensures Quiet(s, AfterEndpoints(c, s, act))
  {
  }

  lemma NodeQuiet(s: State, act: NodeAct)
    requires NodeEnabled(s, act)
    ensures Quiet(s, AfterNode(s, act))
  {
  }

  lemma ChangeQuiet(s: State, change: Change)
    requires ChangeEnabled(s, change)
    ensures Quiet(s, AfterChange(s, change))
  {
  }

  lemma DeliveryQuiet(s: State, delivery: Delivery)
    requires DeliveryEnabled(s, delivery)
    ensures Quiet(s, AfterDelivery(s, delivery))
  {
  }

  /** Only these steps change a file or the index. */
  predicate Writing(step: Step) { step.ServicesWork? && (step.sact.ServiceCommit? || step.sact.ServiceDelete?) }

  lemma QuietStep(c: Config, s: State, step: Step)
    requires Enabled(s, step) && !Writing(step)
    ensures Quiet(s, Apply(c, s, step))
  {
    match step
    case Cluster(change) => ChangeQuiet(s, change);
    case Handler(delivery) => DeliveryQuiet(s, delivery);
    case ServicesWork(act) => ServiceQuiet(c, s, act);
    case EndpointsWork(act) => EndpointsQuiet(c, s, act);
    case NodesWork(act) => NodeQuiet(s, act);
  }

  // ----- steps that leave the stores alone -----

  predicate SameStores(s: State, t: State) {
    t.services == s.services && t.endpoints == s.endpoints && t.nodeObjs == s.nodeObjs && t.seen == s.seen
  }

  lemma ServiceSameStores(c: Config, s: State, act: ServiceAct)
    requires ServiceEnabled(s, act)
    ensures SameStores(s, AfterService(c, s, act))
  {
  }

  lemma EndpointsSameStores(c: Config, s: State, act: EndpointsAct)
    requires EndpointsEnabled(s, act)
    ensures SameStores(s, AfterEndpoints(c, s, act))
  {
  }

  lemma NodeSameStores(s: State, act: NodeAct)
    requires NodeEnabled(s, act)
    ensures SameStores(s, AfterNode(s, act))
  {
  }

  lemma DeliverySameStores(s: State, delivery: Delivery)
    requires DeliveryEnabled(s, delivery)
    ensures SameStores(s, AfterDelivery(s, delivery))
  {
  }

  /** Only the cluster changes the stores. */
  lemma StoresStep(c: Config, s: State, step: Step)
    requires Enabled(s, step) && !step.Cluster?
    ensures SameStores(s, Apply(c, s, step))
  {
    match step
    case Handler(delivery) => DeliverySameStores(s, delivery);
    case ServicesWork(act) => ServiceSameStores(c, s, act);
    case EndpointsWork(act) => EndpointsSameStores(c, s, act);
    case NodesWork(act) => NodeSameStores(s, act);
  }

  // ----- the stores follow the cluster -----

  function Lookup<T>(m: map<string, T>, k: string): Option<T> { if k in m then Some(m[k]) else None }

  /** What a step leaves of a service, an Endpoints object or a node. */
  function ServiceAfter(before: Option<Service>, step: Step, k: string): Option<Service> {
    match step
    case Cluster(PutService(svc, _)) => if MetaKey(svc.ns, svc.name) == k then Some(svc) else before
    case Cluster(DropService(key)) => if key == k then None else before
    case _ => before
  }

  function EndpointsAfter(before: Option<Endpoints>, step: Step, k: string): Option<Endpoints> {
    match step
    case Cluster(PutEndpoints(eps, _)) => if MetaKey(eps.ns, eps.name) == k then Some(eps) else before
    case Cluster(DropEndpoints(key)) => if key == k then None else before
    case _ => before
  }

  function NodeAfter(before: Option<NodeObject>, step: Step, k: string): Option<NodeObject> {
    match step
    case Cluster(PutNode(key, o)) => if key == k then Some(o) else before
    case Cluster(DropNode(key, _)) => if key == k then None else before
    case _ => before
  }

  /** What all steps of a run leave of them. */
  function LatestService(start: Option<Service>, steps: seq<Step>, k: string): Option<Service>
    decreases |steps|
  {
    if |steps| == 0 then start else LatestService(ServiceAfter(start, steps[0], k), steps[1..], k)
  }

  function LatestEndpoints(start: Option<Endpoints>, steps: seq<Step>, k: string): Option<Endpoints>
    decreases |steps|
  {
    if |steps| == 0 then start else LatestEndpoints(EndpointsAfter(start, steps[0], k), steps[1..], k)
  }

  function LatestNode(start: Option<NodeObject>, steps: seq<Step>, k: string): Option<NodeObject>
    decreases |steps|
  {
    if |steps| == 0 then start else LatestNode(NodeAfter(start, steps[0], k), steps[1..], k)
  }

  lemma ServicesFollow(s: State, change: Change, k: string)
    requires ChangeEnabled(s, change)
    ensures Lookup(AfterChange(s, change).services, k) == ServiceAfter(Lookup(s.services, k), Cluster(change), k)
  {
  }

  lemma EndpointsFollow(s: State, change: Change, k: string)
    requires ChangeEnabled(s, change)
    ensures Lookup(AfterChange(s, change).endpoints, k) == EndpointsAfter(Lookup(s.endpoints, k), Cluster(change), k)
  {
  }

  lemma NodesFollow(s: State, change: Change, k: string)
    requires ChangeEnabled(s, change)
    ensures Lookup(AfterChange(s, change).nodeObjs, k) == NodeAfter(Lookup(s.nodeObjs, k), Cluster(change), k)
  {
  }

  /** What the stores hold of the objects of this key. */
  datatype Held = Held(service: Option<Service>, endpoints: Option<Endpoints>, node: Option<NodeObject>)

  function HeldAt(s: State, k: string): Held {
    Held(Lookup(s.services, k), Lookup(s.endpoints, k), Lookup(s.nodeObjs, k))
  }

  function HeldAfter(h: Held, step: Step, k: string): Held {
    Held(ServiceAfter(h.service, step, k), EndpointsAfter(h.endpoints, step, k), NodeAfter(h.node, step, k))
  }

  lemma StepFollows(c: Config, s: State, step: Step, k: string)
    requires Enabled(s, step)
    ensures HeldAt(Apply(c, s, step), k) == HeldAfter(HeldAt(s, k), step, k)
  {
    if step.Cluster? {
      ServicesFollow(s, step.change, k);
      EndpointsFollow(s, step.change, k);
      NodesFollow(s, step.change, k);
    } else {
      StoresStep(c, s, step);
    }
  }

  /** In every run the stores hold exactly what the latest change to each object left, whatever the controller did. */
  lemma {:induction false} StoresFollow(c: Config, s: State, steps: seq<Step>, k: string)
    requires CanRun(c, s, steps)
    ensures HeldAt(Run(c, s, steps), k) ==
            Held(LatestService(Lookup(s.services, k), steps, k), LatestEndpoints(Lookup(s.endpoints, k), steps, k),
                 LatestNode(Lookup(s.nodeObjs, k), steps, k))
    decreases |steps|
  {
    if |steps| > 0 {
      StepFollows(c, s, steps[0], k);
      StoresFollow(c, Apply(c, s, steps[0]), steps[1..], k);
    }
  }
}
