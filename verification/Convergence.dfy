/** Convergence: in every run, whenever the service and endpoint queues are idle, the written files are what the
    stores call for. */
module Convergence {
  import opened Text
  import opened Kube
  import opened Topology
  import opened Stream
  import opened StreamFacts
  import opened ListingFacts
  import opened TieFacts
  import opened Reconcile
  import opened ReconcileInvariant

  /** No other service that ever existed shares this key's file. */
  predicate Alone(seen: set<string>, k: string) { forall j :: j in seen && Stem(j) == Stem(k) ==> j == k }

  // ----- work that is certain to be done -----

  /** A sync of the service will start from scratch. */
  predicate ServiceOwed(event: Option<string>, dirty: set<string>, w: ServiceWorker, k: string) {
    event == Some(k) || k in dirty || w == SGot(k) || w == SFailing(k)
  }

  /** A sync of the endpoints will start from scratch. */
  predicate EndpointsOwed(event: Option<string>, dirty: set<string>, w: EndpointWorker, k: string) {
    event == Some(k) || k in dirty || w == EGot(k) || w == EFailing(k)
  }

  /** Lists that a worker has read agree with the store as it is now. */
  predicate FreshLists(endpoints: map<string, Endpoints>, svc: Service, lists: seq<seq<Endpoint>>) {
    |lists| <= |svc.ports| && forall i :: 0 <= i < |lists| ==> lists[i] == GetEndpoints(endpoints, svc, svc.ports[i])
  }

  /** The endpoints worker is about to ask for a service sync unless the topology is empty. */
  predicate EndpointsFresh(services: map<string, Service>, endpoints: map<string, Endpoints>, w: EndpointWorker,
                           k: string) {
    && k in services
    && (w == EPresent(k) || w == EHandoff(k)
        || (w.EListing? && w.key == k && w.svc2 == services[k] && FreshLists(endpoints, w.svc2, w.lists)))
  }

  /** The service is not one that gets a configuration: unmanaged, or without a single endpoint. */
  predicate EmptyTopology(c: Config, services: map<string, Service>, endpoints: map<string, Endpoints>, k: string) {
    k in services && (!Managed(c, services[k]) || NothingListed(ListsOf(endpoints, services[k])))
  }

  /** The services worker is inside a sync of `k` and has not committed. */
  predicate Working(w: ServiceWorker, k: string) { (w.SFound? || w.SListing?) && w.key == k }

  /** All that the services worker has read is what the stores hold now. */
  predicate ServiceFresh(services: map<string, Service>, endpoints: map<string, Endpoints>, w: ServiceWorker,
                         k: string) {
    && k in services
    && match w
       case SFound(key, svc) => key == k && svc == services[k]
       case SListing(key, svc, svc2, lists) => key == k && svc == services[k] && svc2 == services[k]
                                               && FreshLists(endpoints, svc2, lists)
       case _ => false
  }

  /** The file of `k` was made from what the stores hold now. */
  predicate FileCurrent(services: map<string, Service>, endpoints: map<string, Endpoints>, origins: map<string, Origin>,
                        k: string) {
    && k in services && Stem(k) in origins
    && var o := origins[Stem(k)];
       o.key == k && o.svc == services[k] && IsListing(services[k], ListsOf(endpoints, services[k]), o.entries)
  }

  // ----- the invariant, key by key -----

  predicate Excused(c: Config, s: State, k: string) {
    || ServiceOwed(s.svcEvent, s.sq.dirty, s.sw, k)
    || EndpointsOwed(s.epEvent, s.eq.dirty, s.ew, k)
    || EndpointsFresh(s.services, s.endpoints, s.ew, k)
    || k in s.lost
    || EmptyTopology(c, s.services, s.endpoints, k)
  }

  /** A stored service: its file is current, or the work that will make it so is under way. */
  predicate PresentOk(c: Config, s: State, k: string) {
    k in s.services ==>
      || Excused(c, s, k)
      || (if Working(s.sw, k) || s.sw == SGone(k) then ServiceFresh(s.services, s.endpoints, s.sw, k)
          else FileCurrent(s.services, s.endpoints, s.origins, k))
  }

  /** A service that is not stored: it has no file, or the work that will remove it is under way. */
  predicate AbsentOk(s: State, k: string) {
    k !in s.services ==>
      || ServiceOwed(s.svcEvent, s.sq.dirty, s.sw, k)
      || s.sw == SGone(k)
      || (!Working(s.sw, k) && Stem(k) !in s.files)
  }

  predicate KeyOk(c: Config, s: State, k: string) {
    Alone(s.seen, k) && !Filtered(k) ==> PresentOk(c, s, k) && AbsentOk(s, k)
  }

  // ----- freshness -----

  lemma FreshExtends(endpoints: map<string, Endpoints>, svc: Service, lists: seq<seq<Endpoint>>)
    requires FreshLists(endpoints, svc, lists) && |lists| < |svc.ports|
    ensures FreshLists(endpoints, svc, lists + [GetEndpoints(endpoints, svc, svc.ports[|lists|])])
  {
  }

  lemma FreshComplete(endpoints: map<string, Endpoints>, svc: Service, lists: seq<seq<Endpoint>>)
    requires FreshLists(endpoints, svc, lists) && ListingDone(svc, lists)
    ensures lists == ListsOf(endpoints, svc)
  {
  }

  /** What is read for a service depends on the Endpoints object of the same key alone. */
  lemma ListsLocal(e1: map<string, Endpoints>, e2: map<string, Endpoints>, svc: Service, k: string)
    requires ServiceKey(svc) == k
    requires k in e1 <==> k in e2
    requires k in e1 ==> e1[k] == e2[k]
    ensures ListsOf(e1, svc) == ListsOf(e2, svc)
    ensures forall lists :: FreshLists(e1, svc, lists) <==> FreshLists(e2, svc, lists)
  {
    assert SubsetsFor(e1, svc) == SubsetsFor(e2, svc);
    assert forall p :: GetEndpoints(e1, svc, p) == GetEndpoints(e2, svc, p);
    assert ListsOf(e1, svc) == ListsOf(e2, svc);
  }

  // ----- preservation -----

  lemma ServiceChangeKeeps(c: Config, s: State, change: Change, k: string)
    requires ChangeEnabled(s, change) && (change.PutService? || change.DropService?)
    requires KeyOk(c, s, k)
    ensures KeyOk(c, AfterChange(s, change), k)
  {
  }

  lemma EndpointsChangeKeeps(c: Config, s: State, change: Change, k: string)
    requires StoresOk(s.services, s.endpoints, s.seen)
    requires ChangeEnabled(s, change) && (change.PutEndpoints? || change.DropEndpoints?)
    requires KeyOk(c, s, k)
    ensures KeyOk(c, AfterChange(s, change), k)
  {
    var t := AfterChange(s, change);
    if Filtered(k) || t.epEvent == Some(k) {
      EndpointsNotified(c, s, t, k);
    } else {
      assert k in s.endpoints <==> k in t.endpoints;
      assert k in s.endpoints ==> s.endpoints[k] == t.endpoints[k];
      EndpointsElsewhere(c, s, t, k);
    }
  }

  lemma EndpointsNotified(c: Config, s: State, t: State, k: string)
    requires t == s.(endpoints := t.endpoints, epEvent := t.epEvent) && (Filtered(k) || t.epEvent == Some(k))
    requires KeyOk(c, s, k)
    ensures KeyOk(c, t, k)
  {
  }

  /** A change to other Endpoints objects does not matter for `k`. */
  lemma EndpointsElsewhere(c: Config, s: State, t: State, k: string)
    requires k in s.services ==> ServiceKey(s.services[k]) == k
    requires t == s.(endpoints := t.endpoints, epEvent := t.epEvent) && s.epEvent != Some(k)
    requires k in s.endpoints <==> k in t.endpoints
    requires k in s.endpoints ==> s.endpoints[k] == t.endpoints[k]
    requires KeyOk(c, s, k)
    ensures KeyOk(c, t, k)
  {
    if k in s.services {
      ListsLocal(s.endpoints, t.endpoints, s.services[k], k);
    }
  }

  lemma NodeChangeKeeps(c: Config, s: State, change: Change, k: string)
    requires ChangeEnabled(s, change) && (change.PutNode? || change.DropNode?)
    requires KeyOk(c, s, k)
    ensures KeyOk(c, AfterChange(s, change), k)
  {
  }

  lemma DeliveryKeeps(c: Config, s: State, delivery: Delivery, k: string)
    requires DeliveryEnabled(s, delivery) && KeyOk(c, s, k)
    ensures KeyOk(c, AfterDelivery(s, delivery), k)
  {
  }

  lemma EndpointsQueueKeeps(c: Config, s: State, act: EndpointsAct, k: string)
    requires EndpointsEnabled(s, act) && KeyOk(c, s, k)
    requires act.EndpointsGet? || act.EndpointsRequeue? || act.EndpointsDone?
    ensures KeyOk(c, AfterEndpoints(c, s, act), k)
  {
  }

  lemma EndpointsHandoffKeeps(c: Config, s: State, act: EndpointsAct, k: string)
    requires EndpointsEnabled(s, act) && KeyOk(c, s, k) && (act.EndpointsHandoff? || act.EndpointsHandoffFails?)
    ensures KeyOk(c, AfterEndpoints(c, s, act), k)
  {
  }

  lemma EndpointsReadKeeps(c: Config, s: State, act: EndpointsAct, k: string)
    requires EndpointsEnabled(s, act) && KeyOk(c, s, k)
    requires act.EndpointsRead? || act.EndpointsReadFails? || act.EndpointsTopology? || act.EndpointsTopologyFails?
    ensures KeyOk(c, AfterEndpoints(c, s, act), k)
  {
  }

  lemma EndpointsKeep(c: Config, s: State, act: EndpointsAct, k: string)
    requires EndpointsEnabled(s, act) && KeyOk(c, s, k)
    ensures KeyOk(c, AfterEndpoints(c, s, act), k)
  {
    if act.EndpointsReadPort? {
      EndpointsPortKeeps(c, s, k);
    } else if act.EndpointsDecide? {
      EndpointsDecideKeeps(c, s, k);
    } else if act.EndpointsHandoff? || act.EndpointsHandoffFails? {
      EndpointsHandoffKeeps(c, s, act, k);
    } else if act.EndpointsGet? || act.EndpointsRequeue? || act.EndpointsDone? {
      EndpointsQueueKeeps(c, s, act, k);
    } else {
      EndpointsReadKeeps(c, s, act, k);
    }
  }

  lemma EndpointsPortKeeps(c: Config, s: State, k: string)
    requires EndpointsEnabled(s, EndpointsReadPort) && KeyOk(c, s, k)
    ensures KeyOk(c, AfterEndpoints(c, s, EndpointsReadPort), k)
  {
    if FreshLists(s.endpoints, s.ew.svc2, s.ew.lists) {
      FreshExtends(s.endpoints, s.ew.svc2, s.ew.lists);
    }
  }

  lemma EndpointsDecideKeeps(c: Config, s: State, k: string)
    requires EndpointsEnabled(s, EndpointsDecide) && KeyOk(c, s, k)
    ensures KeyOk(c, AfterEndpoints(c, s, EndpointsDecide), k)
  {
    if FreshLists(s.endpoints, s.ew.svc2, s.ew.lists) {
      FreshComplete(s.endpoints, s.ew.svc2, s.ew.lists);
    }
  }

  lemma NodesKeep(c: Config, s: State, act: NodeAct, k: string)
    requires NodeEnabled(s, act) && KeyOk(c, s, k)
    ensures KeyOk(c, AfterNode(s, act), k)
  {
  }

  lemma ServiceQueueKeeps(c: Config, s: State, act: ServiceAct, k: string)
    requires ServiceEnabled(s, act) && KeyOk(c, s, k) && (act.ServiceGet? || act.ServiceRequeue? || act.ServiceDone?)
    ensures KeyOk(c, AfterService(c, s, act), k)
  {
  }

  lemma ServiceReadKeeps(c: Config, s: State, act: ServiceAct, k: string)
    requires ServiceEnabled(s, act) && KeyOk(c, s, k)
    requires act.ServiceRead? || act.ServiceReadFails? || act.ServiceReadAgain? || act.ServiceReadAgainFails?
    ensures KeyOk(c, AfterService(c, s, act), k)
  {
  }

  lemma ServiceDeleteKeeps(c: Config, s: State, k: string)
    requires ServiceEnabled(s, ServiceDelete) && KeyOk(c, s, k) && s.sw.key in s.seen
    ensures KeyOk(c, AfterService(c, s, ServiceDelete), k)
  {
  }

  lemma ServiceKeeps(c: Config, s: State, act: ServiceAct, k: string)
    requires ServiceEnabled(s, act) && KeyOk(c, s, k)
    requires !act.ServiceReadPort? && !act.ServiceUnmanaged? && !act.ServiceCommit?
    requires !s.sw.SIdle? ==> s.sw.key in s.seen
    ensures KeyOk(c, AfterService(c, s, act), k)
  {
    if act.ServiceDelete? {
      ServiceDeleteKeeps(c, s, k);
    } else if act.ServiceGet? || act.ServiceRequeue? || act.ServiceDone? {
      ServiceQueueKeeps(c, s, act, k);
    } else {
      ServiceReadKeeps(c, s, act, k);
    }
  }

  lemma ServicePortKeeps(c: Config, s: State, k: string)
    requires ServiceEnabled(s, ServiceReadPort) && KeyOk(c, s, k)
    ensures KeyOk(c, AfterService(c, s, ServiceReadPort), k)
  {
    if FreshLists(s.endpoints, s.sw.svc2, s.sw.lists) {
      FreshExtends(s.endpoints, s.sw.svc2, s.sw.lists);
    }
  }

  lemma UnmanagedKeeps(c: Config, s: State, k: string)
    requires ServiceEnabled(s, ServiceUnmanaged) && KeyOk(c, s, k)
    ensures KeyOk(c, AfterService(c, s, ServiceUnmanaged), k)
  {
    if FreshLists(s.endpoints, s.sw.svc2, s.sw.lists) {
      FreshComplete(s.endpoints, s.sw.svc2, s.sw.lists);
    }
  }

  /** What a commit does, as far as convergence is concerned. */
  predicate Wrote(s: State, t: State, o: Origin) {
    && s.sw.SListing? && ListingDone(s.sw.svc2, s.sw.lists) && IsListing(s.sw.svc2, s.sw.lists, o.entries)
    && o.key == s.sw.key && o.svc == s.sw.svc && s.sw.key in s.seen
    && t.files.Keys == s.files.Keys + {Stem(s.sw.key)}
    && t == s.(sw := SFinish(s.sw.key), files := t.files, index := t.index, origins := s.origins[Stem(s.sw.key) := o])
  }

  lemma WriteCurrent(s: State, t: State, o: Origin, k: string)
    requires Wrote(s, t, o) && s.sw.key == k && ServiceFresh(s.services, s.endpoints, s.sw, k)
    ensures FileCurrent(t.services, t.endpoints, t.origins, k)
  {
    FreshComplete(s.endpoints, s.sw.svc2, s.sw.lists);
  }

  lemma WriteKeepsOwn(c: Config, s: State, t: State, o: Origin, k: string)
    requires Wrote(s, t, o) && KeyOk(c, s, k) && s.sw.key == k
    ensures KeyOk(c, t, k)
  {
    if ServiceFresh(s.services, s.endpoints, s.sw, k) {
      WriteCurrent(s, t, o, k);
    }
  }

  lemma WriteKeepsOther(c: Config, s: State, t: State, o: Origin, k: string)
    requires Wrote(s, t, o) && KeyOk(c, s, k) && s.sw.key != k
    ensures KeyOk(c, t, k)
  {
    assert Alone(s.seen, k) ==> Stem(s.sw.key) != Stem(k);
  }

  lemma CommitKeeps(c: Config, s: State, act: ServiceAct, k: string)
    requires act.ServiceCommit? && ServiceEnabled(s, act) && KeyOk(c, s, k) && s.sw.key in s.seen
    ensures KeyOk(c, AfterService(c, s, act), k)
  {
    var o := Origin(s.sw.key, s.sw.svc, act.entries, s.nodes);
    if s.sw.key == k {
      WriteKeepsOwn(c, s, AfterService(c, s, act), o, k);
    } else {
      WriteKeepsOther(c, s, AfterService(c, s, act), o, k);
    }
  }

  lemma StepKeeps(c: Config, s: State, step: Step, k: string)
    requires Basics(c, s) && Enabled(s, step) && KeyOk(c, s, k)
    ensures KeyOk(c, Apply(c, s, step), k)
  {
    match step
    case Cluster(change) =>
      if change.PutService? || change.DropService? {
        ServiceChangeKeeps(c, s, change, k);
      } else if change.PutEndpoints? || change.DropEndpoints? {
        EndpointsChangeKeeps(c, s, change, k);
      } else {
        NodeChangeKeeps(c, s, change, k);
      }
    case Handler(delivery) => DeliveryKeeps(c, s, delivery, k);
    case ServicesWork(act) =>
      if act.ServiceReadPort? {
        ServicePortKeeps(c, s, k);
      } else if act.ServiceUnmanaged? {
        UnmanagedKeeps(c, s, k);
      } else if act.ServiceCommit? {
        CommitKeeps(c, s, act, k);
      } else {
        ServiceKeeps(c, s, act, k);
      }
    case EndpointsWork(act) => EndpointsKeep(c, s, act, k);
    case NodesWork(act) => NodesKeep(c, s, act, k);
  }

  lemma {:induction false} RunKeeps(c: Config, s: State, steps: seq<Step>, k: string)
    requires Basics(c, s) && KeyOk(c, s, k) && CanRun(c, s, steps)
    ensures KeyOk(c, Run(c, s, steps), k)
    decreases |steps|
  {
    if |steps| > 0 {
      StepKeeps(c, s, steps[0], k);
      StepKeepsBasics(c, s, steps[0]);
      RunKeeps(c, Apply(c, s, steps[0]), steps[1..], k);
    }
  }

  // ----- the theorem -----

  /** Services and endpoints have nothing left to do. */
  predicate Settled(s: State) { s.svcEvent.None? && s.epEvent.None? && s.sq.Idle() && s.eq.Idle() }

  /** The file was generated from the stored service, a listing of the stored endpoints, and the registry as it was
      when the file was written (see `OriginFromRun`); for pod and cluster address services, also from the registry
      as it is now. */
  ghost predicate FileMatches(s: State, k: string)
    requires k in s.services
  {
    && Stem(k) in s.files && Stem(k) in s.origins
    && var o := s.origins[Stem(k)];
       && o.key == k && o.svc == s.services[k]
       && IsListing(s.services[k], ListsOf(s.endpoints, s.services[k]), o.entries)
       && Generates(o.nodes, o.Spec(), s.files[Stem(k)])
       && (!o.Spec().upstreamType.HostNode? ==> Generates(s.nodes, o.Spec(), s.files[Stem(k)]))
  }

  ghost predicate Converged(c: Config, s: State, k: string) {
    && (k !in s.services ==> Stem(k) !in s.files)
    && (k in s.services && !EmptyTopology(c, s.services, s.endpoints, k) ==> FileMatches(s, k))
  }

  /** In every run, when services and endpoints are settled, a service key outside the system namespace that
      shares its file with no other key, and was not dropped by a failed lookup since its last sync, has no file
      if it is not stored; and if it is stored with a topology, a file generated from the stores as they are. */
  lemma Convergence(c: Config, steps: seq<Step>, k: string)
    requires CanRun(c, INIT, steps)
    ensures var s := Run(c, INIT, steps);
            Settled(s) && Alone(s.seen, k) && !InNamespace(k, "kube-system") && k !in s.lost ==> Converged(c, s, k)
  {
    FilteredIff(k);
    InitBasics(c);
    RunKeepsBasics(c, INIT, steps);
    RunKeeps(c, INIT, steps, k);
    var s := Run(c, INIT, steps);
    if Settled(s) && Alone(s.seen, k) && !Filtered(k) && k !in s.lost {
      SettledConverged(c, s, k);
    }
  }

  lemma SettledConverged(c: Config, s: State, k: string)
    requires Basics(c, s) && KeyOk(c, s, k)
    requires Settled(s) && Alone(s.seen, k) && !Filtered(k) && k !in s.lost
    ensures Converged(c, s, k)
  {
    SettledFile(c, s, k);
    if k in s.services && !EmptyTopology(c, s.services, s.endpoints, k) {
      CurrentMatches(c, s, k);
    }
  }

  lemma SettledFile(c: Config, s: State, k: string)
    requires QueueOk(s.sq, ServiceBusy(s.sw)) && QueueOk(s.eq, EndpointsBusy(s.ew))
    requires KeyOk(c, s, k) && Settled(s) && Alone(s.seen, k) && !Filtered(k) && k !in s.lost
    ensures k !in s.services ==> Stem(k) !in s.files
    ensures k in s.services && !EmptyTopology(c, s.services, s.endpoints, k) ==>
              FileCurrent(s.services, s.endpoints, s.origins, k)
  {
    SettledIdle(s);
  }

  lemma CurrentMatches(c: Config, s: State, k: string)
    requires FilesOk(c, s.seen, s.files, s.origins) && k in s.services
    requires FileCurrent(s.services, s.endpoints, s.origins, k)
    ensures FileMatches(s, k)
  {
    var o := s.origins[Stem(k)];
    assert OriginOk(s.seen, Stem(k), o, s.files[Stem(k)]);
    if !o.Spec().upstreamType.HostNode? {
      RegistryIndependence(o.nodes, s.nodes, o.Spec(), s.files[Stem(k)]);
    }
  }

  lemma SettledIdle(s: State)
    requires Settled(s)
    requires QueueOk(s.sq, ServiceBusy(s.sw)) && QueueOk(s.eq, EndpointsBusy(s.ew))
    ensures s.sw.SIdle? && s.ew.EIdle?
  {
    assert ServiceBusy(s.sw) == {} && EndpointsBusy(s.ew) == {};
  }

  // ----- what a file was made from -----

  /** The file's origin is an old one, or was made from the registry of this state. */
  predicate FromHere(s: State, t: State, name: string) {
    name in t.origins ==> (name in s.origins && s.origins[name] == t.origins[name]) || t.origins[name].nodes == s.nodes
  }

  lemma WriteFromHere(c: Config, s: State, act: ServiceAct, name: string)
    requires ServiceEnabled(s, act) && (act.ServiceCommit? || act.ServiceDelete?)
    ensures FromHere(s, AfterService(c, s, act), name)
  {
  }

  lemma StepFromHere(c: Config, s: State, step: Step, name: string)
    requires Enabled(s, step)
    ensures FromHere(s, Apply(c, s, step), name)
  {
    if Writing(step) {
      WriteFromHere(c, s, step.sact, name);
    } else {
      QuietStep(c, s, step);
    }
  }

  /** At some point of the run the registry was this one. */
  ghost predicate RegistryOccurs(c: Config, s: State, steps: seq<Step>, nodes: map<string, Node>) {
    exists i :: 0 <= i < |steps| && CanRun(c, s, steps[..i]) && Run(c, s, steps[..i]).nodes == nodes
  }

  lemma OccursNow(c: Config, s: State, steps: seq<Step>)
    requires |steps| > 0
    ensures RegistryOccurs(c, s, steps, s.nodes)
  {
    assert steps[..0] == [];
    assert CanRun(c, s, steps[..0]) && Run(c, s, steps[..0]).nodes == s.nodes;
  }

  lemma OccursLater(c: Config, s: State, steps: seq<Step>, nodes: map<string, Node>)
    requires |steps| > 0 && Enabled(s, steps[0]) && RegistryOccurs(c, Apply(c, s, steps[0]), steps[1..], nodes)
    ensures RegistryOccurs(c, s, steps, nodes)
  {
    var t := Apply(c, s, steps[0]);
    var i :| 0 <= i < |steps[1..]| && CanRun(c, t, steps[1..][..i]) && Run(c, t, steps[1..][..i]).nodes == nodes;
    assert steps[..i + 1][0] == steps[0] && steps[..i + 1][1..] == steps[1..][..i];
    assert CanRun(c, s, steps[..i + 1]) && Run(c, s, steps[..i + 1]).nodes == nodes;
  }

  /** The registry a file was made from was the registry at some point of the run. */
  lemma {:induction false} OriginFromRun(c: Config, s: State, steps: seq<Step>, name: string)
    requires CanRun(c, s, steps) && name in Run(c, s, steps).origins
    ensures var o := Run(c, s, steps).origins[name];
            (name in s.origins && s.origins[name] == o) || RegistryOccurs(c, s, steps, o.nodes)
    decreases |steps|
  {
    if |steps| > 0 {
      var t := Apply(c, s, steps[0]);
      var o := Run(c, s, steps).origins[name];
      OriginFromRun(c, t, steps[1..], name);
      if RegistryOccurs(c, t, steps[1..], o.nodes) {
        OccursLater(c, s, steps, o.nodes);
      } else {
        StepFromHere(c, s, steps[0], name);
        OccursNow(c, s, steps);
      }
    }
  }

  // ----- what the stores determine -----

  /** Two states, of any two runs, that agree on a pod or cluster address service and its endpoints and whose files
      match: the upstreams agree in names, settings and servers, and the listeners agree exactly when the first
      targets of each upstream do. When the ties of the stored service and endpoints are harmless, the stores determine
      the file up to order; `SortChoice.CommitsAgreeIff` shows that otherwise they do not. */
  lemma MatchingFilesAgree(s: State, t: State, k: string)
    requires k in s.services && k in t.services && s.services[k] == t.services[k]
    requires ListsOf(s.endpoints, s.services[k]) == ListsOf(t.endpoints, t.services[k])
    requires FileMatches(s, k) && FileMatches(t, k) && !s.origins[Stem(k)].Spec().upstreamType.HostNode?
    ensures SameUpstreams(s.files[Stem(k)], t.files[Stem(k)])
    ensures var o, p := s.origins[Stem(k)], t.origins[Stem(k)];
            var x, y := multiset(s.files[Stem(k)].servers), multiset(t.files[Stem(k)].servers);
            && (x == y <==> FirstsAgree(o.Spec(), o.Spec().topology, p.Spec().topology))
            && (TiesHarmless(o.Spec(), EntriesOf(s.services[k], ListsOf(s.endpoints, s.services[k]))) ==> x == y)
  {
    var o, p := s.origins[Stem(k)], t.origins[Stem(k)];
    RegistryIndependence(t.nodes, s.nodes, p.Spec(), t.files[Stem(k)]);
    ListingsAgree(s.nodes, k, s.services[k], ListsOf(s.endpoints, s.services[k]), o.entries, p.entries,
                  s.files[Stem(k)], t.files[Stem(k)]);
  }
}
