/** Where the guarantees stop: what happens in every run to the file of a service that has nothing to balance over, and
    to the registry entry of a node that may not be scheduled. */
module Limits {
  import opened Text
  import opened Kube
  import opened Topology
  import opened Stream
  import opened Reconcile
  import opened ReconcileInvariant
  import opened Convergence
  import opened Isolation

  // ----- who writes a file -----

  /** Keys seen stay seen. */
  lemma ChangeGrowsSeen(s: State, change: Change)
    requires ChangeEnabled(s, change)
    ensures s.seen <= AfterChange(s, change).seen
  {
  }

  lemma {:induction false} SeenGrows(c: Config, s: State, steps: seq<Step>)
    requires CanRun(c, s, steps)
    ensures s.seen <= Run(c, s, steps).seen
    decreases |steps|
  {
    if |steps| > 0 {
      if steps[0].Cluster? {
        ChangeGrowsSeen(s, steps[0].change);
      } else {
        StoresStep(c, s, steps[0]);
      }
      SeenGrows(c, Apply(c, s, steps[0]), steps[1..]);
    }
  }

  predicate HasFile(s: State, k: string) { Stem(k) in s.files }

  lemma DeleteRemovesIff(c: Config, s: State, k: string)
    requires s.sw.SGone? && s.sw.key in s.seen && Alone(s.seen, k) && HasFile(s, k)
    ensures !HasFile(AfterService(c, s, ServiceDelete), k) <==> s.sw == SGone(k)
  {
  }

  lemma CommitKeepsFile(c: Config, s: State, act: ServiceAct, k: string)
    requires ServiceEnabled(s, act) && act.ServiceCommit? && HasFile(s, k)
    ensures HasFile(AfterService(c, s, act), k)
  {
  }

  lemma QuietKeepsFile(c: Config, s: State, step: Step, k: string)
    requires Enabled(s, step) && !Writing(step) && HasFile(s, k)
    ensures HasFile(Apply(c, s, step), k)
  {
    QuietStep(c, s, step);
  }

  /** A step removes the file of a key that is alone with it exactly when the services worker found the service gone
      and deletes its configuration. */
  lemma FileRemovedIff(c: Config, s: State, step: Step, k: string)
    requires ServiceKeysOk(s.seen, s.svcEvent, s.sq.dirty, s.sw)
    requires Enabled(s, step) && Alone(s.seen, k) && HasFile(s, k)
    ensures !HasFile(Apply(c, s, step), k) <==> step == ServicesWork(ServiceDelete) && s.sw == SGone(k)
  {
    if !Writing(step) {
      QuietKeepsFile(c, s, step, k);
    } else if step.sact.ServiceDelete? {
      DeleteRemovesIff(c, s, k);
    } else {
      CommitKeepsFile(c, s, step.sact, k);
    }
  }

  // ----- a stored service keeps its file -----

  /** The service is stored, and the services worker does not believe otherwise. */
  predicate Kept(s: State, k: string) { k in s.services && s.sw != SGone(k) }

  predicate NeverDropped(steps: seq<Step>, k: string) {
    forall i :: 0 <= i < |steps| ==> steps[i] != Cluster(DropService(k))
  }

  lemma ChangeKeeps(s: State, change: Change, k: string)
    requires ChangeEnabled(s, change) && Kept(s, k) && change != DropService(k)
    ensures Kept(AfterChange(s, change), k)
  {
  }

  lemma ServiceKeepsStored(c: Config, s: State, act: ServiceAct, k: string)
    requires ServiceEnabled(s, act) && Kept(s, k)
    ensures Kept(AfterService(c, s, act), k)
  {
  }

  lemma EndpointsKeepStored(c: Config, s: State, act: EndpointsAct, k: string)
    requires EndpointsEnabled(s, act) && Kept(s, k)
    ensures Kept(AfterEndpoints(c, s, act), k)
  {
  }

  lemma NodesKeepStored(s: State, act: NodeAct, k: string)
    requires NodeEnabled(s, act) && Kept(s, k)
    ensures Kept(AfterNode(s, act), k)
  {
  }

  lemma DeliveryKeepsStored(s: State, delivery: Delivery, k: string)
    requires DeliveryEnabled(s, delivery) && Kept(s, k)
    ensures Kept(AfterDelivery(s, delivery), k)
  {
  }

  lemma StepKeepsStored(c: Config, s: State, step: Step, k: string)
    requires Enabled(s, step) && Kept(s, k) && step != Cluster(DropService(k))
    ensures Kept(Apply(c, s, step), k)
  {
    match step
    case Cluster(change) => ChangeKeeps(s, change, k);
    case Handler(delivery) => DeliveryKeepsStored(s, delivery, k);
    case ServicesWork(act) => ServiceKeepsStored(c, s, act, k);
    case EndpointsWork(act) => EndpointsKeepStored(c, s, act, k);
    case NodesWork(act) => NodesKeepStored(s, act, k);
  }

  lemma StepKeepsBoth(c: Config, s: State, step: Step, k: string)
    requires Basics(c, s) && Enabled(s, step) && Alone(s.seen, k) && step != Cluster(DropService(k))
    requires Kept(s, k) && HasFile(s, k)
    ensures Kept(Apply(c, s, step), k) && HasFile(Apply(c, s, step), k)
  {
    StepKeepsStored(c, s, step, k);
    FileRemovedIff(c, s, step, k);
  }

  lemma AloneBefore(c: Config, s: State, steps: seq<Step>, k: string)
    requires CanRun(c, s, steps) && Alone(Run(c, s, steps).seen, k)
    ensures Alone(s.seen, k)
  {
    SeenGrows(c, s, steps);
  }

  lemma NeverDroppedTail(steps: seq<Step>, k: string)
    requires |steps| > 0 && NeverDropped(steps, k)
    ensures steps[0] != Cluster(DropService(k)) && NeverDropped(steps[1..], k)
  {
  }

  /** For good: in every run in which the service is not deleted, its file stays, whatever becomes of the service's
      annotations, its endpoints or the nodes. */
  lemma {:induction false} StoredKeepsFile(c: Config, s: State, steps: seq<Step>, k: string)
    requires Basics(c, s) && CanRun(c, s, steps) && Alone(Run(c, s, steps).seen, k)
    requires Kept(s, k) && HasFile(s, k) && NeverDropped(steps, k)
    ensures Kept(Run(c, s, steps), k) && HasFile(Run(c, s, steps), k)
    decreases |steps|
  {
    if |steps| > 0 {
      AloneBefore(c, s, steps, k);
      NeverDroppedTail(steps, k);
      StepKeepsBasics(c, s, steps[0]);
      StepKeepsBoth(c, s, steps[0], k);
      StoredKeepsFile(c, Apply(c, s, steps[0]), steps[1..], k);
    }
  }

  // ----- and nothing rewrites it while there is nothing to write -----

  /** Nobody is about to write or delete the file of `k`. */
  predicate Untouched(s: State, step: Step, k: string) {
    Writing(step) ==> s.sw != SGone(k) && !(s.sw.SListing? && s.sw.key == k)
  }

  lemma UntouchedSpares(c: Config, s: State, step: Step, k: string)
    requires ServiceKeysOk(s.seen, s.svcEvent, s.sq.dirty, s.sw) && Enabled(s, step) && Alone(s.seen, k)
    requires Untouched(s, step, k)
    ensures SameFile(s, Apply(c, s, step), Stem(k))
  {
    StepSparesFiles(c, s, step, Stem(k));
  }

  lemma SameFileTransitive(s: State, t: State, u: State, name: string)
    requires SameFile(s, t, name) && SameFile(t, u, name)
    ensures SameFile(s, u, name)
  {
  }

  // Case one: no stored version of the service is managed.

  predicate Unmanaged(c: Config, s: State, k: string) {
    Kept(s, k) && !Managed(c, s.services[k]) && !(s.sw.SListing? && s.sw.key == k)
  }

  /** The step neither deletes the service nor stores a managed version of it. */
  predicate LeavesUnmanaged(c: Config, step: Step, k: string) {
    && step != Cluster(DropService(k))
    && (step.Cluster? && step.change.PutService? && ServiceKey(step.change.svc) == k ==> !Managed(c, step.change.svc))
  }

  lemma ChangeKeepsUnmanaged(c: Config, s: State, change: Change, k: string)
    requires ChangeEnabled(s, change) && Unmanaged(c, s, k) && LeavesUnmanaged(c, Cluster(change), k)
    ensures Unmanaged(c, AfterChange(s, change), k)
  {
  }

  lemma ServiceKeepsUnmanaged(c: Config, s: State, act: ServiceAct, k: string)
    requires ServiceEnabled(s, act) && Unmanaged(c, s, k)
    ensures Unmanaged(c, AfterService(c, s, act), k)
  {
  }

  lemma EndpointsKeepUnmanaged(c: Config, s: State, act: EndpointsAct, k: string)
    requires EndpointsEnabled(s, act) && Unmanaged(c, s, k)
    ensures Unmanaged(c, AfterEndpoints(c, s, act), k)
  {
  }

  lemma NodesKeepUnmanaged(c: Config, s: State, act: NodeAct, k: string)
    requires NodeEnabled(s, act) && Unmanaged(c, s, k)
    ensures Unmanaged(c, AfterNode(s, act), k)
  {
  }

  lemma DeliveryKeepsUnmanaged(c: Config, s: State, delivery: Delivery, k: string)
    requires DeliveryEnabled(s, delivery) && Unmanaged(c, s, k)
    ensures Unmanaged(c, AfterDelivery(s, delivery), k)
  {
  }

  lemma StepKeepsUnmanaged(c: Config, s: State, step: Step, k: string)
    requires Enabled(s, step) && Unmanaged(c, s, k) && LeavesUnmanaged(c, step, k)
    ensures Unmanaged(c, Apply(c, s, step), k)
  {
    match step
    case Cluster(change) => ChangeKeepsUnmanaged(c, s, change, k);
    case Handler(delivery) => DeliveryKeepsUnmanaged(c, s, delivery, k);
    case ServicesWork(act) => ServiceKeepsUnmanaged(c, s, act, k);
    case EndpointsWork(act) => EndpointsKeepUnmanaged(c, s, act, k);
    case NodesWork(act) => NodesKeepUnmanaged(c, s, act, k);
  }

  /** In every run in which the service stays stored and no stored version of it is managed, its file does not change,
      and none is written if there is none. */
  lemma {:induction false} UnmanagedKeepsFile(c: Config, s: State, steps: seq<Step>, k: string)
    requires Basics(c, s) && CanRun(c, s, steps) && Alone(Run(c, s, steps).seen, k) && Unmanaged(c, s, k)
    requires forall i :: 0 <= i < |steps| ==> LeavesUnmanaged(c, steps[i], k)
    ensures SameFile(s, Run(c, s, steps), Stem(k))
    decreases |steps|
  {
    if |steps| > 0 {
      var t := Apply(c, s, steps[0]);
      AloneBefore(c, s, steps, k);
      StepKeepsBasics(c, s, steps[0]);
      StepKeepsUnmanaged(c, s, steps[0], k);
      UntouchedSpares(c, s, steps[0], k);
      UnmanagedKeepsFile(c, t, steps[1..], k);
      SameFileTransitive(s, t, Run(c, t, steps[1..]), Stem(k));
    }
  }

  // Case two: the service has no pods, because it was scaled to zero or its Endpoints object is gone.

  predicate NoAddresses(subsets: seq<EndpointSubset>) {
    forall i :: 0 <= i < |subsets| ==> subsets[i].addresses == []
  }

  /** No Endpoints object or one without addresses, and nothing else was read by the services worker. */
  predicate Podless(s: State, k: string) {
    && Kept(s, k) && (k in s.endpoints ==> NoAddresses(s.endpoints[k].subsets))
    && (s.sw.SListing? && s.sw.key == k ==> NothingListed(s.sw.lists))
  }

  /** The step neither deletes the service nor stores an Endpoints object with an address for it. */
  predicate LeavesPodless(step: Step, k: string) {
    && step != Cluster(DropService(k))
    && (step.Cluster? && step.change.PutEndpoints? && EndpointsKey(step.change.eps) == k ==>
          NoAddresses(step.change.eps.subsets))
  }

  lemma {:induction false} NoAddressNoPort(sp: ServicePort, ports: seq<EndpointPort>)
    ensures PortEndpoints(sp, ports, []) == []
    decreases |ports|
  {
    if |ports| > 0 {
      NoAddressNoPort(sp, ports[..|ports| - 1]);
    }
  }

  lemma {:induction false} NoAddressNoEndpoint(sp: ServicePort, subsets: seq<EndpointSubset>)
    requires NoAddresses(subsets)
    ensures SubsetEndpoints(sp, subsets) == []
    decreases |subsets|
  {
    if |subsets| > 0 {
      var n := |subsets| - 1;
      NoAddressNoEndpoint(sp, subsets[..n]);
      NoAddressNoPort(sp, subsets[n].ports);
    }
  }

  lemma ChangeKeepsPodless(s: State, change: Change, k: string)
    requires ChangeEnabled(s, change) && Podless(s, k) && LeavesPodless(Cluster(change), k)
    ensures Podless(AfterChange(s, change), k)
  {
  }

  lemma PortReadFindsNothing(c: Config, s: State, k: string)
    requires ServiceEnabled(s, ServiceReadPort) && ServiceWorkerOk(c, s.sw) && Podless(s, k)
    ensures Podless(AfterService(c, s, ServiceReadPort), k)
  {
    if s.sw.key == k {
      NoAddressNoEndpoint(s.sw.svc2.ports[|s.sw.lists|], SubsetsFor(s.endpoints, s.sw.svc2));
    }
  }

  lemma ServiceKeepsPodless(c: Config, s: State, act: ServiceAct, k: string)
    requires ServiceEnabled(s, act) && Podless(s, k) && !act.ServiceReadPort?
    ensures Podless(AfterService(c, s, act), k)
  {
  }

  lemma EndpointsKeepPodless(c: Config, s: State, act: EndpointsAct, k: string)
    requires EndpointsEnabled(s, act) && Podless(s, k)
    ensures Podless(AfterEndpoints(c, s, act), k)
  {
  }

  lemma NodesKeepPodless(s: State, act: NodeAct, k: string)
    requires NodeEnabled(s, act) && Podless(s, k)
    ensures Podless(AfterNode(s, act), k)
  {
  }

  lemma DeliveryKeepsPodless(s: State, delivery: Delivery, k: string)
    requires DeliveryEnabled(s, delivery) && Podless(s, k)
    ensures Podless(AfterDelivery(s, delivery), k)
  {
  }

  lemma StepKeepsPodless(c: Config, s: State, step: Step, k: string)
    requires ServiceWorkerOk(c, s.sw) && Enabled(s, step) && Podless(s, k) && LeavesPodless(step, k)
    ensures Podless(Apply(c, s, step), k)
  {
    match step
    case Cluster(change) => ChangeKeepsPodless(s, change, k);
    case Handler(delivery) => DeliveryKeepsPodless(s, delivery, k);
    case ServicesWork(act) =>
      if act.ServiceReadPort? {
        PortReadFindsNothing(c, s, k);
      } else {
        ServiceKeepsPodless(c, s, act, k);
      }
    case EndpointsWork(act) => EndpointsKeepPodless(c, s, act, k);
    case NodesWork(act) => NodesKeepPodless(s, act, k);
  }

  lemma PodlessUntouched(s: State, step: Step, k: string)
    requires Enabled(s, step) && Podless(s, k)
    ensures Untouched(s, step, k)
  {
  }

  /** In every run in which the service stays stored and has no pods, its file does not change: addresses of pods that
      are gone stay in use. */
  lemma {:induction false} PodlessKeepsFile(c: Config, s: State, steps: seq<Step>, k: string)
    requires Basics(c, s) && CanRun(c, s, steps) && Alone(Run(c, s, steps).seen, k) && Podless(s, k)
    requires forall i :: 0 <= i < |steps| ==> LeavesPodless(steps[i], k)
    ensures SameFile(s, Run(c, s, steps), Stem(k))
    decreases |steps|
  {
    if |steps| > 0 {
      var t := Apply(c, s, steps[0]);
      AloneBefore(c, s, steps, k);
      StepKeepsBasics(c, s, steps[0]);
      StepKeepsPodless(c, s, steps[0], k);
      PodlessUntouched(s, steps[0], k);
      UntouchedSpares(c, s, steps[0], k);
      PodlessKeepsFile(c, t, steps[1..], k);
      SameFileTransitive(s, t, Run(c, t, steps[1..]), Stem(k));
    }
  }

  // ----- an unschedulable node -----

  /** The stored node may not be scheduled, and the nodes worker has read nothing else of it. */
  predicate Cordoned(s: State, key: string) {
    && key in s.nodeObjs && s.nodeObjs[key].unschedulable
    && (s.nw.NRead? && s.nw.key == key ==> s.nw.obj.Some? && s.nw.obj.value.unschedulable)
  }

  /** The step neither deletes the node nor stores a version of it that may be scheduled. */
  predicate LeavesCordoned(step: Step, key: string) {
    step.Cluster? ==>
      match step.change
      case PutNode(k, o) => k == key ==> o.unschedulable
      case DropNode(k, _) => k != key
      case _ => true
  }

  /** The step is the registry update of a sync of this node. */
  predicate Updates(s: State, step: Step, key: string) {
    step.NodesWork? && step.nact.NodeCommit? && s.nw.NRead? && s.nw.key == key
  }

  /** How many syncs of the node the run completes. */
  ghost function UpdatesIn(c: Config, s: State, steps: seq<Step>, key: string): nat
    requires CanRun(c, s, steps)
    decreases |steps|
  {
    if |steps| == 0 then 0
    else (if Updates(s, steps[0], key) then 1 else 0) + UpdatesIn(c, Apply(c, s, steps[0]), steps[1..], key)
  }

  predicate Listed(s: State, key: string) { key in s.nodes }

  lemma ChangeKeepsCordoned(s: State, change: Change, key: string)
    requires ChangeEnabled(s, change) && Cordoned(s, key) && LeavesCordoned(Cluster(change), key)
    ensures Cordoned(AfterChange(s, change), key) && (Listed(AfterChange(s, change), key) <==> Listed(s, key))
  {
  }

  lemma DeliveryKeepsCordoned(s: State, delivery: Delivery, key: string)
    requires DeliveryEnabled(s, delivery) && Cordoned(s, key)
    ensures Cordoned(AfterDelivery(s, delivery), key) && (Listed(AfterDelivery(s, delivery), key) <==> Listed(s, key))
  {
  }

  lemma ServiceKeepsCordoned(c: Config, s: State, act: ServiceAct, key: string)
    requires ServiceEnabled(s, act) && Cordoned(s, key)
    ensures Cordoned(AfterService(c, s, act), key) && (Listed(AfterService(c, s, act), key) <==> Listed(s, key))
  {
  }

  lemma EndpointsKeepCordoned(c: Config, s: State, act: EndpointsAct, key: string)
    requires EndpointsEnabled(s, act) && Cordoned(s, key)
    ensures Cordoned(AfterEndpoints(c, s, act), key) && (Listed(AfterEndpoints(c, s, act), key) <==> Listed(s, key))
  {
  }

  lemma NodesKeepCordoned(s: State, act: NodeAct, key: string)
    requires NodeEnabled(s, act) && Cordoned(s, key) && Registry(s.nodes)
    ensures Cordoned(AfterNode(s, act), key)
    ensures (Listed(AfterNode(s, act), key) <==> Listed(s, key)) <==> !Updates(s, NodesWork(act), key)
  {
  }

  /** The entry is there in one of the states and not in the other exactly when `flip` says so. */
  predicate Toggled(s: State, t: State, key: string, flip: bool) { Listed(t, key) == (Listed(s, key) != flip) }

  lemma ToggledMore(s: State, t: State, u: State, key: string, x: bool, y: bool)
    requires Toggled(s, t, key, x) && Toggled(t, u, key, y)
    ensures Toggled(s, u, key, x != y)
  {
  }

  lemma StepToggles(c: Config, s: State, step: Step, key: string)
    requires Registry(s.nodes) && Enabled(s, step) && Cordoned(s, key) && LeavesCordoned(step, key)
    ensures Cordoned(Apply(c, s, step), key) && Toggled(s, Apply(c, s, step), key, Updates(s, step, key))
  {
    match step
    case Cluster(change) => ChangeKeepsCordoned(s, change, key);
    case Handler(delivery) => DeliveryKeepsCordoned(s, delivery, key);
    case ServicesWork(act) => ServiceKeepsCordoned(c, s, act, key);
    case EndpointsWork(act) => EndpointsKeepCordoned(c, s, act, key);
    case NodesWork(act) => NodesKeepCordoned(s, act, key);
  }

  predicate AllLeaveCordoned(steps: seq<Step>, key: string) {
    forall i :: 0 <= i < |steps| ==> LeavesCordoned(steps[i], key)
  }

  lemma LeaveCordonedTail(steps: seq<Step>, key: string)
    requires |steps| > 0 && AllLeaveCordoned(steps, key)
    ensures LeavesCordoned(steps[0], key) && AllLeaveCordoned(steps[1..], key)
  {
  }

  /** Whether that number is odd. */
  ghost predicate OddUpdates(c: Config, s: State, steps: seq<Step>, key: string)
    requires CanRun(c, s, steps)
    decreases |steps|
  {
    |steps| > 0 && (Updates(s, steps[0], key) != OddUpdates(c, Apply(c, s, steps[0]), steps[1..], key))
  }

  lemma {:induction false} OddMeans(c: Config, s: State, steps: seq<Step>, key: string)
    requires CanRun(c, s, steps)
    ensures OddUpdates(c, s, steps, key) <==> UpdatesIn(c, s, steps, key) % 2 == 1
    decreases |steps|
  {
    if |steps| > 0 {
      OddMeans(c, Apply(c, s, steps[0]), steps[1..], key);
    }
  }

  lemma {:induction false} RunToggles(c: Config, s: State, steps: seq<Step>, key: string)
    requires Basics(c, s) && CanRun(c, s, steps) && Cordoned(s, key) && AllLeaveCordoned(steps, key)
    ensures Toggled(s, Run(c, s, steps), key, OddUpdates(c, s, steps, key))
    decreases |steps|
  {
    if |steps| > 0 {
      var t := Apply(c, s, steps[0]);
      LeaveCordonedTail(steps, key);
      StepKeepsBasics(c, s, steps[0]);
      StepToggles(c, s, steps[0], key);
      RunToggles(c, t, steps[1..], key);
      ToggledMore(s, t, Run(c, t, steps[1..]), key, Updates(s, steps[0], key), OddUpdates(c, t, steps[1..], key));
    }
  }

  /** Over every run in which the node stays stored and may not be scheduled, each of its syncs toggles its registry
      entry: at the end it is as it was at the start exactly when the number of syncs is even. */
  lemma CordonedToggles(c: Config, s: State, steps: seq<Step>, key: string)
    requires Basics(c, s) && CanRun(c, s, steps) && Cordoned(s, key) && AllLeaveCordoned(steps, key)
    ensures (Listed(Run(c, s, steps), key) <==> Listed(s, key)) <==> UpdatesIn(c, s, steps, key) % 2 == 0
  {
    RunToggles(c, s, steps, key);
    OddMeans(c, s, steps, key);
  }

  // ----- a deletion that is not delivered -----

  /** Nothing is under way for the node. */
  predicate NodeUntouched(s: State, key: string) {
    s.nodeEvent != Some(key) && key !in s.nq.dirty && (s.nw.NIdle? || s.nw.key != key)
  }

  predicate SameEntry(s: State, t: State, key: string) {
    (key in s.nodes <==> key in t.nodes) && (key in s.nodes ==> s.nodes[key] == t.nodes[key])
  }

  /** No object is stored for the node and nothing is under way for it. */
  predicate Forgotten(s: State, key: string) { key !in s.nodeObjs && NodeUntouched(s, key) }

  /** The step stores no object for the node. */
  predicate LeavesForgotten(step: Step, key: string) {
    !(step.Cluster? && step.change.PutNode? && step.change.key == key)
  }

  lemma ChangeKeepsForgotten(s: State, change: Change, key: string)
    requires ChangeEnabled(s, change) && Forgotten(s, key) && LeavesForgotten(Cluster(change), key)
    ensures Forgotten(AfterChange(s, change), key) && SameEntry(s, AfterChange(s, change), key)
  {
  }

  lemma DeliveryKeepsForgotten(s: State, delivery: Delivery, key: string)
    requires DeliveryEnabled(s, delivery) && Forgotten(s, key)
    ensures Forgotten(AfterDelivery(s, delivery), key) && SameEntry(s, AfterDelivery(s, delivery), key)
  {
  }

  lemma ServiceKeepsForgotten(c: Config, s: State, act: ServiceAct, key: string)
    requires ServiceEnabled(s, act) && Forgotten(s, key)
    ensures Forgotten(AfterService(c, s, act), key) && SameEntry(s, AfterService(c, s, act), key)
  {
  }

  lemma EndpointsKeepForgotten(c: Config, s: State, act: EndpointsAct, key: string)
    requires EndpointsEnabled(s, act) && Forgotten(s, key)
    ensures Forgotten(AfterEndpoints(c, s, act), key) && SameEntry(s, AfterEndpoints(c, s, act), key)
  {
  }

  lemma NodesKeepForgotten(s: State, act: NodeAct, key: string)
    requires NodeEnabled(s, act) && Forgotten(s, key) && Registry(s.nodes) && s.nq.Valid()
    ensures Forgotten(AfterNode(s, act), key) && SameEntry(s, AfterNode(s, act), key)
  {
    if act.NodeGet? {
      assert s.nq.queue[0] in s.nq.dirty;
    }
  }

  lemma StepKeepsForgotten(c: Config, s: State, step: Step, key: string)
    requires Registry(s.nodes) && s.nq.Valid() && Enabled(s, step) && Forgotten(s, key) && LeavesForgotten(step, key)
    ensures Forgotten(Apply(c, s, step), key) && SameEntry(s, Apply(c, s, step), key)
  {
    match step
    case Cluster(change) => ChangeKeepsForgotten(s, change, key);
    case Handler(delivery) => DeliveryKeepsForgotten(s, delivery, key);
    case ServicesWork(act) => ServiceKeepsForgotten(c, s, act, key);
    case EndpointsWork(act) => EndpointsKeepForgotten(c, s, act, key);
    case NodesWork(act) => NodesKeepForgotten(s, act, key);
  }

  lemma {:induction false} ForgottenStays(c: Config, s: State, steps: seq<Step>, key: string)
    requires Basics(c, s) && CanRun(c, s, steps) && Forgotten(s, key)
    requires forall i :: 0 <= i < |steps| ==> LeavesForgotten(steps[i], key)
    ensures SameEntry(s, Run(c, s, steps), key)
    decreases |steps|
  {
    if |steps| > 0 {
      StepKeepsBasics(c, s, steps[0]);
      StepKeepsForgotten(c, s, steps[0], key);
      ForgottenStays(c, Apply(c, s, steps[0]), steps[1..], key);
    }
  }

  /** A node whose deletion arrives as a tombstone while nothing is under way for it keeps its registry entry in every
      run in which it is not stored again. */
  lemma TombstoneForgotten(c: Config, s: State, steps: seq<Step>, key: string)
    requires Basics(c, s) && CanRun(c, s, steps) && |steps| > 0 && steps[0] == Cluster(DropNode(key, true))
    requires NodeUntouched(s, key) && forall i :: 0 < i < |steps| ==> LeavesForgotten(steps[i], key)
    ensures SameEntry(s, Run(c, s, steps), key)
  {
    StepKeepsBasics(c, s, steps[0]);
    ForgottenStays(c, Apply(c, s, steps[0]), steps[1..], key);
  }

  // ----- a deleted Endpoints object -----

  /** A sync of an Endpoints object that is gone hands the service over to be synced, without a look at its topology. */
  lemma DeletionHandedOver(c: Config, s: State)
    requires s.ew.EGot? && s.ew.key !in s.endpoints
    ensures var t := AfterEndpoints(c, s, EndpointsRead);
            && t == s.(ew := EHandoff(s.ew.key)) && EndpointsEnabled(t, EndpointsHandoff)
            && (s.ew.key in s.services ==> s.ew.key in AfterEndpoints(c, t, EndpointsHandoff).sq.dirty)
  {
  }
}
