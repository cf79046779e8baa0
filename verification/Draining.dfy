/** Draining: once the cluster is quiet and reads stop failing, the controller runs out of work after a number of
    steps that is known in advance. */
module Draining {
  import opened Text
  import opened Kube
  import opened Topology
  import opened Stream
  import opened RegistryFacts
  import opened Configurator
  import opened WorkQueue
  import opened Reconcile
  import opened ReconcileInvariant
  import opened Convergence
  import opened NodeRegistry
  import opened Totality

  /** Upper bounds on the ports of a stored service and on the number of services ever seen. */
  datatype Bound = Bound(ports: nat, services: nat) {
    predicate Holds(s: State) {
      && (forall k :: k in s.services ==> |s.services[k].ports| <= ports)
      && |s.seen| <= services
    }

    // Steps that one queued key can cause.
    function ServiceCost(): nat { ports + 5 }
    function EndpointsCost(): nat { ports + 6 + ServiceCost() }
    function HandoffCost(): nat { 1 + ServiceCost() }
    function NodeCost(): nat { 4 + 2 * services * HandoffCost() }
  }

  lemma {:induction false} PortsBounded(services: map<string, Service>) returns (p: nat)
    ensures forall k :: k in services ==> |services[k].ports| <= p
    decreases |services|
  {
    p := 0;
    if services != map[] {
      var k :| k in services;
      var q := PortsBounded(services - {k});
      p := if q < |services[k].ports| then |services[k].ports| else q;
      forall j | j in services ensures |services[j].ports| <= p {
        assert j == k || (j in services - {k} && (services - {k})[j] == services[j]);
      }
    }
  }

  /** Every state has a bound. */
  lemma BoundExists(s: State) returns (b: Bound)
    ensures b.Holds(s)
  {
    var p := PortsBounded(s.services);
    b := Bound(p, |s.seen|);
  }

  // ----- the potential -----

  function ServiceLeft(b: Bound, w: ServiceWorker): nat
    requires w.SListing? ==> |w.lists| <= |w.svc2.ports|
  {
    match w
    case SIdle => 0
    case SGot(_) => b.ports + 4
    case SFound(_, _) => b.ports + 3
    case SGone(_) => 2
    case SListing(_, _, svc2, lists) => |svc2.ports| - |lists| + 2
    case SFailing(_) => b.ServiceCost() + 2
    case SFinish(_) => 1
  }

  function EndpointsLeft(b: Bound, w: EndpointWorker): nat
    requires w.EListing? ==> |w.lists| <= |w.svc2.ports|
  {
    match w
    case EIdle => 0
    case EGot(_) => b.ports + 5 + b.ServiceCost()
    case EPresent(_) => b.ports + 4 + b.ServiceCost()
    case EListing(_, svc2, lists) => |svc2.ports| - |lists| + 3 + b.ServiceCost()
    case EHandoff(_) => 2 + b.ServiceCost()
    case EFailing(_) => b.EndpointsCost() + 2
    case EFinish(_) => 1
  }

  function NodeLeft(b: Bound, w: NodeWorker): nat {
    match w
    case NIdle => 0
    case NGot(_) => 3 + 2 * b.services * b.HandoffCost()
    case NRead(_, _) => 2 + 2 * b.services * b.HandoffCost()
    case NHandoff(_, affected) => 1 + |affected| * b.HandoffCost()
    case NFailing(_) => b.NodeCost() + 2
  }

  function EventCost(event: Option<string>, cost: nat): nat { if event.Some? then 1 + cost else 0 }

  function ServiceDebt(b: Bound, s: State): nat
    requires s.sw.SListing? ==> |s.sw.lists| <= |s.sw.svc2.ports|
  {
    EventCost(s.svcEvent, b.ServiceCost()) + |s.sq.dirty| * b.ServiceCost() + ServiceLeft(b, s.sw)
  }

  function EndpointsDebt(b: Bound, s: State): nat
    requires s.ew.EListing? ==> |s.ew.lists| <= |s.ew.svc2.ports|
  {
    EventCost(s.epEvent, b.EndpointsCost()) + |s.eq.dirty| * b.EndpointsCost() + EndpointsLeft(b, s.ew)
  }

  function NodesDebt(b: Bound, s: State): nat {
    EventCost(s.nodeEvent, b.NodeCost()) + |s.nq.dirty| * b.NodeCost() + NodeLeft(b, s.nw)
  }

  predicate Measurable(s: State) {
    && (s.sw.SListing? ==> |s.sw.lists| <= |s.sw.svc2.ports|)
    && (s.ew.EListing? ==> |s.ew.lists| <= |s.ew.svc2.ports|)
  }

  /** All the work that pending events, queued keys and busy workers can still cause. */
  function Debt(b: Bound, s: State): nat
    requires Measurable(s)
  {
    ServiceDebt(b, s) + EndpointsDebt(b, s) + NodesDebt(b, s)
  }

  /** A read that fails and makes the worker put its key back. */
  predicate Fails(step: Step) {
    match step
    case ServicesWork(act) => act.ServiceReadFails?
    case EndpointsWork(act) => act.EndpointsReadFails?
    case NodesWork(act) => act.NodeReadFails?
    case _ => false
  }

  function Failures(steps: seq<Step>): nat {
    if |steps| == 0 then 0 else (if Fails(steps[0]) then 1 else 0) + Failures(steps[1..])
  }

  // ----- every step but a change of the cluster uses up work -----

  lemma AddCost(q: WorkQueue, k: string, cost: nat)
    ensures |q.Add(k).dirty| * cost <= |q.dirty| * cost + cost
  {
    assert |q.Add(k).dirty| <= |q.dirty| + 1;
    var m, n := |q.Add(k).dirty|, |q.dirty|;
    if m == n + 1 {
      assert m * cost == n * cost + cost;
    } else {
      assert m == n;
    }
  }

  lemma GetCost(q: WorkQueue, cost: nat)
    requires q.Valid() && |q.queue| > 0
    ensures |q.Get().dirty| * cost + cost == |q.dirty| * cost
  {
    assert q.queue[0] in q.dirty;
    var m, n := |q.Get().dirty|, |q.dirty|;
    assert m + 1 == n;
    assert (m + 1) * cost == m * cost + cost;
  }

  /** From `s` to `t` at least one step's worth of work was used up, save for `extra` that a failed read caused. */
  predicate Paid(b: Bound, s: State, t: State, extra: nat) {
    Measurable(s) && Measurable(t) && b.Holds(t) && Debt(b, t) + 1 <= Debt(b, s) + extra
  }

  lemma DeliveryPays(b: Bound, s: State, delivery: Delivery)
    requires DeliveryEnabled(s, delivery) && Measurable(s) && b.Holds(s)
    ensures Paid(b, s, AfterDelivery(s, delivery), 0)
  {
    match delivery
    case DeliverService => AddCost(s.sq, s.svcEvent.value, b.ServiceCost());
    case DeliverEndpoints => AddCost(s.eq, s.epEvent.value, b.EndpointsCost());
    case DeliverNode => AddCost(s.nq, s.nodeEvent.value, b.NodeCost());
  }

  lemma ServiceGetPays(b: Bound, c: Config, s: State)
    requires ServiceEnabled(s, ServiceGet) && s.sq.Valid() && Measurable(s) && b.Holds(s)
    ensures Paid(b, s, AfterService(c, s, ServiceGet), 0)
  {
    GetCost(s.sq, b.ServiceCost());
  }

  lemma ServiceQueuePays(b: Bound, c: Config, s: State, act: ServiceAct)
    requires ServiceEnabled(s, act) && Measurable(s) && b.Holds(s) && (act.ServiceRequeue? || act.ServiceDone?)
    ensures Paid(b, s, AfterService(c, s, act), 0)
  {
    if act.ServiceRequeue? {
      AddCost(s.sq, s.sw.key, b.ServiceCost());
    }
  }

  lemma ServiceReadsPay(b: Bound, c: Config, s: State, act: ServiceAct)
    requires ServiceEnabled(s, act) && Measurable(s) && b.Holds(s)
    requires act.ServiceRead? || act.ServiceReadFails? || act.ServiceReadAgain? || act.ServiceReadAgainFails?
    ensures Paid(b, s, AfterService(c, s, act), if act.ServiceReadFails? then 4 else 0)
  {
  }

  lemma ServicePortPays(b: Bound, c: Config, s: State)
    requires ServiceEnabled(s, ServiceReadPort) && Measurable(s) && b.Holds(s)
    ensures Paid(b, s, AfterService(c, s, ServiceReadPort), 0)
  {
  }

  lemma FinishPays(b: Bound, s: State, t: State)
    requires Measurable(s) && b.Holds(s) && (s.sw.SListing? || s.sw.SGone?)
    requires t == s.(sw := t.sw, index := t.index, files := t.files, origins := t.origins) && t.sw.SFinish?
    ensures Paid(b, s, t, 0)
  {
    assert ServiceLeft(b, t.sw) + 1 <= ServiceLeft(b, s.sw);
  }

  lemma ServiceEndPays(b: Bound, c: Config, s: State, act: ServiceAct)
    requires ServiceEnabled(s, act) && Measurable(s) && b.Holds(s)
    requires act.ServiceUnmanaged? || act.ServiceCommit? || act.ServiceDelete?
    ensures Paid(b, s, AfterService(c, s, act), 0)
  {
    FinishPays(b, s, AfterService(c, s, act));
  }

  lemma ServicePays(b: Bound, c: Config, s: State, act: ServiceAct)
    requires ServiceEnabled(s, act) && s.sq.Valid() && Measurable(s) && b.Holds(s)
    ensures Paid(b, s, AfterService(c, s, act), if act.ServiceReadFails? then 4 else 0)
  {
    if act.ServiceGet? {
      ServiceGetPays(b, c, s);
    } else if act.ServiceRequeue? || act.ServiceDone? {
      ServiceQueuePays(b, c, s, act);
    } else if act.ServiceReadPort? {
      ServicePortPays(b, c, s);
    } else if act.ServiceUnmanaged? || act.ServiceCommit? || act.ServiceDelete? {
      ServiceEndPays(b, c, s, act);
    } else {
      ServiceReadsPay(b, c, s, act);
    }
  }

  lemma EndpointsGetPays(b: Bound, c: Config, s: State)
    requires EndpointsEnabled(s, EndpointsGet) && s.eq.Valid() && Measurable(s) && b.Holds(s)
    ensures Paid(b, s, AfterEndpoints(c, s, EndpointsGet), 0)
  {
    GetCost(s.eq, b.EndpointsCost());
  }

  lemma EndpointsQueuePays(b: Bound, c: Config, s: State, act: EndpointsAct)
    requires EndpointsEnabled(s, act) && Measurable(s) && b.Holds(s) && (act.EndpointsRequeue? || act.EndpointsDone?)
    ensures Paid(b, s, AfterEndpoints(c, s, act), 0)
  {
    if act.EndpointsRequeue? {
      AddCost(s.eq, s.ew.key, b.EndpointsCost());
    }
  }

  lemma EndpointsHandoffPays(b: Bound, c: Config, s: State, act: EndpointsAct)
    requires EndpointsEnabled(s, act) && Measurable(s) && b.Holds(s)
    requires act.EndpointsHandoff? || act.EndpointsHandoffFails?
    ensures Paid(b, s, AfterEndpoints(c, s, act), 0)
  {
    AddCost(s.sq, s.ew.key, b.ServiceCost());
  }

  lemma EndpointsReadsPay(b: Bound, c: Config, s: State, act: EndpointsAct)
    requires EndpointsEnabled(s, act) && Measurable(s) && b.Holds(s)
    requires !act.EndpointsGet? && !act.EndpointsRequeue? && !act.EndpointsDone?
    requires !act.EndpointsHandoff? && !act.EndpointsHandoffFails?
    ensures Paid(b, s, AfterEndpoints(c, s, act), if act.EndpointsReadFails? then 4 else 0)
  {
  }

  lemma EndpointsPay(b: Bound, c: Config, s: State, act: EndpointsAct)
    requires EndpointsEnabled(s, act) && s.eq.Valid() && Measurable(s) && b.Holds(s)
    ensures Paid(b, s, AfterEndpoints(c, s, act), if act.EndpointsReadFails? then 4 else 0)
  {
    if act.EndpointsGet? {
      EndpointsGetPays(b, c, s);
    } else if act.EndpointsRequeue? || act.EndpointsDone? {
      EndpointsQueuePays(b, c, s, act);
    } else if act.EndpointsHandoff? || act.EndpointsHandoffFails? {
      EndpointsHandoffPays(b, c, s, act);
    } else {
      EndpointsReadsPay(b, c, s, act);
    }
  }

  lemma AffectedSize(nodes: map<string, Node>, index: map<string, seq<Node>>, n: Node, seen: set<string>)
    requires index.Keys <= seen
    ensures |AffectedBag(nodes, index, n)| <= 2 * |seen|
  {
    if n.name in nodes {
      SubsetSize(KeysByAddress(index, nodes[n.name].internalIP), seen);
      SubsetSize(KeysByAddress(index, nodes[n.name].externalIP), seen);
      SubsetSize(KeysByName(index, n.name), seen);
    }
  }

  lemma HandoffsFit(m: nat, n: nat, cost: nat)
    requires m <= 2 * n
    ensures m * cost <= 2 * n * cost
  {
  }

  lemma NodeCommitPays(b: Bound, s: State, act: NodeAct)
    requires NodeEnabled(s, act) && act.NodeCommit? && Measurable(s) && b.Holds(s) && s.index.Keys <= s.seen
    ensures Paid(b, s, AfterNode(s, act), 0)
  {
    var update := NodeUpdate(s, s.nw.key, s.nw.obj);
    assert |act.list| == |multiset(act.list)|;
    if update.Some? {
      AffectedSize(s.nodes, s.index, update.value, s.seen);
    }
    HandoffsFit(|act.list|, b.services, b.HandoffCost());
  }

  lemma NodeGetPays(b: Bound, s: State)
    requires NodeEnabled(s, NodeGet) && s.nq.Valid() && Measurable(s) && b.Holds(s)
    ensures Paid(b, s, AfterNode(s, NodeGet), 0)
  {
    GetCost(s.nq, b.NodeCost());
  }

  lemma NodeQueuePays(b: Bound, s: State, act: NodeAct)
    requires NodeEnabled(s, act) && Measurable(s) && b.Holds(s) && (act.NodeRequeue? || act.NodeDone?)
    ensures Paid(b, s, AfterNode(s, act), 0)
  {
    if act.NodeRequeue? {
      AddCost(s.nq, s.nw.key, b.NodeCost());
    }
  }

  lemma OneLess(n: nat, cost: nat)
    ensures n * cost == (n - 1) * cost + cost
  {
  }

  lemma OneHandoffPays(b: Bound, s: State, t: State)
    requires Measurable(s) && b.Holds(s) && s.nw.NHandoff? && |s.nw.affected| > 0
    requires t == s.(nw := NHandoff(s.nw.key, s.nw.affected[1..]), sq := t.sq, lost := t.lost)
    requires |t.sq.dirty| * b.ServiceCost() <= |s.sq.dirty| * b.ServiceCost() + b.ServiceCost()
    ensures Paid(b, s, t, 0)
  {
    OneLess(|s.nw.affected|, b.HandoffCost());
  }

  lemma NodeHandoffPays(b: Bound, s: State, act: NodeAct)
    requires NodeEnabled(s, act) && Measurable(s) && b.Holds(s) && (act.NodeHandoff? || act.NodeHandoffFails?)
    ensures Paid(b, s, AfterNode(s, act), 0)
  {
    AddCost(s.sq, s.nw.affected[0], b.ServiceCost());
    OneHandoffPays(b, s, AfterNode(s, act));
  }

  lemma NodePays(b: Bound, s: State, act: NodeAct)
    requires NodeEnabled(s, act) && s.nq.Valid() && Measurable(s) && b.Holds(s) && s.index.Keys <= s.seen
    ensures Paid(b, s, AfterNode(s, act), if act.NodeReadFails? then 4 else 0)
  {
    if act.NodeGet? {
      NodeGetPays(b, s);
    } else if act.NodeRequeue? || act.NodeDone? {
      NodeQueuePays(b, s, act);
    } else if act.NodeHandoff? || act.NodeHandoffFails? {
      NodeHandoffPays(b, s, act);
    } else if act.NodeCommit? {
      NodeCommitPays(b, s, act);
    }
  }

  lemma StepPays(b: Bound, c: Config, s: State, step: Step)
    requires Basics(c, s) && Enabled(s, step) && !step.Cluster? && b.Holds(s)
    ensures Paid(b, s, Apply(c, s, step), if Fails(step) then 4 else 0)
  {
    match step
    case Handler(delivery) => DeliveryPays(b, s, delivery);
    case ServicesWork(act) => ServicePays(b, c, s, act);
    case EndpointsWork(act) => EndpointsPay(b, c, s, act);
    case NodesWork(act) => NodePays(b, s, act);
  }

  predicate ClusterQuiet(steps: seq<Step>) { forall i :: 0 <= i < |steps| ==> !steps[i].Cluster? }

  /** While the cluster is quiet, no run is longer than the work there is at its start plus four steps for every
      failed read in it: retries are the only way to keep the controller busy. */
  lemma {:induction false} RunsEnd(b: Bound, c: Config, s: State, steps: seq<Step>)
    requires Basics(c, s) && b.Holds(s) && CanRun(c, s, steps) && ClusterQuiet(steps)
    ensures Measurable(s) && |steps| <= Debt(b, s) + 4 * Failures(steps)
    decreases |steps|
  {
    if |steps| > 0 {
      StepPays(b, c, s, steps[0]);
      StepKeepsBasics(c, s, steps[0]);
      RunsEnd(b, c, Apply(c, s, steps[0]), steps[1..]);
    }
  }

  // ----- and until the work is done there is a step to take -----

  /** Nothing left to do anywhere. */
  predicate Quiescent(s: State) { Settled(s) && NodesSettled(s) }

  /** A step of the controller in which no lookup fails. */
  predicate Clean(step: Step) {
    match step
    case Cluster(_) => false
    case Handler(_) => true
    case ServicesWork(act) => !act.ServiceReadFails? && !act.ServiceReadAgainFails?
    case EndpointsWork(act) => !act.EndpointsReadFails? && !act.EndpointsTopologyFails? && !act.EndpointsHandoffFails?
    case NodesWork(act) => !act.NodeReadFails? && !act.NodeHandoffFails?
  }

  lemma {:induction false} BagListing(bag: multiset<string>) returns (list: seq<string>)
    ensures multiset(list) == bag
    decreases |bag|
  {
    list := [];
    if bag != multiset{} {
      var k :| k in bag;
      list := BagListing(bag - multiset{k});
      list := list + [k];
    }
  }

  /** An idle worker with something dirty in its queue can take a key. */
  lemma SomethingQueued(q: WorkQueue)
    requires q.Valid() && q.processing == {} && q.dirty != {}
    ensures |q.queue| > 0
  {
    var k :| k in q.dirty;
    assert k in q.queue;
  }

  lemma CommitPossible(s: State) returns (act: ServiceAct)
    requires s.sw.SListing? && ListingDone(s.sw.svc2, s.sw.lists) && !NothingListed(s.sw.lists) && Registry(s.nodes)
    ensures act.ServiceCommit? && ServiceEnabled(s, act)
  {
    var entries := SortEntries(EntriesOf(s.sw.svc2, s.sw.lists));
    var spec := MakeSpec(s.sw.key, s.sw.svc, entries);
    var cfg := GeneratorTotal(s.nodes, spec);
    var after := IndexTotal(s.nodes, spec, s.index);
    act := ServiceCommit(entries, cfg, after);
  }

  lemma ServiceProgress(c: Config, s: State) returns (act: ServiceAct)
    requires QueueOk(s.sq, ServiceBusy(s.sw)) && ServiceWorkerOk(c, s.sw) && Registry(s.nodes) && !s.sq.Idle()
    ensures ServiceEnabled(s, act) && Clean(ServicesWork(act))
  {
    match s.sw
    case SIdle => SomethingQueued(s.sq); act := ServiceGet;
    case SGot(_) => act := ServiceRead;
    case SFound(_, _) => act := ServiceReadAgain;
    case SGone(_) => act := ServiceDelete;
    case SFailing(_) => act := ServiceRequeue;
    case SFinish(_) => act := ServiceDone;
    case SListing(_, _, svc2, lists) =>
      if |lists| < |svc2.ports| {
        act := ServiceReadPort;
      } else if NothingListed(lists) {
        act := ServiceUnmanaged;
      } else {
        act := CommitPossible(s);
      }
  }

  lemma EndpointsProgress(s: State) returns (act: EndpointsAct)
    requires QueueOk(s.eq, EndpointsBusy(s.ew)) && EndpointsWorkerOk(s.ew) && !s.eq.Idle()
    ensures EndpointsEnabled(s, act) && Clean(EndpointsWork(act))
  {
    match s.ew
    case EIdle => SomethingQueued(s.eq); act := EndpointsGet;
    case EGot(_) => act := EndpointsRead;
    case EPresent(_) => act := EndpointsTopology;
    case EListing(_, svc2, lists) => act := if |lists| < |svc2.ports| then EndpointsReadPort else EndpointsDecide;
    case EHandoff(_) => act := EndpointsHandoff;
    case EFailing(_) => act := EndpointsRequeue;
    case EFinish(_) => act := EndpointsDone;
  }

  lemma NodeProgress(s: State) returns (act: NodeAct)
    requires QueueOk(s.nq, NodeBusy(s.nw)) && !s.nq.Idle()
    ensures NodeEnabled(s, act) && Clean(NodesWork(act))
  {
    match s.nw
    case NIdle => SomethingQueued(s.nq); act := NodeGet;
    case NGot(_) => act := NodeRead;
    case NRead(key, obj) =>
      var update := NodeUpdate(s, key, obj);
      var list := BagListing(if update.Some? then AffectedBag(s.nodes, s.index, update.value) else multiset{});
      act := NodeCommit(list);
    case NHandoff(_, affected) => act := if affected == [] then NodeDone else NodeHandoff;
    case NFailing(_) => act := NodeRequeue;
  }

  /** No deadlock: unless everything is done, the controller can take a step that is not a failed lookup. */
  lemma Progress(c: Config, s: State) returns (step: Step)
    requires Basics(c, s) && !Quiescent(s)
    ensures Enabled(s, step) && Clean(step)
  {
    if s.svcEvent.Some? {
      step := Handler(DeliverService);
    } else if s.epEvent.Some? {
      step := Handler(DeliverEndpoints);
    } else if s.nodeEvent.Some? {
      step := Handler(DeliverNode);
    } else if !s.sq.Idle() {
      var act := ServiceProgress(c, s);
      step := ServicesWork(act);
    } else if !s.eq.Idle() {
      var act := EndpointsProgress(s);
      step := EndpointsWork(act);
    } else {
      var act := NodeProgress(s);
      step := NodesWork(act);
    }
  }

  // ----- draining -----

  /** The cluster is as it was, and no more keys were dropped. */
  predicate SameCluster(s: State, t: State) {
    && t.services == s.services && t.endpoints == s.endpoints && t.nodeObjs == s.nodeObjs && t.seen == s.seen
    && t.lost <= s.lost && t.missed <= s.missed
  }

  lemma ServiceSameCluster(c: Config, s: State, act: ServiceAct)
    requires ServiceEnabled(s, act) && Clean(ServicesWork(act))
    ensures SameCluster(s, AfterService(c, s, act))
  {
  }

  lemma EndpointsSameCluster(c: Config, s: State, act: EndpointsAct)
    requires EndpointsEnabled(s, act) && Clean(EndpointsWork(act))
    ensures SameCluster(s, AfterEndpoints(c, s, act))
  {
  }

  lemma NodeSameCluster(s: State, act: NodeAct)
    requires NodeEnabled(s, act) && Clean(NodesWork(act))
    ensures SameCluster(s, AfterNode(s, act))
  {
  }

  lemma DeliverySameCluster(s: State, delivery: Delivery)
    requires DeliveryEnabled(s, delivery)
    ensures SameCluster(s, AfterDelivery(s, delivery))
  {
  }

  lemma CleanStep(c: Config, s: State, step: Step)
    requires Enabled(s, step) && Clean(step)
    ensures SameCluster(s, Apply(c, s, step))
  {
    match step
    case Handler(delivery) => DeliverySameCluster(s, delivery);
    case ServicesWork(act) => ServiceSameCluster(c, s, act);
    case EndpointsWork(act) => EndpointsSameCluster(c, s, act);
    case NodesWork(act) => NodeSameCluster(s, act);
  }

  predicate AllClean(steps: seq<Step>) { forall i :: 0 <= i < |steps| ==> Clean(steps[i]) }

  /** From every state there is a run of clean steps, no longer than the work there is, to the end of all work. */
  lemma {:induction false} DrainRun(b: Bound, c: Config, s: State) returns (steps: seq<Step>)
    requires Basics(c, s) && b.Holds(s)
    ensures CanRun(c, s, steps) && AllClean(steps) && Measurable(s) && |steps| <= Debt(b, s)
    ensures Quiescent(Run(c, s, steps)) && SameCluster(s, Run(c, s, steps))
    decreases Debt(b, s)
  {
    steps := [];
    if !Quiescent(s) {
      var step := Progress(c, s);
      StepPays(b, c, s, step);
      StepKeepsBasics(c, s, step);
      CleanStep(c, s, step);
      var rest := DrainRun(b, c, Apply(c, s, step));
      steps := [step] + rest;
      assert steps[1..] == rest;
    }
  }

  /** From every reachable state the controller can drain, and then every key that was not dropped by a failed
      lookup has converged on the cluster as it was. */
  lemma DrainsAndConverges(c: Config, steps: seq<Step>, k: string) returns (b: Bound, more: seq<Step>)
    requires CanRun(c, INIT, steps)
    ensures var s := Run(c, INIT, steps);
            && b.Holds(s) && CanRun(c, s, more) && AllClean(more) && Measurable(s) && |more| <= Debt(b, s)
            && var t := Run(c, s, more);
               && Quiescent(t) && SameCluster(s, t)
               && (Alone(s.seen, k) && !InNamespace(k, "kube-system") && k !in s.lost ==> Converged(c, t, k))
  {
    InitBasics(c);
    RunKeepsBasics(c, INIT, steps);
    RunKeeps(c, INIT, steps, k);
    var s := Run(c, INIT, steps);
    b := BoundExists(s);
    more := DrainRun(b, c, s);
    RunKeepsBasics(c, s, more);
    RunKeeps(c, s, more, k);
    FilteredIff(k);
    if Alone(s.seen, k) && !Filtered(k) && k !in s.lost {
      SettledConverged(c, Run(c, s, more), k);
    }
  }
}
