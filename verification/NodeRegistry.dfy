/** The node registry follows the node store. */
module NodeRegistry {
  import opened Text
  import opened Kube
  import opened Topology
  import opened Stream
  import opened Reconcile
  import opened ReconcileInvariant

  // ----- registry and store -----

  /** A sync of the node will start from scratch. */
  predicate NodeOwed(event: Option<string>, dirty: set<string>, w: NodeWorker, k: string) {
    event == Some(k) || k in dirty || w == NGot(k) || w == NFailing(k)
  }

  /** What the worker has read amounts to what the store holds now. */
  predicate ReadFresh(nodeObjs: map<string, NodeObject>, obj: Option<NodeObject>, k: string) {
    match obj
    case Some(o) => k in nodeObjs && NodeOf(k, o) == NodeOf(k, nodeObjs[k])
    case None => k !in nodeObjs
  }

  /** The entry has the name and the last address of each kind of the object. */
  predicate Describes(n: Node, k: string, o: NodeObject) {
    && n.name == k && n.active == !o.unschedulable && n.hostname == LastOfKind(o.addresses, HostNameKind)
    && n.internalIP == LastOfKind(o.addresses, InternalIPKind)
    && n.externalIP == LastOfKind(o.addresses, ExternalIPKind)
  }

  /** The entry of a node is the one its object calls for. A node that may not be scheduled can be registered or
      not: each of its syncs toggles the entry. */
  predicate Agrees(nodeObjs: map<string, NodeObject>, nodes: map<string, Node>, k: string) {
    && (k in nodes ==> k in nodeObjs && Describes(nodes[k], k, nodeObjs[k]))
    && (k in nodeObjs && !nodeObjs[k].unschedulable ==> k in nodes)
  }

  predicate Reading(w: NodeWorker, k: string) { w.NRead? && w.key == k }

  predicate EntryOk(s: State, k: string) {
    || NodeOwed(s.nodeEvent, s.nq.dirty, s.nw, k)
    || k in s.missed
    || (if Reading(s.nw, k) then ReadFresh(s.nodeObjs, s.nw.obj, k) else Agrees(s.nodeObjs, s.nodes, k))
  }

  lemma CommitAgrees(s: State, act: NodeAct, k: string)
    requires Registry(s.nodes) && NodeEnabled(s, act) && act.NodeCommit? && s.nw.key == k
    requires ReadFresh(s.nodeObjs, s.nw.obj, k)
    ensures Agrees(s.nodeObjs, AfterNode(s, act).nodes, k)
  {
  }

  lemma CommitSparesOthers(s: State, act: NodeAct, k: string)
    requires Registry(s.nodes) && NodeEnabled(s, act) && act.NodeCommit? && s.nw.key != k
    requires Agrees(s.nodeObjs, s.nodes, k)
    ensures Agrees(s.nodeObjs, AfterNode(s, act).nodes, k)
  {
  }

  lemma NodeCommitKeepsEntry(s: State, act: NodeAct, k: string)
    requires Registry(s.nodes) && NodeEnabled(s, act) && act.NodeCommit? && EntryOk(s, k)
    ensures EntryOk(AfterNode(s, act), k)
  {
    if !NodeOwed(s.nodeEvent, s.nq.dirty, s.nw, k) && k !in s.missed {
      if s.nw.key == k {
        CommitAgrees(s, act, k);
      } else {
        CommitSparesOthers(s, act, k);
      }
    }
  }

  lemma NodesKeepEntry(s: State, act: NodeAct, k: string)
    requires NodeEnabled(s, act) && !act.NodeCommit? && EntryOk(s, k)
    ensures EntryOk(AfterNode(s, act), k)
  {
  }

  lemma ChangeKeepsEntry(s: State, change: Change, k: string)
    requires ChangeEnabled(s, change) && EntryOk(s, k)
    ensures EntryOk(AfterChange(s, change), k)
  {
  }

  lemma DeliveryKeepsEntry(s: State, delivery: Delivery, k: string)
    requires DeliveryEnabled(s, delivery) && EntryOk(s, k)
    ensures EntryOk(AfterDelivery(s, delivery), k)
  {
  }

  lemma ServiceKeepsEntry(c: Config, s: State, act: ServiceAct, k: string)
    requires ServiceEnabled(s, act) && EntryOk(s, k)
    ensures EntryOk(AfterService(c, s, act), k)
  {
  }

  lemma EndpointsKeepEntry(c: Config, s: State, act: EndpointsAct, k: string)
    requires EndpointsEnabled(s, act) && EntryOk(s, k)
    ensures EntryOk(AfterEndpoints(c, s, act), k)
  {
  }

  lemma StepKeepsEntry(c: Config, s: State, step: Step, k: string)
    requires Registry(s.nodes) && Enabled(s, step) && EntryOk(s, k)
    ensures EntryOk(Apply(c, s, step), k)
  {
    match step
    case Cluster(change) => ChangeKeepsEntry(s, change, k);
    case Handler(delivery) => DeliveryKeepsEntry(s, delivery, k);
    case ServicesWork(act) => ServiceKeepsEntry(c, s, act, k);
    case EndpointsWork(act) => EndpointsKeepEntry(c, s, act, k);
    case NodesWork(act) =>
      if act.NodeCommit? {
        NodeCommitKeepsEntry(s, act, k);
      } else {
        NodesKeepEntry(s, act, k);
      }
  }

  lemma {:induction false} RunKeepsEntry(c: Config, s: State, steps: seq<Step>, k: string)
    requires Basics(c, s) && EntryOk(s, k) && CanRun(c, s, steps)
    ensures EntryOk(Run(c, s, steps), k)
    decreases |steps|
  {
    if |steps| > 0 {
      StepKeepsBasics(c, s, steps[0]);
      StepKeepsEntry(c, s, steps[0], k);
      RunKeepsEntry(c, Apply(c, s, steps[0]), steps[1..], k);
    }
  }

  predicate NodesSettled(s: State) { s.nodeEvent.None? && s.nq.Idle() }

  /** In every run, when the nodes are settled, the registry entry of every node whose deletion was not missed is
      the one its stored object calls for. */
  lemma RegistryConverges(c: Config, steps: seq<Step>, k: string)
    requires CanRun(c, INIT, steps)
    ensures var s := Run(c, INIT, steps); NodesSettled(s) && k !in s.missed ==> Agrees(s.nodeObjs, s.nodes, k)
  {
    InitBasics(c);
    RunKeepsBasics(c, INIT, steps);
    RunKeepsEntry(c, INIT, steps, k);
    var s := Run(c, INIT, steps);
    if NodesSettled(s) {
      assert NodeBusy(s.nw) == {};
    }
  }
}
