/** The node registry and the service index as a cache to keep valid: in every reachable state each node address in
    a file belongs to a node that is still registered with the same addresses, or a rebuild of the file is pending. */
module Dangling {
  import opened Text
  import opened Kube
  import opened Topology
  import opened Stream
  import opened StreamFacts
  import opened RegistryFacts
  import opened Configurator
  import opened Reconcile
  import opened ReconcileInvariant
  import opened Convergence

  /** Files whose nodes the index names in full: see `IndexCoversIff`. */
  predicate Covered(o: Origin) {
    o.Spec().upstreamType.HostNode? ==> NodeSet(o.svc).All? || OneHost(o.nodes, o.Spec().topology)
  }

  // ----- the index covers the files -----

  ghost predicate IndexOk(index: map<string, seq<Node>>, origins: map<string, Origin>) {
    forall name :: name in origins && Covered(origins[name]) ==> Covers(index, origins[name].key, origins[name].Used())
  }

  lemma CoversFrame(before: map<string, seq<Node>>, after: map<string, seq<Node>>, key: string, used: set<Node>)
    requires Covers(before, key, used) && (key in before ==> key in after && after[key] == before[key])
    ensures Covers(after, key, used)
  {
  }

  lemma NewFileCovered(o: Origin, before: map<string, seq<Node>>, after: map<string, seq<Node>>)
    requires Registry(o.nodes) && IndexAfter(o.nodes, o.Spec(), o.Spec().topology, before, after) && Covered(o)
    ensures Covers(after, o.key, o.Used())
  {
    if o.Spec().upstreamType.HostNode? {
      IndexCoversIff(o.nodes, o.Spec(), before, after);
    }
  }

  lemma CommitKeepsIndex(s: State, name: string, o: Origin, after: map<string, seq<Node>>)
    requires IndexOk(s.index, s.origins) && Registry(o.nodes) && Stem(o.key) == name
    requires forall n :: n in s.origins ==> Stem(s.origins[n].key) == n
    requires IndexAfter(o.nodes, o.Spec(), o.Spec().topology, s.index, after)
    ensures IndexOk(after, s.origins[name := o])
  {
    IndexAfterKeys(o.nodes, o.Spec(), o.Spec().topology, s.index, after);
    if Covered(o) {
      NewFileCovered(o, s.index, after);
    }
    forall n | n in s.origins && n != name && Covered(s.origins[n])
      ensures Covers(after, s.origins[n].key, s.origins[n].Used())
    {
      CoversFrame(s.index, after, s.origins[n].key, s.origins[n].Used());
    }
  }

  lemma DeleteKeepsIndex(s: State, name: string)
    requires IndexOk(s.index, s.origins) && !Contains(name, '/')
    requires forall n :: n in s.origins ==> Contains(s.origins[n].key, '/')
    ensures IndexOk(s.index - {name}, s.origins - {name})
  {
    forall n | n in s.origins && n != name && Covered(s.origins[n])
      ensures Covers(s.index - {name}, s.origins[n].key, s.origins[n].Used())
    {
      CoversFrame(s.index, s.index - {name}, s.origins[n].key, s.origins[n].Used());
    }
  }

  lemma OriginKeys(c: Config, s: State)
    requires Basics(c, s)
    ensures forall n :: n in s.origins ==> Stem(s.origins[n].key) == n && Contains(s.origins[n].key, '/')
  {
    forall n | n in s.origins ensures Stem(s.origins[n].key) == n && Contains(s.origins[n].key, '/') {
      assert OriginOk(s.seen, n, s.origins[n], s.files[n]);
    }
  }

  lemma CommitStepIndex(c: Config, s: State, act: ServiceAct)
    requires Basics(c, s) && act.ServiceCommit? && ServiceEnabled(s, act) && IndexOk(s.index, s.origins)
    ensures var t := AfterService(c, s, act); IndexOk(t.index, t.origins)
  {
    OriginKeys(c, s);
    CommitKeepsIndex(s, Stem(s.sw.key), Origin(s.sw.key, s.sw.svc, act.entries, s.nodes), act.after);
  }

  lemma DeleteStepIndex(c: Config, s: State)
    requires Basics(c, s) && ServiceEnabled(s, ServiceDelete) && IndexOk(s.index, s.origins)
    ensures var t := AfterService(c, s, ServiceDelete); IndexOk(t.index, t.origins)
  {
    OriginKeys(c, s);
    StemHasNoSlash(s.sw.key);
    DeleteKeepsIndex(s, Stem(s.sw.key));
  }

  ghost predicate IndexSound(s: State) { IndexOk(s.index, s.origins) }

  lemma StepKeepsIndex(c: Config, s: State, step: Step)
    requires Basics(c, s) && Enabled(s, step) && IndexSound(s)
    ensures IndexSound(Apply(c, s, step))
  {
    if !Writing(step) {
      QuietStep(c, s, step);
    } else if step.sact.ServiceCommit? {
      CommitStepIndex(c, s, step.sact);
    } else {
      DeleteStepIndex(c, s);
    }
  }

  // ----- node updates report every file they invalidate -----

  /** After a registry update, a file whose nodes were all registered is still good, or its service is reported. */
  lemma UpdateReports(nodes: map<string, Node>, index: map<string, seq<Node>>, n: Node, key: string, used: set<Node>)
    requires Registry(nodes) && Covers(index, key, used) && AllRegistered(nodes, used)
    ensures AllRegistered(NodesAfter(nodes, n), used) || key in AffectedBag(nodes, index, n)
  {
    if u :| u in used && !StillRegistered(NodesAfter(nodes, n), u) {
      assert StillRegistered(nodes, u) && u in index[key];
      var i :| 0 <= i < |index[key]| && index[key][i] == u;
      if n.active {
        assert HasAddress(index[key], u.internalIP) && HasAddress(index[key], u.externalIP);
      } else {
        assert HasName(index[key], n.name);
      }
    }
  }

  lemma UpdateListed(nodes: map<string, Node>, index: map<string, seq<Node>>, n: Node, list: seq<string>, key: string,
                     used: set<Node>)
    requires Registry(nodes) && Covers(index, key, used) && AllRegistered(nodes, used)
    requires multiset(list) == AffectedBag(nodes, index, n)
    ensures AllRegistered(NodesAfter(nodes, n), used) || key in list
  {
    UpdateReports(nodes, index, n, key, used);
    if key in AffectedBag(nodes, index, n) {
      assert key in multiset(list);
    }
  }

  // ----- the invariant -----

  predicate Reported(w: NodeWorker, k: string) { w.NHandoff? && k in w.affected }

  /** A rebuild of the file is queued, under way, owed by the endpoints worker or reported by the nodes worker; or
      no rebuild will come because the service has no topology or a lookup failed. */
  predicate Pending(c: Config, s: State, k: string) {
    Excused(c, s, k) || Working(s.sw, k) || s.sw == SGone(k) || Reported(s.nw, k)
  }

  ghost predicate NodesOk(c: Config, s: State, k: string) {
    Alone(s.seen, k) && !Filtered(k) && Stem(k) in s.origins && s.origins[Stem(k)].key == k
    && Covered(s.origins[Stem(k)]) ==>
      AllRegistered(s.nodes, s.origins[Stem(k)].Used()) || Pending(c, s, k)
  }

  lemma FreshlyUsed(nodes: map<string, Node>, spec: ServiceSpec)
    requires Registry(nodes)
    ensures AllRegistered(nodes, UsedNodes(nodes, spec))
  {
  }

  // ----- preservation -----

  lemma ServiceChangeKeepsNodes(c: Config, s: State, change: Change, k: string)
    requires ChangeEnabled(s, change) && (change.PutService? || change.DropService?) && NodesOk(c, s, k)
    ensures NodesOk(c, AfterChange(s, change), k)
  {
  }

  lemma EndpointsChangeKeepsNodes(c: Config, s: State, change: Change, k: string)
    requires StoresOk(s.services, s.endpoints, s.seen)
    requires ChangeEnabled(s, change) && (change.PutEndpoints? || change.DropEndpoints?) && NodesOk(c, s, k)
    ensures NodesOk(c, AfterChange(s, change), k)
  {
    if !Filtered(k) && Pending(c, s, k) {
      EndpointsChangePending(c, s, change, k);
    }
  }

  lemma EndpointsChangePending(c: Config, s: State, change: Change, k: string)
    requires StoresOk(s.services, s.endpoints, s.seen) && !Filtered(k) && Pending(c, s, k)
    requires ChangeEnabled(s, change) && (change.PutEndpoints? || change.DropEndpoints?)
    ensures Pending(c, AfterChange(s, change), k)
  {
    var t := AfterChange(s, change);
    if t.epEvent != Some(k) {
      assert k in s.endpoints <==> k in t.endpoints;
      assert k in s.endpoints ==> s.endpoints[k] == t.endpoints[k];
      PendingElsewhere(c, s, t, k);
    }
  }

  lemma PendingElsewhere(c: Config, s: State, t: State, k: string)
    requires k in s.services ==> ServiceKey(s.services[k]) == k
    requires t == s.(endpoints := t.endpoints, epEvent := t.epEvent) && s.epEvent != Some(k)
    requires k in s.endpoints <==> k in t.endpoints
    requires k in s.endpoints ==> s.endpoints[k] == t.endpoints[k]
    requires Pending(c, s, k)
    ensures Pending(c, t, k)
  {
    if k in s.services {
      ListsLocal(s.endpoints, t.endpoints, s.services[k], k);
    }
  }

  lemma NodeChangeKeepsNodes(c: Config, s: State, change: Change, k: string)
    requires ChangeEnabled(s, change) && (change.PutNode? || change.DropNode?) && NodesOk(c, s, k)
    ensures NodesOk(c, AfterChange(s, change), k)
  {
  }

  lemma DeliveryKeepsNodes(c: Config, s: State, delivery: Delivery, k: string)
    requires DeliveryEnabled(s, delivery) && NodesOk(c, s, k)
    ensures NodesOk(c, AfterDelivery(s, delivery), k)
  {
  }

  /** A file without a stored service always has its removal pending. */
  lemma AbsentPending(c: Config, s: State, k: string)
    requires KeyOk(c, s, k) && Alone(s.seen, k) && !Filtered(k) && k !in s.services && Stem(k) in s.files
    ensures ServiceOwed(s.svcEvent, s.sq.dirty, s.sw, k) || s.sw == SGone(k)
  {
  }

  /** A rebuild that is pending stays pending while the endpoints worker moves on. */
  lemma EndpointsKeepPending(c: Config, s: State, act: EndpointsAct, k: string)
    requires EndpointsEnabled(s, act) && Pending(c, s, k)
    requires k in s.services || ServiceOwed(s.svcEvent, s.sq.dirty, s.sw, k) || s.sw == SGone(k)
    ensures Pending(c, AfterEndpoints(c, s, act), k)
  {
    if act.EndpointsReadPort? || act.EndpointsDecide? {
      EndpointsListingKeepsPending(c, s, act, k);
    } else if act.EndpointsGet? || act.EndpointsRequeue? || act.EndpointsDone? {
      EndpointsQueueKeepsPending(c, s, act, k);
    }
  }

  lemma EndpointsQueueKeepsPending(c: Config, s: State, act: EndpointsAct, k: string)
    requires EndpointsEnabled(s, act) && Pending(c, s, k)
    requires act.EndpointsGet? || act.EndpointsRequeue? || act.EndpointsDone?
    ensures Pending(c, AfterEndpoints(c, s, act), k)
  {
  }

  lemma EndpointsListingKeepsPending(c: Config, s: State, act: EndpointsAct, k: string)
    requires EndpointsEnabled(s, act) && (act.EndpointsReadPort? || act.EndpointsDecide?) && Pending(c, s, k)
    ensures Pending(c, AfterEndpoints(c, s, act), k)
  {
    if EndpointsFresh(s.services, s.endpoints, s.ew, k) {
      if act.EndpointsReadPort? {
        FreshExtends(s.endpoints, s.ew.svc2, s.ew.lists);
      } else {
        FreshComplete(s.endpoints, s.ew.svc2, s.ew.lists);
      }
    }
  }

  lemma EndpointsKeepNodes(c: Config, s: State, act: EndpointsAct, k: string)
    requires s.files.Keys == s.origins.Keys && KeyOk(c, s, k)
    requires EndpointsEnabled(s, act) && NodesOk(c, s, k)
    ensures NodesOk(c, AfterEndpoints(c, s, act), k)
  {
    if Alone(s.seen, k) && !Filtered(k) && Stem(k) in s.files && Pending(c, s, k) {
      if k !in s.services {
        AbsentPending(c, s, k);
      }
      EndpointsKeepPending(c, s, act, k);
    }
  }

  lemma NodesKeepNodes(c: Config, s: State, act: NodeAct, k: string)
    requires s.files.Keys == s.origins.Keys && KeyOk(c, s, k) && !act.NodeCommit?
    requires NodeEnabled(s, act) && NodesOk(c, s, k)
    ensures NodesOk(c, AfterNode(s, act), k)
  {
  }

  lemma NodeCommitKeepsPending(c: Config, s: State, act: NodeAct, k: string)
    requires NodeEnabled(s, act) && act.NodeCommit? && Pending(c, s, k)
    ensures Pending(c, AfterNode(s, act), k)
  {
  }

  lemma NodeCommitReports(s: State, act: NodeAct, k: string, used: set<Node>)
    requires NodeEnabled(s, act) && act.NodeCommit?
    requires Registry(s.nodes) && Covers(s.index, k, used) && AllRegistered(s.nodes, used)
    ensures var t := AfterNode(s, act); AllRegistered(t.nodes, used) || Reported(t.nw, k)
  {
    var update := NodeUpdate(s, s.nw.key, s.nw.obj);
    if update.Some? {
      UpdateListed(s.nodes, s.index, update.value, act.list, k, used);
    }
  }

  lemma NodeCommitKeepsNodes(c: Config, s: State, act: NodeAct, k: string)
    requires Registry(s.nodes) && IndexSound(s) && act.NodeCommit?
    requires NodeEnabled(s, act) && NodesOk(c, s, k)
    ensures NodesOk(c, AfterNode(s, act), k)
  {
    if Pending(c, s, k) {
      NodeCommitKeepsPending(c, s, act, k);
    } else if Alone(s.seen, k) && !Filtered(k) && Stem(k) in s.origins && s.origins[Stem(k)].key == k
              && Covered(s.origins[Stem(k)]) {
      NodeCommitReports(s, act, k, s.origins[Stem(k)].Used());
    }
  }

  /** A rebuild that is pending stays pending while the services worker moves on without writing. */
  lemma ServiceKeepsPending(c: Config, s: State, act: ServiceAct, k: string)
    requires ServiceEnabled(s, act) && !act.ServiceCommit? && !act.ServiceDelete?
    requires Pending(c, s, k) && PresentOk(c, s, k)
    requires k in s.services || ServiceOwed(s.svcEvent, s.sq.dirty, s.sw, k) || s.sw == SGone(k)
    ensures Pending(c, AfterService(c, s, act), k)
  {
    if act.ServiceUnmanaged? && FreshLists(s.endpoints, s.sw.svc2, s.sw.lists) {
      FreshComplete(s.endpoints, s.sw.svc2, s.sw.lists);
    }
  }

  lemma ServiceKeepsNodes(c: Config, s: State, act: ServiceAct, k: string)
    requires s.files.Keys == s.origins.Keys && KeyOk(c, s, k)
    requires ServiceEnabled(s, act) && NodesOk(c, s, k) && !act.ServiceCommit? && !act.ServiceDelete?
    ensures NodesOk(c, AfterService(c, s, act), k)
  {
    if Alone(s.seen, k) && !Filtered(k) && Stem(k) in s.files && Pending(c, s, k) {
      if k !in s.services {
        AbsentPending(c, s, k);
      }
      ServiceKeepsPending(c, s, act, k);
    }
  }

  lemma DeleteKeepsNodes(c: Config, s: State, k: string)
    requires KeyOk(c, s, k) && ServiceEnabled(s, ServiceDelete) && NodesOk(c, s, k)
    ensures NodesOk(c, AfterService(c, s, ServiceDelete), k)
  {
  }

  lemma CommitKeepsNodes(c: Config, s: State, act: ServiceAct, k: string)
    requires Registry(s.nodes) && s.sw.SListing? && s.sw.key in s.seen
    requires ServiceEnabled(s, act) && NodesOk(c, s, k) && act.ServiceCommit?
    ensures NodesOk(c, AfterService(c, s, act), k)
  {
    FreshlyUsed(s.nodes, MakeSpec(s.sw.key, s.sw.svc, act.entries));
  }

  lemma ChangeKeepsNodes(c: Config, s: State, change: Change, k: string)
    requires StoresOk(s.services, s.endpoints, s.seen) && ChangeEnabled(s, change) && NodesOk(c, s, k)
    ensures NodesOk(c, AfterChange(s, change), k)
  {
    if change.PutService? || change.DropService? {
      ServiceChangeKeepsNodes(c, s, change, k);
    } else if change.PutEndpoints? || change.DropEndpoints? {
      EndpointsChangeKeepsNodes(c, s, change, k);
    } else {
      NodeChangeKeepsNodes(c, s, change, k);
    }
  }

  lemma StepKeepsNodes(c: Config, s: State, step: Step, k: string)
    requires Basics(c, s) && IndexSound(s) && Enabled(s, step) && KeyOk(c, s, k) && NodesOk(c, s, k)
    ensures NodesOk(c, Apply(c, s, step), k)
  {
    match step
    case Cluster(change) => ChangeKeepsNodes(c, s, change, k);
    case Handler(delivery) => DeliveryKeepsNodes(c, s, delivery, k);
    case ServicesWork(act) =>
      if act.ServiceCommit? {
        CommitKeepsNodes(c, s, act, k);
      } else if act.ServiceDelete? {
        DeleteKeepsNodes(c, s, k);
      } else {
        ServiceKeepsNodes(c, s, act, k);
      }
    case EndpointsWork(act) => EndpointsKeepNodes(c, s, act, k);
    case NodesWork(act) =>
      if act.NodeCommit? {
        NodeCommitKeepsNodes(c, s, act, k);
      } else {
        NodesKeepNodes(c, s, act, k);
      }
  }

  lemma {:induction false} RunKeepsNodes(c: Config, s: State, steps: seq<Step>, k: string)
    requires Basics(c, s) && IndexSound(s) && KeyOk(c, s, k) && NodesOk(c, s, k) && CanRun(c, s, steps)
    ensures IndexSound(Run(c, s, steps)) && NodesOk(c, Run(c, s, steps), k)
    decreases |steps|
  {
    if |steps| > 0 {
      StepKeepsBasics(c, s, steps[0]);
      StepKeeps(c, s, steps[0], k);
      StepKeepsIndex(c, s, steps[0]);
      StepKeepsNodes(c, s, steps[0], k);
      RunKeepsNodes(c, Apply(c, s, steps[0]), steps[1..], k);
    }
  }

  /** In every run, at every point of it: the nodes whose addresses a service's file contains are all registered
      with those addresses, or a rebuild of the file is pending. */
  lemma NoDanglingNodes(c: Config, steps: seq<Step>, k: string)
    requires CanRun(c, INIT, steps)
    ensures NodesOk(c, Run(c, INIT, steps), k)
  {
    InitBasics(c);
    RunKeepsNodes(c, INIT, steps, k);
  }
}
