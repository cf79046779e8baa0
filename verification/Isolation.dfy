/** What can reach a file and what cannot: the system namespace has no influence on any run, files of different
    services do not touch each other, and no upstream name occurs twice. */
module Isolation {
  import opened Text
  import opened Kube
  import opened Topology
  import opened Stream
  import opened StreamFacts
  import opened Reconcile
  import opened ReconcileInvariant
  import opened Convergence

  // ----- the system namespace -----

  function Visible<T>(m: map<string, T>): map<string, T> { map k | k in m && !Filtered(k) :: m[k] }

  function VisibleKeys(keys: set<string>): set<string> { set k | k in keys && !Filtered(k) }

  /** The state without any object of the system namespace. */
  function Hide(s: State): State {
    s.(services := Visible(s.services), endpoints := Visible(s.endpoints), seen := VisibleKeys(s.seen))
  }

  /** A change to an object of the system namespace. */
  predicate Hidden(change: Change) {
    match change
    case PutService(svc, _) => Filtered(ServiceKey(svc))
    case DropService(key) => Filtered(key)
    case PutEndpoints(eps, _) => Filtered(EndpointsKey(eps))
    case DropEndpoints(key) => Filtered(key)
    case PutNode(_, _) => false
    case DropNode(_, _) => false
  }

  predicate HiddenStep(step: Step) { step.Cluster? && Hidden(step.change) }

  function Erase(steps: seq<Step>): seq<Step> {
    if |steps| == 0 then []
    else if HiddenStep(steps[0]) then Erase(steps[1..])
    else [steps[0]] + Erase(steps[1..])
  }

  lemma VisiblePut<T>(m: map<string, T>, k: string, v: T)
    ensures Visible(m[k := v]) == if Filtered(k) then Visible(m) else Visible(m)[k := v]
  {
  }

  lemma VisibleDrop<T>(m: map<string, T>, k: string)
    ensures Visible(m - {k}) == Visible(m) - {k}
    ensures Filtered(k) ==> Visible(m - {k}) == Visible(m)
  {
  }

  lemma HiddenChange(s: State, change: Change)
    requires ChangeEnabled(s, change) && Hidden(change)
    ensures Hide(AfterChange(s, change)) == Hide(s)
  {
    match change
    case PutService(svc, _) => VisiblePut(s.services, ServiceKey(svc), svc);
    case DropService(key) => VisibleDrop(s.services, key);
    case PutEndpoints(eps, _) => VisiblePut(s.endpoints, EndpointsKey(eps), eps);
    case DropEndpoints(key) => VisibleDrop(s.endpoints, key);
  }

  /** The change can happen with the system namespace left out, and hiding and changing commute. */
  predicate Commutes(s: State, change: Change) {
    && ChangeEnabled(s, change) && ChangeEnabled(Hide(s), change)
    && AfterChange(Hide(s), change) == Hide(AfterChange(s, change))
  }

  lemma HideEndpoints(s: State, endpoints: map<string, Endpoints>, event: Option<string>)
    ensures Hide(s.(endpoints := endpoints, epEvent := event)) ==
            Hide(s).(endpoints := Visible(endpoints), epEvent := event)
  {
  }

  lemma HideServices(s: State, services: map<string, Service>, seen: set<string>, event: Option<string>)
    ensures Hide(s.(services := services, seen := seen, svcEvent := event)) ==
            Hide(s).(services := Visible(services), seen := VisibleKeys(seen), svcEvent := event)
  {
  }

  lemma VisibleSeen(keys: set<string>, k: string)
    requires !Filtered(k)
    ensures VisibleKeys(keys + {k}) == VisibleKeys(keys) + {k}
  {
  }

  lemma VisiblePutService(s: State, change: Change)
    requires ChangeEnabled(s, change) && !Hidden(change) && change.PutService?
    ensures Commutes(s, change)
  {
    var key := ServiceKey(change.svc);
    VisiblePut(s.services, key, change.svc);
    VisibleSeen(s.seen, key);
    HideServices(s, s.services[key := change.svc], s.seen + {key}, Notify(key));
  }

  lemma VisibleDropService(s: State, change: Change)
    requires ChangeEnabled(s, change) && !Hidden(change) && change.DropService?
    ensures Commutes(s, change)
  {
    VisibleDrop(s.services, change.key);
    HideServices(s, s.services - {change.key}, s.seen, Notify(change.key));
  }

  lemma VisiblePutEndpoints(s: State, change: Change)
    requires ChangeEnabled(s, change) && !Hidden(change) && change.PutEndpoints?
    ensures Commutes(s, change)
  {
    var key := EndpointsKey(change.eps);
    VisiblePut(s.endpoints, key, change.eps);
    HideEndpoints(s, s.endpoints[key := change.eps], Notify(key));
  }

  lemma VisibleDropEndpoints(s: State, change: Change)
    requires ChangeEnabled(s, change) && !Hidden(change) && change.DropEndpoints?
    ensures Commutes(s, change)
  {
    VisibleDrop(s.endpoints, change.key);
    HideEndpoints(s, s.endpoints - {change.key}, Notify(change.key));
  }

  lemma VisibleNodeChange(s: State, change: Change)
    requires ChangeEnabled(s, change) && (change.PutNode? || change.DropNode?)
    ensures Commutes(s, change)
  {
  }

  lemma VisibleChange(s: State, change: Change)
    requires ChangeEnabled(s, change) && !Hidden(change)
    ensures Commutes(s, change)
  {
    match change
    case PutService(_, _) => VisiblePutService(s, change);
    case DropService(_) => VisibleDropService(s, change);
    case PutEndpoints(_, _) => VisiblePutEndpoints(s, change);
    case DropEndpoints(_) => VisibleDropEndpoints(s, change);
    case PutNode(_, _) => VisibleNodeChange(s, change);
    case DropNode(_, _) => VisibleNodeChange(s, change);
  }

  /** No worker holds a key of the system namespace. */
  predicate WorkVisible(s: State) {
    && (!s.sw.SIdle? ==> !Filtered(s.sw.key))
    && (!s.ew.EIdle? ==> !Filtered(s.ew.key))
    && (s.nw.NHandoff? ==> forall k :: k in s.nw.affected ==> !Filtered(k))
  }

  lemma VisibleDelivery(s: State, delivery: Delivery)
    requires DeliveryEnabled(s, delivery)
    ensures DeliveryEnabled(Hide(s), delivery) && AfterDelivery(Hide(s), delivery) == Hide(AfterDelivery(s, delivery))
  {
  }

  lemma VisibleService(c: Config, s: State, act: ServiceAct)
    requires ServiceEnabled(s, act) && ServiceWorkerOk(c, s.sw) && WorkVisible(s)
    ensures ServiceEnabled(Hide(s), act) && AfterService(c, Hide(s), act) == Hide(AfterService(c, s, act))
  {
  }

  lemma VisibleEndpoints(c: Config, s: State, act: EndpointsAct)
    requires EndpointsEnabled(s, act) && EndpointsWorkerOk(s.ew) && WorkVisible(s)
    ensures EndpointsEnabled(Hide(s), act) && AfterEndpoints(c, Hide(s), act) == Hide(AfterEndpoints(c, s, act))
  {
  }

  lemma VisibleNode(s: State, act: NodeAct)
    requires NodeEnabled(s, act) && !act.NodeCommit? && WorkVisible(s)
    ensures NodeEnabled(Hide(s), act) && AfterNode(Hide(s), act) == Hide(AfterNode(s, act))
  {
  }

  lemma VisibleNodeCommit(s: State, act: NodeAct)
    requires NodeEnabled(s, act) && act.NodeCommit?
    ensures NodeEnabled(Hide(s), act) && AfterNode(Hide(s), act) == Hide(AfterNode(s, act))
  {
    assert NodeUpdate(Hide(s), s.nw.key, s.nw.obj) == NodeUpdate(s, s.nw.key, s.nw.obj);
  }

  lemma VisibleStep(c: Config, s: State, step: Step)
    requires ServiceWorkerOk(c, s.sw) && EndpointsWorkerOk(s.ew) && WorkVisible(s) && Enabled(s, step)
             && !HiddenStep(step)
    ensures Enabled(Hide(s), step) && Apply(c, Hide(s), step) == Hide(Apply(c, s, step))
  {
    match step
    case Cluster(change) => VisibleChange(s, change);
    case Handler(delivery) => VisibleDelivery(s, delivery);
    case ServicesWork(act) => VisibleService(c, s, act);
    case EndpointsWork(act) => VisibleEndpoints(c, s, act);
    case NodesWork(act) =>
      if act.NodeCommit? {
        VisibleNodeCommit(s, act);
      } else {
        VisibleNode(s, act);
      }
  }

  lemma {:induction false} HiddenIgnored(c: Config, s: State, steps: seq<Step>)
    requires Basics(c, s) && CanRun(c, s, steps)
    ensures CanRun(c, Hide(s), Erase(steps)) && Run(c, Hide(s), Erase(steps)) == Hide(Run(c, s, steps))
    decreases |steps|
  {
    if |steps| > 0 {
      StepKeepsBasics(c, s, steps[0]);
      HiddenIgnored(c, Apply(c, s, steps[0]), steps[1..]);
      if HiddenStep(steps[0]) {
        HiddenChange(s, steps[0].change);
      } else {
        VisibleStep(c, s, steps[0]);
        assert Erase(steps)[1..] == Erase(steps[1..]);
      }
    }
  }

  // The same in terms of the namespace itself.

  /** A change to an object of the namespace `kube-system`. */
  predicate SystemChange(change: Change) {
    match change
    case PutService(svc, _) => svc.ns == "kube-system"
    case DropService(key) => KeyNamespace(key) == "kube-system"
    case PutEndpoints(eps, _) => eps.ns == "kube-system"
    case DropEndpoints(key) => KeyNamespace(key) == "kube-system"
    case PutNode(_, _) => false
    case DropNode(_, _) => false
  }

  /** The run without the changes to objects of that namespace. */
  function WithoutSystem(steps: seq<Step>): seq<Step> {
    if |steps| == 0 then []
    else if steps[0].Cluster? && SystemChange(steps[0].change) then WithoutSystem(steps[1..])
    else [steps[0]] + WithoutSystem(steps[1..])
  }

  /** The state without the objects of that namespace. */
  function OutsideSystem(s: State): State {
    s.(services := map k | k in s.services && s.services[k].ns != "kube-system" :: s.services[k],
       endpoints := map k | k in s.endpoints && s.endpoints[k].ns != "kube-system" :: s.endpoints[k],
       seen := set k | k in s.seen && !InNamespace(k, "kube-system"))
  }

  lemma KeyHidden(ns: string, name: string, key: string)
    requires ValidNames(ns, name) && MetaKey(ns, name) == key
    ensures Filtered(key) <==> ns == "kube-system"
    ensures KeyNamespace(key) == ns
  {
    ObjectNamespace(ns, name);
    MetaKeyValid(ns, name);
  }

  lemma OutsideIsHidden(s: State)
    requires StoresOk(s.services, s.endpoints, s.seen)
    ensures OutsideSystem(s) == Hide(s)
  {
    var t := OutsideSystem(s);
    forall k | k in s.services ensures Filtered(k) <==> s.services[k].ns == "kube-system" {
      KeyHidden(s.services[k].ns, s.services[k].name, k);
    }
    forall k | k in s.endpoints ensures Filtered(k) <==> s.endpoints[k].ns == "kube-system" {
      KeyHidden(s.endpoints[k].ns, s.endpoints[k].name, k);
    }
    forall k ensures Filtered(k) <==> InNamespace(k, "kube-system") {
      FilteredIff(k);
    }
    assert t.services == Visible(s.services) && t.endpoints == Visible(s.endpoints) && t.seen == VisibleKeys(s.seen);
  }

  lemma SystemIsHidden(s: State, change: Change)
    requires StoresOk(s.services, s.endpoints, s.seen) && ChangeEnabled(s, change)
    ensures SystemChange(change) <==> Hidden(change)
  {
    match change
    case PutService(svc, _) => KeyHidden(svc.ns, svc.name, ServiceKey(svc));
    case DropService(key) => KeyHidden(s.services[key].ns, s.services[key].name, key);
    case PutEndpoints(eps, _) => KeyHidden(eps.ns, eps.name, EndpointsKey(eps));
    case DropEndpoints(key) => KeyHidden(s.endpoints[key].ns, s.endpoints[key].name, key);
    case PutNode(_, _) =>
    case DropNode(_, _) =>
  }

  lemma {:induction false} WithoutIsErase(c: Config, s: State, steps: seq<Step>)
    requires Basics(c, s) && CanRun(c, s, steps)
    ensures WithoutSystem(steps) == Erase(steps)
    decreases |steps|
  {
    if |steps| > 0 {
      StepKeepsBasics(c, s, steps[0]);
      WithoutIsErase(c, Apply(c, s, steps[0]), steps[1..]);
      if steps[0].Cluster? {
        SystemIsHidden(s, steps[0].change);
      }
    }
  }

  /** Leaving out of a run every change to an object of `kube-system` gives a run that ends in the same state, but for
      the objects of that namespace in the stores: queues, workers, registry, index and files are all the same. */
  lemma SystemNamespaceIgnored(c: Config, s: State, steps: seq<Step>)
    requires Basics(c, s) && CanRun(c, s, steps)
    ensures CanRun(c, OutsideSystem(s), WithoutSystem(steps))
    ensures Run(c, OutsideSystem(s), WithoutSystem(steps)) == OutsideSystem(Run(c, s, steps))
  {
    HiddenIgnored(c, s, steps);
    RunKeepsBasics(c, s, steps);
    WithoutIsErase(c, s, steps);
    OutsideIsHidden(s);
    OutsideIsHidden(Run(c, s, steps));
  }

  /** From start-up: no object of that namespace has any influence on the files. */
  lemma SystemNamespaceLeavesNoTrace(c: Config, steps: seq<Step>)
    requires CanRun(c, INIT, steps)
    ensures CanRun(c, INIT, WithoutSystem(steps))
    ensures var s, t := Run(c, INIT, steps), Run(c, INIT, WithoutSystem(steps));
            s.files == t.files && s.index == t.index && s.nodes == t.nodes && s.sq == t.sq && s.eq == t.eq
            && s.nq == t.nq
  {
    InitBasics(c);
    SystemNamespaceIgnored(c, INIT, steps);
    assert OutsideSystem(INIT) == INIT;
  }

  // ----- one file per service -----

  predicate SameFile(s: State, t: State, name: string) {
    (name in s.files <==> name in t.files) && (name in s.files ==> s.files[name] == t.files[name])
  }

  /** The step writes or deletes the file `name`. */
  predicate Writes(s: State, step: Step, name: string) {
    Writing(step) && !s.sw.SIdle? && Stem(s.sw.key) == name
  }

  lemma WriteSparesFiles(c: Config, s: State, act: ServiceAct, name: string)
    requires ServiceEnabled(s, act) && (act.ServiceCommit? || act.ServiceDelete?) && Stem(s.sw.key) != name
    ensures SameFile(s, AfterService(c, s, act), name)
  {
  }

  /** A step leaves every file alone but the one of the service in work. */
  lemma StepSparesFiles(c: Config, s: State, step: Step, name: string)
    requires Enabled(s, step) && !Writes(s, step, name)
    ensures SameFile(s, Apply(c, s, step), name)
  {
    if Writing(step) {
      WriteSparesFiles(c, s, step.sact, name);
    } else {
      QuietStep(c, s, step);
    }
  }

  // ----- the index only grows -----

  predicate KeepsEntries(s: State, t: State) { s.index.Keys <= t.index.Keys }

  lemma CommitKeepsEntries(c: Config, s: State, act: ServiceAct)
    requires ServiceEnabled(s, act) && act.ServiceCommit?
    ensures KeepsEntries(s, AfterService(c, s, act))
  {
    var spec := MakeSpec(s.sw.key, s.sw.svc, act.entries);
    IndexAfterKeys(s.nodes, spec, spec.topology, s.index, act.after);
  }

  lemma DeleteKeepsEntries(c: Config, s: State)
    requires ServiceEnabled(s, ServiceDelete) && forall k :: k in s.index ==> Contains(k, '/')
    ensures KeepsEntries(s, AfterService(c, s, ServiceDelete))
  {
    StemHasNoSlash(s.sw.key);
  }

  /** Deleting a configuration removes an index entry under the file's name, and no entry has such a key: entries
      are never removed. */
  lemma StepKeepsEntries(c: Config, s: State, step: Step)
    requires Basics(c, s) && Enabled(s, step)
    ensures KeepsEntries(s, Apply(c, s, step))
  {
    if !Writing(step) {
      QuietStep(c, s, step);
    } else if step.sact.ServiceDelete? {
      DeleteKeepsEntries(c, s);
    } else {
      CommitKeepsEntries(c, s, step.sact);
    }
  }

  lemma {:induction false} IndexOnlyGrows(c: Config, s: State, steps: seq<Step>)
    requires Basics(c, s) && CanRun(c, s, steps)
    ensures KeepsEntries(s, Run(c, s, steps))
    decreases |steps|
  {
    if |steps| > 0 {
      StepKeepsBasics(c, s, steps[0]);
      StepKeepsEntries(c, s, steps[0]);
      IndexOnlyGrows(c, Apply(c, s, steps[0]), steps[1..]);
    }
  }

  // ----- names -----

  /** One key's namespace continues the other's after a hyphen. */
  predicate NamespacesOverlap(j: string, k: string) {
    HasPrefix(KeyNamespace(j), KeyNamespace(k) + "-") || HasPrefix(KeyNamespace(k), KeyNamespace(j) + "-")
  }

  predicate KeysShareFile(j: string, k: string)
    requires ValidKey(j) && ValidKey(k)
  {
    SharesFile(KeyNamespace(j), KeyName(j), KeyNamespace(k), KeyName(k))
  }

  lemma KeyStems(j: string, k: string)
    requires ValidKey(j) && ValidKey(k)
    ensures Stem(j) == Stem(k) <==> KeysShareFile(j, k)
  {
    ValidKeyParts(j);
    ValidKeyParts(k);
    StemEqualIff(KeyNamespace(j), KeyName(j), KeyNamespace(k), KeyName(k));
  }

  /** A key is alone with its file exactly when no other key has a namespace and name that run together to the same
      text; it is enough that no namespace continues another after a hyphen. */
  lemma AloneIff(seen: set<string>, k: string)
    requires ValidKey(k) && forall j :: j in seen ==> ValidKey(j)
    ensures Alone(seen, k) <==> forall j :: j in seen && KeysShareFile(j, k) ==> j == k
    ensures (forall j :: j in seen ==> !NamespacesOverlap(j, k)) ==> Alone(seen, k)
  {
    forall j | j in seen ensures Stem(j) == Stem(k) <==> KeysShareFile(j, k) {
      KeyStems(j, k);
    }
    forall j | j in seen && !NamespacesOverlap(j, k) && KeysShareFile(j, k) ensures j == k {
      ValidKeyParts(j);
      ValidKeyParts(k);
    }
  }

  predicate SeenValid(s: State) { forall j :: j in s.seen ==> ValidKey(j) }

  lemma ChangeKeepsSeenValid(s: State, change: Change)
    requires ChangeEnabled(s, change) && SeenValid(s)
    ensures SeenValid(AfterChange(s, change))
  {
    if change.PutService? {
      MetaKeyValid(change.svc.ns, change.svc.name);
    }
  }

  lemma StepKeepsSeenValid(c: Config, s: State, step: Step)
    requires Enabled(s, step) && SeenValid(s)
    ensures SeenValid(Apply(c, s, step))
  {
    if step.Cluster? {
      ChangeKeepsSeenValid(s, step.change);
    } else {
      StoresStep(c, s, step);
    }
  }

  lemma {:induction false} RunKeepsSeenValid(c: Config, s: State, steps: seq<Step>)
    requires CanRun(c, s, steps) && SeenValid(s)
    ensures SeenValid(Run(c, s, steps))
    decreases |steps|
  {
    if |steps| > 0 {
      StepKeepsSeenValid(c, s, steps[0]);
      RunKeepsSeenValid(c, Apply(c, s, steps[0]), steps[1..]);
    }
  }

  /** In every reachable state: which keys are alone with their files, as the theorems about runs ask of a key. */
  lemma AloneInRuns(c: Config, steps: seq<Step>, k: string)
    requires CanRun(c, INIT, steps) && ValidKey(k)
    ensures var s := Run(c, INIT, steps);
            && SeenValid(s)
            && (Alone(s.seen, k) <==> forall j :: j in s.seen && KeysShareFile(j, k) ==> j == k)
            && ((forall j :: j in s.seen ==> !NamespacesOverlap(j, k)) ==> Alone(s.seen, k))
  {
    RunKeepsSeenValid(c, INIT, steps);
    AloneIff(Run(c, INIT, steps).seen, k);
  }

  /** Neither the namespace nor a port name of the file's service has a hyphen. */
  predicate PlainNames(o: Origin) {
    && !Contains(o.svc.ns, '-')
    && forall i :: 0 <= i < |o.Spec().topology| ==> !Contains(o.Spec().topology[i].portName, '-')
  }

  lemma UpstreamOfTarget(o: Origin, cfg: StreamConfig, u: int) returns (i: int)
    requires Generates(o.nodes, o.Spec(), cfg) && 0 <= u < |cfg.upstreams|
    ensures 0 <= i < |o.Spec().topology| && cfg.upstreams[u].name == UpstreamName(o.svc, o.Spec().topology[i].portName)
  {
    assert UpstreamNamed(cfg.upstreams, cfg.upstreams[u].name);
    i :| 0 <= i < |o.Spec().topology| && TargetName(o.Spec(), o.Spec().topology[i]) == cfg.upstreams[u].name;
  }

  /** In every reachable state, upstreams of different files have different names when namespaces and port names
      are hyphen-free. */
  lemma UpstreamNamesUnique(c: Config, steps: seq<Step>, f: string, g: string, u: int, v: int)
    requires CanRun(c, INIT, steps)
    requires var s := Run(c, INIT, steps);
             && f in s.files && g in s.files && f in s.origins && g in s.origins && f != g
             && PlainNames(s.origins[f]) && PlainNames(s.origins[g])
             && 0 <= u < |s.files[f].upstreams| && 0 <= v < |s.files[g].upstreams|
    ensures var s := Run(c, INIT, steps); s.files[f].upstreams[u].name != s.files[g].upstreams[v].name
  {
    InitBasics(c);
    RunKeepsBasics(c, INIT, steps);
    var s := Run(c, INIT, steps);
    assert OriginOk(s.seen, f, s.origins[f], s.files[f]) && OriginOk(s.seen, g, s.origins[g], s.files[g]);
    DifferentOrigins(s.origins[f], s.files[f], u, s.origins[g], s.files[g], v);
  }

  lemma DifferentOrigins(o1: Origin, cfg1: StreamConfig, u: int, o2: Origin, cfg2: StreamConfig, v: int)
    requires Generates(o1.nodes, o1.Spec(), cfg1) && 0 <= u < |cfg1.upstreams| && PlainNames(o1)
    requires Generates(o2.nodes, o2.Spec(), cfg2) && 0 <= v < |cfg2.upstreams| && PlainNames(o2)
    requires Named(o1.svc, o1.key) && Named(o2.svc, o2.key) && o1.key != o2.key
    ensures cfg1.upstreams[u].name != cfg2.upstreams[v].name
  {
    var i := UpstreamOfTarget(o1, cfg1, u);
    var j := UpstreamOfTarget(o2, cfg2, v);
    if cfg1.upstreams[u].name == cfg2.upstreams[v].name {
      UpstreamNameInjective(o1.svc, o1.Spec().topology[i].portName, o2.svc, o2.Spec().topology[j].portName);
    }
  }

  // ----- the port requirement -----

  /** With `--require-port=false` no service is ever configured, whatever happens. */
  lemma NoFilesWithoutRequiredPort(c: Config, steps: seq<Step>)
    requires CanRun(c, INIT, steps) && !c.requirePort
    ensures Run(c, INIT, steps).files == map[]
  {
    InitBasics(c);
    RunKeepsBasics(c, INIT, steps);
  }
}
