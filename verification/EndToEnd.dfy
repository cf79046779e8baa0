/** From the stores to the files, over whole runs and in terms of the objects' own fields: which services are balanced,
    and what their files say. */
module EndToEnd {
  import opened Text
  import opened Kube
  import opened Annotations
  import opened Topology
  import opened TopologyFacts
  import opened Stream
  import opened StreamFacts
  import opened Contents
  import opened Reconcile
  import opened Convergence

  // ----- which services are balanced -----

  /** The annotation of a service port has a number. */
  function CheckedNote(s: Service, p: ServicePort): Option<int> {
    PortNote(s, if p.name == "" then "unnamed" else p.name)
  }

  /** The pool the service is in is one this controller works for. */
  predicate InPool(c: Config, pool: string) {
    && (c.strictAffinity ==> pool == c.servicePool)
    && (!c.strictAffinity && c.antiAffinity ==> pool != c.servicePool)
    && (!c.strictAffinity && !c.antiAffinity ==> pool in ["", c.servicePool])
  }

  /** The service asks for this load balancer, can be balanced from outside, has its ports annotated, and is one the
      flags select. */
  predicate Qualifies(c: Config, s: Service) {
    && Note(s, "kubernetes.io/loadbalancer-class") == "loadbalancer-lbex"
    && s.serviceType in ["NodePort", "ClusterIP", "LoadBalancer"] && !EqualFold(s.clusterIP, "none")
    && c.requirePort
    && (exists i :: 0 <= i < |s.ports| && CheckedNote(s, s.ports[i]).Some?)
    && (forall i :: 0 <= i < |s.ports| && CheckedNote(s, s.ports[i]).Some? ==>
          1 <= CheckedNote(s, s.ports[i]).value <= 65535)
    && c.serviceName in ["", s.name] && InPool(c, Note(s, "loadbalancer.lbex/service-pool"))
  }

  lemma CheckedSpelled(s: Service, p: ServicePort)
    ensures var r, port := IntAnnotation(CheckedAnnotation(p), s), CheckedNote(s, p);
            (r.Found? <==> port.Some?) && (r.Found? ==> r.value == port.value)
  {
    assert Atoi("").None?;
  }

  lemma BaseSpelled(c: Config, s: Service)
    ensures BaseCheck(c, s) <==>
            && ValidService(s) && c.requirePort
            && (exists i :: 0 <= i < |s.ports| && CheckedNote(s, s.ports[i]).Some?)
            && (forall i :: 0 <= i < |s.ports| && CheckedNote(s, s.ports[i]).Some? ==>
                  1 <= CheckedNote(s, s.ports[i]).value <= 65535)
  {
    forall i | 0 <= i < |s.ports|
      ensures var r, port := IntAnnotation(CheckedAnnotation(s.ports[i]), s), CheckedNote(s, s.ports[i]);
              (r.Found? <==> port.Some?) && (r.Found? ==> r.value == port.value)
    {
      CheckedSpelled(s, s.ports[i]);
    }
  }

  lemma ValidSpelled(s: Service)
    ensures ValidService(s) <==>
            && Note(s, "kubernetes.io/loadbalancer-class") == "loadbalancer-lbex"
            && s.serviceType in ["NodePort", "ClusterIP", "LoadBalancer"] && !EqualFold(s.clusterIP, "none")
  {
  }

  lemma PoolSpelled(c: Config, s: Service)
    ensures AffinityAllows(c, OptionalString(POOL_KEY, s)) <==> InPool(c, Note(s, "loadbalancer.lbex/service-pool"))
  {
  }

  /** The controller manages exactly the services that qualify. */
  lemma ManagedIff(c: Config, s: Service)
    ensures Managed(c, s) <==> Qualifies(c, s)
  {
    BaseSpelled(c, s);
    ValidSpelled(s);
    PoolSpelled(c, s);
  }

  /** A controller for one pool only and a controller for everything but that pool: a service that either could manage
      is managed by exactly one of them. */
  lemma PoolsPartition(c: Config, s: Service)
    ensures var strict, anti := c.(strictAffinity := true), c.(strictAffinity := false, antiAffinity := true);
            && !(Managed(strict, s) && Managed(anti, s))
            && (BaseCheck(c, s) && c.serviceName in ["", s.name] ==> Managed(strict, s) || Managed(anti, s))
  {
  }

  // ----- what their files say -----

  lemma PortListedIff(store: map<string, Endpoints>, s: Service, p: int)
    requires 0 <= p < |s.ports|
    ensures ListsOf(store, s)[p] != [] <==> exists t :: IsSite(s.ports, SubsetsFor(store, s), t) && t.port == p
  {
    var ss := SubsetsFor(store, s);
    var ts := SubsetSites(s.ports, ss, p, |ss|);
    assert ss[..|ss|] == ss;
    if |ts| > 0 {
      assert ts[0] in ts;
    }
  }

  /** Something is listed exactly when some combination of the service and its Endpoints object exists. */
  lemma ListedIff(store: map<string, Endpoints>, s: Service)
    ensures NothingListed(ListsOf(store, s)) <==> Sites(s.ports, SubsetsFor(store, s)) == {}
  {
    var lists, sites := ListsOf(store, s), Sites(s.ports, SubsetsFor(store, s));
    if sites != {} {
      var t :| t in sites;
      PortListedIff(store, s, t.port);
      assert lists[t.port] != [];
    } else {
      forall p | 0 <= p < |lists| ensures lists[p] == [] {
        PortListedIff(store, s, p);
        assert forall t :: IsSite(s.ports, SubsetsFor(store, s), t) ==> t in sites;
      }
    }
  }

  /** The stored service qualifies and some combination of it and its stored endpoints exists. */
  predicate Balanced(c: Config, s: State, k: string) {
    && k in s.services && Qualifies(c, s.services[k])
    && Sites(s.services[k].ports, SubsetsFor(s.endpoints, s.services[k])) != {}
  }

  lemma BalancedIff(c: Config, s: State, k: string)
    ensures Balanced(c, s, k) <==> k in s.services && !EmptyTopology(c, s.services, s.endpoints, k)
  {
    if k in s.services {
      ManagedIff(c, s.services[k]);
      ListedIff(s.endpoints, s.services[k]);
    }
  }

  /** The file of the service says what the stored objects call for, with the registry of some point of the run; for
      pod and cluster addresses, with any registry. */
  ghost predicate SaysStored(c: Config, steps: seq<Step>, s: State, k: string)
    requires k in s.services
  {
    var svc, ss := s.services[k], SubsetsFor(s.endpoints, s.services[k]);
    && Stem(k) in s.files
    && (exists nodes :: RegistryOccurs(c, INIT, steps, nodes) && Says(nodes, svc, ss, s.files[Stem(k)]))
    && (!BalancesNodes(svc) ==> forall nodes :: Says(nodes, svc, ss, s.files[Stem(k)]))
  }

  lemma RegistryUnused(store: map<string, Endpoints>, nodes: map<string, Node>, key: string, s: Service, es: seq<Entry>,
                       cfg: StreamConfig, others: map<string, Node>)
    requires IsListing(s, ListsOf(store, s), es) && Generates(nodes, MakeSpec(key, s, es), cfg) && !BalancesNodes(s)
    ensures Says(others, s, SubsetsFor(store, s), cfg)
  {
    KindSpelled(s);
    RegistryIndependence(nodes, others, MakeSpec(key, s, es), cfg);
    GeneratedSays(store, others, key, s, es, cfg);
  }

  lemma MatchingSays(c: Config, steps: seq<Step>, k: string)
    requires CanRun(c, INIT, steps)
    requires var s := Run(c, INIT, steps); k in s.services && FileMatches(s, k)
    ensures SaysStored(c, steps, Run(c, INIT, steps), k)
  {
    var s := Run(c, INIT, steps);
    var o, svc, cfg := s.origins[Stem(k)], s.services[k], s.files[Stem(k)];
    OriginFromRun(c, INIT, steps, Stem(k));
    GeneratedSays(s.endpoints, o.nodes, k, svc, o.entries, cfg);
    if !BalancesNodes(svc) {
      forall nodes ensures Says(nodes, svc, SubsetsFor(s.endpoints, svc), cfg) {
        RegistryUnused(s.endpoints, o.nodes, k, svc, o.entries, cfg, nodes);
      }
    }
  }

  /** The law of the controller. In every run, when services and endpoints are settled, a service key outside
      `kube-system` that shares its file with no other key, and was not dropped by a failed lookup since its last sync,
      has no file if the service is gone; and if the service qualifies and has endpoints, a file that says what the
      stored objects call for. */
  lemma SettledFilesSay(c: Config, steps: seq<Step>, k: string)
    requires CanRun(c, INIT, steps)
    ensures var s := Run(c, INIT, steps);
            Settled(s) && Alone(s.seen, k) && !InNamespace(k, "kube-system") && k !in s.lost ==>
              && (k !in s.services ==> Stem(k) !in s.files)
              && (Balanced(c, s, k) ==> SaysStored(c, steps, s, k))
  {
    var s := Run(c, INIT, steps);
    Convergence.Convergence(c, steps, k);
    BalancedIff(c, s, k);
    if Balanced(c, s, k) && FileMatches(s, k) {
      MatchingSays(c, steps, k);
    }
  }
}
