/** Files and the registry they were made from: when is a configuration still the one that would be generated now? */
module RegistryFacts {
  import opened Kube
  import opened Stream
  import opened Configurator

  /** Still registered, with the addresses it had. */
  predicate StillRegistered(nodes: map<string, Node>, n: Node) {
    n.name in nodes && nodes[n.name].internalIP == n.internalIP && nodes[n.name].externalIP == n.externalIP
  }

  predicate AllRegistered(nodes: map<string, Node>, used: set<Node>) {
    forall n :: n in used ==> StillRegistered(nodes, n)
  }

  /** The service would balance over this node if it were registered. */
  predicate Wanted(spec: ServiceSpec, k: string) {
    if NodeSet(spec.service).All? then |spec.topology| > 0
    else exists i :: 0 <= i < |spec.topology| && spec.topology[i].nodeName == k
  }

  /** Registered now, not registered when the file was made, and wanted. */
  predicate Joined(then_: map<string, Node>, now: map<string, Node>, spec: ServiceSpec, k: string) {
    k in now && k !in then_ && Wanted(spec, k)
  }

  // ----- one target -----

  lemma SameFormat(addressType: AddressType, n: Node, m: Node, t: Target)
    requires n.internalIP == m.internalIP && n.externalIP == m.externalIP
    ensures FormatAddress(addressType, n, t) == FormatAddress(addressType, m, t)
  {
  }

  /** Nodes that stay keep contributing. */
  lemma NodesAtGrow(then_: map<string, Node>, now: map<string, Node>, addressType: AddressType, t: Target, a: string)
    requires forall k :: k in then_ ==> then_[k].name == k && StillRegistered(now, then_[k])
    ensures NodesAt(then_, addressType, t, a) <= NodesAt(now, addressType, t, a)
  {
    forall k | k in NodesAt(then_, addressType, t, a) ensures k in NodesAt(now, addressType, t, a) {
      SameFormat(addressType, then_[k], now[k], t);
    }
  }

  lemma SubsetSize<T>(x: set<T>, y: set<T>)
    requires x <= y
    ensures |x| <= |y| && (x != y ==> |x| < |y|)
  {
    assert y == x + (y - x);
  }

  lemma AllUsed(nodes: map<string, Node>, spec: ServiceSpec, k: string)
    requires spec.upstreamType.HostNode? && NodeSet(spec.service).All? && |spec.topology| > 0 && k in nodes
    ensures nodes[k] in UsedNodes(nodes, spec)
  {
  }

  lemma HostUsed(nodes: map<string, Node>, spec: ServiceSpec, i: int)
    requires spec.upstreamType.HostNode? && NodeSet(spec.service).Host?
    requires 0 <= i < |spec.topology| && spec.topology[i].nodeName in nodes
    ensures nodes[spec.topology[i].nodeName] in UsedNodes(nodes, spec)
  {
  }

  /** What the lemmas below are about: a node service all of whose nodes are still there. */
  predicate Survived(then_: map<string, Node>, now: map<string, Node>, spec: ServiceSpec) {
    spec.upstreamType.HostNode? && Registry(then_) && Registry(now) && AllRegistered(now, UsedNodes(then_, spec))
  }

  lemma AllSurvive(then_: map<string, Node>, now: map<string, Node>, spec: ServiceSpec)
    requires Survived(then_, now, spec) && NodeSet(spec.service).All? && |spec.topology| > 0
    ensures forall k :: k in then_ ==> then_[k].name == k && StillRegistered(now, then_[k])
  {
    forall k | k in then_ ensures StillRegistered(now, then_[k]) {
      AllUsed(then_, spec, k);
    }
  }

  lemma TargetGrows(then_: map<string, Node>, now: map<string, Node>, spec: ServiceSpec, i: int, a: string)
    requires Survived(then_, now, spec) && 0 <= i < |spec.topology|
    ensures TargetCount(then_, spec, spec.topology[i], a) <= TargetCount(now, spec, spec.topology[i], a)
  {
    var t, addressType := spec.topology[i], NodeAddressType(spec.service);
    if NodeSet(spec.service).All? {
      AllSurvive(then_, now, spec);
      NodesAtGrow(then_, now, addressType, t, a);
      SubsetSize(NodesAt(then_, addressType, t, a), NodesAt(now, addressType, t, a));
    } else if t.nodeName in then_ {
      HostUsed(then_, spec, i);
      SameFormat(addressType, then_[t.nodeName], now[t.nodeName], t);
    }
  }

  /** Without a newcomer nothing changes. */
  lemma TargetSame(then_: map<string, Node>, now: map<string, Node>, spec: ServiceSpec, i: int, a: string)
    requires Survived(then_, now, spec) && 0 <= i < |spec.topology| && forall k :: !Joined(then_, now, spec, k)
    ensures TargetCount(then_, spec, spec.topology[i], a) == TargetCount(now, spec, spec.topology[i], a)
  {
    var t, addressType := spec.topology[i], NodeAddressType(spec.service);
    TargetGrows(then_, now, spec, i, a);
    if NodeSet(spec.service).All? {
      AllSurvive(then_, now, spec);
      forall k | k in NodesAt(now, addressType, t, a) ensures k in NodesAt(then_, addressType, t, a) {
        assert !Joined(then_, now, spec, k);
        SameFormat(addressType, then_[k], now[k], t);
      }
      SubsetSize(NodesAt(now, addressType, t, a), NodesAt(then_, addressType, t, a));
    } else if t.nodeName in now {
      assert Wanted(spec, t.nodeName) && !Joined(then_, now, spec, t.nodeName);
      HostUsed(then_, spec, i);
      SameFormat(addressType, then_[t.nodeName], now[t.nodeName], t);
    }
  }

  /** A newcomer adds a server to some target. */
  lemma TargetMore(then_: map<string, Node>, now: map<string, Node>, spec: ServiceSpec, k: string)
    returns (i: int, a: string)
    requires Survived(then_, now, spec) && Joined(then_, now, spec, k)
    ensures 0 <= i < |spec.topology|
    ensures TargetCount(then_, spec, spec.topology[i], a) < TargetCount(now, spec, spec.topology[i], a)
  {
    var addressType := NodeAddressType(spec.service);
    if NodeSet(spec.service).All? {
      i := 0;
      a := FormatAddress(addressType, now[k], spec.topology[i]);
      AllSurvive(then_, now, spec);
      NodesAtGrow(then_, now, addressType, spec.topology[i], a);
      assert k in NodesAt(now, addressType, spec.topology[i], a)
             && k !in NodesAt(then_, addressType, spec.topology[i], a);
      SubsetSize(NodesAt(then_, addressType, spec.topology[i], a), NodesAt(now, addressType, spec.topology[i], a));
    } else {
      i :| 0 <= i < |spec.topology| && spec.topology[i].nodeName == k;
      a := FormatAddress(addressType, now[k], spec.topology[i]);
    }
  }

  // ----- one upstream -----

  lemma {:induction false} GroupGrows(m: map<string, Node>, n: map<string, Node>, spec: ServiceSpec, ts: seq<Target>,
                                      name: string, a: string)
    requires forall i :: 0 <= i < |ts| ==> TargetCount(m, spec, ts[i], a) <= TargetCount(n, spec, ts[i], a)
    ensures GroupCount(m, spec, ts, name, a) <= GroupCount(n, spec, ts, name, a)
  {
    if |ts| > 0 {
      var front := ts[..|ts| - 1];
      forall i | 0 <= i < |front| ensures TargetCount(m, spec, front[i], a) <= TargetCount(n, spec, front[i], a) {
        assert front[i] == ts[i];
      }
      GroupGrows(m, n, spec, front, name, a);
    }
  }

  lemma {:induction false} GroupMore(m: map<string, Node>, n: map<string, Node>, spec: ServiceSpec, ts: seq<Target>,
                                     k: int, a: string)
    requires forall i :: 0 <= i < |ts| ==> TargetCount(m, spec, ts[i], a) <= TargetCount(n, spec, ts[i], a)
    requires 0 <= k < |ts| && TargetCount(m, spec, ts[k], a) < TargetCount(n, spec, ts[k], a)
    ensures GroupCount(m, spec, ts, TargetName(spec, ts[k]), a) < GroupCount(n, spec, ts, TargetName(spec, ts[k]), a)
  {
    var front := ts[..|ts| - 1];
    forall i | 0 <= i < |front| ensures TargetCount(m, spec, front[i], a) <= TargetCount(n, spec, front[i], a) {
      assert front[i] == ts[i];
    }
    if k == |ts| - 1 {
      GroupGrows(m, n, spec, front, TargetName(spec, ts[k]), a);
    } else {
      assert front[k] == ts[k];
      GroupMore(m, n, spec, front, k, a);
    }
  }

  lemma {:induction false} GroupSame(m: map<string, Node>, n: map<string, Node>, spec: ServiceSpec, ts: seq<Target>,
                                     name: string, a: string)
    requires forall i :: 0 <= i < |ts| ==> TargetCount(m, spec, ts[i], a) == TargetCount(n, spec, ts[i], a)
    ensures GroupCount(m, spec, ts, name, a) == GroupCount(n, spec, ts, name, a)
  {
    if |ts| > 0 {
      var front := ts[..|ts| - 1];
      forall i | 0 <= i < |front| ensures TargetCount(m, spec, front[i], a) == TargetCount(n, spec, front[i], a) {
        assert front[i] == ts[i];
      }
      GroupSame(m, n, spec, front, name, a);
    }
  }

  // ----- the whole configuration -----

  lemma NoNewcomer(then_: map<string, Node>, now: map<string, Node>, spec: ServiceSpec, cfg: StreamConfig)
    requires Survived(then_, now, spec) && Generates(then_, spec, cfg) && forall k :: !Joined(then_, now, spec, k)
    ensures Generates(now, spec, cfg)
  {
    forall u | 0 <= u < |cfg.upstreams| ensures UpstreamFor(now, spec, spec.topology, cfg.upstreams[u]) {
      var up := cfg.upstreams[u];
      assert UpstreamFor(then_, spec, spec.topology, up);
      forall a
        ensures GroupCount(then_, spec, spec.topology, up.name, a) == GroupCount(now, spec, spec.topology, up.name, a)
      {
        forall i | 0 <= i < |spec.topology|
          ensures TargetCount(then_, spec, spec.topology[i], a) == TargetCount(now, spec, spec.topology[i], a)
        {
          TargetSame(then_, now, spec, i, a);
        }
        GroupSame(then_, now, spec, spec.topology, up.name, a);
      }
    }
  }

  lemma NewcomerMissing(then_: map<string, Node>, now: map<string, Node>, spec: ServiceSpec, cfg: StreamConfig,
                        k: string)
    requires Survived(then_, now, spec) && Generates(then_, spec, cfg) && Joined(then_, now, spec, k)
    ensures !Generates(now, spec, cfg)
  {
    var i, a := TargetMore(then_, now, spec, k);
    forall j | 0 <= j < |spec.topology|
      ensures TargetCount(then_, spec, spec.topology[j], a) <= TargetCount(now, spec, spec.topology[j], a)
    {
      TargetGrows(then_, now, spec, j, a);
    }
    GroupMore(then_, now, spec, spec.topology, i, a);
    var name := TargetName(spec, spec.topology[i]);
    assert UpstreamNamed(cfg.upstreams, name);
    var u :| 0 <= u < |cfg.upstreams| && cfg.upstreams[u].name == name;
    assert UpstreamFor(then_, spec, spec.topology, cfg.upstreams[u]);
    assert !UpstreamFor(now, spec, spec.topology, cfg.upstreams[u]);
  }

  /** A node file whose nodes are all still registered is the one that would be generated now exactly when no node has
      been registered since that the service would balance over. */
  lemma StillGeneratedIff(then_: map<string, Node>, now: map<string, Node>, spec: ServiceSpec, cfg: StreamConfig)
    requires Survived(then_, now, spec) && Generates(then_, spec, cfg)
    ensures Generates(now, spec, cfg) <==> forall k :: !Joined(then_, now, spec, k)
  {
    if k :| Joined(then_, now, spec, k) {
      NewcomerMissing(then_, now, spec, cfg, k);
    } else {
      NoNewcomer(then_, now, spec, cfg);
    }
  }

  // ----- when an update of the registry is reported -----

  /** The same names with the same addresses. */
  predicate SameAddresses(m: map<string, Node>, n: map<string, Node>) {
    && m.Keys == n.Keys
    && forall k :: k in m ==> m[k].internalIP == n[k].internalIP && m[k].externalIP == n[k].externalIP
  }

  /** For a service indexed with the whole registry: an update is reported, or changes nothing that matters, exactly
      when it is about a node that is already registered. A node that joins is never reported. */
  lemma UpdateReportedIff(nodes: map<string, Node>, index: map<string, seq<Node>>, n: Node, key: string)
    requires Registry(nodes) && key in index && ListsRegistry(nodes, index[key])
    ensures key in AffectedBag(nodes, index, n) || SameAddresses(nodes, NodesAfter(nodes, n)) <==> n.name in nodes
  {
    if n.name in nodes {
      var old_ := nodes[n.name];
      assert old_ in index[key];
      var i :| 0 <= i < |index[key]| && index[key][i] == old_;
      assert HasName(index[key], n.name) && HasAddress(index[key], old_.internalIP)
             && HasAddress(index[key], old_.externalIP);
    } else {
      assert n.name in NodesAfter(nodes, n).Keys;
    }
  }
}
