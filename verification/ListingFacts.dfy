/** What the order of a listing can change. The source sorts rules with an unstable sort, so rules of one name come in
    any order; this module says what of the generated configuration depends on that order, and exactly when. */
module ListingFacts {
  import opened Text
  import opened Kube
  import opened Topology
  import opened TopologyFacts
  import opened Stream
  import opened StreamFacts

  // ----- arrangements of the same targets -----

  lemma TargetsRemove(x: seq<Endpoint>, k: nat)
    requires k < |x|
    ensures multiset(ToTargets(x)) == multiset(ToTargets(x[..k] + x[k + 1..])) + multiset{ToTarget(x[k])}
  {
    MultisetRemove(ToTargets(x), k);
    assert ToTargets(x)[..k] + ToTargets(x)[k + 1..] == ToTargets(x[..k] + x[k + 1..]);
  }

  lemma {:induction false} TargetsPermutation(x: seq<Endpoint>, y: seq<Endpoint>)
    requires multiset(x) == multiset(y)
    ensures multiset(ToTargets(x)) == multiset(ToTargets(y))
    decreases |x|
  {
    if |x| == 0 {
      EmptyBag(y);
    } else {
      var k := PickFirst(x, y);
      TargetsRemove(x, 0);
      TargetsRemove(y, k);
      assert x[..0] + x[1..] == x[1..];
      TargetsPermutation(x[1..], y[..k] + y[k + 1..]);
    }
  }

  /** Two listings of the same lists flatten to arrangements of the same targets. */
  lemma ListingsPermute(s: Service, lists: seq<seq<Endpoint>>, es1: seq<Entry>, es2: seq<Entry>)
    requires |lists| <= |s.ports| && IsListing(s, lists, es1) && IsListing(s, lists, es2)
    ensures multiset(ToTargets(FlatEndpoints(es1))) == multiset(ToTargets(FlatEndpoints(es2)))
  {
    FlatListing(s, lists, es1);
    FlatListing(s, lists, es2);
    TargetsPermutation(FlatEndpoints(es1), FlatEndpoints(es2));
  }

  // ----- servers do not depend on the order -----

  function Contribution(nodes: map<string, Node>, spec: ServiceSpec, t: Target, name: string, a: string): nat {
    if TargetName(spec, t) == name then TargetCount(nodes, spec, t, a) else 0
  }

  lemma {:induction false} GroupConcat(nodes: map<string, Node>, spec: ServiceSpec, x: seq<Target>, y: seq<Target>,
                                       name: string, a: string)
    ensures GroupCount(nodes, spec, x + y, name, a) ==
            GroupCount(nodes, spec, x, name, a) + GroupCount(nodes, spec, y, name, a)
    decreases |y|
  {
    if |y| == 0 {
      assert x + y == x;
    } else {
      var n := |y| - 1;
      assert (x + y)[..|x + y| - 1] == x + y[..n];
      GroupConcat(nodes, spec, x, y[..n], name, a);
    }
  }

  lemma GroupRemove(nodes: map<string, Node>, spec: ServiceSpec, x: seq<Target>, k: nat, name: string, a: string)
    requires k < |x|
    ensures GroupCount(nodes, spec, x, name, a) ==
            GroupCount(nodes, spec, x[..k] + x[k + 1..], name, a) + Contribution(nodes, spec, x[k], name, a)
  {
    assert x == x[..k + 1] + x[k + 1..];
    assert x[..k + 1][..k] == x[..k];
    GroupConcat(nodes, spec, x[..k + 1], x[k + 1..], name, a);
    GroupConcat(nodes, spec, x[..k], x[k + 1..], name, a);
  }

  /** The first target of one arrangement, taken out of both, takes the same count out of both. */
  lemma {:induction false} GroupPick(nodes: map<string, Node>, spec: ServiceSpec, x: seq<Target>, y: seq<Target>,
                                     name: string, a: string) returns (rest: seq<Target>)
    requires |x| > 0 && multiset(x) == multiset(y)
    ensures multiset(x[1..]) == multiset(rest)
    ensures GroupCount(nodes, spec, x, name, a) ==
            GroupCount(nodes, spec, x[1..], name, a) + Contribution(nodes, spec, x[0], name, a)
    ensures GroupCount(nodes, spec, y, name, a) ==
            GroupCount(nodes, spec, rest, name, a) + Contribution(nodes, spec, x[0], name, a)
  {
    var k := PickFirst(x, y);
    rest := y[..k] + y[k + 1..];
    GroupRemove(nodes, spec, y, k, name, a);
    GroupRemove(nodes, spec, x, 0, name, a);
    assert x[..0] + x[1..] == x[1..];
  }

  lemma {:induction false} GroupPermutation(nodes: map<string, Node>, spec: ServiceSpec, x: seq<Target>, y: seq<Target>,
                                            name: string, a: string)
    requires multiset(x) == multiset(y)
    ensures GroupCount(nodes, spec, x, name, a) == GroupCount(nodes, spec, y, name, a)
    decreases |x|
  {
    if |x| == 0 {
      EmptyBag(y);
    } else {
      var rest := GroupPick(nodes, spec, x, y, name, a);
      GroupPermutation(nodes, spec, x[1..], rest, name, a);
    }
  }

  lemma NamePermutation(spec: ServiceSpec, x: seq<Target>, y: seq<Target>, name: string)
    requires multiset(x) == multiset(y) && NameIn(spec, x, name)
    ensures NameIn(spec, y, name)
  {
    var i :| 0 <= i < |x| && TargetName(spec, x[i]) == name;
    assert x[i] in multiset(y);
    var j :| 0 <= j < |y| && y[j] == x[i];
  }

  /** The counts look at the specification's targets only through their argument. */
  lemma {:induction false} GroupIgnoresTopology(nodes: map<string, Node>, spec: ServiceSpec, other: seq<Target>,
                                                ts: seq<Target>, name: string, a: string)
    ensures GroupCount(nodes, spec.(topology := other), ts, name, a) == GroupCount(nodes, spec, ts, name, a)
    decreases |ts|
  {
    if |ts| > 0 {
      GroupIgnoresTopology(nodes, spec, other, ts[..|ts| - 1], name, a);
    }
  }

  lemma {:induction false} ServersIgnoreTopology(spec: ServiceSpec, other: seq<Target>, ts: seq<Target>)
    ensures ServersOf(spec.(topology := other), ts) == ServersOf(spec, ts)
    decreases |ts|
  {
    if |ts| > 0 {
      var n := |ts| - 1;
      ServersIgnoreTopology(spec, other, ts[..n]);
      assert NameIn(spec.(topology := other), ts[..n], TargetName(spec, ts[n])) <==>
             NameIn(spec, ts[..n], TargetName(spec, ts[n]));
    }
  }

  /** The same upstreams with the same settings and the same servers up to order. */
  ghost predicate SameUpstreams(x: StreamConfig, y: StreamConfig) {
    && x.resolver == y.resolver
    && (forall name :: UpstreamNamed(x.upstreams, name) <==> UpstreamNamed(y.upstreams, name))
    && (forall i, j ::
          0 <= i < |x.upstreams| && 0 <= j < |y.upstreams| && x.upstreams[i].name == y.upstreams[j].name ==>
          SameBalance(x.upstreams[i], y.upstreams[j]))
  }

  predicate SameBalance(u: StreamUpstream, v: StreamUpstream) {
    && u.algorithm == v.algorithm && u.leastTimeMethod == v.leastTimeMethod
    && multiset(Addresses(u.servers)) == multiset(Addresses(v.servers))
  }

  lemma ArrangedBalance(nodes: map<string, Node>, spec: ServiceSpec, ts: seq<Target>, u: StreamUpstream,
                        v: StreamUpstream)
    requires multiset(ts) == multiset(spec.topology) && u.name == v.name
    requires UpstreamFor(nodes, spec, spec.topology, u) && UpstreamFor(nodes, spec.(topology := ts), ts, v)
    ensures SameBalance(u, v)
  {
    forall a ensures multiset(Addresses(u.servers))[a] == multiset(Addresses(v.servers))[a] {
      GroupIgnoresTopology(nodes, spec, ts, ts, u.name, a);
      GroupPermutation(nodes, spec, spec.topology, ts, u.name, a);
    }
  }

  lemma ArrangedUpstreams(nodes: map<string, Node>, spec: ServiceSpec, ts: seq<Target>, x: StreamConfig,
                          y: StreamConfig)
    requires multiset(ts) == multiset(spec.topology)
    requires Generates(nodes, spec, x) && Generates(nodes, spec.(topology := ts), y)
    ensures SameUpstreams(x, y)
  {
    var spec2 := spec.(topology := ts);
    forall name ensures UpstreamNamed(x.upstreams, name) <==> UpstreamNamed(y.upstreams, name) {
      assert NameIn(spec2, ts, name) <==> NameIn(spec, ts, name);
      if NameIn(spec, ts, name) {
        NamePermutation(spec, ts, spec.topology, name);
      }
      if NameIn(spec, spec.topology, name) {
        NamePermutation(spec, spec.topology, ts, name);
      }
    }
    forall i, j | 0 <= i < |x.upstreams| && 0 <= j < |y.upstreams| && x.upstreams[i].name == y.upstreams[j].name
      ensures SameBalance(x.upstreams[i], y.upstreams[j])
    {
      ArrangedBalance(nodes, spec, ts, x.upstreams[i], y.upstreams[j]);
    }
  }

  // ----- listeners: the first target of an upstream decides -----

  /** The listener a target would give its upstream if it came first. */
  function Listener(spec: ServiceSpec, t: Target): Option<StreamServer> {
    match ListenPort(spec, t)
    case Found(port) => Some(ServerFor(spec, t, port))
    case _ => None
  }

  lemma {:induction false} FirstUnique(spec: ServiceSpec, ts: seq<Target>, i: int, j: int)
    requires IsFirst(spec, ts, i) && IsFirst(spec, ts, j) && TargetName(spec, ts[i]) == TargetName(spec, ts[j])
    ensures i == j
  {
  }

  lemma ListenerPasses(spec: ServiceSpec, ts: seq<Target>, v: StreamServer) returns (k: int)
    requires v in ServersOf(spec, ts)
    ensures IsFirst(spec, ts, k) && Listener(spec, ts[k]) == Some(v) && TargetName(spec, ts[k]) == v.proxyPassAddress
  {
    var i :| 0 <= i < |ServersOf(spec, ts)| && ServersOf(spec, ts)[i] == v;
    k := ServersSound(spec, ts, i);
  }

  lemma ListenerListed(spec: ServiceSpec, ts: seq<Target>, k: int)
    requires IsFirst(spec, ts, k) && Listener(spec, ts[k]).Some?
    ensures Listener(spec, ts[k]).value in ServersOf(spec, ts)
  {
    ServersComplete(spec, ts, k);
  }

  lemma {:induction false} OnceEach<T>(x: seq<T>, v: T)
    requires forall i, j :: 0 <= i < j < |x| ==> x[i] != x[j]
    ensures multiset(x)[v] == if v in x then 1 else 0
  {
    if |x| > 0 {
      var n := |x| - 1;
      OnceEach(x[..n], v);
      assert x == x[..n] + [x[n]];
      assert x[n] !in x[..n];
    }
  }

  lemma ServersOnce(spec: ServiceSpec, ts: seq<Target>, v: StreamServer)
    ensures multiset(ServersOf(spec, ts))[v] == if v in ServersOf(spec, ts) then 1 else 0
  {
    ServersDistinct(spec, ts);
    OnceEach(ServersOf(spec, ts), v);
  }

  /** The first targets of each upstream in two arrangements give it the same listener. */
  ghost predicate FirstsAgree(spec: ServiceSpec, x: seq<Target>, y: seq<Target>) {
    forall i, j :: IsFirst(spec, x, i) && IsFirst(spec, y, j) && TargetName(spec, x[i]) == TargetName(spec, y[j]) ==>
      Listener(spec, x[i]) == Listener(spec, y[j])
  }

  lemma AgreeingListed(spec: ServiceSpec, x: seq<Target>, y: seq<Target>, v: StreamServer)
    requires multiset(x) == multiset(y) && FirstsAgree(spec, x, y) && v in ServersOf(spec, x)
    ensures v in ServersOf(spec, y)
  {
    var i := ListenerPasses(spec, x, v);
    NamePermutation(spec, x, y, TargetName(spec, x[i]));
    var j := FirstOf(spec, y, TargetName(spec, x[i]));
    ListenerListed(spec, y, j);
  }

  lemma FirstsSymmetric(spec: ServiceSpec, x: seq<Target>, y: seq<Target>)
    requires FirstsAgree(spec, x, y)
    ensures FirstsAgree(spec, y, x)
  {
  }

  lemma ListedAgree(spec: ServiceSpec, x: seq<Target>, y: seq<Target>, i: int, j: int)
    requires IsFirst(spec, x, i) && IsFirst(spec, y, j) && TargetName(spec, x[i]) == TargetName(spec, y[j])
    requires multiset(ServersOf(spec, x)) == multiset(ServersOf(spec, y)) && Listener(spec, x[i]).Some?
    ensures Listener(spec, x[i]) == Listener(spec, y[j])
  {
    var v := Listener(spec, x[i]).value;
    ListenerListed(spec, x, i);
    assert v in multiset(ServersOf(spec, y));
    var k := ListenerPasses(spec, y, v);
    FirstUnique(spec, y, j, k);
  }

  /** Two arrangements of the same targets give the same listeners exactly when the first targets of each upstream
      agree on them. */
  lemma ListenersAgreeIff(spec: ServiceSpec, x: seq<Target>, y: seq<Target>)
    requires multiset(x) == multiset(y)
    ensures multiset(ServersOf(spec, x)) == multiset(ServersOf(spec, y)) <==> FirstsAgree(spec, x, y)
  {
    if FirstsAgree(spec, x, y) {
      FirstsSymmetric(spec, x, y);
      forall v ensures multiset(ServersOf(spec, x))[v] == multiset(ServersOf(spec, y))[v] {
        ServersOnce(spec, x, v);
        ServersOnce(spec, y, v);
        if v in ServersOf(spec, x) {
          AgreeingListed(spec, x, y, v);
        }
        if v in ServersOf(spec, y) {
          AgreeingListed(spec, y, x, v);
        }
      }
    }
    if multiset(ServersOf(spec, x)) == multiset(ServersOf(spec, y)) {
      forall i, j | IsFirst(spec, x, i) && IsFirst(spec, y, j) && TargetName(spec, x[i]) == TargetName(spec, y[j])
        ensures Listener(spec, x[i]) == Listener(spec, y[j])
      {
        if Listener(spec, x[i]).Some? {
          ListedAgree(spec, x, y, i, j);
        } else if Listener(spec, y[j]).Some? {
          ListedAgree(spec, y, x, j, i);
        }
      }
    }
  }

  // ----- when two targets give the same listener -----

  /** The same readable port and, if there is one, the same protocol as far as the listener cares. */
  predicate SamePortAndProtocol(spec: ServiceSpec, t: Target, u: Target) {
    && (ListenPort(spec, t).Found? <==> ListenPort(spec, u).Found?)
    && (ListenPort(spec, t).Found? ==>
          && ListenPort(spec, t).value == ListenPort(spec, u).value
          && (EqualFold(t.protocol, "udp") <==> EqualFold(u.protocol, "udp")))
  }

  lemma ListenerEqualIff(spec: ServiceSpec, t: Target, u: Target)
    requires TargetName(spec, t) == TargetName(spec, u)
    ensures Listener(spec, t) == Listener(spec, u) <==> SamePortAndProtocol(spec, t, u)
  {
    if ListenPort(spec, t).Found? && ListenPort(spec, u).Found? && Listener(spec, t) == Listener(spec, u) {
      ItoaInjective(ListenPort(spec, t).value, ListenPort(spec, u).value);
    }
  }
}
