/** What the topology listing keeps: every matching combination of service port, subset, endpoint
    port and address exactly once, one rule per port, distinct names for distinct ports. */
module TopologyFacts {
  import opened Text
  import opened Kube
  import opened Topology

  /** Positions of a service port, a subset, an endpoint port in it and an address in it. */
  datatype Site = Site(port: int, subset: int, epPort: int, address: int)

  predicate InBounds(ps: seq<ServicePort>, ss: seq<EndpointSubset>, t: Site) {
    && 0 <= t.port < |ps| && 0 <= t.subset < |ss|
    && 0 <= t.epPort < |ss[t.subset].ports| && 0 <= t.address < |ss[t.subset].addresses|
  }

  /** A numeric target port selects the endpoint port of that number, a named one the endpoint port of that name. */
  predicate Selects(sp: ServicePort, ep: EndpointPort) {
    && ep.port != 0
    && match sp.targetPort
       case IntPort(number) => ep.port == number
       case NamedPort(name) => ep.name == name
  }

  predicate IsSite(ps: seq<ServicePort>, ss: seq<EndpointSubset>, t: Site) {
    InBounds(ps, ss, t) && Selects(ps[t.port], ss[t.subset].ports[t.epPort])
  }

  /** The endpoint of a combination, from the fields of its parts. */
  function EndpointAt(ps: seq<ServicePort>, ss: seq<EndpointSubset>, t: Site): Endpoint
    requires InBounds(ps, ss, t)
  {
    var sp, ep, addr := ps[t.port], ss[t.subset].ports[t.epPort], ss[t.subset].addresses[t.address];
    Endpoint(sp.port, "", addr.nodeName, sp.nodePort, ep.name, addr.ip, ep.port, ep.protocol)
  }

  lemma SelectsIff(sp: ServicePort, ep: EndpointPort)
    ensures TargetPortFor(sp, ep) == if Selects(sp, ep) then ep.port else 0
  {
  }

  /** All combinations, as a set. */
  function Sites(ps: seq<ServicePort>, ss: seq<EndpointSubset>): (r: set<Site>)
    ensures forall t :: t in r <==> IsSite(ps, ss, t)
  {
    var r := set p, s, q, a | 0 <= p < |ps| && 0 <= s < |ss| && 0 <= q < |ss[s].ports| && 0 <= a < |ss[s].addresses|
                              && IsSite(ps, ss, Site(p, s, q, a)) :: Site(p, s, q, a);
    assert forall t :: IsSite(ps, ss, t) ==> t == Site(t.port, t.subset, t.epPort, t.address);
    r
  }

  // ----- the nested loops enumerate the combinations -----

  predicate Distinct<T(==)>(xs: seq<T>) { forall i, j :: 0 <= i < j < |xs| ==> xs[i] != xs[j] }

  /** `ts` names, without repetition, the combination behind each endpoint. */
  predicate Enumerates(ps: seq<ServicePort>, ss: seq<EndpointSubset>, ts: seq<Site>, eps: seq<Endpoint>) {
    && |ts| == |eps| && Distinct(ts)
    && forall i :: 0 <= i < |ts| ==> IsSite(ps, ss, ts[i]) && eps[i] == EndpointAt(ps, ss, ts[i])
  }

  lemma EnumeratesConcat(ps: seq<ServicePort>, ss: seq<EndpointSubset>, a: seq<Site>, x: seq<Endpoint>, b: seq<Site>,
                         y: seq<Endpoint>)
    requires Enumerates(ps, ss, a, x) && Enumerates(ps, ss, b, y)
    requires forall t :: t in a ==> t !in b
    ensures Enumerates(ps, ss, a + b, x + y)
  {
    forall i, j | 0 <= i < j < |a + b| ensures (a + b)[i] != (a + b)[j] {
      if i < |a| <= j {
        assert (a + b)[i] in a && (a + b)[j] in b;
      }
    }
  }

  lemma AddressSites(ps: seq<ServicePort>, ss: seq<EndpointSubset>, p: int, s: int, q: int) returns (ts: seq<Site>)
    requires 0 <= p < |ps| && 0 <= s < |ss| && 0 <= q < |ss[s].ports|
    ensures Enumerates(ps, ss, ts, AddressEndpoints(ps[p], ss[s].ports[q], ss[s].addresses))
    ensures forall t :: t in ts <==> IsSite(ps, ss, t) && t.port == p && t.subset == s && t.epPort == q
  {
    SelectsIff(ps[p], ss[s].ports[q]);
    if TargetPortFor(ps[p], ss[s].ports[q]) == 0 {
      ts := [];
    } else {
      ts := seq(|ss[s].addresses|, a => Site(p, s, q, a));
      forall t | IsSite(ps, ss, t) && t.port == p && t.subset == s && t.epPort == q ensures t in ts {
        assert ts[t.address] == t;
      }
    }
  }

  lemma {:induction false} PortSites(ps: seq<ServicePort>, ss: seq<EndpointSubset>, p: int, s: int, n: nat)
    returns (ts: seq<Site>)
    requires 0 <= p < |ps| && 0 <= s < |ss| && n <= |ss[s].ports|
    ensures Enumerates(ps, ss, ts, PortEndpoints(ps[p], ss[s].ports[..n], ss[s].addresses))
    ensures forall t :: t in ts <==> IsSite(ps, ss, t) && t.port == p && t.subset == s && t.epPort < n
    decreases n
  {
    if n == 0 {
      ts := [];
    } else {
      var before := PortSites(ps, ss, p, s, n - 1);
      var last := AddressSites(ps, ss, p, s, n - 1);
      var ports := ss[s].ports[..n];
      assert ports[..n - 1] == ss[s].ports[..n - 1];
      EnumeratesConcat(ps, ss, before, PortEndpoints(ps[p], ports[..n - 1], ss[s].addresses),
                       last, AddressEndpoints(ps[p], ports[n - 1], ss[s].addresses));
      ts := before + last;
    }
  }

  lemma {:induction false} SubsetSites(ps: seq<ServicePort>, ss: seq<EndpointSubset>, p: int, n: nat)
    returns (ts: seq<Site>)
    requires 0 <= p < |ps| && n <= |ss|
    ensures Enumerates(ps, ss, ts, SubsetEndpoints(ps[p], ss[..n]))
    ensures forall t :: t in ts <==> IsSite(ps, ss, t) && t.port == p && t.subset < n
    decreases n
  {
    if n == 0 {
      ts := [];
    } else {
      var before := SubsetSites(ps, ss, p, n - 1);
      var ports := ss[n - 1].ports;
      var last := PortSites(ps, ss, p, n - 1, |ports|);
      assert ports[..|ports|] == ports;
      assert ss[..n][..n - 1] == ss[..n - 1];
      EnumeratesConcat(ps, ss, before, SubsetEndpoints(ps[p], ss[..n - 1]),
                       last, PortEndpoints(ps[p], ports, ss[n - 1].addresses));
      ts := before + last;
    }
  }

  /** The lists of all ports, one after the other. */
  function FlatLists(lists: seq<seq<Endpoint>>): seq<Endpoint> {
    if |lists| == 0 then [] else FlatLists(lists[..|lists| - 1]) + lists[|lists| - 1]
  }

  lemma {:induction false} ServiceSites(store: map<string, Endpoints>, s: Service, n: nat) returns (ts: seq<Site>)
    requires n <= |s.ports|
    ensures Enumerates(s.ports, SubsetsFor(store, s), ts, FlatLists(ListsOf(store, s)[..n]))
    ensures forall t :: t in ts <==> IsSite(s.ports, SubsetsFor(store, s), t) && t.port < n
    decreases n
  {
    var ps, ss, lists := s.ports, SubsetsFor(store, s), ListsOf(store, s);
    if n == 0 {
      ts := [];
    } else {
      var before := ServiceSites(store, s, n - 1);
      var last := SubsetSites(ps, ss, n - 1, |ss|);
      assert ss[..|ss|] == ss;
      assert lists[..n][..n - 1] == lists[..n - 1];
      EnumeratesConcat(ps, ss, before, FlatLists(lists[..n - 1]), last, lists[n - 1]);
      ts := before + last;
    }
  }

  // ----- rules: filtering, sorting, flattening -----

  lemma {:induction false} FlatConcat(a: seq<Entry>, b: seq<Entry>)
    ensures FlatEndpoints(a + b) == FlatEndpoints(a) + FlatEndpoints(b)
    decreases |b|
  {
    if |b| == 0 {
      assert a + b == a;
    } else {
      var n := |b| - 1;
      assert (a + b)[..|a + b| - 1] == a + b[..n];
      FlatConcat(a, b[..n]);
    }
  }

  lemma {:induction false} FlatEntries(s: Service, lists: seq<seq<Endpoint>>)
    requires |lists| <= |s.ports|
    ensures FlatEndpoints(EntriesOf(s, lists)) == FlatLists(lists)
    decreases |lists|
  {
    if |lists| > 0 {
      var n := |lists| - 1;
      FlatEntries(s, lists[..n]);
      var last := if |lists[n]| == 0 then [] else [MakeEntry(s, s.ports[n], lists[n])];
      FlatConcat(EntriesOf(s, lists[..n]), last);
      if |lists[n]| > 0 {
        assert last[..0] == [];
        assert FlatEndpoints(last) == FlatEndpoints(last[..0]) + lists[n] == lists[n];
      }
    }
  }

  lemma {:induction false} FlatSingle(e: Entry)
    ensures FlatEndpoints([e]) == e.endpoints
  {
    assert [e][..0] == [];
  }

  lemma MiddleOut<T>(x: seq<T>, y: seq<T>, z: seq<T>)
    ensures multiset(x + (y + z)) == multiset(x + z) + multiset(y)
  {
  }

  /** Taking one rule out takes exactly its endpoints out. */
  lemma {:induction false} FlatRemove(b: seq<Entry>, k: nat)
    requires k < |b|
    ensures multiset(FlatEndpoints(b)) == multiset(FlatEndpoints(b[..k] + b[k + 1..])) + multiset(b[k].endpoints)
  {
    assert b == b[..k] + ([b[k]] + b[k + 1..]);
    FlatConcat(b[..k], [b[k]] + b[k + 1..]);
    FlatConcat([b[k]], b[k + 1..]);
    FlatConcat(b[..k], b[k + 1..]);
    FlatSingle(b[k]);
    MiddleOut(FlatEndpoints(b[..k]), b[k].endpoints, FlatEndpoints(b[k + 1..]));
  }

  lemma MultisetRemove<T>(b: seq<T>, k: nat)
    requires k < |b|
    ensures multiset(b) == multiset(b[..k] + b[k + 1..]) + multiset{b[k]}
  {
    assert b == b[..k] + ([b[k]] + b[k + 1..]);
  }

  /** The first element of one arrangement, found and taken out in the other. */
  lemma PickFirst<T>(a: seq<T>, b: seq<T>) returns (k: nat)
    requires |a| > 0 && multiset(a) == multiset(b)
    ensures k < |b| && b[k] == a[0] && multiset(a[1..]) == multiset(b[..k] + b[k + 1..])
  {
    k := FindIn(a, b);
    MultisetRemove(b, k);
    MultisetTail(a);
    SameAfterRemoving(multiset(a[1..]), multiset(b[..k] + b[k + 1..]), a[0]);
  }

  lemma SameAfterRemoving<T>(x: multiset<T>, y: multiset<T>, e: T)
    requires x + multiset{e} == y + multiset{e}
    ensures x == y
  {
    assert x == x + multiset{e} - multiset{e} && y == y + multiset{e} - multiset{e};
  }

  lemma FindIn<T>(a: seq<T>, b: seq<T>) returns (k: nat)
    requires |a| > 0 && multiset(a) == multiset(b)
    ensures k < |b| && b[k] == a[0]
  {
    assert a[0] in multiset(b);
    k :| 0 <= k < |b| && b[k] == a[0];
  }

  lemma MultisetTail<T>(a: seq<T>)
    requires |a| > 0
    ensures multiset(a) == multiset(a[1..]) + multiset{a[0]}
  {
    assert a == [a[0]] + a[1..];
  }

  lemma {:induction false} FlatPick(a: seq<Entry>, b: seq<Entry>) returns (rest: seq<Entry>)
    requires |a| > 0 && multiset(a) == multiset(b)
    ensures multiset(a[1..]) == multiset(rest)
    ensures multiset(FlatEndpoints(a)) == multiset(FlatEndpoints(a[1..])) + multiset(a[0].endpoints)
    ensures multiset(FlatEndpoints(b)) == multiset(FlatEndpoints(rest)) + multiset(a[0].endpoints)
  {
    var k := PickFirst(a, b);
    rest := b[..k] + b[k + 1..];
    assert a[..0] + a[1..] == a[1..];
    FlatRemove(a, 0);
    FlatRemove(b, k);
  }

  lemma EmptyBag<T>(b: seq<T>)
    requires multiset(b) == multiset{}
    ensures b == []
  {
    assert |b| == |multiset(b)|;
  }

  lemma {:induction false} FlatPermutation(a: seq<Entry>, b: seq<Entry>)
    requires multiset(a) == multiset(b)
    ensures multiset(FlatEndpoints(a)) == multiset(FlatEndpoints(b))
    decreases |a|
  {
    if |a| == 0 {
      EmptyBag(b);
    } else {
      var rest := FlatPick(a, b);
      FlatPermutation(a[1..], rest);
    }
  }

  /** The combinations whose entry in a parallel list is `x`. */
  function Hits<T(==)>(ts: seq<Site>, xs: seq<T>, x: T): set<Site>
    requires |ts| == |xs|
  {
    set i | 0 <= i < |ts| && xs[i] == x :: ts[i]
  }

  lemma HitsStep<T>(ts: seq<Site>, xs: seq<T>, x: T)
    requires |ts| == |xs| && |ts| > 0
    ensures var n := |ts| - 1;
            Hits(ts, xs, x) == Hits(ts[..n], xs[..n], x) + (if xs[n] == x then {ts[n]} else {})
  {
    var n := |ts| - 1;
    var before, after := Hits(ts[..n], xs[..n], x), Hits(ts, xs, x);
    forall t | t in before ensures t in after {
      var i :| 0 <= i < n && xs[..n][i] == x && ts[..n][i] == t;
      assert xs[i] == x && ts[i] == t;
    }
    forall t | t in after ensures t in before || (xs[n] == x && t == ts[n]) {
      var i :| 0 <= i < |ts| && xs[i] == x && ts[i] == t;
      if i < n { assert xs[..n][i] == x && ts[..n][i] == t; }
    }
  }

  lemma HitsListed<T>(ts: seq<Site>, xs: seq<T>, x: T, t: Site)
    requires |ts| == |xs| && t in Hits(ts, xs, x)
    ensures exists i :: 0 <= i < |ts| && ts[i] == t && xs[i] == x
  {
  }

  lemma NotHit<T>(ts: seq<Site>, xs: seq<T>, x: T)
    requires |ts| == |xs| && |ts| > 0 && Distinct(ts)
    ensures ts[|ts| - 1] !in Hits(ts[..|ts| - 1], xs[..|ts| - 1], x)
  {
    var n := |ts| - 1;
    if ts[n] in Hits(ts[..n], xs[..n], x) {
      HitsListed(ts[..n], xs[..n], x, ts[n]);
    }
  }

  lemma CountLast<T>(xs: seq<T>, x: T)
    requires |xs| > 0
    ensures multiset(xs)[x] == multiset(xs[..|xs| - 1])[x] + if xs[|xs| - 1] == x then 1 else 0
  {
    assert xs == xs[..|xs| - 1] + [xs[|xs| - 1]];
  }

  /** A count in a parallel list is the number of combinations behind it. */
  lemma {:induction false} CountSites<T>(ts: seq<Site>, xs: seq<T>, x: T)
    requires |ts| == |xs| && Distinct(ts)
    ensures multiset(xs)[x] == |Hits(ts, xs, x)|
    decreases |ts|
  {
    if |ts| > 0 {
      var n := |ts| - 1;
      CountSites(ts[..n], xs[..n], x);
      HitsStep(ts, xs, x);
      CountLast(xs, x);
      NotHit(ts, xs, x);
    }
  }

  /** The same, for an enumeration of all combinations. */
  lemma {:induction false} CountEnumerated(ps: seq<ServicePort>, ss: seq<EndpointSubset>, ts: seq<Site>,
                                           eps: seq<Endpoint>, e: Endpoint)
    requires Enumerates(ps, ss, ts, eps) && forall t :: t in ts <==> IsSite(ps, ss, t)
    ensures multiset(eps)[e] == |SitesOf(ps, ss, e)|
  {
    CountSites(ts, eps, e);
    var hits := Hits(ts, eps, e);
    forall t | t in hits ensures t in SitesOf(ps, ss, e) {
      HitsListed(ts, eps, e, t);
      var i :| 0 <= i < |ts| && ts[i] == t && eps[i] == e;
      assert IsSite(ps, ss, ts[i]);
    }
    forall t | t in SitesOf(ps, ss, e) ensures t in hits {
      var i :| 0 <= i < |ts| && ts[i] == t;
      assert eps[i] == e;
    }
    assert hits == SitesOf(ps, ss, e);
  }

  /** The combinations that describe one endpoint. */
  function SitesOf(ps: seq<ServicePort>, ss: seq<EndpointSubset>, e: Endpoint): set<Site> {
    set t | t in Sites(ps, ss) && EndpointAt(ps, ss, t) == e
  }

  /** The flattened topology is, up to order, the lists of all ports in sequence. */
  lemma {:induction false} FlatListing(s: Service, lists: seq<seq<Endpoint>>, es: seq<Entry>)
    requires |lists| <= |s.ports| && IsListing(s, lists, es)
    ensures multiset(FlatEndpoints(es)) == multiset(FlatLists(lists))
  {
    FlatPermutation(es, EntriesOf(s, lists));
    FlatEntries(s, lists);
  }

  /** Nothing is lost or invented between the Endpoints object and the flattened topology: each endpoint
      occurs as often as there are matching combinations that describe it. */
  lemma {:induction false} TopologyConservation(store: map<string, Endpoints>, s: Service, es: seq<Entry>, e: Endpoint)
    requires IsListing(s, ListsOf(store, s), es)
    ensures multiset(FlatEndpoints(es))[e] == |SitesOf(s.ports, SubsetsFor(store, s), e)|
  {
    var lists := ListsOf(store, s);
    FlatListing(s, lists, es);
    var ts := ServiceSites(store, s, |s.ports|);
    assert lists[..|s.ports|] == lists;
    CountEnumerated(s.ports, SubsetsFor(store, s), ts, FlatLists(lists), e);
  }

  /** Names of rules of one service tell their port numbers apart. */
  lemma {:induction false} PrefixLess(a: string, b: string)
    requires |b| > 0
    ensures Less(a, a + b) && !Less(a + b, a)
  {
    if |a| > 0 {
      PrefixLess(a[1..], b);
      assert (a + b)[1..] == a[1..] + b;
    }
  }

  /** The rule of port 80 comes first in every listing: it has the bare name of the service. */
  lemma {:induction false} DefaultPortFirst(s: Service, lists: seq<seq<Endpoint>>, es: seq<Entry>, i: int, j: int)
    requires |lists| == |s.ports| && IsListing(s, lists, es) && 0 <= i < |es| && 0 <= j < |es|
    requires es[i].frontendPort == 80 && es[j].frontendPort != 80
    ensures i < j && es[i].name == s.name
  {
    ListedFields(s, lists, es, i);
    ListedFields(s, lists, es, j);
    PrefixLess(s.name, ":" + Itoa(es[j].frontendPort));
    assert s.name + ":" + Itoa(es[j].frontendPort) == s.name + (":" + Itoa(es[j].frontendPort));
  }

  /** Every rule has the number, the target and the host of the service port it is for. */
  lemma ListedFields(s: Service, lists: seq<seq<Endpoint>>, es: seq<Entry>, i: int)
    requires |lists| == |s.ports| && IsListing(s, lists, es) && 0 <= i < |es|
    ensures es[i].name == RuleName(s.name, es[i].frontendPort)
    ensures exists p :: 0 <= p < |s.ports| && RuleFor(s, s.ports[p], es[i]) && es[i].endpoints == lists[p]
  {
    assert es[i] in multiset(EntriesOf(s, lists));
    var p := PortOfEntry(s, lists, es[i]);
    assert RuleFor(s, s.ports[p], es[i]);
  }

  predicate RuleFor(s: Service, sp: ServicePort, e: Entry) {
    && e.frontendPort == sp.port && e.name == s.name + (if sp.port == 80 then "" else ":" + Itoa(sp.port))
    && e.host == (if "loadbalancer.lbex/host" in s.annotations then s.annotations["loadbalancer.lbex/host"] else "")
    && match sp.targetPort
       case IntPort(number) => e.backendPort == number
       case NamedPort(text) => e.backendPort == (match Atoi(text) case Some(number) => number case None => 0)
  }

  lemma {:induction false} PortOfEntry(s: Service, lists: seq<seq<Endpoint>>, e: Entry) returns (k: nat)
    requires |lists| <= |s.ports| && e in EntriesOf(s, lists)
    ensures k < |lists| && e == MakeEntry(s, s.ports[k], lists[k])
    decreases |lists|
  {
    k := |lists| - 1;
    if !(|lists[k]| > 0 && e == MakeEntry(s, s.ports[k], lists[k])) {
      k := PortOfEntry(s, lists[..k], e);
    }
  }

  lemma RuleNameInjective(serviceName: string, p: int, q: int)
    requires RuleName(serviceName, p) == RuleName(serviceName, q)
    ensures p == q
  {
    if p != 80 && q != 80 {
      var n := |serviceName| + 1;
      assert Itoa(p) == RuleName(serviceName, p)[n..];
      assert Itoa(q) == RuleName(serviceName, q)[n..];
      ItoaInjective(p, q);
    }
  }

  predicate LeadsTo(s: Service, i: int, eps: seq<Endpoint>, e: Entry)
    requires 0 <= i < |s.ports|
  {
    |eps| > 0 && MakeEntry(s, s.ports[i], eps) == e
  }

  /** Ports of the service that lead to a given rule. */
  function PortsOfRule(s: Service, lists: seq<seq<Endpoint>>, e: Entry): set<int>
    requires |lists| <= |s.ports|
  {
    set i | 0 <= i < |lists| && LeadsTo(s, i, lists[i], e)
  }

  lemma {:induction false} PortsOfRuleStep(s: Service, lists: seq<seq<Endpoint>>, e: Entry)
    requires 0 < |lists| <= |s.ports|
    ensures var n := |lists| - 1;
            |PortsOfRule(s, lists, e)| == |PortsOfRule(s, lists[..n], e)|
              + (if LeadsTo(s, n, lists[n], e) then 1 else 0)
  {
    var n := |lists| - 1;
    var before, now := PortsOfRule(s, lists[..n], e), PortsOfRule(s, lists, e);
    forall i | 0 <= i < n ensures i in before <==> i in now {
      assert lists[..n][i] == lists[i];
    }
    assert now - {n} == before;
    assert n in now <==> LeadsTo(s, n, lists[n], e);
  }

  lemma {:induction false} EntriesOfStep(s: Service, lists: seq<seq<Endpoint>>, e: Entry)
    requires 0 < |lists| <= |s.ports|
    ensures var n := |lists| - 1;
            multiset(EntriesOf(s, lists))[e] == multiset(EntriesOf(s, lists[..n]))[e]
              + (if LeadsTo(s, n, lists[n], e) then 1 else 0)
  {
  }

  lemma {:induction false} EntryCount(s: Service, lists: seq<seq<Endpoint>>, e: Entry)
    requires |lists| <= |s.ports|
    ensures multiset(EntriesOf(s, lists))[e] == |PortsOfRule(s, lists, e)|
    decreases |lists|
  {
    if |lists| > 0 {
      EntryCount(s, lists[..|lists| - 1], e);
      EntriesOfStep(s, lists, e);
      PortsOfRuleStep(s, lists, e);
    }
  }

  /** The listing has one rule per port with endpoints, ordered by name; rules with one name share a port number. */
  lemma {:induction false} ListingSound(s: Service, lists: seq<seq<Endpoint>>, es: seq<Entry>)
    requires |lists| == |s.ports| && IsListing(s, lists, es)
    ensures forall e :: multiset(es)[e] == |PortsOfRule(s, lists, e)|
    ensures forall i, j :: 0 <= i < |es| && 0 <= j < |es| && es[i].name == es[j].name ==>
                           es[i].frontendPort == es[j].frontendPort
    ensures forall i :: 0 <= i < |es| ==> |es[i].endpoints| > 0
  {
    forall e ensures multiset(es)[e] == |PortsOfRule(s, lists, e)| {
      EntryCount(s, lists, e);
    }
    forall i | 0 <= i < |es|
      ensures es[i].name == RuleName(s.name, es[i].frontendPort) && |es[i].endpoints| > 0
    {
      assert es[i] in multiset(es);
      assert PortsOfRule(s, lists, es[i]) != {};
      var k :| k in PortsOfRule(s, lists, es[i]);
    }
    forall i, j | 0 <= i < |es| && 0 <= j < |es| && es[i].name == es[j].name
      ensures es[i].frontendPort == es[j].frontendPort
    {
      RuleNameInjective(s.name, es[i].frontendPort, es[j].frontendPort);
    }
  }

  /** A managed service has an empty topology exactly when no combination matches. */
  lemma {:induction false} EmptyListing(s: Service, lists: seq<seq<Endpoint>>)
    requires |lists| <= |s.ports|
    ensures EntriesOf(s, lists) == [] <==> forall i :: 0 <= i < |lists| ==> lists[i] == []
    decreases |lists|
  {
    if |lists| > 0 {
      EmptyListing(s, lists[..|lists| - 1]);
    }
  }
}
