/** Ties. Rules are sorted by name, and the source's sort may leave rules of one name in any order. This module says
    exactly for which stores that matters to the listeners of the generated configuration. */
module TieFacts {
  import opened Text
  import opened Kube
  import opened Topology
  import opened TopologyFacts
  import opened Stream
  import opened StreamFacts
  import opened Witnesses
  import opened ListingFacts

  // ----- rules and their targets -----

  function RuleTargets(e: Entry): seq<Target> { ToTargets(e.endpoints) }

  function Targets(es: seq<Entry>): seq<Target> { ToTargets(FlatEndpoints(es)) }

  lemma TargetsSplit(es: seq<Entry>)
    requires |es| > 0
    ensures Targets(es) == Targets(es[..|es| - 1]) + RuleTargets(es[|es| - 1])
  {
  }

  lemma NameInEither(spec: ServiceSpec, x: seq<Target>, y: seq<Target>, name: string)
    requires NameIn(spec, x, name) || NameIn(spec, y, name)
    ensures NameIn(spec, x + y, name)
  {
    if NameIn(spec, x, name) {
      var i :| 0 <= i < |x| && TargetName(spec, x[i]) == name;
      assert (x + y)[i] == x[i];
    } else {
      var i :| 0 <= i < |y| && TargetName(spec, y[i]) == name;
      assert (x + y)[|x| + i] == y[i];
    }
  }

  lemma {:induction false} NameInTargets(spec: ServiceSpec, es: seq<Entry>, q: nat, name: string)
    requires q < |es| && NameIn(spec, RuleTargets(es[q]), name)
    ensures NameIn(spec, Targets(es), name)
    decreases |es|
  {
    var n := |es| - 1;
    TargetsSplit(es);
    if q < n {
      NameInTargets(spec, es[..n], q, name);
    }
    NameInEither(spec, Targets(es[..n]), RuleTargets(es[n]), name);
  }

  /** The target is the first of its upstream in the rule. */
  ghost predicate Leads(spec: ServiceSpec, e: Entry, t: Target) {
    exists a :: IsFirst(spec, RuleTargets(e), a) && RuleTargets(e)[a] == t
  }

  lemma LeadsUnique(spec: ServiceSpec, e: Entry, t: Target, u: Target)
    requires Leads(spec, e, t) && Leads(spec, e, u) && TargetName(spec, t) == TargetName(spec, u)
    ensures t == u
  {
    var a :| IsFirst(spec, RuleTargets(e), a) && RuleTargets(e)[a] == t;
    var b :| IsFirst(spec, RuleTargets(e), b) && RuleTargets(e)[b] == u;
    FirstUnique(spec, RuleTargets(e), a, b);
  }

  /** No rule before `p` has a target of this upstream. */
  predicate FreshAt(spec: ServiceSpec, es: seq<Entry>, p: int, name: string) {
    0 <= p < |es| && forall q :: 0 <= q < p ==> !NameIn(spec, RuleTargets(es[q]), name)
  }

  lemma LaterFirst(spec: ServiceSpec, x: seq<Target>, y: seq<Target>, i: nat)
    requires IsFirst(spec, x + y, i) && i >= |x|
    ensures IsFirst(spec, y, i - |x|) && !NameIn(spec, x, TargetName(spec, y[i - |x|]))
  {
    forall j | 0 <= j < i - |x| ensures TargetName(spec, y[j]) != TargetName(spec, y[i - |x|]) {
      assert (x + y)[|x| + j] == y[j];
    }
    forall j | 0 <= j < |x| ensures TargetName(spec, x[j]) != TargetName(spec, y[i - |x|]) {
      assert (x + y)[j] == x[j];
    }
  }

  lemma EarlierFirst(spec: ServiceSpec, x: seq<Target>, y: seq<Target>, i: nat)
    requires IsFirst(spec, x + y, i) && i < |x|
    ensures IsFirst(spec, x, i)
  {
    forall j | 0 <= j < i ensures TargetName(spec, x[j]) != TargetName(spec, x[i]) {
      assert (x + y)[j] == x[j];
    }
  }

  /** The first target of an upstream leads it in its rule, and no earlier rule has one. */
  lemma {:induction false} Locate(spec: ServiceSpec, es: seq<Entry>, i: nat) returns (p: nat)
    requires IsFirst(spec, Targets(es), i)
    ensures FreshAt(spec, es, p, TargetName(spec, Targets(es)[i])) && Leads(spec, es[p], Targets(es)[i])
    decreases |es|
  {
    var n := |es| - 1;
    TargetsSplit(es);
    var x, y := Targets(es[..n]), RuleTargets(es[n]);
    if i < |x| {
      EarlierFirst(spec, x, y, i);
      p := Locate(spec, es[..n], i);
    } else {
      p := n;
      LaterFirst(spec, x, y, i);
      forall q | 0 <= q < n ensures !NameIn(spec, RuleTargets(es[q]), TargetName(spec, Targets(es)[i])) {
        if NameIn(spec, RuleTargets(es[..n][q]), TargetName(spec, Targets(es)[i])) {
          NameInTargets(spec, es[..n], q, TargetName(spec, Targets(es)[i]));
        }
      }
    }
  }

  lemma LeaderNamed(spec: ServiceSpec, e: Entry, t: Target)
    requires Leads(spec, e, t)
    ensures NameIn(spec, RuleTargets(e), TargetName(spec, t))
  {
  }

  /** And the other way round. */
  lemma Place(spec: ServiceSpec, es: seq<Entry>, p: nat, t: Target) returns (i: nat)
    requires FreshAt(spec, es, p, TargetName(spec, t)) && Leads(spec, es[p], t)
    ensures IsFirst(spec, Targets(es), i) && Targets(es)[i] == t
  {
    LeaderNamed(spec, es[p], t);
    NameInTargets(spec, es, p, TargetName(spec, t));
    i := FirstOf(spec, Targets(es), TargetName(spec, t));
    var q := Locate(spec, es, i);
    LeaderNamed(spec, es[q], Targets(es)[i]);
    assert p == q;
    LeadsUnique(spec, es[p], t, Targets(es)[i]);
  }

  // ----- the exact condition -----

  /** Some rule that must come earlier has a target of this upstream. */
  predicate Preempted(spec: ServiceSpec, es: seq<Entry>, rule: string, name: string) {
    exists e :: e in es && Less(e.name, rule) && NameIn(spec, RuleTargets(e), name)
  }

  /** Where two rules of one name both have targets of an upstream that no earlier rule has, the first such targets of
      the two rules have the same readable port and the same protocol. */
  ghost predicate TiesHarmless(spec: ServiceSpec, es: seq<Entry>) {
    forall e, f, t, u ::
      && e in es && f in es && e.name == f.name && Leads(spec, e, t) && Leads(spec, f, u)
      && TargetName(spec, t) == TargetName(spec, u) && !Preempted(spec, es, e.name, TargetName(spec, t)) ==>
      SamePortAndProtocol(spec, t, u)
  }

  /** All results of the sort give the same listeners. */
  ghost predicate SortIrrelevant(spec: ServiceSpec, s: Service, lists: seq<seq<Endpoint>>)
    requires |lists| <= |s.ports|
  {
    forall es1, es2 :: IsListing(s, lists, es1) && IsListing(s, lists, es2) ==>
      multiset(ServersOf(spec, Targets(es1))) == multiset(ServersOf(spec, Targets(es2)))
  }

  lemma SmallerComesFirst(es: seq<Entry>, p: nat, q: nat)
    requires SortedByName(es) && p < |es| && q < |es| && Less(es[p].name, es[q].name)
    ensures p < q
  {
    LessTrichotomy(es[p].name, es[p].name);
  }

  lemma NotPreempted(spec: ServiceSpec, all: seq<Entry>, es: seq<Entry>, p: nat, name: string)
    requires SortedByName(es) && multiset(es) == multiset(all) && FreshAt(spec, es, p, name)
    ensures !Preempted(spec, all, es[p].name, name)
  {
    if Preempted(spec, all, es[p].name, name) {
      var e :| e in all && Less(e.name, es[p].name) && NameIn(spec, RuleTargets(e), name);
      assert e in multiset(es);
      var q :| 0 <= q < |es| && es[q] == e;
      SmallerComesFirst(es, q, p);
    }
  }

  /** Two sorted arrangements meet an upstream first in rules of one name. */
  lemma SameRuleName(spec: ServiceSpec, all: seq<Entry>, e: Entry, f: Entry, name: string)
    requires e in all && f in all && NameIn(spec, RuleTargets(e), name) && NameIn(spec, RuleTargets(f), name)
    requires !Preempted(spec, all, e.name, name) && !Preempted(spec, all, f.name, name)
    ensures e.name == f.name
  {
    LessTrichotomy(e.name, f.name);
  }

  lemma HarmlessAgrees(spec: ServiceSpec, all: seq<Entry>, es1: seq<Entry>, es2: seq<Entry>, i: nat, j: nat)
    requires SortedByName(es1) && multiset(es1) == multiset(all) && SortedByName(es2) && multiset(es2) == multiset(all)
    requires TiesHarmless(spec, all) && IsFirst(spec, Targets(es1), i) && IsFirst(spec, Targets(es2), j)
    requires TargetName(spec, Targets(es1)[i]) == TargetName(spec, Targets(es2)[j])
    ensures Listener(spec, Targets(es1)[i]) == Listener(spec, Targets(es2)[j])
  {
    var t, u := Targets(es1)[i], Targets(es2)[j];
    var name := TargetName(spec, t);
    var p := Locate(spec, es1, i);
    var q := Locate(spec, es2, j);
    NotPreempted(spec, all, es1, p, name);
    NotPreempted(spec, all, es2, q, name);
    LeaderNamed(spec, es1[p], t);
    LeaderNamed(spec, es2[q], u);
    assert es1[p] in multiset(all) && es2[q] in multiset(all);
    SameRuleName(spec, all, es1[p], es2[q], name);
    ListenerEqualIff(spec, t, u);
  }

  /** A sorted arrangement in which the rule comes before all others of its name. */
  lemma {:induction false} InsertFirst(es: seq<Entry>, e: Entry) returns (r: seq<Entry>, p: nat)
    requires SortedByName(es)
    ensures SortedByName(r) && multiset(r) == multiset(es) + multiset{e}
    ensures p < |r| && r[p] == e && forall q :: 0 <= q < p ==> Less(r[q].name, e.name)
    decreases |es|
  {
    if |es| == 0 {
      r, p := [e], 0;
    } else {
      var n := |es| - 1;
      assert es == es[..n] + [es[n]];
      if Less(es[n].name, e.name) {
        r, p := es + [e], |es|;
        AllSmaller(es, e);
      } else {
        r, p := InsertFirst(es[..n], e);
        StaysLast(es, e, r);
        r := r + [es[n]];
      }
    }
  }

  lemma AllSmaller(es: seq<Entry>, e: Entry)
    requires |es| > 0 && SortedByName(es) && Less(es[|es| - 1].name, e.name)
    ensures SortedByName(es + [e]) && forall q :: 0 <= q < |es| ==> Less(es[q].name, e.name)
  {
    var last := es[|es| - 1].name;
    LessTrichotomy(last, e.name);
    forall q | 0 <= q < |es| ensures Less(es[q].name, e.name) {
      LessTrichotomy(es[q].name, e.name);
      if !Less(es[q].name, e.name) {
        NotLessTransitive(e.name, es[q].name, last);
      }
    }
    forall q | 0 <= q < |es| ensures !Less(e.name, es[q].name) {
      LessTrichotomy(es[q].name, e.name);
    }
  }

  lemma StaysLast(es: seq<Entry>, e: Entry, r: seq<Entry>)
    requires |es| > 0 && SortedByName(es) && SortedByName(r) && !Less(es[|es| - 1].name, e.name)
    requires multiset(r) == multiset(es[..|es| - 1]) + multiset{e}
    ensures SortedByName(r + [es[|es| - 1]])
  {
    forall i | 0 <= i < |r| ensures !Less(es[|es| - 1].name, r[i].name) {
      assert r[i] in multiset(r);
      assert r[i] == e || r[i] in es[..|es| - 1];
    }
  }

  lemma FirstAmongTies(all: seq<Entry>, e: Entry) returns (es: seq<Entry>, p: nat)
    requires e in all
    ensures SortedByName(es) && multiset(es) == multiset(all)
    ensures p < |es| && es[p] == e && forall q :: 0 <= q < p ==> Less(es[q].name, e.name)
  {
    var k :| 0 <= k < |all| && all[k] == e;
    MultisetRemove(all, k);
    es, p := InsertFirst(SortEntries(all[..k] + all[k + 1..]), e);
  }

  /** The sort can put a rule first among its ties, and then its leader decides for the upstream. */
  lemma LeaderCanDecide(spec: ServiceSpec, all: seq<Entry>, e: Entry, t: Target) returns (es: seq<Entry>, i: nat)
    requires e in all && Leads(spec, e, t) && !Preempted(spec, all, e.name, TargetName(spec, t))
    ensures SortedByName(es) && multiset(es) == multiset(all)
    ensures IsFirst(spec, Targets(es), i) && Targets(es)[i] == t
  {
    var p;
    es, p := FirstAmongTies(all, e);
    forall q | 0 <= q < p ensures !NameIn(spec, RuleTargets(es[q]), TargetName(spec, t)) {
      assert es[q] in multiset(all);
    }
    i := Place(spec, es, p, t);
  }

  lemma IrrelevantHarmless(spec: ServiceSpec, s: Service, lists: seq<seq<Endpoint>>, e: Entry, f: Entry, t: Target,
                           u: Target)
    requires |lists| <= |s.ports| && SortIrrelevant(spec, s, lists)
    requires var all := EntriesOf(s, lists);
             && e in all && f in all && e.name == f.name && Leads(spec, e, t) && Leads(spec, f, u)
             && TargetName(spec, t) == TargetName(spec, u) && !Preempted(spec, all, e.name, TargetName(spec, t))
    ensures SamePortAndProtocol(spec, t, u)
  {
    var all := EntriesOf(s, lists);
    var es1, i := LeaderCanDecide(spec, all, e, t);
    var es2, j := LeaderCanDecide(spec, all, f, u);
    ListingsPermute(s, lists, es1, es2);
    ListenersAgreeIff(spec, Targets(es1), Targets(es2));
    ListenerEqualIff(spec, t, u);
  }

  /** The listeners do not depend on what the sort makes of ties exactly when ties are harmless, which can be read off
      the service and its endpoints. */
  lemma TiesHarmlessIff(spec: ServiceSpec, s: Service, lists: seq<seq<Endpoint>>)
    requires |lists| <= |s.ports|
    ensures SortIrrelevant(spec, s, lists) <==> TiesHarmless(spec, EntriesOf(s, lists))
  {
    var all := EntriesOf(s, lists);
    if TiesHarmless(spec, all) {
      forall es1, es2 | IsListing(s, lists, es1) && IsListing(s, lists, es2)
        ensures multiset(ServersOf(spec, Targets(es1))) == multiset(ServersOf(spec, Targets(es2)))
      {
        HarmlessListings(spec, s, lists, es1, es2);
      }
    }
    if SortIrrelevant(spec, s, lists) {
      forall e, f, t, u |
        && e in all && f in all && e.name == f.name && Leads(spec, e, t) && Leads(spec, f, u)
        && TargetName(spec, t) == TargetName(spec, u) && !Preempted(spec, all, e.name, TargetName(spec, t))
        ensures SamePortAndProtocol(spec, t, u)
      {
        IrrelevantHarmless(spec, s, lists, e, f, t, u);
      }
    }
  }

  lemma HarmlessListings(spec: ServiceSpec, s: Service, lists: seq<seq<Endpoint>>, es1: seq<Entry>, es2: seq<Entry>)
    requires |lists| <= |s.ports| && IsListing(s, lists, es1) && IsListing(s, lists, es2)
    requires TiesHarmless(spec, EntriesOf(s, lists))
    ensures multiset(ServersOf(spec, Targets(es1))) == multiset(ServersOf(spec, Targets(es2)))
  {
    ListingsPermute(s, lists, es1, es2);
    forall i, j | IsFirst(spec, Targets(es1), i) && IsFirst(spec, Targets(es2), j)
                  && TargetName(spec, Targets(es1)[i]) == TargetName(spec, Targets(es2)[j])
      ensures Listener(spec, Targets(es1)[i]) == Listener(spec, Targets(es2)[j])
    {
      HarmlessAgrees(spec, EntriesOf(s, lists), es1, es2, i, j);
    }
    ListenersAgreeIff(spec, Targets(es1), Targets(es2));
  }

  // ----- ports of different numbers -----

  /** When no two ports have the same number there are no ties, and the stores determine the listeners. */
  lemma DistinctPortsHarmless(spec: ServiceSpec, s: Service, lists: seq<seq<Endpoint>>)
    requires |lists| <= |s.ports|
    requires forall i, j :: 0 <= i < j < |lists| ==> s.ports[i].port != s.ports[j].port
    ensures TiesHarmless(spec, EntriesOf(s, lists)) && SortIrrelevant(spec, s, lists)
  {
    var all := EntriesOf(s, lists);
    forall e, f, t, u |
      && e in all && f in all && e.name == f.name && Leads(spec, e, t) && Leads(spec, f, u)
      && TargetName(spec, t) == TargetName(spec, u) && !Preempted(spec, all, e.name, TargetName(spec, t))
      ensures SamePortAndProtocol(spec, t, u)
    {
      var i := PortOfEntry(s, lists, e);
      var j := PortOfEntry(s, lists, f);
      RuleNameInjective(s.name, s.ports[i].port, s.ports[j].port);
      assert i == j;
      LeadsUnique(spec, e, t, u);
    }
    TiesHarmlessIff(spec, s, lists);
  }

  // ----- two listings of one service -----

  /** Whatever order the sort leaves the rules in, and whatever order the generator visits its maps in, the upstreams
      agree in names, settings and servers. The listeners agree exactly when the first targets of each upstream do,
      and always when ties are harmless. */
  lemma ListingsAgree(nodes: map<string, Node>, key: string, s: Service, lists: seq<seq<Endpoint>>,
                      es1: seq<Entry>, es2: seq<Entry>, x: StreamConfig, y: StreamConfig)
    requires |lists| <= |s.ports| && IsListing(s, lists, es1) && IsListing(s, lists, es2)
    requires Generates(nodes, MakeSpec(key, s, es1), x) && Generates(nodes, MakeSpec(key, s, es2), y)
    ensures SameUpstreams(x, y)
    ensures var spec, ts1, ts2 := MakeSpec(key, s, es1), ToTargets(FlatEndpoints(es1)), ToTargets(FlatEndpoints(es2));
            && (multiset(x.servers) == multiset(y.servers) <==> FirstsAgree(spec, ts1, ts2))
            && (TiesHarmless(spec, EntriesOf(s, lists)) ==> multiset(x.servers) == multiset(y.servers))
  {
    var spec, ts2 := MakeSpec(key, s, es1), ToTargets(FlatEndpoints(es2));
    ListingsPermute(s, lists, es1, es2);
    assert MakeSpec(key, s, es2) == spec.(topology := ts2);
    ArrangedUpstreams(nodes, spec, ts2, x, y);
    ServersIgnoreTopology(spec, ts2, ts2);
    ListenersAgreeIff(spec, spec.topology, ts2);
    if TiesHarmless(spec, EntriesOf(s, lists)) {
      HarmlessListings(spec, s, lists, es1, es2);
    }
  }

  // ----- ties -----

  lemma {:induction false} EntriesTwo(s: Service, x: seq<Endpoint>, y: seq<Endpoint>)
    requires |s.ports| == 2 && |x| > 0 && |y| > 0
    ensures EntriesOf(s, [x, y]) == [MakeEntry(s, s.ports[0], x), MakeEntry(s, s.ports[1], y)]
  {
    assert [x, y][..1] == [x] && [x][..0] == [];
    assert EntriesOf(s, [x]) == EntriesOf(s, [x][..0]) + [MakeEntry(s, s.ports[0], x)];
  }

  lemma {:induction false} EitherOrder(e: Entry, f: Entry)
    requires e.name == f.name
    ensures SortedByName([e, f]) && SortedByName([f, e]) && multiset([e, f]) == multiset([f, e])
  {
    LessTrichotomy(e.name, f.name);
  }

  /** Two ports of one number: the sort may leave their rules in either order. */
  lemma {:induction false} TieBothOrders(s: Service, x: seq<Endpoint>, y: seq<Endpoint>)
    requires |s.ports| == 2 && s.ports[0].port == s.ports[1].port && |x| > 0 && |y| > 0
    ensures var e, f := MakeEntry(s, s.ports[0], x), MakeEntry(s, s.ports[1], y);
            IsListing(s, [x, y], [e, f]) && IsListing(s, [x, y], [f, e])
  {
    EntriesTwo(s, x, y);
    EitherOrder(MakeEntry(s, s.ports[0], x), MakeEntry(s, s.ports[1], y));
  }

  lemma {:induction false} FlatTwo(e: Entry, f: Entry)
    ensures FlatEndpoints([e, f]) == e.endpoints + f.endpoints
  {
    assert [e, f][..1] == [e] && [e][..0] == [];
    assert FlatEndpoints([e]) == FlatEndpoints([e][..0]) + e.endpoints;
  }

  lemma {:induction false} HeadsDecide(spec: ServiceSpec, x: seq<Endpoint>, y: seq<Endpoint>)
    requires |x| > 0 && |y| > 0 && TargetName(spec, ToTarget(x[0])) == TargetName(spec, ToTarget(y[0]))
    requires FirstsAgree(spec, ToTargets(x + y), ToTargets(y + x))
    ensures SamePortAndProtocol(spec, ToTarget(x[0]), ToTarget(y[0]))
  {
    var ts1, ts2 := ToTargets(x + y), ToTargets(y + x);
    assert ts1[0] == ToTarget(x[0]) && ts2[0] == ToTarget(y[0]);
    assert IsFirst(spec, ts1, 0) && IsFirst(spec, ts2, 0);
    ListenerEqualIff(spec, ts1[0], ts2[0]);
  }

  /** Then the listeners of the two orders differ as soon as the first endpoints of the two ports share an upstream
      without sharing port and protocol: the stores do not determine the file. */
  lemma {:induction false} TieDecides(nodes: map<string, Node>, key: string, s: Service, x: seq<Endpoint>,
                                      y: seq<Endpoint>,
                                      p: StreamConfig, q: StreamConfig)
    requires |s.ports| == 2 && s.ports[0].port == s.ports[1].port && |x| > 0 && |y| > 0
    requires var e, f := MakeEntry(s, s.ports[0], x), MakeEntry(s, s.ports[1], y);
             && Generates(nodes, MakeSpec(key, s, [e, f]), p) && Generates(nodes, MakeSpec(key, s, [f, e]), q)
             && var spec := MakeSpec(key, s, [e, f]);
                && TargetName(spec, ToTarget(x[0])) == TargetName(spec, ToTarget(y[0]))
                && !SamePortAndProtocol(spec, ToTarget(x[0]), ToTarget(y[0]))
    ensures multiset(p.servers) != multiset(q.servers)
  {
    var e, f := MakeEntry(s, s.ports[0], x), MakeEntry(s, s.ports[1], y);
    TieBothOrders(s, x, y);
    ListingsAgree(nodes, key, s, [x, y], [e, f], [f, e], p, q);
    FlatTwo(e, f);
    FlatTwo(f, e);
    if FirstsAgree(MakeSpec(key, s, [e, f]), ToTargets(x + y), ToTargets(y + x)) {
      HeadsDecide(MakeSpec(key, s, [e, f]), x, y);
    }
  }

  lemma TiedDiffer(spec: ServiceSpec)
    requires spec.service == Tied()
    ensures TargetName(spec, ToTarget(TCPEndpoint())) == TargetName(spec, ToTarget(UDPEndpoint()))
    ensures !SamePortAndProtocol(spec, ToTarget(TCPEndpoint()), ToTarget(UDPEndpoint()))
  {
    TiedReadings();
    ProtocolsDiffer();
  }

  lemma ProtocolsDiffer()
    ensures EqualFold("UDP", "udp") && !EqualFold("TCP", "udp")
  {
    assert LowerChar("TCP"[0]) != LowerChar("udp"[0]);
  }

  /** A managed service and two listings of its stores, all of whose configurations differ in their listeners. */
  lemma StoresDoNotDetermineListeners(nodes: map<string, Node>, key: string, p: StreamConfig, q: StreamConfig)
    requires var s := Tied();
             var e, f := MakeEntry(s, s.ports[0], [TCPEndpoint()]), MakeEntry(s, s.ports[1], [UDPEndpoint()]);
             Generates(nodes, MakeSpec(key, s, [e, f]), p) && Generates(nodes, MakeSpec(key, s, [f, e]), q)
    ensures var s := Tied();
            var e, f := MakeEntry(s, s.ports[0], [TCPEndpoint()]), MakeEntry(s, s.ports[1], [UDPEndpoint()]);
            && Managed(DEFAULTS, s) && IsListing(s, ListsOf(TiedStore(), s), [e, f])
            && IsListing(s, ListsOf(TiedStore(), s), [f, e])
    ensures multiset(p.servers) != multiset(q.servers)
  {
    var s := Tied();
    TiedManaged();
    TiedLists();
    TieBothOrders(s, [TCPEndpoint()], [UDPEndpoint()]);
    TiedDiffer(MakeSpec(key, s,
                        [MakeEntry(s, s.ports[0], [TCPEndpoint()]), MakeEntry(s, s.ports[1], [UDPEndpoint()])]));
    TieDecides(nodes, key, s, [TCPEndpoint()], [UDPEndpoint()], p, q);
  }
}
