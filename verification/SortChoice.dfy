/** What the sort decides in a run: a worker about to write a file has read everything it will read, and the sort alone
    is left to choose the order of rules. */
module SortChoice {
  import opened Kube
  import opened Topology
  import opened Stream
  import opened ListingFacts
  import opened TieFacts
  import opened Reconcile
  import opened ReconcileInvariant
  import opened Totality

  /** All endpoints are read and there are some. */
  predicate AboutToWrite(s: State) {
    s.sw.SListing? && ListingDone(s.sw.svc2, s.sw.lists) && !NothingListed(s.sw.lists)
  }

  ghost predicate CanWrite(s: State, act: ServiceAct) { act.ServiceCommit? && ServiceEnabled(s, act) }

  /** The listeners of the file that the act writes. */
  ghost function Written(c: Config, s: State, act: ServiceAct): multiset<StreamServer>
    requires CanWrite(s, act)
  {
    multiset(AfterService(c, s, act).files[Stem(s.sw.key)].servers)
  }

  lemma WrittenListeners(c: Config, s: State, act: ServiceAct)
    requires CanWrite(s, act)
    ensures IsListing(s.sw.svc2, s.sw.lists, act.entries)
    ensures Written(c, s, act) == multiset(ServersOf(MakeSpec(s.sw.key, s.sw.svc, []), Targets(act.entries)))
  {
    var spec, ts := MakeSpec(s.sw.key, s.sw.svc, []), Targets(act.entries);
    assert MakeSpec(s.sw.key, s.sw.svc, act.entries) == spec.(topology := ts);
    ServersIgnoreTopology(spec, ts, ts);
  }

  lemma SomethingToWrite(nodes: map<string, Node>, spec: ServiceSpec, index: map<string, seq<Node>>)
    returns (cfg: StreamConfig, after: map<string, seq<Node>>)
    requires Registry(nodes)
    ensures Generates(nodes, spec, cfg) && IndexAfter(nodes, spec, spec.topology, index, after)
  {
    cfg := GeneratorTotal(nodes, spec);
    after := IndexTotal(nodes, spec, index);
  }

  /** Every result of the sort can be written. */
  lemma {:induction false} CanWriteListing(s: State, es: seq<Entry>) returns (act: ServiceAct)
    requires AboutToWrite(s) && Registry(s.nodes) && IsListing(s.sw.svc2, s.sw.lists, es)
    ensures CanWrite(s, act) && act.entries == es
  {
    var cfg, after := SomethingToWrite(s.nodes, MakeSpec(s.sw.key, s.sw.svc, es), s.index);
    act := ServiceCommit(es, cfg, after);
    Assembled(s, es, cfg, after, MakeSpec(s.sw.key, s.sw.svc, es));
  }

  lemma {:induction false} Assembled(s: State, es: seq<Entry>, cfg: StreamConfig, after: map<string, seq<Node>>,
                                     spec: ServiceSpec)
    requires AboutToWrite(s) && IsListing(s.sw.svc2, s.sw.lists, es) && spec == MakeSpec(s.sw.key, s.sw.svc, es)
    requires Generates(s.nodes, spec, cfg) && IndexAfter(s.nodes, spec, spec.topology, s.index, after)
    ensures ServiceEnabled(s, ServiceCommit(es, cfg, after))
  {
  }

  /** The listeners are the same whatever the worker writes. */
  ghost predicate WritesAgree(c: Config, s: State) {
    forall a, b :: CanWrite(s, a) && CanWrite(s, b) ==> Written(c, s, a) == Written(c, s, b)
  }

  /** At every such point of every run, the listeners that come to be written are settled exactly when the ties among
      the rules that were read are harmless. */
  lemma CommitsAgreeIff(c: Config, steps: seq<Step>)
    requires CanRun(c, INIT, steps) && AboutToWrite(Run(c, INIT, steps))
    ensures var s := Run(c, INIT, steps);
            WritesAgree(c, s) <==>
            TiesHarmless(MakeSpec(s.sw.key, s.sw.svc, []), EntriesOf(s.sw.svc2, s.sw.lists))
  {
    InitBasics(c);
    RunKeepsBasics(c, INIT, steps);
    WritesAgreeIff(c, Run(c, INIT, steps));
  }

  lemma IrrelevantAgrees(c: Config, s: State, a: ServiceAct, b: ServiceAct)
    requires AboutToWrite(s) && CanWrite(s, a) && CanWrite(s, b)
    requires SortIrrelevant(MakeSpec(s.sw.key, s.sw.svc, []), s.sw.svc2, s.sw.lists)
    ensures Written(c, s, a) == Written(c, s, b)
  {
    WrittenListeners(c, s, a);
    WrittenListeners(c, s, b);
    ListingsIrrelevant(MakeSpec(s.sw.key, s.sw.svc, []), s.sw.svc2, s.sw.lists, a.entries, b.entries);
  }

  lemma ListingsIrrelevant(spec: ServiceSpec, s: Service, lists: seq<seq<Endpoint>>, es1: seq<Entry>, es2: seq<Entry>)
    requires |lists| <= |s.ports| && SortIrrelevant(spec, s, lists)
    requires IsListing(s, lists, es1) && IsListing(s, lists, es2)
    ensures multiset(ServersOf(spec, Targets(es1))) == multiset(ServersOf(spec, Targets(es2)))
  {
  }

  lemma AgreeingIrrelevant(c: Config, s: State, es1: seq<Entry>, es2: seq<Entry>)
    requires AboutToWrite(s) && Registry(s.nodes) && WritesAgree(c, s)
    requires IsListing(s.sw.svc2, s.sw.lists, es1) && IsListing(s.sw.svc2, s.sw.lists, es2)
    ensures var spec := MakeSpec(s.sw.key, s.sw.svc, []);
            multiset(ServersOf(spec, Targets(es1))) == multiset(ServersOf(spec, Targets(es2)))
  {
    var a := CanWriteListing(s, es1);
    var b := CanWriteListing(s, es2);
    WrittenListeners(c, s, a);
    WrittenListeners(c, s, b);
  }

  lemma WritesAgreeIff(c: Config, s: State)
    requires AboutToWrite(s) && Registry(s.nodes)
    ensures WritesAgree(c, s) <==>
            TiesHarmless(MakeSpec(s.sw.key, s.sw.svc, []), EntriesOf(s.sw.svc2, s.sw.lists))
  {
    var spec := MakeSpec(s.sw.key, s.sw.svc, []);
    TiesHarmlessIff(spec, s.sw.svc2, s.sw.lists);
    if SortIrrelevant(spec, s.sw.svc2, s.sw.lists) {
      forall a, b | CanWrite(s, a) && CanWrite(s, b) ensures Written(c, s, a) == Written(c, s, b) {
        IrrelevantAgrees(c, s, a, b);
      }
    }
    if WritesAgree(c, s) {
      forall es1, es2 | IsListing(s.sw.svc2, s.sw.lists, es1) && IsListing(s.sw.svc2, s.sw.lists, es2)
        ensures multiset(ServersOf(spec, Targets(es1))) == multiset(ServersOf(spec, Targets(es2)))
      {
        AgreeingIrrelevant(c, s, es1, es2);
      }
    }
  }
}
