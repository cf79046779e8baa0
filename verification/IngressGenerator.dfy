/** Upstreams and servers generated for an Ingress resource: nothing refers to an upstream that is not there. */
module IngressGenerator {
  import opened Text
  import opened Ingress

  const EMPTY_HOST := ""
  const DEFAULT_SERVER := UpstreamServer("127.0.0.1", "8181")

  /** `getNameForUpstream`. */
  function UpstreamName(r: Resource, host: string, service: string): string {
    r.ns + "-" + r.name + "-" + host + "-" + service
  }

  function PathOrDefault(path: string): string { if path == "" then "/" else path }

  // ----- one upstream -----

  /** The generator indexes both halves of an endpoint, so each must have a colon. */
  predicate EndpointsOk(ex: IngressEx) {
    forall k :: k in ex.endpoints ==> forall i :: 0 <= i < |ex.endpoints[k]| ==> |Split(ex.endpoints[k][i], ':')| >= 2
  }

  function HostPort(endpoint: string): UpstreamServer
    requires |Split(endpoint, ':')| >= 2
  {
    UpstreamServer(Split(endpoint, ':')[0], Split(endpoint, ':')[1])
  }

  function EndpointsOf(ex: IngressEx, b: Backend): seq<string> {
    var key := b.serviceName + b.servicePort;
    if key in ex.endpoints then ex.endpoints[key] else []
  }

  /** Servers of a backend: its endpoints, or the default server when there are none. */
  function BackendServers(ex: IngressEx, b: Backend): (servers: seq<UpstreamServer>)
    requires EndpointsOk(ex)
    ensures |servers| > 0
  {
    var es := EndpointsOf(ex, b);
    if |es| == 0 then [DEFAULT_SERVER] else seq(|es|, i requires 0 <= i < |es| => HostPort(es[i]))
  }

  method CreateUpstream(ex: IngressEx, name: string, b: Backend) returns (ups: Upstream)
    requires EndpointsOk(ex)
    ensures ups == Upstream(name, BackendServers(ex, b))
  {
    ups := Upstream(name, [DEFAULT_SERVER]);
    var key := b.serviceName + b.servicePort;
    if key in ex.endpoints {
      var es := ex.endpoints[key];
      var servers: seq<UpstreamServer> := [];
      for i := 0 to |es|
        invariant |servers| == i && forall j :: 0 <= j < i ==> servers[j] == HostPort(es[j])
      {
        servers := servers + [HostPort(es[i])];
      }
      if |servers| > 0 {
        ups := ups.(servers := servers);
      }
    }
  }

  // ----- who claims an upstream name -----

  datatype Claim = Claim(name: string, host: string, backend: Backend)

  function PathClaim(r: Resource, host: string, p: HTTPPath): Claim {
    Claim(UpstreamName(r, host, p.backend.serviceName), host, p.backend)
  }

  function PathClaims(r: Resource, host: string, paths: seq<HTTPPath>): (cs: seq<Claim>)
    ensures |cs| == |paths|
  {
    seq(|paths|, i requires 0 <= i < |paths| => PathClaim(r, host, paths[i]))
  }

  function RuleClaims(r: Resource, rule: Rule): seq<Claim> {
    if rule.http.None? then [] else PathClaims(r, rule.host, rule.http.value)
  }

  function RulesClaims(r: Resource, rules: seq<Rule>): seq<Claim> {
    if |rules| == 0 then [] else RulesClaims(r, rules[..|rules| - 1]) + RuleClaims(r, rules[|rules| - 1])
  }

  function DefaultClaims(r: Resource): seq<Claim> {
    if r.backend.None? then []
    else [Claim(UpstreamName(r, EMPTY_HOST, r.backend.value.serviceName), EMPTY_HOST, r.backend.value)]
  }

  /** Every use of an upstream in the order in which the generator comes to it. */
  function Claims(r: Resource): seq<Claim> { DefaultClaims(r) + RulesClaims(r, r.rules) }

  predicate Claimed(cs: seq<Claim>, name: string) { exists i :: 0 <= i < |cs| && cs[i].name == name }

  /** The backend of the first claim: it alone decides what the upstream contains. */
  function FirstBackend(cs: seq<Claim>, name: string): Backend
    requires Claimed(cs, name)
  {
    if cs[0].name == name then cs[0].backend
    else
      assert exists i :: 0 <= i < |cs[1..]| && cs[1..][i].name == name by {
        var i :| 0 <= i < |cs| && cs[i].name == name;
        assert cs[1..][i - 1].name == name;
      }
      FirstBackend(cs[1..], name)
  }

  lemma {:induction false} FirstStable(cs: seq<Claim>, more: seq<Claim>, name: string)
    requires Claimed(cs, name)
    ensures Claimed(cs + more, name) && FirstBackend(cs + more, name) == FirstBackend(cs, name)
  {
    var i :| 0 <= i < |cs| && cs[i].name == name;
    assert (cs + more)[i].name == name;
    if cs[0].name != name {
      assert cs[1..][i - 1].name == name;
      assert (cs + more)[1..] == cs[1..] + more;
      FirstStable(cs[1..], more, name);
    }
  }

  lemma {:induction false} FirstOfNew(cs: seq<Claim>, c: Claim)
    requires !Claimed(cs, c.name)
    ensures Claimed(cs + [c], c.name) && FirstBackend(cs + [c], c.name) == c.backend
  {
    assert (cs + [c])[|cs|].name == c.name;
    if |cs| > 0 {
      assert cs[0].name != c.name;
      assert (cs + [c])[1..] == cs[1..] + [c];
      assert forall i :: 0 <= i < |cs[1..]| ==> cs[1..][i] == cs[i + 1];
      FirstOfNew(cs[1..], c);
    }
  }

  // ----- the map of upstreams -----

  predicate Gathered(ex: IngressEx, cs: seq<Claim>, ups: map<string, Upstream>)
    requires EndpointsOk(ex)
  {
    && (forall i :: 0 <= i < |cs| ==> cs[i].name in ups)
    && (forall name :: name in ups ==>
        Claimed(cs, name) && ups[name] == Upstream(name, BackendServers(ex, FirstBackend(cs, name))))
  }

  lemma GatherKnown(ex: IngressEx, cs: seq<Claim>, ups: map<string, Upstream>, more: seq<Claim>)
    requires EndpointsOk(ex) && Gathered(ex, cs, ups) && forall i :: 0 <= i < |more| ==> more[i].name in ups
    ensures Gathered(ex, cs + more, ups)
  {
    forall name | name in ups
      ensures Claimed(cs + more, name) && FirstBackend(cs + more, name) == FirstBackend(cs, name)
    {
      FirstStable(cs, more, name);
    }
  }

  lemma GatherNew(ex: IngressEx, cs: seq<Claim>, ups: map<string, Upstream>, c: Claim)
    requires EndpointsOk(ex) && Gathered(ex, cs, ups) && c.name !in ups
    ensures Gathered(ex, cs + [c], ups[c.name := Upstream(c.name, BackendServers(ex, c.backend))])
  {
    FirstOfNew(cs, c);
    forall name | name in ups
      ensures Claimed(cs + [c], name) && FirstBackend(cs + [c], name) == FirstBackend(cs, name)
    {
      FirstStable(cs, [c], name);
    }
  }

  method Gather(ex: IngressEx, ghost cs: seq<Claim>, ups: map<string, Upstream>, c: Claim)
    returns (r: map<string, Upstream>)
    requires EndpointsOk(ex) && Gathered(ex, cs, ups)
    ensures Gathered(ex, cs + [c], r) && c.name in r
  {
    if c.name in ups {
      GatherKnown(ex, cs, ups, [c]);
      r := ups;
    } else {
      GatherNew(ex, cs, ups, c);
      var u := CreateUpstream(ex, c.name, c.backend);
      r := ups[c.name := u];
    }
  }

  // ----- locations and servers -----

  /** What the annotations say about the services of the resource. */
  datatype Options = Options(websockets: set<string>, rewrites: map<string, string>, ssl: set<string>)

  function OptionsOf(r: Resource): Options {
    Options(ListedServices(r, WEBSOCKET_KEY),
            if REWRITES_KEY in r.annotations then RewriteMap(Split(r.annotations[REWRITES_KEY], ';')) else map[],
            ListedServices(r, SSL_KEY))
  }

  /** `createLocation`. */
  function MakeLocation<C>(path: string, upstream: Upstream, o: Options, service: string, ctx: C): Location<C> {
    Location(path, upstream, service in o.websockets, if service in o.rewrites then o.rewrites[service] else "",
             service in o.ssl, ctx)
  }

  function UpstreamIn(ex: IngressEx, cs: seq<Claim>, c: Claim): Upstream
    requires EndpointsOk(ex) && Claimed(cs, c.name)
  {
    Upstream(c.name, BackendServers(ex, FirstBackend(cs, c.name)))
  }

  /** The location of a claim: its path, and the upstream the name stands for in the whole resource. */
  ghost predicate LocationOf<C>(ex: IngressEx, ctx: C, cs: seq<Claim>, path: string, c: Claim, l: Location<C>)
    requires EndpointsOk(ex)
  {
    Claimed(cs, c.name) && l == MakeLocation(path, UpstreamIn(ex, cs, c), OptionsOf(ex.ingress), c.backend.serviceName,
                                             ctx)
  }

  predicate HasRoot<C>(locations: seq<Location<C>>) { exists i :: 0 <= i < |locations| && locations[i].path == "/" }

  /** One location per path, in order. */
  ghost predicate Located<C>(ex: IngressEx, ctx: C, cs: seq<Claim>, host: string, paths: seq<HTTPPath>,
                             ls: seq<Location<C>>)
    requires EndpointsOk(ex)
  {
    && |ls| == |paths|
    && forall i :: 0 <= i < |paths| ==>
         LocationOf(ex, ctx, cs, PathOrDefault(paths[i].path), PathClaim(ex.ingress, host, paths[i]), ls[i])
  }

  /** One location per path, and one more for the default backend when no path is the root. */
  ghost predicate LocationsFor<C>(ex: IngressEx, ctx: C, cs: seq<Claim>, host: string, paths: seq<HTTPPath>,
                                  ls: seq<Location<C>>)
    requires EndpointsOk(ex)
  {
    && |paths| <= |ls|
    && Located(ex, ctx, cs, host, paths, ls[..|paths|])
    && (if !HasRoot(ls[..|paths|]) && ex.ingress.backend.Some?
        then |ls| == |paths| + 1 && LocationOf(ex, ctx, cs, "/", DefaultClaims(ex.ingress)[0], ls[|paths|])
        else |ls| == |paths|)
  }

  function CertificateFor(pems: map<string, string>, host: string): Option<string> {
    if host in pems then Some(pems[host]) else None
  }

  /** Locations only mention claims that are already there, so later claims do not change them. */
  lemma LocatedStable<C>(ex: IngressEx, ctx: C, cs: seq<Claim>, more: seq<Claim>, host: string, paths: seq<HTTPPath>,
                         ls: seq<Location<C>>)
    requires EndpointsOk(ex) && Located(ex, ctx, cs, host, paths, ls)
    ensures Located(ex, ctx, cs + more, host, paths, ls)
  {
    forall i | 0 <= i < |paths|
      ensures LocationOf(ex, ctx, cs + more, PathOrDefault(paths[i].path), PathClaim(ex.ingress, host, paths[i]), ls[i])
    {
      assert LocationOf(ex, ctx, cs, PathOrDefault(paths[i].path), PathClaim(ex.ingress, host, paths[i]), ls[i]);
      FirstStable(cs, more, PathClaim(ex.ingress, host, paths[i]).name);
    }
  }

  lemma LocationsStable<C>(ex: IngressEx, ctx: C, cs: seq<Claim>, more: seq<Claim>, host: string, paths: seq<HTTPPath>,
                           ls: seq<Location<C>>)
    requires EndpointsOk(ex) && LocationsFor(ex, ctx, cs, host, paths, ls)
    ensures LocationsFor(ex, ctx, cs + more, host, paths, ls)
  {
    LocatedStable(ex, ctx, cs, more, host, paths, ls[..|paths|]);
    if !HasRoot(ls[..|paths|]) && ex.ingress.backend.Some? {
      FirstStable(cs, more, DefaultClaims(ex.ingress)[0].name);
    }
  }

  lemma LocatedStep<C>(ex: IngressEx, ctx: C, cs: seq<Claim>, host: string, paths: seq<HTTPPath>, ls: seq<Location<C>>,
                       p: HTTPPath, l: Location<C>)
    requires EndpointsOk(ex) && Located(ex, ctx, cs, host, paths, ls)
    requires var c := PathClaim(ex.ingress, host, p); LocationOf(ex, ctx, cs + [c], PathOrDefault(p.path), c, l)
    ensures Located(ex, ctx, cs + [PathClaim(ex.ingress, host, p)], host, paths + [p], ls + [l])
  {
    LocatedStable(ex, ctx, cs, [PathClaim(ex.ingress, host, p)], host, paths, ls);
  }

  /** One turn of the inner loop. */
  method AddPath<C>(ex: IngressEx, ctx: C, o: Options, ghost cs: seq<Claim>, ups: map<string, Upstream>, host: string,
                    ghost paths: seq<HTTPPath>, ls: seq<Location<C>>, p: HTTPPath)
    returns (r: map<string, Upstream>, more: seq<Location<C>>)
    requires EndpointsOk(ex) && o == OptionsOf(ex.ingress)
    requires Gathered(ex, cs, ups) && Located(ex, ctx, cs, host, paths, ls)
    ensures Gathered(ex, cs + [PathClaim(ex.ingress, host, p)], r)
    ensures Located(ex, ctx, cs + [PathClaim(ex.ingress, host, p)], host, paths + [p], more)
  {
    var c := PathClaim(ex.ingress, host, p);
    r := Gather(ex, cs, ups, c);
    var l := MakeLocation(PathOrDefault(p.path), r[c.name], o, c.backend.serviceName, ctx);
    assert LocationOf(ex, ctx, cs + [c], PathOrDefault(p.path), c, l);
    LocatedStep(ex, ctx, cs, host, paths, ls, p, l);
    more := ls + [l];
  }

  lemma ClaimsStep(r: Resource, host: string, cs: seq<Claim>, paths: seq<HTTPPath>, i: nat)
    requires i < |paths|
    ensures paths[..i + 1] == paths[..i] + [paths[i]]
    ensures cs + PathClaims(r, host, paths[..i + 1]) ==
            cs + PathClaims(r, host, paths[..i]) + [PathClaim(r, host, paths[i])]
  {
  }

  /** The inner loop over the paths of one rule. */
  method PathLocations<C>(ex: IngressEx, ctx: C, o: Options, ghost cs: seq<Claim>, ups: map<string, Upstream>,
                          host: string, paths: seq<HTTPPath>)
    returns (r: map<string, Upstream>, ls: seq<Location<C>>)
    requires EndpointsOk(ex) && o == OptionsOf(ex.ingress) && Gathered(ex, cs, ups)
    ensures Gathered(ex, cs + PathClaims(ex.ingress, host, paths), r)
    ensures Located(ex, ctx, cs + PathClaims(ex.ingress, host, paths), host, paths, ls)
  {
    r, ls := ups, [];
    assert cs + PathClaims(ex.ingress, host, paths[..0]) == cs;
    for i := 0 to |paths|
      invariant Gathered(ex, cs + PathClaims(ex.ingress, host, paths[..i]), r)
      invariant Located(ex, ctx, cs + PathClaims(ex.ingress, host, paths[..i]), host, paths[..i], ls)
    {
      ClaimsStep(ex.ingress, host, cs, paths, i);
      r, ls := AddPath(ex, ctx, o, cs + PathClaims(ex.ingress, host, paths[..i]), r, host, paths[..i], ls, paths[i]);
    }
    assert paths[..|paths|] == paths;
  }

  // ----- rules -----

  /** Rules without an HTTP part are skipped. */
  function HTTPRules(rules: seq<Rule>): (hs: seq<Rule>)
    ensures forall i :: 0 <= i < |hs| ==> hs[i].http.Some?
  {
    if |rules| == 0 then []
    else HTTPRules(rules[..|rules| - 1]) + if rules[|rules| - 1].http.Some? then [rules[|rules| - 1]] else []
  }

  ghost predicate ServerFor<C>(ex: IngressEx, ctx: C, pems: map<string, string>, cs: seq<Claim>, rule: Rule,
                               s: Server<C>)
    requires EndpointsOk(ex)
  {
    && rule.http.Some? && s.name == rule.host && s.certificate == CertificateFor(pems, rule.host) && s.context == ctx
    && LocationsFor(ex, ctx, cs, rule.host, rule.http.value, s.locations)
  }

  /** One server per rule with an HTTP part, in order. */
  ghost predicate ServersFor<C>(ex: IngressEx, ctx: C, pems: map<string, string>, cs: seq<Claim>, hs: seq<Rule>,
                                ss: seq<Server<C>>)
    requires EndpointsOk(ex)
  {
    |ss| == |hs| && forall i :: 0 <= i < |hs| ==> ServerFor(ex, ctx, pems, cs, hs[i], ss[i])
  }

  lemma ServersStable<C>(ex: IngressEx, ctx: C, pems: map<string, string>, cs: seq<Claim>, more: seq<Claim>,
                         hs: seq<Rule>, ss: seq<Server<C>>)
    requires EndpointsOk(ex) && ServersFor(ex, ctx, pems, cs, hs, ss)
    ensures ServersFor(ex, ctx, pems, cs + more, hs, ss)
  {
    forall i | 0 <= i < |hs| ensures ServerFor(ex, ctx, pems, cs + more, hs[i], ss[i]) {
      assert ServerFor(ex, ctx, pems, cs, hs[i], ss[i]);
      LocationsStable(ex, ctx, cs, more, hs[i].host, hs[i].http.value, ss[i].locations);
    }
  }

  method FindRoot<C>(ls: seq<Location<C>>) returns (root: bool)
    ensures root == HasRoot(ls)
  {
    root := false;
    for i := 0 to |ls|
      invariant root == HasRoot(ls[..i])
    {
      assert ls[..i + 1] == ls[..i] + [ls[i]];
      if ls[i].path == "/" {
        assert ls[..i + 1][i].path == "/";
        root := true;
      } else if root {
        var j :| 0 <= j < |ls[..i]| && ls[..i][j].path == "/";
        assert ls[..i + 1][j].path == "/";
      }
    }
    assert ls[..|ls|] == ls;
  }

  method MakeServer<C>(ex: IngressEx, ctx: C, pems: map<string, string>, o: Options, ghost cs: seq<Claim>,
                       ups: map<string, Upstream>, rule: Rule)
    returns (r: map<string, Upstream>, s: Server<C>)
    requires EndpointsOk(ex) && o == OptionsOf(ex.ingress) && Gathered(ex, cs, ups) && rule.http.Some?
    requires DefaultClaims(ex.ingress) <= cs
    ensures Gathered(ex, cs + RuleClaims(ex.ingress, rule), r)
    ensures ServerFor(ex, ctx, pems, cs + RuleClaims(ex.ingress, rule), rule, s)
  {
    var ls;
    r, ls := PathLocations(ex, ctx, o, cs, ups, rule.host, rule.http.value);
    var root := FindRoot(ls);
    ghost var all := cs + RuleClaims(ex.ingress, rule);
    assert ls[..|rule.http.value|] == ls;
    if !root && ex.ingress.backend.Some? {
      var c := DefaultClaims(ex.ingress)[0];
      assert all[0] == c;
      var l := MakeLocation("/", r[c.name], o, c.backend.serviceName, ctx);
      assert LocationOf(ex, ctx, all, "/", c, l);
      assert (ls + [l])[..|ls|] == ls;
      ls := ls + [l];
    }
    s := Server(rule.host, CertificateFor(pems, rule.host), ls, ctx);
  }

  /** Claims made before the rule at `i`. */
  function ClaimsUpTo(r: Resource, i: nat): seq<Claim>
    requires i <= |r.rules|
  {
    DefaultClaims(r) + RulesClaims(r, r.rules[..i])
  }

  lemma ClaimsEnds(r: Resource)
    ensures ClaimsUpTo(r, 0) == DefaultClaims(r) && ClaimsUpTo(r, |r.rules|) == Claims(r)
  {
    assert r.rules[..|r.rules|] == r.rules;
  }

  lemma RulesStep(r: Resource, i: nat)
    requires i < |r.rules|
    ensures DefaultClaims(r) <= ClaimsUpTo(r, i)
    ensures ClaimsUpTo(r, i + 1) == ClaimsUpTo(r, i) + RuleClaims(r, r.rules[i])
    ensures HTTPRules(r.rules[..i + 1]) == HTTPRules(r.rules[..i]) + if r.rules[i].http.Some? then [r.rules[i]] else []
  {
    assert r.rules[..i + 1][..i] == r.rules[..i];
  }

  // ----- the generator -----

  predicate NamesDistinct(us: seq<Upstream>) { forall i, j :: 0 <= i < j < |us| ==> us[i].name != us[j].name }

  predicate Named(us: seq<Upstream>, name: string) { exists i :: 0 <= i < |us| && us[i].name == name }

  /** The upstreams of a configuration: one for every claimed name, made for the first backend that claims it. */
  predicate UpstreamsFor(ex: IngressEx, cs: seq<Claim>, us: seq<Upstream>)
    requires EndpointsOk(ex)
  {
    && NamesDistinct(us)
    && (forall i :: 0 <= i < |cs| ==> Named(us, cs[i].name))
    && (forall i :: 0 <= i < |us| ==>
          Claimed(cs, us[i].name) && us[i] == Upstream(us[i].name, BackendServers(ex, FirstBackend(cs, us[i].name))))
  }

  /** `upstreamMapToSlice`, in no particular order. */
  method MapToSlice(ups: map<string, Upstream>) returns (us: seq<Upstream>)
    requires forall name :: name in ups ==> ups[name].name == name
    ensures NamesDistinct(us)
    ensures forall name :: name in ups ==> Named(us, name)
    ensures forall i :: 0 <= i < |us| ==> us[i].name in ups && us[i] == ups[us[i].name]
  {
    us := [];
    var rest := ups.Keys;
    while rest != {}
      invariant rest <= ups.Keys && NamesDistinct(us)
      invariant forall i :: 0 <= i < |us| ==> us[i].name in ups.Keys - rest && us[i] == ups[us[i].name]
      invariant forall name :: name in ups.Keys - rest ==> Named(us, name)
      decreases rest
    {
      var k :| k in rest;
      ghost var before := us;
      us := us + [ups[k]];
      assert us[|before|].name == k;
      forall name | name in ups.Keys - rest ensures Named(us, name) {
        assert Named(before, name);
        var i :| 0 <= i < |before| && before[i].name == name;
        assert us[i].name == name;
      }
      rest := rest - {k};
    }
  }

  /** `cfg` is a possible result of `generateNginxIngressCfg`. */
  ghost predicate Generates<C>(ex: IngressEx, ctx: C, pems: map<string, string>, cfg: HTTPConfig<C>)
    requires EndpointsOk(ex)
  {
    var r := ex.ingress;
    var cs := Claims(r);
    && UpstreamsFor(ex, cs, cfg.upstreams)
    && if |r.rules| == 0 && r.backend.Some?
       then && |cfg.servers| == 1
            && var s := cfg.servers[0];
               && s.name == EMPTY_HOST && s.certificate == CertificateFor(pems, EMPTY_HOST) && s.context == ctx
               && |s.locations| == 1 && LocationOf(ex, ctx, cs, "/", DefaultClaims(r)[0], s.locations[0])
       else ServersFor(ex, ctx, pems, cs, HTTPRules(r.rules), cfg.servers)
  }

  /** The loop over the rules. */
  method RuleServers<C>(ex: IngressEx, ctx: C, pems: map<string, string>, o: Options, ups: map<string, Upstream>)
    returns (r: map<string, Upstream>, ss: seq<Server<C>>)
    requires EndpointsOk(ex) && o == OptionsOf(ex.ingress) && Gathered(ex, DefaultClaims(ex.ingress), ups)
    ensures Gathered(ex, Claims(ex.ingress), r)
    ensures ServersFor(ex, ctx, pems, Claims(ex.ingress), HTTPRules(ex.ingress.rules), ss)
  {
    r, ss := ups, [];
    var rules := ex.ingress.rules;
    ClaimsEnds(ex.ingress);
    for i := 0 to |rules|
      invariant Gathered(ex, ClaimsUpTo(ex.ingress, i), r)
      invariant ServersFor(ex, ctx, pems, ClaimsUpTo(ex.ingress, i), HTTPRules(rules[..i]), ss)
    {
      RulesStep(ex.ingress, i);
      r, ss := AddRule(ex, ctx, pems, o, ClaimsUpTo(ex.ingress, i), r, HTTPRules(rules[..i]), ss, rules[i]);
    }
    assert rules[..|rules|] == rules;
  }

  /** One turn of the loop over the rules. */
  method AddRule<C>(ex: IngressEx, ctx: C, pems: map<string, string>, o: Options, ghost cs: seq<Claim>,
                    ups: map<string, Upstream>,
                    ghost hs: seq<Rule>, ss: seq<Server<C>>, rule: Rule)
    returns (r: map<string, Upstream>, more: seq<Server<C>>)
    requires EndpointsOk(ex) && o == OptionsOf(ex.ingress) && Gathered(ex, cs, ups) && DefaultClaims(ex.ingress) <= cs
    requires ServersFor(ex, ctx, pems, cs, hs, ss)
    ensures Gathered(ex, cs + RuleClaims(ex.ingress, rule), r)
    ensures ServersFor(ex, ctx, pems, cs + RuleClaims(ex.ingress, rule),
                       hs + (if rule.http.Some? then [rule] else []), more)
  {
    r, more := ups, ss;
    if rule.http.None? {
      assert cs + RuleClaims(ex.ingress, rule) == cs && hs + [] == hs;
    } else {
      ServersStable(ex, ctx, pems, cs, RuleClaims(ex.ingress, rule), hs, ss);
      var s;
      r, s := MakeServer(ex, ctx, pems, o, cs, ups, rule);
      more := ss + [s];
    }
  }

  method Generate<C>(ex: IngressEx, ctx: C, pems: map<string, string>) returns (cfg: HTTPConfig<C>)
    requires EndpointsOk(ex)
    ensures Generates(ex, ctx, pems, cfg)
  {
    var r := ex.ingress;
    var rewrites := GetRewrites(r);
    var o := Options(ListedServices(r, WEBSOCKET_KEY), rewrites, ListedServices(r, SSL_KEY));
    var ups: map<string, Upstream> := map[];
    if r.backend.Some? {
      ups := Gather(ex, [], ups, DefaultClaims(r)[0]);
      assert [] + [DefaultClaims(r)[0]] == DefaultClaims(r);
    }
    var servers: seq<Server<C>>;
    ups, servers := RuleServers(ex, ctx, pems, o, ups);
    if |r.rules| == 0 && r.backend.Some? {
      var c := DefaultClaims(r)[0];
      assert Claims(r)[0] == c;
      var l := MakeLocation("/", ups[c.name], o, c.backend.serviceName, ctx);
      servers := [Server(EMPTY_HOST, CertificateFor(pems, EMPTY_HOST), [l], ctx)];
    }
    var us := MapToSlice(ups);
    cfg := HTTPConfig(us, servers);
  }

  // ----- closure -----

  /** The upstream stands in the output under its own name, which no other upstream has, and has a server. */
  predicate Resolved(us: seq<Upstream>, u: Upstream) {
    exists i :: 0 <= i < |us| && us[i] == u && |u.servers| > 0
                && forall j :: 0 <= j < |us| && us[j].name == u.name ==> j == i
  }

  lemma ClaimResolved(ex: IngressEx, us: seq<Upstream>, c: Claim)
    requires EndpointsOk(ex) && UpstreamsFor(ex, Claims(ex.ingress), us) && Claimed(Claims(ex.ingress), c.name)
    ensures Resolved(us, UpstreamIn(ex, Claims(ex.ingress), c))
  {
    var cs := Claims(ex.ingress);
    var k :| 0 <= k < |cs| && cs[k].name == c.name;
    assert Named(us, cs[k].name);
    var i :| 0 <= i < |us| && us[i].name == c.name;
    assert us[i] == UpstreamIn(ex, cs, c);
  }

  lemma ServerClosed<C>(ex: IngressEx, ctx: C, us: seq<Upstream>, host: string, paths: seq<HTTPPath>,
                        ls: seq<Location<C>>, j: int)
    requires EndpointsOk(ex) && UpstreamsFor(ex, Claims(ex.ingress), us)
    requires LocationsFor(ex, ctx, Claims(ex.ingress), host, paths, ls) && 0 <= j < |ls|
    ensures Resolved(us, ls[j].upstream)
  {
    if j < |paths| {
      var c := PathClaim(ex.ingress, host, paths[j]);
      assert LocationOf(ex, ctx, Claims(ex.ingress), PathOrDefault(paths[j].path), c, ls[..|paths|][j]);
      ClaimResolved(ex, us, c);
    } else {
      ClaimResolved(ex, us, DefaultClaims(ex.ingress)[0]);
    }
  }

  /** Closure: every location's upstream occurs in the output, under a unique name, with at least one server. */
  lemma IngressClosed<C>(ex: IngressEx, ctx: C, pems: map<string, string>, cfg: HTTPConfig<C>, i: int, j: int)
    requires EndpointsOk(ex) && Generates(ex, ctx, pems, cfg)
    requires 0 <= i < |cfg.servers| && 0 <= j < |cfg.servers[i].locations|
    ensures Resolved(cfg.upstreams, cfg.servers[i].locations[j].upstream)
  {
    var r := ex.ingress;
    if |r.rules| == 0 && r.backend.Some? {
      ClaimResolved(ex, cfg.upstreams, DefaultClaims(r)[0]);
    } else {
      var rule := HTTPRules(r.rules)[i];
      assert ServerFor(ex, ctx, pems, Claims(r), rule, cfg.servers[i]);
      ServerClosed(ex, ctx, cfg.upstreams, rule.host, rule.http.value, cfg.servers[i].locations, j);
    }
  }

  /** With a default backend every server has a root location. */
  lemma RootServed<C>(ex: IngressEx, ctx: C, pems: map<string, string>, cfg: HTTPConfig<C>, i: int)
    requires EndpointsOk(ex) && Generates(ex, ctx, pems, cfg) && ex.ingress.backend.Some? && 0 <= i < |cfg.servers|
    ensures HasRoot(cfg.servers[i].locations)
  {
    var r, ls := ex.ingress, cfg.servers[i].locations;
    if |r.rules| == 0 {
      assert ls[0].path == "/";
    } else {
      var rule := HTTPRules(r.rules)[i];
      assert ServerFor(ex, ctx, pems, Claims(r), rule, cfg.servers[i]);
      var n := |rule.http.value|;
      if HasRoot(ls[..n]) {
        var k :| 0 <= k < n && ls[..n][k].path == "/";
        assert ls[k].path == "/";
      } else {
        assert ls[n].path == "/";
      }
    }
  }

  // ----- whose endpoints an upstream has -----

  /** Host and service of the two uses run together to the same text: they are the same, or a hyphen inside one of them
      shifts the border. */
  predicate SamePlace(c: Claim, d: Claim) {
    || (c.host == d.host && c.backend.serviceName == d.backend.serviceName)
    || Shifted(c.host, c.backend.serviceName, d.host, d.backend.serviceName, '-')
    || Shifted(d.host, d.backend.serviceName, c.host, c.backend.serviceName, '-')
  }

  /** Exactly which hosts and services share an upstream name. */
  lemma UpstreamNameEqualIff(r: Resource, c: Claim, d: Claim)
    ensures UpstreamName(r, c.host, c.backend.serviceName) == UpstreamName(r, d.host, d.backend.serviceName) <==>
            SamePlace(c, d)
  {
    var head := r.ns + "-" + r.name + "-";
    var x, y := c.host + ['-'] + c.backend.serviceName, d.host + ['-'] + d.backend.serviceName;
    assert UpstreamName(r, c.host, c.backend.serviceName) == head + x;
    assert UpstreamName(r, d.host, d.backend.serviceName) == head + y;
    assert (head + x)[|head|..] == x && (head + y)[|head|..] == y;
    JoinedEqualIff(c.host, c.backend.serviceName, d.host, d.backend.serviceName, '-');
  }

  predicate NamedByPlace(r: Resource, cs: seq<Claim>) {
    forall i :: 0 <= i < |cs| ==> cs[i].name == UpstreamName(r, cs[i].host, cs[i].backend.serviceName)
  }

  lemma {:induction false} RulesNamed(r: Resource, rules: seq<Rule>)
    ensures NamedByPlace(r, RulesClaims(r, rules))
  {
    if |rules| > 0 {
      RulesNamed(r, rules[..|rules| - 1]);
    }
  }

  lemma ClaimsNamed(r: Resource)
    ensures NamedByPlace(r, Claims(r))
  {
    RulesNamed(r, r.rules);
  }

  predicate SameNameSameServers(ex: IngressEx, cs: seq<Claim>)
    requires EndpointsOk(ex)
  {
    forall i, j :: 0 <= i < |cs| && 0 <= j < |cs| && cs[i].name == cs[j].name ==>
      BackendServers(ex, cs[i].backend) == BackendServers(ex, cs[j].backend)
  }

  /** Uses of one host and service, whatever their ports, have the same endpoints. */
  predicate SamePlaceSameServers(ex: IngressEx, cs: seq<Claim>)
    requires EndpointsOk(ex)
  {
    forall i, j :: 0 <= i < |cs| && 0 <= j < |cs| && SamePlace(cs[i], cs[j]) ==>
      BackendServers(ex, cs[i].backend) == BackendServers(ex, cs[j].backend)
  }

  lemma {:induction false} FirstIsClaim(cs: seq<Claim>, name: string) returns (i: int)
    requires Claimed(cs, name)
    ensures 0 <= i < |cs| && cs[i].name == name && cs[i].backend == FirstBackend(cs, name)
  {
    i := 0;
    if cs[0].name != name {
      var k :| 0 <= k < |cs| && cs[k].name == name;
      assert cs[1..][k - 1].name == name;
      i := FirstIsClaim(cs[1..], name);
      i := i + 1;
    }
  }

  /** The use reaches the endpoints of its own backend. */
  predicate ReachesOwn(ex: IngressEx, cs: seq<Claim>, c: Claim)
    requires EndpointsOk(ex)
  {
    Claimed(cs, c.name) && BackendServers(ex, FirstBackend(cs, c.name)) == BackendServers(ex, c.backend)
  }

  lemma OwnByName(ex: IngressEx, cs: seq<Claim>)
    requires EndpointsOk(ex)
    ensures (forall i :: 0 <= i < |cs| ==> ReachesOwn(ex, cs, cs[i])) <==> SameNameSameServers(ex, cs)
  {
    if SameNameSameServers(ex, cs) {
      forall i | 0 <= i < |cs| ensures ReachesOwn(ex, cs, cs[i]) {
        var k := FirstIsClaim(cs, cs[i].name);
      }
    }
    if forall i :: 0 <= i < |cs| ==> ReachesOwn(ex, cs, cs[i]) {
      forall i, j | 0 <= i < |cs| && 0 <= j < |cs| && cs[i].name == cs[j].name
        ensures BackendServers(ex, cs[i].backend) == BackendServers(ex, cs[j].backend)
      {
        assert ReachesOwn(ex, cs, cs[i]) && ReachesOwn(ex, cs, cs[j]);
      }
    }
  }

  /** Every use of an upstream reaches the endpoints of its own backend exactly when any two uses whose host and
      service run together to the same text have the same endpoints: the name leaves out the port, and a hyphen in a
      host or service can make two names equal. */
  lemma OwnServersIff(ex: IngressEx)
    requires EndpointsOk(ex)
    ensures var cs := Claims(ex.ingress);
            (forall i :: 0 <= i < |cs| ==> ReachesOwn(ex, cs, cs[i])) <==> SamePlaceSameServers(ex, cs)
  {
    var cs := Claims(ex.ingress);
    OwnByName(ex, cs);
    ClaimsNamed(ex.ingress);
    forall i, j | 0 <= i < |cs| && 0 <= j < |cs| ensures cs[i].name == cs[j].name <==> SamePlace(cs[i], cs[j]) {
      UpstreamNameEqualIff(ex.ingress, cs[i], cs[j]);
    }
  }

  /** Two paths of one host that use different ports of a service, only one of which has an endpoint. */
  function TwoPorts(): IngressEx {
    IngressEx(Resource("n", "i", map[], None,
                       [Rule("h", Some([HTTPPath("/a", Backend("s", "80")), HTTPPath("/b", Backend("s", "90"))]))]),
              map["s90" := ["b:9"]])
  }

  lemma TwoPortsServers()
    ensures EndpointsOk(TwoPorts())
    ensures BackendServers(TwoPorts(), Backend("s", "80")) != BackendServers(TwoPorts(), Backend("s", "90"))
  {
    assert "b:9" == "b" + [':'] + "9";
    SplitHead("b", ':', "9");
    SplitHead("9", ':', "");
    assert "s" + "80" == "s80" && "s" + "90" == "s90" && "s80"[1] != "s90"[1];
    assert |"9"| != |"8181"|;
    assert BackendServers(TwoPorts(), Backend("s", "90"))[0] == UpstreamServer("b", "9");
  }

  lemma TwoPortsClaims()
    ensures Claims(TwoPorts().ingress) ==
            [Claim(UpstreamName(TwoPorts().ingress, "h", "s"), "h", Backend("s", "80")),
             Claim(UpstreamName(TwoPorts().ingress, "h", "s"), "h", Backend("s", "90"))]
  {
    var r := TwoPorts().ingress;
    assert RulesClaims(r, r.rules) == RulesClaims(r, r.rules[..0]) + RuleClaims(r, r.rules[0]);
  }

  /** The condition can fail. */
  lemma SecondPortIgnored()
    ensures EndpointsOk(TwoPorts()) && !SamePlaceSameServers(TwoPorts(), Claims(TwoPorts().ingress))
  {
    TwoPortsServers();
    TwoPortsClaims();
    var cs := Claims(TwoPorts().ingress);
    assert SamePlace(cs[0], cs[1]);
  }

  // ----- history independence -----

  lemma LocationsDetermined<C>(ex: IngressEx, ctx: C, cs: seq<Claim>, host: string, paths: seq<HTTPPath>,
                               x: seq<Location<C>>, y: seq<Location<C>>)
    requires EndpointsOk(ex) && LocationsFor(ex, ctx, cs, host, paths, x) && LocationsFor(ex, ctx, cs, host, paths, y)
    ensures x == y
  {
    assert x[..|paths|] == y[..|paths|] by {
      forall i | 0 <= i < |paths| ensures x[..|paths|][i] == y[..|paths|][i] {
        var c := PathClaim(ex.ingress, host, paths[i]);
        assert LocationOf(ex, ctx, cs, PathOrDefault(paths[i].path), c, x[..|paths|][i]);
        assert LocationOf(ex, ctx, cs, PathOrDefault(paths[i].path), c, y[..|paths|][i]);
      }
    }
    forall i | 0 <= i < |paths| ensures x[i] == y[i] {
      assert x[i] == x[..|paths|][i] && y[i] == y[..|paths|][i];
    }
  }

  lemma UpstreamsDetermined(ex: IngressEx, cs: seq<Claim>, x: seq<Upstream>, y: seq<Upstream>, u: Upstream)
    requires EndpointsOk(ex) && UpstreamsFor(ex, cs, x) && UpstreamsFor(ex, cs, y) && u in x
    ensures u in y
  {
    var k :| 0 <= k < |cs| && cs[k].name == u.name;
    assert Named(y, cs[k].name);
    var j :| 0 <= j < |y| && y[j].name == u.name;
    assert y[j] == u;
  }

  /** The result depends on the resource, its certificates and the context alone, up to the order of upstreams. */
  lemma IngressDetermined<C>(ex: IngressEx, ctx: C, pems: map<string, string>, x: HTTPConfig<C>, y: HTTPConfig<C>)
    requires EndpointsOk(ex) && Generates(ex, ctx, pems, x) && Generates(ex, ctx, pems, y)
    ensures x.servers == y.servers && forall u :: u in x.upstreams <==> u in y.upstreams
  {
    var r := ex.ingress;
    forall u ensures u in x.upstreams <==> u in y.upstreams {
      if u in x.upstreams {
        UpstreamsDetermined(ex, Claims(r), x.upstreams, y.upstreams, u);
      }
      if u in y.upstreams {
        UpstreamsDetermined(ex, Claims(r), y.upstreams, x.upstreams, u);
      }
    }
    if |r.rules| == 0 && r.backend.Some? {
      assert x.servers[0].locations == [x.servers[0].locations[0]]
             && y.servers[0].locations == [y.servers[0].locations[0]];
      assert x.servers == [x.servers[0]] && y.servers == [y.servers[0]];
    } else {
      forall i | 0 <= i < |x.servers| ensures x.servers[i] == y.servers[i] {
        var rule := HTTPRules(r.rules)[i];
        assert ServerFor(ex, ctx, pems, Claims(r), rule, x.servers[i])
               && ServerFor(ex, ctx, pems, Claims(r), rule, y.servers[i]);
        LocationsDetermined(ex, ctx, Claims(r), rule.host, rule.http.value, x.servers[i].locations,
                            y.servers[i].locations);
      }
    }
  }
}
