/** What the configuration of an Ingress resource says, spelled out from the fields and annotations of the resource. */
module IngressContents {
  import opened Text
  import opened Ingress
  import opened IngressGenerator

  /** The annotation is a list, separated by commas, in which the service occurs. */
  predicate Lists(r: Resource, key: string, service: string) {
    key in r.annotations && service in Split(r.annotations[key], ',')
  }

  /** The path the rewrites give the service, empty when there is none. */
  function RewriteOf(r: Resource, service: string): string {
    if "nginx.org/rewrites" !in r.annotations then ""
    else
      var rewrites := RewriteMap(Split(r.annotations["nginx.org/rewrites"], ';'));
      if service in rewrites then rewrites[service] else ""
  }

  /** The location of a path under a host. */
  predicate PathSaid<C(==)>(r: Resource, ctx: C, host: string, p: HTTPPath, l: Location<C>) {
    && l.path == (if p.path == "" then "/" else p.path) && l.context == ctx
    && l.upstream.name == r.ns + "-" + r.name + "-" + host + "-" + p.backend.serviceName
    && (l.websocket <==> Lists(r, "nginx.org/websocket-services", p.backend.serviceName))
    && (l.ssl <==> Lists(r, "nginx.org/ssl-services", p.backend.serviceName))
    && l.rewrite == RewriteOf(r, p.backend.serviceName)
  }

  /** The endpoint is the server's address and port with a colon between, up to a second colon if there is one. */
  predicate Reads(endpoint: string, server: UpstreamServer) {
    && ':' !in server.address && ':' !in server.port
    && (|| endpoint == server.address + ":" + server.port
        || HasPrefix(endpoint, server.address + ":" + server.port + ":"))
  }

  /** One server for each endpoint of the backend in order, or the default server. */
  predicate ServersSaid(ex: IngressEx, b: Backend, servers: seq<UpstreamServer>) {
    var key := b.serviceName + b.servicePort;
    if key in ex.endpoints && |ex.endpoints[key]| > 0
    then && |servers| == |ex.endpoints[key]|
         && forall i :: 0 <= i < |servers| ==> Reads(ex.endpoints[key][i], servers[i])
    else servers == [UpstreamServer("127.0.0.1", "8181")]
  }

  lemma HostPortReads(endpoint: string)
    requires |Split(endpoint, ':')| >= 2
    ensures Reads(endpoint, HostPort(endpoint))
  {
    var parts := Split(endpoint, ':');
    SplitParts(endpoint, ':');
    JoinSplit(endpoint, ':');
    var rest := Join(parts[1..], ':');
    assert endpoint == parts[0] + ":" + rest;
    if |parts| > 2 {
      assert rest == parts[1] + ":" + Join(parts[1..][1..], ':');
      assert endpoint == parts[0] + ":" + parts[1] + ":" + Join(parts[1..][1..], ':');
    } else {
      assert parts[1..] == [parts[1]];
    }
  }

  lemma BackendSaid(ex: IngressEx, b: Backend)
    requires EndpointsOk(ex)
    ensures ServersSaid(ex, b, BackendServers(ex, b))
  {
    var es := EndpointsOf(ex, b);
    forall i | 0 <= i < |es| ensures Reads(es[i], HostPort(es[i])) {
      HostPortReads(es[i]);
    }
  }

  lemma LocationSaid<C>(ex: IngressEx, ctx: C, cs: seq<Claim>, host: string, p: HTTPPath, l: Location<C>)
    requires EndpointsOk(ex)
    requires LocationOf(ex, ctx, cs, PathOrDefault(p.path), PathClaim(ex.ingress, host, p), l)
    ensures PathSaid(ex.ingress, ctx, host, p, l)
    ensures ServersSaid(ex, FirstBackend(cs, l.upstream.name), l.upstream.servers)
  {
    BackendSaid(ex, FirstBackend(cs, l.upstream.name));
  }

  /** For a resource with rules: the server of a rule has its host and certificate, and the location of each of its
      paths is as the resource says, on an upstream with the endpoints of the first backend under its name. */
  lemma IngressSays<C>(ex: IngressEx, ctx: C, pems: map<string, string>, cfg: HTTPConfig<C>, i: int, j: int)
    requires EndpointsOk(ex) && IngressGenerator.Generates(ex, ctx, pems, cfg) && |ex.ingress.rules| > 0
    requires var hs := HTTPRules(ex.ingress.rules); 0 <= i < |hs| && 0 <= j < |hs[i].http.value|
    ensures var rule := HTTPRules(ex.ingress.rules)[i];
            && i < |cfg.servers| && cfg.servers[i].name == rule.host && cfg.servers[i].context == ctx
            && cfg.servers[i].certificate == (if rule.host in pems then Some(pems[rule.host]) else None)
            && j < |cfg.servers[i].locations|
            && var l := cfg.servers[i].locations[j];
               && PathSaid(ex.ingress, ctx, rule.host, rule.http.value[j], l)
               && Claimed(Claims(ex.ingress), l.upstream.name)
               && ServersSaid(ex, FirstBackend(Claims(ex.ingress), l.upstream.name), l.upstream.servers)
  {
    var rule, cs := HTTPRules(ex.ingress.rules)[i], Claims(ex.ingress);
    assert IngressGenerator.ServerFor(ex, ctx, pems, cs, rule, cfg.servers[i]);
    var ls := cfg.servers[i].locations;
    assert ls[..|rule.http.value|][j] == ls[j];
    LocationSaid(ex, ctx, cs, rule.host, rule.http.value[j], ls[j]);
  }
}
