/** The generator for Ingress resources (nginx/configurator.go: generateNginxIngressCfg and its helpers). `C` is the
    HTTP context with the resource's annotations laid over it; servers and locations only copy fields out of it. */
module Ingress {
  import opened Text

  // ----- input and output -----

  datatype Backend = Backend(serviceName: string, servicePort: string)

  datatype HTTPPath = HTTPPath(path: string, backend: Backend)

  datatype Rule = Rule(host: string, http: Option<seq<HTTPPath>>)

  datatype Resource = Resource(
    ns: string, name: string, annotations: map<string, string>, backend: Option<Backend>, rules: seq<Rule>)

  datatype IngressEx = IngressEx(ingress: Resource, endpoints: map<string, seq<string>>)

  datatype UpstreamServer = UpstreamServer(address: string, port: string)

  datatype Upstream = Upstream(name: string, servers: seq<UpstreamServer>)

  datatype Location<C> = Location(path: string, upstream: Upstream, websocket: bool, rewrite: string, ssl: bool,
                                  context: C)

  datatype Server<C> = Server(name: string, certificate: Option<string>, locations: seq<Location<C>>, context: C)

  datatype HTTPConfig<C> = HTTPConfig(upstreams: seq<Upstream>, servers: seq<Server<C>>)

  // ----- annotations -----

  const REWRITES_KEY := "nginx.org/rewrites"
  const WEBSOCKET_KEY := "nginx.org/websocket-services"
  const SSL_KEY := "nginx.org/ssl-services"

  /** `getWebsocketServices` and `getSSLServices`. */
  function ListedServices(r: Resource, annotation: string): set<string> {
    if annotation in r.annotations then set s | s in Split(r.annotations[annotation], ',') else {}
  }

  datatype Rewrite = Rewrite(service: string, path: string)

  /** `parseRewrites`: the two halves of `strings.SplitN(s, " ", 2)` must each split in two at the equals sign. */
  function ParseRewrite(s: string): Option<Rewrite> {
    var words := Split(s, ' ');
    if |words| < 2 then None
    else
      var left, right := Split(words[0], '='), Split(Join(words[1..], ' '), '=');
      if |left| == 2 && |right| == 2 then Some(Rewrite(left[1], right[1])) else None
  }

  /** What a list of declarations amounts to: malformed ones are skipped and the last for a service wins. */
  function RewriteMap(parts: seq<string>): map<string, string> {
    if |parts| == 0 then map[]
    else
      var before := RewriteMap(parts[..|parts| - 1]);
      match ParseRewrite(parts[|parts| - 1])
      case None => before
      case Some(r) => before[r.service := r.path]
  }

  /** `getRewrites`. */
  method GetRewrites(r: Resource) returns (rewrites: map<string, string>)
    ensures rewrites == if REWRITES_KEY in r.annotations then RewriteMap(Split(r.annotations[REWRITES_KEY], ';'))
            else map[]
  {
    rewrites := map[];
    if REWRITES_KEY in r.annotations {
      var parts := Split(r.annotations[REWRITES_KEY], ';');
      for i := 0 to |parts|
        invariant rewrites == RewriteMap(parts[..i])
      {
        assert parts[..i + 1][..i] == parts[..i];
        match ParseRewrite(parts[i])
        case None =>
        case Some(rw) => rewrites := rewrites[rw.service := rw.path];
      }
      assert parts[..|parts|] == parts;
    }
  }

  // ----- rewrites: reading inverts printing -----

  function PrintRewrite(r: Rewrite): string { "serviceName=" + r.service + " rewrite=" + r.path }

  predicate PlainRewrite(r: Rewrite) {
    ' ' !in r.service && '=' !in r.service && ';' !in r.service && '=' !in r.path && ';' !in r.path
  }

  function PrintRewrites(rs: seq<Rewrite>): (parts: seq<string>)
    ensures |parts| == |rs|
  {
    seq(|rs|, i requires 0 <= i < |rs| => PrintRewrite(rs[i]))
  }

  function LastWins(rs: seq<Rewrite>): map<string, string> {
    if |rs| == 0 then map[] else LastWins(rs[..|rs| - 1])[rs[|rs| - 1].service := rs[|rs| - 1].path]
  }

  lemma SplitPair(x: string, y: string)
    requires '=' !in x && '=' !in y
    ensures Split(x + ['='] + y, '=') == [x, y]
  {
    SplitHead(x, '=', y);
    SplitHead(y, '=', "");
  }

  /** Two pairs with a space between them are read, whatever stands before the equals signs. */
  lemma ParsePairs(k: string, v: string, l: string, w: string)
    requires ' ' !in k && '=' !in k && ' ' !in v && '=' !in v && '=' !in l && '=' !in w
    ensures ParseRewrite(k + ['='] + v + [' '] + (l + ['='] + w)) == Some(Rewrite(v, w))
  {
    var left, right := k + ['='] + v, l + ['='] + w;
    SplitHead(left, ' ', right);
    JoinSplit(right, ' ');
    assert ([left] + Split(right, ' '))[1..] == Split(right, ' ');
    SplitPair(k, v);
    SplitPair(l, w);
  }

  /** Before the first space one pair, after it another; neither has a second equals sign. */
  predicate IsPairs(x: string, k: string, v: string, l: string, w: string) {
    && ' ' !in k && '=' !in k && ' ' !in v && '=' !in v && '=' !in l && '=' !in w
    && x == k + ['='] + v + [' '] + (l + ['='] + w)
  }

  lemma PairParts(x: string)
    requires |Split(x, '=')| == 2
    ensures var p := Split(x, '='); x == p[0] + ['='] + p[1] && '=' !in p[0] && '=' !in p[1]
  {
    SplitParts(x, '=');
    JoinSplit(x, '=');
    assert Split(x, '=')[1..] == [Split(x, '=')[1]];
  }

  /** A declaration is read exactly when it is two such pairs, and then as what stands after their equals signs. */
  lemma ParseIff(x: string, r: Rewrite)
    ensures ParseRewrite(x) == Some(r) <==> exists k, l :: IsPairs(x, k, r.service, l, r.path)
  {
    if ParseRewrite(x) == Some(r) {
      var words := Split(x, ' ');
      var left, right := words[0], Join(words[1..], ' ');
      SplitParts(x, ' ');
      JoinSplit(x, ' ');
      assert x == left + [' '] + right;
      PairParts(left);
      PairParts(right);
      var k, l := Split(left, '=')[0], Split(right, '=')[0];
      assert forall c :: c in k || c in r.service ==> c in left;
      assert IsPairs(x, k, r.service, l, r.path);
    }
    if exists k, l :: IsPairs(x, k, r.service, l, r.path) {
      var k, l :| IsPairs(x, k, r.service, l, r.path);
      ParsePairs(k, r.service, l, r.path);
    }
  }

  lemma ParsePrinted(r: Rewrite)
    requires PlainRewrite(r)
    ensures ParseRewrite(PrintRewrite(r)) == Some(r)
  {
    ParsePairs("serviceName", r.service, "rewrite", r.path);
    assert PrintRewrite(r) == "serviceName" + ['='] + r.service + [' '] + ("rewrite" + ['='] + r.path);
  }

  lemma PrintedNoSeparator(r: Rewrite)
    requires PlainRewrite(r)
    ensures ';' !in PrintRewrite(r)
  {
    assert ';' !in "serviceName=" && ';' !in " rewrite=";
  }

  lemma {:induction false} PrintedMap(rs: seq<Rewrite>)
    requires forall i :: 0 <= i < |rs| ==> PlainRewrite(rs[i])
    ensures RewriteMap(PrintRewrites(rs)) == LastWins(rs)
    decreases |rs|
  {
    if |rs| > 0 {
      var n := |rs| - 1;
      assert PrintRewrites(rs)[..n] == PrintRewrites(rs[..n]);
      PrintedMap(rs[..n]);
      ParsePrinted(rs[n]);
    }
  }

  /** Declarations printed one after the other, separated by semicolons, read back as the map in which the last
      one for a service wins. */
  lemma RewritesReadBack(rs: seq<Rewrite>)
    requires forall i :: 0 <= i < |rs| ==> PlainRewrite(rs[i])
    ensures RewriteMap(Split(Join(PrintRewrites(rs), ';'), ';')) == LastWins(rs)
  {
    if |rs| == 0 {
      assert Split("", ';')[..0] == [];
      assert Split("", ' ') == [""];
    } else {
      forall i | 0 <= i < |rs| ensures ';' !in PrintRewrites(rs)[i] {
        PrintedNoSeparator(rs[i]);
      }
      SplitJoin(PrintRewrites(rs), ';');
      PrintedMap(rs);
    }
  }

  lemma {:induction false} MalformedSkipped(before: seq<string>, bad: string, after: seq<string>)
    requires ParseRewrite(bad).None?
    ensures RewriteMap(before + [bad] + after) == RewriteMap(before + after)
    decreases |after|
  {
    if |after| == 0 {
      assert (before + [bad] + after)[..|before|] == before && before + after == before;
    } else {
      var n := |after| - 1;
      assert (before + [bad] + after)[..|before| + 1 + n] == before + [bad] + after[..n];
      assert (before + after)[..|before| + n] == before + after[..n];
      MalformedSkipped(before, bad, after[..n]);
    }
  }

  predicate NoneHas(parts: seq<string>, c: char) { forall i :: 0 <= i < |parts| ==> c !in parts[i] }

  lemma NoneHasConcat(x: seq<string>, y: seq<string>, c: char)
    requires NoneHas(x, c) && NoneHas(y, c)
    ensures NoneHas(x + y, c)
  {
  }

  /** An empty annotation declares nothing. */
  lemma EmptyDeclaration()
    ensures Split("", ';') == [""] && RewriteMap([""]) == map[]
  {
    assert [""][..0] == [] && Split("", ' ') == [""];
  }

  /** A malformed declaration put anywhere into the annotation changes nothing. */
  lemma MalformedIgnored(before: seq<string>, bad: string, after: seq<string>)
    requires ParseRewrite(bad).None?
    requires NoneHas(before, ';') && ';' !in bad && NoneHas(after, ';')
    ensures RewriteMap(Split(Join(before + [bad] + after, ';'), ';')) ==
            RewriteMap(Split(Join(before + after, ';'), ';'))
  {
    NoneHasConcat(before, [bad], ';');
    NoneHasConcat(before + [bad], after, ';');
    NoneHasConcat(before, after, ';');
    SplitJoin(before + [bad] + after, ';');
    if |before| + |after| > 0 {
      SplitJoin(before + after, ';');
    } else {
      EmptyDeclaration();
      assert before + after == [];
    }
    MalformedSkipped(before, bad, after);
  }
}
