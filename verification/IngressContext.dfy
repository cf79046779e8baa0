/** The HTTP context an Ingress resource is configured with: the base context with the resource's annotations laid over
    a copy of it (nginx/configurator.go: createIngressConfig), and the configurator's HTTP half around it. */
module IngressContext {
  import opened Text
  import opened Annotations
  import opened Ingress
  import opened IngressGenerator

  datatype HSTS = HSTS(on: bool, maxAge: int, includeSubdomains: bool)

  /** The fields of the context that servers and locations copy. */
  datatype HTTPContext = HTTPContext(
    locationSnippets: seq<string>, serverSnippets: seq<string>, serverTokens: bool,
    proxyConnectTimeout: string, proxyReadTimeout: string, clientMaxBodySize: string,
    http2: bool, redirectToHTTPS: bool, proxyProtocol: bool, proxyBuffering: bool,
    proxyBuffers: string, proxyBufferSize: string, proxyMaxTempFileSize: string,
    proxyHideHeaders: seq<string>, proxyPassHeaders: seq<string>, hsts: HSTS,
    realIPHeader: string, setRealIPFrom: seq<string>, realIPRecursive: bool)

  type Notes = map<string, string>

  const HSTS_KEY := "nginx.org/hsts"
  const HSTS_MAX_AGE_KEY := "nginx.org/hsts-max-age"
  const HSTS_SUBDOMAINS_KEY := "nginx.org/hsts-include-subdomains"

  // ----- one annotation over one field -----

  /** A text, or what was there when the annotation is missing. */
  function StringOr(notes: Notes, key: string, base: string): string { if key in notes then notes[key] else base }

  function ListOr(notes: Notes, key: string, sep: char, base: seq<string>): seq<string> {
    if key in notes then Split(notes[key], sep) else base
  }

  /** `GetMapKeyAsBool` and `GetMapKeyAsInt`: missing, malformed, or a value. */
  function BoolNote(notes: Notes, key: string): Reading<bool> {
    if key !in notes then Missing else match ParseBool(notes[key]) case Some(b) => Found(b) case None => Failed
  }

  function IntNote(notes: Notes, key: string): Reading<int> {
    if key !in notes then Missing else match Atoi(notes[key]) case Some(i) => Found(i) case None => Failed
  }

  function Or<T>(r: Reading<T>, base: T): T { if r.Found? then r.value else base }

  /** The three settings are taken together or not at all: `hsts` itself must be readable, and the other two readable
      or missing. */
  predicate HSTSUsable(notes: Notes) {
    BoolNote(notes, HSTS_KEY).Found? && !IntNote(notes, HSTS_MAX_AGE_KEY).Failed?
    && !BoolNote(notes, HSTS_SUBDOMAINS_KEY).Failed?
  }

  /** What annotations change in the fields of servers. */
  function OverlayServer(base: HTTPContext, notes: Notes): HTTPContext {
    base.(serverTokens := Or(BoolNote(notes, "nginx.org/server-tokens"), base.serverTokens),
          serverSnippets := ListOr(notes, "nginx.org/server-snippets", '\n', base.serverSnippets),
          proxyHideHeaders := ListOr(notes, "nginx.org/proxy-hide-headers", ',', base.proxyHideHeaders),
          proxyPassHeaders := ListOr(notes, "nginx.org/proxy-pass-headers", ',', base.proxyPassHeaders),
          http2 := Or(BoolNote(notes, "nginx.org/http2"), base.http2),
          redirectToHTTPS := Or(BoolNote(notes, "nginx.org/redirect-to-https"), base.redirectToHTTPS),
          hsts := OverlayHSTS(base.hsts, notes))
  }

  /** What they change in the fields of locations. */
  function OverlayLocation(base: HTTPContext, notes: Notes): HTTPContext {
    base.(locationSnippets := ListOr(notes, "nginx.org/location-snippets", '\n', base.locationSnippets),
          proxyConnectTimeout := StringOr(notes, "nginx.org/proxy-connect-timeout", base.proxyConnectTimeout),
          proxyReadTimeout := StringOr(notes, "nginx.org/proxy-read-timeout", base.proxyReadTimeout),
          clientMaxBodySize := StringOr(notes, "nginx.org/client-max-body-size", base.clientMaxBodySize),
          proxyBuffering := Or(BoolNote(notes, "nginx.org/proxy-buffering"), base.proxyBuffering),
          proxyBuffers := StringOr(notes, "nginx.org/proxy-buffers", base.proxyBuffers),
          proxyBufferSize := StringOr(notes, "nginx.org/proxy-buffer-size", base.proxyBufferSize),
          proxyMaxTempFileSize := StringOr(notes, "nginx.org/proxy-max-temp-file-size", base.proxyMaxTempFileSize))
  }

  /** The base context with the annotations laid over it. */
  function Overlay(base: HTTPContext, notes: Notes): HTTPContext {
    OverlayLocation(OverlayServer(base, notes), notes)
  }

  function OverlayHSTS(base: HSTS, notes: Notes): HSTS {
    if !HSTSUsable(notes) then base
    else HSTS(BoolNote(notes, HSTS_KEY).value, Or(IntNote(notes, HSTS_MAX_AGE_KEY), base.maxAge),
              Or(BoolNote(notes, HSTS_SUBDOMAINS_KEY), base.includeSubdomains))
  }

  // ----- the configurator -----

  class IngressConfigurator {
    var config: HTTPContext
    var files: map<string, HTTPConfig<HTTPContext>>

    constructor (config: HTTPContext)
      ensures this.config == config && files == map[]
    {
      this.config, files := config, map[];
    }

    /** The HSTS block of `createIngressConfig`, with its early error flag. */
    method CreateHSTS(notes: Notes, base: HSTS) returns (h: HSTS)
      ensures h == OverlayHSTS(base, notes)
    {
      h := base;
      var hsts := BoolNote(notes, HSTS_KEY);
      if hsts.Found? {
        var parsingErrors := false;
        var maxAge := IntNote(notes, HSTS_MAX_AGE_KEY);
        if maxAge.Failed? {
          parsingErrors := true;
        }
        var subdomains := BoolNote(notes, HSTS_SUBDOMAINS_KEY);
        if subdomains.Failed? {
          parsingErrors := true;
        }
        if !parsingErrors {
          h := h.(on := hsts.value);
          if maxAge.Found? {
            h := h.(maxAge := maxAge.value);
          }
          if subdomains.Found? {
            h := h.(includeSubdomains := subdomains.value);
          }
        }
      }
    }

    method CreateServerPart(base: HTTPContext, notes: Notes) returns (ctx: HTTPContext)
      ensures ctx == OverlayServer(base, notes)
    {
      ctx := base;
      ctx := ctx.(serverTokens := Or(BoolNote(notes, "nginx.org/server-tokens"), ctx.serverTokens));
      ctx := ctx.(serverSnippets := ListOr(notes, "nginx.org/server-snippets", '\n', ctx.serverSnippets));
      ctx := ctx.(proxyHideHeaders := ListOr(notes, "nginx.org/proxy-hide-headers", ',', ctx.proxyHideHeaders));
      ctx := ctx.(proxyPassHeaders := ListOr(notes, "nginx.org/proxy-pass-headers", ',', ctx.proxyPassHeaders));
      ctx := ctx.(http2 := Or(BoolNote(notes, "nginx.org/http2"), ctx.http2));
      ctx := ctx.(redirectToHTTPS := Or(BoolNote(notes, "nginx.org/redirect-to-https"), ctx.redirectToHTTPS));
      var h := CreateHSTS(notes, ctx.hsts);
      ctx := ctx.(hsts := h);
    }

    method CreateLocationPart(base: HTTPContext, notes: Notes) returns (ctx: HTTPContext)
      ensures ctx == OverlayLocation(base, notes)
    {
      ctx := base;
      ctx := ctx.(locationSnippets := ListOr(notes, "nginx.org/location-snippets", '\n', ctx.locationSnippets));
      ctx := ctx.(proxyConnectTimeout := StringOr(notes, "nginx.org/proxy-connect-timeout", ctx.proxyConnectTimeout));
      ctx := ctx.(proxyReadTimeout := StringOr(notes, "nginx.org/proxy-read-timeout", ctx.proxyReadTimeout));
      ctx := ctx.(clientMaxBodySize := StringOr(notes, "nginx.org/client-max-body-size", ctx.clientMaxBodySize));
      ctx := ctx.(proxyBuffering := Or(BoolNote(notes, "nginx.org/proxy-buffering"), ctx.proxyBuffering));
      ctx := ctx.(proxyBuffers := StringOr(notes, "nginx.org/proxy-buffers", ctx.proxyBuffers));
      ctx := ctx.(proxyBufferSize := StringOr(notes, "nginx.org/proxy-buffer-size", ctx.proxyBufferSize));
      var size := StringOr(notes, "nginx.org/proxy-max-temp-file-size", ctx.proxyMaxTempFileSize);
      ctx := ctx.(proxyMaxTempFileSize := size);
    }

    /** `createIngressConfig`: a copy of the base context, one field after the other. */
    method CreateIngressConfig(ex: IngressEx) returns (ctx: HTTPContext)
      ensures ctx == Overlay(config, ex.ingress.annotations)
    {
      ctx := CreateServerPart(config, ex.ingress.annotations);
      ctx := CreateLocationPart(ctx, ex.ingress.annotations);
    }

    /** `AddOrUpdateIngress` for a configurator that handles HTTP: exactly one file is written, from the base context
        as it is, and the base context stays as it is. */
    method AddOrUpdateIngress(name: string, ex: IngressEx, pems: map<string, string>)
      requires EndpointsOk(ex)
      modifies this`files
      ensures name in files && Generates(ex, Overlay(config, ex.ingress.annotations), pems, files[name])
      ensures files == old(files)[name := files[name]]
    {
      var ctx := CreateIngressConfig(ex);
      var cfg := Generate(ex, ctx, pems);
      files := files[name := cfg];
    }

    /** `UpdateMainConfigHTTPContext`. */
    method UpdateContext(config: HTTPContext)
      modifies this`config
      ensures this.config == config
    {
      this.config := config;
    }
  }

  // ----- what the overlay says -----

  /** The annotation as `strconv.ParseBool` reads it, or the base value when it is missing or no truth value. */
  function TruthOr(notes: Notes, key: string, base: bool): bool {
    if key !in notes then base
    else if notes[key] in ["1", "t", "T", "TRUE", "true", "True"] then true
    else if notes[key] in ["0", "f", "F", "FALSE", "false", "False"] then false
    else base
  }

  predicate IsTruth(v: string) {
    v in ["1", "t", "T", "TRUE", "true", "True", "0", "f", "F", "FALSE", "false", "False"]
  }

  /** The parts of the annotation between separators, or the base value when it is missing. */
  predicate PartsOr(notes: Notes, key: string, sep: char, base: seq<string>, parts: seq<string>) {
    if key !in notes then parts == base
    else |parts| > 0 && Join(parts, sep) == notes[key] && forall i :: 0 <= i < |parts| ==> sep !in parts[i]
  }

  lemma TruthSpelled(notes: Notes, key: string, base: bool)
    ensures Or(BoolNote(notes, key), base) == TruthOr(notes, key, base)
    ensures BoolNote(notes, key).Found? <==> key in notes && IsTruth(notes[key])
    ensures BoolNote(notes, key).Failed? <==> key in notes && !IsTruth(notes[key])
  {
  }

  lemma PartsSpelled(notes: Notes, key: string, sep: char, base: seq<string>)
    ensures PartsOr(notes, key, sep, base, ListOr(notes, key, sep, base))
  {
    if key in notes {
      JoinSplit(notes[key], sep);
      SplitParts(notes[key], sep);
    }
  }

  /** The server's settings, each from its own annotation. */
  lemma ServerSettings(base: HTTPContext, notes: Notes)
    ensures var ctx := Overlay(base, notes);
            && ctx.serverTokens == TruthOr(notes, "nginx.org/server-tokens", base.serverTokens)
            && ctx.http2 == TruthOr(notes, "nginx.org/http2", base.http2)
            && ctx.redirectToHTTPS == TruthOr(notes, "nginx.org/redirect-to-https", base.redirectToHTTPS)
            && PartsOr(notes, "nginx.org/server-snippets", '\n', base.serverSnippets, ctx.serverSnippets)
            && PartsOr(notes, "nginx.org/proxy-hide-headers", ',', base.proxyHideHeaders, ctx.proxyHideHeaders)
            && PartsOr(notes, "nginx.org/proxy-pass-headers", ',', base.proxyPassHeaders, ctx.proxyPassHeaders)
            && ctx.proxyProtocol == base.proxyProtocol && ctx.realIPHeader == base.realIPHeader
            && ctx.setRealIPFrom == base.setRealIPFrom && ctx.realIPRecursive == base.realIPRecursive
  {
    TruthSpelled(notes, "nginx.org/server-tokens", base.serverTokens);
    TruthSpelled(notes, "nginx.org/http2", base.http2);
    TruthSpelled(notes, "nginx.org/redirect-to-https", base.redirectToHTTPS);
    PartsSpelled(notes, "nginx.org/server-snippets", '\n', base.serverSnippets);
    PartsSpelled(notes, "nginx.org/proxy-hide-headers", ',', base.proxyHideHeaders);
    PartsSpelled(notes, "nginx.org/proxy-pass-headers", ',', base.proxyPassHeaders);
  }

  function TextOr(notes: Notes, key: string, base: string): string {
    match key in notes case true => notes[key] case false => base
  }

  /** The location's settings. */
  lemma LocationSettings(base: HTTPContext, notes: Notes)
    ensures var ctx := Overlay(base, notes);
            && ctx.proxyBuffering == TruthOr(notes, "nginx.org/proxy-buffering", base.proxyBuffering)
            && ctx.proxyConnectTimeout == TextOr(notes, "nginx.org/proxy-connect-timeout", base.proxyConnectTimeout)
            && ctx.proxyReadTimeout == TextOr(notes, "nginx.org/proxy-read-timeout", base.proxyReadTimeout)
            && ctx.clientMaxBodySize == TextOr(notes, "nginx.org/client-max-body-size", base.clientMaxBodySize)
            && ctx.proxyBuffers == TextOr(notes, "nginx.org/proxy-buffers", base.proxyBuffers)
            && ctx.proxyBufferSize == TextOr(notes, "nginx.org/proxy-buffer-size", base.proxyBufferSize)
            && ctx.proxyMaxTempFileSize ==
               TextOr(notes, "nginx.org/proxy-max-temp-file-size", base.proxyMaxTempFileSize)
            && PartsOr(notes, "nginx.org/location-snippets", '\n', base.locationSnippets, ctx.locationSnippets)
  {
    TruthSpelled(notes, "nginx.org/proxy-buffering", base.proxyBuffering);
    PartsSpelled(notes, "nginx.org/location-snippets", '\n', base.locationSnippets);
  }

  /** The HSTS annotations can be used: the main one is a truth value, and the others are readable if they are there. */
  predicate HSTSReadable(notes: Notes) {
    && "nginx.org/hsts" in notes && IsTruth(notes["nginx.org/hsts"])
    && ("nginx.org/hsts-max-age" in notes ==> Atoi(notes["nginx.org/hsts-max-age"]).Some?)
    && ("nginx.org/hsts-include-subdomains" in notes ==> IsTruth(notes["nginx.org/hsts-include-subdomains"]))
  }

  /** The three HSTS settings change together or not at all. */
  lemma HSTSSettings(base: HTTPContext, notes: Notes)
    ensures var h := Overlay(base, notes).hsts;
            if HSTSReadable(notes)
            then && h.on == TruthOr(notes, "nginx.org/hsts", base.hsts.on)
                 && h.includeSubdomains ==
                    TruthOr(notes, "nginx.org/hsts-include-subdomains", base.hsts.includeSubdomains)
                 && h.maxAge == (if "nginx.org/hsts-max-age" in notes then Atoi(notes["nginx.org/hsts-max-age"]).value
                                 else base.hsts.maxAge)
            else h == base.hsts
  {
    TruthSpelled(notes, "nginx.org/hsts", base.hsts.on);
    TruthSpelled(notes, "nginx.org/hsts-include-subdomains", base.hsts.includeSubdomains);
  }

  // ----- what the overlay keeps -----

  lemma ServerIdempotent(base: HTTPContext, notes: Notes)
    ensures OverlayServer(OverlayServer(base, notes), notes) == OverlayServer(base, notes)
  {
  }

  lemma LocationIdempotent(base: HTTPContext, notes: Notes)
    ensures OverlayLocation(OverlayLocation(base, notes), notes) == OverlayLocation(base, notes)
  {
  }

  /** The two halves touch different fields. */
  lemma OverlaysCommute(base: HTTPContext, notes: Notes)
    ensures OverlayServer(OverlayLocation(base, notes), notes) == OverlayLocation(OverlayServer(base, notes), notes)
  {
  }

  /** Laying the same annotations over the result again changes nothing. */
  lemma OverlayIdempotent(base: HTTPContext, notes: Notes)
    ensures Overlay(Overlay(base, notes), notes) == Overlay(base, notes)
  {
    var x := OverlayServer(base, notes);
    OverlaysCommute(x, notes);
    ServerIdempotent(base, notes);
    LocationIdempotent(x, notes);
  }

  // ----- history -----

  /** A call of the configurator's HTTP half. */
  datatype Call =
    | SetContext(config: HTTPContext)
    | SetIngress(name: string, ex: IngressEx, pems: map<string, string>, cfg: HTTPConfig<HTTPContext>)

  datatype Contents = Contents(config: HTTPContext, files: map<string, HTTPConfig<HTTPContext>>)

  ghost predicate Possible(s: Contents, call: Call) {
    match call
    case SetContext(_) => true
    case SetIngress(_, ex, pems, cfg) => EndpointsOk(ex)
                                         && Generates(ex, Overlay(s.config, ex.ingress.annotations), pems, cfg)
  }

  function After(s: Contents, call: Call): Contents {
    match call
    case SetContext(config) => s.(config := config)
    case SetIngress(name, _, _, cfg) => s.(files := s.files[name := cfg])
  }

  function AfterAll(s: Contents, calls: seq<Call>): Contents {
    if |calls| == 0 then s else After(AfterAll(s, calls[..|calls| - 1]), calls[|calls| - 1])
  }

  ghost predicate AllPossible(s: Contents, calls: seq<Call>) {
    |calls| > 0 ==>
      && AllPossible(s, calls[..|calls| - 1])
      && Possible(AfterAll(s, calls[..|calls| - 1]), calls[|calls| - 1])
  }

  /** The context set last. */
  function LatestContext(base: HTTPContext, calls: seq<Call>): HTTPContext {
    if |calls| == 0 then base
    else match calls[|calls| - 1]
      case SetContext(config) => config
      case SetIngress(_, _, _, _) => LatestContext(base, calls[..|calls| - 1])
  }

  lemma {:induction false} ContextIsLatest(s: Contents, calls: seq<Call>)
    ensures AfterAll(s, calls).config == LatestContext(s.config, calls)
    decreases |calls|
  {
    if |calls| > 0 {
      ContextIsLatest(s, calls[..|calls| - 1]);
    }
  }

  /** After any two histories that end with the same latest context, the same resource and certificates give the same
      servers and the same upstreams: earlier Ingress calls leave no trace in the context. */
  lemma IngressHistoryIndependence(s: Contents, xs: seq<Call>, t: Contents, ys: seq<Call>, name: string, ex: IngressEx,
                                   pems: map<string, string>, p: HTTPConfig<HTTPContext>, q: HTTPConfig<HTTPContext>)
    requires AllPossible(s, xs + [SetIngress(name, ex, pems, p)])
             && AllPossible(t, ys + [SetIngress(name, ex, pems, q)])
    requires LatestContext(s.config, xs) == LatestContext(t.config, ys)
    ensures p.servers == q.servers && forall u :: u in p.upstreams <==> u in q.upstreams
  {
    assert (xs + [SetIngress(name, ex, pems, p)])[..|xs|] == xs && (ys + [SetIngress(name, ex, pems, q)])[..|ys|] == ys;
    ContextIsLatest(s, xs);
    ContextIsLatest(t, ys);
    IngressDetermined(ex, Overlay(LatestContext(s.config, xs), ex.ingress.annotations), pems, p, q);
  }
}
