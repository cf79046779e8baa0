/** The text of a stream configuration (nginx/stream.tmpl), and a reader of such text that shows nothing is lost
    in printing. The template is modelled character by character: each of its lines is an indent, words separated
    by single spaces, a gap, one of the marks `;`, `{`, `}`, and the white space up to the next line. */
module Render {
  import opened Text
  import opened Stream

  datatype Line = Line(indent: string, words: seq<string>, gap: string, mark: char, trail: string)

  const LINE := "\n\t"
  const INNER := "\n\t\t"

  // ----- printing -----

  function LineText(l: Line): string { l.indent + Join(l.words, ' ') + l.gap + [l.mark] + l.trail }

  function LinesText(ls: seq<Line>): string {
    if |ls| == 0 then "" else LineText(ls[0]) + LinesText(ls[1..])
  }

  function Statement(indent: string, words: seq<string>): Line { Line(indent, words, "", ';', "") }

  function Open(words: seq<string>): Line { Line(LINE, words, " ", '{', "") }

  const CLOSE := Line(LINE, [], "", '}', LINE)

  /** An optional word: present when the string is not empty. */
  function Opt(prefix: string, v: string): seq<string> { if v == "" then [] else [prefix + v] }

  function Flag(on: bool, word: string): seq<string> { if on then [word] else [] }

  function When(on: bool, l: Line): seq<Line> { if on then [l] else [] }

  function ServerWords(s: StreamUpstreamServer): seq<string> {
    ["server", s.address] + (Opt("weight=", s.weight) + (Opt("max_conns=", s.maxConns) + (Opt("max_fails=", s.maxFails)
      + (Opt("fail_timeout=", s.failTimeout) + (Flag(s.backup, "backup") + Flag(s.down, "down"))))))
  }

  /** A space in the method ends the word, as in `connect inflight`. */
  function MethodWords(m: string): seq<string> {
    if m == "" then [] else Split(m, ' ')
  }

  function TargetLines(servers: seq<StreamUpstreamServer>): seq<Line> {
    if |servers| == 0 then [] else [Statement(INNER, ServerWords(servers[0]))] + TargetLines(servers[1..])
  }

  function AlgorithmLines(algorithm: string, method_: string): seq<Line> {
    When(algorithm != "", Statement(INNER, [algorithm] + MethodWords(method_)))
  }

  function UpstreamLines(u: StreamUpstream): seq<Line> {
    [Open(["upstream", u.name])] + (AlgorithmLines(u.algorithm, u.leastTimeMethod) + (TargetLines(u.servers) + [CLOSE]))
  }

  function ListenWord(l: StreamListen): string { (if l.address == "" then "" else l.address + ":") + l.port }

  function ListenLine(l: StreamListen): Line {
    Statement(INNER, ["listen", ListenWord(l)] + Flag(l.udp, "udp"))
  }

  const PROTOCOL_LINE := Statement(" " + INNER, ["proxy_protocol", "on"])

  function TimeoutLine(timeout: string): Line { Statement(INNER, ["proxy_timeout", timeout]) }

  function PassLine(address: string): Line { Line("\n" + INNER, ["proxy_pass", address], "", ';', "\n" + INNER) }

  const BIND_LINE := Statement("", ["proxy_bind", "$remote_addr", "transparent"])

  function ServerLines(s: StreamServer): seq<Line> {
    [Open(["server"]), ListenLine(s.listen)]
    + (When(s.proxyProtocol, PROTOCOL_LINE)
       + (When(s.proxyProtocolTimeout != "", TimeoutLine(s.proxyProtocolTimeout))
          + ([PassLine(s.proxyPassAddress)] + (When(s.proxyPassthrough, BIND_LINE) + [CLOSE]))))
  }

  function UpstreamsLines(us: seq<StreamUpstream>): seq<Line> {
    if |us| == 0 then [] else UpstreamLines(us[0]) + UpstreamsLines(us[1..])
  }

  function ServersLines(ss: seq<StreamServer>): seq<Line> {
    if |ss| == 0 then [] else ServerLines(ss[0]) + ServersLines(ss[1..])
  }

  function ConfigLines(cfg: StreamConfig): seq<Line> {
    When(cfg.resolver != "", Statement(LINE, ["resolver", cfg.resolver]))
    + (UpstreamsLines(cfg.upstreams) + ServersLines(cfg.servers))
  }

  const WARNING := "## WARNING: DO NOT EDIT" + " THIS FILE - ALL CHANGES" + " WILL BE LOST!        ###"
  const NOTICE := "## THE CONTENTS OF THIS" + " FILE ARE GENERATED AND" + " UPDATED AUTOMATICALLY ###"

  /** `templateStream`. */
  function Render(cfg: StreamConfig): string {
    "#" + WARNING + "\n" + ("#" + NOTICE + "\n" + (LinesText(ConfigLines(cfg)) + "\n"))
  }

  // ----- reading: characters to tokens to statements -----

  predicate Blank(c: char) { c == ' ' || c == '\t' || c == '\r' || c == '\n' }

  predicate Mark(c: char) { c == ';' || c == '{' || c == '}' }

  predicate IsWord(w: string) { |w| > 0 && forall c :: c in w ==> !Blank(c) && !Mark(c) && c != '#' }

  function Flush(word: string): seq<string> { if word == "" then [] else [word] }

  function SkipLine(s: string): (r: string)
    ensures |r| <= |s|
  {
    if |s| == 0 || s[0] == '\n' then s else SkipLine(s[1..])
  }

  /** Tokens of the text, with `word` read so far; a `#` that starts a word starts a comment. */
  function Lex(s: string, word: string): seq<string>
    decreases |s|
  {
    if |s| == 0 then Flush(word)
    else if Blank(s[0]) then Flush(word) + Lex(s[1..], "")
    else if Mark(s[0]) then Flush(word) + [[s[0]]] + Lex(s[1..], "")
    else if s[0] == '#' && word == "" then Lex(SkipLine(s[1..]), "")
    else Lex(s[1..], word + [s[0]])
  }

  datatype Stmt = Stmt(words: seq<string>, mark: char)

  predicate IsMark(t: string) { |t| == 1 && Mark(t[0]) }

  /** Statements of a token sequence, with the words read so far. */
  function Statements(ts: seq<string>, words: seq<string>): seq<Stmt> {
    if |ts| == 0 then []
    else if IsMark(ts[0]) then [Stmt(words, ts[0][0])] + Statements(ts[1..], [])
    else Statements(ts[1..], words + [ts[0]])
  }

  // ----- reading: statements to a configuration -----

  function TakeOpt(prefix: string, words: seq<string>): (string, seq<string>) {
    if |words| > 0 && HasPrefix(words[0], prefix) then (words[0][|prefix|..], words[1..]) else ("", words)
  }

  function TakeFlag(word: string, words: seq<string>): (bool, seq<string>) {
    if |words| > 0 && words[0] == word then (true, words[1..]) else (false, words)
  }

  function ReadUpstreamServer(words: seq<string>): Option<StreamUpstreamServer> {
    if |words| < 2 then None
    else
      var (weight, w1) := TakeOpt("weight=", words[2..]);
      var (maxConns, w2) := TakeOpt("max_conns=", w1);
      var (maxFails, w3) := TakeOpt("max_fails=", w2);
      var (failTimeout, w4) := TakeOpt("fail_timeout=", w3);
      var (backup, w5) := TakeFlag("backup", w4);
      var (down, w6) := TakeFlag("down", w5);
      if w6 == [] then Some(StreamUpstreamServer(words[1], weight, maxConns, maxFails, failTimeout, backup, down))
      else None
  }

  predicate Starts(ss: seq<Stmt>, word: string, mark: char) {
    |ss| > 0 && ss[0].mark == mark && |ss[0].words| > 0 && ss[0].words[0] == word
  }

  function ReadUpstreamServers(ss: seq<Stmt>): (r: Option<(seq<StreamUpstreamServer>, seq<Stmt>)>)
    ensures r.Some? ==> |r.value.1| <= |ss|
  {
    if !Starts(ss, "server", ';') then Some(([], ss))
    else
      match (ReadUpstreamServer(ss[0].words), ReadUpstreamServers(ss[1..]))
      case (Some(s), Some((more, rest))) => Some(([s] + more, rest))
      case _ => None
  }

  /** The balancing algorithm is any other statement at the head of the block. */
  function ReadAlgorithm(ss: seq<Stmt>): (string, string, seq<Stmt>) {
    if |ss| > 0 && ss[0].mark == ';' && |ss[0].words| > 0 && ss[0].words[0] != "server"
    then (ss[0].words[0], Join(ss[0].words[1..], ' '), ss[1..])
    else ("", "", ss)
  }

  function ReadUpstream(ss: seq<Stmt>): (r: Option<(StreamUpstream, seq<Stmt>)>)
    ensures r.Some? ==> |r.value.1| < |ss|
  {
    if !Starts(ss, "upstream", '{') || |ss[0].words| != 2 then None
    else
      var (algorithm, method_, body) := ReadAlgorithm(ss[1..]);
      match ReadUpstreamServers(body)
      case Some((servers, rest)) =>
        if |rest| > 0 && rest[0] == Stmt([], '}')
        then Some((StreamUpstream(ss[0].words[1], algorithm, method_, servers), rest[1..]))
        else None
      case None => None
  }

  function ReadUpstreams(ss: seq<Stmt>): Option<(seq<StreamUpstream>, seq<Stmt>)>
    decreases |ss|
  {
    if !Starts(ss, "upstream", '{') then Some(([], ss))
    else
      match ReadUpstream(ss)
      case None => None
      case Some((u, rest)) =>
        match ReadUpstreams(rest)
        case Some((more, last)) => Some(([u] + more, last))
        case None => None
  }

  function LastColon(w: string): (r: Option<nat>)
    ensures r.Some? ==> r.value < |w| && w[r.value] == ':'
  {
    if |w| == 0 then None
    else if w[|w| - 1] == ':' then Some(|w| - 1)
    else LastColon(w[..|w| - 1])
  }

  /** A listen address is separated from its port by the last colon. */
  function ReadListen(w: string, udp: bool): StreamListen {
    match LastColon(w)
    case Some(i) => StreamListen(w[..i], w[i + 1..], udp)
    case None => StreamListen("", w, udp)
  }

  function TakeStatement(word: string, ss: seq<Stmt>): (string, seq<Stmt>) {
    if Starts(ss, word, ';') && |ss[0].words| == 2 then (ss[0].words[1], ss[1..]) else ("", ss)
  }

  datatype Proxy = Proxy(protocol: bool, passthrough: bool, timeout: string, pass: string)

  predicate OnOrNone(v: string) { v == "" || v == "on" }

  predicate Binds(ss: seq<Stmt>) { |ss| > 0 && ss[0] == Stmt(["proxy_bind", "$remote_addr", "transparent"], ';') }

  /** What follows the listen statement, up to the closing brace. */
  function ReadProxy(ss: seq<Stmt>): (r: Option<(Proxy, seq<Stmt>)>)
    ensures r.Some? ==> |r.value.1| < |ss|
  {
    var (protocol, s1) := TakeStatement("proxy_protocol", ss);
    var (timeout, s2) := TakeStatement("proxy_timeout", s1);
    var (pass, s3) := TakeStatement("proxy_pass", s2);
    var bind := Binds(s3);
    var s4 := if bind then s3[1..] else s3;
    if |s4| > 0 && s4[0] == Stmt([], '}') && OnOrNone(protocol)
    then Some((Proxy(protocol != "", bind, timeout, pass), s4[1..]))
    else None
  }

  function ReadListenWords(words: seq<string>): Option<StreamListen> {
    if |words| < 2 || words[0] != "listen" then None
    else
      var (udp, rest) := TakeFlag("udp", words[2..]);
      if rest == [] then Some(ReadListen(words[1], udp)) else None
  }

  function ReadServer(ss: seq<Stmt>): (r: Option<(StreamServer, seq<Stmt>)>)
    ensures r.Some? ==> |r.value.1| < |ss|
  {
    if |ss| < 2 || ss[0] != Stmt(["server"], '{') || ss[1].mark != ';' then None
    else
      match (ReadListenWords(ss[1].words), ReadProxy(ss[2..]))
      case (Some(l), Some((p, rest))) => Some((StreamServer(l, p.protocol, p.passthrough, p.timeout, p.pass), rest))
      case _ => None
  }

  function ReadServers(ss: seq<Stmt>): Option<(seq<StreamServer>, seq<Stmt>)>
    decreases |ss|
  {
    if !Starts(ss, "server", '{') then Some(([], ss))
    else
      match ReadServer(ss)
      case None => None
      case Some((s, rest)) =>
        match ReadServers(rest)
        case Some((more, last)) => Some(([s] + more, last))
        case None => None
  }

  function ReadConfig(ss: seq<Stmt>): Option<StreamConfig> {
    var (resolver, s1) := TakeStatement("resolver", ss);
    match ReadUpstreams(s1)
    case None => None
    case Some((upstreams, s2)) =>
      match ReadServers(s2)
      case Some((servers, rest)) => if rest == [] then Some(StreamConfig(resolver, upstreams, servers)) else None
      case None => None
  }

  function Read(text: string): Option<StreamConfig> { ReadConfig(Statements(Lex(text, ""), [])) }
}
