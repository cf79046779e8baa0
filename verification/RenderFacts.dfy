/** Printing a stream configuration loses nothing: the reader gets back the configuration that was printed. */
module RenderFacts {
  import opened Text
  import opened Kube
  import Annotations
  import opened Topology
  import opened Stream
  import opened StreamFacts
  import opened Render

  // ----- characters to tokens -----

  predicate Blanks(s: string) { forall c :: c in s ==> Blank(c) }

  /** The text that follows ends the word before it. */
  predicate Ends(rest: string) { |rest| > 0 && (Blank(rest[0]) || Mark(rest[0])) }

  lemma {:induction false} LexWord(w: string, word: string, rest: string)
    requires forall c :: c in w ==> !Blank(c) && !Mark(c) && c != '#'
    ensures Lex(w + rest, word) == Lex(rest, word + w)
    decreases |w|
  {
    if w == "" {
      assert w + rest == rest && word + w == word;
    } else {
      assert (w + rest)[0] == w[0] && (w + rest)[1..] == w[1..] + rest;
      LexWord(w[1..], word + [w[0]], rest);
      assert word + [w[0]] + w[1..] == word + w;
    }
  }

  lemma {:induction false} LexBlanks(b: string, rest: string)
    requires Blanks(b)
    ensures Lex(b + rest, "") == Lex(rest, "")
    decreases |b|
  {
    if b == "" {
      assert b + rest == rest;
    } else {
      assert (b + rest)[0] == b[0] && (b + rest)[1..] == b[1..] + rest;
      LexBlanks(b[1..], rest);
    }
  }

  lemma LexOneWord(w: string, rest: string)
    requires IsWord(w) && Ends(rest)
    ensures Lex(w + rest, "") == [w] + Lex(rest, "")
  {
    LexWord(w, "", rest);
    assert "" + w == w;
    if Mark(rest[0]) {
      assert Lex(rest, w) == [w] + [[rest[0]]] + Lex(rest[1..], "");
      assert Lex(rest, "") == [[rest[0]]] + Lex(rest[1..], "");
    }
  }

  predicate Words(ws: seq<string>) { forall i :: 0 <= i < |ws| ==> IsWord(ws[i]) }

  lemma {:induction false} LexJoin(ws: seq<string>, rest: string)
    requires Words(ws) && Ends(rest)
    ensures Lex(Join(ws, ' ') + rest, "") == ws + Lex(rest, "")
    decreases |ws|
  {
    if |ws| == 0 {
      assert Join(ws, ' ') + rest == rest;
    } else if |ws| == 1 {
      LexOneWord(ws[0], rest);
    } else {
      var more := Join(ws[1..], ' ') + rest;
      assert Join(ws, ' ') + rest == ws[0] + (" " + more);
      LexOneWord(ws[0], " " + more);
      LexBlanks(" ", more);
      LexJoin(ws[1..], rest);
      assert ws == [ws[0]] + ws[1..];
    }
  }

  predicate OkLine(l: Line) { Blanks(l.indent) && Blanks(l.gap) && Blanks(l.trail) && Words(l.words) && Mark(l.mark) }

  predicate OkLines(ls: seq<Line>) { forall i :: 0 <= i < |ls| ==> OkLine(ls[i]) }

  lemma {:induction false} LexMark(mark: char, trail: string, rest: string)
    requires Mark(mark) && Blanks(trail)
    ensures Lex([mark] + (trail + rest), "") == [[mark]] + Lex(rest, "")
  {
    assert ([mark] + (trail + rest))[1..] == trail + rest;
    LexBlanks(trail, rest);
  }

  lemma {:induction false} LexLine(l: Line, rest: string)
    requires OkLine(l)
    ensures Lex(LineText(l) + rest, "") == l.words + ([[l.mark]] + Lex(rest, ""))
  {
    var tail := [l.mark] + (l.trail + rest);
    assert LineText(l) + rest == l.indent + (Join(l.words, ' ') + (l.gap + tail));
    LexBlanks(l.indent, Join(l.words, ' ') + (l.gap + tail));
    LexJoin(l.words, l.gap + tail);
    LexBlanks(l.gap, tail);
    LexMark(l.mark, l.trail, rest);
  }

  // ----- tokens to statements -----

  lemma {:induction false} ReadStatement(words: seq<string>, acc: seq<string>, mark: char, rest: seq<string>)
    requires Words(words) && Mark(mark)
    ensures Statements(words + ([[mark]] + rest), acc) == [Stmt(acc + words, mark)] + Statements(rest, [])
    decreases |words|
  {
    var all := words + ([[mark]] + rest);
    if words == [] {
      assert all[0] == [mark] && all[1..] == rest && acc + words == acc;
    } else {
      assert all[0] == words[0] && all[1..] == words[1..] + ([[mark]] + rest);
      assert !IsMark(words[0]) by {
        assert words[0][0] in words[0];
      }
      ReadStatement(words[1..], acc + [words[0]], mark, rest);
      assert acc + [words[0]] + words[1..] == acc + words;
    }
  }

  function StmtsOf(ls: seq<Line>): (ss: seq<Stmt>)
    ensures |ss| == |ls|
  {
    seq(|ls|, i requires 0 <= i < |ls| => Stmt(ls[i].words, ls[i].mark))
  }

  lemma {:induction false} ReadLines(ls: seq<Line>)
    requires OkLines(ls)
    ensures Statements(Lex(LinesText(ls) + "\n", ""), []) == StmtsOf(ls)
    decreases |ls|
  {
    if ls == [] {
      LexBlanks("\n", "");
      assert LinesText(ls) + "\n" == "\n" + "";
    } else {
      var rest := LinesText(ls[1..]) + "\n";
      assert LinesText(ls) + "\n" == LineText(ls[0]) + rest;
      LexLine(ls[0], rest);
      ReadStatement(ls[0].words, [], ls[0].mark, Lex(rest, ""));
      ReadLines(ls[1..]);
      assert [] + ls[0].words == ls[0].words;
    }
  }

  lemma {:induction false} SkipComment(body: string, rest: string)
    requires '\n' !in body
    ensures SkipLine(body + ("\n" + rest)) == "\n" + rest
    decreases |body|
  {
    var s := body + ("\n" + rest);
    if body == "" {
      assert s == "\n" + rest;
    } else {
      assert s[0] == body[0] && s[0] in body && s[1..] == body[1..] + ("\n" + rest);
      SkipComment(body[1..], rest);
    }
  }

  lemma LexComment(body: string, rest: string)
    requires '\n' !in body
    ensures Lex("#" + body + "\n" + rest, "") == Lex(rest, "")
  {
    var s := "#" + body + "\n" + rest;
    assert s[0] == '#' && s[1..] == body + ("\n" + rest);
    SkipComment(body, rest);
    LexBlanks("\n", rest);
  }

  /** The two comment lines that head every file. */
  function Headed(first: string, second: string, body: string): string {
    "#" + first + "\n" + ("#" + second + "\n" + body)
  }

  lemma LexHeaded(first: string, second: string, body: string)
    requires '\n' !in first && '\n' !in second
    ensures Lex(Headed(first, second, body), "") == Lex(body, "")
  {
    LexComment(first, "#" + second + "\n" + body);
    LexComment(second, body);
  }

  lemma WarningIsLine()
    ensures '\n' !in WARNING
  {
    assert '\n' !in "## WARNING: DO NOT EDIT" && '\n' !in " THIS FILE - ALL CHANGES"
           && '\n' !in " WILL BE LOST!        ###";
  }

  lemma NoticeIsLine()
    ensures '\n' !in NOTICE
  {
    assert '\n' !in "## THE CONTENTS OF THIS" && '\n' !in " FILE ARE GENERATED AND"
           && '\n' !in " UPDATED AUTOMATICALLY ###";
  }

  lemma {:induction false} ReadText(cfg: StreamConfig)
    requires OkLines(ConfigLines(cfg))
    ensures Statements(Lex(Render.Render(cfg), ""), []) == StmtsOf(ConfigLines(cfg))
  {
    var body := LinesText(ConfigLines(cfg)) + "\n";
    WarningIsLine();
    NoticeIsLine();
    var first, second := WARNING, NOTICE;
    assert Render.Render(cfg) == Headed(first, second, body);
    LexHeaded(first, second, body);
    ReadLines(ConfigLines(cfg));
  }

  // ----- the words of one statement -----

  /** The first word, if any, does not begin with `prefix`. */
  predicate Without(prefix: string, ws: seq<string>) { ws == [] || !HasPrefix(ws[0], prefix) }

  lemma WithoutOpt(prefix: string, other: string, v: string, ws: seq<string>, i: nat)
    requires i < |prefix| && i < |other| && prefix[i] != other[i] && Without(prefix, ws)
    ensures Without(prefix, Opt(other, v) + ws)
  {
    if v != "" {
      assert (other + v)[i] == other[i];
    }
  }

  lemma WithoutFlag(prefix: string, word: string, on: bool, ws: seq<string>, i: nat)
    requires i < |prefix| && i < |word| && prefix[i] != word[i] && Without(prefix, ws)
    ensures Without(prefix, Flag(on, word) + ws)
  {
  }

  lemma TakeOptBack(prefix: string, v: string, ws: seq<string>)
    requires Without(prefix, ws)
    ensures TakeOpt(prefix, Opt(prefix, v) + ws) == (v, ws)
  {
    if v == "" {
      assert Opt(prefix, v) + ws == ws;
    } else {
      assert (prefix + v)[|prefix|..] == v;
    }
  }

  lemma TakeFlagBack(word: string, on: bool, ws: seq<string>)
    requires ws == [] || ws[0] != word
    ensures TakeFlag(word, Flag(on, word) + ws) == (on, ws)
  {
    if !on {
      assert Flag(on, word) + ws == ws;
    }
  }

  lemma FlagsBack(backup: bool, down: bool)
    ensures TakeFlag("backup", Flag(backup, "backup") + Flag(down, "down")) == (backup, Flag(down, "down"))
    ensures TakeFlag("down", Flag(down, "down")) == (down, [])
  {
    TakeFlagBack("backup", backup, Flag(down, "down"));
    TakeFlagBack("down", down, []);
    assert Flag(down, "down") + [] == Flag(down, "down");
  }

  lemma FlagsWithout(prefix: string, backup: bool, down: bool)
    requires |prefix| > 0 && prefix[0] != 'b' && prefix[0] != 'd'
    ensures Without(prefix, Flag(backup, "backup") + Flag(down, "down"))
  {
    WithoutFlag(prefix, "down", down, [], 0);
    assert Flag(down, "down") + [] == Flag(down, "down");
    WithoutFlag(prefix, "backup", backup, Flag(down, "down"), 0);
  }

  lemma ServerBack(s: StreamUpstreamServer)
    ensures ReadUpstreamServer(ServerWords(s)) == Some(s)
  {
    var w5 := Flag(s.backup, "backup") + Flag(s.down, "down");
    var w4 := Opt("fail_timeout=", s.failTimeout) + w5;
    var w3 := Opt("max_fails=", s.maxFails) + w4;
    var w2 := Opt("max_conns=", s.maxConns) + w3;
    var w1 := Opt("weight=", s.weight) + w2;
    assert ServerWords(s)[2..] == w1;
    FlagsBack(s.backup, s.down);
    FlagsWithout("fail_timeout=", s.backup, s.down);
    TakeOptBack("fail_timeout=", s.failTimeout, w5);
    FlagsWithout("max_fails=", s.backup, s.down);
    WithoutOpt("max_fails=", "fail_timeout=", s.failTimeout, w5, 0);
    TakeOptBack("max_fails=", s.maxFails, w4);
    FlagsWithout("max_conns=", s.backup, s.down);
    WithoutOpt("max_conns=", "fail_timeout=", s.failTimeout, w5, 0);
    WithoutOpt("max_conns=", "max_fails=", s.maxFails, w4, 4);
    TakeOptBack("max_conns=", s.maxConns, w3);
    FlagsWithout("weight=", s.backup, s.down);
    WithoutOpt("weight=", "fail_timeout=", s.failTimeout, w5, 0);
    WithoutOpt("weight=", "max_fails=", s.maxFails, w4, 0);
    WithoutOpt("weight=", "max_conns=", s.maxConns, w3, 0);
    TakeOptBack("weight=", s.weight, w2);
  }

  lemma {:induction false} NoColon(w: string)
    requires ':' !in w
    ensures LastColon(w) == None
  {
    if |w| > 0 {
      NoColon(w[..|w| - 1]);
    }
  }

  lemma {:induction false} ColonBeforePort(address: string, port: string)
    requires ':' !in port
    ensures LastColon(address + ":" + port) == Some(|address|)
    decreases |port|
  {
    var w := address + ":" + port;
    if |port| > 0 {
      var n := |port| - 1;
      assert w[|w| - 1] == port[n] && port[n] in port;
      assert w[..|w| - 1] == address + ":" + port[..n];
      ColonBeforePort(address, port[..n]);
    }
  }

  lemma ListenBack(l: StreamListen)
    requires ':' !in l.port
    ensures ReadListen(ListenWord(l), l.udp) == l
  {
    if l.address == "" {
      assert ListenWord(l) == l.port;
      NoColon(l.port);
    } else {
      ColonBeforePort(l.address, l.port);
      var w := l.address + ":" + l.port;
      assert w[..|l.address|] == l.address && w[|l.address| + 1..] == l.port;
    }
  }

  // ----- what can be printed without loss -----

  predicate WordOrNone(w: string) { w == "" || IsWord(w) }

  predicate PrintableTarget(s: StreamUpstreamServer) {
    IsWord(s.address) && WordOrNone(s.weight) && WordOrNone(s.maxConns) && WordOrNone(s.maxFails)
    && WordOrNone(s.failTimeout)
  }

  predicate PrintableUpstream(u: StreamUpstream) {
    && IsWord(u.name)
    && WordOrNone(u.algorithm) && u.algorithm != "server"
    && (u.leastTimeMethod != "" ==> u.algorithm != "" && Words(Split(u.leastTimeMethod, ' ')))
    && forall i :: 0 <= i < |u.servers| ==> PrintableTarget(u.servers[i])
  }

  predicate PrintableServer(s: StreamServer) {
    && WordOrNone(s.listen.address) && IsWord(s.listen.port) && ':' !in s.listen.port
    && WordOrNone(s.proxyProtocolTimeout) && IsWord(s.proxyPassAddress)
  }

  predicate Printable(cfg: StreamConfig) {
    && WordOrNone(cfg.resolver)
    && (forall i :: 0 <= i < |cfg.upstreams| ==> PrintableUpstream(cfg.upstreams[i]))
    && (forall i :: 0 <= i < |cfg.servers| ==> PrintableServer(cfg.servers[i]))
  }

  // ----- blocks -----

  lemma {:induction false} StmtsConcat(x: seq<Line>, y: seq<Line>)
    ensures StmtsOf(x + y) == StmtsOf(x) + StmtsOf(y)
  {
  }

  function TargetStmts(servers: seq<StreamUpstreamServer>): seq<Stmt> {
    if |servers| == 0 then [] else [Stmt(ServerWords(servers[0]), ';')] + TargetStmts(servers[1..])
  }

  lemma {:induction false} TargetStarts(s: StreamUpstreamServer, ss: seq<Stmt>)
    ensures Starts([Stmt(ServerWords(s), ';')] + ss, "server", ';')
  {
  }

  lemma {:induction false} TargetBack(s: StreamUpstreamServer, ss: seq<Stmt>, more: seq<StreamUpstreamServer>,
                                      rest: seq<Stmt>)
    requires ReadUpstreamServers(ss) == Some((more, rest))
    ensures ReadUpstreamServers([Stmt(ServerWords(s), ';')] + ss) == Some(([s] + more, rest))
  {
    TargetStarts(s, ss);
    ServerBack(s);
    assert ([Stmt(ServerWords(s), ';')] + ss)[1..] == ss;
  }

  lemma {:induction false} TargetsSplit(servers: seq<StreamUpstreamServer>, rest: seq<Stmt>)
    requires |servers| > 0
    ensures [servers[0]] + servers[1..] == servers
    ensures TargetStmts(servers) + rest ==
            [Stmt(ServerWords(servers[0]), ';')] + (TargetStmts(servers[1..]) + rest)
  {
  }

  lemma {:induction false} TargetsBack(servers: seq<StreamUpstreamServer>, rest: seq<Stmt>)
    requires !Starts(rest, "server", ';')
    ensures ReadUpstreamServers(TargetStmts(servers) + rest) == Some((servers, rest))
    decreases |servers|
  {
    if servers == [] {
      assert TargetStmts(servers) + rest == rest;
    } else {
      TargetsBack(servers[1..], rest);
      TargetBack(servers[0], TargetStmts(servers[1..]) + rest, servers[1..], rest);
      TargetsSplit(servers, rest);
    }
  }

  function AlgorithmStmts(u: StreamUpstream): seq<Stmt> {
    if u.algorithm == "" then [] else [Stmt([u.algorithm] + MethodWords(u.leastTimeMethod), ';')]
  }

  lemma AlgorithmBack(u: StreamUpstream, rest: seq<Stmt>)
    requires u.algorithm != "server" && (u.leastTimeMethod != "" ==> u.algorithm != "")
    requires |rest| > 0 && (rest[0].mark == '}' || Starts(rest, "server", ';'))
    ensures ReadAlgorithm(AlgorithmStmts(u) + rest) == (u.algorithm, u.leastTimeMethod, rest)
  {
    if u.algorithm == "" {
      assert AlgorithmStmts(u) + rest == rest;
    } else {
      var words := [u.algorithm] + MethodWords(u.leastTimeMethod);
      assert words[1..] == MethodWords(u.leastTimeMethod);
      JoinSplit(u.leastTimeMethod, ' ');
      assert (AlgorithmStmts(u) + rest)[1..] == rest;
    }
  }

  lemma AlgorithmLinesRead(u: StreamUpstream)
    ensures StmtsOf(AlgorithmLines(u.algorithm, u.leastTimeMethod)) == AlgorithmStmts(u)
  {
  }

  lemma {:induction false} TargetLinesRead(servers: seq<StreamUpstreamServer>)
    ensures StmtsOf(TargetLines(servers)) == TargetStmts(servers)
  {
    if |servers| > 0 {
      TargetLinesRead(servers[1..]);
      StmtsConcat([Statement(INNER, ServerWords(servers[0]))], TargetLines(servers[1..]));
    }
  }

  lemma StmtsOfFour(a: seq<Line>, b: seq<Line>, c: seq<Line>, d: seq<Line>)
    ensures StmtsOf(a + (b + (c + d))) == StmtsOf(a) + (StmtsOf(b) + (StmtsOf(c) + StmtsOf(d)))
  {
    StmtsConcat(c, d);
    StmtsConcat(b, c + d);
    StmtsConcat(a, b + (c + d));
  }

  lemma {:induction false} UpstreamStmts(u: StreamUpstream)
    ensures StmtsOf(UpstreamLines(u)) ==
            [Stmt(["upstream", u.name], '{')] + (AlgorithmStmts(u) + (TargetStmts(u.servers) + [Stmt([], '}')]))
  {
    AlgorithmLinesRead(u);
    TargetLinesRead(u.servers);
    StmtsOfFour([Open(["upstream", u.name])], AlgorithmLines(u.algorithm, u.leastTimeMethod), TargetLines(u.servers),
                [CLOSE]);
  }

  lemma {:induction false} UpstreamStmtsThen(u: StreamUpstream, rest: seq<Stmt>)
    ensures StmtsOf(UpstreamLines(u)) + rest ==
            [Stmt(["upstream", u.name], '{')]
            + (AlgorithmStmts(u) + (TargetStmts(u.servers) + ([Stmt([], '}')] + rest)))
  {
    UpstreamStmts(u);
    var targets, close := TargetStmts(u.servers), [Stmt([], '}')];
    assert AlgorithmStmts(u) + (targets + close) + rest == AlgorithmStmts(u) + (targets + (close + rest));
  }

  lemma {:induction false} TargetsStart(servers: seq<StreamUpstreamServer>, rest: seq<Stmt>)
    ensures var body := TargetStmts(servers) + ([Stmt([], '}')] + rest);
            body[0].mark == '}' || Starts(body, "server", ';')
  {
  }

  /** A block read part by part. */
  lemma {:induction false} UpstreamParts(name: string, tail: seq<Stmt>, algorithm: string, method_: string,
                                         body: seq<Stmt>,
                      servers: seq<StreamUpstreamServer>, rest: seq<Stmt>)
    requires ReadAlgorithm(tail) == (algorithm, method_, body)
    requires ReadUpstreamServers(body) == Some((servers, [Stmt([], '}')] + rest))
    ensures ReadUpstream([Stmt(["upstream", name], '{')] + tail) ==
            Some((StreamUpstream(name, algorithm, method_, servers), rest))
  {
    var ss := [Stmt(["upstream", name], '{')] + tail;
    assert ss[1..] == tail;
    assert ([Stmt([], '}')] + rest)[1..] == rest;
  }

  lemma {:induction false} UpstreamBack(u: StreamUpstream, rest: seq<Stmt>)
    requires PrintableUpstream(u)
    ensures ReadUpstream(StmtsOf(UpstreamLines(u)) + rest) == Some((u, rest))
  {
    UpstreamStmtsThen(u, rest);
    var closed := [Stmt([], '}')] + rest;
    var body := TargetStmts(u.servers) + closed;
    TargetsStart(u.servers, rest);
    AlgorithmBack(u, body);
    TargetsBack(u.servers, closed);
    UpstreamParts(u.name, AlgorithmStmts(u) + body, u.algorithm, u.leastTimeMethod, body, u.servers, rest);
  }

  lemma {:induction false} UpstreamsParts(ss: seq<Stmt>, u: StreamUpstream, more: seq<Stmt>, us: seq<StreamUpstream>,
                                          rest: seq<Stmt>)
    requires Starts(ss, "upstream", '{') && ReadUpstream(ss) == Some((u, more))
             && ReadUpstreams(more) == Some((us, rest))
    ensures ReadUpstreams(ss) == Some(([u] + us, rest))
  {
  }

  lemma UpstreamStarts(u: StreamUpstream, more: seq<Stmt>)
    ensures Starts(StmtsOf(UpstreamLines(u)) + more, "upstream", '{')
  {
    UpstreamStmts(u);
  }

  function Flat(blocks: seq<seq<Stmt>>): seq<Stmt> {
    if |blocks| == 0 then [] else blocks[0] + Flat(blocks[1..])
  }

  /** Whatever follows it, the block reads as this upstream. */
  ghost predicate ReadsAsUpstream(block: seq<Stmt>, u: StreamUpstream) {
    forall more :: Starts(block + more, "upstream", '{') && ReadUpstream(block + more) == Some((u, more))
  }

  lemma {:induction false} NextUpstream(block: seq<Stmt>, u: StreamUpstream, more: seq<Stmt>, us: seq<StreamUpstream>,
                                        rest: seq<Stmt>)
    requires ReadsAsUpstream(block, u) && ReadUpstreams(more) == Some((us, rest))
    ensures ReadUpstreams(block + more) == Some(([u] + us, rest))
  {
    UpstreamsParts(block + more, u, more, us, rest);
  }

  lemma FlatThen(blocks: seq<seq<Stmt>>, rest: seq<Stmt>)
    requires |blocks| > 0
    ensures Flat(blocks) + rest == blocks[0] + (Flat(blocks[1..]) + rest)
  {
  }

  ghost predicate AllReadAsUpstreams(blocks: seq<seq<Stmt>>, us: seq<StreamUpstream>) {
    |blocks| == |us| && forall i :: 0 <= i < |us| ==> ReadsAsUpstream(blocks[i], us[i])
  }

  lemma {:induction false} AllReadTail(blocks: seq<seq<Stmt>>, us: seq<StreamUpstream>)
    requires |us| > 0 && AllReadAsUpstreams(blocks, us)
    ensures ReadsAsUpstream(blocks[0], us[0]) && AllReadAsUpstreams(blocks[1..], us[1..])
  {
  }

  lemma {:induction false} UpstreamBlocksBack(blocks: seq<seq<Stmt>>, us: seq<StreamUpstream>, rest: seq<Stmt>)
    requires AllReadAsUpstreams(blocks, us) && !Starts(rest, "upstream", '{')
    ensures ReadUpstreams(Flat(blocks) + rest) == Some((us, rest))
    decreases |us|
  {
    if us == [] {
      assert Flat(blocks) + rest == rest;
    } else {
      AllReadTail(blocks, us);
      UpstreamBlocksBack(blocks[1..], us[1..], rest);
      NextUpstream(blocks[0], us[0], Flat(blocks[1..]) + rest, us[1..], rest);
      FlatThen(blocks, rest);
      assert [us[0]] + us[1..] == us;
    }
  }

  function UpstreamBlocks(us: seq<StreamUpstream>): (blocks: seq<seq<Stmt>>)
    ensures |blocks| == |us|
  {
    seq(|us|, i requires 0 <= i < |us| => StmtsOf(UpstreamLines(us[i])))
  }

  lemma {:induction false} UpstreamsFlat(us: seq<StreamUpstream>)
    ensures StmtsOf(UpstreamsLines(us)) == Flat(UpstreamBlocks(us))
  {
    if |us| > 0 {
      UpstreamsFlat(us[1..]);
      assert UpstreamBlocks(us)[1..] == UpstreamBlocks(us[1..]);
      StmtsConcat(UpstreamLines(us[0]), UpstreamsLines(us[1..]));
    }
  }

  lemma {:induction false} UpstreamReads(u: StreamUpstream)
    requires PrintableUpstream(u)
    ensures ReadsAsUpstream(StmtsOf(UpstreamLines(u)), u)
  {
    forall more
      ensures Starts(StmtsOf(UpstreamLines(u)) + more, "upstream", '{')
      ensures ReadUpstream(StmtsOf(UpstreamLines(u)) + more) == Some((u, more))
    {
      UpstreamStarts(u, more);
      UpstreamBack(u, more);
    }
  }

  lemma {:induction false} UpstreamsBack(us: seq<StreamUpstream>, rest: seq<Stmt>)
    requires forall i :: 0 <= i < |us| ==> PrintableUpstream(us[i])
    requires !Starts(rest, "upstream", '{')
    ensures ReadUpstreams(StmtsOf(UpstreamsLines(us)) + rest) == Some((us, rest))
  {
    forall i | 0 <= i < |us| ensures ReadsAsUpstream(UpstreamBlocks(us)[i], us[i]) {
      UpstreamReads(us[i]);
    }
    UpstreamsFlat(us);
    UpstreamBlocksBack(UpstreamBlocks(us), us, rest);
  }

  lemma TakeStatementBack(word: string, v: string, rest: seq<Stmt>)
    requires !Starts(rest, word, ';')
    ensures TakeStatement(word, (if v == "" then [] else [Stmt([word, v], ';')]) + rest) == (v, rest)
  {
    if v == "" {
      assert [] + rest == rest;
    }
  }

  function OptStmt(word: string, v: string): seq<Stmt> { if v == "" then [] else [Stmt([word, v], ';')] }

  function BindStmts(on: bool): seq<Stmt> {
    if on then [Stmt(["proxy_bind", "$remote_addr", "transparent"], ';')] else []
  }

  /** What follows the listen statement of a server block. */
  function ProxyStmts(s: StreamServer): seq<Stmt> {
    OptStmt("proxy_protocol", if s.proxyProtocol then "on" else "")
    + (OptStmt("proxy_timeout", s.proxyProtocolTimeout)
       + ([Stmt(["proxy_pass", s.proxyPassAddress], ';')] + (BindStmts(s.proxyPassthrough) + [Stmt([], '}')])))
  }

  lemma StmtsChain(a: seq<Line>, b: seq<Line>, c: seq<Line>, d: seq<Line>, e: seq<Line>)
    ensures StmtsOf(a + (b + (c + (d + e)))) == StmtsOf(a) + (StmtsOf(b) + (StmtsOf(c) + (StmtsOf(d) + StmtsOf(e))))
  {
    StmtsConcat(d, e);
    StmtsConcat(c, d + e);
    StmtsConcat(b, c + (d + e));
    StmtsConcat(a, b + (c + (d + e)));
  }

  lemma WhenStmt(on: bool, l: Line)
    ensures StmtsOf(When(on, l)) == if on then [Stmt(l.words, l.mark)] else []
  {
  }

  lemma BindLines(on: bool)
    ensures StmtsOf(When(on, BIND_LINE)) == BindStmts(on)
  {
    WhenStmt(on, BIND_LINE);
  }

  lemma TimeoutLines(timeout: string)
    ensures StmtsOf(When(timeout != "", TimeoutLine(timeout))) == OptStmt("proxy_timeout", timeout)
  {
    WhenStmt(timeout != "", TimeoutLine(timeout));
  }

  lemma ProtocolLines(on: bool)
    ensures StmtsOf(When(on, PROTOCOL_LINE)) == OptStmt("proxy_protocol", if on then "on" else "")
  {
    WhenStmt(on, PROTOCOL_LINE);
  }

  lemma PassLines(address: string)
    ensures StmtsOf([PassLine(address)]) == [Stmt(["proxy_pass", address], ';')]
    ensures StmtsOf([CLOSE]) == [Stmt([], '}')]
  {
  }

  lemma ProxyPart(s: StreamServer)
    ensures StmtsOf(When(s.proxyProtocol, PROTOCOL_LINE)
                    + (When(s.proxyProtocolTimeout != "", TimeoutLine(s.proxyProtocolTimeout))
                       + ([PassLine(s.proxyPassAddress)] + (When(s.proxyPassthrough, BIND_LINE) + [CLOSE])))) ==
                       ProxyStmts(s)
  {
    ProtocolLines(s.proxyProtocol);
    TimeoutLines(s.proxyProtocolTimeout);
    PassLines(s.proxyPassAddress);
    BindLines(s.proxyPassthrough);
    StmtsChain(When(s.proxyProtocol, PROTOCOL_LINE),
               When(s.proxyProtocolTimeout != "", TimeoutLine(s.proxyProtocolTimeout)),
               [PassLine(s.proxyPassAddress)], When(s.proxyPassthrough, BIND_LINE), [CLOSE]);
  }

  lemma ProxyLines(s: StreamServer)
    ensures StmtsOf(ServerLines(s)) ==
            [Stmt(["server"], '{'), Stmt(["listen", ListenWord(s.listen)] + Flag(s.listen.udp, "udp"), ';')]
            + ProxyStmts(s)
  {
    ProxyPart(s);
    StmtsConcat([Open(["server"]), ListenLine(s.listen)],
                When(s.proxyProtocol, PROTOCOL_LINE)
                + (When(s.proxyProtocolTimeout != "", TimeoutLine(s.proxyProtocolTimeout))
                   + ([PassLine(s.proxyPassAddress)] + (When(s.proxyPassthrough, BIND_LINE) + [CLOSE]))));
  }

  /** The reader's four steps, put together. */
  lemma ProxyAssembled(ss: seq<Stmt>, on: string, s1: seq<Stmt>, timeout: string, s2: seq<Stmt>, pass: string,
                       s3: seq<Stmt>, bind: bool, rest: seq<Stmt>)
    requires TakeStatement("proxy_protocol", ss) == (on, s1) && OnOrNone(on)
    requires TakeStatement("proxy_timeout", s1) == (timeout, s2)
    requires TakeStatement("proxy_pass", s2) == (pass, s3)
    requires Binds(s3) == bind && (if bind then s3[1..] else s3) == [Stmt([], '}')] + rest
    ensures ReadProxy(ss) == Some((Proxy(on != "", bind, timeout, pass), rest))
  {
    assert ([Stmt([], '}')] + rest)[1..] == rest;
  }

  lemma ProxyBack(s: StreamServer, rest: seq<Stmt>)
    requires s.proxyPassAddress != ""
    ensures ReadProxy(ProxyStmts(s) + rest) ==
            Some((Proxy(s.proxyProtocol, s.proxyPassthrough, s.proxyProtocolTimeout, s.proxyPassAddress), rest))
  {
    var s3 := BindStmts(s.proxyPassthrough) + ([Stmt([], '}')] + rest);
    var s2 := OptStmt("proxy_pass", s.proxyPassAddress) + s3;
    var s1 := OptStmt("proxy_timeout", s.proxyProtocolTimeout) + s2;
    var on := if s.proxyProtocol then "on" else "";
    assert ProxyStmts(s) + rest == OptStmt("proxy_protocol", on) + s1;
    TakeStatementBack("proxy_protocol", on, s1);
    TakeStatementBack("proxy_timeout", s.proxyProtocolTimeout, s2);
    TakeStatementBack("proxy_pass", s.proxyPassAddress, s3);
    BindBack(s.proxyPassthrough, rest);
    ProxyAssembled(ProxyStmts(s) + rest, on, s1, s.proxyProtocolTimeout, s2, s.proxyPassAddress, s3,
                   s.proxyPassthrough, rest);
  }

  lemma BindBack(on: bool, rest: seq<Stmt>)
    ensures var s3 := BindStmts(on) + ([Stmt([], '}')] + rest);
            && Binds(s3) == on
            && (if on then s3[1..] else s3) == [Stmt([], '}')] + rest
  {
    if !on {
      assert BindStmts(on) + ([Stmt([], '}')] + rest) == [Stmt([], '}')] + rest;
    }
  }

  lemma ListenWordsBack(l: StreamListen)
    requires ':' !in l.port
    ensures ReadListenWords(["listen", ListenWord(l)] + Flag(l.udp, "udp")) == Some(l)
  {
    var words := ["listen", ListenWord(l)] + Flag(l.udp, "udp");
    assert words[2..] == Flag(l.udp, "udp") + [];
    TakeFlagBack("udp", l.udp, []);
    ListenBack(l);
  }

  lemma {:induction false} ServerBlockBack(s: StreamServer, rest: seq<Stmt>)
    requires PrintableServer(s)
    ensures ReadServer(StmtsOf(ServerLines(s)) + rest) == Some((s, rest))
  {
    ProxyLines(s);
    var listen := Stmt(["listen", ListenWord(s.listen)] + Flag(s.listen.udp, "udp"), ';');
    var ss := [Stmt(["server"], '{'), listen] + ProxyStmts(s) + rest;
    assert ss[1] == listen && ss[2..] == ProxyStmts(s) + rest;
    ListenWordsBack(s.listen);
    ProxyBack(s, rest);
  }

  lemma {:induction false} ServersParts(ss: seq<Stmt>, s: StreamServer, more: seq<Stmt>, servers: seq<StreamServer>)
    requires Starts(ss, "server", '{') && ReadServer(ss) == Some((s, more)) && ReadServers(more) == Some((servers, []))
    ensures ReadServers(ss) == Some(([s] + servers, []))
  {
  }

  lemma ServerStarts(s: StreamServer, more: seq<Stmt>)
    ensures Starts(StmtsOf(ServerLines(s)) + more, "server", '{')
  {
    ProxyLines(s);
  }

  /** Whatever follows it, the block reads as this server. */
  ghost predicate ReadsAsServer(block: seq<Stmt>, s: StreamServer) {
    forall more :: Starts(block + more, "server", '{') && ReadServer(block + more) == Some((s, more))
  }

  lemma {:induction false} ServerBlocksBack(blocks: seq<seq<Stmt>>, servers: seq<StreamServer>)
    requires |blocks| == |servers| && forall i :: 0 <= i < |servers| ==> ReadsAsServer(blocks[i], servers[i])
    ensures ReadServers(Flat(blocks)) == Some((servers, []))
    decreases |servers|
  {
    if servers != [] {
      var more := Flat(blocks[1..]);
      ServerBlocksBack(blocks[1..], servers[1..]);
      assert ReadsAsServer(blocks[0], servers[0]);
      ServersParts(blocks[0] + more, servers[0], more, servers[1..]);
      assert [servers[0]] + servers[1..] == servers;
    }
  }

  function ServerBlocks(servers: seq<StreamServer>): (blocks: seq<seq<Stmt>>)
    ensures |blocks| == |servers|
  {
    seq(|servers|, i requires 0 <= i < |servers| => StmtsOf(ServerLines(servers[i])))
  }

  lemma {:induction false} ServersFlat(servers: seq<StreamServer>)
    ensures StmtsOf(ServersLines(servers)) == Flat(ServerBlocks(servers))
  {
    if |servers| > 0 {
      ServersFlat(servers[1..]);
      assert ServerBlocks(servers)[1..] == ServerBlocks(servers[1..]);
      StmtsConcat(ServerLines(servers[0]), ServersLines(servers[1..]));
    }
  }

  lemma {:induction false} ServerReads(s: StreamServer)
    requires PrintableServer(s)
    ensures ReadsAsServer(StmtsOf(ServerLines(s)), s)
  {
    forall more
      ensures Starts(StmtsOf(ServerLines(s)) + more, "server", '{')
      ensures ReadServer(StmtsOf(ServerLines(s)) + more) == Some((s, more))
    {
      ServerStarts(s, more);
      ServerBlockBack(s, more);
    }
  }

  lemma {:induction false} ServersBack(servers: seq<StreamServer>)
    requires forall i :: 0 <= i < |servers| ==> PrintableServer(servers[i])
    ensures ReadServers(StmtsOf(ServersLines(servers))) == Some((servers, []))
  {
    forall i | 0 <= i < |servers| ensures ReadsAsServer(ServerBlocks(servers)[i], servers[i]) {
      ServerReads(servers[i]);
    }
    ServersFlat(servers);
    ServerBlocksBack(ServerBlocks(servers), servers);
  }

  lemma {:induction false} ServersStart(servers: seq<StreamServer>)
    ensures !Starts(StmtsOf(ServersLines(servers)), "upstream", '{')
  {
    if servers != [] {
      StmtsConcat(ServerLines(servers[0]), ServersLines(servers[1..]));
      ProxyLines(servers[0]);
    }
  }

  lemma {:induction false} BlocksStart(us: seq<StreamUpstream>, servers: seq<StreamServer>)
    ensures !Starts(StmtsOf(UpstreamsLines(us)) + StmtsOf(ServersLines(servers)), "resolver", ';')
  {
    if us != [] {
      StmtsConcat(UpstreamLines(us[0]), UpstreamsLines(us[1..]));
      UpstreamStmts(us[0]);
    } else if servers != [] {
      StmtsConcat(ServerLines(servers[0]), ServersLines(servers[1..]));
      ProxyLines(servers[0]);
    }
  }

  lemma {:induction false} ConfigBack(cfg: StreamConfig)
    requires Printable(cfg)
    ensures ReadConfig(StmtsOf(ConfigLines(cfg))) == Some(cfg)
  {
    var head := When(cfg.resolver != "", Statement(LINE, ["resolver", cfg.resolver]));
    var us, servers := StmtsOf(UpstreamsLines(cfg.upstreams)), StmtsOf(ServersLines(cfg.servers));
    assert StmtsOf(head) == OptStmt("resolver", cfg.resolver);
    StmtsConcat(UpstreamsLines(cfg.upstreams), ServersLines(cfg.servers));
    StmtsConcat(head, UpstreamsLines(cfg.upstreams) + ServersLines(cfg.servers));
    BlocksStart(cfg.upstreams, cfg.servers);
    TakeStatementBack("resolver", cfg.resolver, us + servers);
    ServersStart(cfg.servers);
    UpstreamsBack(cfg.upstreams, servers);
    ServersBack(cfg.servers);
  }

  // ----- the lines of a printable configuration -----

  lemma OkConcat(x: seq<Line>, y: seq<Line>)
    requires OkLines(x) && OkLines(y)
    ensures OkLines(x + y)
  {
  }

  lemma OptWords(prefix: string, v: string, ws: seq<string>)
    requires IsWord(prefix) && WordOrNone(v) && Words(ws)
    ensures Words(Opt(prefix, v) + ws)
  {
  }

  lemma FlagNamesOk()
    ensures IsWord("backup") && IsWord("down") && IsWord("server") && IsWord("weight=")
  {
  }

  lemma OptionNamesOk()
    ensures IsWord("max_conns=") && IsWord("max_fails=") && IsWord("fail_timeout=")
  {
  }

  lemma TargetWords(s: StreamUpstreamServer)
    requires PrintableTarget(s)
    ensures Words(ServerWords(s))
  {
    var w5 := Flag(s.backup, "backup") + Flag(s.down, "down");
    var w4 := Opt("fail_timeout=", s.failTimeout) + w5;
    var w3 := Opt("max_fails=", s.maxFails) + w4;
    var w2 := Opt("max_conns=", s.maxConns) + w3;
    FlagNamesOk();
    OptionNamesOk();
    OptWords("fail_timeout=", s.failTimeout, w5);
    OptWords("max_fails=", s.maxFails, w4);
    OptWords("max_conns=", s.maxConns, w3);
    OptWords("weight=", s.weight, w2);
  }

  lemma {:induction false} TargetsOk(servers: seq<StreamUpstreamServer>)
    requires forall i :: 0 <= i < |servers| ==> PrintableTarget(servers[i])
    ensures OkLines(TargetLines(servers))
  {
    if |servers| > 0 {
      TargetWords(servers[0]);
      TargetsOk(servers[1..]);
    }
  }

  lemma UpstreamWord()
    ensures IsWord("upstream")
  {
  }

  lemma {:induction false} UpstreamOk(u: StreamUpstream)
    requires PrintableUpstream(u)
    ensures OkLines(UpstreamLines(u))
  {
    TargetsOk(u.servers);
    CloseOk();
    UpstreamWord();
    OpenOk(["upstream", u.name]);
    OkConcat(TargetLines(u.servers), [CLOSE]);
    OkConcat(AlgorithmLines(u.algorithm, u.leastTimeMethod), TargetLines(u.servers) + [CLOSE]);
    OkConcat([Open(["upstream", u.name])],
             AlgorithmLines(u.algorithm, u.leastTimeMethod) + (TargetLines(u.servers) + [CLOSE]));
  }

  lemma ProtocolOk()
    ensures OkLine(PROTOCOL_LINE)
  {
    assert IsWord("proxy_protocol") && IsWord("on");
  }

  lemma BindWord()
    ensures IsWord("proxy_bind")
  {
  }

  lemma RemoteWord()
    ensures IsWord("$remote_addr")
  {
  }

  lemma TransparentWord()
    ensures IsWord("transparent")
  {
  }

  lemma StatementOk(indent: string, words: seq<string>)
    requires Blanks(indent) && Words(words)
    ensures OkLine(Statement(indent, words))
  {
  }

  lemma BindOk()
    ensures OkLine(BIND_LINE)
  {
    BindWord();
    RemoteWord();
    TransparentWord();
    StatementOk("", ["proxy_bind", "$remote_addr", "transparent"]);
  }

  lemma CloseOk()
    ensures OkLine(CLOSE)
  {
  }

  lemma ListenOk(l: StreamListen)
    requires WordOrNone(l.address) && IsWord(l.port)
    ensures OkLine(ListenLine(l))
  {
    assert IsWord("listen") && IsWord("udp") && IsWord(":");
    assert IsWord(ListenWord(l));
  }

  lemma TimeoutOk(timeout: string)
    requires IsWord(timeout)
    ensures OkLine(TimeoutLine(timeout))
  {
    assert IsWord("proxy_timeout");
  }

  lemma PassOk(address: string)
    requires IsWord(address)
    ensures OkLine(PassLine(address))
  {
    assert IsWord("proxy_pass");
  }

  lemma OpenOk(words: seq<string>)
    requires Words(words)
    ensures OkLine(Open(words))
  {
  }

  lemma WhenOk(on: bool, l: Line, rest: seq<Line>)
    requires (on ==> OkLine(l)) && OkLines(rest)
    ensures OkLines(When(on, l) + rest)
  {
  }

  lemma {:induction false} ServerOk(s: StreamServer)
    requires PrintableServer(s)
    ensures OkLines(ServerLines(s))
  {
    ProtocolOk();
    BindOk();
    CloseOk();
    ListenOk(s.listen);
    if s.proxyProtocolTimeout != "" {
      TimeoutOk(s.proxyProtocolTimeout);
    }
    PassOk(s.proxyPassAddress);
    assert IsWord("server");
    OpenOk(["server"]);
    var bind := When(s.proxyPassthrough, BIND_LINE) + [CLOSE];
    WhenOk(s.proxyPassthrough, BIND_LINE, [CLOSE]);
    var pass := [PassLine(s.proxyPassAddress)] + bind;
    WhenOk(s.proxyProtocolTimeout != "", TimeoutLine(s.proxyProtocolTimeout), pass);
    var timeout := When(s.proxyProtocolTimeout != "", TimeoutLine(s.proxyProtocolTimeout)) + pass;
    WhenOk(s.proxyProtocol, PROTOCOL_LINE, timeout);
    OkConcat([Open(["server"]), ListenLine(s.listen)], When(s.proxyProtocol, PROTOCOL_LINE) + timeout);
  }

  lemma {:induction false} UpstreamsOk(us: seq<StreamUpstream>)
    requires forall i :: 0 <= i < |us| ==> PrintableUpstream(us[i])
    ensures OkLines(UpstreamsLines(us))
    decreases |us|
  {
    if us != [] {
      UpstreamOk(us[0]);
      UpstreamsOk(us[1..]);
      OkConcat(UpstreamLines(us[0]), UpstreamsLines(us[1..]));
    }
  }

  lemma {:induction false} ServersOk(ss: seq<StreamServer>)
    requires forall i :: 0 <= i < |ss| ==> PrintableServer(ss[i])
    ensures OkLines(ServersLines(ss))
    decreases |ss|
  {
    if ss != [] {
      ServerOk(ss[0]);
      ServersOk(ss[1..]);
      OkConcat(ServerLines(ss[0]), ServersLines(ss[1..]));
    }
  }

  lemma {:induction false} ConfigOk(cfg: StreamConfig)
    requires Printable(cfg)
    ensures OkLines(ConfigLines(cfg))
  {
    assert IsWord("resolver");
    UpstreamsOk(cfg.upstreams);
    ServersOk(cfg.servers);
    OkConcat(UpstreamsLines(cfg.upstreams), ServersLines(cfg.servers));
  }

  // ----- the theorem -----

  /** Rendering is lossless: the text of a printable configuration reads back as that configuration. */
  lemma RenderLossless(cfg: StreamConfig)
    requires Printable(cfg)
    ensures Read(Render.Render(cfg)) == Some(cfg)
  {
    ConfigOk(cfg);
    ReadText(cfg);
    ConfigBack(cfg);
  }

  // ----- generated configurations are printable -----

  /** Nothing in the string ends a word. */
  predicate Plain(s: string) { forall c :: c in s ==> !Blank(c) && !Mark(c) && c != '#' }

  /** The strings a configuration is generated from: names, addresses and the resolver. */
  predicate PlainInputs(nodes: map<string, Node>, spec: ServiceSpec) {
    && Plain(Annotations.OptionalString(Annotations.RESOLVER_KEY, spec.service))
    && Plain(spec.service.ns) && Plain(spec.service.name) && Plain(spec.clusterIP)
    && (forall i :: 0 <= i < |spec.topology| ==> Plain(spec.topology[i].portName) && Plain(spec.topology[i].podIP))
    && (forall k :: k in nodes ==> Plain(nodes[k].internalIP) && Plain(nodes[k].externalIP))
  }

  lemma AddressIsWord(ip: string, port: int)
    requires Plain(ip)
    ensures IsWord(ip + ":" + Itoa(port)) && IsWord(Itoa(port)) && ':' !in Itoa(port)
  {
  }

  lemma NameIsWord(s: Service, portName: string)
    requires Plain(s.ns) && Plain(s.name) && Plain(portName)
    ensures IsWord(UpstreamName(s, portName))
  {
    assert Plain("-") && Plain(DEFAULT_PORT_NAME);
    var q := if portName == "" then DEFAULT_PORT_NAME else portName;
    assert UpstreamName(s, portName)[|s.ns|] == '-';
    assert forall c :: c in UpstreamName(s, portName) ==> c in s.ns || c == '-' || c in s.name || c in q;
  }

  lemma TargetAddressIsWord(nodes: map<string, Node>, spec: ServiceSpec, i: int, a: string)
    requires PlainInputs(nodes, spec) && 0 <= i < |spec.topology| && TargetCount(nodes, spec, spec.topology[i], a) > 0
    ensures IsWord(a)
  {
    var t := spec.topology[i];
    if spec.upstreamType.Pod? {
      AddressIsWord(t.podIP, t.podPort);
    } else if spec.upstreamType.ClusterIP? {
      AddressIsWord(spec.clusterIP, t.servicePort);
    } else if NodeSet(spec.service).All? {
      var k :| k in NodesAt(nodes, NodeAddressType(spec.service), t, a);
      NodeAddressIsWord(NodeAddressType(spec.service), nodes[k], t);
    } else {
      NodeAddressIsWord(NodeAddressType(spec.service), nodes[t.nodeName], t);
    }
  }

  lemma NodeAddressIsWord(addressType: AddressType, n: Node, t: Target)
    requires Plain(n.internalIP) && Plain(n.externalIP)
    ensures IsWord(FormatAddress(addressType, n, t))
  {
    AddressIsWord(if addressType.Internal? then n.internalIP else n.externalIP, t.nodePort);
  }

  lemma MethodWords1()
    ensures IsWord("connect") && IsWord("inflight")
  {
  }

  lemma MethodWords2()
    ensures IsWord("first_byte") && IsWord("last_byte")
  {
  }

  /** The methods are one word, alone or followed by another. */
  lemma MethodForms(m: string) returns (x: string, y: string)
    requires m in METHODS
    ensures IsWord(x) && (m == x || (IsWord(y) && m == x + " " + y))
  {
    MethodWords1();
    MethodWords2();
    y := "inflight";
    if m == METHODS[0] || m == METHODS[3] {
      x := "connect";
      assert METHODS[3] == x + " " + y;
    } else if m == METHODS[1] || m == METHODS[4] {
      x := "first_byte";
      assert METHODS[4] == x + " " + y;
    } else {
      x := "last_byte";
      assert METHODS[5] == x + " " + y;
    }
  }

  lemma OneWordSplit(x: string)
    requires IsWord(x)
    ensures Split(x, ' ') == [x]
  {
    assert Blank(' ');
    SplitHead(x, ' ', "");
  }

  lemma TwoWordsSplit(x: string, y: string)
    requires IsWord(x) && IsWord(y)
    ensures Split(x + " " + y, ' ') == [x, y]
  {
    assert Blank(' ');
    SplitHead(x, ' ', y);
    OneWordSplit(y);
  }

  lemma MethodsSplit(m: string)
    requires m in METHODS
    ensures Words(Split(m, ' '))
  {
    var x, y := MethodForms(m);
    if m == x {
      OneWordSplit(x);
    } else {
      TwoWordsSplit(x, y);
    }
  }

  lemma GeneratedUpstreamPrintable(nodes: map<string, Node>, spec: ServiceSpec, cfg: StreamConfig, u: int)
    requires Generates(nodes, spec, cfg) && PlainInputs(nodes, spec) && !spec.upstreamType.UnknownType?
    requires spec.algorithm in [ROUND_ROBIN, LEAST_CONNECTIONS, LOWEST_LATENCY]
    requires 0 <= u < |cfg.upstreams|
    ensures PrintableUpstream(cfg.upstreams[u])
  {
    var up := cfg.upstreams[u];
    assert UpstreamFor(nodes, spec, spec.topology, up);
    assert UpstreamNamed(cfg.upstreams, up.name);
    var i :| 0 <= i < |spec.topology| && TargetName(spec, spec.topology[i]) == up.name;
    NameIsWord(spec.service, spec.topology[i].portName);
    AlgorithmPrintable(spec);
    if up.leastTimeMethod != "" {
      MethodPrintable(spec);
    }
    forall j | 0 <= j < |up.servers| ensures PrintableTarget(up.servers[j]) {
      var a := up.servers[j].address;
      assert Addresses(up.servers)[j] == a;
      assert a in multiset(Addresses(up.servers));
      var k := CountedTarget(nodes, spec, spec.topology, up.name, a);
      TargetAddressIsWord(nodes, spec, k, a);
    }
  }

  lemma AlgorithmWords()
    ensures IsWord(LEAST_CONNECTIONS) && IsWord(LOWEST_LATENCY)
    ensures LEAST_CONNECTIONS != "server" && LOWEST_LATENCY != "server"
  {
    assert |LEAST_CONNECTIONS| == |LOWEST_LATENCY| == 10 && |"server"| == 6;
  }

  lemma AlgorithmPrintable(spec: ServiceSpec)
    requires spec.algorithm in [ROUND_ROBIN, LEAST_CONNECTIONS, LOWEST_LATENCY]
    ensures WordOrNone(AlgorithmOf(spec)) && AlgorithmOf(spec) != "server"
  {
    AlgorithmWords();
  }

  lemma MethodPrintable(spec: ServiceSpec)
    requires MethodOf(spec) != ""
    ensures AlgorithmOf(spec) != "" && Words(Split(MethodOf(spec), ' '))
  {
    assert "connect" == METHODS[0];
    MethodsSplit(MethodOf(spec));
  }

  lemma GeneratedServerPrintable(spec: ServiceSpec, cfg: StreamConfig, nodes: map<string, Node>, i: int)
    requires Generates(nodes, spec, cfg) && PlainInputs(nodes, spec) && !spec.upstreamType.UnknownType?
    requires 0 <= i < |cfg.servers|
    ensures PrintableServer(cfg.servers[i])
  {
    var k := ServersSound(spec, spec.topology, i);
    NameIsWord(spec.service, spec.topology[k].portName);
    AddressIsWord("", ListenPort(spec, spec.topology[k]).value);
  }

  /** What the generator makes of plain names and addresses is printed without loss. */
  lemma GeneratedReadsBack(nodes: map<string, Node>, key: string, s: Service, es: seq<Entry>, cfg: StreamConfig)
    requires Generates(nodes, MakeSpec(key, s, es), cfg) && PlainInputs(nodes, MakeSpec(key, s, es))
    ensures Read(Render.Render(cfg)) == Some(cfg)
  {
    var spec := MakeSpec(key, s, es);
    forall u | 0 <= u < |cfg.upstreams| ensures PrintableUpstream(cfg.upstreams[u]) {
      GeneratedUpstreamPrintable(nodes, spec, cfg, u);
    }
    forall i | 0 <= i < |cfg.servers| ensures PrintableServer(cfg.servers[i]) {
      GeneratedServerPrintable(spec, cfg, nodes, i);
    }
    RenderLossless(cfg);
  }

  /** Two printable configurations with the same text are the same. */
  lemma RenderInjective(x: StreamConfig, y: StreamConfig)
    requires Printable(x) && Printable(y) && Render.Render(x) == Render.Render(y)
    ensures x == y
  {
    RenderLossless(x);
    RenderLossless(y);
  }
}
