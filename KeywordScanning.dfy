/** The keyword scanner
    (repo_scanner/src/repo_scanner/scanner/scanners/keyword_scanner.py):
    user-configured regular-expression signatures, each distinct match
    reported once, and the legacy line-by-line keyword search. */
module KeywordScanning {
  import opened Wrappers
  import opened Records
  import opened Config
  import opened Text
  import opened Seqs

  const SERVER := "SERVER"
  const CLIENT := "CLIENT"

  /** Python's `re`, which is not part of this model: whether a pattern
      compiles, and what `findall` returns for a pattern on a text (for a
      pattern with groups, the first group of each match). */
  datatype RegexEngine = RegexEngine(
    compiles: string -> bool,
    findAll: (string, string) -> seq<string>)

  /** One loaded signature, its missing fields filled with their defaults. */
  datatype Pattern = Pattern(regex: string, score: real, classification: string, name: string)

  /** The scanner after `__init__`: the two keyword sets and the signatures
      that compiled, in configuration order. */
  datatype KeywordScanner = KeywordScanner(
    serverKeywords: set<string>,
    clientKeywords: set<string>,
    compiledPatterns: seq<Pattern>,
    engine: RegexEngine)

  /** A rule with its defaults: score 1.0, classification "UNKNOWN", name "unknown". */
  function CompileRule(rule: RuleConfig): Pattern
  {
    Pattern(rule.regex, rule.score.GetOr(1.0), rule.classification.GetOr("UNKNOWN"), rule.name.GetOr("unknown"))
  }

  /** What loading one rule appends: nothing when its regex does not compile. */
  function RuleLoader(compiles: string -> bool): RuleConfig -> seq<Pattern>
  {
    (rule: RuleConfig) => if compiles(rule.regex) then [CompileRule(rule)] else []
  }

  function LoadedPatterns(compiles: string -> bool, rules: seq<RuleConfig>): seq<Pattern>
  {
    FlatMap(RuleLoader(compiles), rules)
  }

  /** `KeywordScanner.__init__` */
  method NewKeywordScanner(config: ScannerConfig, engine: RegexEngine) returns (ks: KeywordScanner)
    ensures var keywords := config.keywords.GetOr(KeywordsConfig());
      (forall k :: k in ks.serverKeywords <==> k in keywords.serverIndicators.GetOr([])) &&
      (forall k :: k in ks.clientKeywords <==> k in keywords.clientIndicators.GetOr([]))
    ensures ks.compiledPatterns == LoadedPatterns(engine.compiles, config.patterns.GetOr([]))
    ensures ks.engine == engine
  {
    var keywords := config.keywords.GetOr(KeywordsConfig());
    var server := set k | k in keywords.serverIndicators.GetOr([]);
    var client := set k | k in keywords.clientIndicators.GetOr([]);
    var compiled: seq<Pattern> := [];
    var rules := config.patterns.GetOr([]);
    for i := 0 to |rules|
      invariant compiled == LoadedPatterns(engine.compiles, rules[..i])
    {
      var rule := rules[i];
      if engine.compiles(rule.regex) {
        compiled := compiled + [CompileRule(rule)];
      }
      assert rules[..i + 1][..i] == rules[..i];
    }
    assert rules[..|rules|] == rules;
    ks := KeywordScanner(server, client, compiled, engine);
  }

  /** A rule with only its regex gets score 1.0, classification "UNKNOWN" and name "unknown". */
  lemma RuleDefaults(regex: string)
    ensures CompileRule(RuleConfig(regex)) == Pattern(regex, 1.0, "UNKNOWN", "unknown")
  {
  }

  /** A rule whose regex does not compile is skipped, and the rules around it
      load as they would without it, in their order. */
  lemma SkippedRule(compiles: string -> bool, before: seq<RuleConfig>, bad: RuleConfig, after: seq<RuleConfig>)
    requires !compiles(bad.regex)
    ensures LoadedPatterns(compiles, before + [bad] + after) ==
      LoadedPatterns(compiles, before) + LoadedPatterns(compiles, after)
  {
    FlatMapAppend(RuleLoader(compiles), before + [bad], after);
    FlatMapAppend(RuleLoader(compiles), before, [bad]);
    assert [bad][..0] == [];
  }

  /** When every regex compiles, the i-th loaded pattern is the i-th rule. */
  lemma AllRulesLoad(compiles: string -> bool, rules: seq<RuleConfig>)
    requires forall r :: r in rules ==> compiles(r.regex)
    ensures |LoadedPatterns(compiles, rules)| == |rules|
    ensures forall i :: 0 <= i < |rules| ==> LoadedPatterns(compiles, rules)[i] == CompileRule(rules[i])
  {
    FlatMapSingletons(RuleLoader(compiles), rules);
  }

  // ---------------------------------------------------------------------
  // The pattern path

  /** The indicator for one distinct match of one signature. */
  function PatternIndicator(p: Pattern, path: string, m: string): Indicator
  {
    Indicator("pattern_match", p.name + ": " + Take(m, 50), Some(path), score := p.score, classification := Some(p.classification))
  }

  function PatternEmitter(p: Pattern, path: string): string -> seq<Indicator>
  {
    (m: string) => [PatternIndicator(p, path, m)]
  }

  /** `set(matches)` */
  function UniqueMatches(engine: RegexEngine, p: Pattern, content: string): set<string>
  {
    set m | m in engine.findAll(p.regex, content)
  }

  /** What one signature contributes, in the set's iteration order. */
  ghost function PatternBlock(engine: RegexEngine, p: Pattern, path: string, content: string): seq<Indicator>
  {
    FlatMap(PatternEmitter(p, path), Enumerate(UniqueMatches(engine, p, content)))
  }

  ghost function PatternIndicators(engine: RegexEngine, ps: seq<Pattern>, path: string, content: string): seq<Indicator>
  {
    if ps == [] then []
    else PatternIndicators(engine, ps[..|ps| - 1], path, content) + PatternBlock(engine, ps[|ps| - 1], path, content)
  }

  /** The number of distinct matches, summed over the signatures. */
  function DistinctMatches(engine: RegexEngine, ps: seq<Pattern>, content: string): nat
  {
    if ps == [] then 0
    else DistinctMatches(engine, ps[..|ps| - 1], content) + |UniqueMatches(engine, ps[|ps| - 1], content)|
  }

  /** One indicator per distinct match: the block is as long as the set of matches. */
  lemma PatternBlockLength(engine: RegexEngine, p: Pattern, path: string, content: string)
    ensures |PatternBlock(engine, p, path, content)| == |UniqueMatches(engine, p, content)|
  {
    FlatMapSingletons(PatternEmitter(p, path), Enumerate(UniqueMatches(engine, p, content)));
  }

  /** Every indicator of the block stands for one of the matches... */
  lemma PatternBlockSound(engine: RegexEngine, p: Pattern, path: string, content: string, ind: Indicator)
    returns (m: string)
    requires ind in PatternBlock(engine, p, path, content)
    ensures m in engine.findAll(p.regex, content) && ind == PatternIndicator(p, path, m)
  {
    var e := Enumerate(UniqueMatches(engine, p, content));
    FlatMapMember(PatternEmitter(p, path), e, ind);
    m :| m in e && ind in PatternEmitter(p, path)(m);
  }

  /** ...and every match has its indicator in the block. */
  lemma PatternBlockComplete(engine: RegexEngine, p: Pattern, path: string, content: string, m: string)
    requires m in engine.findAll(p.regex, content)
    ensures PatternIndicator(p, path, m) in PatternBlock(engine, p, path, content)
  {
    var e := Enumerate(UniqueMatches(engine, p, content));
    assert m in UniqueMatches(engine, p, content);
    assert m in e && PatternIndicator(p, path, m) in PatternEmitter(p, path)(m);
    FlatMapMember(PatternEmitter(p, path), e, PatternIndicator(p, path, m));
  }

  /** Repeated identical matches count once. */
  lemma RepeatedMatchCountsOnce(engine: RegexEngine, p: Pattern, path: string, content: string, m: string)
    requires engine.findAll(p.regex, content) == [m, m, m]
    ensures PatternBlock(engine, p, path, content) == [PatternIndicator(p, path, m)]
  {
    assert UniqueMatches(engine, p, content) == {m};
    var e := Enumerate({m});
    assert e[0] in {m};
    assert e == [m];
    assert FlatMap(PatternEmitter(p, path), [m]) == [PatternIndicator(p, path, m)] by {
      assert [m][..0] == [];
    }
  }

  /** The pattern path emits exactly as many indicators as there are
      distinct matches, counted signature by signature. */
  lemma {:induction false} PatternIndicatorsCount(engine: RegexEngine, ps: seq<Pattern>, path: string, content: string)
    ensures |PatternIndicators(engine, ps, path, content)| == DistinctMatches(engine, ps, content)
  {
    if ps != [] {
      PatternIndicatorsCount(engine, ps[..|ps| - 1], path, content);
      PatternBlockLength(engine, ps[|ps| - 1], path, content);
    }
  }

  /** Each pattern indicator is the `pattern_match` of one loaded signature
      and one of its matches: the signature's name and at most 50 characters
      of the match as value, and the signature's score and classification. */
  lemma {:induction false} PatternIndicatorSound(engine: RegexEngine, ps: seq<Pattern>, path: string, content: string, ind: Indicator)
    returns (p: Pattern, m: string)
    requires ind in PatternIndicators(engine, ps, path, content)
    ensures p in ps && m in engine.findAll(p.regex, content) && ind == PatternIndicator(p, path, m)
  {
    var ps' := ps[..|ps| - 1];
    if ind in PatternIndicators(engine, ps', path, content) {
      p, m := PatternIndicatorSound(engine, ps', path, content, ind);
      assert p in ps by {
        var k :| 0 <= k < |ps'| && ps'[k] == p;
        assert ps[k] == p;
      }
    } else {
      p := ps[|ps| - 1];
      m := PatternBlockSound(engine, p, path, content, ind);
    }
  }

  /** Every distinct match of every loaded signature has its indicator. */
  lemma {:induction false} PatternIndicatorComplete(engine: RegexEngine, ps: seq<Pattern>, path: string, content: string, p: Pattern, m: string)
    requires p in ps && m in engine.findAll(p.regex, content)
    ensures PatternIndicator(p, path, m) in PatternIndicators(engine, ps, path, content)
  {
    var ps' := ps[..|ps| - 1];
    assert ps == ps' + [ps[|ps| - 1]];
    if p == ps[|ps| - 1] {
      PatternBlockComplete(engine, p, path, content, m);
    } else {
      assert p in ps';
      PatternIndicatorComplete(engine, ps', path, content, p, m);
    }
  }

  // ---------------------------------------------------------------------
  // The legacy keyword path

  /** The indicator for keyword `kw` found on the line at index `i`. */
  function KeywordIndicator(path: string, i: nat, line: string, kw: string, cls: string): Indicator
  {
    Indicator("keyword", kw, Some(path), Some(i + 1), Some(Take(Strip(line), 100)), 0.1, Some(cls))
  }

  /** What testing keyword `kw` against the line at index `i` appends. */
  function KeywordEmitter(path: string, i: nat, line: string, cls: string): string -> seq<Indicator>
  {
    (kw: string) => if Contains(Lower(line), kw) then [KeywordIndicator(path, i, line, kw, cls)] else []
  }

  /** The indicators one keyword set yields on one line, in the set's iteration order. */
  ghost function KeywordBlock(path: string, i: nat, line: string, cls: string, keywords: set<string>): seq<Indicator>
  {
    FlatMap(KeywordEmitter(path, i, line, cls), Enumerate(keywords))
  }

  ghost function LineIndicators(ks: KeywordScanner, path: string, i: nat, line: string): seq<Indicator>
  {
    KeywordBlock(path, i, line, SERVER, ks.serverKeywords) + KeywordBlock(path, i, line, CLIENT, ks.clientKeywords)
  }

  ghost function KeywordIndicators(ks: KeywordScanner, path: string, lines: seq<string>): seq<Indicator>
  {
    if lines == [] then []
    else KeywordIndicators(ks, path, lines[..|lines| - 1]) + LineIndicators(ks, path, |lines| - 1, lines[|lines| - 1])
  }

  predicate Legacy(ks: KeywordScanner)
  {
    ks.serverKeywords != {} || ks.clientKeywords != {}
  }

  ghost function PatternPart(ks: KeywordScanner, path: string, content: string): seq<Indicator>
  {
    PatternIndicators(ks.engine, ks.compiledPatterns, path, content)
  }

  ghost function KeywordPart(ks: KeywordScanner, path: string, content: string): seq<Indicator>
  {
    if Legacy(ks) then KeywordIndicators(ks, path, SplitLines(content)) else []
  }

  lemma PatternIndicatorsStep(engine: RegexEngine, ps: seq<Pattern>, j: nat, path: string, content: string)
    requires j < |ps|
    ensures PatternIndicators(engine, ps[..j + 1], path, content) ==
      PatternIndicators(engine, ps[..j], path, content) + PatternBlock(engine, ps[j], path, content)
  {
    assert ps[..j + 1][..j] == ps[..j];
  }

  lemma NoMatchEmptyBlock(engine: RegexEngine, p: Pattern, path: string, content: string)
    requires engine.findAll(p.regex, content) == []
    ensures PatternBlock(engine, p, path, content) == []
  {
    assert UniqueMatches(engine, p, content) == {};
  }

  /** `parts[j]` holds, in some order, what signature `ps[j]` contributes. */
  ghost predicate PatternParts(engine: RegexEngine, ps: seq<Pattern>, path: string, content: string, parts: seq<seq<Indicator>>)
  {
    |parts| == |ps| &&
    forall j :: 0 <= j < |ps| ==> multiset(parts[j]) == multiset(PatternBlock(engine, ps[j], path, content))
  }

  /** `inds` lists the signatures' contributions in configuration order, each
      in the iteration order of its set of matches. */
  ghost predicate PatternsInOrder(engine: RegexEngine, ps: seq<Pattern>, path: string, content: string, inds: seq<Indicator>)
  {
    exists parts :: PatternParts(engine, ps, path, content, parts) && inds == Concat(parts)
  }

  /** What the pattern loop has built after the first `j` signatures. */
  ghost predicate PatternLoop(engine: RegexEngine, ps: seq<Pattern>, j: nat, path: string, content: string,
                              inds: seq<Indicator>, parts: seq<seq<Indicator>>)
  {
    j <= |ps| && PatternParts(engine, ps[..j], path, content, parts) && inds == Concat(parts) &&
    multiset(inds) == multiset(PatternIndicators(engine, ps[..j], path, content))
  }

  lemma PatternLoopStep(engine: RegexEngine, ps: seq<Pattern>, j: nat, path: string, content: string,
                        inds: seq<Indicator>, parts: seq<seq<Indicator>>, block: seq<Indicator>)
    requires PatternLoop(engine, ps, j, path, content, inds, parts) && j < |ps|
    requires multiset(block) == multiset(PatternBlock(engine, ps[j], path, content))
    ensures PatternLoop(engine, ps, j + 1, path, content, inds + block, parts + [block])
  {
    PatternIndicatorsStep(engine, ps, j, path, content);
    ConcatSnoc(parts, block);
    PatternPartsSnoc(engine, ps, j, path, content, parts, block);
    calc {
      multiset(inds + block);
      multiset(inds) + multiset(block);
      multiset(PatternIndicators(engine, ps[..j], path, content)) + multiset(PatternBlock(engine, ps[j], path, content));
      multiset(PatternIndicators(engine, ps[..j + 1], path, content));
    }
  }

  lemma PatternPartsSnoc(engine: RegexEngine, ps: seq<Pattern>, j: nat, path: string, content: string,
                         parts: seq<seq<Indicator>>, block: seq<Indicator>)
    requires j < |ps| && PatternParts(engine, ps[..j], path, content, parts)
    requires multiset(block) == multiset(PatternBlock(engine, ps[j], path, content))
    ensures PatternParts(engine, ps[..j + 1], path, content, parts + [block])
  {
    var ps' := ps[..j + 1];
    forall k | 0 <= k < |ps'|
      ensures multiset((parts + [block])[k]) == multiset(PatternBlock(engine, ps'[k], path, content))
    {
      if k < j {
        assert ps'[k] == ps[..j][k] && (parts + [block])[k] == parts[k];
      } else {
        assert ps'[k] == ps[j] && (parts + [block])[k] == block;
      }
    }
  }

  lemma PatternLoopDone(engine: RegexEngine, ps: seq<Pattern>, path: string, content: string,
                        inds: seq<Indicator>, parts: seq<seq<Indicator>>)
    requires PatternLoop(engine, ps, |ps|, path, content, inds, parts)
    ensures PatternsInOrder(engine, ps, path, content, inds)
    ensures multiset(inds) == multiset(PatternIndicators(engine, ps, path, content))
  {
    assert ps[..|ps|] == ps;
  }

  /** The first half of `KeywordScanner.scan`: for each signature in turn,
      one indicator per distinct match. */
  method ScanPatterns(ks: KeywordScanner, path: string, content: string) returns (inds: seq<Indicator>)
    ensures PatternsInOrder(ks.engine, ks.compiledPatterns, path, content, inds)
    ensures multiset(inds) == multiset(PatternPart(ks, path, content))
  {
    inds := [];
    var ps := ks.compiledPatterns;
    ghost var parts: seq<seq<Indicator>> := [];
    for j := 0 to |ps|
      invariant PatternLoop(ks.engine, ps, j, path, content, inds, parts)
    {
      var p := ps[j];
      var matches := ks.engine.findAll(p.regex, content);
      var block: seq<Indicator> := [];
      if matches != [] {
        block := ForEachInSet(PatternEmitter(p, path), UniqueMatches(ks.engine, p, content));
      } else {
        NoMatchEmptyBlock(ks.engine, p, path, content);
      }
      PatternLoopStep(ks.engine, ps, j, path, content, inds, parts, block);
      inds := inds + block;
      parts := parts + [block];
    }
    PatternLoopDone(ks.engine, ps, path, content, inds, parts);
  }

  lemma KeywordIndicatorsStep(ks: KeywordScanner, path: string, lines: seq<string>, i: nat)
    requires i < |lines|
    ensures KeywordIndicators(ks, path, lines[..i + 1]) ==
      KeywordIndicators(ks, path, lines[..i]) + LineIndicators(ks, path, i, lines[i])
  {
    assert lines[..i + 1][..i] == lines[..i];
  }

  /** `servers[i]` and `clients[i]` hold, in some order, what the server and
      the client keyword set yield on line `i`. */
  ghost predicate KeywordParts(ks: KeywordScanner, path: string, lines: seq<string>,
                               servers: seq<seq<Indicator>>, clients: seq<seq<Indicator>>)
  {
    |servers| == |lines| && |clients| == |lines| &&
    forall i :: 0 <= i < |lines| ==>
      multiset(servers[i]) == multiset(KeywordBlock(path, i, lines[i], SERVER, ks.serverKeywords)) &&
      multiset(clients[i]) == multiset(KeywordBlock(path, i, lines[i], CLIENT, ks.clientKeywords))
  }

  /** `inds` lists the lines in order, and on each line the server keywords
      found before the client keywords found, each set in its iteration order. */
  ghost predicate KeywordsInOrder(ks: KeywordScanner, path: string, lines: seq<string>, inds: seq<Indicator>)
  {
    exists servers, clients :: KeywordParts(ks, path, lines, servers, clients) && inds == Interleave(servers, clients)
  }

  /** What the keyword loop has built after the first `i` lines. */
  ghost predicate KeywordLoop(ks: KeywordScanner, path: string, lines: seq<string>, i: nat, inds: seq<Indicator>,
                              servers: seq<seq<Indicator>>, clients: seq<seq<Indicator>>)
  {
    i <= |lines| && KeywordParts(ks, path, lines[..i], servers, clients) && inds == Interleave(servers, clients) &&
    multiset(inds) == multiset(KeywordIndicators(ks, path, lines[..i]))
  }

  lemma KeywordLoopStep(ks: KeywordScanner, path: string, lines: seq<string>, i: nat, inds: seq<Indicator>,
                        servers: seq<seq<Indicator>>, clients: seq<seq<Indicator>>, server: seq<Indicator>, client: seq<Indicator>)
    requires KeywordLoop(ks, path, lines, i, inds, servers, clients) && i < |lines|
    requires multiset(server) == multiset(KeywordBlock(path, i, lines[i], SERVER, ks.serverKeywords))
    requires multiset(client) == multiset(KeywordBlock(path, i, lines[i], CLIENT, ks.clientKeywords))
    ensures KeywordLoop(ks, path, lines, i + 1, inds + server + client, servers + [server], clients + [client])
  {
    KeywordIndicatorsStep(ks, path, lines, i);
    InterleaveSnoc(servers, clients, server, client);
    KeywordPartsSnoc(ks, path, lines, i, servers, clients, server, client);
  }

  lemma KeywordPartsSnoc(ks: KeywordScanner, path: string, lines: seq<string>, i: nat,
                         servers: seq<seq<Indicator>>, clients: seq<seq<Indicator>>, server: seq<Indicator>, client: seq<Indicator>)
    requires i < |lines| && KeywordParts(ks, path, lines[..i], servers, clients)
    requires multiset(server) == multiset(KeywordBlock(path, i, lines[i], SERVER, ks.serverKeywords))
    requires multiset(client) == multiset(KeywordBlock(path, i, lines[i], CLIENT, ks.clientKeywords))
    ensures KeywordParts(ks, path, lines[..i + 1], servers + [server], clients + [client])
  {
    var lines' := lines[..i + 1];
    var servers', clients' := servers + [server], clients + [client];
    forall k | 0 <= k < i + 1
      ensures multiset(servers'[k]) == multiset(KeywordBlock(path, k, lines'[k], SERVER, ks.serverKeywords))
      ensures multiset(clients'[k]) == multiset(KeywordBlock(path, k, lines'[k], CLIENT, ks.clientKeywords))
    {
      if k < i {
        assert lines'[k] == lines[..i][k];
      }
    }
  }

  lemma KeywordLoopDone(ks: KeywordScanner, path: string, lines: seq<string>, inds: seq<Indicator>,
                        servers: seq<seq<Indicator>>, clients: seq<seq<Indicator>>)
    requires KeywordLoop(ks, path, lines, |lines|, inds, servers, clients)
    ensures KeywordsInOrder(ks, path, lines, inds)
    ensures multiset(inds) == multiset(KeywordIndicators(ks, path, lines))
  {
    assert lines[..|lines|] == lines;
  }

  /** The second half of `KeywordScanner.scan`: line by line, the server
      keywords found in the line, then the client keywords. */
  method ScanKeywords(ks: KeywordScanner, path: string, content: string) returns (inds: seq<Indicator>)
    ensures !Legacy(ks) ==> inds == []
    ensures Legacy(ks) ==> KeywordsInOrder(ks, path, SplitLines(content), inds)
    ensures multiset(inds) == multiset(KeywordPart(ks, path, content))
  {
    inds := [];
    if ks.serverKeywords != {} || ks.clientKeywords != {} {
      var lines := SplitLines(content);
      ghost var servers: seq<seq<Indicator>> := [];
      ghost var clients: seq<seq<Indicator>> := [];
      for i := 0 to |lines|
        invariant KeywordLoop(ks, path, lines, i, inds, servers, clients)
      {
        var line := lines[i];
        var server := ForEachInSet(KeywordEmitter(path, i, line, SERVER), ks.serverKeywords);
        var client := ForEachInSet(KeywordEmitter(path, i, line, CLIENT), ks.clientKeywords);
        KeywordLoopStep(ks, path, lines, i, inds, servers, clients, server, client);
        inds := inds + server + client;
        servers, clients := servers + [server], clients + [client];
      }
      KeywordLoopDone(ks, path, lines, inds, servers, clients);
    }
  }

  /** `KeywordScanner.scan`: all pattern indicators, signature by signature,
      then all keyword indicators, line by line; within a signature and
      within a keyword set the order is the set's iteration order. */
  method Scan(ks: KeywordScanner, path: string, content: string) returns (inds: seq<Indicator>)
    ensures |inds| == |PatternPart(ks, path, content)| + |KeywordPart(ks, path, content)|
    ensures PatternsInOrder(ks.engine, ks.compiledPatterns, path, content, inds[..|PatternPart(ks, path, content)|])
    ensures Legacy(ks) ==> KeywordsInOrder(ks, path, SplitLines(content), inds[|PatternPart(ks, path, content)|..])
    ensures multiset(inds[..|PatternPart(ks, path, content)|]) == multiset(PatternPart(ks, path, content))
    ensures multiset(inds[|PatternPart(ks, path, content)|..]) == multiset(KeywordPart(ks, path, content))
  {
    var patterns := ScanPatterns(ks, path, content);
    var keywords := ScanKeywords(ks, path, content);
    assert |patterns| == |multiset(patterns)|;
    assert |keywords| == |multiset(keywords)|;
    inds := patterns + keywords;
    assert inds[..|patterns|] == patterns && inds[|patterns|..] == keywords;
  }

  /** `ind` is the indicator for a keyword of the set its classification
      stands for, found in `line` lower-cased, the line at index `i`: type
      "keyword", line number `i + 1`, score 0.1, and the stripped line, cut to
      100 characters, as context. */
  ghost predicate FromLine(ks: KeywordScanner, path: string, i: nat, line: string, ind: Indicator)
  {
    Contains(Lower(line), ind.value) &&
    ((ind == KeywordIndicator(path, i, line, ind.value, SERVER) && ind.value in ks.serverKeywords) ||
     (ind == KeywordIndicator(path, i, line, ind.value, CLIENT) && ind.value in ks.clientKeywords))
  }

  lemma KeywordBlockSound(path: string, i: nat, line: string, cls: string, keywords: set<string>, ind: Indicator)
    requires ind in KeywordBlock(path, i, line, cls, keywords)
    ensures ind.value in keywords && Contains(Lower(line), ind.value)
    ensures ind == KeywordIndicator(path, i, line, ind.value, cls)
  {
    var f := KeywordEmitter(path, i, line, cls);
    FlatMapMember(f, Enumerate(keywords), ind);
    var kw :| kw in Enumerate(keywords) && ind in f(kw);
  }

  lemma KeywordBlockComplete(path: string, i: nat, line: string, cls: string, keywords: set<string>, kw: string)
    requires kw in keywords && Contains(Lower(line), kw)
    ensures KeywordIndicator(path, i, line, kw, cls) in KeywordBlock(path, i, line, cls, keywords)
  {
    var f := KeywordEmitter(path, i, line, cls);
    assert kw in Enumerate(keywords) && KeywordIndicator(path, i, line, kw, cls) in f(kw);
    FlatMapMember(f, Enumerate(keywords), KeywordIndicator(path, i, line, kw, cls));
  }

  lemma KeywordBlockNoDup(path: string, i: nat, line: string, cls: string, keywords: set<string>)
    ensures NoDup(KeywordBlock(path, i, line, cls, keywords))
  {
    var f := KeywordEmitter(path, i, line, cls);
    var e := Enumerate(keywords);
    forall x, x', y | x in e && x' in e && x != x' && y in f(x) ensures y !in f(x') {
    }
    FlatMapNoDup(f, e);
  }

  /** What one line contributes is about that line only. */
  lemma LineIndicatorSound(ks: KeywordScanner, path: string, i: nat, line: string, ind: Indicator)
    requires ind in LineIndicators(ks, path, i, line)
    ensures FromLine(ks, path, i, line, ind)
  {
    if ind in KeywordBlock(path, i, line, SERVER, ks.serverKeywords) {
      KeywordBlockSound(path, i, line, SERVER, ks.serverKeywords, ind);
    } else {
      KeywordBlockSound(path, i, line, CLIENT, ks.clientKeywords, ind);
    }
  }

  lemma KeywordIndicatorsUnfold(ks: KeywordScanner, path: string, lines: seq<string>)
    requires lines != []
    ensures KeywordIndicators(ks, path, lines) ==
      KeywordIndicators(ks, path, lines[..|lines| - 1]) + LineIndicators(ks, path, |lines| - 1, lines[|lines| - 1])
  {
  }

  /** Every keyword indicator comes from one of the scanned lines, and
      describes a keyword found in that line (see `FromLine`). */
  lemma {:induction false} KeywordIndicatorSound(ks: KeywordScanner, path: string, lines: seq<string>, ind: Indicator)
    returns (i: nat)
    requires ind in KeywordIndicators(ks, path, lines)
    ensures i < |lines| && FromLine(ks, path, i, lines[i], ind)
  {
    var n := |lines| - 1;
    var lines' := lines[..n];
    KeywordIndicatorsUnfold(ks, path, lines);
    if ind in KeywordIndicators(ks, path, lines') {
      i := KeywordIndicatorSound(ks, path, lines', ind);
      assert lines[i] == lines'[i];
    } else {
      i := n;
      LineIndicatorSound(ks, path, n, lines[n], ind);
    }
  }

  lemma LineIndicatorComplete(ks: KeywordScanner, path: string, i: nat, line: string, kw: string, cls: string)
    requires (cls == SERVER && kw in ks.serverKeywords) || (cls == CLIENT && kw in ks.clientKeywords)
    ensures KeywordIndicator(path, i, line, kw, cls) in LineIndicators(ks, path, i, line) <==> Contains(Lower(line), kw)
  {
    var ind := KeywordIndicator(path, i, line, kw, cls);
    if ind in LineIndicators(ks, path, i, line) {
      LineIndicatorSound(ks, path, i, line, ind);
    } else if Contains(Lower(line), kw) {
      var keywords := if cls == SERVER then ks.serverKeywords else ks.clientKeywords;
      KeywordBlockComplete(path, i, line, cls, keywords, kw);
      assert false;
    }
  }

  /** An indicator of an earlier line is not among those of a later one. */
  lemma OtherLineAbsent(ks: KeywordScanner, path: string, i: nat, line: string, n: nat, line': string, kw: string, cls: string)
    requires i != n
    ensures KeywordIndicator(path, i, line, kw, cls) !in LineIndicators(ks, path, n, line')
  {
    var ind := KeywordIndicator(path, i, line, kw, cls);
    if ind in LineIndicators(ks, path, n, line') {
      LineIndicatorSound(ks, path, n, line', ind);
    }
  }

  /** For a keyword of the server set, the indicator for line `i` is emitted
      exactly when the keyword occurs in that line lower-cased; likewise for
      the client set. */
  lemma {:induction false} KeywordIndicatorComplete(ks: KeywordScanner, path: string, lines: seq<string>, i: nat, kw: string, cls: string)
    requires i < |lines|
    requires (cls == SERVER && kw in ks.serverKeywords) || (cls == CLIENT && kw in ks.clientKeywords)
    ensures KeywordIndicator(path, i, lines[i], kw, cls) in KeywordIndicators(ks, path, lines) <==> Contains(Lower(lines[i]), kw)
  {
    var n := |lines| - 1;
    var lines' := lines[..n];
    KeywordIndicatorsUnfold(ks, path, lines);
    if i < n {
      assert lines'[i] == lines[i];
      KeywordIndicatorComplete(ks, path, lines', i, kw, cls);
      OtherLineAbsent(ks, path, i, lines[i], n, lines[n], kw, cls);
    } else {
      LaterLineAbsent(ks, path, lines', n, lines[n], kw, cls);
      LineIndicatorComplete(ks, path, n, lines[n], kw, cls);
    }
  }

  /** No indicator of the line after the last one is among the earlier lines'. */
  lemma LaterLineAbsent(ks: KeywordScanner, path: string, lines: seq<string>, n: nat, line: string, kw: string, cls: string)
    requires n == |lines|
    ensures KeywordIndicator(path, n, line, kw, cls) !in KeywordIndicators(ks, path, lines)
  {
    var ind := KeywordIndicator(path, n, line, kw, cls);
    if ind in KeywordIndicators(ks, path, lines) {
      var j := KeywordIndicatorSound(ks, path, lines, ind);
    }
  }

  lemma LineIndicatorsNoDup(ks: KeywordScanner, path: string, i: nat, line: string)
    ensures NoDup(LineIndicators(ks, path, i, line))
  {
    var server := KeywordBlock(path, i, line, SERVER, ks.serverKeywords);
    var client := KeywordBlock(path, i, line, CLIENT, ks.clientKeywords);
    KeywordBlockNoDup(path, i, line, SERVER, ks.serverKeywords);
    KeywordBlockNoDup(path, i, line, CLIENT, ks.clientKeywords);
    forall ind | ind in server ensures ind !in client {
      KeywordBlockSound(path, i, line, SERVER, ks.serverKeywords, ind);
      if ind in client {
        KeywordBlockSound(path, i, line, CLIENT, ks.clientKeywords, ind);
      }
    }
    NoDupConcat(server, client);
  }

  /** No (line, keyword, set) triple is reported twice. */
  lemma {:induction false} KeywordIndicatorsNoDup(ks: KeywordScanner, path: string, lines: seq<string>)
    ensures NoDup(KeywordIndicators(ks, path, lines))
  {
    if lines != [] {
      var n := |lines| - 1;
      var lines' := lines[..n];
      var line := LineIndicators(ks, path, n, lines[n]);
      KeywordIndicatorsUnfold(ks, path, lines);
      KeywordIndicatorsNoDup(ks, path, lines');
      LineIndicatorsNoDup(ks, path, n, lines[n]);
      forall ind | ind in KeywordIndicators(ks, path, lines') ensures ind !in line {
        var j := KeywordIndicatorSound(ks, path, lines', ind);
        OtherLineAbsent(ks, path, j, lines'[j], n, lines[n], ind.value, ind.classification.value);
      }
      NoDupConcat(KeywordIndicators(ks, path, lines'), line);
    }
  }

  /** Each matching (line, keyword) pair is reported exactly once. */
  lemma KeywordReportedOnce(ks: KeywordScanner, path: string, lines: seq<string>, i: nat, kw: string)
    requires i < |lines| && kw in ks.serverKeywords && Contains(Lower(lines[i]), kw)
    ensures multiset(KeywordIndicators(ks, path, lines))[KeywordIndicator(path, i, lines[i], kw, SERVER)] == 1
  {
    KeywordIndicatorComplete(ks, path, lines, i, kw, SERVER);
    KeywordIndicatorsNoDup(ks, path, lines);
    NoDupCount(KeywordIndicators(ks, path, lines), KeywordIndicator(path, i, lines[i], kw, SERVER));
  }

  /** Only the line is lower-cased: a keyword with an upper-case letter never matches. */
  lemma UpperKeywordNeverMatches(ks: KeywordScanner, path: string, lines: seq<string>, kw: string, k: nat)
    requires k < |kw| && IsUpper(kw[k])
    ensures forall ind :: ind in KeywordIndicators(ks, path, lines) ==> ind.value != kw
  {
    forall ind | ind in KeywordIndicators(ks, path, lines) ensures ind.value != kw {
      var i := KeywordIndicatorSound(ks, path, lines, ind);
      if ind.value == kw {
        UpperNeverInLower(lines[i], kw, k);
      }
    }
  }

  /** With both keyword sets empty the keyword search would find nothing,
      so skipping it changes no result. */
  lemma {:induction false} NoKeywordsNothingFound(ks: KeywordScanner, path: string, lines: seq<string>)
    requires !Legacy(ks)
    ensures KeywordIndicators(ks, path, lines) == []
  {
    if lines != [] {
      NoKeywordsNothingFound(ks, path, lines[..|lines| - 1]);
      assert Enumerate(ks.serverKeywords) == [] && Enumerate(ks.clientKeywords) == [];
    }
  }

  lemma ExampleLines(line1: string, line2: string)
    requires line1 == "import SSEServerTransport" && line2 == "from mcp import Server"
    ensures SplitLines(line1 + "\n" + line2) == [line1, line2]
  {
    assert '\n' !in line1 && '\n' !in line2;
    SplitLinesCons(line1, line2);
    SplitLinesLast(line2);
  }

  lemma ExampleOccurrences(line1: string, line2: string)
    requires line1 == "import SSEServerTransport" && line2 == "from mcp import Server"
    ensures Contains(Lower(line1), "server") && Contains(Lower(line2), "server")
  {
    assert line1 == "import SSE" + "Server" + "Transport";
    assert line2 == "from mcp import " + "Server" + "";
    assert Lower("Server") == "server";
    LowerAppend("import SSE" + "Server", "Transport");
    LowerAppend("import SSE", "Server");
    LowerAppend("from mcp import " + "Server", "");
    LowerAppend("from mcp import ", "Server");
    OccursBetween(Lower("import SSE"), "server", Lower("Transport"));
    OccursBetween(Lower("from mcp import "), "server", Lower(""));
  }

  /** The scanner's own check: in "import SSEServerTransport\nfrom mcp import Server"
      the server keyword "server" is found on line 1 and on line 2. */
  lemma TwoLineExample(ks: KeywordScanner, path: string, line1: string, line2: string)
    requires line1 == "import SSEServerTransport" && line2 == "from mcp import Server"
    requires "server" in ks.serverKeywords
    ensures KeywordIndicator(path, 0, line1, "server", SERVER) in KeywordPart(ks, path, line1 + "\n" + line2)
    ensures KeywordIndicator(path, 1, line2, "server", SERVER) in KeywordPart(ks, path, line1 + "\n" + line2)
    ensures |KeywordPart(ks, path, line1 + "\n" + line2)| >= 2
  {
    var lines := [line1, line2];
    ExampleLines(line1, line2);
    ExampleOccurrences(line1, line2);
    assert KeywordPart(ks, path, line1 + "\n" + line2) == KeywordIndicators(ks, path, lines);
    KeywordIndicatorComplete(ks, path, lines, 0, "server", SERVER);
    KeywordIndicatorComplete(ks, path, lines, 1, "server", SERVER);
    TwoMembers(KeywordIndicators(ks, path, lines),
      KeywordIndicator(path, 0, line1, "server", SERVER), KeywordIndicator(path, 1, line2, "server", SERVER));
  }
}
