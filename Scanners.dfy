/** The scanner interface (repo_scanner/src/repo_scanner/scanner/scanners/base.py):
    every scanner maps one file's path and content to a list of indicators,
    keeping nothing between files. The three implementations are the
    variants of one datatype. */
module Scanners {
  import opened Wrappers
  import opened Records
  import KeywordScanning
  import DependencyScanning
  import AstScanning
  import Text

  datatype Scanner =
    | Keyword(keywords: KeywordScanning.KeywordScanner)
    | Dependency(dependencies: DependencyScanning.DependencyScanner)
    | Ast(parse: string -> AstScanning.ParseOutcome)

  /** The indicator types each scanner emits. */
  function Kinds(s: Scanner): set<string>
  {
    match s
    case Keyword(_) => {"pattern_match", "keyword"}
    case Dependency(_) => {"dependency"}
    case Ast(_) => {"ast_import", "ast_class"}
  }

  /** `BaseScanner.scan`, dispatched on the scanner: every indicator points
      at the scanned file and has one of the scanner's own types. */
  method ScanFile(s: Scanner, path: string, content: string) returns (inds: seq<Indicator>)
    ensures forall ind :: ind in inds ==> ind.file == Some(path) && ind.kind in Kinds(s)
  {
    match s
    case Keyword(ks) =>
      inds := KeywordScanning.Scan(ks, path, content);
      KeywordResultTagged(ks, path, content, inds, |KeywordScanning.PatternPart(ks, path, content)|);
    case Dependency(ds) =>
      inds := DependencyScanning.Scan(ds, path, content);
      forall ind | ind in inds ensures ind.file == Some(path) && ind.kind in Kinds(s) {
        var i :| 0 <= i < |inds| && inds[i] == ind;
      }
    case Ast(parse) =>
      inds := AstScanning.Scan(path, content, parse);
      forall ind | ind in inds ensures ind.file == Some(path) && ind.kind in Kinds(s) {
        var i :| 0 <= i < |inds| && inds[i] == ind;
        assert Text.EndsWith(path, ".py") && parse(content).Parsed?;
        var imports := AstScanning.TreeImports(parse(content).tree);
        if i < |imports| {
          assert ind == AstScanning.ImportIndicator(path, imports[i]);
        } else {
          var classes := AstScanning.TreeClasses(parse(content).tree);
          assert ind == AstScanning.ClassIndicator(path, classes[i - |imports|]);
        }
      }
  }

  /** A reordering of the pattern part followed by a reordering of the
      keyword part holds only `pattern_match` and `keyword` indicators for
      the scanned file. */
  lemma KeywordResultTagged(ks: KeywordScanning.KeywordScanner, path: string, content: string, inds: seq<Indicator>, n: nat)
    requires n <= |inds|
    requires multiset(inds[..n]) == multiset(KeywordScanning.PatternPart(ks, path, content))
    requires multiset(inds[n..]) == multiset(KeywordScanning.KeywordPart(ks, path, content))
    ensures forall ind :: ind in inds ==> ind.file == Some(path) && (ind.kind == "pattern_match" || ind.kind == "keyword")
  {
    forall ind | ind in inds ensures ind.file == Some(path) && (ind.kind == "pattern_match" || ind.kind == "keyword") {
      var i :| 0 <= i < |inds| && inds[i] == ind;
      if i < n {
        assert inds[..n][i] == ind;
        assert ind in multiset(inds[..n]);
      } else {
        assert inds[n..][i - n] == ind;
        assert ind in multiset(inds[n..]);
      }
      KeywordIndicatorTagged(ks, path, content, ind);
    }
  }

  /** Every indicator the keyword scanner's specification yields is a
      `pattern_match` or a `keyword` indicator for the scanned file. */
  lemma KeywordIndicatorTagged(ks: KeywordScanning.KeywordScanner, path: string, content: string, ind: Indicator)
    requires ind in KeywordScanning.PatternPart(ks, path, content) || ind in KeywordScanning.KeywordPart(ks, path, content)
    ensures ind.file == Some(path) && (ind.kind == "pattern_match" || ind.kind == "keyword")
  {
    if ind in KeywordScanning.PatternPart(ks, path, content) {
      var pattern, m := KeywordScanning.PatternIndicatorSound(ks.engine, ks.compiledPatterns, path, content, ind);
    } else {
      var i := KeywordScanning.KeywordIndicatorSound(ks, path, Text.SplitLines(content), ind);
    }
  }
}
