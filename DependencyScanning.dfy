/** The dependency scanner
    (repo_scanner/src/repo_scanner/scanner/scanners/dependency_scanner.py):
    a manifest is recognised by its exact base name, and every name its
    extractor finds becomes one `dependency` indicator. */
module DependencyScanning {
  import opened Wrappers
  import opened Records
  import opened Text
  import opened Seqs

  /** The two extraction rules of the parser table. */
  datatype Extractor =
    | RequirementsTxt  // ^([a-zA-Z0-9_\-]+) in multi-line mode
    | PackageJson      // "(.*?)"\s*: in multi-line mode

  /** `self.parsers`: base name to extraction rule. */
  const Parsers: map<string, Extractor> :=
    map["requirements.txt" := RequirementsTxt, "package.json" := PackageJson]

  /** The scanner holds no state of its own; the `package.json` rule is a
      regular expression run by Python's `re`, which is not part of this
      model, so its result on a text is a parameter. */
  datatype DependencyScanner = DependencyScanner(packageJsonKeys: string -> seq<string>)

  /** The characters of `[a-zA-Z0-9_\-]`. */
  predicate IsNameChar(c: char)
  {
    'a' <= c <= 'z' || 'A' <= c <= 'Z' || '0' <= c <= '9' || c == '_' || c == '-'
  }

  /** The longest prefix of `line` made of name characters. */
  function LeadingRun(line: string): (r: string)
    ensures r <= line
    ensures forall k :: 0 <= k < |r| ==> IsNameChar(r[k])
    ensures |r| == |line| || !IsNameChar(line[|r|])
  {
    if line != [] && IsNameChar(line[0]) then [line[0]] + LeadingRun(line[1..]) else []
  }

  /** What the requirements rule finds on one line: the leading run, when
      there is one. `^` in multi-line mode stands at the start of each line,
      and a run never crosses a line break. */
  function RequirementOnLine(line: string): seq<string>
  {
    var run := LeadingRun(line);
    if run == [] then [] else [run]
  }

  /** `findall` of the requirements rule on a whole file. */
  function RequirementNames(content: string): seq<string>
  {
    FlatMap(RequirementOnLine, SplitLines(content))
  }

  function Extract(ds: DependencyScanner, e: Extractor, content: string): seq<string>
  {
    match e
    case RequirementsTxt => RequirementNames(content)
    case PackageJson => ds.packageJsonKeys(content)
  }

  /** The names the scanner reports for a file: none unless its base name is
      a key of the parser table. */
  function Matches(ds: DependencyScanner, path: string, content: string): seq<string>
  {
    var filename := Basename(path);
    if filename in Parsers then Extract(ds, Parsers[filename], content) else []
  }

  function DependencyIndicator(path: string, name: string): Indicator
  {
    Indicator("dependency", name, Some(path))
  }

  /** `DependencyScanner.scan`: one indicator per match, in match order,
      duplicates kept. */
  method Scan(ds: DependencyScanner, path: string, content: string) returns (inds: seq<Indicator>)
    ensures Basename(path) !in Parsers ==> inds == []
    ensures |inds| == |Matches(ds, path, content)|
    ensures forall i :: 0 <= i < |inds| ==>
      inds[i].kind == "dependency" && inds[i].value == Matches(ds, path, content)[i] &&
      inds[i].file == Some(path) && inds[i].line == None && inds[i].context == None &&
      inds[i].score == 0.0 && inds[i].classification == None
  {
    inds := [];
    var filename := Basename(path);
    if filename in Parsers {
      var matches := Extract(ds, Parsers[filename], content);
      for i := 0 to |matches|
        invariant |inds| == i
        invariant forall k :: 0 <= k < i ==> inds[k] == DependencyIndicator(path, matches[k])
      {
        inds := inds + [DependencyIndicator(path, matches[i])];
      }
    }
  }

  /** A file is a manifest by its exact base name, whatever its directory:
      `dev-requirements.txt` or `requirements.txt.bak` are not. */
  lemma ManifestByExactName(dir: string, name: string)
    requires '/' !in name
    ensures Basename(dir + "/" + name) in Parsers <==> name == "requirements.txt" || name == "package.json"
  {
    BasenameOfJoin(dir, name);
  }

  /** A file whose base name is not in the table yields nothing, whatever its content. */
  lemma OtherFilesYieldNothing(ds: DependencyScanner, dir: string, name: string, content: string)
    requires '/' !in name && name != "requirements.txt" && name != "package.json"
    ensures Matches(ds, dir + "/" + name, content) == []
  {
    BasenameOfJoin(dir, name);
  }

  lemma RequirementNamesCons(line: string, rest: string)
    requires '\n' !in line
    ensures RequirementNames(line + "\n" + rest) == RequirementOnLine(line) + RequirementNames(rest)
  {
    SplitLinesCons(line, rest);
    FlatMapAppend(RequirementOnLine, [line], SplitLines(rest));
    assert FlatMap(RequirementOnLine, [line]) == RequirementOnLine(line) by {
      assert [line][..0] == [];
    }
  }

  /** Each requirements line that starts with a name character contributes
      its whole leading run; any other line (a comment, a blank line, an
      option) contributes nothing. */
  lemma RequirementNamesMembers(content: string, name: string)
    ensures name in RequirementNames(content) <==>
      name != [] && exists line :: line in SplitLines(content) && name == LeadingRun(line)
  {
    FlatMapMember(RequirementOnLine, SplitLines(content), name);
  }

  /** A line starting with a non-name character, such as '#', contributes nothing. */
  lemma CommentLineContributesNothing(line: string)
    requires line == [] || !IsNameChar(line[0])
    ensures RequirementOnLine(line) == []
  {
  }

  /** Repeated names are all reported: two lines naming the same package
      give two matches. */
  lemma DuplicatesKept(line: string)
    requires '\n' !in line && line != [] && IsNameChar(line[0])
    ensures RequirementNames(line + "\n" + line) == [LeadingRun(line), LeadingRun(line)]
  {
    RequirementNamesCons(line, line);
    SplitLinesLast(line);
    assert FlatMap(RequirementOnLine, [line]) == RequirementOnLine(line) by {
      assert [line][..0] == [];
    }
  }

  /** A version pin ends the name: "mcp>=1.0" yields "mcp". */
  lemma PinnedRequirement(line: string)
    requires line == "mcp" + ">=1.0"
    ensures RequirementOnLine(line) == ["mcp"]
  {
    var rest := ">=1.0";
    assert LeadingRun(rest) == [];
    assert line[1..] == "cp" + rest && line[0] == 'm';
    assert ("cp" + rest)[1..] == "p" + rest && ("cp" + rest)[0] == 'c';
    assert ("p" + rest)[1..] == rest && ("p" + rest)[0] == 'p';
    assert LeadingRun("p" + rest) == "p";
    assert LeadingRun("cp" + rest) == "cp";
    assert LeadingRun(line) == ['m'] + "cp" == "mcp";
  }
}
