# MCP-Detector indicator and classification core, in Dafny

MCP-Detector scans repositories for signs that they implement a Model Context
Protocol server or client. This project models the part of it that turns one
file's path and content into typed, weighted **indicators**, folds the
indicators of a repository into per-category score totals, and turns the
totals into a label and a confidence value:

- `Records` — the `Indicator`, `ScanResult` and `FileData` records with their
  defaults (`Option` for optional fields, `real` for floats).
- `Config` — the parts of the scanner configuration the core reads.
- `KeywordScanning` — the keyword scanner: loading the configured regular
  expression signatures (a rule that does not compile is skipped), one
  `pattern_match` indicator per distinct match of each signature, and the
  legacy line-by-line keyword search on the lower-cased line.
- `DependencyScanning` — the dependency scanner: a manifest recognised by its
  exact base name, the `requirements.txt` rule (the leading run of
  `[A-Za-z0-9_-]` on each line) written out, one indicator per match.
- `AstScanning` — the syntax-tree scanner: the visitor that walks a parsed
  Python tree collecting imported module names and class names, proved equal
  to a pre-order reading of the tree, and the scan that turns them into
  `ast_import` and `ast_class` indicators.
- `Scanners` — the common scanner interface as a tagged dispatch.
- `Scoring` — the scorer: a fold of the indicators into a map from category
  to total, with SERVER and CLIENT seeded at 0.0, per-type fallback weights
  and category inference from the value; the loop is proved equal to the
  fold, and the fold is proved to be a sum per category, order-independent.
- `Classification` — the classifier: the first-match-wins decision list over
  the SERVER and CLIENT totals, and the largest total as confidence.
- `Wrappers`, `Text`, `Seqs` — `Option`, the string operations the scanners use
  (ASCII lower-casing, substring test, strip, truncation, line splitting,
  base name), and sequence lemmas (`FlatMap`, permutations, iteration over a set).

The scanners' loops are methods proved against ghost specification functions.
Where the source iterates over a Python `set` (the distinct matches of a
signature, the keyword sets), the model fixes no iteration order: the method
is proved equal to its specification up to permutation (as multisets), and the
specification reads the set in one arbitrary order (`Seqs.Enumerate`).

Regular expressions other than the `requirements.txt` rule, the `package.json`
extractor and Python's parser are not modelled; they are parameters
(`RegexEngine`, `DependencyScanner.packageJsonKeys`, `parse`).

## Model

| member | source | states |
|---|---|---|
| Records.IndicatorDefaults | repo_scanner/src/repo_scanner/scanner/result.py:5-12 | an indicator built from type and value alone has no file, line, context or classification and score 0.0 |
| Records.ScanResultDefaults | repo_scanner/src/repo_scanner/scanner/result.py:14-22 | a result built from a repository alone is "UNKNOWN", confidence 0.0, no indicators, no languages, no files scanned, no commit |
| KeywordScanning.NewKeywordScanner | repo_scanner/src/repo_scanner/scanner/scanners/keyword_scanner.py:7-24 | the keyword sets hold exactly the configured server and client keywords; the loaded signatures are the compiling rules, in order, with defaults filled in |
| KeywordScanning.RuleDefaults | repo_scanner/src/repo_scanner/scanner/scanners/keyword_scanner.py:19-21 | a rule with only a regex loads with score 1.0, classification "UNKNOWN", name "unknown" |
| KeywordScanning.SkippedRule | repo_scanner/src/repo_scanner/scanner/scanners/keyword_scanner.py:15-24 | a rule that does not compile is skipped and the rules around it load in their order |
| KeywordScanning.AllRulesLoad | repo_scanner/src/repo_scanner/scanner/scanners/keyword_scanner.py:15-22 | when every regex compiles, the i-th loaded signature is the i-th rule |
| KeywordScanning.PatternBlockLength | repo_scanner/src/repo_scanner/scanner/scanners/keyword_scanner.py:39-48 | one signature yields as many indicators as it has distinct matches |
| KeywordScanning.PatternBlockSound | repo_scanner/src/repo_scanner/scanner/scanners/keyword_scanner.py:39-48 | every indicator of a signature is the indicator of one of its matches |
| KeywordScanning.PatternBlockComplete | repo_scanner/src/repo_scanner/scanner/scanners/keyword_scanner.py:39-48 | every match of a signature has its indicator |
| KeywordScanning.RepeatedMatchCountsOnce | repo_scanner/src/repo_scanner/scanner/scanners/keyword_scanner.py:31-41 | three identical matches give a single indicator |
| KeywordScanning.NoMatchEmptyBlock | repo_scanner/src/repo_scanner/scanner/scanners/keyword_scanner.py:31-32 | a signature with no match contributes nothing |
| KeywordScanning.PatternIndicatorsCount | repo_scanner/src/repo_scanner/scanner/scanners/keyword_scanner.py:30-48 | the pattern path emits exactly the number of distinct matches, summed over the signatures |
| KeywordScanning.PatternIndicatorComplete | repo_scanner/src/repo_scanner/scanner/scanners/keyword_scanner.py:30-48 | every distinct match of every loaded signature has its indicator in the pattern part |
| KeywordScanning.PatternIndicatorSound | repo_scanner/src/repo_scanner/scanner/scanners/keyword_scanner.py:42-48 | each pattern indicator has type "pattern_match", value name + ": " + the match cut to 50 characters, and the score and classification of a loaded signature |
| Seqs.ForEachInSet | repo_scanner/src/repo_scanner/scanner/scanners/keyword_scanner.py:41-48 | iterating over a set and appending what each element yields gives, up to order, the same as any enumeration of the set |
| KeywordScanning.ScanPatterns | repo_scanner/src/repo_scanner/scanner/scanners/keyword_scanner.py:29-48 | the pattern loop emits one block per loaded signature, in configuration order, each block the indicators of that signature's distinct matches in the set's iteration order; as a multiset the output is the specified pattern part |
| KeywordScanning.ScanKeywords | repo_scanner/src/repo_scanner/scanner/scanners/keyword_scanner.py:50-60 | nothing when both keyword sets are empty; otherwise the lines in order, on each line the server keywords found and then the client keywords found, each block in its set's iteration order; as a multiset the output is the specified keyword part |
| KeywordScanning.Scan | repo_scanner/src/repo_scanner/scanner/scanners/keyword_scanner.py:26-62 | the result is the pattern part followed by the keyword part, each in the block order stated for the two loops |
| KeywordScanning.KeywordBlockSound | repo_scanner/src/repo_scanner/scanner/scanners/keyword_scanner.py:55-60 | an indicator of a keyword set on a line is for a keyword of that set occurring in the lower-cased line, with that line's fields |
| KeywordScanning.KeywordBlockComplete | repo_scanner/src/repo_scanner/scanner/scanners/keyword_scanner.py:55-57 | a keyword of the set occurring in the lower-cased line has its indicator |
| KeywordScanning.KeywordBlockNoDup | repo_scanner/src/repo_scanner/scanner/scanners/keyword_scanner.py:55-60 | one keyword set reports each keyword at most once per line |
| KeywordScanning.LineIndicatorSound | repo_scanner/src/repo_scanner/scanner/scanners/keyword_scanner.py:53-60 | what one line yields are keyword indicators of that line: line number i+1, score 0.1, SERVER or CLIENT by set, context the stripped line cut to 100 characters |
| KeywordScanning.KeywordIndicatorSound | repo_scanner/src/repo_scanner/scanner/scanners/keyword_scanner.py:52-60 | every keyword indicator comes from one scanned line and describes a keyword found in it |
| KeywordScanning.LineIndicatorComplete | repo_scanner/src/repo_scanner/scanner/scanners/keyword_scanner.py:54-60 | on one line, a keyword's indicator is emitted if and only if the keyword occurs in the lower-cased line |
| KeywordScanning.OtherLineAbsent | repo_scanner/src/repo_scanner/scanner/scanners/keyword_scanner.py:53-57 | an indicator carrying one line number is never emitted for another line |
| KeywordScanning.LaterLineAbsent | repo_scanner/src/repo_scanner/scanner/scanners/keyword_scanner.py:53-57 | the indicators of a line are not among those of the lines before it |
| KeywordScanning.KeywordIndicatorComplete | repo_scanner/src/repo_scanner/scanner/scanners/keyword_scanner.py:52-60 | over a whole text, the indicator for (line, keyword, set) is emitted if and only if the keyword occurs in that line lower-cased |
| KeywordScanning.LineIndicatorsNoDup | repo_scanner/src/repo_scanner/scanner/scanners/keyword_scanner.py:55-60 | one line yields no indicator twice, the server and client parts being disjoint |
| KeywordScanning.KeywordIndicatorsNoDup | repo_scanner/src/repo_scanner/scanner/scanners/keyword_scanner.py:52-60 | the keyword path yields no indicator twice |
| KeywordScanning.KeywordReportedOnce | repo_scanner/src/repo_scanner/scanner/scanners/keyword_scanner.py:52-57 | each matching (line, server keyword) pair is reported exactly once |
| KeywordScanning.UpperKeywordNeverMatches | repo_scanner/src/repo_scanner/scanner/scanners/keyword_scanner.py:54-56 | only the line is lower-cased, so a keyword with an upper-case letter is never reported |
| KeywordScanning.NoKeywordsNothingFound | repo_scanner/src/repo_scanner/scanner/scanners/keyword_scanner.py:51 | with both keyword sets empty the line search would find nothing, so the guard changes no result |
| KeywordScanning.ExampleLines | tests/verify.py:36 | the test content splits into its two lines |
| KeywordScanning.ExampleOccurrences | tests/verify.py:36 | "server" occurs in both test lines once lower-cased |
| KeywordScanning.TwoLineExample | tests/verify.py:36-49 | the test content with server keyword "server" yields an indicator on line 1 and one on line 2, so at least two |
| DependencyScanning.LeadingRun | repo_scanner/src/repo_scanner/scanner/scanners/dependency_scanner.py:11 | the run is the longest prefix of name characters of the line |
| DependencyScanning.Scan | repo_scanner/src/repo_scanner/scanner/scanners/dependency_scanner.py:21-45 | nothing for a base name not in the table; otherwise one "dependency" indicator per match, in order, value the match, file the path, score 0.0, no line, context or classification |
| DependencyScanning.ManifestByExactName | repo_scanner/src/repo_scanner/scanner/scanners/dependency_scanner.py:23-25 | a file is a manifest exactly when its base name is "requirements.txt" or "package.json", whatever its directory |
| DependencyScanning.OtherFilesYieldNothing | repo_scanner/src/repo_scanner/scanner/scanners/dependency_scanner.py:23-25 | any other base name yields no match, whatever the content |
| DependencyScanning.RequirementNamesCons | repo_scanner/src/repo_scanner/scanner/scanners/dependency_scanner.py:11 | the requirements rule reads the first line, then the rest |
| DependencyScanning.RequirementNamesMembers | repo_scanner/src/repo_scanner/scanner/scanners/dependency_scanner.py:11 | a name is found if and only if it is the non-empty leading run of some line |
| DependencyScanning.CommentLineContributesNothing | repo_scanner/src/repo_scanner/scanner/scanners/dependency_scanner.py:11 | a blank line or one starting with '#' or another non-name character contributes nothing |
| DependencyScanning.DuplicatesKept | repo_scanner/src/repo_scanner/scanner/scanners/dependency_scanner.py:26-43 | the same package on two lines is reported twice |
| DependencyScanning.PinnedRequirement | repo_scanner/src/repo_scanner/scanner/scanners/dependency_scanner.py:11 | "mcp>=1.0" yields "mcp" |
| AstScanning.VisitCollects | repo_scanner/scanner/scanners/ast_scanner.py:30-48 | visiting a node appends its own names and those of all its descendants, in pre-order, to the lists |
| AstScanning.VisitClassCollects | repo_scanner/scanner/scanners/ast_scanner.py:45-48 | a class definition appends its name, then what its body holds |
| AstScanning.VisitOtherCollects | repo_scanner/scanner/scanners/ast_scanner.py:30-48 | any other node with children appends what its children hold |
| AstScanning.VisitAllCollects | repo_scanner/scanner/scanners/ast_scanner.py:30-48 | visiting a list of nodes appends their names in pre-order |
| AstScanning.AnalyzeCollects | repo_scanner/scanner/scanners/ast_scanner.py:12-14 | a fresh analyzer run over a tree collects exactly the pre-order imports and class names of the tree |
| AstScanning.NestedFound | repo_scanner/scanner/scanners/ast_scanner.py:45-48 | a class or import anywhere in the tree, however deeply nested, is collected |
| AstScanning.ImportForms | repo_scanner/scanner/scanners/ast_scanner.py:35-43 | `import a, b` records each alias name, `from m import` records m, a relative import without module records nothing |
| AstScanning.Scan | repo_scanner/scanner/scanners/ast_scanner.py:8-28 | nothing for a path not ending in ".py" or a parse failure; otherwise one "ast_import" indicator per import, then one "ast_class" indicator per class, in walk order |
| AstScanning.ServerFixtureFindings | dummy_repo/server.py:3-7 | the fixture's tree yields the imports "socket" and "mcp.server" and no class |
| Scanners.ScanFile | repo_scanner/src/repo_scanner/scanner/scanners/base.py:5-11 | every indicator a scanner returns points at the scanned file and has one of that scanner's types |
| Scanners.KeywordResultTagged | repo_scanner/src/repo_scanner/scanner/scanners/keyword_scanner.py:26-62 | a result made of a reordering of the pattern part followed by a reordering of the keyword part holds only "pattern_match" and "keyword" indicators for the scanned file |
| Scanners.KeywordIndicatorTagged | repo_scanner/src/repo_scanner/scanner/scanners/keyword_scanner.py:26-62 | every pattern or keyword indicator the keyword scanner specifies is a "pattern_match" or "keyword" indicator for the scanned file |
| Scoring.DefaultWeights | repo_scanner/src/repo_scanner/scanner/scorer.py:5-12 | without configured weights, keyword 0.1, dependency 0.5, ast 0.8; a configured weight is used as given |
| Scoring.CalculateScore | repo_scanner/src/repo_scanner/scanner/scorer.py:14-47 | the loop computes the fold of the indicators from the SERVER/CLIENT seed |
| Scoring.Accumulate | repo_scanner/src/repo_scanner/scanner/scorer.py:41-45 | accumulation never removes a category |
| Scoring.Scores | repo_scanner/src/repo_scanner/scanner/scorer.py:19 | SERVER and CLIENT are always present |
| Scoring.AddChangesOneEntry | repo_scanner/src/repo_scanner/scanner/scorer.py:41-45 | an indicator without category changes nothing; otherwise only its category's entry changes, created at the indicator's weight or increased by it |
| Scoring.AccumulateTotals | repo_scanner/src/repo_scanner/scanner/scorer.py:21-45 | a category is present if and only if it was seeded or some indicator has it, and its total is the seed plus the weights of its indicators |
| Scoring.ScoresAreTotals | repo_scanner/src/repo_scanner/scanner/scorer.py:19-45 | the keys are SERVER, CLIENT and the categories of the indicators, each mapped to the sum of its indicators' weights |
| Scoring.ScoresOfNothing | repo_scanner/src/repo_scanner/scanner/scorer.py:19 | no indicators give SERVER 0.0 and CLIENT 0.0 only |
| Scoring.AddCommutes | repo_scanner/src/repo_scanner/scanner/scorer.py:41-45 | adding two indicators in either order gives the same map |
| Scoring.AccumulateMoveToEnd | repo_scanner/src/repo_scanner/scanner/scorer.py:21-45 | moving one indicator to the end does not change the result |
| Scoring.AccumulatePermutation | repo_scanner/src/repo_scanner/scanner/scorer.py:21-45 | the fold gives the same map for any reordering of the indicators |
| Scoring.ScoresPermutation | repo_scanner/src/repo_scanner/scanner/scorer.py:14-47 | the scores do not depend on the order of the indicators |
| Scoring.AccumulateAppend | repo_scanner/src/repo_scanner/scanner/scorer.py:21-45 | folding a concatenation is folding the second part from the result of the first |
| Scoring.AccumulateGrows | repo_scanner/src/repo_scanner/scanner/scorer.py:21-45 | with non-negative weights no entry decreases |
| Scoring.ScoresGrow | repo_scanner/src/repo_scanner/scanner/scorer.py:14-47 | with non-negative weights, more indicators never lower any total |
| Scoring.WeightFallback | repo_scanner/src/repo_scanner/scanner/scorer.py:22-30 | a non-zero score is used as is; a zero score falls back to the keyword, dependency or ast weight by type, and stays 0.0 for "pattern_match" |
| Scoring.ExplicitCategory | repo_scanner/src/repo_scanner/scanner/scorer.py:33-34 | a present, non-empty classification is the category, whatever the value |
| Scoring.CategoryInference | repo_scanner/src/repo_scanner/scanner/scorer.py:33-39 | without classification the category depends only on the lower-cased value: SERVER exactly when it contains server, listen or bind, CLIENT exactly when not and it contains client or connect |
| Scoring.UncategorisedDependencyContributesNothing | repo_scanner/src/repo_scanner/scanner/scorer.py:33-45 | a dependency indicator whose name has none of the category words changes no total |
| Classification.DefaultThresholds | repo_scanner/scanner/classifier.py:6-21 | without a classification section, high 8.0, medium 5.0, and the unused per-label thresholds 0.6 |
| Classification.Decide | repo_scanner/scanner/classifier.py:23-35 | the result is one of SERVER, PROTOCOL_RELATED, CLIENT, UNKNOWN |
| Classification.Classify | repo_scanner/scanner/classifier.py:12-35 | the label is one of the four |
| Classification.ClassifyDecisionList | repo_scanner/scanner/classifier.py:23-35 | each label if and only if its condition on the totals: SERVER when server >= high, PROTOCOL_RELATED when medium <= server < high, CLIENT when server < medium and client >= high, UNKNOWN otherwise |
| Classification.DecideMonotoneInServer | repo_scanner/scanner/classifier.py:23-26 | a larger server total never demotes SERVER or PROTOCOL_RELATED |
| Classification.ClassifyPermutation | repo_scanner/scanner/classifier.py:12-39 | label and confidence do not depend on the order of the indicators |
| Classification.ClassifyIgnoresPerLabelThresholds | repo_scanner/scanner/classifier.py:8-23 | the SERVER and CLIENT thresholds read at construction never change the label |
| Classification.MaxOver | repo_scanner/scanner/classifier.py:39 | the maximum is one of the values and no value exceeds it |
| Classification.Confidence | repo_scanner/scanner/classifier.py:37-39 | the confidence is one of the totals, at least every total, in particular SERVER's and CLIENT's |
| Classification.GetConfidence | repo_scanner/scanner/classifier.py:37-39 | the compiled pass over the categories returns exactly the confidence: the largest total |
| Classification.ConfidenceUnique | repo_scanner/scanner/classifier.py:39 | a total no other total exceeds is the confidence |
| Classification.NothingFound | repo_scanner/scanner/classifier.py:31-39 | no indicators give UNKNOWN and confidence 0.0 |
| Classification.ThresholdBoundary | repo_scanner/scanner/classifier.py:20-26 | under the defaults, one SERVER indicator of score 5.0 gives PROTOCOL_RELATED and one of 8.0 gives SERVER |

## Left out

- Python's `re` is not modelled: whether a configured regex compiles and what `findall` returns are the parameter `RegexEngine`, whose `findAll` yields the strings the scanner keeps. For a pattern with no group or one group `findall` returns strings; for two or more groups it returns tuples and the scanner keeps the first element of each (keyword_scanner.py:39); `findAll` stands for that list of strings in both cases.
- The `package.json` rule of the dependency scanner is a regex run by `re`; its result is the parameter `packageJsonKeys`.
- `ast.parse` is a parameter returning a tree, a syntax error or another error; both errors give no indicators, and the log messages are left out.
- AstScanning.Scan: does not model the walk itself failing. In Python the visitor recurses once per tree level (two frames per level), so a deeply nested tree, such as a long chain of `+`, exceeds the interpreter's recursion limit; the `except Exception` at ast_scanner.py:24-25 catches the `RecursionError` and the scan returns `[]`. The model's walk always completes and returns every import and class of a parsed tree, because the recursion limit depends on the interpreter's stack at the time of the call.
- The syntax tree keeps only imports, `from` imports and class definitions; every other node kind is one generic node with its children, in the order `generic_visit` visits them.
- `str.splitlines` is modelled as splitting on '\n' only (Python also splits on '\r', "\r\n", '\x0b', '\x0c' and other separators); `lower` and `strip` act on ASCII only.
- `os.path.basename` is modelled as the part after the last '/'.
- A rule without a `regex` key raises `KeyError` in the source (not caught); the model's rules always carry a regex.
- Floats are `real`: the order-independence of the scores holds over reals, not exactly over IEEE doubles.
- Set iteration order is not modelled: inside one signature's block of pattern indicators, and inside one keyword set's block on one line, the indicators are specified up to permutation; the order of signatures, of lines, and of the server block before the client block is stated.
- Distinct matches sharing their first 50 characters produce equal pattern indicators, so "one indicator per distinct match" counts matches, not different indicator values.
- Classification.Confidence: the specification of `get_confidence` (the largest total, by its two defining properties); `Classification.GetConfidence` computes it with a pass over the categories.
- The classifier in repo_scanner/scanner/ imports the scorer beside it, repo_scanner/scanner/scorer.py, which is not part of this model; it is modelled over the scorer of repo_scanner/src/repo_scanner/scanner/scorer.py.
- The `thresholds` entry the scorer reads at construction is never used and is not modelled.
- Logging, the clock (`ScanResult.timestamp` is a parameter), both command-line programs, the GitHub client, the repository fetcher, the file filter and the YAML loader are not part of this model.
