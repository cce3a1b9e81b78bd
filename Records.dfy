/** The records every scanner, the scorer and the classifier exchange
    (repo_scanner/src/repo_scanner/scanner/result.py). Optional fields are
    `Option`s, float fields are `real`, and Python's keyword defaults are the
    constructors' default arguments. */
module Records {
  import opened Wrappers

  /** One typed, scored signal taken from one file. The Python field `type`
      is called `kind` here (`type` is a keyword of Dafny). Its values in the
      core are "keyword", "pattern_match", "dependency", "ast_import" and
      "ast_class". A `score` of 0.0 means "use the scorer's default weight". */
  datatype Indicator = Indicator(
    kind: string,
    value: string,
    file: Option<string> := None,
    line: Option<int> := None,
    context: Option<string> := None,
    score: real := 0.0,
    classification: Option<string> := None)

  /** The outcome of scanning one repository. `timestamp` is filled in by the
      caller from the clock, which is not part of this model. */
  datatype ScanResult = ScanResult(
    repository: string,
    classification: string := "UNKNOWN",
    confidence: real := 0.0,
    indicators: seq<Indicator> := [],
    languagesDetected: seq<string> := [],
    filesScanned: int := 0,
    commitSha: Option<string> := None,
    timestamp: string)

  /** One file handed to the scanners by the file walker. */
  datatype FileData = FileData(path: string, content: string, extension: string)

  /** An indicator built from its two required fields alone has no file,
      line, context or classification, and score 0.0. */
  lemma IndicatorDefaults(kind: string, value: string)
    ensures Indicator(kind, value).kind == kind && Indicator(kind, value).value == value
    ensures Indicator(kind, value).file == None && Indicator(kind, value).line == None
    ensures Indicator(kind, value).context == None && Indicator(kind, value).classification == None
    ensures Indicator(kind, value).score == 0.0
  {
  }

  /** A result built from a repository name alone is "UNKNOWN" with
      confidence 0.0, no indicators, no languages and no files scanned. */
  lemma ScanResultDefaults(repository: string, timestamp: string)
    ensures var r := ScanResult(repository, timestamp := timestamp);
      r.repository == repository && r.classification == "UNKNOWN" && r.confidence == 0.0 &&
      r.indicators == [] && r.languagesDetected == [] && r.filesScanned == 0 &&
      r.commitSha == None && r.timestamp == timestamp
  {
  }
}
