/** The parsed scanner configuration (the YAML document the command line
    loads). A key that is missing from the document is `None`; each component
    applies its own default with `GetOr`, as the Python code does with
    `dict.get(key, default)`. */
module Config {
  import opened Wrappers

  /** One user-supplied signature under `patterns`. `regex` is the only key
      the keyword scanner reads without a default. */
  datatype RuleConfig = RuleConfig(
    regex: string,
    score: Option<real> := None,
    classification: Option<string> := None,
    name: Option<string> := None)

  /** `keywords.server_indicators` and `keywords.client_indicators`. */
  datatype KeywordsConfig = KeywordsConfig(
    serverIndicators: Option<seq<string>> := None,
    clientIndicators: Option<seq<string>> := None)

  /** `weights.keyword_match`, `weights.dependency_match`, `weights.ast_match`. */
  datatype WeightsConfig = WeightsConfig(
    keywordMatch: Option<real> := None,
    dependencyMatch: Option<real> := None,
    astMatch: Option<real> := None)

  /** `thresholds.classification.{high, medium, SERVER, CLIENT}`. */
  datatype ClassificationThresholds = ClassificationThresholds(
    high: Option<real> := None,
    medium: Option<real> := None,
    server: Option<real> := None,
    client: Option<real> := None)

  datatype ThresholdsConfig = ThresholdsConfig(classification: Option<ClassificationThresholds> := None)

  datatype ScannerConfig = ScannerConfig(
    keywords: Option<KeywordsConfig> := None,
    patterns: Option<seq<RuleConfig>> := None,
    weights: Option<WeightsConfig> := None,
    thresholds: Option<ThresholdsConfig> := None)
}
