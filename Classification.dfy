/** The classifier (repo_scanner/scanner/classifier.py): a fixed decision
    list over the SERVER and CLIENT totals, and the largest total as the
    confidence. */
module Classification {
  import opened Wrappers
  import opened Records
  import opened Config
  import opened Scoring
  import opened Seqs

  const PROTOCOL_RELATED := "PROTOCOL_RELATED"
  const UNKNOWN := "UNKNOWN"

  /** `thresholds` is the `thresholds.classification` section; `serverThreshold`
      and `clientThreshold` are read from it but never used. */
  datatype Classifier = Classifier(
    scorer: Scorer,
    thresholds: ClassificationThresholds,
    serverThreshold: real,
    clientThreshold: real)

  /** `Classifier.__init__` */
  function NewClassifier(config: ScannerConfig): Classifier
  {
    var t := config.thresholds.GetOr(ThresholdsConfig()).classification.GetOr(ClassificationThresholds());
    Classifier(NewScorer(config), t, t.server.GetOr(0.6), t.client.GetOr(0.6))
  }

  function High(c: Classifier): real
  {
    c.thresholds.high.GetOr(8.0)
  }

  function Medium(c: Classifier): real
  {
    c.thresholds.medium.GetOr(5.0)
  }

  /** Without a `thresholds.classification` section, high is 8.0 and medium 5.0. */
  lemma DefaultThresholds(config: ScannerConfig)
    requires config.thresholds == None || config.thresholds == Some(ThresholdsConfig())
    ensures High(NewClassifier(config)) == 8.0 && Medium(NewClassifier(config)) == 5.0
    ensures NewClassifier(config).serverThreshold == 0.6 && NewClassifier(config).clientThreshold == 0.6
  {
  }

  predicate IsLabel(s: string)
  {
    s == SERVER || s == PROTOCOL_RELATED || s == CLIENT || s == UNKNOWN
  }

  /** The decision list, first match wins. */
  function Decide(server: real, client: real, high: real, medium: real): (verdict: string)
    ensures IsLabel(verdict)
  {
    if server >= high then SERVER
    else if server >= medium then PROTOCOL_RELATED
    else if client >= high then CLIENT
    else if server > 0.0 || client > 0.0 then UNKNOWN
    else UNKNOWN
  }

  /** `Classifier.classify` */
  function Classify(c: Classifier, inds: seq<Indicator>): (verdict: string)
    ensures IsLabel(verdict)
  {
    var scores := Scores(c.scorer, inds);
    Decide(Get(scores, SERVER), Get(scores, CLIENT), High(c), Medium(c))
  }

  /** Each label, stated as the condition on the two totals that yields it. */
  lemma ClassifyDecisionList(c: Classifier, inds: seq<Indicator>)
    ensures var server := Scores(c.scorer, inds)[SERVER];
      Classify(c, inds) == SERVER <==> server >= High(c)
    ensures var server := Scores(c.scorer, inds)[SERVER];
      Classify(c, inds) == PROTOCOL_RELATED <==> server < High(c) && server >= Medium(c)
    ensures var server, client := Scores(c.scorer, inds)[SERVER], Scores(c.scorer, inds)[CLIENT];
      Classify(c, inds) == CLIENT <==> server < High(c) && server < Medium(c) && client >= High(c)
    ensures var server, client := Scores(c.scorer, inds)[SERVER], Scores(c.scorer, inds)[CLIENT];
      Classify(c, inds) == UNKNOWN <==> server < High(c) && server < Medium(c) && client < High(c)
  {
  }

  /** A larger SERVER total never demotes SERVER or PROTOCOL_RELATED to a lower label. */
  lemma DecideMonotoneInServer(server: real, server': real, client: real, high: real, medium: real)
    requires server <= server'
    ensures Decide(server, client, high, medium) == SERVER ==> Decide(server', client, high, medium) == SERVER
    ensures Decide(server, client, high, medium) == PROTOCOL_RELATED ==>
      Decide(server', client, high, medium) in {SERVER, PROTOCOL_RELATED}
  {
  }

  /** The label does not depend on the order of the indicators. */
  lemma ClassifyPermutation(c: Classifier, a: seq<Indicator>, b: seq<Indicator>)
    requires multiset(a) == multiset(b)
    ensures Classify(c, a) == Classify(c, b)
    ensures Confidence(c, a) == Confidence(c, b)
  {
    ScoresPermutation(c.scorer, a, b);
  }

  /** The thresholds under `SERVER` and `CLIENT` have no influence on the label. */
  lemma ClassifyIgnoresPerLabelThresholds(c: Classifier, inds: seq<Indicator>, server: real, client: real)
    ensures Classify(c.(serverThreshold := server, clientThreshold := client), inds) == Classify(c, inds)
  {
  }

  /** The largest of the entries of `m` under `keys` (`max` over a view of
      the values). */
  function MaxOver(m: map<string, real>, keys: seq<string>): (r: real)
    requires keys != [] && forall i :: 0 <= i < |keys| ==> keys[i] in m
    ensures exists i :: 0 <= i < |keys| && r == m[keys[i]]
    ensures forall i :: 0 <= i < |keys| ==> m[keys[i]] <= r
  {
    if |keys| == 1 then m[keys[0]]
    else
      var r' := MaxOver(m, keys[..|keys| - 1]);
      var last := m[keys[|keys| - 1]];
      if last >= r' then last else r'
  }

  /** `Classifier.get_confidence`: the largest total of any category. */
  ghost function Confidence(c: Classifier, inds: seq<Indicator>): (r: real)
    ensures r in Scores(c.scorer, inds).Values
    ensures forall k :: k in Scores(c.scorer, inds) ==> Scores(c.scorer, inds)[k] <= r
    ensures r >= Scores(c.scorer, inds)[SERVER] && r >= Scores(c.scorer, inds)[CLIENT]
  {
    var scores := Scores(c.scorer, inds);
    var keys := Enumerate(scores.Keys);
    assert SERVER in keys;
    var r := MaxOver(scores, keys);
    forall k | k in scores
      ensures scores[k] <= r
    {
      var i :| 0 <= i < |keys| && keys[i] == k;
    }
    r
  }

  /** `Classifier.get_confidence`, computed: the scores, then a pass over
      the categories keeping the largest total seen. */
  method GetConfidence(c: Classifier, inds: seq<Indicator>) returns (r: real)
    ensures r == Confidence(c, inds)
  {
    var scores := CalculateScore(c.scorer, inds);
    r := scores[SERVER];
    ghost var best := SERVER;
    var rest := scores.Keys - {SERVER};
    while rest != {}
      invariant rest <= scores.Keys
      invariant best in scores && scores[best] == r
      invariant forall k :: k in scores && k !in rest ==> scores[k] <= r
      decreases |rest|
    {
      var k :| k in rest;
      if scores[k] > r {
        r := scores[k];
        best := k;
      }
      rest := rest - {k};
    }
    ConfidenceUnique(c, inds, best);
  }

  /** A total that no other total exceeds is the confidence. */
  lemma ConfidenceUnique(c: Classifier, inds: seq<Indicator>, best: string)
    requires best in Scores(c.scorer, inds)
    requires forall k :: k in Scores(c.scorer, inds) ==> Scores(c.scorer, inds)[k] <= Scores(c.scorer, inds)[best]
    ensures Confidence(c, inds) == Scores(c.scorer, inds)[best]
  {
    var scores := Scores(c.scorer, inds);
    var r := Confidence(c, inds);
    assert scores[best] <= r;
    var k :| k in scores && scores[k] == r;
    assert r <= scores[best];
  }

  /** No indicators: label UNKNOWN (for positive thresholds) and confidence 0.0. */
  lemma NothingFound(c: Classifier)
    requires High(c) > 0.0 && Medium(c) > 0.0
    ensures Classify(c, []) == UNKNOWN
    ensures Confidence(c, []) == 0.0
  {
    assert Scores(c.scorer, []) == map[SERVER := 0.0, CLIENT := 0.0];
    assert Scores(c.scorer, []).Values == {0.0};
  }

  /** Under the default thresholds, a single SERVER indicator of score 5.0
      gives PROTOCOL_RELATED (medium met, high not) and one of score 8.0 gives SERVER. */
  lemma ThresholdBoundary(config: ScannerConfig, value: string)
    requires config.thresholds == None
    ensures var c := NewClassifier(config);
      Classify(c, [Indicator("pattern_match", value, score := 5.0, classification := Some(SERVER))]) == PROTOCOL_RELATED &&
      Classify(c, [Indicator("pattern_match", value, score := 8.0, classification := Some(SERVER))]) == SERVER
  {
    var c := NewClassifier(config);
    var five := Indicator("pattern_match", value, score := 5.0, classification := Some(SERVER));
    var eight := Indicator("pattern_match", value, score := 8.0, classification := Some(SERVER));
    assert Category(five) == Some(SERVER) && Category(eight) == Some(SERVER);
    assert [five][..0] == [] && [eight][..0] == [];
    assert Accumulate(c.scorer, Seed, [five]) == Add(c.scorer, Seed, five);
    assert Scores(c.scorer, [five])[SERVER] == 5.0;
    assert Scores(c.scorer, [eight])[SERVER] == 8.0;
  }
}
