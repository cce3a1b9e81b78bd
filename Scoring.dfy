/** The scorer (repo_scanner/src/repo_scanner/scanner/scorer.py): folds
    indicators into a map from category name to accumulated weight. */
module Scoring {
  import opened Wrappers
  import opened Records
  import opened Config
  import opened Text
  import opened Seqs

  const SERVER := "SERVER"
  const CLIENT := "CLIENT"

  /** The map every fold starts from: SERVER and CLIENT are always present. */
  const Seed: map<string, real> := map[SERVER := 0.0, CLIENT := 0.0]

  /** The default weight per indicator type, used when an indicator's own score is 0.0. */
  datatype Scorer = Scorer(weightKeyword: real, weightDependency: real, weightAst: real)

  /** `Scorer.__init__`: `weights.keyword_match`, `weights.dependency_match`
      and `weights.ast_match`, defaulting to 0.1, 0.5 and 0.8. */
  function NewScorer(config: ScannerConfig): Scorer
  {
    var w := config.weights.GetOr(WeightsConfig());
    Scorer(w.keywordMatch.GetOr(0.1), w.dependencyMatch.GetOr(0.5), w.astMatch.GetOr(0.8))
  }

  /** Without a `weights` section, or with an empty one, the defaults are
      0.1, 0.5 and 0.8; a weight that is given replaces its default. */
  lemma DefaultWeights(config: ScannerConfig)
    ensures config.weights == None || config.weights == Some(WeightsConfig()) ==>
      NewScorer(config) == Scorer(0.1, 0.5, 0.8)
    ensures config.weights.Some? && config.weights.value.keywordMatch.Some? ==>
      NewScorer(config).weightKeyword == config.weights.value.keywordMatch.value
    ensures config.weights.Some? && config.weights.value.dependencyMatch.Some? ==>
      NewScorer(config).weightDependency == config.weights.value.dependencyMatch.value
    ensures config.weights.Some? && config.weights.value.astMatch.Some? ==>
      NewScorer(config).weightAst == config.weights.value.astMatch.value
  {
  }

  /** The weight an indicator contributes: its own score unless that is 0.0,
      then the default of its type; other types (e.g. "pattern_match") keep 0.0. */
  function EffectiveWeight(s: Scorer, ind: Indicator): real
  {
    if ind.score != 0.0 then ind.score
    else if ind.kind == "keyword" then s.weightKeyword
    else if ind.kind == "dependency" then s.weightDependency
    else if StartsWith(ind.kind, "ast") then s.weightAst
    else ind.score
  }

  /** The substring heuristic on an already lower-cased value. */
  function InferCategory(lowered: string): Option<string>
  {
    if Contains(lowered, "server") || Contains(lowered, "listen") || Contains(lowered, "bind") then Some(SERVER)
    else if Contains(lowered, "client") || Contains(lowered, "connect") then Some(CLIENT)
    else None
  }

  /** The category an indicator counts towards, if any: its classification
      when present and non-empty, else the heuristic on its lower-cased value. */
  function Category(ind: Indicator): Option<string>
  {
    if ind.classification.Some? && ind.classification.value != "" then ind.classification
    else InferCategory(Lower(ind.value))
  }

  /** `scores.get(c, 0.0)` */
  function Get(scores: map<string, real>, c: string): real
  {
    if c in scores then scores[c] else 0.0
  }

  /** The effect of one indicator on the map (one pass of the loop body). */
  function Add(s: Scorer, scores: map<string, real>, ind: Indicator): map<string, real>
  {
    match Category(ind)
    case None => scores
    case Some(c) => scores[c := Get(scores, c) + EffectiveWeight(s, ind)]
  }

  /** Left fold of `Add` over `inds`, starting from `scores`. */
  function Accumulate(s: Scorer, scores: map<string, real>, inds: seq<Indicator>): (r: map<string, real>)
    ensures forall k :: k in scores ==> k in r
  {
    if inds == [] then scores
    else Add(s, Accumulate(s, scores, inds[..|inds| - 1]), inds[|inds| - 1])
  }

  /** What `calculate_score` returns. */
  function Scores(s: Scorer, inds: seq<Indicator>): (r: map<string, real>)
    ensures SERVER in r && CLIENT in r
  {
    Accumulate(s, Seed, inds)
  }

  /** `Scorer.calculate_score` */
  method CalculateScore(s: Scorer, inds: seq<Indicator>) returns (scores: map<string, real>)
    ensures scores == Scores(s, inds)
  {
    scores := map[SERVER := 0.0, CLIENT := 0.0];
    for i := 0 to |inds|
      invariant scores == Accumulate(s, Seed, inds[..i])
      invariant "" !in scores
    {
      var ind := inds[i];
      var weight := ind.score;
      if weight == 0.0 {
        if ind.kind == "keyword" {
          weight := s.weightKeyword;
        } else if ind.kind == "dependency" {
          weight := s.weightDependency;
        } else if StartsWith(ind.kind, "ast") {
          weight := s.weightAst;
        }
      }
      var category := ind.classification;
      if category == None || category.value == "" {
        var valLower := Lower(ind.value);
        if Contains(valLower, "server") || Contains(valLower, "listen") || Contains(valLower, "bind") {
          category := Some(SERVER);
        } else if Contains(valLower, "client") || Contains(valLower, "connect") {
          category := Some(CLIENT);
        }
      }
      if category.Some? && category.value in scores {
        scores := scores[category.value := scores[category.value] + weight];
      } else if category.Some? && category.value != "" {
        scores := scores[category.value := weight];
      }
      assert inds[..i + 1][..i] == inds[..i];
    }
    assert inds[..|inds|] == inds;
  }

  /** An indicator without a category leaves the map as it is; one with a
      category changes that entry only, creating it with the indicator's
      weight when it is new. */
  lemma AddChangesOneEntry(s: Scorer, scores: map<string, real>, ind: Indicator)
    ensures Category(ind) == None ==> Add(s, scores, ind) == scores
    ensures forall k :: k in Add(s, scores, ind) && Some(k) != Category(ind) ==>
      k in scores && Add(s, scores, ind)[k] == scores[k]
    ensures forall c :: Category(ind) == Some(c) && c !in scores ==>
      c in Add(s, scores, ind) && Add(s, scores, ind)[c] == EffectiveWeight(s, ind)
    ensures forall c :: Category(ind) == Some(c) && c in scores ==>
      Add(s, scores, ind)[c] == scores[c] + EffectiveWeight(s, ind)
  {
  }

  /** The total weight of the indicators whose category is `c`: a reference
      definition of one entry of the map, independent of the other entries. */
  function Total(s: Scorer, inds: seq<Indicator>, c: string): real
  {
    if inds == [] then 0.0
    else Total(s, inds[..|inds| - 1], c) +
         (if Category(inds[|inds| - 1]) == Some(c) then EffectiveWeight(s, inds[|inds| - 1]) else 0.0)
  }

  ghost predicate HasCategory(inds: seq<Indicator>, c: string)
  {
    exists i :: 0 <= i < |inds| && Category(inds[i]) == Some(c)
  }

  lemma {:induction false} AccumulateTotals(s: Scorer, m: map<string, real>, inds: seq<Indicator>, c: string)
    ensures c in Accumulate(s, m, inds) <==> c in m || HasCategory(inds, c)
    ensures Get(Accumulate(s, m, inds), c) == Get(m, c) + Total(s, inds, c)
  {
    if inds != [] {
      var init := inds[..|inds| - 1];
      var last := inds[|inds| - 1];
      AccumulateTotals(s, m, init, c);
      if HasCategory(init, c) {
        var i :| 0 <= i < |init| && Category(init[i]) == Some(c);
        assert inds[i] == init[i];
      }
      if HasCategory(inds, c) && !HasCategory(init, c) {
        var i :| 0 <= i < |inds| && Category(inds[i]) == Some(c);
        assert i == |inds| - 1;
      }
      if Category(last) == Some(c) {
        assert HasCategory(inds, c);
      }
    }
  }

  /** Each entry of the computed map is the total weight of the indicators of
      that category; the map holds SERVER, CLIENT and exactly the categories
      some indicator has. */
  lemma ScoresAreTotals(s: Scorer, inds: seq<Indicator>, c: string)
    ensures c in Scores(s, inds) <==> c == SERVER || c == CLIENT || HasCategory(inds, c)
    ensures c in Scores(s, inds) ==> Scores(s, inds)[c] == Total(s, inds, c)
  {
    AccumulateTotals(s, Seed, inds, c);
  }

  /** With no indicators every category total is 0.0 and only SERVER and CLIENT exist. */
  lemma ScoresOfNothing(s: Scorer)
    ensures Scores(s, []) == map[SERVER := 0.0, CLIENT := 0.0]
  {
  }

  lemma AddCommutes(s: Scorer, m: map<string, real>, x: Indicator, y: Indicator)
    ensures Add(s, Add(s, m, x), y) == Add(s, Add(s, m, y), x)
  {
  }

  lemma {:induction false} AccumulateMoveToEnd(s: Scorer, m: map<string, real>, a: seq<Indicator>, x: Indicator, b: seq<Indicator>)
    ensures Accumulate(s, m, a + [x] + b) == Accumulate(s, m, a + b + [x])
    decreases |b|
  {
    if b == [] {
      assert a + [x] + b == a + b + [x];
    } else {
      var b' := b[..|b| - 1];
      var y := b[|b| - 1];
      assert a + [x] + b == (a + [x] + b') + [y];
      assert a + b == (a + b') + [y];
      assert (a + [x] + b')[..|a + [x] + b'|] == a + [x] + b';
      AccumulateMoveToEnd(s, m, a, x, b');
      AddCommutes(s, Accumulate(s, m, a + b'), x, y);
      calc {
        Accumulate(s, m, a + [x] + b);
        Add(s, Accumulate(s, m, a + [x] + b'), y);
        Add(s, Accumulate(s, m, a + b' + [x]), y);
        { assert (a + b' + [x])[..|a + b' + [x]| - 1] == a + b'; }
        Add(s, Add(s, Accumulate(s, m, a + b'), x), y);
        Add(s, Add(s, Accumulate(s, m, a + b'), y), x);
        { assert (a + b)[..|a + b| - 1] == a + b'; }
        Add(s, Accumulate(s, m, a + b), x);
        { assert (a + b + [x])[..|a + b + [x]| - 1] == a + b; }
        Accumulate(s, m, a + b + [x]);
      }
    }
  }

  lemma {:induction false} AccumulatePermutation(s: Scorer, m: map<string, real>, a: seq<Indicator>, b: seq<Indicator>)
    requires multiset(a) == multiset(b)
    ensures Accumulate(s, m, a) == Accumulate(s, m, b)
    decreases |a|
  {
    if a == [] {
      assert |b| == |multiset(b)| == 0;
    } else {
      var x := a[|a| - 1];
      var j := PermutationSplit(a, b);
      var b' := b[..j] + b[j + 1..];
      AccumulatePermutation(s, m, a[..|a| - 1], b');
      AccumulateMoveToEnd(s, m, b[..j], x, b[j + 1..]);
      assert (b' + [x])[..|b' + [x]| - 1] == b';
    }
  }

  /** The map does not depend on the order of the indicators. */
  lemma ScoresPermutation(s: Scorer, a: seq<Indicator>, b: seq<Indicator>)
    requires multiset(a) == multiset(b)
    ensures Scores(s, a) == Scores(s, b)
  {
    AccumulatePermutation(s, Seed, a, b);
  }

  lemma {:induction false} AccumulateAppend(s: Scorer, m: map<string, real>, a: seq<Indicator>, b: seq<Indicator>)
    ensures Accumulate(s, m, a + b) == Accumulate(s, Accumulate(s, m, a), b)
    decreases |b|
  {
    if b == [] {
      assert a + b == a;
    } else {
      var b' := b[..|b| - 1];
      assert (a + b)[..|a + b| - 1] == a + b';
      assert (a + b)[|a + b| - 1] == b[|b| - 1];
      AccumulateAppend(s, m, a, b');
    }
  }

  lemma {:induction false} AccumulateGrows(s: Scorer, m: map<string, real>, b: seq<Indicator>)
    requires forall i :: 0 <= i < |b| ==> EffectiveWeight(s, b[i]) >= 0.0
    ensures forall c :: c in m ==> Accumulate(s, m, b)[c] >= m[c]
  {
    if b != [] {
      var b' := b[..|b| - 1];
      assert forall i :: 0 <= i < |b'| ==> b'[i] == b[i];
      AccumulateGrows(s, m, b');
      assert EffectiveWeight(s, b[|b| - 1]) >= 0.0;
    }
  }

  /** With non-negative weights, adding indicators never lowers a category's total. */
  lemma ScoresGrow(s: Scorer, a: seq<Indicator>, b: seq<Indicator>)
    requires forall i :: 0 <= i < |b| ==> EffectiveWeight(s, b[i]) >= 0.0
    ensures forall c :: c in Scores(s, a) ==> c in Scores(s, a + b) && Scores(s, a + b)[c] >= Scores(s, a)[c]
  {
    AccumulateAppend(s, Seed, a, b);
    AccumulateGrows(s, Scores(s, a), b);
  }

  /** A non-zero score is used as it is; a zero score takes the default of
      "keyword", "dependency" or any type starting with "ast", and stays 0.0
      for every other type. */
  lemma WeightFallback(s: Scorer, ind: Indicator)
    ensures ind.score != 0.0 ==> EffectiveWeight(s, ind) == ind.score
    ensures ind.score == 0.0 && ind.kind == "keyword" ==> EffectiveWeight(s, ind) == s.weightKeyword
    ensures ind.score == 0.0 && ind.kind == "dependency" ==> EffectiveWeight(s, ind) == s.weightDependency
    ensures ind.score == 0.0 && StartsWith(ind.kind, "ast") ==> EffectiveWeight(s, ind) == s.weightAst
    ensures ind.score == 0.0 && ind.kind == "pattern_match" ==> EffectiveWeight(s, ind) == 0.0
  {
    if StartsWith(ind.kind, "ast") {
      assert ind.kind[0] == 'a';
    }
    assert !StartsWith("pattern_match", "ast") by {
      assert "pattern_match"[0] == 'p';
    }
  }

  /** A present, non-empty classification is the category, whatever the value says. */
  lemma ExplicitCategory(ind: Indicator)
    requires ind.classification.Some? && ind.classification.value != ""
    ensures Category(ind) == ind.classification
    ensures forall v :: Category(ind.(value := v)) == ind.classification
  {
  }

  /** Without a classification, the heuristic ignores letter case, and SERVER
      wins over CLIENT when the value mentions both. */
  lemma CategoryInference(ind: Indicator)
    requires ind.classification == None || ind.classification == Some("")
    ensures Category(ind) == Category(ind.(value := Lower(ind.value)))
    ensures Category(ind) == Some(SERVER) <==>
      Contains(Lower(ind.value), "server") || Contains(Lower(ind.value), "listen") || Contains(Lower(ind.value), "bind")
    ensures Category(ind) == Some(CLIENT) <==>
      !Contains(Lower(ind.value), "server") && !Contains(Lower(ind.value), "listen") && !Contains(Lower(ind.value), "bind") &&
      (Contains(Lower(ind.value), "client") || Contains(Lower(ind.value), "connect"))
    ensures Category(ind).Some? ==> Category(ind) == Some(SERVER) || Category(ind) == Some(CLIENT)
  {
    LowerIdempotent(ind.value);
  }

  /** A dependency with no score and no classification whose name mentions
      none of the heuristic's words adds nothing to any total. */
  lemma UncategorisedDependencyContributesNothing(s: Scorer, inds: seq<Indicator>, dep: Indicator)
    requires dep.kind == "dependency" && dep.score == 0.0 && dep.classification == None
    requires var v := Lower(dep.value);
      !Contains(v, "server") && !Contains(v, "listen") && !Contains(v, "bind") &&
      !Contains(v, "client") && !Contains(v, "connect")
    ensures Scores(s, inds + [dep]) == Scores(s, inds)
  {
    assert (inds + [dep])[..|inds|] == inds;
  }
}
