/**
 * The ensemble and the response of the enhanced emotion service
 * (backend/services/enhanced_emotion_analysis.py, lines 217-362): the
 * per-method score vectors are weighted, the weights boosted by each
 * method's share of the total confidence and normalised, the weighted
 * scores summed, and the primary emotion picked with a minimum-confidence
 * rule.
 */
module EnhancedEnsemble {
  import opened Wrappers
  import opened Text
  import opened Emotions
  import opened Pipelines
  import RealSeq
  import Ranking
  import EnhancedEmotion

  /** One entry of `results`: a score vector, the method's name, its weight and its confidence. */
  datatype MethodResult = MethodResult(scores: seq<real>, source: string, weight: real, confidence: real)

  predicate WellFormed(rs: seq<MethodResult>) {
    forall i | 0 <= i < |rs| :: IsScores(rs[i].scores)
  }

  /** Weights and confidences that are not negative, as the service's always are. */
  predicate NonNegative(rs: seq<MethodResult>) {
    forall i | 0 <= i < |rs| :: rs[i].weight >= 0.0 && rs[i].confidence >= 0.0
  }

  function Confidences(rs: seq<MethodResult>): (c: seq<real>)
    ensures |c| == |rs| && forall i | 0 <= i < |rs| :: c[i] == rs[i].confidence
  {
    seq(|rs|, i requires 0 <= i < |rs| => rs[i].confidence)
  }

  function Weights(rs: seq<MethodResult>): (w: seq<real>)
    ensures |w| == |rs| && forall i | 0 <= i < |rs| :: w[i] == rs[i].weight
  {
    seq(|rs|, i requires 0 <= i < |rs| => rs[i].weight)
  }

  /**
   * The weights after the confidence boost: when the total confidence is
   * positive, each weight is multiplied by 1 plus its method's share of it.
   */
  function Boosted(rs: seq<MethodResult>): (b: seq<real>)
    ensures |b| == |rs|
  {
    var tc := RealSeq.Sum(Confidences(rs));
    if tc > 0.0 then seq(|rs|, i requires 0 <= i < |rs| => RealSeq.Mul(rs[i].weight, 1.0 + rs[i].confidence / tc))
    else Weights(rs)
  }

  function Uniform(n: nat): (u: seq<real>)
    requires n > 0
    ensures |u| == n && forall i | 0 <= i < n :: u[i] == 1.0 / n as real
  {
    seq(n, _ => 1.0 / n as real)
  }

  /** Each method's share: its boosted weight over their total, or `1 / len(results)` when that total is not positive. */
  function FinalWeights(rs: seq<MethodResult>): (w: seq<real>)
    requires rs != []
    ensures |w| == |rs|
  {
    var b := Boosted(rs);
    var tw := RealSeq.Sum(b);
    if tw > 0.0 then RealSeq.Div(b, tw) else Uniform(|rs|)
  }

  /** Every method's score for the emotion at table position `q`. */
  function Column(rs: seq<MethodResult>, q: nat): (c: seq<real>)
    requires WellFormed(rs) && q < N
    ensures |c| == |rs| && forall i | 0 <= i < |rs| :: c[i] == rs[i].scores[q]
  {
    seq(|rs|, i requires 0 <= i < |rs| => rs[i].scores[q])
  }

  /** The combined scores: all zero without results, else each emotion's scores weighted by the final weights. */
  function CombineSpec(rs: seq<MethodResult>): (v: seq<real>)
    requires WellFormed(rs)
    ensures IsScores(v)
  {
    if rs == [] then RealSeq.Zeros(N)
    else seq(N, q requires 0 <= q < N => RealSeq.Dot(Column(rs, q), FinalWeights(rs)))
  }

  /** `final_scores[emotion] += score * weight` for every emotion of one result. */
  method AddResult(final0: seq<real>, scores: seq<real>, weight: real) returns (final: seq<real>)
    requires IsScores(final0) && IsScores(scores)
    ensures IsScores(final) && forall q | 0 <= q < N :: final[q] == final0[q] + RealSeq.Mul(scores[q], weight)
  {
    final := final0;
    for q := 0 to N
      invariant IsScores(final)
      invariant forall r | 0 <= r < q :: final[r] == final0[r] + RealSeq.Mul(scores[r], weight)
      invariant forall r | q <= r < N :: final[r] == final0[r]
    {
      final := final[q := final[q] + RealSeq.Mul(scores[q], weight)];
    }
  }

  /** The confidence boost, applied to `result["weight"]` in place. */
  method BoostWeights(rs: seq<MethodResult>) returns (results: seq<MethodResult>)
    ensures |results| == |rs|
    ensures forall j | 0 <= j < |rs| :: results[j] == rs[j].(weight := Boosted(rs)[j])
  {
    results := rs;
    var totalConfidence := RealSeq.Sum(Confidences(rs));
    if totalConfidence > 0.0 {
      for k := 0 to |results|
        invariant |results| == |rs|
        invariant forall j | 0 <= j < k :: results[j] == rs[j].(weight := Boosted(rs)[j])
        invariant forall j | k <= j < |rs| :: results[j] == rs[j]
      {
        var confidenceBoost := results[k].confidence / totalConfidence;
        results := results[k := results[k].(weight := RealSeq.Mul(results[k].weight, 1.0 + confidenceBoost))];
      }
    } else {
      forall j | 0 <= j < |rs| ensures results[j] == rs[j].(weight := Boosted(rs)[j]) {
        assert Boosted(rs)[j] == rs[j].weight;
      }
    }
  }

  /**
   * The combination part of `_combine_analysis_methods`: no results give all
   * zeros; otherwise the weights are boosted by confidence and each result's
   * scores are added in, times its normalised weight.
   */
  method CombineResults(rs: seq<MethodResult>) returns (final: seq<real>)
    requires WellFormed(rs)
    ensures final == CombineSpec(rs)
  {
    if rs == [] {
      return RealSeq.Zeros(N);
    }
    var results := BoostWeights(rs);
    assert Weights(results) == Boosted(rs);
    var totalWeight := RealSeq.Sum(Weights(results));
    ghost var fw := FinalWeights(rs);
    final := RealSeq.Zeros(N);
    for k := 0 to |results|
      invariant IsScores(final)
      invariant forall q | 0 <= q < N :: final[q] == RealSeq.Dot(Column(rs, q)[..k], fw[..k])
    {
      var weight := if totalWeight > 0.0 then results[k].weight / totalWeight else 1.0 / |results| as real;
      FinalWeightAt(rs, results[k].weight, totalWeight, k);
      assert results[k].scores == rs[k].scores;
      ColumnStep(rs, fw, k);
      final := AddResult(final, rs[k].scores, weight);
    }
    CombineEnd(rs, final);
  }

  /** The weight the loop computes for result `k` is its final weight. */
  lemma FinalWeightAt(rs: seq<MethodResult>, w: real, tw: real, k: nat)
    requires rs != [] && k < |rs| && w == Boosted(rs)[k] && tw == RealSeq.Sum(Boosted(rs))
    ensures (if tw > 0.0 then w / tw else 1.0 / |rs| as real) == FinalWeights(rs)[k]
  {
  }

  /** Running sums over every result are the combined scores. */
  lemma CombineEnd(rs: seq<MethodResult>, final: seq<real>)
    requires WellFormed(rs) && rs != [] && IsScores(final)
    requires forall q | 0 <= q < N :: final[q] == RealSeq.Dot(Column(rs, q)[..|rs|], FinalWeights(rs)[..|rs|])
    ensures final == CombineSpec(rs)
  {
    var fw := FinalWeights(rs);
    assert fw[..|rs|] == fw;
    forall q | 0 <= q < N ensures final[q] == CombineSpec(rs)[q] {
      assert Column(rs, q)[..|rs|] == Column(rs, q);
    }
  }

  /** One more result adds its weighted score to every emotion's running weighted sum. */
  lemma ColumnStep(rs: seq<MethodResult>, fw: seq<real>, k: nat)
    requires WellFormed(rs) && |fw| == |rs| && k < |rs|
    ensures forall q | 0 <= q < N ::
      RealSeq.Dot(Column(rs, q)[..k + 1], fw[..k + 1]) == RealSeq.Dot(Column(rs, q)[..k], fw[..k]) + RealSeq.Mul(rs[k].scores[q], fw[k])
  {
    forall q | 0 <= q < N
      ensures RealSeq.Dot(Column(rs, q)[..k + 1], fw[..k + 1]) == RealSeq.Dot(Column(rs, q)[..k], fw[..k]) + RealSeq.Mul(rs[k].scores[q], fw[k])
    {
      RealSeq.DotStep(Column(rs, q), fw, k);
    }
  }

  /** The boost at most doubles a weight, and never lowers one. */
  lemma BoostBounds(rs: seq<MethodResult>)
    requires NonNegative(rs)
    ensures forall i | 0 <= i < |rs| :: rs[i].weight <= Boosted(rs)[i] <= 2.0 * rs[i].weight
  {
    var c := Confidences(rs);
    var tc := RealSeq.Sum(c);
    if tc > 0.0 {
      forall i | 0 <= i < |rs| ensures rs[i].weight <= Boosted(rs)[i] <= 2.0 * rs[i].weight {
        RealSeq.EntryAtMostSum(c, i);
        ShareBounds(rs[i].weight, rs[i].confidence, tc);
      }
    }
  }

  lemma ShareBounds(w: real, c: real, tc: real)
    requires w >= 0.0 && 0.0 <= c <= tc && tc > 0.0
    ensures w <= RealSeq.Mul(w, 1.0 + c / tc) <= 2.0 * w
  {
    assert 0.0 <= c / tc <= 1.0;
    RealSeq.MulMonotone(1.0, 1.0 + c / tc, w);
    RealSeq.MulMonotone(1.0 + c / tc, 2.0, w);
  }

  /** The final weights are not negative and sum to 1. */
  lemma FinalWeightsNormalised(rs: seq<MethodResult>)
    requires rs != [] && NonNegative(rs)
    ensures forall i | 0 <= i < |rs| :: FinalWeights(rs)[i] >= 0.0
    ensures RealSeq.Sum(FinalWeights(rs)) == 1.0
  {
    var b := Boosted(rs);
    var tw := RealSeq.Sum(b);
    var fw := FinalWeights(rs);
    BoostBounds(rs);
    if tw > 0.0 {
      RealSeq.Normalised(b);
      forall i | 0 <= i < |rs| ensures fw[i] >= 0.0 {
        RealSeq.DivSign(b[i], tw);
      }
    } else {
      var n := |rs| as real;
      RealSeq.SumConst(fw, 1.0 / n);
      assert n * (1.0 / n) == 1.0;
    }
  }

  /**
   * Each combined score lies between the smallest and the largest score the
   * methods give: the combination is a weighted mean.
   */
  lemma CombineBounds(rs: seq<MethodResult>, lo: real, hi: real)
    requires WellFormed(rs) && rs != [] && NonNegative(rs)
    requires forall i, q | 0 <= i < |rs| && 0 <= q < N :: lo <= rs[i].scores[q] <= hi
    ensures forall q | 0 <= q < N :: lo <= CombineSpec(rs)[q] <= hi
  {
    FinalWeightsNormalised(rs);
    var fw := FinalWeights(rs);
    forall q | 0 <= q < N ensures lo <= CombineSpec(rs)[q] <= hi {
      RealSeq.WeightedMeanBounds(Column(rs, q), fw, lo, hi);
    }
  }

  // ---------------------------------------------------------------------
  // The three methods of `_combine_analysis_methods` and `analyze_emotions`

  /** One method's entry: its scores, with their largest value as confidence. */
  function Entry(scores: seq<real>, source: string, weight: real): (r: MethodResult)
    requires IsScores(scores)
    ensures IsScores(r.scores)
  {
    MethodResult(scores, source, weight, RealSeq.Max(scores))
  }

  predicate ScoresOpt(v: Option<seq<real>>) {
    v.Some? ==> IsScores(v.value)
  }

  /**
   * `results` as `_combine_analysis_methods` collects it from the methods'
   * score vectors: the primary model (weight 0.5) and the backup model (0.3)
   * when each answered, then the keyword analysis (0.2).
   */
  function Results(primary: Option<seq<real>>, backup: Option<seq<real>>, keywords: seq<real>): (rs: seq<MethodResult>)
    requires ScoresOpt(primary) && ScoresOpt(backup) && IsScores(keywords)
    ensures WellFormed(rs)
  {
    EntryOpt(primary, "primary_model", 0.5) + EntryOpt(backup, "backup_model", 0.3)
    + [Entry(keywords, "enhanced_keywords", 0.2)]
  }

  /** A model's part of `results`: its entry when it answered, nothing otherwise. */
  function EntryOpt(scores: Option<seq<real>>, source: string, weight: real): (rs: seq<MethodResult>)
    requires ScoresOpt(scores)
    ensures WellFormed(rs) && |rs| == (if scores.Some? then 1 else 0)
  {
    if scores.Some? then [Entry(scores.value, source, weight)] else []
  }

  /** A classifier's mapped scores; `None` stands for a model that is not loaded or that raised. */
  function Mapped(labels: Option<seq<LabelScore>>): (r: Option<seq<real>>)
    ensures ScoresOpt(r) && r.Some? == labels.Some?
  {
    if labels.Some? then Some(EnhancedEmotion.MapSpec(labels.value)) else None
  }

  /** The results for a text and the classifiers' outputs on it. */
  function AnalysisResults(text: string, primary: Option<seq<LabelScore>>, backup: Option<seq<LabelScore>>): (rs: seq<MethodResult>)
    ensures WellFormed(rs)
  {
    Results(Mapped(primary), Mapped(backup), EnhancedEmotion.KeywordSpec(text))
  }

  /** `_combine_analysis_methods` with the classifiers' outputs as inputs. */
  method CombineAnalysisMethods(text: string, primary: Option<seq<LabelScore>>, backup: Option<seq<LabelScore>>)
    returns (scores: seq<real>)
    ensures scores == CombineSpec(AnalysisResults(text, primary, backup))
  {
    var results := CollectResults(text, primary, backup);
    scores := CombineResults(results);
  }

  /** The `results` list of `_combine_analysis_methods`, built method by method. */
  method CollectResults(text: string, primary: Option<seq<LabelScore>>, backup: Option<seq<LabelScore>>)
    returns (results: seq<MethodResult>)
    ensures results == AnalysisResults(text, primary, backup)
  {
    results := AddModel([], primary, "primary_model", 0.5);
    results := AddModel(results, backup, "backup_model", 0.3);
    var keywordScores := EnhancedEmotion.KeywordAnalysis(text);
    results := results + [MethodResult(keywordScores, "enhanced_keywords", 0.2, RealSeq.Max(keywordScores))];
    assert [] + EntryOpt(Mapped(primary), "primary_model", 0.5) == EntryOpt(Mapped(primary), "primary_model", 0.5);
  }

  /** A model's entry is appended when the model answered. */
  method AddModel(results: seq<MethodResult>, labels: Option<seq<LabelScore>>, source: string, weight: real)
    returns (results': seq<MethodResult>)
    ensures results' == results + EntryOpt(Mapped(labels), source, weight)
  {
    results' := results;
    if labels.Some? {
      var preciseScores := EnhancedEmotion.MapModelEmotions(labels.value);
      results' := results' + [MethodResult(preciseScores, source, weight, RealSeq.Max(preciseScores))];
    }
  }

  predicate NonNegativeOpt(v: Option<seq<real>>) {
    v.Some? ==> forall q | 0 <= q < |v.value| :: v.value[q] >= 0.0
  }

  /** With score vectors that are not negative, every combined score lies between 0 and the largest confidence. */
  lemma ResultsBounds(primary: Option<seq<real>>, backup: Option<seq<real>>, keywords: seq<real>)
    requires ScoresOpt(primary) && ScoresOpt(backup) && IsScores(keywords)
    requires NonNegativeOpt(primary) && NonNegativeOpt(backup) && forall q | 0 <= q < N :: keywords[q] >= 0.0
    ensures var rs := Results(primary, backup, keywords);
      forall q | 0 <= q < N :: 0.0 <= CombineSpec(rs)[q] <= RealSeq.Max(Confidences(rs))
  {
    var rs := Results(primary, backup, keywords);
    var hi := RealSeq.Max(Confidences(rs));
    forall i | 0 <= i < |rs| ensures rs[i].weight >= 0.0 && rs[i].confidence >= 0.0
      && forall q | 0 <= q < N :: 0.0 <= rs[i].scores[q] <= hi
    {
      assert Confidences(rs)[i] == rs[i].confidence;
      assert rs[i].scores == keywords || (primary.Some? && rs[i].scores == primary.value)
        || (backup.Some? && rs[i].scores == backup.value);
    }
    CombineBounds(rs, 0.0, hi);
  }

  /**
   * With classifier scores that are not negative, every combined score lies
   * between 0 and the largest confidence of the methods.
   */
  lemma AnalysisBounds(text: string, primary: Option<seq<LabelScore>>, backup: Option<seq<LabelScore>>)
    requires primary.Some? ==> forall k | 0 <= k < |primary.value| :: primary.value[k].score >= 0.0
    requires backup.Some? ==> forall k | 0 <= k < |backup.value| :: backup.value[k].score >= 0.0
    ensures var rs := AnalysisResults(text, primary, backup);
      forall q | 0 <= q < N :: 0.0 <= CombineSpec(rs)[q] <= RealSeq.Max(Confidences(rs))
  {
    if primary.Some? {
      EnhancedEmotion.MapSpecNonNegative(primary.value);
    }
    if backup.Some? {
      EnhancedEmotion.MapSpecNonNegative(backup.value);
    }
    var k := EnhancedEmotion.KeywordSpec(text);
    forall q | 0 <= q < N ensures k[q] >= 0.0 {
      EnhancedEmotion.KeywordSpecSign(text, All()[q]);
      IndexOfAll(q);
    }
    ResultsBounds(Mapped(primary), Mapped(backup), k);
  }

  /**
   * The primary emotion and its confidence: the first emotion with the
   * largest score, or mildness at 0.5 when that score is below 0.1.
   */
  function Primary(v: seq<real>): (p: (Emotion, real))
    requires IsScores(v)
    ensures p.1 >= 0.1
  {
    var i := RealSeq.ArgMax(v);
    if v[i] < 0.1 then (Mildness, 0.5) else (All()[i], v[i])
  }

  /** `"high" if confidence > 0.7 else "medium" if confidence > 0.4 else "low"` */
  function Quality(c: real): string {
    if c > 0.7 then "high" else if c > 0.4 then "medium" else "low"
  }

  /** `language or "unknown"`: an absent or empty language is reported as unknown. */
  function LanguageOr(language: Option<string>): (r: string)
    ensures r != []
    ensures r == "unknown" <==> language.None? || language.value == [] || language.value == "unknown"
  {
    if language.Some? && language.value != [] then language.value else "unknown"
  }

  /** The response dict of `analyze_emotions`, without the clock's `processing_time`. */
  datatype EmotionResponse = EmotionResponse(
    primary: Emotion, scores: seq<real>, confidence: real, category: Category, intensity: Intensity,
    language: string, source: string, top: seq<Ranking.TopEntry>, quality: string)

  /** `_get_default_response` */
  function DefaultResponse(language: Option<string>): (r: EmotionResponse)
    ensures IsScores(r.scores)
  {
    EmotionResponse(Mildness, RealSeq.Zeros(N), 0.0, Neutral, Low, LanguageOr(language), "default", [], "low")
  }

  /** What `analyze_emotions` returns, given the classifiers' outputs. */
  function AnalyzeSpec(text: string, language: Option<string>, primary: Option<seq<LabelScore>>, backup: Option<seq<LabelScore>>)
    : (r: EmotionResponse)
    ensures IsScores(r.scores)
  {
    if IsBlank(text) then DefaultResponse(language)
    else Respond(CombineSpec(AnalysisResults(text, primary, backup)), language)
  }

  /** The response for combined scores `v`. */
  function Respond(v: seq<real>, language: Option<string>): (r: EmotionResponse)
    requires IsScores(v)
    ensures r.scores == v
  {
    var p := Primary(v);
    EmotionResponse(p.0, v, p.1, CategoryOf(p.0), IntensityOf(p.0), LanguageOr(language),
      "enhanced_multi_model_analysis", Ranking.TopSpec(v, 5, 0.05), Quality(p.1))
  }

  /** The thresholding, metadata lookup and top-five selection of `analyze_emotions`. */
  method Threshold(emotionScores: seq<real>, language: Option<string>) returns (r: EmotionResponse)
    requires IsScores(emotionScores)
    ensures r == Respond(emotionScores, language)
  {
    var i := RealSeq.ArgMax(emotionScores);
    var primaryEmotion := All()[i];
    var confidence := emotionScores[i];
    if confidence < 0.1 {
      primaryEmotion := Mildness;
      confidence := 0.5;
    }
    var topEmotions := Ranking.TopEmotions(emotionScores, 5, 0.05);
    var quality := if confidence > 0.7 then "high" else if confidence > 0.4 then "medium" else "low";
    r := EmotionResponse(primaryEmotion, emotionScores, confidence, CategoryOf(primaryEmotion), IntensityOf(primaryEmotion),
      LanguageOr(language), "enhanced_multi_model_analysis", topEmotions, quality);
  }

  /**
   * `analyze_emotions`: the default response for empty or blank text;
   * otherwise the combined scores, the thresholded primary emotion with its
   * table metadata, the top five emotions above 0.05 and the quality band.
   */
  method AnalyzeEmotions(text: string, language: Option<string>, primary: Option<seq<LabelScore>>, backup: Option<seq<LabelScore>>)
    returns (r: EmotionResponse)
    ensures r == AnalyzeSpec(text, language, primary, backup)
  {
    StripEmptyIffBlank(text);
    if text == [] || Strip(text) == [] {
      return DefaultResponse(language);
    }
    var emotionScores := CombineAnalysisMethods(text, primary, backup);
    r := Threshold(emotionScores, language);
  }

  /** The first maximal emotion wins unless its score is below 0.1, when mildness at 0.5 takes its place. */
  lemma PrimarySpec(v: seq<real>)
    requires IsScores(v)
    ensures RealSeq.Max(v) < 0.1 ==> Primary(v) == (Mildness, 0.5)
    ensures RealSeq.Max(v) >= 0.1 ==>
      Primary(v).1 == RealSeq.Max(v) && ScoreOf(v, Primary(v).0) == RealSeq.Max(v) &&
      forall e :: ScoreOf(v, e) <= Primary(v).1 && (Index(e) < Index(Primary(v).0) ==> ScoreOf(v, e) < Primary(v).1)
  {
    var i := RealSeq.ArgMax(v);
    if v[i] >= 0.1 {
      IndexOfAll(i);
    }
  }

  /** The three quality bands, each exactly. */
  lemma QualityBands(c: real)
    ensures Quality(c) == "high" <==> c > 0.7
    ensures Quality(c) == "medium" <==> 0.4 < c <= 0.7
    ensures Quality(c) == "low" <==> c <= 0.4
  {
  }

  /** Empty or blank text gives mildness at confidence 0.0, all-zero scores, method "default" and no top emotions. */
  lemma BlankText(text: string, language: Option<string>, primary: Option<seq<LabelScore>>, backup: Option<seq<LabelScore>>)
    requires IsBlank(text)
    ensures var r := AnalyzeSpec(text, language, primary, backup);
      r.primary == Mildness && r.confidence == 0.0 && r.category == Neutral && r.intensity == Low &&
      r.source == "default" && r.top == [] && r.quality == "low" &&
      (forall q | 0 <= q < N :: r.scores[q] == 0.0) && r.language == LanguageOr(language)
  {
  }

  /**
   * On text that is not blank the confidence is at least 0.1, category and
   * intensity belong to the primary emotion, and a weak signal (every score
   * below 0.1) is reported as mildness of "medium" quality, while a
   * maximum between 0.1 and 0.4 is reported as "low".
   */
  lemma AnalyzeResponse(text: string, language: Option<string>, primary: Option<seq<LabelScore>>, backup: Option<seq<LabelScore>>)
    requires !IsBlank(text)
    ensures var r := AnalyzeSpec(text, language, primary, backup);
      r.scores == CombineSpec(AnalysisResults(text, primary, backup)) &&
      r.confidence >= 0.1 && r.category == CategoryOf(r.primary) && r.intensity == IntensityOf(r.primary) &&
      r.source == "enhanced_multi_model_analysis" &&
      (RealSeq.Max(r.scores) < 0.1 ==> r.primary == Mildness && r.confidence == 0.5 && r.quality == "medium") &&
      (0.1 <= RealSeq.Max(r.scores) <= 0.4 ==> r.confidence == RealSeq.Max(r.scores) && r.quality == "low") &&
      (RealSeq.Max(r.scores) > 0.7 <==> r.quality == "high")
  {
    var r := AnalyzeSpec(text, language, primary, backup);
    PrimarySpec(r.scores);
    QualityBands(r.confidence);
  }

  /**
   * The top list of a response: at most five entries, each above 0.05 and
   * carrying its emotion's score and table metadata, in non-increasing
   * score order.
   */
  lemma ResponseTop(text: string, language: Option<string>, primary: Option<seq<LabelScore>>, backup: Option<seq<LabelScore>>)
    ensures var r := AnalyzeSpec(text, language, primary, backup);
      |r.top| <= 5 &&
      (forall k | 0 <= k < |r.top| ::
        r.top[k].score > 0.05 && r.top[k].score == ScoreOf(r.scores, r.top[k].emotion) &&
        r.top[k].category == CategoryOf(r.top[k].emotion) && r.top[k].intensity == IntensityOf(r.top[k].emotion)) &&
      (forall k, l | 0 <= k < l < |r.top| :: r.top[k].score >= r.top[l].score)
  {
    var r := AnalyzeSpec(text, language, primary, backup);
    if !IsBlank(text) {
      Ranking.TopSpecProperties(r.scores, 5, 0.05);
    }
  }
}
