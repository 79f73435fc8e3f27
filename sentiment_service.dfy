/**
 * The service object of backend/services/sentiment_analysis.py as seen by
 * `analyze_sentiment`: the configured method and analyzer, the South Indian
 * multi-approach path, and the three response shapes (blank text, success,
 * caught exception). The analyzers are the outputs of foreign library calls
 * and are parameters here.
 */
module SentimentService {
  import opened Wrappers
  import opened Text
  import opened Pipelines
  import opened Sentiment
  import Dicts
  import EnhancedEnsemble

  /**
   * What `self.analyzer` holds: a transformer pipeline, a VADER analyzer,
   * the marker string "textblob", or nothing. Each analyzer call returns
   * its output or the text of the exception it raises.
   */
  datatype Analyzer =
    | Pipeline(classify: string -> Result<LabelScore, string>)
    | Vader(polarityScores: string -> Result<VaderScores, string>)
    | TextBlobMarker
    | NotLoaded

  /**
   * The service's state: `self.method` (as `mode`), `self.analyzer`,
   * `self.multilingual_analyzer`, and TextBlob's sentiment of a text.
   */
  datatype Service = Service(
    mode: string,
    analyzer: Analyzer,
    multilingual: Option<string -> Result<LabelScore, string>>,
    textblob: string -> Result<BlobSentiment, string>)

  /** `self.analyzer(text)[0]`: only a pipeline can be called. */
  function Classify(a: Analyzer, text: string): (r: Result<LabelScore, string>)
    ensures !a.Pipeline? ==> r.Err?
  {
    match a
    case Pipeline(classify) => classify(text)
    case Vader(_) => Err("'SentimentIntensityAnalyzer' object is not callable")
    case TextBlobMarker => Err("'str' object is not callable")
    case NotLoaded => Err("'NoneType' object is not callable")
  }

  /** `self.analyzer.polarity_scores(text)`: only a VADER analyzer has this method. */
  function PolarityScores(a: Analyzer, text: string): (r: Result<VaderScores, string>)
    ensures !a.Vader? ==> r.Err?
  {
    match a
    case Vader(polarityScores) => polarityScores(text)
    case Pipeline(_) => Err("'TextClassificationPipeline' object has no attribute 'polarity_scores'")
    case TextBlobMarker => Err("'str' object has no attribute 'polarity_scores'")
    case NotLoaded => Err("'NoneType' object has no attribute 'polarity_scores'")
  }

  // ---------------------------------------------------------------------
  // The South Indian path

  /** Approach 1: the multilingual model's result, when the model is loaded and does not raise. */
  function MultilingualResults(svc: Service, text: string): (rs: seq<SentimentResult>)
    ensures |rs| <= 1
    ensures forall i | 0 <= i < |rs| :: rs[i].source == Some("multilingual_transformer") && rs[i].language.None?
  {
    if svc.multilingual.None? then []
    else match svc.multilingual.value(text)
      case Err(_) => []
      case Ok(ls) => [Normalized(ls.name, ls.score).(source := Some("multilingual_transformer"))]
  }

  /** Approach 2: the English model on the cleaned text, when the cleanup changed it or the language is English. */
  function EnglishResults(svc: Service, text: string, language: string, isWord: char -> bool): (rs: seq<SentimentResult>)
    ensures |rs| <= 1
    ensures forall i | 0 <= i < |rs| :: rs[i].source == Some("english_transformer") && rs[i].language.None?
  {
    var translated := TranslateToEnglish(text, language, isWord);
    if translated == text && language != "en" then []
    else match Classify(svc.analyzer, translated)
      case Err(_) => []
      case Ok(ls) =>
        [Normalized(ls.name, ls.score).(source := Some("english_transformer"), translated := Some(translated))]
  }

  /** Approach 3: VADER on the original text. */
  function VaderResults(svc: Service, text: string): (rs: seq<SentimentResult>)
    ensures |rs| <= 1
    ensures forall i | 0 <= i < |rs| :: rs[i].source == Some("vader_fallback") && rs[i].language.None?
  {
    match PolarityScores(svc.analyzer, text)
    case Err(_) => []
    case Ok(v) => [VaderResult(v).(source := Some("vader_fallback"))]
  }

  /** The `results` list of `_analyze_south_indian_sentiment`: every approach that did not raise, in order. */
  function SouthIndianResults(svc: Service, text: string, language: string, isWord: char -> bool): seq<SentimentResult> {
    MultilingualResults(svc, text) + EnglishResults(svc, text, language, isWord) + VaderResults(svc, text)
  }

  /** The result when every approach raised. */
  function UltimateFallback(language: string): SentimentResult {
    SentimentResult("neutral", 0.5, ClassScores(0.33, 0.33, 0.34), Some("fallback"), Some(language), None, None)
  }

  /** `_analyze_south_indian_sentiment`, or the key of the `KeyError` the combination raises. */
  function AnalyzeSouthIndian(svc: Service, text: string, language: string, isWord: char -> bool): Result<SentimentResult, string> {
    var results := SouthIndianResults(svc, text, language, isWord);
    if results != [] then CombineSpec(results, language) else Ok(UltimateFallback(language))
  }

  /** An entry of `m + e + v`, by the part it falls in. */
  lemma ConcatAt(m: seq<SentimentResult>, e: seq<SentimentResult>, v: seq<SentimentResult>, i: nat)
    requires i < |m + e + v|
    ensures (m + e + v)[i] == if i < |m| then m[i] else if i < |m| + |e| then e[i - |m|] else v[i - |m| - |e|]
  {
  }

  /** Every approach's result names its approach as its source and carries no language. */
  lemma SouthIndianProvenance(svc: Service, text: string, language: string, isWord: char -> bool)
    ensures var rs := SouthIndianResults(svc, text, language, isWord);
      forall i | 0 <= i < |rs| ::
        rs[i].source in {Some("multilingual_transformer"), Some("english_transformer"), Some("vader_fallback")} &&
        rs[i].language.None?
  {
    var m, e, v := MultilingualResults(svc, text), EnglishResults(svc, text, language, isWord), VaderResults(svc, text);
    ConcatProvenance(m, e, v);
  }

  /** The provenance of `m + e + v`, from that of its three parts. */
  lemma ConcatProvenance(m: seq<SentimentResult>, e: seq<SentimentResult>, v: seq<SentimentResult>)
    requires forall i | 0 <= i < |m| :: m[i].source == Some("multilingual_transformer") && m[i].language.None?
    requires forall i | 0 <= i < |e| :: e[i].source == Some("english_transformer") && e[i].language.None?
    requires forall i | 0 <= i < |v| :: v[i].source == Some("vader_fallback") && v[i].language.None?
    ensures forall i | 0 <= i < |m + e + v| ::
      (m + e + v)[i].source in {Some("multilingual_transformer"), Some("english_transformer"), Some("vader_fallback")} &&
      (m + e + v)[i].language.None?
  {
    forall i | 0 <= i < |m + e + v|
      ensures (m + e + v)[i].source in {Some("multilingual_transformer"), Some("english_transformer"), Some("vader_fallback")}
      ensures (m + e + v)[i].language.None?
    {
      ConcatAt(m, e, v, i);
    }
  }

  /**
   * Which approaches contribute (the multilingual model whenever it is
   * loaded and succeeds): the English model only with a transformer pipeline
   * as the analyzer that succeeds on the cleaned text, and only when the
   * cleanup changed the text or the language is English. So a
   * service with a VADER analyzer never gets the English model.
   */
  lemma EnglishSource(svc: Service, text: string, language: string, isWord: char -> bool)
    ensures var rs := SouthIndianResults(svc, text, language, isWord);
      (exists i | 0 <= i < |rs| :: rs[i].source == Some("english_transformer")) <==>
      svc.analyzer.Pipeline? && (TranslateToEnglish(text, language, isWord) != text || language == "en") &&
      Classify(svc.analyzer, TranslateToEnglish(text, language, isWord)).Ok?
  {
    var m, e, v := MultilingualResults(svc, text), EnglishResults(svc, text, language, isWord), VaderResults(svc, text);
    var rs := SouthIndianResults(svc, text, language, isWord);
    assert rs == m + e + v;
    if e != [] {
      ConcatAt(m, e, v, |m|);
      assert rs[|m|].source == Some("english_transformer");
    }
    forall i | 0 <= i < |rs| && rs[i].source == Some("english_transformer") ensures e != [] {
      ConcatAt(m, e, v, i);
    }
  }

  /** The VADER fallback contributes exactly when the analyzer is VADER's and does not raise; a pipeline analyzer never gets it. */
  lemma VaderSource(svc: Service, text: string, language: string, isWord: char -> bool)
    ensures var rs := SouthIndianResults(svc, text, language, isWord);
      (exists i | 0 <= i < |rs| :: rs[i].source == Some("vader_fallback")) <==>
      svc.analyzer.Vader? && PolarityScores(svc.analyzer, text).Ok?
  {
    var m, e, v := MultilingualResults(svc, text), EnglishResults(svc, text, language, isWord), VaderResults(svc, text);
    var rs := SouthIndianResults(svc, text, language, isWord);
    assert rs == m + e + v;
    if v != [] {
      ConcatAt(m, e, v, |m| + |e|);
      assert rs[|m| + |e|].source == Some("vader_fallback");
    }
    forall i | 0 <= i < |rs| && rs[i].source == Some("vader_fallback") ensures v != [] {
      ConcatAt(m, e, v, i);
    }
  }

  /** With no approach succeeding the path gives the fixed neutral guess; otherwise it is the combination. */
  lemma SouthIndianFallback(svc: Service, text: string, language: string, isWord: char -> bool)
    ensures var rs := SouthIndianResults(svc, text, language, isWord);
      rs == [] ==>
        AnalyzeSouthIndian(svc, text, language, isWord) == Ok(SentimentResult("neutral", 0.5, [("positive", 0.33), ("negative", 0.33), ("neutral", 0.34)],
          Some("fallback"), Some(language), None, None))
    ensures var rs := SouthIndianResults(svc, text, language, isWord);
      rs != [] ==> AnalyzeSouthIndian(svc, text, language, isWord) == CombineSpec(rs, language)
    ensures var rs := SouthIndianResults(svc, text, language, isWord);
      !svc.analyzer.Pipeline? && !svc.analyzer.Vader? ==> |rs| <= 1
  {
    var m, e, v := MultilingualResults(svc, text), EnglishResults(svc, text, language, isWord), VaderResults(svc, text);
    if !svc.analyzer.Pipeline? && !svc.analyzer.Vader? {
      assert e == [] && v == [];
    }
  }

  // ---------------------------------------------------------------------
  // analyze_sentiment

  /**
   * The `emotions` field: the fixed minimal dict, or the enhanced emotion
   * service's response to `analyze_emotions(text, language)` given the two
   * classifiers' outputs, recorded by its arguments (`Response` computes it).
   */
  datatype EmotionsField =
    | MinimalEmotions
    | Emotions(text: string, language: Option<string>, primary: Option<seq<LabelScore>>, backup: Option<seq<LabelScore>>)

  /** The enhanced emotion service's response the field stands for, if any. */
  function Response(f: EmotionsField): (r: Option<EnhancedEnsemble.EmotionResponse>)
    ensures r.Some? <==> f.Emotions?
    ensures r.Some? ==> r.value == EnhancedEnsemble.AnalyzeSpec(f.text, f.language, f.primary, f.backup)
  {
    if f.MinimalEmotions? then None else Some(EnhancedEnsemble.AnalyzeSpec(f.text, f.language, f.primary, f.backup))
  }

  /**
   * A response of `analyze_sentiment`: the sentiment fields, the `language`
   * that overrides any the result carried, `language_name` and `error`
   * where present, and `emotions`.
   */
  datatype SentimentResponse = SentimentResponse(
    result: SentimentResult,
    language: string,
    languageName: Option<string>,
    error: Option<string>,
    emotions: EmotionsField)

  /** The neutral result of blank text and of a caught exception. */
  function NeutralResult(): SentimentResult {
    Plain("neutral", 0.0, ClassScores(0.0, 0.0, 1.0))
  }

  /** `if not language: language = self._detect_language(text)` */
  function ResolveLanguage(text: string, language: Option<string>): (lang: string)
    ensures lang != []
  {
    if language.Some? && language.value != [] then language.value else DetectLanguage(text)
  }

  /** `self.south_indian_languages.get(language, language.upper())` */
  function LanguageName(lang: string): string {
    Dicts.GetOr(SouthIndianLanguages(), lang, Upper(lang))
  }

  /** The sentiment result of non-blank text, or the text of the exception raised while computing it. */
  function BaseSentiment(svc: Service, text: string, lang: string, isWord: char -> bool): Result<SentimentResult, string> {
    if IsSouthIndian(lang) then
      match AnalyzeSouthIndian(svc, text, lang, isWord)
      case Ok(r) => Ok(r)
      case Err(key) => Err("'" + key + "'")
    else if svc.mode == "transformers" then
      match Classify(svc.analyzer, text)
      case Ok(ls) => Ok(Normalized(ls.name, ls.score))
      case Err(e) => Err(e)
    else if svc.mode == "vader" then
      match PolarityScores(svc.analyzer, text)
      case Ok(v) => Ok(VaderResult(v))
      case Err(e) => Err(e)
    else if svc.mode == "textblob" then
      match svc.textblob(text)
      case Ok(b) => Ok(BlobResult(b))
      case Err(e) => Err(e)
    else Err("Unknown sentiment analysis method: " + svc.mode)
  }

  /**
   * `analyze_sentiment`, given the analyzers and the two emotion
   * classifiers' outputs for this text.
   */
  function AnalyzeSentiment(svc: Service, text: string, language: Option<string>, isWord: char -> bool,
                            primary: Option<seq<LabelScore>>, backup: Option<seq<LabelScore>>): SentimentResponse
  {
    if IsBlank(text) then
      SentimentResponse(NeutralResult(), EnhancedEnsemble.LanguageOr(language), None, None, MinimalEmotions)
    else
      var lang := ResolveLanguage(text, language);
      match BaseSentiment(svc, text, lang, isWord)
      case Err(e) =>
        SentimentResponse(NeutralResult(), EnhancedEnsemble.LanguageOr(Some(lang)), None, Some(e), MinimalEmotions)
      case Ok(r) =>
        SentimentResponse(r, lang, Some(LanguageName(lang)),
          None, Emotions(text, Some(lang), primary, backup))
  }

  /** The neutral shape: sentiment neutral at confidence 0.0, the whole score on neutral, minimal emotions with mildness. */
  predicate NeutralShape(r: SentimentResponse) {
    r.result.sentiment == "neutral" && r.result.confidence == 0.0 &&
    Dicts.Get(r.result.scores, "neutral") == Some(1.0) &&
    Dicts.Get(r.result.scores, "positive") == Some(0.0) && Dicts.Get(r.result.scores, "negative") == Some(0.0) &&
    r.languageName.None? && r.emotions == MinimalEmotions
  }

  /** A response carrying the neutral result, no language name and the minimal emotions has the neutral shape. */
  lemma NeutralResponse(r: SentimentResponse)
    requires r.result == NeutralResult() && r.languageName.None? && r.emotions == MinimalEmotions
    ensures NeutralShape(r)
  {
    var d := r.result.scores;
    assert d[0].0 == "positive" && d[1].0 == "negative" && d[2].0 == "neutral";
    assert Dicts.Get(d, "positive") == Some(0.0);
    assert d[0].0 != "negative";
    assert Dicts.Get(d, "negative") == Some(0.0);
    assert d[0].0 != "neutral" && d[1].0 != "neutral";
    assert Dicts.Get(d, "neutral") == Some(1.0);
  }

  /** Empty or whitespace-only text gives the neutral shape, with the given language or "unknown", and no error. */
  lemma BlankText(svc: Service, text: string, language: Option<string>, isWord: char -> bool,
                  primary: Option<seq<LabelScore>>, backup: Option<seq<LabelScore>>)
    requires IsBlank(text)
    ensures var r := AnalyzeSentiment(svc, text, language, isWord, primary, backup);
      NeutralShape(r) && r.error.None? &&
      r.language == (if language.Some? && language.value != [] then language.value else "unknown")
  {
    NeutralResponse(AnalyzeSentiment(svc, text, language, isWord, primary, backup));
  }

  /**
   * Non-blank text fails exactly when computing the sentiment raised; it
   * then gives the neutral shape with the resolved language and the
   * exception's text, and otherwise the result with the language's name
   * and the enhanced emotion analysis of the text.
   */
  lemma AnalyzeOutcome(svc: Service, text: string, language: Option<string>, isWord: char -> bool,
                       primary: Option<seq<LabelScore>>, backup: Option<seq<LabelScore>>)
    requires !IsBlank(text)
    ensures var r, lang := AnalyzeSentiment(svc, text, language, isWord, primary, backup), ResolveLanguage(text, language);
      var base := BaseSentiment(svc, text, lang, isWord);
      r.language == lang &&
      (r.error.Some? <==> base.Err?) &&
      (base.Err? ==> NeutralShape(r) && r.error == Some(base.error)) &&
      (base.Ok? ==>
        r.result == base.value && r.languageName == Some(LanguageName(lang)) &&
        Response(r.emotions) == Some(EnhancedEnsemble.AnalyzeSpec(text, Some(lang), primary, backup)))
  {
    var r := AnalyzeSentiment(svc, text, language, isWord, primary, backup);
    if BaseSentiment(svc, text, ResolveLanguage(text, language), isWord).Err? {
      NeutralResponse(r);
    }
  }

  /** A method other than the three raises, and the caught error names it, outside the South Indian path. */
  lemma UnknownMethod(svc: Service, text: string, language: Option<string>, isWord: char -> bool,
                      primary: Option<seq<LabelScore>>, backup: Option<seq<LabelScore>>)
    requires !IsBlank(text) && !IsSouthIndian(ResolveLanguage(text, language))
    requires svc.mode !in {"transformers", "vader", "textblob"}
    ensures var r := AnalyzeSentiment(svc, text, language, isWord, primary, backup);
      NeutralShape(r) && r.error == Some("Unknown sentiment analysis method: " + svc.mode)
  {
    NeutralResponse(AnalyzeSentiment(svc, text, language, isWord, primary, backup));
  }

  /** Outside the South Indian path each method uses only its own analyzer's output. */
  lemma MethodDispatch(svc: Service, text: string, lang: string, isWord: char -> bool)
    requires !IsSouthIndian(lang)
    ensures svc.mode == "transformers" ==>
      (BaseSentiment(svc, text, lang, isWord).Ok? <==> Classify(svc.analyzer, text).Ok?)
    ensures svc.mode == "transformers" && Classify(svc.analyzer, text).Ok? ==>
      var ls := Classify(svc.analyzer, text).value;
      BaseSentiment(svc, text, lang, isWord) == Ok(Normalized(ls.name, ls.score))
    ensures svc.mode == "vader" && PolarityScores(svc.analyzer, text).Ok? ==>
      BaseSentiment(svc, text, lang, isWord) == Ok(VaderResult(PolarityScores(svc.analyzer, text).value))
    ensures svc.mode == "textblob" && svc.textblob(text).Ok? ==>
      BaseSentiment(svc, text, lang, isWord) == Ok(BlobResult(svc.textblob(text).value))
  {
  }

  /**
   * A language given and non-empty is used as it is; otherwise the text's
   * detected language is, and in both cases the South Indian path is taken
   * exactly for the four table codes.
   */
  lemma LanguageResolution(text: string, language: Option<string>)
    ensures language.Some? && language.value != [] ==> ResolveLanguage(text, language) == language.value
    ensures language.None? || language.value == [] ==> ResolveLanguage(text, language) == DetectLanguage(text)
    ensures IsSouthIndian(ResolveLanguage(text, language)) <==>
      ResolveLanguage(text, language) in ["ta", "te", "kn", "ml"]
  {
    var lang := ResolveLanguage(text, language);
    if lang in ["ta", "te", "kn", "ml"] {
      var i :| 0 <= i < 4 && ["ta", "te", "kn", "ml"][i] == lang;
      assert SouthIndianLanguages()[i].0 == lang;
    }
  }

  /** The response's `language` never contradicts the one the sentiment result carries, so the override loses nothing. */
  lemma LanguageAgrees(svc: Service, text: string, language: Option<string>, isWord: char -> bool,
                       primary: Option<seq<LabelScore>>, backup: Option<seq<LabelScore>>)
    ensures var r := AnalyzeSentiment(svc, text, language, isWord, primary, backup);
      r.result.language.Some? ==> r.result.language == Some(r.language)
  {
    if !IsBlank(text) {
      BaseLanguage(svc, text, ResolveLanguage(text, language), isWord);
    }
  }

  /** A computed sentiment result carries no language, or the one it was computed for. */
  lemma BaseLanguage(svc: Service, text: string, lang: string, isWord: char -> bool)
    ensures var b := BaseSentiment(svc, text, lang, isWord);
      b.Ok? && b.value.language.Some? ==> b.value.language == Some(lang)
  {
    if IsSouthIndian(lang) {
      SouthIndianLanguage(svc, text, lang, isWord);
    } else if svc.mode == "transformers" {
      if Classify(svc.analyzer, text).Ok? {
        var ls := Classify(svc.analyzer, text).value;
        assert Normalized(ls.name, ls.score).language.None?;
      }
    } else if svc.mode == "vader" {
      if PolarityScores(svc.analyzer, text).Ok? {
        assert VaderResult(PolarityScores(svc.analyzer, text).value).language.None?;
      }
    } else if svc.mode == "textblob" {
      if svc.textblob(text).Ok? {
        assert BlobResult(svc.textblob(text).value).language.None?;
      }
    }
  }

  /** The South Indian path's result carries no language, or the one it was asked for. */
  lemma SouthIndianLanguage(svc: Service, text: string, lang: string, isWord: char -> bool)
    ensures var b := AnalyzeSouthIndian(svc, text, lang, isWord);
      b.Ok? && b.value.language.Some? ==> b.value.language == Some(lang)
  {
    var rs := SouthIndianResults(svc, text, lang, isWord);
    if |rs| == 1 {
      SouthIndianProvenance(svc, text, lang, isWord);
      assert rs[0].language.None?;
    }
  }

  /** The language name is the table's name for the four South Indian codes and the upper-cased code otherwise. */
  lemma LanguageNames(lang: string)
    ensures lang == "ta" ==> LanguageName(lang) == "Tamil"
    ensures lang == "te" ==> LanguageName(lang) == "Telugu"
    ensures lang == "kn" ==> LanguageName(lang) == "Kannada"
    ensures lang == "ml" ==> LanguageName(lang) == "Malayalam"
    ensures !IsSouthIndian(lang) ==> LanguageName(lang) == Upper(lang)
  {
  }

  /** `get_supported_languages` */
  function SupportedLanguages(): Dicts.Dict<string> {
    SouthIndianLanguages() + [("en", "English"), ("hi", "Hindi"), ("auto", "Auto-detect")]
  }

  /** The supported languages are the four South Indian ones, English, Hindi and auto-detection, and cover every detected code. */
  lemma SupportedLanguagesSpec(text: string)
    ensures Dicts.Keys(SupportedLanguages()) == ["ta", "te", "kn", "ml", "en", "hi", "auto"]
    ensures Dicts.DistinctKeys(SupportedLanguages())
    ensures Dicts.HasKey(SupportedLanguages(), DetectLanguage(text))
    ensures forall i | 0 <= i < 4 :: SupportedLanguages()[i] == SouthIndianLanguages()[i]
  {
    var d := DetectLanguage(text);
    var ks := ["ta", "te", "kn", "ml", "en", "hi", "auto"];
    assert Dicts.Keys(SupportedLanguages()) == ks;
    assert d == "ta" || d == "te" || d == "kn" || d == "ml" || d == "hi" || d == "en";
    assert d in ks;
    Dicts.HasKeyIff(SupportedLanguages(), d);
  }
}
