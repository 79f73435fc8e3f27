/**
 * The sentiment service (backend/services/sentiment_analysis.py): script
 * based language detection, the transliteration cleanup, the shaping of
 * transformer, VADER and TextBlob outputs into one three-class result, the
 * weighted vote over several results, and the shapes `analyze_sentiment`
 * returns.
 */
module Sentiment {
  import opened Wrappers
  import opened Text
  import opened Pipelines
  import Dicts
  import RealSeq
  import EnhancedEnsemble

  // ---------------------------------------------------------------------
  // Language detection and transliteration cleanup

  /** The scripts `_detect_language` looks for. */
  datatype Script = Tamil | Telugu | Kannada | Malayalam | Devanagari

  /** The code point block of each script. */
  function Block(s: Script): (r: (int, int)) {
    match s
    case Tamil => (0x0B80, 0x0BFF)
    case Telugu => (0x0C00, 0x0C7F)
    case Kannada => (0x0C80, 0x0CFF)
    case Malayalam => (0x0D00, 0x0D7F)
    case Devanagari => (0x0900, 0x097F)
  }

  function Code(s: Script): string {
    match s
    case Tamil => "ta"
    case Telugu => "te"
    case Kannada => "kn"
    case Malayalam => "ml"
    case Devanagari => "hi"
  }

  /** `re.search('[lo-hi]', text)` for the block of `s`. */
  predicate HasScript(text: string, s: Script) {
    exists i | 0 <= i < |text| :: Block(s).0 <= text[i] as int <= Block(s).1
  }

  /** `_detect_language` */
  function DetectLanguage(text: string): string {
    if text == [] then "en"
    else if HasScript(text, Tamil) then "ta"
    else if HasScript(text, Telugu) then "te"
    else if HasScript(text, Kannada) then "kn"
    else if HasScript(text, Malayalam) then "ml"
    else if HasScript(text, Devanagari) then "hi"
    else "en"
  }

  /**
   * The detected code is the code of the first script, in the order Tamil,
   * Telugu, Kannada, Malayalam, Devanagari, that occurs in the text; text
   * with none of them, the empty text included, is English.
   */
  lemma DetectLanguageSpec(text: string)
    ensures DetectLanguage(text) == "ta" <==> HasScript(text, Tamil)
    ensures DetectLanguage(text) == "te" <==> !HasScript(text, Tamil) && HasScript(text, Telugu)
    ensures DetectLanguage(text) == "kn" <==>
      !HasScript(text, Tamil) && !HasScript(text, Telugu) && HasScript(text, Kannada)
    ensures DetectLanguage(text) == "ml" <==>
      !HasScript(text, Tamil) && !HasScript(text, Telugu) && !HasScript(text, Kannada) && HasScript(text, Malayalam)
    ensures DetectLanguage(text) == "hi" <==>
      !HasScript(text, Tamil) && !HasScript(text, Telugu) && !HasScript(text, Kannada) && !HasScript(text, Malayalam) &&
      HasScript(text, Devanagari)
    ensures DetectLanguage(text) == "en" <==> forall s: Script :: !HasScript(text, s)
  {
  }

  /** `self.south_indian_languages` */
  function SouthIndianLanguages(): Dicts.Dict<string> {
    [("ta", "Tamil"), ("te", "Telugu"), ("kn", "Kannada"), ("ml", "Malayalam")]
  }

  predicate IsSouthIndian(code: string) {
    Dicts.HasKey(SouthIndianLanguages(), code)
  }

  /** `re.sub(r'[^\w\s]', ' ', text)`, for a given notion of word character. */
  function Scrub(text: string, isWord: char -> bool): (r: string)
    ensures |r| == |text|
    ensures forall i | 0 <= i < |r| :: r[i] == (if isWord(text[i]) || IsSpace(text[i]) then text[i] else ' ')
  {
    seq(|text|, i requires 0 <= i < |text| => if isWord(text[i]) || IsSpace(text[i]) then text[i] else ' ')
  }

  /** `_translate_to_english`: the cleanup for the four South Indian languages, the text itself otherwise. */
  function TranslateToEnglish(text: string, language: string, isWord: char -> bool): string {
    if IsSouthIndian(language) then CollapseSpaces(Scrub(text, isWord)) else text
  }

  /** Every character of `s` is a word character or whitespace. */
  predicate WordsAndSpaces(s: string, isWord: char -> bool) {
    forall i | 0 <= i < |s| :: isWord(s[i]) || IsSpace(s[i])
  }

  /**
   * For a South Indian language the cleaned text holds only word characters
   * and single spaces, with no space at either end, and keeps the words of
   * the scrubbed text; another language's text is returned as it is.
   */
  lemma TranslateSpec(text: string, language: string, isWord: char -> bool)
    ensures var r := TranslateToEnglish(text, language, isWord);
      if IsSouthIndian(language) then
        SingleSpaced(r) && Split(r) == Split(Scrub(text, isWord)) &&
        forall i | 0 <= i < |r| :: isWord(r[i]) || r[i] == ' '
      else r == text
  {
    if IsSouthIndian(language) {
      var s := Scrub(text, isWord);
      CollapseSpacesSpec(s);
      CollapseWordChars(s, isWord);
    }
  }

  /** Collapsing the whitespace of word characters and whitespace leaves word characters and plain spaces. */
  lemma CollapseWordChars(s: string, isWord: char -> bool)
    requires WordsAndSpaces(s, isWord)
    ensures forall i | 0 <= i < |CollapseSpaces(s)| :: isWord(CollapseSpaces(s)[i]) || CollapseSpaces(s)[i] == ' '
  {
    var r := CollapseSpaces(s);
    CollapseSpacesSpec(s);
    CollapseSpacesChars(s);
    forall i | 0 <= i < |r| ensures isWord(r[i]) || r[i] == ' ' {
      assert SpaceOk(r, i);
      assert r[i] in r;
      if r[i] != ' ' {
        assert r[i] in s;
        var j :| 0 <= j < |s| && s[j] == r[i];
      }
    }
  }

  /** Cleaning twice changes nothing more. */
  lemma TranslateIdempotent(text: string, language: string, isWord: char -> bool)
    ensures var once := TranslateToEnglish(text, language, isWord);
      TranslateToEnglish(once, language, isWord) == once
  {
    if IsSouthIndian(language) {
      var once := TranslateToEnglish(text, language, isWord);
      TranslateSpec(text, language, isWord);
      assert Scrub(once, isWord) == once;
      CollapseSpacesFixed(once);
    }
  }

  // ---------------------------------------------------------------------
  // Sentiment results of one analyzer

  /** The three classes, in the order of every scores dict the service builds. */
  function Classes(): seq<string> {
    ["positive", "negative", "neutral"]
  }

  /**
   * A sentiment result dict: `sentiment`, `confidence` and `scores`, and the
   * optional `method`, `language`, `translated_text` and `individual_results`
   * entries.
   */
  datatype SentimentResult = SentimentResult(
    sentiment: string, confidence: real, scores: Dicts.Dict<real>,
    source: Option<string>, language: Option<string>, translated: Option<string>,
    individual: Option<seq<SentimentResult>>)

  /** A result with only the three mandatory entries. */
  function Plain(sentiment: string, confidence: real, scores: Dicts.Dict<real>): SentimentResult {
    SentimentResult(sentiment, confidence, scores, None, None, None, None)
  }

  /** `{"positive": p, "negative": n, "neutral": u}` */
  function ClassScores(p: real, n: real, u: real): Dicts.Dict<real> {
    [("positive", p), ("negative", n), ("neutral", u)]
  }

  /** `label_map` of `_normalize_transformer_result` */
  function LabelMap(): Dicts.Dict<string> {
    [("LABEL_0", "negative"), ("LABEL_1", "neutral"), ("LABEL_2", "positive"),
     ("NEGATIVE", "negative"), ("NEUTRAL", "neutral"), ("POSITIVE", "positive")]
  }

  /** `label_map.get(label, label.lower())` */
  function SentimentOf(name: string): string {
    Dicts.GetOr(LabelMap(), name, Lower(name))
  }

  /**
   * The keys of the normalised scores: the three classes, followed by the
   * sentiment itself when it is none of them.
   */
  function ScoreKeys(sentiment: string): (ks: seq<string>)
    ensures sentiment in ks
  {
    if sentiment in Classes() then Classes() else Classes() + [sentiment]
  }

  /**
   * What `_normalize_transformer_result` returns: the sentiment the label
   * stands for, with the pipeline's score as its confidence and as its own
   * score, and the rest of the unit shared equally among the other keys.
   */
  function Normalized(name: string, confidence: real): SentimentResult {
    Plain(SentimentOf(name), confidence, SharedScores(SentimentOf(name), confidence))
  }

  function SharedScores(sentiment: string, confidence: real): Dicts.Dict<real> {
    var ks := ScoreKeys(sentiment);
    OneOff(ks, sentiment, confidence, (1.0 - confidence) / (|ks| - 1) as real)
  }

  /** `[s for s in keys if s != sentiment]` */
  function Without(keys: seq<string>, sentiment: string): (r: seq<string>)
    ensures forall x :: x in r <==> x in keys && x != sentiment
  {
    if keys == [] then []
    else if keys[0] == sentiment then Without(keys[1..], sentiment)
    else [keys[0]] + Without(keys[1..], sentiment)
  }

  predicate Distinct(ks: seq<string>) {
    forall i, j | 0 <= i < j < |ks| :: ks[i] != ks[j]
  }

  /** Leaving out a key that occurs once leaves one key fewer. */
  lemma {:induction false} WithoutLength(keys: seq<string>, sentiment: string)
    requires Distinct(keys) && sentiment in keys
    ensures |Without(keys, sentiment)| == |keys| - 1
  {
    if keys[0] == sentiment {
      assert sentiment !in keys[1..];
      WithoutNone(keys[1..], sentiment);
    } else {
      WithoutLength(keys[1..], sentiment);
    }
  }

  lemma {:induction false} WithoutNone(keys: seq<string>, sentiment: string)
    requires sentiment !in keys
    ensures Without(keys, sentiment) == keys
  {
    if keys != [] {
      WithoutNone(keys[1..], sentiment);
    }
  }

  lemma ScoreKeysDistinct(sentiment: string)
    ensures Distinct(ScoreKeys(sentiment))
  {
  }

  /** `_normalize_transformer_result` on one `{"label", "score"}` entry. */
  method NormalizeTransformerResult(result: LabelScore) returns (r: SentimentResult)
    ensures r == Normalized(result.name, result.score)
  {
    var sentiment := SentimentOf(result.name);
    var scores := ShareScores(sentiment, result.score);
    r := Plain(sentiment, result.score, scores);
  }

  /** The `scores` dict of `_normalize_transformer_result`, built as the service builds it. */
  method ShareScores(sentiment: string, confidence: real) returns (scores: Dicts.Dict<real>)
    ensures scores == SharedScores(sentiment, confidence)
  {
    scores := ClassScores(0.0, 0.0, 0.0);
    scores := Dicts.Set(scores, sentiment, confidence);
    ghost var ks := ScoreKeys(sentiment);
    ScoreKeysDistinct(sentiment);
    var remaining := 1.0 - confidence;
    ghost var share := remaining / (|ks| - 1) as real;
    ShareStart(sentiment, confidence, share);
    var others := Without(Dicts.Keys(scores), sentiment);
    WithoutLength(ks, sentiment);
    assert others[..0] == [];
    var i := 0;
    while i < |others|
      invariant 0 <= i <= |others|
      invariant scores == Partial(ks, sentiment, confidence, share, others[..i])
    {
      PartialStep(ks, sentiment, confidence, share, others, i);
      scores := Dicts.Set(scores, others[i], remaining / |others| as real);
      i := i + 1;
    }
    PartialEnd(ks, sentiment, confidence, share, others, i);
  }

  /** Once every other key holds its share, the scores are the shared scores. */
  lemma PartialEnd(ks: seq<string>, sentiment: string, confidence: real, share: real, others: seq<string>, i: nat)
    requires i == |others| && forall x :: x in others <==> x in ks && x != sentiment
    ensures Partial(ks, sentiment, confidence, share, others[..i]) == OneOff(ks, sentiment, confidence, share)
  {
    assert others[..i] == others;
    PartialDone(ks, sentiment, confidence, share, others);
  }

  /** The scores once the sentiment holds the confidence and before any share is set. */
  lemma ShareStart(sentiment: string, confidence: real, share: real)
    ensures var ks := ScoreKeys(sentiment);
      Dicts.Set(ClassScores(0.0, 0.0, 0.0), sentiment, confidence) == Partial(ks, sentiment, confidence, share, []) &&
      Dicts.Keys(Partial(ks, sentiment, confidence, share, [])) == ks
  {
    Dicts.HasKeyIff(ClassScores(0.0, 0.0, 0.0), sentiment);
    assert Dicts.Keys(ClassScores(0.0, 0.0, 0.0)) == Classes();
  }

  /** The scores part way through: the keys in `done` hold `share`, the others still 0.0. */
  ghost function Partial(ks: seq<string>, sentiment: string, confidence: real, share: real, done: seq<string>): Dicts.Dict<real> {
    seq(|ks|, j requires 0 <= j < |ks| =>
      (ks[j], if ks[j] == sentiment then confidence else if ks[j] in done then share else 0.0))
  }

  lemma PartialStep(ks: seq<string>, sentiment: string, confidence: real, share: real, others: seq<string>, i: nat)
    requires Distinct(ks) && i < |others|
    requires forall x :: x in others <==> x in ks && x != sentiment
    ensures Dicts.Set(Partial(ks, sentiment, confidence, share, others[..i]), others[i], share) ==
      Partial(ks, sentiment, confidence, share, others[..i + 1])
  {
    var d := Partial(ks, sentiment, confidence, share, others[..i]);
    assert others[i] in others;
    var j0 :| 0 <= j0 < |ks| && ks[j0] == others[i];
    assert Dicts.DistinctKeys(d);
    Dicts.SetAt(d, j0, share);
    assert forall j | 0 <= j < |ks| :: ks[j] in others[..i + 1] <==> ks[j] in others[..i] || j == j0;
  }

  lemma PartialDone(ks: seq<string>, sentiment: string, confidence: real, share: real, others: seq<string>)
    requires forall x :: x in others <==> x in ks && x != sentiment
    ensures Partial(ks, sentiment, confidence, share, others) == OneOff(ks, sentiment, confidence, share)
  {
  }

  /** The pipeline labels the service knows, and the lowercase fallback for others. */
  lemma SentimentOfLabels(name: string)
    ensures Dicts.HasKey(LabelMap(), name) ==> SentimentOf(name) in Classes()
    ensures name == "LABEL_0" || name == "NEGATIVE" ==> SentimentOf(name) == "negative"
    ensures name == "LABEL_1" || name == "NEUTRAL" ==> SentimentOf(name) == "neutral"
    ensures name == "LABEL_2" || name == "POSITIVE" ==> SentimentOf(name) == "positive"
    ensures !Dicts.HasKey(LabelMap(), name) ==> SentimentOf(name) == Lower(name)
  {
    var m := LabelMap();
    if Dicts.HasKey(m, name) {
      var r := Dicts.Get(m, name);
      var i :| 0 <= i < |m| && m[i] == (name, r.value);
      assert i < 6;
    }
  }

  /**
   * A label that stands for one of the three classes gives exactly the three
   * class keys, the confidence for its class and `(1 - confidence) / 2` for
   * each of the other two; any other label adds its own key, and the three
   * classes share the rest in thirds. Either way the scores sum to 1.
   */
  lemma NormalizedSpec(name: string, confidence: real)
    ensures var r := Normalized(name, confidence);
      r.sentiment == SentimentOf(name) && r.confidence == confidence &&
      Dicts.Get(r.scores, r.sentiment) == Some(confidence) &&
      RealSeq.Sum(Dicts.Values(r.scores)) == 1.0
    ensures var r := Normalized(name, confidence);
      if SentimentOf(name) in Classes() then
        Dicts.Keys(r.scores) == Classes() &&
        forall k | k in Classes() && k != r.sentiment :: Dicts.Get(r.scores, k) == Some((1.0 - confidence) / 2.0)
      else
        Dicts.Keys(r.scores) == Classes() + [SentimentOf(name)] &&
        forall k | k in Classes() :: Dicts.Get(r.scores, k) == Some((1.0 - confidence) / 3.0)
  {
    SharedScoresSpec(SentimentOf(name), confidence);
  }

  lemma SharedScoresSpec(sentiment: string, confidence: real)
    ensures var d := SharedScores(sentiment, confidence);
      Dicts.Get(d, sentiment) == Some(confidence) && RealSeq.Sum(Dicts.Values(d)) == 1.0
    ensures var d := SharedScores(sentiment, confidence);
      if sentiment in Classes() then
        Dicts.Keys(d) == Classes() &&
        forall k | k in Classes() && k != sentiment :: Dicts.Get(d, k) == Some((1.0 - confidence) / 2.0)
      else
        Dicts.Keys(d) == Classes() + [sentiment] &&
        forall k | k in Classes() :: Dicts.Get(d, k) == Some((1.0 - confidence) / 3.0)
  {
    SharedOwnScore(sentiment, confidence);
    SharedScoresTotal(sentiment, confidence);
    if sentiment in Classes() {
      SharedInClasses(sentiment, confidence);
    } else {
      SharedOutsideClasses(sentiment, confidence);
    }
  }

  lemma SharedOwnScore(sentiment: string, confidence: real)
    ensures Dicts.Get(SharedScores(sentiment, confidence), sentiment) == Some(confidence)
  {
    var ks := ScoreKeys(sentiment);
    ScoreKeysDistinct(sentiment);
    OneOffGet(SharedScores(sentiment, confidence), ks, sentiment, confidence, (1.0 - confidence) / (|ks| - 1) as real, sentiment);
  }

  lemma SharedInClasses(sentiment: string, confidence: real)
    requires sentiment in Classes()
    ensures var d := SharedScores(sentiment, confidence);
      Dicts.Keys(d) == Classes() &&
      forall k | k in Classes() && k != sentiment :: Dicts.Get(d, k) == Some((1.0 - confidence) / 2.0)
  {
    var ks := ScoreKeys(sentiment);
    assert ks == Classes() && |ks| == 3;
    var share := (1.0 - confidence) / (|ks| - 1) as real;
    var d := SharedScores(sentiment, confidence);
    ScoreKeysDistinct(sentiment);
    OneOffKeys(d, ks, sentiment, confidence, share);
    assert share == (1.0 - confidence) / 2.0;
    forall k | k in Classes() && k != sentiment ensures Dicts.Get(d, k) == Some((1.0 - confidence) / 2.0) {
      OneOffGet(d, ks, sentiment, confidence, share, k);
    }
  }

  lemma SharedOutsideClasses(sentiment: string, confidence: real)
    requires sentiment !in Classes()
    ensures var d := SharedScores(sentiment, confidence);
      Dicts.Keys(d) == Classes() + [sentiment] &&
      forall k | k in Classes() :: Dicts.Get(d, k) == Some((1.0 - confidence) / 3.0)
  {
    var ks := ScoreKeys(sentiment);
    assert ks == Classes() + [sentiment] && |ks| == 4;
    var share := (1.0 - confidence) / (|ks| - 1) as real;
    var d := SharedScores(sentiment, confidence);
    ScoreKeysDistinct(sentiment);
    OneOffKeys(d, ks, sentiment, confidence, share);
    assert share == (1.0 - confidence) / 3.0;
    forall k | k in Classes() ensures Dicts.Get(d, k) == Some((1.0 - confidence) / 3.0) {
      assert k in ks && k != sentiment;
      OneOffGet(d, ks, sentiment, confidence, share, k);
    }
  }

  lemma SharedScoresTotal(sentiment: string, confidence: real)
    ensures RealSeq.Sum(Dicts.Values(SharedScores(sentiment, confidence))) == 1.0
  {
    var ks := ScoreKeys(sentiment);
    var n := (|ks| - 1) as real;
    var share := (1.0 - confidence) / n;
    ScoreKeysDistinct(sentiment);
    OneOffSum(SharedScores(sentiment, confidence), ks, sentiment, confidence, share);
    RealSeq.MulQuotient(n, 1.0 - confidence, share);
  }

  /** One key's value, and the same value for every other key. */
  function OneOff(ks: seq<string>, sentiment: string, confidence: real, share: real): Dicts.Dict<real> {
    seq(|ks|, i requires 0 <= i < |ks| => (ks[i], if ks[i] == sentiment then confidence else share))
  }

  lemma OneOffKeys(d: Dicts.Dict<real>, ks: seq<string>, sentiment: string, confidence: real, share: real)
    requires d == OneOff(ks, sentiment, confidence, share)
    ensures Dicts.Keys(d) == ks
  {
  }

  lemma OneOffGet(d: Dicts.Dict<real>, ks: seq<string>, sentiment: string, confidence: real, share: real, k: string)
    requires Distinct(ks) && d == OneOff(ks, sentiment, confidence, share) && k in ks
    ensures Dicts.Get(d, k) == Some(if k == sentiment then confidence else share)
  {
    assert Dicts.DistinctKeys(d);
    var i :| 0 <= i < |ks| && ks[i] == k;
    Dicts.GetAt(d, i);
  }

  lemma OneOffSum(d: Dicts.Dict<real>, ks: seq<string>, sentiment: string, confidence: real, share: real)
    requires Distinct(ks) && sentiment in ks && d == OneOff(ks, sentiment, confidence, share)
    ensures RealSeq.Sum(Dicts.Values(d)) == confidence + (|ks| - 1) as real * share
  {
    var j :| 0 <= j < |ks| && ks[j] == sentiment;
    var vs := Dicts.Values(d);
    assert |vs| == |ks|;
    forall i | 0 <= i < |vs| && i != j ensures vs[i] == share {
      assert ks[i] != ks[j];
    }
    RealSeq.SumOneOff(vs, j, confidence, share);
    assert (|vs| - 1) as real == (|ks| - 1) as real;
  }

  /** `_analyze_with_vader` on VADER's scores for the text. */
  function VaderResult(v: VaderScores): SentimentResult {
    var (sentiment, confidence) :=
      if v.compound >= 0.05 then ("positive", v.pos)
      else if v.compound <= -0.05 then ("negative", v.neg)
      else ("neutral", v.neu);
    Plain(sentiment, confidence, ClassScores(v.pos, v.neg, v.neu))
  }

  /**
   * A compound of at least 0.05 is positive, one of at most -0.05 negative and
   * anything between neutral; the confidence is VADER's score for that class
   * and the scores are VADER's own.
   */
  lemma VaderSpec(v: VaderScores)
    ensures VaderResult(v).sentiment == "positive" <==> v.compound >= 0.05
    ensures VaderResult(v).sentiment == "negative" <==> v.compound <= -0.05
    ensures VaderResult(v).sentiment == "neutral" <==> -0.05 < v.compound < 0.05
    ensures Dicts.Get(VaderResult(v).scores, VaderResult(v).sentiment) == Some(VaderResult(v).confidence)
    ensures Dicts.Keys(VaderResult(v).scores) == Classes()
    ensures Dicts.Values(VaderResult(v).scores) == [v.pos, v.neg, v.neu]
  {
    VaderOwnScore(v);
  }

  /** VADER's confidence is the score it gives the chosen class. */
  lemma VaderOwnScore(v: VaderScores)
    ensures Dicts.Get(VaderResult(v).scores, VaderResult(v).sentiment) == Some(VaderResult(v).confidence)
  {
    var r := VaderResult(v);
    var k := if r.sentiment == "positive" then 0 else if r.sentiment == "negative" then 1 else 2;
    assert r.scores[k].0 == r.sentiment;
    Dicts.GetAt(r.scores, k);
  }

  function Abs(x: real): real {
    if x < 0.0 then -x else x
  }

  function MinReal(a: real, b: real): real {
    if a <= b then a else b
  }

  function MaxReal(a: real, b: real): real {
    if a >= b then a else b
  }

  /** `_analyze_with_textblob` on TextBlob's sentiment for the text. */
  function BlobResult(b: BlobSentiment): SentimentResult {
    var polarity := b.polarity;
    var (sentiment, confidence) :=
      if polarity > 0.1 then ("positive", MinReal(1.0, polarity))
      else if polarity < -0.1 then ("negative", MinReal(1.0, Abs(polarity)))
      else ("neutral", 1.0 - Abs(polarity));
    var pos := MaxReal(0.0, polarity);
    var neg := MaxReal(0.0, -polarity);
    var neu := 1.0 - Abs(polarity);
    var total := pos + neg + neu;
    var scores := if total > 0.0 then ClassScores(pos / total, neg / total, neu / total) else ClassScores(pos, neg, neu);
    Plain(sentiment, confidence, scores)
  }

  /**
   * The three raw scores always add up to 1, whatever the polarity, so the
   * division by their total leaves them as they are.
   */
  lemma BlobTotal(b: BlobSentiment)
    ensures var p := b.polarity;
      MaxReal(0.0, p) + MaxReal(0.0, -p) + (1.0 - Abs(p)) == 1.0 &&
      Dicts.Values(BlobResult(b).scores) == [MaxReal(0.0, p), MaxReal(0.0, -p), 1.0 - Abs(p)]
  {
    var p := b.polarity;
    var total := MaxReal(0.0, p) + MaxReal(0.0, -p) + (1.0 - Abs(p));
    assert total == 1.0;
    assert MaxReal(0.0, p) / total == MaxReal(0.0, p);
    assert MaxReal(0.0, -p) / total == MaxReal(0.0, -p);
    assert (1.0 - Abs(p)) / total == 1.0 - Abs(p);
  }

  /**
   * For a polarity in [-1, 1]: above 0.1 is positive with the polarity as
   * confidence, below -0.1 negative with its magnitude, and anything between
   * neutral with `1 - |p|`, at least 0.9; the scores are not negative and
   * sum to 1, and the confidence lies in [0, 1].
   */
  lemma BlobSpec(b: BlobSentiment)
    requires -1.0 <= b.polarity <= 1.0
    ensures var r := BlobResult(b);
      (r.sentiment == "positive" <==> b.polarity > 0.1) &&
      (r.sentiment == "negative" <==> b.polarity < -0.1) &&
      (r.sentiment == "neutral" <==> -0.1 <= b.polarity <= 0.1)
    ensures var r := BlobResult(b);
      (r.sentiment == "positive" ==> r.confidence == b.polarity) &&
      (r.sentiment == "negative" ==> r.confidence == -b.polarity) &&
      (r.sentiment == "neutral" ==> 0.9 <= r.confidence == 1.0 - Abs(b.polarity))
    ensures 0.0 <= BlobResult(b).confidence <= 1.0
    ensures var vs := Dicts.Values(BlobResult(b).scores);
      (forall i | 0 <= i < |vs| :: vs[i] >= 0.0) && RealSeq.Sum(vs) == 1.0
  {
    BlobTotal(b);
    var vs := Dicts.Values(BlobResult(b).scores);
    RealSeq.Sum3(vs);
  }

  // ---------------------------------------------------------------------
  // Combining several results

  /** `weights` of `_combine_sentiment_results` */
  function MethodWeights(): Dicts.Dict<real> {
    [("multilingual_transformer", 0.5), ("english_transformer", 0.3), ("vader_fallback", 0.2)]
  }

  /** `weights.get(result.get("method", "unknown"), 0.1)`, written out case by case. */
  function MethodWeight(r: SentimentResult): real {
    if r.source == Some("multilingual_transformer") then 0.5
    else if r.source == Some("english_transformer") then 0.3
    else if r.source == Some("vader_fallback") then 0.2
    else 0.1
  }

  /** The case-by-case weight is the lookup in the weights table, with 0.1 for any other method or none. */
  lemma MethodWeightValues(r: SentimentResult)
    ensures MethodWeight(r) == Dicts.GetOr(MethodWeights(), r.source.GetOr("unknown"), 0.1)
    ensures 0.1 <= MethodWeight(r) <= 0.5
  {
    var m := MethodWeights();
    var k := r.source.GetOr("unknown");
    if Dicts.HasKey(m, k) {
      var v := Dicts.Get(m, k);
      var i :| 0 <= i < |m| && m[i] == (k, v.value);
      assert i < 3;
    }
  }

  /** The score a result gives the class at position `q`, or 0.0 when it has none. */
  function ClassScore(r: SentimentResult, q: nat): real
    requires q < 3
  {
    Dicts.GetOr(r.scores, Classes()[q], 0.0)
  }

  /** The first class whose score is missing from `scores`. */
  function MissingClass(scores: Dicts.Dict<real>): Option<string> {
    if !Dicts.HasKey(scores, "positive") then Some("positive")
    else if !Dicts.HasKey(scores, "negative") then Some("negative")
    else if !Dicts.HasKey(scores, "neutral") then Some("neutral")
    else None
  }

  /**
   * The key whose lookup raises `KeyError` while one result is folded in: a
   * missing class score, or else a sentiment that is none of the classes.
   */
  function MissingKey(r: SentimentResult): Option<string> {
    if MissingClass(r.scores).Some? then MissingClass(r.scores)
    else if r.sentiment !in Classes() then Some(r.sentiment)
    else None
  }

  predicate Complete(rs: seq<SentimentResult>, n: nat)
    requires n <= |rs|
  {
    forall j | 0 <= j < n :: MissingKey(rs[j]).None?
  }

  /** The key the first malformed result among the first `n` is missing. */
  function FirstMissing(rs: seq<SentimentResult>, n: nat): Option<string>
    requires n <= |rs|
  {
    if n == 0 then None
    else if FirstMissing(rs, n - 1).Some? then FirstMissing(rs, n - 1)
    else MissingKey(rs[n - 1])
  }

  /** Nothing is missing exactly when the first `n` results are complete; otherwise the key is that of the first incomplete one. */
  lemma {:induction false} FirstMissingSpec(rs: seq<SentimentResult>, n: nat)
    requires n <= |rs|
    ensures FirstMissing(rs, n).None? <==> Complete(rs, n)
    ensures FirstMissing(rs, n).Some? ==> exists j | 0 <= j < n :: MissingKey(rs[j]) == FirstMissing(rs, n) && Complete(rs, j)
  {
    if n > 0 {
      FirstMissingSpec(rs, n - 1);
      if FirstMissing(rs, n - 1).None? {
        assert Complete(rs, n - 1);
      }
    }
  }

  /** Once a malformed result is met, later results change nothing. */
  lemma {:induction false} FirstMissingSticky(rs: seq<SentimentResult>, i: nat, n: nat)
    requires i <= n <= |rs| && FirstMissing(rs, i).Some?
    ensures FirstMissing(rs, n) == FirstMissing(rs, i)
    decreases n - i
  {
    if i < n {
      FirstMissingSticky(rs, i, n - 1);
    }
  }

  /** Each result's weight. */
  function Weights(rs: seq<SentimentResult>): (w: seq<real>)
    ensures |w| == |rs| && forall j | 0 <= j < |rs| :: w[j] == MethodWeight(rs[j])
  {
    seq(|rs|, j requires 0 <= j < |rs| => MethodWeight(rs[j]))
  }

  /** Each result's score for the class at position `q`. */
  function Column(rs: seq<SentimentResult>, q: nat): (c: seq<real>)
    requires q < 3
    ensures |c| == |rs| && forall j | 0 <= j < |rs| :: c[j] == ClassScore(rs[j], q)
  {
    seq(|rs|, j requires 0 <= j < |rs| => ClassScore(rs[j], q))
  }

  /** Each result's vote for the class at position `q`: its weight if it is that class's, else nothing. */
  function Ballots(rs: seq<SentimentResult>, q: nat): (b: seq<real>)
    requires q < 3
    ensures |b| == |rs|
    ensures forall j | 0 <= j < |rs| :: b[j] == if rs[j].sentiment == Classes()[q] then MethodWeight(rs[j]) else 0.0
  {
    seq(|rs|, j requires 0 <= j < |rs| => if rs[j].sentiment == Classes()[q] then MethodWeight(rs[j]) else 0.0)
  }

  /** `total_weight` after the first `n` results. */
  function TotalWeight(rs: seq<SentimentResult>, n: nat): real
    requires n <= |rs|
  {
    RealSeq.Sum(Weights(rs)[..n])
  }

  /** `weighted_scores[Classes()[q]]` after the first `n` results, before the division. */
  function WeightedSum(rs: seq<SentimentResult>, q: nat, n: nat): real
    requires q < 3 && n <= |rs|
  {
    RealSeq.Dot(Column(rs, q)[..n], Weights(rs)[..n])
  }

  /** `sentiment_votes[Classes()[q]]` after the first `n` results. */
  function VoteSum(rs: seq<SentimentResult>, q: nat, n: nat): real
    requires q < 3 && n <= |rs|
  {
    RealSeq.Sum(Ballots(rs, q)[..n])
  }

  function Votes(rs: seq<SentimentResult>): (v: seq<real>)
    ensures |v| == 3
  {
    [VoteSum(rs, 0, |rs|), VoteSum(rs, 1, |rs|), VoteSum(rs, 2, |rs|)]
  }

  /** The weighted mean score of each class. */
  function MeanScores(rs: seq<SentimentResult>): (m: seq<real>)
    ensures |m| == 3
  {
    var n := |rs|;
    var raw := [WeightedSum(rs, 0, n), WeightedSum(rs, 1, n), WeightedSum(rs, 2, n)];
    var tw := TotalWeight(rs, n);
    if tw > 0.0 then RealSeq.Div(raw, tw) else raw
  }

  /** The neutral result of an empty list of results. */
  function NoResults(): SentimentResult {
    Plain("neutral", 0.0, ClassScores(0.33, 0.33, 0.34))
  }

  /**
   * What `_combine_sentiment_results` returns, or the key of its `KeyError`:
   * the class with the most vote weight (the first of positive, negative,
   * neutral on a tie) at its weighted mean score.
   */
  function CombineSpec(rs: seq<SentimentResult>, language: string): Result<SentimentResult, string> {
    if rs == [] then Ok(NoResults())
    else if |rs| == 1 then Ok(rs[0])
    else if FirstMissing(rs, |rs|).Some? then Err(FirstMissing(rs, |rs|).value)
    else Ok(Combined(rs, language))
  }

  /** The combined result of two or more well-formed results. */
  function Combined(rs: seq<SentimentResult>, language: string): SentimentResult {
    var m := MeanScores(rs);
    var k := RealSeq.ArgMax(Votes(rs));
    SentimentResult(Classes()[k], m[k], ClassScores(m[0], m[1], m[2]), Some("combined"), Some(language), None, Some(rs))
  }

  /** Where `sentiment` sits among the classes. */
  function ClassIndex(sentiment: string): (k: Option<nat>)
    ensures k.Some? ==> k.value < 3 && Classes()[k.value] == sentiment
    ensures k.None? <==> sentiment !in Classes()
  {
    if sentiment == "positive" then Some(0)
    else if sentiment == "negative" then Some(1)
    else if sentiment == "neutral" then Some(2)
    else None
  }

  /** `_combine_sentiment_results` */
  method CombineSentimentResults(results: seq<SentimentResult>, language: string)
    returns (r: Result<SentimentResult, string>)
    ensures r == CombineSpec(results, language)
  {
    if |results| == 0 {
      return Ok(NoResults());
    }
    if |results| == 1 {
      return Ok(results[0]);
    }
    var weighted := [0.0, 0.0, 0.0];
    var total := 0.0;
    var votes := [0.0, 0.0, 0.0];
    var i := 0;
    while i < |results|
      invariant 0 <= i <= |results|
      invariant FirstMissing(results, i).None?
      invariant Accumulated(results, i, weighted, votes, total)
    {
      var missing;
      weighted, votes, total, missing := FoldIn(results, i, weighted, votes, total);
      if missing.Some? {
        FirstMissingSticky(results, i + 1, |results|);
        return Err(missing.value);
      }
      i := i + 1;
    }
    r := Finish(results, language, weighted, votes, total);
  }

  /** After the loop of `_combine_sentiment_results`: the division by the total weight and the vote. */
  method Finish(results: seq<SentimentResult>, language: string, weighted0: seq<real>, votes: seq<real>, total: real)
    returns (r: Result<SentimentResult, string>)
    requires |results| >= 2 && FirstMissing(results, |results|).None?
    requires Accumulated(results, |results|, weighted0, votes, total)
    ensures r == CombineSpec(results, language)
  {
    var weighted := weighted0;
    AccumulatedMeans(results, weighted, votes, total);
    if total > 0.0 {
      weighted := DivideAll(weighted, total);
    }
    var k := RealSeq.ArgMax(votes);
    r := Ok(SentimentResult(Classes()[k], weighted[k], ClassScores(weighted[0], weighted[1], weighted[2]),
      Some("combined"), Some(language), None, Some(results)));
    CombinedIsSpec(results, language, weighted, votes, total, k);
  }

  /** The running sums after the first `n` results. */
  predicate Accumulated(rs: seq<SentimentResult>, n: nat, weighted: seq<real>, votes: seq<real>, total: real)
    requires n <= |rs|
  {
    total == TotalWeight(rs, n) &&
    |weighted| == 3 && (forall q | 0 <= q < 3 :: weighted[q] == WeightedSum(rs, q, n)) &&
    |votes| == 3 && (forall q | 0 <= q < 3 :: votes[q] == VoteSum(rs, q, n))
  }

  /** After the whole list, the running sums are the votes, and divided by the total weight they are the means. */
  lemma AccumulatedMeans(rs: seq<SentimentResult>, weighted: seq<real>, votes: seq<real>, total: real)
    requires Accumulated(rs, |rs|, weighted, votes, total)
    ensures votes == Votes(rs)
    ensures total > 0.0 ==> RealSeq.Div(weighted, total) == MeanScores(rs)
    ensures total <= 0.0 ==> weighted == MeanScores(rs)
  {
    AccumulatedVotes(rs, votes);
    AccumulatedSums(rs, weighted);
  }

  lemma AccumulatedVotes(rs: seq<SentimentResult>, votes: seq<real>)
    requires |votes| == 3 && forall q | 0 <= q < 3 :: votes[q] == VoteSum(rs, q, |rs|)
    ensures votes == Votes(rs)
  {
    var v := Votes(rs);
    assert votes[0] == v[0] && votes[1] == v[1] && votes[2] == v[2];
  }

  lemma AccumulatedSums(rs: seq<SentimentResult>, weighted: seq<real>)
    requires |weighted| == 3 && forall q | 0 <= q < 3 :: weighted[q] == WeightedSum(rs, q, |rs|)
    ensures weighted == [WeightedSum(rs, 0, |rs|), WeightedSum(rs, 1, |rs|), WeightedSum(rs, 2, |rs|)]
  {
  }

  lemma CombinedIsSpec(rs: seq<SentimentResult>, language: string, weighted: seq<real>, votes: seq<real>, total: real, k: nat)
    requires |rs| >= 2 && FirstMissing(rs, |rs|).None?
    requires weighted == MeanScores(rs) && votes == Votes(rs) && k == RealSeq.ArgMax(votes)
    ensures Ok(SentimentResult(Classes()[k], weighted[k], ClassScores(weighted[0], weighted[1], weighted[2]),
      Some("combined"), Some(language), None, Some(rs))) == CombineSpec(rs, language)
  {
    assert CombineSpec(rs, language) == Ok(Combined(rs, language));
  }

  /** One pass of the outer loop: the result's weight, scores and vote folded in. */
  method FoldIn(rs: seq<SentimentResult>, i: nat, weighted0: seq<real>, votes0: seq<real>, total0: real)
    returns (weighted: seq<real>, votes: seq<real>, total: real, missing: Option<string>)
    requires i < |rs| && FirstMissing(rs, i).None?
    requires Accumulated(rs, i, weighted0, votes0, total0)
    ensures missing == FirstMissing(rs, i + 1)
    ensures missing.None? ==> Accumulated(rs, i + 1, weighted, votes, total)
  {
    var result := rs[i];
    var weight := MethodWeight(result);
    assert FirstMissing(rs, i + 1) == MissingKey(result);
    total := total0 + weight;
    weighted, missing := AddScores(weighted0, result, weight);
    votes := votes0;
    if missing.Some? {
      return;
    }
    var k := ClassIndex(result.sentiment);
    if k.None? {
      return weighted, votes, total, Some(result.sentiment);
    }
    votes := votes[k.value := votes[k.value] + weight];
    FoldedIn(rs, i, weighted0, votes0, total0, weighted, votes, total, k.value);
  }

  /** The sums after folding in a well-formed result are the sums over one more result. */
  lemma FoldedIn(rs: seq<SentimentResult>, i: nat, weighted0: seq<real>, votes0: seq<real>, total0: real,
                 weighted: seq<real>, votes: seq<real>, total: real, k: nat)
    requires i < |rs| && MissingKey(rs[i]).None? && Accumulated(rs, i, weighted0, votes0, total0)
    requires k < 3 && rs[i].sentiment == Classes()[k] && total == total0 + MethodWeight(rs[i])
    requires |weighted| == 3 && forall q | 0 <= q < 3 :: weighted[q] == weighted0[q] + RealSeq.Mul(ClassScore(rs[i], q), MethodWeight(rs[i]))
    requires votes == votes0[k := votes0[k] + MethodWeight(rs[i])]
    ensures Accumulated(rs, i + 1, weighted, votes, total)
  {
    FoldStep(rs, i);
    assert forall q | 0 <= q < 3 :: Classes()[q] == rs[i].sentiment <==> q == k;
  }

  /** One more result adds its weight, its weighted scores and its vote to the running sums. */
  lemma FoldStep(rs: seq<SentimentResult>, i: nat)
    requires i < |rs|
    ensures TotalWeight(rs, i + 1) == TotalWeight(rs, i) + MethodWeight(rs[i])
    ensures forall q | 0 <= q < 3 ::
      WeightedSum(rs, q, i + 1) == WeightedSum(rs, q, i) + RealSeq.Mul(ClassScore(rs[i], q), MethodWeight(rs[i]))
    ensures forall q | 0 <= q < 3 ::
      VoteSum(rs, q, i + 1) == VoteSum(rs, q, i) + if rs[i].sentiment == Classes()[q] then MethodWeight(rs[i]) else 0.0
  {
    RealSeq.SumStep(Weights(rs), i);
    forall q | 0 <= q < 3
      ensures WeightedSum(rs, q, i + 1) == WeightedSum(rs, q, i) + RealSeq.Mul(ClassScore(rs[i], q), MethodWeight(rs[i]))
      ensures VoteSum(rs, q, i + 1) == VoteSum(rs, q, i) + Ballots(rs, q)[i]
    {
      RealSeq.DotStep(Column(rs, q), Weights(rs), i);
      RealSeq.SumStep(Ballots(rs, q), i);
    }
  }

  /**
   * The inner loop: each class score of one result, times the result's
   * weight, added to its running sum; or the first class that is missing.
   */
  method AddScores(weighted0: seq<real>, result: SentimentResult, weight: real)
    returns (weighted: seq<real>, missing: Option<string>)
    requires |weighted0| == 3
    ensures missing == MissingClass(result.scores)
    ensures missing.None? ==>
      |weighted| == 3 && forall q | 0 <= q < 3 :: weighted[q] == weighted0[q] + RealSeq.Mul(ClassScore(result, q), weight)
  {
    weighted := weighted0;
    var q := 0;
    while q < 3
      invariant 0 <= q <= 3 && |weighted| == 3
      invariant forall p | 0 <= p < q :: Dicts.HasKey(result.scores, Classes()[p])
      invariant forall p | 0 <= p < 3 ::
        weighted[p] == if p < q then weighted0[p] + RealSeq.Mul(ClassScore(result, p), weight) else weighted0[p]
    {
      var v := Dicts.Get(result.scores, Classes()[q]);
      if v.None? {
        MissingClassAt(result.scores, q);
        return weighted, Some(Classes()[q]);
      }
      weighted := weighted[q := weighted[q] + RealSeq.Mul(v.value, weight)];
      q := q + 1;
    }
    assert Dicts.HasKey(result.scores, Classes()[0]) && Dicts.HasKey(result.scores, Classes()[1]);
    assert Dicts.HasKey(result.scores, Classes()[2]);
    missing := None;
  }

  lemma MissingClassAt(scores: Dicts.Dict<real>, q: nat)
    requires q < 3 && !Dicts.HasKey(scores, Classes()[q])
    requires forall p | 0 <= p < q :: Dicts.HasKey(scores, Classes()[p])
    ensures MissingClass(scores) == Some(Classes()[q])
  {
    if q > 0 {
      assert Dicts.HasKey(scores, Classes()[0]);
    }
    if q > 1 {
      assert Dicts.HasKey(scores, Classes()[1]);
    }
  }

  /** `for t in weighted_scores: weighted_scores[t] /= total_weight` */
  method DivideAll(weighted0: seq<real>, total: real) returns (weighted: seq<real>)
    requires total > 0.0
    ensures weighted == RealSeq.Div(weighted0, total)
  {
    weighted := weighted0;
    var q := 0;
    while q < |weighted|
      invariant 0 <= q <= |weighted| == |weighted0|
      invariant forall p | 0 <= p < |weighted| :: weighted[p] == if p < q then weighted0[p] / total else weighted0[p]
    {
      weighted := weighted[q := weighted[q] / total];
      q := q + 1;
    }
  }

  /** No results give the neutral placeholder; a single result comes back as it is. */
  lemma CombineFew(rs: seq<SentimentResult>, language: string)
    requires |rs| <= 1
    ensures rs == [] ==>
      CombineSpec(rs, language) == Ok(SentimentResult("neutral", 0.0, [("positive", 0.33), ("negative", 0.33), ("neutral", 0.34)], None, None, None, None))
    ensures |rs| == 1 ==> CombineSpec(rs, language) == Ok(rs[0])
  {
  }

  /**
   * Two or more results fail exactly when one of them lacks a class score or
   * votes for something that is not a class, and the error names the key
   * the first such result lacks.
   */
  lemma CombineKeyError(rs: seq<SentimentResult>, language: string)
    requires |rs| >= 2
    ensures CombineSpec(rs, language).Err? <==> exists j | 0 <= j < |rs| :: MissingKey(rs[j]).Some?
    ensures CombineSpec(rs, language).Err? ==> exists j | 0 <= j < |rs| ::
      Complete(rs, j) && MissingKey(rs[j]) == Some(CombineSpec(rs, language).error)
  {
    FirstMissingSpec(rs, |rs|);
  }

  /** Every result weighs between 0.1 and 0.5. */
  lemma TotalWeightBounds(rs: seq<SentimentResult>, n: nat)
    requires n <= |rs|
    ensures 0.1 * n as real <= TotalWeight(rs, n) <= 0.5 * n as real
  {
    var w := Weights(rs)[..n];
    forall j | 0 <= j < n ensures 0.1 <= w[j] <= 0.5 {
      MethodWeightValues(rs[j]);
    }
    RealSeq.SumBounds(w, 0.1, 0.5);
  }

  /** Each well-formed result casts its whole weight for exactly one class. */
  lemma VotesTotal(rs: seq<SentimentResult>, n: nat)
    requires n <= |rs| && Complete(rs, n)
    ensures VoteSum(rs, 0, n) + VoteSum(rs, 1, n) + VoteSum(rs, 2, n) == TotalWeight(rs, n)
  {
    var a, b, c, w := Ballots(rs, 0)[..n], Ballots(rs, 1)[..n], Ballots(rs, 2)[..n], Weights(rs)[..n];
    forall j | 0 <= j < n ensures a[j] + b[j] + c[j] == w[j] {
      assert MissingKey(rs[j]).None?;
    }
    RealSeq.SumSplit3(a, b, c, w);
  }

  /** Results whose three class scores sum to 1 give weighted sums that add up to the total weight. */
  lemma WeightedSumsTotal(rs: seq<SentimentResult>, n: nat)
    requires n <= |rs|
    requires forall j | 0 <= j < n :: ClassScore(rs[j], 0) + ClassScore(rs[j], 1) + ClassScore(rs[j], 2) == 1.0
    ensures WeightedSum(rs, 0, n) + WeightedSum(rs, 1, n) + WeightedSum(rs, 2, n) == TotalWeight(rs, n)
  {
    var a, b, c := Column(rs, 0)[..n], Column(rs, 1)[..n], Column(rs, 2)[..n];
    assert forall j | 0 <= j < n :: a[j] + b[j] + c[j] == 1.0;
    RealSeq.DotSplit3(a, b, c, Weights(rs)[..n]);
  }

  /**
   * The combination of two or more well-formed results succeeds with
   * `Combined`: the sentiment is the class with the largest vote weight, the
   * first of positive, negative, neutral among equals; the confidence is that
   * class's own combined score.
   */
  lemma CombinedSpec(rs: seq<SentimentResult>, language: string)
    requires |rs| >= 2 && Complete(rs, |rs|)
    ensures CombineSpec(rs, language) == Ok(Combined(rs, language))
    ensures var r := Combined(rs, language);
      r.source == Some("combined") && r.language == Some(language) && r.translated.None? && r.individual == Some(rs) &&
      Dicts.Keys(r.scores) == Classes() && Dicts.Get(r.scores, r.sentiment) == Some(r.confidence)
    ensures var r := Combined(rs, language);
      ClassIndex(r.sentiment).Some? &&
      var k, v := ClassIndex(r.sentiment).value, Votes(rs);
      (forall q | 0 <= q < 3 :: v[q] <= v[k]) && (forall q | 0 <= q < k :: v[q] < v[k])
  {
    FirstMissingSpec(rs, |rs|);
    CombinedShape(rs, language);
    CombinedVote(rs, language);
  }

  /** The combined result's provenance fields and its three class scores. */
  lemma CombinedShape(rs: seq<SentimentResult>, language: string)
    ensures var r := Combined(rs, language);
      r.source == Some("combined") && r.language == Some(language) && r.translated.None? && r.individual == Some(rs) &&
      Dicts.Keys(r.scores) == Classes() && Dicts.Get(r.scores, r.sentiment) == Some(r.confidence)
  {
    var m := MeanScores(rs);
    var k := RealSeq.ArgMax(Votes(rs));
    ClassScoresGet(m[0], m[1], m[2], k);
    assert [m[0], m[1], m[2]][k] == m[k];
  }

  /** The combined sentiment is the first class with the largest vote weight. */
  lemma CombinedVote(rs: seq<SentimentResult>, language: string)
    ensures var r := Combined(rs, language);
      ClassIndex(r.sentiment).Some? &&
      var k, v := ClassIndex(r.sentiment).value, Votes(rs);
      (forall q | 0 <= q < 3 :: v[q] <= v[k]) && (forall q | 0 <= q < k :: v[q] < v[k])
  {
    var k := RealSeq.ArgMax(Votes(rs));
    assert ClassIndex(Classes()[k]) == Some(k);
  }

  /** The class at position `k` of `{"positive": a, "negative": b, "neutral": c}` has the `k`-th value. */
  lemma ClassScoresGet(a: real, b: real, c: real, k: nat)
    requires k < 3
    ensures Dicts.Keys(ClassScores(a, b, c)) == Classes()
    ensures Dicts.Get(ClassScores(a, b, c), Classes()[k]) == Some([a, b, c][k])
  {
    if k == 0 {
    } else if k == 1 {
    } else {
    }
  }

  /** With at least one result the total weight is positive, and each mean is its weighted sum over it. */
  lemma MeanScoresDivide(rs: seq<SentimentResult>)
    requires |rs| >= 1
    ensures TotalWeight(rs, |rs|) > 0.0
    ensures forall q | 0 <= q < 3 :: MeanScores(rs)[q] == WeightedSum(rs, q, |rs|) / TotalWeight(rs, |rs|)
  {
    TotalWeightBounds(rs, |rs|);
  }

  /** Scores of one class that all lie in `[lo, hi]` have a weighted mean in `[lo, hi]`. */
  lemma MeanInBounds(rs: seq<SentimentResult>, q: nat, lo: real, hi: real)
    requires |rs| >= 1 && q < 3
    requires forall j | 0 <= j < |rs| :: lo <= ClassScore(rs[j], q) <= hi
    ensures lo <= MeanScores(rs)[q] <= hi
  {
    var n := |rs|;
    var w := Weights(rs)[..n];
    MeanScoresDivide(rs);
    forall j | 0 <= j < n ensures w[j] >= 0.0 {
      MethodWeightValues(rs[j]);
    }
    RealSeq.WeightedMeanBetween(Column(rs, q)[..n], w, lo, hi);
  }

  /** Results whose class scores all lie in `[lo, hi]` combine to scores in `[lo, hi]`. */
  lemma CombinedBounds(rs: seq<SentimentResult>, language: string, lo: real, hi: real)
    requires |rs| >= 1
    requires forall j, q | 0 <= j < |rs| && 0 <= q < 3 :: lo <= ClassScore(rs[j], q) <= hi
    ensures var r := Combined(rs, language);
      lo <= r.confidence <= hi && forall i | 0 <= i < |r.scores| :: lo <= r.scores[i].1 <= hi
  {
    var m := MeanScores(rs);
    forall q | 0 <= q < 3 ensures lo <= m[q] <= hi {
      MeanInBounds(rs, q, lo, hi);
    }
  }

  /** Results whose class scores each sum to 1 combine to class scores that sum to 1. */
  lemma CombinedSumsToOne(rs: seq<SentimentResult>, language: string)
    requires |rs| >= 1
    requires forall j | 0 <= j < |rs| :: ClassScore(rs[j], 0) + ClassScore(rs[j], 1) + ClassScore(rs[j], 2) == 1.0
    ensures RealSeq.Sum(Dicts.Values(Combined(rs, language).scores)) == 1.0
  {
    var n := |rs|;
    var tw := TotalWeight(rs, n);
    var s0, s1, s2 := WeightedSum(rs, 0, n), WeightedSum(rs, 1, n), WeightedSum(rs, 2, n);
    MeanScoresDivide(rs);
    WeightedSumsTotal(rs, n);
    var m := MeanScores(rs);
    var scores := Combined(rs, language).scores;
    assert scores == ClassScores(m[0], m[1], m[2]);
    var vs := Dicts.Values(scores);
    assert vs[0] == m[0] && vs[1] == m[1] && vs[2] == m[2];
    QuotientsSumToOne(s0, s1, s2, tw, vs[0], vs[1], vs[2]);
    RealSeq.Sum3(vs);
  }

  /** Three parts of a positive whole, each divided by it, add up to 1. */
  lemma QuotientsSumToOne(a: real, b: real, c: real, t: real, x: real, y: real, z: real)
    requires t > 0.0 && a + b + c == t && x == a / t && y == b / t && z == c / t
    ensures x + y + z == 1.0
  {
    RealSeq.DivAdd(a, b, t);
    RealSeq.DivAdd(a + b, c, t);
  }

  /** When every result votes for the same class, the combination does too. */
  lemma CombinedUnanimous(rs: seq<SentimentResult>, language: string, k: nat)
    requires |rs| >= 1 && k < 3
    requires forall j | 0 <= j < |rs| :: rs[j].sentiment == Classes()[k]
    ensures Combined(rs, language).sentiment == Classes()[k]
  {
    var n := |rs|;
    TotalWeightBounds(rs, n);
    UnanimousVotes(rs, k, n);
    assert Votes(rs)[k] > 0.0;
    assert forall q | 0 <= q < 3 && q != k :: Votes(rs)[q] == 0.0;
  }

  lemma UnanimousVotes(rs: seq<SentimentResult>, k: nat, n: nat)
    requires k < 3 && n <= |rs|
    requires forall j | 0 <= j < n :: rs[j].sentiment == Classes()[k]
    ensures forall q | 0 <= q < 3 :: VoteSum(rs, q, n) == if q == k then TotalWeight(rs, n) else 0.0
  {
    assert Ballots(rs, k)[..n] == Weights(rs)[..n];
    forall q | 0 <= q < 3 && q != k ensures VoteSum(rs, q, n) == 0.0 {
      assert Ballots(rs, q)[..n] == RealSeq.Zeros(n);
      RealSeq.SumZeros(n);
    }
  }
}
