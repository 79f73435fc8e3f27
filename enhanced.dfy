/**
 * The enhanced emotion service (backend/services/enhanced_emotion_analysis.py):
 * maps classifier labels onto the 23 emotions with weights, scores keywords
 * sentence by sentence with negation and amplifier context, combines the
 * methods with confidence-boosted weights, and picks the primary emotion.
 */
module EnhancedEmotion {
  import opened Wrappers
  import opened Text
  import opened Emotions
  import opened Pipelines
  import Dicts
  import RealSeq
  import Ranking

  import opened EnhancedMapping

  type Mapping = Dicts.Dict<Weighted>

  /** `precise_scores[mapped_emotion] += score * weight` when the name is one of the 23 emotions. */
  function AddTo(v: seq<real>, m: (string, real), score: real): (r: seq<real>)
    requires IsScores(v)
    ensures IsScores(r)
  {
    match FromName(m.0)
    case None => v
    case Some(e) => v[Index(e) := v[Index(e)] + RealSeq.Mul(score, m.1)]
  }

  /** Adds `score * weight` for each `(name, weight)` of a mapping list. */
  function AddWeighted(v: seq<real>, ms: Weighted, score: real): (r: seq<real>)
    requires IsScores(v)
    ensures IsScores(r)
  {
    if ms == [] then v
    else
      var n := |ms| - 1;
      AddTo(AddWeighted(v, ms[..n], score), ms[n], score)
  }

  /** One classifier label: its lower-case form must be a key of the mapping to count. */
  function AddLabel(m: Mapping, v: seq<real>, x: LabelScore): (r: seq<real>)
    requires IsScores(v)
    ensures IsScores(r)
  {
    match Dicts.Get(m, Lower(x.name))
    case None => v
    case Some(ms) => AddWeighted(v, ms, x.score)
  }

  /** The mapping loop over the labels, from all-zero scores, for a given mapping dict. */
  function MapWith(m: Mapping, xs: seq<LabelScore>): (r: seq<real>)
    ensures IsScores(r)
  {
    if xs == [] then RealSeq.Zeros(N)
    else AddLabel(m, MapWith(m, xs[..|xs| - 1]), xs[|xs| - 1])
  }

  /** `_map_model_emotions_enhanced` with its own mapping dict. */
  function MapSpec(xs: seq<LabelScore>): (r: seq<real>)
    ensures IsScores(r)
  {
    MapWith(EmotionMapping(), xs)
  }

  /**
   * `_map_model_emotions_enhanced`: starts from 0.0 for each of the 23
   * emotions and, for every label that is a mapping key once lower-cased,
   * adds score times weight to each emotion the key maps to.
   */
  method MapModelEmotions(xs: seq<LabelScore>) returns (precise: seq<real>)
    ensures precise == MapSpec(xs)
  {
    var mapping := EmotionMapping();
    precise := MapLabels(mapping, xs);
  }

  /** The loop over the labels, for a given mapping dict. */
  method MapLabels(m: Mapping, xs: seq<LabelScore>) returns (precise: seq<real>)
    ensures precise == MapWith(m, xs)
  {
    precise := RealSeq.Zeros(N);
    for i := 0 to |xs|
      invariant precise == MapWith(m, xs[..i])
    {
      assert xs[..i + 1][..i] == xs[..i];
      var name := Lower(xs[i].name);
      var score := xs[i].score;
      match Dicts.Get(m, name)
      case None =>
      case Some(ms: Weighted) =>
        precise := AddMapped(precise, ms, score);
    }
    assert xs[..|xs|] == xs;
  }

  /** The inner loop: `precise_scores[mapped_emotion] += score * weight` for each pair of the mapping list. */
  method AddMapped(precise0: seq<real>, ms: Weighted, score: real) returns (precise: seq<real>)
    requires IsScores(precise0)
    ensures precise == AddWeighted(precise0, ms, score)
  {
    precise := precise0;
    for j := 0 to |ms|
      invariant precise == AddWeighted(precise0, ms[..j], score)
    {
      AddWeightedStep(precise0, ms, score, j);
      var mapped := FromName(ms[j].0);
      if mapped.Some? {
        var k := Index(mapped.value);
        precise := precise[k := precise[k] + RealSeq.Mul(score, ms[j].1)];
      }
    }
    assert ms[..|ms|] == ms;
  }

  /** The total weight a mapping list gives emotion `e`. */
  function WeightFor(ms: Weighted, e: Emotion): real {
    if ms == [] then 0.0
    else
      var n := |ms| - 1;
      WeightFor(ms[..n], e) + (if ms[n].0 == Name(e) then ms[n].1 else 0.0)
  }

  /** What one label gives emotion `e` per unit of score: 0 when the label is not a key. */
  function LabelWeight(m: Mapping, name: string, e: Emotion): real {
    match Dicts.Get(m, Lower(name))
    case None => 0.0
    case Some(ms) => WeightFor(ms, e)
  }

  function Contributions(m: Mapping, xs: seq<LabelScore>, e: Emotion): (c: seq<real>)
    ensures |c| == |xs| && forall k | 0 <= k < |xs| :: c[k] == RealSeq.Mul(xs[k].score, LabelWeight(m, xs[k].name, e))
  {
    seq(|xs|, k requires 0 <= k < |xs| => RealSeq.Mul(xs[k].score, LabelWeight(m, xs[k].name, e)))
  }

  /** The step of the inner mapping loop: one more `(name, weight)` pair. */
  lemma AddWeightedStep(v: seq<real>, ms: Weighted, score: real, j: nat)
    requires IsScores(v) && j < |ms|
    ensures AddWeighted(v, ms[..j + 1], score) == AddTo(AddWeighted(v, ms[..j], score), ms[j], score)
  {
    assert ms[..j + 1][..j] == ms[..j];
  }

  /** Adding to a name changes exactly the score of the emotion with that name. */
  lemma AddToAt(v: seq<real>, m: (string, real), score: real, e: Emotion)
    requires IsScores(v)
    ensures ScoreOf(AddTo(v, m, score), e) == ScoreOf(v, e) + RealSeq.Mul(score, if m.0 == Name(e) then m.1 else 0.0)
  {
    FromNameIff(m.0, e);
    var o := FromName(m.0);
    if o.Some? {
      var f := o.value;
      IndexInjective(e, f);
      assert AddTo(v, m, score) == v[Index(f) := v[Index(f)] + RealSeq.Mul(score, m.1)];
    } else {
      assert AddTo(v, m, score) == v;
    }
  }

  /** Each emotion gains `score` times the total weight its mapping list gives it. */
  lemma {:induction false} AddWeightedClosedForm(v: seq<real>, ms: Weighted, score: real, e: Emotion)
    requires IsScores(v)
    ensures ScoreOf(AddWeighted(v, ms, score), e) == ScoreOf(v, e) + RealSeq.Mul(score, WeightFor(ms, e))
  {
    if ms != [] {
      var n := |ms| - 1;
      var w := AddWeighted(v, ms[..n], score);
      assert AddWeighted(v, ms, score) == AddTo(w, ms[n], score);
      AddWeightedClosedForm(v, ms[..n], score, e);
      AddToAt(w, ms[n], score, e);
      var b := if ms[n].0 == Name(e) then ms[n].1 else 0.0;
      assert WeightFor(ms, e) == WeightFor(ms[..n], e) + b;
      RealSeq.MulAddStep(ScoreOf(v, e), ScoreOf(w, e), ScoreOf(AddWeighted(v, ms, score), e),
        WeightFor(ms[..n], e), b, WeightFor(ms, e), score);
    }
  }

  /**
   * Each emotion's mapped score is the sum, over the labels, of the label's
   * score times the weight its mapping gives that emotion.
   */
  lemma {:induction false} MapWithClosedForm(m: Mapping, xs: seq<LabelScore>, e: Emotion)
    ensures ScoreOf(MapWith(m, xs), e) == RealSeq.Sum(Contributions(m, xs, e))
  {
    if xs != [] {
      var n := |xs| - 1;
      MapWithClosedForm(m, xs[..n], e);
      assert Contributions(m, xs, e)[..n] == Contributions(m, xs[..n], e);
      match Dicts.Get(m, Lower(xs[n].name))
      case None =>
      case Some(ms) => AddWeightedClosedForm(MapWith(m, xs[..n]), ms, xs[n].score, e);
    }
  }

  /** A label that is not a key of the mapping, once lower-cased, changes nothing. */
  lemma UnmappedLabel(m: Mapping, xs: seq<LabelScore>, x: LabelScore)
    requires !Dicts.HasKey(m, Lower(x.name))
    ensures MapWith(m, xs + [x]) == MapWith(m, xs)
  {
    assert (xs + [x])[..|xs|] == xs;
  }

  /** A single label's contribution to emotion `e` in closed form. */
  lemma SingleLabel(m: Mapping, x: LabelScore, e: Emotion)
    ensures ScoreOf(MapWith(m, [x]), e) == RealSeq.Mul(x.score, LabelWeight(m, x.name, e))
  {
    MapWithClosedForm(m, [x], e);
    var c := Contributions(m, [x], e);
    assert c[..0] == c[..0][..0];
  }

  /** A label whose lower-case form is a key gets that key's mapping list. */
  lemma LabelWeightOf(m: Mapping, name: string, key: string, ms: Weighted, e: Emotion)
    requires Lower(name) == key && Dicts.Get(m, key) == Some(ms)
    ensures LabelWeight(m, name, e) == WeightFor(ms, e)
  {
  }

  lemma AngerListWeights()
    ensures var ms := [("angry", 0.9), ("anger", 0.9)];
      WeightFor(ms, Angry) == 0.9 && WeightFor(ms, Anger) == 0.9 && WeightFor(ms, Hate) == 0.0
  {
    var ms := [("angry", 0.9), ("anger", 0.9)];
    assert ms[..1] == [("angry", 0.9)];
    assert ms[..1][..0] == ms[..0];
  }

  /** The weights the "anger" entry gives: 0.9 to angry and to anger, none to hate. */
  lemma AngerWeights(name: string)
    requires Lower(name) == "anger"
    ensures LabelWeight(EmotionMapping(), name, Angry) == 0.9
    ensures LabelWeight(EmotionMapping(), name, Anger) == 0.9
    ensures LabelWeight(EmotionMapping(), name, Hate) == 0.0
  {
    AngerMapping();
    AngerListWeights();
    var ms := [("angry", 0.9), ("anger", 0.9)];
    LabelWeightOf(EmotionMapping(), name, "anger", ms, Angry);
    LabelWeightOf(EmotionMapping(), name, "anger", ms, Anger);
    LabelWeightOf(EmotionMapping(), name, "anger", ms, Hate);
  }

  /**
   * An "anger" label, in any letter case, gives angry and anger 0.9 of its
   * score each and hate nothing: the later literal entry wins.
   */
  lemma AngerLabel(x: LabelScore)
    requires Lower(x.name) == "anger"
    ensures var r := MapSpec([x]);
      ScoreOf(r, Angry) == x.score * 0.9 && ScoreOf(r, Anger) == x.score * 0.9 && ScoreOf(r, Hate) == 0.0
  {
    AngerWeights(x.name);
    SingleLabel(EmotionMapping(), x, Angry);
    SingleLabel(EmotionMapping(), x, Anger);
    SingleLabel(EmotionMapping(), x, Hate);
  }

  lemma {:induction false} WeightForNonNegative(ms: Weighted, e: Emotion)
    requires NonNegativeWeights(ms)
    ensures WeightFor(ms, e) >= 0.0
  {
    if ms != [] {
      WeightForNonNegative(ms[..|ms| - 1], e);
    }
  }

  /** With non-negative weights and label scores, every mapped score is non-negative. */
  lemma MapWithNonNegative(m: Mapping, xs: seq<LabelScore>)
    requires forall k :: Dicts.Get(m, k).Some? ==> NonNegativeWeights(Dicts.Get(m, k).value)
    requires forall k | 0 <= k < |xs| :: xs[k].score >= 0.0
    ensures forall i | 0 <= i < N :: MapWith(m, xs)[i] >= 0.0
  {
    forall i | 0 <= i < N ensures MapWith(m, xs)[i] >= 0.0 {
      var e := All()[i];
      var c := Contributions(m, xs, e);
      forall k | 0 <= k < |xs| ensures c[k] >= 0.0 {
        match Dicts.Get(m, Lower(xs[k].name))
        case None =>
        case Some(ms) => WeightForNonNegative(ms, e);
        RealSeq.MulSign(xs[k].score, LabelWeight(m, xs[k].name, e));
      }
      RealSeq.SumNonNegative(c);
      MapWithClosedForm(m, xs, e);
      IndexOfAll(i);
    }
  }

  /** Classifier scores that are not negative give mapped scores that are not negative. */
  lemma MapSpecNonNegative(xs: seq<LabelScore>)
    requires forall k | 0 <= k < |xs| :: xs[k].score >= 0.0
    ensures forall i | 0 <= i < N :: MapSpec(xs)[i] >= 0.0
  {
    forall k ensures Dicts.Get(EmotionMapping(), k).Some? ==> NonNegativeWeights(Dicts.Get(EmotionMapping(), k).value) {
      MappingNonNegative(k);
    }
    MapWithNonNegative(EmotionMapping(), xs);
  }

  // ---------------------------------------------------------------------
  // Context-aware keyword scoring (`_enhanced_keyword_analysis`, lines 92-131)

  /** The `keywords` column of the 23-emotion table. */
  function Keywords(e: Emotion): seq<string> {
    match e
    case Anxious => ["worried", "nervous", "uneasy", "concerned", "restless", "tense"]
    case Angry => ["furious", "mad", "rage", "outraged", "livid", "irritated"]
    case Sad => ["depressed", "down", "blue", "melancholy", "sorrowful", "dejected"]
    case Happy => ["joyful", "cheerful", "delighted", "elated", "ecstatic", "pleased"]
    case Hate => ["despise", "loathe", "detest", "abhor", "resent"]
    case Satisfaction => ["content", "pleased", "fulfilled", "gratified"]
    case Gratitude => ["thankful", "appreciate", "blessed", "grateful"]
    case Reproach => ["blame", "criticize", "condemn", "disapprove"]
    case Distress => ["troubled", "anguished", "tormented", "suffering"]
    case Pride => ["proud", "accomplished", "successful", "confident"]
    case Fear => ["afraid", "scared", "terrified", "frightened", "fearful"]
    case Mildness => ["calm", "peaceful", "gentle", "mild", "serene"]
    case Pity => ["sympathy", "compassion", "sorry for", "feel bad"]
    case Boredom => ["bored", "dull", "tedious", "monotonous", "uninteresting"]
    case Shame => ["ashamed", "embarrassed", "humiliated", "guilty"]
    case Disappointment => ["disappointed", "let down", "frustrated", "disillusioned"]
    case Hope => ["hopeful", "optimistic", "confident", "expecting"]
    case Resentment => ["resentful", "bitter", "grudge", "indignant"]
    case Love => ["love", "adore", "cherish", "treasure", "devoted"]
    case Gloating => ["gloating", "smug", "self-satisfied", "triumphant"]
    case Anger => ["anger", "wrath", "fury", "irritated", "annoyed"]
    case Relief => ["relieved", "reassured", "comforted", "eased"]
    case Admiration => ["admire", "respect", "impressed", "amazed", "wonderful"]
  }

  function Negations(): seq<string> {
    ["not", "never", "no", "don't", "can't", "won't"]
  }

  function Amplifiers(): seq<string> {
    ["very", "extremely", "really", "so", "quite"]
  }

  /** `any(w in s for w in ws)`: substring tests, so "no" is found in "know". */
  predicate AnyIn(ws: seq<string>, s: string) {
    exists k | 0 <= k < |ws| :: Contains(s, ws[k])
  }

  /** What one matched keyword adds: negation is checked first, then amplification. */
  function ContextFactor(sl: string): (f: real)
    ensures f > 0.0
  {
    if AnyIn(Negations(), sl) then 0.3
    else if AnyIn(Amplifiers(), sl) then 1.5
    else 1.0
  }

  function Multiplier(i: Intensity): (f: real)
    ensures f > 0.0
  {
    match i
    case Low => 0.7
    case Medium => 1.0
    case High => 1.3
  }

  /** The number of keywords that are substrings of `sl`. */
  function CountIn(kws: seq<string>, sl: string): (c: nat)
    ensures c <= |kws|
  {
    if kws == [] then 0
    else
      var n := |kws| - 1;
      CountIn(kws[..n], sl) + (if Contains(sl, kws[n]) then 1 else 0)
  }

  /** A keyword column: the table's, or any other for the general lemmas. */
  type KeywordTable = Emotion -> seq<string>

  /** `matches` for one emotion and one (lower-cased, stripped) sentence. */
  function Gain(kw: KeywordTable, sl: string, e: Emotion): real {
    RealSeq.Mul(CountIn(kw(e), sl) as real, ContextFactor(sl))
  }

  /** `len(sentence.split()) / 10` */
  function SentenceWeight(s: string): real {
    WordCount(s) as real / 10.0
  }

  function SentenceKey(s: string): string {
    Strip(Lower(s))
  }

  /** What a sentence with key `sl` and weight `w` adds to the score of `e`. */
  function EmotionGain(kw: KeywordTable, sl: string, w: real, e: Emotion): real {
    if Gain(kw, sl, e) > 0.0 then RealSeq.Mul(RealSeq.Mul(Gain(kw, sl, e), w), Multiplier(IntensityOf(e)))
    else 0.0
  }

  /** What such a sentence adds to `total_weight` over the first `j` emotions of the table. */
  function GainWeight(kw: KeywordTable, sl: string, w: real, j: nat): real
    requires j <= N
  {
    if j == 0 then 0.0
    else GainWeight(kw, sl, w, j - 1) + (if Gain(kw, sl, All()[j - 1]) > 0.0 then w else 0.0)
  }

  /** The sentence is not blank and some keyword of `e` occurs in its lower-cased, stripped form. */
  predicate Matched(kw: KeywordTable, s: string, e: Emotion) {
    !IsBlank(s) && AnyIn(kw(e), SentenceKey(s))
  }

  /** What one sentence adds to the score of `e`; blank sentences are skipped. */
  function SentenceScore(kw: KeywordTable, s: string, e: Emotion): real {
    if IsBlank(s) then 0.0 else EmotionGain(kw, SentenceKey(s), SentenceWeight(s), e)
  }

  /** What one sentence adds to `total_weight`. */
  function MatchedWeight(kw: KeywordTable, s: string): real {
    if IsBlank(s) then 0.0 else GainWeight(kw, SentenceKey(s), SentenceWeight(s), N)
  }

  /** The un-normalised score of `e` after the given sentences. */
  function Raw(kw: KeywordTable, sents: seq<string>, e: Emotion): real {
    if sents == [] then 0.0
    else
      var n := |sents| - 1;
      Raw(kw, sents[..n], e) + SentenceScore(kw, sents[n], e)
  }

  function RawScores(kw: KeywordTable, sents: seq<string>): (v: seq<real>)
    ensures IsScores(v) && forall i | 0 <= i < N :: v[i] == Raw(kw, sents, All()[i])
  {
    seq(N, i requires 0 <= i < N => Raw(kw, sents, All()[i]))
  }

  /** `total_weight` after the given sentences. */
  function TotalWeight(kw: KeywordTable, sents: seq<string>): real {
    if sents == [] then 0.0
    else
      var n := |sents| - 1;
      TotalWeight(kw, sents[..n]) + MatchedWeight(kw, sents[n])
  }

  /** `re.split(r'[.!?]+', text)` */
  function Sentences(text: string): seq<string> {
    SplitRuns(text, {'.', '!', '?'})
  }

  /** The keyword scores for a keyword column, divided by the total weight when that is positive. */
  function KeywordScores(kw: KeywordTable, text: string): (v: seq<real>)
    ensures IsScores(v)
  {
    var sents := Sentences(text);
    var t := TotalWeight(kw, sents);
    if t > 0.0 then RealSeq.Div(RawScores(kw, sents), t) else RawScores(kw, sents)
  }

  /** `_enhanced_keyword_analysis` (lines 92-131) with the table's keywords. */
  function KeywordSpec(text: string): (v: seq<real>)
    ensures IsScores(v)
  {
    KeywordScores(Keywords, text)
  }

  lemma CountStep(kws: seq<string>, sl: string, k: nat)
    requires k < |kws|
    ensures CountIn(kws[..k + 1], sl) == CountIn(kws[..k], sl) + (if Contains(sl, kws[k]) then 1 else 0)
  {
    assert kws[..k + 1][..k] == kws[..k];
  }

  lemma RawStep(kw: KeywordTable, sents: seq<string>, i: nat, e: Emotion)
    requires i < |sents|
    ensures Raw(kw, sents[..i + 1], e) == Raw(kw, sents[..i], e) + SentenceScore(kw, sents[i], e)
  {
    assert sents[..i + 1][..i] == sents[..i];
  }

  lemma TotalStep(kw: KeywordTable, sents: seq<string>, i: nat)
    requires i < |sents|
    ensures TotalWeight(kw, sents[..i + 1]) == TotalWeight(kw, sents[..i]) + MatchedWeight(kw, sents[i])
  {
    assert sents[..i + 1][..i] == sents[..i];
  }

  /** The innermost loop: every keyword found adds the sentence's context factor. */
  method KeywordMatches(keywords: seq<string>, sentenceLower: string) returns (matches: real)
    ensures matches == RealSeq.Mul(CountIn(keywords, sentenceLower) as real, ContextFactor(sentenceLower))
  {
    matches := 0.0;
    for k := 0 to |keywords|
      invariant matches == RealSeq.Mul(CountIn(keywords[..k], sentenceLower) as real, ContextFactor(sentenceLower))
    {
      CountStep(keywords, sentenceLower, k);
      if Contains(sentenceLower, keywords[k]) {
        RealSeq.MulDistributes(ContextFactor(sentenceLower), CountIn(keywords[..k], sentenceLower) as real, 1.0);
        if AnyIn(Negations(), sentenceLower) {
          matches := matches + 0.3;
        } else if AnyIn(Amplifiers(), sentenceLower) {
          matches := matches + 1.5;
        } else {
          matches := matches + 1.0;
        }
      }
    }
    assert keywords[..|keywords|] == keywords;
  }

  /** The per-emotion loop over one non-blank sentence, with its key `sl` and weight `w`. */
  method ScoreSentence(kw: KeywordTable, scores0: seq<real>, total0: real, sl: string, w: real)
    returns (scores: seq<real>, total: real)
    requires |scores0| == N
    ensures |scores| == N && forall q | 0 <= q < N :: scores[q] == scores0[q] + EmotionGain(kw, sl, w, All()[q])
    ensures total == total0 + GainWeight(kw, sl, w, N)
  {
    scores, total := scores0, total0;
    for q := 0 to N
      invariant |scores| == N
      invariant forall r | 0 <= r < q :: scores[r] == scores0[r] + EmotionGain(kw, sl, w, All()[r])
      invariant forall r | q <= r < N :: scores[r] == scores0[r]
      invariant total == total0 + GainWeight(kw, sl, w, q)
    {
      var emotion := All()[q];
      var matches := KeywordMatches(kw(emotion), sl);
      if matches > 0.0 {
        var multiplier := Multiplier(IntensityOf(emotion));
        scores := scores[q := scores[q] + RealSeq.Mul(RealSeq.Mul(matches, w), multiplier)];
        total := total + w;
      }
    }
  }

  /** The sentence loop: raw scores and total weight after all sentences. */
  method ScoreSentences(kw: KeywordTable, sentences: seq<string>) returns (scores: seq<real>, total: real)
    ensures scores == RawScores(kw, sentences)
    ensures total == TotalWeight(kw, sentences)
  {
    scores := RealSeq.Zeros(N);
    total := 0.0;
    for i := 0 to |sentences|
      invariant ScoredUpTo(kw, sentences, i, scores, total)
    {
      scores, total := ScoreNextSentence(kw, sentences, i, scores, total);
    }
    assert sentences[..|sentences|] == sentences;
  }

  /** The body of the sentence loop: a blank sentence is skipped, any other one is scored. */
  method ScoreNextSentence(kw: KeywordTable, sentences: seq<string>, i: nat, scores0: seq<real>, total0: real)
    returns (scores: seq<real>, total: real)
    requires i < |sentences| && ScoredUpTo(kw, sentences, i, scores0, total0)
    ensures ScoredUpTo(kw, sentences, i + 1, scores, total)
  {
    var sentence := sentences[i];
    StripEmptyIffBlank(sentence);
    if Strip(sentence) == [] {
      BlankSentenceStep(kw, sentences, i, scores0, total0);
      return scores0, total0;
    }
    var sentenceLower := Strip(Lower(sentence));
    var sentenceWeight := WordCount(sentence) as real / 10.0;
    assert sentenceLower == SentenceKey(sentence) && sentenceWeight == SentenceWeight(sentence);
    scores, total := ScoreSentence(kw, scores0, total0, sentenceLower, sentenceWeight);
    SentenceStep(kw, sentences, i, scores0, total0, scores, total);
  }

  /** The scores and the total weight after the first `i` sentences. */
  predicate ScoredUpTo(kw: KeywordTable, sentences: seq<string>, i: nat, scores: seq<real>, total: real)
    requires i <= |sentences|
  {
    |scores| == N && (forall q | 0 <= q < N :: scores[q] == Raw(kw, sentences[..i], All()[q])) &&
    total == TotalWeight(kw, sentences[..i])
  }

  /** A blank sentence leaves the scores and the total as they are. */
  lemma BlankSentenceStep(kw: KeywordTable, sentences: seq<string>, i: nat, scores: seq<real>, total: real)
    requires i < |sentences| && IsBlank(sentences[i]) && ScoredUpTo(kw, sentences, i, scores, total)
    ensures ScoredUpTo(kw, sentences, i + 1, scores, total)
  {
    forall q | 0 <= q < N ensures scores[q] == Raw(kw, sentences[..i + 1], All()[q]) {
      RawStep(kw, sentences, i, All()[q]);
    }
    TotalStep(kw, sentences, i);
  }

  /** A sentence that is not blank adds its gains to the scores and its weight per matched emotion to the total. */
  lemma SentenceStep(kw: KeywordTable, sentences: seq<string>, i: nat, scores0: seq<real>, total0: real, scores: seq<real>, total: real)
    requires i < |sentences| && !IsBlank(sentences[i]) && ScoredUpTo(kw, sentences, i, scores0, total0)
    requires |scores| == N && forall q | 0 <= q < N ::
      scores[q] == scores0[q] + EmotionGain(kw, SentenceKey(sentences[i]), SentenceWeight(sentences[i]), All()[q])
    requires total == total0 + GainWeight(kw, SentenceKey(sentences[i]), SentenceWeight(sentences[i]), N)
    ensures ScoredUpTo(kw, sentences, i + 1, scores, total)
  {
    forall q | 0 <= q < N ensures scores[q] == Raw(kw, sentences[..i + 1], All()[q]) {
      RawStep(kw, sentences, i, All()[q]);
    }
    TotalStep(kw, sentences, i);
  }

  /** The sentence loop and the normalisation, for a keyword column. */
  method ScoreKeywords(kw: KeywordTable, text: string) returns (scores: seq<real>)
    ensures scores == KeywordScores(kw, text)
  {
    var sentences := Sentences(text);
    var total;
    scores, total := ScoreSentences(kw, sentences);
    if total > 0.0 {
      scores := RealSeq.Div(scores, total);
    }
  }

  /**
   * `_enhanced_keyword_analysis` up to the normalisation: for each non-blank
   * sentence and each emotion, count the keywords found in the sentence,
   * weigh each by the sentence's context, and add matches times sentence
   * weight times intensity multiplier; the sentence weight joins the total
   * once per emotion that matched.
   */
  method KeywordAnalysis(text: string) returns (scores: seq<real>)
    ensures scores == KeywordSpec(text)
  {
    scores := ScoreKeywords(Keywords, text);
  }

  /** The keyword count is positive exactly when some keyword occurs. */
  lemma {:induction false} CountInPositive(kws: seq<string>, sl: string)
    ensures CountIn(kws, sl) > 0 <==> AnyIn(kws, sl)
  {
    if kws != [] {
      var n := |kws| - 1;
      CountInPositive(kws[..n], sl);
      if AnyIn(kws[..n], sl) {
        var k :| 0 <= k < n && Contains(sl, kws[..n][k]);
        assert kws[k] == kws[..n][k];
      }
      if AnyIn(kws, sl) && !Contains(sl, kws[n]) {
        var k :| 0 <= k < |kws| && Contains(sl, kws[k]);
        assert kws[..n][k] == kws[k];
      }
    }
  }

  /** `matches` is never negative, and positive exactly when a keyword of `e` occurs in the sentence. */
  lemma GainSign(kw: KeywordTable, sl: string, e: Emotion)
    ensures Gain(kw, sl, e) >= 0.0
    ensures Gain(kw, sl, e) > 0.0 <==> AnyIn(kw(e), sl)
  {
    CountInPositive(kw(e), sl);
  }

  /** A sentence has positive weight exactly when it is not blank. */
  lemma SentenceWeightSign(s: string)
    ensures SentenceWeight(s) >= 0.0
    ensures SentenceWeight(s) > 0.0 <==> !IsBlank(s)
  {
    SplitEmptyIffBlank(s);
  }

  /** What a sentence of weight `w` adds to `e`: positive exactly when it is heavy and a keyword of `e` occurs. */
  lemma EmotionGainSign(kw: KeywordTable, sl: string, w: real, e: Emotion)
    requires w >= 0.0
    ensures EmotionGain(kw, sl, w, e) >= 0.0
    ensures EmotionGain(kw, sl, w, e) > 0.0 <==> w > 0.0 && AnyIn(kw(e), sl)
  {
    GainSign(kw, sl, e);
    var g := Gain(kw, sl, e);
    if g > 0.0 {
      var m := Multiplier(IntensityOf(e));
      RealSeq.MulSign(g, w);
      RealSeq.MulSign(RealSeq.Mul(g, w), m);
    }
  }

  /** A sentence adds to `e` exactly when it matched `e`, and never subtracts. */
  lemma SentenceScoreSign(kw: KeywordTable, s: string, e: Emotion)
    ensures SentenceScore(kw, s, e) >= 0.0
    ensures SentenceScore(kw, s, e) > 0.0 <==> Matched(kw, s, e)
  {
    if !IsBlank(s) {
      SentenceWeightSign(s);
      EmotionGainSign(kw, SentenceKey(s), SentenceWeight(s), e);
    }
  }

  /** What each sentence adds to `e`, in order. */
  function SentenceScores(kw: KeywordTable, sents: seq<string>, e: Emotion): (c: seq<real>)
    ensures |c| == |sents| && forall i | 0 <= i < |sents| :: c[i] == SentenceScore(kw, sents[i], e)
  {
    seq(|sents|, i requires 0 <= i < |sents| => SentenceScore(kw, sents[i], e))
  }

  /** The raw score is the sum of what the sentences add. */
  lemma {:induction false} RawIsSum(kw: KeywordTable, sents: seq<string>, e: Emotion)
    ensures Raw(kw, sents, e) == RealSeq.Sum(SentenceScores(kw, sents, e))
  {
    if sents != [] {
      var n := |sents| - 1;
      RawIsSum(kw, sents[..n], e);
      assert SentenceScores(kw, sents, e)[..n] == SentenceScores(kw, sents[..n], e);
    }
  }

  lemma RawSign(kw: KeywordTable, sents: seq<string>, e: Emotion)
    ensures Raw(kw, sents, e) >= 0.0
    ensures Raw(kw, sents, e) > 0.0 <==> exists i | 0 <= i < |sents| :: Matched(kw, sents[i], e)
  {
    var c := SentenceScores(kw, sents, e);
    RawIsSum(kw, sents, e);
    forall i | 0 <= i < |c| ensures c[i] >= 0.0 && (c[i] > 0.0 <==> Matched(kw, sents[i], e)) {
      SentenceScoreSign(kw, sents[i], e);
    }
    RealSeq.SumNonNegative(c);
    RealSeq.SumZeroIffAllZero(c);
  }

  lemma {:induction false} GainWeightNonNegative(kw: KeywordTable, sl: string, w: real, j: nat)
    requires j <= N && w >= 0.0
    ensures GainWeight(kw, sl, w, j) >= 0.0
  {
    if j > 0 {
      GainWeightNonNegative(kw, sl, w, j - 1);
    }
  }

  lemma {:induction false} TotalWeightNonNegative(kw: KeywordTable, sents: seq<string>)
    ensures TotalWeight(kw, sents) >= 0.0
  {
    if sents != [] {
      var n := |sents| - 1;
      TotalWeightNonNegative(kw, sents[..n]);
      SentenceWeightSign(sents[n]);
      GainWeightNonNegative(kw, SentenceKey(sents[n]), SentenceWeight(sents[n]), N);
    }
  }

  /** One emotion's keyword score: its raw score, divided by the total weight when that is positive. */
  lemma KeywordScoreOf(kw: KeywordTable, text: string, e: Emotion)
    ensures var sents := Sentences(text);
      var t := TotalWeight(kw, sents);
      ScoreOf(KeywordScores(kw, text), e) == if t > 0.0 then Raw(kw, sents, e) / t else Raw(kw, sents, e)
  {
    var sents := Sentences(text);
    var raw := RawScores(kw, sents);
    assert raw[Index(e)] == Raw(kw, sents, e);
  }

  /**
   * Keyword scores are never negative, and an emotion scores above zero
   * exactly when some non-blank sentence contains one of its keywords.
   */
  lemma KeywordScoresSign(kw: KeywordTable, text: string, e: Emotion)
    ensures ScoreOf(KeywordScores(kw, text), e) >= 0.0
    ensures ScoreOf(KeywordScores(kw, text), e) > 0.0 <==>
      exists i | 0 <= i < |Sentences(text)| :: Matched(kw, Sentences(text)[i], e)
  {
    var sents := Sentences(text);
    RawSign(kw, sents, e);
    KeywordScoreOf(kw, text, e);
    var t := TotalWeight(kw, sents);
    if t > 0.0 {
      RealSeq.DivSign(Raw(kw, sents, e), t);
    }
  }

  /** The same for the table's keywords. */
  lemma KeywordSpecSign(text: string, e: Emotion)
    ensures ScoreOf(KeywordSpec(text), e) >= 0.0
    ensures ScoreOf(KeywordSpec(text), e) > 0.0 <==>
      exists i | 0 <= i < |Sentences(text)| :: Matched(Keywords, Sentences(text)[i], e)
  {
    KeywordScoresSign(Keywords, text, e);
  }
}
