/**
 * The older emotion service (backend/services/emotion_analysis.py): maps
 * classifier labels onto the 23 emotions by substring match and an equal
 * split, counts keyword substrings, combines the methods by weighted
 * average, and picks the first emotion with the largest combined score.
 */
module EmotionAnalysis {
  import opened Wrappers
  import opened Text
  import opened Emotions
  import opened Pipelines
  import Dicts
  import RealSeq
  import Ranking
  import EnhancedEmotion
  import EnhancedEnsemble

  /** A dict from a model's label to the emotion names its score is split over. */
  type NameMapping = Dicts.Dict<seq<string>>

  /**
   * Entry `i` of the `emotion_mapping` literal as written, duplicate keys
   * included; each list is written with the table's emotions, whose names
   * are the strings of the literal.
   */
  function MappingEntry(i: nat): (string, seq<Emotion>)
    requires i < 35
  {
    match i
    case 0 => ("anger", [Angry, Anger, Resentment])
    case 1 => ("fear", [Fear, Anxious, Distress])
    case 2 => ("joy", [Happy, Satisfaction, Relief])
    case 3 => ("sadness", [Sad, Disappointment, Shame])
    case 4 => ("love", [Love, Gratitude, Admiration])
    case 5 => ("surprise", [Hope, Relief])
    case 6 => ("disgust", [Hate, Reproach])
    case 7 => ("admiration", [Admiration, Gratitude])
    case 8 => ("amusement", [Happy, Satisfaction])
    case 9 => ("anger", [Angry, Anger, Hate])
    case 10 => ("annoyance", [Resentment, Reproach])
    case 11 => ("approval", [Satisfaction, Pride])
    case 12 => ("caring", [Love, Gratitude])
    case 13 => ("confusion", [Anxious, Distress])
    case 14 => ("curiosity", [Hope, Admiration])
    case 15 => ("desire", [Love, Hope])
    case 16 => ("disappointment", [Disappointment, Sad])
    case 17 => ("disapproval", [Reproach, Resentment])
    case 18 => ("disgust", [Hate, Reproach])
    case 19 => ("embarrassment", [Shame, Distress])
    case 20 => ("excitement", [Happy, Satisfaction])
    case 21 => ("fear", [Fear, Anxious])
    case 22 => ("gratitude", [Gratitude, Admiration])
    case 23 => ("grief", [Sad, Distress])
    case 24 => ("joy", [Happy, Satisfaction])
    case 25 => ("love", [Love, Gratitude])
    case 26 => ("nervousness", [Anxious, Fear])
    case 27 => ("optimism", [Hope, Satisfaction])
    case 28 => ("pride", [Pride, Satisfaction])
    case 29 => ("realization", [Relief, Satisfaction])
    case 30 => ("relief", [Relief, Satisfaction])
    case 31 => ("remorse", [Shame, Disappointment])
    case 32 => ("sadness", [Sad, Disappointment])
    case 33 => ("surprise", [Relief, Hope])
    case _ => ("neutral", [Mildness, Boredom])
  }

  /** The `emotion_mapping` literal: 35 pairs over 28 distinct keys. */
  function MappingLiteral(): (lit: seq<(string, seq<string>)>)
    ensures |lit| == 35 && forall i | 0 <= i < 35 :: lit[i] == (MappingEntry(i).0, Names(MappingEntry(i).1))
  {
    seq(35, i requires 0 <= i < 35 => (MappingEntry(i).0, Names(MappingEntry(i).1)))
  }

  /** The names of a list of emotions. */
  function Names(es: seq<Emotion>): (ns: seq<string>)
    ensures |ns| == |es| && forall k | 0 <= k < |es| :: ns[k] == Name(es[k])
  {
    seq(|es|, k requires 0 <= k < |es| => Name(es[k]))
  }

  /** The dict the literal evaluates to: first-insertion key order, later values. */
  function EmotionMapping(): NameMapping {
    Dicts.FromLiteral(MappingLiteral(), 35)
  }

  // ---------------------------------------------------------------------
  // Finding a label's mapping (lines 135-140)

  /** `emotion_label in key or key in emotion_label` */
  predicate Related(key: string, emotionLabel: string) {
    Contains(key, emotionLabel) || Contains(emotionLabel, key)
  }

  /** The position of the first key from position `i` on that is related to the label. */
  function FirstRelatedFrom(m: NameMapping, emotionLabel: string, i: nat): (r: Option<nat>)
    requires i <= |m|
    ensures r.Some? ==>
      i <= r.value < |m| && Related(m[r.value].0, emotionLabel) && forall j | i <= j < r.value :: !Related(m[j].0, emotionLabel)
    ensures r.None? ==> forall j | i <= j < |m| :: !Related(m[j].0, emotionLabel)
    decreases |m| - i
  {
    if i == |m| then None
    else if Related(m[i].0, emotionLabel) then Some(i)
    else FirstRelatedFrom(m, emotionLabel, i + 1)
  }

  /** The emotion names of the first related key, or none when no key is related. */
  function Mapped(m: NameMapping, emotionLabel: string): (names: seq<string>)
    ensures names == [] || exists i | 0 <= i < |m| :: names == m[i].1
  {
    match FirstRelatedFrom(m, emotionLabel, 0)
    case None => []
    case Some(i) => m[i].1
  }

  /** The search loop with its `break`: the values of the first related key, else `[]`. */
  method FindMapped(m: NameMapping, emotionLabel: string) returns (mapped: seq<string>)
    ensures mapped == Mapped(m, emotionLabel)
  {
    mapped := [];
    var i := 0;
    while i < |m|
      invariant 0 <= i <= |m|
      invariant forall j | 0 <= j < i :: !Related(m[j].0, emotionLabel)
    {
      var (key, values) := m[i];
      if Contains(key, emotionLabel) || Contains(emotionLabel, key) {
        mapped := values;
        break;
      }
      i := i + 1;
    }
  }

  // ---------------------------------------------------------------------
  // Distributing the scores (lines 129-147)

  /** `precise_scores[name] += share` when the name is one of the 23 emotions. */
  function AddShare(v: seq<real>, name: string, share: real): (r: seq<real>)
    requires IsScores(v)
    ensures IsScores(r)
  {
    match FromName(name)
    case None => v
    case Some(e) => v[Index(e) := v[Index(e)] + share]
  }

  /** Adds `share` for each name in turn. */
  function AddShares(v: seq<real>, names: seq<string>, share: real): (r: seq<real>)
    requires IsScores(v)
    ensures IsScores(r)
  {
    if names == [] then v
    else
      var n := |names| - 1;
      AddShare(AddShares(v, names[..n], share), names[n], share)
  }

  /** One emotionLabel: its score split equally over the names its lower-case form maps to. */
  function AddLabel(m: NameMapping, v: seq<real>, x: LabelScore): (r: seq<real>)
    requires IsScores(v)
    ensures IsScores(r)
  {
    var mapped := Mapped(m, Lower(x.name));
    if mapped == [] then v else AddShares(v, mapped, x.score / |mapped| as real)
  }

  /** The mapping loop over the labels, from all-zero scores, for a given mapping dict. */
  function MapWith(m: NameMapping, xs: seq<LabelScore>): (r: seq<real>)
    ensures IsScores(r)
  {
    if xs == [] then RealSeq.Zeros(N)
    else AddLabel(m, MapWith(m, xs[..|xs| - 1]), xs[|xs| - 1])
  }

  /** `{k: v / total for ...}` when the total is positive; otherwise the scores as they are. */
  function Normalize(v: seq<real>): (r: seq<real>)
    ensures |r| == |v|
  {
    var t := RealSeq.Sum(v);
    if t > 0.0 then RealSeq.Div(v, t) else v
  }

  /** `_map_to_precise_emotions` with its own mapping dict. */
  function MapSpec(xs: seq<LabelScore>): (r: seq<real>)
    ensures IsScores(r)
  {
    Normalize(MapWith(EmotionMapping(), xs))
  }

  lemma AddShareCases(v: seq<real>, name: string, share: real)
    requires IsScores(v)
    ensures FromName(name).None? ==> AddShare(v, name, share) == v
    ensures FromName(name).Some? ==>
      var k := Index(FromName(name).value);
      AddShare(v, name, share) == v[k := v[k] + share]
  {
  }

  lemma AddSharesStep(v: seq<real>, names: seq<string>, share: real, j: nat)
    requires IsScores(v) && j < |names|
    ensures AddShares(v, names[..j + 1], share) == AddShare(AddShares(v, names[..j], share), names[j], share)
  {
    assert names[..j + 1][..j] == names[..j];
  }

  /**
   * `_map_to_precise_emotions`: every label, lower-cased, goes to the first
   * mapping key it is related to by substring, and its score is split equally
   * over that key's emotion names; the scores are then normalised.
   */
  method MapToPreciseEmotions(modelEmotions: seq<LabelScore>) returns (precise: seq<real>)
    ensures precise == MapSpec(modelEmotions)
  {
    var mapping := EmotionMapping();
    precise := MapLabels(mapping, modelEmotions);
    var totalScore := RealSeq.Sum(precise);
    if totalScore > 0.0 {
      precise := RealSeq.Div(precise, totalScore);
    }
  }

  /** The loop over the labels, for a given mapping dict. */
  method MapLabels(m: NameMapping, modelEmotions: seq<LabelScore>) returns (precise: seq<real>)
    ensures precise == MapWith(m, modelEmotions)
  {
    precise := RealSeq.Zeros(N);
    for i := 0 to |modelEmotions|
      invariant precise == MapWith(m, modelEmotions[..i])
    {
      assert modelEmotions[..i + 1][..i] == modelEmotions[..i];
      var emotionLabel := Lower(modelEmotions[i].name);
      var score := modelEmotions[i].score;
      var mapped := FindMapped(m, emotionLabel);
      if mapped != [] {
        var scorePerEmotion := score / |mapped| as real;
        precise := Distribute(precise, mapped, scorePerEmotion);
      }
    }
    assert modelEmotions[..|modelEmotions|] == modelEmotions;
  }

  /** The inner loop: `precise_scores[mapped_emotion] += score_per_emotion` for each mapped name. */
  method Distribute(precise0: seq<real>, mapped: seq<string>, scorePerEmotion: real) returns (precise: seq<real>)
    requires IsScores(precise0)
    ensures precise == AddShares(precise0, mapped, scorePerEmotion)
  {
    precise := precise0;
    for j := 0 to |mapped|
      invariant precise == AddShares(precise0, mapped[..j], scorePerEmotion)
    {
      AddSharesStep(precise0, mapped, scorePerEmotion, j);
      precise := AddOne(precise, mapped[j], scorePerEmotion);
    }
    assert mapped[..|mapped|] == mapped;
  }

  /** One pass of the inner loop: the share added to the named emotion, if the name is one. */
  method AddOne(precise0: seq<real>, name: string, scorePerEmotion: real) returns (precise: seq<real>)
    requires IsScores(precise0)
    ensures precise == AddShare(precise0, name, scorePerEmotion)
  {
    AddShareCases(precise0, name, scorePerEmotion);
    precise := precise0;
    var e := FromName(name);
    if e.Some? {
      var k := Index(e.value);
      precise := precise[k := precise[k] + scorePerEmotion];
    }
  }

  // ---------------------------------------------------------------------
  // The mapping literal

  /** The later GoEmotions entry overrides the first "anger" entry: "anger" feeds hate, not resentment. */
  lemma AngerMapping()
    ensures Dicts.Get(EmotionMapping(), "anger") == Some(["angry", "anger", "hate"])
  {
    AngerEntry();
    AngerNotAfter();
    Dicts.FromLiteralGetAt(MappingLiteral(), 35, 9);
  }

  lemma AngerEntry()
    ensures MappingLiteral()[9] == ("anger", ["angry", "anger", "hate"])
  {
    assert Names([Angry, Anger, Hate]) == ["angry", "anger", "hate"];
  }

  /** "sadness" keeps only its later list: shame is no longer fed. */
  lemma SadnessMapping()
    ensures Dicts.Get(EmotionMapping(), "sadness") == Some(["sad", "disappointment"])
  {
    SadnessEntry();
    SadnessNotAfter();
    Dicts.FromLiteralGetAt(MappingLiteral(), 35, 32);
  }

  lemma SadnessEntry()
    ensures MappingLiteral()[32] == ("sadness", ["sad", "disappointment"])
  {
    assert Names([Sad, Disappointment]) == ["sad", "disappointment"];
  }

  /** No entry after the second "anger" entry has that key. */
  lemma AngerNotAfter()
    ensures forall j | 9 < j < 35 :: MappingLiteral()[j].0 != "anger"
  {
    forall j | 9 < j < 35 ensures MappingLiteral()[j].0 != "anger" {
      assert MappingLiteral()[j].0 == MappingEntry(j).0;
    }
  }

  /** No entry after the second "sadness" entry has that key. */
  lemma SadnessNotAfter()
    ensures forall j | 32 < j < 35 :: MappingLiteral()[j].0 != "sadness"
  {
    forall j | 32 < j < 35 ensures MappingLiteral()[j].0 != "sadness" {
      assert MappingLiteral()[j].0 == MappingEntry(j).0;
    }
  }

  /** "anger" is the first key of the evaluated dict, paired with its later list. */
  lemma FirstKey()
    ensures |EmotionMapping()| >= 1 && EmotionMapping()[0] == ("anger", ["angry", "anger", "hate"])
  {
    var lit := MappingLiteral();
    assert lit[0].0 == "anger";
    Dicts.FromLiteralFirst(lit, 35);
    Dicts.FromLiteralDistinct(lit, 35);
    Dicts.GetAt(EmotionMapping(), 0);
    AngerMapping();
  }

  /**
   * A label related to "anger" — any substring of it, the empty label
   * included, or any label containing it, such as "danger" — takes the
   * first key's list.
   */
  lemma AngerFirst(emotionLabel: string)
    requires Related("anger", emotionLabel)
    ensures Mapped(EmotionMapping(), emotionLabel) == ["angry", "anger", "hate"]
  {
    FirstKey();
    assert FirstRelatedFrom(EmotionMapping(), emotionLabel, 0) == Some(0);
  }

  /** The empty label is a substring of every key, so it is mapped like "anger". */
  lemma EmptyLabel()
    ensures Mapped(EmotionMapping(), "") == ["angry", "anger", "hate"]
  {
    assert StartsWith("anger", "");
    AngerFirst("");
  }

  // ---------------------------------------------------------------------
  // Where a label's score goes

  /** Names that are all among the 23 emotions. */
  predicate ValidNames(names: seq<string>) {
    forall k | 0 <= k < |names| :: FromName(names[k]).Some?
  }

  predicate ValidMapping(m: NameMapping) {
    forall i | 0 <= i < |m| :: ValidNames(m[i].1)
  }

  lemma NamesValid(es: seq<Emotion>)
    ensures ValidNames(Names(es))
  {
    forall k | 0 <= k < |es| ensures FromName(Names(es)[k]).Some? {
      FromNameOfName(es[k]);
    }
  }

  /** Every emotion name in the mapping is one of the 23 emotions. */
  lemma MappingValid()
    ensures ValidMapping(EmotionMapping())
  {
    var lit := MappingLiteral();
    forall j | 0 <= j < 35 ensures ValidNames(lit[j].1) {
      NamesValid(MappingEntry(j).1);
    }
    Dicts.FromLiteralValues(lit, 35, ValidNames);
  }

  /** Adding `share` for a name changes exactly the score of the emotion with that name. */
  lemma AddShareAt(v: seq<real>, name: string, share: real, e: Emotion)
    requires IsScores(v)
    ensures ScoreOf(AddShare(v, name, share), e) == ScoreOf(v, e) + (if name == Name(e) then share else 0.0)
  {
    FromNameIff(name, e);
    AddShareCases(v, name, share);
    if FromName(name).Some? {
      IndexInjective(e, FromName(name).value);
    }
  }

  /** Each emotion gains `share` once for every time its name is listed. */
  lemma {:induction false} AddSharesClosedForm(v: seq<real>, names: seq<string>, share: real, e: Emotion)
    requires IsScores(v)
    ensures ScoreOf(AddShares(v, names, share), e) == ScoreOf(v, e) + RealSeq.Mul(multiset(names)[Name(e)] as real, share)
  {
    if names == [] {
      assert multiset(names)[Name(e)] == 0;
    } else {
      var n := |names| - 1;
      var w := AddShares(v, names[..n], share);
      assert AddShares(v, names, share) == AddShare(w, names[n], share);
      AddSharesClosedForm(v, names[..n], share, e);
      AddShareAt(w, names[n], share, e);
      CountSnoc(names, Name(e));
      MulStep(ScoreOf(v, e), ScoreOf(w, e), ScoreOf(AddShares(v, names, share), e),
        multiset(names[..n])[Name(e)] as real, multiset(names)[Name(e)] as real, share, names[n] == Name(e));
    }
  }

  /** The count of `x` in a sequence is its count before the last element, plus one when that element is `x`. */
  lemma CountSnoc(names: seq<string>, x: string)
    requires names != []
    ensures multiset(names)[x] == multiset(names[..|names| - 1])[x] + if names[|names| - 1] == x then 1 else 0
  {
    assert names == names[..|names| - 1] + [names[|names| - 1]];
  }

  /** One more share on top of `c` shares, stated on plain values. */
  lemma MulStep(s0: real, s: real, s': real, c: real, c': real, share: real, hit: bool)
    requires s == s0 + RealSeq.Mul(c, share)
    requires s' == s + (if hit then share else 0.0)
    requires c' == c + (if hit then 1.0 else 0.0)
    ensures s' == s0 + RealSeq.Mul(c', share)
  {
  }

  /** The total of the scores grows by `share` for every name that is an emotion. */
  lemma {:induction false} AddSharesTotal(v: seq<real>, names: seq<string>, share: real)
    requires IsScores(v) && ValidNames(names)
    ensures RealSeq.Sum(AddShares(v, names, share)) == RealSeq.Sum(v) + RealSeq.Mul(|names| as real, share)
  {
    if names != [] {
      var n := |names| - 1;
      var w := AddShares(v, names[..n], share);
      assert AddShares(v, names, share) == AddShare(w, names[n], share);
      assert ValidNames(names[..n]) by {
        forall k | 0 <= k < n ensures FromName(names[..n][k]).Some? {
          assert names[..n][k] == names[k];
        }
      }
      AddSharesTotal(v, names[..n], share);
      assert FromName(names[n]).Some?;
      var k := Index(FromName(names[n]).value);
      AddShareCases(w, names[n], share);
      RealSeq.SumUpdate(w, k, share);
      MulStep(RealSeq.Sum(v), RealSeq.Sum(w), RealSeq.Sum(AddShares(v, names, share)), n as real, |names| as real, share, true);
    }
  }

  /** The score of a label whose lower-case form is related to some key; 0 for the others. */
  function MatchedScore(m: NameMapping, x: LabelScore): real {
    if Mapped(m, Lower(x.name)) == [] then 0.0 else x.score
  }

  function MatchedScores(m: NameMapping, xs: seq<LabelScore>): (c: seq<real>)
    ensures |c| == |xs| && forall k | 0 <= k < |xs| :: c[k] == MatchedScore(m, xs[k])
  {
    seq(|xs|, k requires 0 <= k < |xs| => MatchedScore(m, xs[k]))
  }

  /**
   * Before normalisation the scores add up to the total score of the
   * matched labels: each matched label's score is distributed in full, and
   * an unmatched label adds nothing.
   */
  lemma {:induction false} MapWithTotal(m: NameMapping, xs: seq<LabelScore>)
    requires ValidMapping(m)
    ensures RealSeq.Sum(MapWith(m, xs)) == RealSeq.Sum(MatchedScores(m, xs))
  {
    if xs == [] {
      RealSeq.SumZeros(N);
    } else {
      var n := |xs| - 1;
      MapWithTotal(m, xs[..n]);
      assert MatchedScores(m, xs)[..n] == MatchedScores(m, xs[..n]);
      AddLabelTotal(m, MapWith(m, xs[..n]), xs[n]);
    }
  }

  /** One label adds its whole score to the total when it is matched, and nothing otherwise. */
  lemma AddLabelTotal(m: NameMapping, v: seq<real>, x: LabelScore)
    requires ValidMapping(m) && IsScores(v)
    ensures RealSeq.Sum(AddLabel(m, v, x)) == RealSeq.Sum(v) + MatchedScore(m, x)
  {
    var mapped := Mapped(m, Lower(x.name));
    if mapped != [] {
      MappedValid(m, Lower(x.name));
      var len := |mapped| as real;
      var share := x.score / len;
      AddSharesTotal(v, mapped, share);
      WholeShares(len, x.score, share, RealSeq.Sum(v), RealSeq.Sum(AddShares(v, mapped, share)));
    }
  }

  /** Adding `n` shares of `a / n` adds `a`. */
  lemma WholeShares(n: real, a: real, share: real, s0: real, s: real)
    requires n > 0.0 && share == a / n && s == s0 + RealSeq.Mul(n, share)
    ensures s == s0 + a
  {
    RealSeq.MulQuotient(n, a, share);
  }

  lemma MappedValid(m: NameMapping, emotionLabel: string)
    requires ValidMapping(m)
    ensures ValidNames(Mapped(m, emotionLabel))
  {
    match FirstRelatedFrom(m, emotionLabel, 0)
    case None =>
    case Some(i) => assert Mapped(m, emotionLabel) == m[i].1;
  }

  /** What one label gives emotion `e`: its share times the number of times the emotion is listed. */
  function Contribution(m: NameMapping, x: LabelScore, e: Emotion): real {
    var mapped := Mapped(m, Lower(x.name));
    if mapped == [] then 0.0 else RealSeq.Mul(multiset(mapped)[Name(e)] as real, x.score / |mapped| as real)
  }

  function Contributions(m: NameMapping, xs: seq<LabelScore>, e: Emotion): (c: seq<real>)
    ensures |c| == |xs| && forall k | 0 <= k < |xs| :: c[k] == Contribution(m, xs[k], e)
  {
    seq(|xs|, k requires 0 <= k < |xs| => Contribution(m, xs[k], e))
  }

  /** Before normalisation each emotion's score is the sum of the labels' contributions to it. */
  lemma {:induction false} MapWithClosedForm(m: NameMapping, xs: seq<LabelScore>, e: Emotion)
    ensures ScoreOf(MapWith(m, xs), e) == RealSeq.Sum(Contributions(m, xs, e))
  {
    if xs != [] {
      var n := |xs| - 1;
      MapWithClosedForm(m, xs[..n], e);
      assert Contributions(m, xs, e)[..n] == Contributions(m, xs[..n], e);
      var mapped := Mapped(m, Lower(xs[n].name));
      if mapped != [] {
        AddSharesClosedForm(MapWith(m, xs[..n]), mapped, xs[n].score / |mapped| as real, e);
      }
    }
  }

  /** A label no key is related to, once lower-cased, changes nothing. */
  lemma UnmatchedLabel(m: NameMapping, xs: seq<LabelScore>, x: LabelScore)
    requires forall i | 0 <= i < |m| :: !Related(m[i].0, Lower(x.name))
    ensures MapWith(m, xs + [x]) == MapWith(m, xs)
  {
    MapWithSnoc(m, xs, x);
    NoRelatedKey(m, Lower(x.name));
  }

  lemma MapWithSnoc(m: NameMapping, xs: seq<LabelScore>, x: LabelScore)
    ensures MapWith(m, xs + [x]) == AddLabel(m, MapWith(m, xs), x)
  {
    var ys := xs + [x];
    assert ys[..|ys| - 1] == xs && ys[|ys| - 1] == x;
  }

  /** A label no key is related to has nothing to map to. */
  lemma NoRelatedKey(m: NameMapping, emotionLabel: string)
    requires forall i | 0 <= i < |m| :: !Related(m[i].0, emotionLabel)
    ensures Mapped(m, emotionLabel) == []
  {
  }

  /** With label scores that are not negative, no emotion's score is negative. */
  lemma MapWithNonNegative(m: NameMapping, xs: seq<LabelScore>)
    requires forall k | 0 <= k < |xs| :: xs[k].score >= 0.0
    ensures forall i | 0 <= i < N :: MapWith(m, xs)[i] >= 0.0
  {
    forall i | 0 <= i < N ensures MapWith(m, xs)[i] >= 0.0 {
      var e := All()[i];
      var c := Contributions(m, xs, e);
      forall k | 0 <= k < |xs| ensures c[k] >= 0.0 {
        var mapped := Mapped(m, Lower(xs[k].name));
        if mapped != [] {
          RealSeq.DivSign(xs[k].score, |mapped| as real);
          RealSeq.MulSign(multiset(mapped)[Name(e)] as real, xs[k].score / |mapped| as real);
        }
      }
      RealSeq.SumNonNegative(c);
      MapWithClosedForm(m, xs, e);
      IndexOfAll(i);
    }
  }

  /**
   * Normalising scores that are not negative: a positive total gives scores
   * in [0, 1] that sum to 1; a zero total leaves every score at 0.
   */
  lemma NormalizeProperties(v: seq<real>)
    requires forall i | 0 <= i < |v| :: v[i] >= 0.0
    ensures RealSeq.Sum(v) > 0.0 ==> RealSeq.Sum(Normalize(v)) == 1.0
    ensures RealSeq.Sum(v) <= 0.0 ==> Normalize(v) == v && forall i | 0 <= i < |v| :: v[i] == 0.0
    ensures forall i | 0 <= i < |v| :: 0.0 <= Normalize(v)[i] <= 1.0
  {
    var t := RealSeq.Sum(v);
    if t > 0.0 {
      RealSeq.Normalised(v);
      NormalizedBounds(v);
    } else {
      RealSeq.SumNonNegative(v);
      RealSeq.SumZeroIffAllZero(v);
    }
  }

  /** A positive total divides each score that is not negative into [0, 1]. */
  lemma NormalizedBounds(v: seq<real>)
    requires forall i | 0 <= i < |v| :: v[i] >= 0.0
    requires RealSeq.Sum(v) > 0.0
    ensures forall i | 0 <= i < |v| :: 0.0 <= Normalize(v)[i] <= 1.0
  {
    var t := RealSeq.Sum(v);
    var r := Normalize(v);
    assert r == RealSeq.Div(v, t);
    forall i | 0 <= i < |v| ensures 0.0 <= r[i] <= 1.0 {
      RealSeq.EntryAtMostSum(v, i);
      UnitQuotient(v[i], t, r[i]);
    }
  }

  lemma UnitQuotient(x: real, t: real, q: real)
    requires t > 0.0 && 0.0 <= x <= t && q == x / t
    ensures 0.0 <= q <= 1.0
  {
    RealSeq.QuotientBetween(x, t, 0.0, 1.0);
  }

  /**
   * `_map_to_precise_emotions` with label scores that are not negative: the
   * 23 scores lie in [0, 1]; they sum to 1 when the matched labels have a
   * positive total score, and are all 0 otherwise.
   */
  lemma MapSpecProperties(xs: seq<LabelScore>)
    requires forall k | 0 <= k < |xs| :: xs[k].score >= 0.0
    ensures var t := RealSeq.Sum(MatchedScores(EmotionMapping(), xs));
      (t > 0.0 ==> RealSeq.Sum(MapSpec(xs)) == 1.0) &&
      (t <= 0.0 ==> forall i | 0 <= i < N :: MapSpec(xs)[i] == 0.0) &&
      forall i | 0 <= i < N :: 0.0 <= MapSpec(xs)[i] <= 1.0
  {
    MappingValid();
    MapWithTotal(EmotionMapping(), xs);
    MapWithNonNegative(EmotionMapping(), xs);
    NormalizeProperties(MapWith(EmotionMapping(), xs));
  }

  // ---------------------------------------------------------------------
  // `_analyze_text_patterns`

  /** The keywords of `_analyze_text_patterns`, one list per emotion of the table. */
  function PatternKeywords(e: Emotion): seq<string> {
    match e
    case Anxious => ["worried", "nervous", "anxious", "concerned", "uneasy", "restless"]
    case Angry => ["angry", "furious", "mad", "rage", "outraged", "livid"]
    case Sad => ["sad", "depressed", "down", "blue", "melancholy", "sorrowful"]
    case Happy => ["happy", "joyful", "cheerful", "delighted", "elated", "ecstatic"]
    case Hate => ["hate", "despise", "loathe", "detest", "abhor"]
    case Satisfaction => ["satisfied", "content", "pleased", "fulfilled"]
    case Gratitude => ["grateful", "thankful", "appreciate", "blessed"]
    case Reproach => ["blame", "criticize", "condemn", "reproach"]
    case Distress => ["distressed", "troubled", "anguished", "tormented"]
    case Pride => ["proud", "accomplished", "achieved", "successful"]
    case Fear => ["afraid", "scared", "terrified", "frightened", "fearful"]
    case Mildness => ["calm", "peaceful", "gentle", "mild", "serene"]
    case Pity => ["pity", "sympathy", "compassion", "sorry for"]
    case Boredom => ["bored", "dull", "tedious", "monotonous", "uninteresting"]
    case Shame => ["ashamed", "embarrassed", "humiliated", "guilty"]
    case Disappointment => ["disappointed", "let down", "frustrated", "disillusioned"]
    case Hope => ["hopeful", "optimistic", "confident", "expecting"]
    case Resentment => ["resentful", "bitter", "grudge", "indignant"]
    case Love => ["love", "adore", "cherish", "treasure", "devoted"]
    case Gloating => ["gloating", "smug", "self-satisfied", "triumphant"]
    case Anger => ["anger", "wrath", "fury", "irritated", "annoyed"]
    case Relief => ["relieved", "reassured", "comforted", "eased"]
    case Admiration => ["admire", "respect", "impressed", "amazed", "wonderful"]
  }

  /** Every emotion's number of keywords that occur in the lower-cased text `sl`. */
  function PatternCounts(kw: EnhancedEmotion.KeywordTable, sl: string): (v: seq<real>)
    ensures IsScores(v)
    ensures forall i | 0 <= i < N :: v[i] == EnhancedEmotion.CountIn(kw(All()[i]), sl) as real
  {
    seq(N, i requires 0 <= i < N => EnhancedEmotion.CountIn(kw(All()[i]), sl) as real)
  }

  /** The pattern scores for the keyword table `kw`: the counts over their total, when that is positive. */
  function PatternScores(kw: EnhancedEmotion.KeywordTable, text: string): (v: seq<real>)
    ensures IsScores(v)
  {
    Normalize(PatternCounts(kw, Lower(text)))
  }

  /** `_analyze_text_patterns` with the table's keywords. */
  function PatternSpec(text: string): (v: seq<real>)
    ensures IsScores(v)
  {
    PatternScores(PatternKeywords, text)
  }

  /** `sum(1 for keyword in keywords if keyword in text_lower)` */
  method CountMatches(keywords: seq<string>, textLower: string) returns (matches: nat)
    ensures matches == EnhancedEmotion.CountIn(keywords, textLower)
  {
    matches := 0;
    for k := 0 to |keywords|
      invariant matches == EnhancedEmotion.CountIn(keywords[..k], textLower)
    {
      EnhancedEmotion.CountStep(keywords, textLower, k);
      if Contains(textLower, keywords[k]) {
        matches := matches + 1;
      }
    }
    assert keywords[..|keywords|] == keywords;
  }

  /**
   * `_analyze_text_patterns` for the keyword table `kw`: each emotion's
   * count of keywords found in the lower-cased text, divided by the total
   * count when some keyword was found.
   */
  method AnalyzeTextPatterns(kw: EnhancedEmotion.KeywordTable, text: string) returns (patternScores: seq<real>)
    ensures patternScores == PatternScores(kw, text)
  {
    var textLower := Lower(text);
    ghost var counts := PatternCounts(kw, textLower);
    patternScores := RealSeq.Zeros(N);
    var totalMatches: nat := 0;
    for q := 0 to N
      invariant IsScores(patternScores)
      invariant forall r | 0 <= r < q :: patternScores[r] == counts[r]
      invariant forall r | q <= r < N :: patternScores[r] == 0.0
      invariant totalMatches as real == RealSeq.Sum(counts[..q])
    {
      var matches := CountMatches(kw(All()[q]), textLower);
      RealSeq.SumStep(counts, q);
      patternScores := patternScores[q := matches as real];
      totalMatches := totalMatches + matches;
    }
    assert patternScores == counts;
    assert counts[..N] == counts;
    if totalMatches > 0 {
      patternScores := RealSeq.Div(patternScores, totalMatches as real);
    }
  }

  /** Some keyword of `kw` occurs in the lower-cased text. */
  predicate AnyKeyword(kw: EnhancedEmotion.KeywordTable, sl: string) {
    exists e :: EnhancedEmotion.AnyIn(kw(e), sl)
  }

  /** The counts total more than zero exactly when some keyword occurs. */
  lemma PatternCountsPositive(kw: EnhancedEmotion.KeywordTable, sl: string)
    ensures forall i | 0 <= i < N :: PatternCounts(kw, sl)[i] >= 0.0
    ensures RealSeq.Sum(PatternCounts(kw, sl)) > 0.0 <==> AnyKeyword(kw, sl)
  {
    var c := PatternCounts(kw, sl);
    assert forall i | 0 <= i < N :: c[i] >= 0.0;
    RealSeq.SumNonNegative(c);
    RealSeq.SumZeroIffAllZero(c);
    if AnyKeyword(kw, sl) {
      var e :| EnhancedEmotion.AnyIn(kw(e), sl);
      EnhancedEmotion.CountInPositive(kw(e), sl);
      assert c[Index(e)] > 0.0;
    }
    if RealSeq.Sum(c) > 0.0 {
      var i :| 0 <= i < N && c[i] != 0.0;
      EnhancedEmotion.CountInPositive(kw(All()[i]), sl);
      assert EnhancedEmotion.AnyIn(kw(All()[i]), sl);
    }
  }

  /**
   * The pattern scores: when some keyword occurs, each emotion's score is its
   * keyword count over the total count, the scores lie in [0, 1] and sum to
   * 1; when none occurs, every score is 0.
   */
  lemma PatternProperties(kw: EnhancedEmotion.KeywordTable, text: string)
    ensures var v := PatternScores(kw, text); var sl := Lower(text);
      (AnyKeyword(kw, sl) ==>
        RealSeq.Sum(v) == 1.0 &&
        forall e :: ScoreOf(v, e) == EnhancedEmotion.CountIn(kw(e), sl) as real / RealSeq.Sum(PatternCounts(kw, sl))) &&
      (!AnyKeyword(kw, sl) ==> forall i | 0 <= i < N :: v[i] == 0.0) &&
      forall i | 0 <= i < N :: 0.0 <= v[i] <= 1.0
  {
    var sl := Lower(text);
    PatternCountsPositive(kw, sl);
    NormalizeProperties(PatternCounts(kw, sl));
  }

  // ---------------------------------------------------------------------
  // `_combine_emotion_results`

  /** One entry of `emotion_results`: its `scores` dict, its `method` and its `weight`, if any. */
  datatype EmotionResult = EmotionResult(scores: Dicts.Dict<real>, source: string, weight: Option<real>)

  /** `result.get("weight", 1.0)` */
  function WeightOf(r: EmotionResult): real {
    r.weight.GetOr(1.0)
  }

  /** `scores.get(emotion, 0.0)` */
  function ScoreIn(scores: Dicts.Dict<real>, e: Emotion): real {
    Dicts.GetOr(scores, Name(e), 0.0)
  }

  function Weights(rs: seq<EmotionResult>): (w: seq<real>)
    ensures |w| == |rs| && forall i | 0 <= i < |rs| :: w[i] == WeightOf(rs[i])
  {
    seq(|rs|, i requires 0 <= i < |rs| => WeightOf(rs[i]))
  }

  /** Every result's score for the emotion at table position `q`. */
  function Column(rs: seq<EmotionResult>, q: nat): (c: seq<real>)
    requires q < N
    ensures |c| == |rs| && forall i | 0 <= i < |rs| :: c[i] == ScoreIn(rs[i].scores, All()[q])
  {
    seq(|rs|, i requires 0 <= i < |rs| => ScoreIn(rs[i].scores, All()[q]))
  }

  /** The weighted sums of the results' scores, divided by the total weight when it is positive. */
  function CombineSpec(rs: seq<EmotionResult>): (v: seq<real>)
    ensures IsScores(v)
  {
    if rs == [] then RealSeq.Zeros(N)
    else
      var raw := seq(N, q requires 0 <= q < N => RealSeq.Dot(Column(rs, q), Weights(rs)));
      var totalWeight := RealSeq.Sum(Weights(rs));
      if totalWeight > 0.0 then RealSeq.Div(raw, totalWeight) else raw
  }

  /** `combined_scores[emotion] += scores.get(emotion, 0.0) * weight` for every emotion. */
  method AddScores(combined0: seq<real>, scores: Dicts.Dict<real>, weight: real) returns (combined: seq<real>)
    requires IsScores(combined0)
    ensures IsScores(combined)
    ensures forall q | 0 <= q < N :: combined[q] == combined0[q] + RealSeq.Mul(ScoreIn(scores, All()[q]), weight)
  {
    combined := combined0;
    for q := 0 to N
      invariant IsScores(combined)
      invariant forall r | 0 <= r < q :: combined[r] == combined0[r] + RealSeq.Mul(ScoreIn(scores, All()[r]), weight)
      invariant forall r | q <= r < N :: combined[r] == combined0[r]
    {
      combined := combined[q := combined[q] + RealSeq.Mul(ScoreIn(scores, All()[q]), weight)];
    }
  }

  /**
   * `_combine_emotion_results`: no results give all zeros; otherwise every
   * result's scores are added in times its weight, and the sums are divided
   * by the total weight when that is positive.
   */
  method CombineEmotionResults(results: seq<EmotionResult>) returns (combined: seq<real>)
    ensures combined == CombineSpec(results)
  {
    if results == [] {
      return RealSeq.Zeros(N);
    }
    ghost var ws := Weights(results);
    combined := RealSeq.Zeros(N);
    var totalWeight := 0.0;
    for k := 0 to |results|
      invariant IsScores(combined)
      invariant forall q | 0 <= q < N :: combined[q] == RealSeq.Dot(Column(results, q)[..k], ws[..k])
      invariant totalWeight == RealSeq.Sum(ws[..k])
    {
      var weight := results[k].weight.GetOr(1.0);
      var scores := results[k].scores;
      forall q | 0 <= q < N
        ensures RealSeq.Dot(Column(results, q)[..k + 1], ws[..k + 1]) ==
          RealSeq.Dot(Column(results, q)[..k], ws[..k]) + RealSeq.Mul(ScoreIn(scores, All()[q]), weight)
      {
        ColumnStep(results, k, q);
      }
      RealSeq.SumStep(ws, k);
      combined := AddScores(combined, scores, weight);
      totalWeight := totalWeight + weight;
    }
    assert ws[..|results|] == ws;
    forall q | 0 <= q < N ensures combined[q] == RealSeq.Dot(Column(results, q), ws) {
      assert Column(results, q)[..|results|] == Column(results, q);
    }
    if totalWeight > 0.0 {
      combined := RealSeq.Div(combined, totalWeight);
    }
  }

  /** One more result adds its weighted score to the running sum of the emotion at position `q`. */
  lemma ColumnStep(rs: seq<EmotionResult>, k: nat, q: nat)
    requires k < |rs| && q < N
    ensures RealSeq.Dot(Column(rs, q)[..k + 1], Weights(rs)[..k + 1]) ==
      RealSeq.Dot(Column(rs, q)[..k], Weights(rs)[..k]) + RealSeq.Mul(ScoreIn(rs[k].scores, All()[q]), WeightOf(rs[k]))
  {
    var c, w := Column(rs, q), Weights(rs);
    RealSeq.DotStep(c, w, k);
    assert c[k] == ScoreIn(rs[k].scores, All()[q]) && w[k] == WeightOf(rs[k]);
  }

  /**
   * With weights that are not negative and a positive total, each combined
   * score is a weighted mean, so it lies between the smallest and the
   * largest score the results give.
   */
  lemma CombineBounds(rs: seq<EmotionResult>, lo: real, hi: real)
    requires forall i | 0 <= i < |rs| :: WeightOf(rs[i]) >= 0.0
    requires RealSeq.Sum(Weights(rs)) > 0.0
    requires forall i, e | 0 <= i < |rs| :: lo <= ScoreIn(rs[i].scores, e) <= hi
    ensures forall q | 0 <= q < N :: lo <= CombineSpec(rs)[q] <= hi
  {
    forall q | 0 <= q < N ensures lo <= CombineSpec(rs)[q] <= hi {
      RealSeq.WeightedMeanBetween(Column(rs, q), Weights(rs), lo, hi);
    }
  }

  /** A single result with a positive weight is returned as it is. */
  lemma CombineSingle(r: EmotionResult)
    requires WeightOf(r) > 0.0
    ensures forall e :: ScoreOf(CombineSpec([r]), e) == ScoreIn(r.scores, e)
  {
    forall e ensures ScoreOf(CombineSpec([r]), e) == ScoreIn(r.scores, e) {
      CombineSingleAt(r, Index(e));
    }
  }

  lemma CombineSingleAt(r: EmotionResult, q: nat)
    requires WeightOf(r) > 0.0 && q < N
    ensures CombineSpec([r])[q] == ScoreIn(r.scores, All()[q])
  {
    var col, ws := Column([r], q), Weights([r]);
    RealSeq.Sum1(ws);
    RealSeq.Dot1(col, ws);
    CombineAt([r], q);
    RealSeq.MulDivCancel(CombineSpec([r])[q], col[0], ws[0]);
  }

  /** The score dict of a vector: each emotion's name with its score, in table order. */
  function ScoreDict(v: seq<real>): (d: Dicts.Dict<real>)
    requires IsScores(v)
    ensures |d| == N && forall i | 0 <= i < N :: d[i] == (Name(All()[i]), v[i])
  {
    seq(N, i requires 0 <= i < N => (Name(All()[i]), v[i]))
  }

  /** Looking an emotion up in a score dict gives its score. */
  lemma ScoreDictGet(v: seq<real>, e: Emotion)
    requires IsScores(v)
    ensures ScoreIn(ScoreDict(v), e) == ScoreOf(v, e)
  {
    var d := ScoreDict(v);
    forall i, j | 0 <= i < j < |d| ensures d[i].0 != d[j].0 {
      FromNameOfName(All()[i]);
      FromNameOfName(All()[j]);
      IndexOfAll(i);
      IndexOfAll(j);
    }
    Dicts.GetAt(d, Index(e));
  }

  // ---------------------------------------------------------------------
  // `analyze_emotions` and `_get_top_emotions`

  /**
   * The response dict of `analyze_emotions`, without the clock's
   * `processing_time`; the blank-text response has no `method` and no
   * `top_emotions`.
   */
  datatype EmotionResponse = EmotionResponse(
    primary: Emotion, scores: seq<real>, confidence: real, category: Category, intensity: Intensity,
    language: string, source: Option<string>, top: Option<seq<Ranking.TopEntry>>)

  /** The response for empty or blank text. */
  function BlankResponse(language: Option<string>): (r: EmotionResponse)
    ensures IsScores(r.scores)
  {
    EmotionResponse(Mildness, RealSeq.Zeros(N), 0.0, Neutral, Low, EnhancedEnsemble.LanguageOr(language), None, None)
  }

  /** A classifier's entry, when its pipeline is loaded and returns labels. */
  function ModelResult(labels: Option<seq<LabelScore>>, source: string, weight: real): (rs: seq<EmotionResult>)
    ensures |rs| <= 1
  {
    match labels
    case None => []
    case Some(xs) => [EmotionResult(ScoreDict(MapSpec(xs)), source, Some(weight))]
  }

  /**
   * `emotion_results` as `analyze_emotions` collects it: the primary model's
   * scores at weight 0.6 and the multilingual model's at 0.3, each when that
   * model gives labels, and the keyword patterns' at 0.1.
   */
  function AnalysisResults(text: string, primary: Option<seq<LabelScore>>, multilingual: Option<seq<LabelScore>>)
    : (rs: seq<EmotionResult>)
    ensures 1 <= |rs| <= 3
    ensures rs[|rs| - 1] == EmotionResult(ScoreDict(PatternSpec(text)), "pattern_analysis", Some(0.1))
  {
    ModelResult(primary, "primary_emotion_model", 0.6) + ModelResult(multilingual, "multilingual_model", 0.3) +
    [EmotionResult(ScoreDict(PatternSpec(text)), "pattern_analysis", Some(0.1))]
  }

  /** The response for the combined scores `v`: the first emotion with the largest score and the top five above 0.01. */
  function Respond(v: seq<real>, language: Option<string>): (r: EmotionResponse)
    requires IsScores(v)
    ensures r.scores == v
  {
    var e := All()[RealSeq.ArgMax(v)];
    EmotionResponse(e, v, ScoreOf(v, e), CategoryOf(e), IntensityOf(e), EnhancedEnsemble.LanguageOr(language),
      Some("combined_emotion_analysis"), Some(Ranking.TopSpec(v, 5, 0.01)))
  }

  /** What `analyze_emotions` returns, given the classifiers' outputs. */
  function AnalyzeSpec(text: string, language: Option<string>, primary: Option<seq<LabelScore>>, multilingual: Option<seq<LabelScore>>)
    : (r: EmotionResponse)
    ensures IsScores(r.scores)
  {
    if IsBlank(text) then BlankResponse(language)
    else Respond(CombineSpec(AnalysisResults(text, primary, multilingual)), language)
  }

  /** `_get_top_emotions`: the first `top_n` emotions by score that score above 0.01, with their metadata. */
  method GetTopEmotions(scores: seq<real>, topN: nat) returns (top: seq<Ranking.TopEntry>)
    requires IsScores(scores)
    ensures top == Ranking.TopSpec(scores, topN, 0.01)
  {
    top := Ranking.TopEmotions(scores, topN, 0.01);
  }

  /** One classifier's step of `analyze_emotions`: map its labels and append its entry. */
  method AddModelResult(results0: seq<EmotionResult>, labels: Option<seq<LabelScore>>, source: string, weight: real)
    returns (results: seq<EmotionResult>)
    ensures results == results0 + ModelResult(labels, source, weight)
  {
    results := results0;
    if labels.Some? {
      var preciseScores := MapToPreciseEmotions(labels.value);
      results := results + [EmotionResult(ScoreDict(preciseScores), source, Some(weight))];
    }
  }

  /**
   * `analyze_emotions`: the blank response for empty or blank text;
   * otherwise the weighted combination of the classifiers' and the keyword
   * patterns' scores, the first emotion with the largest combined score as
   * primary emotion with that score as confidence, its table metadata, and
   * the top five emotions above 0.01.
   */
  method AnalyzeEmotions(text: string, language: Option<string>, primary: Option<seq<LabelScore>>, multilingual: Option<seq<LabelScore>>)
    returns (r: EmotionResponse)
    ensures r == AnalyzeSpec(text, language, primary, multilingual)
  {
    StripEmptyIffBlank(text);
    if text == [] || Strip(text) == [] {
      return BlankResponse(language);
    }
    var emotionResults := CollectResults(text, primary, multilingual);
    var finalScores := CombineEmotionResults(emotionResults);
    r := PrimaryResponse(finalScores, language);
  }

  /** The three methods of `analyze_emotions`, each appending its entry to `emotion_results`. */
  method CollectResults(text: string, primary: Option<seq<LabelScore>>, multilingual: Option<seq<LabelScore>>)
    returns (emotionResults: seq<EmotionResult>)
    ensures emotionResults == AnalysisResults(text, primary, multilingual)
  {
    ghost var a := ModelResult(primary, "primary_emotion_model", 0.6);
    emotionResults := AddModelResult([], primary, "primary_emotion_model", 0.6);
    assert emotionResults == a by {
      assert [] + a == a;
    }
    emotionResults := AddModelResult(emotionResults, multilingual, "multilingual_model", 0.3);
    emotionResults := AddPatternResult(emotionResults, text);
  }

  /** The keyword patterns' step of `analyze_emotions`: append their entry at weight 0.1. */
  method AddPatternResult(results0: seq<EmotionResult>, text: string) returns (results: seq<EmotionResult>)
    ensures results == results0 + [EmotionResult(ScoreDict(PatternSpec(text)), "pattern_analysis", Some(0.1))]
  {
    var patternScores := AnalyzeTextPatterns(PatternKeywords, text);
    results := results0 + [EmotionResult(ScoreDict(patternScores), "pattern_analysis", Some(0.1))];
  }

  /** The primary emotion, its confidence and metadata, and the top five of `analyze_emotions`. */
  method PrimaryResponse(finalScores: seq<real>, language: Option<string>) returns (r: EmotionResponse)
    requires IsScores(finalScores)
    ensures r == Respond(finalScores, language)
  {
    var primaryEmotion := All()[RealSeq.ArgMax(finalScores)];
    var confidence := finalScores[Index(primaryEmotion)];
    var topEmotions := GetTopEmotions(finalScores, 5);
    r := EmotionResponse(primaryEmotion, finalScores, confidence, CategoryOf(primaryEmotion), IntensityOf(primaryEmotion),
      EnhancedEnsemble.LanguageOr(language), Some("combined_emotion_analysis"), Some(topEmotions));
  }

  /** Empty or blank text gives mildness at confidence 0.0 with all-zero scores, neutral, low, and no method or top emotions. */
  lemma BlankText(text: string, language: Option<string>, primary: Option<seq<LabelScore>>, multilingual: Option<seq<LabelScore>>)
    requires IsBlank(text)
    ensures var r := AnalyzeSpec(text, language, primary, multilingual);
      r.primary == Mildness && r.confidence == 0.0 && r.category == Neutral && r.intensity == Low &&
      r.source.None? && r.top.None? && (forall q | 0 <= q < N :: r.scores[q] == 0.0) &&
      r.language == EnhancedEnsemble.LanguageOr(language)
  {
  }

  /**
   * `max(final_scores, key=final_scores.get)`: the primary emotion has the
   * largest score, which is the confidence, and every emotion before it in
   * the table scores strictly less; category and intensity are its own.
   */
  lemma PrimaryIsFirstMax(v: seq<real>, language: Option<string>)
    requires IsScores(v)
    ensures var r := Respond(v, language);
      r.confidence == RealSeq.Max(v) && ScoreOf(v, r.primary) == r.confidence &&
      r.category == CategoryOf(r.primary) && r.intensity == IntensityOf(r.primary) &&
      forall e :: ScoreOf(v, e) <= r.confidence && (Index(e) < Index(r.primary) ==> ScoreOf(v, e) < r.confidence)
  {
    IndexOfAll(RealSeq.ArgMax(v));
  }

  /** The top emotions: at most five, each above 0.01 with its own score and metadata, by non-increasing score. */
  lemma ResponseTop(v: seq<real>, language: Option<string>)
    requires IsScores(v)
    ensures var top := Respond(v, language).top.value;
      |top| <= 5 &&
      (forall k | 0 <= k < |top| :: top[k].score > 0.01 && top[k].score == ScoreOf(v, top[k].emotion) &&
        top[k].category == CategoryOf(top[k].emotion) && top[k].intensity == IntensityOf(top[k].emotion)) &&
      forall k, l | 0 <= k < l < |top| :: top[k].score >= top[l].score
  {
    Ranking.TopSpecProperties(v, 5, 0.01);
  }

  /** An entry with a positive weight whose scores all lie in [0, 1]. */
  predicate Bounded(r: EmotionResult) {
    WeightOf(r) > 0.0 && forall e :: 0.0 <= ScoreIn(r.scores, e) <= 1.0
  }

  lemma DictBounded(v: seq<real>, source: string, w: real)
    requires IsScores(v) && w > 0.0
    requires forall i | 0 <= i < N :: 0.0 <= v[i] <= 1.0
    ensures Bounded(EmotionResult(ScoreDict(v), source, Some(w)))
  {
    forall e ensures 0.0 <= ScoreIn(ScoreDict(v), e) <= 1.0 {
      ScoreDictGet(v, e);
    }
  }

  lemma ModelBounded(labels: Option<seq<LabelScore>>, source: string, w: real)
    requires w > 0.0
    requires labels.Some? ==> forall k | 0 <= k < |labels.value| :: labels.value[k].score >= 0.0
    ensures forall i | 0 <= i < |ModelResult(labels, source, w)| :: Bounded(ModelResult(labels, source, w)[i])
  {
    if labels.Some? {
      MapSpecProperties(labels.value);
      DictBounded(MapSpec(labels.value), source, w);
    }
  }

  /** Label scores that are not negative, when the classifier gives labels. */
  predicate NonNegativeLabels(labels: Option<seq<LabelScore>>) {
    labels.Some? ==> forall k | 0 <= k < |labels.value| :: labels.value[k].score >= 0.0
  }

  /** Every entry of `emotion_results` has a positive weight and scores in [0, 1]. */
  lemma ResultsBounded(text: string, primary: Option<seq<LabelScore>>, multilingual: Option<seq<LabelScore>>)
    requires NonNegativeLabels(primary) && NonNegativeLabels(multilingual)
    ensures forall i | 0 <= i < |AnalysisResults(text, primary, multilingual)| :: Bounded(AnalysisResults(text, primary, multilingual)[i])
  {
    var a := ModelResult(primary, "primary_emotion_model", 0.6);
    var b := ModelResult(multilingual, "multilingual_model", 0.3);
    var c := EmotionResult(ScoreDict(PatternSpec(text)), "pattern_analysis", Some(0.1));
    ModelBounded(primary, "primary_emotion_model", 0.6);
    ModelBounded(multilingual, "multilingual_model", 0.3);
    PatternProperties(PatternKeywords, text);
    DictBounded(PatternSpec(text), "pattern_analysis", 0.1);
    AllBounded(a, b, c);
  }

  /** Results that are each bounded stay bounded once listed together. */
  lemma AllBounded(a: seq<EmotionResult>, b: seq<EmotionResult>, c: EmotionResult)
    requires (forall i | 0 <= i < |a| :: Bounded(a[i])) && (forall i | 0 <= i < |b| :: Bounded(b[i])) && Bounded(c)
    ensures forall i | 0 <= i < |a + b + [c]| :: Bounded((a + b + [c])[i])
  {
    var rs := a + b + [c];
    forall i | 0 <= i < |rs| ensures Bounded(rs[i]) {
      if i < |a| {
        assert rs[i] == a[i];
      } else if i < |a| + |b| {
        assert rs[i] == b[i - |a|];
      } else {
        assert rs[i] == c;
      }
    }
  }

  /**
   * With label scores that are not negative, every final score of the
   * response, and so its confidence, lies in [0, 1].
   */
  lemma AnalysisBounds(text: string, language: Option<string>, primary: Option<seq<LabelScore>>, multilingual: Option<seq<LabelScore>>)
    requires NonNegativeLabels(primary) && NonNegativeLabels(multilingual)
    ensures var r := AnalyzeSpec(text, language, primary, multilingual);
      (forall q | 0 <= q < N :: 0.0 <= r.scores[q] <= 1.0) && 0.0 <= r.confidence <= 1.0
  {
    if !IsBlank(text) {
      var rs := AnalysisResults(text, primary, multilingual);
      ResultsBounded(text, primary, multilingual);
      CombinedBounded(rs);
      var v := CombineSpec(rs);
      RespondBounded(v, language);
    }
  }

  /** Final scores in [0, 1] give a response whose scores and confidence lie in [0, 1]. */
  lemma RespondBounded(v: seq<real>, language: Option<string>)
    requires IsScores(v) && forall q | 0 <= q < N :: 0.0 <= v[q] <= 1.0
    ensures var r := Respond(v, language);
      (forall q | 0 <= q < N :: 0.0 <= r.scores[q] <= 1.0) && 0.0 <= r.confidence <= 1.0
  {
    IndexOfAll(RealSeq.ArgMax(v));
  }

  /** Entries with positive weights and scores in [0, 1] combine into scores in [0, 1]. */
  lemma CombinedBounded(rs: seq<EmotionResult>)
    requires rs != [] && forall i | 0 <= i < |rs| :: Bounded(rs[i])
    ensures forall q | 0 <= q < N :: 0.0 <= CombineSpec(rs)[q] <= 1.0
  {
    var ws := Weights(rs);
    assert forall i | 0 <= i < |rs| :: ws[i] > 0.0;
    RealSeq.EntryAtMostSum(ws, |rs| - 1);
    CombineBounds(rs, 0.0, 1.0);
  }

  /** Without either classifier, the final scores are the keyword patterns' scores. */
  lemma PatternsOnly(text: string, language: Option<string>)
    requires !IsBlank(text)
    ensures AnalyzeSpec(text, language, None, None).scores == PatternSpec(text)
  {
    var v := PatternSpec(text);
    var rs := AnalysisResults(text, None, None);
    assert rs == [EmotionResult(ScoreDict(v), "pattern_analysis", Some(0.1))];
    DictCombinesToItself(v, rs[0]);
    assert AnalyzeSpec(text, language, None, None) == Respond(CombineSpec(rs), language);
  }

  /** A lone result whose scores are the score dict of `v` combines back to `v`. */
  lemma DictCombinesToItself(v: seq<real>, c: EmotionResult)
    requires IsScores(v) && c.scores == ScoreDict(v) && WeightOf(c) > 0.0
    ensures CombineSpec([c]) == v
  {
    forall q | 0 <= q < N ensures CombineSpec([c])[q] == v[q] {
      CombineSingleAt(c, q);
      IndexOfAll(q);
      ScoreDictGet(v, All()[q]);
    }
  }

  /** Three results combine into their weighted sum over their total weight. */
  lemma CombineThree(a: EmotionResult, b: EmotionResult, c: EmotionResult, e: Emotion)
    requires WeightOf(a) + WeightOf(b) + WeightOf(c) > 0.0
    ensures ScoreOf(CombineSpec([a, b, c]), e) ==
      (RealSeq.Mul(ScoreIn(a.scores, e), WeightOf(a)) + RealSeq.Mul(ScoreIn(b.scores, e), WeightOf(b)) +
       RealSeq.Mul(ScoreIn(c.scores, e), WeightOf(c))) / (WeightOf(a) + WeightOf(b) + WeightOf(c))
  {
    var rs := [a, b, c];
    var col, ws := Column(rs, Index(e)), Weights(rs);
    RealSeq.Sum3(ws);
    RealSeq.Dot3(col, ws);
    CombineAt(rs, Index(e));
  }

  /** Where the total weight is positive, each combined score is the weighted sum over the total weight. */
  lemma CombineAt(rs: seq<EmotionResult>, q: nat)
    requires q < N && RealSeq.Sum(Weights(rs)) > 0.0
    ensures CombineSpec(rs)[q] == RealSeq.Dot(Column(rs, q), Weights(rs)) / RealSeq.Sum(Weights(rs))
  {
    assert rs != [];
  }

  /**
   * With both classifiers giving labels, each final score is 0.6 times the
   * primary model's, plus 0.3 times the multilingual model's, plus 0.1 times
   * the keyword patterns' score: the weights total 1.
   */
  lemma BothModels(text: string, language: Option<string>, xs: seq<LabelScore>, ys: seq<LabelScore>, e: Emotion)
    requires !IsBlank(text)
    ensures ScoreOf(AnalyzeSpec(text, language, Some(xs), Some(ys)).scores, e) ==
      0.6 * ScoreOf(MapSpec(xs), e) + 0.3 * ScoreOf(MapSpec(ys), e) + 0.1 * ScoreOf(PatternSpec(text), e)
  {
    var a := EmotionResult(ScoreDict(MapSpec(xs)), "primary_emotion_model", Some(0.6));
    var b := EmotionResult(ScoreDict(MapSpec(ys)), "multilingual_model", Some(0.3));
    var c := EmotionResult(ScoreDict(PatternSpec(text)), "pattern_analysis", Some(0.1));
    BothResults(text, xs, ys);
    var v := CombineSpec([a, b, c]);
    assert AnalyzeSpec(text, language, Some(xs), Some(ys)).scores == v;
    assert WeightOf(a) == 0.6 && WeightOf(b) == 0.3 && WeightOf(c) == 0.1;
    CombineThree(a, b, c, e);
    ScoreDictGet(MapSpec(xs), e);
    ScoreDictGet(MapSpec(ys), e);
    ScoreDictGet(PatternSpec(text), e);
    WeightedThree(ScoreOf(v, e), ScoreOf(MapSpec(xs), e), ScoreOf(MapSpec(ys), e), ScoreOf(PatternSpec(text), e));
  }

  /** With both classifiers giving labels there are three results: primary, multilingual, patterns. */
  lemma BothResults(text: string, xs: seq<LabelScore>, ys: seq<LabelScore>)
    ensures AnalysisResults(text, Some(xs), Some(ys)) == [
      EmotionResult(ScoreDict(MapSpec(xs)), "primary_emotion_model", Some(0.6)),
      EmotionResult(ScoreDict(MapSpec(ys)), "multilingual_model", Some(0.3)),
      EmotionResult(ScoreDict(PatternSpec(text)), "pattern_analysis", Some(0.1))]
  {
    var a := ModelResult(Some(xs), "primary_emotion_model", 0.6);
    var b := ModelResult(Some(ys), "multilingual_model", 0.3);
    assert |a| == 1 && |b| == 1;
  }

  /** The weighted mean with weights 0.6, 0.3 and 0.1, which total 1. */
  lemma WeightedThree(r: real, x: real, y: real, z: real)
    requires r == (RealSeq.Mul(x, 0.6) + RealSeq.Mul(y, 0.3) + RealSeq.Mul(z, 0.1)) / (0.6 + 0.3 + 0.1)
    ensures r == 0.6 * x + 0.3 * y + 0.1 * z
  {
  }
}
