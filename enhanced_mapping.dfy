/**
 * The `emotion_mapping` literal of the enhanced emotion service
 * (backend/services/enhanced_emotion_analysis.py), as written and as Python
 * evaluates it: a later duplicate key replaces the value but keeps the key's
 * first position.
 */
module EnhancedMapping {
  import opened Wrappers
  import Dicts

  type Weighted = seq<(string, real)>

  /** Entry `i` of the `emotion_mapping` literal as written, duplicate keys included. */
  function MappingEntry(i: nat): (string, Weighted)
    requires i < 34
  {
    match i
    case 0 => ("admiration", [("admiration", 0.9), ("gratitude", 0.3)])
    case 1 => ("amusement", [("happy", 0.8), ("satisfaction", 0.4)])
    case 2 => ("anger", [("angry", 0.9), ("anger", 0.9), ("hate", 0.6)])
    case 3 => ("annoyance", [("resentment", 0.8), ("reproach", 0.6), ("angry", 0.4)])
    case 4 => ("approval", [("satisfaction", 0.8), ("pride", 0.5)])
    case 5 => ("caring", [("love", 0.8), ("gratitude", 0.5)])
    case 6 => ("confusion", [("anxious", 0.6), ("distress", 0.4)])
    case 7 => ("curiosity", [("hope", 0.6), ("admiration", 0.4)])
    case 8 => ("desire", [("love", 0.7), ("hope", 0.5)])
    case 9 => ("disappointment", [("disappointment", 0.9), ("sad", 0.6)])
    case 10 => ("disapproval", [("reproach", 0.8), ("resentment", 0.6)])
    case 11 => ("disgust", [("hate", 0.8), ("reproach", 0.6)])
    case 12 => ("embarrassment", [("shame", 0.9), ("distress", 0.5)])
    case 13 => ("excitement", [("happy", 0.8), ("satisfaction", 0.6)])
    case 14 => ("fear", [("fear", 0.9), ("anxious", 0.7)])
    case 15 => ("gratitude", [("gratitude", 0.9), ("admiration", 0.4)])
    case 16 => ("grief", [("sad", 0.9), ("distress", 0.7)])
    case 17 => ("joy", [("happy", 0.9), ("satisfaction", 0.6)])
    case 18 => ("love", [("love", 0.9), ("gratitude", 0.4)])
    case 19 => ("nervousness", [("anxious", 0.9), ("fear", 0.6)])
    case 20 => ("optimism", [("hope", 0.8), ("satisfaction", 0.5)])
    case 21 => ("pride", [("pride", 0.9), ("satisfaction", 0.5)])
    case 22 => ("realization", [("relief", 0.7), ("satisfaction", 0.4)])
    case 23 => ("relief", [("relief", 0.9), ("satisfaction", 0.5)])
    case 24 => ("remorse", [("shame", 0.8), ("disappointment", 0.6)])
    case 25 => ("sadness", [("sad", 0.9), ("disappointment", 0.5)])
    case 26 => ("surprise", [("relief", 0.5), ("hope", 0.4)])
    case 27 => ("neutral", [("mildness", 0.8), ("boredom", 0.3)])
    case 28 => ("anger", [("angry", 0.9), ("anger", 0.9)])
    case 29 => ("fear", [("fear", 0.9), ("anxious", 0.7)])
    case 30 => ("joy", [("happy", 0.9), ("satisfaction", 0.6)])
    case 31 => ("sadness", [("sad", 0.9), ("disappointment", 0.6)])
    case 32 => ("surprise", [("relief", 0.6), ("hope", 0.4)])
    case _ => ("disgust", [("hate", 0.8), ("reproach", 0.6)])
  }

  /** The `emotion_mapping` literal: 34 pairs over 28 distinct keys. */
  function MappingLiteral(): (lit: seq<(string, Weighted)>)
    ensures |lit| == 34 && forall i | 0 <= i < 34 :: lit[i] == MappingEntry(i)
  {
    seq(34, i requires 0 <= i < 34 => MappingEntry(i))
  }

  /** The dict the literal evaluates to. */
  function EmotionMapping(): Dicts.Dict<Weighted> {
    Dicts.FromLiteral(MappingLiteral(), |MappingLiteral()|)
  }

  /** The later RoBERTa entry overrides the first "anger" entry: "anger" no longer feeds "hate". */
  lemma AngerMapping()
    ensures Dicts.Get(EmotionMapping(), "anger") == Some([("angry", 0.9), ("anger", 0.9)])
  {
    AngerEntry();
    AngerNotAfter();
    Dicts.FromLiteralGetAt(MappingLiteral(), 34, 28);
  }

  lemma AngerEntry()
    ensures MappingLiteral()[28] == ("anger", [("angry", 0.9), ("anger", 0.9)])
  {
  }

  /** No entry after entry 28 has the key "anger". */
  lemma AngerNotAfter()
    ensures forall j | 28 < j < 34 :: MappingLiteral()[j].0 != "anger"
  {
    forall j | 28 < j < 34 ensures MappingLiteral()[j].0 != "anger" {
      assert MappingLiteral()[j].0 == MappingEntry(j).0;
    }
  }

  /** "sadness" gives disappointment the later weight 0.6, not 0.5. */
  lemma SadnessMapping()
    ensures Dicts.Get(EmotionMapping(), "sadness") == Some([("sad", 0.9), ("disappointment", 0.6)])
  {
    SadnessEntry();
    SadnessNotAfter();
    Dicts.FromLiteralGetAt(MappingLiteral(), 34, 31);
  }

  lemma SadnessEntry()
    ensures MappingLiteral()[31] == ("sadness", [("sad", 0.9), ("disappointment", 0.6)])
  {
  }

  /** No entry after entry 31 has the key "sadness". */
  lemma SadnessNotAfter()
    ensures forall j | 31 < j < 34 :: MappingLiteral()[j].0 != "sadness"
  {
    forall j | 31 < j < 34 ensures MappingLiteral()[j].0 != "sadness" {
      assert MappingLiteral()[j].0 == MappingEntry(j).0;
    }
  }

  /** "surprise" gives relief the later weight 0.6, not 0.5. */
  lemma SurpriseMapping()
    ensures Dicts.Get(EmotionMapping(), "surprise") == Some([("relief", 0.6), ("hope", 0.4)])
  {
    SurpriseEntry();
    SurpriseNotAfter();
    Dicts.FromLiteralGetAt(MappingLiteral(), 34, 32);
  }

  lemma SurpriseEntry()
    ensures MappingLiteral()[32] == ("surprise", [("relief", 0.6), ("hope", 0.4)])
  {
  }

  /** No entry after entry 32 has the key "surprise". */
  lemma SurpriseNotAfter()
    ensures forall j | 32 < j < 34 :: MappingLiteral()[j].0 != "surprise"
  {
    forall j | 32 < j < 34 ensures MappingLiteral()[j].0 != "surprise" {
      assert MappingLiteral()[j].0 == MappingEntry(j).0;
    }
  }

  predicate NonNegativeWeights(ms: Weighted) {
    forall j | 0 <= j < |ms| :: ms[j].1 >= 0.0
  }

  lemma MappingEntryNonNegative(i: nat)
    requires i < 34
    ensures NonNegativeWeights(MappingEntry(i).1)
  {
    if i < 17 {
      EarlyEntriesNonNegative(i);
    } else {
      LateEntriesNonNegative(i);
    }
  }

  lemma EarlyEntriesNonNegative(i: nat)
    requires i < 17
    ensures NonNegativeWeights(MappingEntry(i).1)
  {
  }

  lemma LateEntriesNonNegative(i: nat)
    requires 17 <= i < 34
    ensures NonNegativeWeights(MappingEntry(i).1)
  {
  }

  /** Every weight the mapping gives is non-negative. */
  lemma MappingNonNegative(k: string)
    ensures Dicts.Get(EmotionMapping(), k).Some? ==> NonNegativeWeights(Dicts.Get(EmotionMapping(), k).value)
  {
    var lit := MappingLiteral();
    Dicts.FromLiteralGet(lit, 34, k);
    Dicts.LastValueSpec(lit, k, 34);
    if Dicts.LastValue(lit, k, 34).Some? {
      var i :| 0 <= i < 34 && lit[i] == (k, Dicts.LastValue(lit, k, 34).value) && forall j | i < j < 34 :: lit[j].0 != k;
      MappingEntryNonNegative(i);
    }
  }
}
