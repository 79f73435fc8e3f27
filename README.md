# VoiceInsight backend core, modelled in Dafny

The VoiceInsight backend is a thin layer over machine-learning libraries:
Whisper for transcription, transformer pipelines, VADER and TextBlob for
sentiment, and boto3 for CloudWatch. Around those calls sits a layer of
deterministic post-processing. This project models that layer and proves
what it promises. Every library call is an input of the model: a list of
`(label, score)` pairs, VADER's four scores, a TextBlob polarity, Whisper's
segments, an audio-info record, or the clock reading.

The modules follow the source files:

- `Sentiment` (sentiment.dfy): `sentiment_analysis.py`. It covers:
  - script-range language detection;
  - the transliteration cleanup;
  - the normalisation of transformer labels into a three-class distribution;
  - the VADER and TextBlob threshold mappings;
  - the weighted vote that combines several results.

  `_combine_sentiment_results` and `_normalize_transformer_result` are methods with loops, proved against specification functions.
- `SentimentService` (sentiment_service.dfy): the `SentimentAnalysisService` object as `analyze_sentiment` sees it. This means:
  - its configured method and analyzers;
  - the three-approach South Indian path;
  - the blank-text, success and caught-exception response shapes;
  - `get_supported_languages`.
- `EnhancedEmotion` (enhanced.dfy) and `EnhancedMapping` (enhanced_mapping.dfy): `enhanced_emotion_analysis.py`. They cover:
  - the weighted label-to-emotion mapping with its duplicate keys;
  - the context-aware keyword scoring.
- `EnhancedEnsemble` (enhanced_ensemble.dfy): the rest of `enhanced_emotion_analysis.py`:
  - the confidence-boosted combination;
  - primary-emotion thresholding and the quality band;
  - the default response;
  - the top-five list.
- `EmotionAnalysis` (emotion_analysis.dfy): the older `emotion_analysis.py`. It covers:
  - substring-matched label mapping with equal score splitting and normalisation;
  - keyword counting;
  - weighted averaging;
  - primary-emotion selection.
- `Ranking` (ranking.dfy): `_get_top_emotions` of both emotion services. This is a stable descending sort, a top-N cut and a score threshold.
- `Emotions` (emotions.dfy): the 23-emotion `precise_emotions` table, with its category and intensity. Both services use the same table.
- `SpeechToText` (speech.dfy): `speech_to_text.py`. It covers:
  - segment-confidence aggregation;
  - whitespace and virama cleanup for Tamil, Telugu, Kannada and Malayalam;
  - decoding options and prompts per language;
  - the South Indian flag and name fields of the transcription result.
- `AudioProcessing` (audio.dfy): `audio_processing.py`. It covers:
  - the error and warning rules of `validate_audio_file`;
  - the temp-file cleanup rule;
  - the processing-time estimate.
- `CloudWatchMetrics` (cloudwatch.dfy): `cloudwatch_endpoint.py`. It covers:
  - the request defaults;
  - one CloudWatch entry per metric, ending with the `Source` dimension;
  - the batches of at most 20 entries sent by `put_metric_data`.
- Shared modules:
  - `Text` (text.dfy): Python's `str.strip`, `split()`, `' '.join`, `in` and `replace`, and `re.split` on a character class.
  - `Dicts` (dicts.dfy): ordered dictionaries. In a literal, the later value for a duplicate key wins and the key keeps its first position.
  - `RealSeq` (realseq.dfy): sums, weighted means, and `max` with the first maximum winning ties.
  - `Pipelines` (pipelines.dfy) and `Wrappers` (wrappers.dfy): data types.

Scores are exact `real`s. A dictionary over the 23 emotions is a vector
aligned with the table's insertion order. An operation that can raise
returns a `Result`, whose error part is the exception's key or message.

Where a loop in the source updates variables, the model has a `method` with
a `while` or `for` loop whose `ensures` ties the result to a specification
function; the properties are then proved as lemmas about that function.

## Model

| member | source | states |
|---|---|---|
| Sentiment.DetectLanguageSpec | backend/services/sentiment_analysis.py:89-104 | the code is "ta", "te", "kn", "ml" or "hi" exactly when that script is the first, in this priority, to occur in the text; it is "en" exactly when none occurs, the empty text included |
| Sentiment.Scrub | backend/services/sentiment_analysis.py:124 | the length is kept; each character stays if it is a word character or whitespace and becomes a space otherwise |
| Sentiment.TranslateSpec | backend/services/sentiment_analysis.py:122-127 | for ta/te/kn/ml the result is single-spaced with no space at either end, holds only word characters and spaces, and has the same words as the scrubbed text; any other language's text is returned unchanged |
| Sentiment.CollapseWordChars | backend/services/sentiment_analysis.py:125 | collapsing whitespace in a text of word characters and whitespace leaves only word characters and single spaces |
| Sentiment.TranslateIdempotent | backend/services/sentiment_analysis.py:122-127 | cleaning an already cleaned text changes nothing |
| Sentiment.SentimentOfLabels | backend/services/sentiment_analysis.py:339-348 | LABEL_0/NEGATIVE give negative, LABEL_1/NEUTRAL give neutral, LABEL_2/POSITIVE give positive; any other label gives its lower-case form |
| Sentiment.ScoreKeys | backend/services/sentiment_analysis.py:352-353 | the sentiment is always among the score keys |
| Sentiment.Without | backend/services/sentiment_analysis.py:357 | a key is among the other sentiments exactly when it is a score key different from the sentiment |
| Sentiment.WithoutLength | backend/services/sentiment_analysis.py:357-359 | leaving out the sentiment leaves one key fewer, the divisor of the remaining confidence |
| Sentiment.NormalizeTransformerResult | backend/services/sentiment_analysis.py:336-365 | the method's result is the normalised result of the label and score |
| Sentiment.ShareScores | backend/services/sentiment_analysis.py:352-359 | the loop over the other sentiments builds exactly the shared-score dict |
| Sentiment.ShareStart | backend/services/sentiment_analysis.py:352-353 | before the loop, the dict holds only the predicted sentiment with its confidence |
| Sentiment.PartialEnd | backend/services/sentiment_analysis.py:356-359 | once every other sentiment has had its share, the dict is the full shared-score dict |
| Sentiment.PartialStep | backend/services/sentiment_analysis.py:358-359 | one loop step sets the next other sentiment to its share and changes nothing else |
| Sentiment.NormalizedSpec | backend/services/sentiment_analysis.py:348-365 | the chosen class carries the confidence, the scores sum to 1, and each other class gets (1 - c)/2; an unknown label is added as a fourth key, and each class gets (1 - c)/3 |
| Sentiment.SharedScoresSpec | backend/services/sentiment_analysis.py:352-359 | the sentiment's score is the confidence and the scores sum to 1; the keys and the other classes' shares are as above |
| Sentiment.SharedOwnScore | backend/services/sentiment_analysis.py:353 | the sentiment's own score is the confidence |
| Sentiment.SharedInClasses | backend/services/sentiment_analysis.py:352-359 | for one of the three classes, the keys stay the three classes, and each other class gets (1 - c)/2 |
| Sentiment.SharedOutsideClasses | backend/services/sentiment_analysis.py:352-359 | for any other sentiment, the keys are the three classes plus the sentiment, and each class gets (1 - c)/3 |
| Sentiment.SharedScoresTotal | backend/services/sentiment_analysis.py:356-359 | the shared scores sum to 1 |
| Sentiment.OneOffGet | backend/services/sentiment_analysis.py:352-359 | a key's score is the confidence when it is the sentiment and the share otherwise |
| Sentiment.OneOffSum | backend/services/sentiment_analysis.py:356-359 | the scores sum to the confidence plus one share per other key |
| Sentiment.VaderSpec | backend/services/sentiment_analysis.py:377-394 | positive iff compound >= 0.05, negative iff compound <= -0.05, neutral iff strictly between; the confidence is VADER's score for that class; the scores are VADER's pos/neg/neu in that order |
| Sentiment.VaderOwnScore | backend/services/sentiment_analysis.py:377-385 | the confidence is the score the result gives its own class |
| Sentiment.BlobTotal | backend/services/sentiment_analysis.py:414-423 | the three raw scores always sum to 1, so the division leaves them unchanged |
| Sentiment.BlobSpec | backend/services/sentiment_analysis.py:403-423 | for polarity p in [-1, 1]: positive iff p > 0.1 with confidence p, negative iff p < -0.1 with confidence -p, otherwise neutral with confidence 1 - abs(p) >= 0.9; the confidence is in [0, 1]; the scores are non-negative and sum to 1 |
| Sentiment.MethodWeightValues | backend/services/sentiment_analysis.py:206-219 | the weight is the table lookup of the method, with 0.1 for an unknown or missing method, and lies in [0.1, 0.5] |
| Sentiment.FirstMissingSpec | backend/services/sentiment_analysis.py:223-227 | there is no missing key exactly when every result seen so far has all three class scores and a class as its sentiment; otherwise the missing key is that of the first such result |
| Sentiment.CombineSentimentResults | backend/services/sentiment_analysis.py:184-245 | the loop computes exactly the combination specification, including the KeyError of a malformed result and the `individual_results` list |
| Sentiment.Finish | backend/services/sentiment_analysis.py:229-245 | dividing the complete sums by the total weight and voting gives exactly the combination specification, with the input results as `individual_results` |
| Sentiment.FoldIn | backend/services/sentiment_analysis.py:217-227 | folding in one result reports its missing key, if any, and otherwise extends the running weight, score and vote sums by that result |
| Sentiment.FoldedIn | backend/services/sentiment_analysis.py:217-227 | the sums after one step are the sums over one more result |
| Sentiment.FoldStep | backend/services/sentiment_analysis.py:220-227 | each result adds its weight to the total, score times weight to each class sum, and its weight to the vote of its own class only |
| Sentiment.AddScores | backend/services/sentiment_analysis.py:223-224 | adds score times weight to each class in order, or reports the first class the result lacks |
| Sentiment.MissingClassAt | backend/services/sentiment_analysis.py:223-224 | the KeyError names the first class, in the order positive/negative/neutral, that the scores lack |
| Sentiment.DivideAll | backend/services/sentiment_analysis.py:230-232 | each class sum is divided by the total weight |
| Sentiment.AccumulatedMeans | backend/services/sentiment_analysis.py:217-232 | after the loop the votes are the vote sums, and the scores are the weighted means |
| Sentiment.AccumulatedVotes | backend/services/sentiment_analysis.py:215-227 | the accumulated votes are the per-class vote sums |
| Sentiment.AccumulatedSums | backend/services/sentiment_analysis.py:213-224 | the accumulated scores are the per-class weighted sums |
| Sentiment.CombinedIsSpec | backend/services/sentiment_analysis.py:234-245 | the final dict built from the means, the vote winner and the input results is the specified combined result |
| Sentiment.CombineFew | backend/services/sentiment_analysis.py:195-203 | no results give neutral, confidence 0.0 and scores 0.33/0.33/0.34; a single result is returned unchanged |
| Sentiment.CombineKeyError | backend/services/sentiment_analysis.py:217-227 | with two or more results the combination raises exactly when some result lacks a class score or has a non-class sentiment, and the error is the key of the first such result |
| Sentiment.TotalWeightBounds | backend/services/sentiment_analysis.py:214-220 | the total weight of n results is between 0.1 n and 0.5 n, so it is positive for any result |
| Sentiment.VotesTotal | backend/services/sentiment_analysis.py:215-227 | for well-formed results the three votes sum to the total weight |
| Sentiment.WeightedSumsTotal | backend/services/sentiment_analysis.py:213-224 | when each result's class scores sum to 1, the weighted sums add up to the total weight |
| Sentiment.CombinedSpec | backend/services/sentiment_analysis.py:205-245 | two or more well-formed results give method "combined" and the language; the keys are the three classes; the sentiment has the largest vote (the first of positive, negative, neutral on a tie); the confidence is its weighted mean score; `individual_results` is the input list |
| Sentiment.CombinedShape | backend/services/sentiment_analysis.py:236-245 | the combined result's keys, method, language, confidence and `individual_results` are as above |
| Sentiment.CombinedVote | backend/services/sentiment_analysis.py:234-235 | the final sentiment has the maximal vote, and every class before it in table order has a strictly smaller vote |
| Sentiment.ClassScoresGet | backend/services/sentiment_analysis.py:238-241 | the combined score dict has the three classes in order and each its mean |
| Sentiment.MeanScoresDivide | backend/services/sentiment_analysis.py:229-232 | the total weight is positive, and each class score is its weighted sum divided by it |
| Sentiment.MeanInBounds | backend/services/sentiment_analysis.py:212-232 | a class's mean lies between the smallest and largest score any result gives that class |
| Sentiment.CombinedBounds | backend/services/sentiment_analysis.py:229-241 | the confidence and every combined score lie within the bounds of the inputs' scores |
| Sentiment.CombinedSumsToOne | backend/services/sentiment_analysis.py:229-232 | when every result's scores sum to 1, the combined scores do too |
| Sentiment.CombinedUnanimous | backend/services/sentiment_analysis.py:227-235 | when every result has the same sentiment, the combination has it too |
| Sentiment.UnanimousVotes | backend/services/sentiment_analysis.py:215-227 | with unanimous results, that class gets the whole weight and the others none |
| SentimentService.Classify | backend/services/sentiment_analysis.py:367-370 | only a loaded transformer pipeline can classify; any other analyzer raises |
| SentimentService.PolarityScores | backend/services/sentiment_analysis.py:372-374 | only a VADER analyzer gives polarity scores; any other analyzer raises |
| SentimentService.MultilingualResults | backend/services/sentiment_analysis.py:142-150 | at most one result, tagged "multilingual_transformer", with no language |
| SentimentService.EnglishResults | backend/services/sentiment_analysis.py:152-161 | at most one result, tagged "english_transformer", with no language |
| SentimentService.VaderResults | backend/services/sentiment_analysis.py:163-169 | at most one result, tagged "vader_fallback", with no language |
| SentimentService.ConcatAt | backend/services/sentiment_analysis.py:140-167 | each collected result comes from the approach whose part it falls in |
| SentimentService.SouthIndianProvenance | backend/services/sentiment_analysis.py:140-169 | every collected result comes from one of the three approaches and has no language of its own |
| SentimentService.ConcatProvenance | backend/services/sentiment_analysis.py:140-169 | the provenance of the three approaches' results carries over to their concatenation |
| SentimentService.EnglishSource | backend/services/sentiment_analysis.py:152-161 | the English model contributes exactly when a pipeline is loaded, the cleaned text differs from the text or the language is "en", and the classification does not raise |
| SentimentService.VaderSource | backend/services/sentiment_analysis.py:163-169 | VADER contributes exactly when a VADER analyzer is loaded and it does not raise |
| SentimentService.SouthIndianFallback | backend/services/sentiment_analysis.py:171-182 | no results give the ultimate fallback (neutral, 0.5, 0.33/0.33/0.34, "fallback", the language); otherwise the results are combined; without a pipeline or VADER at most one result is collected |
| SentimentService.Response | backend/services/sentiment_analysis.py:300-308 | the emotions field is the enhanced emotion response of the text exactly on the success path |
| SentimentService.ResolveLanguage | backend/services/sentiment_analysis.py:282-283 | the resolved language is never empty |
| SentimentService.NeutralResponse | backend/services/sentiment_analysis.py:258-276 | the neutral result with no language name and the minimal emotions has the neutral shape: neutral, confidence 0.0, scores 0.0/0.0/1.0 |
| SentimentService.BlankText | backend/services/sentiment_analysis.py:258-276 | empty or whitespace-only text gives the neutral shape, no error, and the language or "unknown" |
| SentimentService.AnalyzeOutcome | backend/services/sentiment_analysis.py:280-334 | the reported language is the resolved one; an error is reported exactly when the base analysis raises, and then the response has the neutral shape and carries the message; otherwise it carries the base result, the language name and the enhanced emotion response |
| SentimentService.UnknownMethod | backend/services/sentiment_analysis.py:296-334 | an unknown method outside the South Indian path gives the neutral shape with the error "Unknown sentiment analysis method: <method>" |
| SentimentService.MethodDispatch | backend/services/sentiment_analysis.py:289-295 | "transformers", "vader" and "textblob" use the normalised transformer, VADER and TextBlob results respectively |
| SentimentService.LanguageResolution | backend/services/sentiment_analysis.py:282-287 | a given non-empty language is kept, otherwise it is detected; the South Indian path is taken exactly for ta/te/kn/ml |
| SentimentService.LanguageAgrees | backend/services/sentiment_analysis.py:303-309 | a language inside the sentiment result always agrees with the response's language |
| SentimentService.BaseLanguage | backend/services/sentiment_analysis.py:286-297 | a base result that carries a language carries the resolved one |
| SentimentService.SouthIndianLanguage | backend/services/sentiment_analysis.py:171-182 | a South Indian result that carries a language carries the requested one |
| SentimentService.LanguageNames | backend/services/sentiment_analysis.py:307 | the language name is the table's name for ta/te/kn/ml and the upper-cased code otherwise |
| SentimentService.SupportedLanguagesSpec | backend/services/sentiment_analysis.py:465-472 | the keys are ta, te, kn, ml, en, hi, auto in that order; they are distinct; the four South Indian entries come first; every detected code is supported |
| EnhancedEmotion.AddTo | backend/services/enhanced_emotion_analysis.py:211-213 | adding one mapped emotion keeps the 23 keys |
| EnhancedEmotion.MapWith | backend/services/enhanced_emotion_analysis.py:202-215 | the mapped scores always have exactly the 23 emotion keys |
| EnhancedEmotion.MapModelEmotions | backend/services/enhanced_emotion_analysis.py:157-215 | the loop computes exactly the mapping specification over the service's mapping literal |
| EnhancedEmotion.MapLabels | backend/services/enhanced_emotion_analysis.py:202-215 | the loop over the labels computes the mapping for any mapping table |
| EnhancedEmotion.AddMapped | backend/services/enhanced_emotion_analysis.py:210-213 | the inner loop adds score times weight for each mapped emotion in turn |
| EnhancedEmotion.Contributions | backend/services/enhanced_emotion_analysis.py:209-213 | label k contributes its score times the label's weight for the emotion |
| EnhancedEmotion.AddWeightedStep | backend/services/enhanced_emotion_analysis.py:211-213 | one inner step adds one mapped emotion |
| EnhancedEmotion.AddToAt | backend/services/enhanced_emotion_analysis.py:212-213 | the step raises only the named emotion, by score times weight |
| EnhancedEmotion.AddWeightedClosedForm | backend/services/enhanced_emotion_analysis.py:210-213 | a label adds score times its total weight for each emotion |
| EnhancedEmotion.MapWithClosedForm | backend/services/enhanced_emotion_analysis.py:202-215 | each emotion's score is the sum over the labels of score times weight |
| EnhancedEmotion.UnmappedLabel | backend/services/enhanced_emotion_analysis.py:209 | a label whose lower-case form is not a mapping key adds nothing |
| EnhancedEmotion.SingleLabel | backend/services/enhanced_emotion_analysis.py:204-213 | one label gives each emotion its score times the mapped weight |
| EnhancedEmotion.LabelWeightOf | backend/services/enhanced_emotion_analysis.py:205-210 | the weight is looked up under the lower-cased label |
| EnhancedEmotion.AngerListWeights | backend/services/enhanced_emotion_analysis.py:194 | the surviving "anger" list weights angry and anger by 0.9, and hate by nothing |
| EnhancedEmotion.AngerWeights | backend/services/enhanced_emotion_analysis.py:166-194 | "anger" in any case maps to angry 0.9 and anger 0.9, and no longer to hate |
| EnhancedEmotion.AngerLabel | backend/services/enhanced_emotion_analysis.py:194-213 | an "anger" label gives angry and anger score times 0.9 each, and hate 0 |
| EnhancedEmotion.WeightForNonNegative | backend/services/enhanced_emotion_analysis.py:162-200 | non-negative mapping weights give a non-negative total weight |
| EnhancedEmotion.MapWithNonNegative | backend/services/enhanced_emotion_analysis.py:202-215 | non-negative scores and weights give non-negative mapped scores |
| EnhancedEmotion.MapSpecNonNegative | backend/services/enhanced_emotion_analysis.py:162-215 | with the service's mapping, non-negative label scores give non-negative emotion scores |
| EnhancedEmotion.ContextFactor | backend/services/enhanced_emotion_analysis.py:114-121 | the factor per matched keyword (0.3 negated, else 1.5 amplified, else 1.0) is positive |
| EnhancedEmotion.Multiplier | backend/services/enhanced_emotion_analysis.py:125 | the intensity multiplier 0.7/1.0/1.3 is positive |
| EnhancedEmotion.CountIn | backend/services/enhanced_emotion_analysis.py:111-112 | no more keywords match than there are |
| EnhancedEmotion.CountStep | backend/services/enhanced_emotion_analysis.py:111-112 | each keyword counts once when it is a substring of the sentence |
| EnhancedEmotion.KeywordMatches | backend/services/enhanced_emotion_analysis.py:109-121 | `matches` is the number of keywords found times the sentence's context factor |
| EnhancedEmotion.ScoreSentence | backend/services/enhanced_emotion_analysis.py:107-127 | one sentence adds its gain to each emotion, and its weight to the total once per matched emotion |
| EnhancedEmotion.ScoreSentences | backend/services/enhanced_emotion_analysis.py:99-127 | the sentence loop computes exactly the raw scores and the total weight |
| EnhancedEmotion.ScoreNextSentence | backend/services/enhanced_emotion_analysis.py:99-127 | one iteration of the sentence loop extends both sums by one sentence |
| EnhancedEmotion.BlankSentenceStep | backend/services/enhanced_emotion_analysis.py:100-101 | a blank sentence is skipped |
| EnhancedEmotion.SentenceStep | backend/services/enhanced_emotion_analysis.py:103-127 | a non-blank sentence adds its gains and weight |
| EnhancedEmotion.RawStep | backend/services/enhanced_emotion_analysis.py:126 | the raw score grows by the sentence's score |
| EnhancedEmotion.TotalStep | backend/services/enhanced_emotion_analysis.py:127 | the total weight grows by the sentence's matched weight |
| EnhancedEmotion.ScoreKeywords | backend/services/enhanced_emotion_analysis.py:92-131 | the keyword analysis computes the keyword-score specification for any keyword table |
| EnhancedEmotion.KeywordAnalysis | backend/services/enhanced_emotion_analysis.py:88-131 | the keyword analysis of the service's table computes the specification |
| EnhancedEmotion.KeywordScores | backend/services/enhanced_emotion_analysis.py:93-131 | the keyword scores have exactly the 23 keys |
| EnhancedEmotion.CountInPositive | backend/services/enhanced_emotion_analysis.py:111-123 | the count is positive exactly when some keyword is a substring |
| EnhancedEmotion.GainSign | backend/services/enhanced_emotion_analysis.py:109-123 | `matches` is non-negative, and positive exactly when some keyword is found |
| EnhancedEmotion.SentenceWeightSign | backend/services/enhanced_emotion_analysis.py:104 | the sentence weight, words/10, is non-negative, and positive exactly for a non-blank sentence |
| EnhancedEmotion.EmotionGainSign | backend/services/enhanced_emotion_analysis.py:123-126 | the gain is non-negative, and positive exactly when the weight is positive and a keyword is found |
| EnhancedEmotion.SentenceScoreSign | backend/services/enhanced_emotion_analysis.py:99-126 | a sentence's score is non-negative, and positive exactly when it is non-blank and matches |
| EnhancedEmotion.RawIsSum | backend/services/enhanced_emotion_analysis.py:99-126 | the raw score is the sum of the sentence scores |
| EnhancedEmotion.RawSign | backend/services/enhanced_emotion_analysis.py:99-126 | the raw score is non-negative, and positive exactly when some sentence matches |
| EnhancedEmotion.GainWeightNonNegative | backend/services/enhanced_emotion_analysis.py:127 | what a sentence adds to total_weight is non-negative |
| EnhancedEmotion.TotalWeightNonNegative | backend/services/enhanced_emotion_analysis.py:97-127 | total_weight is non-negative |
| EnhancedEmotion.KeywordScoreOf | backend/services/enhanced_emotion_analysis.py:129-131 | each score is the raw score divided by total_weight when that is positive, and the raw score otherwise |
| EnhancedEmotion.KeywordScoresSign | backend/services/enhanced_emotion_analysis.py:92-131 | each keyword score is non-negative, and positive exactly when some sentence matches that emotion |
| EnhancedEmotion.KeywordSpecSign | backend/services/enhanced_emotion_analysis.py:88-131 | the same, for the service's keyword table |
| EnhancedMapping.MappingLiteral | backend/services/enhanced_emotion_analysis.py:162-200 | the literal has the 34 entries in source order |
| EnhancedMapping.AngerMapping | backend/services/enhanced_emotion_analysis.py:166-194 | the "anger" key maps to [angry 0.9, anger 0.9]: line 194 overrides line 166 |
| EnhancedMapping.AngerEntry | backend/services/enhanced_emotion_analysis.py:194 | entry 28 of the literal is the RoBERTa "anger" entry |
| EnhancedMapping.AngerNotAfter | backend/services/enhanced_emotion_analysis.py:194-199 | no later entry repeats "anger" |
| EnhancedMapping.SadnessMapping | backend/services/enhanced_emotion_analysis.py:189-197 | "sadness" maps to [sad 0.9, disappointment 0.6] |
| EnhancedMapping.SadnessEntry | backend/services/enhanced_emotion_analysis.py:197 | entry 31 is the later "sadness" entry |
| EnhancedMapping.SadnessNotAfter | backend/services/enhanced_emotion_analysis.py:197-199 | no later entry repeats "sadness" |
| EnhancedMapping.SurpriseMapping | backend/services/enhanced_emotion_analysis.py:190-198 | "surprise" maps to [relief 0.6, hope 0.4] |
| EnhancedMapping.SurpriseEntry | backend/services/enhanced_emotion_analysis.py:198 | entry 32 is the later "surprise" entry |
| EnhancedMapping.SurpriseNotAfter | backend/services/enhanced_emotion_analysis.py:198-199 | no later entry repeats "surprise" |
| EnhancedMapping.MappingEntryNonNegative | backend/services/enhanced_emotion_analysis.py:162-200 | every literal entry's weights are non-negative |
| EnhancedMapping.EarlyEntriesNonNegative | backend/services/enhanced_emotion_analysis.py:164-180 | the first 17 entries have non-negative weights |
| EnhancedMapping.LateEntriesNonNegative | backend/services/enhanced_emotion_analysis.py:181-199 | the remaining entries have non-negative weights |
| EnhancedMapping.MappingNonNegative | backend/services/enhanced_emotion_analysis.py:162-200 | every key of the mapping has non-negative weights |
| EnhancedEnsemble.Confidences | backend/services/enhanced_emotion_analysis.py:268 | the confidences summed are those of the results, in order |
| EnhancedEnsemble.Boosted | backend/services/enhanced_emotion_analysis.py:267-272 | there is one boosted weight per result |
| EnhancedEnsemble.Uniform | backend/services/enhanced_emotion_analysis.py:279 | without total weight, each result gets 1/len(results) |
| EnhancedEnsemble.FinalWeights | backend/services/enhanced_emotion_analysis.py:276-279 | there is one final weight per result |
| EnhancedEnsemble.CombineSpec | backend/services/enhanced_emotion_analysis.py:264-283 | the combination has exactly the 23 keys |
| EnhancedEnsemble.AddResult | backend/services/enhanced_emotion_analysis.py:280-281 | one result adds score times its final weight to every emotion |
| EnhancedEnsemble.BoostWeights | backend/services/enhanced_emotion_analysis.py:268-272 | the in-place loop multiplies each weight by 1 + its share of the total confidence, when that total is positive, and changes nothing else |
| EnhancedEnsemble.CombineResults | backend/services/enhanced_emotion_analysis.py:264-283 | the loops compute exactly the combination specification, all zeros for no results included |
| EnhancedEnsemble.FinalWeightAt | backend/services/enhanced_emotion_analysis.py:276-279 | each normalised weight is the weight over the total, or an equal share when the total is not positive |
| EnhancedEnsemble.CombineEnd | backend/services/enhanced_emotion_analysis.py:275-283 | the accumulated weighted sums are the combination specification |
| EnhancedEnsemble.EntryOpt | backend/services/enhanced_emotion_analysis.py:228-247 | a model contributes one well-formed entry when it produced scores and none otherwise |
| EnhancedEnsemble.CollectResults | backend/services/enhanced_emotion_analysis.py:221-261 | primary (0.5), backup (0.3) and keyword (0.2) results are collected in that order |
| EnhancedEnsemble.AddModel | backend/services/enhanced_emotion_analysis.py:224-247 | a model's mapped scores are appended as one entry exactly when it produced labels |
| EnhancedEnsemble.ColumnStep | backend/services/enhanced_emotion_analysis.py:278-281 | each result extends the weighted sum of every emotion by score times weight |
| EnhancedEnsemble.BoostBounds | backend/services/enhanced_emotion_analysis.py:269-272 | each boosted weight lies between the weight and twice the weight |
| EnhancedEnsemble.ShareBounds | backend/services/enhanced_emotion_analysis.py:271-272 | w (1 + c/tc) lies between w and 2w |
| EnhancedEnsemble.FinalWeightsNormalised | backend/services/enhanced_emotion_analysis.py:276-279 | the final weights are non-negative and sum to 1 |
| EnhancedEnsemble.CombineBounds | backend/services/enhanced_emotion_analysis.py:264-283 | each combined score lies between the smallest and largest method score |
| EnhancedEnsemble.Entry | backend/services/enhanced_emotion_analysis.py:228-259 | a method entry has the method's 23 scores, weight, and its maximum score as confidence |
| EnhancedEnsemble.Results | backend/services/enhanced_emotion_analysis.py:221-261 | the collected results all have 23 scores |
| EnhancedEnsemble.Mapped | backend/services/enhanced_emotion_analysis.py:224-249 | a model's result exists exactly when the model answered, with 23 scores |
| EnhancedEnsemble.AnalysisResults | backend/services/enhanced_emotion_analysis.py:221-261 | the results collected from the text are well formed |
| EnhancedEnsemble.CombineAnalysisMethods | backend/services/enhanced_emotion_analysis.py:217-283 | the method collects the primary (0.5), backup (0.3) and keyword (0.2) results in order and returns their combination |
| EnhancedEnsemble.ResultsBounds | backend/services/enhanced_emotion_analysis.py:228-283 | with non-negative inputs, each combined score lies between 0 and the largest method confidence |
| EnhancedEnsemble.AnalysisBounds | backend/services/enhanced_emotion_analysis.py:217-283 | with non-negative label scores, each combined score of a text lies between 0 and the largest confidence |
| EnhancedEnsemble.Primary | backend/services/enhanced_emotion_analysis.py:299-305 | the primary's confidence is never below 0.1 after the threshold |
| EnhancedEnsemble.LanguageOr | backend/services/enhanced_emotion_analysis.py:322 | `language or "unknown"` is never empty, and is "unknown" exactly for a missing, empty or "unknown" language |
| EnhancedEnsemble.DefaultResponse | backend/services/enhanced_emotion_analysis.py:349-362 | the default response has the 23 keys |
| EnhancedEnsemble.AnalyzeSpec | backend/services/enhanced_emotion_analysis.py:285-326 | the response always has the 23 keys |
| EnhancedEnsemble.Respond | backend/services/enhanced_emotion_analysis.py:299-326 | the response carries the combined scores unchanged |
| EnhancedEnsemble.Threshold | backend/services/enhanced_emotion_analysis.py:299-326 | the method computes the thresholded response |
| EnhancedEnsemble.AnalyzeEmotions | backend/services/enhanced_emotion_analysis.py:285-326 | the method computes `analyze_emotions` as specified |
| EnhancedEnsemble.PrimarySpec | backend/services/enhanced_emotion_analysis.py:299-305 | a maximum below 0.1 gives mildness at 0.5; otherwise the primary is the first emotion with the maximal score, and its confidence is that score |
| EnhancedEnsemble.QualityBands | backend/services/enhanced_emotion_analysis.py:325 | quality is "high" iff c > 0.7, "medium" iff 0.4 < c <= 0.7, "low" iff c <= 0.4 |
| EnhancedEnsemble.BlankText | backend/services/enhanced_emotion_analysis.py:349-362 | blank text gives mildness, confidence 0.0, neutral/low, method "default", an empty top list, quality "low", all-zero scores and the language or "unknown" |
| EnhancedEnsemble.AnalyzeResponse | backend/services/enhanced_emotion_analysis.py:294-326 | non-blank text is scored by the combination; the confidence is at least 0.1; category and intensity come from the table; a maximum below 0.1 gives mildness at 0.5 with quality "medium"; quality is "high" exactly when the maximum exceeds 0.7 |
| EnhancedEnsemble.ResponseTop | backend/services/enhanced_emotion_analysis.py:332-347 | at most five entries, each scoring above 0.05 with its own score and the table's metadata, in non-increasing order |
| Ranking.Items | backend/services/enhanced_emotion_analysis.py:334 | `scores.items()` pairs each emotion with its score, in table order |
| Ranking.Insert | backend/services/enhanced_emotion_analysis.py:334 | inserting keeps the same items |
| Ranking.SortDesc | backend/services/enhanced_emotion_analysis.py:334 | sorting is a permutation |
| Ranking.SortedCons | backend/services/enhanced_emotion_analysis.py:334 | an item placed before a sorted list that it precedes keeps it sorted |
| Ranking.InsertSorted | backend/services/enhanced_emotion_analysis.py:334 | inserting an item from earlier in the table keeps the list sorted, with ties in table order |
| Ranking.SortDescSorted | backend/services/enhanced_emotion_analysis.py:334 | sorting items given in table order yields non-increasing scores, with ties kept in table order (a stable sort) |
| Ranking.Ranked | backend/services/enhanced_emotion_analysis.py:334 | the sorted items are a permutation of the 23 items and are sorted |
| Ranking.TopEmotions | backend/services/enhanced_emotion_analysis.py:332-347 | the loop builds exactly the top list for the given cut and threshold |
| Ranking.KeepSpec | backend/services/enhanced_emotion_analysis.py:337-345 | the kept entries are exactly the items above the threshold, in order, with the table's metadata; they keep a sorted input's order |
| Ranking.KeepLength | backend/services/enhanced_emotion_analysis.py:337-345 | no more entries are kept than there are items |
| Ranking.KeepFrom | backend/services/enhanced_emotion_analysis.py:337-345 | every kept entry scores above the threshold and is the table entry of one of the items |
| Ranking.KeepAll | backend/services/enhanced_emotion_analysis.py:337-345 | every item above the threshold is kept |
| Ranking.KeepOrdered | backend/services/enhanced_emotion_analysis.py:337-345 | from an input sorted by score, the kept scores are non-increasing |
| Ranking.TopSpecProperties | backend/services/enhanced_emotion_analysis.py:332-347 | at most top_n entries, each above the threshold with its own score and metadata, in non-increasing order; exactly the ranked head's entries above the threshold |
| Ranking.Head | backend/services/enhanced_emotion_analysis.py:337 | the first top_n ranked items are sorted |
| Ranking.TopEntries | backend/services/enhanced_emotion_analysis.py:337-345 | the size bound and each entry's score and metadata |
| Ranking.TopOrdered | backend/services/enhanced_emotion_analysis.py:334-345 | the entries are in non-increasing score order |
| Ranking.TopSelection | backend/services/enhanced_emotion_analysis.py:337-338 | every ranked item among the first top_n that is above the threshold is listed, and nothing else |
| Ranking.RankedItem | backend/services/enhanced_emotion_analysis.py:334 | a ranked item carries its emotion's own score |
| Emotions.All | backend/services/enhanced_emotion_analysis.py:24-48 | the table has 23 emotions |
| Emotions.Index | backend/services/enhanced_emotion_analysis.py:24-48 | each emotion sits at its index in the table |
| Emotions.IndexOfAll | backend/services/enhanced_emotion_analysis.py:24-48 | the index of the i-th emotion is i |
| Emotions.FromName | backend/services/emotion_analysis.py:146 | a name found in the table is that emotion's name |
| Emotions.FromNameNone | backend/services/emotion_analysis.py:146 | a name that is not found is the name of no emotion |
| Emotions.IndexByLettersOfName | backend/services/enhanced_emotion_analysis.py:24-48 | the lookup by letters finds every emotion's own index |
| Emotions.NameInjective | backend/services/enhanced_emotion_analysis.py:24-48 | the 23 names are distinct |
| Emotions.FromNameOfName | backend/services/emotion_analysis.py:146 | every emotion's name is found as that emotion |
| Emotions.FromNameIff | backend/services/emotion_analysis.py:146 | a name is found as an emotion exactly when it is that emotion's name |
| Emotions.IndexInjective | backend/services/enhanced_emotion_analysis.py:24-48 | distinct emotions sit at distinct positions |
| EmotionAnalysis.MappingLiteral | backend/services/emotion_analysis.py:88-127 | the literal has the 35 entries in source order |
| EmotionAnalysis.Names | backend/services/emotion_analysis.py:88-127 | a mapped list names its emotions in order |
| EmotionAnalysis.FirstRelatedFrom | backend/services/emotion_analysis.py:137-140 | the loop stops at the first key from i on that contains the label or is contained in it; if none does, there is no match |
| EmotionAnalysis.Mapped | backend/services/emotion_analysis.py:136-140 | the mapped list is empty or is some key's list |
| EmotionAnalysis.FindMapped | backend/services/emotion_analysis.py:136-140 | the loop with `break` finds exactly the first related key's list |
| EmotionAnalysis.AddShare | backend/services/emotion_analysis.py:146-147 | adding a share keeps the 23 keys |
| EmotionAnalysis.AddShares | backend/services/emotion_analysis.py:145-147 | adding the shares keeps the 23 keys |
| EmotionAnalysis.AddLabel | backend/services/emotion_analysis.py:131-147 | adding a label keeps the 23 keys |
| EmotionAnalysis.MapWith | backend/services/emotion_analysis.py:129-147 | the mapped scores have exactly the 23 keys |
| EmotionAnalysis.Normalize | backend/services/emotion_analysis.py:150-152 | normalising keeps the keys |
| EmotionAnalysis.MapSpec | backend/services/emotion_analysis.py:83-154 | `_map_to_precise_emotions` returns exactly the 23 keys |
| EmotionAnalysis.AddShareCases | backend/services/emotion_analysis.py:146-147 | a name outside the table adds nothing; a name in the table raises only that emotion, by the share |
| EmotionAnalysis.AddSharesStep | backend/services/emotion_analysis.py:145-147 | one inner step adds one mapped emotion's share |
| EmotionAnalysis.MapToPreciseEmotions | backend/services/emotion_analysis.py:83-154 | the method computes the mapping specification over the service's literal, normalisation included |
| EmotionAnalysis.MapLabels | backend/services/emotion_analysis.py:131-147 | the label loop computes the mapping for any mapping table |
| EmotionAnalysis.Distribute | backend/services/emotion_analysis.py:143-147 | the inner loop adds score/len to each mapped emotion in turn |
| EmotionAnalysis.AddOne | backend/services/emotion_analysis.py:146-147 | one inner iteration adds the share when the name is a table key |
| EmotionAnalysis.AngerMapping | backend/services/emotion_analysis.py:90-101 | "anger" maps to [angry, anger, hate]: line 101 overrides line 90 |
| EmotionAnalysis.AngerEntry | backend/services/emotion_analysis.py:101 | entry 9 is the later "anger" entry |
| EmotionAnalysis.SadnessMapping | backend/services/emotion_analysis.py:93-124 | "sadness" maps to [sad, disappointment] |
| EmotionAnalysis.SadnessEntry | backend/services/emotion_analysis.py:124 | entry 32 is the later "sadness" entry |
| EmotionAnalysis.AngerNotAfter | backend/services/emotion_analysis.py:101-126 | no later entry repeats "anger" |
| EmotionAnalysis.SadnessNotAfter | backend/services/emotion_analysis.py:124-126 | no later entry repeats "sadness" |
| EmotionAnalysis.FirstKey | backend/services/emotion_analysis.py:88-90 | the first key in insertion order is "anger", with its later list |
| EmotionAnalysis.AngerFirst | backend/services/emotion_analysis.py:137-140 | any label related to "anger" (for example "angry") maps to [angry, anger, hate], because "anger" is the first key |
| EmotionAnalysis.EmptyLabel | backend/services/emotion_analysis.py:137-140 | the empty label is a substring of every key, so it maps to "anger"'s list |
| EmotionAnalysis.NamesValid | backend/services/emotion_analysis.py:88-127 | every name in a mapped list is a table emotion |
| EmotionAnalysis.MappingValid | backend/services/emotion_analysis.py:88-127 | every list in the mapping names only table emotions |
| EmotionAnalysis.AddShareAt | backend/services/emotion_analysis.py:146-147 | a share raises exactly the emotion it names |
| EmotionAnalysis.AddSharesClosedForm | backend/services/emotion_analysis.py:143-147 | an emotion gains one share per occurrence of its name in the mapped list |
| EmotionAnalysis.AddSharesTotal | backend/services/emotion_analysis.py:143-147 | the shares add len(mapped) times the share in total |
| EmotionAnalysis.MatchedScores | backend/services/emotion_analysis.py:136-147 | a label counts its score when it matched a key, and 0 otherwise |
| EmotionAnalysis.MapWithTotal | backend/services/emotion_analysis.py:129-150 | the total of the mapped scores is the sum of the matched labels' scores |
| EmotionAnalysis.AddLabelTotal | backend/services/emotion_analysis.py:143-147 | a matched label adds exactly its score to the total |
| EmotionAnalysis.WholeShares | backend/services/emotion_analysis.py:144-147 | n shares of score/n add up to the score |
| EmotionAnalysis.MappedValid | backend/services/emotion_analysis.py:136-140 | the mapped list names only table emotions |
| EmotionAnalysis.Contributions | backend/services/emotion_analysis.py:143-147 | label k contributes its share once per occurrence of the emotion in its list |
| EmotionAnalysis.MapWithClosedForm | backend/services/emotion_analysis.py:129-147 | each emotion's score is the sum of the labels' contributions |
| EmotionAnalysis.UnmatchedLabel | backend/services/emotion_analysis.py:137-147 | a label related to no key is ignored |
| EmotionAnalysis.MapWithSnoc | backend/services/emotion_analysis.py:131-147 | labels are added one after another |
| EmotionAnalysis.NoRelatedKey | backend/services/emotion_analysis.py:136-140 | no related key leaves the mapped list empty |
| EmotionAnalysis.MapWithNonNegative | backend/services/emotion_analysis.py:129-147 | non-negative scores give non-negative mapped scores |
| EmotionAnalysis.NormalizeProperties | backend/services/emotion_analysis.py:150-152 | with non-negative entries, a positive total normalises to sum 1, a zero total leaves all zeros unchanged, and every entry ends in [0, 1] |
| EmotionAnalysis.NormalizedBounds | backend/services/emotion_analysis.py:151-152 | normalised entries lie in [0, 1] |
| EmotionAnalysis.MapSpecProperties | backend/services/emotion_analysis.py:129-154 | with non-negative scores: the result sums to 1 if any label matched, is all zeros otherwise, and lies in [0, 1] |
| EmotionAnalysis.PatternCounts | backend/services/emotion_analysis.py:190-195 | each emotion's raw score is the number of its keywords found in the lowercased text |
| EmotionAnalysis.PatternScores | backend/services/emotion_analysis.py:160-201 | the pattern scores have exactly the 23 keys |
| EmotionAnalysis.CountMatches | backend/services/emotion_analysis.py:193 | the count is the number of keywords that are substrings |
| EmotionAnalysis.AnalyzeTextPatterns | backend/services/emotion_analysis.py:156-201 | the loop computes exactly the pattern specification |
| EmotionAnalysis.PatternCountsPositive | backend/services/emotion_analysis.py:190-195 | the counts are non-negative, and their total is positive exactly when some keyword matches |
| EmotionAnalysis.PatternProperties | backend/services/emotion_analysis.py:190-201 | with a match, each score is its count over the total and they sum to 1; with none, all are 0; every score is in [0, 1] |
| EmotionAnalysis.Weights | backend/services/emotion_analysis.py:308 | each result's weight is its own, or 1.0 when missing |
| EmotionAnalysis.Column | backend/services/emotion_analysis.py:309-312 | an emotion missing from a result counts as 0 |
| EmotionAnalysis.CombineSpec | backend/services/emotion_analysis.py:301-320 | the combination has exactly the 23 keys |
| EmotionAnalysis.AddScores | backend/services/emotion_analysis.py:311-312 | one result adds score times weight to every emotion |
| EmotionAnalysis.CombineEmotionResults | backend/services/emotion_analysis.py:297-320 | the loops compute exactly the combination specification, all zeros for no results included |
| EmotionAnalysis.ColumnStep | backend/services/emotion_analysis.py:307-314 | each result extends the weighted sum by score times weight |
| EmotionAnalysis.CombineBounds | backend/services/emotion_analysis.py:301-320 | with non-negative weights and a positive total, each combined score lies within the inputs' bounds |
| EmotionAnalysis.CombineSingle | backend/services/emotion_analysis.py:307-318 | one result with a positive weight combines to its own scores |
| EmotionAnalysis.CombineSingleAt | backend/services/emotion_analysis.py:307-318 | the same, emotion by emotion |
| EmotionAnalysis.ScoreDict | backend/services/emotion_analysis.py:129 | a score vector as a dict names the 23 emotions in order |
| EmotionAnalysis.ScoreDictGet | backend/services/emotion_analysis.py:312 | looking up an emotion in a score dict gives its score |
| EmotionAnalysis.BlankResponse | backend/services/emotion_analysis.py:207-216 | the blank-text response has the 23 keys |
| EmotionAnalysis.ModelResult | backend/services/emotion_analysis.py:224-247 | each model contributes at most one result |
| EmotionAnalysis.AnalysisResults | backend/services/emotion_analysis.py:221-258 | one to three results are collected, the pattern analysis (weight 0.1) always last |
| EmotionAnalysis.Respond | backend/services/emotion_analysis.py:264-282 | the response carries the combined scores |
| EmotionAnalysis.AnalyzeSpec | backend/services/emotion_analysis.py:203-282 | the response always has the 23 keys |
| EmotionAnalysis.GetTopEmotions | backend/services/emotion_analysis.py:322-339 | the method builds the top list with threshold 0.01 |
| EmotionAnalysis.AddModelResult | backend/services/emotion_analysis.py:224-247 | a model's result is appended when it answered |
| EmotionAnalysis.AnalyzeEmotions | backend/services/emotion_analysis.py:203-282 | the method computes `analyze_emotions` as specified |
| EmotionAnalysis.CollectResults | backend/services/emotion_analysis.py:221-258 | primary (0.6), multilingual (0.3) and pattern (0.1) results are collected in order |
| EmotionAnalysis.AddPatternResult | backend/services/emotion_analysis.py:250-256 | the pattern result is appended with weight 0.1 |
| EmotionAnalysis.PrimaryResponse | backend/services/emotion_analysis.py:264-282 | the method computes the response from the final scores |
| EmotionAnalysis.BlankText | backend/services/emotion_analysis.py:207-216 | blank text gives mildness, confidence 0.0, neutral/low, all-zero scores, no method and no top list, and the language or "unknown" |
| EmotionAnalysis.PrimaryIsFirstMax | backend/services/emotion_analysis.py:264-277 | the primary is the first emotion with the maximal score; the confidence is that score; category and intensity come from the table |
| EmotionAnalysis.ResponseTop | backend/services/emotion_analysis.py:322-339 | at most five entries, each above 0.01 with its own score and metadata, in non-increasing order |
| EmotionAnalysis.DictBounded | backend/services/emotion_analysis.py:228-256 | scores in [0, 1] with a positive weight make a bounded result |
| EmotionAnalysis.ModelBounded | backend/services/emotion_analysis.py:224-247 | a model's result is bounded |
| EmotionAnalysis.ResultsBounded | backend/services/emotion_analysis.py:221-258 | every collected result is bounded |
| EmotionAnalysis.AllBounded | backend/services/emotion_analysis.py:221-258 | appending bounded results keeps every result bounded |
| EmotionAnalysis.AnalysisBounds | backend/services/emotion_analysis.py:203-282 | with non-negative label scores, every final score and the confidence lie in [0, 1] |
| EmotionAnalysis.RespondBounded | backend/services/emotion_analysis.py:264-282 | the response built from scores in [0, 1] has its confidence and every score in [0, 1] |
| EmotionAnalysis.CombinedBounded | backend/services/emotion_analysis.py:301-320 | bounded results combine to scores in [0, 1] |
| EmotionAnalysis.PatternsOnly | backend/services/emotion_analysis.py:249-261 | without either model, the final scores are the pattern scores |
| EmotionAnalysis.DictCombinesToItself | backend/services/emotion_analysis.py:307-318 | a single result combines to its own score vector |
| EmotionAnalysis.CombineThree | backend/services/emotion_analysis.py:307-318 | three results combine to their weighted mean |
| EmotionAnalysis.CombineAt | backend/services/emotion_analysis.py:307-318 | each combined score is the weighted sum divided by the total weight |
| EmotionAnalysis.BothModels | backend/services/emotion_analysis.py:221-261 | with both models, each score is 0.6 primary + 0.3 multilingual + 0.1 pattern |
| EmotionAnalysis.BothResults | backend/services/emotion_analysis.py:221-258 | both models answering gives the three results in order with weights 0.6, 0.3, 0.1 |
| EmotionAnalysis.WeightedThree | backend/services/emotion_analysis.py:316-318 | dividing by the total weight 1.0 leaves 0.6x + 0.3y + 0.1z |
| SpeechToText.SouthIndianFields | backend/services/speech_to_text.py:120-121 | the flag holds exactly for ta/te/kn/ml; their names are Tamil, Telugu, Kannada, Malayalam; the name is "Unknown" exactly when the flag is false |
| SpeechToText.PromptSpec | backend/services/speech_to_text.py:167-173 | the prompt is "" exactly for a code outside ta/te/kn/ml, and otherwise a sentence ending in a full stop |
| SpeechToText.PromptFound | backend/services/speech_to_text.py:167-173 | a listed code gets its non-empty prompt ending in a full stop |
| SpeechToText.PromptsShape | backend/services/speech_to_text.py:167-172 | the prompt table's keys are ta, te, kn, ml, and each prompt ends in a full stop |
| SpeechToText.GetTranscriptionOptions | backend/services/speech_to_text.py:137-155 | the in-place `update` gives exactly the specified options |
| SpeechToText.SouthIndianOptions | backend/services/speech_to_text.py:145-153 | after the update, the keys are the base keys followed by the six beam keys, and each key has its own dict's value |
| SpeechToText.OptionsKeysSpec | backend/services/speech_to_text.py:137-155 | the six beam keys are added exactly for ta/te/kn/ml |
| SpeechToText.OptionsBaseSpec | backend/services/speech_to_text.py:137-142 | fp16 is the GPU flag, task "transcribe", verbose false and temperature 0.0, for every code |
| SpeechToText.OptionsBeamSpec | backend/services/speech_to_text.py:146-153 | for ta/te/kn/ml: beam_size 5, best_of 5, patience 1.0, length_penalty 1.0, suppress_tokens [-1] and the language's prompt |
| SpeechToText.BaseOptionsKeys | backend/services/speech_to_text.py:137-142 | the base options have four distinct keys in order |
| SpeechToText.BaseOptionsGet | backend/services/speech_to_text.py:137-142 | the base options' values |
| SpeechToText.BeamOptionsKeys | backend/services/speech_to_text.py:146-153 | the beam options have six distinct keys in order |
| SpeechToText.BeamOptionsGet | backend/services/speech_to_text.py:146-153 | the beam options' values |
| SpeechToText.BeamKeysFresh | backend/services/speech_to_text.py:137-153 | no beam key is a base key, so the update only appends |
| SpeechToText.FixesShape | backend/services/speech_to_text.py:214-229 | every fix replaces a two-character sequence by its first character |
| SpeechToText.ApplyFixesShrinks | backend/services/speech_to_text.py:214-229 | the fixes never lengthen the text, and change nothing when no pattern occurs |
| SpeechToText.PostProcessSpec | backend/services/speech_to_text.py:186-231 | empty text is unchanged; other text is stripped; for ta/te/kn/ml whitespace is then collapsed to single spaces and the fixes can only shorten it, changing nothing when no pattern occurs |
| SpeechToText.ViramaOnePass | backend/services/speech_to_text.py:221 | `replace` makes one pass: three Telugu viramas become two, not one |
| SpeechToText.Clamp | backend/services/speech_to_text.py:252 | `min(1, max(0, x))` lies in [0, 1] and leaves values in [0, 1] alone |
| SpeechToText.SegmentConfidence | backend/services/speech_to_text.py:248-257 | a segment yields a confidence exactly when it has avg_logprob or no_speech_prob |
| SpeechToText.Confidences | backend/services/speech_to_text.py:247-257 | at most one confidence per segment |
| SpeechToText.Durations | backend/services/speech_to_text.py:266-268 | the i-th duration is end - start of the i-th segment, a missing field counting as 0 |
| SpeechToText.CalculateConfidence | backend/services/speech_to_text.py:233-272 | the loops compute exactly the confidence specification |
| SpeechToText.CollectConfidences | backend/services/speech_to_text.py:247-257 | the first loop collects exactly the segment confidences in order |
| SpeechToText.ConfidencesEmpty | backend/services/speech_to_text.py:247-260 | no confidence is collected exactly when no segment carries either field |
| SpeechToText.ConfidencesFrom | backend/services/speech_to_text.py:248-257 | every collected confidence is some segment's confidence |
| SpeechToText.ConfidenceDefault | backend/services/speech_to_text.py:243-260 | no segments, or none carrying a field, give 0.5 |
| SpeechToText.ConfidenceBounds | backend/services/speech_to_text.py:252-272 | with non-negative durations and no_speech_prob in [0, 1], the confidence lies in [0, 1] |
| SpeechToText.PairedByPosition | backend/services/speech_to_text.py:266-272 | confidences pair with segments by position: when the first segment is skipped, the second segment's confidence is weighted by the first segment's duration |
| SpeechToText.TranscriptFields | backend/services/speech_to_text.py:112-121 | is_south_indian_language holds exactly for ta/te/kn/ml; language_name is "Unknown" exactly when it does not; with no language anywhere the language is "unknown" |
| AudioProcessing.LastIndexOf | backend/utils/audio_processing.py:236 | the last position of the character, or -1 when there is none |
| AudioProcessing.Basename | backend/utils/audio_processing.py:315 | `os.path.basename` is the path's suffix after its last '/' |
| AudioProcessing.ExtensionSpec | backend/utils/audio_processing.py:236 | `os.path.splitext(p)[1]` is empty, or is a suffix of the final component that starts with its last dot, has no further dot, and is not a leading dot |
| AudioProcessing.ExtensionOfName | backend/utils/audio_processing.py:236 | dir/name.suffix has extension ".suffix" |
| AudioProcessing.HiddenNameHasNoExtension | backend/utils/audio_processing.py:236 | dir/.suffix, a hidden file, has no extension |
| AudioProcessing.ValidateAudioFile | backend/utils/audio_processing.py:212-267 | the step-by-step building of `results` with its early returns gives exactly the validation specification |
| AudioProcessing.CheckInfo | backend/utils/audio_processing.py:243-263 | the duration, sample-rate and file-size checks, applied in order to the information read, give exactly the specified errors, warnings and validity |
| AudioProcessing.ValidateMissing | backend/utils/audio_processing.py:231-233 | a missing file gives valid false, errors ["File does not exist"], no warnings, no info |
| AudioProcessing.ValidateUnsupported | backend/utils/audio_processing.py:236-239 | an extension that, lower-cased, is none of the six formats gives the single error "Unsupported format: <ext>" |
| AudioProcessing.ValidateInfoError | backend/utils/audio_processing.py:242-267 | a failure reading the audio info gives the single error "Error validating file: ...", valid false and no info |
| AudioProcessing.ValidateChecks | backend/utils/audio_processing.py:242-263 | valid iff duration >= 0.1; "too short" iff duration < 0.1; "very long" iff duration > 300; never both; low sample rate iff < 8000; large file iff > 50 MiB; at most one error and three warnings |
| AudioProcessing.ValidIffNoErrors | backend/utils/audio_processing.py:259-261 | valid holds exactly when there are no errors, and then the file exists, the format is supported and the info is attached |
| AudioProcessing.CleanupTempFiles | backend/utils/audio_processing.py:306-318 | exactly the listed existing paths whose basename contains "temp" are removed, apart from those whose deletion fails, in list order at their first occurrence; each removed once; a failure only warns |
| AudioProcessing.RemovalOrderSpec | backend/utils/audio_processing.py:313-316 | the in-order removal list holds exactly the listed removable paths, each once |
| AudioProcessing.EstimateSpec | backend/utils/audio_processing.py:334-347 | the estimate is 0.1 duration + 2.0, monotone in the duration, at least 2.0 for a non-negative duration, and 30.0 when the info cannot be read |
| CloudWatchMetrics.DimensionsOf | backend/cloudwatch_endpoint.py:55-59 | the given dimensions become Name/Value pairs, in order |
| CloudWatchMetrics.Entries | backend/cloudwatch_endpoint.py:45-69 | one entry per metric |
| CloudWatchMetrics.EntriesSpec | backend/cloudwatch_endpoint.py:45-67 | entry i has metric i's name, value and unit, and its timestamp or else the current time; its dimensions are the given ones in order, followed by exactly one `Source` = request source |
| CloudWatchMetrics.DefaultEntry | backend/cloudwatch_endpoint.py:23-67 | a metric with only a value is sent with unit "Count", the current time and the sole dimension Source = "frontend" |
| CloudWatchMetrics.Batches | backend/cloudwatch_endpoint.py:72-74 | there are ceil(n/20) batches |
| CloudWatchMetrics.FlattenPrefix | backend/cloudwatch_endpoint.py:73-74 | the first k batches concatenate to the first 20k entries |
| CloudWatchMetrics.BatchesSpec | backend/cloudwatch_endpoint.py:72-79 | ceil(n/20) batches, none for no entries; each holds 1 to 20 entries, all but the last exactly 20; in order they concatenate to the entries |
| CloudWatchMetrics.ReceiveMetrics | backend/cloudwatch_endpoint.py:35-91 | no client gives 503 and no put calls; otherwise the put calls are the batches in order, each under namespace "VoiceInsight", and success reports the number of metrics; a failing put call gives 500 "Failed to send metrics: ..." after the calls up to it |
| CloudWatchMetrics.BuildEntries | backend/cloudwatch_endpoint.py:43-69 | the loop builds exactly the entries, one per metric in request order |
| CloudWatchMetrics.SendBatches | backend/cloudwatch_endpoint.py:71-79 | the loop makes one put call per batch in order, and stops after the call that raises |
| CloudWatchMetrics.Calls | backend/cloudwatch_endpoint.py:76-79 | call j carries namespace "VoiceInsight" and batch j |
| Text.ContainsIff | backend/services/enhanced_emotion_analysis.py:112 | `p in s` holds exactly when p occurs at some position of s |
| Text.ReplaceAbsent | backend/services/speech_to_text.py:216-229 | `replace` changes nothing when the pattern does not occur |
| Text.ReplaceShrinks | backend/services/speech_to_text.py:216-229 | replacing by something shorter never lengthens the text, and changes it exactly when the pattern occurs |
| Text.LStrip | backend/services/speech_to_text.py:190 | the left strip drops exactly the leading whitespace |
| Text.RStrip | backend/services/speech_to_text.py:190 | the right strip drops exactly the trailing whitespace |
| Text.StripSpec | backend/services/speech_to_text.py:190 | `strip()` is the middle part of the text, with only whitespace around it and no whitespace at either end |
| Text.StripEmptyIffBlank | backend/services/sentiment_analysis.py:258 | the stripped text is empty exactly when the text is blank |
| Text.Split | backend/services/speech_to_text.py:211 | `split()` yields non-empty words with no whitespace |
| Text.SplitJoin | backend/services/speech_to_text.py:211 | splitting words joined by single spaces gives the words back |
| Text.SplitConcat | backend/services/speech_to_text.py:211 | the words of `split()`, concatenated, are the text with its whitespace removed |
| Text.SplitJoinCons | backend/services/speech_to_text.py:211 | a word followed by a round-tripping joined tail still round-trips |
| Text.JoinSingleSpaced | backend/services/speech_to_text.py:211 | words joined by single spaces are single-spaced with no leading space |
| Text.CollapseSpacesSpec | backend/services/speech_to_text.py:211 | `' '.join(text.split())` is single-spaced and keeps the words |
| Text.CollapseSpacesFixed | backend/services/sentiment_analysis.py:125 | a single-spaced text is left unchanged by collapsing |
| Text.CollapseSpacesIdempotent | backend/services/sentiment_analysis.py:125 | collapsing twice is collapsing once |
| Text.SplitRuns | backend/services/enhanced_emotion_analysis.py:96 | `re.split(r'[.!?]+', text)` gives at least one part, and no part holds a separator |
| Text.SplitEmptyIffBlank | backend/services/enhanced_emotion_analysis.py:100-104 | a blank sentence has no words |
| Text.CollapseSpacesChars | backend/services/sentiment_analysis.py:125 | collapsing adds no character other than a space |
| Dicts.Get | backend/services/enhanced_emotion_analysis.py:209-210 | a lookup fails exactly for an absent key, and otherwise returns a value stored under the key |
| Dicts.Set | backend/services/sentiment_analysis.py:353 | assigning to a key overwrites it in place when present and appends it otherwise |
| Dicts.SetGet | backend/services/sentiment_analysis.py:353 | after the assignment the key has the new value and the others are unchanged |
| Dicts.FromLiteralGet | backend/services/emotion_analysis.py:88-127 | a dict literal's value for a key is the last one written for it |
| Dicts.FromLiteralKeys | backend/services/emotion_analysis.py:88-127 | a dict literal's keys are in order of first appearance |
| Dicts.FromLiteralDistinct | backend/services/emotion_analysis.py:88-127 | a dict literal has distinct keys |
| Dicts.UpdateGet | backend/services/speech_to_text.py:146 | after `d.update(e)` a key has e's value when e has it and d's otherwise |
| Dicts.UpdateDisjoint | backend/services/speech_to_text.py:146-153 | updating with fresh keys appends them in order and keeps the old values |
| RealSeq.ArgMax | backend/services/sentiment_analysis.py:235 | `max(d, key=d.get)` picks the first maximal entry in insertion order |
| RealSeq.Max | backend/services/enhanced_emotion_analysis.py:232 | `max(values)` is a value at least as large as every value |
| RealSeq.Normalised | backend/services/emotion_analysis.py:151-152 | dividing non-negative scores by their positive total makes them sum to 1 |
| RealSeq.WeightedMeanBetween | backend/services/emotion_analysis.py:316-318 | a weighted mean with non-negative weights lies between the smallest and largest value |

## Left out

- Model loading and inference are inputs of the model, not modelled. These are the transformer pipelines, Whisper's `load_model`, `transcribe` and `detect_language`, VADER, TextBlob and the torch device check. The GPU flag is a parameter, and an analyzer call that raises is an `Err` or `None` input.
- `time.time()`, `datetime.utcnow()` and every `processing_time` field. The clock is one reading `now` in the metrics model. Processing times are not modelled.
- Floating-point rounding: scores are exact reals, so "sums to 1" is a property of the algorithm, not of IEEE-754 doubles.
- Unicode: `lower()` and `upper()` are ASCII-only. Python's `\w` is a parameter `isWord`. `str.isspace` is the fixed list of Unicode whitespace characters.
- The TextBlob polarity and subjectivity adjustment of the keyword scores (enhanced_emotion_analysis.py lines 133-153), which depends on a foreign analyzer. The keyword scores are the values before it.
- The `except` branches of both `analyze_emotions`, and `_get_error_response`. No modelled step of those methods raises.
- `get_analyzer_info`, `change_method`, `get_model_info`, `change_model`, `get_supported_emotions` and `get_supported_south_indian_languages`. They only report configuration.
- `get_supported_formats`: only the list itself (`SupportedFormats`) is modelled. That the caller gets a copy is not.
- The signal-processing functions of audio_processing.py: `get_audio_info`, `convert_to_wav`, `normalize_audio`, `enhance_audio_for_speech`, `_simple_noise_reduction`, `split_audio_by_silence` and `convert_for_whisper`. `get_audio_info`'s result, or its error message, is an input of `Validate` and `EstimateProcessingTime`.
- The file system in `validate_audio_file` and `cleanup_temp_files`. Existence is the input `fileExists` or the set `files`, and `os.remove` failures are the set `failing`. Paths are POSIX paths.
- `get_metrics_status`, logging, and the `print` and `logger` warnings.
- CloudWatchMetrics.ReceiveMetrics: the metrics are a list of name/metric pairs with distinct names, as the parsed dict holds them; a JSON body that repeats a name is not modelled. A failing `put_metric_data` call is given as its index and message. Other exceptions while building entries do not arise in the model. Dimension values are strings, so `str(value)` is the value itself.
- EnhancedEnsemble.AnalyzeResponse: for confidences above 0.4 it states only the "high" band exactly; QualityBands gives the "medium" band.
- SentimentService.Response: a successful response's emotions are recorded by the arguments of the enhanced analysis call, and the field is mapped to the response by `Response`.
- SpeechToText.PostProcessSpec: the language-specific fixes are proved only to shorten the collapsed text. That the text stays single-spaced after them is not proved.
- Emotions.FromName: the table lookup reads three letters of the name, then compares the whole name. It is proved equivalent to the dict membership test that the source performs.
- backend/main.py, backend/lambda_handler.py, backend/handler.py, backend/setup.py and backend/app/__init__.py are not part of this model. They hold routing, I/O and installer code. backend/models/schemas.py only guided the record shapes.
