/**
 * The transcript post-processing of the speech service
 * (backend/services/speech_to_text.py): the confidence drawn from Whisper's
 * segments, the whitespace and virama cleanup for Tamil, Telugu, Kannada and
 * Malayalam, the decoding options and prompts per language, and the
 * language fields of the transcription result. Whisper itself is not
 * modelled: its text, language and segments are inputs.
 */
module SpeechToText {
  import opened Wrappers
  import opened Text
  import Dicts
  import RealSeq
  import EnhancedEnsemble

  // ---------------------------------------------------------------------
  // The South Indian language table

  /** `supported_south_indian_languages` */
  function SouthIndianLanguages(): Dicts.Dict<string> {
    [("ta", "Tamil"), ("te", "Telugu"), ("kn", "Kannada"), ("ml", "Malayalam")]
  }

  /** `language_code in self.supported_south_indian_languages`; an absent code is in no table. */
  predicate IsSouthIndian(languageCode: Option<string>) {
    languageCode.Some? && Dicts.HasKey(SouthIndianLanguages(), languageCode.value)
  }

  /** `self.supported_south_indian_languages.get(language_code, "Unknown")` */
  function LanguageName(languageCode: Option<string>): string {
    if languageCode.None? then "Unknown" else Dicts.GetOr(SouthIndianLanguages(), languageCode.value, "Unknown")
  }

  /** The flag holds for exactly the four codes, and the name is "Unknown" exactly when it does not. */
  lemma SouthIndianFields(languageCode: Option<string>)
    ensures IsSouthIndian(languageCode) <==>
      languageCode == Some("ta") || languageCode == Some("te") || languageCode == Some("kn") || languageCode == Some("ml")
    ensures languageCode == Some("ta") ==> LanguageName(languageCode) == "Tamil"
    ensures languageCode == Some("te") ==> LanguageName(languageCode) == "Telugu"
    ensures languageCode == Some("kn") ==> LanguageName(languageCode) == "Kannada"
    ensures languageCode == Some("ml") ==> LanguageName(languageCode) == "Malayalam"
    ensures LanguageName(languageCode) == "Unknown" <==> !IsSouthIndian(languageCode)
  {
    var t := SouthIndianLanguages();
    assert Dicts.Keys(t) == ["ta", "te", "kn", "ml"];
    if languageCode.Some? {
      Dicts.HasKeyIff(t, languageCode.value);
      Dicts.FromKeysGet(t, languageCode.value);
    }
  }

  // ---------------------------------------------------------------------
  // `_get_language_prompt` and `_get_transcription_options`

  /** The `prompts` literal of `_get_language_prompt`. */
  function Prompts(): Dicts.Dict<string> {
    [("ta", "\U{0BA4}\U{0BAE}\U{0BBF}\U{0BB4}\U{0BCD} \U{0BAE}\U{0BCA}\U{0BB4}\U{0BBF}\U{0BAF}\U{0BBF}\U{0BB2}\U{0BCD} \U{0BAA}\U{0BC7}\U{0B9A}\U{0BC1}\U{0B95}\U{0BBF}\U{0BB1}\U{0BBE}\U{0BB0}\U{0BCD}\U{0B95}\U{0BB3}\U{0BCD}."),
     ("te", "\U{0C24}\U{0C46}\U{0C32}\U{0C41}\U{0C17}\U{0C41} \U{0C2D}\U{0C3E}\U{0C37}\U{0C32}\U{0C4B} \U{0C2E}\U{0C3E}\U{0C1F}\U{0C4D}\U{0C32}\U{0C3E}\U{0C21}\U{0C41}\U{0C24}\U{0C41}\U{0C28}\U{0C4D}\U{0C28}\U{0C3E}\U{0C30}\U{0C41}."),
     ("kn", "\U{0C95}\U{0CA8}\U{0CCD}\U{0CA8}\U{0CA1} \U{0CAD}\U{0CBE}\U{0CB7}\U{0CC6}\U{0CAF}\U{0CB2}\U{0CCD}\U{0CB2}\U{0CBF} \U{0CAE}\U{0CBE}\U{0CA4}\U{0CA8}\U{0CBE}\U{0CA1}\U{0CC1}\U{0CA4}\U{0CCD}\U{0CA4}\U{0CBF}\U{0CA6}\U{0CCD}\U{0CA6}\U{0CBE}\U{0CB0}\U{0CC6}."),
     ("ml", "\U{0D2E}\U{0D32}\U{0D2F}\U{0D3E}\U{0D33}\U{0D02} \U{0D2D}\U{0D3E}\U{0D37}\U{0D2F}\U{0D3F}\U{0D7D} \U{0D38}\U{0D02}\U{0D38}\U{0D3E}\U{0D30}\U{0D3F}\U{0D15}\U{0D4D}\U{0D15}\U{0D41}\U{0D28}\U{0D4D}\U{0D28}\U{0D41}.")]
  }

  /** `_get_language_prompt`: the language's prompt, or "" for a code without one. */
  function LanguagePrompt(languageCode: string): string {
    Dicts.GetOr(Prompts(), languageCode, "")
  }

  /** The prompt is empty exactly for the codes outside the table, and ends with a full stop otherwise. */
  lemma PromptSpec(languageCode: string)
    ensures LanguagePrompt(languageCode) == "" <==> !IsSouthIndian(Some(languageCode))
    ensures IsSouthIndian(Some(languageCode)) ==>
      |LanguagePrompt(languageCode)| > 1 && LanguagePrompt(languageCode)[|LanguagePrompt(languageCode)| - 1] == '.'
  {
    SouthIndianFields(Some(languageCode));
    PromptsShape();
    Dicts.HasKeyIff(Prompts(), languageCode);
    if Dicts.HasKey(Prompts(), languageCode) {
      PromptFound(languageCode);
    }
  }

  /** A code of the table gets that entry's prompt. */
  lemma PromptFound(languageCode: string)
    requires Dicts.HasKey(Prompts(), languageCode)
    ensures |LanguagePrompt(languageCode)| > 1 && LanguagePrompt(languageCode)[|LanguagePrompt(languageCode)| - 1] == '.'
  {
    var p := Prompts();
    PromptsShape();
    var r := Dicts.Get(p, languageCode);
    Dicts.HasKeyIff(p, languageCode);
    var i :| 0 <= i < |p| && p[i] == (languageCode, r.value);
    assert |p[i].1| > 1 && p[i].1[|p[i].1| - 1] == '.';
  }

  /** The prompt table has the four South Indian codes, and every prompt ends with a full stop. */
  lemma PromptsShape()
    ensures Dicts.Keys(Prompts()) == ["ta", "te", "kn", "ml"]
    ensures forall i | 0 <= i < |Prompts()| :: |Prompts()[i].1| > 1 && Prompts()[i].1[|Prompts()[i].1| - 1] == '.'
  {
  }

  /** A decoding option's value. */
  datatype OptionValue = BoolValue(b: bool) | StrValue(s: string) | RealValue(r: real) | IntValue(i: int) | IntsValue(ints: seq<int>)

  /** `base_options`, with `torch.cuda.is_available()` as the parameter `gpu`. */
  function BaseOptions(gpu: bool): Dicts.Dict<OptionValue> {
    [("fp16", BoolValue(gpu)), ("task", StrValue("transcribe")), ("verbose", BoolValue(false)), ("temperature", RealValue(0.0))]
  }

  /** The beam-search options added for a South Indian language. */
  function BeamOptions(languageCode: string): Dicts.Dict<OptionValue> {
    [("beam_size", IntValue(5)), ("best_of", IntValue(5)), ("patience", RealValue(1.0)),
     ("length_penalty", RealValue(1.0)), ("suppress_tokens", IntsValue([-1])),
     ("initial_prompt", StrValue(LanguagePrompt(languageCode)))]
  }

  /** The options `_get_transcription_options` returns. */
  function TranscriptionOptions(languageCode: Option<string>, gpu: bool): Dicts.Dict<OptionValue> {
    if IsSouthIndian(languageCode) then Dicts.Update(BaseOptions(gpu), BeamOptions(languageCode.value))
    else BaseOptions(gpu)
  }

  /** `_get_transcription_options`: the base options, updated in place with the beam options for a South Indian code. */
  method GetTranscriptionOptions(languageCode: Option<string>, gpu: bool) returns (baseOptions: Dicts.Dict<OptionValue>)
    ensures baseOptions == TranscriptionOptions(languageCode, gpu)
  {
    baseOptions := BaseOptions(gpu);
    if IsSouthIndian(languageCode) {
      var extra := BeamOptions(languageCode.value);
      for k := 0 to |extra|
        invariant baseOptions == Dicts.Update(BaseOptions(gpu), extra[..k])
      {
        assert extra[..k + 1][..k] == extra[..k];
        baseOptions := Dicts.Set(baseOptions, extra[k].0, extra[k].1);
      }
      assert extra[..|extra|] == extra;
    }
  }

  /** The keys of the options: the four base keys, followed by the six beam keys for a South Indian code. */
  function OptionKeys(southIndian: bool): seq<string> {
    ["fp16", "task", "verbose", "temperature"] +
    if southIndian then ["beam_size", "best_of", "patience", "length_penalty", "suppress_tokens", "initial_prompt"] else []
  }

  /** The options of a South Indian code are the base options updated with its beam options, over disjoint keys. */
  lemma SouthIndianOptions(languageCode: string, gpu: bool)
    ensures var o := Dicts.Update(BaseOptions(gpu), BeamOptions(languageCode));
      Dicts.Keys(o) == OptionKeys(true) &&
      (forall q | q in OptionKeys(false) :: Dicts.Get(o, q) == Dicts.Get(BaseOptions(gpu), q)) &&
      (forall q | q in Dicts.Keys(BeamOptions(languageCode)) :: Dicts.Get(o, q) == Dicts.Get(BeamOptions(languageCode), q))
  {
    BaseOptionsKeys(gpu);
    BeamOptionsKeys(languageCode);
    BeamKeysFresh();
    Dicts.UpdateDisjoint(BaseOptions(gpu), BeamOptions(languageCode));
  }

  /** The options hold the four base keys, followed by the six beam keys exactly for a South Indian code. */
  lemma OptionsKeysSpec(languageCode: Option<string>, gpu: bool)
    ensures Dicts.Keys(TranscriptionOptions(languageCode, gpu)) == OptionKeys(IsSouthIndian(languageCode))
  {
    BaseOptionsKeys(gpu);
    if IsSouthIndian(languageCode) {
      SouthIndianOptions(languageCode.value, gpu);
    }
  }

  /** The options always hold fp16 equal to the GPU flag, task "transcribe", verbose false and temperature 0.0. */
  lemma OptionsBaseSpec(languageCode: Option<string>, gpu: bool)
    ensures var o := TranscriptionOptions(languageCode, gpu);
      Dicts.Get(o, "fp16") == Some(BoolValue(gpu)) && Dicts.Get(o, "task") == Some(StrValue("transcribe")) &&
      Dicts.Get(o, "verbose") == Some(BoolValue(false)) && Dicts.Get(o, "temperature") == Some(RealValue(0.0))
  {
    BaseOptionsGet(gpu);
    if IsSouthIndian(languageCode) {
      SouthIndianOptions(languageCode.value, gpu);
    }
  }

  /** For a South Indian code the options also hold the beam-search settings and the language's prompt. */
  lemma OptionsBeamSpec(languageCode: Option<string>, gpu: bool)
    requires IsSouthIndian(languageCode)
    ensures var o := TranscriptionOptions(languageCode, gpu);
      Dicts.Get(o, "beam_size") == Some(IntValue(5)) && Dicts.Get(o, "best_of") == Some(IntValue(5)) &&
      Dicts.Get(o, "patience") == Some(RealValue(1.0)) && Dicts.Get(o, "length_penalty") == Some(RealValue(1.0)) &&
      Dicts.Get(o, "suppress_tokens") == Some(IntsValue([-1])) &&
      Dicts.Get(o, "initial_prompt") == Some(StrValue(LanguagePrompt(languageCode.value)))
  {
    BeamOptionsGet(languageCode.value);
    SouthIndianOptions(languageCode.value, gpu);
    BeamOptionsKeys(languageCode.value);
  }

  /** No beam key is a base key. */
  lemma BeamKeysFresh()
    ensures forall k | k in ["beam_size", "best_of", "patience", "length_penalty", "suppress_tokens", "initial_prompt"] ::
      k !in ["fp16", "task", "verbose", "temperature"]
  {
  }

  /** The base options have four distinct keys. */
  lemma BaseOptionsKeys(gpu: bool)
    ensures Dicts.DistinctKeys(BaseOptions(gpu))
    ensures Dicts.Keys(BaseOptions(gpu)) == ["fp16", "task", "verbose", "temperature"]
  {
  }

  /** The values of the base options. */
  lemma BaseOptionsGet(gpu: bool)
    ensures var b := BaseOptions(gpu);
      Dicts.Get(b, "fp16") == Some(BoolValue(gpu)) && Dicts.Get(b, "task") == Some(StrValue("transcribe")) &&
      Dicts.Get(b, "verbose") == Some(BoolValue(false)) && Dicts.Get(b, "temperature") == Some(RealValue(0.0))
  {
    var b := BaseOptions(gpu);
    BaseOptionsKeys(gpu);
    Dicts.GetAt(b, 0);
    Dicts.GetAt(b, 1);
    Dicts.GetAt(b, 2);
    Dicts.GetAt(b, 3);
  }

  /** The beam options have six distinct keys. */
  lemma BeamOptionsKeys(languageCode: string)
    ensures Dicts.DistinctKeys(BeamOptions(languageCode))
    ensures Dicts.Keys(BeamOptions(languageCode)) ==
      ["beam_size", "best_of", "patience", "length_penalty", "suppress_tokens", "initial_prompt"]
  {
  }

  /** The values of the beam options. */
  lemma BeamOptionsGet(languageCode: string)
    ensures var e := BeamOptions(languageCode);
      Dicts.Get(e, "beam_size") == Some(IntValue(5)) && Dicts.Get(e, "best_of") == Some(IntValue(5)) &&
      Dicts.Get(e, "patience") == Some(RealValue(1.0)) && Dicts.Get(e, "length_penalty") == Some(RealValue(1.0)) &&
      Dicts.Get(e, "suppress_tokens") == Some(IntsValue([-1])) &&
      Dicts.Get(e, "initial_prompt") == Some(StrValue(LanguagePrompt(languageCode)))
  {
    var e := BeamOptions(languageCode);
    BeamOptionsKeys(languageCode);
    Dicts.GetAt(e, 0);
    Dicts.GetAt(e, 1);
    Dicts.GetAt(e, 2);
    Dicts.GetAt(e, 3);
    Dicts.GetAt(e, 4);
    Dicts.GetAt(e, 5);
  }

  // ---------------------------------------------------------------------
  // `_post_process_text` and `_clean_south_indian_text`

  const TamilU: char := '\U{0BC1}'
  const TamilI: char := '\U{0BBF}'
  const TamilVirama: char := '\U{0BCD}'
  const TeluguVirama: char := '\U{0C4D}'
  const KannadaVirama: char := '\U{0CCD}'
  const MalayalamVirama: char := '\U{0D4D}'

  /** The replacements of `_clean_south_indian_text` for one language, in the order they run. */
  function Fixes(languageCode: string): seq<(string, string)> {
    if languageCode == "ta" then [([TamilU, TamilVirama], [TamilU]), ([TamilI, TamilVirama], [TamilI])]
    else if languageCode == "te" then [([TeluguVirama, TeluguVirama], [TeluguVirama])]
    else if languageCode == "kn" then [([KannadaVirama, KannadaVirama], [KannadaVirama])]
    else if languageCode == "ml" then [([MalayalamVirama, MalayalamVirama], [MalayalamVirama])]
    else []
  }

  /** `text.replace(o, n)` for each fix in turn. */
  function ApplyFixes(text: string, fixes: seq<(string, string)>): string
    requires forall k | 0 <= k < |fixes| :: fixes[k].0 != []
    decreases |fixes|
  {
    if fixes == [] then text else ApplyFixes(Replace(text, fixes[0].0, fixes[0].1), fixes[1..])
  }

  /** `_clean_south_indian_text`: collapse whitespace, then the language's replacements. */
  function CleanSouthIndianText(text: string, languageCode: string): string {
    ApplyFixes(CollapseSpaces(text), Fixes(languageCode))
  }

  /** `_post_process_text`: empty text as it is; otherwise stripped, and cleaned for a South Indian code. */
  function PostProcessText(text: string, languageCode: Option<string>): string {
    if text == [] then text
    else
      var processedText := Strip(text);
      if IsSouthIndian(languageCode) then CleanSouthIndianText(processedText, languageCode.value) else processedText
  }

  /** Every fix replaces a pair of characters by its first character. */
  lemma FixesShape(languageCode: string)
    ensures forall k | 0 <= k < |Fixes(languageCode)| ::
      |Fixes(languageCode)[k].0| == 2 && Fixes(languageCode)[k].1 == Fixes(languageCode)[k].0[..1]
  {
  }

  /** Fixes that shorten their pattern never lengthen the text, and change nothing when no pattern occurs. */
  lemma {:induction false} ApplyFixesShrinks(text: string, fixes: seq<(string, string)>)
    requires forall k | 0 <= k < |fixes| :: fixes[k].0 != [] && |fixes[k].1| < |fixes[k].0|
    ensures |ApplyFixes(text, fixes)| <= |text|
    ensures (forall k | 0 <= k < |fixes| :: !Contains(text, fixes[k].0)) ==> ApplyFixes(text, fixes) == text
    decreases |fixes|
  {
    if fixes != [] {
      var t := Replace(text, fixes[0].0, fixes[0].1);
      ReplaceShrinks(text, fixes[0].0, fixes[0].1);
      ApplyFixesShrinks(t, fixes[1..]);
      if forall k | 0 <= k < |fixes| :: !Contains(text, fixes[k].0) {
        assert t == text;
        assert forall k | 0 <= k < |fixes[1..]| :: fixes[1..][k] == fixes[k + 1];
      }
    }
  }

  /**
   * `_post_process_text`: empty text is returned as it is; other codes get
   * the stripped text; a South Indian code gets the stripped text with its
   * whitespace runs collapsed to single spaces, then the replacements, which
   * never lengthen it and leave it unchanged when no pattern occurs.
   */
  lemma PostProcessSpec(text: string, languageCode: Option<string>)
    ensures text == [] ==> PostProcessText(text, languageCode) == []
    ensures text != [] && !IsSouthIndian(languageCode) ==> PostProcessText(text, languageCode) == Strip(text)
    ensures text != [] && IsSouthIndian(languageCode) ==>
      var c := CollapseSpaces(Strip(text));
      SingleSpaced(c) && |PostProcessText(text, languageCode)| <= |c| &&
      ((forall k | 0 <= k < |Fixes(languageCode.value)| :: !Contains(c, Fixes(languageCode.value)[k].0)) ==>
        PostProcessText(text, languageCode) == c)
  {
    if text != [] && IsSouthIndian(languageCode) {
      CollapseSpacesSpec(Strip(text));
      FixesShape(languageCode.value);
      ApplyFixesShrinks(CollapseSpaces(Strip(text)), Fixes(languageCode.value));
    }
  }

  /** One pass only: the Telugu replacement turns a tripled virama into a doubled one, not a single one. */
  lemma ViramaOnePass()
    ensures ApplyFixes([TeluguVirama, TeluguVirama, TeluguVirama], Fixes("te")) == [TeluguVirama, TeluguVirama]
  {
    var v := TeluguVirama;
    assert [v, v, v][..2] == [v, v] && [v, v, v][2..] == [v];
    assert Replace([v], [v, v], [v]) == [v];
  }

  // ---------------------------------------------------------------------
  // `_calculate_confidence`

  /** A Whisper segment, with the fields the confidence reads; an absent key is `None`. */
  datatype Segment = Segment(avgLogprob: Option<real>, noSpeechProb: Option<real>, start: Option<real>, end: Option<real>)

  /** `min(1.0, max(0.0, x))` */
  function Clamp(x: real): (c: real)
    ensures 0.0 <= c <= 1.0
    ensures 0.0 <= x <= 1.0 ==> c == x
  {
    if x > 1.0 then 1.0 else if x < 0.0 then 0.0 else x
  }

  /** A segment's confidence: from `avg_logprob` when present, else from `no_speech_prob`, else none. */
  function SegmentConfidence(s: Segment): (c: Option<real>)
    ensures c.Some? <==> s.avgLogprob.Some? || s.noSpeechProb.Some?
  {
    if s.avgLogprob.Some? then Some(Clamp(s.avgLogprob.value + 1.0))
    else if s.noSpeechProb.Some? then Some(1.0 - s.noSpeechProb.value)
    else None
  }

  /** The list `confidences`: the confidences of the segments that carry one, in order. */
  function Confidences(segs: seq<Segment>): (cs: seq<real>)
    ensures |cs| <= |segs|
    decreases |segs|
  {
    if segs == [] then []
    else
      var c := SegmentConfidence(segs[|segs| - 1]);
      Confidences(segs[..|segs| - 1]) + if c.Some? then [c.value] else []
  }

  /** `segment.get("end", 0) - segment.get("start", 0)` */
  function Duration(s: Segment): real {
    s.end.GetOr(0.0) - s.start.GetOr(0.0)
  }

  /** The durations of the first `k` segments: the `i`-th confidence is weighted by the `i`-th segment. */
  function Durations(segs: seq<Segment>, k: nat): (ds: seq<real>)
    requires k <= |segs|
    ensures |ds| == k && forall i | 0 <= i < k :: ds[i] == Duration(segs[i])
  {
    seq(k, i requires 0 <= i < k => Duration(segs[i]))
  }

  /** The confidence `_calculate_confidence` returns for the segments. */
  function ConfidenceSpec(segs: seq<Segment>): real {
    var cs := Confidences(segs);
    if segs == [] || cs == [] then 0.5
    else
      var ds := Durations(segs, |cs|);
      var totalDuration := RealSeq.Sum(ds);
      if totalDuration > 0.0 then RealSeq.Dot(cs, ds) / totalDuration
      else RealSeq.Sum(cs) / |cs| as real
  }

  /**
   * `_calculate_confidence`: 0.5 without segments or without any segment
   * that carries a confidence; otherwise the collected confidences weighted
   * by the durations of the segments at the same positions, or their plain
   * mean when those durations total no more than zero.
   */
  method CalculateConfidence(segments: seq<Segment>) returns (confidence: real)
    ensures confidence == ConfidenceSpec(segments)
  {
    if segments == [] {
      return 0.5;
    }
    var confidences := CollectConfidences(segments);
    if confidences == [] {
      return 0.5;
    }
    ghost var ds := Durations(segments, |confidences|);
    var weightedConfidence := 0.0;
    var totalDuration := 0.0;
    for i := 0 to |segments|
      invariant i <= |confidences| ==> weightedConfidence == RealSeq.Dot(confidences[..i], ds[..i]) && totalDuration == RealSeq.Sum(ds[..i])
      invariant i > |confidences| ==> weightedConfidence == RealSeq.Dot(confidences, ds) && totalDuration == RealSeq.Sum(ds)
    {
      if i == |confidences| {
        assert confidences[..i] == confidences && ds[..i] == ds;
      }
      if i < |confidences| {
        var duration := segments[i].end.GetOr(0.0) - segments[i].start.GetOr(0.0);
        RealSeq.DotStep(confidences, ds, i);
        RealSeq.SumStep(ds, i);
        weightedConfidence := weightedConfidence + RealSeq.Mul(confidences[i], duration);
        totalDuration := totalDuration + duration;
      }
      if i + 1 == |confidences| {
        assert confidences[..i + 1] == confidences && ds[..i + 1] == ds;
      }
    }
    if |segments| == |confidences| {
      assert confidences[..|segments|] == confidences && ds[..|segments|] == ds;
    }
    if totalDuration > 0.0 {
      confidence := weightedConfidence / totalDuration;
    } else {
      confidence := RealSeq.Sum(confidences) / |confidences| as real;
    }
  }

  /** The first loop of `_calculate_confidence`, appending each segment's confidence when it has one. */
  method CollectConfidences(segments: seq<Segment>) returns (confidences: seq<real>)
    ensures confidences == Confidences(segments)
  {
    confidences := [];
    for i := 0 to |segments|
      invariant confidences == Confidences(segments[..i])
    {
      assert segments[..i + 1][..i] == segments[..i];
      var segment := segments[i];
      if segment.avgLogprob.Some? {
        var confidence := Clamp(segment.avgLogprob.value + 1.0);
        confidences := confidences + [confidence];
      } else if segment.noSpeechProb.Some? {
        var confidence := 1.0 - segment.noSpeechProb.value;
        confidences := confidences + [confidence];
      }
    }
    assert segments[..|segments|] == segments;
  }

  /** No confidence is collected exactly when no segment carries `avg_logprob` or `no_speech_prob`. */
  lemma {:induction false} ConfidencesEmpty(segs: seq<Segment>)
    ensures Confidences(segs) == [] <==>
      forall i | 0 <= i < |segs| :: segs[i].avgLogprob.None? && segs[i].noSpeechProb.None?
  {
    if segs != [] {
      var n := |segs| - 1;
      ConfidencesEmpty(segs[..n]);
      assert forall i | 0 <= i < n :: segs[..n][i] == segs[i];
    }
  }

  /** Each collected confidence is the confidence of some segment. */
  lemma {:induction false} ConfidencesFrom(segs: seq<Segment>)
    ensures forall k | 0 <= k < |Confidences(segs)| ::
      exists i | 0 <= i < |segs| :: SegmentConfidence(segs[i]) == Some(Confidences(segs)[k])
  {
    if segs == [] {
      assert Confidences(segs) == [];
    } else {
      var n := |segs| - 1;
      ConfidencesFrom(segs[..n]);
      var cs := Confidences(segs);
      var p := Confidences(segs[..n]);
      var c := SegmentConfidence(segs[n]);
      assert cs == p + if c.Some? then [c.value] else [];
      forall k | 0 <= k < |cs| ensures exists i | 0 <= i < |segs| :: SegmentConfidence(segs[i]) == Some(cs[k]) {
        if k < |p| {
          assert cs[k] == p[k];
          var i :| 0 <= i < n && SegmentConfidence(segs[..n][i]) == Some(p[k]);
          assert segs[..n][i] == segs[i];
          assert SegmentConfidence(segs[i]) == Some(cs[k]);
        } else {
          assert c.Some? && cs[k] == c.value;
          assert SegmentConfidence(segs[n]) == Some(cs[k]);
        }
      }
      assert cs == Confidences(segs);
    }
  }

  /** No segments, or none carrying a confidence, give 0.5. */
  lemma ConfidenceDefault(segs: seq<Segment>)
    requires forall i | 0 <= i < |segs| :: segs[i].avgLogprob.None? && segs[i].noSpeechProb.None?
    ensures ConfidenceSpec(segs) == 0.5
  {
    ConfidencesEmpty(segs);
  }

  /**
   * With durations that are not negative and every `no_speech_prob` that is
   * used within [0, 1], the confidence lies in [0, 1]; in particular when
   * every segment has `avg_logprob`.
   */
  lemma ConfidenceBounds(segs: seq<Segment>)
    requires forall i | 0 <= i < |segs| :: Duration(segs[i]) >= 0.0
    requires forall i | 0 <= i < |segs| && segs[i].avgLogprob.None? && segs[i].noSpeechProb.Some? ::
      0.0 <= segs[i].noSpeechProb.value <= 1.0
    ensures 0.0 <= ConfidenceSpec(segs) <= 1.0
  {
    var cs := Confidences(segs);
    if segs != [] && cs != [] {
      ConfidencesFrom(segs);
      assert forall k | 0 <= k < |cs| :: 0.0 <= cs[k] <= 1.0 by {
        forall k | 0 <= k < |cs| ensures 0.0 <= cs[k] <= 1.0 {
          var i :| 0 <= i < |segs| && SegmentConfidence(segs[i]) == Some(cs[k]);
        }
      }
      var ds := Durations(segs, |cs|);
      if RealSeq.Sum(ds) > 0.0 {
        RealSeq.WeightedMeanBetween(cs, ds, 0.0, 1.0);
      } else {
        RealSeq.SumBounds(cs, 0.0, 1.0);
        RealSeq.QuotientBetween(RealSeq.Sum(cs), |cs| as real, 0.0, 1.0);
      }
    }
  }

  /**
   * The pairing is by position: when a segment without a confidence comes
   * first, the first confidence is weighted by that segment's duration. Here
   * confidences 1.0 and 0.0 from segments lasting 1 and 3 are weighted by
   * durations 1 and 1, giving 0.5.
   */
  lemma PairedByPosition()
    ensures ConfidenceSpec([
      Segment(None, None, Some(0.0), Some(1.0)),
      Segment(Some(0.0), None, Some(1.0), Some(2.0)),
      Segment(Some(-1.0), None, Some(2.0), Some(5.0))]) == 0.5
  {
    var segs := [
      Segment(None, None, Some(0.0), Some(1.0)),
      Segment(Some(0.0), None, Some(1.0), Some(2.0)),
      Segment(Some(-1.0), None, Some(2.0), Some(5.0))];
    assert Confidences(segs[..1]) == [] by {
      assert segs[..1][..0] == [];
    }
    assert Confidences(segs[..2]) == [1.0] by {
      assert segs[..2][..1] == segs[..1];
    }
    assert Confidences(segs) == [1.0, 0.0] by {
      assert segs[..|segs| - 1] == segs[..2];
    }
    var ds := Durations(segs, 2);
    assert ds == [1.0, 1.0];
    PairedArithmetic(ds);
  }

  lemma PairedArithmetic(ds: seq<real>)
    requires ds == [1.0, 1.0]
    ensures RealSeq.Sum(ds) == 2.0 && RealSeq.Dot([1.0, 0.0], ds) == 1.0
  {
    var cs := [1.0, 0.0];
    RealSeq.SumStep(ds, 0);
    RealSeq.SumStep(ds, 1);
    RealSeq.DotStep(cs, ds, 0);
    RealSeq.DotStep(cs, ds, 1);
    assert ds[..0] == [] && cs[..0] == [] && ds[..2] == ds && cs[..2] == cs;
  }

  // ---------------------------------------------------------------------
  // `transcribe_audio`'s result

  /** The fields of `transcribe_audio`'s result that are computed from Whisper's output. */
  datatype Transcript = Transcript(
    text: string, originalText: string, language: string, confidence: real,
    isSouthIndian: bool, languageName: string)

  /** The code used: the detected one when auto-detection is on and no code was given (`not language_code`). */
  function EffectiveCode(languageCode: Option<string>, autoDetect: bool, detected: string): Option<string> {
    if autoDetect && (languageCode.None? || languageCode.value == []) then Some(detected) else languageCode
  }

  /**
   * `transcribe_audio`'s result, given Whisper's text, language (if any) and
   * segments and the code language detection gives.
   */
  function TranscribeSpec(whisperText: string, whisperLanguage: Option<string>, segments: seq<Segment>,
                          languageCode: Option<string>, autoDetect: bool, detected: string): (t: Transcript)
  {
    var code := EffectiveCode(languageCode, autoDetect, detected);
    Transcript(PostProcessText(whisperText, code), Strip(whisperText),
      whisperLanguage.GetOr(EnhancedEnsemble.LanguageOr(code)), ConfidenceSpec(segments),
      IsSouthIndian(code), LanguageName(code))
  }

  /**
   * The result's South Indian flag and name follow the code used, and its
   * language falls back to that code, or "unknown" without one, when
   * Whisper reports none.
   */
  lemma TranscriptFields(whisperText: string, whisperLanguage: Option<string>, segments: seq<Segment>,
                         languageCode: Option<string>, autoDetect: bool, detected: string)
    ensures var t := TranscribeSpec(whisperText, whisperLanguage, segments, languageCode, autoDetect, detected);
      var code := EffectiveCode(languageCode, autoDetect, detected);
      (t.isSouthIndian <==> code in {Some("ta"), Some("te"), Some("kn"), Some("ml")}) &&
      (t.languageName == "Unknown" <==> !t.isSouthIndian) &&
      (whisperLanguage.None? && (code.None? || code.value == []) ==> t.language == "unknown")
  {
    SouthIndianFields(EffectiveCode(languageCode, autoDetect, detected));
  }
}
