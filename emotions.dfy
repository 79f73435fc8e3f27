/**
 * The table of 23 precise emotions that both emotion services share: each
 * emotion's name, category and intensity, in the table's order. Score
 * dictionaries over the emotions are vectors aligned with `All`.
 */
module Emotions {
  import opened Wrappers

  datatype Emotion =
    | Anxious | Angry | Sad | Happy | Hate | Satisfaction | Gratitude | Reproach
    | Distress | Pride | Fear | Mildness | Pity | Boredom | Shame | Disappointment
    | Hope | Resentment | Love | Gloating | Anger | Relief | Admiration

  datatype Category = Positive | Negative | Neutral
  datatype Intensity = Low | Medium | High

  const N := 23

  /** The emotions in the order of the table (and of every score dict built from it). */
  function All(): (es: seq<Emotion>)
    ensures |es| == N
  {
    [Anxious, Angry, Sad, Happy, Hate, Satisfaction, Gratitude, Reproach,
     Distress, Pride, Fear, Mildness, Pity, Boredom, Shame, Disappointment,
     Hope, Resentment, Love, Gloating, Anger, Relief, Admiration]
  }

  /** Position of an emotion in the table. */
  function Index(e: Emotion): (i: nat)
    ensures i < N && All()[i] == e
  {
    match e
    case Anxious => 0 case Angry => 1 case Sad => 2 case Happy => 3
    case Hate => 4 case Satisfaction => 5 case Gratitude => 6 case Reproach => 7
    case Distress => 8 case Pride => 9 case Fear => 10 case Mildness => 11
    case Pity => 12 case Boredom => 13 case Shame => 14 case Disappointment => 15
    case Hope => 16 case Resentment => 17 case Love => 18 case Gloating => 19
    case Anger => 20 case Relief => 21 case Admiration => 22
  }

  /** Each emotion appears once in the table. */
  lemma IndexOfAll(i: nat)
    requires i < N
    ensures Index(All()[i]) == i
  {
  }

  function Name(e: Emotion): string {
    match e
    case Anxious => "anxious" case Angry => "angry" case Sad => "sad"
    case Happy => "happy" case Hate => "hate" case Satisfaction => "satisfaction"
    case Gratitude => "gratitude" case Reproach => "reproach" case Distress => "distress"
    case Pride => "pride" case Fear => "fear" case Mildness => "mildness"
    case Pity => "pity" case Boredom => "boredom" case Shame => "shame"
    case Disappointment => "disappointment" case Hope => "hope"
    case Resentment => "resentment" case Love => "love" case Gloating => "gloating"
    case Anger => "anger" case Relief => "relief" case Admiration => "admiration"
  }

  /**
   * `name in precise_emotions`, and the emotion it names. The lookup finds
   * the one table entry whose name could be `s` from three of its letters,
   * then compares the whole name.
   */
  function FromName(s: string): (r: Option<Emotion>)
    ensures r.Some? ==> Name(r.value) == s
  {
    var i := IndexByLetters(s);
    if 0 <= i < N && Name(All()[i]) == s then Some(All()[i]) else None
  }

  /** A name `FromName` does not recognise is no emotion's name. */
  lemma FromNameNone(s: string)
    requires FromName(s).None?
    ensures forall e :: Name(e) != s
  {
    forall e ensures Name(e) != s {
      if Name(e) == s {
        IndexByLettersOfName(e);
      }
    }
  }

  /**
   * The table position of an emotion read off three letters of its name:
   * the first, the second and the last tell the 23 names apart; -1 for
   * a name too short to have them.
   */
  function IndexByLetters(s: string): int {
    if |s| < 3 then -1 else
    var (a, b, z) := (s[0], s[1], s[|s| - 1]);
    if a == 'a' then (if b == 'n' then (if z == 's' then 0 else if z == 'y' then 1 else 20) else 22)
    else if a == 's' then (if b == 'a' then (if z == 'd' then 2 else 5) else 14)
    else if a == 'h' then (if b == 'a' then (if z == 'y' then 3 else 4) else 16)
    else if a == 'g' then (if b == 'r' then 6 else 19)
    else if a == 'r' then (if z == 'h' then 7 else if z == 't' then 17 else 21)
    else if a == 'd' then (if b == 'i' && z == 's' then 8 else 15)
    else if a == 'p' then (if b == 'r' then 9 else 12)
    else if a == 'f' then 10
    else if a == 'm' then 11
    else if a == 'b' then 13
    else 18
  }

  lemma IndexByLettersOfName(e: Emotion)
    ensures IndexByLetters(Name(e)) == Index(e)
  {
  }

  /** Distinct emotions have distinct names. */
  lemma NameInjective(e: Emotion, f: Emotion)
    ensures Name(e) == Name(f) <==> e == f
  {
    if Name(e) == Name(f) {
      IndexByLettersOfName(e);
      IndexByLettersOfName(f);
      IndexInjective(e, f);
    }
  }

  /** Every emotion's name is recognised as that emotion. */
  lemma FromNameOfName(e: Emotion)
    ensures FromName(Name(e)) == Some(e)
  {
    IndexByLettersOfName(e);
  }

  /** `FromName` recognises exactly the emotions' names. */
  lemma FromNameIff(s: string, e: Emotion)
    ensures FromName(s) == Some(e) <==> s == Name(e)
  {
    if s == Name(e) {
      FromNameOfName(e);
    }
  }

  /** Distinct emotions sit at distinct table positions. */
  lemma IndexInjective(e: Emotion, f: Emotion)
    ensures Index(e) == Index(f) <==> e == f
  {
  }

  function CategoryOf(e: Emotion): Category {
    match e
    case Happy | Satisfaction | Gratitude | Pride | Hope | Love | Relief | Admiration => Positive
    case Mildness | Boredom => Neutral
    case _ => Negative
  }

  function IntensityOf(e: Emotion): Intensity {
    match e
    case Angry | Happy | Hate | Distress | Fear | Love | Anger => High
    case Mildness | Pity | Boredom | Gloating => Low
    case _ => Medium
  }

  function CategoryName(c: Category): string {
    match c
    case Positive => "positive"
    case Negative => "negative"
    case Neutral => "neutral"
  }

  function IntensityName(i: Intensity): string {
    match i
    case Low => "low"
    case Medium => "medium"
    case High => "high"
  }

  /** A score dict over the 23 emotions, as a vector aligned with `All()`. */
  predicate IsScores(v: seq<real>) {
    |v| == N
  }

  function ScoreOf(v: seq<real>, e: Emotion): real
    requires IsScores(v)
  {
    v[Index(e)]
  }
}
