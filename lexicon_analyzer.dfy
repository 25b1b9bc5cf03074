/**
 * `analyzeText`: the lexicon scorer. It lowercases the text, counts the
 * matches of fixed trigger words per category, and derives from those
 * counts the sentiment, the threat and vulnerability levels, the dominant
 * emotion and the text metadata. The timestamp it reads from the clock is
 * a parameter here.
 */
module LexiconAnalyzer {
  import opened TextScan

  // ---------------------------------------------------------------------
  // Lexicons

  /** A trigger word: a non-empty pattern. */
  type Word = w: string | |w| > 0 witness "a"

  const PositiveWords: seq<Word> :=
    ["good", "great", "excellent", "amazing", "wonderful", "fantastic", "love", "happy", "joy", "pleased"]
  const NegativeWords: seq<Word> :=
    ["bad", "terrible", "awful", "hate", "angry", "sad", "disappointed", "frustrated", "annoying"]
  const ThreatWords: seq<Word> :=
    ["kill", "destroy", "attack", "hurt", "harm", "violence", "bomb", "gun", "threat", "danger"]
  const VulnerabilityWords: seq<Word> :=
    ["weak", "vulnerable", "exposed", "insecure", "helpless", "defenseless", "fragile"]
  const AngerWords: seq<Word> := ["angry", "furious", "rage", "mad", "irritated", "annoyed"]
  const FearWords: seq<Word> := ["afraid", "scared", "terrified", "anxious", "worried", "nervous"]
  const JoyWords: seq<Word> := ["happy", "joyful", "excited", "delighted", "cheerful", "elated"]
  const SadnessWords: seq<Word> := ["sad", "depressed", "melancholy", "gloomy", "miserable", "upset"]
  const SurpriseWords: seq<Word> := ["surprised", "amazed", "astonished", "shocked", "stunned"]

  /** `words.reduce((count, word) => count + matches(word), 0)`: the matches
      of every trigger word, summed from the first word to the last. */
  function CategoryScore(t: string, words: seq<Word>): (score: nat)
    ensures forall k :: 0 <= k < |words| ==> Occurrences(t, words[k]) <= score
    decreases |words|
  {
    if words == [] then 0
    else
      var init := words[..|words| - 1];
      assert forall k :: 0 <= k < |init| ==> init[k] == words[k];
      CategoryScore(t, init) + Occurrences(t, words[|words| - 1])
  }

  /** Some trigger word of the lexicon occurs in `t`. */
  ghost predicate AnyOccurs(t: string, words: seq<Word>) {
    exists i, j :: 0 <= i < |words| && OccursAt(t, words[i], j)
  }

  /** A category scores above zero exactly when one of its words occurs in
      the text, anywhere, also inside a longer word. */
  lemma {:induction false} CategoryScorePositiveIff(t: string, words: seq<Word>)
    ensures CategoryScore(t, words) > 0 <==> AnyOccurs(t, words)
    decreases |words|
  {
    if words != [] {
      var init, last := words[..|words| - 1], words[|words| - 1];
      CategoryScorePositiveIff(t, init);
      OccurrencesPositiveIff(t, last);
      if AnyOccurs(t, words) {
        var i, j :| 0 <= i < |words| && OccursAt(t, words[i], j);
        if i < |words| - 1 {
          assert init[i] == words[i];
        }
      }
      if AnyOccurs(t, init) {
        var i, j :| 0 <= i < |init| && OccursAt(t, init[i], j);
        assert words[i] == init[i];
      }
    }
  }

  // ---------------------------------------------------------------------
  // Sentiment

  datatype Polarity = Positive | Negative | Neutral

  /** The overall sentiment: the larger of the two counts wins; equal counts,
      both zero included, are neutral. */
  function Overall(positiveCount: nat, negativeCount: nat): (p: Polarity)
    ensures p == Positive <==> positiveCount > negativeCount
    ensures p == Negative <==> negativeCount > positiveCount
    ensures p == Neutral <==> positiveCount == negativeCount
  {
    if positiveCount > negativeCount then Positive
    else if negativeCount > positiveCount then Negative
    else Neutral
  }

  function Distance(a: nat, b: nat): nat {
    if a >= b then a - b else b - a
  }

  /** A share of `w` reaches 100 percent exactly when it is all of `w`. */
  lemma PercentReachesHundred(d: real, w: real)
    requires w > 0.0
    ensures d / w * 100.0 >= 100.0 <==> d >= w
  {
    var q := d / w;
    assert q * w == d;
    if q >= 1.0 {
      assert q * w >= 1.0 * w;
    } else {
      assert q * w < 1.0 * w;
    }
  }

  /** `Math.min(|positive - negative| / wordCount * 100, 100)`, in exact
      real arithmetic. */
  function Confidence(positiveCount: nat, negativeCount: nat, wordCount: nat): (c: real)
    requires wordCount > 0
    ensures 0.0 <= c <= 100.0
    ensures c == 0.0 <==> positiveCount == negativeCount
    ensures c == 100.0 <==> Distance(positiveCount, negativeCount) >= wordCount
  {
    var d := Distance(positiveCount, negativeCount) as real;
    var w := wordCount as real;
    var raw := d / w * 100.0;
    PercentReachesHundred(d, w);
    if raw < 100.0 then raw else 100.0
  }

  // ---------------------------------------------------------------------
  // Threat and vulnerability

  datatype Level = Low | Medium | High

  /** `count > 0 ? (count > 2 ? 'high' : 'medium') : 'low'`. */
  function LevelOf(count: nat): (l: Level)
    ensures l == Low <==> count == 0
    ensures l == Medium <==> 1 <= count <= 2
    ensures l == High <==> count > 2
  {
    if count > 0 then (if count > 2 then High else Medium) else Low
  }

  datatype Indicator = Indicator(level: Level, score: nat, detected: bool)

  /** The `threat` and `vulnerability` records: level, raw score and flag. */
  function IndicatorOf(count: nat): (r: Indicator)
    ensures r.score == count
    ensures r.level == LevelOf(count)
    ensures r.detected <==> count > 0
    ensures r.detected <==> r.level != Low
  {
    Indicator(LevelOf(count), count, count > 0)
  }

  // ---------------------------------------------------------------------
  // Emotions

  datatype Emotion = Anger | Fear | Joy | Sadness | Surprise

  /** The position of an emotion among the keys of the `emotions` object. */
  function Rank(e: Emotion): nat {
    match e
    case Anger => 0
    case Fear => 1
    case Joy => 2
    case Sadness => 3
    case Surprise => 4
  }

  datatype EmotionScores = EmotionScores(anger: nat, fear: nat, joy: nat, sadness: nat, surprise: nat) {
    function Of(e: Emotion): nat {
      match e
      case Anger => anger
      case Fear => fear
      case Joy => joy
      case Sadness => sadness
      case Surprise => surprise
    }
  }

  /** The lexicon of an emotion. */
  function EmotionWords(e: Emotion): seq<Word> {
    match e
    case Anger => AngerWords
    case Fear => FearWords
    case Joy => JoyWords
    case Sadness => SadnessWords
    case Surprise => SurpriseWords
  }

  /** The `emotions` object: each emotion scores the summed matches of its
      own lexicon, and it scores above zero exactly when one of its words
      occurs in the text. */
  function EmotionScoresOf(lowerText: string): (s: EmotionScores)
    ensures forall e :: s.Of(e) == CategoryScore(lowerText, EmotionWords(e))
    ensures forall e :: s.Of(e) > 0 <==> AnyOccurs(lowerText, EmotionWords(e))
  {
    var s := EmotionScores(
      CategoryScore(lowerText, EmotionWords(Anger)),
      CategoryScore(lowerText, EmotionWords(Fear)),
      CategoryScore(lowerText, EmotionWords(Joy)),
      CategoryScore(lowerText, EmotionWords(Sadness)),
      CategoryScore(lowerText, EmotionWords(Surprise)));
    assert forall e :: s.Of(e) > 0 <==> AnyOccurs(lowerText, EmotionWords(e)) by {
      forall e ensures s.Of(e) > 0 <==> AnyOccurs(lowerText, EmotionWords(e)) {
        CategoryScorePositiveIff(lowerText, EmotionWords(e));
      }
    }
    s
  }

  /** The reducer `(a, b) => emotions[a] > emotions[b] ? a : b`: it keeps the
      accumulated key only when its score is strictly larger. */
  function Keep(scores: EmotionScores, a: Emotion, b: Emotion): Emotion {
    if scores.Of(a) > scores.Of(b) then a else b
  }

  function ReduceKeys(scores: EmotionScores, acc: Emotion, keys: seq<Emotion>): Emotion
    decreases |keys|
  {
    if keys == [] then acc else ReduceKeys(scores, Keep(scores, acc, keys[0]), keys[1..])
  }

  /** `Object.keys(emotions).reduce(...)` with no initial value: no
      emotion scores more than the one it picks. */
  function Dominant(scores: EmotionScores): (d: Emotion)
    ensures forall x :: scores.Of(x) <= scores.Of(d)
  {
    var d1 := Keep(scores, Anger, Fear);
    var d2 := Keep(scores, d1, Joy);
    var d3 := Keep(scores, d2, Sadness);
    assert [Fear, Joy, Sadness, Surprise][1..] == [Joy, Sadness, Surprise];
    assert [Joy, Sadness, Surprise][1..] == [Sadness, Surprise];
    assert [Sadness, Surprise][1..] == [Surprise];
    assert ReduceKeys(scores, Anger, [Fear, Joy, Sadness, Surprise]) == Keep(scores, d3, Surprise);
    ReduceKeys(scores, Anger, [Fear, Joy, Sadness, Surprise])
  }

  /** `e` has the largest score, and every emotion listed after it scores
      strictly less: the last of the tied maxima. */
  predicate IsLastMax(scores: EmotionScores, e: Emotion) {
    forall x: Emotion {:trigger scores.Of(x)} ::
      scores.Of(x) <= scores.Of(e) && (Rank(x) > Rank(e) ==> scores.Of(x) < scores.Of(e))
  }

  /** The dominant emotion is the last of the emotions with maximal score. */
  lemma DominantIsLastMax(scores: EmotionScores)
    ensures IsLastMax(scores, Dominant(scores))
  {
    var d1 := Keep(scores, Anger, Fear);
    var d2 := Keep(scores, d1, Joy);
    var d3 := Keep(scores, d2, Sadness);
    var d4 := Keep(scores, d3, Surprise);
    assert [Fear, Joy, Sadness, Surprise][1..] == [Joy, Sadness, Surprise];
    assert [Joy, Sadness, Surprise][1..] == [Sadness, Surprise];
    assert [Sadness, Surprise][1..] == [Surprise];
    assert Dominant(scores) == d4;
  }

  /** At most one emotion is the last maximum, so the rule fixes the result. */
  lemma LastMaxIsDominant(scores: EmotionScores, e: Emotion)
    requires IsLastMax(scores, e)
    ensures e == Dominant(scores)
  {
    DominantIsLastMax(scores);
  }

  /** Ties go to the later emotion: equal anger and fear give fear, and a
      text without emotion words gives surprise with intensity 0. */
  lemma DominantTieExamples()
    ensures Dominant(EmotionScores(1, 1, 0, 0, 0)) == Fear
    ensures Dominant(EmotionScores(0, 0, 0, 0, 0)) == Surprise
    ensures EmotionsOf(EmotionScores(0, 0, 0, 0, 0)).intensity == 0
    ensures Dominant(EmotionScores(2, 1, 0, 0, 2)) == Surprise
    ensures Dominant(EmotionScores(3, 1, 0, 0, 2)) == Anger
    ensures Dominant(EmotionScores(0, 0, 3, 1, 0)) == Joy
  {
  }

  // ---------------------------------------------------------------------
  // The analysis record

  datatype Sentiment = Sentiment(overall: Polarity, confidence: real, positiveScore: nat, negativeScore: nat)
  datatype Emotions = Emotions(scores: EmotionScores, dominant: Emotion, intensity: nat)
  datatype Metadata = Metadata(wordCount: nat, characterCount: nat, analyzedAt: string)
  datatype AnalysisResult = AnalysisResult(
    sentiment: Sentiment,
    threat: Indicator,
    vulnerability: Indicator,
    emotions: Emotions,
    metadata: Metadata)

  function EmotionsOf(scores: EmotionScores): Emotions {
    var d := Dominant(scores);
    Emotions(scores, d, scores.Of(d))
  }

  /** The `metadata` record: `text.split(/\s+/).length`, the untrimmed
      length and the clock reading. */
  function MetadataOf(text: string, analyzedAt: string): Metadata {
    Metadata(|Split(text)|, |text|, analyzedAt)
  }

  /** What `analyzeText(text)` returns when the clock reads `analyzedAt`.
      The record is consistent: the polarity follows the two scores, the
      confidence is a percentage, each indicator is flagged exactly when it
      scored, the intensity is the top emotion score, and there is at least
      one word. */
  function Analysis(text: string, analyzedAt: string): (r: AnalysisResult)
    ensures r.sentiment.overall == Overall(r.sentiment.positiveScore, r.sentiment.negativeScore)
    ensures 0.0 <= r.sentiment.confidence <= 100.0
    ensures r.threat.detected <==> r.threat.score > 0
    ensures r.vulnerability.detected <==> r.vulnerability.score > 0
    ensures r.emotions.intensity == r.emotions.scores.Of(r.emotions.dominant)
    ensures forall x :: r.emotions.scores.Of(x) <= r.emotions.intensity
    ensures r.metadata.wordCount >= 1 && r.metadata.characterCount == |text|
  {
    var wordCount := |Split(text)|;
    var lowerText := Lower(text);
    var positiveCount := CategoryScore(lowerText, PositiveWords);
    var negativeCount := CategoryScore(lowerText, NegativeWords);
    AnalysisResult(
      Sentiment(Overall(positiveCount, negativeCount),
                Confidence(positiveCount, negativeCount, wordCount),
                positiveCount, negativeCount),
      IndicatorOf(CategoryScore(lowerText, ThreatWords)),
      IndicatorOf(CategoryScore(lowerText, VulnerabilityWords)),
      EmotionsOf(EmotionScoresOf(lowerText)),
      MetadataOf(text, analyzedAt))
  }

  /** The scorer as the server runs it: the positive and negative counters
      are accumulated word by word, the other categories are folds. */
  method AnalyzeText(text: string, analyzedAt: string) returns (r: AnalysisResult)
    ensures r == Analysis(text, analyzedAt)
  {
    var wordCount := |Split(text)|;
    var lowerText := Lower(text);

    var positiveCount: nat := 0;
    var negativeCount: nat := 0;
    var i := 0;
    while i < |PositiveWords|
      invariant 0 <= i <= |PositiveWords|
      invariant positiveCount == CategoryScore(lowerText, PositiveWords[..i])
    {
      assert PositiveWords[..i + 1][..i] == PositiveWords[..i];
      positiveCount := positiveCount + Occurrences(lowerText, PositiveWords[i]);
      i := i + 1;
    }
    assert PositiveWords[..i] == PositiveWords;
    i := 0;
    while i < |NegativeWords|
      invariant 0 <= i <= |NegativeWords|
      invariant negativeCount == CategoryScore(lowerText, NegativeWords[..i])
    {
      assert NegativeWords[..i + 1][..i] == NegativeWords[..i];
      negativeCount := negativeCount + Occurrences(lowerText, NegativeWords[i]);
      i := i + 1;
    }
    assert NegativeWords[..i] == NegativeWords;

    var sentiment := Overall(positiveCount, negativeCount);
    var threatCount := CategoryScore(lowerText, ThreatWords);
    var vulnerabilityCount := CategoryScore(lowerText, VulnerabilityWords);
    var emotions := EmotionScoresOf(lowerText);
    var dominantEmotion := Dominant(emotions);

    r := AnalysisResult(
      Sentiment(sentiment, Confidence(positiveCount, negativeCount, wordCount), positiveCount, negativeCount),
      Indicator(LevelOf(threatCount), threatCount, threatCount > 0),
      Indicator(LevelOf(vulnerabilityCount), vulnerabilityCount, vulnerabilityCount > 0),
      Emotions(emotions, dominantEmotion, emotions.Of(dominantEmotion)),
      Metadata(wordCount, |text|, analyzedAt));
  }

  /** The sentiment record: the scores are the positive and negative
      category counts of the lowercased text, the larger one decides the
      polarity, and the confidence lies between 0 and 100. */
  lemma SentimentProperties(text: string, analyzedAt: string)
    ensures var s := Analysis(text, analyzedAt).sentiment;
      && s.positiveScore == CategoryScore(Lower(text), PositiveWords)
      && s.negativeScore == CategoryScore(Lower(text), NegativeWords)
      && (s.overall == Positive <==> s.positiveScore > s.negativeScore)
      && (s.overall == Negative <==> s.negativeScore > s.positiveScore)
      && (s.overall == Neutral <==> s.positiveScore == s.negativeScore)
      && 0.0 <= s.confidence <= 100.0
  {
  }

  /** The threat and vulnerability records follow the same rule, each on its
      own lexicon: the flag is set exactly when one of its words occurs. */
  lemma IndicatorProperties(text: string, analyzedAt: string)
    ensures var r := Analysis(text, analyzedAt);
      && r.threat.score == CategoryScore(Lower(text), ThreatWords)
      && r.threat.level == LevelOf(r.threat.score)
      && (r.threat.detected <==> AnyOccurs(Lower(text), ThreatWords))
      && r.vulnerability.score == CategoryScore(Lower(text), VulnerabilityWords)
      && r.vulnerability.level == LevelOf(r.vulnerability.score)
      && (r.vulnerability.detected <==> AnyOccurs(Lower(text), VulnerabilityWords))
  {
    CategoryScorePositiveIff(Lower(text), ThreatWords);
    CategoryScorePositiveIff(Lower(text), VulnerabilityWords);
  }

  /** The dominant emotion is the last of the maxima and the intensity is
      its score. */
  lemma EmotionProperties(text: string, analyzedAt: string)
    ensures var e := Analysis(text, analyzedAt).emotions;
      && e.scores == EmotionScoresOf(Lower(text))
      && IsLastMax(e.scores, e.dominant)
      && (forall x :: e.scores.Of(x) <= e.intensity)
      && e.intensity == e.scores.Of(e.dominant)
  {
    DominantIsLastMax(EmotionScoresOf(Lower(text)));
  }

  /** The word count is one more than the number of whitespace runs, hence
      at least 1, and the character count is the untrimmed length. */
  lemma MetadataProperties(text: string, analyzedAt: string)
    ensures MetadataOf(text, analyzedAt).wordCount == WhitespaceRuns(text) + 1
    ensures MetadataOf(text, analyzedAt).characterCount == |text|
    ensures MetadataOf(text, analyzedAt).analyzedAt == analyzedAt
  {
    SplitCount(text);
  }

  /** The same facts about the `metadata` of the analysis record. */
  lemma AnalysisMetadata(text: string, analyzedAt: string)
    ensures Analysis(text, analyzedAt).metadata.wordCount == WhitespaceRuns(text) + 1
  {
    MetadataProperties(text, analyzedAt);
  }
}
