/** The parallel analysis workflow (`parallel-analysis-workflow`): SEO,
    readability and sentiment analyses run side by side on the same input, and a
    `combine-results` step re-keys their three outputs into one record. */
module ParallelWorkflow {
  import opened JsText
  import opened Content
  import opened JsMath
  import Engine

  /** A value returned by `Math.random()`. */
  type RandomDraw = r: real | 0.0 <= r < 1.0

  /** The two random draws a run makes: one for the SEO score, one for the
      sentiment confidence. */
  datatype Draws = Draws(seoDraw: RandomDraw, confidenceDraw: RandomDraw)

  datatype SeoResult = SeoResult(seoScore: int, keywords: seq<string>)
  datatype ReadabilityResult = ReadabilityResult(readabilityScore: int, gradeLevel: string)
  datatype Sentiment = Positive | Neutral | Negative
  datatype SentimentResult = SentimentResult(sentiment: Sentiment, confidence: real)

  /** The three analysis steps: `seo-analysis`, `readability-analysis`, `sentiment-analysis`. */
  datatype StepId = SeoAnalysis | ReadabilityAnalysis | SentimentAnalysis

  /** The output of one analysis step, as the join holds it. */
  datatype Analysis =
    | SeoOutput(seoResult: SeoResult)
    | ReadabilityOutput(readabilityResult: ReadabilityResult)
    | SentimentOutput(sentimentResult: SentimentResult)

  /** `combine-results` output: `{ results: { seo, readability, sentiment } }`. */
  datatype Results = Results(seo: SeoResult, readability: ReadabilityResult, sentiment: SentimentResult)
  datatype Combined = Combined(results: Results)

  // ---------------------------------------------------------------------------
  // seo-analysis
  // ---------------------------------------------------------------------------

  /** `word.length > 4`. */
  predicate IsKeyword(w: string) {
    |w| > 4
  }

  /** The lower-cased words of the content longer than four characters, in
      order and with repetitions. */
  function LongWords(content: string): seq<string> {
    Filter(Split(ToLower(content), Whitespace), IsKeyword)
  }

  /** `content.toLowerCase().split(/\s+/).filter(word => word.length > 4).slice(0, 3)`:
      the FIRST three long words (all of them when there are fewer), so at most
      three, each longer than four characters, in the order they occur. */
  function Keywords(content: string): (kw: seq<string>)
    ensures |kw| == Min(3, |LongWords(content)|)
    ensures kw == LongWords(content)[..|kw|]
    ensures forall i :: 0 <= i < |kw| ==> IsKeyword(kw[i])
    ensures IsSubsequence(kw, Split(ToLower(content), Whitespace))
    ensures |kw| < 3 ==> forall w <- Split(ToLower(content), Whitespace) :: IsKeyword(w) ==> w in kw
  {
    var words := Split(ToLower(content), Whitespace);
    var long := LongWords(content);
    var kw := Take(long, 3);
    PrefixOfSubsequence(long, words, |kw|);
    assert kw == long[..|kw|];
    assert forall i :: 0 <= i < |kw| ==> kw[i] in long;
    kw
  }

  /** Every keyword is a whole lower-case word of the content: it contains no
      whitespace and no upper-case letter. */
  lemma KeywordsAreLowerWords(content: string)
    ensures forall i :: 0 <= i < |Keywords(content)| ==>
      IsLowerCase(Keywords(content)[i]) && NoneInClass(Keywords(content)[i], Whitespace)
  {
    var words := Split(ToLower(content), Whitespace);
    var kw := Keywords(content);
    SegmentToLower(content, Whitespace);
    forall i | 0 <= i < |kw|
      ensures IsLowerCase(kw[i]) && NoneInClass(kw[i], Whitespace)
    {
      SubsequenceMember(kw, words, kw[i]);
      var j :| 0 <= j < |words| && words[j] == kw[i];
      assert words[j] == ToLower(Split(content, Whitespace)[j]);
    }
  }

  /** `Math.floor(Math.random() * 40) + 60`. */
  function SeoScore(draw: RandomDraw): (score: int)
    ensures 60 <= score <= 99
  {
    (draw * 40.0).Floor + 60
  }

  /** The `seo-analysis` step. */
  function SeoStep(x: StepInput, draw: RandomDraw): (r: SeoResult)
    ensures 60 <= r.seoScore <= 99
    ensures r.keywords == Keywords(x.content)
  {
    SeoResult(SeoScore(draw), Keywords(x.content))
  }

  // ---------------------------------------------------------------------------
  // readability-analysis
  // ---------------------------------------------------------------------------

  /** `Math.max(0, 100 - (words / sentences) * 3)`, where both counts are
      unfiltered splits of the untrimmed content. */
  function ReadabilityScore(content: string): (score: real)
    ensures 0.0 <= score < 100.0
    ensures score > 0.0 <==> 3 * |Split(content, Whitespace)| < 100 * |Split(content, SentenceEnd)|
  {
    var sentences := |Split(content, SentenceEnd)|;
    var words := |Split(content, Whitespace)|;
    SplitNonEmpty(content, SentenceEnd);
    SplitNonEmpty(content, Whitespace);
    TripleRatioBelow(words, sentences, 100);
    var avg := words as real / sentences as real;
    if 100.0 - avg * 3.0 > 0.0 then 100.0 - avg * 3.0 else 0.0
  }

  /** `Easy` above 80, `Medium` above 60, `Hard` otherwise. */
  function GradeLevel(score: real): (g: string)
    ensures g == "Easy" <==> score > 80.0
    ensures g == "Medium" <==> 60.0 < score <= 80.0
    ensures g == "Hard" <==> score <= 60.0
  {
    if score > 80.0 then "Easy" else if score > 60.0 then "Medium" else "Hard"
  }

  /** The `readability-analysis` step: the floored score is `100` less the
      ceiling of three words per sentence, cut off at `0` (so it lies in 0..99),
      and the grade depends only on the ratio of words to sentences. */
  function ReadabilityStep(x: StepInput): (r: ReadabilityResult)
    ensures var w := |Split(x.content, Whitespace)|; var s := |Split(x.content, SentenceEnd)|;
      s >= 1 && r.readabilityScore == Max(0, 100 - (3 * w + s - 1) / s)
    ensures 0 <= r.readabilityScore <= 99
    ensures var w := |Split(x.content, Whitespace)|; var s := |Split(x.content, SentenceEnd)|;
      && (r.gradeLevel == "Easy" <==> 3 * w < 20 * s)
      && (r.gradeLevel == "Medium" <==> 20 * s <= 3 * w < 40 * s)
      && (r.gradeLevel == "Hard" <==> 40 * s <= 3 * w)
  {
    var score := ReadabilityScore(x.content);
    ReadabilityBounds(x.content);
    ReadabilityFloor(x.content);
    ReadabilityResult(score.Floor, GradeLevel(score))
  }

  /** `Math.floor` of the score, in integers: `100 - ceil(3 * words / sentences)`,
      or `0` where that is negative. */
  lemma ReadabilityFloor(content: string)
    ensures var w := |Split(content, Whitespace)|; var s := |Split(content, SentenceEnd)|;
      s >= 1 && ReadabilityScore(content).Floor == Max(0, 100 - (3 * w + s - 1) / s)
  {
    var s := |Split(content, SentenceEnd)|;
    var w := |Split(content, Whitespace)|;
    SplitNonEmpty(content, SentenceEnd);
    TripleRatioCeiling(w, s);
    var q := (3 * w + s - 1) / s;
    var x := 100.0 - (w as real / s as real) * 3.0;
    assert (100 - q) as real <= x < (100 - q + 1) as real;
    if x > 0.0 {
      assert x.Floor == 100 - q;
    }
  }

  /** `(3 * w + s - 1) / s` is the ceiling of the real `(w / s) * 3`. */
  lemma TripleRatioCeiling(w: nat, s: nat)
    requires s >= 1
    ensures var q := (3 * w + s - 1) / s;
      (q - 1) as real < (w as real / s as real) * 3.0 <= q as real
  {
    var q := (3 * w + s - 1) / s;
    var sr := s as real;
    var avg := w as real / sr;
    assert avg * sr == w as real;
    assert 3 * w <= q * s < 3 * w + s;
    var above := q as real - avg * 3.0;
    assert above * sr == (q * s - 3 * w) as real;
    if above < 0.0 {
      ProductSign(-above, sr);
    }
    var below := avg * 3.0 - (q - 1) as real;
    assert below * sr == (3 * w - (q - 1) * s) as real;
    if below <= 0.0 {
      ProductSign(-below, sr);
    }
  }

  /** The score is below 100 (there is at least one word and one sentence), is
      never negative, and crosses 80 and 60 where three words per sentence-length
      unit cross 20 and 40. */
  lemma ReadabilityBounds(content: string)
    ensures 0.0 <= ReadabilityScore(content) < 100.0
    ensures var w := |Split(content, Whitespace)|; var s := |Split(content, SentenceEnd)|;
      && (ReadabilityScore(content) > 80.0 <==> 3 * w < 20 * s)
      && (ReadabilityScore(content) > 60.0 <==> 3 * w < 40 * s)
  {
    var s := |Split(content, SentenceEnd)|;
    var w := |Split(content, Whitespace)|;
    SplitNonEmpty(content, SentenceEnd);
    SplitNonEmpty(content, Whitespace);
    var avg := w as real / s as real;
    TripleRatioBelow(w, s, 20);
    TripleRatioBelow(w, s, 40);
    TripleRatioBelow(w, s, 0);
  }

  /** `100 - 3 * (w / s) > 100 - bound` in integers: `3 * (w / s) < bound`
      exactly when `3 * w < bound * s`. */
  lemma TripleRatioBelow(w: nat, s: nat, bound: nat)
    requires s >= 1
    ensures (w as real / s as real) * 3.0 < bound as real <==> 3 * w < bound * s
    ensures (w as real / s as real) * 3.0 > 0.0 <==> w > 0
  {
    var avg := w as real / s as real;
    var sr := s as real;
    assert avg * sr == w as real;
    assert (bound * s) as real == bound as real * sr;
    var gap := bound as real - avg * 3.0;
    assert gap * sr == (bound * s) as real - 3.0 * w as real;
    if gap > 0.0 {
      ProductSign(gap, sr);
    } else {
      ProductSign(-gap, sr);
    }
    if w > 0 {
      assert avg > 0.0 by {
        if avg <= 0.0 {
          ProductSign(-avg, sr);
        }
      }
    }
  }

  // ---------------------------------------------------------------------------
  // sentiment-analysis
  // ---------------------------------------------------------------------------

  const PositiveWords: seq<string> := ["good", "great", "excellent", "amazing"]
  const NegativeWords: seq<string> := ["bad", "terrible", "awful", "horrible"]

  /** `words.filter(word => text.includes(word)).length`: how many of the listed
      words occur somewhere in the text; all of them exactly when the count is
      the list's length, none of them exactly when it is zero. */
  function MatchCount(words: seq<string>, text: string): (n: nat)
    ensures n == |Matched(words, text)|
    ensures n <= |words|
    ensures n == |words| <==> forall w <- words :: Includes(text, w)
    ensures n == 0 <==> forall w <- words :: !Includes(text, w)
  {
    MatchesArePositions(words, text);
    MatchesAllOrNone(words, text);
    |Filter(words, IncludedIn(text))|
  }

  /** The positions of the list whose word the text includes. */
  function Matched(words: seq<string>, text: string): set<int> {
    set i | 0 <= i < |words| && Includes(text, words[i])
  }

  /** `word => text.includes(word)`. */
  function IncludedIn(text: string): string -> bool {
    w => Includes(text, w)
  }

  lemma MatchesArePositions(words: seq<string>, text: string)
    ensures |Filter(words, IncludedIn(text))| == |Matched(words, text)|
  {
    var occurs := IncludedIn(text);
    FilterCountsPositions(words, occurs);
    var matched := Matched(words, text);
    var positions := Positions(words, occurs);
    forall i | 0 <= i < |words|
      ensures i in positions <==> i in matched
    {
      assert occurs(words[i]) == Includes(text, words[i]);
    }
    assert positions == matched;
  }

  lemma MatchesAllOrNone(words: seq<string>, text: string)
    ensures |Filter(words, IncludedIn(text))| == |words| <==> forall w <- words :: Includes(text, w)
    ensures |Filter(words, IncludedIn(text))| == 0 <==> forall w <- words :: !Includes(text, w)
  {
    var found := Filter(words, IncludedIn(text));
    FilterKeepsAll(words, IncludedIn(text));
    assert found != [] ==> found[0] in found;
  }

  /** Positive when strictly more positive words occur, negative when strictly
      more negative words occur, neutral on a tie. */
  function SentimentOf(positive: nat, negative: nat): (s: Sentiment)
    ensures s == Positive <==> positive > negative
    ensures s == Negative <==> negative > positive
    ensures s == Neutral <==> positive == negative
  {
    if negative > positive then Negative else if positive > negative then Positive else Neutral
  }

  /** `Math.random() * 0.3 + 0.7`. */
  function Confidence(draw: RandomDraw): (c: real)
    ensures 0.7 <= c < 1.0
  {
    draw * 0.3 + 0.7
  }

  /** The `sentiment-analysis` step: counts the listed positive and negative words
      that occur in the lower-cased content and compares the two counts. */
  function SentimentStep(x: StepInput, draw: RandomDraw): (r: SentimentResult)
    ensures var text := ToLower(x.content);
      var positive := MatchCount(PositiveWords, text);
      var negative := MatchCount(NegativeWords, text);
      && positive <= 4 && negative <= 4
      && (r.sentiment == Positive <==> positive > negative)
      && (r.sentiment == Negative <==> negative > positive)
      && (r.sentiment == Neutral <==> positive == negative)
    ensures 0.7 <= r.confidence < 1.0
  {
    var text := ToLower(x.content);
    SentimentResult(
      SentimentOf(MatchCount(PositiveWords, text), MatchCount(NegativeWords, text)),
      Confidence(draw))
  }

  /** Content that contains none of the listed words is neutral. */
  lemma NoListedWordIsNeutral(x: StepInput, draw: RandomDraw)
    requires forall w <- PositiveWords + NegativeWords :: !Includes(ToLower(x.content), w)
    ensures SentimentStep(x, draw).sentiment == Neutral
  {
    var text := ToLower(x.content);
    assert forall w <- PositiveWords :: w in PositiveWords + NegativeWords;
    assert forall w <- NegativeWords :: w in PositiveWords + NegativeWords;
    assert MatchCount(PositiveWords, text) == 0;
    assert MatchCount(NegativeWords, text) == 0;
  }

  // ---------------------------------------------------------------------------
  // The fan-out, the join and combine-results
  // ---------------------------------------------------------------------------

  /** Runs the analysis step with the given id. */
  function Execute(id: StepId, x: StepInput, draws: Draws): Analysis {
    match id
    case SeoAnalysis => SeoOutput(SeoStep(x, draws.seoDraw))
    case ReadabilityAnalysis => ReadabilityOutput(ReadabilityStep(x))
    case SentimentAnalysis => SentimentOutput(SentimentStep(x, draws.confidenceDraw))
  }

  /** The `.parallel([...])` list, in declaration order. */
  const Analyses: seq<StepId> := [SeoAnalysis, ReadabilityAnalysis, SentimentAnalysis]

  /** The joined record the fan-out hands to `combine-results`. */
  function Join(x: StepInput, draws: Draws): (joined: map<StepId, Analysis>)
    ensures forall id :: id in joined <==> id in Analyses
    ensures forall id :: id in joined ==> joined[id] == Execute(id, x, draws)
  {
    Engine.Parallel(Analyses, (id, y) => Execute(id, y, draws), x)
  }

  /** The join has exactly the three step ids as keys, and every analysis ran on
      the same input. */
  lemma JoinComplete(x: StepInput, draws: Draws)
    ensures Join(x, draws).Keys == {SeoAnalysis, ReadabilityAnalysis, SentimentAnalysis}
    ensures Join(x, draws)[SeoAnalysis] == SeoOutput(SeoStep(x, draws.seoDraw))
    ensures Join(x, draws)[ReadabilityAnalysis] == ReadabilityOutput(ReadabilityStep(x))
    ensures Join(x, draws)[SentimentAnalysis] == SentimentOutput(SentimentStep(x, draws.confidenceDraw))
  {
    assert (set k | k in Analyses) == {SeoAnalysis, ReadabilityAnalysis, SentimentAnalysis};
  }

  /** `combine-results`, including its input schema: the record must hold each
      of the three step ids with an output of that step's shape. The outputs are
      re-keyed as `seo`, `readability` and `sentiment`, with nothing added or
      changed. */
  function Combine(joined: map<StepId, Analysis>): (r: Option<Combined>)
    ensures r != None <==>
      && SeoAnalysis in joined && joined[SeoAnalysis].SeoOutput?
      && ReadabilityAnalysis in joined && joined[ReadabilityAnalysis].ReadabilityOutput?
      && SentimentAnalysis in joined && joined[SentimentAnalysis].SentimentOutput?
    ensures r != None ==>
      && r.value.results.seo == joined[SeoAnalysis].seoResult
      && r.value.results.readability == joined[ReadabilityAnalysis].readabilityResult
      && r.value.results.sentiment == joined[SentimentAnalysis].sentimentResult
  {
    if && SeoAnalysis in joined && joined[SeoAnalysis].SeoOutput?
       && ReadabilityAnalysis in joined && joined[ReadabilityAnalysis].ReadabilityOutput?
       && SentimentAnalysis in joined && joined[SentimentAnalysis].SentimentOutput?
    then
      Some(Combined(Results(
        joined[SeoAnalysis].seoResult,
        joined[ReadabilityAnalysis].readabilityResult,
        joined[SentimentAnalysis].sentimentResult)))
    else None
  }

  /** The workflow: defaults, the three analyses on the same input, then
      `combine-results`. */
  function Run(input: WorkflowInput, draws: Draws): (r: Option<Combined>)
    ensures r.Some?
  {
    JoinComplete(WithDefaults(input), draws);
    Combine(Join(WithDefaults(input), draws))
  }

  /** A run always gets past `combine-results`, and its result holds exactly the
      three analyses of the workflow input. */
  lemma RunCombinesAnalyses(input: WorkflowInput, draws: Draws)
    ensures var x := WithDefaults(input);
      Run(input, draws) == Some(Combined(Results(
        SeoStep(x, draws.seoDraw),
        ReadabilityStep(x),
        SentimentStep(x, draws.confidenceDraw))))
  {
    JoinComplete(WithDefaults(input), draws);
  }
}
