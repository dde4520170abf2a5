/** The conditional content workflow (`conditional-content-workflow`): an assessment
    step measures the content, then a branch sends it to quick, standard or deep
    processing according to its size category and sentence complexity. */
module ConditionalWorkflow {
  import opened JsText
  import opened Content
  import opened JsMath
  import Engine

  datatype Category = Short | Medium | Long
  datatype Complexity = Simple | Complex

  /** Output of the `content-assessment` step, and input of every processing step. */
  datatype Assessment = Assessment(
    content: string,
    contentType: string,
    wordCount: nat,
    category: Category,
    complexity: Complexity)

  /** The `metadata` field: absent for quick processing, reading time only for
      standard processing, reading time and key points for deep processing. */
  datatype Metadata =
    | NoMetadata
    | Timing(readingTime: nat)
    | Analysis(readingTime: nat, keyPoints: seq<string>)

  /** Output of a processing step. */
  datatype Processed = Processed(
    content: string,
    contentType: string,
    wordCount: nat,
    processingType: string,
    summary: string,
    metadata: Metadata)

  /** The branch targets: `quick-processing`, `deep-processing`, `standard-processing`. */
  datatype StepId = QuickProcessing | DeepProcessing | StandardProcessing

  // ---------------------------------------------------------------------------
  // content-assessment
  // ---------------------------------------------------------------------------

  /** `content.trim().split(/\s+/)`. */
  function Words(content: string): seq<string> {
    Split(Trim(content), Whitespace)
  }

  /** `content.trim().split(/\s+/).length`. */
  function WordCount(content: string): (n: nat)
    ensures n >= 1
  {
    SplitNonEmpty(Trim(content), Whitespace);
    |Words(content)|
  }

  /** The word count counts real words: an all-blank content is one empty piece;
      otherwise every piece is a non-empty run of non-whitespace characters, and
      the pieces joined by the whitespace runs between them give back the
      trimmed content. */
  lemma WordsAreWords(content: string)
    ensures AllInClass(content, Whitespace) ==> Words(content) == [""]
    ensures !AllInClass(content, Whitespace) ==>
      forall i :: 0 <= i < |Words(content)| ==>
        Words(content)[i] != [] && NoneInClass(Words(content)[i], Whitespace)
    ensures var g := Segment(Trim(content), Whitespace);
      g.pieces == Words(content) && Interleave(g.pieces, g.separators) == Trim(content)
  {
    var t := Trim(content);
    var g := Segment(t, Whitespace);
    SplitNonEmpty(t, Whitespace);
    if !AllInClass(content, Whitespace) {
      SplitInnerString(t, Whitespace);
      forall i | 0 <= i < |g.pieces| ensures NoneInClass(g.pieces[i], Whitespace) {
        assert g.pieces[i] in g.pieces;
      }
    }
  }

  /** Size category: `short` up to 50 words, `medium` up to 200, `long` beyond. */
  function CategoryOf(wordCount: nat): (c: Category)
    ensures c == Short <==> wordCount <= 50
    ensures c == Medium <==> 50 < wordCount <= 200
    ensures c == Long <==> wordCount > 200
  {
    if wordCount > 200 then Long else if wordCount > 50 then Medium else Short
  }

  function CategoryRank(c: Category): nat {
    match c
    case Short => 0
    case Medium => 1
    case Long => 2
  }

  /** More words never give a smaller category. */
  lemma CategoryMonotone(n: nat, m: nat)
    requires n <= m
    ensures CategoryRank(CategoryOf(n)) <= CategoryRank(CategoryOf(m))
  {
  }

  /** A sentence counts when something other than whitespace is left after trimming. */
  predicate NonBlank(p: string) {
    |Trim(p)| > 0
  }

  /** `content.split(/[.!?]+/).filter(s => s.trim().length > 0)`. */
  function Sentences(content: string): (ss: seq<string>)
    ensures forall p <- ss :: NonBlank(p) && NoneInClass(p, SentenceEnd)
    ensures IsSubsequence(ss, Split(content, SentenceEnd))
    ensures forall p <- Split(content, SentenceEnd) :: NonBlank(p) ==> p in ss
    ensures forall p :: multiset(ss)[p] == if NonBlank(p) then multiset(Split(content, SentenceEnd))[p] else 0
  {
    Filter(Split(content, SentenceEnd), NonBlank)
  }

  /** Complexity from the average sentence length `wordCount / max(sentences, 1) > 15`,
      computed with exact division; it is the integer comparison
      `wordCount > 15 * max(sentences, 1)`. */
  function ComplexityOf(wordCount: nat, sentenceCount: nat): (c: Complexity)
    ensures c == Complex <==> wordCount > 15 * Max(sentenceCount, 1)
  {
    var d := Max(sentenceCount, 1);
    var avg := wordCount as real / d as real;
    AverageAbove(wordCount, d);
    if avg > 15.0 then Complex else Simple
  }

  lemma AverageAbove(n: nat, d: int)
    requires d >= 1
    ensures n as real / d as real > 15.0 <==> n > 15 * d
  {
    var avg := n as real / d as real;
    var dr := d as real;
    assert avg * dr == n as real;
    assert (15 * d) as real == 15.0 * dr;
    if avg > 15.0 {
      ProductSign(avg - 15.0, dr);
      assert avg * dr - 15.0 * dr > 0.0;
    } else {
      ProductSign(15.0 - avg, dr);
      assert 15.0 * dr - avg * dr >= 0.0;
    }
  }

  /** The `content-assessment` step: content and type pass through unchanged,
      the word count is at least one, and category and complexity follow the
      word count and the number of non-blank sentences. */
  function Assess(x: StepInput): (a: Assessment)
    ensures a.content == x.content && a.contentType == TypeName(x.contentType)
    ensures a.wordCount == WordCount(x.content) && a.wordCount >= 1
    ensures a.category == Short <==> a.wordCount <= 50
    ensures a.category == Medium <==> 50 < a.wordCount <= 200
    ensures a.category == Long <==> a.wordCount > 200
    ensures a.complexity == Complex <==> a.wordCount > 15 * Max(|Sentences(x.content)|, 1)
  {
    var wordCount := WordCount(x.content);
    Assessment(
      x.content,
      TypeName(x.contentType),
      wordCount,
      CategoryOf(wordCount),
      ComplexityOf(wordCount, |Sentences(x.content)|))
  }

  // ---------------------------------------------------------------------------
  // Processing steps
  // ---------------------------------------------------------------------------

  /** `Math.ceil(wordCount / 200)`: the least number of 200-word minutes that
      covers the word count. */
  function ReadingTime(wordCount: nat): (t: nat)
    ensures wordCount <= 200 * t < wordCount + 200
    ensures wordCount >= 1 ==> t >= 1
  {
    (wordCount + 199) / 200
  }

  /** The summary template shared by the three steps: `${lead} ${wordCount} word ${type}`. */
  function Summary(lead: string, a: Assessment): (r: string)
    ensures lead + " " <= r
    ensures var tail := " word " + a.contentType;
      && |r| == |lead| + 1 + |NatToString(a.wordCount)| + |tail|
      && r[|lead| + 1..|r| - |tail|] == NatToString(a.wordCount)
      && r[|r| - |tail|..] == tail
  {
    lead + " " + NatToString(a.wordCount) + " word " + a.contentType
  }

  /** Every summary names the word count in decimal: the digits after the lead
      phrase read back as the word count, and the type closes the summary. */
  lemma SummaryStatesWordCount(lead: string, a: Assessment)
    ensures var digits := NatToString(a.wordCount);
      && Summary(lead, a) == lead + " " + digits + " word " + a.contentType
      && DecimalValue(digits) == a.wordCount
  {
    NatToStringRoundTrip(a.wordCount);
  }

  /** `quick-processing`: copies content, type and word count, and gives a quick summary. */
  function QuickProcess(a: Assessment): (p: Processed)
    ensures p.content == a.content && p.contentType == a.contentType && p.wordCount == a.wordCount
    ensures p.processingType == "quick" && p.metadata == NoMetadata
    ensures p.summary == Summary("Quick summary of", a)
  {
    Processed(a.content, a.contentType, a.wordCount, "quick", Summary("Quick summary of", a), NoMetadata)
  }

  /** `standard-processing`: as quick processing, plus the reading time. */
  function StandardProcess(a: Assessment): (p: Processed)
    ensures p.content == a.content && p.contentType == a.contentType && p.wordCount == a.wordCount
    ensures p.processingType == "standard" && p.summary == Summary("Standard summary of", a)
    ensures p.metadata.Timing? && a.wordCount <= 200 * p.metadata.readingTime < a.wordCount + 200
  {
    Processed(
      a.content, a.contentType, a.wordCount, "standard",
      Summary("Standard summary of", a), Timing(ReadingTime(a.wordCount)))
  }

  /** `sentences.slice(0, 3).map(s => s.trim())`: the first three non-blank
      sentences, trimmed, in their original order. */
  function KeyPoints(content: string): (kp: seq<string>)
    ensures |kp| == Min(3, |Sentences(content)|)
    ensures forall i :: 0 <= i < |kp| ==> kp[i] == Trim(Sentences(content)[i])
  {
    TrimEach(Take(Sentences(content), 3))
  }

  /** `.map(s => s.trim())`. */
  function TrimEach(ss: seq<string>): (r: seq<string>)
    ensures |r| == |ss| && forall i :: 0 <= i < |r| ==> r[i] == Trim(ss[i])
  {
    if ss == [] then [] else [Trim(ss[0])] + TrimEach(ss[1..])
  }

  /** Every key point is a non-empty stretch of one sentence, with no sentence
      terminator in it and no whitespace at either end. */
  lemma KeyPointsAreSentences(content: string)
    ensures |KeyPoints(content)| <= 3
    ensures forall i :: 0 <= i < |KeyPoints(content)| ==> TrimmedSentence(KeyPoints(content)[i])
  {
    var kp := KeyPoints(content);
    var ss := Sentences(content);
    forall i | 0 <= i < |kp| ensures TrimmedSentence(kp[i]) {
      assert ss[i] in ss;
      TrimKeepsSentence(ss[i]);
    }
  }

  /** A non-empty piece of one sentence without surrounding whitespace. */
  predicate TrimmedSentence(p: string) {
    && p != []
    && NoneInClass(p, SentenceEnd)
    && !IsWhitespace(p[0]) && !IsWhitespace(p[|p| - 1])
  }

  lemma TrimKeepsSentence(p: string)
    requires NonBlank(p) && NoneInClass(p, SentenceEnd)
    ensures TrimmedSentence(Trim(p))
  {
    var r := Trim(p);
    var a := LeadingWhitespace(p);
    forall j | 0 <= j < |r| ensures !InClass(r[j], SentenceEnd) {
      assert r[j] == p[a + j];
    }
  }

  /** `deep-processing`: as standard processing, plus the key points. */
  function DeepProcess(a: Assessment): (p: Processed)
    ensures p.content == a.content && p.contentType == a.contentType && p.wordCount == a.wordCount
    ensures p.processingType == "deep" && p.summary == Summary("Deep analysis of", a)
    ensures p.metadata.Analysis?
    ensures a.wordCount <= 200 * p.metadata.readingTime < a.wordCount + 200
    ensures p.metadata.keyPoints == KeyPoints(a.content)
  {
    Processed(
      a.content, a.contentType, a.wordCount, "deep",
      Summary("Deep analysis of", a), Analysis(ReadingTime(a.wordCount), KeyPoints(a.content)))
  }

  /** Runs the processing step with the given id. */
  function Execute(id: StepId, a: Assessment): Processed {
    match id
    case QuickProcessing => QuickProcess(a)
    case StandardProcessing => StandardProcess(a)
    case DeepProcessing => DeepProcess(a)
  }

  // ---------------------------------------------------------------------------
  // The branch and the workflow
  // ---------------------------------------------------------------------------

  /** Short content takes the quick path. */
  predicate QuickGuard(a: Assessment) {
    a.category == Short
  }

  /** Long or complex content gets deep processing. */
  predicate DeepGuard(a: Assessment) {
    a.category == Long || a.complexity == Complex
  }

  /** Medium, simple content gets standard processing. */
  predicate StandardGuard(a: Assessment) {
    a.category == Medium && a.complexity == Simple
  }

  /** The `.branch([...])` table, in declaration order. */
  function Routes(): seq<Engine.Route<Assessment, StepId>> {
    [
      Engine.Route(QuickGuard, QuickProcessing),
      Engine.Route(DeepGuard, DeepProcessing),
      Engine.Route(StandardGuard, StandardProcessing)
    ]
  }

  /** Which steps the branch runs, for each category and complexity. */
  lemma RoutingTable(a: Assessment)
    ensures a.category == Long ==> Engine.Selected(Routes(), a) == [DeepProcessing]
    ensures a.category == Medium && a.complexity == Simple ==>
      Engine.Selected(Routes(), a) == [StandardProcessing]
    ensures a.category == Medium && a.complexity == Complex ==>
      Engine.Selected(Routes(), a) == [DeepProcessing]
    ensures a.category == Short && a.complexity == Simple ==>
      Engine.Selected(Routes(), a) == [QuickProcessing]
    ensures a.category == Short && a.complexity == Complex ==>
      Engine.Selected(Routes(), a) == [QuickProcessing, DeepProcessing]
  {
    var r := Routes();
    assert r[1..] == [r[1], r[2]] && r[1..][1..] == [r[2]] && r[2..] == [r[2]];
    assert [r[2]][1..] == [];
  }

  /** No assessment falls through the branch: at least one step always runs. */
  lemma EveryAssessmentRouted(a: Assessment)
    ensures |Engine.Selected(Routes(), a)| >= 1
  {
    RoutingTable(a);
  }

  /** The workflow: defaults, assessment, then the branch; the result maps each
      step that ran to its output. */
  function Run(input: WorkflowInput): (out: map<StepId, Processed>)
    ensures var a := Assess(WithDefaults(input));
      && (QuickProcessing in out <==> a.category == Short)
      && (DeepProcessing in out <==> a.category == Long || a.complexity == Complex)
      && (StandardProcessing in out <==> a.category == Medium && a.complexity == Simple)
      && forall k :: k in out ==> out[k] == Execute(k, a)
    ensures out != map[]
  {
    var a := Assess(WithDefaults(input));
    BranchFollowsGuards(a, Execute);
    Engine.Branch(Routes(), Execute, a)
  }

  /** The branch runs each step exactly when its own predicate holds, and runs
      at least one step, whatever the steps compute. */
  lemma BranchFollowsGuards<O>(a: Assessment, step: (StepId, Assessment) -> O)
    ensures var out := Engine.Branch(Routes(), step, a);
      && (QuickProcessing in out <==> QuickGuard(a))
      && (DeepProcessing in out <==> DeepGuard(a))
      && (StandardProcessing in out <==> StandardGuard(a))
      && out != map[]
  {
    var r := Routes();
    assert r[0].target == QuickProcessing && r[0].guard(a) == QuickGuard(a);
    assert r[1].target == DeepProcessing && r[1].guard(a) == DeepGuard(a);
    assert r[2].target == StandardProcessing && r[2].guard(a) == StandardGuard(a);
  }

  /** Running the workflow runs exactly the steps the routing table selects for
      the assessment, each on the assessment itself. */
  lemma RunFollowsRouting(input: WorkflowInput)
    ensures var a := Assess(WithDefaults(input));
      && Run(input).Keys == set k | k in Engine.Selected(Routes(), a)
      && forall k :: k in Run(input) ==> Run(input)[k] == Execute(k, a)
  {
  }

  /** Long content goes to deep processing only. */
  lemma LongBranch(a: Assessment)
    requires a.category == Long
    ensures Engine.Branch(Routes(), Execute, a) == map[DeepProcessing := DeepProcess(a)]
  {
    RoutingTable(a);
    Engine.CollectOne(DeepProcessing, Execute, a);
  }

  /** Short, simple content goes to quick processing only. */
  lemma ShortSimpleBranch(a: Assessment)
    requires a.category == Short && a.complexity == Simple
    ensures Engine.Branch(Routes(), Execute, a) == map[QuickProcessing := QuickProcess(a)]
  {
    RoutingTable(a);
    Engine.CollectOne(QuickProcessing, Execute, a);
  }

  /** Content of more than 200 words goes to deep processing only. */
  lemma LongContentGoesDeep(input: WorkflowInput)
    requires WordCount(input.content) > 200
    ensures Run(input) == map[DeepProcessing := DeepProcess(Assess(WithDefaults(input)))]
  {
    LongBranch(Assess(WithDefaults(input)));
  }

  /** Deep processing of long content takes at least two minutes to read, and
      when the content has at least three non-blank sentences its key points are
      the first three, trimmed. */
  lemma DeepProcessLong(a: Assessment)
    requires a.wordCount > 200
    ensures var p := DeepProcess(a);
      && p.metadata.Analysis?
      && p.metadata.readingTime >= 2
      && (|Sentences(a.content)| >= 3 ==>
            p.metadata.keyPoints == [Trim(Sentences(a.content)[0]),
                                     Trim(Sentences(a.content)[1]),
                                     Trim(Sentences(a.content)[2])])
  {
    if |Sentences(a.content)| >= 3 {
      KeyPointsFirstThree(a.content);
    }
  }

  lemma KeyPointsFirstThree(content: string)
    requires |Sentences(content)| >= 3
    ensures var ss := Sentences(content);
      KeyPoints(content) == [Trim(ss[0]), Trim(ss[1]), Trim(ss[2])]
  {
    TrimmedPrefixOfThree(KeyPoints(content), Sentences(content));
  }

  lemma TrimmedPrefixOfThree(kp: seq<string>, ss: seq<string>)
    requires |ss| >= 3 && |kp| == Min(3, |ss|)
    requires forall i :: 0 <= i < |kp| ==> kp[i] == Trim(ss[i])
    ensures kp == [Trim(ss[0]), Trim(ss[1]), Trim(ss[2])]
  {
  }

  /** "A great day." is three words in one sentence: short and simple, so only
      quick processing runs, and its summary reads "Quick summary of 3 word article". */
  lemma GreatDayScenario(input: WorkflowInput)
    requires input == WorkflowInput("A great day.", None)
    ensures Run(input) ==
      map[QuickProcessing := Processed("A great day.", "article", 3, "quick",
                                       "Quick summary of 3 word article", NoMetadata)]
  {
    var a := Assess(WithDefaults(input));
    GreatDayAssessment();
    ShortSimpleBranch(a);
    GreatDayQuick(a);
  }

  lemma GreatDayQuick(a: Assessment)
    requires a.content == "A great day." && a.contentType == "article" && a.wordCount == 3
    ensures QuickProcess(a) ==
      Processed("A great day.", "article", 3, "quick", "Quick summary of 3 word article", NoMetadata)
  {
    assert NatToString(3) == "3";
    QuickSummaryText();
  }

  lemma QuickSummaryText()
    ensures "Quick summary of" + " " + "3" + " word " + "article" == "Quick summary of 3 word article"
  {
  }

  lemma GreatDayAssessment()
    ensures Assess(WithDefaults(WorkflowInput("A great day.", None))) ==
      Assessment("A great day.", "article", 3, Short, Simple)
  {
    GreatDayWords();
    GreatDaySentences();
  }

  lemma GreatDayWords()
    ensures WordCount("A great day.") == 3
  {
    var c := "A great day.";
    GreatDayTrimmed();
    GreatDayFirstWord(c);
    GreatDayTail(c[2..]);
  }

  lemma GreatDayTrimmed()
    ensures Trim("A great day.") == "A great day."
  {
    var c := "A great day.";
    assert LeadingWhitespace(c) == 0;
    assert TrailingStart(c, 0, |c|) == |c|;
  }

  lemma GreatDayFirstWord(c: string)
    requires c == "A great day."
    ensures |Split(c, Whitespace)| == 1 + |Split(c[2..], Whitespace)|
    ensures c[2..] == "great day."
  {
    FirstInClassIs(c, Whitespace, 1);
    assert RunEnd(c, 2, Whitespace) == 2;
    SegmentUnfold(c, Whitespace);
  }

  lemma GreatDayTail(c: string)
    requires c == "great day."
    ensures |Split(c, Whitespace)| == 2
  {
    FirstInClassIs(c, Whitespace, 5);
    assert RunEnd(c, 6, Whitespace) == 6;
    SegmentUnfold(c, Whitespace);
    var d := c[6..];
    assert d == "day.";
    FirstInClassIs(d, Whitespace, 4);
  }

  lemma GreatDaySentences()
    ensures |Sentences("A great day.")| == 1
  {
    GreatDaySentenceSplit("A great day.");
    GreatDayFilter();
  }

  lemma GreatDaySentenceSplit(c: string)
    requires c == "A great day."
    ensures Split(c, SentenceEnd) == ["A great day", ""]
  {
    FirstInClassIs(c, SentenceEnd, 11);
    assert RunEnd(c, 12, SentenceEnd) == 12;
    SegmentUnfold(c, SentenceEnd);
    assert c[..11] == "A great day" && c[12..] == "";
    SplitNonEmpty(c[12..], SentenceEnd);
  }

  lemma GreatDayNonBlank()
    ensures NonBlank("A great day")
  {
    assert !AllInClass("A great day", Whitespace) by {
      assert !IsWhitespace("A great day"[0]);
    }
  }

  lemma GreatDayFilter()
    ensures Filter(["A great day", ""], NonBlank) == ["A great day"]
  {
    var ps := ["A great day", ""];
    GreatDayNonBlank();
    assert ps[1..] == [""] && [""][1..] == [];
    assert !NonBlank("");
  }
}
