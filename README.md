# Content workflows of the mastra example project, modelled in Dafny

This project models the two content workflows of the repository:

- **conditional-content-workflow**. An assessment step counts the words of the content. It classifies the content as short, medium or long, and as simple or complex. A three-way branch then sends the assessment to quick, standard or deep processing.
- **parallel-analysis-workflow**. Three analyses run on the same input: SEO keywords and score, readability score and grade, and a word-list sentiment vote. A `combine-results` step re-keys their outputs into one record.

Both files are pure: each step body is a chain of string and array operations that returns a fresh record. The model is therefore made of datatypes, functions and lemmas. There are six modules:

- `JsText` (`js_text.dfy`): the JavaScript primitives the steps use, over ASCII.
  - `split` on `/\s+/` and on `/[.!?]+/`. Each maximal run of separator characters is one separator. A leading or trailing run leaves an empty piece, and the empty string splits into `[""]`.
  - `trim`, `toLowerCase`, `includes`, `filter` and `slice(0, n)`.
  - The decimal rendering of a number inside a template literal.

  `Segment` returns the separators as well as the pieces. Its contract pins the split down: the pieces hold no separator character, the separators are non-empty runs, no piece but the first and the last is empty (so every run is maximal), and gluing pieces and separators back together (`Interleave`) gives the original string.
- `JsMath` (`js_math.dfy`): `Math.max`, the smaller-of-two that gives the length of `slice(0, n)`, and the sign fact about real products that the exact-division arguments rest on.
- `Engine` (`engine.dfy`): `.branch([...])` and `.parallel([...])`. The orchestration library is not part of this model, so its semantics here is an explicit assumption:
  - A branch runs every target whose predicate holds, not only the first, in declaration order.
  - All steps of a branch or parallel stage see the same upstream value.
  - The outputs are collected into a record keyed by step id.
- `Content` (`content.dfy`): the shared input record `{ content, type }`, where `type` defaults to `article`.
- `ConditionalWorkflow` (`conditional_workflow.dfy`) and `ParallelWorkflow` (`parallel_workflow.dfy`): the steps, the routing table, the fan-out and the workflows' composition.

The two `Math.random()` draws become parameters of type `RandomDraw`, a real in `[0, 1)`.

Two behaviours of the code are kept as written:

- An empty or all-blank content has word count 1, because `"".split(/\s+/)` is `[""]`.
- Short, complex content matches both the quick and the deep predicate, so both steps run.

## Model

| member | source | states |
|---|---|---|
| JsText.Segment | src/mastra/workflows/conditional-workflow.ts:21 | `split(/[k]+/)`: one more piece than separators, pieces free of class `k`, separators non-empty runs of class `k`, no empty piece except possibly the first and the last, and pieces interleaved with separators give back the string |
| JsText.SegmentFirstPiece | src/mastra/workflows/conditional-workflow.ts:29 | no separator exactly when the string has no class character; the first piece is empty exactly when the string is empty or starts with a separator |
| JsText.SegmentInnerPieces | src/mastra/workflows/conditional-workflow.ts:29 | only the first and the last piece can be empty (`Segment`'s maximality clause) |
| JsText.SegmentLastPiece | src/mastra/workflows/conditional-workflow.ts:29 | the last piece is empty exactly when the string is empty or ends with a separator |
| JsText.SplitInnerString | src/mastra/workflows/conditional-workflow.ts:21 | a string that starts and ends outside the class splits into non-empty pieces only |
| JsText.Split | src/mastra/workflows/conditional-workflow.ts:21 | `split(/[k]+/)`: the pieces of `Segment`, whose contract determines them uniquely |
| JsText.SplitNonEmpty | src/mastra/workflows/parallel-workflow.ts:46-47 | a split always has at least one piece; the empty string splits into `[""]` |
| JsText.Trim | src/mastra/workflows/conditional-workflow.ts:21 | `trim()`: the result is the stretch of the input between leading and trailing whitespace, with no whitespace at either end; it is empty exactly when the input is all whitespace |
| JsText.ToLower | src/mastra/workflows/parallel-workflow.ts:20 | `toLowerCase()`: same length, no upper-case letter left, each character lower-cased on its own |
| JsText.SegmentToLower | src/mastra/workflows/parallel-workflow.ts:20 | splitting the lower-cased string gives exactly the lower-cased pieces of the original split |
| JsText.SegmentUnfold | src/mastra/workflows/conditional-workflow.ts:21 | the first piece of a split is everything before the first separator run, and the remaining pieces are the split of what follows that run |
| JsText.Includes | src/mastra/workflows/parallel-workflow.ts:80-81 | `includes(w)`: `w` is a prefix of the string or of one of its suffixes |
| JsText.IncludesIffOccurs | src/mastra/workflows/parallel-workflow.ts:80-81 | `includes(w)` holds exactly when `w` occurs at some index of the string |
| JsText.Filter | src/mastra/workflows/conditional-workflow.ts:29 | `filter(p)`: an order-preserving selection of the input; each value satisfying `p` occurs in the result exactly as many times as in the input, and every other value not at all |
| JsText.FilterKeepsAll | src/mastra/workflows/parallel-workflow.ts:80-81 | the filter keeps every element exactly when all of them satisfy the predicate |
| JsText.FilterAppend | src/mastra/workflows/conditional-workflow.ts:144 | filtering distributes over concatenation |
| JsText.FilterCountsPositions | src/mastra/workflows/parallel-workflow.ts:80-81 | the length of a filter is the number of positions whose element satisfies the predicate |
| JsText.PositionsSnoc | src/mastra/workflows/parallel-workflow.ts:80-81 | appending one element adds one satisfying position exactly when that element satisfies the predicate |
| JsText.Take | src/mastra/workflows/conditional-workflow.ts:145 | `slice(0, n)`: a prefix of length `min(n, length)` |
| JsText.NatToString | src/mastra/workflows/conditional-workflow.ts:72 | `${n}`: a non-empty digit string without a leading zero |
| JsText.NatToStringRoundTrip | src/mastra/workflows/conditional-workflow.ts:72 | reading back the rendered digits gives the number |
| Engine.Selected | src/mastra/workflows/conditional-workflow.ts:178-204 | the selected targets are exactly those whose predicate holds for the upstream value, and there are no more of them than routes |
| Engine.Collect | src/mastra/workflows/parallel-workflow.ts:118 | the collected record has exactly the run step ids as keys, each holding that step's output on the common input |
| Engine.CollectOne | src/mastra/workflows/conditional-workflow.ts:178-204 | one step collected gives a one-entry record |
| Engine.Branch | src/mastra/workflows/conditional-workflow.ts:178-204 | `.branch(routes)`: the result has a key exactly for each target whose predicate holds for the upstream value, holding that step's output on it |
| Engine.Parallel | src/mastra/workflows/parallel-workflow.ts:118 | `.parallel(ids)`: the result has exactly the listed ids as keys, each holding that step's output on the common input |
| Engine.BranchInclusion | src/mastra/workflows/conditional-workflow.ts:178-204 | the branch result holds exactly the targets whose predicate holds, each with its output on the upstream value; no predicate holding gives the empty record |
| Content.TypeName | src/mastra/workflows/conditional-workflow.ts:10 | each `type` value has its own string name, `article`, `blog` or `social` |
| Content.WithDefaults | src/mastra/workflows/conditional-workflow.ts:165-168 | the content is untouched; a missing `type` becomes `article` and a given one is kept |
| ConditionalWorkflow.Words | src/mastra/workflows/conditional-workflow.ts:21 | `content.trim().split(/\s+/)`: the pieces of the whitespace split of the trimmed content, characterized by `WordsAreWords` |
| ConditionalWorkflow.WordCount | src/mastra/workflows/conditional-workflow.ts:21 | the word count is at least 1 |
| ConditionalWorkflow.WordsAreWords | src/mastra/workflows/conditional-workflow.ts:21 | all-blank content is one empty word; otherwise every word is a non-empty run without whitespace, and words and whitespace runs reassemble the trimmed content |
| ConditionalWorkflow.CategoryOf | src/mastra/workflows/conditional-workflow.ts:24-26 | `short` iff at most 50 words, `medium` iff 51..200, `long` iff more than 200 |
| ConditionalWorkflow.CategoryMonotone | src/mastra/workflows/conditional-workflow.ts:24-26 | more words never give a smaller category |
| ConditionalWorkflow.NonBlank | src/mastra/workflows/conditional-workflow.ts:29 | `s => s.trim().length > 0`: something other than whitespace is left after trimming |
| ConditionalWorkflow.Sentences | src/mastra/workflows/conditional-workflow.ts:29 | the non-blank pieces of the sentence split, in order, none containing a terminator; each non-blank piece occurs exactly as many times as in the split, and no blank piece occurs |
| ConditionalWorkflow.ComplexityOf | src/mastra/workflows/conditional-workflow.ts:30-32 | `complex` iff wordCount > 15 * max(sentences, 1), the exact integer form of the average comparison |
| ConditionalWorkflow.AverageAbove | src/mastra/workflows/conditional-workflow.ts:30-32 | `n / d > 15` in exact division iff `n > 15 * d` |
| ConditionalWorkflow.Assess | src/mastra/workflows/conditional-workflow.ts:19-43 | content and type pass through, the word count is that of the trimmed content and at least 1, and category and complexity follow the thresholds |
| ConditionalWorkflow.ReadingTime | src/mastra/workflows/conditional-workflow.ts:101 | `ceil(wordCount / 200)`: the least `t` with `wordCount <= 200 * t`, at least 1 for a non-empty count |
| ConditionalWorkflow.Summary | src/mastra/workflows/conditional-workflow.ts:72 | the template shared by the quick (line 72), standard (line 108) and deep (line 152) summaries: it starts with the lead and a space and ends with ` word ` and the type, with exactly the decimal word count between them |
| ConditionalWorkflow.SummaryStatesWordCount | src/mastra/workflows/conditional-workflow.ts:72 | the summary starts with its lead and the decimal word count, and that count reads back as the word count |
| ConditionalWorkflow.QuickProcess | src/mastra/workflows/conditional-workflow.ts:67-73 | copies content, type and word count, sets `quick` and the quick summary, no metadata |
| ConditionalWorkflow.StandardProcess | src/mastra/workflows/conditional-workflow.ts:101-112 | copies content, type and word count, sets `standard`, the standard summary and the reading time |
| ConditionalWorkflow.KeyPoints | src/mastra/workflows/conditional-workflow.ts:142-145 | the first `min(3, sentences)` non-blank sentences, each trimmed, in order |
| ConditionalWorkflow.TrimEach | src/mastra/workflows/conditional-workflow.ts:145 | `.map(s => s.trim())`: same length, each element trimmed in place |
| ConditionalWorkflow.KeyPointsAreSentences | src/mastra/workflows/conditional-workflow.ts:142-145 | at most 3 key points, each non-empty, free of terminators and without surrounding whitespace |
| ConditionalWorkflow.TrimKeepsSentence | src/mastra/workflows/conditional-workflow.ts:145 | trimming a non-blank sentence leaves a non-empty, terminator-free text with no whitespace at its ends |
| ConditionalWorkflow.DeepProcess | src/mastra/workflows/conditional-workflow.ts:141-157 | copies content, type and word count, sets `deep`, the deep summary, the reading time and the key points |
| ConditionalWorkflow.Execute | src/mastra/workflows/conditional-workflow.ts:46-159 | binds each branch step id to its processing step: quick, standard or deep |
| ConditionalWorkflow.QuickGuard | src/mastra/workflows/conditional-workflow.ts:180-185 | the quick route's predicate: the category is short |
| ConditionalWorkflow.DeepGuard | src/mastra/workflows/conditional-workflow.ts:187-193 | the deep route's predicate: the category is long or the content is complex |
| ConditionalWorkflow.StandardGuard | src/mastra/workflows/conditional-workflow.ts:196-202 | the standard route's predicate: the category is medium and the content is simple |
| ConditionalWorkflow.Routes | src/mastra/workflows/conditional-workflow.ts:178-204 | the three `[predicate, step]` pairs of the branch, in declaration order |
| ConditionalWorkflow.BranchFollowsGuards | src/mastra/workflows/conditional-workflow.ts:178-204 | whatever the steps compute, the branch runs quick, deep and standard processing exactly when their own predicates hold, and runs at least one of them |
| ConditionalWorkflow.Run | src/mastra/workflows/conditional-workflow.ts:177-204 | quick processing runs iff the content is short, deep iff long or complex, standard iff medium and simple; each runs on the assessment of the defaulted input, and at least one runs |
| ConditionalWorkflow.RoutingTable | src/mastra/workflows/conditional-workflow.ts:178-204 | long gives deep only; medium and simple gives standard only; medium and complex gives deep only; short and simple gives quick only; short and complex gives quick then deep |
| ConditionalWorkflow.EveryAssessmentRouted | src/mastra/workflows/conditional-workflow.ts:178-204 | every assessment matches at least one predicate |
| ConditionalWorkflow.RunFollowsRouting | src/mastra/workflows/conditional-workflow.ts:177-204 | the workflow runs exactly the selected steps, each on the assessment of the defaulted input |
| ConditionalWorkflow.LongBranch | src/mastra/workflows/conditional-workflow.ts:187-193 | a long assessment yields only the deep-processing output |
| ConditionalWorkflow.ShortSimpleBranch | src/mastra/workflows/conditional-workflow.ts:180-185 | a short, simple assessment yields only the quick-processing output |
| ConditionalWorkflow.LongContentGoesDeep | src/mastra/workflows/conditional-workflow.ts:177-204 | content of more than 200 words comes out of deep processing only |
| ConditionalWorkflow.DeepProcessLong | src/mastra/workflows/conditional-workflow.ts:141-145 | long content reads in at least 2 minutes, and with 3 or more sentences its key points are the first three, trimmed |
| ConditionalWorkflow.KeyPointsFirstThree | src/mastra/workflows/conditional-workflow.ts:145 | with 3 or more sentences the key points are exactly the first three, trimmed |
| ConditionalWorkflow.GreatDayScenario | src/mastra/workflows/conditional-workflow.ts:19-204 | "A great day." with no type gives only quick processing, with summary "Quick summary of 3 word article" |
| ConditionalWorkflow.GreatDayAssessment | src/mastra/workflows/conditional-workflow.ts:19-43 | "A great day." is assessed as a 3-word short, simple article |
| ConditionalWorkflow.GreatDayQuick | src/mastra/workflows/conditional-workflow.ts:67-73 | quick processing of that assessment gives the expected record |
| ConditionalWorkflow.GreatDayWords | src/mastra/workflows/conditional-workflow.ts:21 | "A great day." has 3 words |
| ConditionalWorkflow.GreatDayTrimmed | src/mastra/workflows/conditional-workflow.ts:21 | "A great day." is unchanged by trimming |
| ConditionalWorkflow.GreatDaySentences | src/mastra/workflows/conditional-workflow.ts:29 | "A great day." has one non-blank sentence |
| ConditionalWorkflow.GreatDaySentenceSplit | src/mastra/workflows/conditional-workflow.ts:29 | splitting "A great day." on terminators leaves a trailing empty piece |
| ParallelWorkflow.IsKeyword | src/mastra/workflows/parallel-workflow.ts:21 | `word => word.length > 4` |
| ParallelWorkflow.LongWords | src/mastra/workflows/parallel-workflow.ts:20-21 | the lower-cased words longer than 4 characters, in order |
| ParallelWorkflow.Keywords | src/mastra/workflows/parallel-workflow.ts:20-21 | exactly the first `min(3, n)` of the `n` lower-cased words longer than 4, in order; so at most 3, each longer than 4, and fewer than 3 only when no long word is left out |
| ParallelWorkflow.KeywordsAreLowerWords | src/mastra/workflows/parallel-workflow.ts:20-21 | every keyword is lower-case and contains no whitespace |
| ParallelWorkflow.SeoScore | src/mastra/workflows/parallel-workflow.ts:24 | `floor(r * 40) + 60` lies in 60..99 |
| ParallelWorkflow.SeoStep | src/mastra/workflows/parallel-workflow.ts:16-27 | score in 60..99 and the keywords of the content |
| ParallelWorkflow.ReadabilityScore | src/mastra/workflows/parallel-workflow.ts:46-50 | `max(0, 100 - (words / sentences) * 3)` over the unfiltered counts: in [0, 100), and positive iff 3 * words < 100 * sentences |
| ParallelWorkflow.GradeLevel | src/mastra/workflows/parallel-workflow.ts:51 | `Easy` iff the score is above 80, `Medium` iff above 60 and at most 80, `Hard` iff at most 60 |
| ParallelWorkflow.ReadabilityStep | src/mastra/workflows/parallel-workflow.ts:46-56 | floored score is `max(0, 100 - ceil(3 * words / sentences))` over the unfiltered counts, so in 0..99; `Easy` iff 3 * words < 20 * sentences, `Medium` iff between 20 and 40 sentences-worth, `Hard` otherwise |
| ParallelWorkflow.ReadabilityFloor | src/mastra/workflows/parallel-workflow.ts:50-54 | `Math.floor` of the score is `max(0, 100 - (3 * words + sentences - 1) / sentences)` in integers |
| ParallelWorkflow.TripleRatioCeiling | src/mastra/workflows/parallel-workflow.ts:48-50 | `(3 * w + s - 1) / s` is the ceiling of `(w / s) * 3` |
| ParallelWorkflow.ReadabilityBounds | src/mastra/workflows/parallel-workflow.ts:46-51 | the unfloored score lies in [0, 100), is above 80 iff 3 * words < 20 * sentences and above 60 iff 3 * words < 40 * sentences |
| ParallelWorkflow.TripleRatioBelow | src/mastra/workflows/parallel-workflow.ts:48-50 | `3 * (w / s) < b` in exact division iff `3 * w < b * s` |
| ParallelWorkflow.PositiveWords | src/mastra/workflows/parallel-workflow.ts:77 | the four positive words `good`, `great`, `excellent`, `amazing` |
| ParallelWorkflow.NegativeWords | src/mastra/workflows/parallel-workflow.ts:78 | the four negative words `bad`, `terrible`, `awful`, `horrible` |
| ParallelWorkflow.IncludedIn | src/mastra/workflows/parallel-workflow.ts:80-81 | `word => content.includes(word)` |
| ParallelWorkflow.MatchCount | src/mastra/workflows/parallel-workflow.ts:80-81 | the count is the number of list positions whose word the content includes, so at most the list length; it equals the length iff all listed words occur, and is 0 iff none occurs |
| ParallelWorkflow.MatchesArePositions | src/mastra/workflows/parallel-workflow.ts:80-81 | the length of the `includes` filter is the number of matched list positions |
| ParallelWorkflow.MatchesAllOrNone | src/mastra/workflows/parallel-workflow.ts:80-81 | the `includes` filter keeps every word iff all occur, and none iff none occurs |
| ParallelWorkflow.SentimentOf | src/mastra/workflows/parallel-workflow.ts:83-85 | positive iff more positive matches, negative iff more negative matches, neutral on a tie |
| ParallelWorkflow.Confidence | src/mastra/workflows/parallel-workflow.ts:89 | `r * 0.3 + 0.7` lies in [0.7, 1.0) |
| ParallelWorkflow.SentimentStep | src/mastra/workflows/parallel-workflow.ts:76-90 | both counts in 0..4 over the lower-cased content, the vote as above, confidence in [0.7, 1.0) |
| ParallelWorkflow.NoListedWordIsNeutral | src/mastra/workflows/parallel-workflow.ts:80-85 | content containing none of the eight listed words is neutral |
| ParallelWorkflow.Execute | src/mastra/workflows/parallel-workflow.ts:5-92 | binds each analysis step id to its step: SEO, readability or sentiment, with the draw each needs |
| ParallelWorkflow.Analyses | src/mastra/workflows/parallel-workflow.ts:118 | the `.parallel([...])` list: SEO, readability, sentiment, in declaration order |
| ParallelWorkflow.Join | src/mastra/workflows/parallel-workflow.ts:118 | the joined record has a key exactly for each of the three analyses, each holding that analysis of the common input |
| ParallelWorkflow.JoinComplete | src/mastra/workflows/parallel-workflow.ts:118 | the joined record has exactly the three step ids, each holding that analysis of the same input |
| ParallelWorkflow.Combine | src/mastra/workflows/parallel-workflow.ts:123-163 | succeeds iff all three ids are present with outputs of their own shape, and then re-keys them as `seo`, `readability`, `sentiment` unchanged |
| ParallelWorkflow.Run | src/mastra/workflows/parallel-workflow.ts:118-165 | a run never fails the `combine-results` input schema |
| ParallelWorkflow.RunCombinesAnalyses | src/mastra/workflows/parallel-workflow.ts:118-165 | a run always passes `combine-results` and yields exactly the three analyses of the defaulted input |

## Left out

- The orchestration library (`createStep`, `createWorkflow`, `.then`, `.branch`, `.parallel`, `.commit`) is not part of this model. Its branch and fan-out semantics is assumed as described above. Concurrent execution, fail-fast cancellation, commit-time checks and step failure are not modelled.
- Run-time schema validation is left out. Records are Dafny datatypes, and `type` is an enum that defaults to `article`. The one validation that matters for the data, the `combine-results` input shape, is modelled by `ParallelWorkflow.Combine`.
- The conditional workflow's output schema check on the branch result is not modelled. `ConditionalWorkflow.Run` returns the keyed record of the steps that ran.
- `console.log` calls and `setTimeout` delays are left out. They have no effect on the data.
- `Math.random()` is a parameter: any real in `[0, 1)`.
- Unicode is left out. Whitespace is the ASCII `\s` set (tab, line feed, vertical tab, form feed, carriage return, space), and `toLowerCase` maps only `A`–`Z`.
- ParallelWorkflow.ReadabilityStep: computes the score in exact real arithmetic, so double-precision rounding exactly at the 80 and 60 thresholds is not captured.
- ParallelWorkflow.Confidence: an exact real, not a double.
- ConditionalWorkflow.ComplexityOf: uses exact division, so double rounding at the threshold of 15 words per sentence is not captured.
- src/mastra/agents/financial-agent.ts and src/mastra/index.ts are not part of this model. They are agent, client and server configuration.
