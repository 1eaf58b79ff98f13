# Dicio standard sentence matcher and skill evaluator, modelled in Dafny

This project models three pieces of the Dicio voice assistant.

- **The standard score** (`standard_score.dfy`, module `StandardScores`). A match score holds four weights: user matched, user weight, reference matched and reference weight. It also holds an untyped binary tree of capturing groups. The module covers:
  - the linear `score()`;
  - the harmonic-mean `scoreIn01Range()`;
  - `isBetterThan`;
  - the three `plus` overloads and `EMPTY`;
  - `keepBest`, with its strict `>` tie-break;
  - the depth-first capture lookup and the typed or substring extraction.

  The untyped tree becomes the datatype `CaptureTree = Null | Leaf | Pair | Unexpected`. `Unexpected` stands for an object of any other type, which the lookup rejects with an exception. Exceptions become `Failure` values.
- **One word of a sentence pattern** (`word_construct.dfy`, module `WordConstructs`). This is a literal or a regex, together with its step of the right-to-left dynamic program. `MatchWords` is the in-place loop over the `memToEnd` array. It is specified by `Fold`, the sequential rewrite of positions in ascending order. The lemma `FoldIsMatchAll` proves that this rewrite equals the pure map `MatchAll` over the old array whenever every word ends at or after its start. The source needs only `end >= start`, not a strict `>`: the slot at `start` is read before it is overwritten.
- **The skill evaluator's bookkeeping** (`skill_evaluator.dfy`, module `SkillEvaluation`). This covers:
  - the interaction log and the pending question;
  - the choice between the first matching utterance and the fallback skill;
  - the rule that pushes a batch of skills, resets the stack or leaves it alone after an answer.

  The pure function `Evaluate` specifies one evaluation. The class method `SkillEvaluator.EvaluateMatchingSkill` implements it with the same calls and early returns as the source, searching the utterances in a loop that stops at the first match. The ranker is modelled as a class that holds the stack of pushed batches; each search may discard them, and whether the answer continues the conversation is read after the search.

Score weights are `real`s. All laws are about the real-valued formulas.

## Model

| member | source | states |
|---|---|---|
| StandardScores.StandardScore.Score | skill/src/main/java/org/dicio/skill/standard/StandardScore.kt:18-23 | the score gains 0.9 for each matched unit of weight and loses 1.1 for each unit considered but not matched (the coefficients 2, -1.1, 2, -1.1) |
| StandardScores.StandardScore.ScoreIn01Range | skill/src/main/java/org/dicio/skill/standard/StandardScore.kt:25-41 | zero exactly when some weight is not positive, strictly positive otherwise, and at most 1 when matched does not exceed weight on both sides |
| StandardScores.HarmonicMeanBounds | skill/src/main/java/org/dicio/skill/standard/StandardScore.kt:35-40 | the harmonic mean is at most twice either matched fraction and at least the smaller one, so a poorly matched side pulls it down |
| StandardScores.StandardScore.IsBetterThan | skill/src/main/java/org/dicio/skill/standard/StandardScore.kt:43-49 | against a standard score it compares scores; against another kind it compares unit-range values, so a score whose matched weights do not exceed its weights never beats another kind's perfect 1, and always beats a negative one |
| StandardScores.IsBetterThanStrictOrder | skill/src/main/java/org/dicio/skill/standard/StandardScore.kt:43-49 | between standard scores isBetterThan is irreflexive, asymmetric and transitive |
| StandardScores.StandardScore.Plus | skill/src/main/java/org/dicio/skill/standard/StandardScore.kt:87-101 | the score of a sum is the sum of the scores; the capture leaves are this tree's followed by the other's; a null side yields the other tree unchanged |
| StandardScores.PlusLookup | skill/src/main/java/org/dicio/skill/standard/StandardScore.kt:93-99 | a lookup in a sum searches the left operand first and the right one only when the left has no such name |
| StandardScores.PlusAssociative | skill/src/main/java/org/dicio/skill/standard/StandardScore.kt:87-101 | sums are associative in score and in leaf order, so lookups do not depend on bracketing, although the tree shape does |
| StandardScores.EmptyIsIdentity | skill/src/main/java/org/dicio/skill/standard/StandardScore.kt:139 | EMPTY is a left and right identity of plus |
| StandardScores.StandardScore.PlusWeights | skill/src/main/java/org/dicio/skill/standard/StandardScore.kt:103-116 | the weights-only plus keeps the capture tree and adds the score of the added weights |
| StandardScores.StandardScore.PlusCapture | skill/src/main/java/org/dicio/skill/standard/StandardScore.kt:118-136 | the capture-adding plus yields the group on a null tree and a pair with the group rightmost otherwise; it equals plus with a score carrying that group |
| StandardScores.PlusCaptureLookup | skill/src/main/java/org/dicio/skill/standard/StandardScore.kt:118-136 | a newly added group is found only when no earlier group has its name; otherwise the earlier group wins |
| StandardScores.KeepBest | skill/src/main/java/org/dicio/skill/standard/StandardScore.kt:141-143 | with no current score the candidate is returned; the result is one of the arguments with a score at least both; on a tie the current score is kept |
| StandardScores.KeepBestIsBetterThan | skill/src/main/java/org/dicio/skill/standard/StandardScore.kt:141-143 | keepBest replaces the current score exactly when the candidate isBetterThan it, and is idempotent on equal arguments |
| StandardScores.Explore | skill/src/main/java/org/dicio/skill/standard/StandardScore.kt:51-70 | the only exception is the unexpected-type one, and a capture found carries the requested name |
| StandardScores.FirstHit | skill/src/main/java/org/dicio/skill/standard/StandardScore.kt:51-70 | reference search over the leaf order: null iff every leaf is a capture of another name; otherwise the first leaf that is not walked past decides between the capture and the exception |
| StandardScores.ExploreIsFirstHit | skill/src/main/java/org/dicio/skill/standard/StandardScore.kt:51-70 | the tree walk returns the first capture with the name in left-before-right depth-first order, or throws if an unexpected node comes first |
| StandardScores.StandardScore.GetCapturingGroup | skill/src/main/java/org/dicio/skill/standard/StandardScore.kt:72-85 | null exactly when the name is absent; a returned value always has the requested type; a typed capture yields its value; a range requested as a string yields that substring of the input; every other case fails |
| StandardScores.CapturedSpanRoundTrip | skill/src/main/java/org/dicio/skill/standard/StandardScore.kt:72-85 | a span captured into a score with no earlier group of that name reads back as the text of the input it covers |
| WordConstructs.Entry | skill/src/main/java/org/dicio/skill/standard/construct/WordConstruct.kt:20-43 | without a matching word at the position, only the reference weight grows by the construct's weight; with one, the result is skip or a full-credit consumption, scores at least both, and a tie keeps the match |
| WordConstructs.MatchAll | skill/src/main/java/org/dicio/skill/standard/construct/WordConstruct.kt:19-44 | the step keeps the number of positions, and a position where the construct matches no word is charged the construct's weight on the reference side only |
| WordConstructs.MatchAllLosesAtMostWeight | skill/src/main/java/org/dicio/skill/standard/construct/WordConstruct.kt:29-43 | no position's score drops by more than 1.1 times the construct's weight, the cost of skipping it |
| WordConstructs.EntryReads | skill/src/main/java/org/dicio/skill/standard/construct/WordConstruct.kt:29-43 | the new score at a position depends only on the old scores at that position and at the end of the word starting there |
| WordConstructs.Fold | skill/src/main/java/org/dicio/skill/standard/construct/WordConstruct.kt:19-44 | rewriting the positions in ascending order keeps the length and leaves every position not yet reached untouched |
| WordConstructs.FoldIsMatchAll | skill/src/main/java/org/dicio/skill/standard/construct/WordConstruct.kt:19-44 | when every word ends at or after its start, each position rewritten in place holds the value computed from the old array |
| WordConstructs.FoldAllIsMatchAll | skill/src/main/java/org/dicio/skill/standard/construct/WordConstruct.kt:19-44 | under the same condition the whole in-place loop equals the pure map over the old array |
| WordConstructs.MatchAt | skill/src/main/java/org/dicio/skill/standard/construct/WordConstruct.kt:20-43 | one iteration of the loop rewrites only the position it is at, with the value Entry computes from the array as it is then |
| WordConstructs.MatchWords | skill/src/main/java/org/dicio/skill/standard/construct/WordConstruct.kt:19-44 | the loop leaves the array equal to the ascending fold of the old array, and to the pure map when words do not end before they start |
| WordConstructs.MatchToEnd | skill/src/main/java/org/dicio/skill/standard/construct/WordConstruct.kt:16-47 | matchToEnd is the loop followed by the normalisation of the resulting array |
| WordConstructs.MatchAllKeepsSane | skill/src/main/java/org/dicio/skill/standard/construct/WordConstruct.kt:29-43 | with non-negative weights, the step keeps matched weight at most considered weight on both sides, so every unit-range score stays within [0, 1] |
| WordConstructs.WordText | skill/src/main/java/org/dicio/skill/standard/construct/WordConstruct.kt:23-26 | a diacritics-sensitive construct compares the original text of the word and any other construct its normalised text |
| WordConstructs.Matches | skill/src/main/java/org/dicio/skill/standard/construct/WordConstruct.kt:23-28 | a literal matches exactly the words whose compared form equals its text, and a regex exactly those whose compared form it fully matches; the compared form is the original text when diacritics-sensitive and the normalised one otherwise, for literals and regexes alike |
| WordConstructs.DiacriticsInsensitive | skill/src/main/java/org/dicio/skill/standard/construct/WordConstruct.kt:23-28 | a construct that is not diacritics-sensitive compares only the normalised text |
| SkillEvaluation.AddInteraction | app/src/main/kotlin/org/stypox/dicio/eval/SkillEvaluator2.kt:163-189 | a continuing answer extends the last interaction and keeps the count and the earlier interactions; otherwise a new interaction with the pending skill is appended; nothing is pending afterwards |
| SkillEvaluation.AddInteractionAppendsToTranscript | app/src/main/kotlin/org/stypox/dicio/eval/SkillEvaluator2.kt:171-188 | the log is append-only: the transcript of all questions and answers grows by exactly the new one, at its end |
| SkillEvaluation.StackAt | app/src/main/kotlin/org/stypox/dicio/eval/SkillEvaluator2.kt:90-95 | each utterance is searched on the stack the earlier searches left, which is the original stack or empty: a search can discard the pushed batches but never push |
| SkillEvaluation.FirstMatch | app/src/main/kotlin/org/stypox/dicio/eval/SkillEvaluator2.kt:90-95 | the index found is the first utterance for which the search, on the stack left by the earlier searches, gives a skill; none is found only when every search gives null |
| SkillEvaluation.ChooseSkill | app/src/main/kotlin/org/stypox/dicio/eval/SkillEvaluator2.kt:89-104 | the first matching utterance with its skill, isFallback false and the stack left by its search; otherwise the first utterance with the fallback skill, isFallback true and the stack left by all searches; an empty list fails |
| SkillEvaluation.AfterOutput | app/src/main/kotlin/org/stypox/dicio/eval/SkillEvaluator2.kt:141-150 | non-empty next skills push exactly that batch; empty next skills reset the stack unless the answer came from the fallback skill, which keeps it |
| SkillEvaluation.Evaluate | app/src/main/kotlin/org/stypox/dicio/eval/SkillEvaluator2.kt:88-156 | nothing is pending afterwards; without utterances the stack is untouched; otherwise the new stack is the old one, an empty one, or one of those with one non-empty batch pushed |
| SkillEvaluation.EvaluateLaws | app/src/main/kotlin/org/stypox/dicio/eval/SkillEvaluator2.kt:88-156 | every evaluation appends exactly one question and answer to the transcript and leaves nothing pending: the pending question with an error when no utterance can be chosen; otherwise the chosen utterance with the refusal when permissions are denied, an error when the output cannot be generated, and the skill's output otherwise; the stack is the one the search left, passed through AfterOutput exactly when the skill produced an output |
| SkillEvaluation.ContinuesIffBatchesKept | app/src/main/kotlin/org/stypox/dicio/eval/SkillEvaluator2.kt:111-120 | the answer joins the last interaction exactly when the stack the search left still holds a batch (and there is a last interaction); otherwise it opens a new interaction that belongs to the chosen skill |
| SkillEvaluation.EvaluateIgnoresEarlierPending | app/src/main/kotlin/org/stypox/dicio/eval/SkillEvaluator2.kt:111-120 | once a skill is chosen its pending question replaces the one a final event recorded |
| SkillEvaluation.SkillRanker.HasAnyBatches | app/src/main/kotlin/org/stypox/dicio/eval/SkillEvaluator2.kt:117 | true exactly when some batch is pushed above the default one |
| SkillEvaluation.SkillRanker.AddBatchToTop | app/src/main/kotlin/org/stypox/dicio/eval/SkillEvaluator2.kt:148 | the batch is pushed on top of the stack |
| SkillEvaluation.SkillRanker.RemoveAllBatches | app/src/main/kotlin/org/stypox/dicio/eval/SkillEvaluator2.kt:145 | the stack is reset to the default batch only |
| SkillEvaluation.SkillRanker.GetBest | app/src/main/kotlin/org/stypox/dicio/eval/SkillEvaluator2.kt:93 | the search returns the best skill on the current stack and discards the pushed batches exactly when the input does not continue their conversation |
| SkillEvaluation.SkillEvaluator.constructor | app/src/main/kotlin/org/stypox/dicio/eval/SkillEvaluator2.kt:32-43 | the log starts empty with nothing pending, and the evaluator owns a new ranker with no pushed batch |
| SkillEvaluation.SkillEvaluator.AddInteractionFromPending | app/src/main/kotlin/org/stypox/dicio/eval/SkillEvaluator2.kt:163-189 | the copy-and-update of the interaction list yields AddInteraction of the old log, with the stack deciding when nothing is pending |
| SkillEvaluation.SkillEvaluator.AddErrorInteractionFromPending | app/src/main/kotlin/org/stypox/dicio/eval/SkillEvaluator2.kt:158-161 | an error answers the pending question with an error output |
| SkillEvaluation.SkillEvaluator.EvaluateMatchingSkill | app/src/main/kotlin/org/stypox/dicio/eval/SkillEvaluator2.kt:88-156 | the new log and stack are those Evaluate gives for the old ones |
| SkillEvaluation.SkillEvaluator.ProcessInputEvent | app/src/main/kotlin/org/stypox/dicio/eval/SkillEvaluator2.kt:55-86 | None clears the pending question; Partial sets one whose continuation flag is whether any batch is pushed; Error answers with an error; Final records its first utterance and then evaluates |

## Left out

- Float rounding: the score fields are `real`, so the laws hold of the formulas rather than of IEEE-754 arithmetic.
- Regex compilation and matching: a construct carries its regex as a full-match predicate on strings, `regexMatches`.
- NFKD normalisation and word splitting: each word carries both its original and its normalised text.
- `MatchHelper` and how it is built (`splitWords`, `splitWordsIndices`, `cumulativeWeight`): not part of this model. These are inputs, and `ValidHelper` states the index bounds the loop relies on.
- `normalizeMemToEnd` is not part of this model. `MatchToEnd` takes it as a function parameter that keeps the array length.
- The other construct kinds (optional, capturing group, sequence) are not part of this model.
- The internals of `SkillRanker` are not part of this model. Its stack is a sequence of batches with push and reset. Its search is a given function of the stack and the input that returns the best skill and whether the pushed batches are discarded; `getFallbackSkill` is a given function that leaves the stack unchanged.
- Exceptions from `getBest`, the permission prompt, `getNextSkills` and speech output are not modelled. Only a throwing `generateOutput` (as `None`) and an empty utterance list are.
- `SkillEvaluation.EvaluateLaws` states that one question is answered. In the source, an exception from `getSpeechOutput`, `speak` or `getNextSkills` after the answer was logged (SkillEvaluator2.kt lines 133-150) is caught at line 152 and logs a second, error answer; that path is not modelled.
- Coroutines, `StateFlow`, dispatchers, speech output, `sttInputDevice.tryLoad` and logging are left out. They are I/O and concurrency.
- `SkillEvaluation.SkillEvaluator.ProcessInputEvent` requires a non-empty utterance list for a final event. The source indexes the first utterance outside the try block, and the event collector that would receive that exception is not modelled.
- `StandardScores.StandardScore.GetCapturingGroup` takes the reified type as a `Kind`. It accepts a typed value only when the value has exactly that kind, so a request for a supertype (such as `Any`) is not modelled.
- Kotlin string indices count UTF-16 code units; here they count `char`s.
- `StandardScores.StandardScore.IsBetterThan` sees a score of another kind only through its `scoreIn01Range()` value.
- `StandardScores.StandardScore.ScoreIn01Range` proves the [0, 1] range promised by its doc comment only when matched weight does not exceed considered weight. `WordConstructs.MatchAllKeepsSane` shows that the word step preserves that condition.
- `StandardScores.PlusAssociative`: combination is associative in the weights and in the leaf order, but not in the capture tree's shape (`Pair(Pair(a, b), c)` differs from `Pair(a, Pair(b, c))`), so the lemma states associativity of the score and of lookups rather than equality of the results.
