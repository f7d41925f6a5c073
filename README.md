# S-CORE scoring and classification engine in Dafny

This project models the deterministic core of the S-CORE youth-soccer coach. It
turns raw measurements into 1..5 scores, builds the left/right composite scores,
sorts the athlete into one of five archetypes, and picks canned feedback. The
properties proved are those the code relies on or promises. Modules, one per
source file of the core:

- `Tables` (`tables.dfy`) holds the per-category coefficients and the 13-metric
  standards. Age group, gender and the category key are closed enumerations.
- `Scoring` (`scoring.dfy`) is `calculateScore`: it adjusts the value by type,
  then walks the threshold ladder. It also holds `processScores`: best trials
  and bilateral composites.
- `Analysis` (`analysis.dfy`) holds:
  - `getFeedback`: round, clamp, then look up with a `"default"` fallback;
  - the weakness-advice loop;
  - the archetype ladder;
  - the advisory lookups.

  Feedback entries are heap objects (`class FeedbackEntry`), because a lookup
  returns the table's own entry.
- `Report` (`report.dfy`) is the data part of `handleInput2Submit`:
  - it builds the 10 physical and 11 technical feedback records;
  - it merges the AI comments in place into the shared entries;
  - it assembles the result.

  The merge is described by its list of writes (`Writes`) and a last-write-wins
  reading (`Overlay`). The methods change the entry objects and are proved
  against these two functions.
- `Prototype` (`prototype.dfy`) is the second, self-contained scorer in
  `ScoreAnalyzer.tsx`. It has its own threshold tables, a strategy classifier
  that counts exact 1s, and the scoring `forEach` and feedback `map` of
  `handleAnalyze`.
- `Options` (`option.dfy`) is an Option type. `None` stands for JavaScript's
  `undefined` and for a NaN parse.

Values are exact `real`s. The main engine's `Math.round` is modelled as
`floor(x + 0.5)`, so halves round upward.

Observations about the source:

- The merge writes into the feedback table's own objects. So:
  - two keys with one label and one rounded level hold one object that shows the
    last comment written to it (`SameLabelSameLevelAlias`, `LaterCommentWins`);
  - every item missing from the table shares the `"default"` entries
    (`DefaultFallbackAliasesAcrossItems`);
  - the written texts stay in the module-level table after the call returns
    (`HandleInput2Submit` states the new state of every table entry).
- `generateWeaknessAdvice` looks feedback up under the score's own key (for
  example `run10m`), not under a label. On the label-keyed table it therefore
  uses the `"default"` entries.
- `calculateScore` has no fallback for a category missing from
  `CATEGORY_COEFFICIENTS` (utils.ts:8). The model's `Coefficient` is total over
  the eight age-group × gender keys (`CoefficientTableComplete`).
- `getFeedback` returns `undefined` when a tabled item lacks the level
  (utils/analysisUtils.ts:12). There the model's `GetFeedback` returns `None`.
  `FeedbackTotal` shows when the lookup is total.

## Model

| member | source | states |
|---|---|---|
| Tables.Coefficient | s-core-ai-coach/constants.ts:4-13 | every category's coefficient is positive; U18 male is the neutral 1.0 |
| Tables.CoefficientTableComplete | s-core-ai-coach/constants.ts:4-13 | the table has an entry for each of the eight age-group × gender keys, and each entry is positive |
| Tables.CoefficientOrdering | s-core-ai-coach/constants.ts:5-12 | for a fixed gender the coefficient strictly grows as the age group gets younger; within an age group female exceeds male |
| Tables.LadderDirections | s-core-ai-coach/constants.ts:15-81 | a standard is time-typed iff it is run10m, run30m, agility, coordination or dribble; time ladders strictly decrease by index, all others strictly increase |
| Tables.PointLadders | s-core-ai-coach/constants.ts:66-80 | the point-typed standards are exactly shortPass, longPass and shoot, each with ladder [1,2,3,4,5] |
| Tables.DribbleIsTime | s-core-ai-coach/constants.ts:56-60 | dribble is itself time-typed, so the extra `dribble` test never changes the branch |
| Scoring.Normalize | s-core-ai-coach/utils.ts:13-20 | a time is the value divided by the coefficient; a distance or count is the value multiplied by it; a rating is unchanged |
| Scoring.LadderScore | s-core-ai-coach/utils.ts:24-36 | the result is in 1..5. It is the highest k ≥ 2 whose threshold (index k-1) is met, and no higher threshold is met; otherwise it is 1 |
| Scoring.CalculateScore | s-core-ai-coach/utils.ts:5-37 | the result is always in 1..5; an unknown metric key gives exactly 3 for any value and category |
| Scoring.CalculateScoreIsHighestMet | s-core-ai-coach/utils.ts:22-36 | for a known metric the score is the highest k ≥ 2 whose threshold the adjusted value meets (≤ for time, ≥ otherwise); otherwise it is 1 |
| Scoring.FirstThresholdUnread | s-core-ai-coach/utils.ts:24-35 | changing thresholds[0] never changes the score |
| Scoring.LadderScoreMonotone | s-core-ai-coach/utils.ts:24-36 | a better value never scores lower on any ladder |
| Scoring.CalculateScoreMonotone | s-core-ai-coach/utils.ts:13-36 | with the category fixed, a smaller time never lowers a time score, and a larger distance, count or rating never lowers the others |
| Scoring.LargerCoefficientNeverLowers | s-core-ai-coach/utils.ts:5-20 | for a non-negative value, a category with a larger coefficient never scores lower |
| Scoring.Run10mExample | s-core-ai-coach/utils.ts:24-29 | a U18 male with 1.60 s over 10 m scores 4 |
| Scoring.Leaf | s-core-ai-coach/utils.ts:61-72 | a leaf is scored only under a metric key that has a standard. Its score is an integer level 1..5: the ladder score of the adjusted value, never the default 3 |
| Scoring.ProcessScores | s-core-ai-coach/utils.ts:39-82 | the record is well formed: leaves are integer levels and each composite is the mean of its sides. Each of the 17 leaves is its own measurement's score under its own standard: run30m on the faster trial, verticalJump on the highest jump, endurance on yoYoDistance |
| Scoring.BestTrialIsBestScore | s-core-ai-coach/utils.ts:45-46 | scoring the faster 30 m trial equals the better of the two trial scores; scoring the highest jump equals the best of the three |
| Scoring.Best30mExample | s-core-ai-coach/utils.ts:45 | trials of 4.9 s and 5.1 s are scored on 4.9 s |
| Scoring.WellFormedInRange | s-core-ai-coach/utils.ts:60-81 | all 21 fields of a built record lie in [1,5]; the four composites lie in {1, 1.5, …, 5} |
| Scoring.MeanOfLevelsIsHalfStep | s-core-ai-coach/utils.ts:63 | the mean of two integer levels is a half-step in [1,5] |
| Scoring.Values | s-core-ai-coach/utils.ts:60-81 | the record's 21 values, in the literal's key order |
| Analysis.JsRound | s-core-ai-coach/utils/analysisUtils.ts:10 | the nearest integer, with halves rounded upward (n - 0.5 ≤ x < n + 0.5) |
| Analysis.SafeLevel | s-core-ai-coach/utils/analysisUtils.ts:10 | the rounded score clamped into 1..5: unchanged inside the range, 1 below it, 5 above it |
| Analysis.HalfStepsRoundUp | s-core-ai-coach/utils/analysisUtils.ts:10 | a half-step composite reads as its own level or the level half a step above (1.5 → 2, 4.5 → 5) |
| Analysis.GetFeedback | s-core-ai-coach/utils/analysisUtils.ts:9-13 | returns one of the table's own entries. An item missing from the table gets the "default" entry at the same level; for a tabled item the result is defined iff its table has that level, and is that level's entry |
| Analysis.FeedbackTotal | s-core-ai-coach/utils/analysisUtils.ts:11-12 | on a table where every item has levels 1..5, every lookup yields an entry |
| Analysis.WeakEntries | s-core-ai-coach/utils/analysisUtils.ts:21-22 | definition: the order-preserving filter of entries scoring ≤ 2; its own contract is only the length bound, and its content is proved in WeakEntriesMembers |
| Analysis.WeakEntriesMembers | s-core-ai-coach/utils/analysisUtils.ts:21-22 | the kept entries are exactly the entries with score ≤ 2 |
| Analysis.WeakLines | s-core-ai-coach/utils/analysisUtils.ts:23-24 | definition: one line per weak entry (the length is its contract); each line's content is proved in WeakLinesAt |
| Analysis.WeakLinesAt | s-core-ai-coach/utils/analysisUtils.ts:23-24 | line i is `【key】intelligence advice` for weak entry i, with the feedback looked up under the entry's own key and score |
| Analysis.WeakLinesStep | s-core-ai-coach/utils/analysisUtils.ts:21-26 | one more entry appends its own line exactly when it scores ≤ 2 |
| Analysis.GenerateWeaknessAdvice | s-core-ai-coach/utils/analysisUtils.ts:18-33 | the output is never empty. It is the weak lines in entry order, or exactly the single balanced message when no entry scores ≤ 2 |
| Analysis.CountAtMostZero | s-core-ai-coach/utils/analysisUtils.ts:40 | the count is 0 iff every value exceeds the bound |
| Analysis.CountAtMostTwo | s-core-ai-coach/utils/analysisUtils.ts:40-43 | the count reaches 2 iff two distinct positions hold values at most the bound |
| Analysis.CategorizeAthlete | s-core-ai-coach/utils/analysisUtils.ts:38-59 | the five classes partition the inputs: BOTTLENECK iff two or more fields are ≤ 1.5; otherwise SUPER_ACE, PHYSICAL_MONSTER, TECHNICIAN or POTENTIAL, one for each combination of the two averages ≥ 4 or < 4 |
| Analysis.BottleneckIffTwoWeak | s-core-ai-coach/utils/analysisUtils.ts:39-43 | BOTTLENECK iff two distinct fields of the 21, sides and composites included, are ≤ 1.5 |
| Analysis.SingleWeaknessTolerated | s-core-ai-coach/utils/analysisUtils.ts:40-58 | exactly one field ≤ 1.5 never gives BOTTLENECK |
| Analysis.BilateralPairBottleneck | s-core-ai-coach/utils/analysisUtils.ts:39-43 | in a built record, agilityR = 1 with agilityL ≤ 2 alone gives BOTTLENECK, through the side field and the composite |
| Analysis.AveragesIgnoreOtherFields | s-core-ai-coach/utils/analysisUtils.ts:45-58 | sitUps, coordination, endurance and the side fields never affect a non-BOTTLENECK class |
| Analysis.BottleneckPrecedesExcellence | s-core-ai-coach/utils/analysisUtils.ts:43-49 | two scores of 1 with all else 5 is BOTTLENECK even though both averages are ≥ 4 |
| Analysis.PhysicalMonsterExample | s-core-ai-coach/utils/analysisUtils.ts:45-52 | averages 4.2 and 3.0 with no weak field give PHYSICAL_MONSTER |
| Analysis.GetAdvisoryPattern | s-core-ai-coach/utils/analysisUtils.ts:71-73 | definition: the type's pattern. The contract restates the lookup; its point is that the lookup is defined on a table covering all five types |
| Analysis.AnalyzePlayStyle | s-core-ai-coach/utils/analysisUtils.ts:64-66 | definition: the play style of the type's advisory pattern, the same one the result carries |
| Report.LabelsAreStandardNames | s-core-ai-coach/App.tsx:64-89 | each record key's feedback label is the metric name of the standard its score is computed under |
| Report.FeedbackFor | s-core-ai-coach/App.tsx:64-89 | a record over distinct keys whose entry for key k is the feedback for k's label at k's score, taken from the table's own entries |
| Report.PhysicalFeedbacks | s-core-ai-coach/App.tsx:64-75 | the physical record has exactly 10 distinct keys, in literal order, and holds only table entries |
| Report.TechnicalFeedbacks | s-core-ai-coach/App.tsx:77-89 | the technical record has exactly 11 distinct keys, in literal order, and holds only table entries |
| Report.SameLabelSameLevelAlias | s-core-ai-coach/App.tsx:66-68 | two keys sharing a label (e.g. agilityR, agilityL, agility) whose scores round to one level hold the very same entry object |
| Report.PhysicalCommentMap | s-core-ai-coach/services/geminiService.ts:61-75 | definition: the physical comments present, for exactly the keys whose schema field is filled (the contract coincides with the body) |
| Report.TechnicalCommentMap | s-core-ai-coach/services/geminiService.ts:76-89 | definition: the technical comments present, for exactly the keys whose schema field is filled (the contract coincides with the body) |
| Report.Writes | s-core-ai-coach/App.tsx:95-104 | definition: the merge's writes in key order; its own contract is at most one write per key, and where they come from is proved in WritesFromTruthyComments |
| Report.OverlayAppend | s-core-ai-coach/App.tsx:95-104 | running two write lists in turn is running their concatenation (physical loop, then technical loop) |
| Report.OverlayUntouched | s-core-ai-coach/App.tsx:95-104 | an entry no write aims at keeps its text |
| Report.OverlayLastWriteWins | s-core-ai-coach/App.tsx:95-104 | an entry shows the text of the last write aimed at it |
| Report.WritesFromTruthyComments | s-core-ai-coach/App.tsx:96-97 | every write comes from a record key whose comment is present and non-empty, and writes that comment to that key's entry |
| Report.OverrideOnlyFromTruthyComment | s-core-ai-coach/App.tsx:96-97 | an entry's text changes only through a key of the record that holds it and has a truthy comment, and the new text is that comment |
| Report.WritesAppend | s-core-ai-coach/App.tsx:95-99 | the writes over two runs of keys are the first run's writes followed by the second's |
| Report.LaterCommentWins | s-core-ai-coach/App.tsx:95-99 | a shared entry shows the comment of the last key, in key order, that has a truthy comment and holds that entry |
| Report.DefaultFallbackAliasesAcrossItems | s-core-ai-coach/utils/analysisUtils.ts:11-12 | two items absent from the feedback table, at the same level, receive the same default entry object |
| Report.CompositesNeverCommented | s-core-ai-coach/services/geminiService.ts:61-89 | the composite keys agility, shortPass, longPass and shoot never carry a comment, so no write goes through them |
| Report.MergeComments | s-core-ai-coach/App.tsx:95-99 | after one merge loop, each entry of the record shows the last truthy comment aimed at it (else its old text); advice is never changed |
| Report.MergeAll | s-core-ai-coach/App.tsx:95-104 | after both loops, every table entry shows the overlay of the physical writes then the technical writes on its old text; advice is never changed |
| Report.HandleInput2Submit | s-core-ai-coach/App.tsx:50-123 | without a profile: nothing, and no entry changes. Otherwise the result holds: the built scores and the unchanged measurements; categorizeAthlete's class; both feedback records; the AI summaries; advice and play style from the class's advisory pattern (not from the AI); the quote at the given index. Every table entry's new text is the overlay of the merge writes |
| Report.WritesTargetRecord | s-core-ai-coach/App.tsx:95-104 | every write aims at an entry of the record being merged |
| Report.NoCommentsNoWrites | s-core-ai-coach/App.tsx:96 | with no AI comments the merge writes nothing, so every entry keeps its text |
| Prototype.CalculateScore | s-core-ai-coach/ScoreAnalyzer.tsx:125-145 | the result is in 1..5. Its threshold (≤ for the descending items, ≥ otherwise) is met, and no higher threshold is |
| Prototype.UnknownCategoryUsesU18 | s-core-ai-coach/ScoreAnalyzer.tsx:126 | an unknown category is scored exactly as U18_男子 |
| Prototype.UnknownItemUsesZeroCriteria | s-core-ai-coach/ScoreAnalyzer.tsx:127-144 | an item without criteria is scored against zeros. An ascending item scores 5 iff the value is ≥ 0, and 1 if it is negative. A descending item scores 5 iff the value is ≤ 0, and 1 if it is positive |
| Prototype.ScoringMasterOrdered | s-core-ai-coach/ScoreAnalyzer.tsx:92-105 | every tabled (category, item) ladder gets strictly stricter towards 5, in the item's direction |
| Prototype.AtLeastIffMet | s-core-ai-coach/ScoreAnalyzer.tsx:132-144 | on ordered criteria, a score of at least k is the same as meeting the threshold for k |
| Prototype.TabledScoreAtLeastIffMet | s-core-ai-coach/ScoreAnalyzer.tsx:125-144 | for a tabled category and item: score ≥ k iff the value meets that row's threshold for k |
| Prototype.StrategyType | s-core-ai-coach/ScoreAnalyzer.tsx:148-169 | the five types partition the inputs. "Bottleneck Fix" iff two or more scores are exactly 1. Otherwise Super Ace iff both averages are ≥ 4, Physical Monster iff only the physical average is, Technician iff only the technical one is, and Potential iff neither is |
| Prototype.GetStrategyPlan | s-core-ai-coach/ScoreAnalyzer.tsx:148-170 | the returned plan is one of the table's plans, and it names the type the classifier picked |
| Prototype.StrategyPlanTyped | s-core-ai-coach/ScoreAnalyzer.tsx:58-89 | every player type has a plan, and the plan stored under a type names that type |
| Prototype.BottleneckIffTwoExactOnes | s-core-ai-coach/ScoreAnalyzer.tsx:150-151 | "Bottleneck Fix" iff two different items score exactly 1 |
| Prototype.HalfStepsAreNotBottleneck | s-core-ai-coach/ScoreAnalyzer.tsx:150-151 | two clamped ratings of 1.5 do not count; the result is "Potential" |
| Prototype.NothingMeasuredIsPotential | s-core-ai-coach/ScoreAnalyzer.tsx:157-169 | with no scores, every missing item counts as 3, so both averages are 3 and the result is "Potential" |
| Prototype.SumIgnoresOtherKeys | s-core-ai-coach/ScoreAnalyzer.tsx:157-161 | an average reads only its own three items |
| Prototype.TypeIgnoresOtherItems | s-core-ai-coach/ScoreAnalyzer.tsx:150-169 | an item outside the six averaged ones affects the type only through the count of exact 1s |
| Prototype.Clamp | s-core-ai-coach/ScoreAnalyzer.tsx:281 | the result is in [1,5]; a value already in [1,5] is kept, lower values give 1 and higher give 5 |
| Prototype.ItemScore | s-core-ai-coach/ScoreAnalyzer.tsx:279-284 | the score is in [1,5]. ドリブル, シュート and パス are clamped; every other key is scored by calculateScore |
| Prototype.ScoresOf | s-core-ai-coach/ScoreAnalyzer.tsx:275-286 | the dictionary's keys are exactly the keys of its insertion order |
| Prototype.ScoresOfDomain | s-core-ai-coach/ScoreAnalyzer.tsx:276-286 | a key is in the dictionary iff it was entered with a number (NaN inputs are left out), and every score lies in [1,5] |
| Prototype.ScoresOfValue | s-core-ai-coach/ScoreAnalyzer.tsx:279-284 | with distinct input keys, each parsed input's score is the one its own value earns |
| Prototype.OrderOfDistinct | s-core-ai-coach/ScoreAnalyzer.tsx:289 | with distinct input keys the dictionary's key order lists each key once |
| Prototype.OrderOfKeys | s-core-ai-coach/ScoreAnalyzer.tsx:289 | every key in the key order is an input key |
| Prototype.ComputeScores | s-core-ai-coach/ScoreAnalyzer.tsx:275-286 | the loop builds exactly the specified dictionary and key order |
| Prototype.ContentFor | s-core-ai-coach/ScoreAnalyzer.tsx:292-295 | the table entry when the item has one at that integral score; otherwise the fallback ("基礎トレーニング…" for a score ≤ 2, else "良いパフォーマンス…", advice "『継続は力なり。』") |
| Prototype.ContentCoverage | s-core-ai-coach/ScoreAnalyzer.tsx:39-55 | the table has comments exactly for 10m走 and 持久走 at integer levels 1..5; everything else falls back |
| Prototype.FeedbackList | s-core-ai-coach/ScoreAnalyzer.tsx:289-297 | one item per dictionary key, in key order, each with that key's score and its content |
| Prototype.HandleAnalyze | s-core-ai-coach/ScoreAnalyzer.tsx:273-303 | one feedback item per parsed input, in input order, with distinct items and scores in [1,5], plus the strategy plan for the built dictionary |

## Left out

- React state, rendering, forms, charts, spreadsheet sync and PDF export are left out. They are UI and I/O, not scoring logic. The `setIsLoading`/`setScores`/`setAnalysisResult` steps of `handleInput2Submit` are among them.
- The AI call (`getAIAnalysis`) is a network call. Its answer is an input value (`AiResponse`), and its error fallback is one such value.
- The random quote pick uses `Math.random`. It is a given index into the quote list. `generateId` is left out for the same reason.
- `parseFloat`: the prototype's inputs are given already parsed, with `None` for NaN.
- `Prototype.FeedbackList`: the `value` field, which echoes the raw input string, is display only and not modelled.
- IEEE-754 arithmetic: all values are exact reals. A value exactly at a threshold after division or multiplication by a coefficient may compare differently in JavaScript.
- The contents of `data/feedbackMaster`, `data/advisoryMaster` and `data/quotes` are not part of this model. They are parameters, with the preconditions the code relies on:
  - a `"default"` item;
  - levels 1..5 for every item;
  - a pattern for every athlete type.
- Only the fields of the athlete profile and of the advisory pattern that the core reads are modelled.
- `Analysis.GetAdvisoryPattern`: requires a pattern for every type. Without one, the source would return `undefined`.
- `Report.HandleInput2Submit`: requires a complete table (all five levels for every label), because the model's record holds an entry for every key. On a table missing a level the source stores `undefined` in the record (utils/analysisUtils.ts:12, App.tsx:64-89). It then throws at App.tsx:97 or App.tsx:102 only if that key also has a truthy AI comment; otherwise the result silently carries an undefined entry. Neither outcome is modelled.
- `Report.HandleInput2Submit`: the source awaits the AI call (App.tsx:92) while it holds references into the shared `FEEDBACK_MASTER`, so two concurrent submits could interleave their writes. The model treats one submit as a single atomic step.
- `Prototype.HandleAnalyze`: requires distinct input keys, as a dictionary's keys are.
- Prototype key order: JavaScript orders integer-like dictionary keys first. The modelled order is insertion order, which is what the form's item names produce.
