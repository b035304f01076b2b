# KBO scouting statistics engine, modelled in Dafny

This project models the statistics engine of the KBO scouting dashboard
(ksiwon/im-kbo-scouter). The engine estimates how a foreign batter's
minor-league (AAA, "pre-KBO") record will carry over to a first KBO season.
The model covers:

- **The two batch scripts.**
  - `scripts/analyze_correlations.js` joins pre-KBO and KBO records on name
    and entry year, correlates every numeric pre-KBO property the model
    represents with KBO wRC+, and sorts the results by |r|.
  - `scripts/optimize_kfs.js` runs a random search over the ten weights of
    the KFS score and keeps a candidate only when it strictly improves the
    correlation.
- **The scoring utilities.**
  - `src/utils/sabermetrics.ts`: archetype classification, the risk grade and
    its details, the simple KFS score, the deep-dive verdict, the success
    analysis and the section notes.
  - `src/utils/kfsScore.ts`: the grouped KFS score.
- **The component and page logic that computes numbers.**
  - The AAA scouting board: the K-Success score, strengths and concerns,
    search, sort, pagination and page numbers.
  - The top-10 player list, the correlation chart, the change histogram and
    its statistics, the pre/KBO distribution comparison, the dashboard's
    headline numbers, and the prediction calculator.

Numbers are exact reals. A property that may be `undefined` is an
`Option<real>`, and a record is a name, an optional team and a map from
property keys to values. The two JavaScript ways of supplying a default
differ and are kept apart:

- `x || d` (`Js.Or`) also replaces an explicit 0.
- A destructuring default (`Js.Def`) replaces only `undefined`.

`Math.round` is `floor(x + 0.5)`. A Pearson coefficient `num / sqrt(den)` is
kept exactly as the pair `(num, den)` (`Correlation.Coef`). Comparisons of
coefficients and the |r| cuts are decided from the sign of `num` and from
`num^2 / den`, which are proved to mean the comparisons of the real values.

Code that updates variables step by step is modelled as a method with a loop
and invariants, proved equal to a specification function: the merge loops,
the optimiser's loop, the histogram fill, `getPageNumbers` and the in-place
sorts. The in-place sorts are one insertion sort over an `array`, sorting by
a numeric key (`Sorting.SortBy`). `SortBy` promises that the result is
ordered by the key and is a permutation of the input. It promises nothing
about the order of equal keys. Pure code is modelled as functions and lemmas.
`Math.random` draws and the record lists are parameters.

The code decides the model where a comment in the source says otherwise:

- The "x100" comment in `kfsScore.ts` does not change the model: the weights
  are those the code has.
- The scoring board's batted-ball quality has no floor, although its
  neighbours do (`ScoutingBoard.BatQualityCanBeNegative`).
- `kfsScore.ts` clamps the total but not the breakdown it reports
  (`KfsScore.BreakdownUnclamped`).
- The source's weights for the simple KFS add up to 1.03, not 1, so it ranges
  over [0, 103] (`Sabermetrics.KfsRawBounds`).

## Model

| member | source | states |
|---|---|---|
| Js.Or | scripts/analyze_correlations.js:45 | `x \|\| d` is the default exactly when the value is undefined, 0 or already the default, and otherwise the value itself |
| Js.OrNonZero | scripts/optimize_kfs.js:47 | a non-zero default (`pa \|\| 300`) never yields 0, so it is a safe divisor |
| Js.Def | src/utils/kfsScore.ts:29-41 | a destructuring default replaces undefined only, and keeps any defined value, 0 included |
| Js.OrAgreesWithDefExceptZero | src/utils/sabermetrics.ts:85-91 | the two kinds of default differ exactly on an explicit 0 |
| Js.Round | src/pages/Dashboard.tsx:38-40 | `Math.round` gives the integer within half of x, halves rounded up |
| Js.Round1 | src/pages/PredictionModel.tsx:76 | `Math.round(x * 10) / 10` has one decimal and is within 0.05 of x, halves rounded up |
| Js.Round1Unique | src/pages/PredictionModel.tsx:76 | a one-decimal real within that window is the rounded value, so the contract of `Round1` determines it |
| Js.RoundMonotone | src/pages/Dashboard.tsx:38-40 | `Math.round` is monotone |
| Js.RoundWithin | src/pages/Dashboard.tsx:51-55 | rounding keeps a value between integer bounds between them |
| Js.Round1Within | src/utils/kfsScore.ts:112 | one-decimal rounding keeps integer bounds |
| Js.Round1Monotone | src/utils/kfsScore.ts:112-114 | one-decimal rounding is monotone |
| Js.Min | src/utils/kfsScore.ts:100 | `Math.min` is at most both arguments and equal to one |
| Js.Max | src/utils/kfsScore.ts:100 | `Math.max` is at least both arguments and equal to one |
| Js.Clamp | src/utils/kfsScore.ts:100 | `Math.max(lo, Math.min(hi, x))` lies in [lo, hi], is x inside and the nearer bound outside |
| Js.ClampMonotone | src/utils/sabermetrics.ts:248 | the clamp is monotone in its argument |
| Js.Abs | scripts/analyze_correlations.js:51 | `Math.abs` is non-negative and equal to x or -x |
| Players.StatIndex | scripts/analyze_correlations.js:38-39 | every property key has a position in the key order |
| Players.AllStatsDistinct | scripts/analyze_correlations.js:38-39 | the key order lists every key exactly once |
| Players.Get | src/types/index.ts:1-53 | `player[key]` is defined exactly when the record has the key, and is its value |
| Players.With | src/types/index.ts:1-53 | setting one property changes that property only |
| Matching.FindEntryFrom | scripts/analyze_correlations.js:13 | the search from a position finds the first record of the same name and entry year, or reports that none follows |
| Matching.FindEntry | scripts/analyze_correlations.js:13 | `kboData.find(...)` on name and entry year gives the first match, and none exactly when no record matches |
| Matching.Merge | scripts/analyze_correlations.js:11-17 | the merge loop's result is the specification `Merged` |
| Matching.MergedCorrect | scripts/optimize_kfs.js:12-18 | the pre halves of the merged pairs are exactly the pre records that have a match, in their order |
| Matching.MergedKboIsFirstMatch | scripts/optimize_kfs.js:14 | the KBO half of each pair is the first KBO record of the same entry |
| Matching.KboWrcs | scripts/optimize_kfs.js:112 | `mergedData.map(d => d.kbo.wrc_plus)` holds each pair's KBO wRC+, in pair order |
| Matching.PreOf | scripts/optimize_kfs.js:130 | the pre halves of the pairs, in order |
| Matching.FindNameFrom | src/components/DeltaDistribution.tsx:92 | the search from a position finds the first record of a name, or reports that none follows |
| Matching.FindByName | src/components/PlayerList.tsx:245 | `find(p => p.name === name)` is the first record of that name, and undefined exactly when no record has it |
| Sorting.SortBy | scripts/analyze_correlations.js:51 | the in-place sort leaves the array ordered by the key and a permutation of its old contents |
| Sorting.Insert | scripts/analyze_correlations.js:51 | one insertion step extends the sorted prefix by one element and keeps the contents |
| Sorting.Swap | scripts/analyze_correlations.js:51 | an exchange swaps two elements and changes nothing else |
| Sorting.SameElements | src/components/AAAScoutingBoard.tsx:485-490 | a permutation has the same length and the same members |
| Correlation.Pearson | scripts/analyze_correlations.js:23-35 | `calculateCorrelation` returns a well-formed coefficient for sequences of equal length |
| Correlation.PearsonDegenerate | scripts/analyze_correlations.js:33 | a zero denominator gives 0, and fewer than two values always give a zero denominator |
| Correlation.PearsonRegular | scripts/analyze_correlations.js:30-33 | otherwise the coefficient is the numerator over the product of two positive spreads |
| Correlation.PearsonSymmetric | scripts/optimize_kfs.js:23-35 | swapping x and y gives the same coefficient |
| Correlation.PearsonBounded | scripts/optimize_kfs.js:23-35 | the coefficient lies in [-1, 1] for every input (Cauchy–Schwarz) |
| Correlation.PearsonSelf | scripts/analyze_correlations.js:23-35 | a sequence with non-zero spread correlates with itself at exactly 1 |
| Correlation.PearsonExample | scripts/analyze_correlations.js:23-35 | x = [10, 20] against y = [1, 2] gives r = 1 |
| Correlation.SpreadNonNegative | scripts/analyze_correlations.js:31 | each factor under the square root is non-negative, so the root is real |
| Correlation.NumeratorSquareBounded | scripts/analyze_correlations.js:30-31 | the squared numerator never exceeds the product of the factors under the root |
| Correlation.NumeratorCentred | scripts/analyze_correlations.js:30 | the sum-formula numerator is n times the dot product of the centred sequences |
| Correlation.CauchySchwarz | scripts/analyze_correlations.js:30-31 | (Σab)² ≤ Σa² Σb² over every prefix |
| Correlation.CentredDot | scripts/analyze_correlations.js:30 | the centred dot product expands into the uncentred sums |
| Correlation.Square | scripts/analyze_correlations.js:51 | r² is non-negative and 0 exactly when r is |
| Correlation.DenotesUnique | scripts/analyze_correlations.js:33 | a coefficient pair stands for one real number at most |
| Correlation.DenotesSquare | scripts/analyze_correlations.js:33 | the pair's r² is the square of the number it stands for |
| Correlation.GtMeansGreater | scripts/optimize_kfs.js:133 | the exact comparison of two pairs decides `corr > bestCorrelation` on the real values |
| Correlation.GtIrreflexive | scripts/optimize_kfs.js:133 | no coefficient improves on itself |
| Correlation.GtImpliesGe | scripts/optimize_kfs.js:133-137 | a strict improvement is no loss and cannot be undone by the other comparison |
| Correlation.GeTransitive | scripts/optimize_kfs.js:133-137 | "no loss" is transitive, so it carries across iterations |
| Correlation.AbsAtLeastMeans | src/components/CorrelationChart.tsx:135-148 | the cut on the pair decides `Math.abs(r) >= t` of its real value |
| Correlation.AbsAtLeastBySquare | src/components/CorrelationChart.tsx:135-148 | a cut on \|r\| is the same cut on r² |
| AnalyzeCorrelations.NumericKeys | scripts/analyze_correlations.js:38-39 | the numeric keys of the sample record are exactly the modelled properties it defines, once each, in key order |
| AnalyzeCorrelations.PresentFrom | scripts/analyze_correlations.js:39 | the defined properties from a position of the key order on, in order |
| AnalyzeCorrelations.Values | scripts/analyze_correlations.js:45 | `mergedData.map(d => d.pre[key] \|\| 0)` holds each pair's pre value with the `\|\|` default |
| AnalyzeCorrelations.MissingIsZero | scripts/analyze_correlations.js:45 | a property the record lacks counts as 0 and a defined one as its value |
| AnalyzeCorrelations.KeyCorrelation | scripts/analyze_correlations.js:44-48 | each result carries its own key and a well-formed coefficient |
| AnalyzeCorrelations.Correlations | scripts/analyze_correlations.js:44-48 | `numericKeys.map(...)` gives one result per key, in key order |
| AnalyzeCorrelations.StrengthIsAbs | scripts/analyze_correlations.js:51 | the comparator's order on the pairs is the order of \|r\| of their real values |
| AnalyzeCorrelations.SortByStrength | scripts/analyze_correlations.js:51 | the in-place sort leaves the results by non-increasing \|r\| and keeps them all |
| AnalyzeCorrelations.Analyze | scripts/analyze_correlations.js:11-51 | the script's result is a permutation of the per-key results, sorted by non-increasing \|r\| |
| AnalyzeCorrelations.ResultsPerKey | scripts/analyze_correlations.js:38-53 | the output has one line per numeric key of the sample, each with that key's coefficient, and every key appears |
| AnalyzeCorrelations.CorrelationsPerKey | scripts/analyze_correlations.js:44-48 | a result is in the list exactly for a listed key, with that key's coefficient |
| Optimizer.InitialWeightsPositive | scripts/optimize_kfs.js:93-104 | the initial weights set all ten keys, each positive |
| Optimizer.PaOf | scripts/optimize_kfs.js:47 | `p.pa \|\| 300` is never 0, and a zero `pa` becomes 300 |
| Optimizer.ScoreIsWeightedSum | scripts/optimize_kfs.js:39-80 | `calculateScore` is the sum, over the ten keys, of the feature times the weight |
| Optimizer.TermUpdate | scripts/optimize_kfs.js:56-74 | changing one weight changes only its own term, by the feature times the change |
| Optimizer.ScoreLinearInWeight | scripts/optimize_kfs.js:77 | changing one weight changes the score by the feature times the change |
| Optimizer.WeightedSumUpdate | scripts/optimize_kfs.js:77 | the same over any prefix of the keys |
| Optimizer.KeyIndex | scripts/optimize_kfs.js:122 | every weight key has a position in `Object.keys` order |
| Optimizer.Scores | scripts/optimize_kfs.js:130 | `mergedData.map(d => calculateScore(d.pre, w))` holds each pair's score |
| Optimizer.Fitness | scripts/optimize_kfs.js:130-131 | the fitness of a weight set is a well-formed coefficient |
| Optimizer.KeyToMutate | scripts/optimize_kfs.js:123 | `keys[Math.floor(Math.random() * keys.length)]` is one of the ten keys |
| Optimizer.Mutation | scripts/optimize_kfs.js:126 | `1 + (Math.random() * 0.2 - 0.1)` lies in [0.9, 1.1) |
| Optimizer.Candidate | scripts/optimize_kfs.js:121-127 | the candidate scales the chosen key only, and keeps every weight positive |
| Optimizer.Start | scripts/optimize_kfs.js:108-116 | the search starts from a full weight set |
| Optimizer.Step | scripts/optimize_kfs.js:119-138 | one iteration keeps a full weight set |
| Optimizer.Search | scripts/optimize_kfs.js:117-138 | the state after the draws has a full weight set and a well-formed correlation |
| Optimizer.Optimize | scripts/optimize_kfs.js:106-138 | the loop ends in the specification state; the best weights are positive, the best correlation is their own, and it is no worse than the initial one |
| Optimizer.SearchExtend | scripts/optimize_kfs.js:119-138 | one more iteration is one more step |
| Optimizer.SearchInvariant | scripts/optimize_kfs.js:106-138 | the search keeps positive weights, reports their own correlation and never falls below the start |
| Optimizer.StepNeverLoses | scripts/optimize_kfs.js:133-137 | a step keeps the state, or moves to a strictly better candidate that differs in the mutated key only |
| KfsScore.Resolve | src/utils/kfsScore.ts:29-41 | the defaults replace undefined fields only (`pa` 300), and an explicit 0 stays 0 |
| KfsScore.HrRate | src/utils/kfsScore.ts:65 | home runs per 600 plate appearances |
| KfsScore.GroupedIsFlat | src/utils/kfsScore.ts:59-84 | the five groups sum to the ten weighted terms |
| KfsScore.BaselineOnlyPower | src/utils/kfsScore.ts:59-84 | at the baseline values every group but power is 0 |
| KfsScore.Probability | src/utils/kfsScore.ts:107-109 | `successProbability` lies in [5, 95], and is 0.95 × total within it |
| KfsScore.ProbabilityMonotone | src/utils/kfsScore.ts:107-114 | the probability, rounded or not, is monotone in the total |
| KfsScore.PredictedWrcPlus | src/utils/kfsScore.ts:103-105 | the predicted wRC+ is the nearest integer to the blend of wRC+ and total |
| KfsScore.PredictedWrcPlusMonotone | src/utils/kfsScore.ts:103-105 | the prediction is monotone in both wRC+ and total |
| KfsScore.RoundGroups | src/utils/kfsScore.ts:115-121 | each reported group has one decimal and is within 0.05 of its unrounded value |
| KfsScore.CalculateKfsScore | src/utils/kfsScore.ts:29-123 | the score is the clamped raw total in [0, 100], rounded to one decimal; the probability is in [5, 95]; the prediction is built from the clamped total; the breakdown is the rounded groups |
| KfsScore.ScoreMonotone | src/utils/kfsScore.ts:84-114 | a higher raw total never lowers the score or the probability |
| KfsScore.BreakdownUnclamped | src/utils/kfsScore.ts:100-121 | the score is capped at 100 while the reported groups can add up to more |
| Sabermetrics.BbK | src/utils/sabermetrics.ts:93 | `bb_pct / Math.max(k_pct, 1)` times its divisor is `bb_pct`, non-negative for non-negative walks |
| Sabermetrics.BbKAntitone | src/utils/sabermetrics.ts:93 | more strikeouts never raise BB/K |
| Sabermetrics.BbKMonotone | src/utils/sabermetrics.ts:93 | more walks never lower BB/K |
| Sabermetrics.ProfileOf | src/utils/sabermetrics.ts:85-91 | the destructuring defaults of `classifyPlayerType` (K% 20 when undefined) |
| Sabermetrics.DefaultsOnlyWhenUndefined | src/utils/sabermetrics.ts:85-91 | an explicit 0 stays 0, and an empty record takes every default |
| Sabermetrics.Position | src/utils/sabermetrics.ts:96-195 | each archetype has its place in the order the rules are tried |
| Sabermetrics.NonBlank | src/utils/sabermetrics.ts:127-131 | `filter(Boolean)` keeps exactly the non-blank entries |
| Sabermetrics.Classify | src/utils/sabermetrics.ts:96-195 | the archetype's rule holds and no earlier rule does |
| Sabermetrics.ClassifyPlayerType | src/utils/sabermetrics.ts:84-195 | the archetype's rule holds for the defaulted inputs |
| Sabermetrics.ClassifyFirstMatch | src/utils/sabermetrics.ts:96-195 | an archetype is chosen exactly when its rule is the first that holds |
| Sabermetrics.PowerOnlyBelowGood | src/utils/sabermetrics.ts:117-162 | POWER happens only below wRC+ 120, and K% ≥ 30 with wRC+ ≥ 120 is always TRAP |
| Sabermetrics.SafePowerDisjoint | src/utils/sabermetrics.ts:139-162 | no record meets both the SAFE and the POWER rule |
| Sabermetrics.RemarkCounts | src/utils/sabermetrics.ts:96-131 | ELITE has no risk factor and three strengths; TRAP has three risk factors exactly when BABIP is lucky, two otherwise |
| Sabermetrics.GradeOf | src/utils/sabermetrics.ts:251-256 | grade S exactly from 75, A exactly in [60, 75), B in [45, 60), C in [30, 45), and D exactly below 30 |
| Sabermetrics.GradeMonotone | src/utils/sabermetrics.ts:251-256 | a higher score never gets a worse grade |
| Sabermetrics.RecommendationFor | src/utils/sabermetrics.ts:315 | recommended exactly for S and A, not recommended exactly for C and D |
| Sabermetrics.RiskProfileOf | src/utils/sabermetrics.ts:202-209 | the destructuring defaults of `calculateRisk` (age 28 when undefined) |
| Sabermetrics.KAdjust | src/utils/sabermetrics.ts:217-220 | the strikeout adjustment lies in [-20, 25] |
| Sabermetrics.BbAdjust | src/utils/sabermetrics.ts:224-226 | the walk adjustment lies in [-8, 15] |
| Sabermetrics.BbKAdjust | src/utils/sabermetrics.ts:229-230 | the BB/K adjustment lies in [0, 10] |
| Sabermetrics.WrcAdjust | src/utils/sabermetrics.ts:233-235 | the wRC+ adjustment lies in [-5, 8] |
| Sabermetrics.AgeAdjust | src/utils/sabermetrics.ts:244-245 | the age adjustment lies in [-8, 5] |
| Sabermetrics.RawRisk | src/utils/sabermetrics.ts:214-245 | the unclamped score lies in [1, 118], so it is never below the lower clamp |
| Sabermetrics.RiskScore | src/utils/sabermetrics.ts:248 | the clamped score lies in [0, 100], equals the raw score up to 100 and is 100 above it |
| Sabermetrics.RiskScoreAntitoneInK | src/utils/sabermetrics.ts:217-230 | fewer strikeouts never lower the risk score |
| Sabermetrics.RiskScoreMonotoneInBb | src/utils/sabermetrics.ts:224-230 | more walks never lower the risk score |
| Sabermetrics.KDetail | src/utils/sabermetrics.ts:265-271 | the strikeout topic adds at most one line |
| Sabermetrics.BbKDetail | src/utils/sabermetrics.ts:274-278 | the BB/K topic adds at most one line |
| Sabermetrics.BabipDetail | src/utils/sabermetrics.ts:281-283 | the BABIP line appears exactly for a lucky BABIP |
| Sabermetrics.AgeDetail | src/utils/sabermetrics.ts:286-290 | the age line appears exactly above 32 or below 26 |
| Sabermetrics.Details | src/utils/sabermetrics.ts:262-290 | at most four detail lines |
| Sabermetrics.ComputeRiskScore | src/utils/sabermetrics.ts:214-248 | the step-by-step score equals the specification `RiskScore` |
| Sabermetrics.ComputeDetails | src/utils/sabermetrics.ts:262-290 | the pushed details equal the specification `Details` |
| Sabermetrics.CalculateRisk | src/utils/sabermetrics.ts:201-319 | the grade, details, recommendation and archetype are those of the specification functions |
| Sabermetrics.Normalize | src/utils/sabermetrics.ts:521-524 | `normalize` lies in [0, 1], is 0 at or below min, 1 at or above max, and linear between |
| Sabermetrics.NormalizeMonotone | src/utils/sabermetrics.ts:521-524 | `normalize` is monotone |
| Sabermetrics.KfsPartsOf | src/utils/sabermetrics.ts:527-533 | each of the five components lies in [0, 100] |
| Sabermetrics.KfsRawBounds | src/utils/sabermetrics.ts:536-550 | the weights sum to 1.03, so the weighted sum lies in [0, 103] and reaches 103 |
| Sabermetrics.SimpleKfs | src/utils/sabermetrics.ts:519-554 | `calculateSimpleKFS` lies in [0, 103], has one decimal and is within 0.05 of the weighted sum |
| Sabermetrics.SimpleKfsMonotoneInHr | src/utils/sabermetrics.ts:527-533 | raising a non-zero home-run count never lowers the score |
| Sabermetrics.SimpleKfsZeroIsDefault | src/utils/sabermetrics.ts:527-533 | through the `\|\|` default, zero home runs score like ten |
| Sabermetrics.VerdictOf | src/utils/sabermetrics.ts:416-426 | the top verdict exactly from 70, the next exactly in [60, 70), then [50, 60), then [40, 50), and the bottom one exactly below 40 |
| Sabermetrics.VerdictMonotone | src/utils/sabermetrics.ts:416-426 | a higher score never gets a worse verdict |
| Sabermetrics.DeepDiveVerdictMonotoneInHr | src/utils/sabermetrics.ts:413-426 | for a record with some home runs, more home runs never worsen the deep-dive verdict |
| Sabermetrics.Factors | src/utils/sabermetrics.ts:447-457 | at most three factors; the walk factor exactly for BB% ≥ 10 and the contact factor exactly for K% ≤ 18, after defaults |
| Sabermetrics.GenerateSuccessAnalysis | src/utils/sabermetrics.ts:438-480 | the analysis is of the pre-KBO record when given, and has the two factor paragraphs or the one fallback |
| Sabermetrics.SuccessParagraphCount | src/utils/sabermetrics.ts:455-470 | the fallback is used exactly when none of the three factor conditions holds |
| Sabermetrics.ContextNote | src/utils/sabermetrics.ts:485-514 | an unknown section id gets the default note, and only an unknown one does |
| ScoutingBoard.InputsOf | src/components/AAAScoutingBoard.tsx:316-333 | the defaults make `pa` non-zero, and a truthy `pa` is kept |
| ScoutingBoard.Discipline | src/components/AAAScoutingBoard.tsx:340-344 | plate discipline lies in [0, 35] |
| ScoutingBoard.BatQuality | src/components/AAAScoutingBoard.tsx:346-350 | batted-ball quality is at most 30, bounded below only by its own terms |
| ScoutingBoard.OnBase | src/components/AAAScoutingBoard.tsx:352-355 | on-base lies in [0, 20] |
| ScoutingBoard.BabipScore | src/components/AAAScoutingBoard.tsx:357-362 | full marks exactly for BABIP in [.280, .380], and always in [0, 10] |
| ScoutingBoard.AgeScore | src/components/AAAScoutingBoard.tsx:364-365 | youth lies in [0, 10] |
| ScoutingBoard.PaScore | src/components/AAAScoutingBoard.tsx:366-367 | the sample score is at most 5 and non-negative from 200 plate appearances |
| ScoutingBoard.WrcScore | src/components/AAAScoutingBoard.tsx:369-370 | the wRC+ score lies in [0, 15] |
| ScoutingBoard.TotalScore | src/components/AAAScoutingBoard.tsx:372-376 | the total lies in [0, 100] |
| ScoutingBoard.PredictedWrcPlus | src/components/AAAScoutingBoard.tsx:378-383 | the predicted wRC+ is the nearest integer to its blend |
| ScoutingBoard.SuccessProbability | src/components/AAAScoutingBoard.tsx:385-388 | the probability lies in [5, 95] |
| ScoutingBoard.SuccessProbabilityMonotone | src/components/AAAScoutingBoard.tsx:385-388 | the probability is monotone in the total |
| ScoutingBoard.RiskOf | src/components/AAAScoutingBoard.tsx:390-394 | low risk exactly from 67, high risk exactly below 33 |
| ScoutingBoard.RiskMonotone | src/components/AAAScoutingBoard.tsx:390-394 | a higher total never raises the risk |
| ScoutingBoard.CollectRanked | src/components/AAAScoutingBoard.tsx:396-450 | pushes from ranked statements come in statement order, and an entry is present exactly when its statement pushed it |
| ScoutingBoard.RankedLength | src/components/AAAScoutingBoard.tsx:396-450 | n ranked statements push at most n entries |
| ScoutingBoard.StrengthStepRanked | src/components/AAAScoutingBoard.tsx:396-422 | each strength statement pushes at most one tag, its own |
| ScoutingBoard.StrengthStepEarns | src/components/AAAScoutingBoard.tsx:396-422 | a strength's statement pushes it exactly when its condition holds |
| ScoutingBoard.ConcernStepRanked | src/components/AAAScoutingBoard.tsx:424-450 | each concern statement pushes at most one tag, its own |
| ScoutingBoard.ConcernStepRaises | src/components/AAAScoutingBoard.tsx:424-450 | a concern's statement pushes it exactly when its condition holds |
| ScoutingBoard.StrengthsCorrect | src/components/AAAScoutingBoard.tsx:396-422 | the strengths are in statement order, at most ten, each present exactly when earned |
| ScoutingBoard.ConcernsCorrect | src/components/AAAScoutingBoard.tsx:424-450 | the concerns are in statement order, at most eleven, each present exactly when raised |
| ScoutingBoard.ContactStrengthExcludesConcern | src/components/AAAScoutingBoard.tsx:398-426 | a contact strength and a strikeout concern never appear together |
| ScoutingBoard.Evaluate | src/components/AAAScoutingBoard.tsx:316-460 | the score is the rounded total in [0, 100], the probability in [5, 95], the predicted wRC+ from the blend, the risk from the total, and the strengths and concerns as earned |
| ScoutingBoard.BatQualityCanBeNegative | src/components/AAAScoutingBoard.tsx:346-350 | a 50% infield-fly rate makes batted-ball quality negative |
| ScoutingBoard.EligiblePaScore | src/components/AAAScoutingBoard.tsx:465 | an eligible player's sample score lies in [0, 5] |
| ScoutingBoard.PlayersWithScores | src/components/AAAScoutingBoard.tsx:463-470 | the board lists no more players than it is given |
| ScoutingBoard.PlayersWithScoresMembers | src/components/AAAScoutingBoard.tsx:463-470 | the board lists exactly the eligible players, each with its own score |
| ScoutingBoard.LowerChar | src/components/AAAScoutingBoard.tsx:477-482 | `toLowerCase` maps A–Z to a–z and leaves every other character |
| ScoutingBoard.Lower | src/components/AAAScoutingBoard.tsx:477-482 | lower-casing a string works character by character |
| ScoutingBoard.IncludesEmpty | src/components/AAAScoutingBoard.tsx:477-482 | every string includes the empty string |
| ScoutingBoard.Search | src/components/AAAScoutingBoard.tsx:477-482 | the search keeps exactly the players whose name or team contains the term, ignoring case |
| ScoutingBoard.SearchEmptyKeepsAll | src/components/AAAScoutingBoard.tsx:476-482 | an empty term keeps the whole list |
| ScoutingBoard.FilteredPlayers | src/components/AAAScoutingBoard.tsx:473-493 | the result is a permutation of the searched list, sorted by the chosen order |
| ScoutingBoard.ScoreOrderDescending | src/components/AAAScoutingBoard.tsx:485-490 | sorting by score lists higher scores first |
| ScoutingBoard.TotalPages | src/components/AAAScoutingBoard.tsx:496 | `Math.ceil(n / 12)`: the least page count that holds every player |
| ScoutingBoard.SliceIndex | src/components/AAAScoutingBoard.tsx:497-499 | a `slice` index is clipped into [0, length] and counts negatives from the end |
| ScoutingBoard.Slice | src/components/AAAScoutingBoard.tsx:497-499 | `slice(start, end)` holds the elements from the clipped start up to the clipped end, in order, or none when the indices cross |
| ScoutingBoard.CurrentPlayers | src/components/AAAScoutingBoard.tsx:497-499 | a page holds at most 12 players |
| ScoutingBoard.PagesUpToPrefix | src/components/AAAScoutingBoard.tsx:496-499 | the first k pages, in order, are the first 12k players, or the whole list |
| ScoutingBoard.PagesCoverList | src/components/AAAScoutingBoard.tsx:496-499 | the pages 1 to `totalPages`, one after the other, are the whole list: no player is lost or repeated |
| ScoutingBoard.PageOfIndex | src/components/AAAScoutingBoard.tsx:496-499 | every player is on the page its position says, and that page exists |
| ScoutingBoard.PageNumbersShape | src/components/AAAScoutingBoard.tsx:512-539 | at most seven items in increasing order, first and last page always there, the current page always shown, ellipses only beyond seven pages |
| ScoutingBoard.GetPageNumbers | src/components/AAAScoutingBoard.tsx:512-539 | the pushes of `getPageNumbers` equal the specification `PageNumbers` |
| ScoutingBoard.Run | src/components/AAAScoutingBoard.tsx:518-535 | the page run from lo to hi, one number each |
| PlayerList.Qualifying | src/components/PlayerList.tsx:233 | the filter never lengthens the list |
| PlayerList.QualifyingMembers | src/components/PlayerList.tsx:233 | the filter keeps exactly the records with a truthy season and wRC+ |
| PlayerList.TopPlayers | src/components/PlayerList.tsx:232-235 | the top list holds min(10, qualifying) records by non-increasing wRC+, drawn from the qualifying ones, and none left out has a higher wRC+ than the last kept |
| PlayerList.SortedSplit | src/components/PlayerList.tsx:234-235 | the front of the sorted list is in order and nothing behind it is higher than its last entry |
| PlayerList.TopAreQualifying | src/components/PlayerList.tsx:232-235 | every listed player is a qualifying KBO record |
| PlayerList.CurrentPlayer | src/components/PlayerList.tsx:244-247 | the current player is one of the top players, and none exactly when the list is empty |
| PlayerList.CurrentPlayerChoice | src/components/PlayerList.tsx:244 | a listed selection shows that player; otherwise, or with no selection, the top player shows |
| PlayerList.PreData | src/components/PlayerList.tsx:245 | the pre-KBO record, when found, has the current player's name; none without a current player |
| PlayerList.PreDataFirst | src/components/PlayerList.tsx:245 | the record is the first of the name, and none exactly when no record has it |
| Dashboard.Keep | src/pages/Dashboard.tsx:32 | a filter never lengthens the list |
| Dashboard.KeepCounts | src/pages/Dashboard.tsx:32-36 | a filter keeps every passing record as often as it occurs, and nothing else |
| Dashboard.KeepSubset | src/pages/Dashboard.tsx:36 | a filtered list is a sub-multiset of the list |
| Dashboard.Values | src/pages/Dashboard.tsx:39-46 | the summed values are `p[key] \|\| 0` of each record |
| Dashboard.TotalPlayers | src/pages/Dashboard.tsx:32-33 | the count never exceeds the number of records |
| Dashboard.TotalPlayersCounts | src/pages/Dashboard.tsx:32-33 | each record with a season counts once per occurrence, and others do not count |
| Dashboard.WrcSubsetOfSeason | src/pages/Dashboard.tsx:36 | the records averaged for wRC+ are exactly those with a season and a non-zero wRC+ |
| Dashboard.RoundedMean | src/pages/Dashboard.tsx:37-48 | the guarded rounded mean is 0 for no records |
| Dashboard.RoundedMeanWithin | src/pages/Dashboard.tsx:37-48 | the rounded mean of values within integer bounds is within them |
| Dashboard.AvgWrcPlus | src/pages/Dashboard.tsx:37-41 | the average wRC+ is 0 when no record has one |
| Dashboard.AvgHr | src/pages/Dashboard.tsx:44-48 | the average home runs is 0 when no record has a season |
| Dashboard.PercentageBounds | src/pages/Dashboard.tsx:52-54 | a rounded share lies in [0, 100], 0 with no hits and 100 with all |
| Dashboard.SuccessRate | src/pages/Dashboard.tsx:51-55 | the success rate is 0 when no record has a wRC+ |
| Dashboard.SuccessRateBounds | src/pages/Dashboard.tsx:51-55 | it lies in [0, 100], 0 when no wRC+ is above 110, 100 when every one is |
| Dashboard.NoneKept | src/pages/Dashboard.tsx:53 | nothing is kept when no record passes |
| Dashboard.AllKept | src/pages/Dashboard.tsx:53 | everything is kept when every record passes |
| PredictionModel.Field | src/pages/PredictionModel.tsx:65-68 | `parseFloat(field) \|\| 0` is 0 for an unparsable entry and the value otherwise |
| PredictionModel.Prediction | src/pages/PredictionModel.tsx:63-77 | the prediction has one decimal and is within 0.05 of the weighted sum |
| PredictionModel.EmptyFormScoresZero | src/pages/PredictionModel.tsx:65-76 | a form with every field empty, unparsable or 0 predicts 0 |
| PredictionModel.PredictionMonotone | src/pages/PredictionModel.tsx:75-76 | more wRC+, walks or home runs never lower the prediction, and more strikeouts never raise it |
| PredictionModel.UnparsableIsZero | src/pages/PredictionModel.tsx:65-68 | an unparsable entry predicts like a typed 0 |
| PredictionModel.MessageTiers | src/pages/PredictionModel.tsx:79-83 | the message tiers are strict: above 100, above 50 up to 100, and 50 or below |
| PredictionModel.IndicatorMatchesMessage | src/pages/PredictionModel.tsx:39-43 | the indicator colour always agrees with the message |
| PredictionModel.MessageMonotone | src/pages/PredictionModel.tsx:79-83 | a higher score never gets a worse message |
| CorrelationChart.PointOf | src/components/CorrelationChart.tsx:104-108 | the pushed point holds the two defined values and the name, and its wRC+ is non-zero |
| CorrelationChart.CorrelationData | src/components/CorrelationChart.tsx:98-113 | at most one point per KBO record |
| CorrelationChart.GetCorrelationData | src/components/CorrelationChart.tsx:98-113 | the `forEach` pushes equal the specification `CorrelationData` |
| CorrelationChart.CorrelationDataPoints | src/components/CorrelationChart.tsx:101-108 | every point comes from a contributing KBO record and the first pre-KBO record of its name, and every such record gives its point |
| CorrelationChart.Pres | src/components/CorrelationChart.tsx:120-124 | the x values of the points, in order |
| CorrelationChart.Kbos | src/components/CorrelationChart.tsx:120-124 | the y values of the points, in order |
| CorrelationChart.ChartCorrelation | src/components/CorrelationChart.tsx:116-130 | the chart's coefficient is well formed, and 0 for fewer than two points |
| CorrelationChart.ChartCorrelationIsPearson | src/components/CorrelationChart.tsx:116-130 | the chart computes the scripts' coefficient, which lies in [-1, 1] |
| CorrelationChart.ColourMeans | src/components/CorrelationChart.tsx:135-140 | the colour is decided by \|r\| against 0.7 and 0.4 |
| CorrelationChart.StrengthMeans | src/components/CorrelationChart.tsx:142-148 | the label is decided by \|r\| against 0.7, 0.4 and 0.2 |
| CorrelationChart.ColourMatchesStrength | src/components/CorrelationChart.tsx:135-148 | the colour and the label share their two upper cuts |
| CorrelationChart.SignDoesNotMatter | src/components/CorrelationChart.tsx:135-148 | a coefficient and its opposite get the same colour and label |
| CorrelationChart.StrengthMonotone | src/components/CorrelationChart.tsx:142-148 | a larger \|r\| never gets a weaker label |
| DeltaDistribution.DeltaOf | src/components/DeltaDistribution.tsx:94 | the change is the KBO value minus the pre-KBO value |
| DeltaDistribution.Deltas | src/components/DeltaDistribution.tsx:91-97 | at most one change per KBO record |
| DeltaDistribution.DeltasFromPairs | src/components/DeltaDistribution.tsx:91-97 | every change comes from a paired record and the first pre-KBO record of its name, and every paired record contributes |
| DeltaDistribution.CollectDeltas | src/components/DeltaDistribution.tsx:91-97 | the `forEach` pushes equal the specification `Deltas` |
| DeltaDistribution.BinSize | src/components/DeltaDistribution.tsx:100-103 | the bin size is never negative |
| DeltaDistribution.BinIndex | src/components/DeltaDistribution.tsx:112 | the bin index is never above the last bin; `NaN` and `-Infinity` are none |
| DeltaDistribution.CountIn | src/components/DeltaDistribution.tsx:111-116 | a bin counts no more changes than there are |
| DeltaDistribution.Counts | src/components/DeltaDistribution.tsx:105-116 | there are ten counts |
| DeltaDistribution.CountBins | src/components/DeltaDistribution.tsx:105-116 | the bins filled in place equal the specification `Counts` |
| DeltaDistribution.GetDeltaData | src/components/DeltaDistribution.tsx:88-119 | the changes and the bin counts are those of the specification functions |
| DeltaDistribution.BinsTile | src/components/DeltaDistribution.tsx:105-109 | the bins tile [min, max]; each centre is the midpoint of its bin |
| DeltaDistribution.BinOfDelta | src/components/DeltaDistribution.tsx:111-116 | when the changes are not all equal, each lands in a bin that holds it; the least in bin 0 and the greatest in bin 9 |
| DeltaDistribution.FloorBin | src/components/DeltaDistribution.tsx:112 | `Math.min(Math.floor(q), 9)` picks a bin whose range holds q |
| DeltaDistribution.AllEqualNoneBinned | src/components/DeltaDistribution.tsx:103-116 | when every change is equal, the size is 0, every index is `NaN` and no bin is counted |
| DeltaDistribution.SingleDeltaEmptyHistogram | src/components/DeltaDistribution.tsx:100-116 | with one matched player all ten counts are 0 |
| DeltaDistribution.TotalCounts | src/components/DeltaDistribution.tsx:111-116 | when every change passes the range test, the counts add up to the number of changes |
| DeltaDistribution.HistogramCountsAll | src/components/DeltaDistribution.tsx:100-116 | when the changes are not all equal, every change is counted exactly once |
| DeltaDistribution.DeltaStats | src/components/DeltaDistribution.tsx:124-131 | the mean, the sorted copy, the median of the sorted copy and the variance are those of the specification functions |
| Summary.SeqMin | src/components/DistributionChart.tsx:137 | `Math.min(...s)` is a member no greater than any |
| Summary.SeqMax | src/components/DistributionChart.tsx:138 | `Math.max(...s)` is a member no less than any |
| Summary.Mean | src/components/DeltaDistribution.tsx:124 | the mean is none (`NaN`) exactly for no values |
| Summary.MeanBetween | src/components/DistributionChart.tsx:127-145 | the mean lies between the least and the greatest value |
| Summary.MeanWithin | src/pages/Dashboard.tsx:37-48 | values within bounds have a mean within them |
| Summary.MeanPermutation | src/components/DistributionChart.tsx:114-128 | sorting the values does not change their mean |
| Summary.SumPermutation | src/components/DistributionChart.tsx:114-128 | reordering values keeps their sum |
| Summary.SumConcat | src/components/DeltaDistribution.tsx:124 | the sum of a concatenation is the sum of the sums |
| Summary.Variance | src/components/DeltaDistribution.tsx:130 | the variance is none exactly for no values |
| Summary.VarianceZero | src/components/DistributionChart.tsx:122-125 | the variance is non-negative, and 0 exactly when every value is the mean |
| Summary.SortedCopy | src/components/DeltaDistribution.tsx:125 | `[...s].sort((a, b) => a - b)` is sorted and a permutation of s |
| Summary.Median | src/components/DeltaDistribution.tsx:126-128 | the median is none exactly for no values |
| Summary.MedianSplits | src/components/DistributionChart.tsx:117-120 | on sorted values at least half lie on each side of the median, which lies between the ends |
| DistributionChart.Defining | src/components/DistributionChart.tsx:89-90 | the filtered records all define the metric, and there are no more of them |
| DistributionChart.DefiningMembers | src/components/DistributionChart.tsx:89-90 | the filter keeps exactly the records that define the metric |
| DistributionChart.ValuesOf | src/components/DistributionChart.tsx:114-115 | on records that define the metric, `p[key] \|\| 0` is the value itself |
| DistributionChart.MetricValues | src/components/DistributionChart.tsx:111-115 | one value per defining record |
| DistributionChart.ComparisonData | src/components/DistributionChart.tsx:88-107 | each bar is the mean of the defining records and their count, with no mean exactly when the count is 0, on each bar |
| DistributionChart.Describe | src/components/DistributionChart.tsx:132-146 | a side has a mean exactly when it has values |
| DistributionChart.Change | src/components/DistributionChart.tsx:147 | the change exists exactly when both means do |
| DistributionChart.DetailedStats | src/components/DistributionChart.tsx:110-149 | both sides are sorted permutations of their values, described, and compared |
| DistributionChart.DescribeSorted | src/components/DistributionChart.tsx:114-146 | the detail's mean equals the bar's; least first, greatest last; mean and median between them; variance non-negative |
| DistributionChart.SortedEnds | src/components/DistributionChart.tsx:137-145 | the ends of sorted values are the least and the greatest |
| DistributionChart.ChangeSign | src/components/DistributionChart.tsx:147 | the change is positive exactly when the KBO mean is larger, and 0 exactly when equal |

## Left out

- `PlayerList.TopPlayers`: the engine's `Array.prototype.sort` is stable, so
  among players tied on wRC+ at tenth place the source keeps the ones that
  come first in the KBO records. `Sorting.SortBy` promises no order for equal
  keys, so the model leaves open which of the tied players are kept.
- `ScoutingBoard.FilteredPlayers`: for the same reason, the order of players
  with equal sort keys is left open, where the source keeps the order of
  `playersWithScores`.
- The square root: a coefficient is kept as numerator and radicand, and a
  standard deviation as its variance (`Summary.Variance`).
- Floating point: numbers are exact reals. `NaN` and `Infinity` are modelled
  only where the code's branches depend on them: an empty average is none,
  and a zero bin size makes an index `NaN`. `DeltaDistribution.Lo` of no
  changes is 0 instead of `Infinity`, which no bin reads.
- `toFixed`, string formatting and `parseFloat` are left out. A form entry is
  a parsed number or none.
- The narrative strings (Korean and English) are modelled as tags:
  archetype headlines, risk details, deep-dive paragraphs, success
  paragraphs, context notes, strengths and concerns.
- The deep-dive KFS paragraphs (`sabermetrics.ts:352-410`) are text only;
  only the verdict is modelled.
- `ScoutingBoard.LowerChar`: `toLowerCase` is modelled on ASCII letters only.
- `AnalyzeCorrelations.NumericKeys` covers a closed set of 22 property keys
  (`Players.Stat`): year, entry year, season, age, PA, HR, AVG, BABIP, OBP,
  SLG, wOBA, GDP, both spellings of wRC+, K% and BB%, LD%, GB%, IFFB% and
  SwStr%.
  - The record type declares further numeric keys (`src/types/index.ts`),
    for example `g_games_played`, `r_runs`, `rbi_runs_batted_in`,
    `sb_stolen_bases`, `bb`, `k`, `ab`, `h`, the hit and walk counts, `so`,
    `hbp_hit_by_pitch`, `'fb%'`, `'pull%'`, `'cent%'` and `'oppo%'`. The
    model cannot represent these.
  - When the sample record carries such keys, the script reports more
    correlations than the model's result holds.
- `AnalyzeCorrelations.NumericKeys`: `Object.keys` order is modelled as the
  declaration order of the property keys. `SortByStrength` promises nothing
  about the order of equal |r|, so keys with equal |r| may come out in a
  different order than the script's.
- `Math.random` is a parameter: each iteration's two draws are given in
  [0, 1).
- File reads and writes, and console output, are not modelled.
- `bestCorrelation = -1` is left out, because it is overwritten before the
  loop.
- React state and effects are left out:
  - the effect that selects the first top player (`PlayerList.tsx:238-242`);
  - the effect that resets the page;
  - the in-place `sort` reordering the memoised list shared with
    `playersWithScores` when the search term is empty.

  `PlayerList.CurrentPlayer` takes the selection as a parameter.
- The OPS shown in the player list is display only.
- `KfsScore.CalculateKfsScore` requires a plate-appearance count that is not
  0. With 0 the source divides by zero.
- `AnalyzeCorrelations.Analyze` requires at least one merged record and a KBO
  wRC+ on every merged record, as the script assumes. `Optimizer.Optimize`
  requires the latter.
- `Correlation.Mean` (a real over a non-empty sequence) is the scripts'
  helper inside the Cauchy–Schwarz proof. The components' mean is
  `Summary.Mean`, which is none for no values.
- Chart rendering, bin range labels, insight text and the pages built only
  from these numbers are not part of this model. This covers
  `StatsOverview`, `ComparisonChart`, `PlayerComparison`, `AAADashboard` and
  `DeltaInsights`.
