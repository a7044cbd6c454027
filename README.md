# Health survey scoring and supplement recommendation — a Dafny model

The web application takes one survey and computes two things from it:

- a wellness score from 0 to 100;
- up to four supplement recommendations drawn from a fixed catalog of twelve.

The survey holds basic information, eight lifestyle answers and a list of self-reported symptoms.

This project models the engine behind both results and the survey schema that admits its input.

- **Survey** (`survey.dfy`): the survey record.
  - Closed enumerations are datatypes.
  - `sleepTime`, `age`, `height` and `weight` are free strings; `gender` is a datatype.
  - `conditions` and `medications` are optional.
  - `Valid` holds the schema's remaining constraints.
  - `ParseSurvey` is the schema's accept/reject decision on the raw, all-strings record.
  - `SymptomOptions` and `ConditionOptions` are the two id vocabularies the form offers.
- **HealthScore** (`score.dfy`): the score.
  - `Score` is the reference formula: 100 minus the fixed deductions, minus 3 per symptom entry, clamped at 0.
  - `CalculateHealthScore` is the source's step-by-step computation, proved equal to it.
- **Catalog** (`catalog.dfy`): the twelve catalog entries, and the lookup by id.
- **Candidates** (`candidates.dfy`): the candidate map of one call.
  - It is an insertion-ordered map from supplement id to {score, distinct reasons}.
  - `WithAdded` specifies `addScore`; `WithLowered` specifies the in-place decrement of the gap analysis.
  - The class `CandidateMap` is the mutable map the engine updates. Its `AddScore` and `Lower` are proved to do exactly what those functions say.
- **Ranking** (`ranking.dfy`): the final decision.
  - Keep the positive scores, sort by descending score with a stable sort, keep the first four.
  - The sort is specified by its two defining properties: sorted, and keeping the order of equal scores. `StableSortUnique` proves that these fix the result, so every stable sort gives the same list.
- **Decimal** (`decimal.dfy`): the decimal text that `${n}` produces, with its inverse.
- **Recommendation** (`recommendation.dfy`): the engine.
  - Every rule of the source is a function on the map, and a method that performs the same updates on a `CandidateMap`.
  - The method `GetRecommendations` runs the rules in the source's order on a fresh map. Its result is proved equal to `Recommend`, the composition of the rule functions and the selection.
  - The source's phase-1 block is one method per rule here, so each proof stays small.
  - Lemmas state what every rule touches, how the phases combine, and what reaches the output.
- **Scenarios** (`scenarios.dfy`): one survey followed end to end through the three phases and the final decision.
- **Wrappers** (`wrappers.dfy`): the optional value and the no-repeats predicate `Distinct` that the other modules share.

Where a description of the engine and its code disagree, the model follows the code:

- `sleepTime` is described as a four-value enumeration. The schema only asks for a non-empty string (`web/src/lib/schemas/survey.ts:16`). Any value other than `less_5` and `5_7` costs nothing.
- Nine or more symptoms with the worst answers are described as driving the score below zero before the clamp. In the code the worst answers cost 58 together. Nine symptoms therefore leave 15 (`HealthScore.FormSymptomsNeverClamp`, `HealthScore.LifestyleDeduction`). The running total goes negative only with 15 or more symptom entries, which the form can reach only with repeated or foreign ids.
- The recommendation list is described as possibly empty. In the code the baseline gives vitamin_d 3 points on every survey, and no later rule lowers vitamin_d. The list therefore always holds at least one item (`Recommendation.RecommendationsNeverEmpty`).
- For the survey with the symptom cold, hypertension and the best answers elsewhere, vitamin_c is described as scoring 8. Frequent vegetables lower it by 4, so it scores 4 and comes last. The result is zinc, vitamin_d, coq10, vitamin_c (`Scenarios.ColdSurveyRecommendations`).
- The comments in the score computation give the sleep group at most 15 points and the diet group at most 20 (`web/src/lib/recommendation.ts:104`, `web/src/lib/recommendation.ts:109`). The code deducts up to 17 and 21 (`HealthScore.GroupMaxima`).
- A comment before the cut mentions extra items for very high scores (`web/src/lib/recommendation.ts:240`). The code always keeps at most four.

## Model

| member | source | states |
|---|---|---|
| Survey.ParseGender | web/src/lib/schemas/survey.ts:7 | accepts exactly "male" and "female", and the value's name is the input |
| Survey.ParseSleepQuality | web/src/lib/schemas/survey.ts:17 | accepts exactly good, fair, poor, and the value's name is the input |
| Survey.ParseDietQuality | web/src/lib/schemas/survey.ts:18 | accepts exactly balanced, irregular, fastfood, and the value's name is the input |
| Survey.ParseFrequency | web/src/lib/schemas/survey.ts:19-21 | accepts exactly rare, moderate, frequent (the fish, vegetable and protein answers), and the value's name is the input |
| Survey.ParseExercise | web/src/lib/schemas/survey.ts:22 | accepts exactly none, 1-2, 3-4, 5+, and the value's name is the input |
| Survey.ParseStress | web/src/lib/schemas/survey.ts:23 | accepts exactly low, medium, high, and the value's name is the input |
| Survey.Valid | web/src/lib/schemas/survey.ts:6-30 | the schema constraints the types leave open: non-empty age, height, weight and sleepTime, and at least one symptom; `ParseSurvey` proves every accepted record satisfies it and `ParseToRaw` that every record satisfying it is accepted |
| Survey.Admissible | web/src/lib/schemas/survey.ts:3-31 | every field constraint of the schema on the raw all-strings record; `ParseSurvey` proves acceptance holds exactly when it does |
| Survey.ToRaw | web/src/lib/schemas/survey.ts:3-31 | the raw record a typed survey comes from; `ParseSurvey` proves it inverts parsing and `ParseToRaw` that parsing inverts it on valid surveys |
| Survey.EnumNamesRoundTrip | web/src/lib/schemas/survey.ts:17-23 | every enumeration value's name parses back to that value |
| Survey.ParseSurvey | web/src/lib/schemas/survey.ts:3-31 | a raw record is accepted iff every field constraint holds (non-empty age, height, weight, sleepTime and symptoms; each enumerated answer one of its names); an accepted record satisfies `Valid` and maps back to the raw record |
| Survey.ParseToRaw | web/src/lib/schemas/survey.ts:3-31 | every valid typed survey is accepted from its raw form and comes back unchanged |
| Survey.SymptomsOnlyNonEmpty | web/src/lib/schemas/survey.ts:28-30 | swapping the symptom list for any other list is accepted iff the rest was acceptable and the new list is non-empty: repeated entries and ids outside the vocabulary pass |
| Survey.OptionalFieldsIgnored | web/src/lib/schemas/survey.ts:10-11 | acceptance does not depend on `conditions` or `medications`, present or absent |
| Survey.SymptomIdSetMatchesOptions | web/src/lib/schemas/survey.ts:36-46 | the symptom vocabulary is exactly the nine listed ids |
| Survey.VocabulariesDistinct | web/src/lib/schemas/survey.ts:36-53 | nine symptom options and four condition options, each list with distinct ids, and "hypertension" among the conditions |
| HealthScore.SleepTimeDeduction | web/src/lib/recommendation.ts:105-106 | costs at most 10, 10 exactly for less_5, and nothing for any value other than less_5 and 5_7 |
| HealthScore.SleepQualityDeduction | web/src/lib/recommendation.ts:107 | costs at most 7, nothing exactly for good sleep, 7 exactly for poor sleep |
| HealthScore.DietQualityDeduction | web/src/lib/recommendation.ts:110-111 | costs at most 10, nothing exactly for a balanced diet, 10 exactly for fastfood |
| HealthScore.RareDeduction | web/src/lib/recommendation.ts:113-115 | the vegetable, fish and protein answers cost their amount exactly when rare and nothing otherwise |
| HealthScore.ExerciseDeduction | web/src/lib/recommendation.ts:118 | costs at most 10, and something only for no exercise |
| HealthScore.StressDeduction | web/src/lib/recommendation.ts:119-120 | costs at most 10, nothing exactly for low stress, 10 exactly for high stress |
| HealthScore.GroupMaxima | web/src/lib/recommendation.ts:104-120 | sleep costs at most 17, diet at most 21, exercise and stress at most 20, and the worst sleep and diet answers reach 17 and 21 |
| HealthScore.LifestyleDeduction | web/src/lib/recommendation.ts:105-120 | the lifestyle answers together never cost more than 58 |
| HealthScore.CalculateHealthScore | web/src/lib/recommendation.ts:101-126 | the step-by-step computation returns exactly the reference formula with its per-answer deductions and 3 per symptom entry, and lies in [0, 100] |
| HealthScore.Score | web/src/lib/recommendation.ts:101-126 | the score lies in [0, 100] and is 100 exactly when no answer costs anything and no symptom is reported |
| HealthScore.ValidScoreAtMost97 | web/src/lib/recommendation.ts:123 | a survey the schema admits has a symptom, so it scores at most 97 |
| HealthScore.ExtraSymptomCostsAtMostThree | web/src/lib/recommendation.ts:123-125 | one more symptom entry, duplicate or not, lowers the score by exactly 3 unless the clamp is reached, and never by more |
| HealthScore.FormSymptomsNeverClamp | web/src/lib/recommendation.ts:105-125 | with symptoms taken at most once each from the form's nine options the score is at least 15 |
| HealthScore.WorstAnswersTwoSymptoms | web/src/lib/recommendation.ts:105-125 | the worst answers with eye_tremor and fatigue score 36 |
| HealthScore.BestAnswersOneSymptom | web/src/lib/recommendation.ts:105-125 | the best answers with one symptom score 97 |
| Catalog.FindIn | web/src/lib/recommendation.ts:133 | `find` yields an entry iff some entry has the id, and then the first such entry |
| Catalog.Find | web/src/lib/recommendation.ts:133-134 | the catalog lookup succeeds exactly for the twelve catalog ids and returns the entry with that id |
| Catalog.IdsAgree | web/src/lib/recommendation.ts:14-99 | the catalog has twelve entries whose ids are, in order, the id list |
| Catalog.CatalogIdsDistinct | web/src/lib/recommendation.ts:14-99 | no two catalog entries share an id |
| Candidates.EmptyValid | web/src/lib/recommendation.ts:130 | the fresh map is well formed and has no negative score |
| Candidates.WellFormed | web/src/lib/recommendation.ts:130-140 | the invariant of the candidate map: the key order lists each key once, every key is a catalog id stored with its own entry, and every entry has a non-empty list of distinct reasons; `EmptyValid` establishes it, `WithAdded` and `LoweredKeepsWellFormed` keep it |
| Candidates.WithAdded | web/src/lib/recommendation.ts:132-140 | `addScore` keeps the map well formed (catalog ids only, key order matching the keys, reasons non-empty and distinct), changes no entry but the id's, keeps scores non-negative for a non-negative weight, and leaves the id's score at its old score (or 0) plus the weight |
| Candidates.AddedEffect | web/src/lib/recommendation.ts:132-140 | an id outside the catalog changes nothing; a present id keeps order and keys, gains the weight, and gains the reason only if it was not listed; a new catalog id is appended to the order with just this weight and reason; no other entry changes |
| Candidates.CandidateMap.constructor | web/src/lib/recommendation.ts:130 | a new map is empty |
| Candidates.CandidateMap.AddScore | web/src/lib/recommendation.ts:132-140 | the in-place lookup, fetch-or-create, add, conditional push and set leave the map exactly as `WithAdded` says |
| Candidates.WithLowered | web/src/lib/recommendation.ts:198-199 | the decrement keeps order and keys, never creates an entry, lowers only the score of the named entry, and leaves its reasons and every other entry alone |
| Candidates.LoweredKeepsWellFormed | web/src/lib/recommendation.ts:198-199 | lowering a score keeps the map well formed |
| Candidates.CandidateMap.Lower | web/src/lib/recommendation.ts:206-207 | the in-place `score -=` on a fetched entry leaves the map exactly as `WithLowered` says |
| Candidates.Values | web/src/lib/recommendation.ts:236 | `Array.from(candidates.values())` lists the entries in key insertion order |
| Candidates.ValuesWellFormed | web/src/lib/recommendation.ts:236 | the listed entries carry distinct catalog ids and non-empty lists of distinct reasons, each as stored in the map |
| Ranking.Positive | web/src/lib/recommendation.ts:237 | the filter is an order-preserving subsequence of its input (`Subsequence`) holding exactly the candidates with a positive score, and keeps the subsequence of every positive score whole |
| Ranking.Insert | web/src/lib/recommendation.ts:238 | inserting into a descending list gives a descending permutation of the list plus the element |
| Ranking.InsertWithScore | web/src/lib/recommendation.ts:238 | an inserted element lands in front of the elements it ties with, and no other same-score order changes |
| Ranking.SortDesc | web/src/lib/recommendation.ts:238 | the sort gives a descending permutation of its input |
| Ranking.SortDescStable | web/src/lib/recommendation.ts:238 | the sort keeps the relative order of candidates with equal scores |
| Ranking.StableSortUnique | web/src/lib/recommendation.ts:238 | two descending lists with the same per-score subsequences are equal, so every stable descending sort gives the same list |
| Ranking.RankedShape | web/src/lib/recommendation.ts:236-243 | the ranking holds min(4, number of positive candidates) elements, all positive candidates of the input, in non-increasing score order |
| Ranking.RankedAreTheBest | web/src/lib/recommendation.ts:238-243 | no positive candidate left out scores above one that is kept |
| Ranking.RankedKeepsTieOrder | web/src/lib/recommendation.ts:236-243 | the ranking is a prefix of the sorted positive candidates, in which every score's candidates keep the input order |
| Ranking.RankedDistinctIds | web/src/lib/recommendation.ts:236-243 | filtering, sorting and cutting never name an id twice when the input does not |
| Ranking.PositiveDistinctIds | web/src/lib/recommendation.ts:237 | filtering keeps ids distinct |
| Ranking.SortDescDistinctIds | web/src/lib/recommendation.ts:238 | sorting keeps ids distinct |
| Ranking.RankedNonEmpty | web/src/lib/recommendation.ts:237-243 | one positive candidate suffices for a non-empty ranking whose head scores at least as much |
| Ranking.Ranked | web/src/lib/recommendation.ts:236-243 | filter, stable descending sort and cut at four; `RankedShape`, `RankedAreTheBest`, `RankedKeepsTieOrder` and `RankedDistinctIds` state what it keeps |
| Decimal.Show | web/src/lib/recommendation.ts:246 | the decimal text of a count is a non-empty string of digits without a leading zero |
| Decimal.ValueOfShow | web/src/lib/recommendation.ts:246 | the decimal text denotes the count it was made from |
| Decimal.ShowOfValue | web/src/lib/recommendation.ts:246 | a digit string without a leading zero is the decimal text of its value, so the text of a count is the only such string for it |
| Recommendation.EyeTremorRule | web/src/lib/recommendation.ts:146 | keeps the candidate map well formed (the rule: eye_tremor adds magnesium 10) |
| Recommendation.FatigueRule | web/src/lib/recommendation.ts:149-152 | keeps the candidate map well formed (the rule: fatigue adds vitamin_b_complex 10 and milk_thistle 5) |
| Recommendation.SleepRule | web/src/lib/recommendation.ts:155-158 | keeps the candidate map well formed (the rule: insomnia or poor sleep adds magnesium 5 and l_theanine 3) |
| Recommendation.StressRule | web/src/lib/recommendation.ts:159-162 | keeps the candidate map well formed (the rule: high stress adds magnesium 5 and l_theanine 8) |
| Recommendation.DigestionRule | web/src/lib/recommendation.ts:165 | keeps the candidate map well formed (the rule: indigestion adds probiotics 10) |
| Recommendation.HairLossRule | web/src/lib/recommendation.ts:168-171 | keeps the candidate map well formed (the rule: hair_loss adds biotin 10 and zinc 5) |
| Recommendation.JointRule | web/src/lib/recommendation.ts:174-177 | keeps the candidate map well formed (the rule: joint_pain adds msm 10 and vitamin_d 3) |
| Recommendation.ColdRule | web/src/lib/recommendation.ts:180-184 | keeps the candidate map well formed (the rule: cold adds vitamin_c 8, zinc 8 and vitamin_d 5) |
| Recommendation.SkinRule | web/src/lib/recommendation.ts:187 | keeps the candidate map well formed (the rule: skin_trouble adds omega3 3) |
| Recommendation.BaselineRule | web/src/lib/recommendation.ts:190-191 | keeps the candidate map well formed (the rule: every survey adds vitamin_d 3 and omega3 3) |
| Recommendation.SymptomRules | web/src/lib/recommendation.ts:143-191 | phase 1, the ten rules on the empty map in the source's order, gives a well-formed map |
| Recommendation.FishGap | web/src/lib/recommendation.ts:197-202 | keeps the candidate map well formed (the rule: frequent fish lowers omega3 by 5, rare fish adds omega3 5) |
| Recommendation.VegGap | web/src/lib/recommendation.ts:205-211 | keeps the candidate map well formed (the rule: frequent vegetables lower vitamin_c by 4, rare ones add vitamin_c 5 and probiotics 3) |
| Recommendation.ProteinGap | web/src/lib/recommendation.ts:214-217 | keeps the candidate map well formed (the rule: rare protein adds zinc 5 and vitamin_b_complex 3) |
| Recommendation.FastfoodGap | web/src/lib/recommendation.ts:220-223 | keeps the candidate map well formed (the rule: a fastfood diet adds magnesium 5 and probiotics 5) |
| Recommendation.GapRules | web/src/lib/recommendation.ts:197-223 | phase 2, the four gap rules in order, keeps the map well formed |
| Recommendation.ConditionRules | web/src/lib/recommendation.ts:229-231 | keeps the candidate map well formed (the rule: hypertension adds coq10 8) |
| Recommendation.HasHypertension | web/src/lib/recommendation.ts:229 | true exactly when the conditions are present and include hypertension; `HypertensionAddsCoq10` shows coq10 is a candidate exactly then |
| Recommendation.Accumulate | web/src/lib/recommendation.ts:130-231 | the three phases give a well-formed map |
| Recommendation.GetRecommendations | web/src/lib/recommendation.ts:128-250 | running the rules in place on a fresh map and selecting returns exactly `Recommend` of the survey, with between 1 and 4 items |
| Recommendation.Recommend | web/src/lib/recommendation.ts:128-250 | the engine: the three phases on the empty map, then the selection; `RecommendationsNeverEmpty`, `HypertensionAddsCoq10` and `FrequentFishDropsOmega3` state what it returns |
| Recommendation.Select | web/src/lib/recommendation.ts:236-247 | the ranked candidates turned into catalog items with their match reasons; `SelectShape`, `SelectDistinct`, `SelectCatalogEntries` and `SelectSkipsNonPositive` state what it returns |
| Recommendation.ToRecommendation | web/src/lib/recommendation.ts:244-246 | the catalog entry of the candidate's id with its match reason; `CatalogEntryOf` proves every other field comes from the catalog |
| Recommendation.MatchReason | web/src/lib/recommendation.ts:246 | the reason shown for a candidate; `MatchReasonForm` pins its text |
| Recommendation.ApplySymptomRules | web/src/lib/recommendation.ts:143-191 | the phase-1 updates on the fresh map leave it equal to `SymptomRules` |
| Recommendation.ApplyEyeTremorRule | web/src/lib/recommendation.ts:146 | the in-place updates equal `EyeTremorRule` |
| Recommendation.ApplyFatigueRule | web/src/lib/recommendation.ts:149-152 | the in-place updates equal `FatigueRule` |
| Recommendation.ApplySleepRule | web/src/lib/recommendation.ts:155-158 | the in-place updates equal `SleepRule` |
| Recommendation.ApplyStressRule | web/src/lib/recommendation.ts:159-162 | the in-place updates equal `StressRule` |
| Recommendation.ApplyDigestionRule | web/src/lib/recommendation.ts:165 | the in-place updates equal `DigestionRule` |
| Recommendation.ApplyHairLossRule | web/src/lib/recommendation.ts:168-171 | the in-place updates equal `HairLossRule` |
| Recommendation.ApplyJointRule | web/src/lib/recommendation.ts:174-177 | the in-place updates equal `JointRule` |
| Recommendation.ApplyColdRule | web/src/lib/recommendation.ts:180-184 | the in-place updates equal `ColdRule` |
| Recommendation.ApplySkinRule | web/src/lib/recommendation.ts:187 | the in-place updates equal `SkinRule` |
| Recommendation.ApplyBaselineRule | web/src/lib/recommendation.ts:190-191 | the in-place updates equal `BaselineRule` |
| Recommendation.ApplyGapRules | web/src/lib/recommendation.ts:197-223 | the in-place gap updates, decrements included, leave the map equal to `GapRules` of its old state |
| Recommendation.ApplyConditionRules | web/src/lib/recommendation.ts:229-231 | the in-place condition update equals `ConditionRules` |
| Recommendation.SelectShape | web/src/lib/recommendation.ts:236-247 | the output has as many items as the ranking, at most 4; the ranking is non-increasing with distinct ids; each ranked candidate is the map's entry, scores above 0, and gives the item with its id and with `matchReason` built from its reasons |
| Recommendation.SelectDistinct | web/src/lib/recommendation.ts:236-247 | no supplement is recommended twice |
| Recommendation.SelectCatalogEntries | web/src/lib/recommendation.ts:242-246 | every item is a catalog entry, with the catalog's name, description, tags and search keyword |
| Recommendation.CatalogEntryOf | web/src/lib/recommendation.ts:244-246 | the item made from a candidate is the catalog entry of its id plus the match reason |
| Recommendation.SelectNonEmpty | web/src/lib/recommendation.ts:236-243 | a positive entry in the map makes the output non-empty, headed by a score at least that high |
| Recommendation.SelectSkipsNonPositive | web/src/lib/recommendation.ts:237 | an entry whose score is 0 or less is never recommended |
| Recommendation.SelectOnlyFromTable | web/src/lib/recommendation.ts:236-247 | an id that is not in the map is never recommended |
| Recommendation.MatchReasonForm | web/src/lib/recommendation.ts:246 | one reason is shown as is; with more, the first reason, " 외 ", the count of further reasons as decimal digits without a leading zero, and "건" |
| Recommendation.EyeTremorRuleFacts | web/src/lib/recommendation.ts:146 | the rule touches only magnesium and keeps scores non-negative |
| Recommendation.FatigueRuleFacts | web/src/lib/recommendation.ts:149-152 | the rule touches only vitamin_b_complex and milk_thistle and keeps scores non-negative |
| Recommendation.SleepRuleFacts | web/src/lib/recommendation.ts:155-158 | the rule touches only magnesium and l_theanine and keeps scores non-negative |
| Recommendation.StressRuleFacts | web/src/lib/recommendation.ts:159-162 | the rule touches only magnesium and l_theanine and keeps scores non-negative |
| Recommendation.DigestionRuleFacts | web/src/lib/recommendation.ts:165 | the rule touches only probiotics and keeps scores non-negative |
| Recommendation.HairLossRuleFacts | web/src/lib/recommendation.ts:168-171 | the rule touches only biotin and zinc and keeps scores non-negative |
| Recommendation.JointRuleFacts | web/src/lib/recommendation.ts:174-177 | the rule touches only msm and vitamin_d and keeps scores non-negative |
| Recommendation.ColdRuleFacts | web/src/lib/recommendation.ts:180-184 | the rule touches only vitamin_c, zinc and vitamin_d and keeps scores non-negative |
| Recommendation.SkinRuleFacts | web/src/lib/recommendation.ts:187 | the rule touches only omega3 and keeps scores non-negative |
| Recommendation.BaselineRuleFacts | web/src/lib/recommendation.ts:190-191 | the baseline touches only vitamin_d and omega3 and keeps scores non-negative |
| Recommendation.FishGapFacts | web/src/lib/recommendation.ts:197-202 | the fish rule touches only omega3 |
| Recommendation.VegGapFacts | web/src/lib/recommendation.ts:205-211 | the vegetable rule touches only vitamin_c and probiotics |
| Recommendation.ProteinGapFacts | web/src/lib/recommendation.ts:214-217 | the protein rule touches only zinc and vitamin_b_complex |
| Recommendation.FastfoodGapFacts | web/src/lib/recommendation.ts:220-223 | the fastfood rule touches only magnesium and probiotics |
| Recommendation.ConditionRulesFacts | web/src/lib/recommendation.ts:229-231 | the condition rule touches only coq10 |
| Recommendation.SkinRuleOmega3 | web/src/lib/recommendation.ts:187 | on a map without omega3, the skin rule creates omega3 iff skin_trouble is reported, with score 3 |
| Recommendation.BaselineScores | web/src/lib/recommendation.ts:190-191 | after the baseline, vitamin_d and omega3 are both present, each 3 above its previous score (or 0) |
| Recommendation.FishGapOmega3 | web/src/lib/recommendation.ts:197-199 | frequent fish neither creates nor removes omega3 and changes only its score, by -5 |
| Recommendation.VegGapVitaminC | web/src/lib/recommendation.ts:205-207 | frequent vegetables neither create nor remove vitamin_c and change only its score, by -4 |
| Recommendation.SymptomChainHead | web/src/lib/recommendation.ts:146-165 | after the first five phase-1 rules only their five ids can be present, none negative |
| Recommendation.SymptomChainTail | web/src/lib/recommendation.ts:168-191 | after the rest of phase 1 only the eleven phase-1 ids can be present, none negative |
| Recommendation.NoOmega3BeforeSkinRule | web/src/lib/recommendation.ts:146-184 | no rule before the skin rule creates omega3 |
| Recommendation.SymptomRulesFacts | web/src/lib/recommendation.ts:143-191 | phase 1 creates only its eleven ids and no negative score; vitamin_d ends at 3 or more; omega3 ends at exactly 3, or 6 with skin trouble |
| Recommendation.GapChain | web/src/lib/recommendation.ts:197-223 | the four gap rules together touch only their six ids and pass omega3 on unchanged after the fish rule |
| Recommendation.GapRulesFrame | web/src/lib/recommendation.ts:197-223 | phase 2 touches only its six ids; with frequent fish an existing omega3 ends exactly 5 lower |
| Recommendation.ConditionRulesCoq10 | web/src/lib/recommendation.ts:229-231 | on a map without coq10, coq10 appears iff the conditions include hypertension, with 8 points and its one reason |
| Recommendation.RecommendationsNeverEmpty | web/src/lib/recommendation.ts:190-243 | every survey gets at least one recommendation, and the first scores at least 3 |
| Recommendation.HypertensionAddsCoq10 | web/src/lib/recommendation.ts:229-231 | coq10 is a candidate iff the conditions include hypertension, then with 8 points and one reason; with conditions absent it is never recommended |
| Recommendation.FrequentFishDropsOmega3 | web/src/lib/recommendation.ts:187-237 | with frequent fish and no skin trouble omega3 ends at 3 - 5 = -2 and is not recommended |
| Scenarios.SilentRules | web/src/lib/recommendation.ts:146-177 | without their symptoms, poor sleep and high stress, the first seven phase-1 rules change nothing |
| Scenarios.ColdRuleAppends | web/src/lib/recommendation.ts:180-184 | on a map without vitamin_c, zinc and vitamin_d, the cold rule appends them with 8, 8 and 5 points, in that order |
| Scenarios.ExistingThenNew | web/src/lib/recommendation.ts:132-140 | `addScore` on a present id and then on a new catalog id raises the first entry and appends the second |
| Scenarios.FrequentGaps | web/src/lib/recommendation.ts:197-223 | frequent fish and vegetables, protein not rare and no fastfood: phase 2 only lowers omega3 by 5 and then vitamin_c by 4 |
| Scenarios.ColdSurveySymptomRules | web/src/lib/recommendation.ts:143-191 | on the example survey phase 1 gives vitamin_c 8, zinc 8, vitamin_d 8 with two reasons, omega3 3, in that order |
| Scenarios.ColdSurveyGapRules | web/src/lib/recommendation.ts:197-223 | on the example phase 2 leaves omega3 at -2 and vitamin_c at 4 |
| Scenarios.ColdSurveyConditionRules | web/src/lib/recommendation.ts:229-231 | on the example phase 3 appends coq10 with 8 points |
| Scenarios.ColdSurveyAccumulate | web/src/lib/recommendation.ts:130-231 | the three phases on the example give that final map |
| Scenarios.RankFive | web/src/lib/recommendation.ts:236-243 | of five candidates, a non-positive fourth is dropped and a lower first moves behind three tied ones, which keep their order |
| Scenarios.ColdSurveyRanking | web/src/lib/recommendation.ts:236-243 | on the example the ranking is zinc, vitamin_d, coq10 (8 each, in map order) and vitamin_c (4); omega3 is dropped |
| Scenarios.ColdSurveySelect | web/src/lib/recommendation.ts:236-247 | on the example the four items carry those ids, and vitamin_d shows "기초 면역 형성 외 1건" |
| Scenarios.ColdSurveyRecommendations | web/src/lib/recommendation.ts:128-250 | the cold and hypertension survey with the best other answers yields zinc, vitamin_d, coq10 and vitamin_c, with their match reasons |

## Left out

- The form, the result page, routing and `sessionStorage` are UI and I/O and are not part of this model; the engine is given the survey directly.
- `PRODUCT_RECOMMENDATIONS` is display data the engine never reads and is not part of this model.
- The schema library's error messages and its parsing of JSON are left out; `ParseSurvey` models only the accept/reject decision, with `medications` and `conditions` as optional values.
- `age`, `height` and `weight` stay strings: the engine never reads them as numbers.
- Supplement names, descriptions, tags and reasons are opaque strings; `Supplement.priority` is never set in the source and has no field here.
- Candidates.Candidate: the source keeps a reference to the catalog item in each entry; the model keeps its id and looks the item up when the output is built. Aliasing between entries and catalog objects is therefore not modelled (the source never mutates an item).
- Recommendation.ToRecommendation: the source spreads any extra properties of the item into the output; catalog items have exactly the fields the model keeps, so nothing is lost.
- `new Set(data.symptoms)` is modelled by membership in the symptom sequence, which answers every `has` query the same way.
- Scores are JavaScript numbers; the model uses unbounded integers, which agree with them because every score is a small sum of small integers.
- The engine and the score do not require `Valid`: the code handles every typed record, so the model takes no precondition; `Valid` appears in lemmas such as `HealthScore.ValidScoreAtMost97`.
- Recommendation.EyeTremorRule and the other rule functions: their own contract only keeps the map well formed; what each one changes is stated by `Candidates.AddedEffect` for every call and by the matching `…Facts` lemma.
