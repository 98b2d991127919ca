# HealLink symptom triage, modelled in Dafny

HealLink's prediction page (`public/script.js`) runs a rule-based triage engine before and
beside a machine-learning disease predictor. The page parses a free-text symptom field into a
symptom list. It scores the symptoms against keyword tables to pick a medical category, looks
for emergency patterns, computes a 0–20 severity score and a risk level, and chooses a
specialist and a likely condition. Finally it reconciles the predictor's answer with its own
findings, so that an emergency or an allergy block is never lost. When the predictor is
unavailable, a smaller fallback computes risk factors from a six-entry table.

This project models that engine, file region by file region:

| module | file | what it models |
|---|---|---|
| `Base`, `Text`, `MlData` | `base.dfy`, `text.dfy`, `ml_data.dfy` | shared helpers: earliest maximum, ASCII lower-casing, JavaScript `trim`, `includes`, `split`, `join`; JSON values and JavaScript truthiness (`x \|\| fallback`) |
| `TriageV1` | `triage_v1.dfy` | the first `applyMedicalAccuracySystem` and its helpers (lines 66–439) |
| `SafetyLayer` | `safety_layer.dfy` | `CATEGORY_SYMPTOMS`, `analyzeCategories`, `applyRuleBasedLayer` (lines 442–735) |
| `TriageV2` | `triage_v2.dfy` | the second `applyMedicalAccuracySystem`, its helpers and `correctMLResult` (lines 824–1112) |
| `Fallback` | `fallback.dfy` | `calculateRiskFactors` and `getSpecialistForDisease` |
| `Normalization` | `normalization.dfy` | the `NORMALIZATION_MAP` table |
| `Intake` | `intake.dfy` | the symptom-field tokenizer of `predictDisease` (line 1245) |

Some notes on how the code is read:

- **Two generations.** The file declares `applyMedicalAccuracySystem` twice (lines 66 and
  851). In one script scope the later declaration replaces the earlier, so the page runs the
  second generation. Both are modelled. The first one and its helpers are still reachable
  code, and they carry most of the category, emergency and severity rules.
- **State.** The second generation builds a result object and lets helper functions update it
  in place. It is modelled as the class `TriageV2.SafetyResult`. Each in-place helper is a
  method whose postcondition gives the new state as a step function of the old one, and the
  pipeline's guarantees are lemmas about the composed steps. The loops of
  `detectMedicalCategory`, `checkEmergencyConditions`, `calculateMedicalSeverity`,
  `analyzeCategories`, `detectCategory`, `calculateSeverityScore` and `calculateRiskFactors`
  are methods with loop invariants. Each is proved equal to a specification function, and the
  properties are proved about those functions.
- **Unmodified input.** `correctMLResult` starts from a spread copy `{ ...mlData }`.
  Dafny maps are values, so `TriageV2.CorrectMLResult` cannot change the predictor's answer
  it is given. What the copy promises is stated instead: every key the function does not
  write keeps the predictor's value.
- **Text as written.** The file holds the flags' and action steps' emoji as mis-decoded text.
  These are the UTF-8 bytes of each emoji read back as Mac OS Roman; the warning sign, for
  instance, appears as the six characters U+201A U+00F6 U+2020 U+00D4 U+220F U+00E8. The
  constants use those characters as written.
- **Quirks kept.** The quirks of the code are kept and proved as such:
  - the low-confidence adjustment raises "Low" straight to "High", because the second test sees
    the "Medium" the first has just written (`SafetyLayer.AdjustmentSkipsMedium`);
  - `detectCategory` answers "respiratory" when nothing scores (`TriageV2.TopCategoryShape`);
  - the high-risk test compares only the first word of each phrase and also matches any piece
    of a phrase (`TriageV2.HighRiskByFirstWord`, `TriageV2.HighRiskByPiece`);
  - the second generation recomputes the risk from the score, so an emergency can be "MODERATE"
    (`TriageV2.EmergencyNotAlwaysHigh`);
  - with no category given, the keyword-count category replaces the emergency category
    (`TriageV2.DetectionOverridesEmergencyCategory`).
- **Age.** The first generation's `calculateMedicalSeverity` takes no age into account. Only the
  second generation's `calculateSeverityScore` and the fallback's `calculateRiskFactors` add
  points for age.

Integers are unbounded. The predictor's numbers (confidence, severity) are Dafny `real`s.

## Model

| member | source | states |
|---|---|---|
| MlData.GetOr | public/script.js:630 | `x \|\| fallback`: the stored value when it is truthy, otherwise the fallback |
| MlData.NumberOrZero | public/script.js:675 | a numeric field is read as its number, anything else (absent, null, non-number) as 0 |
| TriageV1.Scores | public/script.js:126-192 | one score per category in the dictionary's declaration order, each the category's keyword score |
| TriageV1.AddHits | public/script.js:139-185 | a keyword pass adds its weight once for every keyword that occurs in the text |
| TriageV1.DetectMedicalCategory | public/script.js:125-203 | the pass-by-pass scoring loop returns exactly the ranked category pair of the scores |
| TriageV1.AllergyScoreShape | public/script.js:180-192 | a blocker in the text keeps the allergy score at 0; a non-zero allergy score needs no blocker and at least three allergy keywords |
| TriageV1.RankPrimary | public/script.js:194-199 | the primary category is "general" exactly when no score is positive, otherwise the earliest category with the largest score |
| TriageV1.RankSecondaryCount | public/script.js:195-200 | a secondary category is reported exactly when at least two scores are positive |
| TriageV1.RankSecondaryOrder | public/script.js:195-200 | the secondary category differs from the primary, is positive, and is the earliest largest among the rest (stable sort order) |
| TriageV1.CategoryOfFacts | public/script.js:125-203 | the detector's answer in terms of the category scores: general iff nothing scores, primary is the earliest top score, secondary the earliest runner-up |
| TriageV1.AllergyNeverWithBlocker | public/script.js:187-192 | with a blocker present, allergy is neither the primary nor the secondary category |
| TriageV1.FiredRules | public/script.js:208-262 | the firing emergency rules are listed in strictly increasing rule order |
| TriageV1.CheckEmergencyConditions | public/script.js:208-265 | the eleven independent checks give exactly the reasons of the firing rules, in rule order |
| TriageV1.FiredRulesExact | public/script.js:208-262 | a rule is listed if and only if its condition holds |
| TriageV1.EmergencyShape | public/script.js:208-265 | the emergency flag is set iff a reason is given; at most eleven reasons; each reason belongs to a firing rule |
| TriageV1.ChestPainIsEmergency | public/script.js:221-224 | text containing "chest pain" is always an emergency with the chest-pain reason |
| TriageV1.SeverityPointsCover | public/script.js:273-291 | every additive severity rule that fires contributes its full weight |
| TriageV1.SeverityPointsMonotone | public/script.js:273-291 | firing more rules never lowers the running severity |
| TriageV1.MedicalSeverity | public/script.js:270-303 | the severity lies in 0..20; a throat symptom without "severe" gives the rule total raised to at least 4 and then lowered to at most 7; otherwise it is the rule total capped at 20 |
| TriageV1.CalculateMedicalSeverity | public/script.js:270-303 | the rule-by-rule method computes exactly the specified severity |
| TriageV1.SeverityRedFlagsAndMonotone | public/script.js:274-302 | outside the throat clamp, chest pain, confusion or fainting alone give at least 5, and the severity is monotone in the rules that fire |
| TriageV1.RiskLevel | public/script.js:308-312 | an emergency is always HIGH |
| TriageV1.RiskThresholds | public/script.js:308-312 | without an emergency HIGH iff severity ≥ 15, MEDIUM iff 8..14, LOW iff < 8, and the level is monotone in the severity |
| TriageV1.EmergencyRaisesRisk | public/script.js:309 | an emergency never lowers the risk level for the same severity |
| TriageV1.SelectSpecialist | public/script.js:317-333 | emergencies go to the emergency medicine specialist, otherwise the category's specialist, General Physician for general |
| TriageV1.PredictCondition | public/script.js:338-385 | the predicted condition is always one of the fixed condition labels |
| TriageV1.FirstMatch | public/script.js:340-376 | the first pattern at or after a position that matches, with no earlier pattern matching; none when no pattern matches |
| TriageV1.PredictConditionIsFirstMatch | public/script.js:338-385 | the if-chain equals the ordered pattern table evaluated first-match-first, with the category label as last resort |
| TriageV1.ThroatCondition | public/script.js:340-343 | a throat symptom predicts pharyngitis with fever and sore throat without |
| TriageV1.CoughMasksChestPain | public/script.js:349-360 | with a cough, chest pain reads as bronchitis, because the cough rules come first |
| TriageV1.PrecautionsFor | public/script.js:390-427 | four precautions: the table's list for a known condition, the default list otherwise |
| TriageV1.ValidateCategoryMatch | public/script.js:432-439 | a user category is refused iff it is "allergy" and chest pain, fever or breathless occurs |
| TriageV1.ApplyMedicalAccuracySystem | public/script.js:66-120 | every field of the first-generation result in terms of the detectors; an emergency means HIGH and the emergency specialist |
| TriageV1.PipelineAllergySafe | public/script.js:96-100 | the reported category is "allergy" only when none of the user-level blockers occurs, whether detected or user-chosen |
| SafetyLayer.Cleaned | public/script.js:569 | each symptom is normalized, lower-cased, trimmed and has its underscores replaced by spaces |
| SafetyLayer.RawScores | public/script.js:568-598 | the four system scores in declaration order, each the sum of the symptoms' core and red-flag points |
| SafetyLayer.AnyFlagCovers | public/script.js:583-595 | a red-flag hit by any symptom marks the system |
| SafetyLayer.AnyFlagWitness | public/script.js:583-595 | a marked system has a symptom that hits one of its red flags |
| SafetyLayer.FlagHits | public/script.js:561-596 | the red-flag marks per system in declaration order |
| SafetyLayer.BoostUpTo | public/script.js:601-608 | the tie pass adds at most one point per system it has looked at |
| SafetyLayer.TieBoost | public/script.js:601-608 | the tie boost keeps four scores |
| SafetyLayer.TieBoostShape | public/script.js:601-608 | only the respiratory score changes, only when it is at least 2, and by at most 3 |
| SafetyLayer.TieBoostCascades | public/script.js:603-606 | the boost compares with the live respiratory score, so it can cascade and take the lead from a higher system |
| SafetyLayer.DominantShape | public/script.js:611-618 | no dominant system iff no score is positive; otherwise the earliest system with the largest score |
| SafetyLayer.AnalyzeCategories | public/script.js:553-626 | the nested scoring loops, the tie pass and the dominant scan return exactly the specified analysis |
| SafetyLayer.TalliesComplete | public/script.js:568-598 | per-system tallies over all symptoms are the raw scores and red-flag marks |
| SafetyLayer.ScoreSymptom | public/script.js:571-597 | one symptom adds its points to every system and ors in its red-flag hits |
| SafetyLayer.BoostRespiratory | public/script.js:601-608 | the tie loop computes the specified boost |
| SafetyLayer.FindDominant | public/script.js:611-618 | the strictly-greater scan finds the specified dominant system |
| SafetyLayer.RawScoreCovers | public/script.js:579-594 | one symptom's points are part of its system's score |
| SafetyLayer.SpecialKeywordFlagsEverySystem | public/script.js:583-595 | a symptom mentioning chest pain, shortness of breath, difficulty breathing, severe headache or confusion flags every system with at least 3 points |
| SafetyLayer.SpecialKeywordHit | public/script.js:588-592 | such a keyword matches the red flags of any system |
| SafetyLayer.EmergencyFlags | public/script.js:659-670 | a system's emergency flag is listed exactly when its red-flag hit is set, nothing else is listed, and the flags follow the order cardio, neuro, respiratory, gi |
| SafetyLayer.Assemble | public/script.js:726-734 | the result holds the predictor's keys plus the layer's, and every key the layer does not write keeps the predictor's value |
| SafetyLayer.ApplyRuleBasedLayer | public/script.js:629-735 | the layer returns exactly the case-by-case answer for the analysis and the breathing detector's verdict |
| SafetyLayer.ApplyOverrides | public/script.js:633-734 | the sequence of overrides computes exactly the case-by-case answer |
| SafetyLayer.PushEmergencyFlags | public/script.js:659-670 | the emergency flags are appended one per marked system, in system order |
| SafetyLayer.RedFlagsListed | public/script.js:652-670 | under a red flag, every system whose hit is set (after the breathing override) has its emergency warning among the safety flags |
| SafetyLayer.LayerGuarantees | public/script.js:629-735 | severity ≤ 20; a red flag means High, severity ≥ 17, an alert and urgent evaluation; no red flag means no alert; other keys pass through |
| SafetyLayer.LowConfidenceFlagLast | public/script.js:721-724 | below 0.15 confidence the low-confidence warning is the last flag; otherwise it appears nowhere |
| SafetyLayer.AdjustmentSkipsMedium | public/script.js:678-684 | an adjusted "Low" or "Medium" ends as "High" with severity ≥ 13 unless a vague short list resets it to "Low" and 8 |
| SafetyLayer.SectionsDistinct | public/script.js:645-718 | no flag of the first four sections equals the low-confidence warning |
| SafetyLayer.FlagsDistinct | public/script.js:645-723 | each flag text differs from the low-confidence warning |
| SafetyLayer.EmergencyFlagsDistinct | public/script.js:659-670 | no emergency flag equals the low-confidence warning |
| TriageV2.HighRiskByFirstWord | public/script.js:865-870 | any symptom containing "severe" or "chest" is high risk, because only a phrase's first word is compared |
| TriageV2.HighRiskByPiece | public/script.js:868 | a symptom that is just "pain" is high risk, because the match also runs from the phrase to the symptom |
| TriageV2.DetectEmergencyCategory | public/script.js:910-926 | the emergency category is one of cardio, neuro, respiratory, gi, emergency |
| TriageV2.BreathingIsCardio | public/script.js:913-921 | "breathing" contains "breath", so breathing trouble is filed as cardio, and respiratory needs neither |
| TriageV2.RuleScores | public/script.js:934-941 | one keyword count per rule, in rule order |
| TriageV2.TopCategoryShape | public/script.js:943-947 | the first rule with the largest count wins; with no hits that is "respiratory"; never "general" |
| TriageV2.DetectCategory | public/script.js:929-948 | the counting loops return the first rule with the largest count |
| TriageV2.CountKeywords | public/script.js:935-940 | a rule scores one point per keyword (lower-cased) found in the text |
| TriageV2.DetectCategoryFromList | public/script.js:956-966 | the first listed category with a keyword in the text, none when no listed category matches |
| TriageV2.DetectNonAllergyCategory | public/script.js:951-954 | never "allergy": a listed category or "general" |
| TriageV2.GetSpecialistForCategory | public/script.js:1063-1077 | the table's specialist for a known category, "General Physician" for any other; always one of the known specialists |
| TriageV2.SymptomSeverity | public/script.js:973-990 | one symptom adds at most 10 points |
| TriageV2.RiskFor | public/script.js:1001-1008 | the risk is one of HIGH, MODERATE, LOW |
| TriageV2.SeverityBounds | public/script.js:969-1009 | from a start in 0..20 the score stays between the start and 20; HIGH iff ≥ 15, LOW iff < 8 |
| TriageV2.RiskMonotone | public/script.js:1001-1008 | a higher score never gives a lower risk |
| TriageV2.ActionStepsFor | public/script.js:1012-1031 | three steps; an emergency always gets the urgent steps |
| TriageV2.CategoryPrecautions | public/script.js:1038-1060 | every category gets exactly two precautions |
| TriageV2.SafetyResult.constructor | public/script.js:852-862 | the result object starts with the defaults and `category \|\| "general"` |
| TriageV2.ApplyMedicalAccuracySystem | public/script.js:851-907 | the in-place pipeline leaves the result object in the state of the five composed steps |
| TriageV2.FlagHighRisk | public/script.js:864-880 | step 1 in place: +8, HIGH, emergency, two pushed steps, emergency category and its specialist |
| TriageV2.BlockAllergy | public/script.js:887-898 | step 3 in place: an allergy filing with a blocker becomes a non-allergy category and condition |
| TriageV2.CalculateSeverityScore | public/script.js:969-1009 | the per-symptom loop and age factor leave the capped score and the risk recomputed from it |
| TriageV2.AddSymptomPoints | public/script.js:973-990 | one loop iteration adds exactly the symptom's points |
| TriageV2.SetMedicalActions | public/script.js:1012-1035 | the action steps are replaced by those for the state, then the precautions are added |
| TriageV2.AddCategoryPrecautions | public/script.js:1038-1060 | the category's two precautions are pushed and nothing else changes |
| TriageV2.AssessmentGuarantees | public/script.js:851-907 | score in 0..20 and risk from the score; emergency iff a high-risk match, with the urgent steps and ≥ 8 points; never allergy with a blocker; two precautions |
| TriageV2.DetectionOverridesEmergencyCategory | public/script.js:872-885 | with no category given, the keyword-count category replaces the emergency one while the emergency specialist stays |
| TriageV2.EmergencyNotAlwaysHigh | public/script.js:999-1008 | an emergency without severity words at an age of 5–65 scores exactly 8 and is MODERATE |
| TriageV2.MissingAgeCountsAsInfant | public/script.js:993-996 | an age read as 0 scores 2 points above any age of 5–65, capped at 20 |
| TriageV2.PredictsAllergy | public/script.js:1097 | the allergy test throws exactly when the disease value is neither a string nor absent/null |
| TriageV2.CorrectMLResult | public/script.js:1079-1112 | the copy keeps every key of the predictor's answer and always holds a severity; the only keys it adds are the ones it writes |
| TriageV2.CorrectMLResultGuarantees | public/script.js:1080-1112 | fails only when the allergy test throws; severity ≥ the safety score; an emergency forces HIGH, the safety condition, the alert and its reason; a safety category other than general or allergy replaces the category; an allergy prediction with a blocker is marked blocked, takes the safety category and has its disease replaced by the safety condition; other keys keep the predictor's value |
| Fallback.ScanHits | public/script.js:1434-1443 | scanning one symptom adds at most one hit per table entry it looks at |
| Fallback.Capitalize | public/script.js:1441 | same length; the first character upper-cased, the rest unchanged |
| Fallback.Labels | public/script.js:1441 | one condition label per hit |
| Fallback.LabelsAt | public/script.js:1441 | the i-th condition is "Possible <Key> related condition" for the i-th hit |
| Fallback.CalculateRiskFactors | public/script.js:1417-1458 | the nested loops and age factor return exactly the specified risk factors |
| Fallback.ScanSymptom | public/script.js:1433-1443 | the inner loop appends the symptom's hits in table order and updates the total, conditions and lead risk to match them |
| Fallback.TakeHit | public/script.js:1435-1441 | one hit adds its severity and its condition to the totals, and the running risk and specialist stay those that the extended hit list leads to |
| Fallback.LastHigh | public/script.js:1437-1440 | the last High hit, which is a High hit |
| Fallback.FirstMedium | public/script.js:1437-1440 | the first Medium hit, which is a Medium hit |
| Fallback.LeadCharacterized | public/script.js:1437-1440 | the lead risk is High iff some hit is High, Medium iff none is High and one is Medium; the specialist is the last High hit's, else the first Medium hit's, else General Physician |
| Fallback.ScanHitsFrom | public/script.js:1434-1443 | a scan keeps every earlier hit and adds only table entries whose key occurs in the symptom |
| Fallback.ScanHitsHas | public/script.js:1435 | a key found in the symptom is a hit |
| Fallback.HitListHas | public/script.js:1432-1444 | a key found in any symptom is a hit |
| Fallback.HitListFrom | public/script.js:1432-1444 | every hit is a table entry whose key occurs in some prepared symptom |
| Fallback.RiskTableSpecialties | public/script.js:1418-1425 | the table's specialties are four, and High entries go to Cardiologist or Pulmonologist |
| Fallback.SeveritySumPositive | public/script.js:1436 | the total is at least any hit's severity |
| Fallback.RiskFactorsConditions | public/script.js:1455 | the default condition appears iff no symptom contains any key; otherwise there is one condition per hit |
| Fallback.RiskFactorsLevelAndSpecialist | public/script.js:1452-1454 | High iff the total exceeds 10, Low iff it is at most 5; the specialist is one of the table's three or the default |
| Fallback.ChestPainAtLeastMedium | public/script.js:1419-1453 | a symptom mentioning chest pain makes the level at least Medium and the specialist a Cardiologist or Pulmonologist |
| Fallback.ChestPainAloneIsMedium | public/script.js:1446-1453 | chest pain as the only hit, at an age up to 60, totals 8 and is only Medium, with a Cardiologist |
| Fallback.GetSpecialistForDisease | public/script.js:1649-1711 | the table's specialist for the lower-cased, trimmed name when the table has it, General Physician otherwise; always one of the known specialists |
| Fallback.PreparedIdempotent | public/script.js:1709 | lower-casing and trimming twice is doing it once |
| Fallback.SpecialistForDiseaseNormalised | public/script.js:1709-1710 | the lookup ignores case and surrounding white space |
| Normalization.TableImage | public/script.js:6-43 | a phrase without an entry stays itself; otherwise it becomes a canonical symptom |
| Normalization.TableImageIdempotent | public/script.js:6-43 | no canonical symptom is a key, so applying the table twice is applying it once |
| Normalization.BreathingImage | public/script.js:8-21 | every breathing phrase becomes "breathlessness" |
| Normalization.ChestImage | public/script.js:13-34 | every chest phrase becomes "chest_pain" |
| Normalization.ThroatImage | public/script.js:23-30 | every throat phrase becomes "throat_irritation", a core respiratory symptom and not a core digestive one |
| Intake.SplitAt | public/script.js:1245 | splitting always yields at least one piece |
| Intake.TrimAll | public/script.js:1245 | each piece is trimmed, and there are as many as before |
| Intake.NonEmpty | public/script.js:1245 | the kept pieces are non-empty pieces of the input list |
| Intake.NonEmptyKeepsAll | public/script.js:1245 | every non-empty piece of the input list is kept |
| Intake.NonEmptyConcat | public/script.js:1245 | the filter keeps order: filtering a concatenation is concatenating the filtered parts |
| Intake.ParseSymptoms | public/script.js:1245-1249 | the field is rejected iff no symptom is left, otherwise the symptoms are the tokens |
| Intake.Rejected | public/script.js:1245-1249 | the tokenizer leaves no symptom exactly when every character is a separator or white space |
| Intake.ReadField | public/script.js:1235-1249 | when the field goes on to the prediction, it carries the tokens and at least one of them |
| Intake.ReadFieldOutcomes | public/script.js:1235-1249 | "Please enter at least one symptom." exactly for a blank field; "Please enter valid symptoms." exactly for a field with some non-white-space character where every character is a separator or white space |
| Intake.PiecesBlank | public/script.js:1245 | every split piece is white space exactly when every character is a separator or white space |
| Intake.OnlyNsRejected | public/script.js:1245-1249 | as written, the field "nnn" leaves no symptom and gets "Please enter valid symptoms.", since the letter n is a separator |
| Intake.PiecesHaveNoSeparator | public/script.js:1245 | no piece contains a separator character |
| Intake.TokensAreClean | public/script.js:1245 | every kept symptom is non-empty, already trimmed and free of separator characters |
| Intake.SplitWithoutSeparator | public/script.js:1245 | text without separators is one piece |
| Intake.SingleClauseKept | public/script.js:1245 | a clause without separators becomes its trimmed self as the only symptom |
| Intake.NoTokenContainsN | public/script.js:1245 | as written, no kept symptom contains the letter n |
| Intake.RunnyNoseAsWritten | public/script.js:1245 | as written, "runny nose" becomes "ru", "y" and "ose" |
| Intake.YIsHighRisk | public/script.js:865-870 | any symptom list with the token "y" is high risk, since "difficulty breathing" contains it |
| Intake.RunnyNoseIsHighRisk | public/script.js:1245 | as written, a typed "runny nose" triggers the second generation's emergency path |
| Intake.RunnyNoseIntended | public/script.js:1245 | with comma, semicolon and newline as separators, "runny nose" stays one symptom |

## Findings

| source | as written | input that shows it | evidently intended | confidence | as-written member | corrected member |
|---|---|---|---|---|---|---|
| public/script.js:1245 | `split(/[,;\\n]+/)` splits at comma, semicolon, backslash and the letter n, because the doubled backslash in a regular expression literal is a literal backslash | the field "runny nose" becomes the symptoms "ru", "y" and "ose", and "y" lies inside the high-risk phrase "difficulty breathing", so a runny nose is handled as an emergency | split at comma, semicolon and newline, so that "runny nose" stays one symptom | high; not executed | Intake.RunnyNoseIsHighRisk | Intake.RunnyNoseIntended |

`Intake.Tokenize` takes the separator set as a parameter. `AsWritten` is the code's
class and `Intended` is comma, semicolon and newline. `Intake.TokensAreClean` and
`Intake.SingleClauseKept` hold for both.

## Left out

- The page's DOM work, animations, alerts, result rendering, appointment booking and report generation: presentation only.
- The call to the prediction service, its time-out and the choice to fall back when it fails (`predictDisease`): network I/O. The pieces it combines (`applyMedicalAccuracySystem`, `correctMLResult`, `calculateRiskFactors`, the tokenizer) are modelled one by one.
- `normalizeSymptom` and `autoDetectBreathingEmergency` are called but not defined in `public/script.js`. They are not part of this model. They enter as a function parameter (`normalize`) and as the detector's boolean verdict (`autoDetect`).
- `BREATHING_EMERGENCY_KEYWORDS` and `THROAT_EMERGENCY_KEYWORDS` (lines 46–56) feed only those undefined functions, so they are not modelled.
- `generateRuleBasedPrediction` only renames the fields of `calculateRiskFactors`' result and adds a fixed confidence of 0.75, so it is not modelled separately.
- `parseInt(age) || 0`: the age enters as an integer. A missing or unparsable age is passed as 0, and `TriageV2.MissingAgeCountsAsInfant` states what that does. Gender is accepted and unused, as in the code.
- `toLowerCase` and `toUpperCase` are modelled for ASCII letters only. Unicode case mapping is not modelled.
- JavaScript coercion of non-numeric values is not modelled. The model reads any value that is not a number as 0. This covers:
  - the "Severity Score" key of the safety layer, which passes through `Math.max` and `Math.min` at lines 642–730;
  - the camelCase `severityScore` key of `correctMLResult`, which passes through `Math.max` at lines 1106–1108;
  - "Confidence", which meets only the comparisons `< 0.25`, `< 0.2` and `< 0.15` at lines 678, 715 and 722.
  In JavaScript, a numeric string would be coerced to its number, `true` would count as 1, and a non-numeric string would make each comparison false.
- `NORMALIZATION_MAP` (lines 6–43) is read by no code in `public/script.js`. `normalizeSymptom`, the function that would apply it, is not defined there. The `Normalization` lemmas describe the table on its own. They are not tied to the `normalize` parameter of the safety layer and the first generation, which stands for any function.
- Object-prototype keys such as "constructor" or "toString" in the category, specialist and disease lookups are not modelled. A lookup of such a key in the code yields a function, and the model yields the table's default.
- The predictor's floating-point numbers are modelled as exact reals.
- Intake.SplitAt: splits at every separator, not at runs of separators. The two differ only by empty pieces, which the filter drops.
- Fallback.RiskFactorsOf: the age block of `calculateRiskFactors` also raises `maxRisk` from Low to Medium. The method `Fallback.CalculateRiskFactors` does this too, but nothing reads `maxRisk` afterwards, so the specification function `RiskFactorsOf` leaves it out.
- The other files of the repository (`server.js`, the Python prediction service and its tests) are not part of this model.
