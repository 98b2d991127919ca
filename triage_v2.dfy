/** The second generation of the triage engine, the one the prediction page
    calls: a high-risk phrase test, category detection by keyword counts, an
    allergy block, an additive severity score with an age factor, action
    steps and precautions, all written into one result object; and the
    correction of a prediction service's answer by that result. */
module TriageV2 {
  import opened Base
  import opened Text
  import opened MlData

  // ---------------------------------------------------------------------
  // Tables
  // ---------------------------------------------------------------------

  const HighRiskSymptoms: seq<string> := [
    "chest pain", "chest tightness", "difficulty breathing", "shortness of breath",
    "severe headache", "confusion", "weakness", "speech difficulty", "fainting",
    "severe abdominal pain", "black stool", "blood in vomit", "paralysis",
    "dizziness with chest pain", "can't breathe", "severe breathing problems"]

  const AllergyBlockers: seq<string> := [
    "chest pain", "fever", "chills", "severe headache", "shortness of breath",
    "nausea", "vomiting", "confusion", "weakness"]

  datatype CategoryRule = CategoryRule(name: string, keywords: seq<string>)

  /** CATEGORY_RULES in declaration order, which is the order ties are
      broken in. */
  const CategoryRules: seq<CategoryRule> := [
    CategoryRule("respiratory", ["cough", "cold", "fever", "sore throat", "runny nose", "chest tightness", "breathing", "shortness"]),
    CategoryRule("cardio", ["chest pain", "shortness of breath", "chest tightness", "heart", "palpitations"]),
    CategoryRule("neuro", ["headache", "confusion", "weakness", "dizziness", "speech", "paralysis"]),
    CategoryRule("gi", ["abdominal pain", "vomiting", "diarrhea", "stomach", "nausea"]),
    CategoryRule("dermat", ["rash", "itching", "skin", "spots"]),
    CategoryRule("endocrine", ["weight loss", "thirst", "hormonal", "diabetes"]),
    CategoryRule("psychiatry", ["mood", "anxiety", "hallucinations", "depression"]),
    CategoryRule("allergy", ["sneezing", "itching", "rash", "allergic"]),
    CategoryRule("general", [])]

  /** `symptoms.join(" ").toLowerCase()` */
  function SymptomText(symptoms: seq<string>): string {
    Lower(Join(symptoms, " "))
  }

  /** `keywords.map(k => k.toLowerCase())` */
  function LowerAll(kws: seq<string>): (r: seq<string>)
    ensures |r| == |kws|
    ensures forall i :: 0 <= i < |kws| ==> r[i] == Lower(kws[i])
  {
    seq(|kws|, i requires 0 <= i < |kws| => Lower(kws[i]))
  }

  // ---------------------------------------------------------------------
  // High-risk test and allergy blockers
  // ---------------------------------------------------------------------

  /** A symptom against a high-risk phrase: the symptom contains the
      phrase's first word, or the phrase contains the symptom. */
  predicate HighRiskMatch(symptom: string, risk: string) {
    Contains(Lower(symptom), FirstWord(Lower(risk))) || Contains(Lower(risk), Lower(symptom))
  }

  predicate HasHighRisk(symptoms: seq<string>) {
    exists i, k :: 0 <= i < |symptoms| && 0 <= k < |HighRiskSymptoms| && HighRiskMatch(symptoms[i], HighRiskSymptoms[k])
  }

  /** Only the first word of a high-risk phrase is compared with the
      symptom: any symptom mentioning "severe" (from "severe headache") or
      "chest" (from "chest pain") is high risk. */
  lemma HighRiskByFirstWord(symptoms: seq<string>, i: nat)
    requires i < |symptoms|
    ensures Contains(Lower(symptoms[i]), "severe") ==> HasHighRisk(symptoms)
    ensures Contains(Lower(symptoms[i]), "chest") ==> HasHighRisk(symptoms)
  {
    if Contains(Lower(symptoms[i]), "severe") {
      assert FirstWord(Lower(HighRiskSymptoms[4])) == "severe" by {
        LowerOfLower(HighRiskSymptoms[4]);
        assert HighRiskSymptoms[4] == "severe" + " " + "headache";
        FirstWordOfPhrase("severe", "headache");
      }
      assert HighRiskMatch(symptoms[i], HighRiskSymptoms[4]);
    }
    if Contains(Lower(symptoms[i]), "chest") {
      assert FirstWord(Lower(HighRiskSymptoms[0])) == "chest" by {
        LowerOfLower(HighRiskSymptoms[0]);
        assert HighRiskSymptoms[0] == "chest" + " " + "pain";
        FirstWordOfPhrase("chest", "pain");
      }
      assert HighRiskMatch(symptoms[i], HighRiskSymptoms[0]);
    }
  }

  /** The match also runs the other way: a symptom that is any piece of a
      high-risk phrase, such as "pain", is high risk. */
  lemma HighRiskByPiece(symptoms: seq<string>, i: nat)
    requires i < |symptoms| && Lower(symptoms[i]) == "pain"
    ensures HasHighRisk(symptoms)
  {
    LowerOfLower(HighRiskSymptoms[0]);
    assert HighRiskSymptoms[0][6..10] == "pain";
    ContainsAt(HighRiskSymptoms[0], "pain", 6);
    assert HighRiskMatch(symptoms[i], HighRiskSymptoms[0]);
  }

  /** The allergy block compares the first word of each blocker. */
  predicate HasAllergyBlocker(symptoms: seq<string>) {
    exists i, k :: 0 <= i < |symptoms| && 0 <= k < |AllergyBlockers|
      && Contains(Lower(symptoms[i]), FirstWord(Lower(AllergyBlockers[k])))
  }

  // ---------------------------------------------------------------------
  // Category detection
  // ---------------------------------------------------------------------

  /** detectEmergencyCategory: a first-match chain over the symptom text. */
  function DetectEmergencyCategory(symptoms: seq<string>): (c: string)
    ensures c in {"cardio", "neuro", "respiratory", "gi", "emergency"}
  {
    var text := SymptomText(symptoms);
    if Contains(text, "chest") || Contains(text, "heart") || Contains(text, "breath") then "cardio"
    else if Contains(text, "headache") || Contains(text, "confusion") || Contains(text, "weakness") then "neuro"
    else if Contains(text, "breathing") || Contains(text, "cough") || Contains(text, "lung") then "respiratory"
    else if Contains(text, "abdominal") || Contains(text, "stomach") || Contains(text, "vomit") then "gi"
    else "emergency"
  }

  /** "breathing" contains "breath", so breathing trouble is classed as
      cardiac, and the respiratory branch is only ever reached through
      "cough" or "lung". */
  lemma BreathingIsCardio(symptoms: seq<string>)
    ensures Contains(SymptomText(symptoms), "breathing") ==> DetectEmergencyCategory(symptoms) == "cardio"
    ensures DetectEmergencyCategory(symptoms) == "respiratory" ==>
      Contains(SymptomText(symptoms), "cough") || Contains(SymptomText(symptoms), "lung")
  {
    var text := SymptomText(symptoms);
    if Contains(text, "breathing") {
      assert "breathing"[0..6] == "breath";
      ContainsAt("breathing", "breath", 0);
      ContainsTrans(text, "breathing", "breath");
    }
  }

  /** Keyword counts of the first `n` rules, in rule order. */
  function RuleScores(text: string, n: nat): (s: seq<int>)
    requires n <= |CategoryRules|
    ensures |s| == n
    ensures forall i :: 0 <= i < n ==> s[i] == Hits(text, LowerAll(CategoryRules[i].keywords))
  {
    if n == 0 then [] else RuleScores(text, n - 1) + [Hits(text, LowerAll(CategoryRules[n - 1].keywords))]
  }

  /** The first rule holding the largest count. */
  function TopCategory(text: string): string {
    CategoryRules[MaxIndex(RuleScores(text, |CategoryRules|))].name
  }

  /** The category chosen is the first one whose count is the largest; with
      no keyword at all that is "respiratory", and it is never "general". */
  lemma TopCategoryShape(text: string)
    ensures exists k :: (0 <= k < |CategoryRules| && TopCategory(text) == CategoryRules[k].name
      && (forall j :: 0 <= j < |CategoryRules| ==>
            RuleScores(text, |CategoryRules|)[j] <= RuleScores(text, |CategoryRules|)[k])
      && (forall j :: 0 <= j < k ==> RuleScores(text, |CategoryRules|)[j] < RuleScores(text, |CategoryRules|)[k]))
    ensures (forall j :: 0 <= j < |CategoryRules| ==> RuleScores(text, |CategoryRules|)[j] == 0) ==>
      TopCategory(text) == "respiratory"
    ensures TopCategory(text) != "general"
  {
    var s := RuleScores(text, |CategoryRules|);
    var k := MaxIndex(s);
    assert s[8] == 0;
    assert s[0] == Hits(text, LowerAll(CategoryRules[0].keywords));
    if s[k] == 0 {
      assert k == 0;
    } else {
      assert k != 8;
    }
    assert CategoryRules[k].name != "general" by {
      assert k < 8;
    }
  }

  /** detectCategory: counts keyword hits per rule, then takes the first rule
      holding the maximum. */
  method DetectCategory(symptoms: seq<string>) returns (cat: string)
    ensures cat == TopCategory(SymptomText(symptoms))
  {
    var text := Lower(Join(symptoms, " "));
    var scores: seq<int> := [];
    for r := 0 to |CategoryRules|
      invariant scores == RuleScores(text, r)
    {
      var score := CountKeywords(text, CategoryRules[r].keywords);
      scores := scores + [score];
    }
    var top := CategoryRules[MaxIndex(scores)].name;
    // The source's `topCategory || "general"`; every rule name is non-empty.
    cat := if top != "" then top else "general";
  }

  /** The inner loop of detectCategory: one point per keyword found in the
      lower-cased text. */
  method CountKeywords(text: string, keywords: seq<string>) returns (score: int)
    ensures score == Hits(text, LowerAll(keywords))
  {
    score := 0;
    for k := 0 to |keywords|
      invariant score == Hits(text, LowerAll(keywords[..k]))
    {
      assert LowerAll(keywords[..k + 1]) == LowerAll(keywords[..k]) + [Lower(keywords[k])];
      if Contains(text, Lower(keywords[k])) {
        score := score + 1;
      }
    }
    assert keywords[..|keywords|] == keywords;
  }

  /** `CATEGORY_RULES[cat] || []` */
  function RuleKeywords(rules: seq<CategoryRule>, cat: string): seq<string>
    decreases |rules|
  {
    if rules == [] then [] else if rules[0].name == cat then rules[0].keywords else RuleKeywords(rules[1..], cat)
  }

  predicate CategoryMatches(text: string, cat: string) {
    var kws := RuleKeywords(CategoryRules, cat);
    exists k :: 0 <= k < |kws| && Contains(text, Lower(kws[k]))
  }

  /** detectCategoryFromList: the first listed category with a keyword in
      the text, if any. */
  function DetectCategoryFromList(symptoms: seq<string>, categories: seq<string>): (r: Option<string>)
    ensures r.Some? ==> exists i :: (0 <= i < |categories| && r.value == categories[i]
      && CategoryMatches(SymptomText(symptoms), categories[i])
      && forall j :: 0 <= j < i ==> !CategoryMatches(SymptomText(symptoms), categories[j]))
    ensures r.None? ==> forall i :: 0 <= i < |categories| ==> !CategoryMatches(SymptomText(symptoms), categories[i])
    decreases |categories|
  {
    if categories == [] then None
    else if CategoryMatches(SymptomText(symptoms), categories[0]) then Some(categories[0])
    else
      var r := DetectCategoryFromList(symptoms, categories[1..]);
      assert forall i :: 1 <= i < |categories| ==> categories[i] == categories[1..][i - 1];
      r
  }

  const NonAllergyCategories: seq<string> := ["respiratory", "cardio", "neuro", "gi", "dermat", "endocrine"]

  /** detectNonAllergyCategory: never "allergy". */
  function DetectNonAllergyCategory(symptoms: seq<string>): (c: string)
    ensures c != "allergy"
    ensures c == "general" || c in NonAllergyCategories
  {
    match DetectCategoryFromList(symptoms, NonAllergyCategories)
    case Some(c) => c
    case None => "general"
  }

  // ---------------------------------------------------------------------
  // Specialist, severity, actions and precautions
  // ---------------------------------------------------------------------

  const SpecialistTable: map<string, string> := map[
    "cardio" := "Cardiologist",
    "neuro" := "Neurologist",
    "respiratory" := "Pulmonologist",
    "gi" := "Gastroenterologist",
    "dermat" := "Dermatologist",
    "allergy" := "Allergist",
    "endocrine" := "Endocrinologist",
    "psychiatry" := "Psychiatrist",
    "emergency" := "Emergency Medicine Physician",
    "general" := "General Physician"]

  const SpecialistNames: set<string> := {
    "Cardiologist", "Neurologist", "Pulmonologist", "Gastroenterologist", "Dermatologist", "Allergist",
    "Endocrinologist", "Psychiatrist", "Emergency Medicine Physician", "General Physician"}

  /** getSpecialistForCategory: the table's entry, "General Physician" for
      any other category. */
  function GetSpecialistForCategory(category: string): (s: string)
    ensures s in SpecialistNames
    ensures category in SpecialistTable ==> s == SpecialistTable[category]
    ensures category !in SpecialistTable ==> s == "General Physician"
  {
    if category in SpecialistTable then SpecialistTable[category] else "General Physician"
  }

  /** The points one symptom adds to the severity score. */
  function SymptomSeverity(symptom: string): (p: nat)
    ensures p <= 10
  {
    var s := Lower(symptom);
    (if Contains(s, "vomit") || Contains(s, "fever") || Contains(s, "dizz") || Contains(s, "moderate") then 2 else 0)
    + (if Contains(s, "mild") || Contains(s, "slight") || Contains(s, "minor") then 1 else 0)
    + (if Contains(s, "severe") then 3 else 0)
    + (if Contains(s, "intense") then 2 else 0)
    + (if Contains(s, "sharp") then 2 else 0)
  }

  function SymptomsSeverity(symptoms: seq<string>): nat
    decreases |symptoms|
  {
    if symptoms == [] then 0
    else SymptomsSeverity(symptoms[..|symptoms| - 1]) + SymptomSeverity(symptoms[|symptoms| - 1])
  }

  /** The elderly (over 65) and the very young (under 5) add 2. An age that
      does not parse reads as 0 and so counts as very young. */
  function AgePoints(ageNum: int): nat {
    if ageNum > 65 || ageNum < 5 then 2 else 0
  }

  function CappedSeverity(start: int, symptoms: seq<string>, ageNum: int): int {
    MinInt(start + SymptomsSeverity(symptoms) + AgePoints(ageNum), 20)
  }

  function RiskFor(score: int): (r: string)
    ensures r in {"HIGH", "MODERATE", "LOW"}
  {
    if score >= 15 then "HIGH" else if score >= 8 then "MODERATE" else "LOW"
  }

  /** The score stays within [0, 20] from a non-negative start, never falls
      below the start unless capped, and the risk is a threshold function of
      the score alone. */
  lemma SeverityBounds(start: int, symptoms: seq<string>, ageNum: int)
    requires 0 <= start <= 20
    ensures start <= CappedSeverity(start, symptoms, ageNum) <= 20
    ensures RiskFor(CappedSeverity(start, symptoms, ageNum)) == "HIGH" <==> CappedSeverity(start, symptoms, ageNum) >= 15
    ensures RiskFor(CappedSeverity(start, symptoms, ageNum)) == "LOW" <==> CappedSeverity(start, symptoms, ageNum) < 8
  {
  }

  /** Risk only rises with the score. */
  lemma RiskMonotone(a: int, b: int)
    requires a <= b
    ensures RiskFor(a) == "HIGH" ==> RiskFor(b) == "HIGH"
    ensures RiskFor(b) == "LOW" ==> RiskFor(a) == "LOW"
  {
  }

  /** The signs that open the action steps, character for character as the
      file holds them: the UTF-8 bytes of the siren, telephone, warning,
      clipboard, chart, stethoscope and pill emoji read back as Mac OS Roman
      text. */
  const Siren: string := "\U{F8FF}\U{FC}\U{F6}\U{AE} "
  const Phone: string := "\U{F8FF}\U{FC}\U{EC}\U{FB} "
  const Warning: string := "\U{201A}\U{F6}\U{2020}\U{D4}\U{220F}\U{E8} "
  const Clipboard: string := "\U{F8FF}\U{FC}\U{EC}\U{E3} "
  const Chart: string := "\U{F8FF}\U{FC}\U{EC}\U{E4} "
  const Stethoscope: string := "\U{F8FF}\U{FC}\U{A9}\U{222B} "
  const Pill: string := "\U{F8FF}\U{FC}\U{ED}\U{E4} "

  const UrgentSteps: seq<string> := [
    Siren + "URGENT MEDICAL EVALUATION REQUIRED",
    Phone + "Call emergency services or go to ER immediately",
    Warning + "Do not delay seeking medical care"]

  function ActionStepsFor(isEmergency: bool, riskLevel: string, specialist: string): (steps: seq<string>)
    ensures |steps| == 3
    ensures isEmergency ==> steps == UrgentSteps
  {
    if isEmergency then UrgentSteps
    else if riskLevel == "MODERATE" then [
      Clipboard + "Schedule appointment with " + specialist,
      Chart + "Monitor symptoms closely",
      Stethoscope + "Seek medical evaluation within 24-48 hours"]
    else [
      Clipboard + "Consider consultation with " + specialist,
      Chart + "Monitor symptoms and track changes",
      Pill + "Rest and basic self-care as appropriate"]
  }

  function CategoryPrecautions(category: string): (p: seq<string>)
    ensures |p| == 2
  {
    match category
    case "cardio" => ["Avoid strenuous activity", "Monitor blood pressure"]
    case "respiratory" => ["Rest and stay hydrated", "Avoid irritants and smoke"]
    case "neuro" => ["Avoid driving if dizzy", "Get adequate rest"]
    case "gi" => ["Stay hydrated", "Eat light, bland foods"]
    case _ => ["Rest and monitor symptoms", "Stay hydrated"]
  }

  // ---------------------------------------------------------------------
  // The result object and the five steps of applyMedicalAccuracySystem
  // ---------------------------------------------------------------------

  const Disclaimer: string :=
    "This is an AI assessment. Please consult a healthcare professional for proper diagnosis."

  const SeekAttention: string := Siren + "SEEK IMMEDIATE MEDICAL ATTENTION"
  const CallServices: string := Phone + "Consider calling emergency services"
  const NotAllergy: string := "Medical Condition (Not Allergy)"

  /** The fields of the result object at one moment. */
  datatype Assessment = Assessment(
    condition: string,
    category: string,
    severityScore: int,
    riskLevel: string,
    isEmergency: bool,
    actionSteps: seq<string>,
    specialist: string,
    precautions: seq<string>,
    disclaimer: string)

  /** The result object before any step: `category || "general"`. */
  function Initial(userCategory: string): Assessment {
    Assessment("General Health Assessment", if userCategory != "" then userCategory else "general", 0, "LOW",
      false, [], "General Physician", [], Disclaimer)
  }

  /** Step 1: a high-risk symptom adds 8, marks the emergency, pushes two
      steps and re-files the result under the emergency category. */
  function HighRiskStep(a: Assessment, symptoms: seq<string>): Assessment {
    if HasHighRisk(symptoms) then
      a.(severityScore := a.severityScore + 8, riskLevel := "HIGH", isEmergency := true,
         actionSteps := a.actionSteps + [SeekAttention, CallServices],
         category := DetectEmergencyCategory(symptoms),
         specialist := GetSpecialistForCategory(DetectEmergencyCategory(symptoms)))
    else a
  }

  /** Step 2: with no category given, the detected one replaces whatever
      step 1 chose (the specialist stays). */
  function DetectStep(a: Assessment, symptoms: seq<string>, userCategory: string): Assessment {
    if userCategory == "" then a.(category := TopCategory(SymptomText(symptoms))) else a
  }

  /** Step 3: an allergy filing with a blocker present is moved elsewhere. */
  function AllergyStep(a: Assessment, symptoms: seq<string>): Assessment {
    if a.category == "allergy" && HasAllergyBlocker(symptoms) then
      a.(category := DetectNonAllergyCategory(symptoms), condition := NotAllergy)
    else a
  }

  /** Step 4 (calculateSeverityScore). */
  function SeverityStep(a: Assessment, symptoms: seq<string>, ageNum: int): Assessment {
    a.(severityScore := CappedSeverity(a.severityScore, symptoms, ageNum),
       riskLevel := RiskFor(CappedSeverity(a.severityScore, symptoms, ageNum)))
  }

  /** Step 5 (setMedicalActions): the action steps are replaced, the
      category's precautions appended. */
  function ActionsStep(a: Assessment): Assessment {
    a.(actionSteps := ActionStepsFor(a.isEmergency, a.riskLevel, a.specialist),
       precautions := a.precautions + CategoryPrecautions(a.category))
  }

  /** The finished result of applyMedicalAccuracySystem. */
  function AssessmentOf(symptoms: seq<string>, ageNum: int, userCategory: string): Assessment {
    ActionsStep(SeverityStep(
      AllergyStep(DetectStep(HighRiskStep(Initial(userCategory), symptoms), symptoms, userCategory), symptoms),
      symptoms, ageNum))
  }

  class SafetyResult {
    var condition: string
    var category: string
    var severityScore: int
    var riskLevel: string
    var isEmergency: bool
    var actionSteps: seq<string>
    var specialist: string
    var precautions: seq<string>
    var disclaimer: string

    function Snapshot(): Assessment
      reads this
    {
      Assessment(condition, category, severityScore, riskLevel, isEmergency, actionSteps, specialist,
        precautions, disclaimer)
    }

    constructor (userCategory: string)
      ensures Snapshot() == Initial(userCategory)
    {
      condition := "General Health Assessment";
      category := if userCategory != "" then userCategory else "general";
      severityScore := 0;
      riskLevel := "LOW";
      isEmergency := false;
      actionSteps := [];
      specialist := "General Physician";
      precautions := [];
      disclaimer := Disclaimer;
    }
  }

  /** applyMedicalAccuracySystem: builds the result object step by step. Age
      enters as the number `parseInt(age) || 0`; gender is accepted and
      unused. */
  method ApplyMedicalAccuracySystem(symptoms: seq<string>, ageNum: int, gender: string, userCategory: string)
    returns (result: SafetyResult)
    ensures fresh(result)
    ensures result.Snapshot() == AssessmentOf(symptoms, ageNum, userCategory)
  {
    result := new SafetyResult(userCategory);
    FlagHighRisk(result, symptoms);
    if userCategory == "" {
      result.category := DetectCategory(symptoms);
    }
    BlockAllergy(result, symptoms);
    CalculateSeverityScore(result, symptoms, ageNum);
    SetMedicalActions(result, symptoms);
  }

  /** Step 1 in place. */
  method FlagHighRisk(result: SafetyResult, symptoms: seq<string>)
    modifies result
    ensures result.Snapshot() == HighRiskStep(old(result.Snapshot()), symptoms)
  {
    var hasHighRisk := HasHighRisk(symptoms);
    if hasHighRisk {
      result.severityScore := result.severityScore + 8;
      result.riskLevel := "HIGH";
      result.isEmergency := true;
      result.actionSteps := result.actionSteps + [SeekAttention];
      result.actionSteps := result.actionSteps + [CallServices];
      result.category := DetectEmergencyCategory(symptoms);
      result.specialist := GetSpecialistForCategory(result.category);
    }
  }

  /** Step 3 in place. */
  method BlockAllergy(result: SafetyResult, symptoms: seq<string>)
    modifies result
    ensures result.Snapshot() == AllergyStep(old(result.Snapshot()), symptoms)
  {
    if result.category == "allergy" {
      var hasBlocker := HasAllergyBlocker(symptoms);
      if hasBlocker {
        result.category := DetectNonAllergyCategory(symptoms);
        result.condition := NotAllergy;
      }
    }
  }

  /** calculateSeverityScore: adds every symptom's points and the age
      factor to the score so far, caps at 20, and sets the risk from the
      capped score alone. */
  method CalculateSeverityScore(result: SafetyResult, symptoms: seq<string>, ageNum: int)
    modifies result
    ensures result.Snapshot() == SeverityStep(old(result.Snapshot()), symptoms, ageNum)
  {
    var score := result.severityScore;
    for n := 0 to |symptoms|
      invariant score == old(result.severityScore) + SymptomsSeverity(symptoms[..n])
      invariant unchanged(result)
    {
      assert symptoms[..n + 1][..n] == symptoms[..n];
      score := AddSymptomPoints(score, symptoms[n]);
    }
    assert symptoms[..|symptoms|] == symptoms;
    if ageNum > 65 || ageNum < 5 {
      score := score + 2;
    }
    var capped := MinInt(score, 20);
    assert capped == CappedSeverity(old(result.severityScore), symptoms, ageNum);
    result.severityScore := capped;
    if capped >= 15 {
      result.riskLevel := "HIGH";
    } else if capped >= 8 {
      result.riskLevel := "MODERATE";
    } else {
      result.riskLevel := "LOW";
    }
  }

  /** The body of calculateSeverityScore's loop for one symptom. */
  method AddSymptomPoints(score: int, symptom: string) returns (newScore: int)
    ensures newScore == score + SymptomSeverity(symptom)
  {
    var s := Lower(symptom);
    newScore := score;
    if Contains(s, "vomit") || Contains(s, "fever") || Contains(s, "dizz") || Contains(s, "moderate") {
      newScore := newScore + 2;
    }
    if Contains(s, "mild") || Contains(s, "slight") || Contains(s, "minor") {
      newScore := newScore + 1;
    }
    if Contains(s, "severe") {
      newScore := newScore + 3;
    }
    if Contains(s, "intense") {
      newScore := newScore + 2;
    }
    if Contains(s, "sharp") {
      newScore := newScore + 2;
    }
  }

  /** setMedicalActions: replaces the action steps by those for the
      emergency flag and risk, then adds the category's precautions. */
  method SetMedicalActions(result: SafetyResult, symptoms: seq<string>)
    modifies result
    ensures result.Snapshot() == ActionsStep(old(result.Snapshot()))
  {
    if result.isEmergency {
      result.actionSteps := UrgentSteps;
    } else if result.riskLevel == "MODERATE" {
      result.actionSteps := [
        Clipboard + "Schedule appointment with " + result.specialist,
        Chart + "Monitor symptoms closely",
        Stethoscope + "Seek medical evaluation within 24-48 hours"];
    } else {
      result.actionSteps := [
        Clipboard + "Consider consultation with " + result.specialist,
        Chart + "Monitor symptoms and track changes",
        Pill + "Rest and basic self-care as appropriate"];
    }
    AddCategoryPrecautions(result, symptoms);
  }

  /** addCategoryPrecautions: pushes the category's two precautions. */
  method AddCategoryPrecautions(result: SafetyResult, symptoms: seq<string>)
    modifies result
    ensures result.Snapshot() == old(result.Snapshot()).(
      precautions := old(result.precautions) + CategoryPrecautions(old(result.category)))
  {
    match result.category
    case "cardio" =>
      result.precautions := result.precautions + ["Avoid strenuous activity"];
      result.precautions := result.precautions + ["Monitor blood pressure"];
    case "respiratory" =>
      result.precautions := result.precautions + ["Rest and stay hydrated"];
      result.precautions := result.precautions + ["Avoid irritants and smoke"];
    case "neuro" =>
      result.precautions := result.precautions + ["Avoid driving if dizzy"];
      result.precautions := result.precautions + ["Get adequate rest"];
    case "gi" =>
      result.precautions := result.precautions + ["Stay hydrated"];
      result.precautions := result.precautions + ["Eat light, bland foods"];
    case _ =>
      result.precautions := result.precautions + ["Rest and monitor symptoms"];
      result.precautions := result.precautions + ["Stay hydrated"];
  }

  // ---------------------------------------------------------------------
  // What the pipeline guarantees
  // ---------------------------------------------------------------------

  /** The score lies in [0, 20] and the risk is a function of it alone; an
      emergency is exactly a high-risk match and always gets the urgent
      steps and at least 8 points; the final filing is never "allergy" while
      an allergy blocker is present; there are always two precautions. */
  lemma AssessmentGuarantees(symptoms: seq<string>, ageNum: int, userCategory: string)
    ensures var a := AssessmentOf(symptoms, ageNum, userCategory);
      && 0 <= a.severityScore <= 20
      && a.riskLevel == RiskFor(a.severityScore)
      && (a.isEmergency <==> HasHighRisk(symptoms))
      && (a.isEmergency ==> a.actionSteps == UrgentSteps && a.severityScore >= 8)
      && (a.category == "allergy" ==> !HasAllergyBlocker(symptoms))
      && |a.precautions| == 2
  {
    var a3 := AllergyStep(DetectStep(HighRiskStep(Initial(userCategory), symptoms), symptoms, userCategory), symptoms);
    assert a3.severityScore == (if HasHighRisk(symptoms) then 8 else 0);
    assert a3.isEmergency == HasHighRisk(symptoms);
    assert a3.precautions == [];
    SeverityBounds(a3.severityScore, symptoms, ageNum);
  }

  /** Step 2 overrides step 1: with no category given, even an emergency is
      filed under the keyword-count category, while the specialist chosen for
      the emergency category stays. */
  lemma DetectionOverridesEmergencyCategory(symptoms: seq<string>, ageNum: int)
    requires HasHighRisk(symptoms)
    ensures var a := AssessmentOf(symptoms, ageNum, "");
      && a.specialist == GetSpecialistForCategory(DetectEmergencyCategory(symptoms))
      && (TopCategory(SymptomText(symptoms)) != "allergy" ==> a.category == TopCategory(SymptomText(symptoms)))
  {
  }

  /** The risk is recomputed from the score, so an emergency need not be
      "HIGH": one without severity words at an age from 5 to 65 scores
      exactly 8 and is "MODERATE". */
  lemma EmergencyNotAlwaysHigh(symptoms: seq<string>, ageNum: int, userCategory: string)
    requires HasHighRisk(symptoms) && SymptomsSeverity(symptoms) == 0 && 5 <= ageNum <= 65
    ensures AssessmentOf(symptoms, ageNum, userCategory).isEmergency
    ensures AssessmentOf(symptoms, ageNum, userCategory).severityScore == 8
    ensures AssessmentOf(symptoms, ageNum, userCategory).riskLevel == "MODERATE"
  {
  }

  /** An age that does not parse reads as 0 and so scores like a child under
      five: 2 points above any age from 5 to 65. */
  lemma MissingAgeCountsAsInfant(symptoms: seq<string>, adultAge: int, userCategory: string)
    requires 5 <= adultAge <= 65
    ensures AssessmentOf(symptoms, 0, userCategory).severityScore
         == MinInt(AssessmentOf(symptoms, adultAge, userCategory).severityScore + 2, 20)
  {
  }

  // ---------------------------------------------------------------------
  // correctMLResult
  // ---------------------------------------------------------------------

  const EmergencyReasonText: string := "High-risk symptoms detected by safety system"

  /** `mlData["Predicted Disease"]?.toLowerCase().includes("allergy")`:
      absent or null reads as false, a string is searched, and any other
      value has no `toLowerCase` and throws (None). */
  function PredictsAllergy(mlData: map<string, Value>): (r: Option<bool>)
    ensures r.None? <==> !(Get(mlData, "Predicted Disease").Str? || Get(mlData, "Predicted Disease").Null?)
  {
    match Get(mlData, "Predicted Disease")
    case Str(s) => Some(Contains(Lower(s), "allergy"))
    case Null => Some(false)
    case _ => None
  }

  /** The allergy test of correctMLResult compares whole blocker phrases. */
  predicate HasFullAllergyBlocker(symptoms: seq<string>) {
    exists i, k :: 0 <= i < |symptoms| && 0 <= k < |AllergyBlockers|
      && Contains(Lower(symptoms[i]), Lower(AllergyBlockers[k]))
  }

  /** The keys correctMLResult may write. */
  const CorrectedKeys: set<string> :=
    {"Risk Level", "Predicted Disease", "emergencyAlert", "emergencyReason", "category", "allergyBlocked", "severityScore"}

  /** correctMLResult on a copy of the service's answer; None when the
      disease test throws. */
  function CorrectMLResult(mlData: map<string, Value>, safety: Assessment, symptoms: seq<string>)
    : (r: Option<map<string, Value>>)
    ensures r.Some? ==> mlData.Keys + {"severityScore"} <= r.value.Keys
    ensures r.Some? ==> r.value.Keys <= mlData.Keys + CorrectedKeys
  {
    var emergencyFixed :=
      if safety.isEmergency then
        mlData["Risk Level" := Str("HIGH")]["Predicted Disease" := Str(safety.condition)]
          ["emergencyAlert" := Bool(true)]["emergencyReason" := Str(EmergencyReasonText)]
      else mlData;
    var categoryFixed :=
      if safety.category != "general" && safety.category != "allergy" then
        emergencyFixed["category" := Str(safety.category)]
      else emergencyFixed;
    match PredictsAllergy(mlData)
    case None => None
    case Some(allergy) =>
      var blocked :=
        if allergy && HasFullAllergyBlocker(symptoms) then
          categoryFixed["Predicted Disease" := Str(safety.condition)]["category" := Str(safety.category)]
            ["allergyBlocked" := Bool(true)]
        else categoryFixed;
      Some(blocked["severityScore" := Num(Max(NumberOrZero(blocked, "severityScore"), safety.severityScore as real))])
  }

  /** What the correction guarantees: it fails only on a disease value that
      is neither a string nor null; the severity is never below the safety
      score; an emergency forces "HIGH", the safety condition and the alert
      with its reason; a specific safety category replaces the service's;
      an allergy prediction with a blocker is marked blocked and replaced by
      the safety condition; every other key keeps the service's value. */
  lemma CorrectMLResultGuarantees(mlData: map<string, Value>, safety: Assessment, symptoms: seq<string>)
    ensures var r := CorrectMLResult(mlData, safety, symptoms);
      && (r.None? <==> !(Get(mlData, "Predicted Disease").Str? || Get(mlData, "Predicted Disease").Null?))
      && (r.Some? ==>
            && r.value["severityScore"].Num?
            && r.value["severityScore"].n >= safety.severityScore as real
            && (safety.isEmergency ==>
                  r.value["Risk Level"] == Str("HIGH") && r.value["Predicted Disease"] == Str(safety.condition)
                  && r.value["emergencyAlert"] == Bool(true)
                  && r.value["emergencyReason"] == Str(EmergencyReasonText))
            && (safety.category != "general" && safety.category != "allergy" ==>
                  r.value["category"] == Str(safety.category))
            && (PredictsAllergy(mlData) == Some(true) && HasFullAllergyBlocker(symptoms) ==>
                  r.value["allergyBlocked"] == Bool(true) && r.value["category"] == Str(safety.category)
                  && r.value["Predicted Disease"] == Str(safety.condition))
            && (forall k :: k in mlData && k !in CorrectedKeys ==> k in r.value && r.value[k] == mlData[k]))
  {
  }
}
