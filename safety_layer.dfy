/** The category-specific safety layer that merges a prediction service's
    answer with rule-based checks: the symptom dictionaries, the per-category
    analysis (core hits +1, red-flag hits +3, the respiratory tie boost and
    the dominant category) and the overrides of applyRuleBasedLayer. */
module SafetyLayer {
  import opened Base
  import opened Text
  import opened MlData

  // ---------------------------------------------------------------------
  // Symptom dictionaries (CATEGORY_SYMPTOMS)
  // ---------------------------------------------------------------------

  /** The four body systems of the dictionary, in its declaration order. */
  datatype System = Cardio | Neuro | Respiratory | Gi
  {
    function Name(): string {
      match this
      case Cardio => "cardio"
      case Neuro => "neuro"
      case Respiratory => "respiratory"
      case Gi => "gi"
    }

    function Index(): (i: nat)
      ensures i < SystemCount
    {
      match this
      case Cardio => 0
      case Neuro => 1
      case Respiratory => 2
      case Gi => 3
    }
  }

  const SystemCount: nat := 4

  function SystemAt(i: nat): (sys: System)
    requires i < SystemCount
    ensures sys.Index() == i
  {
    if i == 0 then Cardio else if i == 1 then Neuro else if i == 2 then Respiratory else Gi
  }

  lemma SystemIndexInjective(a: System, b: System)
    ensures a.Index() == b.Index() ==> a == b
    ensures SystemAt(a.Index()) == a
  {
  }

  function Core(sys: System): seq<string> {
    match sys
    case Cardio => [
      "chest_pain", "chest tightness", "palpitations", "shortness_of_breath", "shortness of breath",
      "radiating_pain_arm", "radiating_pain_jaw", "swelling_legs", "fainting", "syncope",
      "heart_palpitations"]
    case Neuro => [
      "headache", "severe_headache", "dizziness", "confusion", "blurred_vision", "numbness",
      "weakness", "speech_difficulty", "seizure", "migraine"]
    case Respiratory => [
      "cough", "dry_cough", "productive_cough", "shortness_of_breath", "shortness of breath",
      "wheezing", "chest_tightness", "chest tightness", "sore_throat", "runny_nose",
      "throat_irritation", "continuous_sneezing", "difficulty_breathing", "breathing_difficulty",
      "breathless", "gasping"]
    case Gi => [
      "stomach_pain", "abdominal_pain", "nausea", "vomiting", "diarrhoea", "diarrhea",
      "heartburn", "bloating", "acidity"]
  }

  function RedFlags(sys: System): seq<string> {
    match sys
    case Cardio => [
      "severe_chest_pain", "crushing_chest_pain", "chest_pain_exertion", "shortness_of_breath_rest",
      "sweating_with_chest_pain", "chest pain", "severe chest pain"]
    case Neuro => [
      "sudden_severe_headache", "loss_of_consciousness", "one_sided_weakness", "one_sided_numbness",
      "inability_to_speak", "seizure", "confusion_acute", "severe headache"]
    case Respiratory => [
      "shortness_of_breath_rest", "severe shortness of breath", "difficulty_breathing",
      "severe_breathing_difficulty", "unable_to_speak_full_sentences", "blue_lips", "stridor",
      "can't breathe", "suffocating", "gasping_for_air", "severe chest tightness",
      "difficulty breathing", "breathing difficulty"]
    case Gi => [
      "severe_abdominal_pain", "blood_in_vomit", "blood_in_stool", "black_stool",
      "persistent_vomiting", "severe stomach pain"]
  }

  // ---------------------------------------------------------------------
  // Matching (the `some` callbacks of analyzeCategories)
  // ---------------------------------------------------------------------

  /** How a symptom is cleaned before matching: normalized, lower-cased,
      trimmed, underscores turned into spaces. `normalize` stands for
      normalizeSymptom. */
  function Clean(s: string, normalize: string -> string): string {
    UnderscoresToSpaces(Trim(Lower(normalize(s))))
  }

  function Cleaned(symptoms: seq<string>, normalize: string -> string): (r: seq<string>)
    ensures |r| == |symptoms|
    ensures forall i :: 0 <= i < |symptoms| ==> r[i] == Clean(symptoms[i], normalize)
  {
    seq(|symptoms|, i requires 0 <= i < |symptoms| => Clean(symptoms[i], normalize))
  }

  /** A dictionary phrase as it is compared. */
  function CleanPhrase(p: string): string {
    UnderscoresToSpaces(Lower(p))
  }

  /** A multi-word phrase has a word of more than three letters that occurs
      in the symptom. */
  predicate WordMatch(symptom: string, phrase: string) {
    ' ' in phrase &&
    var parts := SplitOn(phrase, ' ');
    exists k :: 0 <= k < |parts| && Contains(symptom, parts[k]) && |parts[k]| > 3
  }

  /** Either text contains the other. */
  predicate Overlaps(symptom: string, phrase: string) {
    Contains(symptom, phrase) || Contains(phrase, symptom) || symptom == phrase
  }

  predicate CoreMatch(symptom: string, phrase: string) {
    var p := CleanPhrase(phrase);
    Overlaps(symptom, p) || WordMatch(symptom, p)
  }

  /** Keywords that count as a red flag whatever the flag being compared. */
  predicate SpecialKeyword(symptom: string) {
    (Contains(symptom, "chest") && Contains(symptom, "pain"))
    || (Contains(symptom, "shortness") && Contains(symptom, "breath"))
    || (Contains(symptom, "difficulty") && Contains(symptom, "breathing"))
    || (Contains(symptom, "severe") && Contains(symptom, "headache"))
    || Contains(symptom, "confusion")
  }

  predicate FlagMatch(symptom: string, phrase: string) {
    Overlaps(symptom, CleanPhrase(phrase)) || SpecialKeyword(symptom)
  }

  /** `Core(sys).some(p => CoreMatch(symptom, p))` */
  predicate CoreHit(symptom: string, sys: System) {
    exists k :: 0 <= k < |Core(sys)| && CoreMatch(symptom, Core(sys)[k])
  }

  /** `RedFlags(sys).some(p => FlagMatch(symptom, p))` */
  predicate FlagHit(symptom: string, sys: System) {
    exists k :: 0 <= k < |RedFlags(sys)| && FlagMatch(symptom, RedFlags(sys)[k])
  }

  /** What one cleaned symptom adds to a system's score. */
  function SymptomPoints(symptom: string, sys: System): nat {
    (if CoreHit(symptom, sys) then 1 else 0) + (if FlagHit(symptom, sys) then 3 else 0)
  }

  // ---------------------------------------------------------------------
  // analyzeCategories
  // ---------------------------------------------------------------------

  /** A system's score before the tie boost. */
  function RawScore(cleaned: seq<string>, sys: System): nat
    decreases |cleaned|
  {
    if cleaned == [] then 0
    else RawScore(cleaned[..|cleaned| - 1], sys) + SymptomPoints(cleaned[|cleaned| - 1], sys)
  }

  function RawScores(cleaned: seq<string>): (s: seq<int>)
    ensures |s| == SystemCount
    ensures forall sys: System :: s[sys.Index()] == RawScore(cleaned, sys)
  {
    [RawScore(cleaned, Cardio), RawScore(cleaned, Neuro), RawScore(cleaned, Respiratory), RawScore(cleaned, Gi)]
  }

  /** Some symptom hits one of the system's red flags. */
  predicate AnyFlag(cleaned: seq<string>, sys: System)
    decreases |cleaned|
  {
    cleaned != [] && (AnyFlag(cleaned[..|cleaned| - 1], sys) || FlagHit(cleaned[|cleaned| - 1], sys))
  }

  /** A red-flag hit anywhere among the symptoms makes AnyFlag hold. */
  lemma {:induction false} AnyFlagCovers(cleaned: seq<string>, n: nat, sys: System)
    requires n < |cleaned| && FlagHit(cleaned[n], sys)
    ensures AnyFlag(cleaned, sys)
    decreases |cleaned|
  {
    if n < |cleaned| - 1 {
      var front := cleaned[..|cleaned| - 1];
      assert front[n] == cleaned[n];
      AnyFlagCovers(front, n, sys);
    }
  }

  /** Conversely, AnyFlag names a symptom that is a red-flag hit. */
  lemma {:induction false} AnyFlagWitness(cleaned: seq<string>, sys: System) returns (n: nat)
    requires AnyFlag(cleaned, sys)
    ensures n < |cleaned| && FlagHit(cleaned[n], sys)
    decreases |cleaned|
  {
    var front := cleaned[..|cleaned| - 1];
    if FlagHit(cleaned[|cleaned| - 1], sys) {
      n := |cleaned| - 1;
    } else {
      n := AnyFlagWitness(front, sys);
      assert front[n] == cleaned[n];
    }
  }

  function FlagHits(cleaned: seq<string>): (h: seq<bool>)
    ensures |h| == SystemCount
    ensures forall sys: System :: h[sys.Index()] == AnyFlag(cleaned, sys)
  {
    [AnyFlag(cleaned, Cardio), AnyFlag(cleaned, Neuro), AnyFlag(cleaned, Respiratory), AnyFlag(cleaned, Gi)]
  }

  /** The respiratory score after the tie pass has looked at the first `n`
      entries: each other system whose score (as it was before the pass)
      equals the respiratory score as it stands at that moment adds one. */
  function BoostUpTo(s: seq<int>, n: nat): (r: int)
    requires |s| == SystemCount && n <= SystemCount
    ensures s[Respiratory.Index()] <= r <= s[Respiratory.Index()] + n
  {
    if n == 0 then s[Respiratory.Index()]
    else
      var r := BoostUpTo(s, n - 1);
      if n - 1 != Respiratory.Index() && s[n - 1] == r then r + 1 else r
  }

  /** The respiratory tie boost, applied only when respiratory scores at
      least 2. */
  function TieBoost(s: seq<int>): (r: seq<int>)
    requires |s| == SystemCount
    ensures |r| == SystemCount
  {
    if s[Respiratory.Index()] >= 2 then s[Respiratory.Index() := BoostUpTo(s, SystemCount)] else s
  }

  /** The boost changes only the respiratory score, only when it is at least
      2, and never lowers it; it adds at most one per other system. */
  lemma TieBoostShape(s: seq<int>)
    requires |s| == SystemCount
    ensures forall i :: 0 <= i < SystemCount && i != Respiratory.Index() ==> TieBoost(s)[i] == s[i]
    ensures s[Respiratory.Index()] < 2 ==> TieBoost(s) == s
    ensures s[Respiratory.Index()] <= TieBoost(s)[Respiratory.Index()] <= s[Respiratory.Index()] + 3
  {
    if s[2] >= 2 {
      var r3 := BoostUpTo(s, 3);
      assert r3 <= s[2] + 2 by {
        assert BoostUpTo(s, 2) <= s[2] + 2;
        assert BoostUpTo(s, 3) == BoostUpTo(s, 2);
      }
    }
  }

  /** The boost compares against the live respiratory score, so it can
      cascade past a system that scored strictly more: with neuro and
      respiratory at 3 and gastrointestinal at 4, respiratory ends at 5 and
      becomes dominant. */
  lemma TieBoostCascades()
    ensures TieBoost([0, 3, 3, 4]) == [0, 3, 5, 4]
    ensures Dominant([0, 3, 3, 4]) == Some(Gi)
    ensures Dominant(TieBoost([0, 3, 3, 4])) == Some(Respiratory)
  {
    assert BoostUpTo([0, 3, 3, 4], 2) == 4;
    assert BoostUpTo([0, 3, 3, 4], 4) == 5;
    EarliestMaxUnique([0, 3, 3, 4], 3);
    EarliestMaxUnique([0, 3, 5, 4], 2);
  }

  /** The dominant system: the earliest one holding the largest score, or
      none when no score is positive. */
  function Dominant(s: seq<int>): Option<System>
    requires |s| == SystemCount
  {
    var k := MaxIndex(s);
    if s[k] > 0 then Some(SystemAt(k)) else None
  }

  /** Dominant is empty exactly when no score is positive; otherwise its
      score is the largest and no earlier system ties it. */
  lemma DominantShape(s: seq<int>)
    requires |s| == SystemCount
    ensures Dominant(s).None? <==> forall i :: 0 <= i < SystemCount ==> s[i] <= 0
    ensures Dominant(s).Some? ==>
      && s[Dominant(s).value.Index()] > 0
      && (forall i :: 0 <= i < SystemCount ==> s[i] <= s[Dominant(s).value.Index()])
      && (forall i :: 0 <= i < Dominant(s).value.Index() ==> s[i] < s[Dominant(s).value.Index()])
  {
  }

  datatype CategoryAnalysis = CategoryAnalysis(
    scores: seq<int>,
    redFlagHits: seq<bool>,
    dominantCategory: Option<System>,
    hasAnyRedFlag: bool)

  /** What analyzeCategories returns for the cleaned symptoms. */
  function AnalysisOf(cleaned: seq<string>): CategoryAnalysis {
    var scores := TieBoost(RawScores(cleaned));
    var hits := FlagHits(cleaned);
    CategoryAnalysis(scores, hits, Dominant(scores), exists i :: 0 <= i < SystemCount && hits[i])
  }

  /** analyzeCategories: scores every symptom against every system, applies
      the respiratory tie boost and scans for the dominant system. */
  method AnalyzeCategories(normalizedSymptoms: seq<string>, normalize: string -> string)
    returns (a: CategoryAnalysis)
    ensures a == AnalysisOf(Cleaned(normalizedSymptoms, normalize))
  {
    ghost var cleaned := Cleaned(normalizedSymptoms, normalize);
    var scores: seq<int> := [0, 0, 0, 0];
    var redFlagHits: seq<bool> := [false, false, false, false];

    for n := 0 to |normalizedSymptoms|
      invariant |scores| == SystemCount && |redFlagHits| == SystemCount
      invariant forall i :: 0 <= i < SystemCount ==> scores[i] == RawScore(cleaned[..n], SystemAt(i))
      invariant forall i :: 0 <= i < SystemCount ==> redFlagHits[i] == AnyFlag(cleaned[..n], SystemAt(i))
    {
      var symptom := UnderscoresToSpaces(Trim(Lower(normalize(normalizedSymptoms[n]))));
      assert symptom == cleaned[n];
      assert cleaned[..n + 1][..n] == cleaned[..n];
      scores, redFlagHits := ScoreSymptom(symptom, scores, redFlagHits);
    }
    assert cleaned[..|normalizedSymptoms|] == cleaned;
    TalliesComplete(cleaned, scores, redFlagHits);

    scores := BoostRespiratory(scores);
    var dominantCategory := FindDominant(scores);
    var hasAnyRedFlag := redFlagHits[0] || redFlagHits[1] || redFlagHits[2] || redFlagHits[3];
    assert hasAnyRedFlag == exists i :: 0 <= i < SystemCount && redFlagHits[i];
    a := CategoryAnalysis(scores, redFlagHits, dominantCategory, hasAnyRedFlag);
  }

  /** Per-system tallies over all the symptoms are the raw scores and the
      red-flag hits. */
  lemma TalliesComplete(cleaned: seq<string>, scores: seq<int>, redFlagHits: seq<bool>)
    requires |scores| == SystemCount && |redFlagHits| == SystemCount
    requires forall i :: 0 <= i < SystemCount ==> scores[i] == RawScore(cleaned, SystemAt(i))
    requires forall i :: 0 <= i < SystemCount ==> redFlagHits[i] == AnyFlag(cleaned, SystemAt(i))
    ensures scores == RawScores(cleaned) && redFlagHits == FlagHits(cleaned)
  {
    var raw := RawScores(cleaned);
    var hits := FlagHits(cleaned);
    forall j | 0 <= j < SystemCount
      ensures scores[j] == raw[j] && redFlagHits[j] == hits[j]
    {
      assert raw[SystemAt(j).Index()] == RawScore(cleaned, SystemAt(j));
      assert hits[SystemAt(j).Index()] == AnyFlag(cleaned, SystemAt(j));
    }
  }

  /** The inner loop of analyzeCategories: adds one cleaned symptom's core
      and red-flag points to every system and records its red-flag hits. */
  method ScoreSymptom(symptom: string, scores: seq<int>, redFlagHits: seq<bool>)
    returns (newScores: seq<int>, newHits: seq<bool>)
    requires |scores| == SystemCount && |redFlagHits| == SystemCount
    ensures |newScores| == SystemCount && |newHits| == SystemCount
    ensures forall j :: 0 <= j < SystemCount ==> newScores[j] == scores[j] + SymptomPoints(symptom, SystemAt(j))
    ensures forall j :: 0 <= j < SystemCount ==> newHits[j] == (redFlagHits[j] || FlagHit(symptom, SystemAt(j)))
  {
    newScores, newHits := scores, redFlagHits;
    for i := 0 to SystemCount
      invariant |newScores| == SystemCount && |newHits| == SystemCount
      invariant forall j :: 0 <= j < SystemCount ==>
        newScores[j] == scores[j] + (if j < i then SymptomPoints(symptom, SystemAt(j)) else 0)
      invariant forall j :: 0 <= j < SystemCount ==>
        newHits[j] == (redFlagHits[j] || (j < i && FlagHit(symptom, SystemAt(j))))
    {
      var sys := SystemAt(i);
      if CoreHit(symptom, sys) {
        newScores := newScores[i := newScores[i] + 1];
      }
      if FlagHit(symptom, sys) {
        newScores := newScores[i := newScores[i] + 3];
        newHits := newHits[i := true];
      }
    }
  }

  /** The respiratory tie pass: walks the scores as they stood before it,
      comparing each other system with the live respiratory score. */
  method BoostRespiratory(scores: seq<int>) returns (boosted: seq<int>)
    requires |scores| == SystemCount
    ensures boosted == TieBoost(scores)
  {
    boosted := scores;
    if scores[Respiratory.Index()] >= 2 {
      for i := 0 to SystemCount
        invariant boosted == scores[Respiratory.Index() := BoostUpTo(scores, i)]
      {
        if i != Respiratory.Index() && scores[i] == boosted[Respiratory.Index()] {
          boosted := boosted[Respiratory.Index() := boosted[Respiratory.Index()] + 1];
        }
      }
    }
  }

  /** The dominant-category scan: a strictly larger positive score takes
      over. */
  method FindDominant(scores: seq<int>) returns (dominantCategory: Option<System>)
    requires |scores| == SystemCount
    ensures dominantCategory == Dominant(scores)
  {
    dominantCategory := None;
    var maxScore := 0;
    for i := 0 to SystemCount
      invariant dominantCategory.None? ==> maxScore == 0 && forall j :: 0 <= j < i ==> scores[j] <= 0
      invariant dominantCategory.Some? ==>
        var d := dominantCategory.value.Index();
        && d < i && scores[d] == maxScore && maxScore > 0
        && (forall j :: 0 <= j < i ==> scores[j] <= maxScore)
        && (forall j :: 0 <= j < d ==> scores[j] < maxScore)
    {
      if scores[i] > maxScore {
        maxScore := scores[i];
        dominantCategory := Some(SystemAt(i));
      }
    }
    if dominantCategory.Some? {
      EarliestMaxUnique(scores, dominantCategory.value.Index());
      SystemIndexInjective(dominantCategory.value, dominantCategory.value);
    }
  }

  /** One symptom's points are part of its system's raw score. */
  lemma {:induction false} RawScoreCovers(cleaned: seq<string>, n: nat, sys: System)
    requires n < |cleaned|
    ensures RawScore(cleaned, sys) >= SymptomPoints(cleaned[n], sys)
    decreases |cleaned|
  {
    if n < |cleaned| - 1 {
      RawScoreCovers(cleaned[..|cleaned| - 1], n, sys);
    }
  }

  /** A symptom mentioning "confusion", chest pain, shortness of breath,
      difficulty breathing or a severe headache is a red-flag hit for all
      four systems at once, and adds 3 to each of their scores. */
  lemma SpecialKeywordFlagsEverySystem(cleaned: seq<string>, n: nat)
    requires n < |cleaned| && SpecialKeyword(cleaned[n])
    ensures var a := AnalysisOf(cleaned);
      && a.hasAnyRedFlag
      && (forall i :: 0 <= i < SystemCount ==> a.redFlagHits[i])
      && (forall i :: 0 <= i < SystemCount ==> a.scores[i] >= 3)
  {
    var raw := RawScores(cleaned);
    var hits := FlagHits(cleaned);
    forall i | 0 <= i < SystemCount
      ensures hits[i] && raw[i] >= 3
    {
      var sys := SystemAt(i);
      SpecialKeywordHit(cleaned[n], sys);
      AnyFlagCovers(cleaned, n, sys);
      RawScoreCovers(cleaned, n, sys);
      assert hits[sys.Index()] == AnyFlag(cleaned, sys);
      assert raw[sys.Index()] == RawScore(cleaned, sys);
    }
    TieBoostShape(raw);
    var a := AnalysisOf(cleaned);
    assert a.scores == TieBoost(raw) && a.redFlagHits == hits;
    assert hits[0];
  }

  /** A special keyword matches the first red flag of any system, so it is
      a hit worth 3 points there. */
  lemma SpecialKeywordHit(symptom: string, sys: System)
    requires SpecialKeyword(symptom)
    ensures FlagHit(symptom, sys) && SymptomPoints(symptom, sys) >= 3
  {
    assert FlagMatch(symptom, RedFlags(sys)[0]);
  }

  // ---------------------------------------------------------------------
  // applyRuleBasedLayer
  // ---------------------------------------------------------------------

  /** The signs that open the flags, character for character as the file
      holds them: the UTF-8 bytes of the warning, information, magnifier and
      light-bulb emoji read back as Mac OS Roman text. */
  const WarningSign: string := "\U{201A}\U{F6}\U{2020}\U{D4}\U{220F}\U{E8} "
  const InfoSign: string := "\U{201A}\U{D1}\U{3C0}\U{D4}\U{220F}\U{E8} "
  const SearchSign: string := "\U{F8FF}\U{FC}\U{EE}\U{E7} "
  const BulbSign: string := "\U{F8FF}\U{FC}\U{ED}\U{B0} "

  const BreathingFlag: string :=
    WarningSign + "BREATHING EMERGENCY DETECTED" + " - Immediate medical attention required"
  const VagueFlag: string := InfoSign + "Vague symptoms - comprehensive medical evaluation recommended"
  const LimitedFlag: string := InfoSign + "Limited symptoms provided - consider comprehensive evaluation"
  const LowConfidenceFlag: string :=
    WarningSign + "Low prediction confidence" + " - seek professional medical advice"

  function EmergencyFlag(sys: System): string {
    WarningSign + "Possible " +
    (match sys
     case Cardio => "cardiac"
     case Neuro => "neurological"
     case Respiratory => "respiratory"
     case Gi => "gastrointestinal")
    + " emergency symptoms detected"
  }

  function AdjustedFlag(sys: System): string {
    SearchSign + "Risk adjusted based on " + sys.Name() + " symptoms"
  }

  function ConsultFlag(sys: System): string {
    BulbSign + "Consider consulting a " +
    match sys
    case Cardio => "cardiologist"
    case Neuro => "neurologist"
    case Respiratory => "pulmonologist"
    case Gi => "gastroenterologist"
  }

  const VagueSymptoms: seq<string> := ["fatigue", "malaise", "tired", "weakness", "general pain"]

  /** Every symptom mentions a vague complaint (true of an empty list). */
  predicate AllVague(symptoms: seq<string>) {
    forall n :: 0 <= n < |symptoms| ==>
      exists v :: 0 <= v < |VagueSymptoms| && Contains(Lower(symptoms[n]), VagueSymptoms[v])
  }

  /** The keys the layer writes; every other key of the service's answer is
      passed through. */
  const WrittenKeys: set<string> :=
    {"categoryAnalysis", "Risk Level", "Severity Score", "safetyFlags", "triageAction", "emergencyAlert"}

  datatype LayerResult = LayerResult(fields: map<string, Value>, categoryAnalysis: CategoryAnalysis)

  /** The situation the layer is in, decided once from its inputs. */
  datatype Situation = Situation(
    breathing: bool,        // the breathing-emergency detector fired
    flagged: bool,          // a red flag holds after the breathing override
    adjusted: bool,         // low confidence and a cardio, neuro or respiratory dominant system
    limited: bool,          // at most two symptoms and no red flag
    vague: bool,            // limited and every symptom vague
    confidence: real)

  function SituationOf(
    normalizedSymptoms: seq<string>, mlResult: map<string, Value>, a: CategoryAnalysis, breathing: bool): Situation
  {
    var flagged := breathing || a.hasAnyRedFlag;
    var confidence := NumberOrZero(mlResult, "Confidence");
    var limited := |normalizedSymptoms| <= 2 && !flagged;
    Situation(
      breathing,
      flagged,
      !flagged && a.dominantCategory.Some? && confidence < 0.25
        && a.dominantCategory.value in {Cardio, Neuro, Respiratory},
      limited,
      limited && AllVague(normalizedSymptoms),
      confidence)
  }

  /** The analysis as the layer returns it: the breathing override forces
      the respiratory system. */
  function OverriddenAnalysis(a: CategoryAnalysis, breathing: bool): CategoryAnalysis
    requires |a.redFlagHits| == SystemCount
  {
    if breathing then a.(dominantCategory := Some(Respiratory),
                         redFlagHits := a.redFlagHits[Respiratory.Index() := true],
                         hasAnyRedFlag := true)
    else a
  }

  /** The final risk, decided case by case: a red flag gives "High", vague
      symptoms "Low", an adjustment raises "Low" or "Medium" to "High", and
      otherwise the service's level (or "Low") stands. */
  function RiskOf(sit: Situation, mlResult: map<string, Value>): Value {
    var initial := GetOr(mlResult, "Risk Level", Str("Low"));
    if sit.flagged then Str("High")
    else if sit.vague then Str("Low")
    else if sit.adjusted && (initial == Str("Low") || initial == Str("Medium")) then Str("High")
    else initial
  }

  /** The final severity, decided case by case and capped at 20. */
  function SeverityOf(sit: Situation, mlResult: map<string, Value>): real {
    var initial := NumberOrZero(mlResult, "Severity Score");
    if sit.flagged then Min(Max(initial, if sit.breathing then 18.0 else 17.0), 20.0)
    else
      var s := if sit.adjusted then Max(initial, 13.0) else initial;
      if sit.vague then Min(s, 8.0) else Min(s, 20.0)
  }

  function ActionOf(sit: Situation): string {
    if sit.flagged then "urgent_medical_evaluation"
    else if sit.limited && (sit.vague || sit.confidence < 0.2) then "general_checkup_recommended"
    else "monitor_and_consult"
  }

  /** One emergency flag per system with a red-flag hit, in system order:
      a system's flag is listed exactly when its hit is set, nothing else is
      listed, and the flags follow the systems' declaration order. */
  function EmergencyFlags(hits: seq<bool>, n: nat): (r: seq<string>)
    requires |hits| == SystemCount && n <= SystemCount
    ensures |r| <= n
    ensures forall i :: 0 <= i < n ==> (EmergencyFlag(SystemAt(i)) in r <==> hits[i])
    ensures forall p :: 0 <= p < |r| ==> FlagRank(r[p]) < n
    ensures forall p, q :: 0 <= p < q < |r| ==> FlagRank(r[p]) < FlagRank(r[q])
    decreases n
  {
    if n == 0 then []
    else
      FlagRankOf(n - 1);
      EmergencyFlags(hits, n - 1) + (if hits[n - 1] then [EmergencyFlag(SystemAt(n - 1))] else [])
  }

  /** The system an emergency flag names, by position; SystemCount for any
      other text. */
  function FlagRank(f: string): nat {
    if f == EmergencyFlag(Cardio) then 0
    else if f == EmergencyFlag(Neuro) then 1
    else if f == EmergencyFlag(Respiratory) then 2
    else if f == EmergencyFlag(Gi) then 3
    else SystemCount
  }

  /** The four emergency flags differ (at the first letter of the system's
      adjective), so each one's rank is its system's position. */
  lemma FlagRankOf(i: nat)
    requires i < SystemCount
    ensures FlagRank(EmergencyFlag(SystemAt(i))) == i
  {
    assert |WarningSign + "Possible "| == 16;
    assert EmergencyFlag(Cardio)[16] == 'c';
    assert EmergencyFlag(Neuro)[16] == 'n';
    assert EmergencyFlag(Respiratory)[16] == 'r';
    assert EmergencyFlag(Gi)[16] == 'g';
  }

  /** The flags, section by section in the order they are pushed. */
  function FlagsOf(sit: Situation, a: CategoryAnalysis): seq<string>
    requires |a.redFlagHits| == SystemCount
  {
    BreathingFlags(sit) + RedFlagFlags(sit, a) + CategoryFlags(sit, a) + FewSymptomFlags(sit) + ConfidenceFlags(sit)
  }

  function BreathingFlags(sit: Situation): seq<string> {
    if sit.breathing then [BreathingFlag] else []
  }

  function RedFlagFlags(sit: Situation, a: CategoryAnalysis): seq<string>
    requires |a.redFlagHits| == SystemCount
  {
    if sit.flagged then EmergencyFlags(OverriddenAnalysis(a, sit.breathing).redFlagHits, SystemCount) else []
  }

  function CategoryFlags(sit: Situation, a: CategoryAnalysis): seq<string> {
    if !sit.flagged && a.dominantCategory.Some? then
      (if sit.adjusted then [AdjustedFlag(a.dominantCategory.value)] else [])
      + [ConsultFlag(a.dominantCategory.value)]
    else []
  }

  function FewSymptomFlags(sit: Situation): seq<string> {
    if sit.limited then [if sit.vague then VagueFlag else LimitedFlag] else []
  }

  function ConfidenceFlags(sit: Situation): seq<string> {
    if sit.confidence < 0.15 then [LowConfidenceFlag] else []
  }

  /** The returned object: the service's answer with the layer's keys
      written over it; the category analysis travels beside it. */
  function Assemble(
    mlResult: map<string, Value>, risk: Value, severity: real, flags: seq<string>, action: string,
    alert: bool, analysis: CategoryAnalysis): (r: LayerResult)
    ensures r.fields.Keys == (mlResult.Keys - {"categoryAnalysis"}) + (WrittenKeys - {"categoryAnalysis"})
    ensures forall k :: k in mlResult && k !in WrittenKeys ==> r.fields[k] == mlResult[k]
  {
    LayerResult(
      (mlResult - {"categoryAnalysis"})["Risk Level" := risk]
        ["Severity Score" := Num(severity)]
        ["safetyFlags" := Strings(flags)]
        ["triageAction" := Str(action)]
        ["emergencyAlert" := Bool(alert)],
      analysis)
  }

  /** The layer's answer, described case by case. */
  function LayerOf(
    normalizedSymptoms: seq<string>, mlResult: map<string, Value>, a: CategoryAnalysis, breathing: bool): LayerResult
    requires |a.redFlagHits| == SystemCount
  {
    var sit := SituationOf(normalizedSymptoms, mlResult, a, breathing);
    Assemble(mlResult, RiskOf(sit, mlResult), SeverityOf(sit, mlResult), FlagsOf(sit, a), ActionOf(sit),
      sit.flagged, OverriddenAnalysis(a, breathing))
  }

  /** applyRuleBasedLayer: the service's answer with the rule-based
      overrides applied step by step. `autoDetect` stands for
      autoDetectBreathingEmergency. */
  method ApplyRuleBasedLayer(
    normalizedSymptoms: seq<string>, mlResult: map<string, Value>,
    normalize: string -> string, autoDetect: Value -> bool)
    returns (r: LayerResult)
    ensures var a := AnalysisOf(Cleaned(normalizedSymptoms, normalize));
      var raw := GetOr(mlResult, "Input Symptoms", Strings(normalizedSymptoms));
      r == LayerOf(normalizedSymptoms, mlResult, a, autoDetect(raw))
  {
    var rawSymptoms := GetOr(mlResult, "Input Symptoms", Strings(normalizedSymptoms));
    var categoryAnalysis := AnalyzeCategories(normalizedSymptoms, normalize);
    r := ApplyOverrides(normalizedSymptoms, mlResult, categoryAnalysis, autoDetect(rawSymptoms));
  }

  /** The body of applyRuleBasedLayer once the categories are analysed and
      the breathing detector has answered: the breathing override, then the
      red-flag, category, few-symptom and confidence steps in that order. */
  method ApplyOverrides(
    normalizedSymptoms: seq<string>, mlResult: map<string, Value>, analysis: CategoryAnalysis, breathing: bool)
    returns (r: LayerResult)
    requires |analysis.redFlagHits| == SystemCount
    ensures r == LayerOf(normalizedSymptoms, mlResult, analysis, breathing)
  {
    var categoryAnalysis := analysis;
    ghost var a := analysis;
    ghost var sit := SituationOf(normalizedSymptoms, mlResult, a, breathing);

    var finalRiskLevel := GetOr(mlResult, "Risk Level", Str("Low"));
    var finalSeverity := NumberOrZero(mlResult, "Severity Score");
    var flags: seq<string> := [];
    var triageAction := "monitor_and_consult";
    var emergencyAlert := false;

    if breathing {
      finalRiskLevel := Str("High");
      finalSeverity := Max(finalSeverity, 18.0);
      triageAction := "urgent_medical_evaluation";
      emergencyAlert := true;
      flags := flags + [BreathingFlag];
      categoryAnalysis := categoryAnalysis.(
        dominantCategory := Some(Respiratory),
        redFlagHits := categoryAnalysis.redFlagHits[Respiratory.Index() := true],
        hasAnyRedFlag := true);
    }
    assert categoryAnalysis == OverriddenAnalysis(a, breathing);
    assert categoryAnalysis.hasAnyRedFlag == sit.flagged;
    ghost var s1 := BreathingFlags(sit);
    assert flags == s1;

    // 1) Red flags override everything.
    if categoryAnalysis.hasAnyRedFlag {
      finalRiskLevel := Str("High");
      finalSeverity := Max(finalSeverity, 17.0);
      triageAction := "urgent_medical_evaluation";
      emergencyAlert := true;
      flags := PushEmergencyFlags(flags, categoryAnalysis.redFlagHits);
    }
    ghost var s2 := RedFlagFlags(sit, a);
    assert flags == s1 + s2;
    assert finalRiskLevel == if sit.flagged then Str("High") else GetOr(mlResult, "Risk Level", Str("Low"));
    assert emergencyAlert == sit.flagged;
    assert triageAction == if sit.flagged then "urgent_medical_evaluation" else "monitor_and_consult";

    // 2) Category-based adjustment when there is no red flag.
    if !categoryAnalysis.hasAnyRedFlag && categoryAnalysis.dominantCategory.Some? {
      var confidence := NumberOrZero(mlResult, "Confidence");
      var dominant := categoryAnalysis.dominantCategory.value;
      if confidence < 0.25 {
        if dominant in {Cardio, Neuro, Respiratory} {
          if finalRiskLevel == Str("Low") {
            finalRiskLevel := Str("Medium");
          }
          if finalRiskLevel == Str("Medium") {
            finalRiskLevel := Str("High");
          }
          finalSeverity := Max(finalSeverity, 13.0);
          flags := flags + [AdjustedFlag(dominant)];
        }
      }
      flags := flags + [ConsultFlag(dominant)];
    }
    ghost var s3 := CategoryFlags(sit, a);
    assert flags == s1 + s2 + s3;
    ghost var initialRisk := GetOr(mlResult, "Risk Level", Str("Low"));
    ghost var initialSeverity := NumberOrZero(mlResult, "Severity Score");
    assert finalRiskLevel ==
      if sit.flagged then Str("High")
      else if sit.adjusted && (initialRisk == Str("Low") || initialRisk == Str("Medium")) then Str("High")
      else initialRisk;
    assert finalSeverity ==
      if sit.flagged then Max(initialSeverity, if sit.breathing then 18.0 else 17.0)
      else if sit.adjusted then Max(initialSeverity, 13.0)
      else initialSeverity;
    assert triageAction == if sit.flagged then "urgent_medical_evaluation" else "monitor_and_consult";

    assert (|normalizedSymptoms| <= 2 && !categoryAnalysis.hasAnyRedFlag && !emergencyAlert) == sit.limited;

    // 3) Few symptoms.
    if |normalizedSymptoms| <= 2 && !categoryAnalysis.hasAnyRedFlag && !emergencyAlert {
      var isVague := AllVague(normalizedSymptoms);
      assert isVague == sit.vague;
      if isVague {
        finalRiskLevel := Str("Low");
        finalSeverity := Min(finalSeverity, 8.0);
        flags := flags + [VagueFlag];
        triageAction := "general_checkup_recommended";
      } else {
        flags := flags + [LimitedFlag];
        var confidence := NumberOrZero(mlResult, "Confidence");
        if confidence < 0.2 {
          triageAction := "general_checkup_recommended";
        }
      }
    }

    ghost var s4 := FewSymptomFlags(sit);
    assert flags == s1 + s2 + s3 + s4;
    assert finalRiskLevel == RiskOf(sit, mlResult);
    assert Min(finalSeverity, 20.0) == SeverityOf(sit, mlResult);
    assert triageAction == ActionOf(sit);

    // 4) Low confidence.
    if NumberOrZero(mlResult, "Confidence") < 0.15 {
      flags := flags + [LowConfidenceFlag];
    }

    ghost var s5 := ConfidenceFlags(sit);
    assert flags == s1 + s2 + s3 + s4 + s5;
    r := Assemble(mlResult, finalRiskLevel, Min(finalSeverity, 20.0), flags, triageAction,
      emergencyAlert, categoryAnalysis);
  }

  /** Pushes one emergency flag per system with a red-flag hit, in system
      order. */
  method PushEmergencyFlags(flags: seq<string>, redFlagHits: seq<bool>) returns (r: seq<string>)
    requires |redFlagHits| == SystemCount
    ensures r == flags + EmergencyFlags(redFlagHits, SystemCount)
  {
    r := flags;
    for i := 0 to SystemCount
      invariant r == flags + EmergencyFlags(redFlagHits, i)
    {
      if redFlagHits[i] {
        r := r + [EmergencyFlag(SystemAt(i))];
      }
    }
  }

  /** What the layer guarantees: the severity never exceeds 20; a red flag
      (after the breathing override) means "High", at least 17, an alert and
      urgent evaluation; without one there is no alert; low confidence puts
      its warning last; every key the layer does not write passes through. */
  lemma LayerGuarantees(
    normalizedSymptoms: seq<string>, mlResult: map<string, Value>, a: CategoryAnalysis, breathing: bool)
    requires |a.redFlagHits| == SystemCount
    ensures var r := LayerOf(normalizedSymptoms, mlResult, a, breathing);
      && r.fields["Severity Score"].Num? && r.fields["Severity Score"].n <= 20.0
      && (r.categoryAnalysis.hasAnyRedFlag ==>
            && r.fields["Risk Level"] == Str("High")
            && r.fields["Severity Score"].n >= 17.0
            && r.fields["emergencyAlert"] == Bool(true)
            && r.fields["triageAction"] == Str("urgent_medical_evaluation"))
      && (!r.categoryAnalysis.hasAnyRedFlag ==> r.fields["emergencyAlert"] == Bool(false))
      && (forall k :: k in mlResult && k !in WrittenKeys ==> k in r.fields && r.fields[k] == mlResult[k])
      && "categoryAnalysis" !in r.fields
  {
  }

  /** Under a red flag, every system whose red-flag hit is set (after the
      breathing override) has its emergency warning among the safety flags. */
  lemma RedFlagsListed(
    normalizedSymptoms: seq<string>, mlResult: map<string, Value>, a: CategoryAnalysis, breathing: bool)
    requires |a.redFlagHits| == SystemCount
    ensures var r := LayerOf(normalizedSymptoms, mlResult, a, breathing);
      && |r.categoryAnalysis.redFlagHits| == SystemCount
      && r.fields["safetyFlags"].List?
      && (r.categoryAnalysis.hasAnyRedFlag ==>
            forall i :: 0 <= i < SystemCount && r.categoryAnalysis.redFlagHits[i] ==>
              Str(EmergencyFlag(SystemAt(i))) in r.fields["safetyFlags"].items)
  {
    var sit := SituationOf(normalizedSymptoms, mlResult, a, breathing);
    var analysis := OverriddenAnalysis(a, breathing);
    var flags := FlagsOf(sit, a);
    var r := Assemble(mlResult, RiskOf(sit, mlResult), SeverityOf(sit, mlResult), flags, ActionOf(sit),
      sit.flagged, analysis);
    assert LayerOf(normalizedSymptoms, mlResult, a, breathing) == r;
    assert r.fields["safetyFlags"] == Strings(flags);
    if analysis.hasAnyRedFlag {
      EmergencyFlagsInFlags(sit, a);
      forall i | 0 <= i < SystemCount && analysis.redFlagHits[i]
        ensures Str(EmergencyFlag(SystemAt(i))) in Strings(flags).items
      {
        StringsHas(flags, EmergencyFlag(SystemAt(i)));
      }
    }
  }

  /** With a red flag, the flag list holds every hit system's warning. */
  lemma EmergencyFlagsInFlags(sit: Situation, a: CategoryAnalysis)
    requires |a.redFlagHits| == SystemCount && sit.flagged
    ensures forall i :: 0 <= i < SystemCount && OverriddenAnalysis(a, sit.breathing).redFlagHits[i] ==>
      EmergencyFlag(SystemAt(i)) in FlagsOf(sit, a)
  {
    var hits := OverriddenAnalysis(a, sit.breathing).redFlagHits;
    forall i | 0 <= i < SystemCount && hits[i]
      ensures EmergencyFlag(SystemAt(i)) in FlagsOf(sit, a)
    {
      InSecondSection(EmergencyFlag(SystemAt(i)), BreathingFlags(sit), RedFlagFlags(sit, a),
        CategoryFlags(sit, a), FewSymptomFlags(sit), ConfidenceFlags(sit));
    }
  }

  lemma InSecondSection(x: string, s1: seq<string>, s2: seq<string>, s3: seq<string>, s4: seq<string>, s5: seq<string>)
    requires x in s2
    ensures x in s1 + s2 + s3 + s4 + s5
  {
  }

  lemma StringsHas(xs: seq<string>, x: string)
    requires x in xs
    ensures Str(x) in Strings(xs).items
  {
    var p :| 0 <= p < |xs| && xs[p] == x;
    assert Strings(xs).items[p] == Str(x);
  }

  /** Low confidence puts its warning last, and without low confidence the
      warning appears nowhere among the flags. */
  lemma LowConfidenceFlagLast(
    normalizedSymptoms: seq<string>, mlResult: map<string, Value>, a: CategoryAnalysis, breathing: bool)
    requires |a.redFlagHits| == SystemCount
    ensures var sit := SituationOf(normalizedSymptoms, mlResult, a, breathing);
      var flags := FlagsOf(sit, a);
      && (NumberOrZero(mlResult, "Confidence") < 0.15 ==> |flags| > 0 && flags[|flags| - 1] == LowConfidenceFlag)
      && (NumberOrZero(mlResult, "Confidence") >= 0.15 ==> LowConfidenceFlag !in flags)
  {
    var sit := SituationOf(normalizedSymptoms, mlResult, a, breathing);
    if sit.confidence >= 0.15 {
      var front := BreathingFlags(sit) + RedFlagFlags(sit, a) + CategoryFlags(sit, a) + FewSymptomFlags(sit);
      assert FlagsOf(sit, a) == front + [];
      SectionsDistinct(sit, a);
      FlagsDistinct(Cardio);
    }
  }

  /** The low-confidence adjustment raises "Low" straight to "High": the
      second test sees the "Medium" the first one has just written. Only a
      vague short list undoes it, to "Low". */
  lemma AdjustmentSkipsMedium(
    normalizedSymptoms: seq<string>, mlResult: map<string, Value>, a: CategoryAnalysis, breathing: bool)
    requires |a.redFlagHits| == SystemCount
    requires SituationOf(normalizedSymptoms, mlResult, a, breathing).adjusted
    requires GetOr(mlResult, "Risk Level", Str("Low")) in {Str("Low"), Str("Medium")}
    ensures var r := LayerOf(normalizedSymptoms, mlResult, a, breathing);
      var sit := SituationOf(normalizedSymptoms, mlResult, a, breathing);
      && (!sit.vague ==> r.fields["Risk Level"] == Str("High") && r.fields["Severity Score"].n >= 13.0)
      && (sit.vague ==> r.fields["Risk Level"] == Str("Low") && r.fields["Severity Score"].n == 8.0)
      && r.fields["emergencyAlert"] == Bool(false)
  {
  }

  /** Every flag the first four sections push differs from the
      low-confidence warning. */
  lemma SectionsDistinct(sit: Situation, a: CategoryAnalysis)
    requires |a.redFlagHits| == SystemCount
    ensures var front := BreathingFlags(sit) + RedFlagFlags(sit, a) + CategoryFlags(sit, a) + FewSymptomFlags(sit);
      forall f :: f in front ==> DistinctFromLowConfidence(f)
  {
    assert forall f :: f in RedFlagFlags(sit, a) ==> DistinctFromLowConfidence(f) by {
      EmergencyFlagsDistinct(OverriddenAnalysis(a, sit.breathing).redFlagHits, SystemCount);
    }
    assert forall f :: f in BreathingFlags(sit) ==> DistinctFromLowConfidence(f) by {
      FlagsDistinct(Cardio);
    }
    assert forall f :: f in CategoryFlags(sit, a) ==> DistinctFromLowConfidence(f) by {
      FlagsDistinct(if a.dominantCategory.Some? then a.dominantCategory.value else Cardio);
    }
    assert forall f :: f in FewSymptomFlags(sit) ==> DistinctFromLowConfidence(f) by {
      FlagsDistinct(Cardio);
    }
  }

  /** A flag that cannot be the low-confidence warning: it starts with a
      different sign or a different word. */
  predicate DistinctFromLowConfidence(f: string) {
    |f| >= 8 && (f[1] != '\U{F6}' || f[7] != 'L')
  }

  lemma FlagsDistinct(sys: System)
    ensures DistinctFromLowConfidence(BreathingFlag)
    ensures DistinctFromLowConfidence(VagueFlag) && DistinctFromLowConfidence(LimitedFlag)
    ensures DistinctFromLowConfidence(EmergencyFlag(sys))
    ensures DistinctFromLowConfidence(AdjustedFlag(sys)) && DistinctFromLowConfidence(ConsultFlag(sys))
    ensures !DistinctFromLowConfidence(LowConfidenceFlag)
  {
    assert |WarningSign| == 7 && WarningSign[1] == '\U{F6}';
    assert BreathingFlag[7] == 'B';
    assert VagueFlag[1] == '\U{D1}' && LimitedFlag[1] == '\U{D1}';
    assert EmergencyFlag(sys)[7] == 'P';
    assert AdjustedFlag(sys)[1] == '\U{FC}' && ConsultFlag(sys)[1] == '\U{FC}';
    assert |AdjustedFlag(sys)| >= 8 && |ConsultFlag(sys)| >= 8;
    assert LowConfidenceFlag[1] == '\U{F6}' && LowConfidenceFlag[7] == 'L';
  }

  lemma {:induction false} EmergencyFlagsDistinct(hits: seq<bool>, n: nat)
    requires |hits| == SystemCount && n <= SystemCount
    ensures forall f :: f in EmergencyFlags(hits, n) ==> DistinctFromLowConfidence(f)
    decreases n
  {
    if n > 0 {
      EmergencyFlagsDistinct(hits, n - 1);
      FlagsDistinct(SystemAt(n - 1));
    }
  }
}
