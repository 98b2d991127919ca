/** The fallback path used when the prediction service cannot be reached:
    risk factors from a small keyword table, and the specialist for a
    predicted disease. */
module Fallback {
  import opened Base
  import opened Text

  // ---------------------------------------------------------------------
  // calculateRiskFactors
  // ---------------------------------------------------------------------

  datatype Risk = Low | Medium | High

  datatype RiskEntry = RiskEntry(key: string, risk: Risk, specialty: string, severity: nat)

  /** riskMap, in declaration order. */
  const RiskTable: seq<RiskEntry> := [
    RiskEntry("chest pain", High, "Cardiologist", 8),
    RiskEntry("shortness of breath", High, "Pulmonologist", 7),
    RiskEntry("severe headache", Medium, "Neurologist", 6),
    RiskEntry("fever", Medium, "General Physician", 5),
    RiskEntry("cough", Low, "General Physician", 3),
    RiskEntry("fatigue", Low, "General Physician", 2)]

  /** The hits `acc` so far, followed by the entries among the first `n` of
      a table whose key occurs in one symptom, in table order. */
  function ScanHits(acc: seq<RiskEntry>, symptom: string, table: seq<RiskEntry>, n: nat): (hits: seq<RiskEntry>)
    requires n <= |table|
    ensures |acc| <= |hits| <= |acc| + n
  {
    if n == 0 then acc
    else ScanHits(acc, symptom, table, n - 1) + (if Contains(symptom, table[n - 1].key) then [table[n - 1]] else [])
  }

  /** `symptom.toLowerCase().trim()` */
  function Prepared(symptom: string): string {
    Trim(Lower(symptom))
  }

  /** Every (symptom, entry) hit, symptom by symptom and entry by entry. */
  function HitList(symptoms: seq<string>): seq<RiskEntry>
    decreases |symptoms|
  {
    if symptoms == [] then []
    else ScanHits(HitList(symptoms[..|symptoms| - 1]), Prepared(symptoms[|symptoms| - 1]), RiskTable, |RiskTable|)
  }

  function SeveritySum(hits: seq<RiskEntry>): nat
    decreases |hits|
  {
    if hits == [] then 0 else SeveritySum(hits[..|hits| - 1]) + hits[|hits| - 1].severity
  }

  function UpperChar(c: char): char {
    if 'a' <= c <= 'z' then (c as int - 32) as char else c
  }

  /** `key.charAt(0).toUpperCase() + key.slice(1)` */
  function Capitalize(s: string): (r: string)
    ensures |r| == |s|
    ensures |s| > 0 ==> r[0] == UpperChar(s[0]) && r[1..] == s[1..]
  {
    if s == [] then [] else [UpperChar(s[0])] + s[1..]
  }

  function ConditionLabel(key: string): string {
    "Possible " + Capitalize(key) + " related condition"
  }

  /** One condition per hit, in hit order. */
  function Labels(hits: seq<RiskEntry>): (r: seq<string>)
    ensures |r| == |hits|
    decreases |hits|
  {
    if hits == [] then [] else Labels(hits[..|hits| - 1]) + [ConditionLabel(hits[|hits| - 1].key)]
  }

  lemma {:induction false} LabelsAt(hits: seq<RiskEntry>, i: nat)
    requires i < |hits|
    ensures Labels(hits)[i] == ConditionLabel(hits[i].key)
    decreases |hits|
  {
    if i < |hits| - 1 {
      LabelsAt(hits[..|hits| - 1], i);
    }
  }

  /** The running `maxRisk` and `specialist`. */
  datatype Lead = Lead(maxRisk: Risk, specialist: string)

  /** One hit: a High entry always takes the lead; a Medium one only while
      the lead is still Low. */
  function LeadStep(l: Lead, e: RiskEntry): Lead {
    if e.risk == High || (e.risk == Medium && l.maxRisk == Low) then Lead(e.risk, e.specialty) else l
  }

  function LeadOf(hits: seq<RiskEntry>): Lead
    decreases |hits|
  {
    if hits == [] then Lead(Low, "General Physician") else LeadStep(LeadOf(hits[..|hits| - 1]), hits[|hits| - 1])
  }

  const DefaultCondition: string := "General health assessment needed"

  datatype RiskFactors = RiskFactors(riskLevel: Risk, specialist: string, conditions: seq<string>, severity: nat)

  function RiskLevelFor(total: int): Risk {
    if total > 10 then High else if total > 5 then Medium else Low
  }

  /** The age factor: a parsed age over 60 adds 2. */
  function AgeBonus(ageNum: int): nat {
    if ageNum > 60 then 2 else 0
  }

  /** What calculateRiskFactors returns. */
  function RiskFactorsOf(symptoms: seq<string>, ageNum: int): RiskFactors {
    var hits := HitList(symptoms);
    var total := SeveritySum(hits) + AgeBonus(ageNum);
    RiskFactors(RiskLevelFor(total), LeadOf(hits).specialist,
      if hits == [] then [DefaultCondition] else Labels(hits), total)
  }

  /** calculateRiskFactors: every symptom against every entry, in order,
      with running totals. Age enters parsed; an age that does not parse
      reads as 0 and adds nothing. */
  method CalculateRiskFactors(symptoms: seq<string>, ageNum: int, gender: string) returns (r: RiskFactors)
    ensures r == RiskFactorsOf(symptoms, ageNum)
  {
    var maxRisk := Low;
    var specialist := "General Physician";
    var totalSeverity := 0;
    var conditions: seq<string> := [];
    ghost var hits: seq<RiskEntry> := [];
    for i := 0 to |symptoms|
      invariant hits == HitList(symptoms[..i])
      invariant totalSeverity == SeveritySum(hits)
      invariant conditions == Labels(hits)
      invariant Lead(maxRisk, specialist) == LeadOf(hits)
    {
      assert symptoms[..i + 1][..i] == symptoms[..i];
      maxRisk, specialist, totalSeverity, conditions, hits :=
        ScanSymptom(Trim(Lower(symptoms[i])), RiskTable, maxRisk, specialist, totalSeverity, conditions, hits);
    }
    assert symptoms[..|symptoms|] == symptoms;
    if ageNum > 60 {
      totalSeverity := totalSeverity + 2;
      if maxRisk == Low {
        maxRisk := Medium;
      }
    }
    r := RiskFactors(
      if totalSeverity > 10 then High else if totalSeverity > 5 then Medium else Low,
      specialist,
      if |conditions| > 0 then conditions else [DefaultCondition],
      totalSeverity);
  }

  /** The loop over riskMap for one prepared symptom: each entry whose key
      it contains adds its severity and its condition and may take the lead. */
  method ScanSymptom(lowerSymptom: string, table: seq<RiskEntry>, maxRisk0: Risk, specialist0: string, total0: nat,
                     conditions0: seq<string>, ghost hits0: seq<RiskEntry>)
    returns (maxRisk: Risk, specialist: string, total: nat, conditions: seq<string>, ghost hits: seq<RiskEntry>)
    requires total0 == SeveritySum(hits0) && conditions0 == Labels(hits0)
    requires Lead(maxRisk0, specialist0) == LeadOf(hits0)
    ensures hits == ScanHits(hits0, lowerSymptom, table, |table|)
    ensures total == SeveritySum(hits) && conditions == Labels(hits)
    ensures Lead(maxRisk, specialist) == LeadOf(hits)
  {
    maxRisk, specialist, total, conditions, hits := maxRisk0, specialist0, total0, conditions0, hits0;
    for j := 0 to |table|
      invariant hits == ScanHits(hits0, lowerSymptom, table, j)
      invariant total == SeveritySum(hits)
      invariant conditions == Labels(hits)
      invariant Lead(maxRisk, specialist) == LeadOf(hits)
    {
      var entry := table[j];
      if Contains(lowerSymptom, entry.key) {
        maxRisk, specialist, total, conditions, hits := TakeHit(entry, maxRisk, specialist, total, conditions, hits);
      }
    }
  }

  /** The body of the inner loop for an entry whose key the symptom
      contains: the tallies take the hit. */
  method TakeHit(entry: RiskEntry, maxRisk0: Risk, specialist0: string, total0: nat, conditions0: seq<string>,
                 ghost hits0: seq<RiskEntry>)
    returns (maxRisk: Risk, specialist: string, total: nat, conditions: seq<string>, ghost hits: seq<RiskEntry>)
    requires total0 == SeveritySum(hits0) && conditions0 == Labels(hits0)
    requires Lead(maxRisk0, specialist0) == LeadOf(hits0)
    ensures hits == hits0 + [entry]
    ensures total == SeveritySum(hits) && conditions == Labels(hits)
    ensures Lead(maxRisk, specialist) == LeadOf(hits)
  {
    maxRisk, specialist := maxRisk0, specialist0;
    total := total0 + entry.severity;
    if entry.risk == High || (entry.risk == Medium && maxRisk == Low) {
      maxRisk := entry.risk;
      specialist := entry.specialty;
    }
    conditions := conditions0 + [ConditionLabel(entry.key)];
    HitStep(hits0, entry);
    hits := hits0 + [entry];
  }

  /** One more hit adds its severity and its condition and takes one step of
      the lead. */
  lemma HitStep(hits: seq<RiskEntry>, e: RiskEntry)
    ensures SeveritySum(hits + [e]) == SeveritySum(hits) + e.severity
    ensures Labels(hits + [e]) == Labels(hits) + [ConditionLabel(e.key)]
    ensures LeadOf(hits + [e]) == LeadStep(LeadOf(hits), e)
  {
    assert (hits + [e])[..|hits|] == hits;
  }

  /** The last High hit, if any. */
  function LastHigh(hits: seq<RiskEntry>): (r: Option<RiskEntry>)
    ensures r.Some? ==> r.value in hits && r.value.risk == High
    decreases |hits|
  {
    if hits == [] then None
    else if hits[|hits| - 1].risk == High then Some(hits[|hits| - 1])
    else LastHigh(hits[..|hits| - 1])
  }

  /** The first Medium hit, if any. */
  function FirstMedium(hits: seq<RiskEntry>): (r: Option<RiskEntry>)
    ensures r.Some? ==> r.value in hits && r.value.risk == Medium
    decreases |hits|
  {
    if hits == [] then None
    else
      var f := FirstMedium(hits[..|hits| - 1]);
      if f.Some? then f else if hits[|hits| - 1].risk == Medium then Some(hits[|hits| - 1]) else None
  }

  lemma {:induction false} LastHighSome(hits: seq<RiskEntry>, e: RiskEntry)
    requires e in hits && e.risk == High
    ensures LastHigh(hits).Some?
    decreases |hits|
  {
    if hits[|hits| - 1].risk != High {
      assert e in hits[..|hits| - 1];
      LastHighSome(hits[..|hits| - 1], e);
    }
  }

  /** The specialist, without the running state: the specialty of the last
      High hit; failing that, of the first Medium hit; failing that, the
      General Physician. A later Medium hit never displaces an earlier one. */
  lemma {:induction false} LeadCharacterized(hits: seq<RiskEntry>)
    ensures LeadOf(hits).maxRisk == High <==> LastHigh(hits).Some?
    ensures LeadOf(hits).maxRisk == Medium <==> LastHigh(hits).None? && FirstMedium(hits).Some?
    ensures LeadOf(hits).specialist ==
      (if LastHigh(hits).Some? then LastHigh(hits).value.specialty
       else if FirstMedium(hits).Some? then FirstMedium(hits).value.specialty
       else "General Physician")
    decreases |hits|
  {
    if hits != [] {
      LeadCharacterized(hits[..|hits| - 1]);
    }
  }

  /** Scanning one symptom keeps the earlier hits and adds only table
      entries whose key it contains. */
  lemma {:induction false} ScanHitsFrom(acc: seq<RiskEntry>, symptom: string, table: seq<RiskEntry>, n: nat)
    requires n <= |table|
    ensures forall e :: e in acc ==> e in ScanHits(acc, symptom, table, n)
    ensures forall e :: e in ScanHits(acc, symptom, table, n) ==> e in acc || (e in table && Contains(symptom, e.key))
    decreases n
  {
    if n > 0 {
      ScanHitsFrom(acc, symptom, table, n - 1);
    }
  }

  /** A key found in a symptom is a hit. */
  lemma {:induction false} ScanHitsHas(acc: seq<RiskEntry>, symptom: string, table: seq<RiskEntry>, n: nat, i: nat)
    requires i < n <= |table| && Contains(symptom, table[i].key)
    ensures table[i] in ScanHits(acc, symptom, table, n)
    decreases n
  {
    if i < n - 1 {
      ScanHitsHas(acc, symptom, table, n - 1, i);
    }
  }

  lemma {:induction false} HitListHas(symptoms: seq<string>, k: nat, i: nat)
    requires k < |symptoms| && i < |RiskTable| && Contains(Prepared(symptoms[k]), RiskTable[i].key)
    ensures RiskTable[i] in HitList(symptoms)
    decreases |symptoms|
  {
    var front := symptoms[..|symptoms| - 1];
    if k == |symptoms| - 1 {
      ScanHitsHas(HitList(front), Prepared(symptoms[k]), RiskTable, |RiskTable|, i);
    } else {
      assert front[k] == symptoms[k];
      HitListHas(front, k, i);
      ScanHitsFrom(HitList(front), Prepared(symptoms[|symptoms| - 1]), RiskTable, |RiskTable|);
    }
  }

  /** Every hit is a table entry contained in some symptom. */
  lemma {:induction false} HitListFrom(symptoms: seq<string>)
    ensures forall e :: e in HitList(symptoms) ==>
      e in RiskTable && exists k :: 0 <= k < |symptoms| && Contains(Prepared(symptoms[k]), e.key)
    decreases |symptoms|
  {
    if symptoms != [] {
      var front := symptoms[..|symptoms| - 1];
      HitListFrom(front);
      ScanHitsFrom(HitList(front), Prepared(symptoms[|symptoms| - 1]), RiskTable, |RiskTable|);
      forall e | e in HitList(symptoms)
        ensures e in RiskTable && exists k :: 0 <= k < |symptoms| && Contains(Prepared(symptoms[k]), e.key)
      {
        if e in HitList(front) {
          var k :| 0 <= k < |front| && Contains(Prepared(front[k]), e.key);
          assert front[k] == symptoms[k];
        }
      }
    }
  }

  /** The table's specialties. */
  lemma RiskTableSpecialties(e: RiskEntry)
    requires e in RiskTable
    ensures e.specialty in {"Cardiologist", "Pulmonologist", "Neurologist", "General Physician"}
    ensures e.risk == High ==> e.specialty in {"Cardiologist", "Pulmonologist"}
  {
    var i :| 0 <= i < |RiskTable| && RiskTable[i] == e;
  }

  lemma {:induction false} SeveritySumPositive(hits: seq<RiskEntry>, e: RiskEntry)
    requires e in hits
    ensures SeveritySum(hits) >= e.severity
    decreases |hits|
  {
    if hits[|hits| - 1] != e {
      SeveritySumPositive(hits[..|hits| - 1], e);
    }
  }

  /** The default condition is reported exactly when no symptom contains any
      key, and otherwise there is one condition per hit. */
  lemma RiskFactorsConditions(symptoms: seq<string>, ageNum: int)
    ensures var r := RiskFactorsOf(symptoms, ageNum);
      && (r.conditions == [DefaultCondition] <==>
            forall k, i :: 0 <= k < |symptoms| && 0 <= i < |RiskTable| ==> !Contains(Prepared(symptoms[k]), RiskTable[i].key))
      && |r.conditions| == (if HitList(symptoms) == [] then 1 else |HitList(symptoms)|)
  {
    var hits := HitList(symptoms);
    if hits != [] {
      LabelsNotDefault(hits);
      SomeHitSomeKey(symptoms);
    } else {
      NoHitNoKey(symptoms);
    }
  }

  /** A condition built from a key never reads as the default one. */
  lemma LabelsNotDefault(hits: seq<RiskEntry>)
    requires hits != []
    ensures Labels(hits) != [DefaultCondition]
  {
    LabelsAt(hits, 0);
    assert ConditionLabel(hits[0].key)[0] == 'P';
  }

  /** A hit comes from some symptom containing some key of the table. */
  lemma SomeHitSomeKey(symptoms: seq<string>)
    requires HitList(symptoms) != []
    ensures exists k, i :: 0 <= k < |symptoms| && 0 <= i < |RiskTable| && Contains(Prepared(symptoms[k]), RiskTable[i].key)
  {
    var hits := HitList(symptoms);
    HitListFrom(symptoms);
    assert hits[0] in hits;
    var k :| 0 <= k < |symptoms| && Contains(Prepared(symptoms[k]), hits[0].key);
    var i :| 0 <= i < |RiskTable| && RiskTable[i] == hits[0];
  }

  /** With no hit, no symptom contains any key of the table. */
  lemma NoHitNoKey(symptoms: seq<string>)
    requires HitList(symptoms) == []
    ensures forall k, i :: 0 <= k < |symptoms| && 0 <= i < |RiskTable| ==> !Contains(Prepared(symptoms[k]), RiskTable[i].key)
  {
    forall k, i | 0 <= k < |symptoms| && 0 <= i < |RiskTable|
      ensures !Contains(Prepared(symptoms[k]), RiskTable[i].key)
    {
      NoHitNoKeyAt(symptoms, k, i);
    }
  }

  lemma NoHitNoKeyAt(symptoms: seq<string>, k: nat, i: nat)
    requires HitList(symptoms) == [] && k < |symptoms| && i < |RiskTable|
    ensures !Contains(Prepared(symptoms[k]), RiskTable[i].key)
  {
    if Contains(Prepared(symptoms[k]), RiskTable[i].key) {
      HitListHas(symptoms, k, i);
    }
  }

  /** The level follows the total by the thresholds 10 and 5, and the
      specialist is one of the table's or the default. */
  lemma RiskFactorsLevelAndSpecialist(symptoms: seq<string>, ageNum: int)
    ensures var r := RiskFactorsOf(symptoms, ageNum);
      && (r.riskLevel == High <==> r.severity > 10)
      && (r.riskLevel == Low <==> r.severity <= 5)
      && r.specialist in {"Cardiologist", "Pulmonologist", "Neurologist", "General Physician"}
  {
    var hits := HitList(symptoms);
    HitListFrom(symptoms);
    LeadCharacterized(hits);
    if LastHigh(hits).Some? {
      RiskTableSpecialties(LastHigh(hits).value);
    } else if FirstMedium(hits).Some? {
      RiskTableSpecialties(FirstMedium(hits).value);
    }
  }

  /** A symptom mentioning chest pain makes the specialist a Cardiologist or
      a Pulmonologist and the level at least Medium. */
  lemma ChestPainAtLeastMedium(symptoms: seq<string>, k: nat, ageNum: int)
    requires k < |symptoms| && Contains(Prepared(symptoms[k]), "chest pain")
    ensures RiskFactorsOf(symptoms, ageNum).riskLevel != Low
    ensures RiskFactorsOf(symptoms, ageNum).specialist in {"Cardiologist", "Pulmonologist"}
  {
    var hits := HitList(symptoms);
    assert RiskTable[0] in hits by {
      HitListHas(symptoms, k, 0);
    }
    assert SeveritySum(hits) >= 8 by {
      SeveritySumPositive(hits, RiskTable[0]);
    }
    assert LastHigh(hits).Some? by {
      LastHighSome(hits, RiskTable[0]);
    }
    assert LastHigh(hits).value.specialty in {"Cardiologist", "Pulmonologist"} by {
      HitListFrom(symptoms);
      RiskTableSpecialties(LastHigh(hits).value);
    }
    LeadCharacterized(hits);
  }

  /** Chest pain as the only hit, for an age up to 60, scores 8 and is only
      Medium, though it is the highest-risk entry of the table. */
  lemma ChestPainAloneIsMedium(symptoms: seq<string>, ageNum: int)
    requires HitList(symptoms) == [RiskTable[0]] && ageNum <= 60
    ensures RiskFactorsOf(symptoms, ageNum).severity == 8
    ensures RiskFactorsOf(symptoms, ageNum).riskLevel == Medium
    ensures RiskFactorsOf(symptoms, ageNum).specialist == "Cardiologist"
  {
    var hits := HitList(symptoms);
    assert hits[..0] == [];
    assert SeveritySum(hits) == 8;
    assert LeadOf(hits) == Lead(High, "Cardiologist");
  }

  // ---------------------------------------------------------------------
  // getSpecialistForDisease
  // ---------------------------------------------------------------------

  /** diseaseSpecialistMap (its duplicate "allergy" entry has the same
      value both times). */
  const DiseaseSpecialists: map<string, string> := map[
    "heart attack" := "Cardiologist",
    "hypertension" := "Cardiologist",
    "heart disease" := "Cardiologist",
    "pneumonia" := "Pulmonologist",
    "bronchial asthma" := "Pulmonologist",
    "tuberculosis" := "Pulmonologist",
    "gastroesophageal reflux disease" := "Gastroenterologist",
    "peptic ulcer diseae" := "Gastroenterologist",
    "gastroenteritis" := "Gastroenterologist",
    "migraine" := "Neurologist",
    "cervical spondylosis" := "Neurologist",
    "paralysis (brain hemorrhage)" := "Neurologist",
    "malaria" := "Infectious Disease Specialist",
    "typhoid" := "Infectious Disease Specialist",
    "hepatitis a" := "Hepatologist",
    "hepatitis b" := "Hepatologist",
    "hepatitis c" := "Hepatologist",
    "hepatitis d" := "Hepatologist",
    "hepatitis e" := "Hepatologist",
    "alcoholic hepatitis" := "Hepatologist",
    "fungal infection" := "Dermatologist",
    "allergy" := "Allergist",
    "psoriasis" := "Dermatologist",
    "impetigo" := "Dermatologist",
    "diabetes" := "Endocrinologist",
    "hyperthyroidism" := "Endocrinologist",
    "hypothyroidism" := "Endocrinologist",
    "arthritis" := "Rheumatologist",
    "osteoarthristis" := "Orthopedist",
    "urinary tract infection" := "Urologist",
    "jaundice" := "Hepatologist",
    "chronic cholestasis" := "Hepatologist",
    "drug reaction" := "General Physician",
    "common cold" := "General Physician",
    "chicken pox" := "Pediatrician",
    "varicose veins" := "Vascular Surgeon"]

  /** getSpecialistForDisease: the table's entry for the lower-cased,
      trimmed name, "General Physician" for any other name. */
  function GetSpecialistForDisease(disease: string): (s: string)
    ensures s in DiseaseSpecialistNames
    ensures Prepared(disease) in DiseaseSpecialists ==> s == DiseaseSpecialists[Prepared(disease)]
    ensures Prepared(disease) !in DiseaseSpecialists ==> s == "General Physician"
  {
    var key := Prepared(disease);
    if key in DiseaseSpecialists then DiseaseSpecialists[key] else "General Physician"
  }

  const DiseaseSpecialistNames: set<string> := {
    "Cardiologist", "Pulmonologist", "Gastroenterologist", "Neurologist", "Infectious Disease Specialist",
    "Hepatologist", "Dermatologist", "Allergist", "Endocrinologist", "Rheumatologist", "Orthopedist",
    "Urologist", "General Physician", "Pediatrician", "Vascular Surgeon"}

  /** `toLowerCase().trim()` is idempotent: trimming keeps a slice of an
      already lower-cased string, and trimming twice is trimming once. */
  lemma PreparedIdempotent(s: string)
    ensures Prepared(Prepared(s)) == Prepared(s)
  {
    var l := Lower(s);
    var t := Trim(l);
    TrimShape(l);
    var i, j :| 0 <= i <= j <= |l| && t == l[i..j];
    LowerHasNoUpper(s);
    LowerOfLower(t);
    TrimIdempotent(l);
  }

  /** The lookup ignores case and surrounding white space, and always names
      one of the table's specialists. */
  lemma SpecialistForDiseaseNormalised(disease: string)
    ensures GetSpecialistForDisease(disease) == GetSpecialistForDisease(Prepared(disease))
    ensures GetSpecialistForDisease(disease) in DiseaseSpecialistNames
  {
    PreparedIdempotent(disease);
  }
}
