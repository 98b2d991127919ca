/** The first generation of the rule-based triage engine: keyword-weighted
    category detection, eleven emergency rules, an additive severity score,
    risk and specialist selection, first-match condition prediction and
    precautions, composed by ApplyMedicalAccuracySystem. Every rule reads the
    lower-cased, space-joined symptom text (`rawStr`). */
module TriageV1 {
  import opened Base
  import opened Text

  // ---------------------------------------------------------------------
  // Categories and keyword scoring (detectMedicalCategory)
  // ---------------------------------------------------------------------

  datatype Category = Cardio | Respiratory | Neuro | Gi | Ent | Dermat | Allergy | Endocrine | General
  {
    function Name(): string {
      match this
      case Cardio => "cardio"
      case Respiratory => "respiratory"
      case Neuro => "neuro"
      case Gi => "gi"
      case Ent => "ent"
      case Dermat => "dermat"
      case Allergy => "allergy"
      case Endocrine => "endocrine"
      case General => "general"
    }

    /** Position in the declaration order of the score dictionary. */
    function Index(): (i: nat)
      ensures i < CategoryCount
    {
      match this
      case Cardio => 0
      case Respiratory => 1
      case Neuro => 2
      case Gi => 3
      case Ent => 4
      case Dermat => 5
      case Allergy => 6
      case Endocrine => 7
      case General => 8
    }
  }

  const CategoryCount: nat := 9

  /** The category at position `i` of the score dictionary's declaration
      order; ties are broken by this order. */
  function CategoryAt(i: nat): (c: Category)
    requires i < CategoryCount
    ensures c.Index() == i
  {
    if i == 0 then Cardio
    else if i == 1 then Respiratory
    else if i == 2 then Neuro
    else if i == 3 then Gi
    else if i == 4 then Ent
    else if i == 5 then Dermat
    else if i == 6 then Allergy
    else if i == 7 then Endocrine
    else General
  }

  /** Positions identify categories. */
  lemma IndexInjective(c: Category, e: Category)
    ensures c.Index() == e.Index() ==> c == e
    ensures CategoryAt(c.Index()) == c
  {
  }

  const RespiratoryKeywords: seq<string> :=
    ["cough", "cold", "fever", "sore throat", "throat", "runny nose", "chest tightness", "breathlessness", "breathing"]
  const CardioKeywords: seq<string> := ["chest pain", "chest_pain", "palpitations", "heart"]
  const EntKeywords: seq<string> := ["throat", "sore throat", "throat pain", "throat irritation", "ear", "nose"]
  const NeuroKeywords: seq<string> := ["headache", "confusion", "dizziness", "weakness", "numbness"]
  const GiKeywords: seq<string> := ["abdominal pain", "stomach", "vomit", "diarr", "nausea", "belly"]
  const DermatKeywords: seq<string> := ["rash", "itch", "skin", "lesion", "bump"]
  const AllergyKeywords: seq<string> := ["sneez", "itch", "rash", "hives"]
  /** Any of these in the text keeps the allergy score at zero. */
  const AllergyBlockers: seq<string> := ["chest pain", "fever", "chills", "severe headache", "breathless", "nausea"]

  /** Headache together with confusion or weakness adds 3 more points per
      neurological keyword. */
  predicate NeuroCombination(raw: string) {
    Contains(raw, "headache") && (Contains(raw, "confusion") || Contains(raw, "weakness"))
  }

  /** The allergy score is kept only without a blocker and with more than two
      allergy keywords. */
  function AllergyScore(raw: string): nat {
    var n := Hits(raw, AllergyKeywords);
    if !AnyOccurs(raw, AllergyBlockers) && n > 2 then n else 0
  }

  /** The score each category ends with in detectMedicalCategory. */
  function Score(raw: string, c: Category): nat {
    match c
    case Cardio => 5 * Hits(raw, CardioKeywords)
    case Respiratory => 2 * Hits(raw, RespiratoryKeywords)
    case Neuro => (if NeuroCombination(raw) then 5 else 2) * Hits(raw, NeuroKeywords)
    case Gi => 2 * Hits(raw, GiKeywords)
    case Ent => 3 * Hits(raw, EntKeywords)
    case Dermat => 2 * Hits(raw, DermatKeywords)
    case Allergy => AllergyScore(raw)
    case Endocrine => 0
    case General => 0
  }

  /** The scores in declaration order (`Object.entries(categories)`). */
  function Scores(raw: string): (s: seq<int>)
    ensures |s| == CategoryCount
    ensures forall c: Category :: s[c.Index()] == Score(raw, c)
  {
    [Score(raw, Cardio), Score(raw, Respiratory), Score(raw, Neuro), Score(raw, Gi), Score(raw, Ent),
     Score(raw, Dermat), Score(raw, Allergy), Score(raw, Endocrine), Score(raw, General)]
  }

  datatype DetectedCategory = DetectedCategory(primary: Category, secondary: Option<Category>)

  /** The first two entries of the positive scores sorted stably in descending
      order: the earliest maximum, then the earliest maximum of the others;
      `general` when no score is positive. */
  function Rank(scores: seq<int>): DetectedCategory
    requires |scores| == CategoryCount
  {
    var k := MaxIndex(scores);
    if scores[k] <= 0 then DetectedCategory(General, None)
    else
      var second := SecondIndex(scores, k);
      DetectedCategory(CategoryAt(k), if scores[second] > 0 then Some(CategoryAt(second)) else None)
  }

  /** What detectMedicalCategory returns for the text `raw`. */
  function CategoryOf(raw: string): DetectedCategory {
    Rank(Scores(raw))
  }

  /** Adds `weight` to `start` for every keyword that occurs in `text`
      (one `forEach` pass of detectMedicalCategory). */
  method AddHits(text: string, kws: seq<string>, weight: int, start: int) returns (total: int)
    ensures total == start + weight * Hits(text, kws)
  {
    total := start;
    for i := 0 to |kws|
      invariant total == start + weight * Hits(text, kws[..i])
    {
      assert kws[..i + 1][..i] == kws[..i];
      if Contains(text, kws[i]) {
        total := total + weight;
      }
    }
    assert kws[..|kws|] == kws;
  }

  /** The score dictionary of detectMedicalCategory, one field per category. */
  datatype ScoreBoard = ScoreBoard(
    cardio: int, respiratory: int, neuro: int, gi: int, ent: int,
    dermat: int, allergy: int, endocrine: int, general: int)
  {
    /** `Object.entries`, in declaration order. */
    function Entries(): (s: seq<int>)
      ensures |s| == CategoryCount
    {
      [cardio, respiratory, neuro, gi, ent, dermat, allergy, endocrine, general]
    }
  }

  /** detectMedicalCategory: fills the score dictionary pass by pass and
      ranks its entries. */
  method DetectMedicalCategory(raw: string) returns (d: DetectedCategory)
    ensures d == CategoryOf(raw)
  {
    var categories := ScoreBoard(0, 0, 0, 0, 0, 0, 0, 0, 0);
    var n := AddHits(raw, RespiratoryKeywords, 2, categories.respiratory);
    categories := categories.(respiratory := n);
    n := AddHits(raw, CardioKeywords, 5, categories.cardio);
    categories := categories.(cardio := n);
    n := AddHits(raw, EntKeywords, 3, categories.ent);
    categories := categories.(ent := n);

    ghost var before := categories;
    ghost var weight := if NeuroCombination(raw) then 5 else 2;
    for i := 0 to |NeuroKeywords|
      invariant categories == before.(neuro := weight * Hits(raw, NeuroKeywords[..i]))
    {
      assert NeuroKeywords[..i + 1][..i] == NeuroKeywords[..i];
      if Contains(raw, NeuroKeywords[i]) {
        categories := categories.(neuro := categories.neuro + 2);
        if Contains(raw, "headache") && (Contains(raw, "confusion") || Contains(raw, "weakness")) {
          categories := categories.(neuro := categories.neuro + 3);
        }
      }
    }
    assert NeuroKeywords[..|NeuroKeywords|] == NeuroKeywords;

    n := AddHits(raw, GiKeywords, 2, categories.gi);
    categories := categories.(gi := n);
    n := AddHits(raw, DermatKeywords, 2, categories.dermat);
    categories := categories.(dermat := n);

    var allergyScore := AddHits(raw, AllergyKeywords, 1, 0);
    var hasBlocker := AnyOccurs(raw, AllergyBlockers);
    if !hasBlocker && allergyScore > 2 {
      categories := categories.(allergy := allergyScore);
    }

    assert categories.Entries() == Scores(raw);
    d := Rank(categories.Entries());
  }

  /** With a blocker in the text the allergy score is zero; a non-zero
      allergy score needs at least three allergy keywords. */
  lemma AllergyScoreShape(raw: string)
    ensures AnyOccurs(raw, AllergyBlockers) ==> Score(raw, Allergy) == 0
    ensures Score(raw, Allergy) > 0 ==> !AnyOccurs(raw, AllergyBlockers) && Hits(raw, AllergyKeywords) >= 3
  {
  }

  /** Rank's primary category: `general` exactly when no score is
      positive, otherwise the earliest position holding the largest score.
      (The `general` slot itself never scores.) */
  lemma RankPrimary(s: seq<int>)
    requires |s| == CategoryCount && s[General.Index()] <= 0
    ensures var p := Rank(s).primary;
      && (p == General <==> forall i :: 0 <= i < |s| ==> s[i] <= 0)
      && (p != General ==>
            && s[p.Index()] > 0
            && (forall i :: 0 <= i < |s| ==> s[i] <= s[p.Index()])
            && (forall i :: 0 <= i < p.Index() ==> s[i] < s[p.Index()]))
  {
    var k := MaxIndex(s);
    if s[k] > 0 {
      assert k != 8;
    }
  }

  /** Rank reports a secondary category exactly when at least two scores
      are positive. */
  lemma RankSecondaryCount(s: seq<int>)
    requires |s| == CategoryCount
    ensures Rank(s).secondary == None <==> CountPositive(s) < 2
  {
    if s[MaxIndex(s)] <= 0 {
      CountPositiveZero(s);
    } else {
      SecondPositive(s);
    }
  }

  /** Rank's secondary category, when there is one, is a position other
      than the primary one holding a positive score, the largest among the
      other positions, with no earlier other position tying it. */
  lemma RankSecondaryOrder(s: seq<int>)
    requires |s| == CategoryCount && s[General.Index()] <= 0
    ensures var d := Rank(s);
      d.secondary.Some? ==>
        var j := d.secondary.value.Index();
        && d.primary != General
        && j != d.primary.Index()
        && s[j] > 0
        && (forall i :: 0 <= i < |s| && i != d.primary.Index() ==> s[i] <= s[j])
        && (forall i :: 0 <= i < j && i != d.primary.Index() ==> s[i] < s[j])
  {
    var k := MaxIndex(s);
    if s[k] > 0 {
      assert k != 8;
    }
  }

  /** The detector's answer in terms of the category scores: `general`
      exactly when nothing scores; otherwise the primary category has the
      top score and no earlier category ties it, and the secondary one, when
      present, is a different category with the top score among the rest. */
  lemma CategoryOfFacts(raw: string)
    ensures var d := CategoryOf(raw);
      && (d.primary == General <==> forall c: Category :: Score(raw, c) == 0)
      && (d.primary != General ==>
            && Score(raw, d.primary) > 0
            && (forall c: Category :: Score(raw, c) <= Score(raw, d.primary))
            && (forall c: Category :: c.Index() < d.primary.Index() ==> Score(raw, c) < Score(raw, d.primary)))
      && (d.secondary.Some? ==>
            && d.secondary.value != d.primary
            && Score(raw, d.secondary.value) > 0
            && (forall c: Category :: c != d.primary ==> Score(raw, c) <= Score(raw, d.secondary.value))
            && (forall c: Category :: c != d.primary && c.Index() < d.secondary.value.Index() ==>
                  Score(raw, c) < Score(raw, d.secondary.value)))
      && (d.secondary == None <==> CountPositive(Scores(raw)) < 2)
  {
    var s := Scores(raw);
    RankPrimary(s);
    RankSecondaryCount(s);
    RankSecondaryOrder(s);
    forall c: Category, e: Category
      ensures c.Index() == e.Index() ==> c == e
    {
      IndexInjective(c, e);
    }
    if forall c: Category :: Score(raw, c) == 0 {
      forall i | 0 <= i < |s|
        ensures s[i] <= 0
      {
        assert s[CategoryAt(i).Index()] == Score(raw, CategoryAt(i));
      }
    }
  }

  /** A blocker in the text means allergy is neither the primary nor the
      secondary category. */
  lemma AllergyNeverWithBlocker(raw: string)
    requires AnyOccurs(raw, AllergyBlockers)
    ensures CategoryOf(raw).primary != Allergy
    ensures CategoryOf(raw).secondary != Some(Allergy)
  {
    CategoryOfFacts(raw);
    AllergyScoreShape(raw);
  }

  // ---------------------------------------------------------------------
  // Emergency rules (checkEmergencyConditions)
  // ---------------------------------------------------------------------

  datatype EmergencyStatus = EmergencyStatus(isEmergency: bool, reasons: seq<string>)

  const RuleCount: nat := 11

  /** The reason each rule reports, in rule order. */
  const EmergencyReasons: seq<string> := [
    "Severe breathing difficulty",
    "Unable to breathe",
    "Chest pain requires urgent evaluation",
    "Chest tightness with breathing difficulty",
    "Neurological symptoms require immediate evaluation",
    "Loss of consciousness",
    "Possible stroke symptoms",
    "Severe throat obstruction",
    "Severe throat infection with fever",
    "Gastrointestinal bleeding",
    "Severe abdominal pain"]

  /** The condition of rule `k`, as an ordered table. */
  predicate RuleFires(k: nat, raw: string)
    requires k < RuleCount
  {
    if k == 0 then Contains(raw, "severe") && (Contains(raw, "breath") || Contains(raw, "breathing"))
    else if k == 1 then Contains(raw, "can't breathe") || Contains(raw, "cannot breathe")
    else if k == 2 then Contains(raw, "chest pain")
    else if k == 3 then Contains(raw, "chest tightness") && (Contains(raw, "breath") || Contains(raw, "breathless"))
    else if k == 4 then Contains(raw, "confusion") || Contains(raw, "unable to speak")
    else if k == 5 then Contains(raw, "fainting") || Contains(raw, "loss of consciousness")
    else if k == 6 then Contains(raw, "one sided weakness") || Contains(raw, "paralysis")
    else if k == 7 then Contains(raw, "unable to swallow") || Contains(raw, "drooling")
    else if k == 8 then Contains(raw, "severe") && Contains(raw, "throat") && Contains(raw, "fever")
    else if k == 9 then Contains(raw, "blood") && (Contains(raw, "vomit") || Contains(raw, "stool"))
    else Contains(raw, "severe") && Contains(raw, "abdominal pain")
  }

  /** Indices of the rules among the first `n` that fire, in rule order. */
  function FiredRules(raw: string, n: nat): (ks: seq<nat>)
    requires n <= RuleCount
    ensures forall i :: 0 <= i < |ks| ==> ks[i] < n
    ensures forall i, j :: 0 <= i < j < |ks| ==> ks[i] < ks[j]
    ensures |ks| <= n
    decreases n
  {
    if n == 0 then []
    else FiredRules(raw, n - 1) + (if RuleFires(n - 1, raw) then [n - 1] else [])
  }

  function ReasonsOf(ks: seq<nat>): (rs: seq<string>)
    requires forall i :: 0 <= i < |ks| ==> ks[i] < RuleCount
    ensures |rs| == |ks|
  {
    seq(|ks|, i requires 0 <= i < |ks| => EmergencyReasons[ks[i]])
  }

  lemma ReasonsOfAppend(ks: seq<nat>, k: nat)
    requires forall i :: 0 <= i < |ks| ==> ks[i] < RuleCount
    requires k < RuleCount
    ensures ReasonsOf(ks + [k]) == ReasonsOf(ks) + [EmergencyReasons[k]]
  {
  }

  /** What checkEmergencyConditions returns: one reason per firing rule, in
      rule order, and the emergency flag. */
  function EmergencyOf(raw: string): EmergencyStatus {
    var reasons := ReasonsOf(FiredRules(raw, RuleCount));
    EmergencyStatus(reasons != [], reasons)
  }

  /** checkEmergencyConditions: eleven independent checks, taken in source
      order, each appending its reason when it fires. */
  method CheckEmergencyConditions(raw: string) returns (status: EmergencyStatus)
    ensures status == EmergencyOf(raw)
  {
    var reasons: seq<string> := [];
    var isEmergency := false;
    ghost var fired: seq<nat> := [];
    for k := 0 to RuleCount
      invariant fired == FiredRules(raw, k) && reasons == ReasonsOf(fired)
      invariant isEmergency <==> reasons != []
    {
      if RuleFires(k, raw) {
        ReasonsOfAppend(fired, k);
        reasons := reasons + [EmergencyReasons[k]];
        isEmergency := true;
        fired := fired + [k];
      }
    }
    status := EmergencyStatus(isEmergency, reasons);
  }

  /** A rule's index is listed exactly when the rule fires. */
  lemma {:induction false} FiredRulesExact(raw: string, n: nat, k: nat)
    requires k < n <= RuleCount
    ensures k in FiredRules(raw, n) <==> RuleFires(k, raw)
    decreases n
  {
    if k < n - 1 {
      FiredRulesExact(raw, n - 1, k);
    }
  }

  /** The emergency flag is set exactly when a reason was given; there are at
      most eleven reasons, listed in rule order, and each rule's reason is
      present exactly when that rule fires. */
  lemma EmergencyShape(raw: string)
    ensures EmergencyOf(raw).isEmergency <==> |EmergencyOf(raw).reasons| > 0
    ensures |EmergencyOf(raw).reasons| <= RuleCount
    ensures forall k :: 0 <= k < RuleCount ==> (k in FiredRules(raw, RuleCount) <==> RuleFires(k, raw))
    ensures forall i :: 0 <= i < |EmergencyOf(raw).reasons| ==>
              EmergencyOf(raw).reasons[i] == EmergencyReasons[FiredRules(raw, RuleCount)[i]]
  {
    forall k | 0 <= k < RuleCount
      ensures k in FiredRules(raw, RuleCount) <==> RuleFires(k, raw)
    {
      FiredRulesExact(raw, RuleCount, k);
    }
  }

  /** Text containing "chest pain" is always an emergency, with the chest
      pain reason among the reasons. */
  lemma ChestPainIsEmergency(raw: string)
    requires Contains(raw, "chest pain")
    ensures EmergencyOf(raw).isEmergency
    ensures "Chest pain requires urgent evaluation" in EmergencyOf(raw).reasons
  {
    FiredRulesExact(raw, RuleCount, 2);
    var ks := FiredRules(raw, RuleCount);
    var i :| 0 <= i < |ks| && ks[i] == 2;
    assert EmergencyOf(raw).reasons[i] == EmergencyReasons[2];
  }

  // ---------------------------------------------------------------------
  // Severity (calculateMedicalSeverity)
  // ---------------------------------------------------------------------

  /** The points of the fifteen additive severity rules, in source order:
      red flags +4 or +5, moderate symptoms +2 or +3, mild symptoms +1. */
  const SeverityWeights: seq<nat> := [5, 5, 5, 5, 4, 4, 3, 3, 2, 3, 2, 1, 1, 1, 1]

  /** The condition of additive severity rule `k`. */
  predicate SeverityRule(k: nat, raw: string)
    requires k < |SeverityWeights|
  {
    if k == 0 then Contains(raw, "chest pain")
    else if k == 1 then Contains(raw, "severe") && Contains(raw, "breath")
    else if k == 2 then Contains(raw, "confusion")
    else if k == 3 then Contains(raw, "fainting")
    else if k == 4 then Contains(raw, "chest tightness")
    else if k == 5 then Contains(raw, "breathless") || Contains(raw, "breathlessness")
    else if k == 6 then Contains(raw, "fever")
    else if k == 7 then Contains(raw, "vomit") || Contains(raw, "vomiting")
    else if k == 8 then Contains(raw, "dizziness")
    else if k == 9 then Contains(raw, "severe headache")
    else if k == 10 then Contains(raw, "headache")
    else if k == 11 then Contains(raw, "cough")
    else if k == 12 then Contains(raw, "runny nose")
    else if k == 13 then Contains(raw, "fatigue")
    else Contains(raw, "sore throat") && !Contains(raw, "severe")
  }

  /** The running score after the first `n` additive rules. */
  function SeverityPoints(raw: string, n: nat): nat
    requires n <= |SeverityWeights|
  {
    if n == 0 then 0
    else SeverityPoints(raw, n - 1) + (if SeverityRule(n - 1, raw) then SeverityWeights[n - 1] else 0)
  }

  /** Every rule that fires contributes its full weight. */
  lemma {:induction false} SeverityPointsCover(raw: string, n: nat, k: nat)
    requires k < n <= |SeverityWeights| && SeverityRule(k, raw)
    ensures SeverityPoints(raw, n) >= SeverityWeights[k]
  {
    if k < n - 1 {
      SeverityPointsCover(raw, n - 1, k);
    }
  }

  /** Firing more rules never lowers the running score. */
  lemma {:induction false} SeverityPointsMonotone(a: string, b: string, n: nat)
    requires n <= |SeverityWeights|
    requires forall k :: 0 <= k < n ==> SeverityRule(k, a) ==> SeverityRule(k, b)
    ensures SeverityPoints(a, n) <= SeverityPoints(b, n)
  {
    if n > 0 {
      SeverityPointsMonotone(a, b, n - 1);
    }
  }

  /** A throat symptom without "severe". */
  predicate MildThroat(raw: string) {
    (Contains(raw, "throat") || Contains(raw, "sore throat")) && !Contains(raw, "severe")
  }

  /** What calculateMedicalSeverity returns: always within 0..20, and within
      4..7 for a throat symptom without "severe", whatever else is present. */
  function MedicalSeverity(raw: string): (r: int)
    ensures 0 <= r <= 20
    ensures MildThroat(raw) ==> 4 <= r <= 7
    ensures MildThroat(raw) ==> r == MinInt(MaxInt(SeverityPoints(raw, |SeverityWeights|), 4), 7)
    ensures !MildThroat(raw) ==> r == MinInt(SeverityPoints(raw, |SeverityWeights|), 20)
  {
    var p := SeverityPoints(raw, |SeverityWeights|);
    var clamped := if MildThroat(raw) then MinInt(MaxInt(p, 4), 7) else p;
    MinInt(clamped, 20)
  }

  /** calculateMedicalSeverity: adds up the rules in source order, applies
      the throat clamp and the cap. The emergency status it receives plays no
      part. */
  method CalculateMedicalSeverity(raw: string, emergency: EmergencyStatus) returns (score: int)
    ensures score == MedicalSeverity(raw)
  {
    score := 0;
    for k := 0 to |SeverityWeights|
      invariant score == SeverityPoints(raw, k)
    {
      if SeverityRule(k, raw) {
        score := score + SeverityWeights[k];
      }
    }
    if (Contains(raw, "throat") || Contains(raw, "sore throat")) && !Contains(raw, "severe") {
      score := MaxInt(score, 4);
      score := MinInt(score, 7);
    }
    score := MinInt(score, 20);
  }

  /** Outside the throat clamp, a single red flag (chest pain, confusion,
      fainting) already gives at least 5, and a text that fires every rule
      another text fires scores at least as high. */
  lemma SeverityRedFlagsAndMonotone(raw: string, more: string)
    requires !MildThroat(raw) && !MildThroat(more)
    requires forall k :: 0 <= k < |SeverityWeights| ==> SeverityRule(k, raw) ==> SeverityRule(k, more)
    ensures Contains(raw, "chest pain") || Contains(raw, "confusion") || Contains(raw, "fainting") ==>
              MedicalSeverity(raw) >= 5
    ensures MedicalSeverity(raw) <= MedicalSeverity(more)
  {
    var n := |SeverityWeights|;
    if Contains(raw, "chest pain") {
      SeverityPointsCover(raw, n, 0);
    } else if Contains(raw, "confusion") {
      SeverityPointsCover(raw, n, 2);
    } else if Contains(raw, "fainting") {
      SeverityPointsCover(raw, n, 3);
    }
    SeverityPointsMonotone(raw, more, n);
  }

  // ---------------------------------------------------------------------
  // Risk and specialist (determineRiskLevel, selectSpecialist)
  // ---------------------------------------------------------------------

  datatype Risk = Low | Medium | High
  {
    function Label(): string {
      match this
      case Low => "LOW"
      case Medium => "MEDIUM"
      case High => "HIGH"
    }

    function Level(): nat {
      match this
      case Low => 0
      case Medium => 1
      case High => 2
    }
  }

  /** determineRiskLevel: an emergency is always HIGH. */
  function RiskLevel(severity: int, emergency: EmergencyStatus): (r: Risk)
    ensures emergency.isEmergency ==> r == High
  {
    if emergency.isEmergency || severity >= 15 then High
    else if severity >= 8 then Medium
    else Low
  }

  /** Without an emergency the thresholds are 15 for HIGH and 8 for MEDIUM,
      and a higher severity never gives a lower risk. */
  lemma RiskThresholds(s1: int, s2: int, emergency: EmergencyStatus)
    requires !emergency.isEmergency
    requires s1 <= s2
    ensures RiskLevel(s1, emergency) == High <==> s1 >= 15
    ensures RiskLevel(s1, emergency) == Medium <==> 8 <= s1 < 15
    ensures RiskLevel(s1, emergency) == Low <==> s1 < 8
    ensures RiskLevel(s1, emergency).Level() <= RiskLevel(s2, emergency).Level()
  {
  }

  /** An emergency never lowers the risk level for the same severity. */
  lemma EmergencyRaisesRisk(s: int, e1: EmergencyStatus, e2: EmergencyStatus)
    requires e1.isEmergency ==> e2.isEmergency
    ensures RiskLevel(s, e1).Level() <= RiskLevel(s, e2).Level()
  {
  }

  /** The specialist dictionary of selectSpecialist. */
  function SpecialistFor(c: Category): string {
    match c
    case Cardio => "Cardiologist"
    case Respiratory => "Pulmonologist"
    case Neuro => "Neurologist"
    case Gi => "Gastroenterologist"
    case Dermat => "Dermatologist"
    case Allergy => "Allergist"
    case Endocrine => "Endocrinologist"
    case Ent => "ENT Specialist (Otolaryngologist)"
    case General => "General Physician"
  }

  /** selectSpecialist: emergencies go to emergency medicine; otherwise the
      primary category's specialist, `General Physician` for `general`. */
  function SelectSpecialist(category: DetectedCategory, emergency: EmergencyStatus): (s: string)
    ensures emergency.isEmergency ==> s == "Emergency Medicine Specialist"
    ensures !emergency.isEmergency ==> s == SpecialistFor(category.primary)
    ensures !emergency.isEmergency && category.primary == General ==> s == "General Physician"
  {
    if emergency.isEmergency then "Emergency Medicine Specialist"
    else
      var s := SpecialistFor(category.primary);
      // The source's `|| "General Physician"`; every table entry is non-empty.
      if s != "" then s else "General Physician"
  }

  // ---------------------------------------------------------------------
  // Condition and precautions (predictCondition, getPrecautionsForCondition)
  // ---------------------------------------------------------------------

  /** predictCondition: the first matching pattern wins; otherwise a label for
      the primary category. */
  function PredictCondition(raw: string, category: DetectedCategory): (cond: string)
    ensures cond in ConditionLabels
  {
    if Contains(raw, "throat") || Contains(raw, "sore throat") then
      (if Contains(raw, "fever") then "Acute Pharyngitis (Throat Infection)"
       else "Sore Throat / Throat Irritation")
    else if Contains(raw, "cough") && Contains(raw, "cold") && Contains(raw, "fever") then
      "Common Cold / Viral Infection"
    else if Contains(raw, "cough") && Contains(raw, "fever") then
      "Respiratory Infection"
    else if Contains(raw, "cough") && Contains(raw, "chest") then
      "Bronchitis / Respiratory Infection"
    else if Contains(raw, "chest pain") || Contains(raw, "chest tightness") then
      (if Contains(raw, "breath") then "Acute Cardiopulmonary Event" else "Cardiac Assessment Required")
    else if Contains(raw, "severe") && Contains(raw, "breath") then
      "Acute Respiratory Distress"
    else if Contains(raw, "headache") && Contains(raw, "fever") then
      "Viral Fever / Flu"
    else if Contains(raw, "severe headache") then
      "Severe Headache / Possible Migraine"
    else if Contains(raw, "rash") && Contains(raw, "itch") then
      "Allergic Reaction / Dermatitis"
    else CategoryCondition(category.primary)
  }

  /** The fallback labels by primary category. */
  function CategoryCondition(c: Category): string {
    if c == Respiratory then "Respiratory Condition"
    else if c == Gi then "Gastrointestinal Condition"
    else if c == Cardio then "Cardiovascular Concern"
    else if c == Neuro then "Neurological Concern"
    else "General Medical Condition"
  }

  const PatternLabels: seq<string> := [
    "Acute Pharyngitis (Throat Infection)",
    "Sore Throat / Throat Irritation",
    "Common Cold / Viral Infection",
    "Respiratory Infection",
    "Bronchitis / Respiratory Infection",
    "Acute Cardiopulmonary Event",
    "Cardiac Assessment Required",
    "Acute Respiratory Distress",
    "Viral Fever / Flu",
    "Severe Headache / Possible Migraine",
    "Allergic Reaction / Dermatitis"]

  const ConditionLabels: set<string> := set l | l in PatternLabels + [
    "Respiratory Condition", "Gastrointestinal Condition", "Cardiovascular Concern",
    "Neurological Concern", "General Medical Condition"]

  /** The pattern of rule `k` of the ordered condition table, each rule
      standing on its own (no rule relies on an earlier one having failed). */
  predicate PatternMatches(k: nat, raw: string)
    requires k < |PatternLabels|
  {
    var throat := Contains(raw, "throat") || Contains(raw, "sore throat");
    var chest := Contains(raw, "chest pain") || Contains(raw, "chest tightness");
    if k == 0 then throat && Contains(raw, "fever")
    else if k == 1 then throat
    else if k == 2 then Contains(raw, "cough") && Contains(raw, "cold") && Contains(raw, "fever")
    else if k == 3 then Contains(raw, "cough") && Contains(raw, "fever")
    else if k == 4 then Contains(raw, "cough") && Contains(raw, "chest")
    else if k == 5 then chest && Contains(raw, "breath")
    else if k == 6 then chest
    else if k == 7 then Contains(raw, "severe") && Contains(raw, "breath")
    else if k == 8 then Contains(raw, "headache") && Contains(raw, "fever")
    else if k == 9 then Contains(raw, "severe headache")
    else Contains(raw, "rash") && Contains(raw, "itch")
  }

  /** The first rule at or after `from` whose pattern matches. */
  function FirstMatch(raw: string, from: nat): (r: Option<nat>)
    requires from <= |PatternLabels|
    ensures r.Some? ==> from <= r.value < |PatternLabels| && PatternMatches(r.value, raw)
    ensures r.Some? ==> forall k :: from <= k < r.value ==> !PatternMatches(k, raw)
    ensures r.None? ==> forall k :: from <= k < |PatternLabels| ==> !PatternMatches(k, raw)
    decreases |PatternLabels| - from
  {
    if from == |PatternLabels| then None
    else if PatternMatches(from, raw) then Some(from)
    else FirstMatch(raw, from + 1)
  }

  /** predictCondition's if-chain is the ordered table evaluated first match
      first, with the category label as the last resort. */
  lemma PredictConditionIsFirstMatch(raw: string, category: DetectedCategory)
    ensures PredictCondition(raw, category) ==
      match FirstMatch(raw, 0)
      case Some(k) => PatternLabels[k]
      case None => CategoryCondition(category.primary)
  {
    var r := FirstMatch(raw, 0);
    if r.Some? {
      var k := r.value;
      assert PatternMatches(k, raw);
      assert forall j :: 0 <= j < k ==> !PatternMatches(j, raw);
    } else {
      assert forall j :: 0 <= j < |PatternLabels| ==> !PatternMatches(j, raw);
      assert !PatternMatches(0, raw) && !PatternMatches(1, raw) && !PatternMatches(2, raw);
      assert !PatternMatches(3, raw) && !PatternMatches(4, raw) && !PatternMatches(5, raw);
      assert !PatternMatches(6, raw) && !PatternMatches(7, raw) && !PatternMatches(8, raw);
      assert !PatternMatches(9, raw) && !PatternMatches(10, raw);
    }
  }

  /** A throat symptom always predicts one of the two throat conditions, the
      plain sore throat one without fever. */
  lemma ThroatCondition(raw: string, category: DetectedCategory)
    requires Contains(raw, "throat")
    ensures !Contains(raw, "fever") ==> PredictCondition(raw, category) == "Sore Throat / Throat Irritation"
    ensures Contains(raw, "fever") ==> PredictCondition(raw, category) == "Acute Pharyngitis (Throat Infection)"
  {
  }

  /** Rule order matters: with a cough, chest pain reads as bronchitis rather
      than as a cardiac event, since "chest pain" contains "chest". */
  lemma CoughMasksChestPain(raw: string, category: DetectedCategory)
    requires Contains(raw, "cough") && Contains(raw, "chest pain")
    requires !Contains(raw, "throat") && !Contains(raw, "fever")
    ensures PredictCondition(raw, category) == "Bronchitis / Respiratory Infection"
  {
    assert Contains("chest pain", "chest") by {
      assert "chest pain"[0..5] == "chest";
      ContainsAt("chest pain", "chest", 0);
    }
    ContainsTrans(raw, "chest pain", "chest");
    assert !Contains(raw, "sore throat") by {
      if Contains(raw, "sore throat") {
        assert "sore throat"[5..11] == "throat";
        ContainsAt("sore throat", "throat", 5);
        ContainsTrans(raw, "sore throat", "throat");
      }
    }
  }

  /** The precaution table of getPrecautionsForCondition. */
  const PrecautionTable: map<string, seq<string>> := map[
    "Sore Throat / Throat Irritation" := [
      "Stay hydrated with warm fluids",
      "Gargle with warm salt water",
      "Rest your voice",
      "Avoid irritants like smoke"],
    "Common Cold / Viral Infection" := [
      "Get adequate rest",
      "Stay hydrated",
      "Use over-the-counter pain relievers if needed",
      "Practice good hand hygiene"],
    "Acute Respiratory Distress" := [
      "Seek immediate emergency care",
      "Sit upright to ease breathing",
      "Stay calm",
      "Do not delay medical attention"],
    "Cardiac Assessment Required" := [
      "Seek emergency medical evaluation immediately",
      "Do not exert yourself",
      "Sit or lie down",
      "Call emergency services if symptoms worsen"]]

  const DefaultPrecautions: seq<string> := [
    "Monitor your symptoms closely",
    "Stay hydrated and get adequate rest",
    "Consult a healthcare provider if symptoms worsen",
    "Seek immediate care for severe or worsening symptoms"]

  /** getPrecautionsForCondition: the table's list for a known condition,
      the generic four otherwise; always four items. */
  function PrecautionsFor(condition: string): (p: seq<string>)
    ensures |p| == 4
    ensures condition in PrecautionTable ==> p == PrecautionTable[condition]
    ensures condition !in PrecautionTable ==> p == DefaultPrecautions
  {
    if condition in PrecautionTable then PrecautionTable[condition] else DefaultPrecautions
  }

  // ---------------------------------------------------------------------
  // User category check and the pipeline (validateCategoryMatch,
  // applyMedicalAccuracySystem)
  // ---------------------------------------------------------------------

  const UserAllergyBlockers: seq<string> := ["chest pain", "fever", "breathless"]

  /** validateCategoryMatch: a user-chosen category is refused only when it is
      `allergy` and a blocker occurs. */
  function ValidateCategoryMatch(userCategory: string, raw: string): (ok: bool)
    ensures !ok <==> userCategory == "allergy" && AnyOccurs(raw, UserAllergyBlockers)
  {
    if userCategory == "allergy" && AnyOccurs(raw, UserAllergyBlockers) then false else true
  }

  datatype CategoryReport = CategoryReport(primary: string, secondary: Option<string>, detected: string)
  datatype EmergencyReport = EmergencyReport(status: bool, reason: string)
  datatype TriageResult = TriageResult(
    condition: string,
    category: CategoryReport,
    severity: int,
    risk: Risk,
    emergency: EmergencyReport,
    specialist: string,
    precautions: seq<string>,
    processedSymptoms: seq<string>,
    rawSymptoms: seq<string>)

  /** `symptoms.join(' ').toLowerCase()` */
  function RawText(symptoms: seq<string>): string {
    Lower(Join(symptoms, " "))
  }

  function OptionName(c: Option<Category>): Option<string> {
    match c
    case None => None
    case Some(x) => Some(x.Name())
  }

  /** The first-generation applyMedicalAccuracySystem. `normalize` stands for
      normalizeSymptom; age and gender are accepted and unused, as in the
      original. */
  method ApplyMedicalAccuracySystem(
    symptoms: seq<string>, age: int, gender: string, userCategory: string, normalize: string -> string)
    returns (r: TriageResult)
    ensures var raw := RawText(symptoms);
      && r.severity == MedicalSeverity(raw) && 0 <= r.severity <= 20
      && r.emergency.status == EmergencyOf(raw).isEmergency
      && r.emergency.reason == Join(EmergencyOf(raw).reasons, ", ")
      && r.risk == RiskLevel(r.severity, EmergencyOf(raw))
      && (r.emergency.status ==> r.risk == High && r.specialist == "Emergency Medicine Specialist")
      && r.specialist == SelectSpecialist(CategoryOf(raw), EmergencyOf(raw))
      && r.category.detected == CategoryOf(raw).primary.Name()
      && r.category.secondary == OptionName(CategoryOf(raw).secondary)
      && r.category.primary ==
           (if userCategory != "" && ValidateCategoryMatch(userCategory, raw) then userCategory
            else r.category.detected)
      && r.condition == PredictCondition(raw, CategoryOf(raw))
      && r.precautions == PrecautionsFor(r.condition)
      && r.processedSymptoms == seq(|symptoms|, i requires 0 <= i < |symptoms| => normalize(symptoms[i]))
      && r.rawSymptoms == symptoms
  {
    var processedSymptoms := seq(|symptoms|, i requires 0 <= i < |symptoms| => normalize(symptoms[i]));
    var rawStr := Lower(Join(symptoms, " "));

    var detectedCategory := DetectMedicalCategory(rawStr);
    var emergencyStatus := CheckEmergencyConditions(rawStr);
    var severityScore := CalculateMedicalSeverity(rawStr, emergencyStatus);
    var riskLevel := RiskLevel(severityScore, emergencyStatus);
    var specialist := SelectSpecialist(detectedCategory, emergencyStatus);
    var condition := PredictCondition(rawStr, detectedCategory);
    var isEmergency := emergencyStatus.isEmergency;
    var emergencyReason := Join(emergencyStatus.reasons, ", ");
    var precautions := PrecautionsFor(condition);

    var finalCategory := detectedCategory.primary.Name();
    if userCategory != "" && ValidateCategoryMatch(userCategory, rawStr) {
      finalCategory := userCategory;
    }

    r := TriageResult(
      condition,
      CategoryReport(finalCategory, OptionName(detectedCategory.secondary), detectedCategory.primary.Name()),
      severityScore,
      riskLevel,
      EmergencyReport(isEmergency, emergencyReason),
      specialist,
      precautions,
      processedSymptoms,
      symptoms);
  }

  /** The reported primary category is `allergy` only when none of
      "chest pain", "fever" and "breathless" occurs, whether it was detected
      or chosen by the user. */
  lemma PipelineAllergySafe(symptoms: seq<string>, userCategory: string)
    requires var raw := RawText(symptoms);
      (if userCategory != "" && ValidateCategoryMatch(userCategory, raw) then userCategory
       else CategoryOf(raw).primary.Name()) == "allergy"
    ensures !AnyOccurs(RawText(symptoms), UserAllergyBlockers)
  {
    var raw := RawText(symptoms);
    if !(userCategory != "" && ValidateCategoryMatch(userCategory, raw)) {
      assert CategoryOf(raw).primary == Allergy;
      if AnyOccurs(raw, UserAllergyBlockers) {
        var i :| 0 <= i < |UserAllergyBlockers| && Contains(raw, UserAllergyBlockers[i]);
        var j := if i == 0 then 0 else if i == 1 then 1 else 4;
        assert AllergyBlockers[j] == UserAllergyBlockers[i];
        AllergyNeverWithBlocker(raw);
      }
    }
  }
}
