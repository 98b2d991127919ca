/** The symptom normalisation table (NORMALIZATION_MAP): colloquial phrases
    and the canonical dictionary symptom each stands for. The function that
    applies it is not part of this model; what is stated here holds of the
    table itself. */
module Normalization {
  import opened Text
  import opened SafetyLayer

  const BreathingKeys: seq<string> := [
    "difficulty breathing", "severe shortness of breath", "breathing difficulty", "can't breathe",
    "cannot breathe", "can't catch breath", "gasping", "breathless", "severe breathing problems",
    "hard to breathe", "trouble breathing", "shortness of breath"]

  const ChestKeys: seq<string> := ["chest tightness", "tight chest", "chest pressure", "chest discomfort"]

  const ThroatKeys: seq<string> := [
    "pain in throat", "throat pain", "throught", "sore throat", "throat hurting", "throat ache",
    "painful throat"]

  const NormalizationMap: map<string, string> := map[
    "difficulty breathing" := "breathlessness",
    "severe shortness of breath" := "breathlessness",
    "breathing difficulty" := "breathlessness",
    "can't breathe" := "breathlessness",
    "cannot breathe" := "breathlessness",
    "chest tightness" := "chest_pain",
    "tight chest" := "chest_pain",
    "can't catch breath" := "breathlessness",
    "gasping" := "breathlessness",
    "breathless" := "breathlessness",
    "severe breathing problems" := "breathlessness",
    "hard to breathe" := "breathlessness",
    "trouble breathing" := "breathlessness",
    "shortness of breath" := "breathlessness",
    "pain in throat" := "throat_irritation",
    "throat pain" := "throat_irritation",
    "throught" := "throat_irritation",
    "sore throat" := "throat_irritation",
    "throat hurting" := "throat_irritation",
    "throat ache" := "throat_irritation",
    "painful throat" := "throat_irritation",
    "chest pressure" := "chest_pain",
    "chest discomfort" := "chest_pain",
    "head pain" := "headache",
    "body pain" := "muscle_pain",
    "stomach ache" := "stomach_pain",
    "belly pain" := "stomach_pain",
    "runny nose" := "runny_nose",
    "stuffy nose" := "congestion"]

  /** The table's image of a phrase, or the phrase itself when the table has
      no entry for it. */
  function TableImage(s: string): (r: string)
    ensures s !in NormalizationMap ==> r == s
    ensures r == s || r in NormalizationMap.Values
  {
    if s in NormalizationMap then NormalizationMap[s] else s
  }

  /** No canonical symptom is itself a colloquial key, so applying the table
      twice is applying it once. */
  lemma TableImageIdempotent(s: string)
    ensures TableImage(TableImage(s)) == TableImage(s)
  {
    if s in NormalizationMap {
      var v := NormalizationMap[s];
      assert v in {"breathlessness", "chest_pain", "throat_irritation", "headache", "muscle_pain",
        "stomach_pain", "runny_nose", "congestion"};
    }
  }

  /** Every breathing phrase becomes "breathlessness". */
  lemma BreathingImage(i: nat)
    requires i < |BreathingKeys|
    ensures TableImage(BreathingKeys[i]) == "breathlessness"
  {
  }

  /** Every chest phrase becomes "chest_pain". */
  lemma ChestImage(i: nat)
    requires i < |ChestKeys|
    ensures TableImage(ChestKeys[i]) == "chest_pain"
  {
  }

  /** A throat phrase is never sent to the digestive dictionary: it becomes
      "throat_irritation", a core respiratory symptom and not a core
      digestive one. */
  lemma ThroatImage(i: nat)
    requires i < |ThroatKeys|
    ensures TableImage(ThroatKeys[i]) == "throat_irritation"
    ensures TableImage(ThroatKeys[i]) in Core(Respiratory)
    ensures TableImage(ThroatKeys[i]) !in Core(Gi)
  {
  }
}
