/**
 * The backend's deterministic triage scorer and keyword advisal, the
 * functions the intake handler falls back on when no language model is
 * configured.
 */
module Triage {
  import Text

  /** What a scorer reports about one intake. */
  datatype Analysis = Analysis(
    triageScore: int,
    urgencyClassification: string,
    reasoning: string,
    priorityFactors: seq<string>)

  /** Score adjustment for the visit type, compared after lower-casing. */
  function VisitTypeAdjustment(visitType: string): int {
    var t := Text.Lower(visitType);
    if t == "emergency" then 50
    else if t == "follow-up" then 20
    else if t == "advisal" then -10
    else 0
  }

  /** Short visits (at most 15 minutes) get a small priority bonus. */
  function DurationAdjustment(estimatedDuration: int): int {
    if estimatedDuration <= 15 then 5 else 0
  }

  /**
   * Fallback triage: ten points per self-reported urgency level plus the
   * visit-type and duration adjustments; never clamped, always "routine".
   */
  function FallbackTriage(urgencyLevel: int, visitType: string, estimatedDuration: int): (a: Analysis)
    ensures a.urgencyClassification == "routine"
    ensures a.reasoning == "Fallback calculation used"
    ensures a.priorityFactors == ["self-reported urgency", "visit type"]
    ensures -10 <= a.triageScore - 10 * urgencyLevel <= 55
  {
    Analysis(
      urgencyLevel * 10 + VisitTypeAdjustment(visitType) + DurationAdjustment(estimatedDuration),
      "routine",
      "Fallback calculation used",
      ["self-reported urgency", "visit type"])
  }

  /** The score table: each visit type's offset from ten points per urgency level. */
  lemma FallbackScoreTable(urgencyLevel: int, visitType: string, estimatedDuration: int)
    ensures var score := FallbackTriage(urgencyLevel, visitType, estimatedDuration).triageScore;
            var bonus := if estimatedDuration <= 15 then 5 else 0;
            && (Text.Lower(visitType) == "emergency" ==> score == 10 * urgencyLevel + 50 + bonus)
            && (Text.Lower(visitType) == "follow-up" ==> score == 10 * urgencyLevel + 20 + bonus)
            && (Text.Lower(visitType) == "advisal" ==> score == 10 * urgencyLevel - 10 + bonus)
            && (Text.Lower(visitType) !in {"emergency", "follow-up", "advisal"} ==> score == 10 * urgencyLevel + bonus)
  {
  }

  /** One more urgency level adds exactly ten points, whatever the visit. */
  lemma FallbackScoreStep(urgencyLevel: int, visitType: string, estimatedDuration: int)
    ensures FallbackTriage(urgencyLevel + 1, visitType, estimatedDuration).triageScore
            == FallbackTriage(urgencyLevel, visitType, estimatedDuration).triageScore + 10
  {
  }

  /** The score never decreases as the self-reported urgency rises. */
  lemma FallbackScoreMonotone(u1: int, u2: int, visitType: string, estimatedDuration: int)
    requires u1 <= u2
    ensures FallbackTriage(u1, visitType, estimatedDuration).triageScore
            <= FallbackTriage(u2, visitType, estimatedDuration).triageScore
  {
  }

  /** The visit type is compared without regard to ASCII case. */
  lemma FallbackCaseInsensitive(urgencyLevel: int, t1: string, t2: string, estimatedDuration: int)
    requires Text.Lower(t1) == Text.Lower(t2)
    ensures FallbackTriage(urgencyLevel, t1, estimatedDuration) == FallbackTriage(urgencyLevel, t2, estimatedDuration)
  {
  }

  /**
   * With the form's ranges (urgency 1..10, 10..60 minutes) the fallback
   * score lies in 0..155, and both ends are reached: it is not confined to
   * 0..100.
   */
  lemma FallbackScoreRange(urgencyLevel: int, visitType: string, estimatedDuration: int)
    requires 1 <= urgencyLevel <= 10 && 10 <= estimatedDuration <= 60
    ensures 0 <= FallbackTriage(urgencyLevel, visitType, estimatedDuration).triageScore <= 155
    ensures FallbackTriage(1, "advisal", 60).triageScore == 0
    ensures FallbackTriage(10, "emergency", 10).triageScore == 155
  {
    assert Text.Lower("advisal") == "advisal";
    assert Text.Lower("emergency") == "emergency";
  }

  // ---------------------------------------------------------------------
  // Advisal messages
  // ---------------------------------------------------------------------

  const MonitoringAdvice := "Please continue monitoring your condition and follow up with the doctor as scheduled."
  const FeverAdvice := "For fever, ensure adequate rest and hydration. Monitor temperature regularly and seek immediate care if it exceeds 104\U{00B0}F or persists beyond 3 days."
  const PainAdvice := "For pain management, avoid any strenuous activity that may exacerbate symptoms. Apply ice if applicable (15 minutes on, 15 minutes off) and monitor for changes."
  const RespiratoryAdvice := "Rest and hydration are key for respiratory symptoms. Use steam inhalation and monitor for difficulty breathing."
  const GeneralAdvice := "Please monitor your symptoms carefully and report any significant changes to your healthcare provider."

  /**
   * Keyword advisal: empty symptoms get the monitoring message; otherwise the
   * first of fever, pain, cough-or-cold found in the lower-cased text picks
   * the message, and the general message covers the rest. The visit type is
   * accepted and not consulted.
   */
  function AdvisalFallback(symptoms: string, visitType: string): string {
    if symptoms == [] then MonitoringAdvice
    else
      var lower := Text.Lower(symptoms);
      if Text.Contains(lower, "fever") then FeverAdvice
      else if Text.Contains(lower, "pain") then PainAdvice
      else if Text.Contains(lower, "cough") || Text.Contains(lower, "cold") then RespiratoryAdvice
      else GeneralAdvice
  }

  /** `word` appears somewhere in the lower-cased symptoms. */
  ghost predicate Mentions(symptoms: string, word: string) {
    exists i :: Text.OccursAt(Text.Lower(symptoms), word, i)
  }

  /** Which message the advisal picks, stated over occurrences of the keywords. */
  lemma AdvisalChoice(symptoms: string, visitType: string)
    ensures var m := AdvisalFallback(symptoms, visitType);
            && (m == MonitoringAdvice <==> symptoms == [])
            && (m == FeverAdvice <==> symptoms != [] && Mentions(symptoms, "fever"))
            && (m == PainAdvice <==> symptoms != [] && !Mentions(symptoms, "fever") && Mentions(symptoms, "pain"))
            && (m == RespiratoryAdvice <==>
                  symptoms != [] && !Mentions(symptoms, "fever") && !Mentions(symptoms, "pain")
                  && (Mentions(symptoms, "cough") || Mentions(symptoms, "cold")))
            && (m == GeneralAdvice <==>
                  symptoms != [] && !Mentions(symptoms, "fever") && !Mentions(symptoms, "pain")
                  && !Mentions(symptoms, "cough") && !Mentions(symptoms, "cold"))
  {
    var lower := Text.Lower(symptoms);
    Text.ContainsIff(lower, "fever");
    Text.ContainsIff(lower, "pain");
    Text.ContainsIff(lower, "cough");
    Text.ContainsIff(lower, "cold");
    // the five messages have five different lengths
    assert |MonitoringAdvice| == 85 && |FeverAdvice| == 147 && |PainAdvice| == 160;
    assert |RespiratoryAdvice| == 111 && |GeneralAdvice| == 102;
  }

  /** Symptoms that differ only in ASCII case get the same advisal. */
  lemma AdvisalCaseInsensitive(s1: string, s2: string, visitType: string)
    requires Text.Lower(s1) == Text.Lower(s2)
    ensures AdvisalFallback(s1, visitType) == AdvisalFallback(s2, visitType)
  {
    assert |s1| == |Text.Lower(s1)| == |Text.Lower(s2)| == |s2|;
  }
}
