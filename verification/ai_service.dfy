/** The rule engine of api/ai_service.py: from the set of object labels an image detector
    reported to a classification and a suggested action. The detector itself is not modelled;
    its output reaches the engine as an arbitrary collection of labels. */
module AiService {

  /** The labels the detector reported, in the order Python's set happens to iterate them.
      The engine treats it as a set, except that with no preferred class present it classifies
      the report by whichever label the iteration yields first. */
  type Labels = seq<string>

  /** The engine's answer. It has no priority: that is decided elsewhere. */
  datatype Analysis = Analysis(classification: string, suggestion: string)

  const Unclassified: string := "Unclassified"
  const ManualReview: string := "Requires manual review by an admin."
  const RoutineInspection: string := "Schedule for routine inspection."
  const EmergencyDispatch: string := "Dispatch emergency crew immediately. Potential public safety hazard."
  const SpecialisedCrew: string := "Assign a specialized crew for inspection within 24 hours."
  const TreeTrimming: string := "Assign to a tree-trimming crew for routine maintenance."

  /** Labels that call for an emergency crew, whatever else is seen. */
  const EmergencyLabels: set<string> := {"Sparks", "Fire", "Fallen Line", "Broken Pole"}
  /** Labels that call for a specialised crew within a day. */
  const UrgentLabels: set<string> := {"Leaning Pole", "Damaged Transformer"}
  const Vegetation: string := "Vegetation Overgrowth"

  /** True when some label of `kinds` was detected. */
  predicate AnyDetected(detected: Labels, kinds: set<string>) {
    exists l :: l in kinds && l in detected
  }

  /** The suggestion the rules pick for a non-empty detection, emergencies first. */
  function SuggestionFor(detected: Labels): string {
    if "Sparks" in detected || "Fire" in detected || "Fallen Line" in detected || "Broken Pole" in detected then
      EmergencyDispatch
    else if "Leaning Pole" in detected || "Damaged Transformer" in detected then
      SpecialisedCrew
    else if Vegetation in detected then
      TreeTrimming
    else
      RoutineInspection
  }

  /** The main category for a non-empty detection: Transformer, else Electric Pole, else the first label. */
  function MainCategory(detected: Labels): string
    requires |detected| > 0
  {
    if "Transformer" in detected then "Transformer"
    else if "Electric Pole" in detected then "Electric Pole"
    else detected[0]
  }

  /** determine_classification_and_suggestion. */
  function DetermineClassificationAndSuggestion(detected: Labels): (a: Analysis)
    ensures |detected| == 0 <==> a == Analysis(Unclassified, ManualReview)
    ensures |detected| > 0 ==> a.classification in detected
    ensures |detected| > 0 ==> (a.suggestion == EmergencyDispatch <==> AnyDetected(detected, EmergencyLabels))
    ensures |detected| > 0 ==>
      (a.suggestion == SpecialisedCrew <==> !AnyDetected(detected, EmergencyLabels) && AnyDetected(detected, UrgentLabels))
    ensures |detected| > 0 ==>
      (a.suggestion == TreeTrimming <==>
        !AnyDetected(detected, EmergencyLabels) && !AnyDetected(detected, UrgentLabels) && Vegetation in detected)
    ensures |detected| > 0 ==>
      (a.suggestion == RoutineInspection <==>
        !AnyDetected(detected, EmergencyLabels + UrgentLabels) && Vegetation !in detected)
    ensures "Transformer" in detected ==> a.classification == "Transformer"
    ensures "Transformer" !in detected && "Electric Pole" in detected ==> a.classification == "Electric Pole"
  {
    if |detected| == 0 then
      Analysis(Unclassified, ManualReview)
    else
      assert detected[0] in detected;
      Analysis(MainCategory(detected), SuggestionFor(detected))
  }

  // ---------------------------------------------------------------------------
  // Properties
  // ---------------------------------------------------------------------------

  /** How pressing a suggestion is: 0 for manual review, 1 routine, 2 tree trimming, 3 specialised, 4 emergency. */
  function Urgency(suggestion: string): nat {
    if suggestion == EmergencyDispatch then 4
    else if suggestion == SpecialisedCrew then 3
    else if suggestion == TreeTrimming then 2
    else if suggestion == RoutineInspection then 1
    else 0
  }

  /** Seeing more never makes the advice less urgent: an emergency label outranks every other rule. */
  lemma MoreLabelsNeverLessUrgent(d1: Labels, d2: Labels)
    requires |d1| > 0
    requires forall l :: l in d1 ==> l in d2
    ensures Urgency(DetermineClassificationAndSuggestion(d1).suggestion)
         <= Urgency(DetermineClassificationAndSuggestion(d2).suggestion)
  {
    assert d1[0] in d2;
    var a1, a2 := DetermineClassificationAndSuggestion(d1), DetermineClassificationAndSuggestion(d2);
    if AnyDetected(d1, EmergencyLabels) {
      var l :| l in EmergencyLabels && l in d1;
      assert l in d2;
    } else if AnyDetected(d1, UrgentLabels) {
      var l :| l in UrgentLabels && l in d1;
      assert l in d2;
    } else if Vegetation in d1 {
      assert Vegetation in d2;
    }
  }

  /** The suggestion depends only on which labels were seen, not on the order the set yields
      them; so does the classification whenever Transformer or Electric Pole is among them. */
  lemma OrderOnlyAffectsFallbackClassification(d1: Labels, d2: Labels)
    requires forall l :: l in d1 <==> l in d2
    ensures DetermineClassificationAndSuggestion(d1).suggestion == DetermineClassificationAndSuggestion(d2).suggestion
    ensures "Transformer" in d1 || "Electric Pole" in d1 ==>
      DetermineClassificationAndSuggestion(d1) == DetermineClassificationAndSuggestion(d2)
  {
    if |d1| > 0 {
      assert d1[0] in d2;
    }
    if |d2| > 0 {
      assert d2[0] in d1;
    }
  }

  /** With neither preferred class present, any detected label may become the classification,
      depending on the iteration order alone. */
  lemma FallbackClassificationIsFirstLabel(detected: Labels)
    requires |detected| > 0
    requires "Transformer" !in detected && "Electric Pole" !in detected
    ensures DetermineClassificationAndSuggestion(detected).classification == detected[0]
  {
  }
}
