/**
 * safety.py: the recommendation validator, which rejects a negative dose and
 * turns every internal error into a rejection, and the emergency alert text.
 */
module Safety {

  /**
   * The value `med.get("dose_mg")` yields: `None` (key missing or null), a
   * number, or some other value with its Python truthiness. Comparing a
   * truthy non-number with 0 raises, as `"5" < 0` does.
   */
  datatype Dose = NoDose | Number(mg: real) | Other(truthy: bool)

  /** An entry of the medications list: a mapping, or a value without `.get`. */
  datatype Medication = MedicationDict(dose: Dose) | NotMapping

  /**
   * What `recommendation.get("medications", [])` gives: the key is absent,
   * it holds an iterable yielding these entries, or a value that cannot be
   * iterated (such as `None`).
   */
  datatype Medications = Absent | Entries(entries: seq<Medication>) | NotIterable

  /** The recommendation passed in: a mapping, or a value without `.get`. */
  datatype Recommendation = RecommendationDict(medications: Medications) | NotMappingRecommendation

  /** The loop body stops at this entry: `dose and dose < 0` holds, or raises. */
  predicate Rejects(m: Medication) {
    match m
    case NotMapping => true
    case MedicationDict(d) =>
      match d
      case NoDose => false
      case Number(mg) => mg != 0.0 && mg < 0.0
      case Other(truthy) => truthy
  }

  /** The verdict: the medications can be walked, and no entry stops the walk. */
  predicate Passes(rec: Recommendation) {
    match rec
    case NotMappingRecommendation => false
    case RecommendationDict(meds) =>
      match meds
      case Absent => true
      case NotIterable => false
      case Entries(es) => forall i :: 0 <= i < |es| ==> !Rejects(es[i])
  }

  /**
   * validate_medical_recommendation: walks the medications in order and
   * answers false at the first entry with a negative dose or one that makes
   * the check raise; true when the walk completes.
   */
  method ValidateMedicalRecommendation(rec: Recommendation) returns (ok: bool)
    ensures ok == Passes(rec)
  {
    if rec.NotMappingRecommendation? {
      return false;
    }
    var meds := rec.medications;
    if meds.Absent? {
      return true;
    }
    if meds.NotIterable? {
      return false;
    }
    var es := meds.entries;
    var i := 0;
    while i < |es|
      invariant 0 <= i <= |es|
      invariant forall j :: 0 <= j < i ==> !Rejects(es[j])
    {
      var med := es[i];
      if med.NotMapping? {
        return false;
      }
      var dose := med.dose;
      match dose {
        case NoDose =>
        case Number(mg) =>
          if mg != 0.0 && mg < 0.0 {
            return false;
          }
        case Other(truthy) =>
          if truthy {
            return false;
          }
      }
      i := i + 1;
    }
    return true;
  }

  /** A negative dose anywhere in the list fails validation. */
  lemma NegativeDoseFails(es: seq<Medication>, k: nat, mg: real)
    requires k < |es| && es[k] == MedicationDict(Number(mg)) && mg < 0.0
    ensures !Passes(RecommendationDict(Entries(es)))
  {
  }

  /** A zero, null or missing dose never fails: the `dose and` guard skips it. */
  lemma HarmlessDoses(mg: real)
    requires mg >= 0.0
    ensures !Rejects(MedicationDict(NoDose))
    ensures !Rejects(MedicationDict(Number(mg)))
    ensures !Rejects(MedicationDict(Other(false)))
  {
  }

  /** No medications key, or an empty list, passes. */
  lemma NothingToCheckPasses()
    ensures Passes(RecommendationDict(Absent))
    ensures Passes(RecommendationDict(Entries([])))
  {
  }

  /** Errors are swallowed as rejections: malformed input always fails. */
  lemma ErrorsFail(es: seq<Medication>, k: nat)
    requires k < |es| && (es[k].NotMapping? || es[k] == MedicationDict(Other(true)))
    ensures !Passes(RecommendationDict(Entries(es)))
    ensures !Passes(RecommendationDict(NotIterable))
    ensures !Passes(NotMappingRecommendation)
  {
  }

  /**
   * The verdict does not depend on where an entry sits: any reordering of the
   * medications list gets the same answer.
   */
  lemma VerdictIgnoresOrder(es: seq<Medication>, fs: seq<Medication>)
    requires multiset(es) == multiset(fs)
    ensures Passes(RecommendationDict(Entries(es))) == Passes(RecommendationDict(Entries(fs)))
  {
    forall m | m in es ensures m in fs {
      assert m in multiset(es);
    }
    forall m | m in fs ensures m in es {
      assert m in multiset(fs);
    }
    if !Passes(RecommendationDict(Entries(es))) {
      var i :| 0 <= i < |es| && Rejects(es[i]);
      assert es[i] in fs;
    }
    if !Passes(RecommendationDict(Entries(fs))) {
      var i :| 0 <= i < |fs| && Rejects(fs[i]);
      assert fs[i] in es;
    }
  }

  /** Validating two lists together is validating each. */
  lemma VerdictSplits(es: seq<Medication>, fs: seq<Medication>)
    ensures Passes(RecommendationDict(Entries(es + fs)))
         == (Passes(RecommendationDict(Entries(es))) && Passes(RecommendationDict(Entries(fs))))
  {
    var all := es + fs;
    assert forall i :: 0 <= i < |es| ==> all[i] == es[i];
    assert forall i :: 0 <= i < |fs| ==> all[|es| + i] == fs[i];
  }

  // ---------------------------------------------------------------------------
  // emergency_alert_system

  const AlertLead := "EMERGENCY ALERT: Immediate physician review required for condition: "

  /** emergency_alert_system: the fixed alert lead followed by the condition. */
  function EmergencyAlertSystem(condition: string): (r: string)
    ensures AlertLead <= r
    ensures |r| == |AlertLead| + |condition|
  {
    AlertLead + condition
  }

  /** The condition is recoverable from the alert: the text after the lead is exactly it. */
  lemma AlertNamesCondition(condition: string)
    ensures EmergencyAlertSystem(condition)[|AlertLead|..] == condition
  {
  }

  /** Distinct conditions give distinct alerts. */
  lemma AlertInjective(c1: string, c2: string)
    requires EmergencyAlertSystem(c1) == EmergencyAlertSystem(c2)
    ensures c1 == c2
  {
    AlertNamesCondition(c1);
    AlertNamesCondition(c2);
  }
}
