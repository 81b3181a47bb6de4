/**
 * The deterministic tools of tools.py: knowledge search, the drug-interaction
 * rule, the guideline lookup with its remote service as an oracle, and the
 * two echo stubs for the health record and the scheduler.
 */
module Tools {
  import opened Wrappers
  import opened Text

  /**
   * An argument handed to a tool that coerces its input with `str(...)`:
   * `None`, a value together with the text `str()` gives for it, or a value
   * whose `__str__` raises.
   */
  datatype Arg = PyNone | Printable(text: string) | Unprintable

  /**
   * `str(x).strip()`, or `""` for `None`, replaced by `default` when empty;
   * `None` when the coercion itself raises.
   */
  function Normalise(a: Arg, default: string): (r: Option<string>)
    ensures r.None? <==> a.Unprintable?
    ensures r.Some? ==> (r.value == default || (a.Printable? && r.value == Strip(a.text)))
    ensures a.Printable? && Strip(a.text) != "" ==> r == Some(Strip(a.text))
    ensures (a.PyNone? || (a.Printable? && AllSpace(a.text))) ==> r == Some(default)
  {
    match a
    case PyNone => Some(default)
    case Unprintable => None
    case Printable(t) =>
      StripEmptyIff(t);
      var q := Strip(t);
      Some(if q == "" then default else q)
  }

  // ---------------------------------------------------------------------------
  // medical_knowledge_search

  const DefaultQuery := "presented symptoms"

  const KnowledgeAdvice :=
    " consider common and serious differentials; correlate with vitals, "
    + "onset, red flags (fever, neuro deficits), and patient comorbidities. Use evidence-based "
    + "sources and confirm with clinical guidelines."

  const KnowledgeFallback :=
    "Knowledge summary: review common causes and rule out emergencies; validate with guidelines and "
    + "clinical judgment."

  const KnowledgeLead := "Knowledge summary for "

  /** The opening of a knowledge summary: the lead, the query, a colon. */
  function KnowledgeHeading(q: string): (h: string)
    ensures |h| == |KnowledgeLead| + |q| + 1
    ensures KnowledgeLead <= h && h[|KnowledgeLead|..|h| - 1] == q && h[|h| - 1] == ':'
  {
    KnowledgeLead + q + ":"
  }

  /**
   * medical_knowledge_search: never fails; on the normal path the answer
   * opens with the heading for the normalised query, and when the query
   * cannot be turned into text it is the fixed fallback.
   */
  function MedicalKnowledgeSearch(query: Arg := Printable("")): (r: string)
    ensures r != []
    ensures query.Unprintable? ==> r == KnowledgeFallback
    ensures !query.Unprintable? ==>
      var q := Normalise(query, DefaultQuery).value;
      q != [] && Trimmed(q) && KnowledgeHeading(q) <= r
  {
    match Normalise(query, DefaultQuery)
    case None => KnowledgeFallback
    case Some(q) => KnowledgeHeading(q) + KnowledgeAdvice
  }

  /** The query that produced a knowledge summary can be read back from it. */
  lemma KnowledgeQueryRecoverable(a: Arg, b: Arg)
    requires !a.Unprintable? && !b.Unprintable?
    requires MedicalKnowledgeSearch(a) == MedicalKnowledgeSearch(b)
    ensures Normalise(a, DefaultQuery) == Normalise(b, DefaultQuery)
  {
    var qa, qb := Normalise(a, DefaultQuery).value, Normalise(b, DefaultQuery).value;
    MiddleCancels(KnowledgeLead, qa, qb, ":", KnowledgeAdvice);
  }

  /** Surrounding whitespace of the query makes no difference to the answer. */
  lemma KnowledgeSearchIgnoresPadding(t: string)
    ensures MedicalKnowledgeSearch(Printable(t)) == MedicalKnowledgeSearch(Printable(Strip(t)))
  {
    StripIdempotent(t);
  }

  // ---------------------------------------------------------------------------
  // drug_interaction_check

  datatype Severity = Low | Moderate {
    /** The `severity` string of the report. */
    function Label(): (r: string)
      ensures (r == "low") == Low? && (r == "moderate") == Moderate?
    {
      match this
      case Low => "low"
      case Moderate => "moderate"
    }
  }

  /** The `{"warnings": ..., "severity": ...}` dictionary the check returns. */
  datatype InteractionReport = InteractionReport(warnings: seq<string>, severity: Severity)

  const IbuprofenAspirinWarning :=
    "Caution combining ibuprofen and aspirin due to antiplatelet effect interference."

  /** Some entry of `meds` lower-cases to exactly `name`. */
  predicate Mentions(meds: seq<string>, name: string) {
    exists i :: 0 <= i < |meds| && Lower(meds[i]) == name
  }

  /**
   * drug_interaction_check: exactly one warning when the list names both
   * ibuprofen and aspirin (case-insensitively, no trimming), none otherwise;
   * the severity is moderate exactly when there is a warning.
   */
  function DrugInteractionCheck(meds: seq<string>): (r: InteractionReport)
    ensures |r.warnings| <= 1
    ensures r.warnings != [] <==> Mentions(meds, "ibuprofen") && Mentions(meds, "aspirin")
    ensures r.warnings != [] ==> r.warnings == [IbuprofenAspirinWarning]
    ensures r.severity == Moderate <==> r.warnings != []
  {
    var lowered := seq(|meds|, i requires 0 <= i < |meds| => Lower(meds[i]));
    var warnings :=
      if |meds| >= 2 && "ibuprofen" in lowered && "aspirin" in lowered
      then [IbuprofenAspirinWarning] else [];
    assert Mentions(meds, "ibuprofen") ==> "ibuprofen" in lowered by {
      if Mentions(meds, "ibuprofen") {
        var i :| 0 <= i < |meds| && Lower(meds[i]) == "ibuprofen";
        assert lowered[i] == "ibuprofen";
      }
    }
    assert Mentions(meds, "aspirin") ==> "aspirin" in lowered by {
      if Mentions(meds, "aspirin") {
        var i :| 0 <= i < |meds| && Lower(meds[i]) == "aspirin";
        assert lowered[i] == "aspirin";
      }
    }
    assert Mentions(meds, "ibuprofen") && Mentions(meds, "aspirin") ==> |meds| >= 2 by {
      if Mentions(meds, "ibuprofen") && Mentions(meds, "aspirin") {
        var i :| 0 <= i < |meds| && Lower(meds[i]) == "ibuprofen";
        var j :| 0 <= j < |meds| && Lower(meds[j]) == "aspirin";
        assert i != j;
      }
    }
    InteractionReport(warnings, if warnings == [] then Low else Moderate)
  }

  /** A list of fewer than two medications never raises a warning. */
  lemma ShortListNoWarning(meds: seq<string>)
    requires |meds| < 2
    ensures DrugInteractionCheck(meds).warnings == []
    ensures DrugInteractionCheck(meds).severity.Label() == "low"
  {
  }

  /** Lower-casing the list first does not change the verdict: the rule is case-insensitive. */
  lemma InteractionIgnoresCase(meds: seq<string>)
    ensures
      var lowered := seq(|meds|, i requires 0 <= i < |meds| => Lower(meds[i]));
      DrugInteractionCheck(lowered) == DrugInteractionCheck(meds)
  {
    var lowered := seq(|meds|, i requires 0 <= i < |meds| => Lower(meds[i]));
    forall i | 0 <= i < |meds| ensures Lower(lowered[i]) == Lower(meds[i]) {
      LowerIdempotent(meds[i]);
    }
    assert Mentions(lowered, "ibuprofen") == Mentions(meds, "ibuprofen");
    assert Mentions(lowered, "aspirin") == Mentions(meds, "aspirin");
  }

  /** Matching is exact: padding or an extra word defeats it. */
  lemma InteractionMatchIsExact()
    ensures DrugInteractionCheck(["Ibuprofen", "ASPIRIN"]).warnings == [IbuprofenAspirinWarning]
    ensures DrugInteractionCheck(["ibuprofen ", "aspirin"]).warnings == []
    ensures DrugInteractionCheck(["ibuprofen", "baby aspirin"]).warnings == []
  {
    var m0: seq<string> := ["Ibuprofen", "ASPIRIN"];
    assert Lower(m0[0]) == "ibuprofen";
    assert Lower(m0[1]) == "aspirin";
    var m1: seq<string> := ["ibuprofen ", "aspirin"];
    assert !Mentions(m1, "ibuprofen") by {
      assert |Lower(m1[0])| != |"ibuprofen"|;
      assert Lower(m1[1])[0] != 'i';
    }
    var m2: seq<string> := ["ibuprofen", "baby aspirin"];
    assert !Mentions(m2, "aspirin") by {
      assert Lower(m2[0])[0] != 'a';
      assert |Lower(m2[1])| != |"aspirin"|;
    }
  }

  // ---------------------------------------------------------------------------
  // clinical_guidelines_search

  /** GUIDELINES_API_URL and GUIDELINES_API_KEY, each possibly unset. */
  datatype GuidelinesConfig = GuidelinesConfig(apiUrl: Option<string>, apiKey: Option<string>)

  /** The GET request the lookup issues: URL, `q` parameter, Authorization header, timeout. */
  datatype GuidelineRequest = GuidelineRequest(url: string, query: string, authorization: string, timeoutSeconds: nat)

  /**
   * What the guideline service yields for a request: a non-OK status, an OK
   * JSON object with or without a string `summary`, or an exception (network
   * failure, timeout, undecodable or non-object body).
   */
  datatype HttpOutcome = NotOk | Ok(summary: Option<string>) | Raised

  const DefaultCondition := "the presented symptoms"

  const GuidelinesErrorTail :=
    ": follow standard supportive care; check for red flags and ensure timely follow-up."

  const GuidelinesErrorFallback := GuidelineLead + GuidelinesErrorTail

  /** The request URL: the base with trailing slashes removed, then `/guidelines`. */
  function GuidelinesUrl(base: string): (r: string)
    ensures |r| >= 11 && r[|r| - 11..] == "/guidelines"
    ensures r[..|r| - 11] <= base
    ensures r[..|r| - 11] == [] || r[|r| - 12] != '/'
    ensures forall i :: |r| - 11 <= i < |base| ==> base[i] == '/'
  {
    var stem := StripRightChar(base, '/');
    assert (stem + "/guidelines")[..|stem|] == stem;
    stem + "/guidelines"
  }

  /** However many slashes the configured base URL ends with, the request goes to the same URL. */
  lemma GuidelinesUrlIgnoresTrailingSlashes(base: string, slashes: string)
    requires forall i :: 0 <= i < |slashes| ==> slashes[i] == '/'
    ensures GuidelinesUrl(base + slashes) == GuidelinesUrl(base)
  {
    StripRightCharAppended(base, '/', slashes);
  }

  /** `GUIDELINES_API_URL and GUIDELINES_API_KEY`: both set and non-empty. */
  predicate Configured(config: GuidelinesConfig) {
    Filled(config.apiUrl) && Filled(config.apiKey)
  }

  const BearerLead := "Bearer "

  /** The request sent to a configured service for the normalised condition. */
  function RequestFor(config: GuidelinesConfig, cond: string): (q: GuidelineRequest)
    requires Configured(config)
    ensures q.url == GuidelinesUrl(config.apiUrl.value)
    ensures q.query == cond
    ensures BearerLead <= q.authorization && q.authorization[|BearerLead|..] == config.apiKey.value
    ensures q.timeoutSeconds == 10
  {
    GuidelineRequest(GuidelinesUrl(config.apiUrl.value), cond, BearerLead + config.apiKey.value, 10)
  }

  /** The service is configured, answers OK, and carries a non-empty summary. */
  predicate RemoteAnswered(config: GuidelinesConfig, service: GuidelineRequest -> HttpOutcome, cond: string) {
    Configured(config)
    && var outcome := service(RequestFor(config, cond));
    outcome.Ok? && Filled(outcome.summary)
  }

  const GuidelineAdvice :=
    "use evidence-based protocols; consider red flags, "
    + "patient comorbidities (e.g., hypertension), and follow-up within appropriate timelines."

  const GuidelineLead := "Guideline summary"

  function GuidelineHeading(cond: string): string {
    GuidelineLead + (" for " + cond + ": ")
  }

  /** The fallback text: the heading for the condition, then the fixed advice. */
  function LocalGuideline(cond: string): (r: string)
    ensures GuidelineHeading(cond) <= r && r[|GuidelineHeading(cond)|..] == GuidelineAdvice
  {
    GuidelineHeading(cond) + GuidelineAdvice
  }

  /** The remote text: the heading for the condition, then the service's summary verbatim. */
  function RemoteGuideline(cond: string, summary: string): (r: string)
    ensures GuidelineHeading(cond) <= r && r[|GuidelineHeading(cond)|..] == summary
  {
    GuidelineHeading(cond) + summary
  }

  /**
   * clinical_guidelines_search: the remote summary is used exactly when the
   * service is configured, answers OK and gives a non-empty summary; every
   * other path falls back to the local text for the normalised condition.
   */
  function ClinicalGuidelinesSearch(condition: Arg := Printable(""), config: GuidelinesConfig, service: GuidelineRequest -> HttpOutcome): (r: string)
    ensures condition.Unprintable? ==> r == GuidelinesErrorFallback
    ensures !condition.Unprintable? ==>
      var cond := Normalise(condition, DefaultCondition).value;
      cond != [] &&
      (RemoteAnswered(config, service, cond) ==>
         r == RemoteGuideline(cond, service(RequestFor(config, cond)).summary.value)) &&
      (!RemoteAnswered(config, service, cond) ==> r == LocalGuideline(cond))
  {
    match Normalise(condition, DefaultCondition)
    case None => GuidelinesErrorFallback
    case Some(cond) =>
      if Filled(config.apiUrl) && Filled(config.apiKey) then
        match service(RequestFor(config, cond))
        case Ok(summary) =>
          if Filled(summary) then RemoteGuideline(cond, summary.value) else LocalGuideline(cond)
        case NotOk => LocalGuideline(cond)
        case Raised => LocalGuideline(cond)
      else
        LocalGuideline(cond)
  }

  /** Whatever path is taken, the answer is a guideline summary. */
  lemma GuidelineAlwaysSummary(condition: Arg, config: GuidelinesConfig, service: GuidelineRequest -> HttpOutcome)
    ensures GuidelineLead <= ClinicalGuidelinesSearch(condition, config, service)
  {
    var r := ClinicalGuidelinesSearch(condition, config, service);
    if !condition.Unprintable? {
      var cond := Normalise(condition, DefaultCondition).value;
      var rest := if RemoteAnswered(config, service, cond)
        then service(RequestFor(config, cond)).summary.value else GuidelineAdvice;
      assert r == GuidelineHeading(cond) + rest;
      PrefixOfAppend(GuidelineLead, GuidelineHeading(cond), rest);
    } else {
      PrefixOfAppend(GuidelineLead, GuidelineLead, GuidelinesErrorTail);
    }
  }

  lemma PrefixOfAppend(a: string, b: string, c: string)
    requires a <= b
    ensures a <= b + c
  {
    assert (b + c)[..|a|] == b[..|a|];
  }

  /** Without both URL and key the service is never consulted: its answers cannot matter. */
  lemma UnconfiguredIgnoresService(condition: Arg, config: GuidelinesConfig,
                                   s1: GuidelineRequest -> HttpOutcome, s2: GuidelineRequest -> HttpOutcome)
    requires !Configured(config)
    ensures ClinicalGuidelinesSearch(condition, config, s1) == ClinicalGuidelinesSearch(condition, config, s2)
  {
  }

  // ---------------------------------------------------------------------------
  // electronic_health_record_access and appointment_scheduling

  datatype HealthRecord = HealthRecord(
    patientId: string,
    allergies: seq<string>,
    chronicConditions: seq<string>,
    medications: seq<string>,
    familyHistory: seq<string>)

  /** electronic_health_record_access: echoes the id with the fixed demo record. */
  function ElectronicHealthRecordAccess(patientId: string): (r: HealthRecord)
    ensures r.patientId == patientId
    ensures r.allergies == ["penicillin"] && r.chronicConditions == ["hypertension"]
    ensures r.medications == ["lisinopril"] && r.familyHistory == ["diabetes"]
  {
    HealthRecord(patientId, ["penicillin"], ["hypertension"], ["lisinopril"], ["diabetes"])
  }

  /** Any two records differ only in the echoed patient id. */
  lemma HealthRecordOnlyEchoesId(p: string, q: string)
    ensures ElectronicHealthRecordAccess(p).(patientId := q) == ElectronicHealthRecordAccess(q)
  {
  }

  datatype Appointment = Appointment(specialty: string, urgency: string, scheduled: bool, date: string, notes: string)

  /** appointment_scheduling: echoes specialty and urgency, always scheduled on the fixed date. */
  function AppointmentScheduling(specialty: string, urgency: string): (r: Appointment)
    ensures r.specialty == specialty && r.urgency == urgency
    ensures r.scheduled && r.date == "2025-10-05"
    ensures r.notes == "Stubbed appointment scheduled via demo scheduler."
  {
    Appointment(specialty, urgency, true, "2025-10-05", "Stubbed appointment scheduled via demo scheduler.")
  }

  /** Any two confirmations differ only in the echoed specialty and urgency. */
  lemma AppointmentOnlyEchoesRequest(s1: string, u1: string, s2: string, u2: string)
    ensures AppointmentScheduling(s1, u1).(specialty := s2, urgency := u2) == AppointmentScheduling(s2, u2)
  {
  }
}
