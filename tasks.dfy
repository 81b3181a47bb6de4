/**
 * tasks.py: the seven task records. Each has a prompt template whose `{name}`
 * fields the caller's inputs fill, the agent that runs it, and a
 * description of the output expected from it.
 */
module Tasks {
  import opened Agents

  /** The caller inputs a template can name, each with the key it is written as between braces. */
  datatype Input =
    | Symptoms | Demographics | History | Medications | WorkingDifferential
    | DiagnosisSummary | ProposedMedications | Allergies | Conditions
    | TreatmentPlan | ReferralPlan | ClinicalSummary
  {
    function Key(): string {
      match this
      case Symptoms => "symptoms"
      case Demographics => "demographics"
      case History => "history"
      case Medications => "medications"
      case WorkingDifferential => "working_differential"
      case DiagnosisSummary => "diagnosis_summary"
      case ProposedMedications => "proposed_medications"
      case Allergies => "allergies"
      case Conditions => "conditions"
      case TreatmentPlan => "treatment_plan"
      case ReferralPlan => "referral_plan"
      case ClinicalSummary => "clinical_summary"
    }
  }

  /** No two inputs share a key, so `format(**inputs)` fills every field unambiguously. */
  lemma KeysDistinct(x: Input, y: Input)
    requires x.Key() == y.Key()
    ensures x == y
  {
  }

  /** A piece of a prompt template: fixed text, or a `{key}` field to be filled in. */
  datatype Segment = Literal(text: string) | Field(input: Input)

  type Template = seq<Segment>

  /**
   * A task: its description is the instruction text followed by the
   * labelled `{key}` lines of its template.
   */
  datatype Task = Task(instructions: string, template: Template, agent: Agent, expectedOutput: string)

  /** The names of the fields a template carries. */
  function Placeholders(t: Template): set<Input> {
    if t == [] then {}
    else (if t[0].Field? then {t[0].input} else {}) + Placeholders(t[1..])
  }

  /** A template's placeholders are exactly the inputs it carries a field for. */
  lemma {:induction false} PlaceholdersAreFields(t: Template)
    ensures forall x :: x in Placeholders(t) <==> Field(x) in t
  {
    if t != [] {
      PlaceholdersAreFields(t[1..]);
      assert t == [t[0]] + t[1..];
    }
  }

  /** The instruction text opening each template: prompt wording, left unspecified. */
  const SymptomAnalysisIntro: string
  const HistoryReviewIntro: string
  const TreatmentRecommendationIntro: string
  const ReferralAssessmentIntro: string
  const DrugSafetyCheckIntro: string
  const FollowUpSchedulingIntro: string
  const PatientCommunicationIntro: string

  const SymptomAnalysisTemplate: Template :=
    [ Literal("Patient Symptoms: "),
      Field(Symptoms),
      Literal("\nDemographics: "),
      Field(Demographics),
      Literal("\n") ]

  const SymptomAnalysisTask := Task(
    SymptomAnalysisIntro,
    SymptomAnalysisTemplate,
    SymptomAnalyzer,
    "Structured symptom analysis with differential diagnosis list")

  const HistoryReviewTemplate: Template :=
    [ Literal("History: "),
      Field(History),
      Literal("\nCurrent Medications: "),
      Field(Medications),
      Literal("\n") ]

  const HistoryReviewTask := Task(
    HistoryReviewIntro,
    HistoryReviewTemplate,
    HistoryReviewer,
    "Comprehensive medical history summary with risk assessment")

  const TreatmentRecommendationTemplate: Template :=
    [ Literal("Working Differential: "),
      Field(WorkingDifferential),
      Literal("\n") ]

  const TreatmentRecommendationTask := Task(
    TreatmentRecommendationIntro,
    TreatmentRecommendationTemplate,
    TreatmentAgent,
    "Detailed treatment plan with alternatives and monitoring")

  const ReferralAssessmentTemplate: Template :=
    [ Literal("Diagnosis Summary: "),
      Field(DiagnosisSummary),
      Literal("\n") ]

  const ReferralAssessmentTask := Task(
    ReferralAssessmentIntro,
    ReferralAssessmentTemplate,
    ReferralAgent,
    "Referral plan with specialty, urgency, and any scheduling steps")

  const DrugSafetyCheckTemplate: Template :=
    [ Literal("Proposed Medications: "),
      Field(ProposedMedications),
      Literal("\nAllergies: "),
      Field(Allergies),
      Literal("\nConditions: "),
      Field(Conditions),
      Literal("\n") ]

  const DrugSafetyCheckTask := Task(
    DrugSafetyCheckIntro,
    DrugSafetyCheckTemplate,
    InteractionChecker,
    "List of interaction warnings, contraindications, and dosing considerations")

  const FollowUpSchedulingTemplate: Template :=
    [ Literal("Treatment Plan: "),
      Field(TreatmentPlan),
      Literal("\nReferral Plan: "),
      Field(ReferralPlan),
      Literal("\n") ]

  const FollowUpSchedulingTask := Task(
    FollowUpSchedulingIntro,
    FollowUpSchedulingTemplate,
    SchedulerAgent,
    "Follow-up schedule, reminders, and monitoring checkpoints")

  const PatientCommunicationTemplate: Template :=
    [ Literal("Clinical Summary: "),
      Field(ClinicalSummary),
      Literal("\n") ]

  const PatientCommunicationTask := Task(
    PatientCommunicationIntro,
    PatientCommunicationTemplate,
    CommunicationAgent,
    "Clear, empathetic patient-facing instructions and summary")

  /**
   * The imaging task imported by health_crew/workflows.py. Its template and
   * expected output are not part of this model; it is taken to be run by the
   * imaging analyst.
   */
  const ImagingTaskIntro: string
  const ImagingTaskTemplate: Template
  const ImagingTaskExpectedOutput: string
  const ImagingAnalysisTask := Task(ImagingTaskIntro, ImagingTaskTemplate, ImagingAnalyst, ImagingTaskExpectedOutput)

  /** The seven tasks of tasks.py, in declaration order. */
  const DeclaredTasks: seq<Task> := [
    SymptomAnalysisTask, HistoryReviewTask, TreatmentRecommendationTask,
    ReferralAssessmentTask, DrugSafetyCheckTask, FollowUpSchedulingTask,
    PatientCommunicationTask
  ]

  /** Each task is bound to the agent of the same stage. */
  lemma Bindings()
    ensures SymptomAnalysisTask.agent == SymptomAnalyzer
    ensures HistoryReviewTask.agent == HistoryReviewer
    ensures TreatmentRecommendationTask.agent == TreatmentAgent
    ensures ReferralAssessmentTask.agent == ReferralAgent
    ensures DrugSafetyCheckTask.agent == InteractionChecker
    ensures FollowUpSchedulingTask.agent == SchedulerAgent
    ensures PatientCommunicationTask.agent == CommunicationAgent
    ensures ImagingAnalysisTask.agent == ImagingAnalyst
  {
  }

  /** Task i of tasks.py is run by agent i of agents.py, and no agent runs two of them. */
  lemma BindingsFollowDeclarationOrder()
    ensures |DeclaredTasks| == |DeclaredAgents|
    ensures forall i :: 0 <= i < |DeclaredTasks| ==> DeclaredTasks[i].agent == DeclaredAgents[i]
    ensures forall i, j :: 0 <= i < j < |DeclaredTasks| ==> DeclaredTasks[i].agent != DeclaredTasks[j].agent
  {
    RolesDistinct();
  }

  lemma SymptomAnalysisFields()
    ensures forall x :: x in Placeholders(SymptomAnalysisTemplate) <==> Owner(x) == 0
    ensures Placeholders(SymptomAnalysisTemplate) == {Symptoms, Demographics}
  {
  }

  lemma HistoryReviewFields()
    ensures forall x :: x in Placeholders(HistoryReviewTemplate) <==> Owner(x) == 1
    ensures Placeholders(HistoryReviewTemplate) == {History, Medications}
  {
  }

  lemma TreatmentRecommendationFields()
    ensures forall x :: x in Placeholders(TreatmentRecommendationTemplate) <==> Owner(x) == 2
    ensures Placeholders(TreatmentRecommendationTemplate) == {WorkingDifferential}
  {
  }

  lemma ReferralAssessmentFields()
    ensures forall x :: x in Placeholders(ReferralAssessmentTemplate) <==> Owner(x) == 3
    ensures Placeholders(ReferralAssessmentTemplate) == {DiagnosisSummary}
  {
  }

  lemma DrugSafetyCheckFields()
    ensures forall x :: x in Placeholders(DrugSafetyCheckTemplate) <==> Owner(x) == 4
    ensures Placeholders(DrugSafetyCheckTemplate) == {ProposedMedications, Allergies, Conditions}
  {
  }

  lemma FollowUpSchedulingFields()
    ensures forall x :: x in Placeholders(FollowUpSchedulingTemplate) <==> Owner(x) == 5
    ensures Placeholders(FollowUpSchedulingTemplate) == {TreatmentPlan, ReferralPlan}
  {
  }

  lemma PatientCommunicationFields()
    ensures forall x :: x in Placeholders(PatientCommunicationTemplate) <==> Owner(x) == 6
    ensures Placeholders(PatientCommunicationTemplate) == {ClinicalSummary}
  {
  }

  /** The fields each template carries. */
  lemma PlaceholderSets()
    ensures Placeholders(SymptomAnalysisTemplate) == {Symptoms, Demographics}
    ensures Placeholders(HistoryReviewTemplate) == {History, Medications}
    ensures Placeholders(TreatmentRecommendationTemplate) == {WorkingDifferential}
    ensures Placeholders(ReferralAssessmentTemplate) == {DiagnosisSummary}
    ensures Placeholders(DrugSafetyCheckTemplate) == {ProposedMedications, Allergies, Conditions}
    ensures Placeholders(FollowUpSchedulingTemplate) == {TreatmentPlan, ReferralPlan}
    ensures Placeholders(PatientCommunicationTemplate) == {ClinicalSummary}
  {
    SymptomAnalysisFields();
    HistoryReviewFields();
    TreatmentRecommendationFields();
    ReferralAssessmentFields();
    DrugSafetyCheckFields();
    FollowUpSchedulingFields();
    PatientCommunicationFields();
  }

  /** The templates of the seven tasks, in declaration order. */
  const DeclaredTemplates: seq<Template> := [
    SymptomAnalysisTemplate, HistoryReviewTemplate, TreatmentRecommendationTemplate,
    ReferralAssessmentTemplate, DrugSafetyCheckTemplate, FollowUpSchedulingTemplate,
    PatientCommunicationTemplate
  ]

  lemma TemplatesInOrder()
    ensures |DeclaredTasks| == |DeclaredTemplates|
    ensures forall i :: 0 <= i < |DeclaredTasks| ==> DeclaredTasks[i].template == DeclaredTemplates[i]
  {
  }

  /** Everything the templates `ts` ask for, together. */
  function AllPlaceholders(ts: seq<Template>): (r: set<Input>)
    ensures forall i :: 0 <= i < |ts| ==> Placeholders(ts[i]) <= r
    ensures forall x :: x in r ==> exists i :: 0 <= i < |ts| && x in Placeholders(ts[i])
  {
    if ts == [] then {}
    else
      var rest := AllPlaceholders(ts[1..]);
      assert forall i :: 1 <= i < |ts| ==> ts[1..][i - 1] == ts[i];
      Placeholders(ts[0]) + rest
  }

  /** The position, in declaration order, of the task whose template asks for `x`. */
  function Owner(x: Input): (i: nat)
    ensures i < |DeclaredTemplates|
  {
    match x
    case Symptoms | Demographics => 0
    case History | Medications => 1
    case WorkingDifferential => 2
    case DiagnosisSummary => 3
    case ProposedMedications | Allergies | Conditions => 4
    case TreatmentPlan | ReferralPlan => 5
    case ClinicalSummary => 6
  }

  /** Template `i` asks for `x` exactly when `i` is the owner of `x`. */
  lemma OwnerIsUnique()
    ensures forall x: Input, i :: 0 <= i < |DeclaredTemplates| ==>
      (x in Placeholders(DeclaredTemplates[i]) <==> i == Owner(x))
  {
    forall x: Input, i | 0 <= i < |DeclaredTemplates|
      ensures x in Placeholders(DeclaredTemplates[i]) <==> i == Owner(x)
    {
      if i == 0 { SymptomAnalysisFields(); }
      else if i == 1 { HistoryReviewFields(); }
      else if i == 2 { TreatmentRecommendationFields(); }
      else if i == 3 { ReferralAssessmentFields(); }
      else if i == 4 { DrugSafetyCheckFields(); }
      else if i == 5 { FollowUpSchedulingFields(); }
      else { PatientCommunicationFields(); }
    }
  }

  /** A field one template asks for is among everything the templates ask for. */
  lemma {:induction false} InAllPlaceholders(ts: seq<Template>, i: nat, x: Input)
    requires i < |ts| && x in Placeholders(ts[i])
    ensures x in AllPlaceholders(ts)
  {
  }

  /** Every one of the twelve caller inputs is asked for by some task. */
  lemma PlaceholdersCoverInputs()
    ensures forall x: Input :: x in AllPlaceholders(DeclaredTemplates)
  {
    OwnerIsUnique();
    forall x: Input ensures x in AllPlaceholders(DeclaredTemplates) {
      InAllPlaceholders(DeclaredTemplates, Owner(x), x);
    }
  }

  /** No caller input is asked for by two tasks. */
  lemma PlaceholdersDisjoint()
    ensures forall i, j :: 0 <= i < j < |DeclaredTasks| ==>
      Placeholders(DeclaredTasks[i].template) !! Placeholders(DeclaredTasks[j].template)
  {
    TemplatesInOrder();
    OwnerIsUnique();
    forall i, j | 0 <= i < j < |DeclaredTasks|
      ensures Placeholders(DeclaredTasks[i].template) !! Placeholders(DeclaredTasks[j].template)
    {
      var ti, tj := DeclaredTemplates[i], DeclaredTemplates[j];
      forall x | x in Placeholders(ti) ensures x !in Placeholders(tj) {
        assert Owner(x) == i;
      }
    }
  }

  /** Every task says what it is expected to produce. */
  lemma ExpectedOutputsNonEmpty()
    ensures forall i :: 0 <= i < |DeclaredTasks| ==> DeclaredTasks[i].expectedOutput != ""
  {
  }
}
