/**
 * agents.py: the seven agent records handed to the agent framework. Each
 * carries a role, a goal, a backstory, the tools it may call, whether it
 * may delegate, and the language model it runs on.
 */
module Agents {

  /** The tools defined in tools.py, safety.py and health_crew/imaging_tools.py. */
  datatype ToolId =
    | MedicalKnowledgeSearch
    | DrugInteractionCheck
    | ClinicalGuidelinesSearch
    | ElectronicHealthRecordAccess
    | AppointmentScheduling
    | ValidateMedicalRecommendation
    | EmergencyAlertSystem
    | MedicalImageAnalysis
    | ExtractImagingFindings
    | CompareImagingTimeline

  /** The seven tools agents.py imports: five from tools.py, two from safety.py. */
  const CoreTools: set<ToolId> := {
    MedicalKnowledgeSearch, DrugInteractionCheck, ClinicalGuidelinesSearch,
    ElectronicHealthRecordAccess, AppointmentScheduling,
    ValidateMedicalRecommendation, EmergencyAlertSystem
  }

  /** A handle on a language-model client. */
  datatype LlmHandle = LlmHandle(instance: nat)

  /** The one client `get_llm()` creates; its cache hands the same one to every caller. */
  const SharedLlm := LlmHandle(0)

  /**
   * The goal and backstory texts are prompt wording handed to the language
   * model; this model leaves their content unspecified.
   */
  const SymptomAnalyzerGoal: string
  const SymptomAnalyzerBackstory: string
  const HistoryReviewerGoal: string
  const HistoryReviewerBackstory: string
  const TreatmentAgentGoal: string
  const TreatmentAgentBackstory: string
  const ReferralAgentGoal: string
  const ReferralAgentBackstory: string
  const InteractionCheckerGoal: string
  const InteractionCheckerBackstory: string
  const SchedulerAgentGoal: string
  const SchedulerAgentBackstory: string
  const CommunicationAgentGoal: string
  const CommunicationAgentBackstory: string

  datatype Agent = Agent(
    role: string,
    goal: string,
    backstory: string,
    tools: set<ToolId>,
    allowDelegation: bool,
    llm: LlmHandle)

  const SymptomAnalyzer := Agent(
    "Medical Symptom Analyst",
    SymptomAnalyzerGoal,
    SymptomAnalyzerBackstory,
    {MedicalKnowledgeSearch, EmergencyAlertSystem},
    true,
    SharedLlm)

  const HistoryReviewer := Agent(
    "Medical History Analyst",
    HistoryReviewerGoal,
    HistoryReviewerBackstory,
    {ElectronicHealthRecordAccess},
    false,
    SharedLlm)

  const TreatmentAgent := Agent(
    "Treatment Recommendation Specialist",
    TreatmentAgentGoal,
    TreatmentAgentBackstory,
    {ClinicalGuidelinesSearch, ValidateMedicalRecommendation},
    true,
    SharedLlm)

  const ReferralAgent := Agent(
    "Specialist Referral Coordinator",
    ReferralAgentGoal,
    ReferralAgentBackstory,
    {AppointmentScheduling},
    false,
    SharedLlm)

  const InteractionChecker := Agent(
    "Pharmaceutical Safety Analyst",
    InteractionCheckerGoal,
    InteractionCheckerBackstory,
    {DrugInteractionCheck, ValidateMedicalRecommendation},
    false,
    SharedLlm)

  const SchedulerAgent := Agent(
    "Care Coordination Scheduler",
    SchedulerAgentGoal,
    SchedulerAgentBackstory,
    {AppointmentScheduling},
    false,
    SharedLlm)

  const CommunicationAgent := Agent(
    "Patient Communication Specialist",
    CommunicationAgentGoal,
    CommunicationAgentBackstory,
    {},
    false,
    SharedLlm)

  /**
   * The imaging analyst imported by health_crew/workflows.py. Its definition
   * is not part of this model, so its record is left unspecified.
   */
  const ImagingAnalyst: Agent

  /** The seven agents of agents.py, in declaration order. */
  const DeclaredAgents: seq<Agent> := [
    SymptomAnalyzer, HistoryReviewer, TreatmentAgent, ReferralAgent,
    InteractionChecker, SchedulerAgent, CommunicationAgent
  ]

  /** The tool sets of the seven agents, as declared. */
  lemma ToolSets()
    ensures SymptomAnalyzer.tools == {MedicalKnowledgeSearch, EmergencyAlertSystem}
    ensures HistoryReviewer.tools == {ElectronicHealthRecordAccess}
    ensures TreatmentAgent.tools == {ClinicalGuidelinesSearch, ValidateMedicalRecommendation}
    ensures ReferralAgent.tools == {AppointmentScheduling}
    ensures InteractionChecker.tools == {DrugInteractionCheck, ValidateMedicalRecommendation}
    ensures SchedulerAgent.tools == {AppointmentScheduling}
    ensures CommunicationAgent.tools == {}
  {
  }

  /** Every tool a declared agent may call is one of the seven core tools; none is an imaging tool. */
  lemma ToolsAreCore()
    ensures forall i :: 0 <= i < |DeclaredAgents| ==> DeclaredAgents[i].tools <= CoreTools
    ensures forall i :: 0 <= i < |DeclaredAgents| ==> MedicalImageAnalysis !in DeclaredAgents[i].tools
  {
  }

  /** Together the seven agents use every core tool. */
  lemma EveryCoreToolIsUsed()
    ensures forall t :: t in CoreTools ==> exists i :: 0 <= i < |DeclaredAgents| && t in DeclaredAgents[i].tools
  {
    assert MedicalKnowledgeSearch in DeclaredAgents[0].tools;
    assert EmergencyAlertSystem in DeclaredAgents[0].tools;
    assert ElectronicHealthRecordAccess in DeclaredAgents[1].tools;
    assert ClinicalGuidelinesSearch in DeclaredAgents[2].tools;
    assert ValidateMedicalRecommendation in DeclaredAgents[2].tools;
    assert AppointmentScheduling in DeclaredAgents[3].tools;
    assert DrugInteractionCheck in DeclaredAgents[4].tools;
  }

  /** Only the symptom analyzer and the treatment agent may delegate. */
  lemma DelegationFlags()
    ensures forall i :: 0 <= i < |DeclaredAgents| ==>
      (DeclaredAgents[i].allowDelegation <==> DeclaredAgents[i] in {SymptomAnalyzer, TreatmentAgent})
  {
  }

  /** All seven agents run on the one shared client. */
  lemma SharedClient()
    ensures forall i :: 0 <= i < |DeclaredAgents| ==> DeclaredAgents[i].llm == SharedLlm
  {
  }

  /** No two agents share a role name, so the records are pairwise distinct. */
  lemma RolesDistinct()
    ensures |DeclaredAgents| == 7
    ensures forall i, j :: 0 <= i < j < |DeclaredAgents| ==> DeclaredAgents[i].role != DeclaredAgents[j].role
  {
  }
}
