/**
 * health_crew/workflows.py: the crew builder with an optional imaging stage,
 * spliced in right after symptom analysis when asked for.
 */
module CrewWorkflows {
  import opened Agents
  import opened Tasks
  import opened Crews
  import Workflows

  /**
   * build_diagnosis_crew: start from the seven core agents and tasks; with
   * `includeImaging`, insert the imaging analyst and the imaging task at
   * position 1 of their lists; run sequentially with the caller's verbosity.
   */
  method BuildDiagnosisCrew(verbose: bool := true, includeImaging: bool := false) returns (crew: Crew)
    ensures |crew.agents| == |crew.tasks| == if includeImaging then 8 else 7
    ensures Aligned(crew.agents, crew.tasks)
    ensures crew.process == Sequential && crew.verbose == verbose
    ensures !includeImaging ==> crew == Workflows.BuildDiagnosisCrew(verbose)
    ensures includeImaging ==>
      crew.agents == [SymptomAnalyzer, ImagingAnalyst] + DeclaredAgents[1..] &&
      crew.tasks == [SymptomAnalysisTask, ImagingAnalysisTask] + DeclaredTasks[1..]
    ensures includeImaging ==>
      crew.agents[..1] + crew.agents[2..] == DeclaredAgents &&
      crew.tasks[..1] + crew.tasks[2..] == DeclaredTasks
  {
    var agents := DeclaredAgents;
    var tasks := DeclaredTasks;
    BindingsFollowDeclarationOrder();
    if includeImaging {
      InsertPreservesAlignment(agents, tasks, 1, ImagingAnalyst, ImagingAnalysisTask);
      InsertAtOne(agents, ImagingAnalyst);
      InsertAtOne(tasks, ImagingAnalysisTask);
      InsertRemoved(agents, 1, ImagingAnalyst);
      InsertRemoved(tasks, 1, ImagingAnalysisTask);
      agents := Insert(agents, 1, ImagingAnalyst);
      tasks := Insert(tasks, 1, ImagingAnalysisTask);
    }
    crew := Crew(agents, tasks, Sequential, verbose);
  }
}
