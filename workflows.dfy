/** workflows.py: the original crew builder, which always runs the seven core stages. */
module Workflows {
  import opened Agents
  import opened Tasks
  import opened Crews

  /**
   * build_diagnosis_crew: the seven agents and the seven tasks in declaration
   * order, run sequentially with the caller's verbosity.
   */
  function BuildDiagnosisCrew(verbose: bool := true): (c: Crew)
    ensures |c.agents| == 7 && |c.tasks| == 7
    ensures Aligned(c.agents, c.tasks)
    ensures forall i, j :: 0 <= i < j < |c.agents| ==> c.agents[i] != c.agents[j]
    ensures c.process == Sequential && c.verbose == verbose
    ensures c.agents == DeclaredAgents && c.tasks == DeclaredTasks
  {
    BindingsFollowDeclarationOrder();
    RolesDistinct();
    Crew(DeclaredAgents, DeclaredTasks, Sequential, verbose)
  }

  /** The crew runs every tool the seven agents are given, and only those. */
  lemma LegacyCrewTools(verbose: bool)
    ensures forall t :: t in CoreTools <==>
      exists i :: 0 <= i < |BuildDiagnosisCrew(verbose).agents| && t in BuildDiagnosisCrew(verbose).agents[i].tools
  {
    var agents := BuildDiagnosisCrew(verbose).agents;
    EveryCoreToolIsUsed();
    ToolsAreCore();
    forall t ensures t in CoreTools <==> exists i :: 0 <= i < |agents| && t in agents[i].tools {
      if exists i :: 0 <= i < |agents| && t in agents[i].tools {
        var i :| 0 <= i < |agents| && t in agents[i].tools;
        assert agents[i].tools <= CoreTools;
      }
    }
  }
}
