/** The project view: the roster of agents and its enabled flags, the gate
    that decides whether a new run may start, the run shown on screen with
    its artifacts keyed by type, and the sender cards of the log.

    Signals are fields of `ProjectComponent`; the effect that mirrors the
    current run into `messages` and `artifacts` is applied wherever the
    current run is set. The run started here is run to completion by the
    orchestrator before its subscriber sees it, so the subscriber sees the
    final state of the run once. */
module ProjectView {
  import opened Wrappers
  import opened AgentModel
  import opened Orchestrator
  import opened Persistence
  import opened PipelineProperties

  // ---------------------------------------------------------------------
  // The roster

  /** The roster record of a role, enabled. */
  function AgentData(role: AgentRole): (a: Agent)
    ensures a.role == role && a.enabled
    ensures a.weight == if role == CEO then 2 else 1
  {
    match role
    case CEO => Agent(CEO, "Casey E. O.", "💼", "text-purple-400", 2, true)
    case PM => Agent(PM, "Pat M.", "📋", "text-blue-400", 1, true)
    case Engineer => Agent(Engineer, "Gene N. Eer", "💻", "text-green-400", 1, true)
    case Research => Agent(Research, "Reese Earch", "🔬", "text-yellow-400", 1, true)
    case Legal => Agent(Legal, "Lee Gall", "⚖️", "text-red-400", 1, true)
    case Finance => Agent(Finance, "Finn Ance", "💰", "text-teal-400", 1, true)
  }

  /** The roster the view starts with: one record per role, in declaration
      order. */
  function InitialAgents(): (r: seq<Agent>)
    ensures |r| == |AllRoles()|
    ensures forall i :: 0 <= i < |r| ==> r[i] == AgentData(AllRoles()[i])
  {
    seq(|AllRoles()|, i requires 0 <= i < |AllRoles()| => AgentData(AllRoles()[i]))
  }

  /** No role appears twice on the list. */
  predicate UniqueRoles(agents: seq<Agent>)
  {
    forall i, j :: 0 <= i < j < |agents| ==> agents[i].role != agents[j].role
  }

  /** The agents whose flag is set, in list order. */
  function ActiveAgents(agents: seq<Agent>): (r: seq<Agent>)
    ensures |r| <= |agents|
    ensures forall a :: a in r <==> a in agents && a.enabled
    ensures |r| == 0 <==> forall a :: a in agents ==> !a.enabled
    ensures (forall a :: a in agents ==> a.enabled) ==> r == agents
  {
    if agents == [] then []
    else
      assert forall a :: a in agents <==> a == agents[0] || a in agents[1..];
      (if agents[0].enabled then [agents[0]] else []) + ActiveAgents(agents[1..])
  }

  /** Every role is on the initial roster exactly once and enabled, so a run
      started from it executes every stage of the pipeline. */
  lemma InitialRoster()
    ensures forall role: AgentRole :: role in RolesOf(InitialAgents())
    ensures UniqueRoles(InitialAgents())
    ensures ActiveAgents(InitialAgents()) == InitialAgents()
    ensures Executed(Pipeline(), RolesOf(ActiveAgents(InitialAgents()))) == Pipeline()
  {
    var r := InitialAgents();
    assert forall role: AgentRole :: role in RolesOf(r) by {
      forall role: AgentRole ensures role in RolesOf(r) {
        var i := RoleIndex(role);
        assert r[i].role == role;
      }
    }
    assert UniqueRoles(r) by {
      assert forall i :: 0 <= i < |r| ==> r[i].role == AllRoles()[i];
    }
    assert ActiveAgents(r) == r by {
      assert forall a :: a in r ==> a.enabled;
    }
    ExecutedFilters(Pipeline(), RolesOf(r));
  }

  /** Where a role stands in the declaration order. */
  function RoleIndex(role: AgentRole): (i: nat)
    ensures i < |AllRoles()| && AllRoles()[i] == role
  {
    assert role in AllRoles();
    var i :| 0 <= i < |AllRoles()| && AllRoles()[i] == role;
    i
  }

  /** The list with the flag of every agent of `role` flipped. */
  function Toggled(agents: seq<Agent>, role: AgentRole): (r: seq<Agent>)
    ensures |r| == |agents|
    ensures forall i :: 0 <= i < |agents| ==> r[i].(enabled := agents[i].enabled) == agents[i]
    ensures forall i :: 0 <= i < |agents| ==> (r[i].enabled != agents[i].enabled <==> agents[i].role == role)
  {
    seq(|agents|, i requires 0 <= i < |agents| =>
      if agents[i].role == role then agents[i].(enabled := !agents[i].enabled) else agents[i])
  }

  /** Toggling a role twice restores the list. */
  lemma ToggleTwice(agents: seq<Agent>, role: AgentRole)
    ensures Toggled(Toggled(agents, role), role) == agents
  {
    var r := Toggled(Toggled(agents, role), role);
    forall i | 0 <= i < |agents| ensures r[i] == agents[i] {
      assert r[i].(enabled := agents[i].enabled) == agents[i];
    }
  }

  /** Toggling keeps which roles are on the list. */
  lemma ToggleKeepsRoles(agents: seq<Agent>, role: AgentRole)
    ensures RolesOf(Toggled(agents, role)) == RolesOf(agents)
  {
    var t := Toggled(agents, role);
    forall q ensures q in RolesOf(t) <==> q in RolesOf(agents) {
      if q in RolesOf(agents) {
        var j :| 0 <= j < |agents| && agents[j].role == q;
        assert t[j].role == q;
      }
      if q in RolesOf(t) {
        var j :| 0 <= j < |t| && t[j].role == q;
        assert agents[j].role == q;
      }
    }
  }

  /** A role is active when some agent of that role has its flag set. */
  lemma ActiveRole(agents: seq<Agent>, q: AgentRole)
    ensures q in RolesOf(ActiveAgents(agents)) <==>
      exists j :: 0 <= j < |agents| && agents[j].role == q && agents[j].enabled
  {
    if q in RolesOf(ActiveAgents(agents)) {
      var a :| a in ActiveAgents(agents) && a.role == q;
      var j :| 0 <= j < |agents| && agents[j] == a;
    }
  }

  /** Toggling a role leaves every other role active or inactive as it was. */
  lemma ToggleOtherRoles(agents: seq<Agent>, role: AgentRole, q: AgentRole)
    requires q != role
    ensures q in RolesOf(ActiveAgents(Toggled(agents, role))) <==> q in RolesOf(ActiveAgents(agents))
  {
    var t := Toggled(agents, role);
    ActiveRole(agents, q);
    ActiveRole(t, q);
    if q in RolesOf(ActiveAgents(agents)) {
      var j :| 0 <= j < |agents| && agents[j].role == q && agents[j].enabled;
      assert t[j] == agents[j];
    }
    if q in RolesOf(ActiveAgents(t)) {
      var j :| 0 <= j < |t| && t[j].role == q && t[j].enabled;
      assert t[j].(enabled := agents[j].enabled) == agents[j];
    }
  }

  /** On a list with one agent per role, toggling a role on the list switches
      it in or out of the active roles. */
  lemma ToggleOwnRole(agents: seq<Agent>, role: AgentRole)
    requires UniqueRoles(agents) && role in RolesOf(agents)
    ensures role in RolesOf(ActiveAgents(Toggled(agents, role))) <==> role !in RolesOf(ActiveAgents(agents))
  {
    var t := Toggled(agents, role);
    var k :| 0 <= k < |agents| && agents[k].role == role;
    assert role in RolesOf(ActiveAgents(agents)) <==> agents[k].enabled by {
      ActiveRole(agents, role);
    }
    assert role in RolesOf(ActiveAgents(t)) <==> t[k].enabled by {
      ActiveRole(t, role);
      forall j | 0 <= j < |t| && t[j].role == role
        ensures j == k
      {
        assert t[j].(enabled := agents[j].enabled) == agents[j];
        assert agents[j].role == role;
      }
    }
  }

  // ---------------------------------------------------------------------
  // The gate

  /** No run on screen, or the one on screen has finished. */
  function CanRun(current: Option<Run>): (r: bool)
    ensures r <==> current.None? || StatusRank(current.value.status) == 2
  {
    match current
    case None => true
    case Some(run) => run.status == Succeeded || run.status == Failed
  }

  /** The guard of `startRun`: a loaded project, a run that may start, and
      at least one enabled agent. */
  predicate StartAllowed(project: Option<Project>, current: Option<Run>, agents: seq<Agent>)
  {
    project.Some? && CanRun(current) && |ActiveAgents(agents)| > 0
  }

  /** A run that has not finished -- created but idle, or running -- blocks
      a new start, and so does a roster with every flag cleared. */
  lemma StartRefused(project: Option<Project>, current: Option<Run>, agents: seq<Agent>)
    ensures current.Some? && StatusRank(current.value.status) < 2 ==> !StartAllowed(project, current, agents)
    ensures (forall a :: a in agents ==> !a.enabled) ==> !StartAllowed(project, current, agents)
    ensures project.Some? && current.None? && (exists a :: a in agents && a.enabled) ==>
      StartAllowed(project, current, agents)
  {
  }

  // ---------------------------------------------------------------------
  // What is shown

  /** The run a loaded project shows: the last of its runs, if any. */
  function LatestRun(project: Project): (r: Option<Run>)
    ensures r.None? <==> project.runs == []
    ensures r.Some? ==> r.value in project.runs && project.runs == project.runs[..|project.runs| - 1] + [r.value]
  {
    if |project.runs| > 0 then Some(project.runs[|project.runs| - 1]) else None
  }

  /** The effect's loop: each artifact is set under its type, in list order. */
  method BuildArtifactMap(arts: seq<Artifact>) returns (m: map<ArtifactType, Artifact>)
    ensures m == ArtifactMap(arts)
  {
    m := map[];
    for i := 0 to |arts|
      invariant m == ArtifactMap(arts[..i])
    {
      assert arts[..i + 1][..i] == arts[..i];
      m := m[arts[i].kind := arts[i]];
    }
    assert arts[..|arts|] == arts;
  }

  /** The entry of a type is the last artifact of that type on the list. */
  lemma {:induction false} ArtifactMapLastWins(arts: seq<Artifact>, i: nat)
    requires i < |arts|
    requires forall j :: i < j < |arts| ==> arts[j].kind != arts[i].kind
    ensures arts[i].kind in ArtifactMap(arts) && ArtifactMap(arts)[arts[i].kind] == arts[i]
  {
    var last := arts[|arts| - 1];
    if i < |arts| - 1 {
      var init := arts[..|arts| - 1];
      assert init[i] == arts[i];
      ArtifactMapLastWins(init, i);
      assert ArtifactMap(arts) == ArtifactMap(init)[last.kind := last];
    }
  }

  /** How a sender is drawn in the log. */
  datatype AgentCard = AgentCard(sender: Sender, name: string, avatar: string, color: string)

  function CardOf(a: Agent): AgentCard
  {
    AgentCard(Role(a.role), a.name, a.avatar, a.color)
  }

  /** The system card, the card of the first agent with the role, or a
      default card named after the role. */
  function GetAgent(agents: seq<Agent>, sender: Sender): (c: AgentCard)
    ensures c.sender == sender
    ensures sender.System? ==> c == AgentCard(System, "System", "⚙️", "text-gray-500")
    ensures sender.Role? && sender.role !in RolesOf(agents) ==>
      c == AgentCard(sender, RoleName(sender.role), "👤", "text-gray-200")
    ensures sender.Role? && sender.role in RolesOf(agents) ==> exists a :: a in agents && c == CardOf(a)
  {
    match sender
    case System => AgentCard(System, "System", "⚙️", "text-gray-500")
    case Role(role) =>
      match FirstIndex(agents, (a: Agent) => a.role == role)
      case Some(i) => CardOf(agents[i])
      case None =>
        assert forall a :: a in agents ==> a.role != role;
        AgentCard(sender, RoleName(role), "👤", "text-gray-200")
  }

  /** A role on the list is drawn with its first agent's card; on a list with
      one agent per role, with its own agent's card. */
  lemma GetAgentFirst(agents: seq<Agent>, i: nat)
    requires i < |agents| && forall j :: 0 <= j < i ==> agents[j].role != agents[i].role
    ensures GetAgent(agents, Role(agents[i].role)) == CardOf(agents[i])
  {
    FirstIndexUnique(agents, (a: Agent) => a.role == agents[i].role, i);
  }

  /** The initial roster draws each role with its roster record. */
  lemma InitialCards(role: AgentRole)
    ensures GetAgent(InitialAgents(), Role(role)) == CardOf(AgentData(role))
  {
    var r := InitialAgents();
    InitialRoster();
    GetAgentFirst(r, RoleIndex(role));
  }

  // ---------------------------------------------------------------------
  // Reloading a project after a run

  /** After a run created for a project has been started and stored back,
      the project's stored list ends with the run as created: the live run
      carries an empty project id, so `updateRun` finds no project for it.
      Reloading the project therefore shows an idle run, and the gate stays
      shut. */
  lemma StoredRunStaysIdle(projects: seq<Project>, id: string, t: Stamp, final: Run)
    requires ProjectIndex(projects, id).Some?
    requires forall p :: p in projects ==> p.id != ""
    requires final.projectId == ""
    ensures var after := ReplaceRun(AttachRun(projects, ProjectIndex(projects, id).value, NewRun(id, t)), final);
      && FindProject(after, id).Some?
      && LatestRun(FindProject(after, id).value) == Some(NewRun(id, t))
      && !CanRun(LatestRun(FindProject(after, id).value))
  {
    var attached := AttachRun(projects, ProjectIndex(projects, id).value, NewRun(id, t));
    AttachRunVisible(projects, id, NewRun(id, t));
    assert forall p :: p in attached ==> p.id != "" by {
      forall p | p in attached ensures p.id != "" {
        var k :| 0 <= k < |attached| && attached[k] == p;
        assert p.id == projects[k].id;
      }
    }
    OrphanRunIgnored(attached, final);
  }

  /** The run as the view's subscriber would store it if it carried its
      project's id. */
  function Owned(final: Run, projectId: string): (r: Run)
    ensures r.projectId == projectId && r.id == final.id && r.status == final.status
  {
    final.(projectId := projectId)
  }

  /** Storing the owned run replaces the idle record, so a reload shows the
      finished run and the gate opens. */
  lemma OwnedRunReplacesIdle(projects: seq<Project>, id: string, t: Stamp, final: Run)
    requires ProjectIndex(projects, id).Some?
    requires final.id == RunId(t) && IsTerminal(final.status)
    requires forall k :: 0 <= k < |projects[ProjectIndex(projects, id).value].runs| ==>
      projects[ProjectIndex(projects, id).value].runs[k].id != RunId(t)
    ensures var after := ReplaceRun(AttachRun(projects, ProjectIndex(projects, id).value, NewRun(id, t)), Owned(final, id));
      && FindProject(after, id).Some?
      && LatestRun(FindProject(after, id).value) == Some(Owned(final, id))
      && CanRun(LatestRun(FindProject(after, id).value))
  {
    var i := ProjectIndex(projects, id).value;
    var run := Owned(final, id);
    var attached := AttachRun(projects, i, NewRun(id, t));
    var n := |projects[i].runs|;
    FirstIndexUnique(attached, (p: Project) => p.id == id, i);
    FirstIndexUnique(attached[i].runs, (r: Run) => r.id == run.id, n);
    var after := ReplaceRun(attached, run);
    FirstIndexUnique(after, (p: Project) => p.id == id, i);
    assert after[i].runs[n] == run;
  }

  // ---------------------------------------------------------------------
  // The component

  /** A run the orchestrator has carried to the end for `idea` and the
      agents `active`: succeeded with a finish time, with the pipeline's log
      and the pipeline's artifacts. */
  ghost predicate Completed(final: Run, idea: string, active: seq<Agent>, generate: Prompt -> string)
  {
    && final.status == Succeeded && final.finishedAt.Some?
    && Entries(final.messages) == Transcript(idea, active)
    && Contents(final.artifacts) == RunStages(map[], Pipeline(), idea, RolesOf(active), generate)
  }

  class ProjectComponent {
    const api: ApiService
    const orchestrator: OrchestratorService
    var project: Option<Project>
    var currentRun: Option<Run>
    var agents: seq<Agent>
    var messages: seq<Message>
    var artifacts: map<ArtifactType, Artifact>
    var isLoading: bool
    var error: Option<string>

    /** Nothing loaded, the full roster enabled. */
    constructor (api: ApiService, orchestrator: OrchestratorService)
      ensures this.api == api && this.orchestrator == orchestrator
      ensures project == None && currentRun == None && agents == InitialAgents()
      ensures messages == [] && artifacts == map[] && isLoading && error == None
    {
      this.api := api;
      this.orchestrator := orchestrator;
      project := None;
      currentRun := None;
      agents := InitialAgents();
      messages := [];
      artifacts := map[];
      isLoading := true;
      error := None;
    }

    /** Sets the current run and, as the effect does, mirrors its log and
        its artifacts keyed by type. */
    method ShowRun(run: Run)
      modifies this`currentRun, this`messages, this`artifacts
      ensures currentRun == Some(run) && messages == run.messages && artifacts == ArtifactMap(run.artifacts)
    {
      currentRun := Some(run);
      messages := run.messages;
      artifacts := BuildArtifactMap(run.artifacts);
    }

    /** Loads the project named by the route; shows its latest run if it has
        one, or reports that it is not there. Without an id the view
        navigates away and changes nothing. */
    method OnInit(projectId: Option<string>)
      modifies this`project, this`currentRun, this`messages, this`artifacts, this`isLoading, this`error
      ensures projectId.None? ==> unchanged(this)
      ensures projectId.Some? ==> !isLoading
      ensures projectId.Some? && api.GetProject(projectId.value).None? ==>
        && error == Some("Project not found.")
        && project == old(project) && currentRun == old(currentRun)
        && messages == old(messages) && artifacts == old(artifacts)
      ensures projectId.Some? && api.GetProject(projectId.value).Some? ==>
        var p := api.GetProject(projectId.value).value;
        && project == Some(p) && error == old(error)
        && (LatestRun(p).None? ==>
              currentRun == old(currentRun) && messages == old(messages) && artifacts == old(artifacts))
        && (LatestRun(p).Some? ==>
              && currentRun == LatestRun(p)
              && messages == LatestRun(p).value.messages
              && artifacts == ArtifactMap(LatestRun(p).value.artifacts))
    {
      if projectId.None? {
        return;
      }
      var found := api.GetProject(projectId.value);
      if found.Some? {
        project := found;
        var latest := LatestRun(found.value);
        if latest.Some? {
          ShowRun(latest.value);
        }
      } else {
        error := Some("Project not found.");
      }
      isLoading := false;
    }

    /** Flips the flag of every agent of the role. */
    method ToggleAgent(role: AgentRole)
      modifies this`agents
      ensures agents == Toggled(old(agents), role)
    {
      agents := Toggled(agents, role);
    }

    /** Starts a run for the loaded project with the enabled agents, when the
        gate allows it and the project is still stored: the view is cleared,
        the run is created, started, shown, and written back to storage. */
    method StartRun(generate: Prompt -> string)
      requires orchestrator.Valid()
      modifies this`currentRun, this`messages, this`artifacts, api, orchestrator
      ensures orchestrator.Valid()
      ensures !StartAllowed(old(project), old(currentRun), old(agents)) ==>
        unchanged(this) && unchanged(api) && unchanged(orchestrator)
      ensures (StartAllowed(old(project), old(currentRun), old(agents))
               && ProjectIndex(old(api.projects), old(project).value.id).None?) ==>
        unchanged(this) && unchanged(api) && unchanged(orchestrator)
      ensures (StartAllowed(old(project), old(currentRun), old(agents))
               && ProjectIndex(old(api.projects), old(project).value.id).Some?) ==>
        var created := NewRun(old(project).value.id, old(api.clock));
        var active := ActiveAgents(old(agents));
        var idea := old(project).value.idea;
        && created.id in orchestrator.runs
        && var final := orchestrator.runs[created.id];
        && final.id == created.id && final.projectId == "" && final.startedAt == old(orchestrator.clock)
        && orchestrator.runs == old(orchestrator.runs)[created.id := final]
        && Completed(final, idea, active, generate)
        && currentRun == Some(final) && CanRun(currentRun)
        && messages == final.messages && artifacts == ArtifactMap(final.artifacts)
        && api.runs == old(api.runs)[created.id := final]
        && api.projects == ReplaceRun(AttachRun(old(api.projects), ProjectIndex(old(api.projects), old(project).value.id).value, created), final)
      ensures (StartAllowed(old(project), old(currentRun), old(agents))
               && ProjectIndex(old(api.projects), old(project).value.id).Some?
               && forall p :: p in old(api.projects) ==> p.id != "") ==>
        var stored := FindProject(api.projects, old(project).value.id);
        && stored.Some?
        && LatestRun(stored.value) == Some(NewRun(old(project).value.id, old(api.clock)))
        && !CanRun(LatestRun(stored.value))
    {
      if project.None? || !CanRun(currentRun) {
        return;
      }
      var proj := project.value;
      var active := ActiveAgents(agents);
      if |active| == 0 {
        return;
      }
      var created := api.CreateRun(proj.id, active);
      if created.Err? {
        return;
      }
      ghost var runs1 := api.runs;
      RunAndStore(created.value, proj.idea, active, generate);
      ghost var final := orchestrator.runs[created.value];
      Overwrite(old(api.runs), created.value, runs1[created.value], final);
      if forall p :: p in old(api.projects) ==> p.id != "" {
        StoredRunStaysIdle(old(api.projects), proj.id, old(api.clock), final);
      }
    }

    /** The subscription callback of `startRun`: clears the view, starts the
        run, shows it, and stores each state the subscriber receives -- here
        the final one. */
    method RunAndStore(runId: string, idea: string, active: seq<Agent>, generate: Prompt -> string)
      requires orchestrator.Valid()
      modifies this`currentRun, this`messages, this`artifacts, api`runs, api`projects, orchestrator
      ensures orchestrator.Valid() && runId in orchestrator.runs
      ensures var final := orchestrator.runs[runId];
        && final.id == runId && final.projectId == "" && final.startedAt == old(orchestrator.clock)
        && orchestrator.runs == old(orchestrator.runs)[runId := final]
        && old(orchestrator.history) < orchestrator.history
        && MonotoneFrom(orchestrator.history, |old(orchestrator.history)|, runId)
      ensures var final := orchestrator.runs[runId];
        && Completed(final, idea, active, generate)
        && currentRun == Some(final) && messages == final.messages && artifacts == ArtifactMap(final.artifacts)
        && api.runs == old(api.runs)[runId := final]
        && api.projects == ReplaceRun(old(api.projects), final)
    {
      messages := [];
      artifacts := map[];
      var initial := orchestrator.Start(runId, idea, active, generate);
      ShowRun(initial);
      var update := orchestrator.GetRunUpdates(runId);
      if update.Ok? {
        ShowRun(update.value);
        api.UpdateRun(update.value);
      }
    }
  }
}
