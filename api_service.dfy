/** The persistence bookkeeping behind the project view: a list of projects,
    each owning the list of its runs, and a table of runs by id. Projects and
    runs are only ever added or replaced, never removed. Browser storage is
    left out; `clock` stands for `Date.now()` / `new Date()`, read once per
    created record. */
module Persistence {
  import opened Wrappers
  import opened AgentModel

  /** `projects.findIndex(p => p.id === id)`. */
  function ProjectIndex(projects: seq<Project>, id: string): (r: Option<nat>)
    ensures r.Some? ==> r.value < |projects| && projects[r.value].id == id
    ensures r.Some? ==> forall j :: 0 <= j < r.value ==> projects[j].id != id
    ensures r.None? ==> forall j :: 0 <= j < |projects| ==> projects[j].id != id
  {
    FirstIndex(projects, (p: Project) => p.id == id)
  }

  /** `projects.find(p => p.id === id)`: the first project with that id. */
  function FindProject(projects: seq<Project>, id: string): (r: Option<Project>)
    ensures r.Some? <==> exists i :: 0 <= i < |projects| && projects[i].id == id
    ensures r.Some? ==> r.value.id == id && r.value in projects
    ensures r.Some? ==> r.value == projects[ProjectIndex(projects, id).value]
  {
    match ProjectIndex(projects, id)
    case None => None
    case Some(i) => Some(projects[i])
  }

  /** `project.runs.findIndex(r => r.id === id)`. */
  function RunIndex(runs: seq<Run>, id: string): (r: Option<nat>)
    ensures r.Some? ==> r.value < |runs| && runs[r.value].id == id
    ensures r.Some? ==> forall j :: 0 <= j < r.value ==> runs[j].id != id
    ensures r.None? ==> forall j :: 0 <= j < |runs| ==> runs[j].id != id
  {
    FirstIndex(runs, (r: Run) => r.id == id)
  }

  function ProjectId(t: Stamp): string
  {
    "proj_" + Decimal(t)
  }

  function RunId(t: Stamp): string
  {
    "run_" + Decimal(t)
  }

  /** The record `createProject` builds. */
  function NewProject(idea: string, t: Stamp): Project
  {
    Project(ProjectId(t), idea, t, [])
  }

  /** The record `createRun` builds: idle, empty, not finished. */
  function NewRun(projectId: string, t: Stamp): Run
  {
    Run(RunId(t), projectId, Idle, [], [], t, None)
  }

  /** `projects[i].runs.push(run)`. */
  function AttachRun(projects: seq<Project>, i: nat, run: Run): (r: seq<Project>)
    requires i < |projects|
  {
    projects[i := projects[i].(runs := projects[i].runs + [run])]
  }

  /** The project list after `updateRun`: the run with `run.id` in the first
      project with `run.projectId` is replaced at its index; if either is not
      found the list is unchanged. */
  function ReplaceRun(projects: seq<Project>, run: Run): seq<Project>
  {
    match ProjectIndex(projects, run.projectId)
    case None => projects
    case Some(i) =>
      match RunIndex(projects[i].runs, run.id)
      case None => projects
      case Some(j) => projects[i := projects[i].(runs := projects[i].runs[j := run])]
  }

  /** Same projects, same run lists up to the contents of each run: ids,
      ideas, creation times and every run id stay where they were. */
  ghost predicate SameShape(before: seq<Project>, after: seq<Project>)
  {
    && |after| == |before|
    && (forall i :: 0 <= i < |before| ==>
          after[i].(runs := before[i].runs) == before[i] && |after[i].runs| == |before[i].runs|)
    && (forall i, j :: 0 <= i < |before| && 0 <= j < |before[i].runs| ==> after[i].runs[j].id == before[i].runs[j].id)
  }

  /** `updateRun` never adds, removes or reorders projects or runs. */
  lemma ReplaceRunKeepsShape(projects: seq<Project>, run: Run)
    ensures SameShape(projects, ReplaceRun(projects, run))
  {
  }

  /** When both the project and the run are found, the run is replaced where
      it stood and every other run and project is untouched; otherwise the
      list is unchanged. */
  lemma ReplaceRunEffect(projects: seq<Project>, run: Run)
    ensures var r := ReplaceRun(projects, run);
      match ProjectIndex(projects, run.projectId)
      case None => r == projects
      case Some(i) =>
        match RunIndex(projects[i].runs, run.id)
        case None => r == projects
        case Some(j) =>
          && r[i].runs[j] == run
          && (forall k :: 0 <= k < |projects| && k != i ==> r[k] == projects[k])
          && (forall k :: 0 <= k < |projects[i].runs| && k != j ==> r[i].runs[k] == projects[i].runs[k])
  {
  }

  /** Updating with the same run twice is updating it once. */
  lemma ReplaceRunIdempotent(projects: seq<Project>, run: Run)
    ensures ReplaceRun(ReplaceRun(projects, run), run) == ReplaceRun(projects, run)
  {
    var r := ReplaceRun(projects, run);
    ReplaceRunKeepsShape(projects, run);
    match ProjectIndex(projects, run.projectId)
    case None =>
    case Some(i) =>
      assert ProjectIndex(r, run.projectId) == Some(i) by {
        FirstIndexUnique(r, (p: Project) => p.id == run.projectId, i);
      }
      match RunIndex(projects[i].runs, run.id)
      case None =>
      case Some(j) =>
        assert RunIndex(r[i].runs, run.id) == Some(j) by {
          FirstIndexUnique(r[i].runs, (x: Run) => x.id == run.id, j);
        }
        assert r[i].runs[j := run] == r[i].runs;
        assert r[i := r[i].(runs := r[i].runs)] == r;
  }

  /** A run that names no existing project -- as every run the orchestrator
      creates does, its `projectId` being empty -- leaves the list alone. */
  lemma OrphanRunIgnored(projects: seq<Project>, run: Run)
    requires forall p :: p in projects ==> p.id != run.projectId
    ensures ReplaceRun(projects, run) == projects
  {
  }

  /** A found run is visible afterwards in the project that is looked up by
      the run's `projectId`. */
  lemma ReplaceRunVisible(projects: seq<Project>, run: Run)
    requires ProjectIndex(projects, run.projectId).Some?
    requires RunIndex(projects[ProjectIndex(projects, run.projectId).value].runs, run.id).Some?
    ensures FindProject(ReplaceRun(projects, run), run.projectId).Some?
    ensures run in FindProject(ReplaceRun(projects, run), run.projectId).value.runs
  {
    var i := ProjectIndex(projects, run.projectId).value;
    var j := RunIndex(projects[i].runs, run.id).value;
    var r := ReplaceRun(projects, run);
    ReplaceRunKeepsShape(projects, run);
    FirstIndexUnique(r, (p: Project) => p.id == run.projectId, i);
    assert r[i].runs[j] == run;
  }

  /** Appending a project leaves every earlier lookup as it was, and makes
      the new id findable. */
  lemma AppendKeepsLookups(projects: seq<Project>, p: Project, id: string)
    ensures ProjectIndex(projects, id).Some? ==> ProjectIndex(projects + [p], id) == ProjectIndex(projects, id)
    ensures ProjectIndex(projects, id).None? && p.id == id ==> ProjectIndex(projects + [p], id) == Some(|projects|)
    ensures ProjectIndex(projects, id).None? && p.id != id ==> ProjectIndex(projects + [p], id).None?
  {
    var s := projects + [p];
    match ProjectIndex(projects, id)
    case Some(i) =>
      FirstIndexUnique(s, (q: Project) => q.id == id, i);
    case None =>
      if p.id == id {
        FirstIndexUnique(s, (q: Project) => q.id == id, |projects|);
      } else {
        assert forall j :: 0 <= j < |s| ==> s[j].id != id by {
          forall j | 0 <= j < |s| ensures s[j].id != id {
            if j < |projects| { assert s[j] == projects[j]; }
          }
        }
      }
  }

  /** Attaching a run keeps the project found, and that project's last run
      is the attached one. */
  lemma AttachRunVisible(projects: seq<Project>, id: string, run: Run)
    requires ProjectIndex(projects, id).Some?
    ensures var r := AttachRun(projects, ProjectIndex(projects, id).value, run);
      && FindProject(r, id).Some?
      && FindProject(r, id).value.runs == FindProject(projects, id).value.runs + [run]
  {
    var i := ProjectIndex(projects, id).value;
    var r := AttachRun(projects, i, run);
    FirstIndexUnique(r, (p: Project) => p.id == id, i);
  }

  class ApiService {
    var projects: seq<Project>
    var runs: map<string, Run>
    var clock: Stamp

    /** Starts empty (nothing restored from storage). */
    constructor (now: Stamp)
      ensures projects == [] && runs == map[] && clock == now
    {
      projects := [];
      runs := map[];
      clock := now;
    }

    function GetProject(id: string): (r: Option<Project>)
      reads this
      ensures r.Some? <==> exists i :: 0 <= i < |projects| && projects[i].id == id
      ensures r.Some? ==> r.value.id == id && r.value in projects
    {
      FindProject(projects, id)
    }

    /** Appends one new project with no runs. */
    method CreateProject(idea: string) returns (p: Project)
      modifies this
      ensures p == NewProject(idea, old(clock)) && p.runs == []
      ensures projects == old(projects) + [p] && runs == old(runs) && clock == old(clock) + 1
    {
      p := NewProject(idea, clock);
      clock := clock + 1;
      projects := projects + [p];
    }

    /** An idle run entered in the table and appended to the first project
      with the id; "Project not found" and no change when there is none. The
      agent list is accepted and ignored. */
    method CreateRun(projectId: string, activeAgents: seq<Agent>) returns (r: Result<string, string>)
      modifies this
      ensures ProjectIndex(old(projects), projectId).None? ==>
        r == Err("Project not found") && unchanged(this)
      ensures ProjectIndex(old(projects), projectId).Some? ==>
        var run := NewRun(projectId, old(clock));
        && r == Ok(run.id)
        && runs == old(runs)[run.id := run]
        && projects == AttachRun(old(projects), ProjectIndex(old(projects), projectId).value, run)
        && clock == old(clock) + 1
    {
      var project := FindProject(projects, projectId);
      if project.None? {
        return Err("Project not found");
      }
      var newRun := NewRun(projectId, clock);
      clock := clock + 1;
      runs := runs[newRun.id := newRun];
      var pIndex := ProjectIndex(projects, projectId);
      if pIndex.Some? {
        projects := AttachRun(projects, pIndex.value, newRun);
      }
      r := Ok(newRun.id);
    }

    /** Always stores the run in the table; replaces it in its project's list
      only when both are found. */
    method UpdateRun(run: Run)
      modifies this`runs, this`projects
      ensures runs == old(runs)[run.id := run]
      ensures projects == ReplaceRun(old(projects), run)
    {
      runs := runs[run.id := run];
      var pIndex := ProjectIndex(projects, run.projectId);
      if pIndex.Some? {
        var i := pIndex.value;
        var runIndex := RunIndex(projects[i].runs, run.id);
        if runIndex.Some? {
          projects := projects[i := projects[i].(runs := projects[i].runs[runIndex.value := run])];
        }
      }
    }
  }
}
