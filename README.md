# Agent simulator core, modelled in Dafny

The application lets a user enter a product idea and then runs a simulated
team of agents on it: a product manager, an engineer, a finance role and a
legal role each draft one artifact in a fixed five-stage pipeline. The
artifacts are a PRD, a tech spec, a cost analysis, a compliance checklist
and demo code. This project models the core of that application.

- **Shared datatypes** (`agent_model.dfy`, module `AgentModel`):
  - the closed enumerations: six roles, seven message kinds, five artifact types, four run statuses;
  - the records `Agent`, `Message`, `Artifact`, `Run` and `Project`;
  - the decimal rendering used in generated ids.
- **Orchestrator** (`orchestrator.dfy`, module `Orchestrator`):
  - The run registry is a class, `OrchestratorService`. Its `runs` map is replaced only by `UpdateRunState`.
  - The transforms of `addMessage` (append) and `addOrUpdateArtifact` (upsert by type) are pure functions.
  - `RunStage`, the five pipeline blocks, the finalisation, `RunSimulation` and `Start` are methods. Each is proved against a table-driven reference: `Pipeline`, `RunStages`, `StageLog` and `Transcript`.
  - A ghost `history` records every value the registry subject emits. The run being simulated only grows along it.
- **Pipeline properties** (`pipeline_properties.dfy`, module `PipelineProperties`): what the reference implies:
  - which stages execute;
  - the shape of the log;
  - which artifact types exist at the end;
  - which placeholder a stage falls back on.
- **Persistence** (`api_service.dfy`, module `Persistence`): `ApiService` as a class over a project list and a run table. It has `GetProject`, `CreateProject`, `CreateRun` and `UpdateRun`, plus lemmas about the list updates.
- **Project view** (`project_component.dfy`, module `ProjectView`):
  - the initial roster;
  - `canRun` and the `startRun` guard;
  - `toggleAgent`;
  - the filter of enabled agents;
  - the artifact map built by the effect (a loop proved against `ArtifactMap`);
  - `getAgent`;
  - loading a project and its latest run;
  - starting a run end to end through both services.

`wrappers.dfy` (module `Wrappers`) holds `Option`, `Result` and the first-match search behind `find`/`findIndex`.

Time and generation are modelled as follows:

- `Date.now()` and `new Date()` are one reading of a `clock` field, which advances by one per reading. A message's id and its timestamp share one reading.
- The text generator is a function parameter `generate` applied to a `Prompt`: the stage's artifact type and its subject (the idea, or the dependency's content or placeholder). `PromptText` gives the exact text the source sends. Any generator of strings from strings is covered, as the composition of that generator with `PromptText`; `TextDrivenPipeline` spells out what such a generator stores for the PRD, the placeholder tech spec and the compliance checklist.
- The asynchronous pipeline is run to completion inside `Start`. The subscriber of `startRun` receives the final state of the run.

Several behaviours one might expect are absent from the code, and the model
follows the code:

- `start` does not validate the idea or the agent list.
- `start` does not reject an id that is already registered; it overwrites the entry.
- No run ever reaches `failed`: `runStage` has no error handling.
- A stage is gated by its role being on the list handed to `start`, not by the agent's `enabled` flag (`GateIgnoresEnabled`).
- `createRun` accepts the agent list and ignores it.
- An empty artifact content falls back to the placeholder, as a missing one does. This is because the source uses `||`.

As written, the run the orchestrator registers has an empty `projectId`, and
nothing fills it in. Every `updateRun` of the live run therefore misses the
project, and the project's stored list keeps the run exactly as `createRun`
made it: `idle`. After the project is reloaded, its latest run is that idle
record, so `canRun` is false and no new run can be started for the project
(`StoredRunStaysIdle`). If the stored run carried its project's id, the
finished run would replace the idle record and the gate would open
(`OwnedRunReplacesIdle`).

## Model

| member | source | states |
|---|---|---|
| AgentModel.AllRoles | src/models/agent.model.ts:2 | exactly six roles; every role occurs once |
| AgentModel.AllMessageTypes | src/models/agent.model.ts:13 | exactly seven message kinds; every kind occurs once |
| AgentModel.AllArtifactTypes | src/models/agent.model.ts:24 | exactly five artifact types; every type occurs once |
| AgentModel.AllStatuses | src/models/agent.model.ts:33 | exactly four run statuses; every status occurs once |
| AgentModel.SenderNamesDistinct | src/models/agent.model.ts:18 | a sender is a role or the `'System'` sentinel; two senders have the same name iff they are the same sender |
| AgentModel.StatusRank | src/models/agent.model.ts:33 | the lifecycle position of a status: 0 exactly for idle, 2 exactly for succeeded and failed |
| AgentModel.Decimal | src/services/orchestrator.service.ts:94 | the rendering of a date reading in an id is a non-empty string of decimal digits, one digit exactly below ten |
| Orchestrator.NewMessage | src/services/orchestrator.service.ts:94 | the new message carries the given sender, kind and content and the timestamp read |
| Orchestrator.AppendMessage | src/services/orchestrator.service.ts:91-95 | exactly one message more, at the end; earlier messages unchanged and in order; every other field unchanged |
| Orchestrator.UpsertArtifact | src/services/orchestrator.service.ts:98-108 | the set of types gains the given type; one artifact per type is kept; an existing type is refreshed in place with its id and position kept; a new type is appended with a fresh id; other artifacts unchanged; the count grows by one exactly when the type is new |
| Orchestrator.ArtifactMap | src/components/project/project.component.ts:54-56 | the keys of the type map are exactly the types on the list, and each entry has its key's type |
| Orchestrator.ArtifactMapFindsFirst | src/services/orchestrator.service.ts:124 | with one artifact per type, `find` by type succeeds exactly when the type map has the type, and finds the map's entry |
| Orchestrator.FindContentAgrees | src/services/orchestrator.service.ts:130 | with one artifact per type, the content `find` reads is the content the abstract map holds |
| Orchestrator.ArtifactMapReplace | src/services/orchestrator.service.ts:103 | replacing an artifact in place by one of its type updates that type's map entry and nothing else |
| Orchestrator.UpsertContents | src/services/orchestrator.service.ts:98-108 | on the abstract type-to-content map, an upsert is a map update |
| Orchestrator.ApplyUpdate | src/services/orchestrator.service.ts:79-89 | a transform for an absent id emits nothing; otherwise only the entry of that id is set (to the given run or the transform of the current one) and every other entry is kept |
| Orchestrator.MonotoneSpan | src/services/orchestrator.service.ts:86-88 | along the emitted values, any later snapshot extends any earlier one: no other run changes, the log only grows, artifact types are never lost, the status never moves back, and one artifact per type stays one artifact per type |
| Orchestrator.EmissionsKeepOnePerType | src/services/orchestrator.service.ts:98-108 | once an emitted snapshot holds one artifact per type, every later emitted snapshot does too |
| Orchestrator.MessagesNeverShrink | src/services/orchestrator.service.ts:91-95 | across emissions the run's message count never decreases and earlier messages stay in place |
| Orchestrator.ContentOr | src/services/orchestrator.service.ts:124 | the found content if it is non-empty, else the placeholder |
| Orchestrator.PromptAgrees | src/services/orchestrator.service.ts:124-131 | with one artifact per type, the prompt built from the live artifact list equals the reference prompt built from the abstract contents |
| Orchestrator.OrchestratorService.constructor | src/services/orchestrator.service.ts:52 | the registry starts empty, and that empty map is its first emission |
| Orchestrator.OrchestratorService.GetRunUpdates | src/services/orchestrator.service.ts:69-77 | the stored run for a registered id; "Run not found" exactly when the id is absent |
| Orchestrator.OrchestratorService.UpdateRunState | src/services/orchestrator.service.ts:79-89 | the registry becomes `ApplyUpdate` of the old one, and each change is recorded as one emission; nothing is emitted for an absent id with a transform |
| Orchestrator.OrchestratorService.AddMessage | src/services/orchestrator.service.ts:91-96 | for a registered run, the run's log gets the new message appended, as one emission that extends the run; an absent run is left alone |
| Orchestrator.OrchestratorService.AddOrUpdateArtifact | src/services/orchestrator.service.ts:98-109 | for a registered run, the run's artifacts become the upsert, as one emission that extends the run; an absent run is left alone |
| Orchestrator.OrchestratorService.RunStage | src/services/orchestrator.service.ts:153-158 | the role's thought and draft notice are appended in that order; the generator's output is stored under the stage's type; nothing else changes; every emission extends the run |
| Orchestrator.OrchestratorService.PipelineStage | src/services/orchestrator.service.ts:123-126 | one pipeline block: when its role is absent nothing is emitted and the registry and clock are untouched; otherwise one reference stage on the log and on the contents, with the prompt read from the live artifacts |
| Orchestrator.OrchestratorService.RunPipeline | src/services/orchestrator.service.ts:117-142 | the five blocks in order append the reference stage log and turn the contents into the reference `RunStages` result, keeping one artifact per type |
| Orchestrator.OrchestratorService.Finish | src/services/orchestrator.service.ts:144-150 | a "Simulation finished." system notice is appended, then the run is succeeded with a finish time |
| Orchestrator.OrchestratorService.RunSimulation | src/services/orchestrator.service.ts:112-151 | the log grows by exactly the reference transcript, the contents become the reference result, and the run ends succeeded with a finish time; only this run changes, monotonically |
| Orchestrator.OrchestratorService.Start | src/services/orchestrator.service.ts:54-67 | returns a running run with an empty project id, log and artifacts, registered over any earlier entry under that id; the completed run holds the reference transcript and contents and is succeeded with a finish time; every value emitted from the start on holds one artifact per type |
| PipelineProperties.ExecutedFilters | src/services/orchestrator.service.ts:115-142 | a stage executes iff its role is on the agent list; with every role present all five execute |
| PipelineProperties.StageLogPairs | src/services/orchestrator.service.ts:153-158 | two log entries per executed stage, in execution order: the role's thought, then its draft notice |
| PipelineProperties.StageLogSpeakers | src/services/orchestrator.service.ts:154-156 | every stage entry is a thought or a draft notice by a role on the list |
| PipelineProperties.TranscriptShape | src/services/orchestrator.service.ts:112-151 | the log has 2 + 2·(executed stages) entries; it opens with the start notice and closes with the finish notice; only the system notice, thought and artifact-draft kinds occur; only listed roles speak |
| PipelineProperties.RunStagesKeys | src/services/orchestrator.service.ts:117-142 | the artifact types afterwards are the earlier ones plus the types of the executed stages |
| PipelineProperties.StepFacts | src/services/orchestrator.service.ts:153-158 | a stage writes only its own type, with the generator's output on its prompt, and only if its role is present |
| PipelineProperties.FinalContents | src/services/orchestrator.service.ts:117-142 | the final content of each of the five types, including the PRD and tech-spec placeholders when the producer is absent |
| PipelineProperties.TextDrivenPipeline | src/services/orchestrator.service.ts:119-136 | with a generator of strings applied to the text the driver sends, the PRD is its answer to the idea's PRD request, a tech spec without a Product Manager answers the request built on "No PRD available.", and the compliance checklist answers the idea's checklist request |
| PipelineProperties.FinalArtifactTypes | src/services/orchestrator.service.ts:117-142 | after a run a type exists iff the role producing it is on the list |
| PipelineProperties.OnlyProductManager | src/services/orchestrator.service.ts:118-120 | with only the product manager, the run ends with exactly a PRD generated from the idea |
| PipelineProperties.MissingDependency | src/services/orchestrator.service.ts:123-131 | an engineer without a product manager works from "No PRD available."; a finance role without an engineer works from "No Tech Spec available." |
| PipelineProperties.GateIgnoresEnabled | src/services/orchestrator.service.ts:115 | flipping an agent's enabled flag changes neither the roles present nor the executed stages |
| Persistence.ProjectIndex | src/services/api.service.ts:72 | the index of the first project with the id, or none when no project has it |
| Persistence.FindProject | src/services/api.service.ts:38 | the first project with the id; found iff some project has it |
| Persistence.RunIndex | src/services/api.service.ts:93 | the index of the first run with the id, or none when no run has it |
| Persistence.ReplaceRunKeepsShape | src/services/api.service.ts:90-99 | an update never adds, removes or reorders projects or runs, and changes nothing but run contents |
| Persistence.ReplaceRunEffect | src/services/api.service.ts:90-99 | when project and run are found, the run is replaced at its index and every other run and project is untouched; otherwise the list is unchanged |
| Persistence.ReplaceRunIdempotent | src/services/api.service.ts:88-101 | storing the same run twice is storing it once |
| Persistence.OrphanRunIgnored | src/services/api.service.ts:91-92 | a run naming no existing project leaves the project list unchanged |
| Persistence.ReplaceRunVisible | src/services/api.service.ts:90-99 | a stored run that was found is afterwards in the project its `projectId` finds |
| Persistence.AppendKeepsLookups | src/services/api.service.ts:49 | appending a project keeps every earlier lookup and makes the new id findable |
| Persistence.AttachRunVisible | src/services/api.service.ts:71-77 | after the push, the project is still found and its run list is the old one plus the new run at the end |
| Persistence.ApiService.constructor | src/services/api.service.ts:9-10 | no projects and no runs |
| Persistence.ApiService.GetProject | src/services/api.service.ts:37-40 | the first project with the id, or nothing when no project has it |
| Persistence.ApiService.CreateProject | src/services/api.service.ts:42-52 | one project with a fresh `proj_` id and no runs is appended; existing projects unchanged and in order |
| Persistence.ApiService.CreateRun | src/services/api.service.ts:54-81 | for an unknown project, "Project not found" and no change; otherwise an idle, empty, unfinished run is entered in the table and appended to that project's runs, and its id returned |
| Persistence.ApiService.UpdateRun | src/services/api.service.ts:88-101 | the table entry is always set; the project list is updated only when both project and run are found |
| ProjectView.AgentData | src/components/project/project.component.ts:9-16 | the roster record of each role carries that role, weight 2 for the CEO and 1 otherwise, and is enabled |
| ProjectView.InitialAgents | src/components/project/project.component.ts:34 | one record per role in declaration order |
| ProjectView.InitialRoster | src/components/project/project.component.ts:34 | every role is on the initial roster exactly once and enabled, so a run from it executes all five stages |
| ProjectView.ActiveAgents | src/components/project/project.component.ts:104 | the enabled agents of the list: an agent is kept iff it is on the list and enabled; empty iff no flag is set |
| ProjectView.Toggled | src/components/project/project.component.ts:94-98 | same length and order; only `enabled` may change, and it changes exactly for agents of the role |
| ProjectView.ToggleTwice | src/components/project/project.component.ts:94-98 | toggling a role twice restores the list |
| ProjectView.ToggleKeepsRoles | src/components/project/project.component.ts:94-98 | toggling keeps which roles are on the list |
| ProjectView.ToggleOtherRoles | src/components/project/project.component.ts:94-98 | toggling a role leaves every other role active or inactive as it was |
| ProjectView.ToggleOwnRole | src/components/project/project.component.ts:94-98 | with one agent per role, toggling a listed role switches it in or out of the active roles |
| ProjectView.CanRun | src/components/project/project.component.ts:44-47 | true iff there is no current run or its status is terminal (succeeded or failed) |
| ProjectView.StartRefused | src/components/project/project.component.ts:100-108 | an idle or running current run refuses a start, and so does a roster with no flag set; a loaded project with no current run and one enabled agent is admitted |
| ProjectView.LatestRun | src/components/project/project.component.ts:72 | none iff the project has no runs; otherwise the last run of the list |
| ProjectView.BuildArtifactMap | src/components/project/project.component.ts:54-56 | the loop's map is the type map `ArtifactMap` of the run's artifacts |
| ProjectView.ArtifactMapLastWins | src/components/project/project.component.ts:55 | the entry of a type is the last artifact of that type on the list |
| ProjectView.GetAgent | src/components/project/project.component.ts:124-129 | the card of the sender: the fixed system card; an agent's card when its role is listed; otherwise a default card named after the role |
| ProjectView.GetAgentFirst | src/components/project/project.component.ts:128 | a listed role is drawn with the card of its first agent |
| ProjectView.InitialCards | src/components/project/project.component.ts:9-16 | on the initial roster each role is drawn with its own roster record |
| ProjectView.StoredRunStaysIdle | src/services/orchestrator.service.ts:57 | when the stored run has an empty project id, the project's latest stored run stays the idle one `createRun` made, and `canRun` is false on it |
| ProjectView.OwnedRunReplacesIdle | src/services/api.service.ts:90-99 | a finished run carrying its project's id replaces the idle record, so it becomes the latest run and `canRun` holds |
| ProjectView.ProjectComponent.constructor | src/components/project/project.component.ts:31-40 | nothing loaded, no messages or artifacts, loading, the full roster enabled |
| ProjectView.ProjectComponent.ShowRun | src/components/project/project.component.ts:50-58 | the current run is set, and the shown log and type map are the run's |
| ProjectView.ProjectComponent.OnInit | src/components/project/project.component.ts:61-86 | a found project is loaded and its latest run (if any) shown; an unknown id gives "Project not found."; loading ends either way; no id changes nothing |
| ProjectView.ProjectComponent.ToggleAgent | src/components/project/project.component.ts:94-98 | the roster becomes the toggled list |
| ProjectView.ProjectComponent.StartRun | src/components/project/project.component.ts:100-120 | nothing changes when the guard fails or the project is no longer stored. Otherwise: a run is created and started with the enabled agents and shown; the orchestrator's final run keeps the created id and the start time but has an empty project id, and only that entry of the registry changes; it is complete (succeeded, the reference log and contents); `canRun` holds again on the view; the final run is written to the table and offered to the project list, where no project claims it, so the project's latest stored run stays the idle one `createRun` made and `canRun` is false on it |
| ProjectView.ProjectComponent.RunAndStore | src/components/project/project.component.ts:111-118 | the view is cleared, the run started and shown, and the final state stored through `updateRun`; the final run carries the given id, an empty project id and the start time; only that registry entry changes, and every emission extends it |

## Left out

- `MockLlmService` (random delays and canned text) is replaced by the `generate` parameter. Its text is not modelled.
- rxjs is not modelled: `BehaviorSubject`, `pipe`/`map`, subscriptions and their teardown (`ngOnDestroy`), and `delay`/`of`/`throwError`. Emissions are recorded in a ghost history. The project view's subscriber is handed only the final state of the run, so the intermediate states it would store are not modelled.
- `async`/`await` interleaving, and several runs or several views at once, are not modelled. One pipeline runs to completion inside `Start`.
- `localStorage`, JSON serialisation and the date reviver are not modelled. The constructor of `ApiService` starts empty instead of restoring state. `getProjects`, `getRun` and `saveState` are not modelled, being reads or I/O.
- Ids from `Date.now()` are not claimed to be unique, because the source does not make them unique. Dates are counts from an abstract clock.
- The `metadata` field of a message is never set by the source and is not modelled.
- Object aliasing between the view's project, the service's list and its run table is not modelled. After `createRun` pushes into the project's run list, the view's copy of the project does not change. The view never reads that list again before a reload.
- The route parameter of `ngOnInit` is a parameter. Navigation away when it is missing is not modelled, and neither is the error path 'Failed to load project.': the in-memory lookup cannot fail.
- The rest of the user interface is not modelled: routing, the home component, the `activeTab` signal, `getArtifact`, `artifactTypes`, `copyContent` and `downloadContent`.
- Orchestrator.OrchestratorService.AddMessage: the clock advances even when the run is absent, whereas the source reads the date only inside the transform. The clock is abstract, so no stated property depends on it.
- Orchestrator.OrchestratorService.AddOrUpdateArtifact: the clock advances even when the run is absent, for the same reason as `AddMessage`.
- ProjectView.ProjectComponent.StartRun: the claim that the latest stored run stays idle is stated only when no stored project has the empty id; a project with that id could claim the orchestrator's run.
