/** The run orchestration engine: a registry from run id to run state that
    changes only through `UpdateRunState`, the two pure transforms that feed
    it (append a message, upsert an artifact by type), and the driver that
    walks the fixed five-stage pipeline for one run.

    The text generator is the parameter `generate`; date readings come from
    the `clock` field, which advances by one per reading. The asynchronous
    pipeline is run to completion inside `Start`, one step per awaited stage,
    and the ghost `history` records every value the registry subject emits. */
module Orchestrator {
  import opened Wrappers
  import opened AgentModel

  // ---------------------------------------------------------------------
  // Messages

  /** What `addMessage` is given: a message without its id and timestamp. */
  datatype Entry = Entry(sender: Sender, kind: MessageType, content: string)

  function EntryOf(m: Message): Entry
  {
    Entry(m.sender, m.kind, m.content)
  }

  /** The log of a run with ids and timestamps dropped. */
  function Entries(ms: seq<Message>): (r: seq<Entry>)
    ensures |r| == |ms|
    ensures forall i :: 0 <= i < |ms| ==> r[i] == EntryOf(ms[i])
  {
    if ms == [] then [] else Entries(ms[..|ms| - 1]) + [EntryOf(ms[|ms| - 1])]
  }

  lemma EntriesSnoc(ms: seq<Message>, m: Message)
    ensures Entries(ms + [m]) == Entries(ms) + [EntryOf(m)]
  {
    assert (ms + [m])[..|ms|] == ms;
  }

  function MessageId(t: Stamp): string
  {
    "msg_" + Decimal(t)
  }

  function NewMessage(e: Entry, t: Stamp): (m: Message)
    ensures EntryOf(m) == e && m.timestamp == t
  {
    Message(MessageId(t), t, e.sender, e.kind, e.content)
  }

  /** The transform `addMessage` hands to the registry: one message more at
      the end, earlier messages untouched and in order, nothing else changed. */
  function AppendMessage(run: Run, m: Message): (r: Run)
    ensures |r.messages| == |run.messages| + 1
    ensures run.messages <= r.messages && r.messages[|run.messages|] == m
    ensures r.(messages := run.messages) == run
  {
    run.(messages := run.messages + [m])
  }

  // ---------------------------------------------------------------------
  // Artifacts, keyed by type

  function Kinds(arts: seq<Artifact>): set<ArtifactType>
  {
    set i | 0 <= i < |arts| :: arts[i].kind
  }

  /** At most one artifact per type. */
  predicate OnePerType(arts: seq<Artifact>)
  {
    forall i, j :: 0 <= i < j < |arts| ==> arts[i].kind != arts[j].kind
  }

  function ArtifactId(t: Stamp): string
  {
    "art_" + Decimal(t)
  }

  /** `findIndex(a => a.type === kind)`. */
  function IndexOfKind(arts: seq<Artifact>, kind: ArtifactType): Option<nat>
  {
    FirstIndex(arts, (a: Artifact) => a.kind == kind)
  }

  /** The transform `addOrUpdateArtifact` hands to the registry: refresh the
      first artifact of that type in place, or append a new one. */
  function UpsertArtifact(arts: seq<Artifact>, kind: ArtifactType, content: string, t: Stamp): (r: seq<Artifact>)
    ensures Kinds(r) == Kinds(arts) + {kind}
    ensures OnePerType(arts) ==> OnePerType(r)
    ensures |r| == (if kind in Kinds(arts) then |arts| else |arts| + 1)
    ensures forall i :: 0 <= i < |arts| ==> r[i].id == arts[i].id && r[i].kind == arts[i].kind
    ensures forall i :: 0 <= i < |arts| && arts[i].kind != kind ==> r[i] == arts[i]
    ensures kind !in Kinds(arts) ==> r[|arts|] == Artifact(ArtifactId(t), kind, content, t)
    ensures exists i :: 0 <= i < |r| && r[i].kind == kind && r[i].content == content && r[i].updatedAt == t
  {
    match IndexOfKind(arts, kind)
    case Some(i) =>
      var r := arts[i := arts[i].(content := content, updatedAt := t)];
      assert forall j :: 0 <= j < |r| ==> r[j].kind == arts[j].kind;
      r
    case None =>
      var r := arts + [Artifact(ArtifactId(t), kind, content, t)];
      assert Kinds(r) == Kinds(arts) + {kind} by {
        assert forall j :: 0 <= j < |arts| ==> r[j] == arts[j];
        assert r[|arts|].kind == kind;
      }
      r
  }

  /** The latest artifact per type, a later entry of a type overwriting an
      earlier one (the map the project view builds from a run). */
  function ArtifactMap(arts: seq<Artifact>): (m: map<ArtifactType, Artifact>)
    ensures m.Keys == Kinds(arts)
    ensures forall k :: k in m ==> m[k].kind == k
  {
    if arts == [] then map[]
    else
      var init := arts[..|arts| - 1];
      var last := arts[|arts| - 1];
      assert Kinds(arts) == Kinds(init) + {last.kind} by {
        assert forall i :: 0 <= i < |init| ==> init[i] == arts[i];
      }
      ArtifactMap(init)[last.kind := last]
  }

  /** The content per type: the abstract value of a run's artifact list. */
  function Contents(arts: seq<Artifact>): (m: map<ArtifactType, string>)
    ensures m.Keys == Kinds(arts)
  {
    var am := ArtifactMap(arts);
    map k | k in am :: am[k].content
  }

  /** The value a map entry maps to, or nothing. */
  function Lookup(m: map<ArtifactType, string>, kind: ArtifactType): Option<string>
  {
    if kind in m then Some(m[kind]) else None
  }

  /** `artifacts.find(a => a.type === kind)?.content`. */
  function FindContent(arts: seq<Artifact>, kind: ArtifactType): Option<string>
  {
    match IndexOfKind(arts, kind)
    case Some(i) => Some(arts[i].content)
    case None => None
  }

  /** With one artifact per type, the entry of the type map is the one the
      first-match search finds. */
  lemma {:induction false} ArtifactMapFindsFirst(arts: seq<Artifact>, kind: ArtifactType)
    requires OnePerType(arts)
    ensures IndexOfKind(arts, kind).Some? <==> kind in ArtifactMap(arts)
    ensures IndexOfKind(arts, kind).Some? ==> ArtifactMap(arts)[kind] == arts[IndexOfKind(arts, kind).value]
  {
    if arts != [] {
      var init := arts[..|arts| - 1];
      var last := arts[|arts| - 1];
      assert OnePerType(init);
      ArtifactMapFindsFirst(init, kind);
      var pInit := FirstIndex(init, (a: Artifact) => a.kind == kind);
      var p := IndexOfKind(arts, kind);
      if last.kind == kind {
        assert pInit.None?;
        assert p == Some(|arts| - 1);
      } else {
        assert p == pInit by {
          if pInit.Some? {
            assert arts[pInit.value] == init[pInit.value];
          } else {
            assert forall j :: 0 <= j < |arts| ==> arts[j].kind != kind by {
              forall j | 0 <= j < |arts| ensures arts[j].kind != kind {
                if j < |arts| - 1 { assert arts[j] == init[j]; }
              }
            }
          }
        }
      }
    }
  }

  lemma FindContentAgrees(arts: seq<Artifact>, kind: ArtifactType)
    requires OnePerType(arts)
    ensures FindContent(arts, kind) == Lookup(Contents(arts), kind)
  {
    ArtifactMapFindsFirst(arts, kind);
  }

  /** Replacing an artifact by one of the same type replaces that type's
      entry in the type map, provided types are unique. */
  lemma {:induction false} ArtifactMapReplace(arts: seq<Artifact>, i: nat, x: Artifact)
    requires OnePerType(arts) && i < |arts| && x.kind == arts[i].kind
    ensures ArtifactMap(arts[i := x]) == ArtifactMap(arts)[x.kind := x]
  {
    var n := |arts|;
    var arts' := arts[i := x];
    if i == n - 1 {
      assert arts'[..n - 1] == arts[..n - 1];
    } else {
      assert arts'[..n - 1] == arts[..n - 1][i := x];
      assert OnePerType(arts[..n - 1]);
      ArtifactMapReplace(arts[..n - 1], i, x);
      assert arts[n - 1].kind != x.kind;
    }
  }

  lemma ContentsFollowMap(arts: seq<Artifact>, arts': seq<Artifact>, x: Artifact)
    requires ArtifactMap(arts') == ArtifactMap(arts)[x.kind := x]
    ensures Contents(arts') == Contents(arts)[x.kind := x.content]
  {
    var m, m' := ArtifactMap(arts), ArtifactMap(arts');
    assert Contents(arts').Keys == (Contents(arts)[x.kind := x.content]).Keys;
    forall k | k in m'
      ensures Contents(arts')[k] == (Contents(arts)[x.kind := x.content])[k]
    {
      if k != x.kind {
        assert m'[k] == m[k];
      }
    }
  }

  /** On the abstract value, an upsert is a map update. */
  lemma UpsertContents(arts: seq<Artifact>, kind: ArtifactType, content: string, t: Stamp)
    requires OnePerType(arts)
    ensures Contents(UpsertArtifact(arts, kind, content, t)) == Contents(arts)[kind := content]
  {
    var r := UpsertArtifact(arts, kind, content, t);
    match IndexOfKind(arts, kind)
    case Some(i) =>
      var x := arts[i].(content := content, updatedAt := t);
      assert r == arts[i := x];
      ArtifactMapReplace(arts, i, x);
      ContentsFollowMap(arts, r, x);
    case None =>
      var x := Artifact(ArtifactId(t), kind, content, t);
      assert r == arts + [x];
      assert r[..|r| - 1] == arts;
      ContentsFollowMap(arts, r, x);
  }

  // ---------------------------------------------------------------------
  // The registry transition

  /** The second argument of `updateRunState`: a whole run, or a function
      from the current run to the next. */
  datatype RunUpdate = Replace(run: Run) | Transform(f: Run -> Run)

  /** `updateRunState` on the registry value; None when nothing is emitted. */
  function ApplyUpdate(runs: map<string, Run>, runId: string, u: RunUpdate): (r: Option<map<string, Run>>)
    ensures r.None? <==> u.Transform? && runId !in runs
    ensures r.Some? ==> runId in r.value && r.value.Keys == runs.Keys + {runId}
    ensures r.Some? ==> forall k :: k in runs && k != runId ==> r.value[k] == runs[k]
    ensures r.Some? && u.Replace? ==> r.value[runId] == u.run
    ensures r.Some? && u.Transform? ==> r.value[runId] == u.f(runs[runId])
  {
    if u.Transform? && runId !in runs then None
    else Some(runs[runId := if u.Replace? then u.run else u.f(runs[runId])])
  }

  /** One emission as seen from run `runId`: no other run changes, and the
      run's log, artifact types and status only move forward. */
  ghost predicate Extends(before: map<string, Run>, after: map<string, Run>, runId: string)
  {
    && runId in before && runId in after
    && after == before[runId := after[runId]]
    && before[runId].messages <= after[runId].messages
    && Kinds(before[runId].artifacts) <= Kinds(after[runId].artifacts)
    && |before[runId].artifacts| <= |after[runId].artifacts|
    && StatusRank(before[runId].status) <= StatusRank(after[runId].status)
    && (OnePerType(before[runId].artifacts) ==> OnePerType(after[runId].artifacts))
  }

  /** From index `from` on, every consecutive pair of snapshots is an
      `Extends` step. */
  ghost predicate MonotoneFrom(snaps: seq<map<string, Run>>, from: nat, runId: string)
  {
    forall i :: from <= i < |snaps| - 1 ==> Extends(snaps[i], snaps[i + 1], runId)
  }

  lemma ExtendsTransitive(a: map<string, Run>, b: map<string, Run>, c: map<string, Run>, runId: string)
    requires Extends(a, b, runId) && Extends(b, c, runId)
    ensures Extends(a, c, runId)
  {
  }

  /** Any two snapshots of a monotone stretch are ordered: the later one
      extends the earlier. */
  lemma {:induction false} MonotoneSpan(snaps: seq<map<string, Run>>, from: nat, runId: string, i: nat, j: nat)
    requires MonotoneFrom(snaps, from, runId) && from <= i < j < |snaps|
    ensures Extends(snaps[i], snaps[j], runId)
  {
    if j > i + 1 {
      MonotoneSpan(snaps, from, runId, i, j - 1);
      ExtendsTransitive(snaps[i], snaps[j - 1], snaps[j], runId);
    }
  }

  /** Across emissions the message count of the run never decreases and
      earlier messages stay in place. */
  lemma MessagesNeverShrink(snaps: seq<map<string, Run>>, from: nat, runId: string, i: nat, j: nat)
    requires MonotoneFrom(snaps, from, runId) && from <= i < j < |snaps|
    ensures runId in snaps[i] && runId in snaps[j]
    ensures snaps[i][runId].messages <= snaps[j][runId].messages
    ensures |snaps[i][runId].messages| <= |snaps[j][runId].messages|
  {
    MonotoneSpan(snaps, from, runId, i, j);
  }

  /** Once a snapshot of a monotone stretch holds one artifact per type, every
      later snapshot does too. */
  lemma EmissionsKeepOnePerType(snaps: seq<map<string, Run>>, from: nat, runId: string)
    requires MonotoneFrom(snaps, from, runId) && from < |snaps|
    requires runId in snaps[from] && OnePerType(snaps[from][runId].artifacts)
    ensures forall i :: from <= i < |snaps| ==> runId in snaps[i] && OnePerType(snaps[i][runId].artifacts)
  {
    forall i | from < i < |snaps|
      ensures runId in snaps[i] && OnePerType(snaps[i][runId].artifacts)
    {
      MonotoneSpan(snaps, from, runId, from, i);
    }
  }

  /** A monotone stretch stays monotone when the stream grows by a monotone
      tail starting at its last snapshot. */
  lemma MonotoneGrow(h: seq<map<string, Run>>, h': seq<map<string, Run>>, from: nat, runId: string)
    requires from < |h| && h <= h'
    requires MonotoneFrom(h, from, runId) && MonotoneFrom(h', |h| - 1, runId)
    ensures MonotoneFrom(h', from, runId)
  {
    forall i | from <= i < |h'| - 1
      ensures Extends(h'[i], h'[i + 1], runId)
    {
      if i + 1 < |h| {
        assert h'[i] == h[i] && h'[i + 1] == h[i + 1];
      }
    }
  }

  /** Three successive `Extends` emissions, each appended to the history,
      form a monotone stretch that changed only run `runId`. */
  lemma ThreeEmissions(h0: seq<map<string, Run>>, h1: seq<map<string, Run>>, h2: seq<map<string, Run>>,
                       h3: seq<map<string, Run>>, m: map<string, Run>, a: map<string, Run>,
                       b: map<string, Run>, c: map<string, Run>, runId: string)
    requires |h0| > 0 && h0[|h0| - 1] == m && h1 == h0 + [a] && h2 == h1 + [b] && h3 == h2 + [c]
    requires Extends(m, a, runId) && Extends(a, b, runId) && Extends(b, c, runId)
    ensures h0 <= h3 && MonotoneFrom(h3, |h0| - 1, runId)
    ensures Extends(h0[|h0| - 1], c, runId)
  {
    var n := |h0|;
    assert h3 == h0 + [a, b, c];
    assert h3[n - 1] == h0[n - 1] && h3[n] == a && h3[n + 1] == b && h3[n + 2] == c;
    ExtendsTransitive(h0[n - 1], a, b, runId);
    ExtendsTransitive(h0[n - 1], b, c, runId);
  }

  // ---------------------------------------------------------------------
  // The stage pipeline, as a table (the reference the driver is proved
  // against)

  datatype Stage = Stage(role: AgentRole, kind: ArtifactType)

  /** The five stages in their fixed order. */
  function Pipeline(): seq<Stage>
  {
    [Stage(PM, PRD), Stage(Engineer, TechSpec), Stage(Finance, CostAnalysis),
     Stage(Legal, Compliance), Stage(Engineer, DemoCode)]
  }

  /** `agentMap.has(role)` holds exactly for the roles present in the list,
      whatever their `enabled` flag. */
  function RolesOf(agents: seq<Agent>): set<AgentRole>
  {
    set a | a in agents :: a.role
  }

  /** `found || placeholder`: a missing or empty content gives the placeholder. */
  function ContentOr(found: Option<string>, placeholder: string): (r: string)
    ensures found.Some? && found.value != "" ==> r == found.value
    ensures found.None? || found.value == "" ==> r == placeholder
  {
    if found.Some? && found.value != "" then found.value else placeholder
  }

  /** What a stage asks the generator: its artifact type and what the prompt
      is about -- the idea, or the content (or placeholder) of the artifact it
      depends on. The generator is a function of this; `PromptText` is the
      text the driver sends. */
  datatype Prompt = Prompt(kind: ArtifactType, subject: string)

  function PromptText(p: Prompt): string
  {
    match p.kind
    case PRD => "Generate a Product Requirements Document (PRD) for the idea: \"" + p.subject + "\""
    case TechSpec => "Based on the following PRD, create a Technical Specification. PRD: " + p.subject
    case CostAnalysis =>
      "Based on the following Tech Spec, create a Cost Analysis and Pricing model. Tech Spec: " + p.subject
    case Compliance => "For the idea \"" + p.subject + "\", generate a basic Compliance checklist."
    case DemoCode =>
      "Generate a simple demo code snippet (e.g., a Python FastAPI endpoint) for the idea: \"" + p.subject + "\""
  }

  const NoPrd := "No PRD available."
  const NoTechSpec := "No Tech Spec available."

  /** The prompt of the stage producing `kind`, given the artifacts so far. */
  function StagePrompt(kind: ArtifactType, idea: string, contents: map<ArtifactType, string>): Prompt
  {
    match kind
    case TechSpec => Prompt(TechSpec, ContentOr(Lookup(contents, PRD), NoPrd))
    case CostAnalysis => Prompt(CostAnalysis, ContentOr(Lookup(contents, TechSpec), NoTechSpec))
    case _ => Prompt(kind, idea)
  }

  /** One stage on the abstract artifact contents: skipped entirely when its
      role is absent, otherwise its type gets the generator's output. */
  function StepContents(contents: map<ArtifactType, string>, s: Stage, idea: string,
                        roles: set<AgentRole>, generate: Prompt -> string): map<ArtifactType, string>
  {
    if s.role in roles then contents[s.kind := generate(StagePrompt(s.kind, idea, contents))]
    else contents
  }

  /** The prompt the driver builds for a stage, reading its dependency (if
      any) from the run's artifact list by first match. */
  function SourcePrompt(kind: ArtifactType, idea: string, arts: seq<Artifact>): Prompt
  {
    match kind
    case TechSpec => Prompt(TechSpec, ContentOr(FindContent(arts, PRD), NoPrd))
    case CostAnalysis => Prompt(CostAnalysis, ContentOr(FindContent(arts, TechSpec), NoTechSpec))
    case _ => Prompt(kind, idea)
  }

  /** With one artifact per type, the driver's prompt is the reference's. */
  lemma PromptAgrees(kind: ArtifactType, idea: string, arts: seq<Artifact>)
    requires OnePerType(arts)
    ensures SourcePrompt(kind, idea, arts) == StagePrompt(kind, idea, Contents(arts))
  {
    FindContentAgrees(arts, PRD);
    FindContentAgrees(arts, TechSpec);
  }

  /** The artifact contents after running `stages` in order. */
  function RunStages(contents: map<ArtifactType, string>, stages: seq<Stage>, idea: string,
                     roles: set<AgentRole>, generate: Prompt -> string): map<ArtifactType, string>
    decreases |stages|
  {
    if stages == [] then contents
    else RunStages(StepContents(contents, stages[0], idea, roles, generate), stages[1..], idea, roles, generate)
  }

  /** The two messages one executed stage appends, both by its role. */
  function StageEntries(s: Stage): seq<Entry>
  {
    [Entry(Role(s.role), Thought, ThinkingText(s.kind)), Entry(Role(s.role), ArtifactDraft, DraftText(s.kind))]
  }

  function ThinkingText(kind: ArtifactType): string
  {
    "Thinking about the " + ArtifactTypeName(kind) + "..."
  }

  function DraftText(kind: ArtifactType): string
  {
    "Generated a draft for the " + ArtifactTypeName(kind) + "."
  }

  function StepLog(s: Stage, roles: set<AgentRole>): seq<Entry>
  {
    if s.role in roles then StageEntries(s) else []
  }

  /** The messages the stages append, in stage order. */
  function StageLog(stages: seq<Stage>, roles: set<AgentRole>): seq<Entry>
    decreases |stages|
  {
    if stages == [] then [] else StepLog(stages[0], roles) + StageLog(stages[1..], roles)
  }

  /** The stages that execute, in order. */
  function Executed(stages: seq<Stage>, roles: set<AgentRole>): seq<Stage>
    decreases |stages|
  {
    if stages == [] then []
    else (if stages[0].role in roles then [stages[0]] else []) + Executed(stages[1..], roles)
  }

  /** `agents.map(a => a.role).join(', ')`. */
  function JoinRoles(agents: seq<Agent>): string
    decreases |agents|
  {
    if agents == [] then ""
    else if |agents| == 1 then RoleName(agents[0].role)
    else RoleName(agents[0].role) + ", " + JoinRoles(agents[1..])
  }

  function StartNotice(idea: string, agents: seq<Agent>): string
  {
    "Simulation started for idea: \"" + idea + "\" with agents: " + JoinRoles(agents) + "."
  }

  const FinishNotice := "Simulation finished."

  /** The whole log a simulation appends. */
  function Transcript(idea: string, agents: seq<Agent>): seq<Entry>
  {
    [Entry(System, SystemNotice, StartNotice(idea, agents))]
    + StageLog(Pipeline(), RolesOf(agents))
    + [Entry(System, SystemNotice, FinishNotice)]
  }

  // ---------------------------------------------------------------------
  // The service

  class OrchestratorService {
    var runs: map<string, Run>
    var clock: Stamp
    ghost var history: seq<map<string, Run>>

    /** The subject's current value is the last value it emitted. */
    ghost predicate Valid()
      reads this
    {
      |history| > 0 && history[|history| - 1] == runs
    }

    /** A `BehaviorSubject` seeded with an empty map emits it once. */
    constructor (now: Stamp)
      ensures Valid()
      ensures runs == map[] && clock == now && history == [map[]]
    {
      runs := map[];
      clock := now;
      history := [map[]];
    }

    /** `Date.now()` / `new Date()`. */
    method Now() returns (t: Stamp)
      modifies this`clock
      ensures t == old(clock) && clock == old(clock) + 1
    {
      t := clock;
      clock := clock + 1;
    }

    /** The current state of a run, or the error a subscriber receives. */
    function GetRunUpdates(runId: string): (r: Result<Run, string>)
      reads this
      ensures r.Ok? <==> runId in runs
      ensures r.Ok? ==> r.value == runs[runId]
      ensures r.Err? ==> r.error == "Run not found"
    {
      if runId in runs then Ok(runs[runId]) else Err("Run not found")
    }

    method UpdateRunState(runId: string, u: RunUpdate)
      requires Valid()
      modifies this`runs, this`history
      ensures Valid()
      ensures ApplyUpdate(old(runs), runId, u).None? ==> runs == old(runs) && history == old(history)
      ensures ApplyUpdate(old(runs), runId, u).Some? ==>
        runs == ApplyUpdate(old(runs), runId, u).value && history == old(history) + [runs]
    {
      if runId !in runs && u.Transform? {
        return;
      }
      var newRun := if u.Transform? then u.f(runs[runId]) else u.run;
      runs := runs[runId := newRun];
      history := history + [runs];
    }

    method AddMessage(runId: string, sender: Sender, kind: MessageType, content: string)
      requires Valid()
      modifies this
      ensures Valid() && clock == old(clock) + 1
      ensures runId !in old(runs) ==> runs == old(runs) && history == old(history)
      ensures runId in old(runs) ==>
        && runs == old(runs)[runId := AppendMessage(old(runs)[runId], NewMessage(Entry(sender, kind, content), old(clock)))]
        && history == old(history) + [runs]
        && Extends(old(runs), runs, runId)
    {
      var t := Now();
      var m := NewMessage(Entry(sender, kind, content), t);
      UpdateRunState(runId, Transform((r: Run) => AppendMessage(r, m)));
    }

    method AddOrUpdateArtifact(runId: string, kind: ArtifactType, content: string)
      requires Valid()
      modifies this
      ensures Valid() && clock == old(clock) + 1
      ensures runId !in old(runs) ==> runs == old(runs) && history == old(history)
      ensures runId in old(runs) ==>
        && runs == old(runs)[runId := old(runs)[runId].(artifacts := UpsertArtifact(old(runs)[runId].artifacts, kind, content, old(clock)))]
        && history == old(history) + [runs]
        && Extends(old(runs), runs, runId)
    {
      var t := Now();
      UpdateRunState(runId, Transform((r: Run) => r.(artifacts := UpsertArtifact(r.artifacts, kind, content, t))));
    }

    /** One stage: a thought, the generator call, a draft notice, the upsert. */
    method RunStage(runId: string, role: AgentRole, prompt: Prompt, kind: ArtifactType, generate: Prompt -> string)
      requires Valid() && runId in runs
      modifies this
      ensures Valid() && runId in runs && runs == old(runs)[runId := runs[runId]]
      ensures runs[runId] == old(runs)[runId].(messages := runs[runId].messages, artifacts := runs[runId].artifacts)
      ensures old(runs)[runId].messages <= runs[runId].messages
      ensures Entries(runs[runId].messages) == Entries(old(runs)[runId].messages) + StageEntries(Stage(role, kind))
      ensures OnePerType(old(runs)[runId].artifacts) ==>
        OnePerType(runs[runId].artifacts)
        && Contents(runs[runId].artifacts) == Contents(old(runs)[runId].artifacts)[kind := generate(prompt)]
      ensures old(history) <= history && MonotoneFrom(history, |old(history)| - 1, runId)
    {
      ghost var h0, m0 := history, runs;
      AddMessage(runId, Role(role), Thought, ThinkingText(kind));
      ghost var h1, m1 := history, runs;
      var result := generate(prompt);
      AddMessage(runId, Role(role), ArtifactDraft, DraftText(kind));
      ghost var h2, m2 := history, runs;
      AddOrUpdateArtifact(runId, kind, result);
      StageEffect(h0, h1, h2, history, m0, m1, m2, runs, runId, Stage(role, kind), result, old(clock));
    }

    /** One `if (agentMap.has(role)) { ... await this.runStage(...) }` block. */
    method PipelineStage(runId: string, s: Stage, idea: string, roles: set<AgentRole>, generate: Prompt -> string,
                         ghost base: map<string, Run>, ghost from: nat)
      requires Valid() && runId in base && runId in runs && runs == base[runId := runs[runId]] && OnePerType(runs[runId].artifacts)
      requires from < |history| && MonotoneFrom(history, from, runId)
      modifies this
      ensures Valid() && runId in runs && runs == base[runId := runs[runId]]
      ensures StageStep(old(runs)[runId], runs[runId], s, idea, roles, generate)
      ensures s.role !in roles ==> runs == old(runs) && history == old(history) && clock == old(clock)
      ensures old(history) <= history && MonotoneFrom(history, from, runId)
    {
      if s.role in roles {
        var prompt := SourcePrompt(s.kind, idea, runs[runId].artifacts);
        PromptAgrees(s.kind, idea, runs[runId].artifacts);
        ghost var h, r := history, runs[runId];
        RunStage(runId, s.role, prompt, s.kind, generate);
        MonotoneGrow(h, history, from, runId);
        Overwrite(base, runId, r, runs[runId]);
      } else {
        assert Entries(runs[runId].messages) + [] == Entries(runs[runId].messages);
      }
    }

    /** The five `if (agentMap.has(role))` blocks, in their fixed order. */
    method RunPipeline(runId: string, idea: string, roles: set<AgentRole>, generate: Prompt -> string,
                       ghost base: map<string, Run>, ghost from: nat)
      requires Valid() && runId in base && runId in runs && runs == base[runId := runs[runId]] && OnePerType(runs[runId].artifacts)
      requires from < |history| && MonotoneFrom(history, from, runId)
      modifies this
      ensures Valid() && runId in runs && runs == base[runId := runs[runId]]
      ensures runs[runId] == old(runs)[runId].(messages := runs[runId].messages, artifacts := runs[runId].artifacts)
      ensures old(runs)[runId].messages <= runs[runId].messages
      ensures Entries(runs[runId].messages) == Entries(old(runs)[runId].messages) + StageLog(Pipeline(), roles)
      ensures OnePerType(runs[runId].artifacts)
      ensures Contents(runs[runId].artifacts)
        == RunStages(Contents(old(runs)[runId].artifacts), Pipeline(), idea, roles, generate)
      ensures old(history) <= history && MonotoneFrom(history, from, runId)
    {
      ghost var r0 := runs[runId];
      // STAGE 1: PRD
      PipelineStage(runId, Pipeline()[0], idea, roles, generate, base, from);
      ghost var r1 := runs[runId];
      assert old(history) <= history;
      // STAGE 2: Tech Spec (reads the PRD)
      PipelineStage(runId, Pipeline()[1], idea, roles, generate, base, from);
      ghost var r2 := runs[runId];
      assert old(history) <= history;
      // STAGE 3: Cost Analysis (reads the Tech Spec)
      PipelineStage(runId, Pipeline()[2], idea, roles, generate, base, from);
      ghost var r3 := runs[runId];
      assert old(history) <= history;
      // STAGE 4: Compliance
      PipelineStage(runId, Pipeline()[3], idea, roles, generate, base, from);
      ghost var r4 := runs[runId];
      assert old(history) <= history;
      // STAGE 5: Demo Code
      PipelineStage(runId, Pipeline()[4], idea, roles, generate, base, from);
      assert old(history) <= history;
      PipelineComposes(r0, r1, r2, r3, r4, runs[runId], idea, roles, generate);
    }

    /** The finalisation: a finish notice, then `succeeded` with a finish time. */
    method Finish(runId: string, ghost base: map<string, Run>, ghost from: nat)
      requires Valid() && runId in base && runId in runs && runs == base[runId := runs[runId]]
      requires from < |history| && MonotoneFrom(history, from, runId)
      modifies this
      ensures Valid() && runId in runs && runs == base[runId := runs[runId]]
      ensures runs[runId] == AppendMessage(old(runs)[runId], NewMessage(Entry(System, SystemNotice, FinishNotice), old(clock)))
                               .(status := Succeeded, finishedAt := Some(old(clock) + 1))
      ensures old(history) <= history && MonotoneFrom(history, from, runId)
    {
      ghost var h0 := history;
      AddMessage(runId, System, SystemNotice, FinishNotice);
      ghost var h1, m1 := history, runs;
      var t := Now();
      UpdateRunState(runId, Transform((r: Run) => r.(status := Succeeded, finishedAt := Some(t))));
      assert Extends(m1, runs, runId);
      OneEmission(h0, h1, m1, runId);
      MonotoneGrow(h0, h1, from, runId);
      OneEmission(h1, history, runs, runId);
      MonotoneGrow(h1, history, from, runId);
    }

    /** The pipeline: a start notice, the five stages in their fixed order,
        each only if its role is in `agents`, a finish notice, `succeeded`. */
    method RunSimulation(runId: string, idea: string, agents: seq<Agent>, generate: Prompt -> string)
      requires Valid() && runId in runs && OnePerType(runs[runId].artifacts)
      modifies this
      ensures Valid() && runId in runs && runs == old(runs)[runId := runs[runId]]
      ensures runs[runId] == old(runs)[runId].(
        messages := runs[runId].messages, artifacts := runs[runId].artifacts,
        status := Succeeded, finishedAt := runs[runId].finishedAt)
      ensures runs[runId].finishedAt.Some?
      ensures old(runs)[runId].messages <= runs[runId].messages
      ensures Entries(runs[runId].messages) == Entries(old(runs)[runId].messages) + Transcript(idea, agents)
      ensures OnePerType(runs[runId].artifacts)
      ensures Contents(runs[runId].artifacts)
        == RunStages(Contents(old(runs)[runId].artifacts), Pipeline(), idea, RolesOf(agents), generate)
      ensures old(history) <= history && MonotoneFrom(history, |old(history)| - 1, runId)
    {
      ghost var h0, base, run0 := history, runs, runs[runId];
      ghost var from := |h0| - 1;
      var roles := RolesOf(agents);
      ghost var start, finish := Entry(System, SystemNotice, StartNotice(idea, agents)),
                                 Entry(System, SystemNotice, FinishNotice);
      ghost var log, stages := StageLog(Pipeline(), roles),
                               RunStages(Contents(run0.artifacts), Pipeline(), idea, roles, generate);
      ghost var m1 := NewMessage(start, clock);
      AddMessage(runId, System, SystemNotice, StartNotice(idea, agents));
      OneEmission(h0, history, runs, runId);
      ghost var r1 := runs[runId];

      RunPipeline(runId, idea, roles, generate, base, from);
      ghost var r6 := runs[runId];
      assert h0 <= history;
      ghost var c6 := clock;
      ghost var m7 := NewMessage(finish, c6);

      // FINALIZATION
      Finish(runId, base, from);
      assert h0 <= history;
      SimulationOutcome(run0, r1, r6, runs[runId], m1, m7, c6 + 1, log, stages);
    }

    /** A fresh running run replaces whatever the registry held under `runId`;
        the simulation then runs to completion and the initial value is
        returned. `projectId` stays empty: nothing fills it in later. */
    method Start(runId: string, idea: string, agents: seq<Agent>, generate: Prompt -> string) returns (initial: Run)
      requires Valid()
      modifies this
      ensures initial == Run(runId, "", Running, [], [], old(clock), None)
      ensures Valid() && runId in runs && runs == old(runs)[runId := runs[runId]]
      ensures runs[runId] == initial.(
        messages := runs[runId].messages, artifacts := runs[runId].artifacts,
        status := Succeeded, finishedAt := runs[runId].finishedAt)
      ensures runs[runId].finishedAt.Some?
      ensures Entries(runs[runId].messages) == Transcript(idea, agents)
      ensures OnePerType(runs[runId].artifacts)
      ensures Contents(runs[runId].artifacts) == RunStages(map[], Pipeline(), idea, RolesOf(agents), generate)
      ensures old(history) + [old(runs)[runId := initial]] <= history
      ensures MonotoneFrom(history, |old(history)|, runId)
      ensures forall i :: |old(history)| <= i < |history| ==>
        runId in history[i] && OnePerType(history[i][runId].artifacts)
    {
      var t := Now();
      initial := Run(runId, "", Running, [], [], t, None);
      UpdateRunState(runId, Replace(initial));
      ghost var h1 := history;
      EmptyRun(initial, idea, RolesOf(agents), generate);
      RunSimulation(runId, idea, agents, generate);
      Overwrite(old(runs), runId, initial, runs[runId]);
      assert history[|old(history)|] == h1[|old(history)|];
      EmissionsKeepOnePerType(history, |old(history)|, runId);
    }
  }

  /** The three emissions of one stage -- thought, draft notice, artifact
      upsert -- add the stage's two entries, store the generator's output under
      the stage's type, and extend the run monotonically. */
  lemma StageEffect(h0: seq<map<string, Run>>, h1: seq<map<string, Run>>, h2: seq<map<string, Run>>,
                    h3: seq<map<string, Run>>, m0: map<string, Run>, m1: map<string, Run>,
                    m2: map<string, Run>, m3: map<string, Run>, runId: string, s: Stage, content: string,
                    t: Stamp)
    requires |h0| > 0 && h0[|h0| - 1] == m0 && runId in m0
    requires m1 == m0[runId := AppendMessage(m0[runId], NewMessage(Entry(Role(s.role), Thought, ThinkingText(s.kind)), t))]
    requires h1 == h0 + [m1] && Extends(m0, m1, runId)
    requires m2 == m1[runId := AppendMessage(m1[runId], NewMessage(Entry(Role(s.role), ArtifactDraft, DraftText(s.kind)), t + 1))]
    requires h2 == h1 + [m2] && Extends(m1, m2, runId)
    requires m3 == m2[runId := m2[runId].(artifacts := UpsertArtifact(m2[runId].artifacts, s.kind, content, t + 2))]
    requires h3 == h2 + [m3] && Extends(m2, m3, runId)
    ensures runId in m3 && m3 == m0[runId := m3[runId]]
    ensures m3[runId] == m0[runId].(messages := m3[runId].messages, artifacts := m3[runId].artifacts)
    ensures m0[runId].messages <= m3[runId].messages
    ensures Entries(m3[runId].messages) == Entries(m0[runId].messages) + StageEntries(s)
    ensures OnePerType(m0[runId].artifacts) ==>
      OnePerType(m3[runId].artifacts) && Contents(m3[runId].artifacts) == Contents(m0[runId].artifacts)[s.kind := content]
    ensures h0 <= h3 && MonotoneFrom(h3, |h0| - 1, runId)
  {
    var r0 := m0[runId];
    var n1 := NewMessage(Entry(Role(s.role), Thought, ThinkingText(s.kind)), t);
    var n2 := NewMessage(Entry(Role(s.role), ArtifactDraft, DraftText(s.kind)), t + 1);
    TwoEntries(r0.messages, n1, n2);
    assert m3[runId].messages == r0.messages + [n1] + [n2];
    if OnePerType(r0.artifacts) {
      UpsertContents(r0.artifacts, s.kind, content, t + 2);
    }
    ThreeEmissions(h0, h1, h2, h3, m0, m1, m2, m3, runId);
  }

  /** Two appended messages add their two entries. */
  lemma TwoEntries(ms: seq<Message>, a: Message, b: Message)
    ensures ms <= ms + [a] + [b]
    ensures Entries(ms + [a] + [b]) == Entries(ms) + [EntryOf(a), EntryOf(b)]
  {
    EntriesSnoc(ms, a);
    EntriesSnoc(ms + [a], b);
  }

  /** A run with no messages and no artifacts has an empty log, one
      artifact per type, and empty contents. */
  lemma EmptyRun(run: Run, idea: string, roles: set<AgentRole>, generate: Prompt -> string)
    requires run.messages == [] && run.artifacts == []
    ensures Entries(run.messages) == [] && OnePerType(run.artifacts) && Contents(run.artifacts) == map[]
    ensures RunStages(Contents(run.artifacts), Pipeline(), idea, roles, generate)
         == RunStages(map[], Pipeline(), idea, roles, generate)
  {
    assert Contents([]).Keys == {};
  }

  /** A second write to the same key hides the first. */
  lemma Overwrite(m: map<string, Run>, k: string, a: Run, b: Run)
    ensures m[k := a][k := b] == m[k := b]
  {
  }

  /** What one pipeline block does to the run, on the abstract values. */
  ghost predicate StageStep(before: Run, after: Run, s: Stage, idea: string, roles: set<AgentRole>,
                            generate: Prompt -> string)
  {
    && after == before.(messages := after.messages, artifacts := after.artifacts)
    && before.messages <= after.messages
    && Entries(after.messages) == Entries(before.messages) + StepLog(s, roles)
    && (OnePerType(before.artifacts) ==>
          && OnePerType(after.artifacts)
          && Contents(after.artifacts) == StepContents(Contents(before.artifacts), s, idea, roles, generate))
  }

  /** One emission that extends the last snapshot. */
  lemma OneEmission(h: seq<map<string, Run>>, h': seq<map<string, Run>>, m: map<string, Run>, runId: string)
    requires |h| > 0 && h' == h + [m] && Extends(h[|h| - 1], m, runId)
    ensures h <= h' && MonotoneFrom(h', |h| - 1, runId)
  {
    assert h'[|h| - 1] == h[|h| - 1] && h'[|h|] == m;
  }

  /** Five pipeline blocks in the table's order compose to the table-driven
      reference. */
  lemma PipelineComposes(r1: Run, r2: Run, r3: Run, r4: Run, r5: Run, r6: Run, idea: string,
                         roles: set<AgentRole>, generate: Prompt -> string)
    requires OnePerType(r1.artifacts)
    requires StageStep(r1, r2, Pipeline()[0], idea, roles, generate)
    requires StageStep(r2, r3, Pipeline()[1], idea, roles, generate)
    requires StageStep(r3, r4, Pipeline()[2], idea, roles, generate)
    requires StageStep(r4, r5, Pipeline()[3], idea, roles, generate)
    requires StageStep(r5, r6, Pipeline()[4], idea, roles, generate)
    ensures r6 == r1.(messages := r6.messages, artifacts := r6.artifacts)
    ensures r1.messages <= r6.messages
    ensures Entries(r6.messages) == Entries(r1.messages) + StageLog(Pipeline(), roles)
    ensures OnePerType(r6.artifacts)
    ensures Contents(r6.artifacts) == RunStages(Contents(r1.artifacts), Pipeline(), idea, roles, generate)
  {
    var p := Pipeline();
    PipelineUnfolds(Contents(r1.artifacts), idea, roles, generate);
    PipelineLogUnfolds(roles);
    ChainOfFive(Entries(r1.messages), Entries(r2.messages), Entries(r3.messages), Entries(r4.messages),
                Entries(r5.messages), Entries(r6.messages), StepLog(p[0], roles), StepLog(p[1], roles),
                StepLog(p[2], roles), StepLog(p[3], roles), StepLog(p[4], roles));
  }

  lemma ChainOfFive(e1: seq<Entry>, e2: seq<Entry>, e3: seq<Entry>, e4: seq<Entry>, e5: seq<Entry>, e6: seq<Entry>,
                    l1: seq<Entry>, l2: seq<Entry>, l3: seq<Entry>, l4: seq<Entry>, l5: seq<Entry>)
    requires e2 == e1 + l1 && e3 == e2 + l2 && e4 == e3 + l3 && e5 == e4 + l4 && e6 == e5 + l5
    ensures e6 == e1 + (l1 + l2 + l3 + l4 + l5)
  {
  }

  /** A message before and one after a stretch that added `log`. */
  lemma FinalLog(ms0: seq<Message>, ms1: seq<Message>, ms6: seq<Message>, ms8: seq<Message>,
                 m1: Message, m7: Message, log: seq<Entry>)
    requires ms1 == ms0 + [m1] && ms1 <= ms6 && ms8 == ms6 + [m7]
    requires Entries(ms6) == Entries(ms1) + log
    ensures ms0 <= ms8
    ensures Entries(ms8) == Entries(ms0) + ([EntryOf(m1)] + log + [EntryOf(m7)])
  {
    EntriesSnoc(ms0, m1);
    EntriesSnoc(ms6, m7);
    Regroup(Entries(ms0), [EntryOf(m1)], log, [EntryOf(m7)]);
  }

  lemma Regroup(a: seq<Entry>, b: seq<Entry>, c: seq<Entry>, d: seq<Entry>)
    ensures a + b + c + d == a + (b + c + d)
  {
  }

  /** The three parts of a simulation -- start notice, pipeline, finalisation --
      add up: the log is the start entry, the pipeline's log, the finish entry. */
  lemma SimulationOutcome(run0: Run, r1: Run, r6: Run, r8: Run, m1: Message, m7: Message, t: Stamp,
                          log: seq<Entry>, c: map<ArtifactType, string>)
    requires r1 == AppendMessage(run0, m1)
    requires r6 == r1.(messages := r6.messages, artifacts := r6.artifacts)
    requires r1.messages <= r6.messages
    requires Entries(r6.messages) == Entries(r1.messages) + log
    requires OnePerType(r6.artifacts) && Contents(r6.artifacts) == c
    requires r8 == AppendMessage(r6, m7).(status := Succeeded, finishedAt := Some(t))
    ensures r8 == run0.(messages := r8.messages, artifacts := r8.artifacts,
                        status := Succeeded, finishedAt := r8.finishedAt)
    ensures r8.finishedAt.Some?
    ensures run0.messages <= r8.messages
    ensures Entries(r8.messages) == Entries(run0.messages) + ([EntryOf(m1)] + log + [EntryOf(m7)])
    ensures OnePerType(r8.artifacts) && Contents(r8.artifacts) == c
  {
    FinalLog(run0.messages, r1.messages, r6.messages, r8.messages, m1, m7, log);
  }

  /** The table-driven reference, unfolded over the five stages. */
  lemma PipelineUnfolds(c: map<ArtifactType, string>, idea: string, roles: set<AgentRole>, generate: Prompt -> string)
    ensures RunStages(c, Pipeline(), idea, roles, generate)
      == StepContents(StepContents(StepContents(StepContents(StepContents(c,
           Pipeline()[0], idea, roles, generate), Pipeline()[1], idea, roles, generate),
           Pipeline()[2], idea, roles, generate), Pipeline()[3], idea, roles, generate),
           Pipeline()[4], idea, roles, generate)
  {
    var p := Pipeline();
    var c1 := StepContents(c, p[0], idea, roles, generate);
    var c2 := StepContents(c1, p[1], idea, roles, generate);
    var c3 := StepContents(c2, p[2], idea, roles, generate);
    var c4 := StepContents(c3, p[3], idea, roles, generate);
    var c5 := StepContents(c4, p[4], idea, roles, generate);
    assert RunStages(c4, p[4..], idea, roles, generate) == c5 by {
      assert p[4..][1..] == [];
    }
    assert RunStages(c3, p[3..], idea, roles, generate) == c5 by {
      assert p[3..][1..] == p[4..];
    }
    assert RunStages(c2, p[2..], idea, roles, generate) == c5 by {
      assert p[2..][1..] == p[3..];
    }
    assert RunStages(c1, p[1..], idea, roles, generate) == c5 by {
      assert p[1..][1..] == p[2..];
    }
  }

  /** The reference log, unfolded over the five stages. */
  lemma PipelineLogUnfolds(roles: set<AgentRole>)
    ensures StageLog(Pipeline(), roles)
      == StepLog(Pipeline()[0], roles) + StepLog(Pipeline()[1], roles) + StepLog(Pipeline()[2], roles)
         + StepLog(Pipeline()[3], roles) + StepLog(Pipeline()[4], roles)
  {
    var p := Pipeline();
    assert StageLog(p[4..], roles) == StepLog(p[4], roles) by {
      assert p[4..][1..] == [];
    }
    assert StageLog(p[3..], roles) == StepLog(p[3], roles) + StepLog(p[4], roles) by {
      assert p[3..][1..] == p[4..];
    }
    assert StageLog(p[2..], roles) == StepLog(p[2], roles) + StepLog(p[3], roles) + StepLog(p[4], roles) by {
      assert p[2..][1..] == p[3..];
    }
    assert StageLog(p[1..], roles)
      == StepLog(p[1], roles) + StepLog(p[2], roles) + StepLog(p[3], roles) + StepLog(p[4], roles) by {
      assert p[1..][1..] == p[2..];
    }
  }
}
