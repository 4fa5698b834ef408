/** The shared vocabulary of the simulator: the closed enumerations and the
    record types the orchestrator, the persistence service and the project
    view are written against. Dates are modelled as millisecond counts
    (`Stamp`), optional properties as `Option`. */
module AgentModel {
  import opened Wrappers

  type Stamp = nat

  /** The six participant roles; the set is closed. */
  datatype AgentRole = CEO | PM | Engineer | Research | Legal | Finance

  /** Seven message kinds; the orchestrator only emits three of them. */
  datatype MessageType =
    | Thought | Proposal | Objection | Vote | Decision | ArtifactDraft | SystemNotice

  /** A message comes from a participant role or from the `'System'` sentinel. */
  datatype Sender = Role(role: AgentRole) | System

  datatype ArtifactType = PRD | TechSpec | CostAnalysis | Compliance | DemoCode

  datatype RunStatus = Idle | Running | Succeeded | Failed

  datatype Agent = Agent(
    role: AgentRole,
    name: string,
    avatar: string,
    color: string,
    weight: int,
    enabled: bool)

  datatype Message = Message(
    id: string,
    timestamp: Stamp,
    sender: Sender,
    kind: MessageType,
    content: string)

  datatype Artifact = Artifact(
    id: string,
    kind: ArtifactType,
    content: string,
    updatedAt: Stamp)

  datatype Run = Run(
    id: string,
    projectId: string,
    status: RunStatus,
    messages: seq<Message>,
    artifacts: seq<Artifact>,
    startedAt: Stamp,
    finishedAt: Option<Stamp>)

  datatype Project = Project(
    id: string,
    idea: string,
    createdAt: Stamp,
    runs: seq<Run>)

  /** Every role, in declaration order, each exactly once. */
  function AllRoles(): (r: seq<AgentRole>)
    ensures |r| == 6
    ensures forall role: AgentRole :: role in r
    ensures forall i, j :: 0 <= i < j < |r| ==> r[i] != r[j]
  {
    var r := [CEO, PM, Engineer, Research, Legal, Finance];
    assert forall role: AgentRole :: role in r by {
      forall role: AgentRole ensures role in r {
        if role.CEO? { assert r[0] == role; }
        else if role.PM? { assert r[1] == role; }
        else if role.Engineer? { assert r[2] == role; }
        else if role.Research? { assert r[3] == role; }
        else if role.Legal? { assert r[4] == role; }
        else { assert r[5] == role; }
      }
    }
    r
  }

  /** Every artifact type, in the order the project view lists its tabs. */
  function AllArtifactTypes(): (r: seq<ArtifactType>)
    ensures |r| == 5
    ensures forall kind: ArtifactType :: kind in r
    ensures forall i, j :: 0 <= i < j < |r| ==> r[i] != r[j]
  {
    var r := [PRD, TechSpec, CostAnalysis, Compliance, DemoCode];
    assert forall kind: ArtifactType :: kind in r by {
      forall kind: ArtifactType ensures kind in r {
        if kind.PRD? { assert r[0] == kind; }
        else if kind.TechSpec? { assert r[1] == kind; }
        else if kind.CostAnalysis? { assert r[2] == kind; }
        else if kind.Compliance? { assert r[3] == kind; }
        else { assert r[4] == kind; }
      }
    }
    r
  }

  /** Every run status, each exactly once. */
  function AllStatuses(): (r: seq<RunStatus>)
    ensures |r| == 4
    ensures forall status: RunStatus :: status in r
    ensures forall i, j :: 0 <= i < j < |r| ==> r[i] != r[j]
  {
    var r := [Idle, Running, Succeeded, Failed];
    assert forall status: RunStatus :: status in r by {
      forall status: RunStatus ensures status in r {
        if status.Idle? { assert r[0] == status; }
        else if status.Running? { assert r[1] == status; }
        else if status.Succeeded? { assert r[2] == status; }
        else { assert r[3] == status; }
      }
    }
    r
  }

  /** Every message kind, each exactly once. */
  function AllMessageTypes(): (r: seq<MessageType>)
    ensures |r| == 7
    ensures forall kind: MessageType :: kind in r
    ensures forall i, j :: 0 <= i < j < |r| ==> r[i] != r[j]
  {
    var r := [Thought, Proposal, Objection, Vote, Decision, ArtifactDraft, SystemNotice];
    assert forall kind: MessageType :: kind in r by {
      forall kind: MessageType ensures kind in r {
        if kind.Thought? { assert r[0] == kind; }
        else if kind.Proposal? { assert r[1] == kind; }
        else if kind.Objection? { assert r[2] == kind; }
        else if kind.Vote? { assert r[3] == kind; }
        else if kind.Decision? { assert r[4] == kind; }
        else if kind.ArtifactDraft? { assert r[5] == kind; }
        else { assert r[6] == kind; }
      }
    }
    r
  }

  /** The string literal the source uses for a role. */
  function RoleName(role: AgentRole): string
  {
    match role
    case CEO => "CEO"
    case PM => "PM"
    case Engineer => "Engineer"
    case Research => "Research"
    case Legal => "Legal"
    case Finance => "Finance"
  }

  /** The string value of `agentRole` on a message. */
  function SenderName(sender: Sender): string
  {
    match sender
    case Role(role) => RoleName(role)
    case System => "System"
  }

  /** The sentinel cannot be confused with a role: the string union
      `AgentRole | 'System'` is discriminated by its value. */
  lemma SenderNamesDistinct(a: Sender, b: Sender)
    ensures SenderName(a) == SenderName(b) <==> a == b
  {
  }

  /** The string literal the source uses for an artifact type. */
  function ArtifactTypeName(kind: ArtifactType): string
  {
    match kind
    case PRD => "PRD"
    case TechSpec => "TechSpec"
    case CostAnalysis => "CostAnalysis"
    case Compliance => "Compliance"
    case DemoCode => "DemoCode"
  }

  predicate IsTerminal(status: RunStatus)
  {
    status == Succeeded || status == Failed
  }

  /** Position of a status on the lifecycle idle -> running -> terminal. */
  function StatusRank(status: RunStatus): (r: nat)
    ensures r <= 2
    ensures r == 2 <==> IsTerminal(status)
    ensures r == 0 <==> status == Idle
  {
    match status
    case Idle => 0
    case Running => 1
    case Succeeded => 2
    case Failed => 2
  }

  predicate IsDigit(c: char)
  {
    '0' <= c <= '9'
  }

  /** Decimal rendering of a clock reading, as `${Date.now()}` produces. */
  function Decimal(n: nat): (r: string)
    ensures |r| >= 1
    ensures forall i :: 0 <= i < |r| ==> IsDigit(r[i])
    ensures n < 10 <==> |r| == 1
  {
    if n < 10 then [(48 + n) as char]
    else Decimal(n / 10) + [(48 + n % 10) as char]
  }
}
