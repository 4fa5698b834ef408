/** What the five-stage pipeline produces, stated on the table-driven
    reference that the orchestrator's driver is proved to follow: which
    stages run, what the log looks like, which artifact types exist at the
    end and which placeholder a stage falls back on. */
module PipelineProperties {
  import opened Wrappers
  import opened AgentModel
  import opened Orchestrator

  /** The role whose presence gates the stage that produces `kind`. */
  function Producer(kind: ArtifactType): AgentRole
  {
    match kind
    case PRD => PM
    case TechSpec => Engineer
    case CostAnalysis => Finance
    case Compliance => Legal
    case DemoCode => Engineer
  }

  /** The executed stages are exactly the stages whose role is present, and
      with every role present nothing is skipped. */
  lemma {:induction false} ExecutedFilters(stages: seq<Stage>, roles: set<AgentRole>)
    ensures |Executed(stages, roles)| <= |stages|
    ensures forall s :: s in Executed(stages, roles) <==> s in stages && s.role in roles
    ensures (forall s :: s in stages ==> s.role in roles) ==> Executed(stages, roles) == stages
    decreases |stages|
  {
    if stages != [] {
      ExecutedFilters(stages[1..], roles);
      assert stages == [stages[0]] + stages[1..];
    }
  }

  /** The stage log is two entries per executed stage, in execution order:
      the role's thought, then its draft notice. */
  lemma {:induction false} StageLogPairs(stages: seq<Stage>, roles: set<AgentRole>)
    ensures |StageLog(stages, roles)| == 2 * |Executed(stages, roles)|
    ensures forall i :: 0 <= i < |Executed(stages, roles)| ==>
      StageLog(stages, roles)[2 * i] == Entry(Role(Executed(stages, roles)[i].role), Thought, ThinkingText(Executed(stages, roles)[i].kind))
      && StageLog(stages, roles)[2 * i + 1]
         == Entry(Role(Executed(stages, roles)[i].role), ArtifactDraft, DraftText(Executed(stages, roles)[i].kind))
    decreases |stages|
  {
    if stages != [] {
      StageLogPairs(stages[1..], roles);
      var ex, log := Executed(stages, roles), StageLog(stages, roles);
      var ex', log' := Executed(stages[1..], roles), StageLog(stages[1..], roles);
      if stages[0].role in roles {
        assert ex == [stages[0]] + ex' && log == StageEntries(stages[0]) + log';
        forall i | 0 < i < |ex|
          ensures log[2 * i] == log'[2 * (i - 1)] && log[2 * i + 1] == log'[2 * (i - 1) + 1] && ex[i] == ex'[i - 1]
        {
        }
      } else {
        assert ex == ex' && log == log';
      }
    }
  }

  /** Every entry of a stage log is a thought or a draft notice by a role
      that is present. */
  lemma {:induction false} StageLogSpeakers(stages: seq<Stage>, roles: set<AgentRole>)
    ensures forall e :: e in StageLog(stages, roles) ==>
      e.sender.Role? && e.sender.role in roles && (e.kind == Thought || e.kind == ArtifactDraft)
    decreases |stages|
  {
    if stages != [] {
      StageLogSpeakers(stages[1..], roles);
    }
  }

  /** A simulation's log: the start notice, two entries per executed stage,
      the finish notice. Only the system and the roles on the list speak,
      and only three of the seven message kinds occur. */
  lemma TranscriptShape(idea: string, agents: seq<Agent>)
    ensures |Transcript(idea, agents)| == 2 + 2 * |Executed(Pipeline(), RolesOf(agents))|
    ensures Transcript(idea, agents)[0] == Entry(System, SystemNotice, StartNotice(idea, agents))
    ensures Transcript(idea, agents)[|Transcript(idea, agents)| - 1] == Entry(System, SystemNotice, FinishNotice)
    ensures forall e :: e in Transcript(idea, agents) ==>
      e.kind in {SystemNotice, Thought, ArtifactDraft}
      && (e.sender.Role? ==> e.sender.role in RolesOf(agents))
  {
    var roles := RolesOf(agents);
    StageLogPairs(Pipeline(), roles);
    StageLogSpeakers(Pipeline(), roles);
    var log := StageLog(Pipeline(), roles);
    var t := Transcript(idea, agents);
    forall e | e in t
      ensures e.kind in {SystemNotice, Thought, ArtifactDraft} && (e.sender.Role? ==> e.sender.role in roles)
    {
      if e !in log {
        assert e == t[0] || e == t[|t| - 1];
      }
    }
  }

  /** The artifact types present after the stages are the initial ones plus
      the types of the executed stages. */
  lemma {:induction false} RunStagesKeys(c: map<ArtifactType, string>, stages: seq<Stage>, idea: string,
                                         roles: set<AgentRole>, generate: Prompt -> string)
    ensures RunStages(c, stages, idea, roles, generate).Keys
      == c.Keys + set s | s in Executed(stages, roles) :: s.kind
    decreases |stages|
  {
    if stages != [] {
      var c' := StepContents(c, stages[0], idea, roles, generate);
      RunStagesKeys(c', stages[1..], idea, roles, generate);
      var rest := Executed(stages[1..], roles);
      if stages[0].role in roles {
        assert Executed(stages, roles) == [stages[0]] + rest;
        assert (set s | s in [stages[0]] + rest :: s.kind) == {stages[0].kind} + set s | s in rest :: s.kind;
      } else {
        assert Executed(stages, roles) == rest;
      }
    }
  }

  /** After a complete simulation an artifact type exists exactly when the
      role producing it is on the agent list. */
  lemma FinalArtifactTypes(idea: string, roles: set<AgentRole>, generate: Prompt -> string)
    ensures forall kind :: kind in RunStages(map[], Pipeline(), idea, roles, generate) <==> Producer(kind) in roles
  {
    FinalContents(idea, roles, generate);
  }

  /** One stage writes at most its own type: the generator's output on the
      prompt built from the contents before it, and only if its role is present. */
  lemma StepFacts(c: map<ArtifactType, string>, s: Stage, idea: string, roles: set<AgentRole>,
                  generate: Prompt -> string)
    ensures forall k :: k != s.kind ==> Lookup(StepContents(c, s, idea, roles, generate), k) == Lookup(c, k)
    ensures Lookup(StepContents(c, s, idea, roles, generate), s.kind)
      == if s.role in roles then Some(generate(StagePrompt(s.kind, idea, c))) else Lookup(c, s.kind)
  {
  }

  /** The final contents of the five stages, written out: the PRD from the
      idea, the tech spec from the PRD (or its placeholder), the cost analysis
      from the tech spec (or its placeholder), compliance and demo code from
      the idea; a type whose role is absent has no entry. */
  lemma FinalContents(idea: string, roles: set<AgentRole>, generate: Prompt -> string)
    ensures var c := RunStages(map[], Pipeline(), idea, roles, generate);
      var prd := if PM in roles then Some(generate(Prompt(PRD, idea))) else None;
      var techSpec := if Engineer in roles then Some(generate(Prompt(TechSpec, ContentOr(prd, NoPrd)))) else None;
      && Lookup(c, PRD) == prd
      && Lookup(c, TechSpec) == techSpec
      && Lookup(c, CostAnalysis)
         == (if Finance in roles then Some(generate(Prompt(CostAnalysis, ContentOr(techSpec, NoTechSpec)))) else None)
      && Lookup(c, Compliance) == (if Legal in roles then Some(generate(Prompt(Compliance, idea))) else None)
      && Lookup(c, DemoCode) == (if Engineer in roles then Some(generate(Prompt(DemoCode, idea))) else None)
  {
    var p := Pipeline();
    assert p[0] == Stage(PM, PRD) && p[1] == Stage(Engineer, TechSpec) && p[2] == Stage(Finance, CostAnalysis)
      && p[3] == Stage(Legal, Compliance) && p[4] == Stage(Engineer, DemoCode);
    var c0: map<ArtifactType, string> := map[];
    var c1 := StepContents(c0, p[0], idea, roles, generate);
    var c2 := StepContents(c1, p[1], idea, roles, generate);
    var c3 := StepContents(c2, p[2], idea, roles, generate);
    var c4 := StepContents(c3, p[3], idea, roles, generate);
    var c5 := StepContents(c4, p[4], idea, roles, generate);
    PipelineUnfolds(c0, idea, roles, generate);
    StepFacts(c0, p[0], idea, roles, generate);
    StepFacts(c1, p[1], idea, roles, generate);
    StepFacts(c2, p[2], idea, roles, generate);
    StepFacts(c3, p[3], idea, roles, generate);
    StepFacts(c4, p[4], idea, roles, generate);
    var prd := if PM in roles then Some(generate(Prompt(PRD, idea))) else None;
    assert Lookup(c1, PRD) == prd;
    assert Lookup(c5, PRD) == prd;
    assert StagePrompt(TechSpec, idea, c1) == Prompt(TechSpec, ContentOr(prd, NoPrd));
    var techSpec := if Engineer in roles then Some(generate(Prompt(TechSpec, ContentOr(prd, NoPrd)))) else None;
    assert Lookup(c2, TechSpec) == techSpec;
    assert Lookup(c5, TechSpec) == techSpec;
    assert StagePrompt(CostAnalysis, idea, c2) == Prompt(CostAnalysis, ContentOr(techSpec, NoTechSpec));
    assert Lookup(c5, CostAnalysis) == Lookup(c3, CostAnalysis);
    assert Lookup(c5, Compliance) == Lookup(c4, Compliance);
  }

  /** With only the product manager present, the run ends with a PRD and
      nothing else. */
  lemma OnlyProductManager(idea: string, generate: Prompt -> string)
    ensures RunStages(map[], Pipeline(), idea, {PM}, generate) == map[PRD := generate(Prompt(PRD, idea))]
  {
    PipelineUnfolds(map[], idea, {PM}, generate);
  }

  /** An engineer without a product manager works from the PRD placeholder,
      and a finance role without an engineer from the tech-spec placeholder. */
  lemma MissingDependency(idea: string, roles: set<AgentRole>, generate: Prompt -> string)
    ensures Engineer in roles && PM !in roles ==>
      RunStages(map[], Pipeline(), idea, roles, generate)[TechSpec] == generate(Prompt(TechSpec, NoPrd))
    ensures Finance in roles && Engineer !in roles ==>
      RunStages(map[], Pipeline(), idea, roles, generate)[CostAnalysis] == generate(Prompt(CostAnalysis, NoTechSpec))
  {
    FinalContents(idea, roles, generate);
  }

  /** The gate looks at which roles are on the list, not at their `enabled`
      flag: flipping any agent's flag leaves the executed stages unchanged. */
  lemma GateIgnoresEnabled(agents: seq<Agent>, i: nat, enabled: bool)
    requires i < |agents|
    ensures RolesOf(agents[i := agents[i].(enabled := enabled)]) == RolesOf(agents)
    ensures Executed(Pipeline(), RolesOf(agents[i := agents[i].(enabled := enabled)]))
         == Executed(Pipeline(), RolesOf(agents))
  {
    var agents' := agents[i := agents[i].(enabled := enabled)];
    forall role ensures role in RolesOf(agents') <==> role in RolesOf(agents) {
      if role in RolesOf(agents) {
        var a :| a in agents && a.role == role;
        var j :| 0 <= j < |agents| && agents[j] == a;
        assert agents'[j].role == role;
      }
      if role in RolesOf(agents') {
        var a :| a in agents' && a.role == role;
        var j :| 0 <= j < |agents'| && agents'[j] == a;
        assert agents[j].role == role;
      }
    }
  }

  /** A generator that completes the driver's prompt text: the PRD answers the
      idea's PRD request, the Compliance checklist answers the idea's
      checklist request, and a Tech Spec written without a Product Manager
      answers a request built around the placeholder. */
  lemma TextDrivenPipeline(idea: string, roles: set<AgentRole>, complete: string -> string)
    ensures var c := RunStages(map[], Pipeline(), idea, roles, (p: Prompt) => complete(PromptText(p)));
      && (PM in roles ==>
            Lookup(c, PRD)
            == Some(complete("Generate a Product Requirements Document (PRD) for the idea: \"" + idea + "\"")))
      && (PM !in roles && Engineer in roles ==>
            Lookup(c, TechSpec)
            == Some(complete("Based on the following PRD, create a Technical Specification. PRD: " + NoPrd)))
      && (Legal in roles ==>
            Lookup(c, Compliance)
            == Some(complete("For the idea \"" + idea + "\", generate a basic Compliance checklist.")))
  {
    FinalContents(idea, roles, (p: Prompt) => complete(PromptText(p)));
    RequestTexts(idea);
  }

  /** The texts of the three requests above. */
  lemma RequestTexts(idea: string)
    ensures PromptText(Prompt(PRD, idea))
         == "Generate a Product Requirements Document (PRD) for the idea: \"" + idea + "\""
    ensures PromptText(Prompt(TechSpec, NoPrd))
         == "Based on the following PRD, create a Technical Specification. PRD: " + NoPrd
    ensures PromptText(Prompt(Compliance, idea))
         == "For the idea \"" + idea + "\", generate a basic Compliance checklist."
  {
  }
}
