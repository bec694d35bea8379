/**
 * One attempt at an orchestrated run: the planned children in topological order, the review and
 * revision debate, and the aggregate. Children run inline.
 */
module Orchestrator {
  import opened Domain
  import opened Decimal
  import opened Store
  import opened Runtime
  import opened Planner

  /** What does not change between attempts. Prompt texts and JSON rendering are left open. */
  datatype Config = Config(
    agents: seq<Agent>, maxIterations: nat, debateRounds: nat, defaultType: AgentType,
    json: Output -> string, needsRework: Output -> bool, reviewPrompt: (string, seq<Contribution>) -> string,
    revisionPrompt: (string, Output, Output) -> string,
    teamReport: (string, seq<Contribution>, Option<Contribution>) -> string)

  /** The complexity gate, the planner's answer and the sorted plan of one attempt. */
  datatype Planning = Planning(complex: bool, planned: Result<seq<Subtask>>, sorted: Result<seq<Subtask>>)

  /** What the model does in each child run of one attempt. */
  type Behaviour = string -> Script

  const NO_AGENT := "No agent of the subtask's type available"
  const CHILD_FAILED := "Subtask did not succeed"
  const EMPTY_ORDER := "Cannot read properties of undefined"

  function FindByType(agents: seq<Agent>, t: AgentType): (r: Option<Agent>)
    ensures r.Some? ==> r.value in agents && r.value.agentType == t
    ensures r.None? <==> forall agent :: agent in agents ==> agent.agentType != t
  {
    if agents == [] then None
    else if agents[0].agentType == t then Some(agents[0])
    else
      var r := FindByType(agents[1..], t);
      assert r.Some? ==> r.value in agents[1..];
      assert forall agent :: agent in agents <==> agent == agents[0] || agent in agents[1..];
      r
  }

  function Orchestrated(pl: Planning): bool {
    pl.complex && pl.planned.Ok?
  }

  /** The planner's plan, or the single-agent plan for a simple task or a planner that threw. */
  function PlanOf(cfg: Config, task: string, pl: Planning): seq<Subtask> {
    if Orchestrated(pl) then pl.planned.value else [Subtask("single", cfg.defaultType, task, [])]
  }

  // ----- Children -----

  const SEPARATOR := "::"

  function ChildId(parent: string, subtask: string): string {
    parent + SEPARATOR + subtask
  }

  function ChildRow(agent: Agent, prompt: string, parent: string, subtask: string): Run {
    Run(agent.id, Queued, RunInput(prompt, false, true, Some(subtask)), Undefined, None, 0, Some(parent))
  }

  function Stringify(cfg: Config, o: Output): string {
    match o
    case Text(text) => text
    case Undefined => "undefined"
    case Team(_, _, _, _, _) => cfg.json(o)
  }

  function Look(outputs: map<string, Output>, id: string): Output {
    if id in outputs then outputs[id] else Undefined
  }

  function ContextLines(cfg: Config, deps: seq<string>, outputs: map<string, Output>): string {
    if deps == [] then ""
    else
      var line := "- " + deps[0] + ": " + Stringify(cfg, Look(outputs, deps[0]));
      if |deps| == 1 then line else line + "\n" + ContextLines(cfg, deps[1..], outputs)
  }

  function ComposePrompt(cfg: Config, t: Subtask, outputs: map<string, Output>): string {
    if t.dependsOn == [] then t.prompt
    else t.prompt + "\n\nContext from prior subtasks:\n" + ContextLines(cfg, t.dependsOn, outputs)
  }

  /** The line of one dependency. */
  function Line(dep: string, output: string): string {
    "- " + dep + ": " + output
  }

  ghost predicate Shown(text: string, line: string) {
    exists a: string, b: string :: text == a + line + b
  }

  lemma ShownIn(text: string, line: string, before: string, after: string)
    requires Shown(text, line)
    ensures Shown(before + text + after, line)
  {
    var a: string, b: string :| text == a + line + b;
    assert before + text + after == (before + a) + line + (b + after);
  }

  lemma {:induction false} LineShown(cfg: Config, deps: seq<string>, outputs: map<string, Output>, k: nat)
    requires k < |deps|
    ensures Shown(ContextLines(cfg, deps, outputs), Line(deps[k], Stringify(cfg, Look(outputs, deps[k]))))
    decreases |deps|
  {
    var first := Line(deps[0], Stringify(cfg, Look(outputs, deps[0])));
    var rest := ContextLines(cfg, deps[1..], outputs);
    assert first == "" + first + "";
    assert Shown(first, first);
    if k == 0 {
      ShownIn(first, first, "", "\n" + rest);
      assert "" + first + ("\n" + rest) == first + "\n" + rest && "" + first + "" == first;
    } else {
      LineShown(cfg, deps[1..], outputs, k - 1);
      ShownIn(rest, Line(deps[k], Stringify(cfg, Look(outputs, deps[k]))), first + "\n", "");
      assert (first + "\n") + rest + "" == first + "\n" + rest;
    }
  }

  /** A child is asked its own prompt, and is shown what every subtask it depends on has answered. */
  lemma DependencyShown(cfg: Config, t: Subtask, outputs: map<string, Output>, d: string, answer: string)
    requires d in t.dependsOn && d in outputs && outputs[d] == Text(answer)
    ensures t.prompt <= ComposePrompt(cfg, t, outputs)
    ensures Shown(ComposePrompt(cfg, t, outputs), Line(d, answer))
  {
    hide ContextLines, Line, Shown;
    var k :| 0 <= k < |t.dependsOn| && t.dependsOn[k] == d;
    LineShown(cfg, t.dependsOn, outputs, k);
    var head, lines := t.prompt + "\n\nContext from prior subtasks:\n", ContextLines(cfg, t.dependsOn, outputs);
    ShownIn(lines, Line(d, answer), head, "");
    assert head + lines + "" == head + lines;
    assert head + lines == t.prompt + ("\n\nContext from prior subtasks:\n" + lines);
  }

  /** Create the child if it is new, and run it inline. */
  function RunChild(w: World, cfg: Config, parent: string, subtask: string, agent: Agent, prompt: string,
                    behave: Behaviour)
      : (World, Result<()>)
  {
    var id := ChildId(parent, subtask);
    var w1 := w.CreateRun(id, ChildRow(agent, prompt, parent, subtask)).Publish(SubtaskRunning, parent);
    ExecuteRun(w1, cfg.agents, cfg.maxIterations, id, behave(id), Some(Bridge(parent, subtask)))
  }

  /** A planned child; anything but success throws. */
  function RunSubtask(w: World, cfg: Config, parent: string, t: Subtask, outputs: map<string, Output>,
                      behave: Behaviour)
      : (World, Result<Contribution>)
  {
    match FindByType(cfg.agents, t.agentType)
    case None => (w, Err(NO_AGENT))
    case Some(agent) =>
      var id := ChildId(parent, t.id);
      var (w1, r) := RunChild(w, cfg, parent, t.id, agent, ComposePrompt(cfg, t, outputs), behave);
      if r.Err? then (w1.Publish(SubtaskFailed, parent), Err(r.error))
      else if id !in w1.runs || w1.runs[id].status != Succeeded then (w1, Err(CHILD_FAILED))
      else (w1.Publish(SubtaskSucceeded, parent), Ok(Contribution(t.id, t.agentType, agent.name, w1.runs[id].output)))
  }

  datatype Progress = Progress(outputs: map<string, Output>, contributions: seq<Contribution>)

  function RunSubtasks(w: World, cfg: Config, parent: string, todo: seq<Subtask>, pr: Progress, behave: Behaviour)
      : (World, Result<Progress>)
    decreases |todo|
  {
    if todo == [] then (w, Ok(pr))
    else
      var (w1, r) := RunSubtask(w, cfg, parent, todo[0], pr.outputs, behave);
      match r
      case Err(e) => (w1, Err(e))
      case Ok(c) =>
        RunSubtasks(w1, cfg, parent, todo[1..], Progress(pr.outputs[todo[0].id := c.output], pr.contributions + [c]),
            behave)
  }

  // ----- The debate -----

  function ReviewId(round: nat): string {
    if round == 1 then "review" else "review" + ToString(round)
  }

  function RevisionId(round: nat): string {
    "rev" + ToString(round)
  }

  /** A debate child; failure is not fatal. */
  function Contribute(w: World, cfg: Config, parent: string, subtask: string, agent: Agent, prompt: string,
                      t: AgentType, behave: Behaviour): (World, Option<Contribution>)
  {
    var id := ChildId(parent, subtask);
    var (w1, r) := RunChild(w, cfg, parent, subtask, agent, prompt, behave);
    if r.Err? || id !in w1.runs || w1.runs[id].status != Succeeded then (w1, None)
    else (w1.Publish(SubtaskSucceeded, parent), Some(Contribution(subtask, t, agent.name, w1.runs[id].output)))
  }

  datatype Talk = Talk(summary: Output, contributions: seq<Contribution>, review: Option<Contribution>)

  /** A round ends the debate or leaves a revised draft for the next one. */
  datatype DebateEnd = Over(w: World, talk: Talk) | Again(w: World, talk: Talk)

  function DebateRound(w: World, cfg: Config, parent: string, task: string, reviewer: Agent, synth: Subtask,
                       synthAgent: Option<Agent>, round: nat, talk: Talk, behave: Behaviour): DebateEnd
  {
    var (w1, r) := Contribute(w, cfg, parent, ReviewId(round), reviewer, cfg.reviewPrompt(task, talk.contributions),
        Reviewer, behave);
    match r
    case None => Over(w1, talk)
    case Some(review) =>
      if !cfg.needsRework(review.output) || synthAgent.None? then Over(w1, talk.(review := r))
      else
        var (w2, rev) := Contribute(w1, cfg, parent, RevisionId(round), synthAgent.value,
                                    cfg.revisionPrompt(task, talk.summary, review.output), synth.agentType, behave);
        match rev
        case None => Over(w2, talk.(review := r))
        case Some(c) => Again(w2, Talk(c.output, talk.contributions + [c], r))
  }

  function Debate(w: World, cfg: Config, parent: string, task: string, reviewer: Agent, synth: Subtask,
                  synthAgent: Option<Agent>, round: nat, talk: Talk, behave: Behaviour): (World, Talk)
    decreases cfg.debateRounds + 1 - round
  {
    if round > cfg.debateRounds then (w, talk)
    else
      match DebateRound(w, cfg, parent, task, reviewer, synth, synthAgent, round, talk, behave)
      case Over(w1, talk1) => (w1, talk1)
      case Again(w1, talk1) => Debate(w1, cfg, parent, task, reviewer, synth, synthAgent, round + 1, talk1, behave)
  }

  function MaybeDebate(w: World, cfg: Config, parent: string, task: string, plan: seq<Subtask>, orchestrated: bool,
                       synth: Subtask, pr: Progress, behave: Behaviour): (World, Talk)
  {
    var talk := Talk(Look(pr.outputs, synth.id), pr.contributions, None);
    var reviewer := FindByType(cfg.agents, Reviewer);
    if !orchestrated || |pr.contributions| <= 1 || (exists t :: t in plan && t.agentType == Reviewer)
        || reviewer.None? then (w, talk)
    else Debate(w, cfg, parent, task, reviewer.value, synth, FindByType(cfg.agents, synth.agentType), 1, talk, behave)
  }

  // ----- The attempt -----

  function Aggregate(cfg: Config, task: string, talk: Talk, pr: Progress): Output {
    Team(talk.summary, cfg.teamReport(task, talk.contributions, talk.review), talk.contributions,
         if talk.review.Some? then talk.review.value.output else Undefined, pr.outputs)
  }

  /** The body of the `try`: children, debate, and the aggregate to store. */
  function TeamWork(w: World, cfg: Config, parent: string, task: string, pl: Planning, behave: Behaviour)
      : (World, Result<Output>)
  {
    match pl.sorted
    case Err(e) => (w, Err(e))
    case Ok(order) =>
      var (w1, r) := RunSubtasks(w, cfg, parent, order, Progress(map[], []), behave);
      match r
      case Err(e) => (w1, Err(e))
      case Ok(pr) =>
        if order == [] then (w1, Err(EMPTY_ORDER))
        else
          var (w2, talk) := MaybeDebate(w1, cfg, parent, task, PlanOf(cfg, task, pl), Orchestrated(pl),
              order[|order| - 1], pr, behave);
          (w2, Ok(Aggregate(cfg, task, talk, pr)))
  }

  function ExecuteOrchestration(w: World, cfg: Config, parent: string, pl: Planning, behave: Behaviour)
      : (World, Result<()>)
  {
    if parent !in w.runs then (w, Err(RUN_NOT_FOUND))
    else
      var run := w.runs[parent];
      if IsTerminal(run.status) then (w, Ok(()))
      else
        var w1 := if run.status == Running then w else w.UpdateRunStatus(parent, Running, NoPatch);
        var (w2, r) := TeamWork(w1.Publish(Planned, parent), cfg, parent, run.input.prompt, pl, behave);
        match r
        case Ok(output) =>
          (w2.UpdateRunStatus(parent, Succeeded, SetOutput(output)).Publish(RunSucceeded, parent), Ok(()))
        case Err(e) => (w2.UpdateRunStatus(parent, Running, SetError(e)), Err(e))
  }

  // ----- The attempt in place -----

  method StartChild(p: Platform, cfg: Config, parent: string, subtask: string, agent: Agent, prompt: string,
                    behave: Behaviour)
      returns (r: Result<()>)
    modifies p
    ensures (p.View(), r) == RunChild(old(p.View()), cfg, parent, subtask, agent, prompt, behave)
  {
    var id := ChildId(parent, subtask);
    var _ := p.CreateRun(id, ChildRow(agent, prompt, parent, subtask));
    p.See(Published(SubtaskRunning, parent, "", None));
    r := Execute(p, cfg.agents, cfg.maxIterations, id, behave(id), Some(Bridge(parent, subtask)));
  }

  method RunChildContribution(p: Platform, cfg: Config, parent: string, subtask: string, agent: Agent, prompt: string,
                              t: AgentType, behave: Behaviour) returns (c: Option<Contribution>)
    modifies p
    ensures (p.View(), c) == Contribute(old(p.View()), cfg, parent, subtask, agent, prompt, t, behave)
  {
    var r := StartChild(p, cfg, parent, subtask, agent, prompt, behave);
    if r.Err? { return None; }
    var run := p.GetRun(ChildId(parent, subtask));
    if run.None? || run.value.status != Succeeded { return None; }
    p.See(Published(SubtaskSucceeded, parent, "", None));
    c := Some(Contribution(subtask, t, agent.name, run.value.output));
  }

  method RunPlanned(p: Platform, cfg: Config, parent: string, order: seq<Subtask>, behave: Behaviour)
      returns (r: Result<Progress>)
    modifies p
    ensures (p.View(), r) == RunSubtasks(old(p.View()), cfg, parent, order, Progress(map[], []), behave)
  {
    var outputs: map<string, Output> := map[];
    var contributions: seq<Contribution> := [];
    for i := 0 to |order|
      invariant RunSubtasks(p.View(), cfg, parent, order[i..], Progress(outputs, contributions), behave)
             == RunSubtasks(old(p.View()), cfg, parent, order, Progress(map[], []), behave)
    {
      var t := order[i];
      assert order[i..][0] == t && order[i..][1..] == order[i + 1..];
      var agent := FindByType(cfg.agents, t.agentType);
      if agent.None? { return Err(NO_AGENT); }
      var started := StartChild(p, cfg, parent, t.id, agent.value, ComposePrompt(cfg, t, outputs), behave);
      if started.Err? {
        p.See(Published(SubtaskFailed, parent, "", None));
        return Err(started.error);
      }
      var child := p.GetRun(ChildId(parent, t.id));
      if child.None? || child.value.status != Succeeded { return Err(CHILD_FAILED); }
      outputs := outputs[t.id := child.value.output];
      contributions := contributions + [Contribution(t.id, t.agentType, agent.value.name, child.value.output)];
      p.See(Published(SubtaskSucceeded, parent, "", None));
    }
    r := Ok(Progress(outputs, contributions));
  }

  method RunDebate(p: Platform, cfg: Config, parent: string, task: string, reviewer: Agent, synth: Subtask,
                   synthAgent: Option<Agent>, start: Talk, behave: Behaviour) returns (talk: Talk)
    modifies p
    ensures (p.View(), talk) == Debate(old(p.View()), cfg, parent, task, reviewer, synth, synthAgent, 1, start, behave)
  {
    talk := start;
    var round := 1;
    while round <= cfg.debateRounds
      invariant Debate(p.View(), cfg, parent, task, reviewer, synth, synthAgent, round, talk, behave)
             == Debate(old(p.View()), cfg, parent, task, reviewer, synth, synthAgent, 1, start, behave)
    {
      var review := RunChildContribution(p, cfg, parent, ReviewId(round), reviewer,
          cfg.reviewPrompt(task, talk.contributions),
                                         Reviewer, behave);
      if review.None? { return; }
      var before := talk.summary;
      talk := talk.(review := review);
      if !cfg.needsRework(review.value.output) || synthAgent.None? { return; }
      var rev := RunChildContribution(p, cfg, parent, RevisionId(round), synthAgent.value,
                                      cfg.revisionPrompt(task, before, review.value.output), synth.agentType, behave);
      if rev.None? { return; }
      talk := Talk(rev.value.output, talk.contributions + [rev.value], review);
      round := round + 1;
    }
  }

  /**
   * The plan of an attempt is given; its order comes from `TopoSort`. An order that does not exist
   * throws inside the `try`, like a child that does not succeed.
   */
  method Orchestrate(p: Platform, cfg: Config, parent: string, complex: bool, planned: Result<seq<Subtask>>,
                     behave: Behaviour)
      returns (r: Result<()>, ghost pl: Planning)
    requires planned.Ok? ==> ValidPlan(planned.value)
    modifies p
    ensures pl.complex == complex && pl.planned == planned
    ensures (p.View(), r) == ExecuteOrchestration(old(p.View()), cfg, parent, pl, behave)
    ensures parent in old(p.runs) && !IsTerminal(old(p.runs)[parent].status) ==>
              SortedFrom(PlanOf(cfg, old(p.runs)[parent].input.prompt, pl), pl.sorted)
  {
    pl := Planning(complex, planned, Err(""));
    var row := p.GetRun(parent);
    if row.None? { return Err(RUN_NOT_FOUND), pl; }
    var run := row.value;
    if IsTerminal(run.status) { return Ok(()), pl; }
    if run.status != Running {
      // legal from queued and from paused, so the transition does not throw
      var next := Transition(run.status, Running);
      var _ := p.UpdateRunStatus(parent, next.value, NoPatch);
    }
    var task := run.input.prompt;
    var orchestrated := complex && planned.Ok?;
    var plan := if orchestrated then planned.value else [Subtask("single", cfg.defaultType, task, [])];
    p.See(Published(Planned, parent, "", None));
    var sorted := TopoSort(plan);
    pl := Planning(complex, planned, sorted);
    var outcome := Work(p, cfg, parent, task, plan, orchestrated, sorted, behave, pl);
    match outcome
    case Ok(output) =>
      var next := Transition(Running, Succeeded);
      var _ := p.UpdateRunStatus(parent, next.value, SetOutput(output));
      p.See(Published(RunSucceeded, parent, "", None));
      r := Ok(());
    case Err(e) =>
      var _ := p.UpdateRunStatus(parent, Running, SetError(e));
      r := Err(e);
  }

  /** What `TopoSort` promises of its result; the same plan is sorted the same way on every attempt. */
  ghost predicate SortedFrom(plan: seq<Subtask>, sorted: Result<seq<Subtask>>) {
    && sorted == SortOf(plan)
    && (sorted.Ok? <==> Acyclic(plan))
    && (sorted.Ok? ==> multiset(sorted.value) == multiset(plan) && TopoOrdered(sorted.value))
    && (sorted.Ok? ==> InTurn(plan, sorted.value))
  }

  method Work(p: Platform, cfg: Config, parent: string, task: string, plan: seq<Subtask>, orchestrated: bool,
              sorted: Result<seq<Subtask>>, behave: Behaviour, ghost pl: Planning) returns (r: Result<Output>)
    requires pl.sorted == sorted && plan == PlanOf(cfg, task, pl) && orchestrated == Orchestrated(pl)
    modifies p
    ensures (p.View(), r) == TeamWork(old(p.View()), cfg, parent, task, pl, behave)
  {
    if sorted.Err? { return Err(sorted.error); }
    var order := sorted.value;
    var progress := RunPlanned(p, cfg, parent, order, behave);
    if progress.Err? { return Err(progress.error); }
    if order == [] { return Err(EMPTY_ORDER); }
    var pr := progress.value;
    var talk := TalkItOver(p, cfg, parent, task, plan, orchestrated, order[|order| - 1], pr, behave);
    r := Ok(Aggregate(cfg, task, talk, pr));
  }

  method TalkItOver(p: Platform, cfg: Config, parent: string, task: string, plan: seq<Subtask>, orchestrated: bool,
                    synth: Subtask, pr: Progress, behave: Behaviour) returns (talk: Talk)
    modifies p
    ensures (p.View(), talk) == MaybeDebate(old(p.View()), cfg, parent, task, plan, orchestrated, synth, pr, behave)
  {
    talk := Talk(Look(pr.outputs, synth.id), pr.contributions, None);
    var planHasReviewer := exists t :: t in plan && t.agentType == Reviewer;
    if orchestrated && |pr.contributions| > 1 && !planHasReviewer {
      var reviewer := FindByType(cfg.agents, Reviewer);
      var synthAgent := FindByType(cfg.agents, synth.agentType);
      if reviewer.Some? {
        talk := RunDebate(p, cfg, parent, task, reviewer.value, synth, synthAgent, talk, behave);
      }
    }
  }
}
