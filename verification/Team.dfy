/**
 * What every attempt at an orchestrated run keeps, at each of its writes: so also when an attempt
 * is cut off anywhere and another one follows. Nothing here depends on the plan; what a fixed plan
 * adds is in `Family`.
 */
module Team {
  import opened Domain
  import opened Store
  import opened Runtime
  import opened Planner
  import opened Orchestrator

  // ----- Any plan, any rows -----

  predicate IsChildOf(id: string, parent: string) {
    parent + SEPARATOR <= id
  }

  predicate FailedIn(runs: Runs, j: string) {
    j in runs && runs[j].status == Failed
  }

  /** Rows other than children of the parent are as they were, and no row has become failed. */
  ghost predicate SameElsewhere(a: Runs, b: Runs, parent: string) {
    && (forall j :: FailedIn(b, j) ==> FailedIn(a, j))
    && forall j {:trigger IsChildOf(j, parent)} :: !IsChildOf(j, parent) ==>
         (j in a <==> j in b) && (j in a ==> b[j] == a[j])
  }

  /** Legal history in which only children of the parent move, at every moment. */
  ghost predicate ChildFlows(w: World, w': World, parent: string) {
    && Flows(w, w') && SameQueues(w, w') && SameElsewhere(w.runs, w'.runs, parent)
    && forall m :: m in New(w, w') ==> SameElsewhere(w.runs, m.runs, parent)
  }

  lemma SameElsewhereTrans(a: Runs, b: Runs, c: Runs, parent: string)
    requires SameElsewhere(a, b, parent) && SameElsewhere(b, c, parent)
    ensures SameElsewhere(a, c, parent)
  {
  }

  lemma ChildFlowsRefl(w: World, parent: string)
    ensures ChildFlows(w, w, parent)
  {
    FlowsRefl(w);
    assert New(w, w) == [];
  }

  lemma ChildFlowsTrans(a: World, b: World, c: World, parent: string)
    requires ChildFlows(a, b, parent) && ChildFlows(b, c, parent)
    ensures ChildFlows(a, c, parent)
  {
    FlowsTrans(a, b, c);
    NewConcat(a, b, c);
    hide SameElsewhere, Lawful;
    SameElsewhereTrans(a.runs, b.runs, c.runs, parent);
    forall m | m in New(a, c)
      ensures SameElsewhere(a.runs, m.runs, parent)
    {
      if m !in New(a, b) {
        assert m in New(b, c);
        SameElsewhereTrans(a.runs, b.runs, m.runs, parent);
      }
    }
  }

  lemma PublishFlows(w: World, topic: Topic, parent: string)
    ensures ChildFlows(w, w.Publish(topic, parent), parent)
  {
    PublishedFlows(w, Published(topic, parent, "", None));
  }

  lemma IsChildId(parent: string, subtask: string)
    ensures IsChildOf(ChildId(parent, subtask), parent)
    ensures !IsChildOf(parent, parent)
  {
  }

  /** The row a child run starts from. */
  function BaseRow(w: World, agent: Agent, prompt: string, parent: string, subtask: string): Run {
    var id := ChildId(parent, subtask);
    if id in w.runs then w.runs[id] else ChildRow(agent, prompt, parent, subtask)
  }

  /** The child's row moves from `base` by row steps; nothing else moves. */
  ghost predicate ChildMoves(a: Runs, b: Runs, id: string, base: Run) {
    id in b && b == a[id := b[id]] && RowStep(base, b[id])
  }

  lemma MovesAfterStart(w: World, w1: World, w': World, id: string, base: Run)
    requires w1.runs == w.runs[id := base] && RowFlows(w1, w', id)
    ensures ChildMoves(w.runs, w'.runs, id, base)
    ensures forall m :: m in New(w1, w') ==> ChildMoves(w.runs, m.runs, id, base)
  {
    forall m | m in New(w1, w')
      ensures ChildMoves(w.runs, m.runs, id, base)
    {
      assert OnlyRow(w1.runs, m.runs, id);
    }
  }

  function StartedChild(w: World, agent: Agent, prompt: string, parent: string, subtask: string): World {
    w.CreateRun(ChildId(parent, subtask), ChildRow(agent, prompt, parent, subtask)).Publish(SubtaskRunning, parent)
  }

  lemma CreateChildEvents(w: World, agent: Agent, prompt: string, parent: string, subtask: string)
    ensures var id := ChildId(parent, subtask);
            var w1 := StartedChild(w, agent, prompt, parent, subtask);
            && Flows(w, w1) && SameQueues(w, w1)
            && w1.runs == w.runs[id := BaseRow(w, agent, prompt, parent, subtask)]
            && forall m :: m in New(w, w1) ==> m.runs == w1.runs
  {
    var id := ChildId(parent, subtask);
    var w0 := w.CreateRun(id, ChildRow(agent, prompt, parent, subtask));
    if id in w.runs {
      FlowsRefl(w);
      assert w.runs == w.runs[id := w.runs[id]];
    } else {
      FlowsStep(w, w0, Moment(Created(id), w0.runs));
    }
    SeeQuiet(w0, Published(SubtaskRunning, parent, "", None));
    FlowsTrans(w, w0, w0.Publish(SubtaskRunning, parent));
    NewConcat(w, w0, w0.Publish(SubtaskRunning, parent));
  }

  /** Writes that only move the child's row leave everything outside the family alone. */
  lemma MomentsElsewhere(w: World, w': World, parent: string, subtask: string, base: Run)
    requires base.status != Failed || (ChildId(parent, subtask) in w.runs && base == w.runs[ChildId(parent, subtask)])
    requires w.trace <= w'.trace
    requires forall m :: m in New(w, w') ==> ChildMoves(w.runs, m.runs, ChildId(parent, subtask), base)
    ensures forall m :: m in New(w, w') ==> SameElsewhere(w.runs, m.runs, parent)
  {
    hide New, SameElsewhere;
    forall m | m in New(w, w')
      ensures SameElsewhere(w.runs, m.runs, parent)
    {
      assert ChildMoves(w.runs, m.runs, ChildId(parent, subtask), base);
      OneRowElsewhere(w.runs, m.runs, parent, subtask);
    }
  }

  lemma RunChildMoves(w: World, cfg: Config, parent: string, subtask: string, agent: Agent, prompt: string,
                      behave: Behaviour)
    ensures var (w', r) := RunChild(w, cfg, parent, subtask, agent, prompt, behave);
            var (id, base) := (ChildId(parent, subtask), BaseRow(w, agent, prompt, parent, subtask));
            && Flows(w, w') && SameQueues(w, w')
            && ChildMoves(w.runs, w'.runs, id, base)
            && (forall m :: m in New(w, w') ==> ChildMoves(w.runs, m.runs, id, base))
            && (r.Ok? <==> IsTerminal(w'.runs[id].status))
  {
    hide ExecuteRun, Lawful, FindAgent, RealAnswer;
    var id := ChildId(parent, subtask);
    var base := BaseRow(w, agent, prompt, parent, subtask);
    var w1 := StartedChild(w, agent, prompt, parent, subtask);
    CreateChildEvents(w, agent, prompt, parent, subtask);
    var bridge := Some(Bridge(parent, subtask));
    AttemptEvents(w1, cfg.agents, cfg.maxIterations, id, behave(id), bridge);
    var w' := ExecuteRun(w1, cfg.agents, cfg.maxIterations, id, behave(id), bridge).0;
    FlowsTrans(w, w1, w');
    NewConcat(w, w1, w');
    MovesAfterStart(w, w1, w', id, base);
  }

  /** Creating and running a child, write by write. */
  lemma RunChildEvents(w: World, cfg: Config, parent: string, subtask: string, agent: Agent, prompt: string,
                       behave: Behaviour)
    ensures var (w', r) := RunChild(w, cfg, parent, subtask, agent, prompt, behave);
            var (id, base) := (ChildId(parent, subtask), BaseRow(w, agent, prompt, parent, subtask));
            && ChildFlows(w, w', parent)
            && ChildMoves(w.runs, w'.runs, id, base)
            && (forall m :: m in New(w, w') ==> ChildMoves(w.runs, m.runs, id, base))
            && (r.Ok? <==> IsTerminal(w'.runs[id].status))
  {
    hide RunChild, Lawful, SameElsewhere;
    RunChildMoves(w, cfg, parent, subtask, agent, prompt, behave);
    var w' := RunChild(w, cfg, parent, subtask, agent, prompt, behave).0;
    MomentsElsewhere(w, w', parent, subtask, BaseRow(w, agent, prompt, parent, subtask));
    OneRowElsewhere(w.runs, w'.runs, parent, subtask);
  }

  lemma OneRowElsewhere(a: Runs, b: Runs, parent: string, subtask: string)
    requires var id := ChildId(parent, subtask);
             id in b && b == a[id := b[id]] && (FailedIn(b, id) ==> FailedIn(a, id))
    ensures SameElsewhere(a, b, parent)
  {
    IsChildId(parent, subtask);
  }

  lemma {:induction false} RunSubtasksFlow(w: World, cfg: Config, parent: string, todo: seq<Subtask>, pr: Progress,
                                           behave: Behaviour)
    ensures ChildFlows(w, RunSubtasks(w, cfg, parent, todo, pr, behave).0, parent)
    decreases |todo|
  {
    if todo == [] {
      FlowsRefl(w);
    } else {
      RunSubtaskFlow(w, cfg, parent, todo[0], pr.outputs, behave);
      var (w1, r) := RunSubtask(w, cfg, parent, todo[0], pr.outputs, behave);
      if r.Ok? {
        var pr1 := Progress(pr.outputs[todo[0].id := r.value.output], pr.contributions + [r.value]);
        RunSubtasksFlow(w1, cfg, parent, todo[1..], pr1, behave);
        ChildFlowsTrans(w, w1, RunSubtasks(w1, cfg, parent, todo[1..], pr1, behave).0, parent);
      }
    }
  }

  lemma RunSubtaskFlow(w: World, cfg: Config, parent: string, t: Subtask, outputs: map<string, Output>,
                       behave: Behaviour)
    ensures ChildFlows(w, RunSubtask(w, cfg, parent, t, outputs, behave).0, parent)
  {
    FlowsRefl(w);
    var agent := FindByType(cfg.agents, t.agentType);
    if agent.Some? {
      var prompt := ComposePrompt(cfg, t, outputs);
      RunChildEvents(w, cfg, parent, t.id, agent.value, prompt, behave);
      var w1 := RunChild(w, cfg, parent, t.id, agent.value, prompt, behave).0;
      PublishFlows(w1, SubtaskFailed, parent);
      PublishFlows(w1, SubtaskSucceeded, parent);
      ChildFlowsTrans(w, w1, w1.Publish(SubtaskFailed, parent), parent);
      ChildFlowsTrans(w, w1, w1.Publish(SubtaskSucceeded, parent), parent);
    }
  }

  lemma ContributeFlow(w: World, cfg: Config, parent: string, subtask: string, agent: Agent, prompt: string,
                       t: AgentType, behave: Behaviour)
    ensures ChildFlows(w, Contribute(w, cfg, parent, subtask, agent, prompt, t, behave).0, parent)
  {
    RunChildEvents(w, cfg, parent, subtask, agent, prompt, behave);
    var w1 := RunChild(w, cfg, parent, subtask, agent, prompt, behave).0;
    PublishFlows(w1, SubtaskSucceeded, parent);
    ChildFlowsTrans(w, w1, w1.Publish(SubtaskSucceeded, parent), parent);
  }

  lemma DebateRoundFlow(w: World, cfg: Config, parent: string, task: string, reviewer: Agent, synth: Subtask,
                        synthAgent: Option<Agent>, round: nat, talk: Talk, behave: Behaviour)
    ensures ChildFlows(w, DebateRound(w, cfg, parent, task, reviewer, synth, synthAgent, round, talk, behave).w, parent)
  {
    var prompt := cfg.reviewPrompt(task, talk.contributions);
    ContributeFlow(w, cfg, parent, ReviewId(round), reviewer, prompt, Reviewer, behave);
    var (w1, r) := Contribute(w, cfg, parent, ReviewId(round), reviewer, prompt, Reviewer, behave);
    if r.Some? && cfg.needsRework(r.value.output) && synthAgent.Some? {
      var prompt2 := cfg.revisionPrompt(task, talk.summary, r.value.output);
      ContributeFlow(w1, cfg, parent, RevisionId(round), synthAgent.value, prompt2, synth.agentType, behave);
      var w2 := Contribute(w1, cfg, parent, RevisionId(round), synthAgent.value, prompt2, synth.agentType, behave).0;
      ChildFlowsTrans(w, w1, w2, parent);
    }
  }

  lemma {:induction false} DebateFlow(w: World, cfg: Config, parent: string, task: string, reviewer: Agent,
                                      synth: Subtask,
                                      synthAgent: Option<Agent>, round: nat, talk: Talk, behave: Behaviour)
    ensures ChildFlows(w, Debate(w, cfg, parent, task, reviewer, synth, synthAgent, round, talk, behave).0, parent)
    decreases cfg.debateRounds + 1 - round
  {
    hide ChildFlows, DebateRound;
    ChildFlowsRefl(w, parent);
    if round <= cfg.debateRounds {
      DebateRoundFlow(w, cfg, parent, task, reviewer, synth, synthAgent, round, talk, behave);
      var end := DebateRound(w, cfg, parent, task, reviewer, synth, synthAgent, round, talk, behave);
      if end.Again? {
        DebateFlow(end.w, cfg, parent, task, reviewer, synth, synthAgent, round + 1, end.talk, behave);
        var w' := Debate(end.w, cfg, parent, task, reviewer, synth, synthAgent, round + 1, end.talk, behave).0;
        ChildFlowsTrans(w, end.w, w', parent);
      }
    }
  }

  lemma TeamWorkFlow(w: World, cfg: Config, parent: string, task: string, pl: Planning, behave: Behaviour)
    ensures ChildFlows(w, TeamWork(w, cfg, parent, task, pl, behave).0, parent)
  {
    FlowsRefl(w);
    if pl.sorted.Ok? {
      var order := pl.sorted.value;
      RunSubtasksFlow(w, cfg, parent, order, Progress(map[], []), behave);
      var (w1, r) := RunSubtasks(w, cfg, parent, order, Progress(map[], []), behave);
      if r.Ok? && order != [] {
        FlowsRefl(w1);
        var synth := order[|order| - 1];
        var reviewer := FindByType(cfg.agents, Reviewer);
        if reviewer.Some? {
          var talk := Talk(Look(r.value.outputs, synth.id), r.value.contributions, None);
          var synthAgent := FindByType(cfg.agents, synth.agentType);
          DebateFlow(w1, cfg, parent, task, reviewer.value, synth, synthAgent, 1, talk, behave);
          ChildFlowsTrans(w, w1, Debate(w1, cfg, parent, task, reviewer.value, synth, synthAgent, 1, talk, behave).0,
              parent);
        }
      }
    }
  }

  /** Rows outside the parent's family are as they were, and no other row has become failed. */
  ghost predicate FamilyOnly(a: Runs, b: Runs, parent: string) {
    && (forall j :: FailedIn(b, j) && j != parent ==> FailedIn(a, j))
    && forall j {:trigger IsChildOf(j, parent)} :: !IsChildOf(j, parent) && j != parent ==>
         (j in a <==> j in b) && (j in a ==> b[j] == a[j])
  }

  /** What an attempt does to the parent's own row. */
  predicate ParentMoves(a: Run, b: Run, r: Result<()>) {
    && b == a.(status := b.status, output := b.output, error := b.error)
    && (r.Ok? <==> IsTerminal(b.status))
    && if IsTerminal(a.status) then b == a else b.status == if r.Ok? then Succeeded else Running
  }

  lemma ParentBegin(w: World, parent: string)
    requires parent in w.runs && !IsTerminal(w.runs[parent].status)
    ensures var w1 := if w.runs[parent].status == Running then w else w.UpdateRunStatus(parent, Running, NoPatch);
            var w2 := w1.Publish(Planned, parent);
            && Flows(w, w2) && SameQueues(w, w2)
            && w2.runs == w.runs[parent := w.runs[parent].(status := Running)]
            && forall m :: m in New(w, w2) ==> m.runs == w2.runs
  {
    var w1 := if w.runs[parent].status == Running then w else w.UpdateRunStatus(parent, Running, NoPatch);
    if w.runs[parent].status == Running {
      FlowsRefl(w);
      assert w.runs == w.runs[parent := w.runs[parent]];
    } else {
      FlowsStep(w, w1, Moment(Wrote(parent), w1.runs));
    }
    PublishFlows(w1, Planned, parent);
    SeeQuiet(w1, Published(Planned, parent, "", None));
    FlowsTrans(w, w1, w1.Publish(Planned, parent));
    NewConcat(w, w1, w1.Publish(Planned, parent));
  }

  /**
   * At every write of an attempt at a live run: nothing moves outside the family, and once the run's
   * own row reads succeeded, the rows are those the attempt ends with.
   */
  ghost predicate FamilyMoments(w: World, w': World, parent: string) {
    && w.trace <= w'.trace && parent in w.runs
    && forall m :: m in New(w, w') ==> FamilyMoment(w, m, w', parent)
  }

  ghost predicate FamilyMoment(w: World, m: Moment, w': World, parent: string) {
    && FamilyOnly(w.runs, m.runs, parent) && parent in m.runs
    && (m.runs[parent].status == Succeeded ==> m.runs == w'.runs)
  }

  /** Every write of an orchestration attempt is legal, and outside its family no row moves. */
  lemma OrchestrationEvents(w: World, cfg: Config, parent: string, pl: Planning, behave: Behaviour)
    requires parent in w.runs
    ensures var (w', r) := ExecuteOrchestration(w, cfg, parent, pl, behave);
            && Flows(w, w') && SameQueues(w, w') && FamilyOnly(w.runs, w'.runs, parent)
            && parent in w'.runs && ParentMoves(w.runs[parent], w'.runs[parent], r)
            && FamilyMoments(w, w', parent)
  {
    hide Flows, FamilyOnly, SameElsewhere, TeamWork;
    var run := w.runs[parent];
    FlowsRefl(w);
    FamilyOnlyFrom(w.runs, w.runs, w.runs, w.runs, parent);
    NoMoments(w, parent);
    if !IsTerminal(run.status) {
      ParentBegin(w, parent);
      var w1 := if run.status == Running then w else w.UpdateRunStatus(parent, Running, NoPatch);
      var w2 := w1.Publish(Planned, parent);
      TeamWorkFlow(w2, cfg, parent, run.input.prompt, pl, behave);
      var (w3, r) := TeamWork(w2, cfg, parent, run.input.prompt, pl, behave);
      ParentKept(w2.runs, w3.runs, parent);
      FlowsTrans(w, w2, w3);
      var w' := ExecuteOrchestration(w, cfg, parent, pl, behave).0;
      ParentEnd(w3, w', parent, r);
      FlowsTrans(w, w3, w');
      FamilyOnlyFrom(w.runs, w2.runs, w3.runs, w'.runs, parent);
      AttemptMoments(w, w2, w3, w', parent);
    }
  }

  lemma NoMoments(w: World, parent: string)
    requires parent in w.runs
    ensures FamilyMoments(w, w, parent)
  {
    assert New(w, w) == [];
  }

  /** The moments of an attempt: its opening, its children's, and its closing. */
  lemma AttemptMoments(w: World, w2: World, w3: World, w': World, parent: string)
    requires parent in w.runs && w.trace <= w2.trace && ChildFlows(w2, w3, parent) && w3.trace <= w'.trace
    requires w2.runs == w.runs[parent := w.runs[parent].(status := Running)]
    requires forall m :: m in New(w, w2) ==> m.runs == w2.runs
    requires parent in w'.runs && w'.runs == w3.runs[parent := w'.runs[parent]]
    requires forall m :: m in New(w3, w') ==> m.runs == w'.runs
    ensures FamilyMoments(w, w', parent)
  {
    NewConcat(w, w2, w3);
    NewConcat(w, w3, w');
    hide Lawful, SameElsewhere, FamilyOnly;
    forall m | m in New(w, w')
      ensures FamilyMoment(w, m, w', parent)
    {
      if m in New(w3, w') {
        FamilyOnlyFrom(w.runs, w2.runs, w3.runs, w'.runs, parent);
      } else if m in New(w, w2) {
        FamilyOnlyFrom(w.runs, w2.runs, w2.runs, w2.runs, parent);
      } else {
        assert m in New(w2, w3);
        ParentKept(w2.runs, m.runs, parent);
        FamilyOnlyFrom(w.runs, w2.runs, m.runs, m.runs, parent);
      }
    }
  }

  lemma ParentKept(a: Runs, b: Runs, parent: string)
    requires SameElsewhere(a, b, parent) && parent in a
    ensures parent in b && b[parent] == a[parent]
  {
    IsChildId(parent, "");
  }

  lemma FamilyOnlyFrom(a: Runs, b: Runs, c: Runs, d: Runs, parent: string)
    requires parent in a && parent in b && parent in d
    requires b == a[parent := b[parent]] && (SameElsewhere(b, c, parent) || b == c) && d == c[parent := d[parent]]
    ensures FamilyOnly(a, d, parent)
  {
    forall j | FailedIn(d, j) && j != parent
      ensures FailedIn(a, j)
    {
      assert FailedIn(c, j) && FailedIn(b, j);
    }
  }

  /** The writes that close an attempt at the parent. */
  lemma ParentEnd(w: World, w': World, parent: string, r: Result<Output>)
    requires parent in w.runs && w.runs[parent].status == Running
    requires match r
             case Ok(output) =>
               w' == w.UpdateRunStatus(parent, Succeeded, SetOutput(output)).Publish(RunSucceeded, parent)
             case Err(e) => w' == w.UpdateRunStatus(parent, Running, SetError(e))
    ensures Flows(w, w') && SameQueues(w, w')
    ensures forall m :: m in New(w, w') ==> m.runs == w'.runs
    ensures parent in w'.runs && w'.runs == w.runs[parent := w'.runs[parent]]
    ensures var (a, b) := (w.runs[parent], w'.runs[parent]);
            && b == a.(status := b.status, output := b.output, error := b.error)
            && b.status == if r.Ok? then Succeeded else Running
  {
    match r
    case Ok(output) =>
      var w1 := w.UpdateRunStatus(parent, Succeeded, SetOutput(output));
      FlowsStep(w, w1, Moment(Wrote(parent), w1.runs));
      PublishedFlows(w1, Published(RunSucceeded, parent, "", None));
      FlowsTrans(w, w1, w');
      NewConcat(w, w1, w');
    case Err(e) =>
      FlowsStep(w, w', Moment(Wrote(parent), w'.runs));
  }
}
