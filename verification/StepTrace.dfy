/**
 * The step trace over whole runs of the system: attempts of any lengths, children and debates
 * included. Every function between a delivery and an attempt passes on that indices have no gaps
 * and never get fewer.
 */
module StepTrace {
  import opened Domain
  import opened Store
  import opened Runtime
  import opened RuntimeTrace
  import opened Planner
  import opened Orchestrator
  import opened Worker

  /** Whoever had the indices 0..n-1 has 0..n'-1 for an n' that is not smaller. */
  ghost predicate StepsGrow(w: World, w': World) {
    forall id: string, n: nat :: StepsUpTo(w, id, n) ==> exists n': nat :: n <= n' && StepsUpTo(w', id, n')
  }

  /** Every run's step indices are 0..n-1 for some n: no gap, no duplicate. */
  ghost predicate NoGaps(w: World) {
    forall id: string :: Gapless(w, id)
  }

  ghost predicate Gapless(w: World, id: string) {
    exists n: nat :: StepsUpTo(w, id, n)
  }

  lemma SameSteps(w: World, w': World)
    requires w'.steps == w.steps
    ensures StepsGrow(w, w')
  {
    forall id: string, n: nat | StepsUpTo(w, id, n)
      ensures StepsUpTo(w', id, n)
    {}
  }

  lemma GrowTrans(a: World, b: World, c: World)
    requires StepsGrow(a, b) && StepsGrow(b, c)
    ensures StepsGrow(a, c)
  {
    hide StepsUpTo;
  }

  lemma AttemptGrows(w: World, agents: seq<Agent>, limit: nat, id: string, script: Script, bridge: Option<Bridge>)
    ensures StepsGrow(w, ExecuteRun(w, agents, limit, id, script, bridge).0) || !Gapless(w, id)
  {
    hide ExecuteRun;
    var w' := ExecuteRun(w, agents, limit, id, script, bridge).0;
    if n: nat :| StepsUpTo(w, id, n) {
      var n' := AttemptSteps(w, agents, limit, id, script, bridge, n);
      forall j: string, m: nat | StepsUpTo(w, j, m)
        ensures exists m': nat :: m <= m' && StepsUpTo(w', j, m')
      {
        if j == id {
          SameCount(w, j, m, n);
          assert m <= n' && StepsUpTo(w', j, n');
        } else {
          assert StepsUpTo(w', j, m);
        }
      }
    }
  }

  lemma SameCount(w: World, id: string, m: nat, n: nat)
    requires StepsUpTo(w, id, m) && StepsUpTo(w, id, n)
    ensures m == n
  {
    assert (id, m) in w.steps <==> m < n;
    assert (id, n) in w.steps <==> n < m;
  }

  lemma GrowKeeps(w: World, w': World)
    requires NoGaps(w) && StepsGrow(w, w')
    ensures NoGaps(w')
  {
    hide StepsUpTo;
    forall id: string
      ensures Gapless(w', id)
    {
      assert Gapless(w, id);
      var n: nat :| StepsUpTo(w, id, n);
    }
  }

  lemma RunGrows(w: World, agents: seq<Agent>, limit: nat, id: string, script: Script, bridge: Option<Bridge>)
    requires NoGaps(w)
    ensures NoGaps(ExecuteRun(w, agents, limit, id, script, bridge).0)
    ensures StepsGrow(w, ExecuteRun(w, agents, limit, id, script, bridge).0)
  {
    hide ExecuteRun, StepsUpTo;
    AttemptGrows(w, agents, limit, id, script, bridge);
    GrowKeeps(w, ExecuteRun(w, agents, limit, id, script, bridge).0);
  }

  // ----- Teams -----

  /** Gap-free before and after, and only growing. */
  ghost predicate Keeps(w: World, w': World) {
    NoGaps(w) ==> NoGaps(w') && StepsGrow(w, w')
  }

  lemma KeepsSame(w: World, w': World)
    requires w'.steps == w.steps
    ensures Keeps(w, w')
  {
    hide StepsUpTo;
    SameSteps(w, w');
    if NoGaps(w) { GrowKeeps(w, w'); }
  }

  lemma KeepsTrans(a: World, b: World, c: World)
    requires Keeps(a, b) && Keeps(b, c)
    ensures Keeps(a, c)
  {
    hide StepsUpTo;
    if NoGaps(a) { GrowTrans(a, b, c); }
  }

  lemma ChildKeeps(w: World, cfg: Config, parent: string, subtask: string, agent: Agent, prompt: string,
                   behave: Behaviour)
    ensures Keeps(w, RunChild(w, cfg, parent, subtask, agent, prompt, behave).0)
  {
    hide NoGaps, StepsGrow, ExecuteRun;
    var id := ChildId(parent, subtask);
    var w1 := w.CreateRun(id, ChildRow(agent, prompt, parent, subtask)).Publish(SubtaskRunning, parent);
    KeepsSame(w, w1);
    if NoGaps(w1) { RunGrows(w1, cfg.agents, cfg.maxIterations, id, behave(id), Some(Bridge(parent, subtask))); }
    KeepsTrans(w, w1, RunChild(w, cfg, parent, subtask, agent, prompt, behave).0);
  }

  lemma SubtaskKeeps(w: World, cfg: Config, parent: string, t: Subtask, outputs: map<string, Output>, behave: Behaviour)
    ensures Keeps(w, RunSubtask(w, cfg, parent, t, outputs, behave).0)
  {
    hide Keeps, RunChild;
    KeepsSame(w, w);
    var agent := FindByType(cfg.agents, t.agentType);
    if agent.Some? {
      var prompt := ComposePrompt(cfg, t, outputs);
      ChildKeeps(w, cfg, parent, t.id, agent.value, prompt, behave);
      var w1 := RunChild(w, cfg, parent, t.id, agent.value, prompt, behave).0;
      var w2 := RunSubtask(w, cfg, parent, t, outputs, behave).0;
      KeepsSame(w1, w2);
      KeepsTrans(w, w1, w2);
    }
  }

  lemma {:induction false} SubtasksKeep(w: World, cfg: Config, parent: string, todo: seq<Subtask>, pr: Progress,
                                        behave: Behaviour)
    ensures Keeps(w, RunSubtasks(w, cfg, parent, todo, pr, behave).0)
    decreases |todo|
  {
    hide Keeps, RunSubtask;
    KeepsSame(w, w);
    if todo != [] {
      var (w1, r) := RunSubtask(w, cfg, parent, todo[0], pr.outputs, behave);
      SubtaskKeeps(w, cfg, parent, todo[0], pr.outputs, behave);
      if r.Ok? {
        var pr1 := Progress(pr.outputs[todo[0].id := r.value.output], pr.contributions + [r.value]);
        SubtasksKeep(w1, cfg, parent, todo[1..], pr1, behave);
        KeepsTrans(w, w1, RunSubtasks(w, cfg, parent, todo, pr, behave).0);
      }
    }
  }

  lemma ContributeKeeps(w: World, cfg: Config, parent: string, subtask: string, agent: Agent, prompt: string,
                        t: AgentType, behave: Behaviour)
    ensures Keeps(w, Contribute(w, cfg, parent, subtask, agent, prompt, t, behave).0)
  {
    hide Keeps, RunChild;
    ChildKeeps(w, cfg, parent, subtask, agent, prompt, behave);
    var w1 := RunChild(w, cfg, parent, subtask, agent, prompt, behave).0;
    var w2 := Contribute(w, cfg, parent, subtask, agent, prompt, t, behave).0;
    KeepsSame(w1, w2);
    KeepsTrans(w, w1, w2);
  }

  lemma RoundKeeps(w: World, cfg: Config, parent: string, task: string, reviewer: Agent, synth: Subtask,
                   synthAgent: Option<Agent>, round: nat, talk: Talk, behave: Behaviour)
    ensures Keeps(w, DebateRound(w, cfg, parent, task, reviewer, synth, synthAgent, round, talk, behave).w)
  {
    hide Keeps, Contribute;
    var prompt := cfg.reviewPrompt(task, talk.contributions);
    var (w1, review) := Contribute(w, cfg, parent, ReviewId(round), reviewer, prompt, Reviewer, behave);
    ContributeKeeps(w, cfg, parent, ReviewId(round), reviewer, prompt, Reviewer, behave);
    if review.Some? && synthAgent.Some? {
      var again := cfg.revisionPrompt(task, talk.summary, review.value.output);
      ContributeKeeps(w1, cfg, parent, RevisionId(round), synthAgent.value, again, synth.agentType, behave);
      KeepsTrans(w, w1, Contribute(w1, cfg, parent, RevisionId(round), synthAgent.value, again, synth.agentType,
          behave).0);
    }
  }

  lemma {:induction false} DebateKeeps(w: World, cfg: Config, parent: string, task: string, reviewer: Agent,
                                       synth: Subtask,
                                       synthAgent: Option<Agent>, round: nat, talk: Talk, behave: Behaviour)
    ensures Keeps(w, Debate(w, cfg, parent, task, reviewer, synth, synthAgent, round, talk, behave).0)
    decreases cfg.debateRounds + 1 - round
  {
    hide Keeps, DebateRound;
    KeepsSame(w, w);
    if round <= cfg.debateRounds {
      RoundKeeps(w, cfg, parent, task, reviewer, synth, synthAgent, round, talk, behave);
      var end := DebateRound(w, cfg, parent, task, reviewer, synth, synthAgent, round, talk, behave);
      if end.Again? {
        DebateKeeps(end.w, cfg, parent, task, reviewer, synth, synthAgent, round + 1, end.talk, behave);
        KeepsTrans(w, end.w, Debate(w, cfg, parent, task, reviewer, synth, synthAgent, round, talk, behave).0);
      }
    }
  }

  lemma TeamKeeps(w: World, cfg: Config, parent: string, task: string, pl: Planning, behave: Behaviour)
    ensures Keeps(w, TeamWork(w, cfg, parent, task, pl, behave).0)
  {
    hide Keeps, RunSubtasks, Debate;
    KeepsSame(w, w);
    if pl.sorted.Ok? {
      var order := pl.sorted.value;
      var start := Progress(map[], []);
      SubtasksKeep(w, cfg, parent, order, start, behave);
      var (w1, r) := RunSubtasks(w, cfg, parent, order, start, behave);
      if r.Ok? && order != [] {
        var pr, synth := r.value, order[|order| - 1];
        var reviewer := FindByType(cfg.agents, Reviewer);
        var talk := Talk(Look(pr.outputs, synth.id), pr.contributions, None);
        KeepsSame(w1, w1);
        if reviewer.Some? {
          DebateKeeps(w1, cfg, parent, task, reviewer.value, synth, FindByType(cfg.agents, synth.agentType), 1, talk,
              behave);
        }
        var w2 := MaybeDebate(w1, cfg, parent, task, PlanOf(cfg, task, pl), Orchestrated(pl), synth, pr, behave).0;
        KeepsTrans(w, w1, w2);
      }
    }
  }

  lemma OrchestrationKeeps(w: World, cfg: Config, parent: string, pl: Planning, behave: Behaviour)
    ensures Keeps(w, ExecuteOrchestration(w, cfg, parent, pl, behave).0)
  {
    hide Keeps, TeamWork;
    KeepsSame(w, w);
    if parent in w.runs && !IsTerminal(w.runs[parent].status) {
      var run := w.runs[parent];
      var w0 := if run.status == Running then w else w.UpdateRunStatus(parent, Running, NoPatch);
      var w1 := w0.Publish(Planned, parent);
      KeepsSame(w, w1);
      TeamKeeps(w1, cfg, parent, run.input.prompt, pl, behave);
      var w2 := TeamWork(w1, cfg, parent, run.input.prompt, pl, behave).0;
      KeepsTrans(w, w1, w2);
      var w3 := ExecuteOrchestration(w, cfg, parent, pl, behave).0;
      KeepsSame(w2, w3);
      KeepsTrans(w, w2, w3);
    }
  }

  // ----- Every run of the system -----

  lemma DispatchKeeps(w: World, cfg: Config, id: string, d: Delivery)
    ensures Keeps(w, Dispatch(w, cfg, id, d).0)
  {
    hide NoGaps, StepsGrow, ExecuteRun, ExecuteOrchestration;
    KeepsSame(w, w);
    OrchestrationKeeps(w, cfg, id, d.planning, d.behave);
    if NoGaps(w) { RunGrows(w, cfg.agents, cfg.maxIterations, id, d.behave(id), None); }
  }

  lemma ProcessSteps(w: World, cfg: Config, maxAttempts: int, id: string, d: Delivery)
    ensures id !in w.runs ==> Process(w, cfg, maxAttempts, id, d) == w
    ensures id in w.runs ==>
            Process(w, cfg, maxAttempts, id, d).steps == Dispatch(w.IncrementRunAttempts(id), cfg, id, d).0.steps
  {
    hide Dispatch;
  }

  lemma StepKeeps(w: World, cfg: Config, maxAttempts: int, op: Op)
    ensures Keeps(w, Step(w, cfg, maxAttempts, op))
  {
    hide Keeps, Dispatch, Process;
    var w' := Step(w, cfg, maxAttempts, op);
    if op.Deliver? { ProcessSteps(w.TakeJob(op.id), cfg, maxAttempts, op.id, op.d); }
    if op.Deliver? && w.jobs[op.id] > 0 && op.id in w.runs {
      var w1 := w.TakeJob(op.id).IncrementRunAttempts(op.id);
      var w2 := Dispatch(w1, cfg, op.id, op.d).0;
      KeepsSame(w, w1);
      DispatchKeeps(w1, cfg, op.id, op.d);
      KeepsTrans(w, w1, w2);
      KeepsSame(w2, w');
      KeepsTrans(w, w2, w');
    } else {
      KeepsSame(w, w');
    }
  }

  /**
   * Over any operations — attempts of different lengths, retries, requeues, teams — every run's
   * persisted step indices stay exactly 0..n-1, and n never drops.
   */
  lemma {:induction false} StepsNeverGap(w: World, cfg: Config, maxAttempts: int, ops: seq<Op>)
    requires NoGaps(w)
    ensures NoGaps(Steps(w, cfg, maxAttempts, ops)) && StepsGrow(w, Steps(w, cfg, maxAttempts, ops))
    decreases |ops|
  {
    hide Keeps, Step;
    KeepsSame(w, w);
    assert Keeps(w, Steps(w, cfg, maxAttempts, ops)) by {
      if ops != [] {
        var v := Steps(w, cfg, maxAttempts, ops[..|ops| - 1]);
        StepsNeverGap(w, cfg, maxAttempts, ops[..|ops| - 1]);
        KeptSoFar(w, v);
        StepKeeps(v, cfg, maxAttempts, ops[|ops| - 1]);
        KeepsTrans(w, v, Step(v, cfg, maxAttempts, ops[|ops| - 1]));
      }
    }
    KeptMeans(w, Steps(w, cfg, maxAttempts, ops));
  }

  lemma KeptSoFar(w: World, v: World)
    requires NoGaps(v) && StepsGrow(w, v)
    ensures Keeps(w, v)
  {}

  lemma KeptMeans(w: World, v: World)
    requires Keeps(w, v) && NoGaps(w)
    ensures NoGaps(v) && StepsGrow(w, v)
  {}

  // ----- Assistant steps of an attempt -----

  /** The assistant steps written in a history. */
  function Assistants(trace: seq<Moment>): nat {
    if trace == [] then 0
    else
      var e := trace[|trace| - 1].event;
      Assistants(trace[..|trace| - 1]) + if e.StepSaved? && e.role == Assistant then 1 else 0
  }

  lemma SeeAssistants(w: World, e: Event)
    ensures Assistants(w.See(e).trace) == Assistants(w.trace) + if e.StepSaved? && e.role == Assistant then 1 else 0
  {
    assert w.See(e).trace[..|w.trace|] == w.trace;
  }

  lemma FlushAssistants(w: World, s: Stream, force: bool, now: int)
    ensures Assistants(Flush(w, s, force, now).0.trace) == Assistants(w.trace)
  {
    SeeAssistants(w, Published(RunToken, s.id, s.buf, None));
    if s.bridge.Some? {
      SeeAssistants(w.See(Published(RunToken, s.id, s.buf, None)),
                    Published(RunToken, s.bridge.value.parent, s.buf, Some(s.bridge.value.subtask)));
    }
  }

  lemma {:induction false} HearAssistants(w: World, s: Stream, deltas: seq<Delta>)
    ensures Assistants(Hear(w, s, deltas).0.trace) == Assistants(w.trace)
    decreases |deltas|
  {
    hide Assistants, Flush;
    if s.on && deltas != [] {
      var s0 := s.(buf := s.buf + deltas[0].text);
      FlushAssistants(w, s0, false, deltas[0].at);
      var (w1, s1) := Flush(w, s0, false, deltas[0].at);
      HearAssistants(w1, s1, deltas[1..]);
    }
  }

  lemma {:induction false} ToolsAssistants(w: World, id: string, agent: Agent, calls: seq<ToolCall>, index: nat)
    ensures Assistants(Tools(w, id, agent, calls, index).w.trace) == Assistants(w.trace)
    decreases |calls|
  {
    hide Assistants;
    if calls != [] && Allowed(agent, calls[0].name) && calls[0].outcome.Ok? {
      SaveAssistants(w, id, index, Tool);
      ToolsAssistants(w.AppendStep(id, index, Tool).Publish(StepAppended, id), id, agent, calls[1..], index + 1);
    }
  }

  lemma SaveAssistants(w: World, id: string, index: nat, role: StepRole)
    ensures Assistants(w.AppendStep(id, index, role).Publish(StepAppended, id).trace)
            == Assistants(w.trace) + if role == Assistant then 1 else 0
  {
    var v := w.(steps := w.steps[(id, index) := role]);
    SeeAssistants(v, StepSaved(id, index, role));
    SeeAssistants(w.AppendStep(id, index, role), Published(StepAppended, id, "", None));
  }

  lemma RoundAssistants(w: World, id: string, agent: Agent, reply: Reply, index: nat, s: Stream)
    ensures Assistants(Round(w, id, agent, reply, index, s).w.trace) <= Assistants(w.trace) + 1
  {
    hide Assistants, Hear, Flush, Tools;
    SeeAssistants(w, ModelCalled(id));
    var w0 := w.See(ModelCalled(id));
    HearAssistants(w0, s, reply.deltas);
    var (w1, s1) := Hear(w0, s, reply.deltas);
    if reply.Turn? {
      FlushAssistants(w1, s1, true, reply.doneAt);
      var w2 := Flush(w1, s1, true, reply.doneAt).0;
      SaveAssistants(w2, id, index, Assistant);
      ToolsAssistants(w2.AppendStep(id, index, Assistant).Publish(StepAppended, id), id, agent, reply.calls, index + 1);
    }
  }

  lemma {:induction false} LoopAssistants(w: World, id: string, agent: Agent, limit: nat, script: Script, iter: nat,
                                          index: nat, s: Stream)
    requires iter <= limit
    ensures Assistants(Loop(w, id, agent, limit, script, iter, index, s).0.trace) <= Assistants(w.trace) + limit - iter
    decreases limit - iter
  {
    hide Assistants, Round;
    if iter >= limit {
      SeeAssistants(w, Published(NeedsHuman, id, "", None));
    } else {
      RoundAssistants(w, id, agent, script(iter), index, s);
      var end := Round(w, id, agent, script(iter), index, s);
      if end.Next? { LoopAssistants(end.w, id, agent, limit, script, iter + 1, end.index, end.s); }
    }
  }

  /** An attempt writes at most `maxIterations` assistant steps. */
  lemma AttemptAssistants(w: World, agents: seq<Agent>, limit: nat, id: string, script: Script, bridge: Option<Bridge>)
    ensures Assistants(ExecuteRun(w, agents, limit, id, script, bridge).0.trace) <= Assistants(w.trace) + limit
  {
    hide Assistants, Loop;
    if id in w.runs && !IsTerminal(w.runs[id].status) && FindAgent(agents, w.runs[id].agentId).Some? {
      var run := w.runs[id];
      var w1 := if run.status == Running then w else w.UpdateRunStatus(id, Running, NoPatch);
      if run.status != Running { WriteAssistants(w, id, Running, NoPatch); }
      SeeAssistants(w1, Published(RunStarted, id, "", None));
      var s := Stream(run.input.chat || run.input.stream, id, bridge, "", 0);
      var agent := FindAgent(agents, run.agentId).value;
      LoopAssistants(w1.Publish(RunStarted, id), id, agent, limit, script, 0, 0, s);
      var (w2, r) := Loop(w1.Publish(RunStarted, id), id, agent, limit, script, 0, 0, s);
      match r
      case Ok(text) =>
        WriteAssistants(w2, id, Succeeded, SetOutput(Text(text)));
        SeeAssistants(w2.UpdateRunStatus(id, Succeeded, SetOutput(Text(text))), Published(RunSucceeded, id, "", None));
      case Err(e) => WriteAssistants(w2, id, Running, SetError(e));
    }
  }

  lemma WriteAssistants(w: World, id: string, status: RunStatus, patch: Patch)
    ensures Assistants(w.UpdateRunStatus(id, status, patch).trace) == Assistants(w.trace)
  {
    if id in w.runs { SeeAssistants(w.(runs := w.runs[id := Patched(w.runs[id], status, patch)]), Wrote(id)); }
  }
}
