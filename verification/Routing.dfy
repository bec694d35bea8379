/** Which runs become a team's, and which are the agent's own. */
module Routing {
  import opened Domain
  import opened Store
  import opened Runtime
  import opened Planner
  import opened Orchestrator
  import opened Team
  import opened Worker

  // ----- What one attempt shows -----

  /** An event of an attempt at the run itself: nothing is created and nothing planned. */
  predicate OwnEvent(e: Event, id: string) {
    match e
    case ModelCalled(j) => j == id
    case StepSaved(j, _, _) => j == id
    case Wrote(j) => j == id
    case Published(topic, _, _, _) => topic in {RunStarted, RunToken, StepAppended, NeedsHuman, RunSucceeded}
    case _ => false
  }

  ghost predicate Own(w: World, w': World, id: string) {
    w.trace <= w'.trace && forall m :: m in New(w, w') ==> OwnEvent(m.event, id)
  }

  lemma OwnRefl(w: World, id: string)
    ensures Own(w, w, id)
  {
    assert New(w, w) == [];
  }

  lemma OwnTrans(a: World, b: World, c: World, id: string)
    requires Own(a, b, id) && Own(b, c, id)
    ensures Own(a, c, id)
  {
    NewConcat(a, b, c);
  }

  lemma OwnStep(w: World, w': World, m: Moment, id: string)
    requires w'.trace == w.trace + [m] && OwnEvent(m.event, id)
    ensures Own(w, w', id)
  {
    assert New(w, w') == [m];
  }

  lemma OwnSee(w: World, e: Event, id: string)
    requires OwnEvent(e, id)
    ensures Own(w, w.See(e), id)
  {
    OwnStep(w, w.See(e), Moment(e, w.runs), id);
  }

  lemma FlushOwn(w: World, s: Stream, force: bool, now: int)
    ensures Own(w, Flush(w, s, force, now).0, s.id) && Flush(w, s, force, now).1.id == s.id
  {
    hide Own;
    OwnRefl(w, s.id);
    var w1 := w.See(Published(RunToken, s.id, s.buf, None));
    OwnSee(w, Published(RunToken, s.id, s.buf, None), s.id);
    if s.bridge.Some? {
      var e := Published(RunToken, s.bridge.value.parent, s.buf, Some(s.bridge.value.subtask));
      OwnSee(w1, e, s.id);
      OwnTrans(w, w1, w1.See(e), s.id);
    }
  }

  lemma {:induction false} HearOwn(w: World, s: Stream, deltas: seq<Delta>)
    ensures Own(w, Hear(w, s, deltas).0, s.id) && Hear(w, s, deltas).1.id == s.id
    decreases |deltas|
  {
    hide Own, Flush;
    OwnRefl(w, s.id);
    if s.on && deltas != [] {
      var s0 := s.(buf := s.buf + deltas[0].text);
      FlushOwn(w, s0, false, deltas[0].at);
      var (w1, s1) := Flush(w, s0, false, deltas[0].at);
      HearOwn(w1, s1, deltas[1..]);
      OwnTrans(w, w1, Hear(w1, s1, deltas[1..]).0, s.id);
    }
  }

  lemma StepOwn(w: World, id: string, index: nat, role: StepRole)
    ensures Own(w, w.AppendStep(id, index, role).Publish(StepAppended, id), id)
  {
    hide Own;
    var w1 := w.AppendStep(id, index, role);
    OwnStep(w, w1, Moment(StepSaved(id, index, role), w.runs), id);
    OwnSee(w1, Published(StepAppended, id, "", None), id);
    OwnTrans(w, w1, w1.Publish(StepAppended, id), id);
  }

  lemma {:induction false} ToolsOwn(w: World, id: string, agent: Agent, calls: seq<ToolCall>, index: nat)
    ensures Own(w, Tools(w, id, agent, calls, index).w, id)
    decreases |calls|
  {
    hide Own, Allowed;
    OwnRefl(w, id);
    if calls != [] && Allowed(agent, calls[0].name) && calls[0].outcome.Ok? {
      var w1 := w.AppendStep(id, index, Tool).Publish(StepAppended, id);
      StepOwn(w, id, index, Tool);
      ToolsOwn(w1, id, agent, calls[1..], index + 1);
      OwnTrans(w, w1, Tools(w1, id, agent, calls[1..], index + 1).w, id);
    }
  }

  lemma RoundOwn(w: World, id: string, agent: Agent, reply: Reply, index: nat, s: Stream)
    requires s.id == id
    ensures var end := Round(w, id, agent, reply, index, s);
            Own(w, end.w, id) && (end.Next? ==> end.s.id == id)
  {
    hide Own, Hear, Flush, Tools;
    var w0 := w.See(ModelCalled(id));
    OwnSee(w, ModelCalled(id), id);
    HearOwn(w0, s, reply.deltas);
    var (w1, s1) := Hear(w0, s, reply.deltas);
    OwnTrans(w, w0, w1, id);
    if reply.Turn? {
      FlushOwn(w1, s1, true, reply.doneAt);
      var w2 := Flush(w1, s1, true, reply.doneAt).0;
      OwnTrans(w, w1, w2, id);
      StepOwn(w2, id, index, Assistant);
      var w3 := w2.AppendStep(id, index, Assistant).Publish(StepAppended, id);
      OwnTrans(w, w2, w3, id);
      ToolsOwn(w3, id, agent, reply.calls, index + 1);
      OwnTrans(w, w3, Tools(w3, id, agent, reply.calls, index + 1).w, id);
    }
  }

  lemma {:induction false} LoopOwn(w: World, id: string, agent: Agent, limit: nat, script: Script, iter: nat,
                                   index: nat, s: Stream)
    requires s.id == id
    ensures Own(w, Loop(w, id, agent, limit, script, iter, index, s).0, id)
    decreases limit - iter
  {
    hide Own, Round;
    if iter >= limit {
      OwnSee(w, Published(NeedsHuman, id, "", None), id);
    } else {
      RoundOwn(w, id, agent, script(iter), index, s);
      var end := Round(w, id, agent, script(iter), index, s);
      if end.Next? {
        LoopOwn(end.w, id, agent, limit, script, iter + 1, end.index, end.s);
        OwnTrans(w, end.w, Loop(end.w, id, agent, limit, script, iter + 1, end.index, end.s).0, id);
      }
    }
  }

  lemma AttemptOwn(w: World, agents: seq<Agent>, limit: nat, id: string, script: Script, bridge: Option<Bridge>)
    ensures Own(w, ExecuteRun(w, agents, limit, id, script, bridge).0, id)
  {
    hide Own, Loop;
    OwnRefl(w, id);
    if id in w.runs && !IsTerminal(w.runs[id].status) && FindAgent(agents, w.runs[id].agentId).Some? {
      var run := w.runs[id];
      var w1 := if run.status == Running then w else w.UpdateRunStatus(id, Running, NoPatch);
      if run.status != Running { OwnStep(w, w1, Moment(Wrote(id), w1.runs), id); }
      var w2 := w1.Publish(RunStarted, id);
      OwnSee(w1, Published(RunStarted, id, "", None), id);
      OwnTrans(w, w1, w2, id);
      var s := Stream(run.input.chat || run.input.stream, id, bridge, "", 0);
      var agent := FindAgent(agents, run.agentId).value;
      LoopOwn(w2, id, agent, limit, script, 0, 0, s);
      LoopQuiet(w2, id, agent, limit, script, 0, 0, s);
      var (w3, r) := Loop(w2, id, agent, limit, script, 0, 0, s);
      OwnTrans(w, w2, w3, id);
      EndOwn(w3, id, r);
      OwnTrans(w, w3, ExecuteRun(w, agents, limit, id, script, bridge).0, id);
    }
  }

  lemma EndOwn(w: World, id: string, r: Result<string>)
    requires id in w.runs
    ensures match r
            case Ok(text) =>
              Own(w, w.UpdateRunStatus(id, Succeeded, SetOutput(Text(text))).Publish(RunSucceeded, id), id)
            case Err(e) => Own(w, w.UpdateRunStatus(id, Running, SetError(e)), id)
  {
    hide Own;
    match r
    case Ok(text) =>
      var w1 := w.UpdateRunStatus(id, Succeeded, SetOutput(Text(text)));
      OwnStep(w, w1, Moment(Wrote(id), w1.runs), id);
      OwnSee(w1, Published(RunSucceeded, id, "", None), id);
      OwnTrans(w, w1, w1.Publish(RunSucceeded, id), id);
    case Err(e) =>
      var w1 := w.UpdateRunStatus(id, Running, SetError(e));
      OwnStep(w, w1, Moment(Wrote(id), w1.runs), id);
  }

  // ----- What a team shows -----

  /** The model is never asked under the parent's own id. */
  ghost predicate Delegated(w: World, w': World, parent: string) {
    w.trace <= w'.trace && forall m :: m in New(w, w') ==> m.event != ModelCalled(parent)
  }

  lemma DelegatedRefl(w: World, parent: string)
    ensures Delegated(w, w, parent)
  {
    assert New(w, w) == [];
  }

  lemma DelegatedTrans(a: World, b: World, c: World, parent: string)
    requires Delegated(a, b, parent) && Delegated(b, c, parent)
    ensures Delegated(a, c, parent)
  {
    NewConcat(a, b, c);
  }

  lemma DelegatedStep(w: World, w': World, m: Moment, parent: string)
    requires w'.trace == w.trace + [m] && m.event != ModelCalled(parent)
    ensures Delegated(w, w', parent)
  {
    assert New(w, w') == [m];
  }

  lemma DelegatedPublish(w: World, topic: Topic, parent: string)
    ensures Delegated(w, w.Publish(topic, parent), parent)
  {
    DelegatedStep(w, w.Publish(topic, parent), Moment(Published(topic, parent, "", None), w.runs), parent);
  }

  lemma RunChildDelegated(w: World, cfg: Config, parent: string, subtask: string, agent: Agent, prompt: string,
                          behave: Behaviour)
    ensures Delegated(w, RunChild(w, cfg, parent, subtask, agent, prompt, behave).0, parent)
  {
    hide ExecuteRun;
    var id := ChildId(parent, subtask);
    var w0 := w.CreateRun(id, ChildRow(agent, prompt, parent, subtask));
    DelegatedRefl(w, parent);
    if id !in w.runs { DelegatedStep(w, w0, Moment(Created(id), w0.runs), parent); }
    var w1 := w0.Publish(SubtaskRunning, parent);
    DelegatedPublish(w0, SubtaskRunning, parent);
    DelegatedTrans(w, w0, w1, parent);
    var bridge := Some(Bridge(parent, subtask));
    AttemptOwn(w1, cfg.agents, cfg.maxIterations, id, behave(id), bridge);
    IsChildId(parent, subtask);
    DelegatedTrans(w, w1, ExecuteRun(w1, cfg.agents, cfg.maxIterations, id, behave(id), bridge).0, parent);
  }

  lemma RunSubtaskDelegated(w: World, cfg: Config, parent: string, t: Subtask, outputs: map<string, Output>,
                            behave: Behaviour)
    ensures Delegated(w, RunSubtask(w, cfg, parent, t, outputs, behave).0, parent)
  {
    hide Delegated, RunChild;
    DelegatedRefl(w, parent);
    var agent := FindByType(cfg.agents, t.agentType);
    if agent.Some? {
      var prompt := ComposePrompt(cfg, t, outputs);
      RunChildDelegated(w, cfg, parent, t.id, agent.value, prompt, behave);
      var w1 := RunChild(w, cfg, parent, t.id, agent.value, prompt, behave).0;
      DelegatedPublish(w1, SubtaskFailed, parent);
      DelegatedPublish(w1, SubtaskSucceeded, parent);
      DelegatedTrans(w, w1, w1.Publish(SubtaskFailed, parent), parent);
      DelegatedTrans(w, w1, w1.Publish(SubtaskSucceeded, parent), parent);
    }
  }

  lemma {:induction false} RunSubtasksDelegated(w: World, cfg: Config, parent: string, todo: seq<Subtask>, pr: Progress,
                                                behave: Behaviour)
    ensures Delegated(w, RunSubtasks(w, cfg, parent, todo, pr, behave).0, parent)
    decreases |todo|
  {
    hide Delegated, RunSubtask;
    DelegatedRefl(w, parent);
    if todo != [] {
      RunSubtaskDelegated(w, cfg, parent, todo[0], pr.outputs, behave);
      var (w1, r) := RunSubtask(w, cfg, parent, todo[0], pr.outputs, behave);
      if r.Ok? {
        var pr1 := Progress(pr.outputs[todo[0].id := r.value.output], pr.contributions + [r.value]);
        RunSubtasksDelegated(w1, cfg, parent, todo[1..], pr1, behave);
        DelegatedTrans(w, w1, RunSubtasks(w1, cfg, parent, todo[1..], pr1, behave).0, parent);
      }
    }
  }

  lemma ContributeDelegated(w: World, cfg: Config, parent: string, subtask: string, agent: Agent, prompt: string,
                            t: AgentType, behave: Behaviour)
    ensures Delegated(w, Contribute(w, cfg, parent, subtask, agent, prompt, t, behave).0, parent)
  {
    hide Delegated, RunChild;
    RunChildDelegated(w, cfg, parent, subtask, agent, prompt, behave);
    var w1 := RunChild(w, cfg, parent, subtask, agent, prompt, behave).0;
    DelegatedPublish(w1, SubtaskSucceeded, parent);
    DelegatedTrans(w, w1, w1.Publish(SubtaskSucceeded, parent), parent);
  }

  lemma DebateRoundDelegated(w: World, cfg: Config, parent: string, task: string, reviewer: Agent, synth: Subtask,
                             synthAgent: Option<Agent>, round: nat, talk: Talk, behave: Behaviour)
    ensures Delegated(w, DebateRound(w, cfg, parent, task, reviewer, synth, synthAgent, round, talk, behave).w, parent)
  {
    hide Delegated, Contribute;
    var prompt := cfg.reviewPrompt(task, talk.contributions);
    ContributeDelegated(w, cfg, parent, ReviewId(round), reviewer, prompt, Reviewer, behave);
    var (w1, r) := Contribute(w, cfg, parent, ReviewId(round), reviewer, prompt, Reviewer, behave);
    if r.Some? && cfg.needsRework(r.value.output) && synthAgent.Some? {
      var prompt2 := cfg.revisionPrompt(task, talk.summary, r.value.output);
      ContributeDelegated(w1, cfg, parent, RevisionId(round), synthAgent.value, prompt2, synth.agentType, behave);
      var w2 := Contribute(w1, cfg, parent, RevisionId(round), synthAgent.value, prompt2, synth.agentType, behave).0;
      DelegatedTrans(w, w1, w2, parent);
    }
  }

  lemma {:induction false} DebateDelegated(w: World, cfg: Config, parent: string, task: string, reviewer: Agent,
                                           synth: Subtask, synthAgent: Option<Agent>, round: nat, talk: Talk,
                                           behave: Behaviour)
    ensures Delegated(w, Debate(w, cfg, parent, task, reviewer, synth, synthAgent, round, talk, behave).0, parent)
    decreases cfg.debateRounds + 1 - round
  {
    hide Delegated, DebateRound;
    DelegatedRefl(w, parent);
    if round <= cfg.debateRounds {
      DebateRoundDelegated(w, cfg, parent, task, reviewer, synth, synthAgent, round, talk, behave);
      var end := DebateRound(w, cfg, parent, task, reviewer, synth, synthAgent, round, talk, behave);
      if end.Again? {
        DebateDelegated(end.w, cfg, parent, task, reviewer, synth, synthAgent, round + 1, end.talk, behave);
        var w' := Debate(end.w, cfg, parent, task, reviewer, synth, synthAgent, round + 1, end.talk, behave).0;
        DelegatedTrans(w, end.w, w', parent);
      }
    }
  }

  lemma TalkDelegated(w: World, cfg: Config, parent: string, task: string, plan: seq<Subtask>, orchestrated: bool,
                      synth: Subtask, pr: Progress, behave: Behaviour)
    ensures Delegated(w, MaybeDebate(w, cfg, parent, task, plan, orchestrated, synth, pr, behave).0, parent)
  {
    hide Delegated, Debate;
    DelegatedRefl(w, parent);
    var reviewer := FindByType(cfg.agents, Reviewer);
    if reviewer.Some? {
      var talk := Talk(Look(pr.outputs, synth.id), pr.contributions, None);
      var synthAgent := FindByType(cfg.agents, synth.agentType);
      DebateDelegated(w, cfg, parent, task, reviewer.value, synth, synthAgent, 1, talk, behave);
    }
  }

  lemma TeamWorkDelegated(w: World, cfg: Config, parent: string, task: string, pl: Planning, behave: Behaviour)
    ensures Delegated(w, TeamWork(w, cfg, parent, task, pl, behave).0, parent)
    ensures var r := TeamWork(w, cfg, parent, task, pl, behave).1; r.Ok? ==> r.value.Team?
  {
    hide Delegated, RunSubtasks, MaybeDebate, PlanOf;
    DelegatedRefl(w, parent);
    if pl.sorted.Ok? {
      var order := pl.sorted.value;
      RunSubtasksDelegated(w, cfg, parent, order, Progress(map[], []), behave);
      var (w1, r) := RunSubtasks(w, cfg, parent, order, Progress(map[], []), behave);
      if r.Ok? && order != [] {
        var plan := PlanOf(cfg, task, pl);
        TalkDelegated(w1, cfg, parent, task, plan, Orchestrated(pl), order[|order| - 1], r.value, behave);
        DelegatedTrans(w, w1, MaybeDebate(w1, cfg, parent, task, plan, Orchestrated(pl), order[|order| - 1], r.value,
                                          behave).0, parent);
      }
    }
  }

  lemma ParentEndDelegated(w: World, parent: string, r: Result<Output>)
    requires parent in w.runs
    ensures match r
            case Ok(output) =>
              var w1 := w.UpdateRunStatus(parent, Succeeded, SetOutput(output));
              Delegated(w, w1.Publish(RunSucceeded, parent), parent)
            case Err(e) => Delegated(w, w.UpdateRunStatus(parent, Running, SetError(e)), parent)
  {
    hide Delegated;
    match r
    case Ok(output) =>
      var w1 := w.UpdateRunStatus(parent, Succeeded, SetOutput(output));
      DelegatedStep(w, w1, Moment(Wrote(parent), w1.runs), parent);
      DelegatedPublish(w1, RunSucceeded, parent);
      DelegatedTrans(w, w1, w1.Publish(RunSucceeded, parent), parent);
    case Err(e) =>
      var w1 := w.UpdateRunStatus(parent, Running, SetError(e));
      DelegatedStep(w, w1, Moment(Wrote(parent), w1.runs), parent);
  }

  lemma TeamDelegated(w: World, cfg: Config, parent: string, pl: Planning, behave: Behaviour)
    requires parent in w.runs && !IsTerminal(w.runs[parent].status)
    ensures var (w', r) := ExecuteOrchestration(w, cfg, parent, pl, behave);
            && Delegated(w, w', parent)
            && (exists m :: m in New(w, w') && m.event == Published(Planned, parent, "", None))
            && (r.Ok? ==> parent in w'.runs && w'.runs[parent].output.Team?)
  {
    hide Delegated, TeamWork, ChildFlows;
    var run := w.runs[parent];
    DelegatedRefl(w, parent);
    var w1 := if run.status == Running then w else w.UpdateRunStatus(parent, Running, NoPatch);
    if run.status != Running { DelegatedStep(w, w1, Moment(Wrote(parent), w1.runs), parent); }
    var w2 := w1.Publish(Planned, parent);
    DelegatedPublish(w1, Planned, parent);
    DelegatedTrans(w, w1, w2, parent);
    TeamWorkDelegated(w2, cfg, parent, run.input.prompt, pl, behave);
    var (w3, r) := TeamWork(w2, cfg, parent, run.input.prompt, pl, behave);
    TeamWorkFlow(w2, cfg, parent, run.input.prompt, pl, behave);
    ParentThere(w2, w3, parent);
    DelegatedTrans(w, w2, w3, parent);
    ParentEndDelegated(w3, parent, r);
    var w' := ExecuteOrchestration(w, cfg, parent, pl, behave).0;
    DelegatedTrans(w, w3, w', parent);
    Showing(w, w1, w2, w3, w', parent);
  }

  lemma ParentThere(w: World, w': World, parent: string)
    requires ChildFlows(w, w', parent) && parent in w.runs
    ensures parent in w'.runs
  {
    hide Lawful;
    ParentKept(w.runs, w'.runs, parent);
  }

  lemma Showing(w: World, w1: World, w2: World, w3: World, w': World, parent: string)
    requires Delegated(w, w1, parent) && w2 == w1.Publish(Planned, parent)
    requires Delegated(w2, w3, parent) && Delegated(w3, w', parent)
    ensures w.trace <= w'.trace
    ensures exists m :: m in New(w, w') && m.event == Published(Planned, parent, "", None)
  {
    var m := Moment(Published(Planned, parent, "", None), w1.runs);
    assert w2.trace[|w1.trace|] == m;
    assert w'.trace[|w1.trace|] == m;
    assert New(w, w')[|w1.trace| - |w.trace|] == m;
  }

  // ----- Dispatch -----

  /**
   * A live task of an orchestrator is planned and left to children: the model is never asked under the
   * run's own id, and a success is a team's.
   */
  lemma TaskOfOrchestrator(w: World, cfg: Config, id: string, d: Delivery)
    requires id in w.runs && !IsTerminal(w.runs[id].status) && FindAgent(cfg.agents, w.runs[id].agentId).Some?
    requires FindAgent(cfg.agents, w.runs[id].agentId).value.agentType == Orchestrator && !w.runs[id].input.chat
    ensures var (w', r) := Dispatch(w, cfg, id, d);
            && w.trace <= w'.trace
            && (exists m :: m in New(w, w') && m.event == Published(Planned, id, "", None))
            && (forall m :: m in New(w, w') ==> m.event != ModelCalled(id))
            && (r.Ok? ==> id in w'.runs && w'.runs[id].output.Team?)
  {
    hide ExecuteOrchestration;
    TeamDelegated(w, cfg, id, d.planning, d.behave);
  }

  /**
   * Any other live run with a known agent is the agent's own, a chat with an orchestrator included:
   * nothing is planned or created, no other row moves, and a success is a text.
   */
  lemma OwnRun(w: World, cfg: Config, id: string, d: Delivery)
    requires id in w.runs && !IsTerminal(w.runs[id].status) && FindAgent(cfg.agents, w.runs[id].agentId).Some?
    requires FindAgent(cfg.agents, w.runs[id].agentId).value.agentType != Orchestrator || w.runs[id].input.chat
    ensures var (w', r) := Dispatch(w, cfg, id, d);
            && w.trace <= w'.trace
            && (forall m :: m in New(w, w') ==>
                  && !m.event.Created? && !(m.event.Published? && m.event.topic == Planned)
                  && (m.event.ModelCalled? ==> m.event.id == id)
                  && id in m.runs && m.runs == w.runs[id := m.runs[id]])
            && id in w'.runs && w'.runs == w.runs[id := w'.runs[id]]
            && (r.Ok? ==> w'.runs[id].output.Text?)
  {
    hide ExecuteRun, Lawful, RowStep;
    AttemptOwn(w, cfg.agents, cfg.maxIterations, id, d.behave(id), None);
    AttemptEvents(w, cfg.agents, cfg.maxIterations, id, d.behave(id), None);
    AnswerIsText(w.runs[id], ExecuteRun(w, cfg.agents, cfg.maxIterations, id, d.behave(id), None).0.runs[id]);
  }

  lemma AnswerIsText(a: Run, b: Run)
    ensures RowStep(a, b) && !IsTerminal(a.status) && IsTerminal(b.status) ==> b.output.Text?
  {}
}
