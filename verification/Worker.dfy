/**
 * Deliveries and control-plane calls as atomic steps: the worker's retry and dead-letter policy,
 * run creation, operator requeue, and what whole runs of the system keep.
 */
module Worker {
  import opened Domain
  import opened Store
  import opened Runtime
  import opened Planner
  import opened Orchestrator
  import opened Team

  /** What one delivery meets: the planner's answer, and the model in each run it touches. */
  datatype Delivery = Delivery(planning: Planning, behave: Behaviour)

  // ----- dispatchRun -----

  function IsOrchestrated(cfg: Config, run: Run): bool {
    var agent := FindAgent(cfg.agents, run.agentId);
    agent.Some? && agent.value.agentType == Orchestrator && !run.input.chat
  }

  function Dispatch(w: World, cfg: Config, id: string, d: Delivery): (World, Result<()>) {
    if id !in w.runs then (w, Err(RUN_NOT_FOUND))
    else if FindAgent(cfg.agents, w.runs[id].agentId).None? then (w, Err(AGENT_NOT_FOUND))
    else if IsOrchestrated(cfg, w.runs[id]) then ExecuteOrchestration(w, cfg, id, d.planning, d.behave)
    else ExecuteRun(w, cfg.agents, cfg.maxIterations, id, d.behave(id), None)
  }

  // ----- The processor -----

  /** Attempts exhausted: terminal failure and dead letter. */
  function Bury(w: World, id: string, attempt: nat, reason: string): World {
    if id !in w.runs || Transition(w.runs[id].status, Failed).Err? then w
    else
      w.UpdateRunStatus(id, Failed, SetError(reason))
       .RecordDeadLetter(DeadLetter(id, reason, attempt))
       .Publish(RunFailed, id).Publish(RunDeadLettered, id)
  }

  function Process(w: World, cfg: Config, maxAttempts: int, id: string, d: Delivery): World {
    if id !in w.runs then w
    else
      var w1 := w.IncrementRunAttempts(id);
      var attempt := w1.runs[id].attempts;
      var (w2, r) := Dispatch(w1, cfg, id, d);
      if r.Ok? then w2
      else if attempt < maxAttempts then w2.Enqueue(id)
      else Bury(w2, id, attempt, r.error)
  }

  // ----- Steps of the system -----

  datatype Op =
    | Create(id: string, agentId: string, input: RunInput)
    | Deliver(id: string, d: Delivery)
    | Requeue(id: string)
    | Redeliver(id: string)

  /** The control plane's `createRun` for a known agent. */
  function CreateAndEnqueue(w: World, cfg: Config, id: string, agentId: string, input: RunInput): World {
    if FindAgent(cfg.agents, agentId).None? then w
    else w.CreateRun(id, Run(agentId, Queued, input, Undefined, None, 0, None)).Enqueue(id)
  }

  /** Operator re-open of a failed run. */
  function RequeueDeadLetter(w: World, id: string): World {
    if id !in w.runs || w.runs[id].status != Failed then w
    else w.ReopenRun(id).MarkDeadLetterRequeued(id).Enqueue(id)
  }

  function Step(w: World, cfg: Config, maxAttempts: int, op: Op): World {
    match op
    case Create(id, agentId, input) => CreateAndEnqueue(w, cfg, id, agentId, input)
    case Deliver(id, d) => if w.jobs[id] == 0 then w else Process(w.TakeJob(id), cfg, maxAttempts, id, d)
    case Requeue(id) => RequeueDeadLetter(w, id)
    case Redeliver(id) => w.Enqueue(id)
  }

  function Steps(w: World, cfg: Config, maxAttempts: int, ops: seq<Op>): World {
    if ops == [] then w
    else Step(Steps(w, cfg, maxAttempts, ops[..|ops| - 1]), cfg, maxAttempts, ops[|ops| - 1])
  }

  // ----- In place -----

  method DispatchRun(p: Platform, cfg: Config, id: string, complex: bool, planned: Result<seq<Subtask>>,
                     behave: Behaviour)
      returns (r: Result<()>, ghost d: Delivery)
    requires planned.Ok? ==> ValidPlan(planned.value)
    modifies p
    ensures d.behave == behave && d.planning.complex == complex && d.planning.planned == planned
    ensures (p.View(), r) == Dispatch(old(p.View()), cfg, id, d)
    ensures id in old(p.runs) && !IsTerminal(old(p.runs)[id].status) && IsOrchestrated(cfg, old(p.runs)[id]) ==>
              SortedFrom(PlanOf(cfg, old(p.runs)[id].input.prompt, d.planning), d.planning.sorted)
  {
    d := Delivery(Planning(complex, planned, Err("")), behave);
    var row := p.GetRun(id);
    if row.None? { return Err(RUN_NOT_FOUND), d; }
    var agent := FindAgent(cfg.agents, row.value.agentId);
    if agent.None? { return Err(AGENT_NOT_FOUND), d; }
    if agent.value.agentType == Orchestrator && !row.value.input.chat {
      ghost var pl;
      r, pl := Orchestrate(p, cfg, id, complex, planned, behave);
      d := Delivery(pl, behave);
    } else {
      r := Execute(p, cfg.agents, cfg.maxIterations, id, behave(id), None);
    }
  }

  method ProcessJob(p: Platform, cfg: Config, maxAttempts: int, id: string, complex: bool,
                    planned: Result<seq<Subtask>>, behave: Behaviour) returns (ghost d: Delivery)
    requires planned.Ok? ==> ValidPlan(planned.value)
    modifies p
    ensures d.behave == behave && d.planning.complex == complex && d.planning.planned == planned
    ensures id in old(p.runs) && !IsTerminal(old(p.runs)[id].status) && IsOrchestrated(cfg, old(p.runs)[id]) ==>
              SortedFrom(PlanOf(cfg, old(p.runs)[id].input.prompt, d.planning), d.planning.sorted)
    ensures p.View() == Process(old(p.View()), cfg, maxAttempts, id, d)
  {
    hide Dispatch;
    d := Delivery(Planning(complex, planned, Err("")), behave);
    var attempt := p.IncrementRunAttempts(id);
    if attempt.None? { return; }
    var r;
    r, d := DispatchRun(p, cfg, id, complex, planned, behave);
    if r.Err? {
      if attempt.value < maxAttempts {
        p.Enqueue(id);
        return;
      }
      var run := p.GetRun(id);
      if run.Some? {
        var failed := Transition(run.value.status, Failed);
        if failed.Err? { return; }
        var _ := p.UpdateRunStatus(id, failed.value, SetError(r.error));
        p.RecordDeadLetter(DeadLetter(id, r.error, attempt.value));
        p.See(Published(RunFailed, id, "", None));
        p.See(Published(RunDeadLettered, id, "", None));
      }
    }
  }

  method CreateRun(p: Platform, cfg: Config, id: string, agentId: string, input: RunInput) returns (r: Result<()>)
    modifies p
    ensures p.View() == CreateAndEnqueue(old(p.View()), cfg, id, agentId, input)
    ensures r.Ok? <==> FindAgent(cfg.agents, agentId).Some?
    ensures r.Err? ==> p.View() == old(p.View())
    ensures r.Ok? ==> id in p.runs && p.jobs == old(p.jobs) + multiset{id}
    ensures r.Ok? && id !in old(p.runs) ==>
              var run := p.runs[id];
              && run.agentId == agentId && run.input == input && run.status == Queued && run.attempts == 0
              && run.output == Undefined && run.error == None && run.parent == None
    ensures forall j :: j in old(p.runs) ==> j in p.runs && p.runs[j] == old(p.runs)[j]
  {
    var agent := FindAgent(cfg.agents, agentId);
    if agent.None? { return Err(AGENT_NOT_FOUND); }
    var _ := p.CreateRun(id, Run(agentId, Queued, input, Undefined, None, 0, None));
    p.Enqueue(id);
    r := Ok(());
  }

  const NOT_FAILED := "run is not in a failed state"

  method Reopen(p: Platform, id: string) returns (r: Result<()>)
    modifies p
    ensures p.View() == RequeueDeadLetter(old(p.View()), id)
    ensures r.Ok? <==> id in old(p.runs) && old(p.runs)[id].status == Failed
    ensures r.Err? ==> p.View() == old(p.View())
    ensures r.Ok? ==>
              && p.runs == old(p.runs)[id := old(p.runs)[id].(status := Queued, attempts := 0, error := None)]
              && p.jobs == old(p.jobs) + multiset{id}
  {
    var run := p.GetRun(id);
    if run.None? { return Err(RUN_NOT_FOUND); }
    if run.value.status != Failed { return Err(NOT_FAILED); }
    var _ := p.ReopenRun(id);
    p.MarkDeadLetterRequeued(id);
    p.Enqueue(id);
    r := Ok(());
  }

  // ----- Every write is legal -----

  lemma SameTraceFlows(w: World, v: World, w': World)
    requires Flows(w, v) && w'.runs == v.runs && w'.trace == v.trace
    ensures Flows(w, w')
  {
  }

  lemma CountFlows(w: World, id: string)
    requires id in w.runs
    ensures Flows(w, w.IncrementRunAttempts(id))
  {
    var w1 := w.IncrementRunAttempts(id);
    FlowsStep(w, w1, Moment(Counted(id), w1.runs));
  }

  /** The row of a dispatched run, and everything outside its family. */
  lemma DispatchEvents(w: World, cfg: Config, id: string, d: Delivery)
    requires id in w.runs
    ensures var (w', r) := Dispatch(w, cfg, id, d);
            && Flows(w, w') && SameQueues(w, w') && FamilyOnly(w.runs, w'.runs, id)
            && id in w'.runs
            && (FindAgent(cfg.agents, w.runs[id].agentId).Some? ==> ParentMoves(w.runs[id], w'.runs[id], r))
            && (FindAgent(cfg.agents, w.runs[id].agentId).None? ==> w' == w && r.Err?)
  {
    hide Flows, FamilyOnly, ExecuteRun, ExecuteOrchestration;
    FlowsRefl(w);
    FamilyOnlyFrom(w.runs, w.runs, w.runs, w.runs, id);
    if FindAgent(cfg.agents, w.runs[id].agentId).Some? {
      if IsOrchestrated(cfg, w.runs[id]) {
        OrchestrationEvents(w, cfg, id, d.planning, d.behave);
      } else {
        AttemptEvents(w, cfg.agents, cfg.maxIterations, id, d.behave(id), None);
        var w' := ExecuteRun(w, cfg.agents, cfg.maxIterations, id, d.behave(id), None).0;
        RowOnlyFamily(w, w', id);
      }
    }
  }

  lemma RowOnlyFamily(w: World, w': World, id: string)
    requires RowFlows(w, w', id)
    ensures Flows(w, w') && SameQueues(w, w') && FamilyOnly(w.runs, w'.runs, id) && OnlyRow(w.runs, w'.runs, id)
  {
  }

  lemma BuryEvents(w: World, id: string, attempt: nat, reason: string)
    requires id in w.runs
    ensures var w' := Bury(w, id, attempt, reason);
            Flows(w, w') && id in w'.runs && w'.runs == w.runs[id := w'.runs[id]]
  {
    FlowsRefl(w);
    assert w.runs == w.runs[id := w.runs[id]];
    if w.runs[id].status == Running {
      var w1 := w.UpdateRunStatus(id, Failed, SetError(reason));
      FlowsStep(w, w1, Moment(Wrote(id), w1.runs));
      var w2 := w1.RecordDeadLetter(DeadLetter(id, reason, attempt));
      SameTraceFlows(w, w1, w2);
      PublishedFlows(w2, Published(RunFailed, id, "", None));
      FlowsTrans(w, w2, w2.Publish(RunFailed, id));
      PublishedFlows(w2.Publish(RunFailed, id), Published(RunDeadLettered, id, "", None));
      FlowsTrans(w, w2.Publish(RunFailed, id), w2.Publish(RunFailed, id).Publish(RunDeadLettered, id));
    }
  }

  lemma ProcessFlows(w: World, cfg: Config, maxAttempts: int, id: string, d: Delivery)
    ensures Flows(w, Process(w, cfg, maxAttempts, id, d))
  {
    hide Flows, Dispatch, Bury, FamilyOnly;
    FlowsRefl(w);
    if id in w.runs {
      var w1 := w.IncrementRunAttempts(id);
      CountFlows(w, id);
      DispatchEvents(w1, cfg, id, d);
      var (w2, r) := Dispatch(w1, cfg, id, d);
      FlowsTrans(w, w1, w2);
      BuryEvents(w2, id, w1.runs[id].attempts, if r.Err? then r.error else "");
      FlowsTrans(w, w2, Bury(w2, id, w1.runs[id].attempts, if r.Err? then r.error else ""));
      SameTraceFlows(w, w2, w2.Enqueue(id));
    }
  }

  lemma StepFlows(w: World, cfg: Config, maxAttempts: int, op: Op)
    ensures Flows(w, Step(w, cfg, maxAttempts, op))
  {
    FlowsRefl(w);
    match op
    case Create(id, agentId, input) =>
      var row := Run(agentId, Queued, input, Undefined, None, 0, None);
      var w1 := w.CreateRun(id, row);
      if id !in w.runs { FlowsStep(w, w1, Moment(Created(id), w1.runs)); }
      SameTraceFlows(w, w1, w1.Enqueue(id));
    case Deliver(id, d) =>
      SameTraceFlows(w, w, w.TakeJob(id));
      ProcessFlows(w.TakeJob(id), cfg, maxAttempts, id, d);
      FlowsTrans(w, w.TakeJob(id), Process(w.TakeJob(id), cfg, maxAttempts, id, d));
    case Requeue(id) =>
      if id in w.runs && w.runs[id].status == Failed {
        var w1 := w.ReopenRun(id);
        FlowsStep(w, w1, Moment(Reopened(id), w1.runs));
        SameTraceFlows(w, w1, w1.MarkDeadLetterRequeued(id).Enqueue(id));
      }
    case Redeliver(id) =>
      SameTraceFlows(w, w, w.Enqueue(id));
  }

  /** In every run of the system, duplicates included, every status write is legal. */
  lemma {:induction false} StepsFlow(w: World, cfg: Config, maxAttempts: int, ops: seq<Op>)
    ensures Flows(w, Steps(w, cfg, maxAttempts, ops))
    decreases |ops|
  {
    hide Flows, Step;
    FlowsRefl(w);
    if ops != [] {
      var v := Steps(w, cfg, maxAttempts, ops[..|ops| - 1]);
      StepsFlow(w, cfg, maxAttempts, ops[..|ops| - 1]);
      StepFlows(v, cfg, maxAttempts, ops[|ops| - 1]);
      FlowsTrans(w, v, Step(v, cfg, maxAttempts, ops[|ops| - 1]));
    }
  }

  /** So what has succeeded never changes again, whatever is delivered, requeued or redelivered. */
  lemma SucceededForever(w: World, cfg: Config, maxAttempts: int, ops: seq<Op>, id: string)
    requires id in w.runs && w.runs[id].status == Succeeded
    ensures SameOutcome(w.runs, Steps(w, cfg, maxAttempts, ops).runs, id)
  {
    StepsFlow(w, cfg, maxAttempts, ops);
    FrozenAfter(w.runs, New(w, Steps(w, cfg, maxAttempts, ops)), id);
  }

  // ----- Who is asked -----

  lemma {:induction false} LawfulSuffix(start: Runs, seg: seq<Moment>, i: nat)
    requires Lawful(start, seg) && i <= |seg|
    ensures Lawful(After(start, seg[..i]), seg[i..])
    decreases |seg|
  {
    if i < |seg| {
      LawfulSuffix(start, seg[..|seg| - 1], i);
      var (head, tail, init) := (seg[..i], seg[i..], seg[..|seg| - 1]);
      assert init[..i] == head && init[i..] == tail[..|tail| - 1];
      assert After(After(start, head), tail[..|tail| - 1]) == After(start, init) by {
        if i < |init| { assert init[i..][|init| - i - 1] == init[|init| - 1]; } else { assert init == head; }
      }
    } else {
      assert seg[i..] == [];
    }
  }

  /** In every run of the system the model is only asked for a run that is running. */
  lemma AsksOnlyRunning(w: World, cfg: Config, maxAttempts: int, ops: seq<Op>, k: nat)
    requires w.trace <= Steps(w, cfg, maxAttempts, ops).trace && k < |New(w, Steps(w, cfg, maxAttempts, ops))|
    ensures var m := New(w, Steps(w, cfg, maxAttempts, ops))[k];
            m.event.ModelCalled? ==> m.event.id in m.runs && m.runs[m.event.id].status == Running
  {
    StepsFlow(w, cfg, maxAttempts, ops);
    var seg := New(w, Steps(w, cfg, maxAttempts, ops));
    if seg[k].event.ModelCalled? { CallsOnlyRunning(w.runs, seg, k); }
  }

  /** In every run of the system the model is never asked again for a run that had succeeded by then. */
  lemma NeverAsksAgain(w: World, cfg: Config, maxAttempts: int, ops: seq<Op>, i: nat, k: nat, id: string)
    requires w.trace <= Steps(w, cfg, maxAttempts, ops).trace && i <= k < |New(w, Steps(w, cfg, maxAttempts, ops))|
    ensures var seg := New(w, Steps(w, cfg, maxAttempts, ops));
            var rows := After(w.runs, seg[..i]);
            id in rows && rows[id].status == Succeeded ==> seg[k].event != ModelCalled(id)
  {
    hide Steps, Lawful;
    StepsFlow(w, cfg, maxAttempts, ops);
    var seg := New(w, Steps(w, cfg, maxAttempts, ops));
    var rows := After(w.runs, seg[..i]);
    LawfulSuffix(w.runs, seg, i);
    assert seg[i..][k - i] == seg[k];
    if id in rows && rows[id].status == Succeeded { SucceededNeverAsks(rows, seg[i..], k - i, id); }
  }
}
