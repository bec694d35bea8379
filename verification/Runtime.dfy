/** One attempt at a run: the bounded tool-use loop. */
module Runtime {
  import opened Domain
  import opened Store

  datatype Agent = Agent(id: string, agentType: AgentType, name: string, allowedTools: seq<string>)

  function FindAgent(agents: seq<Agent>, id: string): (r: Option<Agent>)
    ensures r.Some? ==> r.value in agents && r.value.id == id
    ensures r.None? <==> forall agent :: agent in agents ==> agent.id != id
  {
    if agents == [] then None
    else if agents[0].id == id then Some(agents[0])
    else
      var r := FindAgent(agents[1..], id);
      assert r.Some? ==> r.value in agents[1..];
      assert forall agent :: agent in agents <==> agent == agents[0] || agent in agents[1..];
      r
  }

  datatype Delta = Delta(text: string, at: int)

  datatype ToolCall = ToolCall(name: string, outcome: Result<string>)

  datatype Reply =
    | Throws(deltas: seq<Delta>, error: string)
    | Turn(deltas: seq<Delta>, doneAt: int, text: string, calls: seq<ToolCall>)

  /**
   * What the model does on each iteration of an attempt, how its text arrives in time and what each
   * tool returns; every theorem is for all scripts.
   */
  type Script = nat -> Reply

  /** White space, dots and ellipses only: no real answer. */
  predicate Blank(text: string) {
    forall i :: 0 <= i < |text| ==> IsSpace(text[i]) || text[i] as int in {0x2e, 0x2026, 0xb7}
  }

  const FLUSH_MS := 90
  const RUN_NOT_FOUND := "Run not found"
  const AGENT_NOT_FOUND := "Agent not found"
  const EMPTY_OUTPUT := "empty model output"
  const MAX_ITERATIONS := "Run exceeded max iterations"
  const TOOL_NOT_ALLOWED := "Tool is not allowed for agent"

  // ----- The token stream -----

  /** The parent stream a child's tokens are re-published on. */
  datatype Bridge = Bridge(parent: string, subtask: string)

  datatype Stream = Stream(on: bool, id: string, bridge: Option<Bridge>, buf: string, last: int)

  function Emit(w: World, s: Stream, text: string): World {
    var w1 := w.See(Published(RunToken, s.id, text, None));
    match s.bridge
    case None => w1
    case Some(b) => w1.See(Published(RunToken, b.parent, text, Some(b.subtask)))
  }

  function Flush(w: World, s: Stream, force: bool, now: int): (World, Stream) {
    if s.buf == "" || (!force && now - s.last < FLUSH_MS) then (w, s)
    else (Emit(w, s, s.buf), s.(buf := "", last := now))
  }

  function Hear(w: World, s: Stream, deltas: seq<Delta>): (World, Stream)
    decreases |deltas|
  {
    if !s.on || deltas == [] then (w, s)
    else
      var (w1, s1) := Flush(w, s.(buf := s.buf + deltas[0].text), false, deltas[0].at);
      Hear(w1, s1, deltas[1..])
  }

  // ----- The tool-use loop -----

  predicate Allowed(agent: Agent, name: string) {
    agent.allowedTools == [] || name in agent.allowedTools
  }

  datatype ToolsEnd = ToolsEnd(w: World, index: nat, error: Option<string>)

  function Tools(w: World, id: string, agent: Agent, calls: seq<ToolCall>, index: nat): ToolsEnd
    decreases |calls|
  {
    if calls == [] then ToolsEnd(w, index, None)
    else if !Allowed(agent, calls[0].name) then ToolsEnd(w, index, Some(TOOL_NOT_ALLOWED))
    else
      match calls[0].outcome
      case Err(e) => ToolsEnd(w, index, Some(e))
      case Ok(_) => Tools(w.AppendStep(id, index, Tool).Publish(StepAppended, id), id, agent, calls[1..], index + 1)
  }

  /** A round of the loop answers or throws, or goes on with more steps recorded. */
  datatype RoundEnd = Stop(w: World, r: Result<string>) | Next(w: World, index: nat, s: Stream)

  function Round(w: World, id: string, agent: Agent, reply: Reply, index: nat, s: Stream): RoundEnd {
    var (w1, s1) := Hear(w.See(ModelCalled(id)), s, reply.deltas);
    match reply
    case Throws(_, e) => Stop(w1, Err(e))
    case Turn(_, doneAt, text, calls) =>
      var (w2, s2) := Flush(w1, s1, true, doneAt);
      var w3 := w2.AppendStep(id, index, Assistant).Publish(StepAppended, id);
      if calls == [] then Stop(w3, if Blank(text) then Err(EMPTY_OUTPUT) else Ok(text))
      else
        var end := Tools(w3, id, agent, calls, index + 1);
        if end.error.Some? then Stop(end.w, Err(end.error.value)) else Next(end.w, end.index, s2)
  }

  /** The text of the final answer, or the error the attempt ends with. */
  function Loop(w: World, id: string, agent: Agent, limit: nat, script: Script, iter: nat, index: nat, s: Stream)
      : (World, Result<string>)
    decreases limit - iter
  {
    if iter >= limit then (w.Publish(NeedsHuman, id), Err(MAX_ITERATIONS))
    else
      match Round(w, id, agent, script(iter), index, s)
      case Stop(w1, r) => (w1, r)
      case Next(w1, index1, s1) => Loop(w1, id, agent, limit, script, iter + 1, index1, s1)
  }

  /** One attempt. An error is what the call throws. */
  function ExecuteRun(w: World, agents: seq<Agent>, limit: nat, id: string, script: Script, bridge: Option<Bridge>)
      : (World, Result<()>)
  {
    if id !in w.runs then (w, Err(RUN_NOT_FOUND))
    else
      var run := w.runs[id];
      if IsTerminal(run.status) then (w, Ok(()))
      else
        match FindAgent(agents, run.agentId)
        case None => (w, Err(AGENT_NOT_FOUND))
        case Some(agent) =>
          var w1 := if run.status == Running then w else w.UpdateRunStatus(id, Running, NoPatch);
          var s := Stream(run.input.chat || run.input.stream, id, bridge, "", 0);
          var (w2, r) := Loop(w1.Publish(RunStarted, id), id, agent, limit, script, 0, 0, s);
          match r
          case Ok(text) =>
            (w2.UpdateRunStatus(id, Succeeded, SetOutput(Text(text))).Publish(RunSucceeded, id), Ok(()))
          case Err(e) =>
            (w2.UpdateRunStatus(id, Running, SetError(e)), Err(e))
  }

  // ----- The loop leaves the rows alone -----

  predicate SameQueues(w: World, w': World) {
    w'.jobs == w.jobs && w'.deadLetters == w.deadLetters
  }

  /** The events a parent waits for. */
  predicate IsVerdict(e: Event) {
    e.Published? && (e.topic == RunSucceeded || e.topic == RunDeadLettered)
  }

  ghost predicate Silent(w: World, w': World)
    requires w.trace <= w'.trace
  {
    forall m :: m in New(w, w') ==> !IsVerdict(m.event)
  }

  /** More events, none of them a row write or a verdict. */
  ghost predicate Quiet(w: World, w': World) {
    && Flows(w, w') && Silent(w, w')
    && w'.runs == w.runs && SameQueues(w, w')
    && forall m :: m in New(w, w') ==> m.runs == w.runs
  }

  lemma QuietRefl(w: World)
    ensures Quiet(w, w)
  {
    FlowsRefl(w);
  }

  lemma QuietTrans(a: World, b: World, c: World)
    requires Quiet(a, b) && Quiet(b, c)
    ensures Quiet(a, c)
  {
    FlowsTrans(a, b, c);
    NewConcat(a, b, c);
  }

  predicate Harmless(w: World, e: Event) {
    match e
    case Published(_, _, _, _) => !IsVerdict(e)
    case StepSaved(_, _, _) => true
    case ModelCalled(id) => id in w.runs && w.runs[id].status == Running
    case _ => false
  }

  lemma SeeQuiet(w: World, e: Event)
    requires Harmless(w, e)
    ensures Quiet(w, w.See(e))
  {
    FlowsStep(w, w.See(e), Moment(e, w.runs));
  }

  /** Publishing writes no row. */
  lemma PublishedFlows(w: World, e: Event)
    requires e.Published?
    ensures Flows(w, w.See(e)) && SameQueues(w, w.See(e)) && New(w, w.See(e)) == [Moment(e, w.runs)]
  {
    FlowsStep(w, w.See(e), Moment(e, w.runs));
  }

  lemma FlushQuiet(w: World, s: Stream, force: bool, now: int)
    ensures Quiet(w, Flush(w, s, force, now).0)
  {
    QuietRefl(w);
    var e := Published(RunToken, s.id, s.buf, None);
    SeeQuiet(w, e);
    if s.bridge.Some? {
      var d := Published(RunToken, s.bridge.value.parent, s.buf, Some(s.bridge.value.subtask));
      SeeQuiet(w.See(e), d);
      QuietTrans(w, w.See(e), w.See(e).See(d));
    }
  }

  lemma {:induction false} HearQuiet(w: World, s: Stream, deltas: seq<Delta>)
    ensures Quiet(w, Hear(w, s, deltas).0)
    decreases |deltas|
  {
    if !s.on || deltas == [] {
      QuietRefl(w);
    } else {
      var s' := s.(buf := s.buf + deltas[0].text);
      var (w1, s1) := Flush(w, s', false, deltas[0].at);
      FlushQuiet(w, s', false, deltas[0].at);
      HearQuiet(w1, s1, deltas[1..]);
      QuietTrans(w, w1, Hear(w1, s1, deltas[1..]).0);
    }
  }

  lemma StepQuiet(w: World, id: string, index: nat, role: StepRole)
    ensures Quiet(w, w.AppendStep(id, index, role).Publish(StepAppended, id))
  {
    var w1 := w.AppendStep(id, index, role);
    FlowsStep(w, w1, Moment(StepSaved(id, index, role), w.runs));
    SeeQuiet(w1, Published(StepAppended, id, "", None));
    QuietTrans(w, w1, w1.Publish(StepAppended, id));
  }

  lemma {:induction false} ToolsQuiet(w: World, id: string, agent: Agent, calls: seq<ToolCall>, index: nat)
    ensures Quiet(w, Tools(w, id, agent, calls, index).w)
    decreases |calls|
  {
    QuietRefl(w);
    if calls != [] && Allowed(agent, calls[0].name) && calls[0].outcome.Ok? {
      var w1 := w.AppendStep(id, index, Tool).Publish(StepAppended, id);
      StepQuiet(w, id, index, Tool);
      ToolsQuiet(w1, id, agent, calls[1..], index + 1);
      QuietTrans(w, w1, Tools(w1, id, agent, calls[1..], index + 1).w);
    }
  }

  lemma RoundQuiet(w: World, id: string, agent: Agent, reply: Reply, index: nat, s: Stream)
    requires id in w.runs && w.runs[id].status == Running
    ensures var end := Round(w, id, agent, reply, index, s);
            Quiet(w, end.w) && (end.Stop? && end.r.Ok? ==> !Blank(end.r.value))
  {
    hide Quiet, Hear, Flush, Tools;
    var w0 := w.See(ModelCalled(id));
    SeeQuiet(w, ModelCalled(id));
    HearQuiet(w0, s, reply.deltas);
    var (w1, s1) := Hear(w0, s, reply.deltas);
    QuietTrans(w, w0, w1);
    if reply.Turn? {
      FlushQuiet(w1, s1, true, reply.doneAt);
      var (w2, s2) := Flush(w1, s1, true, reply.doneAt);
      QuietTrans(w, w1, w2);
      StepQuiet(w2, id, index, Assistant);
      var w3 := w2.AppendStep(id, index, Assistant).Publish(StepAppended, id);
      QuietTrans(w, w2, w3);
      ToolsQuiet(w3, id, agent, reply.calls, index + 1);
      QuietTrans(w, w3, Tools(w3, id, agent, reply.calls, index + 1).w);
    }
  }

  lemma {:induction false} LoopQuiet(w: World, id: string, agent: Agent, limit: nat, script: Script, iter: nat,
                                     index: nat, s: Stream)
    requires id in w.runs && w.runs[id].status == Running
    ensures var (w', r) := Loop(w, id, agent, limit, script, iter, index, s);
            Quiet(w, w') && (r.Ok? ==> !Blank(r.value))
    decreases limit - iter
  {
    if iter >= limit {
      SeeQuiet(w, Published(NeedsHuman, id, "", None));
    } else {
      RoundQuiet(w, id, agent, script(iter), index, s);
      var end := Round(w, id, agent, script(iter), index, s);
      if end.Next? {
        LoopQuiet(end.w, id, agent, limit, script, iter + 1, end.index, end.s);
        QuietTrans(w, end.w, Loop(end.w, id, agent, limit, script, iter + 1, end.index, end.s).0);
      }
    }
  }

  // ----- What an attempt does to the rows -----

  /** A row during and after an attempt: untouched, running, or succeeded with a real answer. */
  predicate RowStep(a: Run, b: Run) {
    && b == a.(status := b.status, output := b.output, error := b.error)
    && (b == a
        || (!IsTerminal(a.status) && b.status == Running && b.output == a.output)
        || (!IsTerminal(a.status) && b.status == Succeeded && RealAnswer(b)))
  }

  predicate RealAnswer(b: Run) {
    b.output.Text? && !Blank(b.output.text)
  }

  /** Only the run's own row differs, and by a `RowStep`. */
  predicate OnlyRow(runs: Runs, runs': Runs, id: string) {
    && id in runs && id in runs'
    && runs' == runs[id := runs'[id]]
    && RowStep(runs[id], runs'[id])
  }

  /** Legal history in which only the run's own row moves. */
  ghost predicate RowFlows(w: World, w': World, id: string) {
    && Flows(w, w')
    && OnlyRow(w.runs, w'.runs, id) && SameQueues(w, w')
    && forall m :: m in New(w, w') ==> OnlyRow(w.runs, m.runs, id)
  }

  lemma OnlyRowTrans(a: Runs, b: Runs, c: Runs, id: string)
    requires OnlyRow(a, b, id) && OnlyRow(b, c, id)
    ensures OnlyRow(a, c, id)
  {
  }

  lemma RowFlowsTrans(a: World, b: World, c: World, id: string)
    requires RowFlows(a, b, id) && RowFlows(b, c, id)
    ensures RowFlows(a, c, id)
  {
    FlowsTrans(a, b, c);
    NewConcat(a, b, c);
    OnlyRowTrans(a.runs, b.runs, c.runs, id);
    forall m | m in New(b, c)
      ensures OnlyRow(a.runs, m.runs, id)
    {
      OnlyRowTrans(a.runs, b.runs, m.runs, id);
    }
  }

  lemma QuietRowFlows(w: World, w': World, id: string)
    requires Quiet(w, w') && id in w.runs
    ensures RowFlows(w, w', id)
  {
    assert w.runs == w.runs[id := w.runs[id]];
  }

  lemma WriteRowFlows(w: World, id: string, status: RunStatus, patch: Patch)
    requires id in w.runs && RowStep(w.runs[id], Patched(w.runs[id], status, patch))
    requires CanTransition(w.runs[id].status, status) || w.runs[id].status == status == Running
    ensures RowFlows(w, w.UpdateRunStatus(id, status, patch), id)
  {
    var w' := w.UpdateRunStatus(id, status, patch);
    FlowsStep(w, w', Moment(Wrote(id), w'.runs));
  }

  /** The writes that close an attempt. */
  lemma AttemptEnd(w: World, w': World, id: string, r: Result<string>)
    requires id in w.runs && w.runs[id].status == Running && (r.Ok? ==> !Blank(r.value))
    requires match r
             case Ok(text) => w' == w.UpdateRunStatus(id, Succeeded, SetOutput(Text(text))).Publish(RunSucceeded, id)
             case Err(e) => w' == w.UpdateRunStatus(id, Running, SetError(e))
    ensures RowFlows(w, w', id) && w'.runs[id].status == if r.Ok? then Succeeded else Running
  {
    match r
    case Ok(text) =>
      var w1 := w.UpdateRunStatus(id, Succeeded, SetOutput(Text(text)));
      WriteRowFlows(w, id, Succeeded, SetOutput(Text(text)));
      PublishedFlows(w1, Published(RunSucceeded, id, "", None));
      assert w1.runs == w1.runs[id := w1.runs[id]];
      RowFlowsTrans(w, w1, w', id);
    case Err(e) =>
      WriteRowFlows(w, id, Running, SetError(e));
  }

  lemma AttemptBegin(w: World, id: string)
    requires id in w.runs && !IsTerminal(w.runs[id].status)
    ensures var w1 := if w.runs[id].status == Running then w else w.UpdateRunStatus(id, Running, NoPatch);
            RowFlows(w, w1.Publish(RunStarted, id), id) && w1.runs[id].status == Running
  {
    var w1 := if w.runs[id].status == Running then w else w.UpdateRunStatus(id, Running, NoPatch);
    SeeQuiet(w1, Published(RunStarted, id, "", None));
    QuietRowFlows(w1, w1.Publish(RunStarted, id), id);
    if w.runs[id].status != Running {
      WriteRowFlows(w, id, Running, NoPatch);
      RowFlowsTrans(w, w1, w1.Publish(RunStarted, id), id);
    }
  }

  /** Every write of an attempt is legal, touches its own row only, and an answer is a real one. */
  lemma AttemptEvents(w: World, agents: seq<Agent>, limit: nat, id: string, script: Script, bridge: Option<Bridge>)
    requires id in w.runs
    ensures var (w', r) := ExecuteRun(w, agents, limit, id, script, bridge);
            && RowFlows(w, w', id)
            && (r.Ok? <==> IsTerminal(w'.runs[id].status))
            && (!IsTerminal(w.runs[id].status) && FindAgent(agents, w.runs[id].agentId).Some? ==>
                  w'.runs[id].status == if r.Ok? then Succeeded else Running)
  {
    hide Loop, Quiet, RowFlows, RealAnswer;
    var run := w.runs[id];
    if IsTerminal(run.status) || FindAgent(agents, run.agentId).None? {
      QuietRefl(w);
      QuietRowFlows(w, w, id);
    } else {
      AttemptBegin(w, id);
      var w1 := if run.status == Running then w else w.UpdateRunStatus(id, Running, NoPatch);
      var w2 := w1.Publish(RunStarted, id);
      var s := Stream(run.input.chat || run.input.stream, id, bridge, "", 0);
      var agent := FindAgent(agents, run.agentId).value;
      LoopQuiet(w2, id, agent, limit, script, 0, 0, s);
      var (w3, r) := Loop(w2, id, agent, limit, script, 0, 0, s);
      QuietRowFlows(w2, w3, id);
      RowFlowsTrans(w, w2, w3, id);
      var w' := ExecuteRun(w, agents, limit, id, script, bridge).0;
      AttemptEnd(w3, w', id, r);
      RowFlowsTrans(w, w3, w', id);
    }
  }

  // ----- The attempt in place -----

  /** The live token buffer of one attempt. */
  class TokenStream {
    const on: bool
    const id: string
    const bridge: Option<Bridge>
    var buf: string
    var last: int

    constructor (on: bool, id: string, bridge: Option<Bridge>)
      ensures View() == Stream(on, id, bridge, "", 0)
    {
      this.on, this.id, this.bridge := on, id, bridge;
      buf, last := "", 0;
    }

    function View(): Stream
      reads this
    {
      Stream(on, id, bridge, buf, last)
    }

    method FlushTokens(p: Platform, force: bool, now: int)
      modifies this, p`trace
      ensures (p.View(), View()) == Flush(old(p.View()), old(View()), force, now)
    {
      if buf == "" { return; }
      if !force && now - last < FLUSH_MS { return; }
      ghost var chunk := buf;
      buf := "";
      last := now;
      p.See(Published(RunToken, id, chunk, None));
      if bridge.Some? {
        p.See(Published(RunToken, bridge.value.parent, chunk, Some(bridge.value.subtask)));
      }
    }

    method OnText(p: Platform, delta: Delta)
      modifies this, p`trace
      ensures (p.View(), View()) == Flush(old(p.View()), old(View()).(buf := old(buf) + delta.text), false, delta.at)
    {
      buf := buf + delta.text;
      FlushTokens(p, false, delta.at);
    }
  }

  method Listen(p: Platform, s: TokenStream, deltas: seq<Delta>)
    modifies s, p`trace
    ensures (p.View(), s.View()) == Hear(old(p.View()), old(s.View()), deltas)
  {
    if !s.on { return; }
    for k := 0 to |deltas|
      invariant Hear(p.View(), s.View(), deltas[k..]) == Hear(old(p.View()), old(s.View()), deltas)
    {
      s.OnText(p, deltas[k]);
      assert deltas[k..][1..] == deltas[k + 1..];
    }
  }

  method RunTools(p: Platform, id: string, agent: Agent, calls: seq<ToolCall>, index: nat)
      returns (index': nat, error: Option<string>)
    modifies p
    ensures ToolsEnd(p.View(), index', error) == Tools(old(p.View()), id, agent, calls, index)
  {
    index' := index;
    for k := 0 to |calls|
      invariant Tools(p.View(), id, agent, calls[k..], index') == Tools(old(p.View()), id, agent, calls, index)
    {
      if !Allowed(agent, calls[k].name) { return index', Some(TOOL_NOT_ALLOWED); }
      if calls[k].outcome.Err? { return index', Some(calls[k].outcome.error); }
      p.AppendStep(id, index', Tool);
      p.See(Published(StepAppended, id, "", None));
      index' := index' + 1;
      assert calls[k..][1..] == calls[k + 1..];
    }
    error := None;
  }

  /** The loop of one attempt, up to its answer or the error it throws. */
  method RunLoop(p: Platform, id: string, agent: Agent, limit: nat, script: Script, s: TokenStream)
      returns (r: Result<string>)
    modifies p, s
    ensures (p.View(), r) == Loop(old(p.View()), id, agent, limit, script, 0, 0, old(s.View()))
  {
    hide Hear, Flush, Tools, Blank;
    var stepIndex := 0;
    for iter := 0 to limit
      invariant Loop(p.View(), id, agent, limit, script, iter, stepIndex, s.View())
             == Loop(old(p.View()), id, agent, limit, script, 0, 0, old(s.View()))
    {
      var reply := script(iter);
      p.See(ModelCalled(id));
      Listen(p, s, reply.deltas);
      if reply.Throws? { return Err(reply.error); }
      s.FlushTokens(p, true, reply.doneAt);
      p.AppendStep(id, stepIndex, Assistant);
      p.See(Published(StepAppended, id, "", None));
      stepIndex := stepIndex + 1;
      if reply.calls == [] {
        return if Blank(reply.text) then Err(EMPTY_OUTPUT) else Ok(reply.text);
      }
      var error;
      stepIndex, error := RunTools(p, id, agent, reply.calls, stepIndex);
      if error.Some? { return Err(error.value); }
    }
    p.See(Published(NeedsHuman, id, "", None));
    r := Err(MAX_ITERATIONS);
  }

  method Execute(p: Platform, agents: seq<Agent>, limit: nat, id: string, script: Script, bridge: Option<Bridge>)
      returns (r: Result<()>)
    modifies p
    ensures (p.View(), r) == ExecuteRun(old(p.View()), agents, limit, id, script, bridge)
  {
    var row := p.GetRun(id);
    if row.None? { return Err(RUN_NOT_FOUND); }
    var run := row.value;
    if IsTerminal(run.status) { return Ok(()); }
    var agent := FindAgent(agents, run.agentId);
    if agent.None? { return Err(AGENT_NOT_FOUND); }
    if run.status != Running {
      // legal from queued and from paused, so the transition does not throw
      var next := Transition(run.status, Running);
      var _ := p.UpdateRunStatus(id, next.value, NoPatch);
    }
    p.See(Published(RunStarted, id, "", None));
    var s := new TokenStream(run.input.chat || run.input.stream, id, bridge);
    var answer := RunLoop(p, id, agent.value, limit, script, s);
    match answer
    case Ok(text) =>
      var next := Transition(Running, Succeeded);
      var _ := p.UpdateRunStatus(id, next.value, SetOutput(Text(text)));
      p.See(Published(RunSucceeded, id, "", None));
      r := Ok(());
    case Err(e) =>
      var _ := p.UpdateRunStatus(id, Running, SetError(e));
      r := Err(e);
  }
}
