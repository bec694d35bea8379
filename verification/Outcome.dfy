/** What an attempt comes to, from the replies of the model alone. */
module Outcome {
  import opened Domain
  import opened Store
  import opened Runtime

  /** The agent may use a tool: its list is empty or names it. */
  predicate MayUse(agent: Agent, name: string) {
    |agent.allowedTools| > 0 ==> exists i :: 0 <= i < |agent.allowedTools| && agent.allowedTools[i] == name
  }

  predicate CallWorks(agent: Agent, call: ToolCall) {
    MayUse(agent, call.name) && call.outcome.Ok?
  }

  /** A turn that asks for tools, every one of them permitted and successful. */
  predicate GoesOn(agent: Agent, reply: Reply) {
    reply.Turn? && reply.calls != [] && forall i :: 0 <= i < |reply.calls| ==> CallWorks(agent, reply.calls[i])
  }

  /** Neither white space nor a dot, an ellipsis or a middle dot. */
  predicate Real(c: char) {
    !IsSpace(c) && c != '.' && c as int != 0x2026 && c as int != 0xb7
  }

  predicate SaysSomething(text: string) {
    exists i :: 0 <= i < |text| && Real(text[i])
  }

  lemma BlankMeans(text: string)
    ensures Blank(text) <==> !SaysSomething(text)
  {
    if !Blank(text) {
      var i :| 0 <= i < |text| && !(IsSpace(text[i]) || text[i] as int in {0x2e, 0x2026, 0xb7});
      assert Real(text[i]);
    }
  }

  /** A turn that asks for none and says something. */
  predicate Answers(reply: Reply) {
    reply.Turn? && reply.calls == [] && SaysSomething(reply.text)
  }

  ghost predicate AllGoOn(agent: Agent, script: Script, from: nat, to: nat) {
    forall j :: from <= j < to ==> GoesOn(agent, script(j))
  }

  /** The answer comes with the k-th reply. */
  ghost predicate AnswersAt(agent: Agent, limit: nat, script: Script, k: nat) {
    k < limit && script(k).Turn? && Answers(script(k)) && AllGoOn(agent, script, 0, k)
  }

  /** What a reply that neither answers nor goes on is refused for. */
  ghost predicate GoesWrong(agent: Agent, reply: Reply, e: string) {
    match reply
    case Throws(_, error) => e == error
    case Turn(_, _, text, calls) =>
      if calls == [] then !SaysSomething(text) && e == EMPTY_OUTPUT
      else SomeCallFails(agent, calls, e)
  }

  /** The first call that is not permitted, or permitted and failing. */
  predicate CallFails(agent: Agent, calls: seq<ToolCall>, i: nat, e: string) {
    && i < |calls| && (forall j :: 0 <= j < i ==> CallWorks(agent, calls[j]))
    && if MayUse(agent, calls[i].name) then calls[i].outcome == Err(e) else e == TOOL_NOT_ALLOWED
  }

  ghost predicate SomeCallFails(agent: Agent, calls: seq<ToolCall>, e: string) {
    exists i: nat :: CallFails(agent, calls, i, e)
  }

  /** The first thing that goes wrong is the k-th reply, or that there are no rounds left. */
  ghost predicate FailsAt(agent: Agent, limit: nat, script: Script, k: nat, e: string) {
    && k <= limit && AllGoOn(agent, script, 0, k)
    && if k < limit then GoesWrong(agent, script(k), e) else e == MAX_ITERATIONS
  }

  lemma AllowedMeans(agent: Agent, name: string)
    ensures Allowed(agent, name) <==> MayUse(agent, name)
  {}

  lemma {:induction false} ToolsOutcome(w: World, id: string, agent: Agent, calls: seq<ToolCall>, index: nat)
    ensures match Tools(w, id, agent, calls, index).error
            case None => forall i :: 0 <= i < |calls| ==> CallWorks(agent, calls[i])
            case Some(e) => SomeCallFails(agent, calls, e)
    decreases |calls|
  {
    if calls != [] { AllowedMeans(agent, calls[0].name); }
    if calls == [] {
    } else if !CallWorks(agent, calls[0]) {
      var e := Tools(w, id, agent, calls, index).error.value;
      assert CallFails(agent, calls, 0, e);
    } else {
      var w1 := w.AppendStep(id, index, Tool).Publish(StepAppended, id);
      ToolsOutcome(w1, id, agent, calls[1..], index + 1);
      var error := Tools(w1, id, agent, calls[1..], index + 1).error;
      assert forall i :: 0 <= i < |calls| - 1 ==> calls[1..][i] == calls[i + 1];
      assert forall i :: 0 < i < |calls| ==> calls[i] == calls[1..][i - 1];
      if error.Some? {
        var i: nat :| CallFails(agent, calls[1..], i, error.value);
        assert CallFails(agent, calls, i + 1, error.value);
      }
    }
  }

  lemma RoundOutcome(w: World, id: string, agent: Agent, reply: Reply, index: nat, s: Stream)
    ensures var end := Round(w, id, agent, reply, index, s);
            && (end.Next? <==> GoesOn(agent, reply))
            && (end.Stop? && end.r.Ok? ==> reply.Turn? && Answers(reply) && end.r.value == reply.text)
            && (end.Stop? && end.r.Err? ==> GoesWrong(agent, reply, end.r.error))
  {
    hide Hear, Flush, Tools, CallWorks, SomeCallFails, SaysSomething, Blank;
    if reply.Turn? { BlankMeans(reply.text); }
    var (w1, s1) := Hear(w.See(ModelCalled(id)), s, reply.deltas);
    if reply.Turn? {
      var w2 := Flush(w1, s1, true, reply.doneAt).0;
      var w3 := w2.AppendStep(id, index, Assistant).Publish(StepAppended, id);
      ToolsOutcome(w3, id, agent, reply.calls, index + 1);
      var error := Tools(w3, id, agent, reply.calls, index + 1).error;
      if error.Some? { OneFails(agent, reply.calls, error.value); }
    }
  }

  lemma OneFails(agent: Agent, calls: seq<ToolCall>, e: string)
    requires SomeCallFails(agent, calls, e)
    ensures exists i :: 0 <= i < |calls| && !CallWorks(agent, calls[i])
  {
    var i: nat :| CallFails(agent, calls, i, e);
    assert !CallWorks(agent, calls[i]);
  }

  /** The end of the loop from a round on. */
  ghost predicate Ends(agent: Agent, limit: nat, script: Script, from: nat, r: Result<string>) {
    match r
    case Ok(text) => exists k: nat :: from <= k < limit && script(k).Turn? && Answers(script(k))
                                      && text == script(k).text && AllGoOn(agent, script, from, k)
    case Err(e) => exists k: nat :: from <= k <= limit && AllGoOn(agent, script, from, k)
                                    && if k < limit then GoesWrong(agent, script(k), e) else e == MAX_ITERATIONS
  }

  lemma EndsEarlier(agent: Agent, limit: nat, script: Script, n: nat, r: Result<string>)
    requires GoesOn(agent, script(n)) && Ends(agent, limit, script, n + 1, r)
    ensures Ends(agent, limit, script, n, r)
  {
    hide GoesOn, GoesWrong, Answers, AllGoOn;
    GoOnEarlier(agent, script, n);
  }

  lemma GoOnEarlier(agent: Agent, script: Script, n: nat)
    requires GoesOn(agent, script(n))
    ensures forall k: nat :: AllGoOn(agent, script, n + 1, k) ==> AllGoOn(agent, script, n, k)
    ensures AllGoOn(agent, script, n, n)
  {
    hide GoesOn;
  }

  lemma EndsHere(agent: Agent, limit: nat, script: Script, n: nat, r: Result<string>)
    requires n < limit && if r.Ok? then script(n).Turn? && Answers(script(n)) && r.value == script(n).text
                          else GoesWrong(agent, script(n), r.error)
    ensures Ends(agent, limit, script, n, r)
  {
    hide GoesOn, GoesWrong, Answers;
    assert AllGoOn(agent, script, n, n);
  }

  lemma NoRounds(agent: Agent, limit: nat, script: Script)
    ensures Ends(agent, limit, script, limit, Err(MAX_ITERATIONS))
  {
    hide GoesOn, GoesWrong;
    assert AllGoOn(agent, script, limit, limit);
  }

  lemma {:induction false} LoopOutcome(w: World, id: string, agent: Agent, limit: nat, script: Script, iter: nat,
                                       index: nat, s: Stream)
    requires iter <= limit
    ensures Ends(agent, limit, script, iter, Loop(w, id, agent, limit, script, iter, index, s).1)
    decreases limit - iter
  {
    hide Round, GoesOn, GoesWrong, Answers, Ends;
    if iter < limit {
      RoundOutcome(w, id, agent, script(iter), index, s);
      var end := Round(w, id, agent, script(iter), index, s);
      if end.Next? {
        LoopOutcome(end.w, id, agent, limit, script, iter + 1, end.index, end.s);
        EndsEarlier(agent, limit, script, iter, Loop(end.w, id, agent, limit, script, iter + 1, end.index, end.s).1);
      } else {
        EndsHere(agent, limit, script, iter, end.r);
      }
    } else {
      NoRounds(agent, limit, script);
    }
  }

  /** A reply is one of the three, so at most one round ends the attempt. */
  lemma OneEnd(agent: Agent, reply: Reply, e: string)
    ensures !(Answers(reply) && GoesOn(agent, reply)) && !(Answers(reply) && GoesWrong(agent, reply, e))
    ensures !(GoesOn(agent, reply) && GoesWrong(agent, reply, e))
  {
    hide CallWorks, SomeCallFails, SaysSomething;
    if reply.Turn? {
      if SomeCallFails(agent, reply.calls, e) { OneFails(agent, reply.calls, e); }
    }
  }

  lemma NotBoth(agent: Agent, limit: nat, script: Script, k: nat, l: nat, e: string)
    ensures !(FailsAt(agent, limit, script, k, e) && AnswersAt(agent, limit, script, l))
  {
    hide GoesOn, GoesWrong, Answers;
    OneEnd(agent, script(k), e);
    OneEnd(agent, script(l), e);
  }

  lemma OneAnswer(agent: Agent, limit: nat, script: Script, k: nat, l: nat)
    requires AnswersAt(agent, limit, script, k) && AnswersAt(agent, limit, script, l)
    ensures k == l
  {
    hide GoesOn, Answers;
    OneEnd(agent, script(k), "");
    OneEnd(agent, script(l), "");
  }

  /**
   * An attempt at a live run succeeds exactly if some reply within the limit answers and all before it
   * ask for tools that are permitted and work. It stores that answer, and otherwise the error of the
   * first thing that went wrong.
   */
  lemma AttemptOutcome(w: World, agents: seq<Agent>, limit: nat, id: string, script: Script, bridge: Option<Bridge>)
    requires id in w.runs && !IsTerminal(w.runs[id].status) && FindAgent(agents, w.runs[id].agentId).Some?
    ensures var agent := FindAgent(agents, w.runs[id].agentId).value;
            var (w', r) := ExecuteRun(w, agents, limit, id, script, bridge);
            && id in w'.runs
            && (r.Ok? <==> exists k :: AnswersAt(agent, limit, script, k))
            && (forall k :: AnswersAt(agent, limit, script, k) ==>
                  w'.runs[id].status == Succeeded && w'.runs[id].output == Text(script(k).text))
            && (r.Err? ==> w'.runs[id].status == Running && w'.runs[id].error == Some(r.error)
                           && exists k :: FailsAt(agent, limit, script, k, r.error))
  {
    hide Loop, Answers, GoesOn, GoesWrong, AnswersAt, FailsAt;
    var run := w.runs[id];
    var agent := FindAgent(agents, run.agentId).value;
    var w1 := if run.status == Running then w else w.UpdateRunStatus(id, Running, NoPatch);
    var w2 := w1.Publish(RunStarted, id);
    var s := Stream(run.input.chat || run.input.stream, id, bridge, "", 0);
    LoopOutcome(w2, id, agent, limit, script, 0, 0, s);
    LoopQuiet(w2, id, agent, limit, script, 0, 0, s);
    EndsOnce(agent, limit, script, Loop(w2, id, agent, limit, script, 0, 0, s).1);
  }

  lemma EndsOnce(agent: Agent, limit: nat, script: Script, r: Result<string>)
    requires Ends(agent, limit, script, 0, r)
    ensures r.Ok? <==> exists k :: AnswersAt(agent, limit, script, k)
    ensures r.Ok? ==> forall k :: AnswersAt(agent, limit, script, k) ==> r.value == script(k).text
    ensures r.Err? ==> exists k :: FailsAt(agent, limit, script, k, r.error)
  {
    hide Answers, GoesOn, GoesWrong;
    match r
    case Ok(text) =>
      var k: nat :| 0 <= k < limit && script(k).Turn? && Answers(script(k)) && text == script(k).text
                    && AllGoOn(agent, script, 0, k);
      assert AnswersAt(agent, limit, script, k);
      forall l | AnswersAt(agent, limit, script, l)
        ensures l == k
      {
        OneAnswer(agent, limit, script, k, l);
      }
    case Err(e) =>
      var k: nat :| 0 <= k <= limit && AllGoOn(agent, script, 0, k)
                    && if k < limit then GoesWrong(agent, script(k), e) else e == MAX_ITERATIONS;
      assert FailsAt(agent, limit, script, k, e);
      forall l
        ensures !AnswersAt(agent, limit, script, l)
      {
        NotBoth(agent, limit, script, k, l, e);
      }
  }

  // ----- The steps of a successful attempt -----

  /** The first `n` turns: an assistant step each, and one for every tool it asked for. */
  function Turns(script: Script, n: nat): seq<StepRole> {
    if n == 0 then []
    else
      var reply := script(n - 1);
      Turns(script, n - 1) + [Assistant] + seq(if reply.Turn? then |reply.calls| else 0, _ => Tool)
  }

  /** The steps of a run begin with the given roles. */
  ghost predicate Recorded(w: World, id: string, roles: seq<StepRole>) {
    forall i :: 0 <= i < |roles| ==> (id, i) in w.steps && w.steps[(id, i)] == roles[i]
  }

  lemma {:induction false} ToolsRecorded(w: World, id: string, agent: Agent, calls: seq<ToolCall>, roles: seq<StepRole>)
    requires Recorded(w, id, roles)
    ensures var end := Tools(w, id, agent, calls, |roles|);
            end.error.None? ==> end.index == |roles| + |calls|
                                && Recorded(end.w, id, roles + seq(|calls|, _ => Tool))
    decreases |calls|
  {
    if calls == [] {
      assert roles + seq(0, _ => Tool) == roles;
    } else if CallWorks(agent, calls[0]) {
      var w1 := w.AppendStep(id, |roles|, Tool).Publish(StepAppended, id);
      ToolsRecorded(w1, id, agent, calls[1..], roles + [Tool]);
      assert roles + [Tool] + seq(|calls| - 1, _ => Tool) == roles + seq(|calls|, _ => Tool);
    }
  }

  lemma {:induction false} HearKeepsSteps(w: World, s: Stream, deltas: seq<Delta>)
    ensures Hear(w, s, deltas).0.steps == w.steps
    decreases |deltas|
  {
    if s.on && deltas != [] {
      var (w1, s1) := Flush(w, s.(buf := s.buf + deltas[0].text), false, deltas[0].at);
      HearKeepsSteps(w1, s1, deltas[1..]);
    }
  }

  lemma RoundRecorded(w: World, id: string, agent: Agent, script: Script, n: nat, s: Stream)
    requires Recorded(w, id, Turns(script, n))
    ensures var end := Round(w, id, agent, script(n), |Turns(script, n)|, s);
            && (end.Next? ==> end.index == |Turns(script, n + 1)| && Recorded(end.w, id, Turns(script, n + 1)))
            && (end.Stop? && end.r.Ok? ==> Recorded(end.w, id, Turns(script, n) + [Assistant]))
  {
    hide Hear, Tools, Recorded;
    var reply, roles := script(n), Turns(script, n);
    HearKeepsSteps(w.See(ModelCalled(id)), s, reply.deltas);
    if reply.Turn? {
      var (w1, s1) := Hear(w.See(ModelCalled(id)), s, reply.deltas);
      var w2 := Flush(w1, s1, true, reply.doneAt).0;
      var w3 := w2.AppendStep(id, |roles|, Assistant).Publish(StepAppended, id);
      OneRecorded(w, w2, id, roles);
      ToolsRecorded(w3, id, agent, reply.calls, roles + [Assistant]);
    }
  }

  lemma OneRecorded(w: World, w2: World, id: string, roles: seq<StepRole>)
    requires Recorded(w, id, roles) && w2.steps == w.steps
    ensures Recorded(w2.AppendStep(id, |roles|, Assistant).Publish(StepAppended, id), id, roles + [Assistant])
  {}

  lemma GoOnHere(agent: Agent, script: Script, n: nat)
    ensures AllGoOn(agent, script, n, n)
    ensures GoesOn(agent, script(n)) ==>
              forall k: nat :: AllGoOn(agent, script, n + 1, k) ==> AllGoOn(agent, script, n, k)
  {
    hide GoesOn;
    if GoesOn(agent, script(n)) { GoOnEarlier(agent, script, n); }
  }

  lemma {:induction false} LoopRecorded(w: World, id: string, agent: Agent, limit: nat, script: Script, n: nat,
                                        s: Stream)
    requires n <= limit && Recorded(w, id, Turns(script, n))
    ensures var (w', r) := Loop(w, id, agent, limit, script, n, |Turns(script, n)|, s);
            r.Ok? ==> exists k: nat :: n <= k < limit && script(k).Turn? && Answers(script(k))
                                       && AllGoOn(agent, script, n, k)
                                       && Recorded(w', id, Turns(script, k) + [Assistant])
    decreases limit - n
  {
    hide Round, GoesOn, Answers, Recorded, Turns, AllGoOn;
    if n < limit {
      GoOnHere(agent, script, n);
      var index := |Turns(script, n)|;
      RoundRecorded(w, id, agent, script, n, s);
      RoundOutcome(w, id, agent, script(n), index, s);
      var end := Round(w, id, agent, script(n), index, s);
      if end.Next? { LoopRecorded(end.w, id, agent, limit, script, n + 1, end.s); }
    }
  }

  /** A successful attempt has recorded its turns with their tools, and the answer as one more assistant step. */
  lemma AttemptRecorded(w: World, agents: seq<Agent>, limit: nat, id: string, script: Script, bridge: Option<Bridge>,
                        k: nat)
    requires id in w.runs && !IsTerminal(w.runs[id].status) && FindAgent(agents, w.runs[id].agentId).Some?
    requires AnswersAt(FindAgent(agents, w.runs[id].agentId).value, limit, script, k)
    ensures Recorded(ExecuteRun(w, agents, limit, id, script, bridge).0, id, Turns(script, k) + [Assistant])
  {
    hide Loop, Answers, GoesOn, Turns;
    AttemptOutcome(w, agents, limit, id, script, bridge);
    var run := w.runs[id];
    var agent := FindAgent(agents, run.agentId).value;
    var w1 := if run.status == Running then w else w.UpdateRunStatus(id, Running, NoPatch);
    var w2 := w1.Publish(RunStarted, id);
    var s := Stream(run.input.chat || run.input.stream, id, bridge, "", 0);
    NoTurns(script);
    LoopRecorded(w2, id, agent, limit, script, 0, s);
    var (w3, r) := Loop(w2, id, agent, limit, script, 0, 0, s);
    var l: nat :| 0 <= l < limit && script(l).Turn? && Answers(script(l)) && AllGoOn(agent, script, 0, l)
                  && Recorded(w3, id, Turns(script, l) + [Assistant]);
    OneAnswer(agent, limit, script, k, l);
  }

  lemma NoTurns(script: Script)
    ensures Turns(script, 0) == []
  {}
}
