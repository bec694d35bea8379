/**
 * What an attempt leaves behind: the persisted step trace and the live token stream.
 *
 * The stream is followed event by event on a tape: what the model has said so far, what has been
 * published of it, and what the parent's stream has carried on.
 */
module RuntimeTrace {
  import opened Domain
  import opened Store
  import opened Runtime

  // ----- Persisted steps -----

  /** A run's step indices are exactly 0..n-1. */
  ghost predicate StepsUpTo(w: World, id: string, n: nat) {
    forall i: nat :: (id, i) in w.steps <==> i < n
  }

  ghost predicate OthersKept(w: World, w': World, id: string) {
    forall j: string, i: nat :: j != id ==> ((j, i) in w.steps <==> (j, i) in w'.steps)
  }

  lemma SaveStep(w: World, id: string, index: nat, role: StepRole, n: nat) returns (n': nat)
    requires StepsUpTo(w, id, n) && index <= n
    ensures var w' := w.AppendStep(id, index, role).Publish(StepAppended, id);
            StepsUpTo(w', id, n') && n <= n' && index < n' && OthersKept(w, w', id)
  {
    n' := if index == n then n + 1 else n;
  }

  lemma {:induction false} HearSteps(w: World, s: Stream, deltas: seq<Delta>)
    ensures Hear(w, s, deltas).0.steps == w.steps
    decreases |deltas|
  {
    if s.on && deltas != [] {
      var (w1, s1) := Flush(w, s.(buf := s.buf + deltas[0].text), false, deltas[0].at);
      HearSteps(w1, s1, deltas[1..]);
    }
  }

  lemma {:induction false} ToolsSteps(w: World, id: string, agent: Agent, calls: seq<ToolCall>, index: nat, n: nat)
      returns (n': nat)
    requires StepsUpTo(w, id, n) && index <= n
    ensures var end := Tools(w, id, agent, calls, index);
            StepsUpTo(end.w, id, n') && n <= n' && end.index <= n' && OthersKept(w, end.w, id)
    decreases |calls|
  {
    n' := n;
    if calls != [] && Allowed(agent, calls[0].name) && calls[0].outcome.Ok? {
      n' := SaveStep(w, id, index, Tool, n);
      n' := ToolsSteps(w.AppendStep(id, index, Tool).Publish(StepAppended, id), id, agent, calls[1..], index + 1, n');
    }
  }

  lemma FlushSteps(w: World, s: Stream, force: bool, now: int)
    ensures Flush(w, s, force, now).0.steps == w.steps
  {}

  lemma RoundSteps(w: World, id: string, agent: Agent, reply: Reply, index: nat, s: Stream, n: nat) returns (n': nat)
    requires StepsUpTo(w, id, n) && index <= n
    ensures var end := Round(w, id, agent, reply, index, s);
            StepsUpTo(end.w, id, n') && n <= n' && OthersKept(w, end.w, id) && (end.Next? ==> end.index <= n')
  {
    hide Hear, Flush;
    n' := n;
    HearSteps(w.See(ModelCalled(id)), s, reply.deltas);
    if reply.Turn? {
      var (w1, s1) := Hear(w.See(ModelCalled(id)), s, reply.deltas);
      var (w2, s2) := Flush(w1, s1, true, reply.doneAt);
      FlushSteps(w1, s1, true, reply.doneAt);
      n' := SaveStep(w2, id, index, Assistant, n);
      n' := ToolsSteps(w2.AppendStep(id, index, Assistant).Publish(StepAppended, id), id, agent, reply.calls,
          index + 1, n');
    }
  }

  lemma {:induction false} LoopSteps(w: World, id: string, agent: Agent, limit: nat, script: Script, iter: nat,
                                     index: nat, s: Stream, n: nat) returns (n': nat)
    requires StepsUpTo(w, id, n) && index <= n
    ensures var w' := Loop(w, id, agent, limit, script, iter, index, s).0;
            StepsUpTo(w', id, n') && n <= n' && OthersKept(w, w', id)
    decreases limit - iter
  {
    n' := n;
    if iter < limit {
      n' := RoundSteps(w, id, agent, script(iter), index, s, n);
      var end := Round(w, id, agent, script(iter), index, s);
      if end.Next? {
        n' := LoopSteps(end.w, id, agent, limit, script, iter + 1, end.index, end.s, n');
      }
    }
  }

  /** Attempts of any lengths leave a run's indices without gap or duplicate, and other runs alone. */
  lemma AttemptSteps(w: World, agents: seq<Agent>, limit: nat, id: string, script: Script, bridge: Option<Bridge>,
                     n: nat)
      returns (n': nat)
    requires StepsUpTo(w, id, n)
    ensures var w' := ExecuteRun(w, agents, limit, id, script, bridge).0;
            StepsUpTo(w', id, n') && n <= n' && OthersKept(w, w', id)
  {
    hide Loop, FindAgent;
    n' := n;
    if id in w.runs && !IsTerminal(w.runs[id].status) && FindAgent(agents, w.runs[id].agentId).Some? {
      var run := w.runs[id];
      var w1 := if run.status == Running then w else w.UpdateRunStatus(id, Running, NoPatch);
      var s := Stream(run.input.chat || run.input.stream, id, bridge, "", 0);
      n' := LoopSteps(w1.Publish(RunStarted, id), id, FindAgent(agents, run.agentId).value, limit, script, 0, 0, s, n);
    }
  }

  // ----- What the listeners of a stream have received -----

  /** Model calls and assistant steps of a run, its published text chunks, and those bridged to its parent. */
  datatype Tape = Tape(calls: nat, assistants: nat, heard: seq<string>, bridged: seq<string>)

  function Tick(t: Tape, e: Event, id: string, bridge: Option<Bridge>): Tape {
    match e
    case ModelCalled(j) => if j == id then t.(calls := t.calls + 1) else t
    case StepSaved(j, _, role) => if j == id && role == Assistant then t.(assistants := t.assistants + 1) else t
    case Published(topic, j, text, via) =>
      if topic == RunToken && j == id && via == None then t.(heard := t.heard + [text])
      else if topic == RunToken && bridge.Some? && j == bridge.value.parent && via == Some(bridge.value.subtask) then
        t.(bridged := t.bridged + [text])
      else t
    case _ => t
  }

  function Play(trace: seq<Moment>, id: string, bridge: Option<Bridge>): Tape {
    if trace == [] then Tape(0, 0, [], [])
    else Tick(Play(trace[..|trace| - 1], id, bridge), trace[|trace| - 1].event, id, bridge)
  }

  function Flat(chunks: seq<string>): string {
    if chunks == [] then "" else Flat(chunks[..|chunks| - 1]) + chunks[|chunks| - 1]
  }

  function Texts(deltas: seq<Delta>): string {
    if deltas == [] then "" else deltas[0].text + Texts(deltas[1..])
  }

  /** Everything the model streamed in its first `n` turns. */
  function Said(script: Script, n: nat): string {
    if n == 0 then "" else Said(script, n - 1) + Texts(script(n - 1).deltas)
  }

  lemma {:induction false} FlatAppend(chunks: seq<string>, c: string)
    ensures Flat(chunks + [c]) == Flat(chunks) + c
  {
    assert (chunks + [c])[..|chunks|] == chunks;
  }

  /**
   * What holds right after event `e`: the published text is a beginning of what the model streamed,
   * all of it once a turn is recorded, and the parent stream is at most one chunk behind.
   */
  predicate Good(t: Tape, e: Event, id: string, bridge: Option<Bridge>, script: Script) {
    && Flat(t.heard) <= Said(script, t.calls)
    && (e.StepSaved? && e.id == id ==> Flat(t.heard) == Said(script, t.calls))
    && (bridge.Some? ==> t.bridged <= t.heard && |t.heard| <= |t.bridged| + 1)
  }

  ghost predicate Tracked(seg: seq<Moment>, id: string, bridge: Option<Bridge>, script: Script) {
    seg == [] ||
    (Tracked(seg[..|seg| - 1], id, bridge, script)
        && Good(Play(seg, id, bridge), seg[|seg| - 1].event, id, bridge, script))
  }

  /** The attempt so far: all moments good, everything heard but `rest` published, the bridge even. */
  ghost predicate Even(w0: World, w: World, id: string, bridge: Option<Bridge>, script: Script, rest: string) {
    && w0.trace <= w.trace
    && Tracked(New(w0, w), id, bridge, script)
    && var t := Play(New(w0, w), id, bridge);
       && Flat(t.heard) + rest == Said(script, t.calls)
       && t.assistants <= t.calls
       && (bridge.Some? ==> t.bridged == t.heard)
  }

  function TapeOf(w0: World, w: World, id: string, bridge: Option<Bridge>): Tape
    requires w0.trace <= w.trace
  {
    Play(New(w0, w), id, bridge)
  }

  lemma AddMoment(w0: World, w: World, w': World, m: Moment, id: string, bridge: Option<Bridge>, script: Script)
    requires w0.trace <= w.trace && w'.trace == w.trace + [m]
    requires Tracked(New(w0, w), id, bridge, script)
    requires Good(Tick(TapeOf(w0, w, id, bridge), m.event, id, bridge), m.event, id, bridge, script)
    ensures w0.trace <= w'.trace && Tracked(New(w0, w'), id, bridge, script)
    ensures TapeOf(w0, w', id, bridge) == Tick(TapeOf(w0, w, id, bridge), m.event, id, bridge)
  {
    assert New(w0, w') == New(w0, w) + [m];
    assert New(w0, w')[..|New(w0, w)|] == New(w0, w);
  }

  function AfterEmit(t: Tape, text: string, bridge: Option<Bridge>): Tape {
    t.(heard := t.heard + [text], bridged := if bridge.Some? then t.bridged + [text] else t.bridged)
  }

  lemma EmitEven(w0: World, w: World, s: Stream, script: Script, rest: string)
    requires Even(w0, w, s.id, s.bridge, script, s.buf + rest)
    ensures var w' := Emit(w, s, s.buf);
            && Even(w0, w', s.id, s.bridge, script, rest)
            && TapeOf(w0, w', s.id, s.bridge) == AfterEmit(TapeOf(w0, w, s.id, s.bridge), s.buf, s.bridge)
  {
    hide Tracked, Play;
    var t := TapeOf(w0, w, s.id, s.bridge);
    var e := Published(RunToken, s.id, s.buf, None);
    var w1 := w.See(e);
    ChunkGood(t, s.buf, rest, s.id, s.bridge, script);
    AddMoment(w0, w, w1, Moment(e, w.runs), s.id, s.bridge, script);
    if s.bridge.Some? {
      BridgeEven(w0, w1, s, t, s.buf, script);
    }
  }

  lemma ChunkGood(t: Tape, text: string, rest: string, id: string, bridge: Option<Bridge>, script: Script)
    requires Flat(t.heard) + (text + rest) == Said(script, t.calls) && (bridge.Some? ==> t.bridged == t.heard)
    ensures Flat(t.heard + [text]) + rest == Said(script, t.calls)
    ensures Good(t.(heard := t.heard + [text]), Published(RunToken, id, text, None), id, bridge, script)
  {
    FlatAppend(t.heard, text);
    Begins(Flat(t.heard), text, rest, Said(script, t.calls));
    assert t.heard <= t.heard + [text];
  }

  lemma Begins(a: string, b: string, c: string, whole: string)
    requires a + (b + c) == whole
    ensures (a + b) + c == whole && a + b <= whole
  {
    assert a + (b + c) == (a + b) + c;
  }

  lemma BridgeEven(w0: World, w1: World, s: Stream, t: Tape, text: string, script: Script)
    requires s.bridge.Some? && w0.trace <= w1.trace && Tracked(New(w0, w1), s.id, s.bridge, script)
    requires TapeOf(w0, w1, s.id, s.bridge) == t.(heard := t.heard + [text]) && t.bridged == t.heard
    requires Flat(t.heard + [text]) <= Said(script, t.calls)
    ensures var w' := w1.See(Published(RunToken, s.bridge.value.parent, text, Some(s.bridge.value.subtask)));
            && w0.trace <= w'.trace && Tracked(New(w0, w'), s.id, s.bridge, script)
            && TapeOf(w0, w', s.id, s.bridge) == AfterEmit(t, text, s.bridge)
  {
    var d := Published(RunToken, s.bridge.value.parent, text, Some(s.bridge.value.subtask));
    AddMoment(w0, w1, w1.See(d), Moment(d, w1.runs), s.id, s.bridge, script);
  }

  lemma FlushEven(w0: World, w: World, s: Stream, force: bool, now: int, script: Script, rest: string)
    requires Even(w0, w, s.id, s.bridge, script, s.buf + rest)
    ensures var (w', s') := Flush(w, s, force, now);
            var (t, t') := (TapeOf(w0, w, s.id, s.bridge), TapeOf(w0, w', s.id, s.bridge));
            && Even(w0, w', s.id, s.bridge, script, s'.buf + rest)
            && s' == s.(buf := s'.buf, last := s'.last) && (force ==> s'.buf == "")
            && t'.calls == t.calls && t'.assistants == t.assistants
  {
    if s.buf != "" && (force || now - s.last >= FLUSH_MS) {
      EmitEven(w0, w, s, script, rest);
      assert "" + rest == rest;
    }
  }

  lemma {:induction false} HearEven(w0: World, w: World, s: Stream, deltas: seq<Delta>, script: Script)
    requires s.on && Even(w0, w, s.id, s.bridge, script, s.buf + Texts(deltas))
    ensures var (w', s') := Hear(w, s, deltas);
            && Even(w0, w', s.id, s.bridge, script, s'.buf) && s' == s.(buf := s'.buf, last := s'.last)
            && TapeOf(w0, w', s.id, s.bridge).calls == TapeOf(w0, w, s.id, s.bridge).calls
            && TapeOf(w0, w', s.id, s.bridge).assistants == TapeOf(w0, w, s.id, s.bridge).assistants
    decreases |deltas|
  {
    if deltas == [] {
      assert s.buf + Texts(deltas) == s.buf;
    } else {
      var s1 := s.(buf := s.buf + deltas[0].text);
      var rest := Texts(deltas[1..]);
      assert s.buf + (deltas[0].text + rest) == s1.buf + rest;
      FlushEven(w0, w, s1, false, deltas[0].at, script, rest);
      var (w2, s2) := Flush(w, s1, false, deltas[0].at);
      HearEven(w0, w2, s2, deltas[1..], script);
    }
  }

  /** An event that publishes nothing and leaves the stream even. */
  lemma PlainEven(w0: World, w: World, e: Event, id: string, bridge: Option<Bridge>, script: Script)
    requires Even(w0, w, id, bridge, script, "")
    requires match e
             case Published(topic, _, _, _) => topic != RunToken
             case StepSaved(_, _, role) => role == Tool
             case _ => !e.ModelCalled?
    ensures var w' := w.See(e);
            Even(w0, w', id, bridge, script, "") && TapeOf(w0, w', id, bridge) == TapeOf(w0, w, id, bridge)
  {
    var t := TapeOf(w0, w, id, bridge);
    assert Flat(t.heard) + "" == Flat(t.heard);
    AddMoment(w0, w, w.See(e), Moment(e, w.runs), id, bridge, script);
  }

  lemma {:induction false} ToolsEven(w0: World, w: World, id: string, agent: Agent, calls: seq<ToolCall>, index: nat,
                                     bridge: Option<Bridge>, script: Script)
    requires Even(w0, w, id, bridge, script, "")
    ensures var w' := Tools(w, id, agent, calls, index).w;
            Even(w0, w', id, bridge, script, "") && TapeOf(w0, w', id, bridge) == TapeOf(w0, w, id, bridge)
    decreases |calls|
  {
    if calls != [] && Allowed(agent, calls[0].name) && calls[0].outcome.Ok? {
      var t := TapeOf(w0, w, id, bridge);
      assert Flat(t.heard) + "" == Flat(t.heard);
      var w1 := w.AppendStep(id, index, Tool);
      AddMoment(w0, w, w1, Moment(StepSaved(id, index, Tool), w.runs), id, bridge, script);
      PlainEven(w0, w1, Published(StepAppended, id, "", None), id, bridge, script);
      ToolsEven(w0, w.AppendStep(id, index, Tool).Publish(StepAppended, id), id, agent, calls[1..], index + 1, bridge,
          script);
    }
  }

  /** Asking the model opens the next turn. */
  lemma CallEven(w0: World, w: World, id: string, bridge: Option<Bridge>, script: Script)
    requires Even(w0, w, id, bridge, script, "")
    ensures var n := TapeOf(w0, w, id, bridge).calls;
            var w' := w.See(ModelCalled(id));
            && Even(w0, w', id, bridge, script, Texts(script(n).deltas))
            && TapeOf(w0, w', id, bridge) == TapeOf(w0, w, id, bridge).(calls := n + 1)
  {
    var t := TapeOf(w0, w, id, bridge);
    assert Flat(t.heard) + "" == Flat(t.heard);
    AddMoment(w0, w, w.See(ModelCalled(id)), Moment(ModelCalled(id), w.runs), id, bridge, script);
  }

  /** Recording the assistant step closes it: everything streamed has been published. */
  lemma AssistantEven(w0: World, w: World, id: string, index: nat, bridge: Option<Bridge>, script: Script)
    requires Even(w0, w, id, bridge, script, "")
             && TapeOf(w0, w, id, bridge).assistants < TapeOf(w0, w, id, bridge).calls
    ensures var w' := w.AppendStep(id, index, Assistant).Publish(StepAppended, id);
            var t := TapeOf(w0, w, id, bridge);
            Even(w0, w', id, bridge, script, "") && TapeOf(w0, w', id, bridge) == t.(assistants := t.assistants + 1)
  {
    var t := TapeOf(w0, w, id, bridge);
    assert Flat(t.heard) + "" == Flat(t.heard);
    var w1 := w.AppendStep(id, index, Assistant);
    AddMoment(w0, w, w1, Moment(StepSaved(id, index, Assistant), w.runs), id, bridge, script);
    PlainEven(w0, w1, Published(StepAppended, id, "", None), id, bridge, script);
  }

  /** The token events of a streaming attempt, moment by moment and at its end. */
  ghost predicate StreamKept(seg: seq<Moment>, id: string, bridge: Option<Bridge>, script: Script, limit: nat,
                             finished: bool) {
    && Tracked(seg, id, bridge, script)
    && var t := Play(seg, id, bridge);
       && t.assistants <= t.calls <= limit
       && (bridge.Some? ==> t.bridged == t.heard)
       && Flat(t.heard) <= Said(script, t.calls)
       && (finished ==> Flat(t.heard) == Said(script, t.calls))
  }

  lemma EvenIsKept(w0: World, w: World, id: string, bridge: Option<Bridge>, script: Script, limit: nat, rest: string)
    requires Even(w0, w, id, bridge, script, rest) && TapeOf(w0, w, id, bridge).calls <= limit
    ensures StreamKept(New(w0, w), id, bridge, script, limit, false)
    ensures rest == "" ==> StreamKept(New(w0, w), id, bridge, script, limit, true)
  {
    var t := TapeOf(w0, w, id, bridge);
    assert rest == "" ==> Flat(t.heard) + rest == Flat(t.heard);
  }

  lemma RoundEven(w0: World, w: World, agent: Agent, reply: Reply, index: nat, s: Stream, script: Script, iter: nat)
    requires s.on && s.buf == "" && Even(w0, w, s.id, s.bridge, script, "") && reply == script(iter)
    requires var t := TapeOf(w0, w, s.id, s.bridge); t.calls == t.assistants == iter
    ensures var end := Round(w, s.id, agent, reply, index, s);
            && Even(w0, end.w, s.id, s.bridge, script,
                 if reply.Throws? then Hear(w.See(ModelCalled(s.id)), s, reply.deltas).1.buf else "")
            && TapeOf(w0, end.w, s.id, s.bridge).calls == iter + 1
            && (end.Next? ==> end.s == s.(last := end.s.last)
                              && TapeOf(w0, end.w, s.id, s.bridge).assistants == iter + 1)
            && (end.Next? || end.r.Ok? ==> !reply.Throws?)
  {
    hide Hear, Flush, Tracked, Play, Flat, Said;
    CallEven(w0, w, s.id, s.bridge, script);
    assert s.buf + Texts(reply.deltas) == Texts(reply.deltas);
    var w1 := w.See(ModelCalled(s.id));
    HearEven(w0, w1, s, reply.deltas, script);
    if reply.Turn? {
      var (w2, s2) := Hear(w1, s, reply.deltas);
      RecordEven(w0, w2, agent, reply, index, s2, script);
    }
  }

  /** The end of a turn: flush, assistant step, tools. */
  lemma RecordEven(w0: World, w2: World, agent: Agent, reply: Reply, index: nat, s2: Stream, script: Script)
    requires reply.Turn? && Even(w0, w2, s2.id, s2.bridge, script, s2.buf)
    requires var t := TapeOf(w0, w2, s2.id, s2.bridge); t.calls == t.assistants + 1
    ensures var (w3, s3) := Flush(w2, s2, true, reply.doneAt);
            var w4 := w3.AppendStep(s2.id, index, Assistant).Publish(StepAppended, s2.id);
            var end := Tools(w4, s2.id, agent, reply.calls, index + 1);
            && Even(w0, end.w, s2.id, s2.bridge, script, "")
            && s3 == s2.(buf := "", last := s3.last)
            && var t' := TapeOf(w0, end.w, s2.id, s2.bridge);
               t'.calls == t'.assistants == TapeOf(w0, w2, s2.id, s2.bridge).calls
  {
    hide Flush, Tools, Tracked, Play, Flat, Said;
    assert s2.buf + "" == s2.buf && "" + "" == "";
    FlushEven(w0, w2, s2, true, reply.doneAt, script, "");
    var (w3, s3) := Flush(w2, s2, true, reply.doneAt);
    AssistantEven(w0, w3, s2.id, index, s2.bridge, script);
    var w4 := w3.AppendStep(s2.id, index, Assistant).Publish(StepAppended, s2.id);
    ToolsEven(w0, w4, s2.id, agent, reply.calls, index + 1, s2.bridge, script);
  }

  lemma {:induction false} LoopEven(w0: World, w: World, agent: Agent, limit: nat, script: Script, iter: nat,
                                    index: nat, s: Stream)
    requires s.on && s.buf == "" && Even(w0, w, s.id, s.bridge, script, "")
    requires var t := TapeOf(w0, w, s.id, s.bridge); t.calls == t.assistants == iter <= limit
    ensures var (w', r) := Loop(w, s.id, agent, limit, script, iter, index, s);
            w0.trace <= w'.trace && StreamKept(New(w0, w'), s.id, s.bridge, script, limit, r.Ok?)
    decreases limit - iter
  {
    hide Round, Hear, Tracked, Play, Flat, Said;
    if iter >= limit {
      PlainEven(w0, w, Published(NeedsHuman, s.id, "", None), s.id, s.bridge, script);
      EvenIsKept(w0, w.Publish(NeedsHuman, s.id), s.id, s.bridge, script, limit, "");
    } else {
      var reply := script(iter);
      RoundEven(w0, w, agent, reply, index, s, script, iter);
      var end := Round(w, s.id, agent, reply, index, s);
      if end.Stop? {
        EvenIsKept(w0, end.w, s.id, s.bridge, script, limit,
                   if reply.Throws? then Hear(w.See(ModelCalled(s.id)), s, reply.deltas).1.buf else "");
      } else {
        LoopEven(w0, end.w, agent, limit, script, iter + 1, end.index, end.s);
      }
    }
  }

  /**
   * For any timing, a streaming attempt publishes a beginning of what the model streamed, all of it
   * at every recorded turn, and the parent's stream carries the same chunks in the same order.
   */
  lemma AttemptStream(w: World, agents: seq<Agent>, limit: nat, id: string, script: Script, bridge: Option<Bridge>)
    requires id in w.runs && (w.runs[id].input.chat || w.runs[id].input.stream)
    ensures var (w', r) := ExecuteRun(w, agents, limit, id, script, bridge);
            && w.trace <= w'.trace
            && StreamKept(New(w, w'), id, bridge, script, limit, r.Ok?)
  {
    hide Loop, Tracked, Play, Flat, Said, StreamKept;
    var run := w.runs[id];
    assert New(w, w) == [];
    StartEven(w, id, bridge, script);
    EvenIsKept(w, w, id, bridge, script, limit, "");
    if !IsTerminal(run.status) && FindAgent(agents, run.agentId).Some? {
      var w1 := if run.status == Running then w else w.UpdateRunStatus(id, Running, NoPatch);
      if run.status != Running {
        WriteEven(w, w, w1, id, Wrote(id), bridge, script);
      }
      var w2 := w1.Publish(RunStarted, id);
      PlainEven(w, w1, Published(RunStarted, id, "", None), id, bridge, script);
      var agent := FindAgent(agents, run.agentId).value;
      var s := Stream(true, id, bridge, "", 0);
      LoopEven(w, w2, agent, limit, script, 0, 0, s);
      LoopQuiet(w2, id, agent, limit, script, 0, 0, s);
      var (w3, r) := Loop(w2, id, agent, limit, script, 0, 0, s);
      StreamEnd(w, w3, id, bridge, script, limit, r);
    }
  }

  lemma StartEven(w: World, id: string, bridge: Option<Bridge>, script: Script)
    ensures Even(w, w, id, bridge, script, "") && TapeOf(w, w, id, bridge) == Tape(0, 0, [], [])
  {
    assert New(w, w) == [];
  }

  /** A status write says nothing on the stream. */
  lemma WriteEven(w0: World, w: World, w': World, id: string, e: Event, bridge: Option<Bridge>, script: Script)
    requires Even(w0, w, id, bridge, script, "") && e.Wrote? && w'.trace == w.trace + [Moment(e, w'.runs)]
    ensures Even(w0, w', id, bridge, script, "") && TapeOf(w0, w', id, bridge) == TapeOf(w0, w, id, bridge)
  {
    var t := TapeOf(w0, w, id, bridge);
    assert Flat(t.heard) + "" == Flat(t.heard);
    AddMoment(w0, w, w', Moment(e, w'.runs), id, bridge, script);
  }

  lemma StreamEnd(w: World, w3: World, id: string, bridge: Option<Bridge>, script: Script, limit: nat,
                  r: Result<string>)
    requires id in w3.runs && w.trace <= w3.trace && StreamKept(New(w, w3), id, bridge, script, limit, r.Ok?)
    ensures match r
            case Ok(text) =>
              var w' := w3.UpdateRunStatus(id, Succeeded, SetOutput(Text(text))).Publish(RunSucceeded, id);
              w.trace <= w'.trace && StreamKept(New(w, w'), id, bridge, script, limit, true)
            case Err(e) =>
              var w' := w3.UpdateRunStatus(id, Running, SetError(e));
              w.trace <= w'.trace && StreamKept(New(w, w'), id, bridge, script, limit, false)
  {
    match r
    case Ok(text) =>
      var w4 := w3.UpdateRunStatus(id, Succeeded, SetOutput(Text(text)));
      AddMoment(w, w3, w4, Moment(Wrote(id), w4.runs), id, bridge, script);
      AddMoment(w, w4, w4.Publish(RunSucceeded, id), Moment(Published(RunSucceeded, id, "", None), w4.runs), id,
          bridge, script);
    case Err(e) =>
      var w4 := w3.UpdateRunStatus(id, Running, SetError(e));
      AddMoment(w, w3, w4, Moment(Wrote(id), w4.runs), id, bridge, script);
  }

  /**
   * Read at any moment: the text published so far, the whole of it where a turn was just recorded,
   * and the parent's stream with the same chunks, at most one behind.
   */
  lemma {:induction false} StreamAt(seg: seq<Moment>, id: string, bridge: Option<Bridge>, script: Script, k: nat)
    requires Tracked(seg, id, bridge, script) && k < |seg|
    ensures var t := Play(seg[..k + 1], id, bridge);
            && Flat(t.heard) <= Said(script, t.calls)
            && (seg[k].event.StepSaved? && seg[k].event.id == id ==> Flat(t.heard) == Said(script, t.calls))
            && (bridge.Some? ==> t.bridged <= t.heard && |t.heard| <= |t.bridged| + 1)
    decreases |seg|
  {
    if k + 1 == |seg| {
      assert seg[..k + 1] == seg;
    } else {
      StreamAt(seg[..|seg| - 1], id, bridge, script, k);
      assert seg[..|seg| - 1][..k + 1] == seg[..k + 1];
    }
  }
}
