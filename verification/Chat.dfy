/**
 * The personal chat: a message list beside the run rows. Replies are not written by the worker; a
 * read of the thread fills them in from the outputs of succeeded runs.
 */
module Chat {
  import opened Domain
  import opened Store
  import opened Text
  import opened Runtime
  import opened Orchestrator
  import opened Worker

  datatype ChatRole = User | Reply

  /** `thread` is the agent the dialog is with. */
  datatype Message = Message(thread: string, role: ChatRole, text: string, runId: Option<string>)

  datatype Pending = Pending(runId: string, status: RunStatus)

  /** `outputToReplyText`. */
  type Renderer = Output -> string

  // ----- The message list -----

  predicate HasMessage(ms: seq<Message>, runId: string, role: ChatRole) {
    exists m :: m in ms && m.runId == Some(runId) && m.role == role
  }

  function AppendReplyIfAbsent(ms: seq<Message>, reply: Message): seq<Message>
    requires reply.runId.Some?
  {
    if HasMessage(ms, reply.runId.value, reply.role) then ms else ms + [reply]
  }

  function Thread(ms: seq<Message>, thread: string): seq<Message> {
    if ms == [] then []
    else Thread(ms[..|ms| - 1], thread) + if ms[|ms| - 1].thread == thread then [ms[|ms| - 1]] else []
  }

  function OtherThreads(ms: seq<Message>, thread: string): seq<Message> {
    if ms == [] then []
    else OtherThreads(ms[..|ms| - 1], thread) + if ms[|ms| - 1].thread == thread then [] else [ms[|ms| - 1]]
  }

  /** Where `slice(-limit)` starts: a limit of 0 slices from 0, so it takes everything. */
  function SliceStart(length: nat, limit: int): (k: nat)
    ensures k <= length
  {
    if limit > 0 then if limit >= length then 0 else length - limit
    else if -limit >= length then length else -limit
  }

  /** `listChatMessages`. */
  function Window(ms: seq<Message>, thread: string, limit: int): seq<Message> {
    var all := Thread(ms, thread);
    all[SliceStart(|all|, limit)..]
  }

  // ----- The backfill -----

  datatype Fill = Fill(messages: seq<Message>, replied: set<string>, pending: seq<Pending>)

  predicate Asks(m: Message) {
    m.role == User && m.runId.Some? && m.runId.value != ""
  }

  function FillOne(render: Renderer, runs: Runs, thread: string, f: Fill, m: Message): Fill {
    if !Asks(m) || m.runId.value in f.replied || m.runId.value !in runs then f
    else
      var id := m.runId.value;
      if runs[id].status == Succeeded then
        Fill(AppendReplyIfAbsent(f.messages, Message(thread, Reply, render(runs[id].output), Some(id))),
             f.replied + {id}, f.pending)
      else f.(pending := f.pending + [Pending(id, runs[id].status)])
  }

  function FillAll(render: Renderer, runs: Runs, thread: string, f: Fill, history: seq<Message>): Fill
    decreases |history|
  {
    if history == [] then f
    else
      var filled := FillAll(render, runs, thread, f, history[..|history| - 1]);
      FillOne(render, runs, thread, filled, history[|history| - 1])
  }

  /** The run ids of the replies in a window. */
  function RepliedIn(history: seq<Message>): set<string> {
    set m | m in history && m.role == Reply && m.runId.Some? && m.runId.value != "" :: m.runId.value
  }

  function Backfill(render: Renderer, runs: Runs, ms: seq<Message>, thread: string, history: seq<Message>): Fill {
    FillAll(render, runs, thread, Fill(ms, RepliedIn(history), []), history)
  }

  // ----- Operations -----

  datatype ChatState = ChatState(world: World, messages: seq<Message>)

  datatype ChatOp =
    | Send(thread: string, text: string, attachment: bool, display: string, assemble: seq<Message> -> string,
        id: string)
    | Read(thread: string, limit: int)
    | Clear(thread: string)
    | System(op: Op)

  const HISTORY := 12

  /** The id of a new message's run is a fresh UUID. */
  predicate Fresh(s: ChatState, id: string) {
    id != "" && id !in s.world.runs && forall m :: m in s.messages ==> m.runId != Some(id)
  }

  function ReadThread(s: ChatState, render: Renderer, thread: string, limit: int): ChatState {
    s.(messages := Backfill(render, s.world.runs, s.messages, thread, Window(s.messages, thread, limit)).messages)
  }

  function SendMessage(s: ChatState, render: Renderer, cfg: Config, thread: string, text: string, attachment: bool,
                       display: string, assemble: seq<Message> -> string, id: string): ChatState {
    if (Trim(text) == "" && !attachment) || FindAgent(cfg.agents, thread).None? then s
    else
      var s1 := ReadThread(s, render, thread, HISTORY);
      var prompt := assemble(Window(s1.messages, thread, HISTORY));
      ChatState(CreateAndEnqueue(s1.world, cfg, id, thread, RunInput(prompt, true, false, None)),
                s1.messages + [Message(thread, User, display, Some(id))])
  }

  function ChatStep(s: ChatState, render: Renderer, cfg: Config, maxAttempts: int, op: ChatOp): ChatState {
    match op
    case Send(thread, text, attachment, display, assemble, id) =>
      if Fresh(s, id) then SendMessage(s, render, cfg, thread, text, attachment, display, assemble, id) else s
    case Read(thread, limit) => if FindAgent(cfg.agents, thread).None? then s else ReadThread(s, render, thread, limit)
    case Clear(thread) =>
      if FindAgent(cfg.agents, thread).None? then s else s.(messages := OtherThreads(s.messages, thread))
    case System(op) => s.(world := Step(s.world, cfg, maxAttempts, op))
  }

  function ChatSteps(s: ChatState, render: Renderer, cfg: Config, maxAttempts: int, ops: seq<ChatOp>): ChatState {
    if ops == [] then s
    else ChatStep(ChatSteps(s, render, cfg, maxAttempts, ops[..|ops| - 1]), render, cfg, maxAttempts, ops[|ops| - 1])
  }

  // ----- Sound threads -----

  /** A reply answers an earlier message of its thread, with the text of its succeeded run, and is the only one. */
  ghost predicate Answers(render: Renderer, runs: Runs, before: seq<Message>, m: Message) {
    && m.runId.Some? && m.runId.value in runs
    && runs[m.runId.value].status == Succeeded && m.text == render(runs[m.runId.value].output)
    && (exists q :: q in before && Asks(q) && q.thread == m.thread && q.runId == m.runId)
    && !HasMessage(before, m.runId.value, Reply)
  }

  /** Nobody has asked for this run before. */
  predicate NewQuestion(before: seq<Message>, m: Message) {
    Asks(m) ==> !HasMessage(before, m.runId.value, User)
  }

  ghost predicate Sound(render: Renderer, runs: Runs, ms: seq<Message>) {
    ms == [] ||
    var (init, last) := (ms[..|ms| - 1], ms[|ms| - 1]);
    Sound(render, runs, init) && NewQuestion(init, last) && (last.role == Reply ==> Answers(render, runs, init, last))
  }

  lemma SoundSnoc(render: Renderer, runs: Runs, ms: seq<Message>, m: Message)
    requires Sound(render, runs, ms) && NewQuestion(ms, m) && (m.role == Reply ==> Answers(render, runs, ms, m))
    ensures Sound(render, runs, ms + [m])
  {
    assert (ms + [m])[..|ms|] == ms;
  }

  /** What soundness says of every reply, wherever it stands. */
  lemma {:induction false} SoundReply(render: Renderer, runs: Runs, ms: seq<Message>, i: nat)
    requires Sound(render, runs, ms) && i < |ms| && ms[i].role == Reply
    ensures Answers(render, runs, ms[..i], ms[i])
    decreases |ms|
  {
    if i < |ms| - 1 {
      SoundReply(render, runs, ms[..|ms| - 1], i);
      assert ms[..|ms| - 1][..i] == ms[..i];
    }
  }

  /** At most one reply a run. */
  lemma OneReply(render: Renderer, runs: Runs, ms: seq<Message>, i: nat, j: nat)
    requires Sound(render, runs, ms) && i < j < |ms| && ms[i].role == ms[j].role == Reply
    ensures ms[i].runId != ms[j].runId
  {
    SoundReply(render, runs, ms, j);
    assert ms[i] in ms[..j];
  }

  /** At most one question a run. */
  lemma {:induction false} OneQuestion(render: Renderer, runs: Runs, ms: seq<Message>, i: nat, j: nat)
    requires Sound(render, runs, ms) && i < j < |ms| && Asks(ms[i]) && Asks(ms[j])
    ensures ms[i].runId != ms[j].runId
    decreases |ms|
  {
    if j < |ms| - 1 {
      OneQuestion(render, runs, ms[..|ms| - 1], i, j);
    } else {
      assert ms[i] in ms[..j];
    }
  }

  lemma {:induction false} SoundLater(render: Renderer, runs: Runs, later: Runs, ms: seq<Message>)
    requires Sound(render, runs, ms)
    requires forall id :: id in runs && runs[id].status == Succeeded ==> SameOutcome(runs, later, id)
    ensures Sound(render, later, ms)
  {
    if ms != [] { SoundLater(render, runs, later, ms[..|ms| - 1]); }
  }

  lemma {:induction false} OtherThreadsMembers(ms: seq<Message>, thread: string, m: Message)
    ensures m in OtherThreads(ms, thread) <==> m in ms && m.thread != thread
  {
    if ms != [] {
      OtherThreadsMembers(ms[..|ms| - 1], thread, m);
      assert ms == ms[..|ms| - 1] + [ms[|ms| - 1]];
    }
  }

  lemma {:induction false} ThreadMembers(ms: seq<Message>, thread: string, m: Message)
    ensures m in Thread(ms, thread) <==> m in ms && m.thread == thread
  {
    if ms != [] {
      ThreadMembers(ms[..|ms| - 1], thread, m);
      assert ms == ms[..|ms| - 1] + [ms[|ms| - 1]];
    }
  }

  /** Clearing a thread takes its questions and its replies. */
  lemma {:induction false} SoundCleared(render: Renderer, runs: Runs, ms: seq<Message>, thread: string)
    requires Sound(render, runs, ms)
    ensures Sound(render, runs, OtherThreads(ms, thread))
  {
    if ms != [] {
      var init, last := ms[..|ms| - 1], ms[|ms| - 1];
      SoundCleared(render, runs, init, thread);
      var kept := OtherThreads(init, thread);
      forall m | m in kept
        ensures m in init
      {
        OtherThreadsMembers(init, thread, m);
      }
      if last.thread != thread {
        if last.role == Reply {
          var q :| q in init && Asks(q) && q.thread == last.thread && q.runId == last.runId;
          OtherThreadsMembers(init, thread, q);
          assert Answers(render, runs, kept, last);
        }
        SoundSnoc(render, runs, kept, last);
      } else {
        assert OtherThreads(ms, thread) == kept;
      }
    }
  }

  // ----- What the backfill does -----

  /** Where the loop stands: nothing lost, still sound, and every id counted as replied has its reply. */
  ghost predicate Filling(render: Renderer, runs: Runs, ms: seq<Message>, f: Fill) {
    && ms <= f.messages && Sound(render, runs, f.messages)
    && forall id :: id in f.replied ==> HasMessage(f.messages, id, Reply)
  }

  lemma HasMore(ms: seq<Message>, more: seq<Message>, id: string, role: ChatRole)
    requires HasMessage(ms, id, role)
    ensures HasMessage(ms + more, id, role)
  {
    var m :| m in ms && m.runId == Some(id) && m.role == role;
    assert m in ms + more;
  }

  lemma HasRun(render: Renderer, runs: Runs, ms: seq<Message>, id: string)
    requires Sound(render, runs, ms) && HasMessage(ms, id, Reply)
    ensures id in runs && runs[id].status == Succeeded
  {
    var m :| m in ms && m.runId == Some(id) && m.role == Reply;
    var i :| 0 <= i < |ms| && ms[i] == m;
    SoundReply(render, runs, ms, i);
  }

  lemma FillOneKeeps(render: Renderer, runs: Runs, thread: string, ms: seq<Message>, f: Fill, m: Message)
    requires Filling(render, runs, ms, f) && m in ms && m.thread == thread
    ensures var g := FillOne(render, runs, thread, f, m);
            && Filling(render, runs, ms, g) && f.messages <= g.messages
            && (Asks(m) && m.runId.value in runs && runs[m.runId.value].status == Succeeded ==>
                  HasMessage(g.messages, m.runId.value, Reply))
            && g.pending == f.pending + (if Asks(m) && m.runId.value in runs && runs[m.runId.value].status != Succeeded
                                         then [Pending(m.runId.value, runs[m.runId.value].status)] else [])
  {
    hide Sound;
    if Asks(m) && m.runId.value in runs {
      var id := m.runId.value;
      if id in f.replied {
        HasRun(render, runs, f.messages, id);
      } else if runs[id].status == Succeeded {
        var reply := Message(thread, Reply, render(runs[id].output), Some(id));
        if !HasMessage(f.messages, id, Reply) {
          assert m in f.messages;
          SoundSnoc(render, runs, f.messages, reply);
          assert reply in f.messages + [reply];
          forall other | HasMessage(f.messages, other, Reply)
            ensures HasMessage(f.messages + [reply], other, Reply)
          {
            HasMore(f.messages, [reply], other, Reply);
          }
        }
      }
    }
  }

  /** The existing unsucceeded runs a window asks for, in order. */
  function Unsucceeded(runs: Runs, history: seq<Message>): seq<Pending> {
    if history == [] then []
    else
      var m := history[|history| - 1];
      Unsucceeded(runs, history[..|history| - 1])
      + if Asks(m) && m.runId.value in runs && runs[m.runId.value].status != Succeeded
        then [Pending(m.runId.value, runs[m.runId.value].status)] else []
  }

  /** Every succeeded question of the window has its reply. */
  ghost predicate AllAnswered(runs: Runs, ms: seq<Message>, history: seq<Message>) {
    forall m :: m in history && Asks(m) && m.runId.value in runs && runs[m.runId.value].status == Succeeded ==>
      HasMessage(ms, m.runId.value, Reply)
  }

  lemma {:induction false} FillAllKeeps(render: Renderer, runs: Runs, thread: string, ms: seq<Message>, f: Fill,
                                        history: seq<Message>)
    requires Filling(render, runs, ms, f)
    requires forall m :: m in history ==> m in ms && m.thread == thread
    ensures var g := FillAll(render, runs, thread, f, history);
            && Filling(render, runs, ms, g) && f.messages <= g.messages
            && AllAnswered(runs, g.messages, history) && g.pending == f.pending + Unsucceeded(runs, history)
    decreases |history|
  {
    if history != [] {
      var init, last := history[..|history| - 1], history[|history| - 1];
      assert history == init + [last];
      FillAllKeeps(render, runs, thread, ms, f, init);
      var mid := FillAll(render, runs, thread, f, init);
      FillOneKeeps(render, runs, thread, ms, mid, last);
      var end := FillOne(render, runs, thread, mid, last);
      assert end.messages == mid.messages + end.messages[|mid.messages|..];
      forall m | m in init && Asks(m) && m.runId.value in runs && runs[m.runId.value].status == Succeeded
        ensures HasMessage(end.messages, m.runId.value, Reply)
      {
        HasMore(mid.messages, end.messages[|mid.messages|..], m.runId.value, Reply);
      }
    }
  }

  lemma WindowMembers(ms: seq<Message>, thread: string, limit: int)
    ensures forall m :: m in Window(ms, thread, limit) ==> m in ms && m.thread == thread
  {
    forall m | m in Window(ms, thread, limit)
      ensures m in ms && m.thread == thread
    {
      assert m in Thread(ms, thread);
      ThreadMembers(ms, thread, m);
    }
  }

  /**
   * After a read of any window: messages are only added, the list stays sound, every succeeded
   * question of the window has its reply, and `pending` is exactly its existing unsucceeded runs.
   */
  lemma ReadAnswers(render: Renderer, runs: Runs, ms: seq<Message>, thread: string, limit: int)
    requires Sound(render, runs, ms)
    ensures var history := Window(ms, thread, limit);
            var f := Backfill(render, runs, ms, thread, history);
            && ms <= f.messages && Sound(render, runs, f.messages)
            && AllAnswered(runs, f.messages, history) && f.pending == Unsucceeded(runs, history)
  {
    var history := Window(ms, thread, limit);
    WindowMembers(ms, thread, limit);
    forall id | id in RepliedIn(history)
      ensures HasMessage(ms, id, Reply)
    {}
    FillAllKeeps(render, runs, thread, ms, Fill(ms, RepliedIn(history), []), history);
    assert [] + Unsucceeded(runs, history) == Unsucceeded(runs, history);
  }

  // ----- Over any sequence of operations -----

  lemma StepKeepsOutcomes(w: World, cfg: Config, maxAttempts: int, op: Op)
    ensures forall id :: id in w.runs && w.runs[id].status == Succeeded ==>
              SameOutcome(w.runs, Step(w, cfg, maxAttempts, op).runs, id)
  {
    hide Flows, Step;
    var w' := Step(w, cfg, maxAttempts, op);
    StepFlows(w, cfg, maxAttempts, op);
    forall id | id in w.runs && w.runs[id].status == Succeeded
      ensures SameOutcome(w.runs, w'.runs, id)
    {
      FlowsFrozen(w, w', id);
    }
  }

  lemma FlowsFrozen(w: World, w': World, id: string)
    requires Flows(w, w') && id in w.runs && w.runs[id].status == Succeeded
    ensures SameOutcome(w.runs, w'.runs, id)
  {
    FrozenAfter(w.runs, New(w, w'), id);
  }

  lemma SendSound(s: ChatState, render: Renderer, cfg: Config, thread: string, text: string, attachment: bool,
                  display: string, assemble: seq<Message> -> string, id: string)
    requires Sound(render, s.world.runs, s.messages) && Fresh(s, id)
    ensures var s' := SendMessage(s, render, cfg, thread, text, attachment, display, assemble, id);
            Sound(render, s'.world.runs, s'.messages)
  {
    hide Sound, Backfill;
    ReadAnswers(render, s.world.runs, s.messages, thread, HISTORY);
    var s1 := ReadThread(s, render, thread, HISTORY);
    var question := Message(thread, User, display, Some(id));
    StillNew(s, render, thread, question);
    SoundSnoc(render, s.world.runs, s1.messages, question);
    var s2 := SendMessage(s, render, cfg, thread, text, attachment, display, assemble, id);
    SoundLater(render, s.world.runs, s2.world.runs, s1.messages + [question]);
  }

  /** A backfill adds no question. */
  lemma StillNew(s: ChatState, render: Renderer, thread: string, m: Message)
    requires m.runId.Some? && Fresh(s, m.runId.value)
    ensures NewQuestion(ReadThread(s, render, thread, HISTORY).messages, m)
  {
    var history := Window(s.messages, thread, HISTORY);
    var more := OnlyRepliesAdded(render, s.world.runs, thread, Fill(s.messages, RepliedIn(history), []), history);
  }

  lemma ChatStepSound(s: ChatState, render: Renderer, cfg: Config, maxAttempts: int, op: ChatOp)
    requires Sound(render, s.world.runs, s.messages)
    ensures var s' := ChatStep(s, render, cfg, maxAttempts, op); Sound(render, s'.world.runs, s'.messages)
  {
    hide Sound, Backfill, Step, Flows;
    match op
    case Send(thread, text, attachment, display, assemble, id) =>
      if Fresh(s, id) { SendSound(s, render, cfg, thread, text, attachment, display, assemble, id); }
    case Read(thread, limit) => ReadAnswers(render, s.world.runs, s.messages, thread, limit);
    case Clear(thread) => SoundCleared(render, s.world.runs, s.messages, thread);
    case System(op) =>
      StepKeepsOutcomes(s.world, cfg, maxAttempts, op);
      SoundLater(render, s.world.runs, Step(s.world, cfg, maxAttempts, op).runs, s.messages);
  }

  /**
   * Over any sequence of sends, reads, clears, deliveries, requeues and retries: a run id has at most
   * one reply, behind its question, with the reply text of the succeeded run's output.
   */
  lemma {:induction false} RepliesSound(s: ChatState, render: Renderer, cfg: Config, maxAttempts: int, ops: seq<ChatOp>)
    requires Sound(render, s.world.runs, s.messages)
    ensures var s' := ChatSteps(s, render, cfg, maxAttempts, ops); Sound(render, s'.world.runs, s'.messages)
    decreases |ops|
  {
    if ops != [] {
      RepliesSound(s, render, cfg, maxAttempts, ops[..|ops| - 1]);
      ChatStepSound(ChatSteps(s, render, cfg, maxAttempts, ops[..|ops| - 1]), render, cfg, maxAttempts, ops[|ops| - 1]);
    }
  }

  /** Every question belongs to a chat run of the agent it was put to. */
  ghost predicate QuestionsRun(s: ChatState) {
    forall m :: m in s.messages && m.role == User && m.runId.Some? ==>
      && m.runId.value in s.world.runs
      && var run := s.world.runs[m.runId.value];
         run.agentId == m.thread && run.input.chat && run.input.subtaskId == None && run.parent == None
  }

  /** A run that is sent stores its question, its prompt and a job, and answers what was due before. */
  lemma SendStores(s: ChatState, render: Renderer, cfg: Config, thread: string, text: string, attachment: bool,
                   display: string, assemble: seq<Message> -> string, id: string)
    requires Sound(render, s.world.runs, s.messages) && Fresh(s, id)
    requires (Trim(text) != "" || attachment) && FindAgent(cfg.agents, thread).Some?
    ensures var s' := SendMessage(s, render, cfg, thread, text, attachment, display, assemble, id);
            |s'.messages| > 0 &&
            var before := s'.messages[..|s'.messages| - 1];
            var all := Thread(before, thread);
            var shown := if |all| <= 12 then all else all[|all| - 12..];
            && s.messages <= before && s'.messages[|before|] == Message(thread, User, display, Some(id))
            && AllAnswered(s.world.runs, shown, shown)
            && s'.world.runs == s.world.runs[id := Run(thread, Queued, RunInput(assemble(shown), true, false, None),
                                                       Undefined, None, 0, None)]
            && s'.world.jobs == s.world.jobs + multiset{id}
  {
    hide Sound, Backfill, Window, AllAnswered, Trim;
    ReturnedAnswers(s, render, thread, HISTORY);
    ReadAnswers(render, s.world.runs, s.messages, thread, HISTORY);
    var s1 := ReadThread(s, render, thread, HISTORY);
    var s' := SendMessage(s, render, cfg, thread, text, attachment, display, assemble, id);
    assert s'.messages[..|s'.messages| - 1] == s1.messages;
    WindowIs(s1.messages, thread, HISTORY);
    ThreadNone(s1.messages, thread);
  }

  lemma ThreadNone(ms: seq<Message>, thread: string)
    ensures Thread(ms, thread) == [] ==> Window(ms, thread, HISTORY) == []
  {}

  lemma QuestionsLater(s: ChatState, w': World)
    requires QuestionsRun(s) && Flows(s.world, w')
    ensures QuestionsRun(ChatState(w', s.messages))
  {
    forall m | m in s.messages && m.role == User && m.runId.Some?
      ensures SameIdentity(s.world.runs, w'.runs, m.runId.value)
    {
      IdentityKept(s.world.runs, New(s.world, w'), m.runId.value);
    }
  }

  /** A read adds replies only. */
  lemma QuestionsRead(s: ChatState, render: Renderer, thread: string, limit: int)
    requires QuestionsRun(s)
    ensures QuestionsRun(ReadThread(s, render, thread, limit))
  {
    var history := Window(s.messages, thread, limit);
    var more := OnlyRepliesAdded(render, s.world.runs, thread, Fill(s.messages, RepliedIn(history), []), history);
  }

  lemma {:induction false} OtherThreadsFewer(ms: seq<Message>, thread: string)
    ensures forall m :: m in OtherThreads(ms, thread) <==> m in ms && m.thread != thread
  {
    if ms != [] {
      OtherThreadsFewer(ms[..|ms| - 1], thread);
      assert ms == ms[..|ms| - 1] + [ms[|ms| - 1]];
    }
  }

  lemma QuestionsStep(s: ChatState, render: Renderer, cfg: Config, maxAttempts: int, op: ChatOp)
    requires QuestionsRun(s)
    ensures QuestionsRun(ChatStep(s, render, cfg, maxAttempts, op))
  {
    hide Backfill, Step, Flows, OtherThreads, QuestionsRun;
    match op
    case Send(thread, text, attachment, display, assemble, id) =>
      if Fresh(s, id) { QuestionsSend(s, render, cfg, thread, text, attachment, display, assemble, id); }
    case Read(thread, limit) => QuestionsRead(s, render, thread, limit);
    case Clear(thread) => QuestionsClear(s, thread);
    case System(op) =>
      StepFlows(s.world, cfg, maxAttempts, op);
      QuestionsLater(s, Step(s.world, cfg, maxAttempts, op));
  }

  lemma QuestionsClear(s: ChatState, thread: string)
    requires QuestionsRun(s)
    ensures QuestionsRun(s.(messages := OtherThreads(s.messages, thread)))
  {
    OtherThreadsFewer(s.messages, thread);
  }

  lemma QuestionsSend(s: ChatState, render: Renderer, cfg: Config, thread: string, text: string, attachment: bool,
                      display: string, assemble: seq<Message> -> string, id: string)
    requires QuestionsRun(s) && Fresh(s, id)
    ensures QuestionsRun(SendMessage(s, render, cfg, thread, text, attachment, display, assemble, id))
  {
    hide Backfill, Window, Trim;
    QuestionsRead(s, render, thread, HISTORY);
    var s1 := ReadThread(s, render, thread, HISTORY);
    var s' := SendMessage(s, render, cfg, thread, text, attachment, display, assemble, id);
    if s' != s {
      forall m | m in s'.messages
        ensures m in s1.messages || m == Message(thread, User, display, Some(id))
      {}
      assert forall j :: j in s.world.runs ==> j in s'.world.runs && s'.world.runs[j] == s.world.runs[j];
    }
  }

  /** Whatever happens, every question keeps a run of its own agent that is a chat, never a team's task. */
  lemma {:induction false} QuestionsKept(s: ChatState, render: Renderer, cfg: Config, maxAttempts: int,
                                         ops: seq<ChatOp>)
    requires QuestionsRun(s)
    ensures QuestionsRun(ChatSteps(s, render, cfg, maxAttempts, ops))
    decreases |ops|
  {
    hide QuestionsRun, ChatStep;
    if ops != [] {
      QuestionsKept(s, render, cfg, maxAttempts, ops[..|ops| - 1]);
      QuestionsStep(ChatSteps(s, render, cfg, maxAttempts, ops[..|ops| - 1]), render, cfg, maxAttempts, ops[|ops| - 1]);
    }
  }

  /** The positions of the messages inside a thread, or outside it, rising; all of them and no others. */
  ghost predicate PlacesOf(ms: seq<Message>, part: seq<Message>, at: seq<nat>, thread: string, inside: bool) {
    && |at| == |part|
    && (forall k :: 0 <= k < |at| ==> at[k] < |ms| && part[k] == ms[at[k]])
    && (forall k, l :: 0 <= k < l < |at| ==> at[k] < at[l])
    && forall i :: 0 <= i < |ms| ==> ((ms[i].thread == thread) == inside <==> i in at)
  }

  lemma PlacesMore(ms: seq<Message>, part: seq<Message>, at: seq<nat>, thread: string, inside: bool)
    requires ms != [] && PlacesOf(ms[..|ms| - 1], part, at, thread, inside)
    ensures var (n, last) := (|ms| - 1, ms[|ms| - 1]);
            if (last.thread == thread) == inside then PlacesOf(ms, part + [last], at + [n], thread, inside)
            else PlacesOf(ms, part, at, thread, inside)
  {
    assert forall k :: 0 <= k < |at| ==> at[k] in at;
    assert forall i: nat :: i in at + [|ms| - 1] <==> i in at || i == |ms| - 1;
  }

  /** A thread is its messages, each once and in the order they came; the rest are the other threads. */
  lemma {:induction false} ThreadExact(ms: seq<Message>, thread: string) returns (at: seq<nat>, rest: seq<nat>)
    ensures PlacesOf(ms, Thread(ms, thread), at, thread, true)
    ensures PlacesOf(ms, OtherThreads(ms, thread), rest, thread, false)
  {
    if ms == [] {
      at, rest := [], [];
    } else {
      hide PlacesOf;
      var n := |ms| - 1;
      at, rest := ThreadExact(ms[..n], thread);
      PlacesMore(ms, Thread(ms[..n], thread), at, thread, true);
      PlacesMore(ms, OtherThreads(ms[..n], thread), rest, thread, false);
      assert Thread(ms[..n], thread) + [] == Thread(ms[..n], thread);
      assert OtherThreads(ms[..n], thread) + [] == OtherThreads(ms[..n], thread);
      if ms[n].thread == thread { at := at + [n]; } else { rest := rest + [n]; }
    }
  }

  lemma AtMostOnce(render: Renderer, cfg: Config, maxAttempts: int, ops: seq<ChatOp>, i: nat, j: nat)
    requires var s := ChatSteps(ChatState(World(map[], map[], [], multiset{}, []), []), render, cfg, maxAttempts, ops);
             i < j < |s.messages| && s.messages[i].role == s.messages[j].role == Reply
    ensures var s := ChatSteps(ChatState(World(map[], map[], [], multiset{}, []), []), render, cfg, maxAttempts, ops);
            s.messages[i].runId != s.messages[j].runId
  {
    var empty := ChatState(World(map[], map[], [], multiset{}, []), []);
    RepliesSound(empty, render, cfg, maxAttempts, ops);
    var s := ChatSteps(empty, render, cfg, maxAttempts, ops);
    OneReply(render, s.world.runs, s.messages, i, j);
  }

  // ----- What a window shows -----

  /**
   * A positive limit shows the last that many messages; a limit of 0 shows everything, and a negative one
   * skips from the front.
   */
  lemma WindowIs(ms: seq<Message>, thread: string, limit: int)
    ensures var (all, w) := (Thread(ms, thread), Window(ms, thread, limit));
            && (limit >= |all| > 0 ==> w == all)
            && (0 < limit < |all| ==> w == all[|all| - limit..] && |w| == limit)
            && (limit == 0 ==> w == all)
            && (limit < 0 ==> w == if -limit >= |all| then [] else all[-limit..])
  {}

  /** So a limit bounds what is shown exactly when it is not 0, or the thread is empty. */
  lemma WindowBounded(ms: seq<Message>, thread: string, limit: nat)
    ensures |Window(ms, thread, limit)| <= limit <==> limit > 0 || Thread(ms, thread) == []
  {
    WindowIs(ms, thread, limit);
  }

  // ----- Reading twice -----

  lemma {:induction false} ThreadAppend(a: seq<Message>, b: seq<Message>, thread: string)
    ensures Thread(a + b, thread) == Thread(a, thread) + Thread(b, thread)
  {
    if b == [] {
      assert a + b == a;
    } else {
      ThreadAppend(a, b[..|b| - 1], thread);
      assert (a + b)[..|a + b| - 1] == a + b[..|b| - 1];
    }
  }

  lemma {:induction false} OnlyRepliesAdded(render: Renderer, runs: Runs, thread: string, f: Fill,
                                            history: seq<Message>)
      returns (more: seq<Message>)
    ensures FillAll(render, runs, thread, f, history).messages == f.messages + more
    ensures forall m :: m in more ==> m.role == Reply
    decreases |history|
  {
    more := [];
    if history != [] {
      more := OnlyRepliesAdded(render, runs, thread, f, history[..|history| - 1]);
      var mid := FillAll(render, runs, thread, f, history[..|history| - 1]);
      var end := FillOne(render, runs, thread, mid, history[|history| - 1]);
      if end.messages != mid.messages {
        more := more + [end.messages[|end.messages| - 1]];
      }
    }
  }

  lemma TailMember(t: seq<Message>, n: seq<Message>, from: nat, to: nat, m: Message)
    requires from <= |t| && from <= to <= |t + n| && m in (t + n)[to..]
    ensures m in t[from..] || m in n
  {
    var i :| to <= i < |t + n| && (t + n)[i] == m;
    if i < |t| {
      assert t[from..][i - from] == m;
    } else {
      assert n[i - |t|] == m;
    }
  }

  /** A window moves forward only: what it shows after an append was in it before or is new. */
  lemma WindowMoves(ms: seq<Message>, more: seq<Message>, thread: string, limit: int, m: Message)
    requires m in Window(ms + more, thread, limit)
    ensures m in Window(ms, thread, limit) || m in more
  {
    hide Thread;
    ThreadAppend(ms, more, thread);
    var t, n := Thread(ms, thread), Thread(more, thread);
    TailMember(t, n, SliceStart(|t|, limit), SliceStart(|t + n|, limit), m);
    ThreadMembers(more, thread, m);
  }

  lemma {:induction false} NothingToFill(render: Renderer, runs: Runs, thread: string, f: Fill, history: seq<Message>)
    requires AllAnswered(runs, f.messages, history)
    ensures FillAll(render, runs, thread, f, history).messages == f.messages
    decreases |history|
  {
    if history != [] {
      var init := history[..|history| - 1];
      assert forall m :: m in init ==> m in history;
      NothingToFill(render, runs, thread, f, init);
      assert history[|history| - 1] in history;
    }
  }

  /** Reading again, with no run changed in between, adds nothing. */
  lemma ReadTwice(s: ChatState, render: Renderer, thread: string, limit: int)
    requires Sound(render, s.world.runs, s.messages)
    ensures var s1 := ReadThread(s, render, thread, limit); ReadThread(s1, render, thread, limit) == s1
  {
    var runs, history := s.world.runs, Window(s.messages, thread, limit);
    ReadAnswers(render, runs, s.messages, thread, limit);
    var more := OnlyRepliesAdded(render, runs, thread, Fill(s.messages, RepliedIn(history), []), history);
    var s1 := ReadThread(s, render, thread, limit);
    var again := Window(s1.messages, thread, limit);
    forall m | m in again && Asks(m)
      ensures m in history
    {
      WindowMoves(s.messages, more, thread, limit, m);
    }
    NothingToFill(render, runs, thread, Fill(s1.messages, RepliedIn(again), []), again);
  }

  // ----- What the caller sees -----

  /** A reply in the thread stands in any window that shows its question. */
  lemma ReplyShown(render: Renderer, runs: Runs, ms: seq<Message>, thread: string, limit: int, m: Message)
    requires Sound(render, runs, ms) && m in Window(ms, thread, limit) && Asks(m)
             && HasMessage(ms, m.runId.value, Reply)
    ensures HasMessage(Window(ms, thread, limit), m.runId.value, Reply)
  {
    var j :| 0 <= j < |ms| && ms[j].runId == m.runId && ms[j].role == Reply;
    SoundReply(render, runs, ms, j);
    var pre, post := ms[..j], ms[j..];
    var q :| q in pre && Asks(q) && q.thread == ms[j].thread && q.runId == ms[j].runId;
    WindowMembers(ms, thread, limit);
    OnlyBefore(render, runs, ms, j, q, m);
    assert ms == pre + post;
    ThreadAppend(pre, post, thread);
    ThreadMembers(post, thread, m);
    ThreadMembers(post, thread, ms[j]);
    var t := Thread(ms, thread);
    var k := SliceStart(|t|, limit);
    InTail(Thread(pre, thread), Thread(post, thread), k, m, ms[j]);
    assert ms[j] in Window(ms, thread, limit);
  }

  lemma OnlyBefore(render: Renderer, runs: Runs, ms: seq<Message>, j: nat, q: Message, m: Message)
    requires Sound(render, runs, ms) && j < |ms| && q in ms[..j] && Asks(q)
    requires m in ms && Asks(m) && m.runId == q.runId
    ensures m == q && m !in ms[j..]
  {
    var i :| 0 <= i < j && ms[..j][i] == q;
    assert ms[i] == q;
    forall k | 0 <= k < |ms| && ms[k] == m
      ensures k == i
    {
      if k < i { OneQuestion(render, runs, ms, k, i); } else if i < k { OneQuestion(render, runs, ms, i, k); }
    }
    assert forall k :: 0 <= k < |ms| - j ==> ms[j..][k] == ms[j + k];
  }

  lemma InTail(a: seq<Message>, b: seq<Message>, k: nat, m: Message, r: Message)
    requires k <= |a + b| && m in (a + b)[k..] && m !in b && r in b
    ensures r in (a + b)[k..]
  {
    var x :| k <= x < |a + b| && (a + b)[x] == m;
    assert forall i :: |a| <= i < |a + b| ==> (a + b)[i] == b[i - |a|];
    var y :| 0 <= y < |b| && b[y] == r;
    assert (a + b)[|a| + y] == r;
    assert (a + b)[k..][|a| + y - k] == r;
  }

  /** Every succeeded question in the window a read returns has its reply in that same window. */
  lemma ReturnedAnswers(s: ChatState, render: Renderer, thread: string, limit: int)
    requires Sound(render, s.world.runs, s.messages)
    ensures var shown := Window(ReadThread(s, render, thread, limit).messages, thread, limit);
            AllAnswered(s.world.runs, shown, shown)
  {
    hide Sound, Window, Backfill;
    var runs, history := s.world.runs, Window(s.messages, thread, limit);
    ReadAnswers(render, runs, s.messages, thread, limit);
    var more := OnlyRepliesAdded(render, runs, thread, Fill(s.messages, RepliedIn(history), []), history);
    var s1 := ReadThread(s, render, thread, limit);
    MessagesAre(s, render, thread, limit, more);
    var shown := Window(s1.messages, thread, limit);
    forall m | m in shown && Asks(m) && m.runId.value in runs && runs[m.runId.value].status == Succeeded
      ensures HasMessage(shown, m.runId.value, Reply)
    {
      WindowMoves(s.messages, more, thread, limit, m);
      ReplyShown(render, runs, s1.messages, thread, limit, m);
    }
  }

  lemma MessagesAre(s: ChatState, render: Renderer, thread: string, limit: int, more: seq<Message>)
    requires var history := Window(s.messages, thread, limit);
             FillAll(render, s.world.runs, thread, Fill(s.messages, RepliedIn(history), []), history).messages
                 == s.messages + more
    ensures ReadThread(s, render, thread, limit).messages == s.messages + more
  {}

  // ----- In place -----

  class ChatStore {
    var messages: seq<Message>

    constructor ()
      ensures messages == []
    {
      messages := [];
    }

    method AppendChatMessage(m: Message)
      modifies this
      ensures messages == old(messages) + [m]
    {
      messages := messages + [m];
    }

    method AppendChatReplyIfAbsent(m: Message) returns (added: bool)
      requires m.runId.Some?
      modifies this
      ensures messages == AppendReplyIfAbsent(old(messages), m)
      ensures added == (messages != old(messages))
    {
      if HasMessage(messages, m.runId.value, m.role) { return false; }
      AppendChatMessage(m);
      added := true;
    }

    method ListChatMessages(thread: string, limit: int) returns (r: seq<Message>)
      ensures r == Window(messages, thread, limit)
    {
      var all := [];
      for i := 0 to |messages|
        invariant all == Thread(messages[..i], thread)
      {
        assert messages[..i + 1][..i] == messages[..i];
        if messages[i].thread == thread { all := all + [messages[i]]; }
      }
      assert messages[..|messages|] == messages;
      r := all[SliceStart(|all|, limit)..];
    }

    method ClearChatMessages(thread: string) returns (cleared: int)
      modifies this
      ensures messages == OtherThreads(old(messages), thread)
      ensures cleared == |Thread(old(messages), thread)|
    {
      var kept := [];
      for i := 0 to |messages|
        invariant messages == old(messages) && kept == OtherThreads(messages[..i], thread)
        invariant |kept| + |Thread(messages[..i], thread)| == i
      {
        assert messages[..i + 1][..i] == messages[..i];
        if messages[i].thread != thread { kept := kept + [messages[i]]; }
      }
      assert messages[..|messages|] == messages;
      cleared := |messages| - |kept|;
      messages := kept;
    }
  }

  method BackfillChatReplies(p: Platform, chat: ChatStore, render: Renderer, thread: string, history: seq<Message>)
    returns (pending: seq<Pending>)
    modifies chat
    ensures var f := Backfill(render, p.runs, old(chat.messages), thread, history);
            chat.messages == f.messages && pending == f.pending
  {
    var replied := RepliedIn(history);
    pending := [];
    for i := 0 to |history|
      invariant Fill(chat.messages, replied, pending)
                == FillAll(render, p.runs, thread, Fill(old(chat.messages), RepliedIn(history), []), history[..i])
    {
      assert history[..i + 1][..i] == history[..i];
      var m := history[i];
      if m.role != User || m.runId.None? || m.runId.value == "" || m.runId.value in replied { continue; }
      var run := p.GetRun(m.runId.value);
      if run.None? { continue; }
      if run.value.status == Succeeded {
        var _ := chat.AppendChatReplyIfAbsent(Message(thread, Reply, render(run.value.output), m.runId));
        replied := replied + {m.runId.value};
      } else {
        pending := pending + [Pending(m.runId.value, run.value.status)];
      }
    }
    assert history[..|history|] == history;
  }

  datatype History = History(messages: seq<Message>, pending: seq<Pending>)

  /** The stored list after a read, and with it what the caller sees. */
  method GetChatHistory(p: Platform, chat: ChatStore, cfg: Config, render: Renderer, thread: string, limit: int)
    returns (r: Result<History>)
    requires Sound(render, p.runs, chat.messages)
    modifies chat
    ensures ChatState(p.View(), chat.messages)
            == ChatStep(old(ChatState(p.View(), chat.messages)), render, cfg, 0, Read(thread, limit))
    ensures r.Ok? <==> FindAgent(cfg.agents, thread).Some?
    ensures r.Ok? ==> r.value.messages == Window(chat.messages, thread, limit)
                      && r.value.pending == Unsucceeded(p.runs, Window(old(chat.messages), thread, limit))
                      && AllAnswered(p.runs, chat.messages, Window(old(chat.messages), thread, limit))
                      && AllAnswered(p.runs, r.value.messages, r.value.messages)
  {
    if FindAgent(cfg.agents, thread).None? { return Err(AGENT_NOT_FOUND); }
    ReadAnswers(render, p.runs, chat.messages, thread, limit);
    ReturnedAnswers(ChatState(p.View(), chat.messages), render, thread, limit);
    var history := chat.ListChatMessages(thread, limit);
    var pending := BackfillChatReplies(p, chat, render, thread, history);
    var messages := chat.ListChatMessages(thread, limit);
    r := Ok(History(messages, pending));
  }

  const EMPTY_TEXT := "message text is empty"

  method SendChatMessage(p: Platform, chat: ChatStore, cfg: Config, render: Renderer, thread: string, text: string,
                         attachment: bool,
                         display: string, assemble: seq<Message> -> string, id: string) returns (r: Result<()>)
    modifies p, chat
    ensures ChatState(p.View(), chat.messages)
            == SendMessage(old(ChatState(p.View(), chat.messages)), render, cfg, thread, text, attachment, display,
                assemble, id)
    ensures r.Ok? <==> (Trim(text) != "" || attachment) && FindAgent(cfg.agents, thread).Some?
  {
    if Trim(text) == "" && !attachment { return Err(EMPTY_TEXT); }
    if FindAgent(cfg.agents, thread).None? { return Err(AGENT_NOT_FOUND); }
    var history := chat.ListChatMessages(thread, HISTORY);
    var _ := BackfillChatReplies(p, chat, render, thread, history);
    var fresh_ := chat.ListChatMessages(thread, HISTORY);
    chat.AppendChatMessage(Message(thread, User, display, Some(id)));
    r := CreateRun(p, cfg, id, thread, RunInput(assemble(fresh_), true, false, None));
  }

  method ClearChatHistory(chat: ChatStore, cfg: Config, thread: string) returns (r: Result<int>)
    modifies chat
    ensures r == if FindAgent(cfg.agents, thread).None? then Err(AGENT_NOT_FOUND)
                 else Ok(|Thread(old(chat.messages), thread)|)
    ensures chat.messages == if r.Ok? then OtherThreads(old(chat.messages), thread) else old(chat.messages)
  {
    if FindAgent(cfg.agents, thread).None? { return Err(AGENT_NOT_FOUND); }
    var cleared := chat.ClearChatMessages(thread);
    r := Ok(cleared);
  }
}
