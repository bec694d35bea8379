/** What the execution plane keeps. */
module Store {
  import opened Domain

  // ----- Rows -----

  datatype RunInput = RunInput(prompt: string, chat: bool, stream: bool, subtaskId: Option<string>)

  datatype Contribution = Contribution(subtaskId: string, agentType: AgentType, agentName: string, output: Output)

  /** A run's stored output: none yet, the model's text, or the aggregate of a team. */
  datatype Output =
    | Undefined
    | Text(text: string)
    | Team(summary: Output, report: string, contributions: seq<Contribution>, review: Output,
           subtasks: map<string, Output>)

  datatype Run = Run(agentId: string, status: RunStatus, input: RunInput, output: Output, error: Option<string>,
                     attempts: nat, parent: Option<string>)

  type Runs = map<string, Run>

  datatype StepRole = Assistant | Tool

  datatype DeadLetter = DeadLetter(runId: string, reason: string, attempts: nat)

  /** The third argument of `updateRunStatus`. */
  datatype Patch = NoPatch | SetOutput(output: Output) | SetError(error: string) | ResetBudget

  function Patched(run: Run, status: RunStatus, patch: Patch): Run {
    var r := run.(status := status);
    match patch
    case NoPatch => r
    case SetOutput(output) => r.(output := output)
    case SetError(error) => r.(error := Some(error))
    case ResetBudget => r.(attempts := 0, error := None)
  }

  // ----- The observable history -----

  datatype Topic = RunStarted | RunToken | StepAppended | RunSucceeded | RunFailed | RunDeadLettered | NeedsHuman
                 | Planned | SubtaskRunning | SubtaskSucceeded | SubtaskFailed

  datatype Event =
    | Created(id: string)
    | Wrote(id: string)
    | Reopened(id: string)
    | Counted(id: string)
    | StepSaved(id: string, index: nat, role: StepRole)
    | ModelCalled(id: string)
    | Published(topic: Topic, id: string, text: string, via: Option<string>)

  /** An event and the run rows right after it. */
  datatype Moment = Moment(event: Event, runs: Runs)

  /**
   * Run rows, the step trace, dead letters and outstanding jobs, with everything observable in the
   * order it happened. A world is a value; its members say what each repository, queue or bus call
   * does to it, and `Platform` is the in-memory object that does it in place.
   */
  datatype World = World(runs: Runs, steps: map<(string, nat), StepRole>, deadLetters: seq<DeadLetter>,
                         jobs: multiset<string>, trace: seq<Moment>)
  {
    function See(e: Event): World {
      this.(trace := trace + [Moment(e, runs)])
    }

    function Publish(topic: Topic, id: string): World {
      See(Published(topic, id, "", None))
    }

    /** Idempotent: an existing row is never clobbered. */
    function CreateRun(id: string, run: Run): World {
      if id in runs then this else this.(runs := runs[id := run]).See(Created(id))
    }

    function UpdateRunStatus(id: string, status: RunStatus, patch: Patch): World {
      if id !in runs then this
      else this.(runs := runs[id := Patched(runs[id], status, patch)]).See(Wrote(id))
    }

    /** The operator's write, which alone may leave a terminal status. */
    function ReopenRun(id: string): World {
      if id !in runs then this
      else this.(runs := runs[id := Patched(runs[id], Queued, ResetBudget)]).See(Reopened(id))
    }

    function IncrementRunAttempts(id: string): World {
      if id !in runs then this
      else this.(runs := runs[id := runs[id].(attempts := runs[id].attempts + 1)]).See(Counted(id))
    }

    function AppendStep(id: string, index: nat, role: StepRole): World {
      this.(steps := steps[(id, index) := role]).See(StepSaved(id, index, role))
    }

    function RecordDeadLetter(d: DeadLetter): World {
      this.(deadLetters := deadLetters + [d])
    }

    function MarkDeadLetterRequeued(id: string): World {
      this.(deadLetters := Without(deadLetters, id))
    }

    function Enqueue(id: string): World {
      this.(jobs := jobs + multiset{id})
    }

    function TakeJob(id: string): World {
      this.(jobs := jobs - multiset{id})
    }
  }

  function Without(ds: seq<DeadLetter>, id: string): seq<DeadLetter> {
    if ds == [] then []
    else Without(ds[..|ds| - 1], id) + if ds[|ds| - 1].runId == id then [] else [ds[|ds| - 1]]
  }

  // ----- Legal histories -----

  /** What an event may do to the rows: the formal state machine, plus what no status write does. */
  ghost predicate Legal(before: Runs, m: Moment) {
    match m.event
    case Created(id) =>
      && id !in before && id in m.runs && m.runs == before[id := m.runs[id]]
      && m.runs[id].status == Queued && m.runs[id].output == Undefined
    case Wrote(id) =>
      && id in before && id in m.runs && m.runs == before[id := m.runs[id]]
      && var (a, b) := (before[id], m.runs[id]);
         && b == a.(status := b.status, output := b.output, error := b.error)
         && (CanTransition(a.status, b.status) || a.status == b.status == Running)
    case Reopened(id) =>
      && id in before && id in m.runs && m.runs == before[id := m.runs[id]]
      && before[id].status == Failed && m.runs[id] == before[id].(status := Queued, attempts := 0, error := None)
    case Counted(id) =>
      id in before && m.runs == before[id := before[id].(attempts := before[id].attempts + 1)]
    case ModelCalled(id) =>
      m.runs == before && id in before && before[id].status == Running
    case StepSaved(_, _, _) => m.runs == before
    case Published(_, _, _, _) => m.runs == before
  }

  /** The rows after a stretch of history. */
  function After(start: Runs, seg: seq<Moment>): Runs {
    if seg == [] then start else seg[|seg| - 1].runs
  }

  ghost predicate Lawful(start: Runs, seg: seq<Moment>) {
    seg == [] ||
    (Lawful(start, seg[..|seg| - 1]) && Legal(After(start, seg[..|seg| - 1]), seg[|seg| - 1]))
  }

  /** The events that took `w` to `w'`. */
  function New(w: World, w': World): seq<Moment>
    requires w.trace <= w'.trace
  {
    w'.trace[|w.trace|..]
  }

  /** `w'` is `w` after more events, each of them legal. */
  ghost predicate Flows(w: World, w': World) {
    w.trace <= w'.trace && Lawful(w.runs, New(w, w')) && w'.runs == After(w.runs, New(w, w'))
  }

  lemma {:induction false} LawfulConcat(start: Runs, s: seq<Moment>, t: seq<Moment>)
    requires Lawful(start, s) && Lawful(After(start, s), t)
    ensures Lawful(start, s + t) && After(start, s + t) == After(After(start, s), t)
    decreases |t|
  {
    if t == [] {
      assert s + t == s;
    } else {
      LawfulConcat(start, s, t[..|t| - 1]);
      assert (s + t)[..|s + t| - 1] == s + t[..|t| - 1];
    }
  }

  lemma NewConcat(a: World, b: World, c: World)
    requires a.trace <= b.trace <= c.trace
    ensures New(a, c) == New(a, b) + New(b, c)
  {
  }

  lemma FlowsRefl(w: World)
    ensures Flows(w, w)
  {
    assert New(w, w) == [];
  }

  lemma FlowsTrans(a: World, b: World, c: World)
    requires Flows(a, b) && Flows(b, c)
    ensures Flows(a, c)
  {
    NewConcat(a, b, c);
    LawfulConcat(a.runs, New(a, b), New(b, c));
  }

  /** One more legal event. */
  lemma FlowsStep(w: World, w': World, m: Moment)
    requires w'.trace == w.trace + [m] && m.runs == w'.runs && Legal(w.runs, m)
    ensures Flows(w, w') && New(w, w') == [m]
  {
    assert New(w, w') == [m];
    assert [m][..0] == [];
    assert Lawful(w.runs, []);
  }

  predicate SameOutcome(before: Runs, after: Runs, id: string) {
    && id in before && id in after
    && after[id].status == before[id].status == Succeeded
    && after[id].output == before[id].output && after[id].input == before[id].input
  }

  lemma {:induction false} FrozenAfter(start: Runs, seg: seq<Moment>, id: string)
    requires Lawful(start, seg) && id in start && start[id].status == Succeeded
    ensures SameOutcome(start, After(start, seg), id)
    decreases |seg|
  {
    if seg != [] {
      FrozenAfter(start, seg[..|seg| - 1], id);
    }
  }

  /** A row keeps its agent, its input and its parent. */
  predicate SameIdentity(before: Runs, after: Runs, id: string) {
    && id in before && id in after
    && after[id].agentId == before[id].agentId && after[id].input == before[id].input
    && after[id].parent == before[id].parent
  }

  lemma {:induction false} IdentityKept(start: Runs, seg: seq<Moment>, id: string)
    requires Lawful(start, seg) && id in start
    ensures SameIdentity(start, After(start, seg), id)
    decreases |seg|
  {
    if seg != [] { IdentityKept(start, seg[..|seg| - 1], id); }
  }

  lemma {:induction false} LawfulPrefix(start: Runs, seg: seq<Moment>, k: nat)
    requires Lawful(start, seg) && k <= |seg|
    ensures Lawful(start, seg[..k])
    decreases |seg|
  {
    if k < |seg| {
      LawfulPrefix(start, seg[..|seg| - 1], k);
      assert seg[..|seg| - 1][..k] == seg[..k];
    } else {
      assert seg[..k] == seg;
    }
  }

  /** A succeeded run keeps its status, input and output at every later moment. */
  lemma SucceededFrozen(start: Runs, seg: seq<Moment>, k: nat, id: string)
    requires Lawful(start, seg) && id in start && start[id].status == Succeeded && k < |seg|
    ensures SameOutcome(start, seg[k].runs, id)
  {
    LawfulPrefix(start, seg, k + 1);
    FrozenAfter(start, seg[..k + 1], id);
  }

  /** The model is only ever called for a run that is running. */
  lemma CallsOnlyRunning(start: Runs, seg: seq<Moment>, k: nat)
    requires Lawful(start, seg) && k < |seg| && seg[k].event.ModelCalled?
    ensures var id := seg[k].event.id; id in seg[k].runs && seg[k].runs[id].status == Running
  {
    LawfulPrefix(start, seg, k + 1);
    assert seg[..k + 1][..k] == seg[..k];
  }

  /** So the model is never asked again for a run that has succeeded. */
  lemma SucceededNeverAsks(start: Runs, seg: seq<Moment>, k: nat, id: string)
    requires Lawful(start, seg) && id in start && start[id].status == Succeeded && k < |seg|
    ensures seg[k].event != ModelCalled(id)
  {
    SucceededFrozen(start, seg, k, id);
    if seg[k].event.ModelCalled? { CallsOnlyRunning(start, seg, k); }
  }

  // ----- The in-memory adapters -----

  class Platform {
    var runs: Runs
    var steps: map<(string, nat), StepRole>
    var deadLetters: seq<DeadLetter>
    var jobs: multiset<string>
    ghost var trace: seq<Moment>

    constructor ()
      ensures View() == World(map[], map[], [], multiset{}, [])
    {
      runs, steps, deadLetters, jobs, trace := map[], map[], [], multiset{}, [];
    }

    ghost function View(): World
      reads this
    {
      World(runs, steps, deadLetters, jobs, trace)
    }

    method GetRun(id: string) returns (r: Option<Run>)
      ensures r == if id in runs then Some(runs[id]) else None
    {
      r := if id in runs then Some(runs[id]) else None;
    }

    ghost method See(e: Event)
      modifies this`trace
      ensures View() == old(View()).See(e)
    {
      trace := trace + [Moment(e, runs)];
    }

    method CreateRun(id: string, run: Run) returns (stored: Run)
      modifies this
      ensures View() == old(View()).CreateRun(id, run)
      ensures id in runs && stored == runs[id]
    {
      if id in runs { return runs[id]; }
      runs := runs[id := run];
      See(Created(id));
      stored := run;
    }

    method UpdateRunStatus(id: string, status: RunStatus, patch: Patch) returns (found: bool)
      modifies this
      ensures View() == old(View()).UpdateRunStatus(id, status, patch)
      ensures found == (id in old(runs))
    {
      if id !in runs { return false; }
      runs := runs[id := Patched(runs[id], status, patch)];
      See(Wrote(id));
      found := true;
    }

    method ReopenRun(id: string) returns (found: bool)
      modifies this
      ensures View() == old(View()).ReopenRun(id)
      ensures found == (id in old(runs))
    {
      if id !in runs { return false; }
      runs := runs[id := Patched(runs[id], Queued, ResetBudget)];
      See(Reopened(id));
      found := true;
    }

    method IncrementRunAttempts(id: string) returns (r: Option<nat>)
      modifies this
      ensures View() == old(View()).IncrementRunAttempts(id)
      ensures r == if id in runs then Some(runs[id].attempts) else None
    {
      if id !in runs { return None; }
      runs := runs[id := runs[id].(attempts := runs[id].attempts + 1)];
      See(Counted(id));
      r := Some(runs[id].attempts);
    }

    method AppendStep(id: string, index: nat, role: StepRole)
      modifies this
      ensures View() == old(View()).AppendStep(id, index, role)
    {
      steps := steps[(id, index) := role];
      See(StepSaved(id, index, role));
    }

    method RecordDeadLetter(d: DeadLetter)
      modifies this
      ensures View() == old(View()).RecordDeadLetter(d)
    {
      deadLetters := deadLetters + [d];
    }

    method MarkDeadLetterRequeued(id: string)
      modifies this
      ensures View() == old(View()).MarkDeadLetterRequeued(id)
    {
      var kept: seq<DeadLetter> := [];
      for i := 0 to |deadLetters|
        invariant View() == old(View())
        invariant kept == Without(deadLetters[..i], id)
      {
        if deadLetters[i].runId != id { kept := kept + [deadLetters[i]]; }
        assert deadLetters[..i + 1][..i] == deadLetters[..i];
      }
      assert deadLetters[..|deadLetters|] == deadLetters;
      deadLetters := kept;
    }

    method Enqueue(id: string)
      modifies this
      ensures View() == old(View()).Enqueue(id)
    {
      jobs := jobs + multiset{id};
    }

    method TakeJob(id: string)
      modifies this
      ensures View() == old(View()).TakeJob(id)
    {
      jobs := jobs - multiset{id};
    }
  }
}
