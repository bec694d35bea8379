/**
 * A child dispatched on the queue: with the synchronous queue and bus, does the parent that
 * subscribed first hear the end of it?
 */
module Async {
  import opened Domain
  import opened Store
  import opened Runtime
  import opened Orchestrator
  import opened Team
  import opened Worker

  /** The verdicts published under a run's id. */
  function Verdicts(seg: seq<Moment>, id: string): seq<Topic> {
    if seg == [] then []
    else
      var e := seg[|seg| - 1].event;
      Verdicts(seg[..|seg| - 1], id) + if IsVerdict(e) && e.id == id then [e.topic] else []
  }

  /** The promise of the waiting parent: the first verdict settles it and unsubscribes. */
  datatype Wait = Waiting | Resolved | Rejected

  function Await(verdicts: seq<Topic>): Wait {
    if verdicts == [] then Waiting
    else if verdicts[0] == RunSucceeded then Resolved
    else Rejected
  }

  /** `queue.enqueue` on the synchronous queue: the job, and any retry it schedules, before it returns. */
  function Drain(w: World, cfg: Config, maxAttempts: int, id: string, tries: nat -> Delivery, k: nat): World
    decreases maxAttempts - (if id in w.runs then w.runs[id].attempts else 0)
  {
    var w1 := Process(w, cfg, maxAttempts, id, tries(k));
    ProcessRetries(w, cfg, maxAttempts, id, tries(k));
    if w1.jobs[id] > w.jobs[id] then Drain(w1.TakeJob(id), cfg, maxAttempts, id, tries, k + 1) else w1
  }

  /** A retry is scheduled only with budget left, and the attempt has been spent. */
  lemma ProcessRetries(w: World, cfg: Config, maxAttempts: int, id: string, d: Delivery)
    ensures var w1 := Process(w, cfg, maxAttempts, id, d);
            w1.jobs[id] > w.jobs[id] ==>
              id in w.runs && id in w1.runs && w1.runs[id].attempts == w.runs[id].attempts + 1 < maxAttempts
  {
    hide Dispatch, Flows, FamilyOnly;
    if id in w.runs { DispatchEvents(w.IncrementRunAttempts(id), cfg, id, d); }
  }

  lemma {:induction false} VerdictsConcat(s: seq<Moment>, t: seq<Moment>, id: string)
    ensures Verdicts(s + t, id) == Verdicts(s, id) + Verdicts(t, id)
    decreases |t|
  {
    if t == [] {
      assert s + t == s;
    } else {
      assert (s + t)[..|s + t| - 1] == s + t[..|t| - 1];
      VerdictsConcat(s, t[..|t| - 1], id);
    }
  }

  lemma {:induction false} SilentVerdicts(seg: seq<Moment>, id: string)
    requires forall m :: m in seg ==> !IsVerdict(m.event)
    ensures Verdicts(seg, id) == []
    decreases |seg|
  {
    if seg != [] {
      assert seg[|seg| - 1] in seg;
      assert forall m :: m in seg[..|seg| - 1] ==> m in seg;
      SilentVerdicts(seg[..|seg| - 1], id);
    }
  }

  /** History from `w` to `w'` in which exactly `vs` was published for the run. */
  ghost predicate Says(w: World, w': World, id: string, vs: seq<Topic>) {
    w.trace <= w'.trace && Verdicts(New(w, w'), id) == vs
  }

  lemma SaysTrans(a: World, b: World, c: World, id: string, us: seq<Topic>, vs: seq<Topic>)
    requires Says(a, b, id, us) && Says(b, c, id, vs)
    ensures Says(a, c, id, us + vs)
  {
    NewConcat(a, b, c);
    VerdictsConcat(New(a, b), New(b, c), id);
  }

  lemma SaysOne(w: World, w': World, m: Moment, id: string)
    requires w'.trace == w.trace + [m]
    ensures Says(w, w', id, if IsVerdict(m.event) && m.event.id == id then [m.event.topic] else [])
  {
    assert New(w, w') == [m];
    assert [m][..0] == [];
  }

  lemma SaysNothing(w: World, w': World, id: string)
    requires Quiet(w, w')
    ensures Says(w, w', id, [])
  {
    SilentVerdicts(New(w, w'), id);
  }

  /** An attempt says "succeeded" once if it takes the run there, and nothing otherwise. */
  lemma AttemptSays(w: World, agents: seq<Agent>, limit: nat, id: string, script: Script, bridge: Option<Bridge>)
    requires id in w.runs
    ensures var (w', r) := ExecuteRun(w, agents, limit, id, script, bridge);
            Says(w, w', id, if r.Ok? && !IsTerminal(w.runs[id].status) then [RunSucceeded] else [])
  {
    hide Says, Quiet, Flows, Loop;
    var run := w.runs[id];
    QuietRefl(w);
    SaysNothing(w, w, id);
    if !IsTerminal(run.status) && FindAgent(agents, run.agentId).Some? {
      var w1 := if run.status == Running then w else w.UpdateRunStatus(id, Running, NoPatch);
      if run.status != Running { SaysOne(w, w1, Moment(Wrote(id), w1.runs), id); }
      var w2 := w1.Publish(RunStarted, id);
      SaysOne(w1, w2, Moment(Published(RunStarted, id, "", None), w1.runs), id);
      SaysTrans(w, w1, w2, id, [], []);
      var s := Stream(run.input.chat || run.input.stream, id, bridge, "", 0);
      var agent := FindAgent(agents, run.agentId).value;
      LoopQuiet(w2, id, agent, limit, script, 0, 0, s);
      var (w3, r) := Loop(w2, id, agent, limit, script, 0, 0, s);
      SaysNothing(w2, w3, id);
      SaysTrans(w, w2, w3, id, [], []);
      QuietRuns(w2, w3);
      var w' := ExecuteRun(w, agents, limit, id, script, bridge).0;
      EndSays(w3, w', id, r);
      var said := if r.Ok? then [RunSucceeded] else [];
      assert [] + said == said;
      SaysTrans(w, w3, w', id, [], said);
    }
  }

  lemma QuietRuns(w: World, w': World)
    requires Quiet(w, w')
    ensures w'.runs == w.runs
  {
  }

  lemma EndSays(w: World, w': World, id: string, r: Result<string>)
    requires id in w.runs
    requires match r
             case Ok(text) => w' == w.UpdateRunStatus(id, Succeeded, SetOutput(Text(text))).Publish(RunSucceeded, id)
             case Err(e) => w' == w.UpdateRunStatus(id, Running, SetError(e))
    ensures Says(w, w', id, if r.Ok? then [RunSucceeded] else [])
  {
    match r
    case Ok(text) =>
      var w1 := w.UpdateRunStatus(id, Succeeded, SetOutput(Text(text)));
      SaysOne(w, w1, Moment(Wrote(id), w1.runs), id);
      SaysOne(w1, w', Moment(Published(RunSucceeded, id, "", None), w1.runs), id);
      SaysTrans(w, w1, w', id, [], [RunSucceeded]);
    case Err(e) =>
      SaysOne(w, w', Moment(Wrote(id), w'.runs), id);
  }

  lemma BurySays(w: World, id: string, attempt: nat, reason: string)
    requires id in w.runs && w.runs[id].status == Running
    ensures var w' := Bury(w, id, attempt, reason);
            Says(w, w', id, [RunDeadLettered]) && id in w'.runs && w'.runs[id].status == Failed
  {
    hide Says, Verdicts;
    var w1 := w.UpdateRunStatus(id, Failed, SetError(reason));
    SaysOne(w, w1, Moment(Wrote(id), w1.runs), id);
    var w2 := w1.RecordDeadLetter(DeadLetter(id, reason, attempt));
    var w3 := w2.Publish(RunFailed, id);
    SaysOne(w1, w3, Moment(Published(RunFailed, id, "", None), w2.runs), id);
    SaysOne(w3, w3.Publish(RunDeadLettered, id), Moment(Published(RunDeadLettered, id, "", None), w3.runs), id);
    SaysTrans(w1, w3, w3.Publish(RunDeadLettered, id), id, [], [RunDeadLettered]);
    SaysTrans(w, w1, w3.Publish(RunDeadLettered, id), id, [], [RunDeadLettered]);
  }

  /** A child run of a known agent that is not itself orchestrated. */
  predicate PlainChild(w: World, cfg: Config, id: string) {
    id in w.runs && FindAgent(cfg.agents, w.runs[id].agentId).Some? && !IsOrchestrated(cfg, w.runs[id])
  }

  /** What one delivery says, and the status it leaves. */
  lemma ProcessSays(w: World, cfg: Config, maxAttempts: int, id: string, d: Delivery)
    requires PlainChild(w, cfg, id)
    ensures var w' := Process(w, cfg, maxAttempts, id, d);
            && PlainChild(w', cfg, id)
            && if IsTerminal(w.runs[id].status) then
                 Says(w, w', id, []) && w'.runs[id].status == w.runs[id].status && w'.jobs == w.jobs
               else if w'.jobs[id] > w.jobs[id] then Says(w, w', id, []) && w'.runs[id].status == Running
               else
                 && w'.runs[id].status in {Succeeded, Failed}
                 && Says(w, w', id, if w'.runs[id].status == Succeeded then [RunSucceeded] else [RunDeadLettered])
  {
    hide Says, Flows, FamilyOnly, ExecuteRun, FindAgent, Bury;
    var w1 := w.IncrementRunAttempts(id);
    SaysOne(w, w1, Moment(Counted(id), w1.runs), id);
    DispatchEvents(w1, cfg, id, d);
    AttemptSays(w1, cfg.agents, cfg.maxIterations, id, d.behave(id), None);
    var (w2, r) := Dispatch(w1, cfg, id, d);
    var said := if r.Ok? && !IsTerminal(w.runs[id].status) then [RunSucceeded] else [];
    SaysTrans(w, w1, w2, id, [], said);
    assert [] + said == said && [] + [RunDeadLettered] == [RunDeadLettered];
    SaysSameTrace(w, w2, w2.Enqueue(id), id, said);
    if r.Err? && w1.runs[id].attempts >= maxAttempts {
      BurySays(w2, id, w1.runs[id].attempts, r.error);
      BuryEvents(w2, id, w1.runs[id].attempts, r.error);
      BuryRow(w2, id, w1.runs[id].attempts, r.error);
      SaysTrans(w, w2, Bury(w2, id, w1.runs[id].attempts, r.error), id, [], [RunDeadLettered]);
    }
  }

  lemma BuryRow(w: World, id: string, attempt: nat, reason: string)
    requires id in w.runs && w.runs[id].status == Running
    ensures var w' := Bury(w, id, attempt, reason);
            && id in w'.runs && w'.runs[id].agentId == w.runs[id].agentId && w'.runs[id].input == w.runs[id].input
            && w'.jobs == w.jobs
  {
  }

  lemma SaysSameTrace(w: World, v: World, v': World, id: string, vs: seq<Topic>)
    requires Says(w, v, id, vs) && v'.trace == v.trace
    ensures Says(w, v', id, vs)
  {
  }

  /**
   * The wait of a parent that subscribed before it enqueued the child settles exactly when the
   * child was not terminal; then one verdict was published in all, and it tells the child's end.
   */
  lemma {:induction false} NoLostWakeUp(w: World, cfg: Config, maxAttempts: int, id: string,
                                        tries: nat -> Delivery, k: nat)
    requires PlainChild(w, cfg, id)
    ensures var w' := Drain(w, cfg, maxAttempts, id, tries, k);
            && w.trace <= w'.trace && PlainChild(w', cfg, id)
            && (Await(Verdicts(New(w, w'), id)) == Waiting <==> IsTerminal(w.runs[id].status))
            && (!IsTerminal(w.runs[id].status) ==>
                  && w'.runs[id].status in {Succeeded, Failed}
                  && Verdicts(New(w, w'), id)
                     == [if w'.runs[id].status == Succeeded then RunSucceeded else RunDeadLettered])
            && (IsTerminal(w.runs[id].status) ==> Verdicts(New(w, w'), id) == [])
    decreases maxAttempts - w.runs[id].attempts
  {
    hide Process, FindAgent;
    ProcessSays(w, cfg, maxAttempts, id, tries(k));
    ProcessRetries(w, cfg, maxAttempts, id, tries(k));
    var w1 := Process(w, cfg, maxAttempts, id, tries(k));
    if w1.jobs[id] > w.jobs[id] {
      var v := w1.TakeJob(id);
      NoLostWakeUp(v, cfg, maxAttempts, id, tries, k + 1);
      var w' := Drain(v, cfg, maxAttempts, id, tries, k + 1);
      SaysSameTrace(w, w1, v, id, []);
      SaysTrans(w, v, w', id, [], Verdicts(New(v, w'), id));
    }
  }
}
