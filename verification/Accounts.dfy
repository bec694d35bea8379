/** Retry accounting: outstanding jobs, dead letters and the attempt budget of the runs callers create. */
module Accounts {
  import opened Domain
  import opened Store
  import opened Runtime
  import opened Orchestrator
  import opened Team
  import opened Worker
  import Phase

  /** Ids of created runs are UUIDs; only child ids carry the separator. */
  predicate TopId(id: string) {
    ':' !in id
  }

  function Letters(ds: seq<DeadLetter>, id: string): nat {
    if ds == [] then 0
    else Letters(ds[..|ds| - 1], id) + if ds[|ds| - 1].runId == id then 1 else 0
  }

  /** One job while the run is open, one dead letter while it is failed, and budget left while it is open. */
  ghost predicate Settled(w: World, cfg: Config, maxAttempts: int, id: string) {
    if id in w.runs && TopId(id) then
      var run := w.runs[id];
      && FindAgent(cfg.agents, run.agentId).Some?
      && run.status in {Queued, Running, Succeeded, Failed}
      && w.jobs[id] == (if Phase.IsActive(run) then 1 else 0)
      && Letters(w.deadLetters, id) == (if run.status == Failed then 1 else 0)
      && (Phase.IsActive(run) ==> run.attempts < maxAttempts)
      && (run.status == Failed ==> run.attempts == maxAttempts)
    else w.jobs[id] == 0 && Letters(w.deadLetters, id) == 0 && !FailedIn(w.runs, id)
  }

  ghost predicate Balanced(w: World, cfg: Config, maxAttempts: int) {
    forall id :: Settled(w, cfg, maxAttempts, id)
  }

  /** The control plane's own steps: fresh ids, no duplicate enqueue from outside. */
  predicate Regular(w: World, op: Op) {
    match op
    case Create(id, _, _) => id !in w.runs && TopId(id)
    case Redeliver(_) => false
    case _ => true
  }

  predicate AllRegular(w: World, cfg: Config, maxAttempts: int, ops: seq<Op>)
    decreases |ops|
  {
    ops == [] ||
    (AllRegular(w, cfg, maxAttempts, ops[..|ops| - 1])
     && Regular(Steps(w, cfg, maxAttempts, ops[..|ops| - 1]), ops[|ops| - 1]))
  }

  lemma {:induction false} LettersWithout(ds: seq<DeadLetter>, id: string, j: string)
    ensures Letters(Without(ds, id), j) == if j == id then 0 else Letters(ds, j)
  {
    if ds != [] {
      var init, last := ds[..|ds| - 1], ds[|ds| - 1];
      LettersWithout(init, id, j);
      var kept := Without(init, id);
      assert (kept + [last])[..|kept|] == kept;
      assert kept + [] == kept;
    }
  }

  lemma LettersAppend(ds: seq<DeadLetter>, d: DeadLetter, j: string)
    ensures Letters(ds + [d], j) == Letters(ds, j) + if d.runId == j then 1 else 0
  {
    assert (ds + [d])[..|ds|] == ds;
  }

  lemma TopNotChild(j: string, parent: string)
    ensures TopId(j) ==> !IsChildOf(j, parent)
  {
    if IsChildOf(j, parent) {
      assert j[|parent|] == ':';
    }
  }

  /** A row outside the family of the run that was dispatched. */
  lemma OthersSettled(w: World, w': World, cfg: Config, maxAttempts: int, id: string, j: string)
    requires Settled(w, cfg, maxAttempts, j) && j != id && FamilyOnly(w.runs, w'.runs, id)
    requires w'.jobs[j] == w.jobs[j] && Letters(w'.deadLetters, j) == Letters(w.deadLetters, j)
    ensures Settled(w', cfg, maxAttempts, j)
  {
    if TopId(j) { TopNotChild(j, id); }
  }

  /** One delivery spends one attempt, and the last one settles the run. */
  lemma DeliverSettles(w: World, cfg: Config, maxAttempts: int, id: string, d: Delivery)
    requires Balanced(w, cfg, maxAttempts) && w.jobs[id] > 0
    ensures var w' := Process(w.TakeJob(id), cfg, maxAttempts, id, d);
            && Balanced(w', cfg, maxAttempts)
            && id in w.runs && TopId(id) && id in w'.runs
            && w'.runs[id].attempts == w.runs[id].attempts + 1
  {
    hide Dispatch, Flows, FamilyOnly, Letters, FindAgent;
    assert Settled(w, cfg, maxAttempts, id);
    var v := w.TakeJob(id);
    var w1 := v.IncrementRunAttempts(id);
    DispatchEvents(w1, cfg, id, d);
    var (w2, r) := Dispatch(w1, cfg, id, d);
    var w' := Process(v, cfg, maxAttempts, id, d);
    DeliveredRow(w, w2, w', cfg, maxAttempts, id, w1.runs[id].attempts, r);
    FamilyOnlyFrom(w.runs, w1.runs, w1.runs, w1.runs, id);
    forall j | j != id
      ensures Settled(w', cfg, maxAttempts, j)
    {
      assert Settled(w, cfg, maxAttempts, j);
      DeliveredOthers(w, w1, w2, w', cfg, maxAttempts, id, j, w1.runs[id].attempts, r);
    }
  }

  lemma DeliveredRow(w: World, w2: World, w': World, cfg: Config, maxAttempts: int, id: string, attempt: nat,
                     r: Result<()>)
    requires Settled(w, cfg, maxAttempts, id) && id in w.runs && TopId(id) && Phase.IsActive(w.runs[id])
    requires id in w2.runs && attempt == w.runs[id].attempts + 1
    requires w2.jobs == w.jobs - multiset{id} && w2.deadLetters == w.deadLetters
    requires ParentMoves(w.runs[id].(attempts := attempt), w2.runs[id], r)
    requires w' == if r.Ok? then w2 else if attempt < maxAttempts then w2.Enqueue(id)
                   else Bury(w2, id, attempt, r.error)
    ensures Settled(w', cfg, maxAttempts, id) && id in w'.runs && w'.runs[id].attempts == attempt
  {
    hide Letters, FindAgent;
    if r.Err? && attempt >= maxAttempts {
      LettersAppend(w.deadLetters, DeadLetter(id, r.error, attempt), id);
    }
  }

  lemma FamilyOnlyOn(a: Runs, b: Runs, c: Runs, d: Runs, id: string)
    requires FamilyOnly(a, b, id) && FamilyOnly(b, c, id)
    requires d == c || (id in d && d == c[id := d[id]])
    ensures FamilyOnly(a, d, id)
  {}

  lemma DeliveredOthers(w: World, w1: World, w2: World, w': World, cfg: Config, maxAttempts: int, id: string, j: string,
                        attempt: nat, r: Result<()>)
    requires Settled(w, cfg, maxAttempts, j) && j != id && id in w2.runs
    requires FamilyOnly(w.runs, w1.runs, id) && FamilyOnly(w1.runs, w2.runs, id)
    requires w2.jobs == w.jobs - multiset{id} && w2.deadLetters == w.deadLetters
    requires w' == if r.Ok? then w2 else if attempt < maxAttempts then w2.Enqueue(id)
                   else Bury(w2, id, attempt, r.error)
    ensures Settled(w', cfg, maxAttempts, j)
  {
    hide Settled, FamilyOnly, Letters;
    if r.Err? && attempt >= maxAttempts {
      LettersAppend(w.deadLetters, DeadLetter(id, r.error, attempt), j);
    }
    FamilyOnlyOn(w.runs, w1.runs, w2.runs, w'.runs, id);
    OthersSettled(w, w', cfg, maxAttempts, id, j);
  }

  lemma CreateSettles(w: World, cfg: Config, maxAttempts: int, id: string, agentId: string, input: RunInput)
    requires Balanced(w, cfg, maxAttempts) && maxAttempts >= 1 && TopId(id) && FindAgent(cfg.agents, agentId).Some?
    ensures Balanced(CreateAndEnqueue(w, cfg, id, agentId, input), cfg, maxAttempts) <==> id !in w.runs
  {
    hide Letters, FindAgent;
    var w' := CreateAndEnqueue(w, cfg, id, agentId, input);
    assert Settled(w, cfg, maxAttempts, id);
    if id in w.runs {
      assert !Settled(w', cfg, maxAttempts, id);
    } else {
      forall j
        ensures Settled(w', cfg, maxAttempts, j)
      {
        assert Settled(w, cfg, maxAttempts, j);
      }
    }
  }

  lemma RequeueSettles(w: World, cfg: Config, maxAttempts: int, id: string)
    requires Balanced(w, cfg, maxAttempts) && maxAttempts >= 1
    ensures Balanced(RequeueDeadLetter(w, id), cfg, maxAttempts)
  {
    hide Letters, FindAgent;
    var w' := RequeueDeadLetter(w, id);
    assert Settled(w, cfg, maxAttempts, id);
    forall j
      ensures Settled(w', cfg, maxAttempts, j)
    {
      assert Settled(w, cfg, maxAttempts, j);
      LettersWithout(w.deadLetters, id, j);
    }
  }

  /** Whole runs of the system keep the books. */
  lemma {:induction false} StepsBalanced(w: World, cfg: Config, maxAttempts: int, ops: seq<Op>)
    requires Balanced(w, cfg, maxAttempts) && maxAttempts >= 1 && AllRegular(w, cfg, maxAttempts, ops)
    ensures Balanced(Steps(w, cfg, maxAttempts, ops), cfg, maxAttempts)
    decreases |ops|
  {
    if ops != [] {
      StepsBalanced(w, cfg, maxAttempts, ops[..|ops| - 1]);
      StepBalanced(Steps(w, cfg, maxAttempts, ops[..|ops| - 1]), cfg, maxAttempts, ops[|ops| - 1]);
    }
  }

  lemma StepBalanced(w: World, cfg: Config, maxAttempts: int, op: Op)
    requires Balanced(w, cfg, maxAttempts) && maxAttempts >= 1 && Regular(w, op)
    ensures Balanced(Step(w, cfg, maxAttempts, op), cfg, maxAttempts)
  {
    hide Balanced, Process;
    match op
    case Create(id, agentId, input) =>
      if FindAgent(cfg.agents, agentId).Some? { CreateSettles(w, cfg, maxAttempts, id, agentId, input); }
    case Deliver(id, d) =>
      if w.jobs[id] > 0 { DeliverSettles(w, cfg, maxAttempts, id, d); }
    case Requeue(id) =>
      RequeueSettles(w, cfg, maxAttempts, id);
  }

  /** The empty system. */
  lemma NothingOutstanding(cfg: Config, maxAttempts: int)
    ensures Balanced(World(map[], map[], [], multiset{}, []), cfg, maxAttempts)
  {
  }

  // ----- The attempt budget bounds every run -----

  function Deliveries(ops: seq<Op>, id: string): nat {
    if ops == [] then 0
    else Deliveries(ops[..|ops| - 1], id) + if ops[|ops| - 1].Deliver? && ops[|ops| - 1].id == id then 1 else 0
  }

  predicate NotRequeued(ops: seq<Op>, id: string) {
    forall i :: 0 <= i < |ops| ==> !(ops[i].Requeue? && ops[i].id == id)
  }

  /** While a run is open its attempts count its deliveries. */
  lemma {:induction false} OpenCounts(w: World, cfg: Config, maxAttempts: int, ops: seq<Op>, id: string)
    requires Balanced(w, cfg, maxAttempts) && maxAttempts >= 1 && AllRegular(w, cfg, maxAttempts, ops)
    requires id in w.runs && TopId(id) && NotRequeued(ops, id)
    ensures var w' := Steps(w, cfg, maxAttempts, ops);
            id in w'.runs && (Phase.IsActive(w'.runs[id]) ==>
              Phase.IsActive(w.runs[id]) && w'.runs[id].attempts == w.runs[id].attempts + Deliveries(ops, id))
    decreases |ops|
  {
    if ops != [] {
      var init, op := ops[..|ops| - 1], ops[|ops| - 1];
      OpenCounts(w, cfg, maxAttempts, init, id);
      StepsBalanced(w, cfg, maxAttempts, init);
      OpenStep(Steps(w, cfg, maxAttempts, init), cfg, maxAttempts, op, id);
    }
  }

  lemma OpenStep(w: World, cfg: Config, maxAttempts: int, op: Op, id: string)
    requires Balanced(w, cfg, maxAttempts) && Regular(w, op) && id in w.runs && TopId(id)
             && !(op.Requeue? && op.id == id)
    ensures var w' := Step(w, cfg, maxAttempts, op);
            id in w'.runs && (Phase.IsActive(w'.runs[id]) ==>
              && Phase.IsActive(w.runs[id])
              && w'.runs[id].attempts == w.runs[id].attempts + if op.Deliver? && op.id == id then 1 else 0)
  {
    assert Settled(w, cfg, maxAttempts, id);
    match op
    case Create(j, agentId, input) =>
    case Requeue(j) =>
    case Deliver(j, d) =>
      if w.jobs[j] > 0 {
        if j == id {
          DeliverSettles(w, cfg, maxAttempts, id, d);
        } else {
          DeliveredElsewhere(w, cfg, maxAttempts, j, d, id);
        }
      }
  }

  lemma DeliveredElsewhere(w: World, cfg: Config, maxAttempts: int, j: string, d: Delivery, id: string)
    requires Balanced(w, cfg, maxAttempts) && w.jobs[j] > 0 && id != j && id in w.runs && TopId(id)
    ensures var w' := Process(w.TakeJob(j), cfg, maxAttempts, j, d); id in w'.runs && w'.runs[id] == w.runs[id]
  {
    hide Dispatch, Flows, FamilyOnly, Letters, FindAgent;
    assert Settled(w, cfg, maxAttempts, j);
    var w1 := w.TakeJob(j).IncrementRunAttempts(j);
    DispatchEvents(w1, cfg, j, d);
    var w2 := Dispatch(w1, cfg, j, d).0;
    TopSame(w1.runs, w2.runs, j, id);
    if w2.runs[j].status == Running {}
  }

  lemma TopSame(a: Runs, b: Runs, parent: string, id: string)
    requires FamilyOnly(a, b, parent) && TopId(id) && id != parent && id in a
    ensures id in b && b[id] == a[id]
  {
    TopNotChild(id, parent);
  }

  /** Created or requeued with a fresh budget, a run is succeeded or failed after `maxAttempts` deliveries. */
  lemma BudgetBounds(w: World, cfg: Config, maxAttempts: int, ops: seq<Op>, id: string)
    requires Balanced(w, cfg, maxAttempts) && maxAttempts >= 1 && AllRegular(w, cfg, maxAttempts, ops)
    requires id in w.runs && TopId(id) && w.runs[id].attempts == 0 && NotRequeued(ops, id)
    requires Deliveries(ops, id) >= maxAttempts
    ensures var w' := Steps(w, cfg, maxAttempts, ops); id in w'.runs && w'.runs[id].status in {Succeeded, Failed}
  {
    OpenCounts(w, cfg, maxAttempts, ops, id);
    StepsBalanced(w, cfg, maxAttempts, ops);
    assert Settled(Steps(w, cfg, maxAttempts, ops), cfg, maxAttempts, id);
  }
}
