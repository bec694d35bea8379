/** What a dead letter says. */
module Burials {
  import opened Domain
  import opened Store
  import opened Runtime
  import opened Team
  import opened Worker
  import opened Accounts
  import opened Orchestrator

  /** The letter names a failed run, the reason it failed for and the attempts it took. */
  predicate LetterTrue(runs: Runs, l: DeadLetter) {
    && l.runId in runs && runs[l.runId].status == Failed
    && runs[l.runId].error == Some(l.reason) && runs[l.runId].attempts == l.attempts
  }

  ghost predicate LettersTrue(w: World) {
    forall l :: l in w.deadLetters ==> LetterTrue(w.runs, l)
  }

  lemma {:induction false} WithoutMembers(ds: seq<DeadLetter>, id: string)
    ensures forall l :: l in Without(ds, id) <==> l in ds && l.runId != id
  {
    if ds != [] {
      WithoutMembers(ds[..|ds| - 1], id);
      assert ds == ds[..|ds| - 1] + [ds[|ds| - 1]];
    }
  }

  /** A failed run is none that is delivered, and no child. */
  lemma FailedApart(w: World, cfg: Config, maxAttempts: int, j: string, id: string)
    requires Balanced(w, cfg, maxAttempts) && j in w.runs && w.runs[j].status == Failed && w.jobs[id] > 0
    ensures j != id && !IsChildOf(j, id)
  {
    hide FindAgent, Letters;
    assert Settled(w, cfg, maxAttempts, j) && Settled(w, cfg, maxAttempts, id);
    TopNotChild(j, id);
  }

  /** A delivery leaves old letters true, and the letter it may write is true. */
  lemma DeliverTells(w: World, cfg: Config, maxAttempts: int, id: string, d: Delivery)
    requires Balanced(w, cfg, maxAttempts) && w.jobs[id] > 0 && LettersTrue(w)
    ensures LettersTrue(Process(w.TakeJob(id), cfg, maxAttempts, id, d))
  {
    hide Dispatch, Flows, FamilyOnly, FindAgent, Balanced;
    JobRuns(w, cfg, maxAttempts, id);
    var v := w.TakeJob(id);
    var w1 := v.IncrementRunAttempts(id);
    DispatchEvents(w1, cfg, id, d);
    var (w2, r) := Dispatch(w1, cfg, id, d);
    var w' := Process(v, cfg, maxAttempts, id, d);
    forall l | l in w.deadLetters
      ensures LetterTrue(w2.runs, l) && l.runId != id
    {
      assert LetterTrue(w.runs, l);
      FailedApart(w, cfg, maxAttempts, l.runId, id);
      ApartRow(w1.runs, w2.runs, id, l.runId);
    }
    hide LetterTrue;
    if r.Err? && w1.runs[id].attempts >= maxAttempts { BuryTells(w2, id, w1.runs[id].attempts, r.error); }
  }

  lemma BuryTells(w: World, id: string, attempt: nat, reason: string)
    requires LettersTrue(w) && (forall l :: l in w.deadLetters ==> l.runId != id)
    requires id in w.runs && w.runs[id].attempts == attempt
    ensures LettersTrue(Bury(w, id, attempt, reason))
  {
    var w' := Bury(w, id, attempt, reason);
    forall l | l in w'.deadLetters
      ensures LetterTrue(w'.runs, l)
    {
      assert l in w.deadLetters || l == DeadLetter(id, reason, attempt);
    }
  }

  lemma JobRuns(w: World, cfg: Config, maxAttempts: int, id: string)
    requires Balanced(w, cfg, maxAttempts) && w.jobs[id] > 0
    ensures id in w.runs && !IsTerminal(w.runs[id].status) && FindAgent(cfg.agents, w.runs[id].agentId).Some?
  {
    assert Settled(w, cfg, maxAttempts, id);
  }

  lemma ApartRow(a: Runs, b: Runs, id: string, j: string)
    requires FamilyOnly(a, b, id) && j in a && j != id && !IsChildOf(j, id)
    ensures j in b && b[j] == a[j]
  {}

  lemma StepTells(w: World, cfg: Config, maxAttempts: int, op: Op)
    requires Balanced(w, cfg, maxAttempts) && Regular(w, op) && LettersTrue(w)
    ensures LettersTrue(Step(w, cfg, maxAttempts, op))
  {
    hide Process, Balanced, FindAgent;
    match op
    case Create(id, agentId, input) =>
    case Deliver(id, d) => if w.jobs[id] > 0 { DeliverTells(w, cfg, maxAttempts, id, d); }
    case Requeue(id) => WithoutMembers(w.deadLetters, id);
  }

  /** Over any run of the system the dead letters tell the truth about the runs they name. */
  lemma {:induction false} StepsTell(w: World, cfg: Config, maxAttempts: int, ops: seq<Op>)
    requires Balanced(w, cfg, maxAttempts) && maxAttempts >= 1 && AllRegular(w, cfg, maxAttempts, ops) && LettersTrue(w)
    ensures LettersTrue(Steps(w, cfg, maxAttempts, ops))
    decreases |ops|
  {
    hide Balanced, LettersTrue, Step, Regular;
    if ops != [] {
      StepsTell(w, cfg, maxAttempts, ops[..|ops| - 1]);
      StepsBalanced(w, cfg, maxAttempts, ops[..|ops| - 1]);
      StepTells(Steps(w, cfg, maxAttempts, ops[..|ops| - 1]), cfg, maxAttempts, ops[|ops| - 1]);
    }
  }
}
