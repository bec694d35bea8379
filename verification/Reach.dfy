/** What every moment of the system shows of a team. */
module Reach {
  import opened Domain
  import opened Store
  import opened Runtime
  import opened Orchestrator
  import opened Team
  import opened Family
  import opened Retries
  import opened Worker
  import opened Accounts

  // ----- A delivery at another run -----

  /** At every moment nothing moves outside the family of the run that is delivered. */
  ghost predicate Apart(w: World, w': World, id: string) {
    && w.trace <= w'.trace && FamilyOnly(w.runs, w'.runs, id)
    && forall m :: m in New(w, w') ==> FamilyOnly(w.runs, m.runs, id)
  }

  lemma FamilyOnlyTrans(a: Runs, b: Runs, c: Runs, id: string)
    requires FamilyOnly(a, b, id) && FamilyOnly(b, c, id)
    ensures FamilyOnly(a, c, id)
  {}

  lemma FamilyOnlyRow(a: Runs, b: Runs, id: string)
    requires b == a || (id in b && b == a[id := b[id]])
    ensures FamilyOnly(a, b, id)
  {}

  lemma ApartTrans(a: World, b: World, c: World, id: string)
    requires Apart(a, b, id) && Apart(b, c, id)
    ensures Apart(a, c, id)
  {
    NewConcat(a, b, c);
    hide FamilyOnly;
    FamilyOnlyTrans(a.runs, b.runs, c.runs, id);
    forall m | m in New(a, c)
      ensures FamilyOnly(a.runs, m.runs, id)
    {
      if m !in New(a, b) {
        assert m in New(b, c);
        FamilyOnlyTrans(a.runs, b.runs, m.runs, id);
      }
    }
  }

  /** Events that write at most the run's own row. */
  lemma ApartRow(w: World, w': World, id: string)
    requires w.trace <= w'.trace && (w'.runs == w.runs || (id in w'.runs && w'.runs == w.runs[id := w'.runs[id]]))
    requires forall m :: m in New(w, w') ==> m.runs == w.runs || (id in m.runs && m.runs == w.runs[id := m.runs[id]])
    ensures Apart(w, w', id)
  {
    hide FamilyOnly;
    FamilyOnlyRow(w.runs, w'.runs, id);
    forall m | m in New(w, w')
      ensures FamilyOnly(w.runs, m.runs, id)
    {
      FamilyOnlyRow(w.runs, m.runs, id);
    }
  }

  lemma DispatchApart(w: World, cfg: Config, id: string, d: Delivery)
    requires id in w.runs
    ensures Apart(w, Dispatch(w, cfg, id, d).0, id)
  {
    hide FamilyOnly, ExecuteRun, ExecuteOrchestration, Lawful;
    assert New(w, w) == [];
    ApartRow(w, w, id);
    if FindAgent(cfg.agents, w.runs[id].agentId).Some? {
      if IsOrchestrated(cfg, w.runs[id]) {
        OrchestrationEvents(w, cfg, id, d.planning, d.behave);
      } else {
        AttemptEvents(w, cfg.agents, cfg.maxIterations, id, d.behave(id), None);
        ApartRow(w, ExecuteRun(w, cfg.agents, cfg.maxIterations, id, d.behave(id), None).0, id);
      }
    }
  }

  lemma CountApart(w: World, id: string)
    requires id in w.runs
    ensures Apart(w, w.IncrementRunAttempts(id), id)
  {
    var w' := w.IncrementRunAttempts(id);
    assert New(w, w') == [Moment(Counted(id), w'.runs)];
    ApartRow(w, w', id);
  }

  /** The moments of a burial: the row failed, and two events. */
  lemma BuryMoments(w: World, id: string, attempt: nat, reason: string)
    ensures var w' := Bury(w, id, attempt, reason);
            && w.trace <= w'.trace && (forall m :: m in New(w, w') ==> m.runs == w'.runs)
            && (w'.runs == w.runs
                 || (id in w'.runs && w'.runs == w.runs[id := w'.runs[id]] && w'.runs[id].status == Failed
                     && id in w.runs && w'.runs[id].input == w.runs[id].input))
  {
    var w' := Bury(w, id, attempt, reason);
    if w' == w {
      assert New(w, w) == [];
    } else {
      assert New(w, w') == [Moment(Wrote(id), w'.runs), Moment(Published(RunFailed, id, "", None), w'.runs),
                            Moment(Published(RunDeadLettered, id, "", None), w'.runs)];
    }
  }

  lemma ApartSame(w: World, v: World, v': World, id: string)
    requires Apart(w, v, id) && v'.runs == v.runs && v'.trace == v.trace
    ensures Apart(w, v', id)
  {}

  lemma ProcessApart(w: World, cfg: Config, maxAttempts: int, id: string, d: Delivery)
    requires id in w.runs
    ensures Apart(w, Process(w, cfg, maxAttempts, id, d), id)
  {
    hide Apart, Dispatch, Bury;
    var w1 := w.IncrementRunAttempts(id);
    CountApart(w, id);
    DispatchApart(w1, cfg, id, d);
    var (w2, r) := Dispatch(w1, cfg, id, d);
    ApartTrans(w, w1, w2, id);
    ApartSame(w, w2, w2.Enqueue(id), id);
    var attempt, reason := w1.runs[id].attempts, if r.Err? then r.error else "";
    BuryMoments(w2, id, attempt, reason);
    ApartRow(w2, Bury(w2, id, attempt, reason), id);
    ApartTrans(w, w2, Bury(w2, id, attempt, reason), id);
  }

  // ----- What is calm for a family -----

  function FirstColon(s: string): nat {
    if s == "" || s[0] == ':' then 0 else 1 + FirstColon(s[1..])
  }

  lemma {:induction false} FirstColonIs(p: string, rest: string)
    requires TopId(p)
    ensures FirstColon(p + SEPARATOR + rest) == |p|
  {
    if p != "" {
      assert (p + SEPARATOR + rest)[1..] == p[1..] + SEPARATOR + rest;
      FirstColonIs(p[1..], rest);
    }
  }

  lemma ChildSplits(c: string, id: string)
    requires IsChildOf(c, id)
    ensures c == id + SEPARATOR + c[|id| + 2..] && ':' in c
  {
    assert c[..|id| + 2] == id + SEPARATOR;
    assert c[|id|] == (id + SEPARATOR)[|id|];
  }

  lemma OneParent(c: string, p: string, q: string)
    requires TopId(p) && TopId(q) && IsChildOf(c, p) && IsChildOf(c, q)
    ensures p == q
  {
    ChildSplits(c, p);
    ChildSplits(c, q);
    FirstColonIs(p, c[|p| + 2..]);
    FirstColonIs(q, c[|q| + 2..]);
    assert c[..|p|] == p && c[..|q|] == q;
  }

  lemma ColonFree(f: Fam, id: string, sub: string)
    requires TopId(f.parent) && TopId(id) && id != f.parent
    ensures !IsChildOf(ChildId(f.parent, sub), id) && ChildId(f.parent, sub) != id && !IsChildOf(f.parent, id)
  {
    var c := ChildId(f.parent, sub);
    IsChildId(f.parent, sub);
    ChildSplits(c, f.parent);
    if IsChildOf(c, id) { OneParent(c, f.parent, id); }
    if IsChildOf(f.parent, id) { ChildSplits(f.parent, id); }
  }

  lemma ApartIsCalm(f: Fam, a: Runs, b: Runs, id: string)
    requires TopId(f.parent) && TopId(id) && id != f.parent && FamilyOnly(a, b, id)
    ensures Calm(f, a, b)
  {
    forall i | 0 <= i < f.Len()
      ensures (AbsentAt(f, a, i) && AbsentAt(f, b, i)) || SameAt(f, a, b, i)
    {
      ColonFree(f, id, f.Sub(i));
      assert !IsChildOf(f.Id(i), id);
    }
    ColonFree(f, id, "");
    assert !IsChildOf(f.parent, id);
  }

  /** A write to the parent's row that does not make it a finished team, or leaves its result. */
  lemma OwnRowIsCalm(f: Fam, a: Runs, b: Runs)
    requires b == a || (f.parent in b && b == a[f.parent := b[f.parent]])
    requires f.parent in a ==> b[f.parent].input == a[f.parent].input
    requires TeamDone(f, b) ==>
               TeamDone(f, a) && b[f.parent].output == a[f.parent].output && b[f.parent].input == a[f.parent].input
    ensures Calm(f, a, b)
  {
    if b != a { ParentApart(f, a, b); }
  }

  lemma OtherRowIsCalm(f: Fam, a: Runs, b: Runs, id: string)
    requires TopId(f.parent) && TopId(id) && id != f.parent && id in b && b == a[id := b[id]]
    ensures Calm(f, a, b)
  {
    FamilyOnlyRow(a, b, id);
    ApartIsCalm(f, a, b, id);
  }

  /** At every moment from `w` to `w'` the family is as calm as in the end. */
  ghost predicate CalmFlow(f: Fam, w: World, w': World) {
    w.trace <= w'.trace && Calm(f, w.runs, w'.runs) && forall m :: m in New(w, w') ==> Calm(f, w.runs, m.runs)
  }

  /** Whatever the system does, other than deliver the parent, is calm for its family. */
  lemma StepElsewhere(f: Fam, w: World, cfg: Config, maxAttempts: int, op: Op)
    requires TopId(f.parent) && Balanced(w, cfg, maxAttempts) && Regular(w, op) && !(op.Deliver? && op.id == f.parent)
    ensures CalmFlow(f, w, Step(w, cfg, maxAttempts, op))
  {
    hide Calm, Process, FamilyOnly, SameElsewhere;
    var w' := Step(w, cfg, maxAttempts, op);
    SameIsCalm(f, w.runs);
    if w'.runs == w.runs && w'.trace == w.trace {
      assert New(w, w') == [];
    } else {
      assert Settled(w, cfg, maxAttempts, op.id);
      match op
      case Create(id, agentId, input) =>
        assert New(w, w') == [Moment(Created(id), w'.runs)];
        OneRowCalm(f, w.runs, w'.runs, id);
      case Requeue(id) =>
        assert New(w, w') == [Moment(Reopened(id), w'.runs)];
        OneRowCalm(f, w.runs, w'.runs, id);
      case Deliver(id, d) =>
        ProcessApart(w.TakeJob(id), cfg, maxAttempts, id, d);
        ApartIsCalm(f, w.runs, w'.runs, id);
        forall m | m in New(w, w')
          ensures Calm(f, w.runs, m.runs)
        {
          ApartIsCalm(f, w.runs, m.runs, id);
        }
    }
  }

  lemma SameIsCalm(f: Fam, a: Runs)
    ensures Calm(f, a, a)
  {
    OwnRowIsCalm(f, a, a);
  }

  lemma OneRowCalm(f: Fam, a: Runs, b: Runs, id: string)
    requires TopId(f.parent) && TopId(id) && id in b && b == a[id := b[id]] && b[id].status == Queued
    requires id in a ==> b[id].input == a[id].input
    ensures Calm(f, a, b)
  {
    if id == f.parent { OwnRowIsCalm(f, a, b); } else { OtherRowIsCalm(f, a, b, id); }
  }

  // ----- A delivery of the parent -----

  /** A delivery that does not orchestrate: the parent's row moves like any run's, to a text if it succeeds. */
  lemma PlainIsCalm(f: Fam, w: World, cfg: Config, d: Delivery)
    requires f.parent in w.runs && !IsOrchestrated(cfg, w.runs[f.parent])
    ensures CalmFlow(f, w, Dispatch(w, cfg, f.parent, d).0)
  {
    hide Calm, ExecuteRun, Lawful;
    SameIsCalm(f, w.runs);
    assert New(w, w) == [];
    if FindAgent(cfg.agents, w.runs[f.parent].agentId).Some? {
      AttemptEvents(w, cfg.agents, cfg.maxIterations, f.parent, d.behave(f.parent), None);
      var w' := ExecuteRun(w, cfg.agents, cfg.maxIterations, f.parent, d.behave(f.parent), None).0;
      OwnRowIsCalm(f, w.runs, w'.runs);
      forall m | m in New(w, w')
        ensures Calm(f, w.runs, m.runs)
      {
        OwnRowIsCalm(f, w.runs, m.runs);
      }
    }
  }

  /** At every moment from `w` to `w'` the parent is honest about a front of the chain that has not shrunk. */
  ghost predicate HonestFlow(f: Fam, w: World, w': World, n: nat, n': nat) {
    w.trace <= w'.trace && n <= n' && Honest(f, w'.runs, n') && forall m :: m in New(w, w') ==> HonestFrom(f, m.runs, n)
  }

  lemma CalmFlowHonest(f: Fam, w: World, w': World, n: nat)
    requires GoodFam(f) && Honest(f, w.runs, n) && CalmFlow(f, w, w')
    ensures HonestFlow(f, w, w', n, n)
  {
    hide Honest, Calm, GoodFam;
    CalmHonest(f, w.runs, w'.runs, n);
    forall m | m in New(w, w')
      ensures HonestFrom(f, m.runs, n)
    {
      CalmHonest(f, w.runs, m.runs, n);
    }
  }

  lemma HonestFlowTrans(f: Fam, a: World, b: World, c: World, k: nat, l: nat, m: nat)
    requires HonestFlow(f, a, b, k, l) && HonestFlow(f, b, c, l, m)
    ensures HonestFlow(f, a, c, k, m)
  {
    hide Honest;
    NewConcat(a, b, c);
    forall x | x in New(a, c)
      ensures HonestFrom(f, x.runs, k)
    {
      if x !in New(a, b) {
        assert x in New(b, c);
        var n :| l <= n && Honest(f, x.runs, n);
      }
    }
  }

  lemma SameTraceHonest(f: Fam, w: World, v: World, v': World, n: nat, n': nat)
    requires HonestFlow(f, w, v, n, n') && v'.runs == v.runs && v'.trace == v.trace
    ensures HonestFlow(f, w, v', n, n')
  {
    hide Honest;
  }

  lemma DispatchHonest(f: Fam, w: World, d: Delivery, n: nat) returns (n': nat)
    requires GoodFam(f) && Honest(f, w.runs, n) && f.parent in w.runs && Fits(f, d.planning)
    ensures HonestFlow(f, w, Dispatch(w, f.cfg, f.parent, d).0, n, n')
  {
    hide Honest, GoodFam, ExecuteOrchestration, ExecuteRun, Calm;
    n' := n;
    if IsOrchestrated(f.cfg, w.runs[f.parent]) {
      HonestChain(f, w.runs, n);
      n' := AttemptHonest(f, w, d.planning, d.behave, n);
      KeptGrows(f, w, ExecuteOrchestration(w, f.cfg, f.parent, d.planning, d.behave).0, n, n');
    } else {
      PlainIsCalm(f, w, f.cfg, d);
      CalmFlowHonest(f, w, Dispatch(w, f.cfg, f.parent, d).0, n);
    }
  }

  lemma HonestChain(f: Fam, runs: Runs, n: nat)
    requires Honest(f, runs, n)
    ensures ChainAt(f, runs, n)
  {}

  lemma KeptGrows(f: Fam, w: World, w': World, n: nat, n': nat)
    requires Kept(f, w, w', n, n')
    ensures w.trace <= w'.trace && n <= n'
  {}

  lemma CountCalm(f: Fam, w: World)
    requires f.parent in w.runs
    ensures CalmFlow(f, w, w.IncrementRunAttempts(f.parent))
  {
    hide SameChain;
    var w' := w.IncrementRunAttempts(f.parent);
    assert New(w, w') == [Moment(Counted(f.parent), w'.runs)];
    OwnRowIsCalm(f, w.runs, w'.runs);
  }

  lemma BuryCalm(f: Fam, w: World, attempt: nat, reason: string)
    ensures CalmFlow(f, w, Bury(w, f.parent, attempt, reason))
  {
    hide SameChain, Bury;
    BuryMoments(w, f.parent, attempt, reason);
    OwnRowIsCalm(f, w.runs, Bury(w, f.parent, attempt, reason).runs);
  }

  lemma ProcessHonest(f: Fam, w: World, maxAttempts: int, d: Delivery, n: nat) returns (n': nat)
    requires GoodFam(f) && Honest(f, w.runs, n) && f.parent in w.runs && Fits(f, d.planning)
    ensures HonestFlow(f, w, Process(w, f.cfg, maxAttempts, f.parent, d), n, n')
  {
    hide Honest, GoodFam, Dispatch, Bury, CalmFlow;
    var w1 := w.IncrementRunAttempts(f.parent);
    CountCalm(f, w);
    CalmFlowHonest(f, w, w1, n);
    n' := DispatchHonest(f, w1, d, n);
    var (w2, r) := Dispatch(w1, f.cfg, f.parent, d);
    HonestFlowTrans(f, w, w1, w2, n, n, n');
    SameTraceHonest(f, w, w2, w2.Enqueue(f.parent), n, n');
    var attempt, reason := w1.runs[f.parent].attempts, if r.Err? then r.error else "";
    BuryCalm(f, w2, attempt, reason);
    CalmFlowHonest(f, w2, Bury(w2, f.parent, attempt, reason), n');
    HonestFlowTrans(f, w, w2, Bury(w2, f.parent, attempt, reason), n, n', n');
  }

  // ----- Whole runs of the system -----

  /** Every delivery of the parent works off the family's order. */
  predicate FixedPlan(f: Fam, ops: seq<Op>) {
    forall k :: 0 <= k < |ops| ==> PlanKept(f, ops[k])
  }

  predicate PlanKept(f: Fam, op: Op) {
    op.Deliver? && op.id == f.parent ==> Fits(f, op.d.planning)
  }

  lemma StepHonest(f: Fam, w: World, maxAttempts: int, op: Op, n: nat) returns (n': nat)
    requires GoodFam(f) && TopId(f.parent) && Balanced(w, f.cfg, maxAttempts) && Regular(w, op) && PlanKept(f, op)
    requires Honest(f, w.runs, n)
    ensures HonestFlow(f, w, Step(w, f.cfg, maxAttempts, op), n, n')
  {
    hide Honest, GoodFam, Process, CalmFlow;
    if op.Deliver? && op.id == f.parent && w.jobs[op.id] > 0 {
      assert Settled(w, f.cfg, maxAttempts, op.id);
      n' := ProcessHonest(f, w.TakeJob(op.id), maxAttempts, op.d, n);
    } else if op.Deliver? && op.id == f.parent {
      n' := n;
      assert New(w, w) == [];
    } else {
      n' := n;
      StepElsewhere(f, w, f.cfg, maxAttempts, op);
      CalmFlowHonest(f, w, Step(w, f.cfg, maxAttempts, op), n);
    }
  }

  lemma {:induction false} StepsHonest(f: Fam, w: World, maxAttempts: int, ops: seq<Op>, n: nat) returns (n': nat)
    requires GoodFam(f) && TopId(f.parent) && Balanced(w, f.cfg, maxAttempts) && maxAttempts >= 1
    requires AllRegular(w, f.cfg, maxAttempts, ops) && FixedPlan(f, ops) && Honest(f, w.runs, n)
    ensures HonestFlow(f, w, Steps(w, f.cfg, maxAttempts, ops), n, n')
    decreases |ops|
  {
    hide Honest, GoodFam, Balanced, Step, Regular;
    if ops == [] {
      n' := n;
      assert New(w, w) == [];
    } else {
      var init, last := ops[..|ops| - 1], ops[|ops| - 1];
      var v := Steps(w, f.cfg, maxAttempts, init);
      assert forall k :: 0 <= k < |init| ==> init[k] == ops[k];
      var m := StepsHonest(f, w, maxAttempts, init, n);
      StepsBalanced(w, f.cfg, maxAttempts, init);
      assert PlanKept(f, last);
      n' := StepHonest(f, v, maxAttempts, last, m);
      HonestFlowTrans(f, w, v, Step(v, f.cfg, maxAttempts, last), n, m, n');
    }
  }

  /** The parent has no child yet and no team's result. */
  predicate Untouched(f: Fam, runs: Runs) {
    !TeamDone(f, runs) && forall i :: 0 <= i < f.Len() ==> AbsentAt(f, runs, i)
  }

  /**
   * Of every moment of every run of the system, from one where the parent has no child yet: the
   * succeeded children are a front of the fixed order, at most the next one is open, every child is run
   * by the agent of its place and asked what follows from the rows before it, debate children exist only
   * where they are called for, and if the parent reads succeeded with a team's output, that is the whole
   * truth about its children. A child that had succeeded by then is not asked again.
   */
  lemma EveryMoment(f: Fam, w: World, maxAttempts: int, ops: seq<Op>, i: nat, k: nat, q: nat)
    requires GoodFam(f) && TopId(f.parent) && Balanced(w, f.cfg, maxAttempts) && maxAttempts >= 1
             && Untouched(f, w.runs)
    requires AllRegular(w, f.cfg, maxAttempts, ops) && FixedPlan(f, ops)
    ensures var w' := Steps(w, f.cfg, maxAttempts, ops);
            && w.trace <= w'.trace
            && var seg := New(w, w');
               i <= k < |seg| ==>
                 && HonestFrom(f, seg[k].runs, 0)
                 && (q < f.Len() && DoneAt(f, After(w.runs, seg[..i]), q) ==> seg[k].event != ModelCalled(f.Id(q)))
  {
    FreshChain(f, w.runs);
    hide GoodFam, ChainAt, Balanced, Steps, AllRegular, AggregateAt;
    var n := StepsHonest(f, w, maxAttempts, ops, 0);
    var seg := New(w, Steps(w, f.cfg, maxAttempts, ops));
    if i <= k < |seg| {
      assert seg[k] in seg;
      NeverAsksAgain(w, f.cfg, maxAttempts, ops, i, k, f.Id(q));
    }
  }
}
