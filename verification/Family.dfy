/** The children of one orchestrated run as a chain. */
module Family {
  import opened Domain
  import opened Decimal
  import opened Store
  import opened Runtime
  import opened Planner
  import opened Orchestrator
  import opened Team
  import Phase

  /**
   * Planned subtasks in topological order, then review, revision, second review and so on. With a
   * fixed plan the chain is run from front to back over any number of attempts, whatever fails and
   * wherever an attempt is cut off.
   */
  datatype Fam = Fam(cfg: Config, parent: string, order: seq<Subtask>)
  {
    /** Places in the chain: the planned children and two per debate round. */
    function Len(): nat {
      |order| + 2 * cfg.debateRounds
    }

    function Sub(i: nat): string {
      if i < |order| then order[i].id
      else if (i - |order|) % 2 == 0 then ReviewId((i - |order|) / 2 + 1)
      else RevisionId((i - |order|) / 2 + 1)
    }

    function Id(i: nat): string {
      ChildId(parent, Sub(i))
    }

    /** Who takes a place: the planned type, the reviewer, or for a revision the type of the last subtask. */
    function TypeOf(i: nat): AgentType {
      if i < |order| then order[i].agentType
      else if (i - |order|) % 2 == 0 || order == [] then Reviewer
      else order[|order| - 1].agentType
    }

    function AgentOf(i: nat): Option<Agent> {
      FindByType(cfg.agents, TypeOf(i))
    }
  }

  /**
   * The planning of an attempt is the family's: its order is the family's, and more than one subtask
   * come from the planner.
   */
  predicate Fits(f: Fam, pl: Planning) {
    && pl.sorted == Ok(f.order)
    && (|f.order| > 1 ==> Orchestrated(pl) && multiset(pl.planned.value) == multiset(f.order))
  }

  /** Whatever is planned, with the order the sort promises for it. */
  lemma SortedFits(f: Fam, task: string, pl: Planning)
    requires SortedFrom(PlanOf(f.cfg, task, pl), pl.sorted) && pl.sorted == Ok(f.order)
    ensures Fits(f, pl)
  {
    hide SortOf, Acyclic, TopoOrdered, InTurn;
    var plan := PlanOf(f.cfg, task, pl);
    assert |multiset(plan)| == |plan| && |multiset(f.order)| == |f.order|;
  }

  /** A sorted plan whose ids cannot be taken for debate rounds. */
  ghost predicate GoodFam(f: Fam) {
    && f.order != [] && DistinctIds(f.order) && TopoOrdered(f.order)
    && forall t :: t in f.order ==> !Phase.IsReviewId(t.id) && !Phase.IsRevisionId(t.id)
  }

  /** Any plan without debate-shaped ids, sorted as the sort promises, makes a family. */
  lemma SortedGoodFam(cfg: Config, parent: string, plan: seq<Subtask>, order: seq<Subtask>)
    requires ValidPlan(plan) && SortedFrom(plan, Ok(order))
    requires forall t :: t in plan ==> !Phase.IsReviewId(t.id) && !Phase.IsRevisionId(t.id)
    ensures GoodFam(Fam(cfg, parent, order))
  {
    hide Phase.IsReviewId, Phase.IsRevisionId, SortOf, TopoOrdered, Acyclic, InTurn;
    assert forall t :: t in order ==> t in multiset(order);
    assert forall t :: t in plan <==> t in multiset(plan);
    PermutationDistinct(plan, order);
  }

  lemma PermutationDistinct(plan: seq<Subtask>, order: seq<Subtask>)
    requires DistinctIds(plan) && multiset(order) == multiset(plan)
    ensures DistinctIds(order) && |order| == |plan|
  {
    assert |multiset(order)| == |order| && |multiset(plan)| == |plan|;
    DistinctIdsCount(plan);
    DistinctIdsCount(order);
    SameEdges(plan, order);
  }

  lemma DebateShapes(round: nat)
    requires round >= 1
    ensures Phase.IsReviewId(ReviewId(round)) && Phase.IsRevisionId(RevisionId(round))
    ensures ReviewId(round)[2] != ReviewId(round)[3] && |RevisionId(round)| > 3 && RevisionId(round)[3] != 'i'
  {
    if round > 1 { assert ReviewId(round)[6..] == ToString(round); }
    assert RevisionId(round)[3..] == ToString(round);
  }

  lemma DebateIdsDiffer(i: nat, j: nat)
    requires 1 <= i && 1 <= j
    ensures ReviewId(i) != RevisionId(j)
    ensures i != j ==> ReviewId(i) != ReviewId(j) && RevisionId(i) != RevisionId(j)
  {
    assert ReviewId(i)[3] == 'i';
    assert RevisionId(j)[3] == ToString(j)[0] && IsDigit(ToString(j)[0]);
    if i != j {
      if ToString(i) == ToString(j) { ToStringInjective(i, j); }
      assert RevisionId(i)[3..] == ToString(i) && RevisionId(j)[3..] == ToString(j);
      assert i > 1 ==> ReviewId(i)[6..] == ToString(i);
      assert j > 1 ==> ReviewId(j)[6..] == ToString(j);
    }
  }

  lemma SubInjective(f: Fam, i: nat, j: nat)
    requires GoodFam(f) && i < j < f.Len()
    ensures f.Sub(i) != f.Sub(j)
  {
    hide ReviewId, RevisionId, Phase.IsReviewId, Phase.IsRevisionId, TopoOrdered;
    var n := |f.order|;
    if j >= n {
      var r := (j - n) / 2 + 1;
      DebateShapes(r);
      if i < n {
        assert f.order[i] in f.order;
      } else {
        var q := (i - n) / 2 + 1;
        DebateIdsDiffer(q, r);
        DebateIdsDiffer(r, q);
        assert (i - n) % 2 == (j - n) % 2 ==> q != r;
      }
    }
  }

  lemma IdInjective(f: Fam, i: nat, j: nat)
    requires GoodFam(f) && i < f.Len() && j < f.Len() && i != j
    ensures f.Id(i) != f.Id(j)
  {
    if j < i {
      IdInjective(f, j, i);
    } else {
      SubInjective(f, i, j);
      var k := |f.parent + SEPARATOR|;
      assert f.Id(i)[k..] == f.Sub(i) && f.Id(j)[k..] == f.Sub(j);
    }
  }

  // ----- The invariant -----

  predicate DoneAt(f: Fam, runs: Runs, i: nat) {
    f.Id(i) in runs && runs[f.Id(i)].status == Succeeded && RealAnswer(runs[f.Id(i)])
  }

  predicate AbsentAt(f: Fam, runs: Runs, i: nat) {
    f.Id(i) !in runs
  }

  function OutputAt(f: Fam, runs: Runs, subtask: string): Output {
    var id := ChildId(f.parent, subtask);
    if id in runs then runs[id].output else Undefined
  }

  /** The stored outputs of a planned child's dependencies. */
  function DepOutputs(f: Fam, runs: Runs, i: nat): map<string, Output>
    requires i < |f.order|
  {
    map d | d in f.order[i].dependsOn :: OutputAt(f, runs, d)
  }

  /** The task the parent was given. */
  function Task(f: Fam, runs: Runs): string {
    if f.parent in runs then runs[f.parent].input.prompt else ""
  }

  /** The place of the j-th contribution: planned children, then the revisions. */
  function PlaceOf(f: Fam, j: nat): nat {
    if j < |f.order| then j else |f.order| + 2 * (j - |f.order|) + 1
  }

  /** What the child at a place has contributed: its stored output, under the name of its agent. */
  function StoredAt(f: Fam, runs: Runs, i: nat): Contribution {
    StoredAs(f, runs, f.Sub(i), f.TypeOf(i))
  }

  function StoredAs(f: Fam, runs: Runs, subtask: string, t: AgentType): Contribution {
    var agent := FindByType(f.cfg.agents, t);
    Contribution(subtask, t, if agent.Some? then agent.value.name else "", OutputAt(f, runs, subtask))
  }

  /** The first `k` contributions as they are stored. */
  function Drafts(f: Fam, runs: Runs, k: nat): (r: seq<Contribution>)
    ensures |r| == k
  {
    seq(k, j requires 0 <= j => StoredAt(f, runs, PlaceOf(f, j)))
  }

  /** A team debates: more than one subtask, none for a reviewer, a reviewer there, and rounds to spend. */
  predicate Debating(f: Fam) {
    && |f.order| > 1 && f.cfg.debateRounds >= 1
    && (forall t :: t in f.order ==> t.agentType != Reviewer)
    && exists agent :: agent in f.cfg.agents && agent.agentType == Reviewer
  }

  /** In terms of the planning: that the plan is the planner's is what more than one subtask means. */
  lemma DebatingMeans(f: Fam, task: string, pl: Planning)
    requires SortedFrom(PlanOf(f.cfg, task, pl), pl.sorted) && pl.sorted == Ok(f.order)
    ensures Debating(f) <==>
              && Orchestrated(pl) && |pl.planned.value| > 1 && f.cfg.debateRounds >= 1
              && (forall t :: t in pl.planned.value ==> t.agentType != Reviewer)
              && exists agent :: agent in f.cfg.agents && agent.agentType == Reviewer
  {
    hide SortOf, Acyclic, TopoOrdered, InTurn;
    var plan := PlanOf(f.cfg, task, pl);
    assert |multiset(plan)| == |plan| && |multiset(f.order)| == |f.order|;
    assert forall t :: t in plan <==> t in multiset(plan);
    assert forall t :: t in f.order <==> t in multiset(f.order);
  }

  /**
   * A debate place is called for: the first review by the team, a revision by the stored review if the
   * last subtask's agent is there, and a later review by the revision before it.
   */
  predicate CalledFor(f: Fam, runs: Runs, i: nat)
    requires |f.order| <= i
  {
    if i == |f.order| then Debating(f)
    else if (i - |f.order|) % 2 == 0 then true
    else f.cfg.needsRework(OutputAt(f, runs, f.Sub(i - 1))) && f.AgentOf(i).Some?
  }

  /** A review is asked about all contributions so far, a revision about the last one and the review of it. */
  function DebatePrompt(f: Fam, runs: Runs, i: nat): string
    requires |f.order| <= i
  {
    var drafts := Drafts(f, runs, |f.order| + (i - |f.order|) / 2);
    if (i - |f.order|) % 2 == 0 || drafts == [] then f.cfg.reviewPrompt(Task(f, runs), drafts)
    else f.cfg.revisionPrompt(Task(f, runs), drafts[|drafts| - 1].output, OutputAt(f, runs, f.Sub(i - 1)))
  }

  /** The prompt of a place follows from the rows before it. */
  predicate Asked(f: Fam, runs: Runs, i: nat, prompt: string) {
    if i < |f.order| then prompt == ComposePrompt(f.cfg, f.order[i], DepOutputs(f, runs, i))
    else f.parent in runs && CalledFor(f, runs, i) && prompt == DebatePrompt(f, runs, i)
  }

  predicate PromptAt(f: Fam, runs: Runs, i: nat) {
    f.Id(i) in runs ==> Asked(f, runs, i, runs[f.Id(i)].input.prompt)
  }

  /**
   * The first `n` places of the chain have succeeded with a real answer, the next one is queued or
   * running if it exists, and nothing beyond it exists.
   */
  ghost predicate Shape(f: Fam, runs: Runs, n: nat) {
    && n <= f.Len()
    && (forall i :: 0 <= i < n ==> DoneAt(f, runs, i))
    && (forall i :: n < i < f.Len() ==> AbsentAt(f, runs, i))
    && (n < f.Len() && f.Id(n) in runs ==> Phase.IsActive(runs[f.Id(n)]))
  }

  /** A child row says which place of the chain it is, and is run by the place's agent. */
  predicate TagAt(f: Fam, runs: Runs, i: nat) {
    f.Id(i) in runs ==>
      var run := runs[f.Id(i)];
      && f.AgentOf(i).Some? && run.agentId == f.AgentOf(i).value.id
      && run.parent == Some(f.parent) && run.input == RunInput(run.input.prompt, false, true, Some(f.Sub(i)))
  }

  /** The chain has its shape, every child its tag and its prompt, and debate places were called for. */
  ghost predicate ChainAt(f: Fam, runs: Runs, n: nat) {
    && Shape(f, runs, n)
    && (forall i :: 0 <= i < f.Len() ==> TagAt(f, runs, i))
    && (forall i :: 0 <= i < f.Len() ==> PromptAt(f, runs, i))
  }

  ghost predicate Chain(f: Fam, runs: Runs, lo: nat) {
    exists n :: lo <= n && ChainAt(f, runs, n)
  }

  /** One place of the chain may be created, or move by a row step. */
  ghost predicate MoveAt(f: Fam, a: Runs, b: Runs, i: nat, base: Run) {
    && i < f.Len()
    && ChildMoves(a, b, f.Id(i), base)
    && (f.Id(i) in a ==> base == a[f.Id(i)])
    && (f.Id(i) !in a ==>
          && f.AgentOf(i).Some? && base == ChildRow(f.AgentOf(i).value, base.input.prompt, f.parent, f.Sub(i))
          && Asked(f, a, i, base.input.prompt))
  }

  /** Dependencies of a planned child stand before it in the chain. */
  lemma DepBefore(f: Fam, i: nat, d: string)
    requires GoodFam(f) && i < |f.order| && d in f.order[i].dependsOn
    ensures exists j :: 0 <= j < i && f.order[j].id == d
  {
    var t :| t in f.order[..i] && t.id == d;
    var j :| 0 <= j < i && f.order[..i][j] == t;
    assert f.order[j].id == d;
  }

  /** The places before `i` have the outputs they had, and the parent its task. */
  ghost predicate BeforeSame(f: Fam, a: Runs, b: Runs, i: nat) {
    && (forall q :: 0 <= q < i ==> OutputAt(f, b, f.Sub(q)) == OutputAt(f, a, f.Sub(q)))
    && TaskKept(f, a, b)
  }

  predicate TaskKept(f: Fam, a: Runs, b: Runs) {
    f.parent in a ==> f.parent in b && b[f.parent].input == a[f.parent].input
  }

  /** What a place is asked depends on nothing else. */
  lemma AskedKept(f: Fam, a: Runs, b: Runs, i: nat, prompt: string)
    requires GoodFam(f) && BeforeSame(f, a, b, i) && Asked(f, a, i, prompt)
    ensures Asked(f, b, i, prompt)
  {
    if i < |f.order| {
      hide GoodFam, DebatePrompt, CalledFor, BeforeSame, DepOutputs;
      DepsSame(f, a, b, i);
    } else {
      hide GoodFam, DebatePrompt, CalledFor, BeforeSame, DepOutputs;
      DebateSame(f, a, b, i);
    }
  }

  lemma DebateSame(f: Fam, a: Runs, b: Runs, i: nat)
    requires BeforeSame(f, a, b, i) && |f.order| <= i && f.parent in a
    ensures f.parent in b && CalledFor(f, b, i) == CalledFor(f, a, i) && DebatePrompt(f, b, i) == DebatePrompt(f, a, i)
  {
    hide StoredAt, Drafts, Debating, Fam.Sub, Fam.TypeOf, Fam.AgentOf, OutputAt;
    SameDrafts(f, a, b, i, |f.order| + (i - |f.order|) / 2);
    assert i > |f.order| ==> OutputAt(f, b, f.Sub(i - 1)) == OutputAt(f, a, f.Sub(i - 1));
  }

  lemma SameDrafts(f: Fam, a: Runs, b: Runs, n: nat, k: nat)
    requires BeforeSame(f, a, b, n) && forall j :: 0 <= j < k ==> PlaceOf(f, j) < n
    ensures Drafts(f, b, k) == Drafts(f, a, k)
  {
    hide Fam.Sub, Fam.TypeOf, OutputAt;
    forall j | 0 <= j < k
      ensures StoredAt(f, b, PlaceOf(f, j)) == StoredAt(f, a, PlaceOf(f, j))
    {}
  }

  lemma DepsSame(f: Fam, a: Runs, b: Runs, i: nat)
    requires GoodFam(f) && i < |f.order| && BeforeSame(f, a, b, i)
    ensures DepOutputs(f, b, i) == DepOutputs(f, a, i)
  {
    hide GoodFam;
    forall d | d in f.order[i].dependsOn
      ensures OutputAt(f, b, d) == OutputAt(f, a, d)
    {
      DepBefore(f, i, d);
      var j :| 0 <= j < i && f.order[j].id == d;
      assert f.Sub(j) == d;
    }
  }

  /** A move at a place leaves the places before it and the parent alone. */
  lemma MoveBefore(f: Fam, a: Runs, b: Runs, i: nat, k: nat)
    requires GoodFam(f) && k <= i < f.Len() && f.Id(i) in b && b == a[f.Id(i) := b[f.Id(i)]]
    ensures BeforeSame(f, a, b, k)
  {
    hide GoodFam, ChildId;
    forall q | 0 <= q < k
      ensures OutputAt(f, b, f.Sub(q)) == OutputAt(f, a, f.Sub(q))
    {
      IdInjective(f, q, i);
    }
    IsChildId(f.parent, f.Sub(i));
  }

  /** The place reached after a move at `i`. */
  function Reached(f: Fam, b: Runs, i: nat, n: nat): nat {
    if i == n && f.Id(i) in b && b[f.Id(i)].status == Succeeded then n + 1 else n
  }

  lemma MoveElsewhere(f: Fam, a: Runs, b: Runs, i: nat, k: nat, base: Run)
    requires GoodFam(f) && MoveAt(f, a, b, i, base) && k < f.Len() && k != i
    ensures DoneAt(f, b, k) == DoneAt(f, a, k) && AbsentAt(f, b, k) == AbsentAt(f, a, k)
            && TagAt(f, b, k) == TagAt(f, a, k)
  {
    hide PromptAt, Asked, RealAnswer, GoodFam;
    IdInjective(f, k, i);
  }

  lemma ShapeMove(f: Fam, a: Runs, b: Runs, n: nat, base: Run)
    requires GoodFam(f) && ChainAt(f, a, n) && MoveAt(f, a, b, n, base)
    ensures Shape(f, b, Reached(f, b, n, n))
  {
    hide PromptAt, Asked, GoodFam;
    forall k | 0 <= k < f.Len() && k != n
      ensures DoneAt(f, b, k) == DoneAt(f, a, k) && AbsentAt(f, b, k) == AbsentAt(f, a, k)
    {
      MoveElsewhere(f, a, b, n, k, base);
    }
    assert DoneAt(f, b, n) || Phase.IsActive(b[f.Id(n)]);
    if n + 1 < f.Len() { assert AbsentAt(f, a, n + 1) && AbsentAt(f, b, n + 1); }
  }

  lemma ChainMove(f: Fam, a: Runs, b: Runs, i: nat, n: nat, base: Run)
    requires GoodFam(f) && ChainAt(f, a, n) && i <= n && MoveAt(f, a, b, i, base)
    ensures ChainAt(f, b, Reached(f, b, i, n))
  {
    hide PromptAt, Asked, GoodFam;
    if i < n {
      assert DoneAt(f, a, i);
      assert b == a;
    } else {
      ShapeMove(f, a, b, n, base);
      forall k | 0 <= k < f.Len()
        ensures TagAt(f, b, k)
      {
        assert TagAt(f, a, k);
        if k != n { MoveElsewhere(f, a, b, n, k, base); }
      }
      forall k | 0 <= k < f.Len()
        ensures PromptAt(f, b, k)
      {
        MovePrompt(f, a, b, n, k, base);
      }
    }
  }

  lemma MovePrompt(f: Fam, a: Runs, b: Runs, n: nat, k: nat, base: Run)
    requires GoodFam(f) && ChainAt(f, a, n) && MoveAt(f, a, b, n, base) && k < f.Len()
    ensures PromptAt(f, b, k)
  {
    hide Asked, GoodFam;
    assert PromptAt(f, a, k);
    if k <= n {
      MoveBefore(f, a, b, n, k);
      var prompt := if f.Id(k) in a then a[f.Id(k)].input.prompt else base.input.prompt;
      if Asked(f, a, k, prompt) { AskedKept(f, a, b, k, prompt); }
    } else {
      assert AbsentAt(f, a, k);
    }
    if k != n { IdInjective(f, k, n); }
  }

  // ----- Attempts along the chain -----

  predicate SameAt(f: Fam, a: Runs, b: Runs, q: nat) {
    f.Id(q) in a && f.Id(q) in b && a[f.Id(q)] == b[f.Id(q)]
  }

  predicate SameOutput(f: Fam, a: Runs, b: Runs, q: nat) {
    f.Id(q) in a && f.Id(q) in b && a[f.Id(q)].output == b[f.Id(q)].output
  }

  /** The first `n` places keep their stored outputs, and the parent its task. */
  ghost predicate FrontSame(f: Fam, a: Runs, b: Runs, n: nat) {
    TaskKept(f, a, b) && SameOutputs(f, a, b, n)
  }

  ghost predicate SameOutputs(f: Fam, a: Runs, b: Runs, n: nat) {
    forall q :: 0 <= q < n ==> SameOutput(f, a, b, q)
  }

  /** From `w` to `w'` every write keeps the chain, whose succeeded front only grows. */
  ghost predicate Kept(f: Fam, w: World, w': World, n: nat, n': nat) {
    && w.trace <= w'.trace
    && n <= n' && ChainAt(f, w'.runs, n') && FrontSame(f, w.runs, w'.runs, n)
    && forall m :: m in New(w, w') ==> Chain(f, m.runs, n)
  }

  lemma KeptRefl(f: Fam, w: World, n: nat)
    requires ChainAt(f, w.runs, n)
    ensures Kept(f, w, w, n, n)
  {
    assert New(w, w) == [];
    forall q | 0 <= q < n
      ensures SameOutput(f, w.runs, w.runs, q)
    {
      assert DoneAt(f, w.runs, q);
    }
  }

  lemma ChainWeaker(f: Fam, runs: Runs, lo: nat, hi: nat)
    requires Chain(f, runs, hi) && lo <= hi
    ensures Chain(f, runs, lo)
  {
    hide ChainAt;
    var n :| hi <= n && ChainAt(f, runs, n);
  }

  lemma KeptTrans(f: Fam, a: World, b: World, c: World, k: nat, l: nat, m: nat)
    requires Kept(f, a, b, k, l) && Kept(f, b, c, l, m)
    ensures Kept(f, a, c, k, m)
  {
    hide ChainAt, Chain;
    NewConcat(a, b, c);
    forall q | 0 <= q < k
      ensures SameOutput(f, a.runs, c.runs, q)
    {
      assert SameOutput(f, a.runs, b.runs, q) && SameOutput(f, b.runs, c.runs, q);
    }
    forall x | x in New(b, c)
      ensures Chain(f, x.runs, k)
    {
      ChainWeaker(f, x.runs, k, l);
    }
  }

  /** An event that writes no row. */
  lemma KeptSee(f: Fam, w: World, w': World, n: nat, n': nat, e: Event)
    requires Kept(f, w, w', n, n')
    ensures Kept(f, w, w'.See(e), n, n')
  {
    hide ChainAt;
    assert New(w, w'.See(e)) == New(w, w') + [Moment(e, w'.runs)];
    assert Chain(f, w'.runs, n);
  }

  /** The row a place starts from, and the agent and the prompt it must have if it is new. */
  ghost predicate PlaceReady(f: Fam, runs: Runs, i: nat, n: nat, agent: Agent, prompt: string) {
    && ChainAt(f, runs, n) && i <= n && i < f.Len()
    && (f.Id(i) !in runs ==> f.AgentOf(i) == Some(agent) && Asked(f, runs, i, prompt))
  }

  lemma PlaceRun(f: Fam, w: World, i: nat, n: nat, agent: Agent, prompt: string, behave: Behaviour) returns (n': nat)
    requires GoodFam(f) && PlaceReady(f, w.runs, i, n, agent, prompt)
    ensures var (w', r) := RunChild(w, f.cfg, f.parent, f.Sub(i), agent, prompt, behave);
            && Kept(f, w, w', n, n') && f.Id(i) in w'.runs
            && (if r.Ok? then i < n' else i == n')
  {
    hide GoodFam, Asked, ChainAt, RunChild, FrontSame;
    var (w', r) := RunChild(w, f.cfg, f.parent, f.Sub(i), agent, prompt, behave);
    var base := BaseRow(w, agent, prompt, f.parent, f.Sub(i));
    RunChildEvents(w, f.cfg, f.parent, f.Sub(i), agent, prompt, behave);
    n' := Reached(f, w'.runs, i, n);
    PlaceMoved(f, w.runs, w'.runs, i, n, agent, prompt, base);
    MoveFront(f, w.runs, w'.runs, i, n, base);
    forall m | m in New(w, w')
      ensures Chain(f, m.runs, n)
    {
      PlaceMoved(f, w.runs, m.runs, i, n, agent, prompt, base);
    }
    PlaceEnds(f, w.runs, w'.runs, i, n, base);
  }

  /** The place is passed exactly if its row has become terminal. */
  lemma PlaceEnds(f: Fam, a: Runs, b: Runs, i: nat, n: nat, base: Run)
    requires GoodFam(f) && ChainAt(f, a, n) && i <= n && MoveAt(f, a, b, i, base)
    ensures IsTerminal(b[f.Id(i)].status) <==> i < Reached(f, b, i, n)
  {
    hide Asked, PromptAt, TagAt, GoodFam;
    if i < n { assert DoneAt(f, a, i); }
  }

  lemma PlaceMoved(f: Fam, a: Runs, b: Runs, i: nat, n: nat, agent: Agent, prompt: string, base: Run)
    requires GoodFam(f) && PlaceReady(f, a, i, n, agent, prompt) && ChildMoves(a, b, f.Id(i), base)
    requires base == if f.Id(i) in a then a[f.Id(i)] else ChildRow(agent, prompt, f.parent, f.Sub(i))
    ensures ChainAt(f, b, Reached(f, b, i, n)) && Chain(f, b, n) && MoveAt(f, a, b, i, base)
  {
    hide GoodFam, Asked, ChainAt;
    ChainMove(f, a, b, i, n, base);
  }

  lemma MoveFront(f: Fam, a: Runs, b: Runs, i: nat, n: nat, base: Run)
    requires GoodFam(f) && ChainAt(f, a, n) && i <= n && MoveAt(f, a, b, i, base)
    ensures FrontSame(f, a, b, n)
  {
    hide GoodFam, Asked, PromptAt, TagAt;
    forall q | 0 <= q < n
      ensures SameOutput(f, a, b, q)
    {
      assert DoneAt(f, a, q);
      if q != i { IdInjective(f, q, i); }
    }
    MoveBefore(f, a, b, i, 0);
  }

  // ----- What the attempt has collected -----

  /** A contribution is what the succeeded child at its place has stored. */
  predicate ContributionAt(f: Fam, runs: Runs, n: nat, c: Contribution, place: nat) {
    place < n && f.Id(place) in runs && c == StoredAt(f, runs, place)
  }

  ghost predicate Contributed(f: Fam, runs: Runs, n: nat, cs: seq<Contribution>) {
    forall j :: 0 <= j < |cs| ==> ContributionAt(f, runs, n, cs[j], PlaceOf(f, j))
  }

  lemma ContributedAre(f: Fam, runs: Runs, n: nat, cs: seq<Contribution>)
    requires Contributed(f, runs, n, cs)
    ensures cs == Drafts(f, runs, |cs|)
  {
    assert forall j :: 0 <= j < |cs| ==> ContributionAt(f, runs, n, cs[j], PlaceOf(f, j));
  }

  /** The outputs of the first `k` planned children. */
  ghost predicate OutputsAt(f: Fam, runs: Runs, k: nat, outputs: map<string, Output>)
    requires k <= |f.order|
  {
    && outputs.Keys == Ids(f.order[..k])
    && forall d :: d in outputs ==> outputs[d] == OutputAt(f, runs, d)
  }

  lemma ContributedKept(f: Fam, a: Runs, b: Runs, n: nat, n': nat, cs: seq<Contribution>)
    requires Contributed(f, a, n, cs) && SameOutputs(f, a, b, n) && n <= n'
    ensures Contributed(f, b, n', cs)
  {
    forall j | 0 <= j < |cs|
      ensures ContributionAt(f, b, n', cs[j], PlaceOf(f, j))
    {
      assert ContributionAt(f, a, n, cs[j], PlaceOf(f, j));
      assert SameOutput(f, a, b, PlaceOf(f, j));
    }
  }

  lemma OutputsKept(f: Fam, a: Runs, b: Runs, n: nat, k: nat, outputs: map<string, Output>)
    requires k <= |f.order| && k <= n && OutputsAt(f, a, k, outputs) && SameOutputs(f, a, b, n)
    ensures OutputsAt(f, b, k, outputs)
  {
    forall d | d in outputs
      ensures outputs[d] == OutputAt(f, b, d)
    {
      var t :| t in f.order[..k] && t.id == d;
      var j :| 0 <= j < k && f.order[..k][j] == t;
      assert SameOutput(f, a, b, j) && f.Id(j) == ChildId(f.parent, d);
    }
  }

  lemma {:induction false} ContextAgrees(cfg: Config, deps: seq<string>, some: map<string, Output>,
                                         others: map<string, Output>)
    requires forall d :: d in deps ==> Look(some, d) == Look(others, d)
    ensures ContextLines(cfg, deps, some) == ContextLines(cfg, deps, others)
    decreases |deps|
  {
    if deps != [] {
      ContextAgrees(cfg, deps[1..], some, others);
      assert deps[0] in deps;
    }
  }

  /** The prompt composed from what was collected is the one composed from what is stored. */
  lemma PromptFromStored(f: Fam, runs: Runs, k: nat, outputs: map<string, Output>)
    requires GoodFam(f) && k < |f.order| && OutputsAt(f, runs, k, outputs)
    ensures ComposePrompt(f.cfg, f.order[k], outputs) == ComposePrompt(f.cfg, f.order[k], DepOutputs(f, runs, k))
  {
    forall d | d in f.order[k].dependsOn
      ensures Look(outputs, d) == Look(DepOutputs(f, runs, k), d)
    {
      assert d in Ids(f.order[..k]);
    }
    ContextAgrees(f.cfg, f.order[k].dependsOn, outputs, DepOutputs(f, runs, k));
  }

  lemma PlaceDone(f: Fam, runs: Runs, i: nat, n: nat)
    requires ChainAt(f, runs, n) && i < n
    ensures i < f.Len() && f.Id(i) in runs && runs[f.Id(i)].status == Succeeded
  {
    assert DoneAt(f, runs, i);
  }

  /** A planned child run at its turn. */
  lemma SubtaskStep(f: Fam, w: World, k: nat, n: nat, pr: Progress, behave: Behaviour) returns (n': nat)
    requires GoodFam(f) && ChainAt(f, w.runs, n) && k <= n && k < |f.order|
    requires OutputsAt(f, w.runs, k, pr.outputs) && |pr.contributions| == k
             && Contributed(f, w.runs, n, pr.contributions)
    ensures var (w', r) := RunSubtask(w, f.cfg, f.parent, f.order[k], pr.outputs, behave);
            && Kept(f, w, w', n, n')
            && (r.Ok? ==> k < n' && ContributionAt(f, w'.runs, n', r.value, k))
  {
    hide Kept, ChainAt, GoodFam, ComposePrompt, Contributed, OutputsAt, DepOutputs;
    var t := f.order[k];
    n' := n;
    KeptRefl(f, w, n);
    var agent := FindByType(f.cfg.agents, t.agentType);
    if agent.Some? {
      var prompt := ComposePrompt(f.cfg, t, pr.outputs);
      PromptFromStored(f, w.runs, k, pr.outputs);
      n' := PlaceRun(f, w, k, n, agent.value, prompt, behave);
      var (w1, r) := RunChild(w, f.cfg, f.parent, t.id, agent.value, prompt, behave);
      KeptParts(f, w, w1, n, n');
      if r.Ok? { PlaceDone(f, w1.runs, k, n'); }
      KeptSee(f, w, w1, n, n', Published(SubtaskFailed, f.parent, "", None));
      KeptSee(f, w, w1, n, n', Published(SubtaskSucceeded, f.parent, "", None));
    }
  }

  lemma Collect(f: Fam, a: Runs, b: Runs, k: nat, n: nat, n': nat, pr: Progress, c: Contribution)
    requires k < |f.order| && k <= n <= n' && SameOutputs(f, a, b, n)
    requires OutputsAt(f, a, k, pr.outputs) && |pr.contributions| == k && Contributed(f, a, n, pr.contributions)
    requires ContributionAt(f, b, n', c, k)
    ensures OutputsAt(f, b, k + 1, pr.outputs[f.order[k].id := c.output])
    ensures Contributed(f, b, n', pr.contributions + [c])
  {
    ContributedKept(f, a, b, n, n', pr.contributions);
    OutputsKept(f, a, b, n, k, pr.outputs);
    assert f.order[..k + 1] == f.order[..k] + [f.order[k]];
    assert Ids(f.order[..k + 1]) == Ids(f.order[..k]) + {f.order[k].id} by {
      assert forall t :: t in f.order[..k] ==> t in f.order[..k + 1];
      assert f.order[k] in f.order[..k + 1];
    }
  }

  lemma {:induction false} SubtasksRun(f: Fam, w: World, k: nat, n: nat, pr: Progress, behave: Behaviour)
      returns (n': nat)
    requires GoodFam(f) && ChainAt(f, w.runs, n) && k <= n && k <= |f.order|
    requires OutputsAt(f, w.runs, k, pr.outputs) && |pr.contributions| == k
             && Contributed(f, w.runs, n, pr.contributions)
    ensures var (w', r) := RunSubtasks(w, f.cfg, f.parent, f.order[k..], pr, behave);
            && Kept(f, w, w', n, n')
            && (r.Ok? ==> |f.order| <= n' && OutputsAt(f, w'.runs, |f.order|, r.value.outputs)
                          && |r.value.contributions| == |f.order| && Contributed(f, w'.runs, n', r.value.contributions))
    decreases |f.order| - k
  {
    hide ChainAt, GoodFam, Contributed, OutputsAt, RunSubtask;
    if k == |f.order| {
      n' := n;
      KeptRefl(f, w, n);
    } else {
      var t := f.order[k];
      assert f.order[k..][0] == t && f.order[k..][1..] == f.order[k + 1..];
      var n1 := SubtaskStep(f, w, k, n, pr, behave);
      var (w1, r) := RunSubtask(w, f.cfg, f.parent, t, pr.outputs, behave);
      n' := n1;
      if r.Ok? {
        var pr1 := Progress(pr.outputs[t.id := r.value.output], pr.contributions + [r.value]);
        assert f.Sub(k) == t.id;
        Collect(f, w.runs, w1.runs, k, n, n1, pr, r.value);
        n' := SubtasksRun(f, w1, k + 1, n1, pr1, behave);
        KeptTrans(f, w, w1, RunSubtasks(w1, f.cfg, f.parent, f.order[k + 1..], pr1, behave).0, n, n1, n');
      }
    }
  }

  // ----- The debate -----

  /** The last review stored before the round, if there was a round. */
  function ReviewBefore(f: Fam, runs: Runs, round: nat): Option<Contribution> {
    if round <= 1 then None else Some(StoredAt(f, runs, |f.order| + 2 * (round - 2)))
  }

  /** The debate has ended: the next place is not called for, or was tried. */
  ghost predicate Ended(f: Fam, runs: Runs, n: nat) {
    |f.order| <= n && (n < f.Len() ==> f.Id(n) in runs || !CalledFor(f, runs, n))
  }

  /** How many contributions and which review `n` finished places leave behind. */
  function Count(f: Fam, n: nat): nat
    requires |f.order| <= n
  {
    |f.order| + (n - |f.order|) / 2
  }

  function LastReview(f: Fam, runs: Runs, n: nat): Option<Contribution>
    requires |f.order| <= n
  {
    if n == |f.order| then None else Some(StoredAt(f, runs, |f.order| + 2 * ((n - |f.order| - 1) / 2)))
  }

  /** The talk when the debate has ended: everything that is stored, and nothing more to say. */
  ghost predicate Complete(f: Fam, runs: Runs, n: nat, talk: Talk) {
    Ended(f, runs, n) && |talk.contributions| == Count(f, n) && talk.review == LastReview(f, runs, n)
  }

  ghost predicate ReviewAt(f: Fam, runs: Runs, n: nat, c: Contribution) {
    exists q: nat :: ContributionAt(f, runs, n, c, |f.order| + 2 * q)
  }

  /** Every contribution is stored, and the draft under discussion is the last of them. */
  ghost predicate Told(f: Fam, runs: Runs, n: nat, talk: Talk) {
    && |f.order| <= |talk.contributions| && talk.contributions != []
    && Contributed(f, runs, n, talk.contributions)
    && talk.summary == talk.contributions[|talk.contributions| - 1].output
    && (talk.review.Some? ==> ReviewAt(f, runs, n, talk.review.value))
  }

  lemma ReviewKept(f: Fam, a: Runs, b: Runs, n: nat, n': nat, c: Contribution)
    requires ReviewAt(f, a, n, c) && SameOutputs(f, a, b, n) && n <= n'
    ensures ReviewAt(f, b, n', c)
  {
    hide Fam.Sub, Fam.AgentOf, Fam.TypeOf;
    var q: nat :| ContributionAt(f, a, n, c, |f.order| + 2 * q);
    assert SameOutput(f, a, b, |f.order| + 2 * q);
    assert ContributionAt(f, b, n', c, |f.order| + 2 * q);
  }

  lemma ToldKept(f: Fam, a: Runs, b: Runs, n: nat, n': nat, talk: Talk)
    requires Told(f, a, n, talk) && SameOutputs(f, a, b, n) && n <= n'
    ensures Told(f, b, n', talk)
  {
    ContributedKept(f, a, b, n, n', talk.contributions);
    if talk.review.Some? { ReviewKept(f, a, b, n, n', talk.review.value); }
  }

  /** A debate child fails if and only if its place is not passed. */
  lemma ContributeStep(f: Fam, w: World, i: nat, n: nat, agent: Agent, prompt: string, behave: Behaviour)
      returns (n': nat)
    requires GoodFam(f) && |f.order| <= i && PlaceReady(f, w.runs, i, n, agent, prompt) && f.AgentOf(i) == Some(agent)
    ensures var (w', c) := Contribute(w, f.cfg, f.parent, f.Sub(i), agent, prompt, f.TypeOf(i), behave);
            && Kept(f, w, w', n, n') && f.Id(i) in w'.runs
            && (if c.Some? then i < n' && ContributionAt(f, w'.runs, n', c.value, i) else i == n')
  {
    hide Kept, ChainAt, GoodFam, Asked, PlaceReady, Fam.TypeOf;
    n' := PlaceRun(f, w, i, n, agent, prompt, behave);
    var (w1, r) := RunChild(w, f.cfg, f.parent, f.Sub(i), agent, prompt, behave);
    KeptParts(f, w, w1, n, n');
    if r.Ok? { PlaceDone(f, w1.runs, i, n'); }
    KeptSee(f, w, w1, n, n', Published(SubtaskSucceeded, f.parent, "", None));
  }

  lemma PlacesOfRound(f: Fam, round: nat)
    requires 1 <= round <= f.cfg.debateRounds
    ensures var i := |f.order| + 2 * (round - 1);
            && i + 1 < f.Len() && f.Sub(i) == ReviewId(round) && f.Sub(i + 1) == RevisionId(round)
            && f.TypeOf(i) == Reviewer
            && (f.order != [] ==> f.TypeOf(i + 1) == f.order[|f.order| - 1].agentType)
            && PlaceOf(f, |f.order| + round - 1) == i + 1
            && Count(f, i) == Count(f, i + 1) == |f.order| + round - 1
  {
    hide ReviewId, RevisionId;
    var i := 2 * (round - 1);
    assert i % 2 == 0 && i / 2 + 1 == round && (i + 1) % 2 == 1 && (i + 1) / 2 + 1 == round;
  }

  lemma ReviewsOfRound(f: Fam, runs: Runs, round: nat)
    requires round >= 1
    ensures var i := |f.order| + 2 * (round - 1);
            && LastReview(f, runs, i) == ReviewBefore(f, runs, round)
            && LastReview(f, runs, i + 1) == ReviewBefore(f, runs, round + 1)
  {
    hide StoredAt;
    var k := round - 1;
    assert k > 0 ==> (2 * k - 1) / 2 == k - 1;
    assert (2 * k) / 2 == k;
  }

  lemma KeptParts(f: Fam, w: World, w': World, n: nat, n': nat)
    requires Kept(f, w, w', n, n')
    ensures n <= n' && ChainAt(f, w'.runs, n') && FrontSame(f, w.runs, w'.runs, n) && SameOutputs(f, w.runs, w'.runs, n)
  {
  }

  /** The review of a round is asked about everything said so far. */
  lemma ReviewAsked(f: Fam, runs: Runs, n: nat, task: string, round: nat, talk: Talk)
    requires GoodFam(f) && 1 <= round <= f.cfg.debateRounds && Told(f, runs, n, talk)
    requires |talk.contributions| == |f.order| + round - 1 && f.parent in runs && task == Task(f, runs)
    requires round == 1 ==> Debating(f)
    ensures Asked(f, runs, |f.order| + 2 * (round - 1), f.cfg.reviewPrompt(task, talk.contributions))
  {
    hide Debating, StoredAt, GoodFam, Drafts, Contributed, ReviewAt, Fam.Sub, Fam.TypeOf, Fam.AgentOf, Task, OutputAt;
    var k := round - 1;
    assert (2 * k) % 2 == 0 && (2 * k) / 2 == k;
    ContributedAre(f, runs, n, talk.contributions);
  }

  /** The revision is asked about the draft and the review of it. */
  lemma RevisionAsked(f: Fam, runs: Runs, n: nat, task: string, round: nat, talk: Talk, review: Contribution)
    requires GoodFam(f) && 1 <= round <= f.cfg.debateRounds && Told(f, runs, n, talk)
    requires |talk.contributions| == |f.order| + round - 1 && f.parent in runs && task == Task(f, runs)
    requires ContributionAt(f, runs, n, review, |f.order| + 2 * (round - 1)) && f.cfg.needsRework(review.output)
    requires FindByType(f.cfg.agents, f.order[|f.order| - 1].agentType).Some?
    ensures Asked(f, runs, |f.order| + 2 * (round - 1) + 1, f.cfg.revisionPrompt(task, talk.summary, review.output))
  {
    hide Debating, Contributed, ReviewAt, ContributionAt, Drafts, StoredAt, CalledFor, ReviewBefore, Fam.Sub,
         Fam.TypeOf, Fam.AgentOf, Fam.Id, OutputAt, Task, DistinctIds, TopoOrdered;
    var i := |f.order| + 2 * (round - 1) + 1;
    ContributedAre(f, runs, n, talk.contributions);
    ReviewKnown(f, runs, n, round, talk, review);
    ReviewOutput(f, runs, n, review, i - 1);
    RevisionPrompt(f, runs, round);
  }

  lemma RevisionPrompt(f: Fam, runs: Runs, round: nat)
    requires 1 <= round && f.order != []
    ensures var i := |f.order| + 2 * (round - 1) + 1;
            var drafts := Drafts(f, runs, |f.order| + round - 1);
            DebatePrompt(f, runs, i) == f.cfg.revisionPrompt(Task(f, runs), drafts[|drafts| - 1].output,
                                                             OutputAt(f, runs, f.Sub(i - 1)))
  {
    hide StoredAt, OutputAt, Fam.Sub;
    var k := 2 * (round - 1) + 1;
    assert k % 2 == 1 && k / 2 == round - 1;
  }

  lemma ReviewOutput(f: Fam, runs: Runs, n: nat, review: Contribution, place: nat)
    requires ContributionAt(f, runs, n, review, place)
    ensures review.output == OutputAt(f, runs, f.Sub(place))
  {}

  lemma AddReview(f: Fam, runs: Runs, n: nat, talk: Talk, c: Contribution, q: nat)
    requires Told(f, runs, n, talk) && ContributionAt(f, runs, n, c, |f.order| + 2 * q)
    ensures Told(f, runs, n, talk.(review := Some(c)))
  {
    hide ContributionAt, Contributed;
    assert ReviewAt(f, runs, n, c);
  }

  lemma AddRevision(f: Fam, runs: Runs, n: nat, talk: Talk, c: Contribution)
    requires Told(f, runs, n, talk) && ContributionAt(f, runs, n, c, PlaceOf(f, |talk.contributions|))
    ensures Told(f, runs, n, Talk(c.output, talk.contributions + [c], talk.review))
  {
    hide ContributionAt, ReviewAt;
  }

  lemma ReadyAt(f: Fam, runs: Runs, i: nat, n: nat, agent: Agent, prompt: string)
    requires ChainAt(f, runs, n) && i <= n && i < f.Len() && Asked(f, runs, i, prompt)
    requires FindByType(f.cfg.agents, f.TypeOf(i)) == Some(agent)
    ensures PlaceReady(f, runs, i, n, agent, prompt) && f.AgentOf(i) == Some(agent)
  {}

  /** Where a debate stands before a round. */
  ghost predicate RoundReady(f: Fam, runs: Runs, n: nat, task: string, round: nat, talk: Talk) {
    && ChainAt(f, runs, n) && 1 <= round <= f.cfg.debateRounds + 1 && |f.order| + 2 * (round - 1) <= n
    && Told(f, runs, n, talk) && |talk.contributions| == |f.order| + round - 1
    && talk.review == ReviewBefore(f, runs, round)
    && f.parent in runs && task == Task(f, runs) && Debating(f)
  }

  /** The review of a round. */
  lemma ReviewStep(f: Fam, w: World, n: nat, task: string, reviewer: Agent, round: nat, talk: Talk, behave: Behaviour)
      returns (n': nat)
    requires GoodFam(f) && RoundReady(f, w.runs, n, task, round, talk) && round <= f.cfg.debateRounds
    requires FindByType(f.cfg.agents, Reviewer) == Some(reviewer)
    ensures var i := |f.order| + 2 * (round - 1);
            var prompt := f.cfg.reviewPrompt(task, talk.contributions);
            var (w', c) := Contribute(w, f.cfg, f.parent, ReviewId(round), reviewer, prompt, Reviewer, behave);
            && Kept(f, w, w', n, n') && f.Id(i) in w'.runs && Told(f, w'.runs, n', talk)
            && (if c.Some? then i < n' && ContributionAt(f, w'.runs, n', c.value, i) else i == n')
  {
    hide Kept, ChainAt, GoodFam, Told, ContributionAt, Fam.Sub, Fam.TypeOf, Fam.AgentOf, Fam.Id, Contribute, FrontSame,
         Asked, Debating, ReviewBefore, Task, PlaceReady, PlaceOf, Count;
    var i, prompt := |f.order| + 2 * (round - 1), f.cfg.reviewPrompt(task, talk.contributions);
    PlacesOfRound(f, round);
    ReviewAsked(f, w.runs, n, task, round, talk);
    ReadyAt(f, w.runs, i, n, reviewer, prompt);
    n' := ContributeStep(f, w, i, n, reviewer, prompt, behave);
    var w' := Contribute(w, f.cfg, f.parent, ReviewId(round), reviewer, prompt, Reviewer, behave).0;
    KeptParts(f, w, w', n, n');
    ToldKept(f, w.runs, w'.runs, n, n', talk);
  }

  /** The revision of a round. */
  lemma RevisionStep(f: Fam, w: World, n: nat, task: string, agent: Agent, round: nat, talk: Talk,
                     review: Contribution, behave: Behaviour)
      returns (n': nat)
    requires GoodFam(f) && ChainAt(f, w.runs, n) && 1 <= round <= f.cfg.debateRounds
    requires |f.order| + 2 * (round - 1) + 1 <= n && Told(f, w.runs, n, talk)
             && |talk.contributions| == |f.order| + round - 1
    requires f.parent in w.runs && task == Task(f, w.runs) && f.cfg.needsRework(review.output)
    requires ContributionAt(f, w.runs, n, review, |f.order| + 2 * (round - 1))
    requires FindByType(f.cfg.agents, f.order[|f.order| - 1].agentType) == Some(agent)
    ensures var i := |f.order| + 2 * (round - 1) + 1;
            var t := f.order[|f.order| - 1].agentType;
            var prompt := f.cfg.revisionPrompt(task, talk.summary, review.output);
            var (w', c) := Contribute(w, f.cfg, f.parent, RevisionId(round), agent, prompt, t, behave);
            && Kept(f, w, w', n, n') && f.Id(i) in w'.runs && Told(f, w'.runs, n', talk)
            && (if c.Some? then i < n' && ContributionAt(f, w'.runs, n', c.value, i) else i == n')
  {
    hide Kept, ChainAt, Told, ContributionAt, Fam.Sub, Fam.TypeOf, Fam.AgentOf, Fam.Id, Contribute, FrontSame, Asked,
         DistinctIds, TopoOrdered, SameOutputs, Task, PlaceReady, PlaceOf, Count;
    var i, t := |f.order| + 2 * (round - 1) + 1, f.order[|f.order| - 1].agentType;
    var prompt := f.cfg.revisionPrompt(task, talk.summary, review.output);
    PlacesOfRound(f, round);
    RevisionAsked(f, w.runs, n, task, round, talk, review);
    ReadyAt(f, w.runs, i, n, agent, prompt);
    n' := ContributeStep(f, w, i, n, agent, prompt, behave);
    var w' := Contribute(w, f.cfg, f.parent, RevisionId(round), agent, prompt, t, behave).0;
    KeptParts(f, w, w', n, n');
    ToldKept(f, w.runs, w'.runs, n, n', talk);
  }

  /** A review that failed ends the debate where it stood. */
  lemma ReviewFailed(f: Fam, runs: Runs, round: nat, talk: Talk)
    requires 1 <= round <= f.cfg.debateRounds && |talk.contributions| == |f.order| + round - 1
    requires talk.review == ReviewBefore(f, runs, round) && f.Id(|f.order| + 2 * (round - 1)) in runs
    ensures Complete(f, runs, |f.order| + 2 * (round - 1), talk)
  {
    PlacesOfRound(f, round);
    ReviewsOfRound(f, runs, round);
  }

  /** So does a review that asks for nothing, or for what nobody can do. */
  lemma NothingToRevise(f: Fam, runs: Runs, n: nat, round: nat, talk: Talk)
    requires ChainAt(f, runs, n) && 1 <= round <= f.cfg.debateRounds && |talk.contributions| == |f.order| + round - 1
    requires talk.review == ReviewBefore(f, runs, round + 1) && |f.order| + 2 * (round - 1) < n
    requires !CalledFor(f, runs, |f.order| + 2 * (round - 1) + 1)
    ensures n == |f.order| + 2 * (round - 1) + 1 && Complete(f, runs, n, talk)
  {
    hide CalledFor, StoredAt, ChainAt, LastReview, ReviewBefore;
    PlacesOfRound(f, round);
    ReviewsOfRound(f, runs, round);
    NotCalledFor(f, runs, n, |f.order| + 2 * (round - 1) + 1);
  }

  /** What is not called for is not there. */
  lemma NotCalledFor(f: Fam, runs: Runs, n: nat, i: nat)
    requires ChainAt(f, runs, n) && |f.order| <= i < f.Len() && !CalledFor(f, runs, i)
    ensures f.Id(i) !in runs && n <= i
  {
    hide CalledFor, DebatePrompt, TagAt;
    assert PromptAt(f, runs, i);
    assert i < n ==> DoneAt(f, runs, i);
  }

  lemma RevisionFailed(f: Fam, runs: Runs, round: nat, talk: Talk)
    requires 1 <= round <= f.cfg.debateRounds && |talk.contributions| == |f.order| + round - 1
    requires talk.review == ReviewBefore(f, runs, round + 1) && f.Id(|f.order| + 2 * (round - 1) + 1) in runs
    ensures Complete(f, runs, |f.order| + 2 * (round - 1) + 1, talk)
  {
    PlacesOfRound(f, round);
    ReviewsOfRound(f, runs, round);
  }

  lemma TaskStays(f: Fam, a: Runs, b: Runs, n: nat)
    requires FrontSame(f, a, b, n) && f.parent in a
    ensures f.parent in b && Task(f, b) == Task(f, a)
  {}

  lemma ReviewBeforeStays(f: Fam, a: Runs, b: Runs, n: nat, round: nat)
    requires FrontSame(f, a, b, n) && (round > 1 ==> |f.order| + 2 * (round - 2) < n)
    ensures ReviewBefore(f, b, round) == ReviewBefore(f, a, round)
  {
    hide StoredAt, SameOutput;
    if round > 1 { StoredKept(f, a, b, |f.order| + 2 * (round - 2)); }
  }

  lemma StoredKept(f: Fam, a: Runs, b: Runs, q: nat)
    ensures SameOutput(f, a, b, q) ==> StoredAt(f, b, q) == StoredAt(f, a, q)
  {
    hide Fam.Sub, Fam.TypeOf, FindByType;
  }

  /** A stored review is the last one, and decides whether the revision is called for. */
  lemma ReviewKnown(f: Fam, runs: Runs, n: nat, round: nat, talk: Talk, review: Contribution)
    requires GoodFam(f) && 1 <= round <= f.cfg.debateRounds && Told(f, runs, n, talk)
    requires ContributionAt(f, runs, n, review, |f.order| + 2 * (round - 1))
    ensures ReviewBefore(f, runs, round + 1) == Some(review) && Told(f, runs, n, talk.(review := Some(review)))
    ensures CalledFor(f, runs, |f.order| + 2 * (round - 1) + 1) <==>
              f.cfg.needsRework(review.output) && FindByType(f.cfg.agents, f.order[|f.order| - 1].agentType).Some?
  {
    hide Told, Debating, CalledFor, StoredAt, Fam.Sub, DistinctIds, TopoOrdered, OutputAt;
    AddReview(f, runs, n, talk, review, round - 1);
    ReviewOutput(f, runs, n, review, |f.order| + 2 * (round - 1));
    RevisionCalled(f, runs, round);
  }

  lemma RevisionCalled(f: Fam, runs: Runs, round: nat)
    requires 1 <= round && f.order != []
    ensures var i := |f.order| + 2 * (round - 1) + 1;
            CalledFor(f, runs, i) <==> f.cfg.needsRework(OutputAt(f, runs, f.Sub(i - 1)))
                                       && FindByType(f.cfg.agents, f.order[|f.order| - 1].agentType).Some?
  {
    hide Fam.Sub, OutputAt, Debating;
    var k := 2 * (round - 1) + 1;
    assert k % 2 == 1;
  }

  /** A round either ends the debate with nothing left to say, or leaves it ready for the next round. */
  lemma RoundStep(f: Fam, w: World, n: nat, task: string, reviewer: Agent, round: nat, talk: Talk, behave: Behaviour)
      returns (n': nat)
    requires GoodFam(f) && RoundReady(f, w.runs, n, task, round, talk) && round <= f.cfg.debateRounds
    requires FindByType(f.cfg.agents, Reviewer) == Some(reviewer)
    ensures var synth := f.order[|f.order| - 1];
            var end := DebateRound(w, f.cfg, f.parent, task, reviewer, synth, FindByType(f.cfg.agents, synth.agentType),
                                   round, talk, behave);
            && Kept(f, w, end.w, n, n') && Told(f, end.w.runs, n', end.talk)
            && (end.Over? ==> Complete(f, end.w.runs, n', end.talk))
            && (end.Again? ==> RoundReady(f, end.w.runs, n', task, round + 1, end.talk))
  {
    hide Kept, ChainAt, Told, Contribute, Complete, ContributionAt, FrontSame, Task, ReviewBefore, CalledFor, Debating,
         Fam.Sub, Fam.TypeOf, Fam.AgentOf, Fam.Id, DistinctIds, TopoOrdered, SameOutputs;
    var synth := f.order[|f.order| - 1];
    var prompt := f.cfg.reviewPrompt(task, talk.contributions);
    var n1 := ReviewStep(f, w, n, task, reviewer, round, talk, behave);
    var (w1, r) := Contribute(w, f.cfg, f.parent, ReviewId(round), reviewer, prompt, Reviewer, behave);
    KeptParts(f, w, w1, n, n1);
    ReviewBeforeStays(f, w.runs, w1.runs, n, round);
    TaskStays(f, w.runs, w1.runs, n);
    n' := n1;
    if r.None? {
      ReviewFailed(f, w1.runs, round, talk);
    } else {
      var talk1 := talk.(review := r);
      ReviewKnown(f, w1.runs, n1, round, talk, r.value);
      var synthAgent := FindByType(f.cfg.agents, synth.agentType);
      if f.cfg.needsRework(r.value.output) && synthAgent.Some? {
        n' := ReviseStep(f, w1, n1, task, synthAgent.value, round, talk1, r.value, behave);
        var prompt2 := f.cfg.revisionPrompt(task, talk.summary, r.value.output);
        var w2 := Contribute(w1, f.cfg, f.parent, RevisionId(round), synthAgent.value, prompt2, synth.agentType,
            behave).0;
        KeptTrans(f, w, w1, w2, n, n1, n');
      } else {
        NothingToRevise(f, w1.runs, n1, round, talk1);
      }
    }
  }

  lemma ReviseStep(f: Fam, w: World, n: nat, task: string, agent: Agent, round: nat, talk: Talk,
                   review: Contribution, behave: Behaviour)
      returns (n': nat)
    requires GoodFam(f) && ChainAt(f, w.runs, n) && 1 <= round <= f.cfg.debateRounds && Debating(f)
    requires |f.order| + 2 * (round - 1) + 1 <= n && Told(f, w.runs, n, talk)
             && |talk.contributions| == |f.order| + round - 1
    requires f.parent in w.runs && task == Task(f, w.runs) && f.cfg.needsRework(review.output)
    requires ContributionAt(f, w.runs, n, review, |f.order| + 2 * (round - 1))
    requires talk.review == Some(review) == ReviewBefore(f, w.runs, round + 1)
    requires FindByType(f.cfg.agents, f.order[|f.order| - 1].agentType) == Some(agent)
    ensures var t := f.order[|f.order| - 1].agentType;
            var prompt := f.cfg.revisionPrompt(task, talk.summary, review.output);
            var (w', c) := Contribute(w, f.cfg, f.parent, RevisionId(round), agent, prompt, t, behave);
            && Kept(f, w, w', n, n')
            && match c
               case None => Told(f, w'.runs, n', talk) && Complete(f, w'.runs, n', talk)
               case Some(rev) =>
                 var talk1 := Talk(rev.output, talk.contributions + [rev], talk.review);
                 Told(f, w'.runs, n', talk1) && RoundReady(f, w'.runs, n', task, round + 1, talk1)
  {
    hide Kept, ChainAt, Told, Contribute, Complete, ContributionAt, FrontSame, Task, ReviewBefore, Debating, RoundReady,
         Fam.Sub, Fam.TypeOf, Fam.AgentOf, Fam.Id;
    var t := f.order[|f.order| - 1].agentType;
    var prompt := f.cfg.revisionPrompt(task, talk.summary, review.output);
    n' := RevisionStep(f, w, n, task, agent, round, talk, review, behave);
    var (w', c) := Contribute(w, f.cfg, f.parent, RevisionId(round), agent, prompt, t, behave);
    KeptParts(f, w, w', n, n');
    ReviewBeforeStays(f, w.runs, w'.runs, n, round + 1);
    TaskStays(f, w.runs, w'.runs, n);
    if c.None? {
      RevisionFailed(f, w'.runs, round, talk);
    } else {
      NextRound(f, w'.runs, n', task, round, talk, c.value);
    }
  }

  lemma NextRound(f: Fam, runs: Runs, n: nat, task: string, round: nat, talk: Talk, rev: Contribution)
    requires ChainAt(f, runs, n) && 1 <= round <= f.cfg.debateRounds && Debating(f)
    requires Told(f, runs, n, talk) && |talk.contributions| == |f.order| + round - 1
    requires talk.review == ReviewBefore(f, runs, round + 1) && f.parent in runs && task == Task(f, runs)
    requires |f.order| + 2 * (round - 1) + 1 < n && ContributionAt(f, runs, n, rev, |f.order| + 2 * (round - 1) + 1)
    ensures var talk1 := Talk(rev.output, talk.contributions + [rev], talk.review);
            Told(f, runs, n, talk1) && RoundReady(f, runs, n, task, round + 1, talk1)
  {
    hide ChainAt, Told, ContributionAt, Task, ReviewBefore, Debating;
    PlacesOfRound(f, round);
    AddRevision(f, runs, n, talk, rev);
  }

  /** Through every round the draft is the last contribution, and in the end nothing is left to say. */
  lemma {:induction false} DebateRun(f: Fam, w: World, n: nat, task: string, reviewer: Agent, round: nat, talk: Talk,
                                     behave: Behaviour) returns (n': nat)
    requires GoodFam(f) && RoundReady(f, w.runs, n, task, round, talk)
    requires FindByType(f.cfg.agents, Reviewer) == Some(reviewer)
    ensures var synth := f.order[|f.order| - 1];
            var (w', talk') := Debate(w, f.cfg, f.parent, task, reviewer, synth,
                                      FindByType(f.cfg.agents, synth.agentType), round, talk, behave);
            Kept(f, w, w', n, n') && Told(f, w'.runs, n', talk') && Complete(f, w'.runs, n', talk')
    decreases f.cfg.debateRounds + 1 - round
  {
    hide Kept, ChainAt, Told, DebateRound, Complete, RoundReady;
    var synth := f.order[|f.order| - 1];
    var synthAgent := FindByType(f.cfg.agents, synth.agentType);
    ReadyParts(f, w.runs, n, task, round, talk);
    if round > f.cfg.debateRounds {
      n' := n;
      KeptRefl(f, w, n);
    } else {
      var n1 := RoundStep(f, w, n, task, reviewer, round, talk, behave);
      var end := DebateRound(w, f.cfg, f.parent, task, reviewer, synth, synthAgent, round, talk, behave);
      n' := n1;
      if end.Again? {
        n' := DebateRun(f, end.w, n1, task, reviewer, round + 1, end.talk, behave);
        var w' := Debate(end.w, f.cfg, f.parent, task, reviewer, synth, synthAgent, round + 1, end.talk, behave).0;
        KeptTrans(f, w, end.w, w', n, n1, n');
      }
    }
  }

  /** With the rounds spent, every place is passed. */
  lemma ReadyParts(f: Fam, runs: Runs, n: nat, task: string, round: nat, talk: Talk)
    requires RoundReady(f, runs, n, task, round, talk)
    ensures ChainAt(f, runs, n) && Told(f, runs, n, talk) && round <= f.cfg.debateRounds + 1
    ensures round > f.cfg.debateRounds ==> Complete(f, runs, n, talk)
  {
    hide StoredAt, CalledFor;
    var k := round - 1;
    assert n <= f.Len();
    if round > f.cfg.debateRounds {
      assert n - |f.order| == 2 * k && (n - |f.order|) / 2 == k;
      assert k > 0 ==> (2 * k - 1) / 2 == k - 1;
    }
  }

  // ----- The whole attempt -----

  /** The stored aggregate of a finished team. */
  ghost predicate AggregateAt(f: Fam, task: string, runs: Runs, n: nat, out: Output) {
    && out.Team?
    && OutputsAt(f, runs, |f.order|, out.subtasks)
    && |f.order| <= |out.contributions| <= |f.order| + f.cfg.debateRounds && out.contributions != []
    && Contributed(f, runs, n, out.contributions)
    && out.summary == out.contributions[|out.contributions| - 1].output
    && ((out.review == Undefined && out.report == f.cfg.teamReport(task, out.contributions, None))
        || exists c :: ReviewAt(f, runs, n, c) && out.review == c.output
                       && out.report == f.cfg.teamReport(task, out.contributions, Some(c)))
  }

  /**
   * What a finished team must have stored, read off the rows: all contributions of planned children and
   * finished revisions, the last of them as summary, and the last finished review; and the debate has
   * ended where it should.
   */
  ghost predicate WholeTruth(f: Fam, runs: Runs, n: nat, out: Output) {
    && Ended(f, runs, n) && f.order != []
    && var (cs, review) := (Drafts(f, runs, Count(f, n)), LastReview(f, runs, n));
       && cs != []
       && out == Team(cs[|cs| - 1].output, f.cfg.teamReport(Task(f, runs), cs, review), cs,
                      if review.Some? then review.value.output else Undefined,
                      map d | d in Ids(f.order) :: OutputAt(f, runs, d))
  }

  lemma ToldAggregate(f: Fam, task: string, runs: Runs, n: nat, talk: Talk, pr: Progress)
    requires Told(f, runs, n, talk) && OutputsAt(f, runs, |f.order|, pr.outputs) && Complete(f, runs, n, talk)
    requires n <= f.Len() && f.order != [] && task == Task(f, runs)
    ensures var out := Aggregate(f.cfg, task, talk, pr);
            AggregateAt(f, task, runs, n, out) && WholeTruth(f, runs, n, out)
  {
    hide ReviewAt, Ended, Drafts, LastReview, Contributed, OutputsAt, Task, Ids;
    ContributedAre(f, runs, n, talk.contributions);
    CountWithin(f, runs, n);
    AllOutputs(f, runs, pr.outputs);
  }

  lemma CountWithin(f: Fam, runs: Runs, n: nat)
    requires Ended(f, runs, n) && n <= f.Len()
    ensures |f.order| <= n && Count(f, n) <= |f.order| + f.cfg.debateRounds
  {}

  lemma AllOutputs(f: Fam, runs: Runs, outputs: map<string, Output>)
    requires OutputsAt(f, runs, |f.order|, outputs)
    ensures outputs == map d | d in Ids(f.order) :: OutputAt(f, runs, d)
  {
    assert f.order[..|f.order|] == f.order;
  }

  /** Before any debate the draft is the last planned child's output. */
  lemma FirstDraft(f: Fam, runs: Runs, n: nat, pr: Progress)
    requires GoodFam(f) && OutputsAt(f, runs, |f.order|, pr.outputs)
    requires |pr.contributions| == |f.order| && Contributed(f, runs, n, pr.contributions)
    ensures Told(f, runs, n, Talk(Look(pr.outputs, f.order[|f.order| - 1].id), pr.contributions, None))
  {
    var k := |f.order| - 1;
    assert f.order[..|f.order|] == f.order && f.order[k] in f.order;
    assert ContributionAt(f, runs, n, pr.contributions[k], PlaceOf(f, k));
  }

  /** Who may not debate has no debate child, and nothing left to say. */
  lemma NoDebate(f: Fam, runs: Runs, n: nat, talk: Talk)
    requires ChainAt(f, runs, n) && |f.order| <= n && !Debating(f)
    requires |talk.contributions| == |f.order| && talk.review == None
    ensures n == |f.order| && Complete(f, runs, n, talk)
  {
    hide StoredAt, Debating, ChainAt;
    ChainWithin(f, runs, n);
    if f.Len() > |f.order| { NotCalledFor(f, runs, n, |f.order|); }
  }

  /** The code holds a debate exactly if the family is one that debates. */
  lemma WhoDebates(f: Fam, task: string, pl: Planning)
    requires Fits(f, pl)
    ensures Debating(f) <==>
              && f.cfg.debateRounds >= 1 && Orchestrated(pl) && |f.order| > 1
              && !(exists t :: t in PlanOf(f.cfg, task, pl) && t.agentType == Reviewer)
              && FindByType(f.cfg.agents, Reviewer).Some?
  {
    if |f.order| > 1 {
      var plan := pl.planned.value;
      assert forall t :: t in plan <==> t in multiset(plan);
      assert forall t :: t in f.order <==> t in multiset(f.order);
    }
  }

  lemma TalkRun(f: Fam, w: World, n: nat, task: string, pl: Planning, pr: Progress, behave: Behaviour)
      returns (n': nat)
    requires GoodFam(f) && ChainAt(f, w.runs, n) && |f.order| <= n && OutputsAt(f, w.runs, |f.order|, pr.outputs)
    requires |pr.contributions| == |f.order| && Contributed(f, w.runs, n, pr.contributions)
    requires Fits(f, pl) && f.parent in w.runs && task == Task(f, w.runs)
    ensures var (w', talk) := MaybeDebate(w, f.cfg, f.parent, task, PlanOf(f.cfg, task, pl), Orchestrated(pl),
                                          f.order[|f.order| - 1], pr, behave);
            var out := Aggregate(f.cfg, task, talk, pr);
            Kept(f, w, w', n, n') && AggregateAt(f, task, w'.runs, n', out) && WholeTruth(f, w'.runs, n', out)
  {
    hide Kept, ChainAt, Told, Contributed, OutputsAt, AggregateAt, WholeTruth, PlanOf, Orchestrated, Complete, Fits,
         Task;
    var synth := f.order[|f.order| - 1];
    var talk := Talk(Look(pr.outputs, synth.id), pr.contributions, None);
    FirstDraft(f, w.runs, n, pr);
    var plan := PlanOf(f.cfg, task, pl);
    var (w', talk') := MaybeDebate(w, f.cfg, f.parent, task, plan, Orchestrated(pl), synth, pr, behave);
    n' := n;
    KeptRefl(f, w, n);
    WhoDebates(f, task, pl);
    if Debating(f) {
      var reviewer := FindByType(f.cfg.agents, Reviewer).value;
      n' := DebateRun(f, w, n, task, reviewer, 1, talk, behave);
    } else {
      NoDebate(f, w.runs, n, talk);
    }
    KeptParts(f, w, w', n, n');
    TaskStays(f, w.runs, w'.runs, n);
    OutputsKept(f, w.runs, w'.runs, n, |f.order|, pr.outputs);
    ChainWithin(f, w'.runs, n');
    ToldAggregate(f, task, w'.runs, n', talk', pr);
  }

  lemma ChainWithin(f: Fam, runs: Runs, n: nat)
    requires ChainAt(f, runs, n)
    ensures n <= f.Len()
  {}

  lemma TeamWorkRun(f: Fam, w: World, n: nat, task: string, pl: Planning, behave: Behaviour) returns (n': nat)
    requires GoodFam(f) && ChainAt(f, w.runs, n) && Fits(f, pl) && f.parent in w.runs && task == Task(f, w.runs)
    ensures var (w', r) := TeamWork(w, f.cfg, f.parent, task, pl, behave);
            && Kept(f, w, w', n, n')
            && (r.Ok? ==> |f.order| <= n' && AggregateAt(f, task, w'.runs, n', r.value)
                          && WholeTruth(f, w'.runs, n', r.value))
  {
    hide Kept, ChainAt, Told, AggregateAt, WholeTruth, RunSubtasks, MaybeDebate, PlanOf, Task;
    var start := Progress(map[], []);
    assert f.order[..0] == [] && f.order[0..] == f.order;
    var n1 := SubtasksRun(f, w, 0, n, start, behave);
    var (w1, r) := RunSubtasks(w, f.cfg, f.parent, f.order, start, behave);
    n' := n1;
    if r.Ok? {
      KeptParts(f, w, w1, n, n1);
      TaskStays(f, w.runs, w1.runs, n);
      var plan := PlanOf(f.cfg, task, pl);
      n' := TalkRun(f, w1, n1, task, pl, r.value, behave);
      var w2 := MaybeDebate(w1, f.cfg, f.parent, task, plan, Orchestrated(pl), f.order[|f.order| - 1], r.value,
          behave).0;
      KeptParts(f, w1, w2, n1, n');
      KeptTrans(f, w, w1, w2, n, n1, n');
    }
  }

  /** The rows of the chain are the same, and the parent's task. */
  ghost predicate SameChain(f: Fam, a: Runs, b: Runs) {
    TaskKept(f, a, b) && forall i :: 0 <= i < f.Len() ==> (AbsentAt(f, a, i) && AbsentAt(f, b, i)) || SameAt(f, a, b, i)
  }

  lemma ChainElsewhere(f: Fam, a: Runs, b: Runs, n: nat)
    requires GoodFam(f) && ChainAt(f, a, n) && SameChain(f, a, b)
    ensures ChainAt(f, b, n) && FrontSame(f, a, b, n)
  {
    hide Asked, RealAnswer, GoodFam;
    forall i | 0 <= i < f.Len()
      ensures DoneAt(f, b, i) == DoneAt(f, a, i) && AbsentAt(f, b, i) == AbsentAt(f, a, i)
              && TagAt(f, b, i) == TagAt(f, a, i)
    {
      assert SameAt(f, a, b, i) || AbsentAt(f, a, i);
    }
    forall i | 0 <= i < f.Len()
      ensures PromptAt(f, b, i)
    {
      assert PromptAt(f, a, i);
      assert SameAt(f, a, b, i) || (AbsentAt(f, a, i) && AbsentAt(f, b, i));
      PlacesElsewhere(f, a, b, i);
      if f.Id(i) in a { AskedKept(f, a, b, i, a[f.Id(i)].input.prompt); }
    }
    forall q | 0 <= q < n
      ensures SameOutput(f, a, b, q)
    {
      assert DoneAt(f, a, q) && SameAt(f, a, b, q);
    }
    assert n < f.Len() ==> SameAt(f, a, b, n) || AbsentAt(f, b, n);
    assert forall i :: 0 <= i < n ==> DoneAt(f, b, i);
  }

  lemma PlacesElsewhere(f: Fam, a: Runs, b: Runs, i: nat)
    requires SameChain(f, a, b) && i <= f.Len()
    ensures BeforeSame(f, a, b, i)
  {
    forall q | 0 <= q < i
      ensures OutputAt(f, b, f.Sub(q)) == OutputAt(f, a, f.Sub(q))
    {
      assert SameAt(f, a, b, q) || (AbsentAt(f, a, q) && AbsentAt(f, b, q));
    }
  }

  lemma ParentApart(f: Fam, a: Runs, b: Runs)
    requires f.parent in b && b == a[f.parent := b[f.parent]] && TaskKept(f, a, b)
    ensures SameChain(f, a, b)
  {
    forall i | 0 <= i < f.Len()
      ensures (AbsentAt(f, a, i) && AbsentAt(f, b, i)) || SameAt(f, a, b, i)
    {
      IsChildId(f.parent, f.Sub(i));
    }
  }

  /** Writes of the parent's own row. */
  lemma ParentWritesKept(f: Fam, w: World, w': World, n: nat)
    requires GoodFam(f) && ChainAt(f, w.runs, n) && w.trace <= w'.trace
    requires f.parent in w'.runs && w'.runs == w.runs[f.parent := w'.runs[f.parent]] && TaskKept(f, w.runs, w'.runs)
    requires forall m :: m in New(w, w') ==> m.runs == w'.runs
    ensures Kept(f, w, w', n, n)
  {
    hide ChainAt, GoodFam, FrontSame;
    ParentApart(f, w.runs, w'.runs);
    ChainElsewhere(f, w.runs, w'.runs, n);
    assert Chain(f, w'.runs, n);
  }

  /**
   * One attempt with a fixed plan, from any state the earlier ones left: every write keeps the
   * chain, the succeeded front only grows, and a success stores the aggregate of finished children.
   */
  lemma AttemptKeepsChain(f: Fam, w: World, pl: Planning, behave: Behaviour, n: nat) returns (n': nat)
    requires GoodFam(f) && ChainAt(f, w.runs, n) && Fits(f, pl) && f.parent in w.runs
    ensures var (w', r) := ExecuteOrchestration(w, f.cfg, f.parent, pl, behave);
            && Kept(f, w, w', n, n')
            && (r.Ok? && !IsTerminal(w.runs[f.parent].status) ==>
                  && f.parent in w'.runs && w'.runs[f.parent].status == Succeeded
                  && |f.order| <= n'
                  && AggregateAt(f, w.runs[f.parent].input.prompt, w'.runs, n', w'.runs[f.parent].output)
                  && WholeTruth(f, w'.runs, n', w'.runs[f.parent].output))
  {
    hide Kept, ChainAt, GoodFam, AggregateAt, WholeTruth, Fits, TeamWork, Flows, SameElsewhere, FamilyOnly;
    var run := w.runs[f.parent];
    n' := n;
    KeptRefl(f, w, n);
    if !IsTerminal(run.status) {
      ParentBegin(w, f.parent);
      var w1 := if run.status == Running then w else w.UpdateRunStatus(f.parent, Running, NoPatch);
      var w2 := w1.Publish(Planned, f.parent);
      FlowsGrow(w, w2);
      ParentWritesKept(f, w, w2, n);
      KeptParts(f, w, w2, n, n);
      n' := TeamWorkRun(f, w2, n, run.input.prompt, pl, behave);
      var (w3, r) := TeamWork(w2, f.cfg, f.parent, run.input.prompt, pl, behave);
      KeptTrans(f, w, w2, w3, n, n, n');
      TeamWorkFlow(w2, f.cfg, f.parent, run.input.prompt, pl, behave);
      ParentKept(w2.runs, w3.runs, f.parent);
      var w' := ExecuteOrchestration(w, f.cfg, f.parent, pl, behave).0;
      ParentEnd(w3, w', f.parent, r);
      FlowsGrow(w3, w');
      KeptParts(f, w2, w3, n, n');
      ParentWritesKept(f, w3, w', n');
      KeptTrans(f, w, w3, w', n, n', n');
      if r.Ok? {
        AggregateKept(f, run.input.prompt, w3.runs, w'.runs, n', r.value);
        ParentApart(f, w3.runs, w'.runs);
        ChainWithin(f, w3.runs, n');
        TruthElsewhere(f, w3.runs, w'.runs, n', r.value);
      }
    }
  }

  lemma FlowsGrow(w: World, w': World)
    requires Flows(w, w')
    ensures w.trace <= w'.trace
  {
  }

  lemma AggregateKept(f: Fam, task: string, a: Runs, b: Runs, n: nat, out: Output)
    requires GoodFam(f) && ChainAt(f, a, n) && |f.order| <= n && AggregateAt(f, task, a, n, out)
    requires f.parent in b && b == a[f.parent := b[f.parent]] && TaskKept(f, a, b)
    ensures AggregateAt(f, task, b, n, out)
  {
    hide ChainAt, GoodFam, SameOutputs, Contributed, OutputsAt, ReviewAt;
    ParentApart(f, a, b);
    ChainElsewhere(f, a, b, n);
    AggregateFront(f, task, a, b, n, n, out);
  }

  /** While nothing happens to the chain, the whole truth stays what it is. */
  lemma TruthElsewhere(f: Fam, a: Runs, b: Runs, n: nat, out: Output)
    requires GoodFam(f) && WholeTruth(f, a, n, out) && SameChain(f, a, b) && f.parent in a && n <= f.Len()
    ensures WholeTruth(f, b, n, out)
  {
    hide GoodFam, Debating, CalledFor, StoredAt, Drafts, LastReview, SameChain, BeforeSame, OutputAt;
    EndedElsewhere(f, a, b, n);
    SameDrafts(f, a, b, n, Count(f, n));
    forall d | d in Ids(f.order)
      ensures OutputAt(f, b, d) == OutputAt(f, a, d)
    {
      SameOutputOf(f, a, b, d);
    }
  }

  lemma SameOutputOf(f: Fam, a: Runs, b: Runs, d: string)
    requires SameChain(f, a, b) && d in Ids(f.order)
    ensures OutputAt(f, b, d) == OutputAt(f, a, d)
  {
    var t :| t in f.order && t.id == d;
    var q :| 0 <= q < |f.order| && f.order[q] == t;
    PlacesElsewhere(f, a, b, f.Len());
    assert f.Sub(q) == d;
  }

  lemma EndedElsewhere(f: Fam, a: Runs, b: Runs, n: nat)
    requires Ended(f, a, n) && SameChain(f, a, b) && f.parent in a && n <= f.Len()
    ensures Ended(f, b, n) && Task(f, b) == Task(f, a) && LastReview(f, b, n) == LastReview(f, a, n)
    ensures BeforeSame(f, a, b, n)
  {
    hide Debating, FindByType;
    PlacesElsewhere(f, a, b, n);
    assert n < f.Len() ==> SameAt(f, a, b, n) || (AbsentAt(f, a, n) && AbsentAt(f, b, n));
  }

  /** A stored aggregate stays true while its children are untouched. */
  lemma AggregateFront(f: Fam, task: string, a: Runs, b: Runs, n: nat, n': nat, out: Output)
    requires AggregateAt(f, task, a, n, out) && |f.order| <= n <= n' && SameOutputs(f, a, b, n)
    ensures AggregateAt(f, task, b, n', out)
  {
    hide SameOutputs, Contributed, OutputsAt, ReviewAt;
    ContributedKept(f, a, b, n, n', out.contributions);
    OutputsKept(f, a, b, n, |f.order|, out.subtasks);
    if c :| ReviewAt(f, a, n, c) && out.review == c.output
            && out.report == f.cfg.teamReport(task, out.contributions, Some(c)) {
      ReviewKept(f, a, b, n, n', c);
    }
  }

  /** A run that was never orchestrated has an empty chain. */
  lemma FreshChain(f: Fam, runs: Runs)
    requires forall i :: 0 <= i < f.Len() ==> AbsentAt(f, runs, i)
    ensures ChainAt(f, runs, 0)
  {
    assert forall i :: 0 <= i < f.Len() && AbsentAt(f, runs, i) ==> PromptAt(f, runs, i);
    assert forall i :: 0 <= i < f.Len() && AbsentAt(f, runs, i) ==> TagAt(f, runs, i);
    assert f.Len() > 0 ==> AbsentAt(f, runs, 0);
  }

  // ----- What a debate has come to -----

  predicate HasSucceeded(runs: Runs, id: string) {
    id in runs && runs[id].status == Succeeded
  }

  lemma PassedAt(f: Fam, runs: Runs, n: nat, i: nat)
    requires ChainAt(f, runs, n) && i < f.Len()
    ensures HasSucceeded(runs, f.Id(i)) <==> i < n
    ensures f.Id(i) in runs ==> i <= n
  {
    hide RealAnswer, TagAt, PromptAt;
    assert i < n ==> DoneAt(f, runs, i);
    assert i > n ==> AbsentAt(f, runs, i);
  }

  /** A debate place exists exactly if the one before it has succeeded and it is called for. */
  lemma PlaceExact(f: Fam, runs: Runs, n: nat, i: nat)
    requires ChainAt(f, runs, n) && Ended(f, runs, n) && |f.order| <= i < f.Len()
    ensures f.Id(i) in runs <==> (i > |f.order| ==> HasSucceeded(runs, f.Id(i - 1))) && CalledFor(f, runs, i)
  {
    hide CalledFor, ChainAt, Fam.Id, HasSucceeded;
    PassedAt(f, runs, n, i);
    if i > |f.order| { PassedAt(f, runs, n, i - 1); }
    if !CalledFor(f, runs, i) { NotCalledFor(f, runs, n, i); }
    if i < n { PassedIsThere(f, runs, n, i); }
  }

  lemma PassedIsThere(f: Fam, runs: Runs, n: nat, i: nat)
    requires ChainAt(f, runs, n) && i < n
    ensures f.Id(i) in runs
  {
    assert DoneAt(f, runs, i);
  }

  function Review(f: Fam, round: nat): string {
    ChildId(f.parent, ReviewId(round))
  }

  function Revision(f: Fam, round: nat): string {
    ChildId(f.parent, RevisionId(round))
  }

  /**
   * Who has spoken when a team is finished: the first review if the team debates, a revision if its
   * round's review succeeded, asked for it and the last subtask's agent is there, and a later review if
   * the revision before it succeeded; and nobody else.
   */
  lemma DebateExact(f: Fam, runs: Runs, n: nat, out: Output, round: nat)
    requires GoodFam(f) && ChainAt(f, runs, n) && WholeTruth(f, runs, n, out) && 1 <= round <= f.cfg.debateRounds
    ensures Review(f, 1) in runs <==> Debating(f)
    ensures Revision(f, round) in runs <==>
              && HasSucceeded(runs, Review(f, round)) && f.cfg.needsRework(runs[Review(f, round)].output)
              && exists agent :: agent in f.cfg.agents && agent.agentType == f.order[|f.order| - 1].agentType
    ensures round < f.cfg.debateRounds ==>
              (Review(f, round + 1) in runs <==> HasSucceeded(runs, Revision(f, round)))
  {
    hide Debating, ChainAt, ReviewId, RevisionId, DebatePrompt, StoredAt, GoodFam;
    var i := |f.order| + 2 * (round - 1);
    PlacesOfRound(f, 1);
    PlaceExact(f, runs, n, |f.order|);
    PlacesOfRound(f, round);
    PlaceExact(f, runs, n, i + 1);
    if round < f.cfg.debateRounds {
      PlacesOfRound(f, round + 1);
      PlaceExact(f, runs, n, i + 2);
    }
  }

  /** How many reviews and revisions `n` finished places are. */
  lemma RoundsPassed(f: Fam, runs: Runs, n: nat, r: nat)
    requires ChainAt(f, runs, n) && |f.order| <= n && 1 <= r <= f.cfg.debateRounds
    ensures HasSucceeded(runs, Revision(f, r)) <==> r <= (n - |f.order|) / 2
    ensures HasSucceeded(runs, Review(f, r)) <==> r <= (n - |f.order| + 1) / 2
  {
    hide ChainAt, ReviewId, RevisionId;
    PlacesOfRound(f, r);
    PassedAt(f, runs, n, |f.order| + 2 * (r - 1));
    PassedAt(f, runs, n, |f.order| + 2 * (r - 1) + 1);
  }

  lemma DraftIs(f: Fam, runs: Runs, k: nat, j: nat)
    requires f.order != [] && |f.order| <= k <= |f.order| + f.cfg.debateRounds && j < k
    ensures Drafts(f, runs, k)[j] == if j < |f.order| then StoredAs(f, runs, f.order[j].id, f.order[j].agentType)
                                     else StoredAs(f, runs, RevisionId(j - |f.order| + 1),
                                                   f.order[|f.order| - 1].agentType)
  {
    hide StoredAs, ReviewId, RevisionId;
    if j >= |f.order| { PlacesOfRound(f, j - |f.order| + 1); }
  }

  lemma ReviewIs(f: Fam, runs: Runs, n: nat)
    requires |f.order| <= n <= f.Len()
    ensures var v := (n - |f.order| + 1) / 2;
            LastReview(f, runs, n) == if v == 0 then None else Some(StoredAs(f, runs, ReviewId(v), Reviewer))
  {
    hide StoredAs, ReviewId, RevisionId;
    var v := (n - |f.order| + 1) / 2;
    if v > 0 {
      PlacesOfRound(f, v);
      ReviewsOfRound(f, runs, v);
      ReviewsOfRound(f, runs, v + 1);
      assert n == |f.order| + 2 * (v - 1) + 1 || n == |f.order| + 2 * v;
    }
  }

  /**
   * What a finished team has stored: the planned children's contributions in order, then those of the
   * `k` revisions that succeeded, the last of all as summary, and the last of the `v` reviews that
   * succeeded.
   */
  lemma DebateStored(f: Fam, runs: Runs, n: nat, out: Output) returns (k: nat, v: nat)
    requires GoodFam(f) && ChainAt(f, runs, n) && WholeTruth(f, runs, n, out)
    ensures forall r :: 1 <= r <= f.cfg.debateRounds ==>
              && (HasSucceeded(runs, Revision(f, r)) <==> r <= k)
              && (HasSucceeded(runs, Review(f, r)) <==> r <= v)
    ensures k <= f.cfg.debateRounds && v <= f.cfg.debateRounds
    ensures out.Team? && |out.contributions| == |f.order| + k
    ensures forall j :: 0 <= j < |f.order| + k ==>
              out.contributions[j] == if j < |f.order| then StoredAs(f, runs, f.order[j].id, f.order[j].agentType)
                                      else StoredAs(f, runs, RevisionId(j - |f.order| + 1),
                                                    f.order[|f.order| - 1].agentType)
    ensures out.summary == out.contributions[|out.contributions| - 1].output
    ensures out.review == if v == 0 then Undefined else OutputAt(f, runs, ReviewId(v))
  {
    hide Ended, ChainAt, ReviewId, RevisionId, GoodFam, Drafts, LastReview, HasSucceeded, OutputAt;
    ChainWithin(f, runs, n);
    EndedPast(f, runs, n);
    k := (n - |f.order|) / 2;
    v := (n - |f.order| + 1) / 2;
    forall r | 1 <= r <= f.cfg.debateRounds
      ensures (HasSucceeded(runs, Revision(f, r)) <==> r <= k) && (HasSucceeded(runs, Review(f, r)) <==> r <= v)
    {
      RoundsPassed(f, runs, n, r);
    }
    forall j | 0 <= j < |f.order| + k
      ensures out.contributions[j] == if j < |f.order| then StoredAs(f, runs, f.order[j].id, f.order[j].agentType)
                                      else StoredAs(f, runs, RevisionId(j - |f.order| + 1),
                                                    f.order[|f.order| - 1].agentType)
    {
      DraftIs(f, runs, |f.order| + k, j);
    }
    ReviewIs(f, runs, n);
  }

  lemma EndedPast(f: Fam, runs: Runs, n: nat)
    requires Ended(f, runs, n)
    ensures |f.order| <= n
  {}

  // ----- The phase -----

  function Rows(f: Fam, runs: Runs, places: seq<nat>): seq<Run>
    requires forall i :: 0 <= i < |places| ==> f.Id(places[i]) in runs
  {
    if places == [] then [] else Rows(f, runs, places[..|places| - 1]) + [runs[f.Id(places[|places| - 1])]]
  }

  lemma {:induction false} RowsAt(f: Fam, runs: Runs, places: seq<nat>)
    requires forall i :: 0 <= i < |places| ==> f.Id(places[i]) in runs
    ensures |Rows(f, runs, places)| == |places|
    ensures forall i :: 0 <= i < |places| ==> Rows(f, runs, places)[i] == runs[f.Id(places[i])]
  {
    if places != [] { RowsAt(f, runs, places[..|places| - 1]); }
  }

  /** A listing of the family's children, in any order. */
  ghost predicate Listing(f: Fam, runs: Runs, places: seq<nat>) {
    && (forall i :: 0 <= i < |places| ==> places[i] < f.Len() && f.Id(places[i]) in runs)
    && (forall i, j :: 0 <= i < j < |places| ==> places[i] != places[j])
    && (forall p :: 0 <= p < f.Len() && f.Id(p) in runs ==> p in places)
  }

  function PhaseOfPlace(f: Fam, p: nat): Phase.TeamPhase {
    if p < |f.order| then Phase.Working
    else if (p - |f.order|) % 2 == 0 then Phase.Reviewing
    else Phase.Revising
  }

  /**
   * While the parent runs, the derived phase is that of the one active place, in whatever order
   * the children are listed; without children it is the planning phase.
   */
  lemma PhaseTellsPlace(f: Fam, runs: Runs, n: nat, places: seq<nat>, parent: Run)
    requires GoodFam(f) && ChainAt(f, runs, n) && Listing(f, runs, places) && parent.status == Running
    ensures Phase.DeriveTeamPhase(parent, Rows(f, runs, places)) ==
            if places == [] then Phase.Analyzing
            else if n < f.Len() && f.Id(n) in runs then PhaseOfPlace(f, n)
            else Phase.Working
  {
    hide GoodFam, PromptAt, RealAnswer;
    var rows := Rows(f, runs, places);
    RowsAt(f, runs, places);
    forall i | 0 <= i < |rows| && places[i] != n
      ensures !Phase.IsActive(rows[i])
    {
      assert places[i] < n ==> DoneAt(f, runs, places[i]);
      assert places[i] > n ==> AbsentAt(f, runs, places[i]);
    }
    if n < f.Len() && f.Id(n) in runs {
      var k :| 0 <= k < |places| && places[k] == n;
      Phase.FirstActiveFound(rows, k);
      assert TagAt(f, runs, n);
      ActivePhase(f, rows[k], n);
    } else {
      Phase.NoneActive(rows);
    }
  }

  lemma ActivePhase(f: Fam, row: Run, n: nat)
    requires GoodFam(f) && n < f.Len() && row.input.subtaskId == Some(f.Sub(n)) && Phase.IsActive(row)
    ensures Phase.FirstActive([row]) == PhaseOfPlace(f, n)
  {
    assert [row][1..] == [];
    if n < |f.order| {
      assert f.order[n] in f.order;
    } else {
      var r := (n - |f.order|) / 2 + 1;
      DebateShapes(r);
      DebateIdsDiffer(r, r);
      ReviewIsNoRevision(r);
    }
  }

  lemma ReviewIsNoRevision(round: nat)
    requires round >= 1
    ensures !Phase.IsRevisionId(ReviewId(round)) && !Phase.IsReviewId(RevisionId(round))
  {
    assert ReviewId(round)[3..][0] == 'i';
    assert RevisionId(round)[3..] == ToString(round);
    assert RevisionId(round)[3] == ToString(round)[0];
  }
}
