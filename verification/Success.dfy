/** When an attempt at a team's run succeeds. */
module Success {
  import opened Domain
  import opened Store
  import opened Runtime
  import opened Outcome
  import opened Planner
  import opened Orchestrator
  import opened Team
  import opened Family

  /** The agent is known, and some reply within the limit answers. */
  ghost predicate Replies(cfg: Config, agentId: string, script: Script) {
    && FindAgent(cfg.agents, agentId).Some?
    && exists k :: AnswersAt(FindAgent(cfg.agents, agentId).value, cfg.maxIterations, script, k)
  }

  /** A finished child stays as it is; any other succeeds exactly if its model answers, and stores the answer. */
  lemma ChildOutcome(w: World, cfg: Config, parent: string, subtask: string, agent: Agent, prompt: string,
                     behave: Behaviour)
    ensures var (id, base) := (ChildId(parent, subtask), BaseRow(w, agent, prompt, parent, subtask));
            var (w', r) := RunChild(w, cfg, parent, subtask, agent, prompt, behave);
            && id in w'.runs
            && (IsTerminal(base.status) ==> r.Ok? && w'.runs[id] == base)
            && (!IsTerminal(base.status) ==>
                  && (r.Ok? <==> Replies(cfg, base.agentId, behave(id)))
                  && (Replies(cfg, base.agentId, behave(id)) ==>
                        var runner := FindAgent(cfg.agents, base.agentId).value;
                        forall k :: AnswersAt(runner, cfg.maxIterations, behave(id), k) ==>
                          w'.runs[id].status == Succeeded && w'.runs[id].output == Text(behave(id)(k).text)))
  {
    hide AnswersAt, Loop;
    var id := ChildId(parent, subtask);
    var w1 := StartedChild(w, agent, prompt, parent, subtask);
    CreateChildEvents(w, agent, prompt, parent, subtask);
    var bridge := Some(Bridge(parent, subtask));
    var run := w1.runs[id];
    if !IsTerminal(run.status) && FindAgent(cfg.agents, run.agentId).Some? {
      AttemptOutcome(w1, cfg.agents, cfg.maxIterations, id, behave(id), bridge);
    }
  }

  /** The agent of a place is there, and its model answers. */
  ghost predicate Willing(f: Fam, behave: Behaviour, i: nat) {
    f.AgentOf(i).Some? && Replies(f.cfg, f.AgentOf(i).value.id, behave(f.Id(i)))
  }

  /** A planned place that is passed, or will be. */
  ghost predicate Able(f: Fam, runs: Runs, behave: Behaviour, i: nat) {
    HasSucceeded(runs, f.Id(i)) || Willing(f, behave, i)
  }

  lemma PlaceOutcome(f: Fam, w: World, k: nat, n: nat, agent: Agent, prompt: string, behave: Behaviour)
    requires GoodFam(f) && ChainAt(f, w.runs, n) && k <= n && k < f.Len() && f.AgentOf(k) == Some(agent)
    ensures RunChild(w, f.cfg, f.parent, f.Sub(k), agent, prompt, behave).1.Ok? <==> Able(f, w.runs, behave, k)
  {
    hide GoodFam, PromptAt, Replies, RunChild, Fam.Sub, Fam.TypeOf, RealAnswer;
    ChildOutcome(w, f.cfg, f.parent, f.Sub(k), agent, prompt, behave);
    PassedAt(f, w.runs, n, k);
    assert TagAt(f, w.runs, k);
    if k < n { assert DoneAt(f, w.runs, k); }
  }

  lemma SubtaskOutcome(f: Fam, w: World, k: nat, n: nat, pr: Progress, behave: Behaviour)
    requires GoodFam(f) && ChainAt(f, w.runs, n) && k <= n && k < |f.order|
    requires OutputsAt(f, w.runs, k, pr.outputs) && |pr.contributions| == k
             && Contributed(f, w.runs, n, pr.contributions)
    ensures RunSubtask(w, f.cfg, f.parent, f.order[k], pr.outputs, behave).1.Ok? <==> Able(f, w.runs, behave, k)
  {
    hide ChainAt, GoodFam, ComposePrompt, Contributed, OutputsAt, DepOutputs, RunChild, Able, Kept, Asked;
    var t := f.order[k];
    var agent := FindByType(f.cfg.agents, t.agentType);
    if agent.Some? {
      var prompt := ComposePrompt(f.cfg, t, pr.outputs);
      PromptFromStored(f, w.runs, k, pr.outputs);
      PromptIs(f, w.runs, k, prompt);
      PlaceOutcome(f, w, k, n, agent.value, prompt, behave);
      var n' := PlaceRun(f, w, k, n, agent.value, prompt, behave);
      var (w1, r) := RunChild(w, f.cfg, f.parent, t.id, agent.value, prompt, behave);
      KeptParts(f, w, w1, n, n');
      if r.Ok? { PlaceDone(f, w1.runs, k, n'); }
    } else {
      NoAgentNoRow(f, w.runs, n, k, behave);
    }
  }

  lemma PromptIs(f: Fam, runs: Runs, k: nat, prompt: string)
    requires k < |f.order| && prompt == ComposePrompt(f.cfg, f.order[k], DepOutputs(f, runs, k))
    ensures Asked(f, runs, k, prompt)
  {}

  lemma NoAgentNoRow(f: Fam, runs: Runs, n: nat, k: nat, behave: Behaviour)
    requires ChainAt(f, runs, n) && k < f.Len() && f.AgentOf(k).None?
    ensures !Able(f, runs, behave, k)
  {
    hide PromptAt;
    assert TagAt(f, runs, k);
  }

  /** A planned child's run touches no other place. */
  lemma OthersAble(f: Fam, w: World, k: nat, t: Subtask, outputs: map<string, Output>, behave: Behaviour, i: nat)
    requires GoodFam(f) && k < |f.order| && t == f.order[k] && i < f.Len() && i != k
    ensures Able(f, RunSubtask(w, f.cfg, f.parent, t, outputs, behave).0.runs, behave, i)
            <==> Able(f, w.runs, behave, i)
  {
    hide GoodFam, RunChild, ComposePrompt, Replies, ChildFlows, ChildId;
    var agent := FindByType(f.cfg.agents, t.agentType);
    IdInjective(f, i, k);
    if agent.Some? {
      RunChildEvents(w, f.cfg, f.parent, t.id, agent.value, ComposePrompt(f.cfg, t, outputs), behave);
    }
  }

  lemma {:induction false} SubtasksOutcome(f: Fam, w: World, k: nat, n: nat, pr: Progress, behave: Behaviour)
    requires GoodFam(f) && ChainAt(f, w.runs, n) && k <= n && k <= |f.order|
    requires OutputsAt(f, w.runs, k, pr.outputs) && |pr.contributions| == k
             && Contributed(f, w.runs, n, pr.contributions)
    ensures RunSubtasks(w, f.cfg, f.parent, f.order[k..], pr, behave).1.Ok?
            <==> forall i :: k <= i < |f.order| ==> Able(f, w.runs, behave, i)
    decreases |f.order| - k
  {
    hide ChainAt, GoodFam, Contributed, OutputsAt, RunSubtask, Able, Kept, ContributionAt;
    if k < |f.order| {
      var t := f.order[k];
      assert f.order[k..][0] == t && f.order[k..][1..] == f.order[k + 1..];
      SubtaskOutcome(f, w, k, n, pr, behave);
      var n1 := SubtaskStep(f, w, k, n, pr, behave);
      var (w1, r) := RunSubtask(w, f.cfg, f.parent, t, pr.outputs, behave);
      if r.Ok? {
        KeptParts(f, w, w1, n, n1);
        Collect(f, w.runs, w1.runs, k, n, n1, pr, r.value);
        var pr1 := Progress(pr.outputs[t.id := r.value.output], pr.contributions + [r.value]);
        SubtasksOutcome(f, w1, k + 1, n1, pr1, behave);
        forall i | k < i < |f.order|
          ensures Able(f, w1.runs, behave, i) <==> Able(f, w.runs, behave, i)
        {
          OthersAble(f, w, k, t, pr.outputs, behave, i);
        }
      }
    }
  }

  /**
   * An attempt at a live team run succeeds exactly if every planned child has succeeded before or is
   * willing now: an agent of its type is there, and its model answers within the limit.
   */
  lemma TeamSucceeds(f: Fam, w: World, pl: Planning, behave: Behaviour, n: nat)
    requires GoodFam(f) && ChainAt(f, w.runs, n) && Fits(f, pl)
    requires f.parent in w.runs && !IsTerminal(w.runs[f.parent].status)
    ensures ExecuteOrchestration(w, f.cfg, f.parent, pl, behave).1.Ok?
            <==> forall i :: 0 <= i < |f.order| ==> Able(f, w.runs, behave, i)
  {
    hide ChainAt, GoodFam, RunSubtasks, MaybeDebate, PlanOf, Able, FrontSame;
    var run := w.runs[f.parent];
    ParentBegin(w, f.parent);
    var w1 := if run.status == Running then w else w.UpdateRunStatus(f.parent, Running, NoPatch);
    var w2 := w1.Publish(Planned, f.parent);
    ParentApart(f, w.runs, w2.runs);
    ChainElsewhere(f, w.runs, w2.runs, n);
    NothingYet(f, w2.runs, n);
    assert f.order[0..] == f.order;
    SubtasksOutcome(f, w2, 0, n, Progress(map[], []), behave);
    forall i | 0 <= i < |f.order|
      ensures Able(f, w2.runs, behave, i) <==> Able(f, w.runs, behave, i)
    {
      AbleElsewhere(f, w.runs, w2.runs, behave, i);
    }
    OrderThere(f);
  }

  lemma OrderThere(f: Fam)
    requires GoodFam(f)
    ensures f.order != []
  {}

  lemma NothingYet(f: Fam, runs: Runs, n: nat)
    ensures OutputsAt(f, runs, 0, map[]) && Contributed(f, runs, n, [])
  {}

  lemma AbleElsewhere(f: Fam, a: Runs, b: Runs, behave: Behaviour, i: nat)
    requires SameChain(f, a, b) && i < f.Len()
    ensures Able(f, b, behave, i) <==> Able(f, a, behave, i)
  {
    hide Willing;
    assert SameAt(f, a, b, i) || (AbsentAt(f, a, i) && AbsentAt(f, b, i));
  }
}
