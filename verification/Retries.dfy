/** Attempt after attempt at one orchestrated run. */
module Retries {
  import opened Domain
  import opened Store
  import opened Runtime
  import opened Orchestrator
  import opened Team
  import opened Family

  // ----- An honest parent -----

  /** The parent reads succeeded, with a team's output. */
  predicate TeamDone(f: Fam, runs: Runs) {
    f.parent in runs && runs[f.parent].status == Succeeded && runs[f.parent].output.Team?
  }

  /** The chain stands at `n`; if the parent reads succeeded, its output is the truth about its finished children. */
  ghost predicate Honest(f: Fam, runs: Runs, n: nat) {
    && ChainAt(f, runs, n)
    && (TeamDone(f, runs) ==>
          && |f.order| <= n && AggregateAt(f, runs[f.parent].input.prompt, runs, n, runs[f.parent].output)
          && WholeTruth(f, runs, n, runs[f.parent].output))
  }

  ghost predicate HonestFrom(f: Fam, runs: Runs, lo: nat) {
    exists n :: lo <= n && Honest(f, runs, n)
  }

  /** Nothing happens to the chain, and a team's result neither appears nor changes. */
  ghost predicate Calm(f: Fam, a: Runs, b: Runs) {
    && SameChain(f, a, b)
    && (TeamDone(f, b) ==> TeamDone(f, a) && b[f.parent].output == a[f.parent].output
                           && b[f.parent].input == a[f.parent].input)
  }

  lemma CalmHonest(f: Fam, a: Runs, b: Runs, n: nat)
    requires GoodFam(f) && Honest(f, a, n) && Calm(f, a, b)
    ensures Honest(f, b, n)
  {
    hide ChainAt, GoodFam, AggregateAt, WholeTruth, SameChain;
    ChainElsewhere(f, a, b, n);
    ChainWithin(f, a, n);
    if TeamDone(f, b) {
      AggregateFront(f, a[f.parent].input.prompt, a, b, n, n, a[f.parent].output);
      TruthElsewhere(f, a, b, n, a[f.parent].output);
    }
  }

  /** Every write of an attempt leaves an honest parent, the one that stores the aggregate included. */
  lemma AttemptHonest(f: Fam, w: World, pl: Planning, behave: Behaviour, n: nat) returns (n': nat)
    requires GoodFam(f) && ChainAt(f, w.runs, n) && Fits(f, pl) && f.parent in w.runs
    ensures var w' := ExecuteOrchestration(w, f.cfg, f.parent, pl, behave).0;
            && Kept(f, w, w', n, n') && (Honest(f, w.runs, n) ==> Honest(f, w'.runs, n'))
            && forall m :: m in New(w, w') ==> HonestFrom(f, m.runs, n)
  {
    hide ChainAt, GoodFam, AggregateAt, WholeTruth, Fits, ExecuteOrchestration, Flows, FamilyOnly, FrontSame;
    n' := AttemptKeepsChain(f, w, pl, behave, n);
    OrchestrationEvents(w, f.cfg, f.parent, pl, behave);
    TerminalStays(w, f.cfg, f.parent, pl, behave);
    var (w', r) := ExecuteOrchestration(w, f.cfg, f.parent, pl, behave);
    if w' == w {
      n' := n;
      KeptRefl(f, w, n);
      assert New(w, w') == [];
    } else {
      assert Honest(f, w'.runs, n');
    }
    forall m | m in New(w, w')
      ensures HonestFrom(f, m.runs, n)
    {
      assert FamilyMoment(w, m, w', f.parent);
      if m.runs[f.parent].status == Succeeded {
        assert Honest(f, m.runs, n');
      } else {
        var k :| n <= k && ChainAt(f, m.runs, k);
        assert Honest(f, m.runs, k);
      }
    }
  }

  lemma TerminalStays(w: World, cfg: Config, parent: string, pl: Planning, behave: Behaviour)
    requires parent in w.runs
    ensures IsTerminal(w.runs[parent].status) ==> ExecuteOrchestration(w, cfg, parent, pl, behave).0 == w
  {}

  // ----- Histories -----

  /**
   * What happens to the rows between two looks: something that is calm for this family, or an
   * attempt cut off after `cut` of its writes.
   */
  datatype Turn = Elsewhere | Try(w: World, behave: Behaviour, cut: nat)

  ghost predicate Leads(f: Fam, pl: Planning, a: Runs, t: Turn, b: Runs) {
    match t
    case Elsewhere => Calm(f, a, b)
    case Try(w, behave, cut) =>
      && w.runs == a && f.parent in a
      && var w' := ExecuteOrchestration(w, f.cfg, f.parent, pl, behave).0;
         && w.trace <= w'.trace && cut <= |New(w, w')|
         && b == After(a, New(w, w')[..cut])
  }

  ghost predicate History(f: Fam, pl: Planning, states: seq<Runs>, turns: seq<Turn>) {
    && |states| == |turns| + 1
    && forall i :: 0 <= i < |turns| ==> Leads(f, pl, states[i], turns[i], states[i + 1])
  }

  /** A succeeded place stays succeeded, with its output and its prompt. */
  ghost predicate FrontFrozen(f: Fam, a: Runs, b: Runs, n: nat) {
    forall q :: 0 <= q < n ==> SameOutcome(a, b, f.Id(q))
  }

  lemma TurnKeeps(f: Fam, pl: Planning, a: Runs, t: Turn, b: Runs, n: nat) returns (n': nat)
    requires GoodFam(f) && Fits(f, pl) && ChainAt(f, a, n) && Leads(f, pl, a, t, b)
    ensures n <= n' && ChainAt(f, b, n') && FrontFrozen(f, a, b, n) && (Honest(f, a, n) ==> Honest(f, b, n'))
  {
    hide ChainAt, GoodFam, AggregateAt, WholeTruth, Fits, ExecuteOrchestration, TeamDone, SameChain, FrontSame;
    match t
    case Elsewhere =>
      ChainElsewhere(f, a, b, n);
      if Honest(f, a, n) { CalmHonest(f, a, b, n); }
      n' := n;
      SameIsFrozen(f, a, b, n);
    case Try(w, behave, cut) =>
      var w' := ExecuteOrchestration(w, f.cfg, f.parent, pl, behave).0;
      var _ := AttemptHonest(f, w, pl, behave, n);
      OrchestrationEvents(w, f.cfg, f.parent, pl, behave);
      FrozenFront(f, a, New(w, w'), cut, n);
      n' := n;
      if cut > 0 {
        var m := New(w, w')[cut - 1];
        assert m in New(w, w') && After(w.runs, New(w, w')[..cut]) == m.runs;
        n' :| n <= n' && Honest(f, m.runs, n');
      }
  }

  lemma SameIsFrozen(f: Fam, a: Runs, b: Runs, n: nat)
    requires ChainAt(f, a, n) && SameChain(f, a, b)
    ensures FrontFrozen(f, a, b, n)
  {
    forall q | 0 <= q < n
      ensures SameOutcome(a, b, f.Id(q))
    {
      assert DoneAt(f, a, q) && SameAt(f, a, b, q);
    }
  }

  lemma FrozenFront(f: Fam, a: Runs, seg: seq<Moment>, cut: nat, n: nat)
    requires ChainAt(f, a, n) && Lawful(a, seg) && cut <= |seg|
    ensures FrontFrozen(f, a, After(a, seg[..cut]), n)
  {
    LawfulPrefix(a, seg, cut);
    forall q | 0 <= q < n
      ensures SameOutcome(a, After(a, seg[..cut]), f.Id(q))
    {
      assert DoneAt(f, a, q);
      FrozenAfter(a, seg[..cut], f.Id(q));
    }
  }

  lemma FrozenTrans(f: Fam, a: Runs, b: Runs, c: Runs, n: nat, n': nat)
    requires FrontFrozen(f, a, b, n) && FrontFrozen(f, b, c, n') && n <= n'
    ensures FrontFrozen(f, a, c, n)
  {
    forall q | 0 <= q < n
      ensures SameOutcome(a, c, f.Id(q))
    {
      assert SameOutcome(a, b, f.Id(q)) && SameOutcome(b, c, f.Id(q));
    }
  }

  /**
   * Over any sequence of attempts with a fixed plan, each failing or cut off anywhere, the succeeded
   * children form a front of the chain that only grows and is never redone, and a parent that reads
   * succeeded holds the aggregate of its finished children.
   */
  lemma {:induction false} RetriesGoOn(f: Fam, pl: Planning, states: seq<Runs>, turns: seq<Turn>, i: nat, j: nat,
                                       n: nat)
      returns (n': nat)
    requires GoodFam(f) && Fits(f, pl) && History(f, pl, states, turns)
    requires i <= j < |states| && ChainAt(f, states[i], n)
    ensures n <= n' && ChainAt(f, states[j], n') && FrontFrozen(f, states[i], states[j], n)
    ensures Honest(f, states[i], n) ==> Honest(f, states[j], n')
    decreases j
  {
    hide ChainAt, GoodFam, AggregateAt, WholeTruth, Fits;
    if i == j {
      n' := n;
      StaysFrozen(f, states[i], n);
    } else {
      var m := RetriesGoOn(f, pl, states, turns, i, j - 1, n);
      assert Leads(f, pl, states[j - 1], turns[j - 1], states[j - 1 + 1]);
      n' := TurnKeeps(f, pl, states[j - 1], turns[j - 1], states[j], m);
      FrozenTrans(f, states[i], states[j - 1], states[j], n, m);
    }
  }

  lemma StaysFrozen(f: Fam, a: Runs, n: nat)
    requires ChainAt(f, a, n)
    ensures FrontFrozen(f, a, a, n)
  {
    forall q | 0 <= q < n
      ensures SameOutcome(a, a, f.Id(q))
    {
      assert DoneAt(f, a, q);
    }
  }

  /** Whatever comes later, a stored aggregate stays the truth about the finished children. */
  lemma AggregateStays(f: Fam, pl: Planning, states: seq<Runs>, turns: seq<Turn>, i: nat, j: nat, n: nat, task: string,
                       out: Output)
      returns (n': nat)
    requires GoodFam(f) && Fits(f, pl) && History(f, pl, states, turns)
    requires i <= j < |states| && ChainAt(f, states[i], n) && |f.order| <= n && AggregateAt(f, task, states[i], n, out)
    ensures |f.order| <= n' && ChainAt(f, states[j], n') && AggregateAt(f, task, states[j], n', out)
  {
    hide ChainAt, GoodFam, AggregateAt, WholeTruth, Fits, History, TeamDone;
    n' := RetriesGoOn(f, pl, states, turns, i, j, n);
    forall q | 0 <= q < n
      ensures SameOutput(f, states[i], states[j], q)
    {
      assert SameOutcome(states[i], states[j], f.Id(q));
    }
    AggregateFront(f, task, states[i], states[j], n, n', out);
  }
}
