/** Plan validation and the topological sort that orders the children of a run. */
module Planner {
  import opened Domain
  import opened Decimal

  datatype Subtask = Subtask(id: string, agentType: AgentType, prompt: string, dependsOn: seq<string>)

  // ----- normalizePlan -----

  /** One element of the parsed `subtasks` array; an absent field is None. */
  datatype RawSubtask = RawSubtask(id: Option<string>, agentType: Option<AgentType>, prompt: Option<string>,
                                   dependsOn: Option<seq<string>>)

  function IdOf(s: RawSubtask, i: nat): string {
    if s.id.Some? then s.id.value else "s" + ToString(i + 1)
  }

  predicate GoodType(s: RawSubtask) {
    s.agentType.Some? && !s.agentType.value.Orchestrator?
  }

  function Cleaned(s: RawSubtask, i: nat): Subtask
    requires GoodType(s)
  {
    Subtask(IdOf(s, i), s.agentType.value, if s.prompt.Some? then s.prompt.value else "",
            if s.dependsOn.Some? then s.dependsOn.value else [])
  }

  predicate DistinctIds(ts: seq<Subtask>) {
    forall i, j :: 0 <= i < j < |ts| ==> ts[i].id != ts[j].id
  }

  function Ids(ts: seq<Subtask>): set<string> {
    set t | t in ts :: t.id
  }

  predicate KnownDeps(ts: seq<Subtask>) {
    forall t :: t in ts ==> forall d :: d in t.dependsOn ==> d in Ids(ts)
  }

  /** What `normalizePlan` lets through. Repeated and self dependencies pass. */
  predicate ValidPlan(ts: seq<Subtask>) {
    ts != [] && DistinctIds(ts) && KnownDeps(ts)
  }

  lemma {:induction false} DistinctIdsCount(ts: seq<Subtask>)
    ensures |Ids(ts)| <= |ts|
    ensures DistinctIds(ts) <==> |Ids(ts)| == |ts|
  {
    if ts != [] {
      var init, last := ts[..|ts| - 1], ts[|ts| - 1];
      DistinctIdsCount(init);
      assert Ids(ts) == Ids(init) + {last.id};
      if last.id in Ids(init) {
        assert Ids(ts) == Ids(init);
        var t :| t in init && t.id == last.id;
      }
    }
  }

  /** Accepts exactly the non-empty arrays of typed, distinct subtasks with known dependencies. */
  method NormalizePlan(raw: Option<seq<RawSubtask>>) returns (r: Result<seq<Subtask>>)
    ensures r.Ok? <==>
              && raw.Some?
              && (forall i :: 0 <= i < |raw.value| ==> GoodType(raw.value[i]))
              && ValidPlan(seq(|raw.value|,
                               i requires 0 <= i < |raw.value| && GoodType(raw.value[i]) => Cleaned(raw.value[i], i)))
    ensures r.Ok? ==> ValidPlan(r.value) && |r.value| == |raw.value|
                      && forall i :: 0 <= i < |r.value| ==> r.value[i] == Cleaned(raw.value[i], i)
    ensures r.Ok? ==> forall i :: 0 <= i < |r.value| ==>
              var (t, s) := (r.value[i], raw.value[i]);
              && Some(t.agentType) == s.agentType && t.agentType != Orchestrator
              && t.dependsOn == (if s.dependsOn.Some? then s.dependsOn.value else [])
              && t.prompt == (if s.prompt.Some? then s.prompt.value else "")
              && (s.id.Some? ==> t.id == s.id.value) && (s.id.None? ==> t.id == "s" + ToString(i + 1))
  {
    if raw.None? { return Err("missing subtasks array"); }
    var input := raw.value;
    var ts: seq<Subtask> := [];
    for i := 0 to |input|
      invariant |ts| == i
      invariant forall k :: 0 <= k < i ==> GoodType(input[k]) && ts[k] == Cleaned(input[k], k)
    {
      if !GoodType(input[i]) { return Err("invalid agentType"); }
      ts := ts + [Cleaned(input[i], i)];
    }
    hide DistinctIds;
    assert ts == seq(|input|, i requires 0 <= i < |input| && GoodType(input[i]) => Cleaned(input[i], i));
    if |ts| == 0 { return Err("plan has no subtasks"); }
    DistinctIdsCount(ts);
    if |Ids(ts)| != |ts| { return Err("duplicate subtask ids"); }
    for i := 0 to |ts|
      invariant forall k :: 0 <= k < i ==> forall d :: d in ts[k].dependsOn ==> d in Ids(ts)
    {
      for j := 0 to |ts[i].dependsOn|
        invariant forall k :: 0 <= k < j ==> ts[i].dependsOn[k] in Ids(ts)
      {
        if ts[i].dependsOn[j] !in Ids(ts) {
          assert ts[i] in ts;
          return Err("unknown dependency");
        }
      }
    }
    r := Ok(ts);
  }

  // ----- The dependency graph -----

  ghost predicate Depends(ts: seq<Subtask>, a: string, b: string) {
    exists t :: t in ts && t.id == a && b in t.dependsOn
  }

  /** Each id of a path depends on the next one. */
  ghost predicate Path(ts: seq<Subtask>, p: seq<string>) {
    forall i :: 0 <= i < |p| - 1 ==> Linked(ts, p, i)
  }

  ghost predicate Linked(ts: seq<Subtask>, p: seq<string>, i: nat)
    requires i + 1 < |p|
  {
    Depends(ts, p[i], p[i + 1])
  }

  /** A path whose last id depends on the first. */
  ghost predicate Cycle(ts: seq<Subtask>, p: seq<string>) {
    && p != []
    && Path(ts, p)
    && Depends(ts, p[|p| - 1], p[0])
  }

  ghost predicate Acyclic(ts: seq<Subtask>) {
    forall p :: !Cycle(ts, p)
  }

  /** Every dependency stands before its dependents. */
  ghost predicate TopoOrdered(order: seq<Subtask>) {
    forall i :: 0 <= i < |order| ==> forall d :: d in order[i].dependsOn ==> d in Ids(order[..i])
  }

  function IndexOf(ts: seq<Subtask>, id: string): (i: nat)
    requires id in Ids(ts)
    ensures i < |ts| && ts[i].id == id
    ensures forall k :: 0 <= k < i ==> ts[k].id != id
  {
    if ts[0].id == id then 0
    else
      assert id in Ids(ts[1..]) by {
        var t :| t in ts && t.id == id;
        assert t in ts[1..];
      }
      1 + IndexOf(ts[1..], id)
  }

  lemma DependencyEarlier(order: seq<Subtask>, a: string, b: string)
    requires DistinctIds(order) && TopoOrdered(order) && Depends(order, a, b)
    ensures a in Ids(order) && b in Ids(order) && IndexOf(order, b) < IndexOf(order, a)
  {
    var t :| t in order && t.id == a && b in t.dependsOn;
    var i :| 0 <= i < |order| && order[i] == t;
    assert IndexOf(order, a) == i;
    var u :| u in order[..i] && u.id == b;
    var k :| 0 <= k < i && order[..i][k] == u;
    assert order[k] == u;
  }

  lemma {:induction false} PathDescends(order: seq<Subtask>, p: seq<string>, k: nat)
    requires DistinctIds(order) && TopoOrdered(order) && k < |p|
    requires Path(order, p)
    requires p[0] in Ids(order)
    ensures p[k] in Ids(order) && IndexOf(order, p[k]) <= IndexOf(order, p[0])
  {
    if k > 0 {
      PathDescends(order, p, k - 1);
      assert Linked(order, p, k - 1);
      DependencyEarlier(order, p[k - 1], p[k]);
    }
  }

  /** A topological order rules cycles out. */
  lemma OrderedIsAcyclic(ts: seq<Subtask>, order: seq<Subtask>)
    requires DistinctIds(order) && TopoOrdered(order) && multiset(order) == multiset(ts)
    ensures Acyclic(ts)
  {
    forall p
      ensures !Cycle(ts, p)
    {
      if Cycle(ts, p) {
        SameEdges(ts, order);
        forall i | 0 <= i < |p| - 1
          ensures Linked(order, p, i)
        {
          assert Linked(ts, p, i);
        }
        var n := |p| - 1;
        DependencyEarlier(order, p[n], p[0]);
        PathDescends(order, p, n);
      }
    }
  }

  lemma SameEdges(ts: seq<Subtask>, order: seq<Subtask>)
    requires multiset(order) == multiset(ts)
    ensures forall a, b :: Depends(ts, a, b) <==> Depends(order, a, b)
    ensures Ids(ts) == Ids(order)
  {
    assert forall t :: t in ts <==> t in multiset(ts);
    assert forall t :: t in order <==> t in multiset(order);
  }

  /** A path of distinct ids within a set. */
  ghost predicate SimplePath(ts: seq<Subtask>, p: seq<string>, within: set<string>) {
    && Path(ts, p)
    && (forall i, j :: 0 <= i < j < |p| ==> p[i] != p[j])
    && (forall i :: 0 <= i < |p| ==> p[i] in within)
  }

  lemma {:induction false} SimplePathBounded(ts: seq<Subtask>, p: seq<string>, within: set<string>)
    requires SimplePath(ts, p, within)
    ensures |p| <= |within|
  {
    if p != [] {
      var init, last := p[..|p| - 1], p[|p| - 1];
      forall i | 0 <= i < |init| - 1
        ensures Linked(ts, init, i)
      {
        assert Linked(ts, p, i);
      }
      SimplePathBounded(ts, init, within - {last});
    }
  }

  lemma ClosePath(ts: seq<Subtask>, p: seq<string>, k: nat)
    requires Path(ts, p) && k < |p| && Depends(ts, p[|p| - 1], p[k])
    ensures Cycle(ts, p[k..])
  {
    forall i | 0 <= i < |p| - k - 1
      ensures Linked(ts, p[k..], i)
    {
      assert Linked(ts, p, k + i);
    }
  }

  lemma ExtendPath(ts: seq<Subtask>, p: seq<string>, within: set<string>, y: string)
    requires SimplePath(ts, p, within) && p != [] && y in within && y !in p && Depends(ts, p[|p| - 1], y)
    ensures SimplePath(ts, p + [y], within)
  {
    forall i | 0 <= i < |p|
      ensures Linked(ts, p + [y], i)
    {
      assert i < |p| - 1 ==> Linked(ts, p, i);
    }
  }

  lemma OneIdPath(ts: seq<Subtask>, within: set<string>, x: string)
    requires x in within
    ensures SimplePath(ts, [x], within)
  {
  }

  ghost predicate LeadsBack(ts: seq<Subtask>, stuck: set<string>, x: string) {
    exists y :: y in stuck && Depends(ts, x, y)
  }

  /** Ids that each depend on one of themselves hold a cycle: walk until an id comes back. */
  lemma {:induction false} WalkFindsCycle(ts: seq<Subtask>, stuck: set<string>, p: seq<string>)
    requires forall x {:trigger LeadsBack(ts, stuck, x)} :: x in stuck ==> LeadsBack(ts, stuck, x)
    requires p != [] && SimplePath(ts, p, stuck)
    ensures !Acyclic(ts)
    decreases |stuck| - |p|
  {
    SimplePathBounded(ts, p, stuck);
    assert LeadsBack(ts, stuck, p[|p| - 1]);
    var y :| y in stuck && Depends(ts, p[|p| - 1], y);
    if y in p {
      var k :| 0 <= k < |p| && p[k] == y;
      ClosePath(ts, p, k);
    } else {
      ExtendPath(ts, p, stuck, y);
      SimplePathBounded(ts, p + [y], stuck);
      WalkFindsCycle(ts, stuck, p + [y]);
    }
  }

  // ----- topoSort -----

  /** How many of the dependency entries are not done yet. */
  function Open(deps: seq<string>, done: set<string>): nat {
    if deps == [] then 0
    else Open(deps[..|deps| - 1], done) + if deps[|deps| - 1] in done then 0 else 1
  }

  lemma {:induction false} OpenFacts(deps: seq<string>, done: set<string>, id: string)
    ensures Open(deps, {}) == |deps|
    ensures id !in done ==> Open(deps, done) == Open(deps, done + {id}) + multiset(deps)[id]
    ensures Open(deps, done) == 0 <==> forall d :: d in deps ==> d in done
  {
    if deps != [] {
      var init, last := deps[..|deps| - 1], deps[|deps| - 1];
      OpenFacts(init, done, id);
      assert deps == init + [last];
    }
  }

  function Get(dependents: map<string, seq<string>>, id: string): seq<string> {
    if id in dependents then dependents[id] else []
  }

  /** The edge lists hold an id once per entry in its `dependsOn`, and nothing else. */
  ghost predicate EdgesOf(ts: seq<Subtask>, dependents: map<string, seq<string>>) {
    && (forall t, d :: t in ts ==> multiset(Get(dependents, d))[t.id] == multiset(t.dependsOn)[d])
    && (forall d, x :: x in Get(dependents, d) ==> x in Ids(ts))
  }

  /** The subtasks up to `i`, the last with its first `j` dependencies only. */
  function UpTo(ts: seq<Subtask>, i: nat, j: nat): seq<Subtask>
    requires i < |ts| && j <= |ts[i].dependsOn|
  {
    ts[..i] + [ts[i].(dependsOn := ts[i].dependsOn[..j])]
  }

  lemma UpToEnds(ts: seq<Subtask>, i: nat, dependents: map<string, seq<string>>)
    requires i < |ts| && DistinctIds(ts)
    ensures UpTo(ts, i, |ts[i].dependsOn|) == ts[..i + 1]
    ensures EdgesOf(ts[..i], dependents) ==> EdgesOf(UpTo(ts, i, 0), dependents)
  {
    var t := ts[i];
    assert t.dependsOn[..|t.dependsOn|] == t.dependsOn;
    assert t.(dependsOn := t.dependsOn) == t;
    if EdgesOf(ts[..i], dependents) {
      forall d
        ensures multiset(Get(dependents, d))[t.id] == 0
      {
        assert t.id in Get(dependents, d) ==> t.id in Ids(ts[..i]);
      }
      assert Ids(ts[..i]) <= Ids(UpTo(ts, i, 0)) by {
        assert forall u :: u in ts[..i] ==> u in UpTo(ts, i, 0);
      }
    }
  }

  lemma AddEdge(ts: seq<Subtask>, i: nat, j: nat, dependents: map<string, seq<string>>)
    requires i < |ts| && DistinctIds(ts) && j < |ts[i].dependsOn| && EdgesOf(UpTo(ts, i, j), dependents)
    ensures var d := ts[i].dependsOn[j];
            EdgesOf(UpTo(ts, i, j + 1), dependents[d := Get(dependents, d) + [ts[i].id]])
  {
    var t, d := ts[i], ts[i].dependsOn[j];
    var before, after := UpTo(ts, i, j), UpTo(ts, i, j + 1);
    var more := dependents[d := Get(dependents, d) + [t.id]];
    assert t.dependsOn[..j + 1] == t.dependsOn[..j] + [d];
    assert before[i] in before && after[i] in after;
    assert Ids(before) == Ids(after) by {
      assert forall u :: u in ts[..i] ==> u in before && u in after;
      assert forall u :: u in before ==> u == before[i] || u in ts[..i];
      assert forall u :: u in after ==> u == after[i] || u in ts[..i];
    }
    forall u, e | u in after
      ensures multiset(Get(more, e))[u.id] == multiset(u.dependsOn)[e]
    {
      assert multiset(Get(more, e)) == multiset(Get(dependents, e)) + if e == d then multiset{t.id} else multiset{};
      if u != after[i] {
        assert u in ts[..i] && u in before && u.id != t.id;
      } else {
        assert multiset(Get(dependents, e))[before[i].id] == multiset(before[i].dependsOn)[e];
        assert multiset(u.dependsOn) == multiset(before[i].dependsOn) + multiset{d};
      }
    }
    forall e, x | x in Get(more, e)
      ensures x in Ids(after)
    {
      assert x in Get(dependents, e) || x == t.id;
    }
  }

  /** The state of the sort between two rounds of its loop. */
  ghost predicate SortState(ts: seq<Subtask>, order: seq<Subtask>, queue: seq<string>, indegree: map<string, nat>) {
    && (forall t :: t in order ==> t in ts)
    && DistinctIds(order)
    && TopoOrdered(order)
    && (forall i, j :: 0 <= i < j < |queue| ==> queue[i] != queue[j])
    && (forall x :: x in queue ==> x in Ids(ts) && x !in Ids(order))
    && (forall t :: t in ts ==> t.id in indegree && indegree[t.id] == Open(t.dependsOn, Ids(order)))
    && (forall t :: t in ts ==> ((t.id in Ids(order) || t.id in queue) <==> indegree[t.id] == 0))
  }

  /** Inside a round: `left` are the dependents of the id just done that are still to be visited. */
  ghost predicate RoundState(ts: seq<Subtask>, done: set<string>, queue: seq<string>, indegree: map<string, nat>,
                             left: seq<string>) {
    && (forall i, j :: 0 <= i < j < |queue| ==> queue[i] != queue[j])
    && (forall x :: x in queue ==> x in Ids(ts) && x !in done)
    && (forall t :: t in ts ==> t.id in indegree && indegree[t.id] == Open(t.dependsOn, done) + multiset(left)[t.id])
    && (forall t :: t in ts ==> ((t.id in done || t.id in queue) <==> indegree[t.id] == 0))
    && (forall x :: x in left ==> x in Ids(ts))
  }

  /** Taking the front of the queue: all its dependencies are done, and its dependents are to visit. */
  lemma StartRound(ts: seq<Subtask>, order: seq<Subtask>, queue: seq<string>, indegree: map<string, nat>,
                   dependents: map<string, seq<string>>, t: Subtask)
    requires DistinctIds(ts) && EdgesOf(ts, dependents) && SortState(ts, order, queue, indegree)
    requires queue != [] && t in ts && t.id == queue[0]
    ensures DistinctIds(order + [t]) && TopoOrdered(order + [t])
    ensures Ids(order + [t]) == Ids(order) + {t.id} && t.id !in Ids(order)
    ensures RoundState(ts, Ids(order) + {t.id}, queue[1..], indegree, Get(dependents, t.id))
  {
    var done := Ids(order);
    assert t.id in queue && indegree[t.id] == 0;
    OpenFacts(t.dependsOn, done, t.id);
    assert Ids(order + [t]) == done + {t.id} by {
      assert forall u :: u in order ==> u in order + [t];
      assert t in order + [t];
    }
    forall i | 0 <= i < |order| + 1
      ensures forall d :: d in (order + [t])[i].dependsOn ==> d in Ids((order + [t])[..i])
    {
      assert (order + [t])[..i] == order[..i];
      assert order[..|order|] == order;
    }
    forall u | u in ts
      ensures indegree[u.id] == Open(u.dependsOn, done + {t.id}) + multiset(Get(dependents, t.id))[u.id]
    {
      OpenFacts(u.dependsOn, done, t.id);
    }
  }

  lemma InIds(ts: seq<Subtask>, x: string)
    ensures x in Ids(ts) <==> exists t :: t in ts && t.id == x
  {}

  lemma VisitDegrees(ts: seq<Subtask>, done: set<string>, queue: seq<string>, indegree: map<string, nat>,
                     left: seq<string>)
    requires RoundState(ts, done, queue, indegree, left) && left != []
    ensures left[0] in Ids(ts) && left[0] !in done && left[0] !in queue && left[0] in indegree && indegree[left[0]] > 0
    ensures var indegree' := indegree[left[0] := indegree[left[0]] - 1];
            forall t :: t in ts ==>
              t.id in indegree' && indegree'[t.id] == Open(t.dependsOn, done) + multiset(left[1..])[t.id]
  {
    hide Open;
    var x := left[0];
    assert left == [x] + left[1..];
    assert x in left;
    hide Ids;
    InIds(ts, x);
    var t :| t in ts && t.id == x;
    assert multiset(left)[t.id] > 0;
    assert multiset(left) == multiset{x} + multiset(left[1..]);
  }

  /** Visiting one dependent; its count is positive, so it reaches zero once. */
  lemma VisitNext(ts: seq<Subtask>, done: set<string>, queue: seq<string>, indegree: map<string, nat>,
                  left: seq<string>)
    requires DistinctIds(ts) && RoundState(ts, done, queue, indegree, left) && left != []
    ensures left[0] in indegree && indegree[left[0]] > 0
    ensures var indegree' := indegree[left[0] := indegree[left[0]] - 1];
            RoundState(ts, done, if indegree'[left[0]] == 0 then queue + [left[0]] else queue, indegree', left[1..])
  {
    hide Ids, Open;
    var x := left[0];
    VisitDegrees(ts, done, queue, indegree, left);
    assert x !in done && x !in queue;
    assert forall y :: y in left[1..] ==> y in left;
  }

  lemma EndRound(ts: seq<Subtask>, order: seq<Subtask>, queue: seq<string>, indegree: map<string, nat>)
    requires (forall t :: t in order ==> t in ts) && DistinctIds(order) && TopoOrdered(order)
    requires RoundState(ts, Ids(order), queue, indegree, [])
    ensures SortState(ts, order, queue, indegree)
  {
  }

  /** With the queue empty, either everything is done or what is left holds a cycle. */
  lemma QueueEmpty(ts: seq<Subtask>, order: seq<Subtask>, indegree: map<string, nat>)
    requires DistinctIds(ts) && KnownDeps(ts) && SortState(ts, order, [], indegree)
    ensures |order| == |ts| ==> multiset(order) == multiset(ts)
    ensures |order| != |ts| ==> !Acyclic(ts)
  {
    DistinctIdsCount(ts);
    DistinctIdsCount(order);
    var stuck := Ids(ts) - Ids(order);
    assert Ids(order) <= Ids(ts);
    assert Ids(ts) == Ids(order) + stuck;
    if stuck == {} {
      SamePermutation(ts, order);
    } else {
      AllStuckOnStuck(ts, order, indegree);
      var x :| x in stuck;
      OneIdPath(ts, stuck, x);
      WalkFindsCycle(ts, stuck, [x]);
    }
  }

  lemma AllStuckOnStuck(ts: seq<Subtask>, order: seq<Subtask>, indegree: map<string, nat>)
    requires DistinctIds(ts) && KnownDeps(ts) && SortState(ts, order, [], indegree)
    ensures var stuck := Ids(ts) - Ids(order);
            forall x {:trigger LeadsBack(ts, stuck, x)} :: x in stuck ==> LeadsBack(ts, stuck, x)
  {
    forall x | x in Ids(ts) - Ids(order)
      ensures LeadsBack(ts, Ids(ts) - Ids(order), x)
    {
      StuckOnStuck(ts, order, indegree, x);
    }
  }

  lemma StuckOnStuck(ts: seq<Subtask>, order: seq<Subtask>, indegree: map<string, nat>, x: string)
    requires DistinctIds(ts) && KnownDeps(ts) && SortState(ts, order, [], indegree)
    requires x in Ids(ts) - Ids(order)
    ensures LeadsBack(ts, Ids(ts) - Ids(order), x)
  {
    var t :| t in ts && t.id == x;
    assert indegree[t.id] != 0;
    OpenFacts(t.dependsOn, Ids(order), x);
    var y :| y in t.dependsOn && y !in Ids(order);
    assert y in Ids(ts) && Depends(ts, x, y);
  }

  /** Distinct ids and the same subtasks make a permutation. */
  lemma SamePermutation(ts: seq<Subtask>, order: seq<Subtask>)
    requires DistinctIds(ts) && DistinctIds(order) && Ids(order) == Ids(ts) && (forall t :: t in order ==> t in ts)
    ensures multiset(order) == multiset(ts)
  {
    forall t
      ensures multiset(order)[t] == multiset(ts)[t]
    {
      OnceEach(ts, t);
      OnceEach(order, t);
      if t in ts {
        assert t.id in Ids(order);
        var u :| u in order && u.id == t.id;
        var i :| 0 <= i < |ts| && ts[i] == t;
        var j :| 0 <= j < |ts| && ts[j] == u;
      }
    }
  }

  lemma {:induction false} OnceEach(ts: seq<Subtask>, t: Subtask)
    requires DistinctIds(ts)
    ensures multiset(ts)[t] == if t in ts then 1 else 0
  {
    if ts != [] {
      var init, last := ts[..|ts| - 1], ts[|ts| - 1];
      assert ts == init + [last];
      OnceEach(init, t);
    }
  }

  // ----- The order as a function of the plan -----

  function AddEdges(dependents: map<string, seq<string>>, deps: seq<string>, id: string): map<string, seq<string>> {
    if deps == [] then dependents
    else
      var d, before := deps[|deps| - 1], AddEdges(dependents, deps[..|deps| - 1], id);
      before[d := Get(before, d) + [id]]
  }

  function Edges(ts: seq<Subtask>): map<string, seq<string>> {
    if ts == [] then map[]
    else AddEdges(Edges(ts[..|ts| - 1]), ts[|ts| - 1].dependsOn, ts[|ts| - 1].id)
  }

  function RootIds(ts: seq<Subtask>): seq<string> {
    if ts == [] then []
    else RootIds(ts[..|ts| - 1]) + if ts[|ts| - 1].dependsOn == [] then [ts[|ts| - 1].id] else []
  }

  function Degrees(ts: seq<Subtask>): map<string, nat> {
    map id | id in Ids(ts) :: |ts[IndexOf(ts, id)].dependsOn|
  }

  /** One round's visits: what is left of the queue and the counts. */
  function Visit(left: seq<string>, queue: seq<string>, indegree: map<string, nat>): (seq<string>, map<string, nat>)
    decreases |left|
  {
    if left == [] || left[0] !in indegree || indegree[left[0]] == 0 then (queue, indegree)
    else
      var indegree' := indegree[left[0] := indegree[left[0]] - 1];
      Visit(left[1..], if indegree'[left[0]] == 0 then queue + [left[0]] else queue, indegree')
  }

  function Kahn(ts: seq<Subtask>, dependents: map<string, seq<string>>, order: seq<Subtask>, queue: seq<string>,
                indegree: map<string, nat>, rounds: nat): seq<Subtask>
    decreases rounds
  {
    if rounds == 0 || queue == [] || queue[0] !in Ids(ts) then order
    else
      var (queue', indegree') := Visit(Get(dependents, queue[0]), queue[1..], indegree);
      Kahn(ts, dependents, order + [ts[IndexOf(ts, queue[0])]], queue', indegree', rounds - 1)
  }

  const CYCLE := "dependency cycle detected"

  /** First in, first out: the same plan always gets the same order. */
  function SortOf(ts: seq<Subtask>): Result<seq<Subtask>> {
    var order := Kahn(ts, Edges(ts), [], RootIds(ts), Degrees(ts), |ts|);
    if |order| != |ts| then Err(CYCLE) else Ok(order)
  }

  // ----- Whose turn it is -----

  /** The last place of `order` that holds a dependency of the subtask, or -1. */
  function LastDep(order: seq<Subtask>, t: Subtask): (k: int)
    ensures -1 <= k < |order| && (k >= 0 ==> order[k].id in t.dependsOn)
    ensures forall i :: k < i < |order| ==> order[i].id !in t.dependsOn
  {
    if order == [] then -1
    else if order[|order| - 1].id in t.dependsOn then |order| - 1
    else LastDep(order[..|order| - 1], t)
  }

  /** Where the plan names an id. */
  function PlaceIn(ts: seq<Subtask>, id: string): nat {
    if ts == [] || ts[0].id == id then 0 else 1 + PlaceIn(ts[1..], id)
  }

  lemma {:induction false} PlaceAt(ts: seq<Subtask>, i: nat)
    requires DistinctIds(ts) && i < |ts|
    ensures PlaceIn(ts, ts[i].id) == i
  {
    if i > 0 {
      assert ts[1..][i - 1] == ts[i] && ts[0].id != ts[i].id;
      PlaceAt(ts[1..], i - 1);
    }
  }

  /** `a` is ready before `b`: its last dependency stands earlier, or at the same place and the plan names `a` first. */
  predicate ReadyBefore(ts: seq<Subtask>, order: seq<Subtask>, a: Subtask, b: Subtask) {
    || LastDep(order, a) < LastDep(order, b)
    || (LastDep(order, a) == LastDep(order, b) && PlaceIn(ts, a.id) < PlaceIn(ts, b.id))
  }

  ghost predicate InLine(ts: seq<Subtask>, order: seq<Subtask>, line: seq<Subtask>) {
    forall i, j :: 0 <= i < j < |line| ==> ReadyBefore(ts, order, line[i], line[j])
  }

  /** First in, first out: every subtask stands behind those that were ready before it. */
  ghost predicate InTurn(ts: seq<Subtask>, order: seq<Subtask>) {
    InLine(ts, order, order)
  }

  /** That fixes the order of a plan: there is at most one. */
  lemma TurnUnique(ts: seq<Subtask>, a: seq<Subtask>, b: seq<Subtask>)
    requires DistinctIds(a) && DistinctIds(b) && multiset(a) == multiset(b)
    requires TopoOrdered(a) && TopoOrdered(b) && InTurn(ts, a) && InTurn(ts, b)
    ensures a == b
  {
    assert |multiset(a)| == |a| && |multiset(b)| == |b|;
    SameUpTo(ts, a, b, |a|);
    assert a[..|a|] == a && b[..|a|] == b;
  }

  lemma {:induction false} SameUpTo(ts: seq<Subtask>, a: seq<Subtask>, b: seq<Subtask>, k: nat)
    requires DistinctIds(a) && DistinctIds(b) && multiset(a) == multiset(b) && k <= |a| == |b|
    requires TopoOrdered(a) && TopoOrdered(b) && InTurn(ts, a) && InTurn(ts, b)
    ensures a[..k] == b[..k]
  {
    if k > 0 {
      SameUpTo(ts, a, b, k - 1);
      NextSame(ts, a, b, k - 1);
      assert a[..k] == a[..k - 1] + [a[k - 1]] && b[..k] == b[..k - 1] + [b[k - 1]];
    }
  }

  lemma NextSame(ts: seq<Subtask>, a: seq<Subtask>, b: seq<Subtask>, k: nat)
    requires DistinctIds(a) && DistinctIds(b) && multiset(a) == multiset(b) && k < |a| == |b| && a[..k] == b[..k]
    requires TopoOrdered(a) && TopoOrdered(b) && InTurn(ts, a) && InTurn(ts, b)
    ensures a[k] == b[k]
  {
    LastDepPrefix(a, a[k], k);
    LastDepPrefix(b, a[k], k);
    LastDepPrefix(a, b[k], k);
    LastDepPrefix(b, b[k], k);
    hide LastDep, DistinctIds, TopoOrdered, PlaceIn;
    FirstReady(ts, a, b, k);
    FirstReady(ts, b, a, k);
  }

  lemma FirstReady(ts: seq<Subtask>, a: seq<Subtask>, b: seq<Subtask>, k: nat)
    requires DistinctIds(b) && multiset(b) == multiset(a) && k < |b| == |a| && b[..k] == a[..k] && InTurn(ts, a)
    ensures a[k] != b[k] ==> ReadyBefore(ts, a, a[k], b[k])
  {
    if a[k] != b[k] {
      var l := Later(b, a, k);
    }
  }

  /** Where two orders part, the subtask of one stands later in the other. */
  lemma Later(a: seq<Subtask>, b: seq<Subtask>, k: nat) returns (j: nat)
    requires DistinctIds(a) && multiset(a) == multiset(b) && k < |a| == |b| && a[..k] == b[..k] && a[k] != b[k]
    ensures k < j < |b| && b[j] == a[k]
  {
    assert a[k] in multiset(a);
    assert a[k] in b;
    j :| 0 <= j < |b| && b[j] == a[k];
    assert forall i :: 0 <= i < k ==> a[..k][i] == a[i] && b[..k][i] == b[i];
  }

  lemma LastDepPrefix(order: seq<Subtask>, t: Subtask, k: nat)
    requires k <= |order| && DistinctIds(order) && forall d :: d in t.dependsOn ==> d in Ids(order[..k])
    ensures LastDep(order, t) == LastDep(order[..k], t)
  {
    forall i | k <= i < |order|
      ensures order[i].id !in t.dependsOn
    {
      NotBefore(order, i, k);
    }
    assert forall i :: 0 <= i < k ==> order[..k][i] == order[i];
  }

  lemma NotBefore(order: seq<Subtask>, i: nat, k: nat)
    requires DistinctIds(order) && k <= i < |order|
    ensures order[i].id !in Ids(order[..k])
  {
    assert forall j :: 0 <= j < k ==> order[..k][j] == order[j];
  }

  /** A plan without dependencies comes back as it is. */
  lemma FreePlan(ts: seq<Subtask>, order: seq<Subtask>)
    requires DistinctIds(ts) && DistinctIds(order) && multiset(order) == multiset(ts) && InTurn(ts, order)
    requires forall t :: t in ts ==> t.dependsOn == []
    ensures order == ts
  {
    forall i | 0 <= i < |order|
      ensures order[i].dependsOn == []
    {
      assert order[i] in multiset(order);
      assert order[i] in ts;
    }
    assert TopoOrdered(order);
    forall i | 0 <= i < |ts|
      ensures ts[i].dependsOn == [] && PlaceIn(ts, ts[i].id) == i
    {
      assert ts[i] in ts;
      PlaceAt(ts, i);
    }
    TurnUnique(ts, order, ts);
  }

  // ----- Why the queue keeps to it -----

  /** The subtasks of queued ids. */
  function Tasks(ts: seq<Subtask>, ids: seq<string>): (r: seq<Subtask>)
    requires forall x :: x in ids ==> x in Ids(ts)
    ensures |r| == |ids| && forall k :: 0 <= k < |r| ==> r[k] in ts && r[k].id == ids[k]
  {
    seq(|ids|, k requires 0 <= k < |ids| => ts[IndexOf(ts, ids[k])])
  }

  /** Everything that has joined the queue so far stands in turn. */
  ghost predicate Fifo(ts: seq<Subtask>, order: seq<Subtask>, queue: seq<string>) {
    && (forall x :: x in queue ==> x in Ids(ts))
    && InLine(ts, order, order + Tasks(ts, queue))
  }

  /** Ids in plan order, repetitions allowed, all of the first `n` subtasks. */
  ghost predicate Ascending(ts: seq<Subtask>, ids: seq<string>, n: nat) {
    && (forall i :: 0 <= i < |ids| ==> PlaceIn(ts, ids[i]) < n)
    && forall i, j :: 0 <= i < j < |ids| ==> PlaceIn(ts, ids[i]) <= PlaceIn(ts, ids[j])
  }

  ghost predicate Distinct(ids: seq<string>) {
    forall i, j :: 0 <= i < j < |ids| ==> ids[i] != ids[j]
  }

  lemma AscendingSnoc(ts: seq<Subtask>, ids: seq<string>, n: nat, i: nat)
    requires DistinctIds(ts) && i < |ts| && n <= i + 1 && Ascending(ts, ids, n)
    ensures Ascending(ts, ids + [ts[i].id], i + 1) && Ascending(ts, ids, i + 1)
  {
    PlaceAt(ts, i);
  }

  lemma {:induction false} RootsAscend(ts: seq<Subtask>, i: nat)
    requires DistinctIds(ts) && i <= |ts|
    ensures Ascending(ts, RootIds(ts[..i]), i) && Distinct(RootIds(ts[..i]))
    ensures forall x :: x in RootIds(ts[..i]) ==> x in Ids(ts)
    decreases i
  {
    hide Ids;
    if i > 0 {
      RootsAscend(ts, i - 1);
      assert ts[..i][..i - 1] == ts[..i - 1];
      AscendingSnoc(ts, RootIds(ts[..i - 1]), i - 1, i - 1);
      PlaceAt(ts, i - 1);
      InIds(ts, ts[i - 1].id);
      assert ts[i - 1] in ts;
    }
  }

  lemma {:induction false} EdgesAscend(ts: seq<Subtask>, i: nat, d: string)
    requires DistinctIds(ts) && i <= |ts|
    ensures Ascending(ts, Get(Edges(ts[..i]), d), i)
    decreases i
  {
    hide AddEdges;
    if i > 0 {
      EdgesAscend(ts, i - 1, d);
      assert ts[..i][..i - 1] == ts[..i - 1];
      AddEdgesAscend(ts, i - 1, Edges(ts[..i - 1]), ts[i - 1].dependsOn, d);
    }
  }

  lemma {:induction false} AddEdgesAscend(ts: seq<Subtask>, i: nat, dependents: map<string, seq<string>>,
                                          deps: seq<string>, d: string)
    requires DistinctIds(ts) && i < |ts| && Ascending(ts, Get(dependents, d), i)
    ensures Ascending(ts, Get(AddEdges(dependents, deps, ts[i].id), d), i + 1)
    decreases |deps|
  {
    hide Ascending;
    if deps == [] {
      AscendingSnoc(ts, Get(dependents, d), i, i);
    } else {
      var init := deps[..|deps| - 1];
      AddEdgesAscend(ts, i, dependents, init, d);
      AscendingSnoc(ts, Get(AddEdges(dependents, init, ts[i].id), d), i + 1, i);
    }
  }

  /** The visits of a round add some of the dependents behind the queue, each once and in plan order. */
  lemma {:induction false} VisitAdds(ts: seq<Subtask>, done: set<string>, queue: seq<string>,
                                     indegree: map<string, nat>, left: seq<string>) returns (added: seq<string>)
    requires DistinctIds(ts) && RoundState(ts, done, queue, indegree, left) && Ascending(ts, left, |ts|)
    ensures var (queue', indegree') := Visit(left, queue, indegree);
            RoundState(ts, done, queue', indegree', []) && queue' == queue + added
    ensures (forall x :: x in added ==> x in left) && Ascending(ts, added, |ts|)
    decreases |left|
  {
    hide RoundState, Ascending, DistinctIds;
    if left == [] {
      added := left;
      assert queue == queue + added;
    } else {
      var x := left[0];
      VisitNext(ts, done, queue, indegree, left);
      var indegree' := indegree[x := indegree[x] - 1];
      var queue1 := if indegree'[x] == 0 then queue + [x] else queue;
      assert left == [x] + left[1..];
      AscendingRest(ts, left);
      var rest := VisitAdds(ts, done, queue1, indegree', left[1..]);
      AscendingCons(ts, left, rest);
      added := if indegree'[x] == 0 then [x] + rest else rest;
      assert queue1 + rest == queue + added;
    }
  }

  lemma AscendingRest(ts: seq<Subtask>, ids: seq<string>)
    requires ids != [] && Ascending(ts, ids, |ts|)
    ensures Ascending(ts, ids[1..], |ts|)
  {}

  lemma AscendingCons(ts: seq<Subtask>, ids: seq<string>, some: seq<string>)
    requires ids != [] && Ascending(ts, ids, |ts|) && Ascending(ts, some, |ts|)
    requires forall x :: x in some ==> x in ids[1..]
    ensures Ascending(ts, [ids[0]] + some, |ts|)
  {
    forall j | 0 <= j < |some|
      ensures PlaceIn(ts, ids[0]) <= PlaceIn(ts, some[j])
    {
      assert some[j] in ids[1..];
      var k :| 0 <= k < |ids[1..]| && ids[1..][k] == some[j];
      assert ids[k + 1] == some[j];
    }
  }

  lemma LastDepGrown(order: seq<Subtask>, t: Subtask, u: Subtask)
    ensures LastDep(order + [t], u) == if t.id in u.dependsOn then |order| else LastDep(order, u)
  {
    assert (order + [t])[..|order|] == order;
  }

  /** Different ids in plan order have different places. */
  lemma PlacesRise(ts: seq<Subtask>, tasks: seq<Subtask>, ids: seq<string>)
    requires DistinctIds(ts) && Ascending(ts, ids, |ts|) && Distinct(ids) && |tasks| == |ids|
    requires forall k :: 0 <= k < |tasks| ==> tasks[k] in ts && tasks[k].id == ids[k]
    ensures forall i, j :: 0 <= i < j < |tasks| ==> PlaceIn(ts, tasks[i].id) < PlaceIn(ts, tasks[j].id)
  {
    hide PlaceIn, DistinctIds;
    forall i, j | 0 <= i < j < |tasks|
      ensures PlaceIn(ts, tasks[i].id) < PlaceIn(ts, tasks[j].id)
    {
      PlacesDiffer(ts, tasks[i], tasks[j]);
      assert ids[i] != ids[j];
    }
  }

  lemma PlacesDiffer(ts: seq<Subtask>, t: Subtask, u: Subtask)
    requires DistinctIds(ts) && t in ts && u in ts
    ensures t.id != u.id ==> PlaceIn(ts, t.id) != PlaceIn(ts, u.id)
  {
    hide PlaceIn;
    var k :| 0 <= k < |ts| && ts[k] == t;
    var l :| 0 <= l < |ts| && ts[l] == u;
    PlaceAt(ts, k);
    PlaceAt(ts, l);
  }

  lemma FifoStart(ts: seq<Subtask>)
    requires DistinctIds(ts)
    ensures Fifo(ts, [], RootIds(ts))
  {
    RootsAscend(ts, |ts|);
    assert ts[..|ts|] == ts;
    var ids := RootIds(ts);
    PlacesRise(ts, Tasks(ts, ids), ids);
    assert [] + Tasks(ts, ids) == Tasks(ts, ids);
  }

  /** Who is done or queued does not wait for the front of the queue. */
  lemma NoneWaits(ts: seq<Subtask>, order: seq<Subtask>, queue: seq<string>, indegree: map<string, nat>, t: Subtask)
    requires DistinctIds(ts) && SortState(ts, order, queue, indegree) && queue != [] && t.id == queue[0]
    ensures forall u :: u in order ==> t.id !in u.dependsOn
    ensures forall u :: u in ts && u.id in queue ==> t.id !in u.dependsOn
  {
    assert t.id in queue;
    forall u | u in ts && u.id in queue
      ensures t.id !in u.dependsOn
    {
      OpenFacts(u.dependsOn, Ids(order), "");
    }
    forall u | u in order
      ensures t.id !in u.dependsOn
    {
      var i :| 0 <= i < |order| && order[i] == u;
      assert forall v :: v in order[..i] ==> v in order;
    }
  }

  /** Who joins the queue now was waiting for the subtask just done. */
  lemma AllWaited(ts: seq<Subtask>, dependents: map<string, seq<string>>, t: Subtask, added: seq<string>)
    requires DistinctIds(ts) && EdgesOf(ts, dependents) && forall x :: x in added ==> x in Get(dependents, t.id)
    ensures forall u :: u in ts && u.id in added ==> t.id in u.dependsOn
  {
    forall u | u in ts && u.id in added
      ensures t.id in u.dependsOn
    {
      assert multiset(Get(dependents, t.id))[u.id] > 0;
    }
  }

  lemma FifoStep(ts: seq<Subtask>, order: seq<Subtask>, queue: seq<string>, indegree: map<string, nat>,
                 dependents: map<string, seq<string>>, t: Subtask, queue': seq<string>)
    requires DistinctIds(ts) && SortState(ts, order, queue, indegree) && EdgesOf(ts, dependents)
    requires queue != [] && queue[0] in Ids(ts) && t == ts[IndexOf(ts, queue[0])] && t in ts
    requires queue' == Visit(Get(dependents, t.id), queue[1..], indegree).0
    requires Fifo(ts, order, queue) && Ascending(ts, Get(dependents, t.id), |ts|)
    ensures Fifo(ts, order + [t], queue')
  {
    hide SortState, RoundState, EdgesOf, Visit, Fifo, Ascending;
    StartRound(ts, order, queue, indegree, dependents, t);
    var added := VisitAdds(ts, Ids(order) + {t.id}, queue[1..], indegree, Get(dependents, t.id));
    NoneWaits(ts, order, queue, indegree, t);
    AllWaited(ts, dependents, t, added);
    Queued(ts, Ids(order) + {t.id}, queue', Visit(Get(dependents, t.id), queue[1..], indegree).1);
    assert forall i :: 0 <= i < |added| ==> added[i] == queue'[|queue| - 1 + i];
    LineGrows(ts, order, queue, t, added);
  }

  lemma Queued(ts: seq<Subtask>, done: set<string>, queue: seq<string>, indegree: map<string, nat>)
    requires RoundState(ts, done, queue, indegree, [])
    ensures Distinct(queue) && forall x :: x in queue ==> x in Ids(ts)
  {}

  lemma LineGrows(ts: seq<Subtask>, order: seq<Subtask>, queue: seq<string>, t: Subtask, added: seq<string>)
    requires DistinctIds(ts) && queue != [] && Fifo(ts, order, queue) && t == Tasks(ts, queue)[0]
    requires forall x :: x in added ==> x in Ids(ts)
    requires Ascending(ts, added, |ts|) && Distinct(added)
    requires forall u :: u in order ==> t.id !in u.dependsOn
    requires forall u :: u in ts && u.id in queue ==> t.id !in u.dependsOn
    requires forall u :: u in ts && u.id in added ==> t.id in u.dependsOn
    ensures Fifo(ts, order + [t], queue[1..] + added)
  {
    hide Ascending, Distinct, InLine, Ids, Tasks, LastDep, DistinctIds, IndexOf;
    TasksAre(ts, added);
    TasksAre(ts, queue);
    PlacesRise(ts, Tasks(ts, added), added);
    EarlyKept(ts, order, Tasks(ts, queue), t);
    LateJoin(ts, order, t, order + Tasks(ts, queue), Tasks(ts, added));
    TasksJoin(ts, order, queue, t, added);
  }

  lemma TasksAre(ts: seq<Subtask>, ids: seq<string>)
    requires forall x :: x in ids ==> x in Ids(ts)
    ensures forall k :: 0 <= k < |Tasks(ts, ids)| ==> Tasks(ts, ids)[k] in ts && Tasks(ts, ids)[k].id in ids
  {}

  lemma TasksJoin(ts: seq<Subtask>, order: seq<Subtask>, queue: seq<string>, t: Subtask, added: seq<string>)
    requires queue != [] && (forall x :: x in queue ==> x in Ids(ts)) && (forall x :: x in added ==> x in Ids(ts))
    requires t == Tasks(ts, queue)[0]
    ensures forall x :: x in queue[1..] + added ==> x in Ids(ts)
    ensures (order + [t]) + Tasks(ts, queue[1..] + added) == (order + Tasks(ts, queue)) + Tasks(ts, added)
  {
    hide Ids, IndexOf;
    assert Tasks(ts, queue[1..] + added) == Tasks(ts, queue)[1..] + Tasks(ts, added);
    assert Tasks(ts, queue) == [t] + Tasks(ts, queue)[1..];
  }

  lemma EarlyKept(ts: seq<Subtask>, order: seq<Subtask>, waiting: seq<Subtask>, t: Subtask)
    requires InLine(ts, order, order + waiting)
    requires forall u :: u in order ==> t.id !in u.dependsOn
    requires forall k :: 0 <= k < |waiting| ==> t.id !in waiting[k].dependsOn
    ensures InLine(ts, order + [t], order + waiting)
    ensures forall i :: 0 <= i < |order + waiting| ==> LastDep(order + [t], (order + waiting)[i]) < |order|
  {
    var early := order + waiting;
    hide LastDep;
    forall i | 0 <= i < |early|
      ensures LastDep(order + [t], early[i]) == LastDep(order, early[i])
    {
      LastDepGrown(order, t, early[i]);
      assert i < |order| ==> early[i] in order;
    }
    assert forall i, j :: 0 <= i < j < |early| ==> ReadyBefore(ts, order, early[i], early[j]);
  }

  lemma LateJoin(ts: seq<Subtask>, order: seq<Subtask>, t: Subtask, early: seq<Subtask>, late: seq<Subtask>)
    requires InLine(ts, order + [t], early)
    requires forall i :: 0 <= i < |early| ==> LastDep(order + [t], early[i]) < |order|
    requires forall i :: 0 <= i < |late| ==> t.id in late[i].dependsOn
    requires forall i, j :: 0 <= i < j < |late| ==> PlaceIn(ts, late[i].id) < PlaceIn(ts, late[j].id)
    ensures InLine(ts, order + [t], early + late)
  {
    var line := early + late;
    hide LastDep;
    forall i | 0 <= i < |late|
      ensures LastDep(order + [t], late[i]) == |order|
    {
      LastDepGrown(order, t, late[i]);
    }
    forall i, j | 0 <= i < j < |line|
      ensures ReadyBefore(ts, order + [t], line[i], line[j])
    {
      if j < |early| {
        assert ReadyBefore(ts, order + [t], early[i], early[j]);
      } else if i >= |early| {
        assert line[i] == late[i - |early|] && line[j] == late[j - |early|];
      }
    }
  }

  /** Before the sort is complete, no more is done than there is. */
  lemma RoomLeft(ts: seq<Subtask>, order: seq<Subtask>, queue: seq<string>, indegree: map<string, nat>)
    requires DistinctIds(ts) && SortState(ts, order, queue, indegree) && queue != []
    ensures |order| < |ts|
  {
    DistinctIdsCount(ts);
    DistinctIdsCount(order);
    assert queue[0] in queue;
    SubsetSmaller(Ids(order), Ids(ts), queue[0]);
  }

  lemma SubsetSmaller(a: set<string>, b: set<string>, x: string)
    requires a <= b && x in b && x !in a
    ensures |a| < |b|
    decreases |a|
  {
    if y :| y in a { SubsetSmaller(a - {y}, b - {y}, x); }
  }

  lemma AddEdgesSnoc(dependents: map<string, seq<string>>, deps: seq<string>, j: nat, id: string)
    requires j < |deps|
    ensures var before := AddEdges(dependents, deps[..j], id);
            AddEdges(dependents, deps[..j + 1], id) == before[deps[j] := Get(before, deps[j]) + [id]]
  {
    assert deps[..j + 1][..j] == deps[..j];
  }

  lemma EdgesSnoc(ts: seq<Subtask>, i: nat)
    requires i < |ts|
    ensures Edges(ts[..i + 1]) == AddEdges(Edges(ts[..i]), ts[i].dependsOn, ts[i].id)
  {
    assert ts[..i + 1][..i] == ts[..i];
  }

  /** The edge lists as built hold every dependency entry once. */
  lemma {:induction false} EdgesRight(ts: seq<Subtask>)
    requires DistinctIds(ts)
    ensures EdgesOf(ts, Edges(ts))
    decreases |ts|
  {
    hide EdgesOf, UpTo;
    if ts == [] {
      NoEdges();
    } else {
      var i := |ts| - 1;
      EdgesRight(ts[..i]);
      UpToEnds(ts, i, Edges(ts[..i]));
      EdgesRightUpTo(ts, |ts[i].dependsOn|);
      assert ts[..i + 1] == ts && ts[i].dependsOn[..|ts[i].dependsOn|] == ts[i].dependsOn;
      UpToEnds(ts, i, Edges(ts));
    }
  }

  lemma NoEdges()
    ensures EdgesOf([], map[])
  {}

  lemma {:induction false} EdgesRightUpTo(ts: seq<Subtask>, j: nat)
    requires DistinctIds(ts) && ts != [] && j <= |ts[|ts| - 1].dependsOn|
    requires EdgesOf(UpTo(ts, |ts| - 1, 0), Edges(ts[..|ts| - 1]))
    ensures var last := ts[|ts| - 1];
            EdgesOf(UpTo(ts, |ts| - 1, j), AddEdges(Edges(ts[..|ts| - 1]), last.dependsOn[..j], last.id))
  {
    hide EdgesOf, UpTo;
    var last := ts[|ts| - 1];
    if j > 0 {
      EdgesRightUpTo(ts, j - 1);
      AddEdge(ts, |ts| - 1, j - 1, AddEdges(Edges(ts[..|ts| - 1]), last.dependsOn[..j - 1], last.id));
      AddEdgesSnoc(Edges(ts[..|ts| - 1]), last.dependsOn, j - 1, last.id);
    }
  }

  /** One subtask's dependency entries. */
  method AddDependencies(s: Subtask, indegree0: map<string, nat>, dependents0: map<string, seq<string>>)
    returns (indegree: map<string, nat>, dependents: map<string, seq<string>>)
    requires s.id in indegree0
    ensures indegree == indegree0[s.id := indegree0[s.id] + |s.dependsOn|]
    ensures dependents == AddEdges(dependents0, s.dependsOn, s.id)
  {
    hide AddEdges, Get;
    indegree, dependents := indegree0, dependents0;
    NothingAdded(dependents0, s.dependsOn, s.id);
    for j := 0 to |s.dependsOn|
      invariant indegree == indegree0[s.id := indegree0[s.id] + j]
      invariant dependents == AddEdges(dependents0, s.dependsOn[..j], s.id)
    {
      var dep := s.dependsOn[j];
      AddEdgesSnoc(dependents0, s.dependsOn, j, s.id);
      indegree := indegree[s.id := indegree[s.id] + 1];
      dependents := dependents[dep := Get(dependents, dep) + [s.id]];
    }
    assert s.dependsOn[..|s.dependsOn|] == s.dependsOn;
  }

  method ZeroDegrees(ts: seq<Subtask>) returns (indegree: map<string, nat>)
    ensures indegree.Keys == Ids(ts) && forall t :: t in ts ==> indegree[t.id] == 0
  {
    indegree := map[];
    for i := 0 to |ts|
      invariant indegree.Keys == Ids(ts[..i]) && forall id :: id in indegree ==> indegree[id] == 0
    {
      assert ts[..i + 1] == ts[..i] + [ts[i]];
      indegree := indegree[ts[i].id := 0];
    }
    assert ts[..|ts|] == ts;
  }

  method BuildGraph(ts: seq<Subtask>) returns (indegree: map<string, nat>, dependents: map<string, seq<string>>)
    requires DistinctIds(ts)
    ensures indegree.Keys == Ids(ts) && forall t :: t in ts ==> indegree[t.id] == |t.dependsOn|
    ensures dependents == Edges(ts)
  {
    indegree := ZeroDegrees(ts);
    dependents := map[];
    for i := 0 to |ts|
      invariant indegree.Keys == Ids(ts)
      invariant forall k :: 0 <= k < |ts| ==> indegree[ts[k].id] == if k < i then |ts[k].dependsOn| else 0
      invariant dependents == Edges(ts[..i])
    {
      hide AddEdges, Edges;
      indegree, dependents := AddDependencies(ts[i], indegree, dependents);
      EdgesSnoc(ts, i);
    }
    assert ts[..|ts|] == ts;
  }

  lemma NothingAdded(dependents: map<string, seq<string>>, deps: seq<string>, id: string)
    ensures AddEdges(dependents, deps[..0], id) == dependents
  {}

  /** Before the first round: nothing done, and every count is that of all dependency entries. */
  lemma StartState(ts: seq<Subtask>, queue: seq<string>, indegree: map<string, nat>)
    requires DistinctIds(ts) && forall t :: t in ts ==> t.id in indegree && indegree[t.id] == |t.dependsOn|
    requires forall x :: x in queue <==> exists k :: 0 <= k < |ts| && ts[k].id == x && x in indegree && indegree[x] == 0
    requires forall k, l :: 0 <= k < l < |queue| ==> queue[k] != queue[l]
    ensures SortState(ts, [], queue, indegree)
  {
    assert Ids([]) == {};
    forall t | t in ts
      ensures indegree[t.id] == Open(t.dependsOn, {})
      ensures t.id in queue <==> indegree[t.id] == 0
    {
      OpenFacts(t.dependsOn, {}, "");
      var k :| 0 <= k < |ts| && ts[k] == t;
    }
  }

  /** The ids without dependencies, in plan order. */
  method Roots(ts: seq<Subtask>, indegree: map<string, nat>) returns (queue: seq<string>)
    requires DistinctIds(ts) && forall t :: t in ts ==> t.id in indegree && indegree[t.id] == |t.dependsOn|
    ensures SortState(ts, [], queue, indegree) && queue == RootIds(ts)
  {
    hide SortState;
    queue := [];
    for i := 0 to |ts|
      invariant queue == RootIds(ts[..i])
      invariant forall x :: x in queue <==> exists k :: 0 <= k < i && ts[k].id == x && indegree[x] == 0
      invariant forall k, l :: 0 <= k < l < |queue| ==> queue[k] != queue[l]
    {
      assert ts[..i + 1][..i] == ts[..i];
      if indegree[ts[i].id] == 0 { queue := queue + [ts[i].id]; }
    }
    assert ts[..|ts|] == ts;
    StartState(ts, queue, indegree);
  }

  /** The dependents of the id just done lose one count each; who reaches zero joins the queue. */
  method VisitAll(nexts: seq<string>, queue0: seq<string>, indegree0: map<string, nat>, ghost ts: seq<Subtask>,
                  ghost done: set<string>)
    returns (queue: seq<string>, indegree: map<string, nat>)
    requires DistinctIds(ts) && RoundState(ts, done, queue0, indegree0, nexts)
    ensures RoundState(ts, done, queue, indegree, [])
    ensures (queue, indegree) == Visit(nexts, queue0, indegree0)
  {
    hide RoundState, DistinctIds;
    queue, indegree := queue0, indegree0;
    assert nexts[0..] == nexts;
    for j := 0 to |nexts|
      invariant RoundState(ts, done, queue, indegree, nexts[j..])
      invariant Visit(nexts[j..], queue, indegree) == Visit(nexts, queue0, indegree0)
    {
      var next := nexts[j];
      VisitNext(ts, done, queue, indegree, nexts[j..]);
      assert nexts[j..][1..] == nexts[j + 1..];
      indegree := indegree[next := indegree[next] - 1];
      if indegree[next] == 0 { queue := queue + [next]; }
    }
    assert nexts[|nexts|..] == [];
  }

  lemma QueueHead(ts: seq<Subtask>, order: seq<Subtask>, queue: seq<string>, indegree: map<string, nat>)
    requires DistinctIds(ts) && SortState(ts, order, queue, indegree) && queue != []
    ensures queue[0] in Ids(ts) && queue[0] !in Ids(order) && |order| < |ts|
    ensures ts[IndexOf(ts, queue[0])] in ts && ts[IndexOf(ts, queue[0])].id == queue[0]
  {
    assert queue[0] in queue;
    RoomLeft(ts, order, queue, indegree);
  }

  lemma AllInPlan(ts: seq<Subtask>, order: seq<Subtask>, t: Subtask)
    requires (forall u :: u in order ==> u in ts) && t in ts
    ensures forall u :: u in order + [t] ==> u in ts
  {}

  lemma OrderInPlan(ts: seq<Subtask>, order: seq<Subtask>, queue: seq<string>, indegree: map<string, nat>)
    requires SortState(ts, order, queue, indegree)
    ensures forall t :: t in order ==> t in ts
  {}

  /**
   * Kahn's algorithm: the one dependency-respecting permutation in which every subtask waits its turn,
   * or an error exactly when there is a cycle.
   */
  method TopoSort(ts: seq<Subtask>) returns (r: Result<seq<Subtask>>)
    requires DistinctIds(ts) && KnownDeps(ts)
    ensures r.Ok? <==> Acyclic(ts)
    ensures r.Ok? ==> multiset(r.value) == multiset(ts) && TopoOrdered(r.value) && InTurn(ts, r.value)
    ensures r == SortOf(ts)
  {
    hide SortState, RoundState, DistinctIds, TopoOrdered, EdgesOf, KnownDeps, Visit, Acyclic, Kahn, Edges, RootIds,
        Degrees, Fifo, InTurn;
    var byId := map id | id in Ids(ts) :: ts[IndexOf(ts, id)];
    var indegree, dependents := BuildGraph(ts);
    EdgesRight(ts);
    SameDegrees(ts, indegree);
    var queue := Roots(ts, indegree);
    FifoStart(ts);
    var order: seq<Subtask> := [];
    ghost var rounds: nat := |ts|;
    ghost var whole := Kahn(ts, dependents, order, queue, indegree, rounds);
    while queue != []
      invariant SortState(ts, order, queue, indegree) && |order| + rounds == |ts|
      invariant Fifo(ts, order, queue)
      invariant Kahn(ts, dependents, order, queue, indegree, rounds) == whole
      decreases Ids(ts) - Ids(order)
    {
      QueueHead(ts, order, queue, indegree);
      OrderInPlan(ts, order, queue, indegree);
      var id := queue[0];
      var t := byId[id];
      StartRound(ts, order, queue, indegree, dependents, t);
      AllInPlan(ts, order, t);
      var queue', indegree' := VisitAll(Get(dependents, id), queue[1..], indegree, ts, Ids(order + [t]));
      EndRound(ts, order + [t], queue', indegree');
      RoundTaken(ts, order, queue, indegree, dependents, rounds, t, queue', indegree');
      order, queue, indegree := order + [t], queue', indegree';
      rounds := rounds - 1;
    }
    KahnEnd(ts, dependents, order, indegree, rounds);
    QueueEmpty(ts, order, indegree);
    if |order| != |ts| { return Err(CYCLE); }
    SortedIsAcyclic(ts, order, indegree);
    FifoEnd(ts, order);
    r := Ok(order);
  }

  lemma RoundTaken(ts: seq<Subtask>, order: seq<Subtask>, queue: seq<string>, indegree: map<string, nat>,
                   dependents: map<string, seq<string>>, rounds: nat, t: Subtask, queue': seq<string>,
                   indegree': map<string, nat>)
    requires DistinctIds(ts) && SortState(ts, order, queue, indegree)
    requires EdgesOf(ts, dependents) && dependents == Edges(ts)
    requires rounds > 0 && queue != [] && queue[0] in Ids(ts) && t == ts[IndexOf(ts, queue[0])] && t in ts
    requires (queue', indegree') == Visit(Get(dependents, queue[0]), queue[1..], indegree) && Fifo(ts, order, queue)
    ensures Fifo(ts, order + [t], queue')
    ensures Kahn(ts, dependents, order, queue, indegree, rounds)
            == Kahn(ts, dependents, order + [t], queue', indegree', rounds - 1)
  {
    hide SortState, EdgesOf, Edges, Visit, Fifo, Kahn, DistinctIds, Ids;
    EdgesAscend(ts, |ts|, t.id);
    assert ts[..|ts|] == ts;
    FifoStep(ts, order, queue, indegree, dependents, t, queue');
    KahnStep(ts, dependents, order, queue, indegree, rounds, t, queue', indegree');
  }

  lemma FifoEnd(ts: seq<Subtask>, order: seq<Subtask>)
    requires Fifo(ts, order, [])
    ensures InTurn(ts, order)
  {
    assert order + Tasks(ts, []) == order;
  }

  lemma KahnStep(ts: seq<Subtask>, dependents: map<string, seq<string>>, order: seq<Subtask>, queue: seq<string>,
                 indegree: map<string, nat>, rounds: nat, t: Subtask, queue': seq<string>, indegree': map<string, nat>)
    requires rounds > 0 && queue != [] && queue[0] in Ids(ts) && t == ts[IndexOf(ts, queue[0])]
    requires (queue', indegree') == Visit(Get(dependents, queue[0]), queue[1..], indegree)
    ensures Kahn(ts, dependents, order, queue, indegree, rounds)
            == Kahn(ts, dependents, order + [t], queue', indegree', rounds - 1)
  {}

  lemma KahnEnd(ts: seq<Subtask>, dependents: map<string, seq<string>>, order: seq<Subtask>,
                indegree: map<string, nat>, rounds: nat)
    ensures Kahn(ts, dependents, order, [], indegree, rounds) == order
  {}

  lemma SortedIsAcyclic(ts: seq<Subtask>, order: seq<Subtask>, indegree: map<string, nat>)
    requires SortState(ts, order, [], indegree) && multiset(order) == multiset(ts)
    ensures TopoOrdered(order) && Acyclic(ts)
  {
    OrderedIsAcyclic(ts, order);
  }

  lemma SameDegrees(ts: seq<Subtask>, indegree: map<string, nat>)
    requires DistinctIds(ts) && indegree.Keys == Ids(ts)
    requires forall t :: t in ts ==> indegree[t.id] == |t.dependsOn|
    ensures indegree == Degrees(ts)
  {
    forall id | id in Ids(ts)
      ensures indegree[id] == Degrees(ts)[id]
    {
      assert ts[IndexOf(ts, id)] in ts;
    }
  }
}
