/** The human-readable phase of an orchestrated run, read off its row and its children. */
module Phase {
  import opened Domain
  import opened Decimal
  import opened Store

  datatype TeamPhase = New | Analyzing | Working | Reviewing | Revising | Completed | Broken | NeedsHuman

  predicate AllDigits(s: string) {
    forall i :: 0 <= i < |s| ==> IsDigit(s[i])
  }

  /** `review`, `review2`, … */
  predicate IsReviewId(s: string) {
    "review" <= s && AllDigits(s[6..])
  }

  /** `rev1`, `rev2`, … */
  predicate IsRevisionId(s: string) {
    "rev" <= s && |s| > 3 && AllDigits(s[3..])
  }

  predicate IsActive(run: Run) {
    run.status == Queued || run.status == Running
  }

  function SubtaskIdOf(run: Run): string {
    if run.input.subtaskId.Some? then run.input.subtaskId.value else ""
  }

  function DeriveTeamPhase(parent: Run, children: seq<Run>): TeamPhase {
    match parent.status
    case Succeeded => Completed
    case Failed => Broken
    case Canceled => Broken
    case Paused => TeamPhase.NeedsHuman
    case Queued => TeamPhase.New
    case Running => if children == [] then Analyzing else FirstActive(children)
  }

  /** A phase other than those of work says just which status the parent has. */
  lemma PhaseSaysStatus(parent: Run, children: seq<Run>)
    ensures var phase := DeriveTeamPhase(parent, children);
            && (phase == Completed <==> parent.status == Succeeded)
            && (phase == Broken <==> parent.status == Failed || parent.status == Canceled)
            && (phase == TeamPhase.NeedsHuman <==> parent.status == Paused)
            && (phase == TeamPhase.New <==> parent.status == Queued)
            && (phase == Analyzing <==> parent.status == Running && children == [])
            && (phase in {Working, Reviewing, Revising} <==> parent.status == Running && children != [])
  {
    NotIdle(children);
  }

  lemma {:induction false} NotIdle(children: seq<Run>)
    ensures FirstActive(children) in {Working, Reviewing, Revising}
  {
    if children != [] { NotIdle(children[1..]); }
  }

  /** The scan over the active children. */
  function FirstActive(children: seq<Run>): TeamPhase {
    if children == [] then Working
    else if IsActive(children[0]) && IsReviewId(SubtaskIdOf(children[0])) then Reviewing
    else if IsActive(children[0]) && IsRevisionId(SubtaskIdOf(children[0])) then Revising
    else FirstActive(children[1..])
  }

  lemma {:induction false} FirstActiveFound(children: seq<Run>, k: nat)
    requires k < |children| && IsActive(children[k])
    requires forall i :: 0 <= i < |children| && i != k ==> !IsActive(children[i])
    ensures FirstActive(children) == FirstActive([children[k]])
  {
    if k == 0 {
      NoneActive(children[1..]);
      assert [children[0]][1..] == [];
    } else {
      FirstActiveFound(children[1..], k - 1);
    }
  }

  lemma {:induction false} NoneActive(children: seq<Run>)
    requires forall i :: 0 <= i < |children| ==> !IsActive(children[i])
    ensures FirstActive(children) == Working
  {
    if children != [] { NoneActive(children[1..]); }
  }
}
