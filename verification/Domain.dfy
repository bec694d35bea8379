/** The types the planes share, and the formal run state machine. */
module Domain {

  datatype Option<+T> = None | Some(value: T)

  /** A returned value or a thrown error. */
  datatype Result<+T> = Ok(value: T) | Err(error: string)

  datatype RunStatus = Queued | Running | Paused | Succeeded | Failed | Canceled

  datatype AgentType = Researcher | Writer | Analyst | Coder | Orchestrator | Reviewer

  function AllowedTransitions(s: RunStatus): set<RunStatus> {
    match s
    case Queued => {Running, Canceled}
    case Running => {Paused, Succeeded, Failed, Canceled}
    case Paused => {Running, Canceled}
    case Succeeded => {}
    case Failed => {}
    case Canceled => {}
  }

  predicate IsTerminal(s: RunStatus) {
    s in {Succeeded, Failed, Canceled}
  }

  predicate CanTransition(from: RunStatus, to: RunStatus) {
    to in AllowedTransitions(from)
  }

  /** The life of a run, edge by edge; terminal are the statuses without one. */
  lemma TransitionTable(a: RunStatus, b: RunStatus)
    ensures CanTransition(a, b) <==>
              || (a == Queued && (b == Running || b == Canceled))
              || (a == Running && (b == Paused || b == Succeeded || b == Failed || b == Canceled))
              || (a == Paused && (b == Running || b == Canceled))
    ensures IsTerminal(a) <==> forall c :: !CanTransition(a, c)
  {
    assert a == Running ==> CanTransition(a, Paused);
    assert a == Queued || a == Paused ==> CanTransition(a, Running);
  }

  const ILLEGAL_TRANSITION := "Illegal run transition"

  function Transition(from: RunStatus, to: RunStatus): (r: Result<RunStatus>)
    ensures r.Ok? <==> CanTransition(from, to)
    ensures r.Ok? ==> r.value == to && !IsTerminal(from)
  {
    if CanTransition(from, to) then Ok(to) else Err(ILLEGAL_TRANSITION)
  }

  /** JavaScript white space: what `trim` removes and `\s` matches. */
  predicate IsSpace(c: char) {
    var n := c as int;
    || 0x09 <= n <= 0x0d || 0x2000 <= n <= 0x200a
    || n in {0x20, 0xa0, 0x1680, 0x2028, 0x2029, 0x202f, 0x205f, 0x3000, 0xfeff}
  }
}
