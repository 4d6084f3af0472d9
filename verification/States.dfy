/** Formal lifecycle states of assignments and of cleanup work. */
module States {

  datatype AssignmentState =
    | Created | Persisted | Preparing | Prepared | Ready | Connected
    | Disconnected | Rejected | TimedOut | Failed | Deleted
  {
    predicate IsTerminal()
    {
      this in {Disconnected, Rejected, TimedOut, Failed, Deleted}
    }

    predicate CanTransitionTo(next: AssignmentState)
    {
      this == next || (next == Deleted && !IsTerminal()) ||
      match this
      case Created => next in {Persisted, Preparing, Failed}
      case Persisted => next in {Preparing, Prepared, Rejected, TimedOut, Failed}
      case Preparing => next in {Prepared, Rejected, TimedOut, Failed}
      case Prepared => next in {Ready, Connected, TimedOut, Failed}
      case Ready => next in {Connected, TimedOut, Failed}
      case Connected => next == Disconnected
      case _ => false
    }

    /** How far along its life an assignment is. */
    function Progress(): nat
    {
      match this
      case Created => 0
      case Persisted => 1
      case Preparing => 2
      case Prepared => 3
      case Ready => 4
      case Connected => 5
      case _ => 6
    }
  }

  /** A chain of legal steps, each of which changes the state. */
  predicate LegalChain(chain: seq<AssignmentState>)
  {
    forall i | 0 < i < |chain| :: chain[i - 1] != chain[i] && chain[i - 1].CanTransitionTo(chain[i])
  }

  /** Every step of a legal chain makes progress; so it has at most six steps and stops for good in a terminal state. */
  lemma {:induction false} LegalChainProgress(chain: seq<AssignmentState>)
    requires LegalChain(chain) && chain != []
    ensures chain[|chain| - 1].Progress() >= chain[0].Progress() + |chain| - 1
    ensures |chain| - 1 <= 6
    ensures forall i | 0 <= i < |chain| && chain[i].IsTerminal() :: i == |chain| - 1
  {
    if |chain| > 1 {
      LegalChainProgress(chain[..|chain| - 1]);
    }
  }

  lemma LegalChainExtend(chain: seq<AssignmentState>, next: AssignmentState)
    requires LegalChain(chain) && chain != []
    ensures var last := chain[|chain| - 1]; LegalChain(chain + [next]) <==> last != next && last.CanTransitionTo(next)
  {
    var extended := chain + [next];
    assert extended[|chain| - 1] == chain[|chain| - 1] && extended[|chain|] == next;
  }

  /** A chain may go on to be deleted exactly until it ends, also from `Connected`, which otherwise only disconnects. */
  lemma DeletedFromAnywhere(chain: seq<AssignmentState>)
    requires LegalChain(chain) && chain != []
    ensures LegalChain(chain + [Deleted]) <==> !chain[|chain| - 1].IsTerminal()
    ensures chain[|chain| - 1] == Connected ==>
              forall next :: LegalChain(chain + [next]) <==> next == Disconnected || next == Deleted
  {
    forall next: AssignmentState
      ensures var last := chain[|chain| - 1]; LegalChain(chain + [next]) <==> last != next && last.CanTransitionTo(next)
    {
      LegalChainExtend(chain, next);
    }
  }

  /** The transitions that docs/state-machines.md lists. */
  const DOCUMENTED := map[
    Created := {Persisted, Preparing, Failed, Deleted},
    Persisted := {Preparing, Prepared, Rejected, TimedOut, Failed, Deleted},
    Preparing := {Prepared, Rejected, TimedOut, Failed, Deleted},
    Prepared := {Ready, Connected, TimedOut, Failed, Deleted},
    Ready := {Connected, TimedOut, Failed, Deleted},
    Connected := {Disconnected}]

  /** The code allows what is documented, staying put, and deleting what is connected; and nothing else. */
  lemma AsDocumented(s: AssignmentState, t: AssignmentState)
    ensures s.CanTransitionTo(t) <==>
            s == t || (s in DOCUMENTED && t in DOCUMENTED[s]) || (s == Connected && t == Deleted)
    ensures s.IsTerminal() <==> forall next :: s.CanTransitionTo(next) ==> next == s
  {
    match s
    case Created => assert s.CanTransitionTo(Persisted);
    case Persisted => assert s.CanTransitionTo(Preparing);
    case Preparing => assert s.CanTransitionTo(Prepared);
    case Prepared => assert s.CanTransitionTo(Ready);
    case Ready => assert s.CanTransitionTo(Connected);
    case Connected => assert s.CanTransitionTo(Disconnected);
    case _ =>
  }

  /** Six steps are possible. */
  lemma LongestChain()
    ensures exists chain :: LegalChain(chain) && |chain| == 7 && chain[0] == Created
  {
    var chain := [Created];
    LegalChainExtend(chain, Persisted);
    chain := chain + [Persisted];
    LegalChainExtend(chain, Preparing);
    chain := chain + [Preparing];
    LegalChainExtend(chain, Prepared);
    chain := chain + [Prepared];
    LegalChainExtend(chain, Ready);
    chain := chain + [Ready];
    LegalChainExtend(chain, Connected);
    chain := chain + [Connected];
    LegalChainExtend(chain, Disconnected);
    assert LegalChain(chain + [Disconnected]);
  }

  datatype WorkState = Queued | Processing | Succeeded | Retrying | DeadLettered | Dropped
  {
    predicate IsTerminal()
    {
      this in {Succeeded, DeadLettered, Dropped}
    }

    predicate CanTransitionTo(next: WorkState)
    {
      this == next ||
      match this
      case Queued => next in {Processing, Dropped}
      case Processing => next in {Succeeded, Retrying, DeadLettered, Dropped}
      case Retrying => next in {Processing, DeadLettered, Dropped}
      case _ => false
    }
  }

  const DOCUMENTED_WORK := map[
    Queued := {Processing, Dropped},
    Processing := {Succeeded, Retrying, DeadLettered, Dropped},
    Retrying := {Processing, DeadLettered, Dropped}]

  /** Cleanup work moves exactly as documented. */
  lemma WorkAsDocumented(s: WorkState, t: WorkState)
    ensures s.CanTransitionTo(t) <==> s == t || (s in DOCUMENTED_WORK && t in DOCUMENTED_WORK[s])
    ensures s.IsTerminal() <==> forall next :: s.CanTransitionTo(next) ==> next == s
  {
    match s
    case Queued => assert s.CanTransitionTo(Processing);
    case Processing => assert s.CanTransitionTo(Retrying);
    case Retrying => assert s.CanTransitionTo(Processing);
    case _ =>
  }
}
