/** The lifecycle table of a run: which state may follow which. */
module StateMachine {

  datatype RunState =
    | QUEUED | PREPARING | RUNNING | BLOCKED | VALIDATING
    | ORPHANED | SUCCEEDED | CANCELLED | FAILED

  /** The transition table. Terminal states have no outgoing edge. */
  predicate CanTransition(from: RunState, to: RunState) {
    match from
    case QUEUED => to.PREPARING? || to.CANCELLED? || to.FAILED?
    case PREPARING => to.RUNNING? || to.BLOCKED? || to.CANCELLED? || to.FAILED? || to.ORPHANED?
    case RUNNING => to.VALIDATING? || to.BLOCKED? || to.CANCELLED? || to.FAILED? || to.ORPHANED?
    case BLOCKED => to.RUNNING? || to.CANCELLED? || to.FAILED? || to.ORPHANED?
    case VALIDATING => to.SUCCEEDED? || to.FAILED? || to.ORPHANED?
    case ORPHANED => to.SUCCEEDED? || to.FAILED? || to.CANCELLED?
    case SUCCEEDED => false
    case CANCELLED => false
    case FAILED => false
  }

  predicate IsTerminal(s: RunState) {
    s.CANCELLED? || s.FAILED? || s.SUCCEEDED?
  }

  datatype RecoveryTarget = Leave | MoveTo(target: RunState)

  /** What boot recovery does with a run found in state `s`. */
  function RecoveryStateFor(s: RunState): RecoveryTarget {
    if IsTerminal(s) || s == QUEUED || s == ORPHANED then Leave else MoveTo(ORPHANED)
  }

  /** The table read by its targets: what each state is entered from. */
  lemma EnteredFrom(from: RunState, to: RunState)
    ensures CanTransition(from, to) <==>
              match to
              case QUEUED => false
              case PREPARING => from == QUEUED
              case RUNNING => from in {PREPARING, BLOCKED}
              case BLOCKED => from in {PREPARING, RUNNING}
              case VALIDATING => from == RUNNING
              case ORPHANED => from in {PREPARING, RUNNING, BLOCKED, VALIDATING}
              case SUCCEEDED => from in {VALIDATING, ORPHANED}
              case CANCELLED => from in {QUEUED, PREPARING, RUNNING, BLOCKED, ORPHANED}
              case FAILED => !IsTerminal(from)
    ensures IsTerminal(from) <==> forall next :: !CanTransition(from, next)
  {
    assert CanTransition(QUEUED, FAILED) && CanTransition(ORPHANED, FAILED);
    assert !IsTerminal(from) ==> CanTransition(from, FAILED);
  }

  /** Boot recovery moves exactly the states from which a run may be orphaned, and no other. */
  lemma RecoveryOrphansWhatItMay(s: RunState)
    ensures RecoveryStateFor(s) == if CanTransition(s, ORPHANED) then MoveTo(ORPHANED) else Leave
  {
  }

  /** A history of one run in which every step is an edge of the table. */
  ghost predicate IsPath(p: seq<RunState>) {
    forall i :: 0 <= i < |p| - 1 ==> CanTransition(p[i], p[i + 1])
  }

  /** Once a path has left QUEUED it never shows QUEUED or PREPARING again. */
  lemma {:induction false} NeverBackToStart(p: seq<RunState>, i: nat, j: nat)
    requires IsPath(p) && i < j < |p|
    ensures p[j] != QUEUED
    ensures p[j] == PREPARING ==> p[i] == QUEUED && j == i + 1
  {
    if i + 1 < j {
      NeverBackToStart(p, i, j - 1);
      assert CanTransition(p[j - 1], p[j]);
    } else {
      assert CanTransition(p[i], p[i + 1]);
    }
  }

  /** A run is prepared at most once in its life, whatever path it takes. */
  lemma PreparedAtMostOnce(p: seq<RunState>, i: nat, j: nat)
    requires IsPath(p) && i < j < |p|
    ensures !(p[i] == PREPARING && p[j] == PREPARING)
  {
    NeverBackToStart(p, i, j);
  }

  /** Success has a witness: the state before SUCCEEDED was VALIDATING or ORPHANED. */
  lemma SuccessComesFromEvidence(p: seq<RunState>, j: nat)
    requires IsPath(p) && 0 < j < |p| && p[j] == SUCCEEDED
    ensures p[j - 1].VALIDATING? || p[j - 1].ORPHANED?
  {
    assert CanTransition(p[j - 1], p[j - 1 + 1]);
  }

  /** A state with a successor on some path is not terminal: terminal states end every path. */
  lemma TerminalIsForever(p: seq<RunState>, i: nat, j: nat)
    requires IsPath(p) && i < j < |p|
    ensures !IsTerminal(p[i])
  {
    assert CanTransition(p[i], p[i + 1]);
  }
}
