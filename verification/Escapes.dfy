/** Exactly which runs a start may take: those whose creation ended before FAILED was on disk. */
module Escapes {
  import opened Options
  import opened Runs
  import opened StateMachine
  import opened RunProtocol
  import opened Daemon
  import opened Steps
  import opened Lifecycle
  import opened Creations
  import Audits
  import Denials

  /** Started, or waiting to be started with no call left that could still deny it. */
  ghost predicate Open(s: State, id: RunId) {
    && id in s.runs
    && (s.runs[id].claimedIn.Some? || (s.runs[id].state == QUEUED && !BeingCreated(s, id)))
  }

  predicate BeforeFailed(p: Proc) {
    p.Making? || (p.Creating? && (p.k.Audit? || p.k.Mark? || p.k.DenyRead? || p.k.DenyWrite?))
  }

  /** The call ends here, and FAILED is not on disk. */
  predicate LeavesOpen(s: State, s': State, t: Tid, id: RunId) {
    && t in s.procs && t !in s'.procs && s.procs[t].run == id && BeforeFailed(s.procs[t])
    && id in s'.runs && s'.runs[id].state == QUEUED
  }

  ghost predicate EndsOpen(s: State, s': State, id: RunId) {
    exists t :: LeavesOpen(s, s', t, id)
  }

  lemma OpenStays(s: State, a: Action, s': State, id: RunId)
    requires Inv(s) && Step(s, a, s') && Open(s, id)
    ensures Open(s', id)
  {
    hide Inv, Step, Keeps, Denials.SameOutcome;
    if s.runs[id].claimedIn.Some? {
      ClaimStays(s, a, s', id);
    } else {
      var w := WhoWrites(s, a, s', id);
      if s'.runs[id].claimedIn.None? {
        Denials.OnlyCreationDecidesUnclaimed(s, a, s', id);
        OutcomeIsState(s.runs[id], s'.runs[id]);
        if t :| t in s'.procs && s'.procs[t].Creating? && s'.procs[t].run == id {
          NoNewCreation(s, a, s', id, t);
        }
      }
    }
  }

  lemma OutcomeIsState(f: Run, f': Run)
    requires Denials.SameOutcome(f, f')
    ensures f'.state == f.state
  {
  }

  lemma ClaimStays(s: State, a: Action, s': State, id: RunId)
    requires Inv(s) && Step(s, a, s') && id in s.runs && s.runs[id].claimedIn.Some?
    ensures id in s'.runs && s'.runs[id].claimedIn.Some?
  {
    hide Inv, Step;
    StepKeeps(s, a, s', id);
  }

  /** Nobody takes a run out of QUEUED while it is being created, and nobody but a holder does. */
  lemma ClaimsOnlyOpen(s: State, a: Action, s': State, id: RunId)
    requires Inv(s) && Step(s, a, s') && id in s.runs && s.runs[id].claimedIn.None?
    requires id in s'.runs && s'.runs[id].claimedIn.Some?
    ensures Open(s, id)
  {
    hide Inv, Step, Recovers, Good, LocalStep, CreateAnswered, BeingCreated, SameButLock;
    var w := WhoWrites(s, a, s', id);
    var f, f' := s.runs[id], s'.runs[id];
    match w
    case Nobody => LockKeepsClaim(f, f');
    case Exits(_, _) =>
    case Boot(fault) => Denials.RecoveryKeepsClaim(f, f', fault);
    case Creator(t) => CreatingKeepsFlags(id, f, s.procs[t].k, f', a.next);
    case Holder(t) =>
      HolderClaimsQueued(id, s.epoch, f, s.procs[t].pc, f', a.pc);
      HeldIsNotCreated(s, t, id);
  }

  lemma LockKeepsClaim(f: Run, f': Run)
    requires SameButLock(f, f')
    ensures f'.claimedIn == f.claimedIn
  {
  }

  lemma HeldIsNotCreated(s: State, t: Tid, id: RunId)
    requires Inv(s) && t in s.procs && s.procs[t].Lease? && s.procs[t].run == id
    ensures !BeingCreated(s, id)
  {
    hide Inv;
    if u :| u in s.procs && s.procs[u].Creating? && s.procs[u].run == id {
      CreatesAreOk(s, u);
    }
  }

  lemma HolderClaimsQueued(id: RunId, epoch: nat, f: Run, pc: Pc, f': Run, pc': Pc)
    requires Good(id, epoch, f, pc) && LocalStep(id, epoch, f, pc, f', pc') && f.claimedIn.None? && f'.claimedIn.Some?
    ensures f.state == QUEUED
  {
    Denials.UnclaimedIsEarly(id, epoch, f, pc);
    Denials.OnlyQueuedIsClaimed(id, epoch, f, pc);
    hide Good;
  }

  /** A run becomes open only when its creating call ends before FAILED is on disk. */
  lemma BecomesOpen(s: State, a: Action, s': State, id: RunId)
    requires Inv(s) && Inv(s') && Step(s, a, s') && !Open(s, id) && Open(s', id)
    ensures EndsOpen(s, s', id)
  {
    hide Inv, Step, BeingCreated;
    if id !in s.runs {
      NewRunsAreMade(s, a, s', id);
      MadeUntold(s, a, s', id);
    } else {
      var w := WhoWrites(s, a, s', id);
      if s'.runs[id].claimedIn.Some? {
        ClaimsOnlyOpen(s, a, s', id);
      } else {
        CreationEndsOpen(s, a, s', id);
      }
    }
  }

  lemma MadeUntold(s: State, a: Action, s': State, id: RunId)
    requires a.MakeState? && a.t in s.procs && s.procs[a.t].Making? && s.procs[a.t].run == id && !a.io.Lost?
    requires s' == Made(s, a.t, a.io) && Open(s', id)
    ensures EndsOpen(s, s', id)
  {
    if a.io.Landed? {
      Audits.MadeIsCreated(s, a.t);
    }
    hide BeingCreated;
    assert LeavesOpen(s, s', a.t, id);
  }

  lemma CreationEndsOpen(s: State, a: Action, s': State, id: RunId)
    requires Inv(s) && Step(s, a, s') && !Open(s, id) && Open(s', id)
    requires id in s.runs && s'.runs[id].claimedIn.None? && s.runs[id].claimedIn.None?
    ensures EndsOpen(s, s', id)
  {
    hide Inv, Step, Denials.SameOutcome;
    if !BeingCreated(s, id) {
      Denials.OnlyCreationDecidesUnclaimed(s, a, s', id);
      OutcomeIsState(s.runs[id], s'.runs[id]);
    } else {
      var t :| t in s.procs && s.procs[t].Creating? && s.procs[t].run == id;
      CallEnds(s, a, s', t, id);
      QueuedBefore(s, a, s', id);
      CreatesAreOk(s, t);
      assert LeavesOpen(s, s', t, id);
    }
  }

  lemma QueuedBefore(s: State, a: Action, s': State, id: RunId)
    requires Inv(s) && Step(s, a, s') && id in s.runs && s.runs[id].claimedIn.None? && id in s'.runs
    requires s'.runs[id].state == QUEUED
    ensures s.runs[id].state == QUEUED
  {
    hide Inv, Step;
    StepKeeps(s, a, s', id);
    RunsAreOk(s, id);
  }

  /** If nobody creates the run any more, the call that did is gone. */
  lemma CallEnds(s: State, a: Action, s': State, t: Tid, id: RunId)
    requires Inv(s) && Step(s, a, s') && t in s.procs && s.procs[t].Creating? && s.procs[t].run == id
    requires !BeingCreated(s', id)
    ensures t !in s'.procs
  {
    hide Inv, Step;
    OnlyCreatorsStep(s, a, s', t);
    CreatesAreOk(s, t);
    CrashIsNewEpoch(s, a, s');
    if StepsItself(a, t) {
      var w := WhoWrites(s, a, s', id);
    } else {
      CreationsStay(s, a, s', t);
    }
    hide CreateAnswered;
    if t in s'.procs {
      Audits.StillCreated(s', t);
    }
  }

  lemma EndedIsOpen(s: State, a: Action, s': State, id: RunId)
    requires Inv(s) && Step(s, a, s') && EndsOpen(s, s', id)
    ensures Open(s', id)
  {
    hide Inv, Step;
    var t :| LeavesOpen(s, s', t, id);
    Audits.EndedIsAlone(s, a, s', t);
  }

  /** At some step before now the call ended before FAILED was on disk. */
  ghost predicate OnceEndedOpen(e: seq<State>, i: nat, id: RunId) {
    exists j :: EndedOpenAt(e, i, j, id)
  }

  ghost predicate EndedOpenAt(e: seq<State>, i: nat, j: int, id: RunId) {
    0 <= j < i < |e| && EndsOpen(e[j], e[j + 1], id)
  }

  lemma {:induction false} OpenFor(e: seq<State>, j: nat, i: nat, id: RunId)
    requires Execution(e) && j <= i < |e| && Open(e[j], id)
    ensures Open(e[i], id)
  {
    hide Inv, Step, Open;
    if j < i {
      OpenFor(e, j, i - 1, id);
      var a := StepAt(e, i - 1);
      OpenStays(e[i - 1], a, e[i], id);
    }
  }

  lemma {:induction false} OpenSince(e: seq<State>, i: nat, id: RunId)
    requires Execution(e) && i < |e| && Open(e[i], id)
    ensures OnceEndedOpen(e, i, id)
  {
    hide Inv, Step, Open, EndsOpen;
    NothingOpen(e, id);
    if i > 0 && Open(e[i - 1], id) {
      OpenSince(e, i - 1, id);
      var j :| EndedOpenAt(e, i - 1, j, id);
      assert EndedOpenAt(e, i, j, id);
    } else if i > 0 {
      var a := StepAt(e, i - 1);
      BecomesOpen(e[i - 1], a, e[i], id);
      assert EndedOpenAt(e, i, i - 1, id);
    }
  }

  lemma NothingOpen(e: seq<State>, id: RunId)
    requires Execution(e)
    ensures !Open(e[0], id)
  {
  }

  /**
   * A run has been started, or waits to be, exactly if the call that creates it has ended with the run
   * QUEUED: an allowed run by its answer, a denied one because the daemon died or a write was lost before
   * FAILED was on disk.
   */
  lemma OpenIff(e: seq<State>, i: nat, id: RunId)
    requires Execution(e) && i < |e|
    ensures Open(e[i], id) <==> OnceEndedOpen(e, i, id)
  {
    hide Inv, Step, Open, EndsOpen;
    if Open(e[i], id) {
      OpenSince(e, i, id);
    }
    if j: int :| EndedOpenAt(e, i, j, id) {
      var a := StepAt(e, j);
      EndedIsOpen(e[j], a, e[j + 1], id);
      OpenFor(e, j + 1, i, id);
    }
  }

  // ---- denied runs, when the writes of their creation land or the daemon dies ---------------------

  /** The await was answered as asked: what is on disk was told, and a denial goes on to FAILED. */
  predicate GoesOn(f: Run, k: CreatePc, f': Run, next: Option<CreatePc>) {
    match k
    case Audit => next.Some?
    case Mark => f.denied ==> next.Some?
    case DenyRead => next.Some?
    case DenyWrite => f'.state == FAILED
    case _ => true
  }

  ghost predicate CreationStep(s: State, a: Action, s': State) {
    && Step(s, a, s')
    && (a.CreateStep? && a.t in s.procs && s.procs[a.t].Creating? && s.procs[a.t].run in s.runs ==>
          GoesOn(s.runs[s.procs[a.t].run], s.procs[a.t].k, a.f, a.next))
    && (a.MakeState? ==> !a.io.Unsure?)
  }

  ghost predicate CreationNext(s: State, s': State) {
    exists a: Action :: CreationStep(s, a, s')
  }

  ghost predicate ReliableCreations(e: seq<State>) {
    Execution(e) && forall i :: 0 <= i < |e| - 1 ==> CreationNext(e[i], e[i + 1])
  }

  /** The daemon died before now, with the call standing before FAILED. */
  ghost predicate OnceDiedBeforeFailed(e: seq<State>, i: nat, id: RunId) {
    exists j, t :: DiedBeforeFailed(e, i, j, t, id)
  }

  predicate DiedBeforeFailed(e: seq<State>, i: nat, j: int, t: Tid, id: RunId) {
    && 0 <= j < i < |e| && e[j].epoch != e[j + 1].epoch
    && t in e[j].procs && e[j].procs[t].Creating? && e[j].procs[t].run == id && BeforeFailed(e[j].procs[t])
  }

  lemma CreationIsStep(s: State, a: Action, s': State)
    requires CreationStep(s, a, s')
    ensures Step(s, a, s')
  {
    hide Step;
  }

  lemma EndsOpenByCrash(s: State, a: Action, s': State, t: Tid, id: RunId)
    requires Inv(s) && CreationStep(s, a, s') && LeavesOpen(s, s', t, id) && s'.runs[id].denied
    ensures s'.epoch != s.epoch && s.procs[t].Creating?
  {
    hide Inv, Step;
    CreationIsStep(s, a, s');
    CrashIsNewEpoch(s, a, s');
    if s.procs[t].Creating? {
      CreatesAreOk(s, t);
      StepKeeps(s, a, s', id);
      OnlyCreatorsStep(s, a, s', t);
      if StepsItself(a, t) {
        var w := WhoWrites(s, a, s', id);
        Audits.CreatedAsSaid(s, a, s');
      } else {
        CreationsStay(s, a, s', t);
      }
    } else {
      MakesAreOk(s, t);
      if !a.Crash? {
        NewRunsAreMade(s, a, s', id);
      }
    }
  }

  lemma DiedIsOpen(e: seq<State>, i: nat, j: int, t: Tid, id: RunId)
    requires Execution(e) && DiedBeforeFailed(e, i, j, t, id)
    ensures Open(e[i], id)
  {
    hide Inv, Step;
    var a := StepAt(e, j);
    CrashIsNewEpoch(e[j], a, e[j + 1]);
    CreatesAreOk(e[j], t);
    OpenFor(e, j + 1, i, id);
  }

  lemma SomeLeaves(s: State, s': State, id: RunId) returns (t: Tid)
    requires EndsOpen(s, s', id)
    ensures LeavesOpen(s, s', t, id)
  {
    t :| LeavesOpen(s, s', t, id);
  }

  /**
   * If the writes of its creation land or the daemon dies, a denied run has been started, or can still be,
   * exactly if the daemon died while the call stood before FAILED.
   */
  lemma DeniedIsOpenIff(e: seq<State>, i: nat, id: RunId)
    requires ReliableCreations(e) && i < |e| && id in e[i].runs && e[i].runs[id].denied
    ensures Open(e[i], id) <==> OnceDiedBeforeFailed(e, i, id)
  {
    hide Inv, Step, EndsOpen, CreationStep, Open, LeavesOpen;
    OpenIff(e, i, id);
    if j: int :| EndedOpenAt(e, i, j, id) {
      InvariantHolds(e, j);
      assert CreationNext(e[j], e[j + 1]);
      var a: Action :| CreationStep(e[j], a, e[j + 1]);
      var t := SomeLeaves(e[j], e[j + 1], id);
      DeniedBefore(e, j + 1, i, id, e[j], t);
      EndsOpenByCrash(e[j], a, e[j + 1], t, id);
      LeavingBefore(e[j], e[j + 1], t, id);
      assert DiedBeforeFailed(e, i, j, t, id);
    }
    if j: int, t: Tid :| DiedBeforeFailed(e, i, j, t, id) {
      DiedIsOpen(e, i, j, t, id);
    }
  }

  lemma LeavingBefore(s: State, s': State, t: Tid, id: RunId)
    requires LeavesOpen(s, s', t, id)
    ensures t in s.procs && s.procs[t].run == id && BeforeFailed(s.procs[t])
  {
  }

  /** What admission decided does not change. */
  lemma {:induction false} DeniedStays(e: seq<State>, j: nat, i: nat, id: RunId)
    requires Execution(e) && j <= i < |e| && id in e[j].runs
    ensures id in e[i].runs && e[i].runs[id].denied == e[j].runs[id].denied
  {
    hide Inv, Step;
    if j < i {
      DeniedStays(e, j, i - 1, id);
      var a := StepAt(e, i - 1);
      StepKeeps(e[i - 1], a, e[i], id);
    }
  }

  lemma DeniedBefore(e: seq<State>, j: nat, i: nat, id: RunId, s: State, t: Tid)
    requires Execution(e) && j <= i < |e| && LeavesOpen(s, e[j], t, id) && id in e[i].runs && e[i].runs[id].denied
    ensures id in e[j].runs && e[j].runs[id].denied
  {
    DeniedStays(e, j, i, id);
  }
}
