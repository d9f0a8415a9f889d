/** Boot recovery: what one pass over the store does to every run it finds. */
module Recovery {
  import opened Options
  import opened Runs
  import opened StateMachine

  // ---- stopping a worker this daemon did not launch --------------------------------------

  const TERMINATION_POLL_MS: nat := 100

  predicate IsPoll(t: nat) {
    t % TERMINATION_POLL_MS == 0
  }

  /** The first poll at or after the end of the grace period. */
  function LastPoll(graceMs: nat): (t: nat)
    ensures graceMs <= t < graceMs + TERMINATION_POLL_MS && IsPoll(t)
  {
    (graceMs + TERMINATION_POLL_MS - 1) / TERMINATION_POLL_MS * TERMINATION_POLL_MS
  }

  lemma FirstPoll()
    ensures IsPoll(0)
  {
  }

  lemma PollsAreSpaced(t: nat, u: nat)
    requires IsPoll(t)
    ensures IsPoll(t + TERMINATION_POLL_MS)
    ensures IsPoll(u) && t < u ==> t + TERMINATION_POLL_MS <= u
  {
  }

  /** The process is there at every poll of the grace period. */
  ghost predicate Outlasts(there: nat -> bool, graceMs: nat) {
    forall t: nat :: t <= LastPoll(graceMs) && IsPoll(t) ==> there(t)
  }

  /**
   * `there(t)` says whether the process exists t ms after the call. SIGKILL follows SIGTERM exactly
   * when the process outlasts the grace period, and "stopped" is only said of a process seen gone.
   */
  method StopSurvivingWorker(there: nat -> bool, graceMs: nat)
    returns (signals: seq<Signal>, elapsed: nat, stopped: bool)
    ensures signals == if Outlasts(there, graceMs) then [SIGTERM, SIGKILL] else [SIGTERM]
    ensures stopped <==> !there(elapsed)
    ensures Outlasts(there, graceMs) ==> elapsed == LastPoll(graceMs) + TERMINATION_POLL_MS
    ensures elapsed < graceMs + 2 * TERMINATION_POLL_MS
  {
    signals := [SIGTERM];
    elapsed := 0;
    hide IsPoll, LastPoll;
    assert IsPoll(0) by { FirstPoll(); }
    while elapsed < graceMs
      invariant elapsed <= LastPoll(graceMs) && IsPoll(elapsed)
      invariant forall t: nat :: t < elapsed && IsPoll(t) ==> there(t)
    {
      PollsAreSpaced(elapsed, LastPoll(graceMs));
      forall t: nat | t < elapsed + TERMINATION_POLL_MS && IsPoll(t) ensures t <= elapsed {
        PollsAreSpaced(elapsed, t);
      }
      if !there(elapsed) {
        return signals, elapsed, true;
      }
      elapsed := elapsed + TERMINATION_POLL_MS;
    }
    PollsAreSpaced(elapsed, LastPoll(graceMs));
    forall t: nat | t <= LastPoll(graceMs) && IsPoll(t) ensures t <= elapsed {
      PollsAreSpaced(elapsed, t);
    }
    if !there(elapsed) {
      return signals, elapsed, true;
    }
    signals := signals + [SIGKILL];
    elapsed := elapsed + TERMINATION_POLL_MS;
    stopped := !there(elapsed);
  }

  // ---- the store, as far as recovery sees it ----------------------------------------------

  datatype Liveness = NotLaunched | Alive | Dead | Unknown

  datatype RecoveredRun = RecoveredRun(runId: RunId, previousState: RunState, newState: RunState, liveness: Liveness)

  datatype TerminatedRun = TerminatedRun(runId: RunId, pid: nat, stopped: bool)

  datatype Report = Report(inspected: nat, orphaned: seq<RecoveredRun>, terminated: seq<TerminatedRun>, untouched: nat)

  /** metadata.json: the pid and start time, both or neither of use. */
  datatype Metadata = Metadata(pid: Option<nat>, processStartedAtMs: Option<int>) {
    predicate HasProcess() {
      pid.Some? && processStartedAtMs.Some?
    }
  }

  predicate Distinct(ids: seq<RunId>) {
    forall i, j :: 0 <= i < j < |ids| ==> ids[i] != ids[j]
  }

  predicate MidFlight(s: RunState) {
    RecoveryStateFor(s).MoveTo?
  }

  /** The listed runs that are mid-flight on disk, in listing order. */
  function MidFlightRuns(states: map<RunId, RunState>, ids: seq<RunId>): seq<RunId> {
    if ids == [] then [] else
      var last := ids[|ids| - 1];
      MidFlightRuns(states, ids[..|ids| - 1]) + if last in states && MidFlight(states[last]) then [last] else []
  }

  function IdsOf(runs: seq<RecoveredRun>): seq<RunId> {
    if runs == [] then [] else IdsOf(runs[..|runs| - 1]) + [runs[|runs| - 1].runId]
  }

  /** The only change of state there is: mid-flight to ORPHANED. */
  ghost predicate OnlyOrphans(before: map<RunId, RunState>, after: map<RunId, RunState>) {
    && after.Keys == before.Keys
    && forall r :: r in before ==> after[r] == before[r] || (MidFlight(before[r]) && after[r] == ORPHANED)
  }

  class Store {
    /** The directories under runs/, oldest first. */
    const ids: seq<RunId>
    /** Readable state files; a listed run that is missing here has none, or a corrupt one. */
    var states: map<RunId, RunState>
    var locks: set<RunId>
    /** Readable metadata files. */
    const metadata: map<RunId, Metadata>

    constructor (ids: seq<RunId>, states: map<RunId, RunState>, locks: set<RunId>, metadata: map<RunId, Metadata>)
      ensures this.ids == ids && this.states == states && this.locks == locks && this.metadata == metadata
    {
      this.ids, this.states, this.locks, this.metadata := ids, states, locks, metadata;
    }

    /** Nothing about this run is left to recover. */
    predicate Settled(r: RunId)
      reads this
    {
      SettledIn(states, locks, r)
    }

    method ReadState(r: RunId, readable: bool) returns (s: Option<RunState>)
      ensures s == if readable && r in states then Some(states[r]) else None
    {
      s := if readable && r in states then Some(states[r]) else None;
    }

    /** A lock that is not there is released; one that cannot be removed stays. */
    method ReleaseLock(r: RunId, removable: bool) returns (ok: bool)
      modifies `locks
      ensures ok == (removable || r !in old(locks))
      ensures locks == if removable then old(locks) - {r} else old(locks)
    {
      ok := removable || r !in locks;
      if removable {
        locks := locks - {r};
      }
    }

    method ReadMetadata(r: RunId, readable: bool) returns (m: Option<Metadata>)
      ensures m == if readable && r in metadata then Some(metadata[r]) else None
    {
      m := if readable && r in metadata then Some(metadata[r]) else None;
    }

    /** The state on disk decides; an error can be reported although the new state landed. */
    method TransitionState(r: RunId, to: RunState, readable: bool, landed: bool, reported: bool) returns (ok: bool)
      modifies `states
      ensures var allowed := readable && r in old(states) && CanTransition(old(states)[r], to);
              && ok == (allowed && landed && reported)
              && states == if allowed && landed then old(states)[r := to] else old(states)
    {
      var current := ReadState(r, readable);
      if current.None? || !CanTransition(current.value, to) {
        return false;
      }
      if landed {
        states := states[r := to];
      }
      ok := landed && reported;
    }

    /** What the pass does with one run, given how the world answers. */
    method RecoverRun(runId: RunId, w: Answers) returns (v: Verdict)
      modifies `states, `locks
      ensures v == Judged(old(states), old(locks), metadata, runId, w)
      ensures states == StatesAfter(old(states), metadata, runId, w)
      ensures locks == LocksAfter(old(states), old(locks), runId, w)
    {
      hide CanTransition;
      v := Verdict(None, None, false, true);
      var state := ReadState(runId, w.stateReadable);
      if state.None? {
        return;
      }
      var previousState := state.value;
      var released := ReleaseLock(runId, w.lockRemovable);
      v := v.(failed := !released);
      if RecoveryStateFor(previousState).Leave? {
        SettledNow(previousState);
        return v.(untouched := true);
      }
      var target := RecoveryStateFor(previousState).target;
      TargetIsOrphaned(previousState);
      var meta := ReadMetadata(runId, w.metadataReadable);
      if meta.None? {
        return v.(failed := true);
      }
      var liveness := NotLaunched;
      if meta.value.HasProcess() {
        liveness := w.alive;
        if liveness.Alive? {
          v := v.(terminated := Some(TerminatedRun(runId, meta.value.pid.value, w.stopped)),
                  failed := v.failed || !w.stopped);
        }
      }
      var transitioned := TransitionState(runId, target, w.stillReadable, w.landed, w.reported);
      if !transitioned {
        return v.(failed := true);
      }
      v := v.(orphaned := Some(RecoveredRun(runId, previousState, target, liveness)));
    }

    /**
     * One pass. It reports success exactly if the listing and every run were handled without failure;
     * then every listed run is settled and the report names exactly the mid-flight ones. Whatever fails,
     * runs only ever move from mid-flight to ORPHANED and locks only disappear, and a settled store
     * stays as it is.
     */
    method RecoverRuns(listable: bool, world: RunId -> Answers) returns (r: Option<Report>)
      requires Distinct(ids)
      modifies `states, `locks
      ensures OnlyOrphans(old(states), states) && locks <= old(locks)
      ensures r.Some? <==> listable && forall i :: 0 <= i < |ids| ==>
                !Judged(old(states), old(locks), metadata, ids[i], world(ids[i])).failed
      ensures r.Some? ==> Accurate(old(states), ids, r.value) && forall i :: 0 <= i < |ids| ==> Settled(ids[i])
      ensures r.Some? ==> AllStopped(old(states), metadata, world, ids, r.value.terminated)
      ensures r.Some? ==> LivenessReported(metadata, world, r.value.orphaned)
      ensures (exists i :: 0 <= i < |ids| && Survives(old(states), metadata, world, ids[i]) && !world(ids[i]).stopped)
                ==> r.None?
      ensures (forall i :: 0 <= i < |ids| ==> old(Settled(ids[i]))) ==> states == old(states) && locks == old(locks)
      ensures listable ==> forall i :: 0 <= i < |ids| ==>
                SameAt(StatesAfter(old(states), metadata, ids[i], world(ids[i])), states, ids[i])
    {
      hide MidFlight, CanTransition, Judged, StatesAfter, LocksAfter, Passed, Reported, SettledIn;
      NothingPassed(states, locks, metadata, world, ids);
      if !listable {
        PassedLeaves(states, locks, metadata, world, ids, 0, states, locks, false);
        return None;
      }
      var orphaned: seq<RecoveredRun>, terminated: seq<TerminatedRun> := [], [];
      var untouched: nat, failed := 0, false;
      for i := 0 to |ids|
        invariant Passed(old(states), old(locks), metadata, world, ids, i, states, locks, failed)
        invariant !failed ==>
          Reported(old(states), metadata, world, ids[..i], Report(i, orphaned, terminated, untouched))
      {
        ghost var states1, locks1 := states, locks;
        var v := RecoverRun(ids[i], world(ids[i]));
        PassesOn(old(states), old(locks), metadata, world, ids, i, states1, locks1, failed);
        ghost var sofar := Report(i, orphaned, terminated, untouched);
        if v.orphaned.Some? {
          orphaned := orphaned + [v.orphaned.value];
        }
        if v.terminated.Some? {
          terminated := terminated + [v.terminated.value];
        }
        if v.untouched {
          untouched := untouched + 1;
        }
        if !failed && !v.failed {
          StaysReported(old(states), old(locks), metadata, world, ids, i, sofar, v);
        }
        failed := failed || v.failed;
      }
      assert ids[..|ids|] == ids;
      PassedLeaves(old(states), old(locks), metadata, world, ids, |ids|, states, locks, failed);
      r := if failed then None else Some(Report(|ids|, orphaned, terminated, untouched));
      if !failed {
        ReportedSays(old(states), metadata, world, ids, r.value);
      }
    }
  }

  // ---- one run ---------------------------------------------------------------------------------

  /** How the store, the process table and the process answer for one run. */
  datatype Answers = Answers(
    stateReadable: bool, lockRemovable: bool, metadataReadable: bool, alive: Launched, stopped: bool,
    stillReadable: bool, landed: bool, reported: bool)

  type Launched = l: Liveness | !l.NotLaunched? witness Dead

  /** The store lets the pass get as far as the transition. */
  predicate Transitions(states: map<RunId, RunState>, metadata: map<RunId, Metadata>, r: RunId, w: Answers) {
    && w.stateReadable && r in states && MidFlight(states[r])
    && w.metadataReadable && r in metadata && w.stillReadable && w.landed
  }

  function StatesAfter(states: map<RunId, RunState>, metadata: map<RunId, Metadata>, r: RunId, w: Answers)
    : map<RunId, RunState>
  {
    if Transitions(states, metadata, r, w) then states[r := ORPHANED] else states
  }

  function LocksAfter(states: map<RunId, RunState>, locks: set<RunId>, r: RunId, w: Answers): set<RunId> {
    if w.stateReadable && r in states && w.lockRemovable then locks - {r} else locks
  }

  function LivenessOf(metadata: map<RunId, Metadata>, r: RunId, w: Answers): Liveness {
    if r in metadata && metadata[r].HasProcess() then w.alive else NotLaunched
  }

  /** What the report says of a run, and whether anything about it failed. */
  function Judged(states: map<RunId, RunState>, locks: set<RunId>, metadata: map<RunId, Metadata>,
                  r: RunId, w: Answers): Verdict {
    if !w.stateReadable || r !in states then Verdict(None, None, false, true)
    else
      var locked := r in locks && !w.lockRemovable;
      if !MidFlight(states[r]) then Verdict(None, None, true, locked)
      else if !w.metadataReadable || r !in metadata then Verdict(None, None, false, true)
      else
        var liveness := LivenessOf(metadata, r, w);
        var moved := w.stillReadable && w.landed && w.reported;
        Verdict(
          if moved then Some(RecoveredRun(r, states[r], ORPHANED, liveness)) else None,
          if liveness.Alive? then Some(TerminatedRun(r, metadata[r].pid.value, w.stopped)) else None,
          false,
          locked || !moved || (liveness.Alive? && !w.stopped))
  }

  /** A run handled without failure is settled and reported; one that was settled is left as it was. */
  lemma OneRun(states0: map<RunId, RunState>, states: map<RunId, RunState>, locks0: set<RunId>, locks: set<RunId>,
               metadata: map<RunId, Metadata>, r: RunId, w: Answers)
    requires OnlyOrphans(states0, states) && SameAt(states0, states, r) && (r in locks <==> r in locks0)
    ensures var v, states', locks' := Judged(states, locks, metadata, r, w), StatesAfter(states, metadata, r, w),
                                      LocksAfter(states, locks, r, w);
            && v == Judged(states0, locks0, metadata, r, w)
            && SameAt(StatesAfter(states0, metadata, r, w), states', r)
            && OnlyOrphans(states0, states') && locks' <= locks
            && (forall q :: q != r ==> SameAt(states, states', q) && (q in locks' <==> q in locks))
            && (!v.failed ==> r in states' && !MidFlight(states'[r]) && r !in locks')
            && (r in states && !MidFlight(states[r]) && r !in locks ==> states' == states && locks' == locks)
            && (!v.failed ==>
                  && r in states0 && v.orphaned.Some? == MidFlight(states0[r]) && v.untouched == !v.orphaned.Some?
                  && (v.orphaned.Some? ==> v.orphaned.value.runId == r && v.orphaned.value.newState == ORPHANED
                                           && v.orphaned.value.previousState == states0[r])
                  && (v.terminated.Some? ==>
                        v.terminated.value.runId == r && v.orphaned.Some? && v.terminated.value.stopped))
  {
  }

  // ---- workers that outlived their daemon ----------------------------------------------------

  /** A listed run that is mid-flight, whose process is on record and answers that it is alive. */
  predicate Survives(states: map<RunId, RunState>, metadata: map<RunId, Metadata>, world: RunId -> Answers, id: RunId) {
    && id in states && (states[id].PREPARING? || states[id].RUNNING? || states[id].BLOCKED? || states[id].VALIDATING?)
    && id in metadata && metadata[id].pid.Some? && metadata[id].processStartedAtMs.Some?
    && world(id).alive == Alive
  }

  /** One entry for each survivor, with the pid on record, and no other entry: every one of them was stopped. */
  ghost predicate AllStopped(states: map<RunId, RunState>, metadata: map<RunId, Metadata>, world: RunId -> Answers,
                             ids: seq<RunId>, terminated: seq<TerminatedRun>)
  {
    && (forall i :: 0 <= i < |ids| && Survives(states, metadata, world, ids[i]) ==>
          TerminatedRun(ids[i], metadata[ids[i]].pid.value, true) in terminated)
    && (forall k :: 0 <= k < |terminated| ==>
          && terminated[k].runId in ids && Survives(states, metadata, world, terminated[k].runId)
          && terminated[k] == TerminatedRun(terminated[k].runId, metadata[terminated[k].runId].pid.value, true))
    && (forall j, k :: 0 <= j < k < |terminated| ==> terminated[j].runId != terminated[k].runId)
  }

  /** What is reported of the process of an orphaned run is what the process table answered, or that there is none. */
  ghost predicate LivenessReported(metadata: map<RunId, Metadata>, world: RunId -> Answers,
                                   orphaned: seq<RecoveredRun>)
  {
    forall k :: 0 <= k < |orphaned| ==>
      && orphaned[k].runId in metadata
      && orphaned[k].liveness
         == if metadata[orphaned[k].runId].pid.Some? && metadata[orphaned[k].runId].processStartedAtMs.Some?
            then world(orphaned[k].runId).alive else NotLaunched
  }

  /**
   * What becomes of one run, said of the answers alone: what is unreadable fails, what is settled is left,
   * a survivor is stopped and reported with the outcome, and everything mid-flight is orphaned.
   */
  lemma JudgedSays(states: map<RunId, RunState>, locks: set<RunId>, metadata: map<RunId, Metadata>,
                   world: RunId -> Answers, id: RunId)
    ensures var v, w := Judged(states, locks, metadata, id, world(id)), world(id);
            var known := w.stateReadable && id in states;
            var midFlight := known && !(states[id].QUEUED? || states[id].ORPHANED? || states[id].SUCCEEDED?
                                        || states[id].FAILED? || states[id].CANCELLED?);
            var described := midFlight && w.metadataReadable && id in metadata;
            var alive := described && Survives(states, metadata, world, id);
            var moved := described && w.stillReadable && w.landed;
            && v.untouched == (known && !midFlight)
            && v.terminated == (if alive then Some(TerminatedRun(id, metadata[id].pid.value, w.stopped)) else None)
            && v.orphaned.Some? == (moved && w.reported)
            && (v.orphaned.Some? ==>
                  && v.orphaned.value == RecoveredRun(id, states[id], ORPHANED, v.orphaned.value.liveness)
                  && LivenessReported(metadata, world, [v.orphaned.value]))
            && (v.failed <==> !known || (id in locks && !w.lockRemovable) || (midFlight && !(moved && w.reported))
                              || (alive && !w.stopped))
            && StatesAfter(states, metadata, id, w) == (if moved then states[id := ORPHANED] else states)
            && LocksAfter(states, locks, id, w) == if known && w.lockRemovable then locks - {id} else locks
  {
  }

  lemma StaysStopped(states: map<RunId, RunState>, locks: set<RunId>, metadata: map<RunId, Metadata>,
                     world: RunId -> Answers, ids: seq<RunId>, i: nat, terminated: seq<TerminatedRun>,
                     orphaned: seq<RecoveredRun>, v: Verdict)
    requires Distinct(ids) && i < |ids| && v == Judged(states, locks, metadata, ids[i], world(ids[i])) && !v.failed
    requires AllStopped(states, metadata, world, ids[..i], terminated) && LivenessReported(metadata, world, orphaned)
    ensures AllStopped(states, metadata, world, ids[..i + 1],
                       if v.terminated.Some? then terminated + [v.terminated.value] else terminated)
    ensures LivenessReported(metadata, world, if v.orphaned.Some? then orphaned + [v.orphaned.value] else orphaned)
  {
    JudgedSays(states, locks, metadata, world, ids[i]);
    LivenessStays(metadata, world, orphaned, v);
    assert v.terminated == if Survives(states, metadata, world, ids[i])
                           then Some(TerminatedRun(ids[i], metadata[ids[i]].pid.value, true)) else None;
    hide Survives, Judged, LivenessReported;
    assert ids[..i + 1] == ids[..i] + [ids[i]];
    assert ids[i] !in ids[..i];
  }

  lemma SurvivorsMustBeStopped(states: map<RunId, RunState>, locks: set<RunId>, metadata: map<RunId, Metadata>,
                               world: RunId -> Answers, ids: seq<RunId>)
    ensures forall i :: 0 <= i < |ids| && Survives(states, metadata, world, ids[i]) && !world(ids[i]).stopped ==>
              Judged(states, locks, metadata, ids[i], world(ids[i])).failed
  {
    forall i | 0 <= i < |ids| && Survives(states, metadata, world, ids[i]) && !world(ids[i]).stopped
      ensures Judged(states, locks, metadata, ids[i], world(ids[i])).failed
    {
      JudgedSays(states, locks, metadata, world, ids[i]);
    }
  }

  lemma LivenessStays(metadata: map<RunId, Metadata>, world: RunId -> Answers, orphaned: seq<RecoveredRun>, v: Verdict)
    requires LivenessReported(metadata, world, orphaned)
    requires v.orphaned.Some? ==> LivenessReported(metadata, world, [v.orphaned.value])
    ensures LivenessReported(metadata, world, if v.orphaned.Some? then orphaned + [v.orphaned.value] else orphaned)
  {
    if v.orphaned.Some? {
      assert [v.orphaned.value][0] == v.orphaned.value;
    }
  }

  // ---- the pass, run by run --------------------------------------------------------------------

  predicate SettledIn(states: map<RunId, RunState>, locks: set<RunId>, r: RunId) {
    r in states && !MidFlight(states[r]) && r !in locks
  }

  /** The first i runs have been handled, and nothing else; `failed` says whether anything about them failed. */
  ghost predicate Passed(states0: map<RunId, RunState>, locks0: set<RunId>, metadata: map<RunId, Metadata>,
                         world: RunId -> Answers, ids: seq<RunId>, i: nat, states: map<RunId, RunState>,
                         locks: set<RunId>, failed: bool)
    requires i <= |ids|
  {
    && OnlyOrphans(states0, states) && locks <= locks0
    && (forall j :: i <= j < |ids| ==> SameAt(states0, states, ids[j]) && (ids[j] in locks <==> ids[j] in locks0))
    && (forall j :: 0 <= j < i ==> SameAt(StatesAfter(states0, metadata, ids[j], world(ids[j])), states, ids[j]))
    && (!failed <==> forall j :: 0 <= j < i ==> !Judged(states0, locks0, metadata, ids[j], world(ids[j])).failed)
    && (!failed ==> forall j :: 0 <= j < i ==> SettledIn(states, locks, ids[j]))
    && ((forall j :: 0 <= j < |ids| ==> SettledIn(states0, locks0, ids[j])) ==> states == states0 && locks == locks0)
  }

  lemma NothingPassed(states: map<RunId, RunState>, locks: set<RunId>, metadata: map<RunId, Metadata>,
                      world: RunId -> Answers, ids: seq<RunId>)
    ensures Passed(states, locks, metadata, world, ids, 0, states, locks, false)
    ensures Reported(states, metadata, world, ids[..0], Report(0, [], [], 0))
  {
    OrphansNothing(states);
    NothingYet(states, ids);
  }

  lemma PassesOn(states0: map<RunId, RunState>, locks0: set<RunId>, metadata: map<RunId, Metadata>,
                 world: RunId -> Answers, ids: seq<RunId>, i: nat, states: map<RunId, RunState>, locks: set<RunId>,
                 failed: bool)
    requires Distinct(ids) && i < |ids| && Passed(states0, locks0, metadata, world, ids, i, states, locks, failed)
    ensures var r, w := ids[i], world(ids[i]);
            var v := Judged(states, locks, metadata, r, w);
            && v == Judged(states0, locks0, metadata, r, w)
            && Passed(states0, locks0, metadata, world, ids, i + 1, StatesAfter(states, metadata, r, w),
                      LocksAfter(states, locks, r, w), failed || v.failed)
  {
    hide MidFlight, Judged, StatesAfter, LocksAfter, OnlyOrphans;
    OneRun(states0, states, locks0, locks, metadata, ids[i], world(ids[i]));
    var r, w := ids[i], world(ids[i]);
    var states', locks' := StatesAfter(states, metadata, r, w), LocksAfter(states, locks, r, w);
    forall j | 0 <= j < |ids| && j != i
      ensures SameAt(states, states', ids[j]) && (ids[j] in locks' <==> ids[j] in locks)
    {
    }
    assert SameAt(StatesAfter(states0, metadata, r, w), states', r);
    assert (forall j :: 0 <= j < |ids| ==> SettledIn(states0, locks0, ids[j])) ==> SettledIn(states0, locks0, ids[i]);
  }

  lemma PassedLeaves(states0: map<RunId, RunState>, locks0: set<RunId>, metadata: map<RunId, Metadata>,
                     world: RunId -> Answers, ids: seq<RunId>, i: nat, states: map<RunId, RunState>, locks: set<RunId>,
                     failed: bool)
    requires i <= |ids| && Passed(states0, locks0, metadata, world, ids, i, states, locks, failed)
    ensures OnlyOrphans(states0, states) && locks <= locks0
    ensures forall j :: 0 <= j < i ==> SameAt(StatesAfter(states0, metadata, ids[j], world(ids[j])), states, ids[j])
    ensures !failed <==> forall j :: 0 <= j < i ==> !Judged(states0, locks0, metadata, ids[j], world(ids[j])).failed
    ensures !failed ==> forall j :: 0 <= j < i ==> SettledIn(states, locks, ids[j])
    ensures (forall j :: 0 <= j < |ids| ==> SettledIn(states0, locks0, ids[j])) ==> states == states0 && locks == locks0
    ensures i == |ids| && (exists j :: 0 <= j < |ids| && Survives(states0, metadata, world, ids[j])
                                       && !world(ids[j]).stopped) ==>
              failed
  {
    hide MidFlight, Judged, StatesAfter, LocksAfter, OnlyOrphans;
    SurvivorsMustBeStopped(states0, locks0, metadata, world, ids);
  }

  ghost predicate Reported(states: map<RunId, RunState>, metadata: map<RunId, Metadata>, world: RunId -> Answers,
                           ids: seq<RunId>, r: Report)
  {
    && Accurate(states, ids, r) && AllStopped(states, metadata, world, ids, r.terminated)
    && LivenessReported(metadata, world, r.orphaned)
  }

  lemma ReportedSays(states: map<RunId, RunState>, metadata: map<RunId, Metadata>, world: RunId -> Answers,
                     ids: seq<RunId>, r: Report)
    requires Reported(states, metadata, world, ids, r)
    ensures Accurate(states, ids, r) && AllStopped(states, metadata, world, ids, r.terminated)
    ensures LivenessReported(metadata, world, r.orphaned)
  {
  }

  lemma StaysReported(states: map<RunId, RunState>, locks: set<RunId>, metadata: map<RunId, Metadata>,
                      world: RunId -> Answers, ids: seq<RunId>, i: nat, r: Report, v: Verdict)
    requires Distinct(ids) && i < |ids| && v == Judged(states, locks, metadata, ids[i], world(ids[i])) && !v.failed
    requires Reported(states, metadata, world, ids[..i], r)
    ensures Reported(states, metadata, world, ids[..i + 1], Report(
                       i + 1,
                       if v.orphaned.Some? then r.orphaned + [v.orphaned.value] else r.orphaned,
                       if v.terminated.Some? then r.terminated + [v.terminated.value] else r.terminated,
                       if v.untouched then r.untouched + 1 else r.untouched))
  {
    JudgedAccurately(states, locks, metadata, ids[i], world(ids[i]));
    hide Judged, Accurate, AllStopped, LivenessReported, MidFlight;
    StaysStopped(states, locks, metadata, world, ids, i, r.terminated, r.orphaned, v);
    StaysAccurate(states, ids, i, r, v);
  }

  lemma JudgedAccurately(states: map<RunId, RunState>, locks: set<RunId>, metadata: map<RunId, Metadata>, id: RunId,
                         w: Answers)
    ensures var v := Judged(states, locks, metadata, id, w);
            !v.failed ==>
              && id in states && v.orphaned.Some? == MidFlight(states[id]) && v.untouched == !v.orphaned.Some?
              && (v.orphaned.Some? ==> v.orphaned.value.runId == id && v.orphaned.value.newState == ORPHANED
                                       && v.orphaned.value.previousState == states[id])
              && (v.terminated.Some? ==>
                    v.terminated.value.runId == id && v.orphaned.Some? && v.terminated.value.stopped)
  {
  }

  lemma OrphansNothing(states: map<RunId, RunState>)
    ensures OnlyOrphans(states, states)
  {
  }

  datatype Verdict = Verdict(orphaned: Option<RecoveredRun>, terminated: Option<TerminatedRun>,
                             untouched: bool, failed: bool)

  ghost predicate SameAt(before: map<RunId, RunState>, after: map<RunId, RunState>, r: RunId) {
    (r in before <==> r in after) && (r in before ==> before[r] == after[r])
  }

  /** The report counts every listed run once, and names exactly the runs that were mid-flight. */
  ghost predicate Accurate(states: map<RunId, RunState>, ids: seq<RunId>, r: Report) {
    && r.inspected == |ids| == |r.orphaned| + r.untouched
    && IdsOf(r.orphaned) == MidFlightRuns(states, ids)
    && (forall i :: 0 <= i < |r.orphaned| ==>
          && r.orphaned[i].newState == ORPHANED && r.orphaned[i].runId in states
          && r.orphaned[i].previousState == states[r.orphaned[i].runId])
    && (forall i :: 0 <= i < |r.terminated| ==> r.terminated[i].stopped && r.terminated[i].runId in IdsOf(r.orphaned))
  }

  lemma NothingYet(states: map<RunId, RunState>, ids: seq<RunId>)
    ensures Accurate(states, ids[..0], Report(0, [], [], 0))
  {
  }

  lemma StaysAccurate(states: map<RunId, RunState>, ids: seq<RunId>, i: nat, r: Report, v: Verdict)
    requires i < |ids| && Accurate(states, ids[..i], r) && ids[i] in states
    requires v.orphaned.Some? == MidFlight(states[ids[i]]) && v.untouched == !v.orphaned.Some?
    requires v.orphaned.Some? ==> v.orphaned.value.runId == ids[i] && v.orphaned.value.newState == ORPHANED
                                  && v.orphaned.value.previousState == states[ids[i]]
    requires v.terminated.Some? ==> v.terminated.value.runId == ids[i] && v.orphaned.Some? && v.terminated.value.stopped
    ensures Accurate(states, ids[..i + 1], Report(
                       i + 1,
                       if v.orphaned.Some? then r.orphaned + [v.orphaned.value] else r.orphaned,
                       if v.terminated.Some? then r.terminated + [v.terminated.value] else r.terminated,
                       if v.untouched then r.untouched + 1 else r.untouched))
  {
    hide MidFlight;
    assert ids[..i + 1][..i] == ids[..i];
    if v.orphaned.Some? {
      assert (r.orphaned + [v.orphaned.value])[..|r.orphaned|] == r.orphaned;
      assert IdsOf(r.orphaned + [v.orphaned.value]) == IdsOf(r.orphaned) + [ids[i]];
    }
  }

  lemma SettledNow(s: RunState)
    requires RecoveryStateFor(s).Leave?
    ensures !MidFlight(s)
  {
  }

  lemma TargetIsOrphaned(s: RunState)
    requires RecoveryStateFor(s).MoveTo?
    ensures MidFlight(s) && RecoveryStateFor(s).target == ORPHANED && !MidFlight(ORPHANED)
    ensures CanTransition(s, ORPHANED)
  {
  }
}
