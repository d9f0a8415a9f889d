/**
 * The whole daemon: any number of coroutines interleaved at their awaits, the
 * in-memory maps they share, worker exits at any moment, and crashes that drop
 * all of it but the disk. Each incarnation begins with boot recovery.
 */
module Daemon {
  import opened Options
  import opened Runs
  import opened StateMachine
  import opened RunProtocol

  type Tid = nat

  datatype Phase = Booting(todo: set<RunId>, failed: bool) | Serving

  /** How far `shutdown` has got. */
  datatype Drain = NotRequested | AwaitStarts(starts: set<Tid>) | AwaitFinals(finals: set<Tid>) | Resolved

  /** store.create after the directory is made: the task, the metadata, and the state last. */
  datatype MakePc = WriteTask | WriteMetadata | WriteState

  datatype CreatePc = Audit | Mark | DenyRead | DenyWrite | DenyResultRead | DenyResultWrite

  datatype CancelPc = CancelExit | CancelFinal | CancelRead

  datatype Proc =
    | Making(run: RunId, taskId: string, denied: bool, m: MakePc)
    | Creating(run: RunId, k: CreatePc)
    | Starting(run: RunId)                     // before the lock
    | Lease(run: RunId, pc: Pc)                // after the lock, as starter or finaliser
    | Cancelling(run: RunId, fin: Option<Tid>, q: CancelPc)

  datatype State = State(
    // The disk survives a crash.
    runs: map<RunId, Run>,
    incomplete: set<RunId>,                    // listed directories without state.json
    // The memory of this incarnation.
    epoch: nat,
    phase: Phase,
    procs: map<Tid, Proc>,
    nextTid: Tid,
    running: map<RunId, nat>,                  // run to worker
    finalizing: map<RunId, Tid>,
    starting: set<Tid>,
    drain: Drain,
    // History: every ok answer of cancelRun.
    answers: set<(RunId, RunState)>
  )

  predicate IsStart(p: Proc) {
    p.Starting? || (p.Lease? && RoleOf(p.pc) == Starter)
  }

  predicate IsFinal(p: Proc) {
    p.Lease? && RoleOf(p.pc) == Finaliser
  }

  /** A finalisation that has not yet removed itself from `finalizing`. */
  predicate Unfinished(p: Proc) {
    IsFinal(p) && p.pc != Final(FinalUnlock)
  }

  // ---- actions ---------------------------------------------------------------

  datatype Action =
    | Crash
    | BootRun(id: RunId, f: Run, fault: bool)
    | BootIncomplete(id: RunId)
    | BootFail
    | Serve
    | MakeRun(id: RunId, taskId: string, denied: bool, ok: bool)
    | MakeStep(t: Tid, ok: bool)
    | MakeState(t: Tid, io: Io)
    | CreateStep(t: Tid, f: Run, next: Option<CreatePc>)
    | StartRun(id: RunId)
    | AcquireLock(t: Tid, created: bool, told: bool)
    | Local(t: Tid, f: Run, pc: Pc)
    | RegisterHandle(t: Tid)
    | ReleaseStart(t: Tid, gone: bool)
    | SettleStart(t: Tid)
    | WorkerExit(id: RunId, w: nat, outcome: Outcome)
    | FinalBegin(t: Tid)
    | ForgetFinal(t: Tid)
    | ReleaseFinal(t: Tid, gone: bool)
    | CancelRun(id: RunId)
    | CancelSawExit(t: Tid)
    | CancelSawFinal(t: Tid)
    | CancelAnswer(t: Tid, ok: bool)
    | Shutdown
    | StartsDrained
    | FinalsDrained

  function With(s: State, p: Proc): State {
    s.(procs := s.procs[s.nextTid := p], nextTid := s.nextTid + 1)
  }

  function Put(s: State, t: Tid, p: Proc): State {
    s.(procs := s.procs[t := p])
  }

  function Gone(s: State, t: Tid): State {
    s.(procs := s.procs - {t})
  }

  function Disk(s: State, id: RunId, f: Run): State {
    s.(runs := s.runs[id := f])
  }

  predicate Leases(s: State, t: Tid, pc: Pc) {
    t in s.procs && s.procs[t].Lease? && s.procs[t].pc == pc && s.procs[t].run in s.runs
  }

  function NewRun(taskId: string, denied: bool): Run {
    Run(taskId, QUEUED, None, false, false, false, denied, false, 0, None, [], None, 0, false, false, false)
  }

  /** What one pass of boot recovery may do to one run; `fault` if any part of it failed. */
  predicate Recovers(f: Run, f': Run, fault: bool) {
    var target := match RecoveryStateFor(f.state) case Leave => f.state case MoveTo(to) => to;
    if fault then
      && (f' == f.(locked := f'.locked, state := f'.state))
      && (f'.locked ==> f.locked) && (f'.state == f.state || f'.state == target)
    else f' == f.(locked := false, state := target)
  }

  function WithDenial(id: RunId, f: Run): Run {
    f.(result := Some(AgentResult(f.taskId, id, Blocked)), resultWrites := f.resultWrites + 1)
  }

  /** One await of createTask after the run directory exists; `None` ends the call. */
  predicate CreateAnswered(id: RunId, f: Run, k: CreatePc, f': Run, next: Option<CreatePc>) {
    match k
    case Audit =>
      || (f' == f.(audited := true) && (next == Some(Mark) || next == None))
      || (f' == f && next == None)
    case Mark =>
      || (f' == (if f.denied then f else f.(created := true)) && next == (if f.denied then Some(DenyRead) else None))
      || (f' == f && next == None)
    case DenyRead =>
      f' == f && ((CanTransition(f.state, FAILED) && next == Some(DenyWrite)) || next == None)
    case DenyWrite =>
      || (f' == f.(state := FAILED) && (next == Some(DenyResultRead) || next == None))
      || (f' == f && next == None)
    case DenyResultRead =>
      || (f.result.Some? && f' == f.(duplicateHit := true) && next == None)
      || (f' == f && next == Some(DenyResultWrite))
    case DenyResultWrite =>
      next == None && (f' == WithDenial(id, f).(created := true) || f' == WithDenial(id, f) || f' == f)
  }

  predicate Mentioned(s: State, id: RunId) {
    exists t :: t in s.procs && s.procs[t].run == id
  }

  predicate BeingCreated(s: State, id: RunId) {
    exists t :: t in s.procs && s.procs[t].Creating? && s.procs[t].run == id
  }

  predicate StandsMaking(s: State, t: Tid, id: RunId) {
    t in s.procs && s.procs[t].Making? && s.procs[t].run == id
  }

  ghost predicate BeingMade(s: State, id: RunId) {
    exists t :: StandsMaking(s, t, id)
  }

  function NextMake(m: MakePc): MakePc {
    if m.WriteTask? then WriteMetadata else WriteState
  }

  /** The state is written, and with it the run exists; its creator goes on only if it was told so. */
  function Made(s: State, t: Tid, io: Io): State
    requires t in s.procs && s.procs[t].Making?
  {
    var p := s.procs[t];
    if io.Lost? then Gone(s, t)
    else
      Disk(s, p.run, NewRun(p.taskId, p.denied))
        .(incomplete := s.incomplete - {p.run},
          procs := if io.Landed? then s.procs[t := Creating(p.run, Audit)] else s.procs - {t})
  }

  function Created(s: State, t: Tid, f: Run, next: Option<CreatePc>): State
    requires t in s.procs
  {
    match next
    case None => Gone(Disk(s, s.procs[t].run, f), t)
    case Some(k) => Put(Disk(s, s.procs[t].run, f), t, Creating(s.procs[t].run, k))
  }

  /** The lock file now exists; its creator goes on only if it was told so. */
  function Locked(s: State, t: Tid, told: bool): State
    requires t in s.procs && s.procs[t].run in s.runs
  {
    var id := s.procs[t].run;
    s.(runs := s.runs[id := s.runs[id].(locked := true, holder := t)],
       procs := if told then s.procs[t := Lease(id, Start(ReadTask))] else s.procs - {t})
  }

  predicate Registers(s: State, t: Tid) {
    && t in s.procs && s.procs[t].Lease? && s.procs[t].run in s.runs
    && s.procs[t].pc.Start? && s.procs[t].pc.s.Register?
  }

  /** The lock passes from the start to the finalisation it leaves behind. */
  function Registered(s: State, t: Tid): State
    requires Registers(s, t)
  {
    var id, w, n := s.procs[t].run, s.procs[t].pc.s.worker, s.nextTid;
    s.(runs := s.runs[id := s.runs[id].(holder := n)],
       procs := (s.procs - {t})[n := Lease(id, Final(AwaitExit(w)))],
       nextTid := n + 1,
       running := s.running[id := w],
       finalizing := s.finalizing[id := n])
  }

  ghost predicate Step(s: State, a: Action, s': State) {
    if a.Crash? then
      s' == State(s.runs, s.incomplete, s.epoch + 1, Booting(s.runs.Keys + s.incomplete, false),
                  map[], 0, map[], map[], {}, NotRequested, s.answers)
    else if a.WorkerExit? then
      && a.id in s.runs && a.w < |s.runs[a.id].workers| && s.runs[a.id].workers[a.w].outcome.None?
      && s' == Disk(s, a.id, Exit(s.runs[a.id], a.w, a.outcome))
    else if a.BootRun? || a.BootIncomplete? || a.BootFail? || a.Serve? then
      Boots(s, a, s')
    else
      s.phase.Serving? && Serves(s, a, s')
  }

  /** Boot recovery, run by run, and the opening of the socket. */
  ghost predicate Boots(s: State, a: Action, s': State) {
    && s.phase.Booting?
    && if a.BootRun? then
         && a.id in s.phase.todo && a.id in s.runs && Recovers(s.runs[a.id], a.f, a.fault)
         && s' == Disk(s, a.id, a.f).(phase := Booting(s.phase.todo - {a.id}, s.phase.failed || a.fault))
       else if a.BootIncomplete? then
         // Its state cannot be read; that is reported, and nothing is repaired.
         && a.id in s.phase.todo && a.id in s.incomplete
         && s' == s.(phase := Booting(s.phase.todo - {a.id}, true))
       else if a.BootFail? then
         s' == s.(phase := Booting(s.phase.todo, true))
       else
         s.phase == Booting({}, false) && s' == s.(phase := Serving)
  }

  ghost predicate Serves(s: State, a: Action, s': State) {
    if a.Local? then ServesLocal(s, a, s')
    else if a.MakeRun? || a.MakeStep? || a.MakeState? || a.CreateStep? then ServesCreate(s, a, s')
    else if a.StartRun? || a.AcquireLock? || a.RegisterHandle? || a.ReleaseStart? || a.SettleStart? then
      ServesStart(s, a, s')
    else if a.FinalBegin? || a.ForgetFinal? || a.ReleaseFinal? then ServesFinal(s, a, s')
    else if a.CancelRun? || a.CancelSawExit? || a.CancelSawFinal? || a.CancelAnswer? then ServesCancel(s, a, s')
    else ServesShutdown(s, a, s')
  }

  /** An await of a lease holder, answered. */
  ghost predicate ServesLocal(s: State, a: Action, s': State)
    requires a.Local?
  {
    && a.t in s.procs && s.procs[a.t].Lease? && s.procs[a.t].run in s.runs
    && var id := s.procs[a.t].run;
    && LocalStep(id, s.epoch, s.runs[id], s.procs[a.t].pc, a.f, a.pc)
    && s' == Put(Disk(s, id, a.f), a.t, Lease(id, a.pc))
  }

  /** createTask, from the directory to its answer. */
  ghost predicate ServesCreate(s: State, a: Action, s': State) {
    if a.MakeRun? then
      // A directory that exists is refused, and nobody has heard of a new id before createTask returns.
      && a.id !in s.runs && a.id !in s.incomplete && !Mentioned(s, a.id)
      && var made := s.(incomplete := s.incomplete + {a.id});
      && s' == if a.ok then With(made, Making(a.id, a.taskId, a.denied, WriteTask)) else made
    else if a.MakeStep? then
      && a.t in s.procs && s.procs[a.t].Making? && !s.procs[a.t].m.WriteState?
      && s' == if a.ok then Put(s, a.t, s.procs[a.t].(m := NextMake(s.procs[a.t].m))) else Gone(s, a.t)
    else if a.MakeState? then
      && a.t in s.procs && s.procs[a.t].Making? && s.procs[a.t].m.WriteState?
      && s' == Made(s, a.t, a.io)
    else
      && a.CreateStep? && a.t in s.procs && s.procs[a.t].Creating? && s.procs[a.t].run in s.runs
      && CreateAnswered(s.procs[a.t].run, s.runs[s.procs[a.t].run], s.procs[a.t].k, a.f, a.next)
      && s' == Created(s, a.t, a.f, a.next)
  }

  /** startRun, but for the awaits its lease covers. */
  ghost predicate ServesStart(s: State, a: Action, s': State) {
    if a.StartRun? then
      && s.drain.NotRequested? && !BeingMade(s, a.id) && !BeingCreated(s, a.id)
      && s' == With(s, Starting(a.id)).(starting := s.starting + {s.nextTid})
    else if a.AcquireLock? then
      && a.t in s.procs && s.procs[a.t].Starting? && (a.told ==> a.created)
      && (a.created ==> s.procs[a.t].run in s.runs && !s.runs[s.procs[a.t].run].locked)
      && s' == if a.created then Locked(s, a.t, a.told) else Gone(s, a.t)
    else if a.RegisterHandle? then
      Registers(s, a.t) && s' == Registered(s, a.t)
    else if a.ReleaseStart? then
      && Leases(s, a.t, Start(StartUnlock))
      && var id := s.procs[a.t].run;
      && s' == Gone(Disk(s, id, s.runs[id].(locked := !a.gone)), a.t)
    else
      && a.SettleStart? && a.t in s.starting && a.t !in s.procs
      && s' == s.(starting := s.starting - {a.t})
  }

  /** The finalisation, but for the awaits its lease covers. */
  ghost predicate ServesFinal(s: State, a: Action, s': State) {
    if a.FinalBegin? then
      && a.t in s.procs && s.procs[a.t].Lease? && s.procs[a.t].run in s.runs
      && s.procs[a.t].pc.Final? && s.procs[a.t].pc.p.AwaitExit?
      && var id, w := s.procs[a.t].run, s.procs[a.t].pc.p.worker;
      && w < |s.runs[id].workers| && s.runs[id].workers[w].outcome.Some?
      && s' == Put(s, a.t, Lease(id, Final(DrainOutput(w, s.runs[id].workers[w].outcome.value))))
               .(running := s.running - {id})
    else if a.ForgetFinal? then
      && Leases(s, a.t, Final(Forget))
      && var id := s.procs[a.t].run;
      && s' == Put(s, a.t, Lease(id, Final(FinalUnlock))).(finalizing := s.finalizing - {id})
    else
      && a.ReleaseFinal? && Leases(s, a.t, Final(FinalUnlock))
      && var id := s.procs[a.t].run;
      && s' == Gone(Disk(s, id, s.runs[id].(locked := !a.gone)), a.t)
  }

  /** cancelRun. */
  ghost predicate ServesCancel(s: State, a: Action, s': State) {
    if a.CancelRun? then
      // Without a handle cancelRun answers an error and changes nothing.
      && a.id in s.running
      && s' == With(s, Cancelling(a.id, if a.id in s.finalizing then Some(s.finalizing[a.id]) else None, CancelExit))
    else if a.CancelSawExit? then
      && a.t in s.procs && s.procs[a.t].Cancelling? && s.procs[a.t].q == CancelExit && s.procs[a.t].run in s.runs
      && HasExited(s.runs[s.procs[a.t].run])
      && s' == Put(s, a.t, s.procs[a.t].(q := CancelFinal))
    else if a.CancelSawFinal? then
      && a.t in s.procs && s.procs[a.t].Cancelling? && s.procs[a.t].q == CancelFinal
      && (s.procs[a.t].fin.Some? ==> s.procs[a.t].fin.value !in s.procs)
      && s' == Put(s, a.t, s.procs[a.t].(q := CancelRead))
    else
      && a.CancelAnswer? && a.t in s.procs && s.procs[a.t].Cancelling? && s.procs[a.t].q == CancelRead
      && var id := s.procs[a.t].run;
      && (a.ok ==> id in s.runs)
      && s' == if a.ok then Gone(s, a.t).(answers := s.answers + {(id, s.runs[id].state)}) else Gone(s, a.t)
  }

  /** Some process of the run has ended. */
  predicate HasExited(f: Run) {
    exists w :: 0 <= w < |f.workers| && f.workers[w].outcome.Some?
  }

  /** shutdown. */
  ghost predicate ServesShutdown(s: State, a: Action, s': State) {
    if a.Shutdown? then
      s.drain.NotRequested? && s' == s.(drain := AwaitStarts(s.starting))
    else if a.StartsDrained? then
      && s.drain.AwaitStarts? && s.drain.starts !! s.procs.Keys
      && s' == s.(drain := AwaitFinals(s.finalizing.Values))
    else
      && a.FinalsDrained? && s.drain.AwaitFinals? && s.drain.finals !! s.procs.Keys
      && s' == s.(drain := Resolved, running := map[], finalizing := map[])
  }

  ghost predicate Init(s: State) {
    s == State(map[], {}, 0, Booting({}, false), map[], 0, map[], map[], {}, NotRequested, {})
  }

  ghost predicate Next(s: State, s': State) {
    exists a: Action :: Step(s, a, s')
  }

  // ---- the invariant -----------------------------------------------------------

  predicate HasLease(s: State, id: RunId) {
    && id in s.runs && s.runs[id].locked && s.runs[id].holder in s.procs
    && s.procs[s.runs[id].holder].Lease? && s.procs[s.runs[id].holder].run == id
  }

  /** The lock on disk names the one coroutine whose assertion holds of the run. */
  ghost predicate LeasesOk(s: State) {
    forall t | t in s.procs && s.procs[t].Lease? :: LeaseOk(s, t)
  }

  predicate LeaseOk(s: State, t: Tid)
    requires t in s.procs && s.procs[t].Lease?
  {
    && s.procs[t].run in s.runs
    && s.runs[s.procs[t].run].locked && s.runs[s.procs[t].run].holder == t
    && Good(s.procs[t].run, s.epoch, s.runs[s.procs[t].run], s.procs[t].pc)
  }

  predicate FilesOk(s: State, id: RunId)
    requires id in s.runs
  {
    && RunOk(id, s.runs[id])
    && (s.runs[id].claimedIn.Some? ==> s.runs[id].claimedIn.value <= s.epoch)
    && (Quit(s.epoch, s.runs[id]) || HasLease(s, id))
  }

  ghost predicate RunsOk(s: State) {
    forall id | id in s.runs :: FilesOk(s, id)
  }

  predicate AtCreate(f: Run, k: CreatePc) {
    && f.claimedIn.None? && !f.locked && !f.created && f.result.None?
    && (k.Audit? <==> !f.audited)
    && (if k.DenyResultRead? || k.DenyResultWrite? then f.state == FAILED else f.state == QUEUED)
    && (k.Audit? || k.Mark? || f.denied)
  }

  ghost predicate CreatesOk(s: State) {
    && (forall t | t in s.procs && s.procs[t].Creating? ::
          s.procs[t].run in s.runs && AtCreate(s.runs[s.procs[t].run], s.procs[t].k))
    && (forall t, u | t in s.procs && u in s.procs && t != u && s.procs[t].Creating? ::
          s.procs[u].run != s.procs[t].run)
  }

  /** A directory without state belongs to the one call that is making it, or to nobody. */
  ghost predicate MakesOk(s: State) {
    && s.incomplete !! s.runs.Keys
    && (forall t | t in s.procs && s.procs[t].Making? :: s.procs[t].run in s.incomplete)
    && (forall t, u | t in s.procs && u in s.procs && t != u && s.procs[t].Making? ::
          s.procs[u].run != s.procs[t].run)
  }

  ghost predicate MemoryOk(s: State) {
    && (forall t | t in s.procs :: t < s.nextTid)
    && (forall t | t in s.procs && IsStart(s.procs[t]) :: t in s.starting)
    && (forall t | t in s.procs && Unfinished(s.procs[t]) ::
          s.procs[t].run in s.finalizing && s.finalizing[s.procs[t].run] == t)
    && (forall id | id in s.running ::
          && id in s.finalizing && s.finalizing[id] in s.procs
          && s.procs[s.finalizing[id]] == Lease(id, Final(AwaitExit(s.running[id]))))
  }

  /** The run has left this incarnation's hands, one way or the other. */
  predicate Decided(f: Run) {
    f.claimedIn.Some? && (IsTerminal(f.state) || f.gaveUp)
  }

  predicate CancelOk(s: State, id: RunId, fin: Option<Tid>, q: CancelPc) {
    && id in s.runs && fin.Some?
    && (Decided(s.runs[id]) || (q != CancelRead && fin.value in s.procs && IsFinal(s.procs[fin.value])
                                && s.procs[fin.value].run == id))
  }

  ghost predicate CancelsOk(s: State) {
    && (forall t | t in s.procs && s.procs[t].Cancelling? ::
          CancelOk(s, s.procs[t].run, s.procs[t].fin, s.procs[t].q))
    && (forall a | a in s.answers :: AnswerOk(s, a))
  }

  predicate AnswerOk(s: State, a: (RunId, RunState)) {
    && a.0 in s.runs && s.runs[a.0].claimedIn.Some?
    && (if IsTerminal(a.1) then s.runs[a.0].state == a.1 else s.runs[a.0].gaveUp)
  }

  ghost predicate DrainOk(s: State) {
    match s.drain
    case NotRequested => true
    case AwaitStarts(starts) =>
      forall t | t in s.procs && IsStart(s.procs[t]) :: t in starts
    case AwaitFinals(finals) =>
      && (forall t | t in s.procs :: !IsStart(s.procs[t]))
      && (forall t | t in s.procs && Unfinished(s.procs[t]) :: t in finals)
    case Resolved =>
      && (forall t | t in s.procs :: !IsStart(s.procs[t]))
      && (forall t | t in s.procs :: !Unfinished(s.procs[t]))
  }

  predicate Recovered(f: Run) {
    !f.locked && (f.state == QUEUED || f.state == ORPHANED || IsTerminal(f.state))
  }

  ghost predicate BootOk(s: State) {
    s.phase.Booting? ==>
      && s.procs == map[] && s.running == map[] && s.finalizing == map[] && s.starting == {} && s.drain == NotRequested
      && (forall id | id in s.runs :: s.runs[id].claimedIn != Some(s.epoch))
      && (forall id | id in s.runs :: id in s.phase.todo || s.phase.failed || Recovered(s.runs[id]))
      && (forall id | id in s.incomplete :: id in s.phase.todo || s.phase.failed)
  }

  ghost predicate Inv(s: State) {
    && LeasesOk(s) && RunsOk(s) && CreatesOk(s) && MakesOk(s)
    && MemoryOk(s) && CancelsOk(s) && DrainOk(s) && BootOk(s)
  }
}
