/** Supervision of one worker process, in milliseconds since its launch. */
module Supervisor {
  import opened Options
  import opened Runs

  datatype Stream = Stdout | Stderr

  datatype Sent = Sent(at: nat, signal: Signal)

  datatype Task = SoftTimer | HardTimer | Escalate

  datatype Timer = Timer(due: nat, task: Task)

  datatype Config = Config(softMs: nat, hardMs: nat, graceMs: nat) {
    function Soft(): nat { Delay(softMs) }
    function Hard(): nat { Delay(hardMs) }
    function Grace(): nat { Delay(graceMs) }
  }

  /** The longest delay a timer of the runtime takes, and the longest timeout a task may ask for. */
  const MAX_DELAY_MS: nat := 0x7FFF_FFFF
  const MAX_TIMEOUT_MS: nat := 365 * 24 * 60 * 60 * 1_000

  /** A timer never fires in the turn that sets it, and what is out of range is one millisecond. */
  function Delay(ms: nat): (d: nat)
    ensures d > 0 && (d == ms <==> 0 < ms <= MAX_DELAY_MS)
  {
    if ms == 0 || ms > MAX_DELAY_MS then 1 else ms
  }

  datatype State = State(
    now: nat,
    reason: Reason,
    softTimeoutElapsed: bool,
    outputLimitStream: Option<Stream>,
    settled: bool,
    timers: seq<Timer>,
    signals: seq<Sent>)

  /** What happens to a supervised process: requests, sink callbacks, time, and its own exit. */
  datatype Event = Cancel | Overflow(stream: Stream) | WriteError(stream: Stream) | Tick | Close

  // ---- the state machine ------------------------------------------------------------------

  function Launched(c: Config): State {
    State(0, Exited, false, None, false, [Timer(c.Soft(), SoftTimer), Timer(c.Hard(), HardTimer)], [])
  }

  /** SIGTERM now, SIGKILL after the grace period; the first cause is the one reported. */
  function Terminated(c: Config, s: State, why: Reason): State {
    if s.settled then s else
      s.(reason := if s.reason.Exited? then why else s.reason,
         signals := s.signals + [Sent(s.now, SIGTERM)],
         timers := s.timers + [Timer(s.now + c.Grace(), Escalate)])
  }

  function Fired(c: Config, s: State, task: Task): State {
    match task
    case SoftTimer => if s.settled then s else s.(softTimeoutElapsed := true)
    case HardTimer => Terminated(c, s, HardTimeout)
    case Escalate => if s.settled then s else s.(signals := s.signals + [Sent(s.now, SIGKILL)])
  }

  function AllFired(c: Config, s: State, due: seq<Timer>): State {
    if due == [] then s else Fired(c, AllFired(c, s, due[..|due| - 1]), due[|due| - 1].task)
  }

  function Due(timers: seq<Timer>, t: nat): seq<Timer> {
    if timers == [] then [] else
      var last := timers[|timers| - 1];
      Due(timers[..|timers| - 1], t) + if last.due <= t then [last] else []
  }

  function Later(timers: seq<Timer>, t: nat): seq<Timer> {
    if timers == [] then [] else
      var last := timers[|timers| - 1];
      Later(timers[..|timers| - 1], t) + if last.due <= t then [] else [last]
  }

  function Step(c: Config, s: State, e: Event): State {
    match e
    case Cancel => Terminated(c, s, CancelRequested)
    case Overflow(stream) =>
      if !s.reason.Exited? then s else Terminated(c, s.(outputLimitStream := Some(stream)), OutputLimit)
    case WriteError(_) => if !s.reason.Exited? then s else Terminated(c, s, OutputError)
    case Tick =>
      AllFired(c, s.(now := s.now + 1, timers := Later(s.timers, s.now + 1)), Due(s.timers, s.now + 1))
    case Close => s.(settled := true, timers := [])
  }

  function After(c: Config, trace: seq<Event>): State {
    if trace == [] then Launched(c) else Step(c, After(c, trace[..|trace| - 1]), trace[|trace| - 1])
  }

  // ---- the closures over it ---------------------------------------------------------------

  class SupervisedProcess {
    const config: Config
    var now: nat
    var reason: Reason
    var softTimeoutElapsed: bool
    var outputLimitStream: Option<Stream>
    var settled: bool
    var timers: seq<Timer>
    /** What killGroup was asked to send, in order. */
    var signals: seq<Sent>

    function Abs(): State
      reads this
    {
      State(now, reason, softTimeoutElapsed, outputLimitStream, settled, timers, signals)
    }

    constructor (config: Config)
      ensures this.config == config && Abs() == Launched(config)
    {
      this.config := config;
      now, reason, softTimeoutElapsed, outputLimitStream, settled := 0, Exited, false, None, false;
      signals := [];
      timers := [Timer(config.Soft(), SoftTimer)] + [Timer(config.Hard(), HardTimer)];
    }

    method Terminate(why: Reason)
      modifies this
      ensures Abs() == Terminated(config, old(Abs()), why)
    {
      if settled {
        return;
      }
      if reason == Exited {
        reason := why;
      }
      signals := signals + [Sent(now, SIGTERM)];
      timers := timers + [Timer(now + config.Grace(), Escalate)];
    }

    method RequestCancel()
      modifies this
      ensures Abs() == Step(config, old(Abs()), Cancel)
    {
      Terminate(CancelRequested);
    }

    method OnOutputLimit(stream: Stream)
      modifies this
      ensures Abs() == Step(config, old(Abs()), Overflow(stream))
    {
      if reason != Exited {
        return;
      }
      outputLimitStream := Some(stream);
      Terminate(OutputLimit);
    }

    method OnOutputError(stream: Stream)
      modifies this
      ensures Abs() == Step(config, old(Abs()), WriteError(stream))
    {
      if reason != Exited {
        return;
      }
      Terminate(OutputError);
    }

    /** One millisecond passes, and the timers that have become due run in the order they were set. */
    method Elapse()
      modifies this
      ensures Abs() == Step(config, old(Abs()), Tick)
    {
      now := now + 1;
      var due := Due(timers, now);
      timers := Later(timers, now);
      ghost var s := Abs();
      for i := 0 to |due|
        invariant Abs() == AllFired(config, s, due[..i])
      {
        assert due[..i + 1][..i] == due[..i];
        match due[i].task {
          case SoftTimer =>
            if !settled {
              softTimeoutElapsed := true;
            }
          case HardTimer => Terminate(HardTimeout);
          case Escalate =>
            if !settled {
              signals := signals + [Sent(now, SIGKILL)];
            }
        }
      }
      assert due[..|due|] == due;
    }

    method OnClose()
      modifies this
      ensures Abs() == Step(config, old(Abs()), Close)
    {
      settled := true;
      timers := [];
    }
  }

  // ---- what timers do -----------------------------------------------------------------------

  lemma {:induction false} DueOrLater(timers: seq<Timer>, t: nat, x: Timer)
    ensures x in Due(timers, t) <==> x in timers && x.due <= t
    ensures x in Later(timers, t) <==> x in timers && x.due > t
  {
    if timers != [] {
      DueOrLater(timers[..|timers| - 1], t, x);
    }
  }

  predicate Has(due: seq<Timer>, task: Task) {
    exists i :: 0 <= i < |due| && due[i].task == task
  }

  lemma HasMore(due: seq<Timer>, task: Task)
    requires due != []
    ensures Has(due, task) <==> Has(due[..|due| - 1], task) || due[|due| - 1].task == task
  {
    var init := due[..|due| - 1];
    if i :| 0 <= i < |due| && due[i].task == task {
      assert i < |init| ==> init[i] == due[i];
    }
    if i :| 0 <= i < |init| && init[i].task == task {
      assert due[i].task == task;
    }
  }

  /** Everything a turn of due timers does to a process that is still open. */
  lemma {:induction false} TurnOfTimers(c: Config, s: State, due: seq<Timer>)
    requires !s.settled
    ensures var s' := AllFired(c, s, due);
            && !s'.settled && s'.now == s.now && s'.outputLimitStream == s.outputLimitStream
            && s'.reason == (if s.reason.Exited? && Has(due, HardTimer) then HardTimeout else s.reason)
            && s'.softTimeoutElapsed == (s.softTimeoutElapsed || Has(due, SoftTimer))
            && s.signals <= s'.signals
            && (forall x :: x in s'.signals <==> (
                  || x in s.signals
                  || (Has(due, HardTimer) && x == Sent(s.now, SIGTERM))
                  || (Has(due, Escalate) && x == Sent(s.now, SIGKILL))))
            && (forall x :: x in s'.timers <==> (
                  || x in s.timers
                  || (Has(due, HardTimer) && x == Timer(s.now + c.Grace(), Escalate))))
  {
    hide Has;
    if due == [] {
      assert forall task :: !Has(due, task) by {
        NothingDue();
      }
    } else {
      TurnOfTimers(c, s, due[..|due| - 1]);
      HasMore(due, SoftTimer);
      HasMore(due, HardTimer);
      HasMore(due, Escalate);
    }
  }

  lemma NothingDue()
    ensures forall task :: !Has([], task)
  {
  }

  lemma {:induction false} ClosedStaysQuiet(c: Config, s: State, due: seq<Timer>)
    requires s.settled
    ensures AllFired(c, s, due) == s
  {
    if due != [] {
      ClosedStaysQuiet(c, s, due[..|due| - 1]);
    }
  }

  // ---- the invariant ------------------------------------------------------------------------

  /** The hard timer is pending until it is due; from then on there is a cause. */
  ghost predicate HardTimerRuns(c: Config, s: State) {
    && (s.now < c.Hard() ==> Timer(c.Hard(), HardTimer) in s.timers)
    && (s.now >= c.Hard() ==> !s.reason.Exited?)
    && (s.now >= c.Soft() <==> s.softTimeoutElapsed)
    && (s.now < c.Soft() ==> Timer(c.Soft(), SoftTimer) in s.timers)
    && forall x :: x in s.timers ==>
         x.due > s.now && (x.task.HardTimer? ==> x.due == c.Hard()) && (x.task.SoftTimer? ==> x.due == c.Soft())
  }

  /** SIGKILL has followed this SIGTERM, or is still to come, one grace period after it. */
  ghost predicate Followed(c: Config, s: State, term: Sent) {
    if term.at + c.Grace() <= s.now then Sent(term.at + c.Grace(), SIGKILL) in s.signals
    else Timer(term.at + c.Grace(), Escalate) in s.timers
  }

  /** A SIGTERM was sent one grace period before this moment. */
  ghost predicate Warned(c: Config, signals: seq<Sent>, at: nat) {
    at >= c.Grace() && Sent(at - c.Grace(), SIGTERM) in signals
  }

  /** Every SIGTERM is followed by SIGKILL one grace period later, and SIGKILL has no other origin. */
  ghost predicate Escalates(c: Config, s: State) {
    && (forall x {:trigger Followed(c, s, x)} :: x in s.signals && x.signal.SIGTERM? ==> Followed(c, s, x))
    && (forall x {:trigger Warned(c, s.signals, x.due)} ::
          x in s.timers && x.task.Escalate? ==> Warned(c, s.signals, x.due))
    && KillsFollowTerms(c, s.signals)
  }

  ghost predicate KillsFollowTerms(c: Config, signals: seq<Sent>) {
    forall x {:trigger Warned(c, signals, x.at)} :: x in signals && x.signal.SIGKILL? ==> Warned(c, signals, x.at)
  }

  /** The first signal is a SIGTERM, sent when the first cause came and no later than the hard timeout. */
  ghost predicate CauseMeansSignal(c: Config, s: State) {
    && (s.reason.Exited? <==> s.signals == [])
    && (s.signals != [] ==> s.signals[0].signal.SIGTERM? && s.signals[0].at <= c.Hard())
  }

  ghost predicate Good(c: Config, s: State) {
    if s.settled then s.timers == [] && KillsFollowTerms(c, s.signals)
    else HardTimerRuns(c, s) && Escalates(c, s) && CauseMeansSignal(c, s)
  }

  lemma TerminateKeepsGood(c: Config, s: State, why: Reason)
    requires Good(c, s) && !s.settled && !why.Exited?
    ensures Good(c, Terminated(c, s, why))
  {
    var s' := Terminated(c, s, why);
    assert HardTimerRuns(c, s') by {
      hide Escalates, CauseMeansSignal;
    }
    TerminateKeepsEscalation(c, s, why);
    assert CauseMeansSignal(c, s') by {
      hide Escalates;
      assert s.signals != [] ==> s'.signals[0] == s.signals[0];
      assert s.now < c.Hard() || !s.reason.Exited?;
    }
  }

  lemma TerminateKeepsEscalation(c: Config, s: State, why: Reason)
    requires Escalates(c, s) && !s.settled
    ensures Escalates(c, Terminated(c, s, why))
  {
    var s' := Terminated(c, s, why);
    forall x | x in s'.signals && x.signal.SIGTERM? ensures Followed(c, s', x) {
      assert x in s.signals ==> Followed(c, s, x);
    }
    forall x | x in s'.timers && x.task.Escalate? ensures Warned(c, s'.signals, x.due) {
      assert x in s.timers ==> Warned(c, s.signals, x.due);
    }
    forall x | x in s'.signals && x.signal.SIGKILL? ensures Warned(c, s'.signals, x.at) {
      assert Warned(c, s.signals, x.at);
    }
  }

  lemma TickKeepsHardTimer(c: Config, s: State)
    requires Good(c, s) && !s.settled
    ensures HardTimerRuns(c, Step(c, s, Tick))
    ensures !Step(c, s, Tick).settled && Step(c, s, Tick).now == s.now + 1
  {
    hide Escalates, CauseMeansSignal, Due, Later, AllFired, Has;
    var t := s.now + 1;
    var due, later := Due(s.timers, t), Later(s.timers, t);
    var s' := Step(c, s, Tick);
    TurnOfTimers(c, s.(now := t, timers := later), due);
    DueTasks(s.timers, t, c.Hard(), HardTimer);
    DueTasks(s.timers, t, c.Soft(), SoftTimer);
    DueOrLater(s.timers, t, Timer(c.Hard(), HardTimer));
    DueOrLater(s.timers, t, Timer(c.Soft(), SoftTimer));
    forall x | x in s'.timers
      ensures x.due > t && (x.task.HardTimer? ==> x.due == c.Hard()) && (x.task.SoftTimer? ==> x.due == c.Soft())
    {
      DueOrLater(s.timers, t, x);
    }
  }

  /** A task that only ever has one due time is due exactly when its timer is. */
  lemma DueTasks(timers: seq<Timer>, t: nat, due: nat, task: Task)
    requires forall x :: x in timers && x.task == task ==> x.due == due
    ensures Has(Due(timers, t), task) <==> due <= t && Timer(due, task) in timers
  {
    DueOrLater(timers, t, Timer(due, task));
    if i :| 0 <= i < |Due(timers, t)| && Due(timers, t)[i].task == task {
      var x := Due(timers, t)[i];
      assert x in Due(timers, t);
      DueOrLater(timers, t, x);
      assert x == Timer(due, task);
    }
    if Timer(due, task) in Due(timers, t) {
      var i :| 0 <= i < |Due(timers, t)| && Due(timers, t)[i] == Timer(due, task);
      assert Due(timers, t)[i].task == task;
    }
  }

  lemma TickKeepsEscalation(c: Config, s: State)
    requires Good(c, s) && !s.settled
    ensures Escalates(c, Step(c, s, Tick))
  {
    hide CauseMeansSignal, Due, Later, AllFired, Has;
    var t := s.now + 1;
    var due, later := Due(s.timers, t), Later(s.timers, t);
    var s' := Step(c, s, Tick);
    TurnOfTimers(c, s.(now := t, timers := later), due);
    EscalationsDue(c, s, t);
    hide HardTimerRuns;
    forall x | x in s'.signals && x.signal.SIGTERM? ensures Followed(c, s', x) {
      assert x in s.signals ==> Followed(c, s, x);
      DueOrLater(s.timers, t, Timer(x.at + c.Grace(), Escalate));
    }
    forall x | x in s'.timers && x.task.Escalate? ensures Warned(c, s'.signals, x.due) {
      DueOrLater(s.timers, t, x);
      assert x in s.timers ==> Warned(c, s.signals, x.due);
    }
    forall x | x in s'.signals && x.signal.SIGKILL? ensures Warned(c, s'.signals, x.at) {
      assert if x in s.signals then Warned(c, s.signals, x.at) else Warned(c, s.signals, Timer(t, Escalate).due);
    }
  }

  /** SIGKILL goes out in a turn exactly when an escalation is due then. */
  lemma EscalationsDue(c: Config, s: State, t: nat)
    requires !s.settled && HardTimerRuns(c, s) && t == s.now + 1
    ensures Has(Due(s.timers, t), Escalate) <==> Timer(t, Escalate) in s.timers
  {
    DueOrLater(s.timers, t, Timer(t, Escalate));
    if i :| 0 <= i < |Due(s.timers, t)| && Due(s.timers, t)[i].task == Escalate {
      var x := Due(s.timers, t)[i];
      assert x in Due(s.timers, t);
      DueOrLater(s.timers, t, x);
      assert x == Timer(t, Escalate);
    }
    if Timer(t, Escalate) in Due(s.timers, t) {
      var i :| 0 <= i < |Due(s.timers, t)| && Due(s.timers, t)[i] == Timer(t, Escalate);
      assert Due(s.timers, t)[i].task == Escalate;
    }
  }

  lemma TickKeepsCause(c: Config, s: State)
    requires Good(c, s) && !s.settled
    ensures CauseMeansSignal(c, Step(c, s, Tick))
  {
    hide Due, Later, AllFired, Has;
    var t := s.now + 1;
    var due := Due(s.timers, t);
    var s' := Step(c, s, Tick);
    TurnOfTimers(c, s.(now := t, timers := Later(s.timers, t)), due);
    EscalationsDue(c, s, t);
    DueTasks(s.timers, t, c.Hard(), HardTimer);
    if s.signals == [] {
      assert Timer(t, Escalate) in s.timers ==> Warned(c, s.signals, Timer(t, Escalate).due);
      if s'.signals != [] {
        assert s'.signals[0] in s'.signals;
      } else {
        assert Sent(t, SIGTERM) !in s'.signals;
      }
    }
  }

  lemma StepKeepsGood(c: Config, s: State, e: Event)
    requires Good(c, s)
    ensures Good(c, Step(c, s, e))
  {
    if s.settled {
      if e.Tick? {
        ClosedStaysQuiet(c, s.(now := s.now + 1), []);
      }
    } else {
      match e
      case Cancel => TerminateKeepsGood(c, s, CancelRequested);
      case Overflow(stream) =>
        if s.reason.Exited? {
          TerminateKeepsGood(c, s.(outputLimitStream := Some(stream)), OutputLimit);
        }
      case WriteError(stream) =>
        if s.reason.Exited? {
          TerminateKeepsGood(c, s, OutputError);
        }
      case Tick =>
        TickKeepsHardTimer(c, s);
        TickKeepsEscalation(c, s);
        TickKeepsCause(c, s);
      case Close =>
    }
  }

  lemma {:induction false} AlwaysGood(c: Config, trace: seq<Event>)
    ensures Good(c, After(c, trace))
  {
    if trace != [] {
      AlwaysGood(c, trace[..|trace| - 1]);
      StepKeepsGood(c, After(c, trace[..|trace| - 1]), trace[|trace| - 1]);
    }
  }

  // ---- what a whole supervision guarantees ---------------------------------------------------

  function Ticks(trace: seq<Event>): nat {
    if trace == [] then 0 else Ticks(trace[..|trace| - 1]) + if trace[|trace| - 1].Tick? then 1 else 0
  }

  predicate Closed(trace: seq<Event>) {
    trace != [] && (trace[|trace| - 1].Close? || Closed(trace[..|trace| - 1]))
  }

  lemma {:induction false} TimeAndClosure(c: Config, trace: seq<Event>)
    ensures After(c, trace).settled == Closed(trace)
    ensures !Closed(trace) ==> After(c, trace).now == Ticks(trace)
  {
    if trace != [] {
      var init := trace[..|trace| - 1];
      var s := After(c, init);
      TimeAndClosure(c, init);
      if trace[|trace| - 1].Tick? {
        var s1 := s.(now := s.now + 1, timers := Later(s.timers, s.now + 1));
        if s.settled {
          ClosedStaysQuiet(c, s1, Due(s.timers, s.now + 1));
        } else {
          TurnOfTimers(c, s1, Due(s.timers, s.now + 1));
        }
      }
    }
  }

  /** A process still open one grace period after its hard timeout has been sent SIGTERM, then SIGKILL, by then. */
  lemma BoundedKill(c: Config, trace: seq<Event>)
    requires !Closed(trace) && Ticks(trace) >= c.Hard() + c.Grace()
    ensures var signals := After(c, trace).signals;
            && signals != [] && signals[0].signal.SIGTERM? && signals[0].at <= c.Hard()
            && Sent(signals[0].at + c.Grace(), SIGKILL) in signals
  {
    TimeAndClosure(c, trace);
    AlwaysGood(c, trace);
    hide After;
    var s := After(c, trace);
    assert s.signals[0] in s.signals && Followed(c, s, s.signals[0]);
  }

  /** Escalation is never early: every SIGKILL comes one grace period after a SIGTERM. */
  lemma NeverKilledEarly(c: Config, trace: seq<Event>, kill: Sent)
    requires kill in After(c, trace).signals && kill.signal.SIGKILL?
    ensures kill.at >= c.Grace() && Sent(kill.at - c.Grace(), SIGTERM) in After(c, trace).signals
  {
    AlwaysGood(c, trace);
    hide After;
    assert Warned(c, After(c, trace).signals, kill.at);
  }

  /** The soft timeout is only reported: it marks the outcome, and by itself gives no cause and sends nothing. */
  lemma SoftTimeoutIsAdvisory(c: Config, trace: seq<Event>)
    requires !Closed(trace)
    ensures After(c, trace).softTimeoutElapsed <==> Ticks(trace) >= c.Soft()
    ensures (forall i :: 0 <= i < |trace| ==> trace[i].Tick?) && Ticks(trace) < c.Hard() ==>
              After(c, trace).signals == []
  {
    TimeAndClosure(c, trace);
    AlwaysGood(c, trace);
    if (forall i :: 0 <= i < |trace| ==> trace[i].Tick?) && Ticks(trace) < c.Hard() {
      OnlyTime(c, trace);
      FirstCauseIsReported(c, trace);
    }
  }

  lemma {:induction false} OnlyTime(c: Config, trace: seq<Event>)
    requires forall i :: 0 <= i < |trace| ==> trace[i].Tick?
    requires Ticks(trace) < c.Hard()
    ensures FirstCause(c, trace).NoCause?
  {
    if trace != [] {
      OnlyTime(c, trace[..|trace| - 1]);
    }
  }

  // ---- what the configured timeouts come to -------------------------------------------------

  /** Nothing happens for n milliseconds. */
  function Waiting(n: nat): (trace: seq<Event>)
    ensures |trace| == n && forall i :: 0 <= i < n ==> trace[i] == Tick
  {
    seq(n, _ => Tick)
  }

  lemma {:induction false} WaitingPasses(c: Config, n: nat)
    ensures Ticks(Waiting(n)) == n && !Closed(Waiting(n))
    ensures FirstCause(c, Waiting(n)) == if n < c.Hard() then NoCause else AtTimeout
  {
    if n > 0 {
      assert Waiting(n)[..n - 1] == Waiting(n - 1);
      WaitingPasses(c, n - 1);
    } else {
      assert Waiting(0) == [];
    }
  }

  /** A process nobody disturbs is ended by its hard timeout, and marked by its soft one, at this moment. */
  predicate EndedAt(c: Config, t: nat) {
    t > 0 && After(c, Waiting(t - 1)).reason.Exited? && After(c, Waiting(t)).reason.HardTimeout?
  }

  predicate MarkedAt(c: Config, t: nat) {
    t > 0 && !After(c, Waiting(t - 1)).softTimeoutElapsed && After(c, Waiting(t)).softTimeoutElapsed
  }

  /** The timeouts come when they were asked for if and only if that is in the range of a timer; else at once. */
  lemma TimeoutsOnTimeIff(c: Config)
    ensures EndedAt(c, c.hardMs) <==> 0 < c.hardMs <= MAX_DELAY_MS
    ensures MarkedAt(c, c.softMs) <==> 0 < c.softMs <= MAX_DELAY_MS
    ensures !(0 < c.hardMs <= MAX_DELAY_MS) ==> EndedAt(c, 1)
    ensures !(0 < c.softMs <= MAX_DELAY_MS) ==> MarkedAt(c, 1)
  {
    EndsWhen(c, c.hardMs);
    EndsWhen(c, 1);
    MarksWhen(c, c.softMs);
    MarksWhen(c, 1);
  }

  lemma EndsWhen(c: Config, t: nat)
    ensures EndedAt(c, t) <==> t == c.Hard()
  {
    hide After, FirstCause;
    if t > 0 {
      WaitingPasses(c, t - 1);
      WaitingPasses(c, t);
      FirstCauseIsReported(c, Waiting(t - 1));
      FirstCauseIsReported(c, Waiting(t));
    }
  }

  lemma MarksWhen(c: Config, t: nat)
    ensures MarkedAt(c, t) <==> t == c.Soft()
  {
    hide After, FirstCause;
    if t > 0 {
      WaitingPasses(c, t - 1);
      WaitingPasses(c, t);
      SoftTimeoutIsAdvisory(c, Waiting(t - 1));
      SoftTimeoutIsAdvisory(c, Waiting(t));
    }
  }

  /** A task that is accepted and asks for thirty days is ended after one millisecond. */
  lemma LongTimeoutEndsAtOnce(softMs: nat, graceMs: nat)
    ensures var c := Config(softMs, 30 * 24 * 60 * 60 * 1_000, graceMs);
            && c.hardMs <= MAX_TIMEOUT_MS && EndedAt(c, 1)
            && After(c, [Tick]).signals != [] && After(c, [Tick]).signals[0] == Sent(1, SIGTERM)
  {
    var c := Config(softMs, 30 * 24 * 60 * 60 * 1_000, graceMs);
    TimeoutsOnTimeIff(c);
    assert Waiting(1) == [Tick] && Waiting(0) == [];
    WaitingPasses(c, 1);
    AlwaysGood(c, [Tick]);
    TimeAndClosure(c, [Tick]);
    SignalledIffCause(c, [Tick]);
    FirstSignalsTime(c);
  }

  /** A signal sent in the first millisecond was sent then. */
  lemma FirstSignalsTime(c: Config)
    requires After(c, [Tick]).signals != []
    ensures After(c, [Tick]).signals[0].at == 1
  {
    hide Due, Later, Has, AllFired;
    var s := Launched(c);
    var due := Due(s.timers, 1);
    assert [Tick][..0] == [] && After(c, [Tick]) == Step(c, s, Tick);
    TurnOfTimers(c, s.(now := 1, timers := Later(s.timers, 1)), due);
    assert After(c, [Tick]).signals[0] in After(c, [Tick]).signals;
  }

  /** A process is left alone exactly as long as nothing has asked for its end. */
  lemma SignalledIffCause(c: Config, trace: seq<Event>)
    requires !Closed(trace)
    ensures After(c, trace).signals == [] <==> After(c, trace).reason.Exited?
  {
    TimeAndClosure(c, trace);
    AlwaysGood(c, trace);
  }

  /** After it settles a process is never signalled again and its report no longer changes, but for the stream. */
  lemma {:induction false} QuietAfterClose(c: Config, trace: seq<Event>, more: seq<Event>)
    requires Closed(trace)
    ensures var s, s' := After(c, trace), After(c, trace + more);
            s'.signals == s.signals && s'.reason == s.reason && s'.softTimeoutElapsed == s.softTimeoutElapsed
            && s'.timers == [] && s'.settled
  {
    hide Due, Later;
    TimeAndClosure(c, trace);
    AlwaysGood(c, trace);
    if more == [] {
      assert trace + more == trace;
    } else {
      var init := more[..|more| - 1];
      QuietAfterClose(c, trace, init);
      assert (trace + more)[..|trace + more| - 1] == trace + init;
      var s := After(c, trace + init);
      assert Due([], s.now + 1) == [] && Later([], s.now + 1) == [] by {
        NoTimers(s.now + 1);
      }
    }
  }

  lemma NoTimers(t: nat)
    ensures Due([], t) == [] && Later([], t) == []
  {
  }

  // ---- the reported cause ------------------------------------------------------------------------

  datatype Cause = NoCause | OnRequest | AtTimeout | TooMuch(stream: Stream) | Unwritable

  /** Why the process was ended: the first thing that asked for it while it was open. */
  function FirstCause(c: Config, trace: seq<Event>): Cause {
    if trace == [] then NoCause else
      var init := trace[..|trace| - 1];
      if !FirstCause(c, init).NoCause? || Closed(init) then FirstCause(c, init)
      else match trace[|trace| - 1]
        case Cancel => OnRequest
        case Overflow(stream) => TooMuch(stream)
        case WriteError(_) => Unwritable
        case Tick => if Ticks(trace) >= c.Hard() then AtTimeout else NoCause
        case Close => NoCause
  }

  function ReasonFor(cause: Cause): Reason {
    match cause
    case NoCause => Exited
    case OnRequest => CancelRequested
    case AtTimeout => HardTimeout
    case TooMuch(_) => OutputLimit
    case Unwritable => OutputError
  }

  /** The stream of the last overflow noticed after the process had closed. */
  function LateStream(trace: seq<Event>): Option<Stream> {
    if trace == [] then None else
      var init, last := trace[..|trace| - 1], trace[|trace| - 1];
      if Closed(init) && last.Overflow? then Some(last.stream) else LateStream(init)
  }

  /**
   * The report names the first cause; a stream is named for an output limit, and otherwise exactly
   * when a process that ended without cause left an overflow to be noticed after its close.
   */
  lemma {:induction false} FirstCauseIsReported(c: Config, trace: seq<Event>)
    ensures var s, cause := After(c, trace), FirstCause(c, trace);
            && s.reason == ReasonFor(cause)
            && s.outputLimitStream == match cause
                                      case TooMuch(stream) => Some(stream)
                                      case NoCause => LateStream(trace)
                                      case _ => None
  {
    if trace != [] {
      var init, e := trace[..|trace| - 1], trace[|trace| - 1];
      var s := After(c, init);
      FirstCauseIsReported(c, init);
      TimeAndClosure(c, init);
      if !Closed(init) {
        OpenHasNoLateStream(init);
      }
      if e.Tick? {
        TickCause(c, init);
      }
    }
  }

  lemma {:induction false} OpenHasNoLateStream(trace: seq<Event>)
    requires !Closed(trace)
    ensures LateStream(trace) == None
  {
    if trace != [] {
      OpenHasNoLateStream(trace[..|trace| - 1]);
    }
  }

  lemma TickCause(c: Config, trace: seq<Event>)
    ensures var s, s' := After(c, trace), Step(c, After(c, trace), Tick);
            && s'.outputLimitStream == s.outputLimitStream
            && s'.reason == if Closed(trace) || !s.reason.Exited? || Ticks(trace) + 1 < c.Hard()
                               then s.reason else HardTimeout
  {
    var s := After(c, trace);
    TimeAndClosure(c, trace);
    AlwaysGood(c, trace);
    hide After, Due, Later, AllFired, Has, Escalates, CauseMeansSignal;
    var s1 := s.(now := s.now + 1, timers := Later(s.timers, s.now + 1));
    if s.settled {
      ClosedStaysQuiet(c, s1, Due(s.timers, s.now + 1));
    } else {
      TurnOfTimers(c, s1, Due(s.timers, s.now + 1));
      DueTasks(s.timers, s.now + 1, c.Hard(), HardTimer);
    }
  }

  /** So "a stream is named" means "the reason is the output limit" unless the overflow came late. */
  lemma StreamNamedWithoutLimit(c: Config, trace: seq<Event>)
    ensures var s := After(c, trace);
            s.outputLimitStream.Some? && !s.reason.OutputLimit?
            <==> FirstCause(c, trace).NoCause? && LateStream(trace).Some?
    ensures After(c, trace).reason.OutputLimit? ==> After(c, trace).outputLimitStream.Some?
  {
    FirstCauseIsReported(c, trace);
  }

  /** The overflow of a process that has exited by itself is such a case. */
  lemma LateOverflowIsNotAnOutputLimit(c: Config)
    ensures var s := After(c, [Close, Overflow(Stdout)]);
            s.reason.Exited? && s.outputLimitStream == Some(Stdout) && s.signals == []
  {
    var trace := [Close, Overflow(Stdout)];
    assert trace[..1] == [Close] && [Close][..0] == [];
    assert After(c, [Close]) == Step(c, Launched(c), Close);
  }
}
