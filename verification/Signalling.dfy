/** Which signals a supervised process is sent, and when: all of them, said of what happened to it. */
module Signalling {
  import opened Options
  import opened Runs
  import opened Supervisor

  /** When this signal was sent. */
  function Times(signals: seq<Sent>, signal: Signal): seq<nat> {
    if signals == [] then [] else
      var last := signals[|signals| - 1];
      Times(signals[..|signals| - 1], signal) + if last.signal == signal then [last.at] else []
  }

  /** Whether this event asks for the end, and when; `first` says that nothing has asked before. */
  function AskedBy(c: Config, e: Event, now: nat, first: bool): seq<nat> {
    match e
    case Cancel => [now]
    case Overflow(_) => if first then [now] else []
    case WriteError(_) => if first then [now] else []
    case Tick => if now + 1 == c.Hard() then [now + 1] else []
    case Close => []
  }

  /**
   * When the end of an open process is asked for: at every cancel, at an overflow or a write error if nothing
   * has asked before, and when the hard timeout comes, whatever has asked before.
   */
  function Asked(c: Config, trace: seq<Event>): seq<nat> {
    if trace == [] then [] else
      var init := trace[..|trace| - 1];
      Asked(c, init) + AskedBy(c, trace[|trace| - 1], Ticks(init), Asked(c, init) == [])
  }

  function Plus(moments: seq<nat>, d: nat): (r: seq<nat>)
    ensures |r| == |moments| && forall i :: 0 <= i < |r| ==> r[i] == moments[i] + d
  {
    seq(|moments|, i requires 0 <= i < |moments| => moments[i] + d)
  }

  /** Those of the moments that have come. */
  function Passed(moments: seq<nat>, now: nat): seq<nat> {
    if moments == [] then [] else
      var last := moments[|moments| - 1];
      Passed(moments[..|moments| - 1], now) + if last <= now then [last] else []
  }

  // ---- timers in order ----------------------------------------------------------------------

  /** When the timers of this task are due, in the order they were set. */
  function Dues(timers: seq<Timer>, task: Task): seq<nat> {
    if timers == [] then [] else
      var last := timers[|timers| - 1];
      Dues(timers[..|timers| - 1], task) + if last.task == task then [last.due] else []
  }

  predicate Sorted(moments: seq<nat>) {
    forall i, j :: 0 <= i < j < |moments| ==> moments[i] <= moments[j]
  }

  predicate AllBy(moments: seq<nat>, now: nat) {
    forall i :: 0 <= i < |moments| ==> moments[i] <= now
  }

  predicate AllAfter(moments: seq<nat>, now: nat) {
    forall i :: 0 <= i < |moments| ==> moments[i] > now
  }

  lemma OneMoreSent(signals: seq<Sent>, x: Sent, signal: Signal)
    ensures Times(signals + [x], signal) == Times(signals, signal) + if x.signal == signal then [x.at] else []
  {
    assert (signals + [x])[..|signals|] == signals;
  }

  lemma OneMoreTimer(timers: seq<Timer>, x: Timer, task: Task)
    ensures Dues(timers + [x], task) == Dues(timers, task) + if x.task == task then [x.due] else []
  {
    assert (timers + [x])[..|timers|] == timers;
  }

  lemma LastDues(timers: seq<Timer>, task: Task)
    requires timers != []
    ensures var init, last := timers[..|timers| - 1], timers[|timers| - 1];
            Dues(timers, task) == Dues(init, task) + if last.task == task then [last.due] else []
  {
  }

  lemma LastComesDue(timers: seq<Timer>, t: nat, task: Task)
    requires timers != []
    ensures var init, last := timers[..|timers| - 1], timers[|timers| - 1];
            var own := if last.task == task then [last.due] else [];
            && Dues(Due(timers, t), task) == Dues(Due(init, t), task) + (if last.due <= t then own else [])
            && Dues(Later(timers, t), task) == Dues(Later(init, t), task) + if last.due <= t then [] else own
  {
    hide Dues;
    var init, last := timers[..|timers| - 1], timers[|timers| - 1];
    OneMoreTimer(Due(init, t), last, task);
    OneMoreTimer(Later(init, t), last, task);
    assert Due(init, t) + [] == Due(init, t) && Later(init, t) + [] == Later(init, t);
  }

  /** Sorted timers come due from the front. */
  lemma {:induction false} DuesSplit(timers: seq<Timer>, t: nat, task: Task)
    requires Sorted(Dues(timers, task))
    ensures Dues(timers, task) == Dues(Due(timers, t), task) + Dues(Later(timers, t), task)
    ensures AllBy(Dues(Due(timers, t), task), t) && AllAfter(Dues(Later(timers, t), task), t)
  {
    if timers != [] {
      var init, last := timers[..|timers| - 1], timers[|timers| - 1];
      LastDues(timers, task);
      LastComesDue(timers, t, task);
      hide Due, Later, Dues;
      var own := if last.task == task then [last.due] else [];
      SortedParts(Dues(init, task), own);
      DuesSplit(init, t, task);
      SplitOneMore(Dues(Due(init, t), task), Dues(Later(init, t), task), own, t, last.due);
    }
  }

  lemma SortedParts(a: seq<nat>, b: seq<nat>)
    requires Sorted(a + b)
    ensures Sorted(a)
  {
    assert forall i :: 0 <= i < |a| ==> a[i] == (a + b)[i];
  }

  lemma SplitOneMore(a: seq<nat>, b: seq<nat>, own: seq<nat>, t: nat, due: nat)
    requires Sorted(a + b + own) && AllBy(a, t) && AllAfter(b, t) && (own == [] || own == [due])
    ensures var a', b' := a + (if due <= t then own else []), b + (if due <= t then [] else own);
            a + b + own == a' + b' && AllBy(a', t) && AllAfter(b', t)
  {
    if own != [] && b != [] {
      assert (a + b + own)[|a|] == b[0] && (a + b + own)[|a| + |b|] == due;
    }
  }

  /** What a turn of timers that are due now sends, and what it sets. */
  lemma {:induction false} FiredTimes(c: Config, s: State, due: seq<Timer>)
    requires !s.settled && forall x :: x in due ==> x.due == s.now
    ensures var s' := AllFired(c, s, due);
            && !s'.settled && s'.now == s.now
            && Times(s'.signals, SIGTERM) == Times(s.signals, SIGTERM) + Dues(due, HardTimer)
            && Times(s'.signals, SIGKILL) == Times(s.signals, SIGKILL) + Dues(due, Escalate)
            && Dues(s'.timers, Escalate) == Dues(s.timers, Escalate) + Plus(Dues(due, HardTimer), c.Grace())
            && Dues(s'.timers, HardTimer) == Dues(s.timers, HardTimer)
  {
    hide Times, Dues, Fired;
    if due == [] {
      assert forall task :: Dues(due, task) == [] by { NoDues(); }
    } else {
      var init, last := due[..|due| - 1], due[|due| - 1];
      FiredTimes(c, s, init);
      var before := AllFired(c, s, init);
      assert last in due;
      OneMoreFired(c, before, last.task);
      LastDues(due, HardTimer);
      LastDues(due, Escalate);
      assert Plus(Dues(due, HardTimer), c.Grace())
             == Plus(Dues(init, HardTimer), c.Grace()) + if last.task.HardTimer? then [s.now + c.Grace()] else [];
    }
  }

  lemma NoDues()
    ensures forall task :: Dues([], task) == []
  {
  }

  lemma OneMoreFired(c: Config, s: State, task: Task)
    requires !s.settled
    ensures var s' := Fired(c, s, task);
            && !s'.settled && s'.now == s.now
            && Times(s'.signals, SIGTERM) == Times(s.signals, SIGTERM) + (if task.HardTimer? then [s.now] else [])
            && Times(s'.signals, SIGKILL) == Times(s.signals, SIGKILL) + (if task.Escalate? then [s.now] else [])
            && Dues(s'.timers, Escalate)
               == Dues(s.timers, Escalate) + (if task.HardTimer? then [s.now + c.Grace()] else [])
            && Dues(s'.timers, HardTimer) == Dues(s.timers, HardTimer)
  {
    hide Times, Dues, Terminated;
    match task
    case SoftTimer =>
    case HardTimer => TerminatedTimes(c, s, HardTimeout);
    case Escalate =>
      OneMoreSent(s.signals, Sent(s.now, SIGKILL), SIGTERM);
      OneMoreSent(s.signals, Sent(s.now, SIGKILL), SIGKILL);
  }

  lemma TerminatedTimes(c: Config, s: State, why: Reason)
    requires !s.settled
    ensures var s' := Terminated(c, s, why);
            && !s'.settled && s'.now == s.now
            && Times(s'.signals, SIGTERM) == Times(s.signals, SIGTERM) + [s.now]
            && Times(s'.signals, SIGKILL) == Times(s.signals, SIGKILL)
            && Dues(s'.timers, Escalate) == Dues(s.timers, Escalate) + [s.now + c.Grace()]
            && Dues(s'.timers, HardTimer) == Dues(s.timers, HardTimer)
  {
    hide Times, Dues;
    var sent, timer := Sent(s.now, SIGTERM), Timer(s.now + c.Grace(), Escalate);
    OneMoreSent(s.signals, sent, SIGTERM);
    OneMoreSent(s.signals, sent, SIGKILL);
    OneMoreTimer(s.timers, timer, Escalate);
    OneMoreTimer(s.timers, timer, HardTimer);
  }

  // ---- the ledger of signals ------------------------------------------------------------------

  /** Every request so far has been sent, and its escalation has been sent or is pending, in order. */
  predicate Ledger(c: Config, s: State, asked: seq<nat>) {
    && Times(s.signals, SIGTERM) == asked && Sorted(asked) && AllBy(asked, s.now)
    && Times(s.signals, SIGKILL) + Dues(s.timers, Escalate) == Plus(asked, c.Grace())
    && AllBy(Times(s.signals, SIGKILL), s.now) && AllAfter(Dues(s.timers, Escalate), s.now)
    && Dues(s.timers, HardTimer) == if s.now < c.Hard() then [c.Hard()] else []
  }

  lemma TerminateKeepsLedger(c: Config, s: State, asked: seq<nat>, why: Reason)
    requires Ledger(c, s, asked) && !s.settled
    ensures Ledger(c, Terminated(c, s, why), asked + [s.now])
  {
    hide Times, Dues, Terminated;
    TerminatedTimes(c, s, why);
    var kills, pending := Times(s.signals, SIGKILL), Dues(s.timers, Escalate);
    assert Plus(asked + [s.now], c.Grace()) == Plus(asked, c.Grace()) + [s.now + c.Grace()];
    assert kills + (pending + [s.now + c.Grace()]) == kills + pending + [s.now + c.Grace()];
  }

  lemma PlusSorted(moments: seq<nat>, d: nat, a: seq<nat>, b: seq<nat>)
    requires Sorted(moments) && a + b == Plus(moments, d)
    ensures Sorted(b)
  {
    forall i, j | 0 <= i < j < |b| ensures b[i] <= b[j] {
      assert b[i] == Plus(moments, d)[|a| + i] && b[j] == Plus(moments, d)[|a| + j];
    }
  }

  /** What one more millisecond sends and sets. */
  lemma TickSends(c: Config, s: State)
    requires !s.settled && HardTimerRuns(c, s)
    requires Dues(s.timers, HardTimer) == if s.now < c.Hard() then [c.Hard()] else []
    ensures var t, s' := s.now + 1, Step(c, s, Tick);
            var due, later := Due(s.timers, t), Later(s.timers, t);
            var hard := if t == c.Hard() then [t] else [];
            && s'.now == t
            && Times(s'.signals, SIGTERM) == Times(s.signals, SIGTERM) + hard
            && Times(s'.signals, SIGKILL) == Times(s.signals, SIGKILL) + Dues(due, Escalate)
            && Dues(s'.timers, Escalate) == Dues(later, Escalate) + Plus(hard, c.Grace())
            && Dues(s'.timers, HardTimer) == if t < c.Hard() then [c.Hard()] else []
  {
    hide Times, Dues, Due, Later, AllFired, Fired, Terminated, HardTimerRuns, Plus;
    var t := s.now + 1;
    DueNow(c, s);
    FiredTimes(c, s.(now := t, timers := Later(s.timers, t)), Due(s.timers, t));
    HardIsDue(c, s);
  }

  lemma TickKeepsLedger(c: Config, s: State, asked: seq<nat>)
    requires HardTimerRuns(c, s) && Ledger(c, s, asked) && !s.settled
    ensures var t := s.now + 1;
            Ledger(c, Step(c, s, Tick), asked + if t == c.Hard() then [t] else [])
  {
    hide Times, Dues, Due, Later, Step, HardTimerRuns, Sorted, AllBy, AllAfter, Plus;
    var t := s.now + 1;
    PlusSorted(asked, c.Grace(), Times(s.signals, SIGKILL), Dues(s.timers, Escalate));
    DuesSplit(s.timers, t, Escalate);
    TickSends(c, s);
    TickLedger(c, s, asked, Step(c, s, Tick));
  }

  /** The sums of a turn. */
  lemma TickLedger(c: Config, s: State, asked: seq<nat>, s': State)
    requires Sorted(asked) && AllBy(asked, s.now) && s'.now == s.now + 1
    requires var kills := Times(s.signals, SIGKILL);
             var due, later := Due(s.timers, s'.now), Later(s.timers, s'.now);
             var hard := if s'.now == c.Hard() then [s'.now] else [];
             && AllBy(kills, s.now)
             && AllBy(Dues(due, Escalate), s'.now) && AllAfter(Dues(later, Escalate), s'.now)
             && kills + Dues(due, Escalate) + Dues(later, Escalate) == Plus(asked, c.Grace())
             && Times(s'.signals, SIGTERM) == asked + hard
             && Times(s'.signals, SIGKILL) == kills + Dues(due, Escalate)
             && Dues(s'.timers, Escalate) == Dues(later, Escalate) + Plus(hard, c.Grace())
             && Dues(s'.timers, HardTimer) == if s'.now < c.Hard() then [c.Hard()] else []
    ensures Ledger(c, s', asked + if s'.now == c.Hard() then [s'.now] else [])
  {
    hide Times, Dues, Due, Later;
    var hard := if s'.now == c.Hard() then [s'.now] else [];
    var kills, due, later := Times(s.signals, SIGKILL), Due(s.timers, s'.now), Later(s.timers, s'.now);
    assert Plus(asked + hard, c.Grace()) == Plus(asked, c.Grace()) + Plus(hard, c.Grace());
    assert kills + Dues(due, Escalate) + (Dues(later, Escalate) + Plus(hard, c.Grace()))
           == kills + Dues(due, Escalate) + Dues(later, Escalate) + Plus(hard, c.Grace());
  }

  lemma DueNow(c: Config, s: State)
    requires HardTimerRuns(c, s)
    ensures forall x :: x in Due(s.timers, s.now + 1) ==> x.due == s.now + 1
  {
    hide Due;
    forall x | x in Due(s.timers, s.now + 1) ensures x.due == s.now + 1 {
      DueOrLater(s.timers, s.now + 1, x);
    }
  }

  lemma HardIsDue(c: Config, s: State)
    requires HardTimerRuns(c, s) && Dues(s.timers, HardTimer) == if s.now < c.Hard() then [c.Hard()] else []
    ensures var t := s.now + 1;
            && Dues(Due(s.timers, t), HardTimer) == (if t == c.Hard() then [t] else [])
            && Dues(Later(s.timers, t), HardTimer) == (if t < c.Hard() then [c.Hard()] else [])
  {
    hide Dues, Due, Later;
    var t := s.now + 1;
    DuesSplit(s.timers, t, HardTimer);
    var a, b := Dues(Due(s.timers, t), HardTimer), Dues(Later(s.timers, t), HardTimer);
    assert |a| + |b| == if s.now < c.Hard() then 1 else 0;
    if a != [] {
      assert a[0] == (a + b)[0];
    }
    if b != [] {
      assert b[0] == (a + b)[|a|];
    }
  }

  lemma LaunchedLedger(c: Config)
    ensures Ledger(c, Launched(c), [])
  {
    var soft, hard := Timer(c.Soft(), SoftTimer), Timer(c.Hard(), HardTimer);
    assert [] + [soft] + [hard] == Launched(c).timers;
    OneMoreTimer([], soft, HardTimer);
    OneMoreTimer([soft], hard, HardTimer);
    OneMoreTimer([], soft, Escalate);
    OneMoreTimer([soft], hard, Escalate);
    assert [soft] + [hard] == Launched(c).timers && [] + [soft] == [soft];
  }

  /** One event more. */
  lemma EventKeepsLedger(c: Config, s: State, asked: seq<nat>, e: Event)
    requires !s.settled && HardTimerRuns(c, s) && Ledger(c, s, asked) && (asked == [] <==> s.reason.Exited?)
    requires !e.Close?
    ensures Ledger(c, Step(c, s, e), asked + AskedBy(c, e, s.now, asked == []))
  {
    hide Ledger, Terminated, HardTimerRuns, AllFired, Due, Later;
    assert asked + [] == asked;
    match e
    case Cancel => TerminateKeepsLedger(c, s, asked, CancelRequested);
    case Overflow(stream) =>
      if asked == [] {
        var named := s.(outputLimitStream := Some(stream));
        SameLedger(c, s, named, asked);
        TerminateKeepsLedger(c, named, asked, OutputLimit);
      }
    case WriteError(stream) =>
      if asked == [] {
        TerminateKeepsLedger(c, s, asked, OutputError);
      }
    case Tick => TickKeepsLedger(c, s, asked);
  }

  lemma {:induction false} LedgerHolds(c: Config, trace: seq<Event>)
    requires !Closed(trace)
    ensures Ledger(c, After(c, trace), Asked(c, trace))
  {
    if trace == [] {
      LaunchedLedger(c);
    } else {
      hide Ledger, Good, HardTimerRuns, Step, AskedBy;
      var init, e := trace[..|trace| - 1], trace[|trace| - 1];
      LedgerHolds(c, init);
      TimeAndClosure(c, init);
      NothingAskedIff(c, init);
      EventKeepsLedger(c, After(c, init), Asked(c, init), e);
    }
  }

  lemma SameLedger(c: Config, s: State, s': State, asked: seq<nat>)
    requires Ledger(c, s, asked) && s'.signals == s.signals && s'.timers == s.timers && s'.now == s.now
    ensures Ledger(c, s', asked)
  {
  }

  /** Nothing has asked for the end of an open process exactly as long as it has no cause. */
  lemma NothingAskedIff(c: Config, trace: seq<Event>)
    requires !Closed(trace) && Ledger(c, After(c, trace), Asked(c, trace))
    ensures Asked(c, trace) == [] <==> After(c, trace).reason.Exited?
    ensures HardTimerRuns(c, After(c, trace))
  {
    hide After, Dues, Asked, HardTimerRuns, Escalates;
    TimeAndClosure(c, trace);
    AlwaysGood(c, trace);
    var signals := After(c, trace).signals;
    if signals != [] {
      TermsStart(signals);
    }
  }

  lemma {:induction false} TermsStart(signals: seq<Sent>)
    requires signals != [] && signals[0].signal.SIGTERM?
    ensures Times(signals, SIGTERM) != []
  {
    if |signals| > 1 {
      TermsStart(signals[..|signals| - 1]);
    }
  }

  lemma {:induction false} PassedSplits(a: seq<nat>, b: seq<nat>, now: nat)
    requires AllBy(a, now) && AllAfter(b, now)
    ensures Passed(a + b, now) == a
  {
    if b != [] {
      assert (a + b)[..|a + b| - 1] == a + b[..|b| - 1];
      assert (a + b)[|a + b| - 1] > now;
      PassedSplits(a, b[..|b| - 1], now);
    } else if a != [] {
      assert a + b == a && a[..|a| - 1] + [] == a[..|a| - 1];
      PassedSplits(a[..|a| - 1], [], now);
    }
  }

  /**
   * An open process is sent SIGTERM exactly when its end is asked for, every time again, and SIGKILL exactly
   * one grace period after each of these that is so long ago.
   */
  lemma SignalsAreExactly(c: Config, trace: seq<Event>)
    requires !Closed(trace)
    ensures Times(After(c, trace).signals, SIGTERM) == Asked(c, trace)
    ensures Times(After(c, trace).signals, SIGKILL) == Passed(Plus(Asked(c, trace), c.Grace()), Ticks(trace))
  {
    hide After, Times, Dues, Asked, Passed;
    LedgerHolds(c, trace);
    TimeAndClosure(c, trace);
    var s := After(c, trace);
    PassedSplits(Times(s.signals, SIGKILL), Dues(s.timers, Escalate), s.now);
  }
}
