/** The bridge's `watch`: polling one run's status and log until the run is over. */
module Watching {
  import opened Options
  import opened Runs
  import opened EventLog
  import opened Ingestion

  /** What the status call answers of the run. */
  datatype Status = Status(taskId: string, ended: bool)

  datatype StatusSnapshot = StatusSnapshot(run: Status, latest: Option<Event>, count: nat)

  datatype Problem = IntervalInvalid | StatusFailed | EventsFailed | EventInvalid | ConsumerFailed

  /**
   * One turn of the loop: whether the caller has aborted, what the two calls meet, and whether the consumer
   * takes the snapshot. The calls are sent at once, so the log may be an older one than the status.
   */
  datatype Round = Round(aborted: bool, status: Option<Status>, log: Option<seq<Event>>, consumed: bool)

  /** A snapshot, and the page it was made of. */
  datatype Looked = Refused(problem: Problem) | Shown(snapshot: StatusSnapshot, page: seq<Event>)

  predicate NamesTask(page: seq<Event>, taskId: string) {
    forall i :: 0 <= i < |page| ==> page[i].taskId == taskId
  }

  function SnapshotOf(run: Status, page: seq<Event>): StatusSnapshot {
    StatusSnapshot(run, if page == [] then None else Some(page[|page| - 1]), |page|)
  }

  function Look(runId: RunId, limit: nat, since: int, r: Round): (s: Looked)
    ensures s.Shown? ==> r.status.Some? && r.log.Some? && s.snapshot == SnapshotOf(r.status.value, s.page)
  {
    if r.status.None? then Refused(StatusFailed)
    else if r.log.None? then Refused(EventsFailed)
    else
      var page := PageOf(r.log.value, since, Some(limit));
      if Ascends(runId, since, page) && NamesTask(page, r.status.value.taskId) then
        Shown(SnapshotOf(r.status.value, page), page)
      else
        Refused(EventInvalid)
  }

  method Snapshot(runId: RunId, limit: nat, since: int, r: Round) returns (s: Looked)
    ensures s == Look(runId, limit, since, r)
    ensures r.status.None? ==> s == Refused(StatusFailed)
    ensures r.status.Some? && r.log.None? ==> s == Refused(EventsFailed)
    ensures r.status.Some? && r.log.Some? ==>
              var page, run := PageOf(r.log.value, since, Some(limit)), r.status.value;
              if Ascends(runId, since, page) && forall i :: 0 <= i < |page| ==> page[i].taskId == run.taskId then
                && s.Shown? && s.page == page && s.snapshot.run == run && s.snapshot.count == |page|
                && s.snapshot.latest == if page == [] then None else Some(page[|page| - 1])
              else s == Refused(EventInvalid)
  {
    hide PageOf, Ascends;
    if r.status.None? {
      return Refused(StatusFailed);
    }
    if r.log.None? {
      return Refused(EventsFailed);
    }
    var events := CheckPage(runId, since, PageOf(r.log.value, since, Some(limit)));
    if events.None? || !NamesTask(events.value, r.status.value.taskId) {
      return Refused(EventInvalid);
    }
    s := Shown(SnapshotOf(r.status.value, events.value), events.value);
  }

  datatype End = Looking | Aborted | Over | Failed(problem: Problem)

  /**
   * How a watch stands: the logs it has looked at, its cursor, the records its pages held, and the
   * snapshots the consumer took.
   */
  datatype Watched = Watched(end: End, logs: seq<seq<Event>>, cursor: int,
                             seen: seq<Event>, handed: seq<StatusSnapshot>)

  function Start(): Watched {
    Watched(Looking, [], -1, [], [])
  }

  function Turn(runId: RunId, limit: nat, w: Watched, r: Round): Watched {
    if r.aborted then w.(end := Aborted)
    else match Look(runId, limit, w.cursor, r)
      case Refused(problem) => w.(end := Failed(problem))
      case Shown(snapshot, page) =>
        if !r.consumed then w.(end := Failed(ConsumerFailed))
        else Watched(if snapshot.run.ended then Over else Looking,
                     w.logs + [r.log.value],
                     if page == [] then w.cursor else page[|page| - 1].sequence,
                     w.seen + page, w.handed + [snapshot])
  }

  function WatchAll(runId: RunId, limit: nat, rounds: seq<Round>): Watched {
    if rounds == [] then Start() else
      var w := WatchAll(runId, limit, rounds[..|rounds| - 1]);
      if w.end.Looking? then Turn(runId, limit, w, rounds[|rounds| - 1]) else w
  }

  lemma {:induction false} EndedStays(runId: RunId, limit: nat, rounds: seq<Round>, i: nat)
    requires i <= |rounds| && !WatchAll(runId, limit, rounds[..i]).end.Looking?
    ensures WatchAll(runId, limit, rounds) == WatchAll(runId, limit, rounds[..i])
    decreases |rounds|
  {
    if i == |rounds| {
      assert rounds[..i] == rounds;
    } else {
      assert rounds[..|rounds| - 1][..i] == rounds[..i];
      EndedStays(runId, limit, rounds[..|rounds| - 1], i);
    }
  }

  lemma NextTurn(runId: RunId, limit: nat, rounds: seq<Round>, i: nat)
    requires i < |rounds| && WatchAll(runId, limit, rounds[..i]).end.Looking?
    ensures WatchAll(runId, limit, rounds[..i + 1])
            == Turn(runId, limit, WatchAll(runId, limit, rounds[..i]), rounds[i])
  {
    assert rounds[..i + 1][..i] == rounds[..i];
  }

  /** `watch`, for as many rounds as there are. */
  method Watch(runId: RunId, limit: nat, intervalMs: int, rounds: seq<Round>) returns (w: Watched)
    ensures w == if 25 <= intervalMs <= 60_000 then WatchAll(runId, limit, rounds)
                 else Start().(end := Failed(IntervalInvalid))
  {
    hide WatchAll, Look;
    w := Start();
    if intervalMs < 25 || intervalMs > 60_000 {
      return w.(end := Failed(IntervalInvalid));
    }
    assert WatchAll(runId, limit, rounds[..0]) == Start() by { StartsSo(runId, limit, rounds); }
    for i := 0 to |rounds|
      invariant w == WatchAll(runId, limit, rounds[..i]) && w.end.Looking?
    {
      var r := rounds[i];
      NextTurn(runId, limit, rounds, i);
      if !WatchAll(runId, limit, rounds[..i + 1]).end.Looking? {
        EndedStays(runId, limit, rounds, i + 1);
      }
      if r.aborted {
        return w.(end := Aborted);
      }
      var snapshot := Snapshot(runId, limit, w.cursor, r);
      if snapshot.Refused? {
        return w.(end := Failed(snapshot.problem));
      }
      if !r.consumed {
        return w.(end := Failed(ConsumerFailed));
      }
      w := Watched(Looking, w.logs + [r.log.value], w.cursor, w.seen + snapshot.page, w.handed + [snapshot.snapshot]);
      if snapshot.snapshot.latest.Some? {
        w := w.(cursor := snapshot.snapshot.latest.value.sequence);
      }
      if snapshot.snapshot.run.ended {
        return w.(end := Over);
      }
    }
    assert rounds[..|rounds|] == rounds;
  }

  lemma StartsSo(runId: RunId, limit: nat, rounds: seq<Round>)
    ensures WatchAll(runId, limit, rounds[..0]) == Start()
  {
  }

  // ---- what was seen --------------------------------------------------------------------------

  /** Where polling with one limit gets on the logs it meets. */
  function CursorAfter(logs: seq<seq<Event>>, limit: nat): int {
    if logs == [] then -1 else
      var cursor, end := CursorAfter(logs[..|logs| - 1], limit), |logs[|logs| - 1]|;
      if cursor + limit < end then cursor + limit else end - 1
  }

  /** The logs the rounds meet grow towards `whole`, which is numbered and this run's. */
  predicate GrowsTo(runId: RunId, rounds: seq<Round>, whole: seq<Event>) {
    && Numbered(whole) && OwnedBy(runId, whole)
    && (forall i :: 0 <= i < |rounds| && rounds[i].log.Some? ==> rounds[i].log.value <= whole)
    && (forall i, j :: 0 <= i < j < |rounds| && rounds[i].log.Some? && rounds[j].log.Some? ==>
          rounds[i].log.value <= rounds[j].log.value)
  }

  /** It has seen the last log it looked at up to the cursor: in order, no gap, no repeat. */
  predicate Follows(w: Watched, limit: nat) {
    && |w.handed| == |w.logs| && w.cursor == CursorAfter(w.logs, limit) >= -1
    && if w.logs == [] then w.seen == []
       else var last := w.logs[|w.logs| - 1]; w.cursor < |last| && w.seen == last[..w.cursor + 1]
  }

  /** Snapshot k tells how many records its page held, and the last of them. */
  predicate Tells(w: Watched, limit: nat, k: nat)
    requires k < |w.handed| == |w.logs|
  {
    var before, after := CursorAfter(w.logs[..k], limit), CursorAfter(w.logs[..k + 1], limit);
    && w.handed[k].count == after - before
    && (w.handed[k].latest.Some? <==> before < after)
    && (w.handed[k].latest.Some? ==> 0 <= after < |w.logs[k]| && w.handed[k].latest.value == w.logs[k][after])
  }

  /** A page that is shown is the next records of the log. */
  lemma ShowsNextRecords(runId: RunId, limit: nat, since: int, r: Round)
    requires Look(runId, limit, since, r).Shown?
    requires Numbered(r.log.value) && -1 <= since < |r.log.value|
    ensures var page, log := Look(runId, limit, since, r).page, r.log.value;
            && |page| == (if since + limit < |log| then limit else |log| - 1 - since)
            && page == log[since + 1..since + 1 + |page|]
  {
    hide PageOf, Ascends, Numbered, NamesTask;
    PageIsNextRecords(r.log.value, since, limit);
  }

  /** Taking the next records of a longer log keeps to the log. */
  lemma PageFollows(limit: nat, w: Watched, log: seq<Event>, run: Status, page: seq<Event>, w': Watched)
    requires Follows(w, limit) && Numbered(log) && (w.logs != [] ==> w.logs[|w.logs| - 1] <= log)
    requires |page| == (if w.cursor + limit < |log| then limit else |log| - 1 - w.cursor)
    requires page == log[w.cursor + 1..w.cursor + 1 + |page|]
    requires w' == Watched(w'.end, w.logs + [log], if page == [] then w.cursor else page[|page| - 1].sequence,
                           w.seen + page, w.handed + [SnapshotOf(run, page)])
    ensures Follows(w', limit) && Tells(w', limit, |w.handed|)
  {
    hide Numbered;
    LastOfPage(log, w.cursor, page);
    assert w.seen == log[..w.cursor + 1];
    CursorAfterOneMore(w.logs, log, limit);
    hide CursorAfter;
    assert w'.cursor == w.cursor + |page|;
    hide Tells;
    PageTells(limit, w, log, run, page, w');
  }

  lemma PageTells(limit: nat, w: Watched, log: seq<Event>, run: Status, page: seq<Event>, w': Watched)
    requires |w.handed| == |w.logs| && -1 <= w.cursor && w.cursor + |page| < |log|
    requires w.cursor == CursorAfter(w.logs, limit) && w.cursor + |page| == CursorAfter(w.logs + [log], limit)
    requires page == log[w.cursor + 1..w.cursor + 1 + |page|]
    requires w'.logs == w.logs + [log] && w'.handed == w.handed + [SnapshotOf(run, page)]
    ensures Tells(w', limit, |w.handed|)
  {
    hide CursorAfter;
    assert w'.logs[..|w.logs|] == w.logs && w'.logs[..|w.logs| + 1] == w'.logs;
  }

  lemma CursorAfterOneMore(logs: seq<seq<Event>>, log: seq<Event>, limit: nat)
    ensures var cursor := CursorAfter(logs, limit);
            CursorAfter(logs + [log], limit) == if cursor + limit < |log| then cursor + limit else |log| - 1
  {
    assert (logs + [log])[..|logs|] == logs;
  }

  lemma CursorInside(w: Watched, limit: nat)
    requires Follows(w, limit)
    ensures |w.handed| == |w.logs| && -1 <= w.cursor
    ensures if w.logs == [] then w.cursor == -1 else w.cursor < |w.logs[|w.logs| - 1]|
  {
  }

  lemma SameFollows(w: Watched, w': Watched, limit: nat)
    requires Follows(w, limit) && w' == w.(end := w'.end)
    ensures Follows(w', limit)
  {
  }

  lemma TurnIs(runId: RunId, limit: nat, w: Watched, r: Round)
    ensures var w', s := Turn(runId, limit, w, r), Look(runId, limit, w.cursor, r);
            if !r.aborted && s.Shown? && r.consumed then
              w' == Watched(w'.end, w.logs + [r.log.value], if s.page == [] then w.cursor
                                                            else s.page[|s.page| - 1].sequence,
                            w.seen + s.page, w.handed + [SnapshotOf(r.status.value, s.page)])
            else w' == w.(end := w'.end)
  {
    hide Look, SnapshotOf;
  }

  lemma TurnFollows(runId: RunId, limit: nat, w: Watched, r: Round)
    requires Follows(w, limit) && w.end.Looking?
    requires r.log.Some? ==> Numbered(r.log.value) && OwnedBy(runId, r.log.value)
    requires r.log.Some? && w.logs != [] ==> w.logs[|w.logs| - 1] <= r.log.value
    ensures var w' := Turn(runId, limit, w, r);
            && Follows(w', limit)
            && (r.log.Some? && w'.logs == w.logs + [r.log.value] ==>
                  |w'.handed| == |w.handed| + 1 && w.handed <= w'.handed && Tells(w', limit, |w.handed|))
            && ((w'.logs == w.logs && w'.handed == w.handed) || (r.log.Some? && w'.logs == w.logs + [r.log.value]))
  {
    CursorInside(w, limit);
    hide Look, Numbered, OwnedBy, CursorAfter, Follows, Tells, SnapshotOf, Turn;
    TurnIs(runId, limit, w, r);
    var w', s := Turn(runId, limit, w, r), Look(runId, limit, w.cursor, r);
    if !r.aborted && s.Shown? && r.consumed {
      ShowsNextRecords(runId, limit, w.cursor, r);
      PageFollows(limit, w, r.log.value, r.status.value, s.page, w');
    } else {
      SameFollows(w, w', limit);
    }
  }

  predicate AllTell(w: Watched, limit: nat)
    requires |w.handed| == |w.logs|
  {
    forall k :: 0 <= k < |w.handed| ==> Tells(w, limit, k)
  }

  lemma TellsBefore(w: Watched, w': Watched, limit: nat, k: nat)
    requires k < |w.handed| == |w.logs| && w.handed <= w'.handed && w.logs <= w'.logs && |w'.handed| == |w'.logs|
    ensures Tells(w', limit, k) == Tells(w, limit, k)
  {
    assert w'.logs[..k] == w.logs[..k] && w'.logs[..k + 1] == w.logs[..k + 1];
    assert w'.logs[k] == w.logs[k] && w'.handed[k] == w.handed[k];
  }

  /** The last log looked at is one of those the rounds met. */
  predicate LastMet(w: Watched, rounds: seq<Round>) {
    w.logs != [] ==> exists j :: 0 <= j < |rounds| && rounds[j].log == Some(w.logs[|w.logs| - 1])
  }

  /** Over any rounds the watch has seen its last log up to the cursor, and each snapshot told the truth. */
  lemma {:induction false} WatchFollows(runId: RunId, limit: nat, rounds: seq<Round>, whole: seq<Event>)
    requires GrowsTo(runId, rounds, whole)
    ensures var w := WatchAll(runId, limit, rounds);
            Follows(w, limit) && LastMet(w, rounds) && AllTell(w, limit)
  {
    hide Turn, Follows, Tells;
    if rounds == [] {
      assert Follows(Start(), limit) by { StartFollows(limit); }
    } else {
      var init, r := rounds[..|rounds| - 1], rounds[|rounds| - 1];
      GrewBefore(runId, rounds, whole);
      WatchFollows(runId, limit, init, whole);
      var w, w' := WatchAll(runId, limit, init), WatchAll(runId, limit, rounds);
      if w.logs != [] {
        var j :| 0 <= j < |init| && init[j].log == Some(w.logs[|w.logs| - 1]);
        assert rounds[j] == init[j];
      }
      if w.end.Looking? {
        assert r.log.Some? ==> Numbered(r.log.value) && OwnedBy(runId, r.log.value) by {
          MetIsNumbered(runId, rounds, whole);
        }
        TurnFollows(runId, limit, w, r);
        assert Follows(w, limit) && |w.handed| == |w.logs| by { FollowsCounts(w, limit); }
        FollowsCounts(w', limit);
        forall k | 0 <= k < |w'.handed| ensures Tells(w', limit, k) {
          if k < |w.handed| {
            assert Tells(w, limit, k);
            TellsBefore(w, w', limit, k);
          }
        }
      }
    }
  }

  lemma StartFollows(limit: nat)
    ensures Follows(Start(), limit)
  {
  }

  lemma FollowsCounts(w: Watched, limit: nat)
    requires Follows(w, limit)
    ensures |w.handed| == |w.logs|
  {
  }

  lemma GrewBefore(runId: RunId, rounds: seq<Round>, whole: seq<Event>)
    requires rounds != [] && GrowsTo(runId, rounds, whole)
    ensures GrowsTo(runId, rounds[..|rounds| - 1], whole)
  {
  }

  lemma MetIsNumbered(runId: RunId, rounds: seq<Round>, whole: seq<Event>)
    requires rounds != [] && GrowsTo(runId, rounds, whole)
    ensures var r := rounds[|rounds| - 1]; r.log.Some? ==> Numbered(r.log.value) && OwnedBy(runId, r.log.value)
  {
  }

  /**
   * A watch that stopped has seen everything if and only if its last look was at the whole log and the
   * cursor before it was within one page of the end.
   */
  lemma WatchSeesAllIff(runId: RunId, limit: nat, rounds: seq<Round>, whole: seq<Event>)
    requires GrowsTo(runId, rounds, whole) && WatchAll(runId, limit, rounds).logs != []
    ensures var w := WatchAll(runId, limit, rounds);
            var before, last := w.logs[..|w.logs| - 1], w.logs[|w.logs| - 1];
            w.seen == whole <==> last == whole && CursorAfter(before, limit) + limit >= |whole| - 1
  {
    hide WatchAll, Numbered, OwnedBy, AllTell;
    WatchFollows(runId, limit, rounds, whole);
    var w := WatchAll(runId, limit, rounds);
    var j :| 0 <= j < |rounds| && rounds[j].log == Some(w.logs[|w.logs| - 1]);
    assert rounds[j].log.value <= whole;
  }

  /** A watch of a run that is over at the first look: if and only if the whole log is there and fits one page. */
  lemma FirstLookSeesAllIff(runId: RunId, limit: nat, rounds: seq<Round>, whole: seq<Event>)
    requires GrowsTo(runId, rounds, whole) && rounds != [] && !rounds[0].aborted && rounds[0].consumed
    requires rounds[0].status.Some? && rounds[0].status.value.ended && rounds[0].log.Some?
    requires NamesTask(rounds[0].log.value, rounds[0].status.value.taskId)
    ensures var w := WatchAll(runId, limit, rounds);
            && w.end.Over? && w.logs == [rounds[0].log.value]
            && w.cursor == (if limit < |w.logs[0]| + 1 then limit - 1 else |w.logs[0]| - 1)
            && w.seen == w.logs[0][..w.cursor + 1]
            && (w.seen == whole <==> rounds[0].log.value == whole && |whole| <= limit)
  {
    hide PageOf, Numbered, OwnedBy, Ascends, WatchAll, Look;
    var log := rounds[0].log.value;
    StartsSo(runId, limit, rounds);
    NextTurn(runId, limit, rounds, 0);
    LooksAtFirst(runId, limit, rounds[0], whole);
    EndedStays(runId, limit, rounds, 1);
    WatchSeesAllIff(runId, limit, rounds, whole);
    var w := WatchAll(runId, limit, rounds);
    assert w.logs == [log] && w.logs[..0] == [];
    CursorAfterOneMore([], log, limit);
    assert [] + [log] == [log];
    WatchFollows(runId, limit, rounds, whole);
  }

  lemma LooksAtFirst(runId: RunId, limit: nat, r: Round, whole: seq<Event>)
    requires r.log.Some? && r.log.value <= whole && Numbered(whole) && OwnedBy(runId, whole)
    requires r.status.Some? && NamesTask(r.log.value, r.status.value.taskId)
    ensures Look(runId, limit, -1, r).Shown? && Look(runId, limit, -1, r).snapshot.run == r.status.value
  {
    hide PageOf, Ascends;
    var log := r.log.value;
    assert Numbered(log) && OwnedBy(runId, log);
    hide Numbered, OwnedBy;
    var page := PageOf(log, -1, Some(limit));
    PageIsNextRecords(log, -1, limit);
    assert page == log[..|page|];
    PageAscends(runId, log, -1, page);
  }

  // ---- when it ends -------------------------------------------------------------------------------

  /** How a round ends the watch, or that it does not, if the page it reads is in order. */
  function EndOf(r: Round): End {
    if r.aborted then Aborted
    else if r.status.None? then Failed(StatusFailed)
    else if r.log.None? then Failed(EventsFailed)
    else if !r.consumed then Failed(ConsumerFailed)
    else if r.status.value.ended then Over
    else Looking
  }

  predicate AllNamed(rounds: seq<Round>) {
    forall i :: 0 <= i < |rounds| && rounds[i].log.Some? && rounds[i].status.Some? ==>
      NamesTask(rounds[i].log.value, rounds[i].status.value.taskId)
  }

  lemma TurnEndsSo(runId: RunId, limit: nat, w: Watched, r: Round)
    requires -1 <= w.cursor && (r.log.Some? ==> Numbered(r.log.value) && OwnedBy(runId, r.log.value))
    requires r.log.Some? ==> w.cursor < |r.log.value| || w.logs == []
    requires w.logs == [] ==> w.cursor == -1
    requires r.log.Some? && r.status.Some? ==> NamesTask(r.log.value, r.status.value.taskId)
    ensures var w' := Turn(runId, limit, w.(end := Looking), r);
            && w'.end == EndOf(r)
            && (EndOf(r).Looking? || EndOf(r).Over? ==> r.log.Some? && w'.logs == w.logs + [r.log.value])
            && (!EndOf(r).Looking? && !EndOf(r).Over? ==> w' == w.(end := EndOf(r)))
  {
    hide PageOf, Numbered, OwnedBy, Ascends;
    if r.log.Some? && r.status.Some? {
      var log := r.log.value;
      PageIsNextRecords(log, w.cursor, limit);
      var page := PageOf(log, w.cursor, Some(limit));
      assert page == log[w.cursor + 1..w.cursor + 1 + |page|];
      PageAscends(runId, log, w.cursor, page);
    }
  }

  /** It has looked at exactly the logs of these rounds. */
  predicate LookedAt(logs: seq<seq<Event>>, rounds: seq<Round>) {
    |logs| == |rounds| && forall i :: 0 <= i < |logs| ==> rounds[i].log == Some(logs[i])
  }

  /**
   * A watch on a growing numbered log goes on as long as no round ends it, looking at the log of each; it
   * ends with the first that does, and as that round says.
   */
  lemma {:induction false} WatchEndsWithTheFirst(runId: RunId, limit: nat, rounds: seq<Round>, whole: seq<Event>,
                                                 n: nat)
    requires GrowsTo(runId, rounds, whole) && AllNamed(rounds) && n <= |rounds|
    requires forall i :: 0 <= i < n ==> EndOf(rounds[i]).Looking?
    ensures var w := WatchAll(runId, limit, rounds[..n]); w.end.Looking? && LookedAt(w.logs, rounds[..n])
    ensures n < |rounds| && !EndOf(rounds[n]).Looking? ==>
              var w := WatchAll(runId, limit, rounds);
              && w.end == EndOf(rounds[n])
              && LookedAt(w.logs, rounds[..if w.end.Over? then n + 1 else n])
  {
    hide WatchAll, EndOf, Turn, LookedAt;
    if n == 0 {
      StartsSo(runId, limit, rounds);
      assert LookedAt([], rounds[..0]) by { LooksAtNone(rounds); }
    } else {
      WatchEndsWithTheFirst(runId, limit, rounds, whole, n - 1);
      OneMoreRound(runId, limit, rounds, whole, n - 1);
    }
    if n < |rounds| && !EndOf(rounds[n]).Looking? {
      OneMoreRound(runId, limit, rounds, whole, n);
      EndedStays(runId, limit, rounds, n + 1);
    }
  }

  lemma LooksAtNone(rounds: seq<Round>)
    ensures LookedAt([], rounds[..0])
  {
  }

  lemma GrewUpTo(runId: RunId, rounds: seq<Round>, whole: seq<Event>, n: nat)
    requires GrowsTo(runId, rounds, whole) && n < |rounds|
    ensures GrowsTo(runId, rounds[..n], whole)
    ensures rounds[n].log.Some? ==> Numbered(rounds[n].log.value) && OwnedBy(runId, rounds[n].log.value)
    ensures forall i :: 0 <= i < n && rounds[i].log.Some? && rounds[n].log.Some? ==>
              rounds[i].log.value <= rounds[n].log.value
  {
  }

  lemma OneMoreRound(runId: RunId, limit: nat, rounds: seq<Round>, whole: seq<Event>, n: nat)
    requires GrowsTo(runId, rounds, whole) && AllNamed(rounds) && n < |rounds|
    requires var w := WatchAll(runId, limit, rounds[..n]); w.end.Looking? && LookedAt(w.logs, rounds[..n])
    ensures var w' := WatchAll(runId, limit, rounds[..n + 1]);
            && w'.end == EndOf(rounds[n])
            && LookedAt(w'.logs, rounds[..if w'.end.Looking? || w'.end.Over? then n + 1 else n])
  {
    hide WatchAll, EndOf, Turn, GrowsTo, NamesTask, Numbered, OwnedBy, Follows;
    var w, r := WatchAll(runId, limit, rounds[..n]), rounds[n];
    GrewUpTo(runId, rounds, whole, n);
    WatchFollows(runId, limit, rounds[..n], whole);
    CursorInside(w, limit);
    if w.logs != [] {
      assert rounds[n - 1] == rounds[..n][n - 1];
      assert r.log.Some? ==> w.logs[n - 1] <= r.log.value;
    }
    NextTurn(runId, limit, rounds, n);
    assert w.(end := Looking) == w;
    TurnEndsSo(runId, limit, w, r);
  }

  // ---- the two ways to miss the tail ------------------------------------------------------------

  function Record(runId: RunId, taskId: string, sequence: nat): Event {
    Event(taskId, runId, sequence, "", "", "")
  }

  /** More than a page is unread at the look that finds the run over. */
  lemma TailBeyondThePage(runId: RunId, taskId: string)
    ensures var whole := [Record(runId, taskId, 0), Record(runId, taskId, 1)];
            var rounds := [Round(false, Some(Status(taskId, true)), Some(whole), true)];
            var w := WatchAll(runId, 1, rounds);
            GrowsTo(runId, rounds, whole) && w.end.Over? && w.seen == whole[..1]
  {
    hide PageOf;
    var whole := [Record(runId, taskId, 0), Record(runId, taskId, 1)];
    var rounds := [Round(false, Some(Status(taskId, true)), Some(whole), true)];
    assert Numbered(whole) && OwnedBy(runId, whole);
    hide WatchAll, Turn, Look, Numbered, OwnedBy;
    FirstLookSeesAllIff(runId, 1, rounds, whole);
  }

  /** The log was read before the last append, and the status after the end. */
  lemma TailAfterTheLook(runId: RunId, taskId: string)
    ensures var whole := [Record(runId, taskId, 0), Record(runId, taskId, 1)];
            var rounds := [Round(false, Some(Status(taskId, true)), Some(whole[..1]), true)];
            var w := WatchAll(runId, 10, rounds);
            GrowsTo(runId, rounds, whole) && w.end.Over? && w.seen == whole[..1]
  {
    hide PageOf;
    var whole := [Record(runId, taskId, 0), Record(runId, taskId, 1)];
    var rounds := [Round(false, Some(Status(taskId, true)), Some(whole[..1]), true)];
    assert Numbered(whole) && OwnedBy(runId, whole);
    hide WatchAll, Turn, Look, Numbered, OwnedBy;
    FirstLookSeesAllIff(runId, 10, rounds, whole);
  }
}
