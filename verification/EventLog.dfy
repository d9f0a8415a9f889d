/** The append-only event log of a run, and the lazily cached index that decides what an append writes. */
module EventLog {
  import opened Options
  import opened Runs
  import opened Text

  datatype Event = Event(taskId: string, runId: RunId, sequence: nat, timestamp: string, kind: string, payload: string)

  /** Two events are the same record when these agree; the digest of the source is taken to be injective. */
  datatype Print = Print(kind: string, timestamp: string, payload: string)

  function PrintOf(e: Event): Print {
    Print(e.kind, e.timestamp, e.payload)
  }

  /** JSON: an encoder, which may refuse, and a decoder that is partial. */
  datatype Codec = Codec(encodable: Event -> bool, encode: Event -> string, decode: string -> Option<Event>)

  /** Encoding yields one non-blank line that decodes to the event. */
  ghost predicate Lawful(codec: Codec) {
    forall e: Event :: codec.encodable(e) ==>
      codec.decode(codec.encode(e)) == Some(e) && '\n' !in codec.encode(e) && !IsBlank(codec.encode(e))
  }

  predicate AllEncodable(codec: Codec, events: seq<Event>) {
    forall i :: 0 <= i < |events| ==> codec.encodable(events[i])
  }

  // ---- what a log file says ------------------------------------------------------------

  function LineEvents(codec: Codec, line: string): seq<Event> {
    if IsBlank(line) then [] else match codec.decode(line) case None => [] case Some(e) => [e]
  }

  function LinesEvents(codec: Codec, lines: seq<string>): seq<Event> {
    if lines == [] then []
    else LinesEvents(codec, lines[..|lines| - 1]) + LineEvents(codec, lines[|lines| - 1])
  }

  /** The readable events, in file order; the last, unterminated line is read like any other. */
  function FileEvents(codec: Codec, file: string): seq<Event> {
    LinesEvents(codec, Lines(file)) + LineEvents(codec, Rest(file))
  }

  predicate Terminated(file: string) {
    Rest(file) == ""
  }

  function Insert(sorted: seq<Event>, e: Event): seq<Event> {
    if sorted == [] || sorted[|sorted| - 1].sequence <= e.sequence then sorted + [e]
    else Insert(sorted[..|sorted| - 1], e) + [sorted[|sorted| - 1]]
  }

  /** The stable sort by sequence. */
  function Sort(events: seq<Event>): seq<Event> {
    if events == [] then [] else Insert(Sort(events[..|events| - 1]), events[|events| - 1])
  }

  function Since(events: seq<Event>, since: int): seq<Event> {
    if events == [] then [] else
      var last := events[|events| - 1];
      Since(events[..|events| - 1], since) + if last.sequence <= since then [] else [last]
  }

  function PageOf(log: seq<Event>, since: int, limit: Option<nat>): seq<Event> {
    Cut(Sort(Since(log, since)), limit)
  }

  /** What readEvents returns. */
  function Page(codec: Codec, file: string, since: int, limit: Option<nat>): seq<Event> {
    PageOf(FileEvents(codec, file), since, limit)
  }

  /** The index of a log: for each sequence, the record that claims it last. */
  function IndexOf(events: seq<Event>): map<nat, Print> {
    if events == [] then map[]
    else IndexOf(events[..|events| - 1])[events[|events| - 1].sequence := PrintOf(events[|events| - 1])]
  }

  // ---- what an append does ---------------------------------------------------------------

  datatype Intake = Intake(written: seq<Event>, index: map<nat, Print>, conflict: Option<nat>)

  /** Skip what is there, write what is new, stop at the first sequence claimed by something else. */
  function TakeIn(index: map<nat, Print>, events: seq<Event>): Intake {
    if events == [] then Intake([], index, None)
    else TakeOne(TakeIn(index, events[..|events| - 1]), events[|events| - 1])
  }

  function TakeOne(before: Intake, e: Event): Intake {
    if before.conflict.Some? then before
    else if e.sequence !in before.index then
      Intake(before.written + [e], before.index[e.sequence := PrintOf(e)], None)
    else if before.index[e.sequence] == PrintOf(e) then before
    else before.(conflict := Some(e.sequence))
  }

  function EncodeAll(codec: Codec, events: seq<Event>): string {
    if events == [] then ""
    else EncodeAll(codec, events[..|events| - 1]) + codec.encode(events[|events| - 1]) + "\n"
  }

  /** How many of these events are encoded and land before the first that is not, or does not for certain. */
  function Landing(codec: Codec, answers: nat -> Io, events: seq<Event>): (k: nat)
    ensures k <= |events|
  {
    if events == [] then 0 else
      var n := |events| - 1;
      var k := Landing(codec, answers, events[..n]);
      if k == n && codec.encodable(events[n]) && answers(n).Landed? then n + 1 else k
  }

  /** The index once these records are in it too. */
  function Indexed(index: map<nat, Print>, events: seq<Event>): map<nat, Print> {
    if events == [] then index
    else Indexed(index, events[..|events| - 1])[events[|events| - 1].sequence := PrintOf(events[|events| - 1])]
  }

  datatype Appended = Written(count: nat) | Conflict(sequence: nat) | Unencodable | IoFailed

  /** What an append leaves of one run: its log, its cached index, and the answer. */
  datatype Filing = Filing(file: string, index: map<nat, Print>, answer: Appended)

  /** The write that stopped the append is on disk all the same. */
  predicate EndsUnsure(codec: Codec, index: map<nat, Print>, events: seq<Event>, answers: nat -> Io) {
    var written := TakeIn(index, events).written;
    var k := Landing(codec, answers, written);
    k < |written| && codec.encodable(written[k]) && answers(k).Unsure?
  }

  /** An append that goes by this index. */
  function Filed(codec: Codec, file: string, index: map<nat, Print>, events: seq<Event>, answers: nat -> Io): Filing {
    var intake := TakeIn(index, events);
    var k := Landing(codec, answers, intake.written);
    var onDisk := if EndsUnsure(codec, index, events, answers) then k + 1 else k;
    Filing(file + EncodeAll(codec, intake.written[..onDisk]),
           Indexed(index, intake.written[..k]),
           if k < |intake.written| then (if codec.encodable(intake.written[k]) then IoFailed else Unencodable)
           else match intake.conflict
             case Some(sequence) => Conflict(sequence)
             case None => Written(k))
  }

  // ---- the store --------------------------------------------------------------------------

  class RunStore {
    const codec: Codec
    /** events.ndjson, per run; absent until the first append. */
    var files: map<RunId, string>
    /** Per-run index of sequence to fingerprint, built lazily from disk. */
    var sequenceIndex: map<RunId, map<nat, Print>>

    /** A new process: the disk as it was found, and an empty cache. */
    constructor (codec: Codec, files: map<RunId, string>)
      ensures this.codec == codec && this.files == files && forall r :: Coherent(r)
    {
      this.codec := codec;
      this.files := files;
      sequenceIndex := map[];
    }

    function File(runId: RunId): string
      reads this
    {
      if runId in files then files[runId] else ""
    }

    /** The index an append goes by is the one the file gives. */
    predicate Coherent(runId: RunId)
      reads this
    {
      Known(runId) == IndexOf(FileEvents(codec, File(runId)))
    }

    method ReadEvents(runId: RunId, since: int, limit: Option<nat>, readable: bool) returns (r: Option<seq<Event>>)
      ensures r.Some? <==> readable || runId !in files
      ensures r.Some? ==>
                IsPage(r.value, FileEvents(codec, if runId in files then files[runId] else ""), since, limit)
      ensures r.Some? ==> r.value == Page(codec, File(runId), since, limit)
    {
      hide FileEvents, PageOf, IsPage;
      PageIff(FileEvents(codec, File(runId)), since, limit);
      if runId !in files {
        PageOfNothing(codec, since, limit);
        return Some([]);
      }
      r := if readable then Some(Page(codec, files[runId], since, limit)) else None;
    }

    /** The index can be had: it is cached, or the log can be read. */
    predicate Loads(runId: RunId, readable: bool)
      reads this
    {
      runId in sequenceIndex || readable || runId !in files
    }

    /** The index an append goes by: the cached one, or else the one of the file. */
    function Known(runId: RunId): map<nat, Print>
      reads this
    {
      if runId in sequenceIndex then sequenceIndex[runId] else IndexOf(FileEvents(codec, File(runId)))
    }

    method LoadSequenceIndex(runId: RunId, readable: bool) returns (r: Option<map<nat, Print>>)
      modifies `sequenceIndex
      ensures r.Some? <==> runId in old(sequenceIndex) || readable || runId !in files
      ensures r.Some? ==> r.value == (if runId in old(sequenceIndex) then old(sequenceIndex)[runId]
                                      else IndexOf(FileEvents(codec, if runId in files then files[runId] else "")))
      ensures r == if old(Loads(runId, readable)) then Some(old(Known(runId))) else None
      ensures sequenceIndex == if r.Some? then old(sequenceIndex)[runId := r.value] else old(sequenceIndex)
    {
      hide IndexOf, FileEvents, Page, Rest, Lines, IsPage;
      if runId in sequenceIndex {
        assert sequenceIndex == sequenceIndex[runId := sequenceIndex[runId]];
        return Some(sequenceIndex[runId]);
      }
      var events := ReadEvents(runId, -1, None, readable);
      if events.None? {
        return None;
      }
      var index: map<nat, Print> := map[];
      var sorted := events.value;
      IndexOneMore(sorted, 0);
      for i := 0 to |sorted|
        invariant index == IndexOf(sorted[..i])
        invariant sequenceIndex == old(sequenceIndex) && runId !in sequenceIndex
      {
        IndexOneMore(sorted, i);
        index := index[sorted[i].sequence := PrintOf(sorted[i])];
      }
      assert sorted[..|sorted|] == sorted;
      WholeLogIndex(codec, File(runId));
      sequenceIndex := sequenceIndex[runId := index];
      r := Some(index);
    }

    /**
     * Exactly the new records before the first conflict are appended, up to the first that cannot be
     * encoded or whose write does not land for certain; nothing already appended is taken back, and the
     * answer says where it stopped.
     */
    method AppendEvents(runId: RunId, events: seq<Event>, readable: bool, answers: nat -> Io) returns (r: Appended)
      modifies `files, `sequenceIndex
      ensures forall other :: other != runId ==> File(other) == old(File(other))
      ensures if old(Loads(runId, readable)) then
                var filing := Filed(codec, old(File(runId)), old(Known(runId)), events, answers);
                && File(runId) == filing.file && r == filing.answer
                && sequenceIndex == old(sequenceIndex)[runId := filing.index]
              else
                r == IoFailed && files == old(files) && sequenceIndex == old(sequenceIndex)
    {
      hide PrintOf, Filed, Underway, Known, Loads;
      ghost var file0, index0 := File(runId), Known(runId);
      var loaded := LoadSequenceIndex(runId, readable);
      if loaded.None? {
        return IoFailed;
      }
      AppendNothing(codec, file0, index0, events, answers);
      var written := 0;
      for i := 0 to |events|
        invariant runId in sequenceIndex && sequenceIndex == old(sequenceIndex)[runId := sequenceIndex[runId]]
        invariant forall other :: other != runId ==> File(other) == old(File(other))
        invariant Underway(codec, file0, index0, events, i, answers, File(runId), sequenceIndex[runId], written)
      {
        var e := events[i];
        var index: map<nat, Print> := sequenceIndex[runId];
        AppendOne(codec, file0, index0, events, i, answers, File(runId), index, written);
        if e.sequence in index {
          if index[e.sequence] != PrintOf(e) {
            return Conflict(e.sequence);
          }
        } else {
          if !codec.encodable(e) {
            return Unencodable;
          }
          if !answers(written).Lost? {
            files := files[runId := File(runId) + (codec.encode(e) + "\n")];
          }
          if !answers(written).Landed? {
            return IoFailed;
          }
          sequenceIndex := sequenceIndex[runId := index[e.sequence := PrintOf(e)]];
          written := written + 1;
        }
      }
      AppendAll(codec, file0, index0, events, answers, File(runId), sequenceIndex[runId], written);
      r := Written(written);
    }
  }

  // ---- what a page is ----------------------------------------------------------------------

  predicate Ascending(events: seq<Event>) {
    forall i, j :: 0 <= i < j < |events| ==> events[i].sequence <= events[j].sequence
  }

  /** The records that carry this sequence, in order. */
  function Carrying(events: seq<Event>, sequence: nat): seq<Event> {
    if events == [] then [] else
      var last := events[|events| - 1];
      Carrying(events[..|events| - 1], sequence) + if last.sequence == sequence then [last] else []
  }

  /** All records past the cursor, ascending; records of one sequence in the order of the file. */
  ghost predicate IsWholePage(page: seq<Event>, log: seq<Event>, since: int) {
    && Ascending(page)
    && forall q: nat :: Carrying(page, q) == if q > since then Carrying(log, q) else []
  }

  /** The first `limit` of them. */
  ghost predicate IsPage(page: seq<Event>, log: seq<Event>, since: int, limit: Option<nat>) {
    exists all: seq<Event> :: IsWholePage(all, log, since) && page == Cut(all, limit)
  }

  function Cut(events: seq<Event>, limit: Option<nat>): (r: seq<Event>)
    ensures r <= events
    ensures |r| == if limit.Some? && limit.value < |events| then limit.value else |events|
  {
    match limit
    case None => events
    case Some(n) => if n < |events| then events[..n] else events
  }

  lemma {:induction false} InsertAscends(sorted: seq<Event>, e: Event)
    requires Ascending(sorted)
    ensures Ascending(Insert(sorted, e))
    ensures forall i :: 0 <= i < |Insert(sorted, e)| ==> Insert(sorted, e)[i] in sorted || Insert(sorted, e)[i] == e
  {
    if sorted != [] && sorted[|sorted| - 1].sequence > e.sequence {
      InsertAscends(sorted[..|sorted| - 1], e);
    }
  }

  lemma {:induction false} CarryingAppend(events: seq<Event>, more: seq<Event>, q: nat)
    ensures Carrying(events + more, q) == Carrying(events, q) + Carrying(more, q)
  {
    if more == [] {
      assert events + more == events;
    } else {
      CarryingAppend(events, more[..|more| - 1], q);
      assert (events + more)[..|events + more| - 1] == events + more[..|more| - 1];
    }
  }

  lemma {:induction false} InsertCarries(sorted: seq<Event>, e: Event, q: nat)
    requires Ascending(sorted)
    ensures Carrying(Insert(sorted, e), q) == Carrying(sorted, q) + if e.sequence == q then [e] else []
  {
    if sorted == [] || sorted[|sorted| - 1].sequence <= e.sequence {
      assert (sorted + [e])[..|sorted|] == sorted;
    } else {
      var init, last := sorted[..|sorted| - 1], sorted[|sorted| - 1];
      InsertCarries(init, e, q);
      assert Insert(sorted, e)[..|Insert(sorted, e)| - 1] == Insert(init, e);
    }
  }

  lemma {:induction false} SortAscends(events: seq<Event>)
    ensures Ascending(Sort(events))
  {
    if events != [] {
      SortAscends(events[..|events| - 1]);
      InsertAscends(Sort(events[..|events| - 1]), events[|events| - 1]);
    }
  }

  /** The sort keeps the records of every sequence, and their order. */
  lemma {:induction false} SortCarries(events: seq<Event>, q: nat)
    ensures Carrying(Sort(events), q) == Carrying(events, q)
  {
    if events != [] {
      var init, e := events[..|events| - 1], events[|events| - 1];
      SortCarries(init, q);
      SortAscends(init);
      hide Insert, Ascending;
      InsertCarries(Sort(init), e, q);
    }
  }

  lemma {:induction false} SinceCarries(events: seq<Event>, since: int, q: nat)
    ensures Carrying(Since(events, since), q) == if q > since then Carrying(events, q) else []
  {
    if events != [] {
      var init, e := events[..|events| - 1], events[|events| - 1];
      SinceCarries(init, since, q);
      CarryingAppend(Since(init, since), if e.sequence <= since then [] else [e], q);
    }
  }

  lemma {:induction false} CarryingNothingElse(events: seq<Event>, q: nat)
    ensures forall i :: 0 <= i < |Carrying(events, q)| ==> Carrying(events, q)[i].sequence == q
    ensures Carrying(events, q) != [] <==> exists i :: 0 <= i < |events| && events[i].sequence == q
  {
    if events != [] {
      var init := events[..|events| - 1];
      CarryingNothingElse(init, q);
      if i :| 0 <= i < |init| && init[i].sequence == q {
        assert events[i].sequence == q;
      }
    }
  }

  /** What ascends ends with its highest sequence. */
  lemma LastIsHighest(a: seq<Event>, b: seq<Event>)
    requires a != [] && Ascending(b) && forall q: nat :: Carrying(a, q) == Carrying(b, q)
    ensures b != [] && a[|a| - 1].sequence <= b[|b| - 1].sequence
  {
    var q := a[|a| - 1].sequence;
    CarryingNothingElse(a, q);
    CarryingNothingElse(b, q);
    assert Carrying(a, q) == Carrying(b, q);
  }

  lemma CarryingLast(events: seq<Event>, q: nat)
    requires events != []
    ensures var last := events[|events| - 1];
            Carrying(events, q) == Carrying(events[..|events| - 1], q) + if last.sequence == q then [last] else []
  {
  }

  lemma SameFront(a: seq<Event>, b: seq<Event>, tail: seq<Event>)
    requires a + tail == b + tail
    ensures a == b
  {
    assert a == (a + tail)[..|a + tail| - |tail|];
    assert b == (b + tail)[..|b + tail| - |tail|];
  }

  /** Ascending order and the records of each sequence, in order, leave no choice. */
  lemma {:induction false} AscendingIsDetermined(a: seq<Event>, b: seq<Event>)
    requires Ascending(a) && Ascending(b)
    requires forall q: nat :: Carrying(a, q) == Carrying(b, q)
    ensures a == b
  {
    if a == [] || b == [] {
      if a != [] { LastIsHighest(a, b); }
      if b != [] { LastIsHighest(b, a); }
    } else {
      LastIsHighest(a, b);
      LastIsHighest(b, a);
      var a', b', last, q := a[..|a| - 1], b[..|b| - 1], a[|a| - 1], a[|a| - 1].sequence;
      assert Ascending(a') && Ascending(b');
      hide Carrying, Ascending;
      CarryingLast(a, q);
      CarryingLast(b, q);
      assert Carrying(a', q) + [last] == Carrying(b', q) + [b[|b| - 1]];
      assert (Carrying(a', q) + [last])[|Carrying(a', q)|] == (Carrying(b', q) + [b[|b| - 1]])[|Carrying(b', q)|];
      forall r: nat ensures Carrying(a', r) == Carrying(b', r) {
        CarryingLast(a, r);
        CarryingLast(b, r);
        assert Carrying(a, r) == Carrying(b, r);
        SameFront(Carrying(a', r), Carrying(b', r), if r == q then [last] else []);
      }
      AscendingIsDetermined(a', b');
      assert a == a' + [last] && b == b' + [last];
    }
  }

  /** The page that is returned is the one there is. */
  lemma PageIff(log: seq<Event>, since: int, limit: Option<nat>)
    ensures forall page :: IsPage(page, log, since, limit) <==> page == PageOf(log, since, limit)
  {
    hide Ascending, Carrying, Sort, Since;
    var whole := Sort(Since(log, since));
    SortAscends(Since(log, since));
    forall q: nat ensures Carrying(whole, q) == if q > since then Carrying(log, q) else [] {
      SortCarries(Since(log, since), q);
      SinceCarries(log, since, q);
    }
    assert IsWholePage(whole, log, since);
    forall page ensures IsPage(page, log, since, limit) <==> page == PageOf(log, since, limit) {
      if IsPage(page, log, since, limit) {
        var all: seq<Event> :| IsWholePage(all, log, since) && page == Cut(all, limit);
        AscendingIsDetermined(all, whole);
      }
    }
  }

  lemma {:induction false} CarryingCounts(events: seq<Event>, e: Event)
    ensures multiset(Carrying(events, e.sequence))[e] == multiset(events)[e]
  {
    if events != [] {
      var init, last := events[..|events| - 1], events[|events| - 1];
      CarryingCounts(init, e);
      assert events == init + [last];
    }
  }

  /** Without a limit every record past the cursor is there as often as in the file, and no other. */
  lemma WholePageIsPermutation(page: seq<Event>, log: seq<Event>, since: int, e: Event)
    requires IsWholePage(page, log, since)
    ensures multiset(page)[e] == if e.sequence > since then multiset(log)[e] else 0
  {
    hide Ascending, Carrying;
    CarryingCounts(page, e);
    CarryingCounts(log, e);
    assert Carrying(page, e.sequence) == if e.sequence > since then Carrying(log, e.sequence) else [];
  }

  // ---- reading and indexing ---------------------------------------------------------------

  lemma IndexOneMore(events: seq<Event>, i: nat)
    requires i <= |events|
    ensures i == 0 ==> IndexOf(events[..i]) == map[]
    ensures i < |events| ==> IndexOf(events[..i + 1]) == IndexOf(events[..i])[events[i].sequence := PrintOf(events[i])]
  {
    assert i < |events| ==> events[..i + 1][..i] == events[..i];
  }

  /** Indexing what readEvents hands out is indexing the file. */
  lemma WholeLogIndex(codec: Codec, file: string)
    ensures IndexOf(Page(codec, file, -1, None)) == IndexOf(FileEvents(codec, file))
  {
    hide FileEvents;
    SinceStart(FileEvents(codec, file));
    SortKeepsIndex(FileEvents(codec, file));
  }

  lemma PageOfNothing(codec: Codec, since: int, limit: Option<nat>)
    ensures Page(codec, "", since, limit) == []
  {
    assert FileEvents(codec, "") == [];
  }

  lemma {:induction false} SinceStart(events: seq<Event>)
    ensures Since(events, -1) == events
  {
    if events != [] {
      SinceStart(events[..|events| - 1]);
    }
  }

  lemma {:induction false} InsertKeepsIndex(sorted: seq<Event>, e: Event)
    ensures IndexOf(Insert(sorted, e)) == IndexOf(sorted)[e.sequence := PrintOf(e)]
  {
    if sorted == [] || sorted[|sorted| - 1].sequence <= e.sequence {
      assert (sorted + [e])[..|sorted|] == sorted;
    } else {
      var init, last := sorted[..|sorted| - 1], sorted[|sorted| - 1];
      InsertKeepsIndex(init, e);
      assert Insert(sorted, e)[..|Insert(sorted, e)| - 1] == Insert(init, e);
    }
  }

  /** The index does not depend on the order in which a stable sort hands out the events. */
  lemma {:induction false} SortKeepsIndex(events: seq<Event>)
    ensures IndexOf(Sort(events)) == IndexOf(events)
  {
    if events != [] {
      SortKeepsIndex(events[..|events| - 1]);
      InsertKeepsIndex(Sort(events[..|events| - 1]), events[|events| - 1]);
    }
  }

  lemma {:induction false} LinesEventsAppend(codec: Codec, lines: seq<string>, line: string)
    ensures LinesEvents(codec, lines + [line]) == LinesEvents(codec, lines) + LineEvents(codec, line)
  {
    assert (lines + [line])[..|lines|] == lines;
  }

  /** Behind a terminated log, an appended line is read as the event it encodes. */
  lemma AppendedLineIsRead(codec: Codec, file: string, e: Event)
    requires Lawful(codec) && codec.encodable(e) && Terminated(file)
    ensures FileEvents(codec, file + (codec.encode(e) + "\n")) == FileEvents(codec, file) + [e]
    ensures Terminated(file + (codec.encode(e) + "\n"))
  {
    hide Lawful, LineEvents, LinesEvents, Lines, Rest;
    var l := codec.encode(e);
    EncodedLineIsRead(codec, e);
    LinesAppend(file, l + "\n");
    assert Rest(file) + (l + "\n") == l + "\n";
    EndedLine(l);
    LinesEventsAppend(codec, Lines(file), l);
    BlankSaysNothing(codec);
  }

  lemma EncodedLineIsRead(codec: Codec, e: Event)
    requires Lawful(codec) && codec.encodable(e)
    ensures '\n' !in codec.encode(e) && LineEvents(codec, codec.encode(e)) == [e]
  {
    assert codec.decode(codec.encode(e)) == Some(e);
  }

  lemma BlankSaysNothing(codec: Codec)
    ensures LineEvents(codec, "") == []
  {
  }

  /** The first i events are taken in: all that is new of them is on disk and in the index. */
  predicate Underway(codec: Codec, file0: string, index0: map<nat, Print>, events: seq<Event>, i: nat,
                     answers: nat -> Io, file: string, index: map<nat, Print>, written: nat)
    requires i <= |events|
  {
    var sofar := TakeIn(index0, events[..i]);
    && sofar.conflict.None? && index == sofar.index && written == |sofar.written|
    && file == file0 + EncodeAll(codec, sofar.written)
    && Landing(codec, answers, sofar.written) == written
  }

  lemma AppendNothing(codec: Codec, file: string, index: map<nat, Print>, events: seq<Event>, answers: nat -> Io)
    ensures Underway(codec, file, index, events, 0, answers, file, index, 0)
  {
    assert TakeIn(index, events[..0]) == Intake([], index, None);
    assert file + EncodeAll(codec, []) == file;
  }

  /** One turn of the loop: it goes on, or stops where the whole append stops. */
  lemma AppendOne(codec: Codec, file0: string, index0: map<nat, Print>, events: seq<Event>, i: nat, answers: nat -> Io,
                  file: string, index: map<nat, Print>, written: nat)
    requires i < |events| && Underway(codec, file0, index0, events, i, answers, file, index, written)
    ensures var e, filing := events[i], Filed(codec, file0, index0, events, answers);
            var file', index' := file + (codec.encode(e) + "\n"), index[e.sequence := PrintOf(e)];
            if e.sequence in index then
              if index[e.sequence] == PrintOf(e) then
                Underway(codec, file0, index0, events, i + 1, answers, file, index, written)
              else
                filing == Filing(file, index, Conflict(e.sequence))
            else if !codec.encodable(e) then
              filing == Filing(file, index, Unencodable)
            else match answers(written)
              case Lost => filing == Filing(file, index, IoFailed)
              case Unsure => filing == Filing(file', index, IoFailed)
              case Landed => Underway(codec, file0, index0, events, i + 1, answers, file', index', written + 1)
  {
    hide EncodeAll, PrintOf, TakeIn, Filed, Indexed, Landing;
    var sofar, e := TakeIn(index0, events[..i]), events[i];
    TakeInStep(index0, events, i);
    TakeInPrefix(index0, events, i + 1);
    OneMoreEncoded(codec, file0, sofar.written, e);
    hide TakeOne;
    if e.sequence in index {
      if index[e.sequence] != PrintOf(e) {
        assert TakeOne(sofar, e) == sofar.(conflict := Some(e.sequence)) by { TakeOneOf(sofar, e); }
        IntakeIndex(index0, events[..i]);
        FiledToTheEnd(codec, file0, index0, events, answers);
      } else {
        TakeOneOf(sofar, e);
      }
    } else {
      TakeOneOf(sofar, e);
      if codec.encodable(e) && answers(written).Landed? {
        LandingGoesOn(codec, answers, sofar.written, e);
      } else {
        StopsAtNew(codec, file0, index0, events, i, answers);
      }
    }
  }

  lemma TakeOneOf(before: Intake, e: Event)
    requires before.conflict.None?
    ensures TakeOne(before, e) ==
              if e.sequence !in before.index then
                Intake(before.written + [e], before.index[e.sequence := PrintOf(e)], None)
              else if before.index[e.sequence] == PrintOf(e) then before
              else before.(conflict := Some(e.sequence))
  {
    hide PrintOf;
  }

  lemma LandingGoesOn(codec: Codec, answers: nat -> Io, written: seq<Event>, e: Event)
    requires Landing(codec, answers, written) == |written| && codec.encodable(e) && answers(|written|).Landed?
    ensures Landing(codec, answers, written + [e]) == |written| + 1
  {
    assert (written + [e])[..|written|] == written;
  }

  /** A new record that cannot be encoded, or does not land for certain, ends the append. */
  lemma StopsAtNew(codec: Codec, file: string, index: map<nat, Print>, events: seq<Event>, i: nat, answers: nat -> Io)
    requires i < |events| && TakeIn(index, events[..i]).conflict.None?
    requires var sofar := TakeIn(index, events[..i]);
             && events[i].sequence !in sofar.index && Landing(codec, answers, sofar.written) == |sofar.written|
             && (!codec.encodable(events[i]) || !answers(|sofar.written|).Landed?)
    ensures var sofar, e := TakeIn(index, events[..i]), events[i];
            var unsure := codec.encodable(e) && answers(|sofar.written|).Unsure?;
            Filed(codec, file, index, events, answers)
            == Filing(file + EncodeAll(codec, if unsure then sofar.written + [e] else sofar.written), sofar.index,
                      if codec.encodable(e) then IoFailed else Unencodable)
  {
    hide EncodeAll, PrintOf, TakeIn, Filed, Indexed, Landing;
    var sofar, all, e := TakeIn(index, events[..i]), TakeIn(index, events), events[i];
    var n := |sofar.written|;
    TakeInStep(index, events, i);
    TakeInPrefix(index, events, i + 1);
    IntakeIndex(index, events[..i]);
    assert all.written[..n] == sofar.written && all.written[..n + 1] == sofar.written + [e];
    LandingStops(codec, answers, all.written, n);
    FiledUpTo(codec, file, index, events, answers);
  }

  lemma FiledToTheEnd(codec: Codec, file: string, index: map<nat, Print>, events: seq<Event>, answers: nat -> Io)
    requires var written := TakeIn(index, events).written; Landing(codec, answers, written) == |written|
    ensures var intake := TakeIn(index, events);
            Filed(codec, file, index, events, answers)
            == Filing(file + EncodeAll(codec, intake.written), intake.index,
                      if intake.conflict.Some? then Conflict(intake.conflict.value) else Written(|intake.written|))
  {
    hide TakeIn, EncodeAll, Indexed;
    var intake := TakeIn(index, events);
    IntakeIndex(index, events);
    assert intake.written[..|intake.written|] == intake.written;
  }

  lemma FiledUpTo(codec: Codec, file: string, index: map<nat, Print>, events: seq<Event>, answers: nat -> Io)
    requires var written := TakeIn(index, events).written; Landing(codec, answers, written) < |written|
    ensures var written := TakeIn(index, events).written;
            var k := Landing(codec, answers, written);
            var unsure := codec.encodable(written[k]) && answers(k).Unsure?;
            Filed(codec, file, index, events, answers)
            == Filing(file + EncodeAll(codec, written[..if unsure then k + 1 else k]), Indexed(index, written[..k]),
                      if codec.encodable(written[k]) then IoFailed else Unencodable)
  {
    hide TakeIn, EncodeAll, Indexed;
  }

  lemma AppendAll(codec: Codec, file0: string, index0: map<nat, Print>, events: seq<Event>, answers: nat -> Io,
                  file: string, index: map<nat, Print>, written: nat)
    requires Underway(codec, file0, index0, events, |events|, answers, file, index, written)
    ensures Filed(codec, file0, index0, events, answers) == Filing(file, index, Written(written))
  {
    hide TakeIn, EncodeAll, Indexed, Filed, Landing;
    assert events[..|events|] == events;
    FiledToTheEnd(codec, file0, index0, events, answers);
  }

  lemma {:induction false} LandingStops(codec: Codec, answers: nat -> Io, events: seq<Event>, k: nat)
    requires k < |events| && Landing(codec, answers, events[..k]) == k
    requires !codec.encodable(events[k]) || !answers(k).Landed?
    ensures Landing(codec, answers, events) == k
    decreases |events|
  {
    var init := events[..|events| - 1];
    if k < |init| {
      assert init[..k] == events[..k] && init[k] == events[k];
      LandingStops(codec, answers, init, k);
    } else {
      assert events[..k] == init;
    }
  }

  lemma {:induction false} LandingIsEncodable(codec: Codec, answers: nat -> Io, events: seq<Event>)
    ensures AllEncodable(codec, events[..Landing(codec, answers, events)])
  {
    if events != [] {
      var init := events[..|events| - 1];
      LandingIsEncodable(codec, answers, init);
      var k := Landing(codec, answers, events);
      assert k <= |init| ==> events[..k] == init[..k];
    }
  }

  lemma OneMoreEncoded(codec: Codec, file0: string, written: seq<Event>, e: Event)
    ensures file0 + EncodeAll(codec, written + [e]) == file0 + EncodeAll(codec, written) + (codec.encode(e) + "\n")
  {
    assert (written + [e])[..|written|] == written;
  }

  /** The index an append hands on knows exactly what it wrote besides what it knew. */
  lemma {:induction false} IntakeIndex(index: map<nat, Print>, events: seq<Event>)
    ensures TakeIn(index, events).index == Indexed(index, TakeIn(index, events).written)
  {
    if events != [] {
      var before := TakeIn(index, events[..|events| - 1]);
      IntakeIndex(index, events[..|events| - 1]);
      var e := events[|events| - 1];
      assert (before.written + [e])[..|before.written|] == before.written;
    }
  }

  lemma TakeInStep(index: map<nat, Print>, events: seq<Event>, i: nat)
    requires i < |events|
    ensures TakeIn(index, events[..i + 1]) == TakeOne(TakeIn(index, events[..i]), events[i])
  {
    assert events[..i + 1][..i] == events[..i];
  }

  lemma {:induction false} TakeInPrefix(index: map<nat, Print>, events: seq<Event>, i: nat)
    requires i <= |events|
    ensures var part, all := TakeIn(index, events[..i]), TakeIn(index, events);
            && part.written <= all.written
            && (part.conflict.Some? ==> all == part)
    decreases |events|
  {
    if i == |events| {
      assert events[..i] == events;
    } else {
      TakeInPrefix(index, events[..|events| - 1], i);
      assert events[..|events| - 1][..i] == events[..i];
    }
  }
}
