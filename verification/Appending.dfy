/** What appending a batch does, said on the fields of the records: what is the same, what is new, where it stops. */
module Appending {
  import opened Options
  import opened Runs
  import opened Text
  import opened EventLog
  import opened LogLaws

  // ---- what a file says -------------------------------------------------------------------

  lemma {:induction false} LinesEventsOfBoth(codec: Codec, a: seq<string>, b: seq<string>)
    ensures LinesEvents(codec, a + b) == LinesEvents(codec, a) + LinesEvents(codec, b)
  {
    hide LineEvents;
    if b == [] {
      assert a + b == a;
    } else {
      LinesEventsOfBoth(codec, a, b[..|b| - 1]);
      assert (a + b)[..|a + b| - 1] == a + b[..|b| - 1];
    }
  }

  /**
   * A file says what its first line says and then what the rest of it says; a line says what it decodes to,
   * and nothing if it is blank or does not decode.
   */
  lemma FileSays(codec: Codec, line: string, more: string)
    requires '\n' !in line
    ensures FileEvents(codec, line)
            == if IsBlank(line) || codec.decode(line).None? then [] else [codec.decode(line).value]
    ensures FileEvents(codec, line + "\n" + more) == FileEvents(codec, line) + FileEvents(codec, more)
  {
    hide LineEvents, Lines, Rest, IsBlank;
    FragmentHasNoLines(line);
    LineSays(codec, line);
    assert FileEvents(codec, line) == LineEvents(codec, line);
    EndedLine(line);
    LinesAppend(line + "\n", more);
    assert "" + more == more && [line][..0] == [];
    LinesEventsOfBoth(codec, [line], Lines(more));
    assert line + "\n" + more == (line + "\n") + more;
    assert LinesEvents(codec, [line]) == LineEvents(codec, line);
  }

  lemma LineSays(codec: Codec, line: string)
    ensures LineEvents(codec, line)
            == if IsBlank(line) || codec.decode(line).None? then [] else [codec.decode(line).value]
  {
  }

  // ---- one record or another ----------------------------------------------------------------

  /** Records of one sequence are one record if they agree on these. */
  predicate SameRecord(a: Event, b: Event) {
    a.kind == b.kind && a.timestamp == b.timestamp && a.payload == b.payload
  }

  lemma PrintIff(a: Event, b: Event)
    ensures PrintOf(a) == PrintOf(b) <==> SameRecord(a, b)
  {
  }

  /** No later record of the log has its sequence. */
  predicate IsLatest(log: seq<Event>, j: nat)
    requires j < |log|
  {
    forall k :: j < k < |log| ==> log[k].sequence != log[j].sequence
  }

  /** One more record is the latest of its sequence, and the others stay what they were. */
  lemma LatestOfMore(init: seq<Event>, last: Event, j: nat)
    requires j <= |init|
    ensures IsLatest(init + [last], j)
            <==> j == |init| || (IsLatest(init, j) && init[j].sequence != last.sequence)
  {
    var log := init + [last];
    if j < |init| {
      assert forall k :: j < k < |init| ==> log[k] == init[k];
      if IsLatest(init, j) && init[j].sequence != last.sequence {
        assert IsLatest(log, j);
      }
      if IsLatest(log, j) {
        assert log[|init|].sequence != log[j].sequence;
        assert IsLatest(init, j);
      }
    }
  }

  /** The index of a log has each sequence under the latest record that claims it. */
  lemma {:induction false} LatestIsIndexed(log: seq<Event>, j: nat)
    requires j < |log| && IsLatest(log, j)
    ensures log[j].sequence in IndexOf(log) && IndexOf(log)[log[j].sequence] == PrintOf(log[j])
    decreases |log|
  {
    hide PrintOf, IsLatest;
    var init, last := log[..|log| - 1], log[|log| - 1];
    assert init + [last] == log;
    LatestOfMore(init, last, j);
    if j < |init| {
      LatestIsIndexed(init, j);
    }
  }

  /** It has no other. */
  lemma {:induction false} IndexedHasLatest(log: seq<Event>, sequence: nat) returns (j: nat)
    requires sequence in IndexOf(log)
    ensures j < |log| && IsLatest(log, j) && log[j].sequence == sequence
    decreases |log|
  {
    hide PrintOf, IsLatest;
    var init, last := log[..|log| - 1], log[|log| - 1];
    assert init + [last] == log;
    j := |init|;
    if sequence != last.sequence {
      j := IndexedHasLatest(init, sequence);
    }
    LatestOfMore(init, last, j);
  }

  lemma IndexSays(log: seq<Event>)
    ensures forall j :: 0 <= j < |log| && IsLatest(log, j) ==>
              log[j].sequence in IndexOf(log) && IndexOf(log)[log[j].sequence] == PrintOf(log[j])
    ensures forall s :: s in IndexOf(log) ==> exists j :: 0 <= j < |log| && IsLatest(log, j) && log[j].sequence == s
  {
    hide IndexOf, IsLatest, PrintOf;
    forall j | 0 <= j < |log| && IsLatest(log, j)
      ensures log[j].sequence in IndexOf(log) && IndexOf(log)[log[j].sequence] == PrintOf(log[j])
    {
      LatestIsIndexed(log, j);
    }
    forall s | s in IndexOf(log) ensures exists j :: 0 <= j < |log| && IsLatest(log, j) && log[j].sequence == s {
      var j := IndexedHasLatest(log, s);
    }
  }

  // ---- what is new and what clashes -----------------------------------------------------------

  predicate Claims(log: seq<Event>, sequence: nat) {
    exists j :: 0 <= j < |log| && log[j].sequence == sequence
  }

  /** Neither the log nor what stands earlier in the batch has this record's sequence. */
  predicate IsNew(known: seq<Event>, batch: seq<Event>, i: nat)
    requires i < |batch|
  {
    !Claims(known, batch[i].sequence) && !Claims(batch[..i], batch[i].sequence)
  }

  /** Another record claims its sequence: the latest of the log, or one that stands earlier in the batch. */
  predicate Disputed(known: seq<Event>, batch: seq<Event>, i: nat)
    requires i < |batch|
  {
    || (exists j :: 0 <= j < |known| && IsLatest(known, j)
                    && known[j].sequence == batch[i].sequence && !SameRecord(known[j], batch[i]))
    || (exists j :: 0 <= j < i && batch[j].sequence == batch[i].sequence && !SameRecord(batch[j], batch[i]))
  }

  /** The new records of the first n. */
  function News(known: seq<Event>, batch: seq<Event>, n: nat): seq<Event>
    requires n <= |batch|
  {
    if n == 0 then [] else News(known, batch, n - 1) + if IsNew(known, batch, n - 1) then [batch[n - 1]] else []
  }

  /** A record is disputed exactly if it clashes with the index of the log, or within the batch. */
  lemma DisputedIffClashes(known: seq<Event>, batch: seq<Event>, i: nat)
    requires i < |batch|
    ensures Disputed(known, batch, i) <==> Clashes(IndexOf(known), batch, i)
  {
    IndexSays(known);
    hide IndexOf, IsLatest;
    var e := batch[i];
    if e.sequence in IndexOf(known) && IndexOf(known)[e.sequence] != PrintOf(e) {
      var j :| 0 <= j < |known| && IsLatest(known, j) && known[j].sequence == e.sequence;
      assert !SameRecord(known[j], e);
    }
    if j :| 0 <= j < i && batch[j].sequence == e.sequence && PrintOf(batch[j]) != PrintOf(e) {
      assert !SameRecord(batch[j], e);
    }
  }

  // ---- the whole append -------------------------------------------------------------------------

  /** The append ends at this record, and not before. */
  predicate EndsAt(codec: Codec, known: seq<Event>, batch: seq<Event>, answers: nat -> Io, i: nat)
    requires i < |batch|
  {
    || Disputed(known, batch, i)
    || (IsNew(known, batch, i)
        && (!codec.encodable(batch[i]) || !answers(|News(known, batch, i)|).Landed?))
  }

  predicate GoesOn(codec: Codec, known: seq<Event>, batch: seq<Event>, answers: nat -> Io, n: nat)
    requires n <= |batch|
  {
    forall i :: 0 <= i < n ==> !EndsAt(codec, known, batch, answers, i)
  }

  /** What the index of the turn knows of the next record. */
  lemma WhatTheIndexKnows(known: seq<Event>, batch: seq<Event>, i: nat, index: map<nat, Print>)
    requires i < |batch| && Extends(index, IndexOf(known)) && Holds(index, batch[..i])
    requires forall s :: s in index ==> s in IndexOf(known) || Claims(batch[..i], s)
    ensures IsNew(known, batch, i) <==> batch[i].sequence !in index
    ensures Disputed(known, batch, i)
            <==> batch[i].sequence in index && index[batch[i].sequence] != PrintOf(batch[i])
  {
    hide IndexOf, PrintOf, Disputed;
    var e := batch[i];
    IndexedIffPresent(known, e.sequence);
    DisputedIffClashes(known, batch, i);
    assert forall j :: 0 <= j < i ==> batch[..i][j] == batch[j];
  }

  lemma {:induction false} TakenFrom(index: map<nat, Print>, batch: seq<Event>)
    ensures forall s :: s in TakeIn(index, batch).index ==> s in index || Claims(batch, s)
  {
    if batch != [] {
      hide PrintOf;
      var init := batch[..|batch| - 1];
      TakenFrom(index, init);
      forall s | Claims(init, s) ensures Claims(batch, s) {
        var j :| 0 <= j < |init| && init[j].sequence == s;
        assert batch[j].sequence == s;
      }
      assert Claims(batch, batch[|init|].sequence);
    }
  }

  /** The loop, after n records that did not stop it. */
  predicate StandsAt(codec: Codec, file: string, known: seq<Event>, batch: seq<Event>, answers: nat -> Io, n: nat)
    requires n <= |batch|
  {
    var news := News(known, batch, n);
    Underway(codec, file, IndexOf(known), batch, n, answers,
             file + EncodeAll(codec, news), IndexOf(known + news), |news|)
  }

  /** There the index tells a new record and a disputed one. */
  lemma IndexTells(codec: Codec, file: string, known: seq<Event>, batch: seq<Event>, answers: nat -> Io, n: nat)
    requires n < |batch| && StandsAt(codec, file, known, batch, answers, n)
    ensures var index, e := IndexOf(known + News(known, batch, n)), batch[n];
            && (IsNew(known, batch, n) <==> e.sequence !in index)
            && (Disputed(known, batch, n) <==> e.sequence in index && index[e.sequence] != PrintOf(e))
  {
    hide IndexOf, EncodeAll, PrintOf, Landing, TakeIn, IsNew, Disputed, News, Holds, Extends;
    var index := IndexOf(known + News(known, batch, n));
    AcceptedIsHeld(IndexOf(known), batch[..n]);
    IntakeExtends(IndexOf(known), batch[..n]);
    TakenFrom(IndexOf(known), batch[..n]);
    WhatTheIndexKnows(known, batch, n, index);
  }

  lemma OneMoreNew(codec: Codec, file: string, known: seq<Event>, batch: seq<Event>, n: nat)
    requires n < |batch| && IsNew(known, batch, n)
    ensures var news, more := News(known, batch, n), News(known, batch, n + 1);
            && |more| == |news| + 1
            && file + EncodeAll(codec, more) == file + EncodeAll(codec, news) + (codec.encode(batch[n]) + "\n")
            && IndexOf(known + more) == IndexOf(known + news)[batch[n].sequence := PrintOf(batch[n])]
  {
    hide IsNew, IndexOf, EncodeAll, PrintOf;
    var news, e := News(known, batch, n), batch[n];
    OneMoreEncoded(codec, file, news, e);
    OneMoreIndexed(known + news, e);
    assert known + (news + [e]) == known + news + [e];
  }

  lemma StepsOn(codec: Codec, file: string, known: seq<Event>, batch: seq<Event>, answers: nat -> Io, n: nat)
    requires n < |batch| && StandsAt(codec, file, known, batch, answers, n)
    requires !EndsAt(codec, known, batch, answers, n)
    ensures StandsAt(codec, file, known, batch, answers, n + 1)
  {
    hide IndexOf, EncodeAll, PrintOf, Underway, IsNew, Disputed, Filed;
    var news := News(known, batch, n);
    IndexTells(codec, file, known, batch, answers, n);
    AppendOne(codec, file, IndexOf(known), batch, n, answers, file + EncodeAll(codec, news),
              IndexOf(known + news), |news|);
    if IsNew(known, batch, n) {
      OneMoreNew(codec, file, known, batch, n);
    } else {
      assert News(known, batch, n + 1) == news;
    }
  }

  lemma {:induction false} StandsAsLongAsItGoesOn(codec: Codec, file: string, known: seq<Event>, batch: seq<Event>,
                                                  answers: nat -> Io, n: nat)
    requires n <= |batch| && GoesOn(codec, known, batch, answers, n)
    ensures StandsAt(codec, file, known, batch, answers, n)
  {
    if n == 0 {
      assert known + [] == known && file + EncodeAll(codec, []) == file;
      AppendNothing(codec, file, IndexOf(known), batch, answers);
    } else {
      hide EndsAt, StandsAt;
      StandsAsLongAsItGoesOn(codec, file, known, batch, answers, n - 1);
      StepsOn(codec, file, known, batch, answers, n - 1);
    }
  }

  /**
   * An append whose index is that of the records `known`, on any log and with any answers of the disk. If
   * nothing ends it, all new records of the batch are written, and it answers how many. Otherwise the first
   * record that ends it decides: another record has its sequence, or it cannot be encoded, or its write does
   * not land for certain. What is new before that record is on disk and in the index, and of that record at
   * most an unsure write is on disk.
   */
  lemma AppendIsExactly(codec: Codec, file: string, known: seq<Event>, batch: seq<Event>, answers: nat -> Io, n: nat)
    requires n <= |batch| && GoesOn(codec, known, batch, answers, n)
    requires n < |batch| ==> EndsAt(codec, known, batch, answers, n)
    ensures var filing := Filed(codec, file, IndexOf(known), batch, answers);
            var news := News(known, batch, n);
            && filing.index == IndexOf(known + news)
            && (if n == |batch| then
                  filing.answer == Written(|news|) && filing.file == file + EncodeAll(codec, news)
                else if Disputed(known, batch, n) then
                  filing.answer == Conflict(batch[n].sequence) && filing.file == file + EncodeAll(codec, news)
                else if !codec.encodable(batch[n]) then
                  filing.answer == Unencodable && filing.file == file + EncodeAll(codec, news)
                else
                  && filing.answer == IoFailed
                  && filing.file
                     == file + EncodeAll(codec, news + if answers(|news|).Unsure? then [batch[n]] else []))
  {
    hide IndexOf, EncodeAll, PrintOf, Underway, IsNew, Disputed, Filed, GoesOn;
    var news := News(known, batch, n);
    StandsAsLongAsItGoesOn(codec, file, known, batch, answers, n);
    if n == |batch| {
      AppendAll(codec, file, IndexOf(known), batch, answers, file + EncodeAll(codec, news),
                IndexOf(known + news), |news|);
    } else {
      IndexTells(codec, file, known, batch, answers, n);
      AppendOne(codec, file, IndexOf(known), batch, n, answers, file + EncodeAll(codec, news),
                IndexOf(known + news), |news|);
      OneMoreEncoded(codec, file, news, batch[n]);
      assert news + [] == news;
    }
  }
}
