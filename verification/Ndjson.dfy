/** Incremental NDJSON framing: chunks in, records with resumable byte offsets out. */
module Ndjson {
  import opened Options
  import opened Text

  /** The JSON decoder is a partial function of a line; `max` is the byte ceiling put before it. */
  datatype Codec<!V> = Codec(parse: string -> Option<V>, max: nat)

  datatype Record<V> = Record(value: V, endOffset: nat)

  datatype ReadResult<V> = ReadResult(
    records: seq<Record<V>>, rejected: nat, consumedBytes: nat, pendingBytes: nat, overflowed: bool)

  function Decode<V>(codec: Codec<V>, line: string): Option<V> {
    if Bytes(line) > codec.max || IsBlank(line) then None else codec.parse(line)
  }

  // ---- what a stream means -----------------------------------------------------

  /** What has been read so far, by whoever collects the results. */
  datatype Tally<V> = Tally(consumed: nat, records: seq<Record<V>>, rejected: nat)

  function AddLine<V>(codec: Codec<V>, t: Tally<V>, line: string): Tally<V> {
    var end := t.consumed + Bytes(line) + 1;
    if IsBlank(line) then t.(consumed := end)
    else match Decode(codec, line)
         case None => t.(consumed := end, rejected := t.rejected + 1)
         case Some(v) => t.(consumed := end, records := t.records + [Record(v, end)])
  }

  function AddLines<V>(codec: Codec<V>, t: Tally<V>, lines: seq<string>): Tally<V> {
    if lines == [] then t else AddLine(codec, AddLines(codec, t, lines[..|lines| - 1]), lines[|lines| - 1])
  }

  datatype Reader<V> = Reader(pending: string, tally: Tally<V>)

  function Nothing<V>(consumed: nat): Tally<V> {
    Tally(consumed, [], 0)
  }

  function Push<V>(codec: Codec<V>, r: Reader<V>, chunk: string): Reader<V> {
    var text := r.pending + chunk;
    var t, rest := AddLines(codec, r.tally, Lines(text)), Rest(text);
    if Bytes(rest) > codec.max then Reader("", t.(consumed := t.consumed + Bytes(rest), rejected := t.rejected + 1))
    else Reader(rest, t)
  }

  function Finish<V>(codec: Codec<V>, r: Reader<V>): Reader<V> {
    var end := r.tally.consumed + Bytes(r.pending);
    var t := r.tally.(consumed := end);
    Reader("", if IsBlank(r.pending) then t
               else match Decode(codec, r.pending)
                    case None => t.(rejected := t.rejected + 1)
                    case Some(v) => t.(records := t.records + [Record(v, end)]))
  }

  function Feed<V>(codec: Codec<V>, r: Reader<V>, chunks: seq<string>): Reader<V> {
    if chunks == [] then r else Push(codec, Feed(codec, r, chunks[..|chunks| - 1]), chunks[|chunks| - 1])
  }

  // ---- the stream ----------------------------------------------------------------

  class NdjsonStream<V> {
    const codec: Codec<V>
    var pending: string
    var consumedBytes: nat

    constructor (codec: Codec<V>)
      ensures this.codec == codec && State() == Reader("", Nothing(0))
    {
      this.codec := codec;
      pending, consumedBytes := "", 0;
    }

    /** A reader that has reported everything it read. */
    function State(): Reader<V>
      reads this
    {
      Reader(pending, Nothing(consumedBytes))
    }

    method PushChunk(chunk: string) returns (r: ReadResult<V>)
      modifies this
      ensures var after := Push(codec, old(State()), chunk);
              && State() == Reader(after.pending, Nothing(after.tally.consumed))
              && r == ReadResult(after.tally.records, after.tally.rejected, after.tally.consumed,
                                 Bytes(after.pending), Bytes(Rest(old(pending) + chunk)) > codec.max)
    {
      var combined := pending + chunk;
      var segments, trailing := Lines(combined), Rest(combined);
      hide Lines, Rest, Bytes;
      var records: seq<Record<V>> := [];
      var rejected: nat := 0;
      var consumedInThisPush: nat := 0;
      for i := 0 to |segments|
        invariant pending == old(pending) && consumedBytes == old(consumedBytes)
        invariant Tally(consumedBytes + consumedInThisPush, records, rejected)
                  == AddLines(codec, Nothing(consumedBytes), segments[..i])
      {
        var segment := segments[i];
        assert segments[..i + 1][..i] == segments[..i];
        consumedInThisPush := consumedInThisPush + Bytes(segment) + 1;
        if !IsBlank(segment) {
          match Decode(codec, segment)
          case None => rejected := rejected + 1;
          case Some(v) => records := records + [Record(v, consumedBytes + consumedInThisPush)];
        }
      }
      assert segments[..|segments|] == segments;
      consumedBytes := consumedBytes + consumedInThisPush;
      var trailingBytes := Bytes(trailing);
      var overflowed := trailingBytes > codec.max;
      pending := if overflowed then "" else trailing;
      if overflowed {
        consumedBytes := consumedBytes + trailingBytes;
        rejected := rejected + 1;
      }
      r := ReadResult(records, rejected, consumedBytes, Bytes(pending), overflowed);
    }

    /** Take the final unterminated fragment, after the producer has exited. */
    method FinishStream() returns (r: ReadResult<V>)
      modifies this
      ensures var after := Finish(codec, old(State()));
              && State() == Reader("", Nothing(after.tally.consumed))
              && r == ReadResult(after.tally.records, after.tally.rejected, after.tally.consumed, 0, false)
    {
      r := ReadResult([], 0, consumedBytes, 0, false);
      if pending != "" {
        var segment := pending;
        pending := "";
        consumedBytes := consumedBytes + Bytes(segment);
        r := r.(consumedBytes := consumedBytes);
        if !IsBlank(segment) {
          match Decode(codec, segment)
          case None => r := r.(rejected := 1);
          case Some(v) => r := r.(records := [Record(v, consumedBytes)]);
        }
      }
    }
  }

  /** Collecting what each push reports is the same as reading with the collection at hand. */
  lemma {:induction false} LinesCollect<V>(codec: Codec<V>, t: Tally<V>, lines: seq<string>)
    ensures AddLines(codec, t, lines) == Collect(t, AddLines(codec, Nothing(t.consumed), lines))
  {
    hide Decode, IsBlank, Bytes;
    if lines != [] {
      LinesCollect(codec, t, lines[..|lines| - 1]);
    }
  }

  function Collect<V>(t: Tally<V>, more: Tally<V>): Tally<V> {
    Tally(more.consumed, t.records + more.records, t.rejected + more.rejected)
  }

  lemma PushCollects<V>(codec: Codec<V>, r: Reader<V>, chunk: string)
    ensures var reported := Push(codec, Reader(r.pending, Nothing(r.tally.consumed)), chunk);
            Push(codec, r, chunk) == Reader(reported.pending, Collect(r.tally, reported.tally))
  {
    hide AddLines, Lines, Rest, Bytes;
    LinesCollect(codec, r.tally, Lines(r.pending + chunk));
  }

  lemma FinishCollects<V>(codec: Codec<V>, r: Reader<V>)
    ensures var reported := Finish(codec, Reader(r.pending, Nothing(r.tally.consumed)));
            Finish(codec, r) == Reader(reported.pending, Collect(r.tally, reported.tally))
  {
  }

  // ---- cutting a stream into chunks -------------------------------------------------

  lemma {:induction false} MoreLines<V>(codec: Codec<V>, t: Tally<V>, a: seq<string>, b: seq<string>)
    ensures AddLines(codec, t, a + b) == AddLines(codec, AddLines(codec, t, a), b)
  {
    hide AddLine;
    if b == [] {
      assert a + b == a;
    } else {
      MoreLines(codec, t, a, b[..|b| - 1]);
      assert (a + b)[..|a + b| - 1] == a + b[..|b| - 1];
    }
  }

  /** The reading of a whole bounded text at once. */
  function Whole<V>(codec: Codec<V>, t: Tally<V>, text: string): Reader<V> {
    Reader(Rest(text), AddLines(codec, t, Lines(text)))
  }

  /**
   * However a stream whose lines all fit is cut, the records, their offsets, the
   * rejected count and the reader left behind are those of the whole text.
   */
  lemma {:induction false} CutsDoNotMatter<V>(codec: Codec<V>, r: Reader<V>, chunks: seq<string>)
    requires '\n' !in r.pending && Bounded(codec.max, r.pending + Concat(chunks))
    ensures Feed(codec, r, chunks) == Whole(codec, r.tally, r.pending + Concat(chunks))
  {
    if chunks == [] {
      assert r.pending + "" == r.pending;
      FragmentHasNoLines(r.pending);
    } else {
      hide Lines, Rest, AddLines, Bytes;
      var init, last := chunks[..|chunks| - 1], chunks[|chunks| - 1];
      var a := r.pending + Concat(init);
      assert r.pending + Concat(chunks) == a + last;
      BoundedPrefix(codec.max, a, last);
      CutsDoNotMatter(codec, r, init);
      LinesAppend(a, last);
      MoreLines(codec, r.tally, Lines(a), Lines(Rest(a) + last));
    }
  }

  // ---- accounting and resumption ------------------------------------------------------

  lemma {:induction false} LinesConsume<V>(codec: Codec<V>, t: Tally<V>, lines: seq<string>)
    ensures AddLines(codec, t, lines).consumed == t.consumed + Size(lines)
  {
    if lines != [] {
      LinesConsume(codec, t, lines[..|lines| - 1]);
    }
  }

  function NonBlank(lines: seq<string>): nat {
    if lines == [] then 0
    else NonBlank(lines[..|lines| - 1]) + if IsBlank(lines[|lines| - 1]) then 0 else 1
  }

  /** Every line that is not blank becomes a record or a rejection. */
  lemma {:induction false} LinesAreAccountedFor<V>(codec: Codec<V>, t: Tally<V>, lines: seq<string>)
    ensures var u := AddLines(codec, t, lines);
            |u.records| + u.rejected == |t.records| + t.rejected + NonBlank(lines)
  {
    hide IsBlank, Decode, Bytes;
    if lines != [] {
      LinesAreAccountedFor(codec, t, lines[..|lines| - 1]);
    }
  }

  /** The whole life of a reader on a bounded stream: the last fragment is one more line, and nothing is left. */
  lemma WholeLife<V>(codec: Codec<V>, chunks: seq<string>)
    requires Bounded(codec.max, Concat(chunks))
    ensures var text := Concat(chunks);
            var t := AddLines(codec, Nothing(0), Lines(text));
            var r := Finish(codec, Feed(codec, Reader("", Nothing(0)), chunks));
            && r == Finish(codec, Reader(Rest(text), t))
            && r.pending == "" && r.tally.consumed == Bytes(text)
            && |r.tally.records| + r.tally.rejected == NonBlank(Lines(text)) + NonBlank([Rest(text)])
  {
    hide AddLines, Lines, Rest, Bytes, Feed;
    var text := Concat(chunks);
    assert "" + text == text;
    CutsDoNotMatter(codec, Reader("", Nothing(0)), chunks);
    LinesConsume(codec, Nothing(0), Lines(text));
    LinesAreAccountedFor(codec, Nothing(0), Lines(text));
    BytesOfLines(text);
    assert [Rest(text)][..0] == [];
  }

  /** Consumed plus pending is everything ever fed, overflow or not. */
  lemma {:induction false} EveryByteIsAccountedFor<V>(codec: Codec<V>, r: Reader<V>, chunks: seq<string>)
    ensures var r' := Feed(codec, r, chunks);
            r'.tally.consumed + Bytes(r'.pending) == r.tally.consumed + Bytes(r.pending) + Bytes(Concat(chunks))
  {
    if chunks != [] {
      hide AddLines, Lines, Rest;
      var init, last := chunks[..|chunks| - 1], chunks[|chunks| - 1];
      EveryByteIsAccountedFor(codec, r, init);
      var r1 := Feed(codec, r, init);
      var text := r1.pending + last;
      LinesConsume(codec, r1.tally, Lines(text));
      BytesOfLines(text);
      BytesAppend(r1.pending, last);
      BytesAppend(Concat(init), last);
    }
  }

  /** The same records in a stream that begins `offset` bytes later. */
  function Shift<V>(records: seq<Record<V>>, offset: nat): seq<Record<V>> {
    seq(|records|, i requires 0 <= i < |records| => Record(records[i].value, records[i].endOffset + offset))
  }

  lemma {:induction false} ShiftLines<V>(codec: Codec<V>, lines: seq<string>, base: nat)
    ensures var t, u := AddLines(codec, Nothing(0), lines), AddLines(codec, Nothing(base), lines);
            u == Tally(base + t.consumed, Shift(t.records, base), t.rejected)
  {
    hide Decode, IsBlank, Bytes;
    if lines != [] {
      ShiftLines(codec, lines[..|lines| - 1], base);
    }
  }

  /**
   * The offset is a line boundary, and a fresh reader started there, however the
   * rest is cut this time, yields exactly the records the first reader did not.
   */
  lemma ResumeFromOffset<V>(codec: Codec<V>, first: seq<string>, second: seq<string>, again: seq<string>)
    requires Bounded(codec.max, Concat(first) + Concat(second))
    requires Concat(again) == Rest(Concat(first)) + Concat(second)
    ensures var r := Feed(codec, Reader("", Nothing(0)), first);
            var done := Joined(Lines(Concat(first)));
            && done + Rest(Concat(first)) == Concat(first) && Bytes(done) == r.tally.consumed
            && Feed(codec, r, second)
               == Resumed(r.tally, Feed(codec, Reader("", Nothing(0)), again))
  {
    hide AddLines, Lines, Rest, Bytes, Joined, Bounded, Feed, Shift, Concat;
    var a, b := Concat(first), Concat(second);
    assert "" + a == a;
    BoundedPrefix(codec.max, a, b);
    CutsDoNotMatter(codec, Reader("", Nothing(0)), first);
    var r := Whole(codec, Nothing(0), a);
    FirstPart(codec, a, r);
    BoundedSuffix(codec.max, a, b);
    LinesPartition(a);
    CutsDoNotMatter(codec, r, second);
    assert "" + Concat(again) == Concat(again);
    CutsDoNotMatter(codec, Reader("", Nothing(0)), again);
    LinesCollect(codec, r.tally, Lines(r.pending + b));
    ShiftLines(codec, Lines(r.pending + b), r.tally.consumed);
  }

  /** The reading of the remainder, put behind what was read before. */
  function Resumed<V>(t: Tally<V>, anew: Reader<V>): Reader<V> {
    Reader(anew.pending, Tally(t.consumed + anew.tally.consumed,
                               t.records + Shift(anew.tally.records, t.consumed),
                               t.rejected + anew.tally.rejected))
  }

  lemma FirstPart<V>(codec: Codec<V>, a: string, r: Reader<V>)
    requires r == Whole(codec, Nothing(0), a)
    ensures Joined(Lines(a)) + r.pending == a && Bytes(Joined(Lines(a))) == r.tally.consumed
  {
    hide Bytes;
    LinesPartition(a);
    SizeIsBytes(Lines(a));
    LinesConsume(codec, Nothing(0), Lines(a));
  }

  lemma BoundedSuffix(max: nat, a: string, b: string)
    requires Bounded(max, a + b)
    ensures Bounded(max, Rest(a) + b)
  {
    hide Bytes, Lines, Rest;
    LinesAppend(a, b);
    var done, tail, all := Lines(a), Lines(Rest(a) + b), Lines(a + b);
    forall i | 0 <= i < |tail| ensures Bytes(tail[i]) <= max {
      assert all[|done| + i] == tail[i];
    }
  }
}
