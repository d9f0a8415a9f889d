/** Which records a stream holds and where they end, said of the text and the parser alone. */
module Framing {
  import opened Options
  import opened Text
  import opened Ndjson
  import Cuts

  /** A line that becomes a record: it fits, it says something, and it parses. */
  predicate Accepted<V>(codec: Codec<V>, line: string) {
    Bytes(line) <= codec.max && !IsBlank(line) && codec.parse(line).Some?
  }

  /** These are the places of the accepted lines, in order. */
  ghost predicate Picks<V(!new)>(codec: Codec<V>, lines: seq<string>, at: seq<nat>) {
    && (forall k :: 0 <= k < |at| ==> at[k] < |lines|)
    && (forall j, k :: 0 <= j < k < |at| ==> at[j] < at[k])
    && (forall i :: 0 <= i < |lines| ==> (i in at <==> Accepted(codec, lines[i])))
  }

  /** Record k is what its line parses to, and ends behind that line's newline. */
  predicate IsRecord<V(==)>(codec: Codec<V>, base: nat, lines: seq<string>, i: nat, r: Record<V>) {
    && i < |lines| && codec.parse(lines[i]) == Some(r.value)
    && r.endOffset == base + Bytes(Joined(lines[..i + 1]))
  }

  /** The records of these lines, in a stream that begins at `base`. */
  ghost predicate RecordsOf<V(!new)>(codec: Codec<V>, base: nat, lines: seq<string>, records: seq<Record<V>>) {
    exists at :: RecordsAt(codec, base, lines, records, at)
  }

  ghost predicate RecordsAt<V(!new)>(codec: Codec<V>, base: nat, lines: seq<string>, records: seq<Record<V>>,
                                     at: seq<nat>)
  {
    && Picks(codec, lines, at) && |records| == |at|
    && forall k :: 0 <= k < |at| ==> IsRecord(codec, base, lines, at[k], records[k])
  }

  lemma EndOfLine<V>(codec: Codec<V>, base: nat, lines: seq<string>)
    requires lines != []
    ensures var init, line := lines[..|lines| - 1], lines[|lines| - 1];
            && AddLines(codec, Nothing(base), init).consumed == base + Bytes(Joined(init))
            && Bytes(Joined(lines)) == Bytes(Joined(init)) + Bytes(line) + 1
  {
    hide Bytes;
    LinesConsume(codec, Nothing(base), lines[..|lines| - 1]);
    SizeIsBytes(lines[..|lines| - 1]);
    SizeIsBytes(lines);
  }

  lemma MoreLinesSamePlaces<V(!new)>(codec: Codec<V>, base: nat, init: seq<string>, line: string,
                                     records: seq<Record<V>>, at: seq<nat>)
    requires RecordsAt(codec, base, init, records, at)
    ensures forall k :: 0 <= k < |at| ==> IsRecord(codec, base, init + [line], at[k], records[k])
    ensures forall i :: 0 <= i < |init| ==> (i in at <==> Accepted(codec, (init + [line])[i]))
  {
    hide Accepted;
    forall k | 0 <= k < |at| ensures IsRecord(codec, base, init + [line], at[k], records[k]) {
      assert (init + [line])[..at[k] + 1] == init[..at[k] + 1];
    }
  }

  /** One line more: the record of an accepted line, ending behind it. */
  lemma NextRecord<V>(codec: Codec<V>, base: nat, lines: seq<string>)
    requires lines != []
    ensures var init, line := lines[..|lines| - 1], lines[|lines| - 1];
            AddLines(codec, Nothing(base), lines).records
            == AddLines(codec, Nothing(base), init).records
               + if Accepted(codec, line) then [Record(codec.parse(line).value, base + Bytes(Joined(lines)))] else []
  {
    hide Bytes, IsBlank, Joined;
    EndOfLine(codec, base, lines);
  }

  lemma NextPlace<V(!new)>(codec: Codec<V>, init: seq<string>, line: string, at: seq<nat>)
    requires Picks(codec, init, at)
    ensures Picks(codec, init + [line], at + if Accepted(codec, line) then [|init|] else [])
  {
    hide Accepted;
    var lines, at' := init + [line], at + if Accepted(codec, line) then [|init|] else [];
    forall i | 0 <= i < |lines| ensures i in at' <==> Accepted(codec, lines[i]) {
      assert i in at' <==> i in at || (i == |init| && Accepted(codec, line));
    }
  }

  /** What is read of complete lines. */
  lemma {:induction false} LinesHoldRecords<V(!new)>(codec: Codec<V>, base: nat, lines: seq<string>)
    returns (at: seq<nat>)
    ensures RecordsAt(codec, base, lines, AddLines(codec, Nothing(base), lines).records, at)
  {
    if lines == [] {
      at := [];
    } else {
      hide Bytes, IsBlank, Joined, AddLines, Picks;
      var init, line := lines[..|lines| - 1], lines[|lines| - 1];
      at := LinesHoldRecords(codec, base, init);
      var before := AddLines(codec, Nothing(base), init).records;
      assert init + [line] == lines && lines[..|init| + 1] == lines;
      MoreLinesSamePlaces(codec, base, init, line, before, at);
      NextRecord(codec, base, lines);
      NextPlace(codec, init, line, at);
      at := at + if Accepted(codec, line) then [|init|] else [];
    }
  }

  /** The fragment that the end of the stream takes: one record at most, and it ends where the stream does. */
  lemma LastRecord<V>(codec: Codec<V>, pending: string, base: nat)
    ensures var r := Finish(codec, Reader(pending, Nothing(base)));
            && r.pending == "" && r.tally.consumed == base + Bytes(pending)
            && (if Accepted(codec, pending)
                then r.tally.records == [Record(codec.parse(pending).value, base + Bytes(pending))]
                else r.tally.records == [])
            && r.tally.rejected == if IsBlank(pending) || Accepted(codec, pending) then 0 else 1
  {
  }

  /**
   * A push, on the text it has before it: the records of the complete lines with their ends; every other line
   * that says something is a rejection, and so is a fragment over the maximum, which is dropped.
   */
  lemma PushHoldsRecords<V(!new)>(codec: Codec<V>, pending: string, base: nat, chunk: string)
    ensures var r := Push(codec, Reader(pending, Nothing(base)), chunk);
            var lines, rest := Lines(pending + chunk), Rest(pending + chunk);
            var over := Bytes(rest) > codec.max;
            && RecordsOf(codec, base, lines, r.tally.records)
            && |r.tally.records| + r.tally.rejected == NonBlank(lines) + (if over then 1 else 0)
            && r.tally.consumed == base + Size(lines) + (if over then Bytes(rest) else 0)
            && r.pending == if over then "" else rest
  {
    hide Bytes, Lines, Rest, AddLines, IsBlank, NonBlank;
    var lines := Lines(pending + chunk);
    var at := LinesHoldRecords(codec, base, lines);
    LinesAreAccountedFor(codec, Nothing(base), lines);
    LinesConsume(codec, Nothing(base), lines);
  }

  /** The place behind line i of a text, and what is in front of it. */
  lemma PrefixBehindLine(text: string, i: nat)
    requires i < |Lines(text)|
    ensures var p := Joined(Lines(text)[..i + 1]);
            && p <= text && p != "" && p[|p| - 1] == '\n'
  {
    hide Lines, Rest;
    var lines := Lines(text);
    LinesPartition(text);
    Cuts.JoinedAppend(lines[..i + 1], lines[i + 1..]);
    assert lines[..i + 1] + lines[i + 1..] == lines;
    assert text == Joined(lines[..i + 1]) + (Joined(lines[i + 1..]) + Rest(text));
  }

  /** An end offset is the size of the part of the text up to and with a newline. */
  predicate IsLineEnd(text: string, n: nat, offset: nat) {
    0 < n <= |text| && text[n - 1] == '\n' && offset == Bytes(text[..n])
  }

  /**
   * Over any cutting of a bounded stream: record k is what the k-th accepted line parses to, and its end
   * offset is the size of the text up to that line's newline.
   */
  lemma StreamHoldsRecords<V(!new)>(codec: Codec<V>, chunks: seq<string>) returns (at: seq<nat>)
    requires Bounded(codec.max, Concat(chunks))
    ensures var text, r := Concat(chunks), Feed(codec, Reader("", Nothing(0)), chunks);
            && Picks(codec, Lines(text), at) && |r.tally.records| == |at|
            && forall k :: 0 <= k < |at| ==>
                 && codec.parse(Lines(text)[at[k]]) == Some(r.tally.records[k].value)
                 && IsLineEnd(text, |Joined(Lines(text)[..at[k] + 1])|, r.tally.records[k].endOffset)
  {
    hide Bytes, Lines, Rest, AddLines, IsBlank, Feed, Bounded, Joined;
    var text := Concat(chunks);
    assert "" + text == text;
    CutsDoNotMatter(codec, Reader("", Nothing(0)), chunks);
    var lines := Lines(text);
    at := LinesHoldRecords(codec, 0, lines);
    var records := AddLines(codec, Nothing(0), lines).records;
    forall k | 0 <= k < |at|
      ensures IsLineEnd(text, |Joined(lines[..at[k] + 1])|, records[k].endOffset)
    {
      PrefixBehindLine(text, at[k]);
      assert IsRecord(codec, 0, lines, at[k], records[k]);
      var p := Joined(lines[..at[k] + 1]);
      assert text[..|p|] == p && text[|p| - 1] == p[|p| - 1];
    }
  }
}
