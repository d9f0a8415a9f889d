/** For which streams the way they are cut into chunks cannot be told from what is read. */
module Cuts {
  import opened Options
  import opened Text
  import opened Ndjson

  /** Cut inside, an overlong line is still one rejection: nothing but a short run of blanks is left of it. */
  predicate LineSafe(max: nat, line: string) {
    forall k :: 0 <= k <= |line| && Bytes(line[..k]) > max ==> LeftOver(max, line, k)
  }

  predicate LeftOver(max: nat, line: string, k: nat)
    requires k <= |line|
  {
    !IsBlank(line) && IsBlank(line[k..]) && Bytes(line[k..]) <= max
  }

  /** The fragment behind the last newline is over the maximum by its last character at most. */
  predicate FragmentSafe(max: nat, fragment: string) {
    forall k :: 0 <= k < |fragment| ==> Bytes(fragment[..k]) <= max
  }

  predicate CutSafe(max: nat, text: string) {
    && (forall i :: 0 <= i < |Lines(text)| ==> LineSafe(max, Lines(text)[i]))
    && FragmentSafe(max, Rest(text))
  }

  function Read<V>(codec: Codec<V>, chunks: seq<string>): Reader<V> {
    Feed(codec, Reader("", Nothing(0)), chunks)
  }

  /** Every cutting of the text gives the same reader: records, offsets, counts and fragment. */
  ghost predicate AllCuttingsAgree<V(!new)>(codec: Codec<V>, text: string) {
    forall one, other :: Concat(one) == text && Concat(other) == text ==> Read(codec, one) == Read(codec, other)
  }

  // ---- safe texts are read alike ------------------------------------------------------------

  /** What is true of every prefix of a safe text: an overlong part of the fragment is dropped once. */
  predicate Tolerable(max: nat, text: string) {
    && (forall i :: 0 <= i < |Lines(text)| ==> LineSafe(max, Lines(text)[i]))
    && DroppedOnce(max, Rest(text))
  }

  predicate DroppedOnce(max: nat, fragment: string) {
    forall k :: 0 <= k <= |fragment| && Bytes(fragment[..k]) > max ==> Bytes(fragment[k..]) <= max
  }

  lemma BytesOfParts(s: string, k: nat)
    requires k <= |s|
    ensures Bytes(s) == Bytes(s[..k]) + Bytes(s[k..])
  {
    BytesAppend(s[..k], s[k..]);
    assert s[..k] + s[k..] == s;
  }

  lemma SafeIsTolerable(max: nat, text: string)
    requires CutSafe(max, text)
    ensures Tolerable(max, text)
  {
    var r := Rest(text);
    forall k | 0 <= k <= |r| && Bytes(r[..k]) > max ensures Bytes(r[k..]) <= max {
      assert r[k..] == "";
    }
  }

  lemma DroppedOnceBefore(max: nat, fragment: string, c: char)
    requires DroppedOnce(max, fragment + [c])
    ensures DroppedOnce(max, fragment)
  {
    forall k | 0 <= k <= |fragment| && Bytes(fragment[..k]) > max ensures Bytes(fragment[k..]) <= max {
      assert (fragment + [c])[..k] == fragment[..k];
      assert (fragment + [c])[k..] == fragment[k..] + [c];
      BytesAppend(fragment[k..], [c]);
    }
  }

  lemma {:induction false} TolerableBefore(max: nat, a: string, b: string)
    requires Tolerable(max, a + b)
    ensures Tolerable(max, a)
  {
    if b == [] {
      assert a + b == a;
    } else {
      var init, c := a + b[..|b| - 1], b[|b| - 1];
      assert a + b == init + [c];
      OneMoreChar(init, c);
      hide LineSafe, DroppedOnce, Lines, Rest;
      assert forall i :: 0 <= i < |Lines(init)| ==> Lines(init + [c])[i] == Lines(init)[i];
      if c == '\n' {
        assert Lines(init + [c])[|Lines(init)|] == Rest(init);
        SafeLineIsDroppedOnce(max, Rest(init));
      } else {
        DroppedOnceBefore(max, Rest(init), c);
      }
      TolerableBefore(max, a, b[..|b| - 1]);
    }
  }

  lemma SafeLineIsDroppedOnce(max: nat, line: string)
    requires LineSafe(max, line)
    ensures DroppedOnce(max, line)
  {
    forall k | 0 <= k <= |line| && Bytes(line[..k]) > max ensures Bytes(line[k..]) <= max {
      assert LeftOver(max, line, k);
    }
  }

  /** Of the fragment of `text` the first k characters were dropped, and everything else was read. */
  predicate ReadBut<V(==)>(codec: Codec<V>, r: Reader<V>, text: string, k: nat) {
    && k <= |Rest(text)| && (k > 0 ==> Bytes(Rest(text)[..k]) > codec.max)
    && r.pending == Rest(text)[k..] && Bytes(r.pending) <= codec.max
    && r.tally == Dropped(AddLines(codec, Nothing(0), Lines(text)), Rest(text)[..k])
  }

  function Dropped<V>(t: Tally<V>, part: string): Tally<V> {
    if part == "" then t else t.(consumed := t.consumed + Bytes(part), rejected := t.rejected + 1)
  }

  /** What is dropped early counts the same once its line ends. */
  lemma DroppedLine<V>(codec: Codec<V>, t: Tally<V>, line: string, k: nat)
    requires k <= |line| && LineSafe(codec.max, line) && (k > 0 ==> Bytes(line[..k]) > codec.max)
    ensures AddLine(codec, Dropped(t, line[..k]), line[k..]) == AddLine(codec, t, line)
  {
    BytesOfParts(line, k);
    if k > 0 {
      assert LeftOver(codec.max, line, k);
    } else {
      assert line[k..] == line;
    }
  }

  lemma {:induction false} SameAfterFirst<V>(codec: Codec<V>, t: Tally<V>, u: Tally<V>, first: string, other: string,
                                             lines: seq<string>)
    requires AddLine(codec, t, first) == AddLine(codec, u, other)
    ensures AddLines(codec, t, [first] + lines) == AddLines(codec, u, [other] + lines)
  {
    hide AddLine;
    if lines == [] {
      assert [first][..0] == [] && [other][..0] == [];
      assert [first] + lines == [first] && [other] + lines == [other];
    } else {
      var init := lines[..|lines| - 1];
      SameAfterFirst(codec, t, u, first, other, init);
      assert ([first] + lines)[..|lines|] == [first] + init;
      assert ([other] + lines)[..|lines|] == [other] + init;
    }
  }

  /** The text up to its first newline, if it has one. */
  lemma {:induction false} FirstNewline(s: string) returns (k: nat)
    requires '\n' in s
    ensures k < |s| && s[k] == '\n' && '\n' !in s[..k]
  {
    if s[0] == '\n' {
      k := 0;
    } else {
      k := FirstNewline(s[1..]);
      k := k + 1;
      assert s[..k] == [s[0]] + s[1..][..k - 1];
    }
  }

  lemma FirstLine(line: string, more: string)
    requires '\n' !in line
    ensures Lines(line + "\n" + more) == [line] + Lines(more) && Rest(line + "\n" + more) == Rest(more)
  {
    EndedLine(line);
    LinesAppend(line + "\n", more);
    assert "" + more == more;
  }

  lemma PushedBut<V>(codec: Codec<V>, r: Reader<V>, text: string, k: nat, chunk: string) returns (k': nat)
    requires ReadBut(codec, r, text, k) && Tolerable(codec.max, text + chunk)
    ensures ReadBut(codec, Push(codec, r, chunk), text + chunk, k')
  {
    hide AddLines, Lines, Rest, Bytes, LineSafe, DroppedOnce;
    LinesPartition(text);
    LinesAppend(text, chunk);
    MoreLines(codec, Nothing(0), Lines(text), Lines(Rest(text) + chunk));
    if '\n' in chunk {
      k' := PushedLines(codec, r, text, k, chunk);
    } else {
      k' := PushedPart(codec, r, text, k, chunk);
    }
  }

  /** Without a newline the fragment grows, and is dropped if it has become too long. */
  lemma PushedPart<V>(codec: Codec<V>, r: Reader<V>, text: string, k: nat, chunk: string) returns (k': nat)
    requires ReadBut(codec, r, text, k) && Tolerable(codec.max, text + chunk) && '\n' !in chunk
    ensures ReadBut(codec, Push(codec, r, chunk), text + chunk, k')
  {
    hide AddLines, Lines, Rest, Bytes, LineSafe;
    LinesPartition(text);
    LinesAppend(text, chunk);
    var f := Rest(text) + chunk;
    FragmentHasNoLines(f);
    FragmentHasNoLines(r.pending + chunk);
    assert f[k..] == r.pending + chunk && f[..k] == Rest(text)[..k];
    assert Lines(text) + [] == Lines(text);
    assert AddLines(codec, r.tally, []) == r.tally by { NoLines(codec, r.tally); }
    if Bytes(f[k..]) > codec.max {
      assert k == 0 && f[0..] == f && f[..|f|] == f && f[|f|..] == "";
      NoBytes();
      k' := |f|;
    } else {
      k' := k;
    }
  }

  lemma NoBytes()
    ensures Bytes("") == 0
  {
  }

  lemma NoLines<V>(codec: Codec<V>, t: Tally<V>)
    ensures AddLines(codec, t, []) == t
  {
  }

  /** With a newline the line ends as if nothing had been dropped. */
  lemma PushedLines<V>(codec: Codec<V>, r: Reader<V>, text: string, k: nat, chunk: string) returns (k': nat)
    requires ReadBut(codec, r, text, k) && Tolerable(codec.max, text + chunk) && '\n' in chunk
    ensures ReadBut(codec, Push(codec, r, chunk), text + chunk, k')
  {
    hide AddLines, Lines, Rest, Bytes, LineSafe, DroppedOnce;
    LinesPartition(text);
    LinesAppend(text, chunk);
    var n := FirstNewline(chunk);
    var line, more := Rest(text) + chunk[..n], chunk[n + 1..];
    assert chunk == chunk[..n] + "\n" + more;
    assert Rest(text) + chunk == line + "\n" + more;
    assert r.pending + chunk == line[k..] + "\n" + more;
    FirstLine(line, more);
    FirstLine(line[k..], more);
    var before := AddLines(codec, Nothing(0), Lines(text));
    assert line[..k] == Rest(text)[..k];
    assert LineSafe(codec.max, line) by {
      assert Lines(text + chunk)[|Lines(text)|] == line;
    }
    DroppedLine(codec, before, line, k);
    SameAfterFirst(codec, Dropped(before, line[..k]), before, line[k..], line, Lines(more));
    MoreLines(codec, Nothing(0), Lines(text), Lines(Rest(text) + chunk));
    var f := Rest(more);
    assert f[..|f|] == f && f[|f|..] == "" && f[..0] == "" && f[0..] == f;
    NoBytes();
    k' := if Bytes(f) > codec.max then |f| else 0;
  }

  lemma {:induction false} ReadingBut<V>(codec: Codec<V>, chunks: seq<string>) returns (k: nat)
    requires Tolerable(codec.max, Concat(chunks))
    ensures ReadBut(codec, Read(codec, chunks), Concat(chunks), k)
  {
    if chunks == [] {
      k := 0;
    } else {
      hide Tolerable, ReadBut, Push;
      var init, last := chunks[..|chunks| - 1], chunks[|chunks| - 1];
      TolerableBefore(codec.max, Concat(init), last);
      k := ReadingBut(codec, init);
      k := PushedBut(codec, Read(codec, init), Concat(init), k, last);
    }
  }

  /** What a safe text leaves, however it is cut. */
  lemma SafeReading<V>(codec: Codec<V>, chunks: seq<string>)
    requires CutSafe(codec.max, Concat(chunks))
    ensures var lines, r := AddLines(codec, Nothing(0), Lines(Concat(chunks))), Rest(Concat(chunks));
            Read(codec, chunks) == if Bytes(r) > codec.max then Reader("", Dropped(lines, r)) else Reader(r, lines)
  {
    hide AddLines, Lines, Rest, Read;
    SafeIsTolerable(codec.max, Concat(chunks));
    var k := ReadingBut(codec, chunks);
    var r := Rest(Concat(chunks));
    assert r[..|r|] == r && r[0..] == r;
    BytesOfParts(r, k);
    if k == 0 {
      assert r[..0] == "";
    }
  }

  lemma SafeTextsReadAlike<V>(codec: Codec<V>, one: seq<string>, other: seq<string>)
    requires Concat(one) == Concat(other) && CutSafe(codec.max, Concat(one))
    ensures Read(codec, one) == Read(codec, other)
  {
    hide AddLines, Lines, Rest, Read, Bytes;
    SafeReading(codec, one);
    SafeReading(codec, other);
  }

  // ---- unsafe texts are not -----------------------------------------------------------------

  /** How many lines a reader has answered for. */
  function Count<V>(r: Reader<V>): nat {
    |r.tally.records| + r.tally.rejected
  }

  function One(b: bool): nat {
    if b then 1 else 0
  }

  lemma PushCounts<V>(codec: Codec<V>, r: Reader<V>, chunk: string)
    ensures var text := r.pending + chunk;
            var over := Bytes(Rest(text)) > codec.max;
            && Count(Push(codec, r, chunk)) == Count(r) + NonBlank(Lines(text)) + One(over)
            && Push(codec, r, chunk).pending == if over then "" else Rest(text)
  {
    hide AddLines, Lines, Rest, Bytes;
    LinesAreAccountedFor(codec, r.tally, Lines(r.pending + chunk));
  }

  lemma {:induction false} NonBlankAppend(a: seq<string>, b: seq<string>)
    ensures NonBlank(a + b) == NonBlank(a) + NonBlank(b)
  {
    hide IsBlank;
    if b == [] {
      assert a + b == a;
    } else {
      NonBlankAppend(a, b[..|b| - 1]);
      assert (a + b)[..|a + b| - 1] == a + b[..|b| - 1];
    }
  }

  lemma NonBlankOne(line: string)
    ensures NonBlank([line]) == One(!IsBlank(line))
  {
    assert [line][..0] == [];
  }

  lemma ReadMore<V>(codec: Codec<V>, chunks: seq<string>, chunk: string)
    ensures Read(codec, chunks + [chunk]) == Push(codec, Read(codec, chunks), chunk)
    ensures Concat(chunks + [chunk]) == Concat(chunks) + chunk
  {
    assert (chunks + [chunk])[..|chunks|] == chunks;
  }

  /** Reading a text in one piece. */
  lemma ReadAtOnce<V>(codec: Codec<V>, text: string)
    ensures var over := Bytes(Rest(text)) > codec.max;
            && Concat([text]) == text
            && Count(Read(codec, [text])) == NonBlank(Lines(text)) + One(over)
            && Read(codec, [text]).pending == if over then "" else Rest(text)
  {
    hide Push, NonBlank, Lines, Rest, Bytes;
    ReadMore(codec, [], text);
    PushCounts(codec, Reader("", Nothing(0)), text);
    assert [] + [text] == [text] && "" + text == text;
  }

  /** A part over the maximum behind complete lines is dropped, and counts for one. */
  lemma ReadDropped<V>(codec: Codec<V>, done: string, part: string)
    requires Rest(done) == "" && '\n' !in part && Bytes(part) > codec.max
    ensures Count(Read(codec, [done + part])) == NonBlank(Lines(done)) + 1
    ensures Read(codec, [done + part]).pending == ""
  {
    hide Push, NonBlank, Lines, Rest, Bytes, Read;
    ReadAtOnce(codec, done + part);
    LinesAppend(done, part);
    FragmentHasNoLines(part);
    assert "" + part == part && Lines(done) + [] == Lines(done);
  }

  lemma FragmentDependsOnCuts<V(!new)>(codec: Codec<V>, text: string, k: nat)
    requires k < |Rest(text)| && Bytes(Rest(text)[..k]) > codec.max
    ensures !AllCuttingsAgree(codec, text)
  {
    hide NonBlank, Lines, Rest, Bytes, Read, Push, Concat, Joined;
    var done, r := Joined(Lines(text)), Rest(text);
    var part, left := r[..k], r[k..];
    CompleteLines(text);
    assert text == done + part + left;
    ReadDropped(codec, done, part);
    ReadMore(codec, [done + part], left);
    PushCounts(codec, Read(codec, [done + part]), left);
    FragmentHasNoLines(left);
    assert "" + left == left;
    ReadAtOnce(codec, text);
    ReadAtOnce(codec, done + part);
    assert NonBlank([]) == 0 by { NothingIsBlank(); }
    BytesOfParts(r, k);
    assert Read(codec, [done + part] + [left]) != Read(codec, [text]);
    assert Concat([done + part] + [left]) == text;
  }

  lemma NothingIsBlank()
    ensures NonBlank([]) == 0 && IsBlank("")
  {
  }

  /** The complete lines of a text, in front of its fragment. */
  lemma CompleteLines(text: string)
    ensures text == Joined(Lines(text)) + Rest(text) && '\n' !in Rest(text)
    ensures Lines(Joined(Lines(text))) == Lines(text) && Rest(Joined(Lines(text))) == ""
  {
    LinesPartition(text);
    LinesOfJoined(Lines(text));
  }

  lemma {:induction false} LinesOfJoined(lines: seq<string>)
    requires forall i :: 0 <= i < |lines| ==> '\n' !in lines[i]
    ensures Lines(Joined(lines)) == lines && Rest(Joined(lines)) == ""
  {
    if lines != [] {
      hide Lines, Rest;
      var init, l := lines[..|lines| - 1], lines[|lines| - 1];
      LinesOfJoined(init);
      LinesAppend(Joined(init), l + "\n");
      EndedLine(l);
      assert "" + (l + "\n") == l + "\n";
      assert Joined(lines) == Joined(init) + (l + "\n");
    }
  }

  lemma {:induction false} JoinedAppend(a: seq<string>, b: seq<string>)
    ensures Joined(a + b) == Joined(a) + Joined(b)
  {
    if b == [] {
      assert a + b == a;
    } else {
      JoinedAppend(a, b[..|b| - 1]);
      assert (a + b)[..|a + b| - 1] == a + b[..|b| - 1];
    }
  }

  /** The text around its line i. */
  lemma AroundLine(text: string, i: nat) returns (done: string, more: string)
    requires i < |Lines(text)|
    ensures text == done + Lines(text)[i] + "\n" + more && Rest(done) == "" && '\n' !in Lines(text)[i]
    ensures Lines(text) == Lines(done) + [Lines(text)[i]] + Lines(more) && Rest(text) == Rest(more)
  {
    hide Lines, Rest, Joined;
    var lines := Lines(text);
    LinesPartition(text);
    done, more := Joined(lines[..i]), Joined(lines[i + 1..]) + Rest(text);
    LinesOfJoined(lines[..i]);
    JoinedAppend(lines[..i], lines[i..]);
    JoinedAppend([lines[i]], lines[i + 1..]);
    JoinedOne(lines[i]);
    assert lines[..i] + lines[i..] == lines && [lines[i]] + lines[i + 1..] == lines[i..];
    assert text == done + lines[i] + "\n" + more;
    LinesAppend(done, lines[i] + "\n" + more);
    assert done + (lines[i] + "\n" + more) == text && "" + (lines[i] + "\n" + more) == lines[i] + "\n" + more;
    FirstLine(lines[i], more);
  }

  lemma JoinedOne(line: string)
    ensures Joined([line]) == line + "\n"
  {
    assert [line][..0] == [];
  }

  /** Cut once where it is too long and once at its end, the line is answered for as often as this. */
  lemma ReadLineInThree<V>(codec: Codec<V>, done: string, line: string, more: string, k: nat)
    requires Rest(done) == "" && '\n' !in line && k <= |line| && Bytes(line[..k]) > codec.max
    ensures var cut := [done + line[..k]] + [line[k..]] + ["\n" + more];
            var again := if Bytes(line[k..]) > codec.max then 1 else One(!IsBlank(line[k..]));
            && Concat(cut) == done + line + "\n" + more
            && Count(Read(codec, cut))
               == NonBlank(Lines(done)) + 1 + again + NonBlank(Lines(more)) + One(Bytes(Rest(more)) > codec.max)
  {
    hide NonBlank, Lines, Rest, Bytes, Read, Push, Concat, IsBlank, Count;
    var part, left := line[..k], line[k..];
    assert done + part + left == done + line;
    ReadDropped(codec, done, part);
    ReadAtOnce(codec, done + part);
    var r := Read(codec, [done + part]);
    ReadMore(codec, [done + part], left);
    PushCounts(codec, r, left);
    FragmentHasNoLines(left);
    NothingIsBlank();
    var r2 := Push(codec, r, left);
    assert "" + left == left;
    ReadMore(codec, [done + part] + [left], "\n" + more);
    PushCounts(codec, r2, "\n" + more);
    var kept := r2.pending;
    assert kept + ("\n" + more) == kept + "\n" + more;
    assert done + line + ("\n" + more) == done + line + "\n" + more;
    assert '\n' !in kept;
    FirstLine(kept, more);
    NonBlankAppend([kept], Lines(more));
    NonBlankOne(kept);
  }

  lemma LineDependsOnCuts<V(!new)>(codec: Codec<V>, text: string, i: nat, k: nat)
    requires i < |Lines(text)| && k <= |Lines(text)[i]| && Bytes(Lines(text)[i][..k]) > codec.max
    requires !LeftOver(codec.max, Lines(text)[i], k)
    ensures !AllCuttingsAgree(codec, text)
  {
    hide NonBlank, Lines, Rest, Bytes, Read, Push, Concat, IsBlank, Count;
    var line := Lines(text)[i];
    var done, more := AroundLine(text, i);
    ReadLineInThree(codec, done, line, more, k);
    ReadAtOnce(codec, text);
    NonBlankAppend(Lines(done) + [line], Lines(more));
    NonBlankAppend(Lines(done), [line]);
    NonBlankOne(line);
    BlankParts(line, k);
    var cut := [done + line[..k]] + [line[k..]] + ["\n" + more];
    assert Count(Read(codec, cut)) != Count(Read(codec, [text]));
  }

  lemma BlankParts(line: string, k: nat)
    requires k <= |line|
    ensures IsBlank(line) ==> IsBlank(line[k..])
  {
  }

  // ---- exactly ------------------------------------------------------------------------------

  /**
   * Whatever the lines decode to: all cuttings of a text read alike if and only if every line that can
   * overflow leaves only a short run of blanks behind, and the fragment overflows by its last
   * character at most. Both can be seen from the text.
   */
  lemma CuttingsAgreeIff<V(!new)>(codec: Codec<V>, text: string)
    ensures AllCuttingsAgree(codec, text) <==> CutSafe(codec.max, text)
  {
    hide Lines, Rest, Bytes, LeftOver, Read, Concat;
    if CutSafe(codec.max, text) {
      forall one, other | Concat(one) == text && Concat(other) == text ensures Read(codec, one) == Read(codec, other) {
        SafeTextsReadAlike(codec, one, other);
      }
    } else if !FragmentSafe(codec.max, Rest(text)) {
      var k :| 0 <= k < |Rest(text)| && Bytes(Rest(text)[..k]) > codec.max;
      FragmentDependsOnCuts(codec, text, k);
    } else {
      var i :| 0 <= i < |Lines(text)| && !LineSafe(codec.max, Lines(text)[i]);
      var line := Lines(text)[i];
      var k :| 0 <= k <= |line| && Bytes(line[..k]) > codec.max && !LeftOver(codec.max, line, k);
      LineDependsOnCuts(codec, text, i, k);
    }
  }

  /** In particular of a stream whose lines all fit. */
  lemma BoundedIsSafe(max: nat, text: string)
    requires Bounded(max, text)
    ensures CutSafe(max, text)
  {
    hide Lines, Rest, Bytes;
    forall i, k | 0 <= i < |Lines(text)| && 0 <= k <= |Lines(text)[i]| ensures Bytes(Lines(text)[i][..k]) <= max {
      BytesOfParts(Lines(text)[i], k);
    }
    forall k | 0 <= k < |Rest(text)| ensures Bytes(Rest(text)[..k]) <= max {
      BytesOfParts(Rest(text), k);
    }
  }

  /** Two cuttings of one bounded stream cannot be told apart. */
  lemma SameTextSameReading<V>(codec: Codec<V>, one: seq<string>, other: seq<string>)
    requires Concat(one) == Concat(other) && Bounded(codec.max, Concat(one))
    ensures Feed(codec, Reader("", Nothing(0)), one) == Feed(codec, Reader("", Nothing(0)), other)
  {
    BoundedIsSafe(codec.max, Concat(one));
    hide Feed, Bounded, CutSafe, Concat;
    SafeTextsReadAlike(codec, one, other);
  }

  /** A line that overflows before its end is read differently once it is cut there. */
  lemma OverlongLinesDependOnCuts()
    ensures exists codec: Codec<int>, one: seq<string>, other: seq<string> ::
              Concat(one) == Concat(other) && Read(codec, one) != Read(codec, other)
  {
    var codec, text := Codec((line: string) => Some(0), 1), "abc\n";
    ThreeLetters();
    EndedLine("abc");
    assert "abc" + "\n" == text && "abc"[..2] == "ab" && "abc"[2..] == "c";
    assert Lines(text)[0] == "abc";
    hide Lines, Rest, Bytes, Read, Concat, IsBlank;
    assert !LeftOver(1, "abc", 2);
    LineDependsOnCuts(codec, text, 0, 2);
  }

  lemma ThreeLetters()
    ensures Bytes("ab") == 2 && !IsBlank("c")
  {
    assert "ab"[..1] == "a" && "a"[..0] == "";
    assert !IsSpace("c"[0]);
  }
}
