/** Lines, blanks and UTF-8 sizes of character streams. */
module Text {

  /** Bytes one character takes in UTF-8. */
  function Width(c: char): (w: nat)
    ensures 1 <= w <= 4
  {
    if c < '\U{80}' then 1 else if c < '\U{800}' then 2 else if c < '\U{10000}' then 3 else 4
  }

  /** How much n bytes of UTF-8 can hold: seven bits in one, else what the first byte has left and six in each other. */
  function Capacity(n: nat): nat
    requires 1 <= n <= 4
  {
    if n == 1 then 0x80 else if n == 2 then 0x20 * 0x40
    else if n == 3 then 0x10 * 0x40 * 0x40 else 0x8 * 0x40 * 0x40 * 0x40
  }

  /** A character takes the fewest bytes that can hold it. */
  lemma WidthIsLeast(c: char)
    ensures (c as int) < Capacity(Width(c))
    ensures forall n :: 1 <= n < Width(c) ==> Capacity(n) <= c as int
  {
  }

  function Bytes(s: string): nat {
    if s == [] then 0 else Bytes(s[..|s| - 1]) + Width(s[|s| - 1])
  }

  lemma {:induction false} BytesAppend(a: string, b: string)
    ensures Bytes(a + b) == Bytes(a) + Bytes(b)
  {
    if b == [] {
      assert a + b == a;
    } else {
      BytesAppend(a, b[..|b| - 1]);
      assert (a + b)[..|a + b| - 1] == a + b[..|b| - 1];
    }
  }

  /** The characters String.prototype.trim removes. */
  predicate IsSpace(c: char) {
    || '\t' <= c <= '\r' || c == ' ' || c == '\U{A0}' || c == '\U{1680}' || '\U{2000}' <= c <= '\U{200A}'
    || c == '\U{2028}' || c == '\U{2029}' || c == '\U{202F}' || c == '\U{205F}' || c == '\U{3000}' || c == '\U{FEFF}'
  }

  /** They are twenty-five: the white space and the line terminators of the language. */
  lemma TwentyFiveSpaces(c: char)
    ensures IsSpace(c) <==>
              c as int in {0x9, 0xA, 0xB, 0xC, 0xD, 0x20, 0xA0, 0x1680, 0x2000, 0x2001, 0x2002, 0x2003, 0x2004,
                           0x2005, 0x2006, 0x2007, 0x2008, 0x2009, 0x200A, 0x2028, 0x2029, 0x202F, 0x205F, 0x3000,
                           0xFEFF}
  {
  }

  predicate IsBlank(s: string) {
    forall i :: 0 <= i < |s| ==> IsSpace(s[i])
  }

  /** The lines a newline has ended, and the fragment after the last of them: split("\n"), then pop. */
  function Lines(s: string): seq<string> {
    if s == [] then [] else
      var init := s[..|s| - 1];
      if s[|s| - 1] == '\n' then Lines(init) + [Rest(init)] else Lines(init)
  }

  function Rest(s: string): string {
    if s == [] || s[|s| - 1] == '\n' then "" else Rest(s[..|s| - 1]) + [s[|s| - 1]]
  }

  function Joined(lines: seq<string>): string {
    if lines == [] then "" else Joined(lines[..|lines| - 1]) + lines[|lines| - 1] + "\n"
  }

  /** Splitting loses nothing and cuts at newlines only. */
  lemma {:induction false} LinesPartition(s: string)
    ensures Joined(Lines(s)) + Rest(s) == s
    ensures '\n' !in Rest(s)
    ensures forall i :: 0 <= i < |Lines(s)| ==> '\n' !in Lines(s)[i]
  {
    if s != [] {
      LinesPartition(s[..|s| - 1]);
    }
  }

  lemma OneMoreChar(s: string, c: char)
    ensures Lines(s + [c]) == if c == '\n' then Lines(s) + [Rest(s)] else Lines(s)
    ensures Rest(s + [c]) == if c == '\n' then "" else Rest(s) + [c]
  {
    assert (s + [c])[..|s|] == s;
  }

  /** Reading on from the unfinished fragment gives the same lines as reading everything. */
  lemma {:induction false} LinesAppend(a: string, b: string)
    ensures Lines(a + b) == Lines(a) + Lines(Rest(a) + b)
    ensures Rest(a + b) == Rest(Rest(a) + b)
  {
    hide Lines, Rest;
    if b == [] {
      LinesOfFragment(Rest(a), a);
      assert a + b == a && Rest(a) + b == Rest(a);
    } else {
      var init, c := b[..|b| - 1], b[|b| - 1];
      LinesAppend(a, init);
      OneMoreChar(a + init, c);
      OneMoreChar(Rest(a) + init, c);
      assert a + b == a + init + [c] && Rest(a) + b == Rest(a) + init + [c];
    }
  }

  lemma LinesOfFragment(r: string, a: string)
    requires r == Rest(a)
    ensures Lines(r) == [] && Rest(r) == r
  {
    LinesPartition(a);
    FragmentHasNoLines(r);
  }

  lemma {:induction false} FragmentHasNoLines(r: string)
    requires '\n' !in r
    ensures Lines(r) == [] && Rest(r) == r
  {
    if r != [] {
      FragmentHasNoLines(r[..|r| - 1]);
    }
  }

  lemma EndedLine(l: string)
    requires '\n' !in l
    ensures Lines(l + "\n") == [l] && Rest(l + "\n") == ""
  {
    assert (l + "\n")[..|l|] == l;
    FragmentHasNoLines(l);
  }

  /** Bytes the given complete lines take, terminators included. */
  function Size(lines: seq<string>): nat {
    if lines == [] then 0 else Size(lines[..|lines| - 1]) + Bytes(lines[|lines| - 1]) + 1
  }

  lemma {:induction false} SizeAppend(a: seq<string>, b: seq<string>)
    ensures Size(a + b) == Size(a) + Size(b)
  {
    if b == [] {
      assert a + b == a;
    } else {
      SizeAppend(a, b[..|b| - 1]);
      assert (a + b)[..|a + b| - 1] == a + b[..|b| - 1];
    }
  }

  lemma {:induction false} SizeIsBytes(lines: seq<string>)
    ensures Size(lines) == Bytes(Joined(lines))
  {
    if lines != [] {
      var l := lines[|lines| - 1];
      SizeIsBytes(lines[..|lines| - 1]);
      BytesAppend(Joined(lines[..|lines| - 1]), l);
      BytesAppend(Joined(lines[..|lines| - 1]) + l, "\n");
    }
  }

  /** Every byte is in a complete line or in the fragment. */
  lemma BytesOfLines(s: string)
    ensures Bytes(s) == Size(Lines(s)) + Bytes(Rest(s))
  {
    LinesPartition(s);
    SizeIsBytes(Lines(s));
    BytesAppend(Joined(Lines(s)), Rest(s));
  }

  function Concat(chunks: seq<string>): string {
    if chunks == [] then "" else Concat(chunks[..|chunks| - 1]) + chunks[|chunks| - 1]
  }

  /** Every line, the unfinished one included, fits `max` bytes. */
  predicate Bounded(max: nat, s: string) {
    Bytes(Rest(s)) <= max && forall i :: 0 <= i < |Lines(s)| ==> Bytes(Lines(s)[i]) <= max
  }

  lemma {:induction false} BoundedPrefix(max: nat, a: string, b: string)
    requires Bounded(max, a + b)
    ensures Bounded(max, a)
  {
    if b == [] {
      assert a + b == a;
    } else {
      var s := a + b;
      var init := s[..|s| - 1];
      assert init == a + b[..|b| - 1];
      if s[|s| - 1] == '\n' {
        assert Lines(s)[|Lines(init)|] == Rest(init);
      } else {
        assert Rest(s)[..|Rest(s)| - 1] == Rest(init);
      }
      forall i | 0 <= i < |Lines(init)| ensures Bytes(Lines(init)[i]) <= max {
        assert Lines(init)[i] == Lines(s)[i];
      }
      BoundedPrefix(max, a, b[..|b| - 1]);
    }
  }
}
