/** Whether a path is inside a directory: by its spelling, and by where the filesystem would put it. */
module PathContainment {
  import opened Options

  // ---- spelling --------------------------------------------------------------------------

  /** A normalized absolute path, as its segments. */
  type Path = seq<string>

  predicate IsSegment(s: string) {
    s != "" && s != "." && s != ".." && '/' !in s
  }

  predicate Valid(p: Path) {
    forall i :: 0 <= i < |p| ==> IsSegment(p[i])
  }

  /** split("/") */
  function Pieces(s: string): (pieces: seq<string>)
    ensures pieces != []
  {
    if s == "" then [""] else
      var before, c := Pieces(s[..|s| - 1]), s[|s| - 1];
      if c == '/' then before + [""] else before[|before| - 1 := before[|before| - 1] + [c]]
  }

  /** Empty pieces and "." say nothing, ".." takes back the segment before it. */
  function Normalized(pieces: seq<string>): Path {
    if pieces == [] then [] else
      var p, last := Normalized(pieces[..|pieces| - 1]), pieces[|pieces| - 1];
      if last == "" || last == "." then p
      else if last == ".." then if p == [] then [] else p[..|p| - 1]
      else p + [last]
  }

  predicate IsAbsolute(s: string) {
    s != "" && s[0] == '/'
  }

  /** path.resolve, as segments. */
  function Resolve(cwd: string, s: string): Path {
    Normalized(Pieces(if IsAbsolute(s) then s else cwd + "/" + s))
  }

  function Rendered(p: Path): string {
    if p == [] then "" else Rendered(p[..|p| - 1]) + "/" + p[|p| - 1]
  }

  function Render(p: Path): string {
    if p == [] then "/" else Rendered(p)
  }

  lemma {:induction false} PiecesHaveNoSlash(s: string)
    ensures forall i :: 0 <= i < |Pieces(s)| ==> '/' !in Pieces(s)[i]
  {
    if s != "" {
      PiecesHaveNoSlash(s[..|s| - 1]);
    }
  }

  lemma {:induction false} NormalizedIsValid(pieces: seq<string>)
    requires forall i :: 0 <= i < |pieces| ==> '/' !in pieces[i]
    ensures Valid(Normalized(pieces))
  {
    if pieces != [] {
      NormalizedIsValid(pieces[..|pieces| - 1]);
    }
  }

  lemma ResolveIsValid(cwd: string, s: string)
    ensures Valid(Resolve(cwd, s))
  {
    var text := if IsAbsolute(s) then s else cwd + "/" + s;
    PiecesHaveNoSlash(text);
    NormalizedIsValid(Pieces(text));
  }

  lemma {:induction false} PiecesAppend(a: string, b: string)
    ensures Pieces(a + "/" + b) == Pieces(a) + Pieces(b)
  {
    var s := a + "/" + b;
    if b == "" {
      assert s[..|s| - 1] == a;
    } else {
      PiecesAppend(a, b[..|b| - 1]);
      assert s[..|s| - 1] == a + "/" + b[..|b| - 1];
      LastPiece(Pieces(a), Pieces(b[..|b| - 1]), b[|b| - 1]);
    }
  }

  /**
   * What one more piece does to a path: nothing if it is empty or ".", it goes back if it is "..", and else it
   * goes on. The root is no segment at all, and a relative path is one below the working directory.
   */
  lemma ResolveOneMore(cwd: string, s: string, piece: string)
    requires IsAbsolute(s) && '/' !in piece
    ensures var before, after := Resolve(cwd, s), Resolve(cwd, s + "/" + piece);
            after == if piece == "" || piece == "." then before
                     else if piece == ".." then (if before == [] then [] else before[..|before| - 1])
                     else before + [piece]
    ensures Resolve(cwd, "/") == []
    ensures !IsAbsolute(piece) && IsAbsolute(cwd) ==> Resolve(cwd, piece) == Resolve("", cwd + "/" + piece)
  {
    hide Pieces;
    PiecesAppend(s, piece);
    OnePiece(piece);
    PiecesAppend("", "");
    OnePiece("");
    assert "" + "/" + "" == "/";
    assert (Pieces(s) + [piece])[..|Pieces(s)|] == Pieces(s);
    assert IsAbsolute("/") && [""][..0] == [] && ["", ""][..1] == [""];
    assert [""] + [""] == ["", ""];
  }

  lemma LastPiece(x: seq<string>, y: seq<string>, c: char)
    requires y != []
    ensures var z := x + y;
            && z + [""] == x + (y + [""])
            && z[|z| - 1 := z[|z| - 1] + [c]] == x + y[|y| - 1 := y[|y| - 1] + [c]]
  {
  }

  lemma {:induction false} OnePiece(s: string)
    requires '/' !in s
    ensures Pieces(s) == [s]
  {
    if s != "" {
      OnePiece(s[..|s| - 1]);
      assert s[..|s| - 1] + [s[|s| - 1]] == s;
    }
  }

  lemma {:induction false} PiecesOfRendered(p: Path)
    requires Valid(p)
    ensures Pieces(Rendered(p)) == [""] + p
  {
    if p != [] {
      var init, last := p[..|p| - 1], p[|p| - 1];
      PiecesOfRendered(init);
      assert IsSegment(last);
      OnePiece(last);
      PiecesAppend(Rendered(init), last);
      assert [""] + init + [last] == [""] + p;
    }
  }

  lemma {:induction false} NormalizedKeeps(p: Path)
    requires Valid(p)
    ensures Normalized([""] + p) == p
  {
    var pieces := [""] + p;
    if p == [] {
      assert pieces[..0] == [];
    } else {
      var init, last := p[..|p| - 1], p[|p| - 1];
      assert pieces[..|pieces| - 1] == [""] + init && pieces[|pieces| - 1] == last && IsSegment(last);
      NormalizedKeeps(init);
    }
  }

  /** Resolving a path that is already resolved changes nothing. */
  lemma ResolveOfRender(cwd: string, p: Path)
    requires Valid(p)
    ensures IsAbsolute(Render(p)) && Resolve(cwd, Render(p)) == p
  {
    RenderedIsAbsolute(p);
    PiecesOfRendered(p);
    NormalizedKeeps(p);
    if p == [] {
      assert "" + "/" + "" == "/";
      PiecesAppend("", "");
      assert Pieces("/") == ["", ""];
      assert ["", ""][..1] == [""] && [""][..0] == [];
    }
  }

  lemma {:induction false} RenderedIsAbsolute(p: Path)
    ensures p != [] ==> IsAbsolute(Rendered(p))
  {
    if |p| > 1 {
      RenderedIsAbsolute(p[..|p| - 1]);
    }
  }

  /** The test on strings: equal, or a prefix up to and including a separator. */
  predicate IsLexicallyContained(cwd: string, candidate: string, container: string) {
    var resolvedCandidate := Render(Resolve(cwd, candidate));
    var resolvedContainer := Render(Resolve(cwd, container));
    || resolvedCandidate == resolvedContainer
    || (if resolvedContainer[|resolvedContainer| - 1] == '/' then resolvedContainer else resolvedContainer + "/")
       <= resolvedCandidate
  }

  lemma {:induction false} RenderedAppend(a: Path, b: Path)
    ensures Rendered(a + b) == Rendered(a) + Rendered(b)
  {
    if b == [] {
      assert a + b == a;
    } else {
      RenderedAppend(a, b[..|b| - 1]);
      assert (a + b)[..|a + b| - 1] == a + b[..|b| - 1];
    }
  }

  lemma PrefixRenders(c: Path, d: Path)
    requires Valid(c) && Valid(d) && d <= c && d != [] && c != d
    ensures Rendered(d) + "/" <= Rendered(c)
  {
    hide Rendered, Valid;
    var more := c[|d|..];
    assert d + more == c;
    RenderedAppend(d, more);
    RenderedIsAbsolute(more);
    assert Rendered(c)[|Rendered(d)|] == '/';
  }

  lemma RenderedPrefix(c: Path, d: Path)
    requires Valid(c) && Valid(d) && Rendered(d) + "/" <= Rendered(c)
    ensures d <= c
  {
    hide Rendered, Valid, Pieces;
    var t := Rendered(c)[|Rendered(d) + "/"|..];
    assert Rendered(d) + "/" + t == Rendered(c);
    PiecesAppend(Rendered(d), t);
    PiecesOfRendered(c);
    PiecesOfRendered(d);
    assert [""] + c == [""] + d + Pieces(t);
    assert c == ([""] + c)[1..] == d + Pieces(t);
  }

  /** The string test is segment-wise containment: it never takes "/a/bc" to be inside "/a/b". */
  lemma ContainedIsSegmentPrefix(cwd: string, candidate: string, container: string)
    ensures IsLexicallyContained(cwd, candidate, container) <==> Resolve(cwd, container) <= Resolve(cwd, candidate)
  {
    hide Resolve;
    var c, d := Resolve(cwd, candidate), Resolve(cwd, container);
    ResolveIsValid(cwd, candidate);
    ResolveIsValid(cwd, container);
    RenderedIsAbsolute(c);
    if d != [] {
      assert Rendered(d)[|Rendered(d)| - 1] != '/' by {
        assert IsSegment(d[|d| - 1]);
      }
      if Rendered(d) + "/" <= Rendered(c) {
        RenderedPrefix(c, d);
      }
      if Render(c) == Render(d) {
        SameRender(c, d);
      }
      if d <= c && c != d {
        PrefixRenders(c, d);
      }
    }
  }

  lemma SameRender(c: Path, d: Path)
    requires Valid(c) && Valid(d) && Render(c) == Render(d)
    ensures c == d
  {
    ResolveOfRender("", c);
    ResolveOfRender("", d);
  }

  /** Containment is a partial order on resolved paths. */
  lemma ContainmentIsPartialOrder(cwd: string, a: string, b: string, c: string)
    ensures IsLexicallyContained(cwd, a, a)
    ensures IsLexicallyContained(cwd, a, b) && IsLexicallyContained(cwd, b, c) ==> IsLexicallyContained(cwd, a, c)
    ensures IsLexicallyContained(cwd, a, b) && IsLexicallyContained(cwd, b, a) ==> Resolve(cwd, a) == Resolve(cwd, b)
  {
    hide IsLexicallyContained, Resolve;
    ContainedIsSegmentPrefix(cwd, a, a);
    ContainedIsSegmentPrefix(cwd, a, b);
    ContainedIsSegmentPrefix(cwd, b, a);
    ContainedIsSegmentPrefix(cwd, b, c);
    ContainedIsSegmentPrefix(cwd, a, c);
  }

  // ---- the nearest existing ancestor ---------------------------------------------------------

  function Reversed(s: seq<string>): seq<string> {
    if s == [] then [] else [s[|s| - 1]] + Reversed(s[..|s| - 1])
  }

  /** realpath of the longest of the first k prefixes that has one, and the rest of the path behind it. */
  function AncestorBelow(realpath: Path -> Option<Path>, target: Path, k: nat): Path
    requires k <= |target|
  {
    match realpath(target[..k])
    case Some(found) => found + target[k..]
    case None => if k == 0 then target else AncestorBelow(realpath, target, k - 1)
  }

  function ExistingAncestor(realpath: Path -> Option<Path>, target: Path): Path {
    AncestorBelow(realpath, target, |target|)
  }

  method ResolveExistingAncestor(realpath: Path -> Option<Path>, target: Path) returns (r: Path)
    ensures r == ExistingAncestor(realpath, target)
  {
    var current := target;
    var suffixes: seq<string> := [];
    assert target[..|target|] == target;
    while true
      invariant current <= target && Reversed(suffixes) == target[|current|..]
      invariant ExistingAncestor(realpath, target) == AncestorBelow(realpath, target, |current|)
      decreases |current|
    {
      assert target[..|current|] == current;
      match realpath(current) {
        case Some(found) => return found + Reversed(suffixes);
        case None =>
          if current == [] {
            return target;
          }
          ghost var next := suffixes + [current[|current| - 1]];
          assert next[..|next| - 1] == suffixes;
          suffixes := suffixes + [current[|current| - 1]];
          current := current[..|current| - 1];
      }
    }
  }

  // ---- what a filesystem does with a path ------------------------------------------------------

  /** A link names an absolute place; a target relative to the link's directory is taken as resolved. */
  datatype Node = Entry | Link(target: Path)

  type Filesystem = map<Path, Node>

  /** The root is there, and what is there is inside something that is there and is not a link. */
  predicate Rooted(fs: Filesystem) {
    && [] in fs && fs[[]].Entry?
    && forall p :: p in fs && p != [] ==> p[..|p| - 1] in fs && fs[p[..|p| - 1]].Entry?
  }

  datatype Walked = Reached(at: Path, hops: nat) | Missing(at: Path, rest: Path) | TooManyLinks

  /** Following a path one segment at a time, links included, for at most `hops` links. */
  function Walk(fs: Filesystem, at: Path, rest: Path, hops: nat): Walked
    decreases hops, |rest|
  {
    if rest == [] then Reached(at, hops)
    else if at + [rest[0]] !in fs then Missing(at, rest)
    else match fs[at + [rest[0]]]
      case Entry => Walk(fs, at + [rest[0]], rest[1..], hops)
      case Link(target) => if hops == 0 then TooManyLinks else Walk(fs, [], target + rest[1..], hops - 1)
  }

  /** What realpath answers. */
  function RealOf(fs: Filesystem, hops: nat): Path -> Option<Path> {
    (p: Path) => match Walk(fs, [], p, hops)
      case Reached(at, _) => Some(at)
      case _ => None
  }

  /** Where reading or creating the path would end up. */
  function Location(fs: Filesystem, p: Path, hops: nat): Option<Path> {
    PlaceOf(Walk(fs, [], p, hops))
  }

  function PlaceOf(w: Walked): Option<Path> {
    match w
    case Reached(at, _) => Some(at)
    case Missing(at, rest) => Some(at + rest)
    case TooManyLinks => None
  }

  lemma {:induction false} WalkOn(fs: Filesystem, at: Path, a: Path, b: Path, hops: nat)
    ensures Walk(fs, at, a + b, hops) == match Walk(fs, at, a, hops)
                                         case Reached(x, left) => Walk(fs, x, b, left)
                                         case Missing(x, rest) => Missing(x, rest + b)
                                         case TooManyLinks => TooManyLinks
    decreases hops, |a|
  {
    if a == [] {
      assert a + b == b;
    } else {
      assert (a + b)[0] == a[0] && (a + b)[1..] == a[1..] + b;
      if at + [a[0]] in fs {
        match fs[at + [a[0]]]
        case Entry => WalkOn(fs, at + [a[0]], a[1..], b, hops);
        case Link(target) =>
          if hops > 0 {
            WalkOn(fs, [], target + a[1..], b, hops - 1);
            assert target + a[1..] + b == target + (a[1..] + b);
          }
      }
    }
  }

  /** A walk only stands on entries; it stops at a name that is not there. */
  lemma {:induction false} WalkStandsOnEntries(fs: Filesystem, at: Path, rest: Path, hops: nat)
    requires Rooted(fs) && at in fs && fs[at].Entry?
    ensures match Walk(fs, at, rest, hops)
            case Reached(x, _) => x in fs && fs[x].Entry?
            case Missing(x, left) => x in fs && fs[x].Entry? && left != [] && x + [left[0]] !in fs
            case TooManyLinks => true
    decreases hops, |rest|
  {
    if rest != [] && at + [rest[0]] in fs {
      match fs[at + [rest[0]]]
      case Entry => WalkStandsOnEntries(fs, at + [rest[0]], rest[1..], hops);
      case Link(target) =>
        if hops > 0 {
          WalkStandsOnEntries(fs, [], target + rest[1..], hops - 1);
        }
    }
  }

  /** How many segments of the path lead to something that is there. */
  function ExistingLength(fs: Filesystem, p: Path, k: nat, hops: nat): (n: nat)
    requires k <= |p|
    ensures n <= k
  {
    if Walk(fs, [], p[..k], hops).Reached? || k == 0 then k else ExistingLength(fs, p, k - 1, hops)
  }

  /** The first segment that leads nowhere is itself a link, and so a dangling or circular one. */
  predicate EndsInDeadLink(fs: Filesystem, p: Path, hops: nat) {
    var k := ExistingLength(fs, p, |p|, hops);
    var w := Walk(fs, [], p[..k], hops);
    k < |p| && w.Reached? && w.at + [p[k]] in fs
  }

  lemma {:induction false} AncestorIsLongest(fs: Filesystem, p: Path, k: nat, hops: nat)
    requires k <= |p|
    ensures var n := ExistingLength(fs, p, k, hops);
            && n <= k && Walk(fs, [], p[..n], hops).Reached?
            && AncestorBelow(RealOf(fs, hops), p, k) == Walk(fs, [], p[..n], hops).at + p[n..]
            && forall i :: n < i <= k ==> !Walk(fs, [], p[..i], hops).Reached?
  {
    assert p[..0] == [];
    if !Walk(fs, [], p[..k], hops).Reached? {
      AncestorIsLongest(fs, p, k - 1, hops);
    }
  }

  lemma {:induction false} Ancestors(fs: Filesystem, p: Path, k: nat)
    requires Rooted(fs) && k <= |p| && p in fs
    ensures p[..k] in fs && (k < |p| ==> fs[p[..k]].Entry?)
    decreases |p| - k
  {
    if k < |p| {
      Ancestors(fs, p, k + 1);
      assert p[..k + 1][..k] == p[..k];
    } else {
      assert p[..k] == p;
    }
  }

  /**
   * The resolution finds the place the filesystem itself would use if and only if the first missing
   * name is not a link: a dangling link is taken for a plain missing name.
   */
  lemma ResolutionIsLocation(fs: Filesystem, p: Path, hops: nat)
    requires Rooted(fs)
    ensures Location(fs, p, hops) == Some(ExistingAncestor(RealOf(fs, hops), p)) <==> !EndsInDeadLink(fs, p, hops)
  {
    hide Walk, AncestorBelow, ExistingLength, RealOf, PlaceOf, Rooted;
    AncestorIsLongest(fs, p, |p|, hops);
    var k := ExistingLength(fs, p, |p|, hops);
    var w := Walk(fs, [], p[..k], hops);
    assert p == p[..k] + p[k..];
    WalkOn(fs, [], p[..k], p[k..], hops);
    RootIsEntry(fs);
    WalkStandsOnEntries(fs, [], p[..k], hops);
    if k == |p| {
      WalkNothing(fs, w.at, w.hops);
      assert p[k..] == [];
    } else {
      assert p[k..][0] == p[k] && p[..k + 1] == p[..k] + [p[k]];
      WalkOn(fs, [], p[..k], [p[k]], hops);
      BeyondAncestor(fs, w.at, p[k..], w.hops);
    }
  }

  lemma RootIsEntry(fs: Filesystem)
    requires Rooted(fs)
    ensures [] in fs && fs[[]].Entry?
  {
  }

  /** From where the path exists no further, it names the place its spelling says unless a link is there. */
  lemma BeyondAncestor(fs: Filesystem, at: Path, rest: Path, hops: nat)
    requires Rooted(fs) && at in fs && fs[at].Entry?
    requires rest != [] && !Walk(fs, at, [rest[0]], hops).Reached?
    ensures PlaceOf(Walk(fs, at, rest, hops)) == Some(at + rest) <==> at + [rest[0]] !in fs
  {
    hide Rooted, Walk;
    if at + [rest[0]] !in fs {
      WalkMissing(fs, at, rest, hops);
    } else {
      WalkEntry(fs, at, rest[0], hops);
      WalkStandsOnEntries(fs, at, rest, hops);
      LinkIsElsewhere(fs, at, rest, Walk(fs, at, rest, hops));
    }
  }

  lemma WalkNothing(fs: Filesystem, at: Path, hops: nat)
    ensures Walk(fs, at, [], hops) == Reached(at, hops) && PlaceOf(Walk(fs, at, [], hops)) == Some(at + [])
  {
    assert at + [] == at;
  }

  lemma WalkMissing(fs: Filesystem, at: Path, rest: Path, hops: nat)
    requires rest != [] && at + [rest[0]] !in fs
    ensures Walk(fs, at, rest, hops) == Missing(at, rest)
  {
  }

  /** If one more segment is there and yet leads nowhere, it is a link. */
  lemma WalkEntry(fs: Filesystem, at: Path, segment: string, hops: nat)
    requires at + [segment] in fs && !Walk(fs, at, [segment], hops).Reached?
    ensures fs[at + [segment]].Link?
  {
    assert [segment][1..] == [];
  }

  /** Where a walk ends is never below a link. */
  lemma LinkIsElsewhere(fs: Filesystem, at: Path, rest: Path, w: Walked)
    requires Rooted(fs) && rest != [] && at + [rest[0]] in fs && fs[at + [rest[0]]].Link?
    requires match w
             case Reached(x, _) => x in fs && fs[x].Entry?
             case Missing(x, left) => x in fs && fs[x].Entry? && left != [] && x + [left[0]] !in fs
             case TooManyLinks => true
    ensures w.Reached? ==> w.at != at + rest
    ensures w.Missing? ==> w.at + w.rest != at + rest
  {
    hide Rooted;
    var link := at + [rest[0]];
    assert (at + rest)[..|link|] == link;
    match w
    case Reached(x, _) => NotBelowLink(fs, link, x);
    case Missing(x, left) =>
      NotBelowLink(fs, link, x);
      if |x| < |link| {
        ThereUpTo(fs, link, x + [left[0]]);
        assert (x + left)[..|x| + 1] == x + [left[0]];
      }
    case TooManyLinks =>
  }

  lemma NotBelowLink(fs: Filesystem, link: Path, x: Path)
    requires Rooted(fs) && link in fs && fs[link].Link? && x in fs && fs[x].Entry?
    ensures !(link <= x)
  {
    if link <= x {
      UpToEntry(fs, x, link);
    }
  }

  lemma UpToEntry(fs: Filesystem, x: Path, q: Path)
    requires Rooted(fs) && x in fs && fs[x].Entry? && q <= x
    ensures q in fs && fs[q].Entry?
  {
    Ancestors(fs, x, |q|);
    assert x[..|q|] == q && (|q| == |x| ==> q == x);
  }

  lemma ThereUpTo(fs: Filesystem, p: Path, q: Path)
    requires Rooted(fs) && p in fs
    ensures q <= p ==> q in fs
  {
    if q <= p {
      Ancestors(fs, p, |q|);
      assert p[..|q|] == q;
    }
  }

  // ---- the checks --------------------------------------------------------------------------------

  /** Both are absolute, and where the one resolves to is inside where the other does. */
  predicate Inside(realpath: Path -> Option<Path>, candidate: string, container: string) {
    && IsAbsolute(candidate) && IsAbsolute(container)
    && ExistingAncestor(realpath, Resolve("", container)) <= ExistingAncestor(realpath, Resolve("", candidate))
  }

  /** realpath answers with normalized paths. */
  ghost predicate AnswersValid(realpath: Path -> Option<Path>) {
    forall p :: realpath(p).Some? ==> Valid(realpath(p).value)
  }

  lemma {:induction false} AncestorIsValid(realpath: Path -> Option<Path>, target: Path, k: nat)
    requires AnswersValid(realpath) && Valid(target) && k <= |target|
    ensures Valid(AncestorBelow(realpath, target, k))
  {
    if realpath(target[..k]).None? && k > 0 {
      AncestorIsValid(realpath, target, k - 1);
    }
  }

  method AssertContained(realpath: Path -> Option<Path>, candidate: string, container: string, lexicalOnly: bool)
    returns (r: Option<Path>)
    requires AnswersValid(realpath)
    ensures !lexicalOnly ==> (r.Some? <==> Inside(realpath, candidate, container))
    ensures !lexicalOnly && r.Some? ==> r.value == ExistingAncestor(realpath, Resolve("", candidate))
    ensures lexicalOnly ==> (r.Some? <==> IsAbsolute(candidate) && IsAbsolute(container)
                                          && Resolve("", container) <= Resolve("", candidate))
    ensures lexicalOnly && r.Some? ==> r.value == Resolve("", candidate)
  {
    hide Resolve, ExistingAncestor, IsLexicallyContained, AnswersValid;
    if !IsAbsolute(candidate) || !IsAbsolute(container) {
      return None;
    }
    if lexicalOnly {
      ContainedIsSegmentPrefix("", candidate, container);
      return if IsLexicallyContained("", candidate, container) then Some(Resolve("", candidate)) else None;
    }
    var realCandidate := ResolveExistingAncestor(realpath, Resolve("", candidate));
    var realContainer := ResolveExistingAncestor(realpath, Resolve("", container));
    ResolvedIsValid(realpath, candidate);
    ResolvedIsValid(realpath, container);
    ResolveOfRender("", realCandidate);
    ResolveOfRender("", realContainer);
    ContainedIsSegmentPrefix("", Render(realCandidate), Render(realContainer));
    r := if IsLexicallyContained("", Render(realCandidate), Render(realContainer)) then Some(realCandidate) else None;
  }

  lemma ResolvedIsValid(realpath: Path -> Option<Path>, s: string)
    requires AnswersValid(realpath)
    ensures Valid(ExistingAncestor(realpath, Resolve("", s)))
  {
    ResolveIsValid("", s);
    AncestorIsValid(realpath, Resolve("", s), |Resolve("", s)|);
  }

  /** Deny wins, and the allowlist is exhaustive. A list entry that is not absolute matches nothing. */
  method CheckPathAccess(realpath: Path -> Option<Path>, candidate: string,
                         allowed: seq<string>, forbidden: seq<string>)
    returns (r: Option<Path>)
    requires AnswersValid(realpath)
    ensures r.Some? <==>
            && (exists i :: 0 <= i < |allowed| && Inside(realpath, candidate, allowed[i]))
            && (forall i :: 0 <= i < |forbidden| ==> !Inside(realpath, candidate, forbidden[i]))
    ensures r.Some? ==> r.value == ExistingAncestor(realpath, Resolve("", candidate))
  {
    hide Inside, ExistingAncestor, Resolve, AnswersValid;
    for i := 0 to |forbidden|
      invariant forall j :: 0 <= j < i ==> !Inside(realpath, candidate, forbidden[j])
    {
      var contained := AssertContained(realpath, candidate, forbidden[i], false);
      if contained.Some? {
        return None;
      }
    }
    for i := 0 to |allowed|
      invariant forall j :: 0 <= j < i ==> !Inside(realpath, candidate, allowed[j])
    {
      var contained := AssertContained(realpath, candidate, allowed[i], false);
      if contained.Some? {
        return contained;
      }
    }
    r := None;
  }

  /**
   * On a filesystem: when neither the candidate nor the container ends in a dead link, "inside" says
   * that the place the candidate names lies in the place the container names.
   */
  lemma InsideIsInside(fs: Filesystem, hops: nat, candidate: string, container: string)
    requires Rooted(fs) && IsAbsolute(candidate) && IsAbsolute(container)
    requires !EndsInDeadLink(fs, Resolve("", candidate), hops) && !EndsInDeadLink(fs, Resolve("", container), hops)
    ensures var c, d := Location(fs, Resolve("", candidate), hops), Location(fs, Resolve("", container), hops);
            c.Some? && d.Some? && (Inside(RealOf(fs, hops), candidate, container) <==> d.value <= c.value)
  {
    hide Resolve, ExistingAncestor, Location, EndsInDeadLink, RealOf, Rooted;
    ResolutionIsLocation(fs, Resolve("", candidate), hops);
    ResolutionIsLocation(fs, Resolve("", container), hops);
  }

  /**
   * A dangling link inside a directory is such a case: it resolves to its own name, inside, and
   * names the place of its target, which need not be.
   */
  lemma DanglingLinkIsMistaken(fs: Filesystem, w: Path, name: string, hops: nat, at: Path, rest: Path)
    requires hops > 0 && w + [name] in fs && fs[w + [name]].Link?
    requires Walk(fs, [], w, hops) == Reached(w, hops)
    requires Walk(fs, [], fs[w + [name]].target, hops - 1) == Missing(at, rest)
    ensures ExistingAncestor(RealOf(fs, hops), w + [name]) == w + [name]
    ensures Location(fs, w + [name], hops) == Some(at + rest)
  {
    var link := w + [name];
    WalkOn(fs, [], w, [name], hops);
    assert [name][1..] == [] && fs[link].target + [] == fs[link].target;
    assert Walk(fs, w, [name], hops) == Missing(at, rest);
    assert link[..|link|] == link && link[..|w|] == w && link[|w|..] == [name];
    assert AncestorBelow(RealOf(fs, hops), link, |w|) == link;
  }

  /** Such a filesystem: /w/link points to /new, which is not there. */
  lemma DanglingLinkExists()
    ensures var fs: Filesystem := map[[] := Entry, ["w"] := Entry, ["w", "link"] := Link(["new"])];
            && Rooted(fs) && ExistingAncestor(RealOf(fs, 40), ["w", "link"]) == ["w", "link"]
            && Location(fs, ["w", "link"], 40) == Some(["new"])
  {
    var fs: Filesystem := map[[] := Entry, ["w"] := Entry, ["w", "link"] := Link(["new"])];
    assert ["w"][..0] == [] && ["w", "link"][..1] == ["w"];
    assert ["w"][1..] == [] && [] + ["w"] == ["w"] && [] + ["new"] == ["new"] && ["w"] + ["link"] == ["w", "link"];
    WalkNothing(fs, ["w"], 40);
    WalkMissing(fs, [], ["new"], 39);
    hide ExistingAncestor, Location, RealOf;
    DanglingLinkIsMistaken(fs, ["w"], "link", 40, [], ["new"]);
  }
}
