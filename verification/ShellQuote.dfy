/** Quoting an argument vector for a POSIX shell, and reading it back. */
module ShellQuote {
  import opened Options

  predicate IsSafe(c: char) {
    || 'A' <= c <= 'Z' || 'a' <= c <= 'z' || '0' <= c <= '9'
    || c == '_' || c == '@' || c == '%' || c == '+' || c == '=' || c == ':'
    || c == ',' || c == '.' || c == '/' || c == '-'
  }

  predicate MatchesSafePattern(argument: string) {
    argument != "" && forall i :: 0 <= i < |argument| ==> IsSafe(argument[i])
  }

  const APOSTROPHE_QUOTE := "'\"'\"'"

  /** replaceAll("'", APOSTROPHE_QUOTE) */
  function Escaped(s: string): string {
    if s == "" then "" else
      Escaped(s[..|s| - 1]) + if s[|s| - 1] == '\'' then APOSTROPHE_QUOTE else [s[|s| - 1]]
  }

  function PosixShellQuote(argument: string): string {
    if MatchesSafePattern(argument) then argument else "'" + Escaped(argument) + "'"
  }

  /** argv.map(posixShellQuote).join(" ") */
  function PosixShellJoin(argv: seq<string>): string {
    if argv == [] then ""
    else if |argv| == 1 then PosixShellQuote(argv[0])
    else PosixShellJoin(argv[..|argv| - 1]) + " " + PosixShellQuote(argv[|argv| - 1])
  }

  // ---- what a shell makes of a line ---------------------------------------------------------

  /**
   * Token recognition and quoting of the Shell Command Language, POSIX.1-2017, sections 2.2.1, 2.2.2,
   * 2.2.3 and 2.3, for lines of plain words. Anything unquoted that would start an operator, an
   * expansion, a pattern or a comment is refused, so what is read is what a command receives.
   */
  datatype Mode = Unquoted | Escape | SingleQuoted | DoubleQuoted | DoubleEscape

  datatype Shell = Reading(words: seq<string>, word: Option<string>, mode: Mode) | Refused

  predicate IsBlank(c: char) {
    c == ' ' || c == '\t'
  }

  predicate IsSpecial(c: char) {
    || c == '|' || c == '&' || c == ';' || c == '<' || c == '>' || c == '(' || c == ')' || c == '\n'
    || c == '$' || c == '`' || c == '*' || c == '?' || c == '[' || c == '#'
    || c == '~' || c == '{' || c == '}' || c == '!'
  }

  function Word(st: Shell): string
    requires st.Reading?
  {
    if st.word.Some? then st.word.value else ""
  }

  function Grown(st: Shell, s: string, mode: Mode): Shell
    requires st.Reading?
  {
    Reading(st.words, Some(Word(st) + s), mode)
  }

  /** One more character of the line. No shell word can hold a NUL. */
  function Eat(st: Shell, c: char): Shell {
    if st.Refused? || c == '\0' then Refused else
      match st.mode
      case Unquoted =>
        if c == '\'' then Grown(st, "", SingleQuoted)
        else if c == '"' then Grown(st, "", DoubleQuoted)
        else if c == '\\' then Reading(st.words, st.word, Escape)
        else if IsBlank(c) then Reading(Ended(st), None, Unquoted)
        else if IsSpecial(c) then Refused
        else Grown(st, [c], Unquoted)
      case Escape =>
        if c == '\n' then Reading(st.words, st.word, Unquoted) else Grown(st, [c], Unquoted)
      case SingleQuoted => if c == '\'' then Grown(st, "", Unquoted) else Grown(st, [c], SingleQuoted)
      case DoubleQuoted =>
        if c == '"' then Grown(st, "", Unquoted)
        else if c == '\\' then Grown(st, "", DoubleEscape)
        else if c == '$' || c == '`' then Refused
        else Grown(st, [c], DoubleQuoted)
      case DoubleEscape =>
        if c == '\n' then Grown(st, "", DoubleQuoted)
        else if c == '$' || c == '`' || c == '"' || c == '\\' then Grown(st, [c], DoubleQuoted)
        else Grown(st, ['\\', c], DoubleQuoted)
  }

  function Ended(st: Shell): seq<string>
    requires st.Reading?
  {
    if st.word.Some? then st.words + [st.word.value] else st.words
  }

  function EatAll(st: Shell, s: string): Shell {
    if s == "" then st else Eat(EatAll(st, s[..|s| - 1]), s[|s| - 1])
  }

  /** The words of a line; None when a quote is left open or the line is more than plain words. */
  function Tokens(line: string): Option<seq<string>> {
    var st := EatAll(Reading([], None, Unquoted), line);
    if st.Reading? && st.mode.Unquoted? then Some(Ended(st)) else None
  }

  lemma {:induction false} EatMore(st: Shell, a: string, b: string)
    ensures EatAll(st, a + b) == EatAll(EatAll(st, a), b)
  {
    if b == "" {
      assert a + b == a;
    } else {
      EatMore(st, a, b[..|b| - 1]);
      assert (a + b)[..|a + b| - 1] == a + b[..|b| - 1];
    }
  }

  lemma EatOne(st: Shell, c: char)
    ensures EatAll(st, [c]) == Eat(st, c)
  {
    assert [c][..0] == "";
  }

  lemma {:induction false} RefusedStays(s: string)
    ensures EatAll(Refused, s) == Refused
  {
    if s != "" {
      RefusedStays(s[..|s| - 1]);
    }
  }

  // ---- the round trip ---------------------------------------------------------------------

  /** Safe characters are taken as they are. */
  lemma {:induction false} SafeIsLiteral(words: seq<string>, a: string)
    requires MatchesSafePattern(a)
    ensures EatAll(Reading(words, None, Unquoted), a) == Reading(words, Some(a), Unquoted)
  {
    var init, c := a[..|a| - 1], a[|a| - 1];
    if init != "" {
      SafeIsLiteral(words, init);
      assert init + [c] == a;
    } else {
      assert "" + [c] == a;
    }
  }

  /** Leaving the single quotes for a quoted apostrophe and coming back adds just the apostrophe. */
  lemma ApostropheIsLiteral(words: seq<string>, w: string)
    ensures EatAll(Reading(words, Some(w), SingleQuoted), APOSTROPHE_QUOTE)
            == Reading(words, Some(w + "'"), SingleQuoted)
  {
    hide EatAll;
    var st, q := Reading(words, Some(w), SingleQuoted), APOSTROPHE_QUOTE;
    EatNext(st, q, 0);
    EatNext(st, q, 1);
    EatNext(st, q, 2);
    EatNext(st, q, 3);
    EatNext(st, q, 4);
    assert q[..5] == q && w + "" == w && (w + "'") + "" == w + "'";
  }

  lemma EatNext(st: Shell, s: string, i: nat)
    requires i < |s|
    ensures EatAll(st, s[..i + 1]) == Eat(EatAll(st, s[..i]), s[i])
    ensures EatAll(st, s[..0]) == st
  {
    assert s[..i + 1][..i] == s[..i];
  }

  lemma QuotedCharacter(words: seq<string>, w: string, c: char)
    requires c != '\''
    ensures Eat(Reading(words, Some(w), SingleQuoted), c)
         == if c == '\0' then Refused else Reading(words, Some(w + [c]), SingleQuoted)
    ensures Eat(Refused, c) == Refused
  {
  }

  lemma {:induction false} EscapedIsLiteral(words: seq<string>, w: string, a: string)
    ensures EatAll(Reading(words, Some(w), SingleQuoted), Escaped(a))
         == if '\0' in a then Refused else Reading(words, Some(w + a), SingleQuoted)
  {
    hide Eat;
    var st := Reading(words, Some(w), SingleQuoted);
    if a == "" {
      assert w + a == w;
    } else {
      var init, c := a[..|a| - 1], a[|a| - 1];
      EscapedIsLiteral(words, w, init);
      assert a == init + [c] && w + a == (w + init) + [c];
      if c == '\'' {
        EatMore(st, Escaped(init), APOSTROPHE_QUOTE);
        ApostropheIsLiteral(words, w + init);
        RefusedStays(APOSTROPHE_QUOTE);
      } else {
        EatMore(st, Escaped(init), [c]);
        EatOne(EatAll(st, Escaped(init)), c);
        QuotedCharacter(words, w + init, c);
      }
    }
  }

  /** A quoted argument is read as one word, the argument itself. */
  lemma QuoteIsOneWord(words: seq<string>, a: string)
    ensures EatAll(Reading(words, None, Unquoted), PosixShellQuote(a))
         == if '\0' in a then Refused else Reading(words, Some(a), Unquoted)
  {
    if MatchesSafePattern(a) {
      SafeIsLiteral(words, a);
    } else {
      QuotesAreStripped(words, a);
    }
  }

  lemma QuotesAreStripped(words: seq<string>, a: string)
    ensures EatAll(Reading(words, None, Unquoted), "'" + Escaped(a) + "'")
         == if '\0' in a then Refused else Reading(words, Some(a), Unquoted)
  {
    hide EatAll, Escaped;
    var st := Reading(words, None, Unquoted);
    EatMore(st, "'" + Escaped(a), "'");
    EatMore(st, "'", Escaped(a));
    EatOne(st, '\'');
    assert "" + "" == "";
    EscapedIsLiteral(words, "", a);
    EatOne(EatAll(st, "'" + Escaped(a)), '\'');
    assert "" + a == a && a + "" == a;
  }

  predicate NulFree(argv: seq<string>) {
    forall i :: 0 <= i < |argv| ==> '\0' !in argv[i]
  }

  lemma {:induction false} JoinIsRead(argv: seq<string>)
    requires argv != []
    ensures EatAll(Reading([], None, Unquoted), PosixShellJoin(argv))
         == if NulFree(argv) then Reading(argv[..|argv| - 1], Some(argv[|argv| - 1]), Unquoted) else Refused
  {
    hide PosixShellQuote, EatAll;
    var st, init, last := Reading([], None, Unquoted), argv[..|argv| - 1], argv[|argv| - 1];
    if |argv| == 1 {
      assert init == [];
      QuoteIsOneWord([], last);
    } else {
      JoinIsRead(init);
      assert init[..|init| - 1] + [init[|init| - 1]] == init;
      EatMore(st, PosixShellJoin(init) + " ", PosixShellQuote(last));
      EatMore(st, PosixShellJoin(init), " ");
      EatOne(EatAll(st, PosixShellJoin(init)), ' ');
      QuoteIsOneWord(init, last);
      RefusedStays(PosixShellQuote(last));
      NulFreeMore(argv);
    }
  }

  lemma NulFreeMore(argv: seq<string>)
    requires argv != []
    ensures NulFree(argv) <==> NulFree(argv[..|argv| - 1]) && '\0' !in argv[|argv| - 1]
  {
    var init := argv[..|argv| - 1];
    assert forall i :: 0 <= i < |init| ==> init[i] == argv[i];
  }

  /**
   * The shell reads back exactly the argument vector, empty arguments and apostrophes included,
   * if and only if no argument holds a NUL.
   */
  lemma JoinRoundTrip(argv: seq<string>)
    ensures Tokens(PosixShellJoin(argv)) == Some(argv) <==> NulFree(argv)
    ensures !NulFree(argv) ==> Tokens(PosixShellJoin(argv)) == None
  {
    if argv == [] {
      NothingIsRead();
    } else {
      hide EatAll, PosixShellJoin, NulFree;
      JoinIsRead(argv);
      assert argv[..|argv| - 1] + [argv[|argv| - 1]] == argv;
    }
  }

  lemma NothingIsRead()
    ensures Tokens(PosixShellJoin([])) == Some([]) && NulFree([])
  {
  }

  /** So two vectors share a command line only if they are the same vector. */
  lemma JoinIsInjective(one: seq<string>, other: seq<string>)
    requires NulFree(one) && NulFree(other) && PosixShellJoin(one) == PosixShellJoin(other)
    ensures one == other
  {
    hide Tokens, PosixShellJoin, NulFree;
    JoinRoundTrip(one);
    JoinRoundTrip(other);
  }
}
