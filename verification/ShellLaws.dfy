/** What the shell scanners agree on, and the printer the word scanner undoes. */
module ShellLaws {
  import opened Wrappers
  import opened ShellScan

  // ---- The lexical reading -----------------------------------------------------------------------

  function Raw(x: Lexeme): string {
    match x case Escape(text) => text case Mark(quote) => [quote] case Plain(c, _) => [c] case End(_) => ""
  }

  function Text(ls: seq<Lexeme>): string { if ls == [] then "" else Raw(ls[0]) + Text(ls[1..]) }

  /** Exactly the last lexeme is the end. */
  ghost predicate Ended(ls: seq<Lexeme>) {
    ls != [] && ls[|ls| - 1].End? && forall i :: 0 <= i < |ls| - 1 ==> !ls[i].End?
  }

  lemma ConsText(x: Lexeme, rest: seq<Lexeme>)
    requires !x.End? && Ended(rest)
    ensures Text([x] + rest) == Raw(x) + Text(rest) && Ended([x] + rest)
  {
    assert ([x] + rest)[1..] == rest;
  }

  lemma FirstIsPrefix(s: string, quote: Option<char>)
    requires s != ""
    ensures !First(s, quote).End? && Width(First(s, quote)) <= |s|
    ensures s == Raw(First(s, quote)) + s[Width(First(s, quote))..]
    ensures 0 < Width(First(s, quote))
  {}

  /** The reading is lossless and ends once. */
  lemma {:induction false} LexIsLossless(s: string, quote: Option<char>)
    ensures Text(Lex(s, quote)) == s && Ended(Lex(s, quote))
    decreases |s|
  {
    if s == "" {
      assert Lex(s, quote)[1..] == [];
    } else {
      hide *;
      var x := First(s, quote);
      FirstIsPrefix(s, quote);
      LexCons(s, quote);
      LexIsLossless(s[Width(x)..], After(x, quote));
      ConsText(x, Lex(s[Width(x)..], After(x, quote)));
    }
  }

  // ---- Acceptance ------------------------------------------------------------------------------------

  /** An operator that is half of an unquoted `{}`. */
  predicate InBraces(ls: seq<Lexeme>, i: nat)
    requires i < |ls|
  {
    (ls[i] == Plain('{', None) && i + 1 < |ls| && ls[i + 1] == Plain('}', None))
    || (ls[i] == Plain('}', None) && i > 0 && ls[i - 1] == Plain('{', None))
  }

  /** The shell does not act on this lexeme. */
  predicate InertAt(ls: seq<Lexeme>, i: nat)
    requires i < |ls|
  {
    match ls[i]
    case Plain(c, within) =>
      (within == Some('\'') || (c != '$' && c != '`')) && (within.None? && c in OPERATORS ==> InBraces(ls, i))
    case End(open) => open.None?
    case _ => true
  }

  predicate Inert(ls: seq<Lexeme>) { forall i :: 0 <= i < |ls| ==> InertAt(ls, i) }

  lemma InertTail(ls: seq<Lexeme>, n: nat)
    requires 0 < n < |ls| && ls[n - 1] != Plain('{', None)
    ensures Inert(ls[n..]) <==> forall i :: n <= i < |ls| ==> InertAt(ls, i)
  {
    var rest := ls[n..];
    forall i | n <= i < |ls| ensures InertAt(rest, i - n) == InertAt(ls, i) {
      assert rest[i - n] == ls[i];
      assert i + 1 < |ls| ==> rest[i + 1 - n] == ls[i + 1];
      assert i > n ==> rest[i - 1 - n] == ls[i - 1];
    }
    if Inert(rest) {
      forall i | n <= i < |ls| ensures InertAt(ls, i) { assert InertAt(rest, i - n); }
    }
    if forall i :: n <= i < |ls| ==> InertAt(ls, i) {
      forall k | 0 <= k < |rest| ensures InertAt(rest, k) { assert InertAt(ls, k + n); }
    }
  }

  /** The operator scan objects to nothing exactly when the shell would act on nothing and every quote is closed. */
  lemma {:induction false} ObjectionIffActive(ls: seq<Lexeme>)
    requires Ended(ls)
    ensures ObjectionTo(ls).None? <==> Inert(ls)
    decreases |ls|
  {
    if ls[0].End? {
      assert |ls| == 1;
      assert Inert(ls) <==> InertAt(ls, 0);
    } else if ls[0] == Plain('{', None) {
      if ls[1] == Plain('}', None) {
        assert Ended(ls[2..]);
        ObjectionIffActive(ls[2..]);
        InertTail(ls, 2);
        assert InertAt(ls, 0) && InertAt(ls, 1);
      } else {
        assert !InertAt(ls, 0);
      }
    } else {
      assert Ended(ls[1..]);
      ObjectionIffActive(ls[1..]);
      InertTail(ls, 1);
      assert Inert(ls) <==> InertAt(ls, 0) && Inert(ls[1..]);
      if InertAt(ls, 0) { assert ObjectionTo(ls) == ObjectionTo(ls[1..]); }
    }
  }

  lemma EndedTail(ls: seq<Lexeme>)
    requires Ended(ls) && !ls[0].End?
    ensures |ls| > 1 && Ended(ls[1..]) && Text(ls) == Raw(ls[0]) + Text(ls[1..])
  {}

  lemma EndedEnd(ls: seq<Lexeme>, parts: seq<string>, current: string)
    requires Ended(ls) && ls[0].End?
    ensures PiecesOf(ls, parts, current) == parts + [current] && Text(ls) == ""
  {
    assert |ls| == 1 && ls[1..] == [];
  }

  lemma Associate(a: string, b: string, c: string)
    ensures a + (b + c) == (a + b) + c && a + "" == a
  {}

  /** An accepted `{` is followed by `}`, and both are kept. */
  lemma BracesAreKept(ls: seq<Lexeme>, parts: seq<string>, current: string)
    requires Ended(ls) && ObjectionTo(ls).None? && ls[0] == Plain('{', None)
    ensures |ls| > 2 && Ended(ls[2..]) && ObjectionTo(ls[2..]).None? && Text(ls) == "{" + ("}" + Text(ls[2..]))
    ensures PiecesOf(ls, parts, current) == PiecesOf(ls[2..], parts, current + "{" + "}")
  {
    assert |ls| > 1 && ls[1] == Plain('}', None);
    assert ls[1..][1..] == ls[2..] && ls[1..][0] == ls[1];
    EndedTail(ls);
    EndedTail(ls[1..]);
    hide Text, Ended, ObjectionTo;
    BracesAreNoSeparators(ls, parts, current);
  }

  lemma {:induction false} UnobjectedIsOnePiece(ls: seq<Lexeme>, parts: seq<string>, current: string)
    requires ObjectionTo(ls).None? && Ended(ls)
    ensures PiecesOf(ls, parts, current) == parts + [current + Text(ls)]
    decreases |ls|
  {
    assert |ls| > 0;
    hide *;
    if ls[0].End? {
      EndedEnd(ls, parts, current);
      Associate(current, "", "");
    } else if ls[0] == Plain('{', None) {
      BracesAreKept(ls, parts, current);
      UnobjectedIsOnePiece(ls[2..], parts, current + "{" + "}");
      Associate(current, "{", "}" + Text(ls[2..]));
      Associate(current + "{", "}", Text(ls[2..]));
    } else {
      EndedTail(ls);
      InertIsKept(ls, parts, current);
      UnobjectedIsOnePiece(ls[1..], parts, current + Raw(ls[0]));
      Associate(current, Raw(ls[0]), Text(ls[1..]));
    }
  }

  lemma InertIsKept(ls: seq<Lexeme>, parts: seq<string>, current: string)
    requires |ls| > 1 && !ls[0].End? && ls[0] != Plain('{', None) && ObjectionTo(ls).None?
    ensures ObjectionTo(ls[1..]).None? && PiecesOf(ls, parts, current) == PiecesOf(ls[1..], parts, current + Raw(ls[0]))
  {
    if ls[0].Plain? { NoSeparatorIsQuoted(ls[0].c, if ls[1].Plain? then ls[1].c else ls[0].c); }
  }

  lemma BracesAreNoSeparators(ls: seq<Lexeme>, parts: seq<string>, current: string)
    requires |ls| > 2 && ls[0] == Plain('{', None) && ls[1] == Plain('}', None) && ls[1..][0] == ls[1]
    requires ls[1..][1..] == ls[2..]
    ensures PiecesOf(ls, parts, current) == PiecesOf(ls[2..], parts, current + "{" + "}")
  {
    NoSeparatorIsQuoted('{', '}');
    NoSeparatorIsQuoted('}', if ls[2].Plain? then ls[2].c else '}');
  }

  // ---- Trimming ---------------------------------------------------------------------------------------

  /** Words and the current word after some lexemes before the end. */
  function Gather(ls: seq<Lexeme>, words: seq<string>, current: string): (seq<string>, string) {
    if ls == [] then (words, current)
    else
      match ls[0]
      case End(_) => (words, current)
      case Escape(text) => Gather(ls[1..], words, if text == "" then current else current + text[1..])
      case Mark(_) => Gather(ls[1..], words, current)
      case Plain(c, within) =>
        if within.None? && IsSpace(c) then Gather(ls[1..], Push(words, current), "")
        else Gather(ls[1..], words, current + [c])
  }

  lemma {:induction false} WordsAppend(front: seq<Lexeme>, rest: seq<Lexeme>, words: seq<string>, current: string)
    requires forall x :: x in front ==> !x.End?
    ensures var (w, c) := Gather(front, words, current); WordsOf(front + rest, words, current) == WordsOf(rest, w, c)
    decreases |front|
  {
    if front == [] {
      assert front + rest == rest;
    } else {
      assert (front + rest)[0] == front[0] && (front + rest)[1..] == front[1..] + rest;
      match front[0]
      case End(_) =>
      case Escape(text) => WordsAppend(front[1..], rest, words, if text == "" then current else current + text[1..]);
      case Mark(_) => WordsAppend(front[1..], rest, words, current);
      case Plain(c, within) =>
        if within.None? && IsSpace(c) {
          WordsAppend(front[1..], rest, Push(words, current), "");
        } else {
          WordsAppend(front[1..], rest, words, current + [c]);
        }
    }
  }

  function Last(ls: seq<Lexeme>): Lexeme
    requires ls != []
  {
    ls[|ls| - 1]
  }

  predicate Dangling(ls: seq<Lexeme>) { |ls| > 1 && ls[|ls| - 2] == Escape("\\") }

  /** A reading with a space added at its end: under the open quote, unless a dangling backslash takes it. */
  function WithSpace(ls: seq<Lexeme>, c: char): seq<Lexeme>
    requires ls != [] && Last(ls).End?
  {
    if Dangling(ls) then ls[..|ls| - 2] + [Escape(['\\', c]), Last(ls)]
    else ls[..|ls| - 1] + [Plain(c, Last(ls).open), Last(ls)]
  }

  lemma WithSpaceCons(x: Lexeme, rest: seq<Lexeme>, c: char)
    requires rest != [] && Last(rest).End? && (|rest| > 1 || x != Escape("\\"))
    ensures Last([x] + rest) == Last(rest) && (Dangling([x] + rest) <==> Dangling(rest))
    ensures WithSpace([x] + rest, c) == [x] + WithSpace(rest, c)
  {
    if |rest| > 1 { assert ([x] + rest)[|rest| - 1] == rest[|rest| - 2]; }
  }

  lemma {:induction false} SpaceAtTheEnd(s: string, quote: Option<char>, c: char)
    requires IsSpace(c)
    requires quote.Some? ==> IsQuote(quote.value)
    ensures Last(Lex(s, quote)).End?
    ensures Lex(s + [c], quote) == WithSpace(Lex(s, quote), c)
    ensures Dangling(Lex(s, quote)) ==> s != "" && s[|s| - 1] == '\\'
    decreases |s|
  {
    var t := s + [c];
    if |s| == 0 || s == "\\" {
      SpaceAlone(s, quote, c);
    } else {
      var x := First(s, quote);
      var n := Width(x);
      var rest := Lex(s[n..], After(x, quote));
      LexCons(s, quote);
      LexCons(t, quote);
      assert First(t, quote) == x && (x.Escape? ==> |x.text| == 2) by { if |s| > 1 { assert t[..2] == s[..2]; } }
      assert t[n..] == s[n..] + [c];
      hide Lex, WithSpace, Dangling;
      SpaceAtTheEnd(s[n..], After(x, quote), c);
      WithSpaceCons(x, rest, c);
    }
  }

  lemma LexCons(s: string, quote: Option<char>)
    requires s != ""
    ensures Width(First(s, quote)) <= |s|
    ensures Lex(s, quote) == [First(s, quote)] + Lex(s[Width(First(s, quote))..], After(First(s, quote), quote))
  {
    LexStep(s, quote);
    assert Lex(s, quote) == [Lex(s, quote)[0]] + Lex(s, quote)[1..];
  }

  lemma SpaceAlone(s: string, quote: Option<char>, c: char)
    requires IsSpace(c) && (s == "" || s == "\\") && (quote.Some? ==> IsQuote(quote.value))
    ensures Last(Lex(s, quote)) == End(quote) && Lex(s + [c], quote) == WithSpace(Lex(s, quote), c)
    ensures Dangling(Lex(s, quote)) ==> s == "\\"
  {
    var t := s + [c];
    LexCons(t, quote);
    if s == "" {
      assert t == [c] && t[1..] == "" && Lex(s, quote) == [End(quote)];
    } else {
      assert t[..2] == ['\\', c] && t[2..] == "" && Lex(s, quote) == [Escape("\\"), End(quote)];
    }
  }

  /** Only an escaped white space at the very end is lost: it leaves the last word. */
  ghost predicate Clipped(words: seq<string>, trimmed: seq<string>) {
    exists front: seq<string>, word: string, c: char ::
      IsSpace(c) && words == front + [word + [c]] && trimmed == Push(front, word)
  }

  predicate QuotesClosed(s: string) { Last(Lex(s, None)) == End(None) }

  lemma WithoutLastSpace(s: string, c: char)
    requires IsSpace(c) && QuotesClosed(s + [c])
    ensures QuotesClosed(s)
    ensures Dangling(Lex(s, None)) ==> s != "" && s[|s| - 1] == '\\'
    ensures if Dangling(Lex(s, None)) then Clipped(Words(s + [c]), Words(s)) else Words(s + [c]) == Words(s)
  {
    hide Lex, WordsOf, Clipped, WithSpace, Dangling;
    var ls := Lex(s, None);
    LexIsLossless(s, None);
    SpaceAtTheEnd(s, None, c);
    SpaceKeepsEnd(ls, c);
    if Dangling(ls) { DanglingSpace(ls, c); } else { FreeSpace(ls, c); }
  }

  lemma SpaceKeepsEnd(ls: seq<Lexeme>, c: char)
    requires ls != [] && Last(ls).End?
    ensures Last(WithSpace(ls, c)) == Last(ls)
  {}

  lemma DanglingSpace(ls: seq<Lexeme>, c: char)
    requires IsSpace(c) && ls != [] && Dangling(ls) && Last(ls) == End(None)
    requires forall i :: 0 <= i < |ls| - 1 ==> !ls[i].End?
    ensures Clipped(WordsOf(WithSpace(ls, c), [], ""), WordsOf(ls, [], ""))
  {
    hide Clipped, WordsOf;
    var front := ls[..|ls| - 2];
    assert ls == front + [Escape("\\"), End(None)];
    EscapedSpaceClips(front, c);
  }

  lemma FreeSpace(ls: seq<Lexeme>, c: char)
    requires IsSpace(c) && ls != [] && !Dangling(ls) && Last(ls) == End(None)
    requires forall i :: 0 <= i < |ls| - 1 ==> !ls[i].End?
    ensures WordsOf(WithSpace(ls, c), [], "") == WordsOf(ls, [], "")
  {
    hide WordsOf;
    var front := ls[..|ls| - 1];
    assert ls == front + [End(None)];
    PlainSpaceEnds(front, c);
  }

  lemma EscapedSpaceClips(front: seq<Lexeme>, c: char)
    requires IsSpace(c) && forall x :: x in front ==> !x.End?
    ensures Clipped(WordsOf(front + [Escape(['\\', c]), End(None)], [], ""),
        WordsOf(front + [Escape("\\"), End(None)], [], ""))
  {
    var (w, current) := Gather(front, [], "");
    WordsAppend(front, [Escape("\\"), End(None)], [], "");
    WordsAppend(front, [Escape(['\\', c]), End(None)], [], "");
    hide Gather, WordsOf;
    LastEscape(w, current, "\\");
    LastEscape(w, current, ['\\', c]);
    assert ['\\', c][1..] == [c] && "\\"[1..] == "" && current + "" == current;
    assert Push(w, current + [c]) == w + [current + [c]];
  }

  lemma PlainSpaceEnds(front: seq<Lexeme>, c: char)
    requires IsSpace(c) && forall x :: x in front ==> !x.End?
    ensures WordsOf(front + [Plain(c, None), End(None)], [], "") == WordsOf(front + [End(None)], [], "")
  {
    var (w, current) := Gather(front, [], "");
    WordsAppend(front, [End(None)], [], "");
    WordsAppend(front, [Plain(c, None), End(None)], [], "");
    hide Gather;
    assert [Plain(c, None), End(None)][1..] == [End(None)];
  }

  lemma LastEscape(words: seq<string>, current: string, text: string)
    requires text != ""
    ensures WordsOf([Escape(text), End(None)], words, current) == Push(words, current + text[1..])
  {
    assert [Escape(text), End(None)][1..] == [End(None)];
  }

  lemma ClippedIsLess(words: seq<string>, trimmed: seq<string>)
    requires Clipped(words, trimmed)
    ensures trimmed != words
  {
    var front: seq<string>, word: string, c: char :|
      IsSpace(c) && words == front + [word + [c]] && trimmed == Push(front, word);
    assert words[|front|] == word + [c];
  }

  /** Trimming took away the white space that the last backslash escaped. */
  predicate CutsEscape(s: string, trimmed: string) { trimmed != s && Dangling(Lex(trimmed, None)) }

  lemma {:induction false} TrimEndWords(s: string)
    requires QuotesClosed(s)
    ensures if CutsEscape(s, TrimEnd(s)) then Clipped(Words(s), Words(TrimEnd(s))) else Words(TrimEnd(s)) == Words(s)
    decreases |s|
  {
    if s != "" && IsSpace(s[|s| - 1]) {
      var front := s[..|s| - 1];
      assert s == front + [s[|s| - 1]];
      hide Dangling, Clipped, Lex;
      WithoutLastSpace(front, s[|s| - 1]);
      TrimEndWords(front);
      assert |TrimEnd(s)| < |s|;
    }
  }

  lemma {:induction false} TrimStartWords(s: string)
    ensures Words(TrimStart(s)) == Words(s) && QuotesClosed(TrimStart(s)) == QuotesClosed(s)
    decreases |s|
  {
    if s != "" && IsSpace(s[0]) {
      LexStep(s, None);
      TrimStartWords(s[1..]);
    }
  }

  /** With closed quotes, trimming keeps the words exactly when it does not cut the white space a last backslash
      escapes; otherwise only that white space leaves the last word. */
  lemma TrimWords(s: string)
    requires QuotesClosed(s)
    ensures Words(Trim(s)) == Words(s) <==> Trim(s) == TrimStart(s) || !Dangling(Lex(Trim(s), None))
    ensures Words(Trim(s)) == Words(s) || Clipped(Words(s), Words(Trim(s)))
  {
    hide *;
    TrimStartWords(s);
    TrimEndWords(TrimStart(s));
    TrimUnfolds(s);
    if CutsEscape(TrimStart(s), Trim(s)) { ClippedIsLess(Words(s), Words(Trim(s))); }
  }

  lemma TrimUnfolds(s: string)
    ensures Trim(s) == TrimEnd(TrimStart(s))
    ensures CutsEscape(TrimStart(s), Trim(s)) <==> Trim(s) != TrimStart(s) && Dangling(Lex(Trim(s), None))
  {}

  /** The command `a`, backslash, space names the file "a ", and "a" once it is trimmed. */
  lemma TrimmingCutsAWord()
    ensures QuotesClosed("a\\ ") && Trim("a\\ ") == "a\\"
    ensures Words("a\\ ") == ["a "] && Words(Trim("a\\ ")) == ["a"]
  {
    var s, escaped, cut := "a\\ ", [Escape("\\ "), End(None)], [Escape("\\"), End(None)];
    assert s[1..] == "\\ " && "\\ "[..2] == "\\ " && "\\ "[2..] == "" && "a\\"[1..] == "\\";
    assert Lex(s, None) == [Plain('a', None)] + escaped && Lex("a\\", None) == [Plain('a', None)] + cut;
    assert ([Plain('a', None)] + escaped)[1..] == escaped && ([Plain('a', None)] + cut)[1..] == cut;
    assert "" + ['a'] == "a";
    LastEscape([], "a", "\\ ");
    LastEscape([], "a", "\\");
    assert "\\ "[1..] == " " && "\\"[1..] == "" && "a" + " " == "a " && "a" + "" == "a";
    assert s[..2] == "a\\" && TrimEnd("a\\") == "a\\";
  }

  // ---- Agreement ---------------------------------------------------------------------------------------

  lemma {:induction false} NameExtends(s: string, more: string)
    requires NameThenEquals(s)
    ensures NameThenEquals(s + more)
  {
    assert (s + more)[0] == s[0];
    if s[0] != '=' {
      assert (s + more)[1..] == s[1..] + more;
      NameExtends(s[1..], more);
    }
  }

  lemma AssignmentExtends(word: string, more: string)
    requires IsAssignment(word)
    ensures IsAssignment(word + more)
  {
    NameExtends(word[1..], more);
    assert (word + more)[0] == word[0] && (word + more)[1..] == word[1..] + more;
  }

  lemma BaseNameGrows(path: string, c: char)
    requires c != '/'
    ensures BaseName(path + [c]) == AfterSlash(path) + [c] == AfterSlash(path + [c])
  {
    assert (path + [c])[..|path|] == path;
  }

  lemma EmptyBase()
    ensures AfterSlash("") == ""
  {}

  lemma BaseOfSh()
    ensures BaseName("sh") == "sh"
  {
    EmptyBase();
    hide BaseName, AfterSlash;
    BaseNameGrows("", 's');
    BaseNameGrows("s", 'h');
    assert "" + ['s'] == "s" && "s" + ['h'] == "sh";
  }

  lemma BaseOfBash()
    ensures BaseName("bash") == "bash"
  {
    EmptyBase();
    hide BaseName, AfterSlash;
    BaseNameGrows("", 'b');
    assert "" + ['b'] == "b";
    BaseNameGrows("b", 'a');
    assert "b" + ['a'] == "ba";
    BaseNameGrows("ba", 's');
    assert "ba" + ['s'] == "bas";
    BaseNameGrows("bas", 'h');
    assert "bas" + ['h'] == "bash";
  }

  lemma FlagC()
    ensures HasFlagC("-c")
  {
    assert "-c"[1..] == "c" && "c"[0] == 'c';
  }

  lemma ShellsNest()
    ensures BaseName("bash") in SHELLS && BaseName("sh") in SHELLS && HasFlagC("-c")
  {
    hide BaseName, HasFlagC;
    BaseOfBash();
    BaseOfSh();
    FlagC();
    assert SHELLS[1] in SHELLS && SHELLS[0] in SHELLS;
  }

  /** Words that start with a nested shell and are not cut short there nest a shell as written. */
  lemma NestingShows(words: seq<string>, trimmed: seq<string>, k: nat)
    requires trimmed == words || Clipped(words, trimmed)
    requires k + 2 < |trimmed| && trimmed[k] in ["bash", "sh"] && trimmed[k + 1] == "-c"
    ensures NestsShell(words)
  {
    ShellsNest();
    if trimmed != words {
      var front: seq<string>, word: string, c: char :| IsSpace(c) && words == front + [word + [c]] &&
          trimmed == Push(front, word);
      assert words[k] == trimmed[k] && words[k + 1] == trimmed[k + 1];
    }
    assert BaseName(words[k]) in SHELLS && HasFlagC(words[k + 1]);
  }

  lemma AcceptedClosesQuotes(command: string)
    requires ObjectionTo(Lex(command, None)).None?
    ensures QuotesClosed(command)
  {
    var ls := Lex(command, None);
    LexIsLossless(command, None);
    ObjectionIffActive(ls);
    assert InertAt(ls, |ls| - 1);
  }

  /** Trimming can neither uncover an assignment nor a nested shell. */
  lemma ClippedStaysPlain(words: seq<string>, trimmed: seq<string>)
    requires trimmed == words || Clipped(words, trimmed)
    requires words != [] ==> !IsAssignment(words[0])
    ensures trimmed != [] ==> !IsAssignment(trimmed[0])
  {
    if trimmed != words {
      var front: seq<string>, word: string, c: char :| IsSpace(c) && words == front + [word + [c]] &&
          trimmed == Push(front, word);
      if front == [] && IsAssignment(word) { AssignmentExtends(word, [c]); }
      assert front != [] ==> words[0] == front[0] && trimmed[0] == front[0];
    }
  }

  lemma AcceptedKeepsItsWords(command: string)
    requires Unsupported(command).None?
    ensures QuotesClosed(command) && StripEnv(Words(Trim(command))) == Words(Trim(command))
    ensures !Nests(Argv(command))
  {
    hide Words, Trim, Clipped, NestsShell, ObjectionTo, QuotesClosed, IsAssignment;
    AcceptedClosesQuotes(command);
    TrimWords(command);
    var words, trimmed := Words(command), Words(Trim(command));
    ClippedStaysPlain(words, trimmed);
    assert StripEnv(words) == words && StripEnv(trimmed) == trimmed;
    var k := if Argv(command) == trimmed then 0 else 1;
    assert Argv(command) == trimmed[k..];
    if Nests(trimmed[k..]) {
      assert trimmed[k..][0] == trimmed[k] && trimmed[k..][1] == trimmed[k + 1];
      NestingShows(words, trimmed, k);
    }
  }

  /** The three scanners agree: a command that is accepted has closed quotes and is one piece under the
      four separators; it parses to at most one segment, without entering a nested shell script. */
  lemma AcceptedIsOneCommand(command: string)
    requires Unsupported(command).None?
    ensures QuotesClosed(command)
    ensures Pieces(command) == [command]
    ensures !Nests(Argv(command))
    ensures Segments(command) == if Argv(command) == [] then [] else [Segment(Trim(command), Argv(command))]
  {
    hide Words, Trim, Argv;
    AcceptedKeepsItsWords(command);
    LexIsLossless(command, None);
    UnobjectedIsOnePiece(Lex(command, None), [], "");
    assert "" + command == command && [] + [command] == [command];
    var n := |command|;
    assert Segments(command) == SegmentsOf(n, [command]);
    assert [command][1..] == [] && SegmentsOf(n, []) == [];
    assert SegmentsOf(n, [command]) == SegmentsOfPiece(n, command) + SegmentsOf(n, [command][1..]);
  }

  /** A command is accepted exactly when it has no line breaks, starts with no assignment, names no nested shell,
      and the shell would act on none of its characters. */
  lemma AcceptanceIsExact(command: string)
    ensures Unsupported(command).None? <==>
      && '\r' !in command && '\n' !in command
      && (Words(command) != [] ==> !IsAssignment(Words(command)[0]))
      && !NestsShell(Words(command))
      && Inert(Lex(command, None))
  {
    hide Words, Inert, NestsShell;
    LexIsLossless(command, None);
    ObjectionIffActive(Lex(command, None));
  }

  // ---- Printing -----------------------------------------------------------------------------------------

  function Escaped(word: string): string {
    if word == "" then ""
    else (if word[0] == '\\' || word[0] == '\'' then ['\\', word[0]] else [word[0]]) + Escaped(word[1..])
  }

  function Quoted(word: string): string { "'" + Escaped(word) + "'" }

  /** Every word in single quotes, with a backslash before each backslash and single quote. */
  function Print(words: seq<string>): string {
    if words == [] then "" else if |words| == 1 then Quoted(words[0]) else Quoted(words[0]) + " " + Print(words[1..])
  }

  /** One character printed inside single quotes is read back as itself. */
  lemma EscapedStep(c: char, tail: string, words: seq<string>, current: string)
    ensures var s := (if c == '\\' || c == '\'' then ['\\', c] else [c]) + tail;
      && WordsOf(Lex(s, Some('\'')), words, current) == WordsOf(Lex(tail, Some('\'')), words, current + [c])
      && ObjectionTo(Lex(s, Some('\''))) == ObjectionTo(Lex(tail, Some('\'')))
  {
    var s := (if c == '\\' || c == '\'' then ['\\', c] else [c]) + tail;
    LexStep(s, Some('\''));
    ObjectionStep(s, Some('\''));
    if c == '\\' || c == '\'' {
      assert s[..2] == ['\\', c] && s[2..] == tail && ['\\', c][1..] == [c];
    } else {
      assert s[0] == c && s[1..] == tail;
    }
  }

  lemma ClosingStep(rest: string, words: seq<string>, current: string)
    ensures WordsOf(Lex("'" + rest, Some('\'')), words, current) == WordsOf(Lex(rest, None), words, current)
    ensures ObjectionTo(Lex("'" + rest, Some('\''))) == ObjectionTo(Lex(rest, None))
  {
    var s := "'" + rest;
    LexStep(s, Some('\''));
    ObjectionStep(s, Some('\''));
    assert s[0] == '\'' && s[1..] == rest;
  }

  lemma {:induction false} EscapedScan(word: string, rest: string, words: seq<string>, current: string)
    ensures WordsOf(Lex(Escaped(word) + "'" + rest, Some('\'')), words, current) ==
        WordsOf(Lex(rest, None), words, current + word)
    ensures ObjectionTo(Lex(Escaped(word) + "'" + rest, Some('\''))) == ObjectionTo(Lex(rest, None))
    decreases |word|
  {
    hide WordsOf, ObjectionTo, Lex;
    var s := Escaped(word) + "'" + rest;
    if word == "" {
      ClosingStep(rest, words, current);
      assert s == "'" + rest && current + word == current;
    } else {
      var c := word[0];
      var tail := Escaped(word[1..]) + "'" + rest;
      EscapedStep(c, tail, words, current);
      assert s == (if c == '\\' || c == '\'' then ['\\', c] else [c]) + tail;
      EscapedScan(word[1..], rest, words, current + [c]);
      assert current + [c] + word[1..] == current + word;
    }
  }

  lemma QuotedScan(word: string, rest: string, words: seq<string>)
    ensures WordsOf(Lex(Quoted(word) + rest, None), words, "") == WordsOf(Lex(rest, None), words, word)
    ensures ObjectionTo(Lex(Quoted(word) + rest, None)) == ObjectionTo(Lex(rest, None))
  {
    var s := Quoted(word) + rest;
    LexStep(s, None);
    ObjectionStep(s, None);
    assert s[0] == '\'' && s[1..] == Escaped(word) + "'" + rest;
    EscapedScan(word, rest, words, "");
    assert "" + word == word;
  }

  /** A space after a word ends it. */
  lemma SpaceStep(rest: string, words: seq<string>, word: string)
    requires word != ""
    ensures WordsOf(Lex(" " + rest, None), words, word) == WordsOf(Lex(rest, None), words + [word], "")
    ensures ObjectionTo(Lex(" " + rest, None)) == ObjectionTo(Lex(rest, None))
  {
    var s := " " + rest;
    LexStep(s, None);
    ObjectionStep(s, None);
    assert s[0] == ' ' && s[1..] == rest;
  }

  lemma NothingScan(words: seq<string>, current: string)
    ensures WordsOf(Lex("", None), words, current) == Push(words, current) && ObjectionTo(Lex("", None)).None?
  {
    assert Lex("", None) == [End(None)];
  }

  lemma {:induction false} PrintScan(list: seq<string>, words: seq<string>)
    requires forall w :: w in list ==> w != ""
    ensures WordsOf(Lex(Print(list), None), words, "") == words + list
    ensures ObjectionTo(Lex(Print(list), None)).None?
    decreases |list|
  {
    hide Lex, WordsOf, ObjectionTo, Quoted;
    if list == [] {
      NothingScan(words, "");
      assert words + list == words;
    } else if |list| == 1 {
      assert list[0] in list;
      assert Print(list) == Quoted(list[0]) + "";
      QuotedScan(list[0], "", words);
      NothingScan(words, list[0]);
      assert list == [list[0]];
    } else {
      assert list[0] in list && forall w :: w in list[1..] ==> w in list;
      var more := " " + Print(list[1..]);
      assert Print(list) == Quoted(list[0]) + more;
      hide Print;
      QuotedScan(list[0], more, words);
      SpaceStep(Print(list[1..]), words, list[0]);
      PrintScan(list[1..], words + [list[0]]);
      assert words + [list[0]] + list[1..] == words + list;
    }
  }

  /** Scanning undoes printing, for every list of non-empty words. */
  lemma WordsUndoPrint(list: seq<string>)
    requires forall w :: w in list ==> w != ""
    ensures Words(Print(list)) == list
  {
    PrintScan(list, []);
    assert [] + list == list;
  }

  /** Printed words are never objected to for a character in them: only line breaks, a leading assignment
      and a nested shell remain to refuse them. */
  lemma PrintedIsInert(list: seq<string>)
    requires forall w :: w in list ==> w != ""
    ensures Unsupported(Print(list)).None? <==>
      && '\r' !in Print(list) && '\n' !in Print(list) && (list != [] ==> !IsAssignment(list[0])) && !NestsShell(list)
  {
    hide NestsShell;
    WordsUndoPrint(list);
    PrintScan(list, []);
  }

  /** The words of a command are together no longer than the command, and a nested script is strictly
      shorter than its piece, so segment parsing ends on every string. */
  lemma ScannedWordsAreBounded(command: string)
    ensures Total(Words(command)) <= |command|
    ensures forall raw :: raw in Pieces(command) && Nests(Argv(raw)) ==> |Argv(raw)[2]| < |command|
  {
    LexCoversAll(command, None);
    WordsAreBounded(Lex(command, None), [], "");
    SegmentsShrink(command);
    forall raw | raw in Pieces(command) && Nests(Argv(raw))
      ensures |Argv(raw)[2]| < |command| { NestedScriptIsShorter(raw); }
  }
}
