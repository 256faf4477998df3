/** The shell scanners of the command classifier. All three read a command through one lexical
    reading of backslashes and quotes; they differ in what they make of it. */
module ShellScan {
  import opened Wrappers

  /** A backslash with what it escapes, a quote that opens or closes, a character under the quote
      it stands in, and the end with the quote left open. */
  datatype Lexeme =
    | Escape(text: string)
    | Mark(quote: char)
    | Plain(c: char, within: Option<char>)
    | End(open: Option<char>)

  predicate IsQuote(c: char) { c == '\'' || c == '"' }

  /** White space as the language's `\s` and `trim` understand it. */
  predicate IsSpace(c: char) {
    var n := c as int;
    9 <= n <= 13 || n == 0x20 || n == 0xA0 || n == 0x1680 || 0x2000 <= n <= 0x200A
    || n == 0x2028 || n == 0x2029 || n == 0x202F || n == 0x205F || n == 0x3000 || n == 0xFEFF
  }

  function Lex(s: string, quote: Option<char>): (r: seq<Lexeme>)
    ensures r != []
    decreases |s|
  {
    if s == "" then [End(quote)]
    else if s[0] == '\\' then
      if |s| == 1 then [Escape(s), End(quote)] else [Escape(s[..2])] + Lex(s[2..], quote)
    else if IsQuote(s[0]) && quote.None? then [Mark(s[0])] + Lex(s[1..], Some(s[0]))
    else if quote == Some(s[0]) then [Mark(s[0])] + Lex(s[1..], None)
    else [Plain(s[0], quote)] + Lex(s[1..], quote)
  }

  /** The quote after reading one lexeme under a quote. */
  function After(x: Lexeme, quote: Option<char>): Option<char> {
    if x.Mark? then (if quote.None? then Some(x.quote) else None) else quote
  }

  function First(s: string, quote: Option<char>): Lexeme
    requires s != ""
  {
    if s[0] == '\\' then Escape(s[..if |s| == 1 then 1 else 2])
    else if (IsQuote(s[0]) && quote.None?) || quote == Some(s[0]) then Mark(s[0])
    else Plain(s[0], quote)
  }

  /** How many characters a lexeme takes. */
  function Width(x: Lexeme): nat { match x case Escape(text) => |text| case End(_) => 0 case _ => 1 }

  lemma LexStep(s: string, quote: Option<char>)
    requires s != ""
    ensures Width(First(s, quote)) <= |s|
    ensures Lex(s, quote)[0] == First(s, quote)
    ensures Lex(s, quote)[1..] == Lex(s[Width(First(s, quote))..], After(First(s, quote), quote))
  {
    if s[0] == '\\' && |s| == 1 {
      assert s == "\\" && s[..1] == s && s[1..] == "";
    }
  }

  // ---- Words -----------------------------------------------------------------------------------

  function Push(words: seq<string>, current: string): seq<string> { if current == "" then words else words + [current] }

  /** Words gather escaped and plain characters and break at white space outside quotes. */
  function WordsOf(ls: seq<Lexeme>, words: seq<string>, current: string): seq<string> {
    if ls == [] then Push(words, current)
    else
      match ls[0]
      case End(_) => Push(words, current)
      case Escape(text) => WordsOf(ls[1..], words, if text == "" then current else current + text[1..])
      case Mark(_) => WordsOf(ls[1..], words, current)
      case Plain(c, within) =>
        if within.None? && IsSpace(c) then WordsOf(ls[1..], Push(words, current), "")
        else WordsOf(ls[1..], words, current + [c])
  }

  function Words(s: string): seq<string> { WordsOf(Lex(s, None), [], "") }

  method ShellWords(input: string) returns (words: seq<string>)
    ensures words == Words(input)
  {
    words := [];
    var current := "";
    var quote: Option<char> := None;
    var i := 0;
    while i < |input|
      invariant 0 <= i <= |input|
      invariant WordsOf(Lex(input, None), [], "") == WordsOf(Lex(input[i..], quote), words, current)
    {
      var c := input[i];
      assert input[i..][1..] == input[i + 1..] &&
          (i + 1 < |input| ==> input[i..][2..] == input[i + 2..] && input[i..][..2] == [c, input[i + 1]]);
      LexStep(input[i..], quote);
      if c == '\\' {
        if i + 1 < |input| {
          assert [c, input[i + 1]][1..] == [input[i + 1]];
          current := current + [input[i + 1]];
          i := i + 2;
        } else {
          assert input[i..][..1] == [c] && [c][1..] == "" && current + "" == current;
          i := i + 1;
        }
        continue;
      }
      i := i + 1;
      if IsQuote(c) && quote.None? {
        quote := Some(c);
        continue;
      }
      if quote == Some(c) {
        quote := None;
        continue;
      }
      if quote.None? && IsSpace(c) {
        if current != "" { words := words + [current]; }
        current := "";
        continue;
      }
      current := current + [c];
    }
    if current != "" { words := words + [current]; }
  }

  // ---- Pieces ----------------------------------------------------------------------------------

  const SEPARATORS: seq<string> := ["&&", "||", ";", "|"]

  /** Pieces are cut at separators outside quotes and keep every other character. */
  function PiecesOf(ls: seq<Lexeme>, parts: seq<string>, current: string): seq<string> {
    if ls == [] then parts + [current]
    else
      match ls[0]
      case End(_) => parts + [current]
      case Escape(text) => PiecesOf(ls[1..], parts, current + text)
      case Mark(quote) => PiecesOf(ls[1..], parts, current + [quote])
      case Plain(c, within) =>
        if within.None? && |ls| > 1 && ls[1].Plain? &&
            [c, ls[1].c] in SEPARATORS then PiecesOf(ls[2..], parts + [current], "")
        else if within.None? && [c] in SEPARATORS then PiecesOf(ls[1..], parts + [current], "")
        else PiecesOf(ls[1..], parts, current + [c])
  }

  function Pieces(s: string): seq<string> { PiecesOf(Lex(s, None), [], "") }

  lemma NoSeparatorIsQuoted(c: char, d: char)
    ensures [c, d] in SEPARATORS ==> c == d && (c == '&' || c == '|')
    ensures [c] in SEPARATORS ==> c == ';' || c == '|'
  {
    assert forall x :: x in SEPARATORS ==> x == "&&" || x == "||" || x == ";" || x == "|";
    if [c, d] in SEPARATORS { assert c == [c, d][0] && d == [c, d][1]; }
    if [c] in SEPARATORS { assert c == [c][0]; }
  }

  /** One step of the cutting, told by the characters alone. */
  lemma PiecesStep(s: string, quote: Option<char>, parts: seq<string>, current: string)
    requires s != "" && s[0] != '\\' && (quote.Some? ==> IsQuote(quote.value))
    ensures var after := After(First(s, quote), quote);
      PiecesOf(Lex(s, quote), parts, current)
      == if after.None? && |s| > 1 && [s[0], s[1]] in SEPARATORS then PiecesOf(Lex(s[2..], None), parts + [current], "")
         else if after.None? && [s[0]] in SEPARATORS then PiecesOf(Lex(s[1..], None), parts + [current], "")
         else PiecesOf(Lex(s[1..], after), parts, current + [s[0]])
  {
    var after := After(First(s, quote), quote);
    var ls := Lex(s, quote);
    LexStep(s, quote);
    NoSeparatorIsQuoted(s[0], s[0]);
    if |s| > 1 {
      NoSeparatorIsQuoted(s[0], s[1]);
      LexStep(s[1..], after);
      assert ls[2..] == ls[1..][1..] && ls[1] == ls[1..][0] && s[1..][0] == s[1] && s[1..][1..] == s[2..];
      if First(s, quote).Plain? && after.None? {
        assert [s[0], s[1]] in SEPARATORS ==> ls[1] == Plain(s[1], None);
        assert ls[1].Plain? ==> ls[1].c == s[1];
      }
    } else {
      assert s[1..] == "" && ls[1..] == [End(after)];
      assert ls[1] == ls[1..][0];
    }
  }

  lemma EscapeStep(s: string, quote: Option<char>, parts: seq<string>, current: string)
    requires s != "" && s[0] == '\\'
    ensures PiecesOf(Lex(s, quote), parts, current)
      == if |s| > 1 then PiecesOf(Lex(s[2..], quote), parts, current + s[..2]) else parts + [current + s]
  {
    LexStep(s, quote);
    if |s| == 1 { assert s[..1] == s && s[1..] == ""; }
  }

  method SplitShell(command: string) returns (parts: seq<string>)
    ensures parts == Pieces(command)
  {
    parts := [];
    var current := "";
    var quote: Option<char> := None;
    var i := 0;
    while i < |command|
      invariant 0 <= i <= |command|
      invariant quote.Some? ==> IsQuote(quote.value)
      invariant PiecesOf(Lex(command, None), [], "") == PiecesOf(Lex(command[i..], quote), parts, current)
    {
      var c := command[i];
      var rest := command[i..];
      assert rest[1..] == command[i + 1..] &&
          (i + 1 < |command| ==> rest[2..] == command[i + 2..] && rest[..2] == [c] + [command[i + 1]]);
      if c == '\\' {
        EscapeStep(rest, quote, parts, current);
        if i + 1 < |command| {
          assert current + [c] + [command[i + 1]] == current + rest[..2];
          current := current + [c] + [command[i + 1]];
          i := i + 2;
        } else {
          assert rest == [c];
          current := current + [c];
          i := i + 1;
        }
        continue;
      }
      PiecesStep(rest, quote, parts, current);
      if IsQuote(c) && quote.None? { quote := Some(c); } else if quote == Some(c) { quote := None; }
      if quote.None? && i + 1 < |command| && [c, command[i + 1]] in SEPARATORS {
        parts := parts + [current];
        current := "";
        i := i + 2;
        continue;
      }
      i := i + 1;
      if quote.None? && [c] in SEPARATORS {
        parts := parts + [current];
        current := "";
        continue;
      }
      current := current + [c];
    }
    parts := parts + [current];
  }

  // ---- Objections -------------------------------------------------------------------------------

  predicate Letter(c: char) { 'a' <= c <= 'z' || 'A' <= c <= 'Z' || c == '_' }

  predicate NameThenEquals(s: string) {
    s != "" && (s[0] == '=' || ((Letter(s[0]) || '0' <= s[0] <= '9') && NameThenEquals(s[1..])))
  }

  /** A word of the form `NAME=...`. */
  predicate IsAssignment(word: string) { word != "" && Letter(word[0]) && NameThenEquals(word[1..]) }

  predicate LetterCBeforeDash(s: string) { s != "" && s[0] != '-' && (s[0] == 'c' || LetterCBeforeDash(s[1..])) }

  /** A cluster of short options with a `c` among them. */
  predicate HasFlagC(word: string) { word != "" && word[0] == '-' && LetterCBeforeDash(word[1..]) }

  function WithoutSlashes(path: string): string {
    if path != "" && path[|path| - 1] == '/' then WithoutSlashes(path[..|path| - 1]) else path
  }

  function AfterSlash(path: string): string {
    if path == "" || path[|path| - 1] == '/' then "" else AfterSlash(path[..|path| - 1]) + [path[|path| - 1]]
  }

  function BaseName(path: string): string { AfterSlash(WithoutSlashes(path)) }

  const SHELLS: seq<string> := ["bash", "sh", "dash", "zsh", "ksh", "fish"]

  function StripEnv(argv: seq<string>): seq<string> {
    if argv != [] && IsAssignment(argv[0]) then StripEnv(argv[1..]) else argv
  }

  method StripEnvAssignments(argv: seq<string>) returns (rest: seq<string>)
    ensures rest == StripEnv(argv)
  {
    var index := 0;
    while index < |argv| && IsAssignment(argv[index])
      invariant index <= |argv|
      invariant StripEnv(argv) == StripEnv(argv[index..])
    {
      index := index + 1;
    }
    rest := argv[index..];
  }

  /** A shell name, with or without a path, and an option cluster with `c` somewhere after it. */
  predicate NestsShell(argv: seq<string>) {
    exists i, k :: 0 <= i < k < |argv| && BaseName(argv[i]) in SHELLS && HasFlagC(argv[k])
  }

  datatype Objection = Newlines | Assignment | NestedShell | Dynamic | Operator(c: char) | Unterminated

  const OPERATORS: string := "&;|<>*?[]{}()"

  /** The first character the shell would act on, or an unterminated quote. */
  function ObjectionTo(ls: seq<Lexeme>): Option<Objection> {
    if ls == [] then None
    else
      match ls[0]
      case End(open) => if open.Some? then Some(Unterminated) else None
      case Escape(_) => ObjectionTo(ls[1..])
      case Mark(_) => ObjectionTo(ls[1..])
      case Plain(c, within) =>
        if within == Some('\'') then ObjectionTo(ls[1..])
        else if c == '$' || c == '`' then Some(Dynamic)
        else if within.None? && c == '{' && |ls| > 1 && ls[1] == Plain('}', None) then ObjectionTo(ls[2..])
        else if within.None? && c in OPERATORS then Some(Operator(c))
        else ObjectionTo(ls[1..])
  }

  function Unsupported(command: string): Option<Objection> {
    if '\r' in command || '\n' in command then Some(Newlines)
    else
      var words := Words(command);
      if words != [] && IsAssignment(words[0]) then Some(Assignment)
      else if NestsShell(StripEnv(words)) then Some(NestedShell)
      else ObjectionTo(Lex(command, None))
  }

  method UnsupportedShellSyntax(command: string) returns (r: Option<Objection>)
    ensures r == Unsupported(command)
  {
    if '\r' in command || '\n' in command { return Some(Newlines); }
    var words := ShellWords(command);
    if words != [] && IsAssignment(words[0]) { return Some(Assignment); }
    var argv := StripEnvAssignments(words);
    for index := 0 to |argv|
      invariant forall i, k :: 0 <= i < index && i < k < |argv| ==> !(BaseName(argv[i]) in SHELLS && HasFlagC(argv[k]))
    {
      if BaseName(argv[index]) !in SHELLS { continue; }
      for k := index + 1 to |argv|
        invariant forall l :: index < l < k ==> !HasFlagC(argv[l])
      {
        if HasFlagC(argv[k]) { return Some(NestedShell); }
      }
    }
    r := ScanOperators(command);
  }

  method ScanOperators(command: string) returns (r: Option<Objection>)
    ensures r == ObjectionTo(Lex(command, None))
  {
    var quote: Option<char> := None;
    var index := 0;
    while index < |command|
      invariant 0 <= index <= |command|
      invariant ObjectionTo(Lex(command, None)) == ObjectionTo(Lex(command[index..], quote))
    {
      var c := command[index];
      var rest := command[index..];
      assert rest[1..] == command[index + 1..] && (index + 1 < |command| ==> rest[2..] == command[index + 2..]);
      ObjectionStep(rest, quote);
      if c == '\\' {
        index := if index + 1 < |command| then index + 2 else index + 1;
        continue;
      }
      if IsQuote(c) && quote.None? {
        quote, index := Some(c), index + 1;
        continue;
      }
      if quote == Some(c) {
        quote, index := None, index + 1;
        continue;
      }
      if quote == Some('\'') {
        index := index + 1;
        continue;
      }
      if c == '$' || c == '`' { return Some(Dynamic); }
      if quote.None? && c == '{' && index + 1 < |command| && command[index + 1] == '}' {
        index := index + 2;
        continue;
      }
      if quote.None? && c in OPERATORS { return Some(Operator(c)); }
      index := index + 1;
    }
    if quote.Some? { return Some(Unterminated); }
    r := None;
  }

  lemma ObjectionStep(s: string, quote: Option<char>)
    requires s != ""
    ensures var x := First(s, quote);
      ObjectionTo(Lex(s, quote))
      == if !x.Plain? || quote == Some('\'') then ObjectionTo(Lex(s[Width(x)..], After(x, quote)))
         else if s[0] == '$' || s[0] == '`' then Some(Dynamic)
         else if quote.None? && s[0] == '{' && |s| > 1 && s[1] == '}' then ObjectionTo(Lex(s[2..], None))
         else if quote.None? && s[0] in OPERATORS then Some(Operator(s[0]))
         else ObjectionTo(Lex(s[1..], quote))
  {
    var ls := Lex(s, quote);
    LexStep(s, quote);
    if First(s, quote).Plain? {
      if |s| > 1 {
        LexStep(s[1..], quote);
        assert ls[2..] == ls[1..][1..] && ls[1] == ls[1..][0] && s[1..][0] == s[1] && s[1..][1..] == s[2..];
      } else {
        assert s[1..] == "" && ls[1..] == [End(quote)];
        assert ls[1] == ls[1..][0];
      }
    }
  }

  // ---- Segments -----------------------------------------------------------------------------------

  function TrimStart(s: string): string { if s != "" && IsSpace(s[0]) then TrimStart(s[1..]) else s }

  function TrimEnd(s: string): (r: string)
    ensures |r| <= |s|
  {
    if s != "" && IsSpace(s[|s| - 1]) then TrimEnd(s[..|s| - 1]) else s
  }

  function Trim(s: string): string { TrimEnd(TrimStart(s)) }

  datatype Segment = Segment(raw: string, argv: seq<string>)

  /** The words of a piece without assignments and a leading `command`. */
  function Argv(raw: string): seq<string> {
    var argv := StripEnv(Words(Trim(raw)));
    if |argv| > 1 && argv[0] == "command" && argv[1] != "" then argv[1..] else argv
  }

  /** The piece hands a script to a nested shell. */
  predicate Nests(argv: seq<string>) {
    |argv| > 2 && (argv[0] == "bash" || argv[0] == "sh") && argv[1] == "-c" && argv[2] != ""
  }

  function Total(words: seq<string>): nat {
    if words == [] then 0 else Total(words[..|words| - 1]) + |words[|words| - 1]|
  }

  lemma {:induction false} TotalAppend(words: seq<string>, word: string)
    ensures Total(words + [word]) == Total(words) + |word|
  {
    assert (words + [word])[..|words|] == words;
  }

  lemma {:induction false} PartIsWithinTotal(words: seq<string>, i: nat, k: nat)
    requires i < |words|
    ensures |words[i]| <= Total(words)
    ensures i < k < |words| ==> |words[i]| + |words[k]| <= Total(words)
  {
    var n := |words| - 1;
    if i < n { PartIsWithinTotal(words[..n], i, if k < n then k else i); }
  }

  function Size(ls: seq<Lexeme>): nat { if ls == [] then 0 else Width(ls[0]) + Size(ls[1..]) }

  lemma {:induction false} LexCoversAll(s: string, quote: Option<char>)
    ensures Size(Lex(s, quote)) == |s|
    decreases |s|
  {
    if s != "" {
      LexStep(s, quote);
      LexCoversAll(s[Width(First(s, quote))..], After(First(s, quote), quote));
    } else {
      assert Lex(s, quote)[1..] == [];
    }
  }

  /** Scanned words are no longer together than what they were scanned from. */
  lemma {:induction false} WordsAreBounded(ls: seq<Lexeme>, words: seq<string>, current: string)
    ensures Total(WordsOf(ls, words, current)) <= Total(words) + |current| + Size(ls)
    decreases |ls|
  {
    TotalAppend(words, current);
    if ls != [] {
      match ls[0]
      case End(_) =>
      case Escape(text) => WordsAreBounded(ls[1..], words, if text == "" then current else current + text[1..]);
      case Mark(_) => WordsAreBounded(ls[1..], words, current);
      case Plain(c, within) =>
        if within.None? && IsSpace(c) {
          WordsAreBounded(ls[1..], Push(words, current), "");
        } else {
          WordsAreBounded(ls[1..], words, current + [c]);
        }
    }
  }

  lemma {:induction false} PiecesAreBounded(ls: seq<Lexeme>, parts: seq<string>, current: string)
    ensures Total(PiecesOf(ls, parts, current)) <= Total(parts) + |current| + Size(ls)
    decreases |ls|
  {
    TotalAppend(parts, current);
    if ls != [] {
      match ls[0]
      case End(_) =>
      case Escape(text) => PiecesAreBounded(ls[1..], parts, current + text);
      case Mark(quote) => PiecesAreBounded(ls[1..], parts, current + [quote]);
      case Plain(c, within) =>
        if within.None? && |ls| > 1 && ls[1].Plain? && [c, ls[1].c] in SEPARATORS {
          assert ls[1..][0] == ls[1] && ls[1..][1..] == ls[2..];
          PiecesAreBounded(ls[2..], parts + [current], "");
        } else if within.None? && [c] in SEPARATORS {
          PiecesAreBounded(ls[1..], parts + [current], "");
        } else {
          PiecesAreBounded(ls[1..], parts, current + [c]);
        }
    }
  }

  lemma {:induction false} ArgvIsASuffix(argv: seq<string>) returns (k: nat)
    ensures k <= |argv| && StripEnv(argv) == argv[k..]
  {
    if argv != [] && IsAssignment(argv[0]) {
      k := ArgvIsASuffix(argv[1..]);
      assert argv[1..][k..] == argv[k + 1..];
      k := k + 1;
    } else {
      k := 0;
    }
  }

  lemma TrimIsShorter(s: string)
    ensures |Trim(s)| <= |s|
  {
    TrimStartIsShorter(s);
  }

  lemma {:induction false} TrimStartIsShorter(s: string)
    ensures |TrimStart(s)| <= |s|
  {
    if s != "" && IsSpace(s[0]) { TrimStartIsShorter(s[1..]); }
  }

  /** No piece is longer than the command, and a nested script is shorter than its piece. */
  lemma SegmentsShrink(command: string)
    ensures forall raw :: raw in Pieces(command) ==> |raw| <= |command|
  {
    LexCoversAll(command, None);
    PiecesAreBounded(Lex(command, None), [], "");
    forall raw | raw in Pieces(command) ensures |raw| <= |command| {
      var i :| 0 <= i < |Pieces(command)| && Pieces(command)[i] == raw;
      PartIsWithinTotal(Pieces(command), i, i);
    }
  }

  lemma NestedScriptIsShorter(raw: string)
    requires Nests(Argv(raw))
    ensures |Argv(raw)[2]| < |raw|
  {
    var text := Trim(raw);
    var words := Words(text);
    var k := ArgvIsASuffix(words);
    var shift := if Argv(raw) == StripEnv(words) then k else k + 1;
    assert Argv(raw) == words[shift..];
    TrimIsShorter(raw);
    LexCoversAll(text, None);
    WordsAreBounded(Lex(text, None), [], "");
    PartIsWithinTotal(words, shift, shift + 2);
  }

  /** The segments of a command; a nested script is parsed in turn. */
  function Segments(command: string): seq<Segment>
    decreases |command|, 2, 0
  {
    SegmentsShrink(command);
    SegmentsOf(|command|, Pieces(command))
  }

  function SegmentsOf(bound: nat, pieces: seq<string>): seq<Segment>
    requires forall raw :: raw in pieces ==> |raw| <= bound
    decreases bound, 1, |pieces|
  {
    if pieces == [] then [] else SegmentsOfPiece(bound, pieces[0]) + SegmentsOf(bound, pieces[1..])
  }

  function SegmentsOfPiece(bound: nat, raw: string): seq<Segment>
    requires |raw| <= bound
    decreases bound, 0, 0
  {
    var argv := Argv(raw);
    if argv == [] then []
    else if Nests(argv) then
      NestedScriptIsShorter(raw);
      Segments(argv[2])
    else [Segment(Trim(raw), argv)]
  }

  method ParseShellSegments(command: string) returns (segments: seq<Segment>)
    ensures segments == Segments(command)
    decreases |command|, 1
  {
    hide Words, Pieces, SegmentsOfPiece, StripEnv, Trim, Nests;
    SegmentsShrink(command);
    var pieces := SplitShell(command);
    segments := [];
    for i := 0 to |pieces|
      invariant Segments(command) == segments + SegmentsOf(|command|, pieces[i..])
    {
      assert pieces[i..][0] == pieces[i] && pieces[i..][1..] == pieces[i + 1..];
      var more := ParsePiece(|command|, pieces[i]);
      assert segments + (more + SegmentsOf(|command|, pieces[i + 1..])) ==
          segments + more + SegmentsOf(|command|, pieces[i + 1..]);
      segments := segments + more;
    }
  }

  method ParsePiece(ghost bound: nat, raw: string) returns (segments: seq<Segment>)
    requires |raw| <= bound
    ensures segments == SegmentsOfPiece(bound, raw)
    decreases bound, 0
  {
    hide Words, Trim, StripEnv, Segments;
    var words := ShellWords(Trim(raw));
    var argv := StripEnvAssignments(words);
    if argv == [] { return []; }
    if |argv| > 1 && argv[0] == "command" && argv[1] != "" { argv := argv[1..]; }
    assert argv == Argv(raw);
    if Nests(argv) {
      NestedScriptIsShorter(raw);
      segments := ParseShellSegments(argv[2]);
    } else {
      segments := [Segment(Trim(raw), argv)];
    }
  }
}
