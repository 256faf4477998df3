/** Comment masking before workspace evidence is read from Go and XML sources. Strings are
    sequences of characters; where the source counts bytes, the UTF-8 width is counted. */
module CommentMask {
  import opened Wrappers

  function Utf8Width(c: char): (r: nat)
    ensures 1 <= r <= 4
  {
    var n := c as int;
    if n < 0x80 then 1 else if n < 0x800 then 2 else if n < 0x10000 then 3 else 4
  }

  function Spaces(n: nat): (r: string)
    ensures |r| == n && forall c :: c in r ==> c == ' '
  {
    if n == 0 then "" else " " + Spaces(n - 1)
  }

  function Blank(c: char): char { if c == '\n' then '\n' else ' ' }

  predicate StartsWith(s: string, prefix: string) { |prefix| <= |s| && s[..|prefix|] == prefix }

  // ---- Go --------------------------------------------------------------------------------------

  datatype Mode = Code | Literal(quote: char, escaped: bool) | Line | Block

  /** The mode after a character of a literal. */
  function InLiteral(quote: char, escaped: bool, c: char): Mode {
    if escaped then Literal(quote, false)
    else if c == '\\' && quote != '`' then Literal(quote, true)
    else if c == quote then Code
    else Literal(quote, false)
  }

  function AfterCode(c: char): Mode { if c == '\'' || c == '"' || c == '`' then Literal(c, false) else Code }

  /** Comment text becomes spaces, line breaks stay, everything else is copied. */
  function MaskGo(s: string, mode: Mode): string
    decreases |s|, if mode.Line? then 1 else 0
  {
    if s == "" then ""
    else
      match mode
      case Block => if StartsWith(s, "*/") then " " + MaskGo(s[2..], Code) else [Blank(s[0])] + MaskGo(s[1..], Block)
      case Line => if s[0] == '\n' then MaskGo(s, Code) else Spaces(Utf8Width(s[0])) + MaskGo(s[1..], Line)
      case Literal(quote, escaped) => [s[0]] + MaskGo(s[1..], InLiteral(quote, escaped, s[0]))
      case Code =>
        if StartsWith(s, "//") then Spaces(Utf8Width(s[0])) + MaskGo(s[1..], Line)
        else if StartsWith(s, "/*") then " " + MaskGo(s[2..], Block)
        else [s[0]] + MaskGo(s[1..], AfterCode(s[0]))
  }

  /** One step of the masking: what it emits, how much it reads, and the mode it leaves. */
  function Step(s: string, mode: Mode): (string, nat, Mode)
    requires s != ""
  {
    match mode
    case Block => if StartsWith(s, "*/") then (" ", 2, Code) else ([Blank(s[0])], 1, Block)
    case Line => if s[0] == '\n' then ("", 0, Code) else (Spaces(Utf8Width(s[0])), 1, Line)
    case Literal(quote, escaped) => ([s[0]], 1, InLiteral(quote, escaped, s[0]))
    case Code =>
      if StartsWith(s, "//") then (Spaces(Utf8Width(s[0])), 1, Line)
      else if StartsWith(s, "/*") then (" ", 2, Block)
      else ([s[0]], 1, AfterCode(s[0]))
  }

  lemma MaskGoStep(s: string, mode: Mode)
    requires s != ""
    ensures Step(s, mode).1 <= |s| && MaskGo(s, mode) == Step(s, mode).0 + MaskGo(s[Step(s, mode).1..], Step(s, mode).2)
  {
    assert "" + MaskGo(s, Code) == MaskGo(s, Code) && s[0..] == s;
  }

  lemma Emitted(output: string, s: string, mode: Mode)
    requires s != ""
    ensures Step(s, mode).1 <= |s|
    ensures output + MaskGo(s, mode) == (output + Step(s, mode).0) + MaskGo(s[Step(s, mode).1..], Step(s, mode).2)
  {
    MaskGoStep(s, mode);
    var (emitted, read, next) := Step(s, mode);
    hide MaskGo, Step;
    assert output + (emitted + MaskGo(s[read..], next)) == (output + emitted) + MaskGo(s[read..], next);
  }

  function ModeOf(quote: Option<char>, escaped: bool, blockComment: bool): Mode {
    if blockComment then Block else if quote.Some? then Literal(quote.value, escaped) else Code
  }

  method StripGoComments(text: string) returns (output: string)
    ensures output == MaskGo(text, Code)
  {
    hide MaskGo;
    output := "";
    var index := 0;
    var quote: Option<char> := None;
    var escaped, blockComment := false, false;
    assert text[0..] == text;
    while index < |text|
      invariant 0 <= index <= |text|
      invariant (blockComment ==> quote.None?) && (quote.None? ==> !escaped)
      invariant MaskGo(text, Code) == output + MaskGo(text[index..], ModeOf(quote, escaped, blockComment))
    {
      var c := text[index];
      var rest := text[index..];
      assert rest[1..] == text[index + 1..] && (|rest| > 1 ==> rest[2..] == text[index + 2..]);
      Emitted(output, rest, ModeOf(quote, escaped, blockComment));
      if blockComment {
        if StartsWith(rest, "*/") {
          blockComment := false;
          output := output + " ";
          index := index + 2;
        } else {
          output := output + [Blank(c)];
          index := index + 1;
        }
        continue;
      }
      if quote.Some? {
        output := output + [c];
        if escaped {
          escaped := false;
        } else if c == '\\' && quote.value != '`' {
          escaped := true;
        } else if c == quote.value {
          quote := None;
        }
        index := index + 1;
        continue;
      }
      if StartsWith(rest, "//") {
        output, index := MaskLine(text, index, output);
        continue;
      }
      if StartsWith(rest, "/*") {
        blockComment := true;
        output := output + " ";
        index := index + 2;
        continue;
      }
      if c == '\'' || c == '"' || c == '`' { quote := Some(c); }
      output := output + [c];
      index := index + 1;
    }
    assert text[index..] == "" && MaskGo("", ModeOf(quote, escaped, blockComment)) == "" by {
      MaskNothing(ModeOf(quote, escaped, blockComment));
    }
  }

  lemma MaskNothing(mode: Mode)
    ensures MaskGo("", mode) == ""
  {}

  /** The rest of a line comment, up to but not including the line break. */
  method MaskLine(text: string, start: nat, before: string) returns (output: string, index: nat)
    requires start < |text| && StartsWith(text[start..], "//")
    ensures start < index <= |text|
    ensures before + MaskGo(text[start..], Code) == output + MaskGo(text[index..], Code)
  {
    hide MaskGo;
    output, index := before, start;
    assert MaskGo(text[start..], Code) == MaskGo(text[start..], Line) by { LineFromCode(text[start..]); }
    while index < |text| && text[index] != '\n'
      invariant start <= index <= |text|
      invariant index == start ==> text[index] == '/'
      invariant before + MaskGo(text[start..], Code) == output + MaskGo(text[index..], Line)
    {
      assert text[index..][1..] == text[index + 1..];
      Emitted(output, text[index..], Line);
      output := output + Spaces(Utf8Width(text[index]));
      index := index + 1;
    }
    LineEnds(text[index..]);
  }

  lemma LineFromCode(s: string)
    requires StartsWith(s, "//")
    ensures MaskGo(s, Code) == MaskGo(s, Line) && s[0] == '/'
  {
    assert s[..2][0] == s[0];
  }

  lemma LineEnds(s: string)
    requires s == "" || s[0] == '\n'
    ensures MaskGo(s, Line) == MaskGo(s, Code)
  {}

  // ---- XML -------------------------------------------------------------------------------------

  /** The pattern starts at none of the first n positions. */
  ghost predicate Absent(s: string, pattern: string, n: nat)
    requires n <= |s| + 1
  {
    forall i :: 0 <= i < n && i <= |s| ==> !StartsWith(s[i..], pattern)
  }

  lemma AbsentCons(s: string, pattern: string, n: nat)
    requires s != "" && n <= |s|
    ensures Absent(s, pattern, n + 1) <==> !StartsWith(s, pattern) && Absent(s[1..], pattern, n)
  {
    assert s[0..] == s;
    assert forall i :: 0 <= i < |s| ==> s[1..][i..] == s[i + 1..];
    if Absent(s, pattern, n + 1) {
      forall i | 0 <= i < n && i <= |s[1..]|
        ensures !StartsWith(s[1..][i..], pattern) { assert !StartsWith(s[i + 1..], pattern); }
    }
    if !StartsWith(s, pattern) && Absent(s[1..], pattern, n) {
      forall i | 0 <= i < n + 1 && i <= |s| ensures !StartsWith(s[i..], pattern) {
        if i > 0 { assert !StartsWith(s[1..][i - 1..], pattern); }
      }
    }
  }

  /** Where the pattern first occurs. */
  function Find(s: string, pattern: string): (r: Option<nat>)
    ensures r.Some? ==> r.value + |pattern| <= |s| && StartsWith(s[r.value..], pattern) && Absent(s, pattern, r.value)
    ensures r.None? ==> Absent(s, pattern, |s| + 1)
    decreases |s|
  {
    if StartsWith(s, pattern) then
      assert s[0..] == s;
      Some(0)
    else if s == "" then
      assert s[0..] == s;
      None
    else
      hide StartsWith, Absent;
      var rest := Find(s[1..], pattern);
      AbsentCons(s, pattern, if rest.Some? then rest.value else |s|);
      if rest.None? then None
      else
        assert s[1..][rest.value..] == s[rest.value + 1..];
        Some(rest.value + 1)
  }

  function BlankAll(s: string): string { if s == "" then "" else [Blank(s[0])] + BlankAll(s[1..]) }

  const OPENER := "<!--"
  const CLOSER := "-->"

  /** The automaton: inside a comment everything is blanked, up to and including its closer. */
  function MaskXml(s: string, inside: bool): string {
    if s == "" then ""
    else if inside then
      if StartsWith(s, CLOSER) then BlankAll(s[..3]) + MaskXml(s[3..], false) else [Blank(s[0])] + MaskXml(s[1..], true)
    else if StartsWith(s, OPENER) then BlankAll(s[..4]) + MaskXml(s[4..], true)
    else [s[0]] + MaskXml(s[1..], false)
  }

  lemma Associate(a: string, b: string, c: string)
    ensures a + (b + c) == (a + b) + c
  {}

  lemma Slices(s: string, k: nat)
    requires 0 < k <= |s|
    ensures s[1..][k - 1..] == s[k..] && s[..k] == [s[0]] + s[1..][..k - 1] && s[..k][1..] == s[1..][..k - 1]
  {}

  lemma Subslices(s: string, k: nat, n: nat)
    requires k <= n <= |s|
    ensures s[..n][..k] == s[..k] && s[..n][k..] == s[k..][..n - k] && s[k..][n - k..] == s[n..]
    ensures s[k..][..n - k] == s[k..n]
  {}

  lemma Tails(s: string, a: nat, b: nat)
    requires a + b <= |s|
    ensures s[a..][b..] == s[a + b..] && s[a..][..b] == s[a..a + b]
  {}

  lemma Whole(s: string)
    ensures s[0..] == s && s[..0] == "" && s[..|s|] == s && s[|s|..] == ""
  {}

  lemma {:induction false} BlankSplit(s: string, k: nat)
    requires k <= |s|
    ensures BlankAll(s) == BlankAll(s[..k]) + BlankAll(s[k..])
    decreases k
  {
    if k == 0 {
      Whole(s);
    } else {
      BlankSplit(s[1..], k - 1);
      Slices(s, k);
      Associate([Blank(s[0])], BlankAll(s[1..][..k - 1]), BlankAll(s[k..]));
    }
  }

  lemma {:induction false} CopiedUpTo(s: string, k: nat)
    requires k <= |s| && Absent(s, OPENER, k)
    ensures MaskXml(s, false) == s[..k] + MaskXml(s[k..], false)
    decreases k
  {
    hide Absent;
    if k == 0 {
      Whole(s);
    } else {
      AbsentCons(s, OPENER, k - 1);
      assert MaskXml(s, false) == [s[0]] + MaskXml(s[1..], false);
      hide MaskXml, StartsWith;
      CopiedUpTo(s[1..], k - 1);
      Slices(s, k);
      Associate([s[0]], s[1..][..k - 1], MaskXml(s[k..], false));
    }
  }

  lemma {:induction false} BlankedUpTo(s: string, k: nat)
    requires k <= |s| && Absent(s, CLOSER, k)
    ensures MaskXml(s, true) == BlankAll(s[..k]) + MaskXml(s[k..], true)
    decreases k
  {
    hide Absent;
    if k == 0 {
      Whole(s);
    } else {
      AbsentCons(s, CLOSER, k - 1);
      assert MaskXml(s, true) == [Blank(s[0])] + MaskXml(s[1..], true);
      hide MaskXml, StartsWith;
      BlankedUpTo(s[1..], k - 1);
      Slices(s, k);
      Associate([Blank(s[0])], BlankAll(s[1..][..k - 1]), MaskXml(s[k..], true));
    }
  }

  lemma AtCloser(s: string)
    requires StartsWith(s, CLOSER)
    ensures 3 <= |s| && MaskXml(s, true) == BlankAll(s[..3]) + MaskXml(s[3..], false)
  {}

  lemma AtOpener(s: string)
    requires StartsWith(s, OPENER)
    ensures 4 <= |s| && MaskXml(s, false) == BlankAll(s[..4]) + MaskXml(s[4..], true)
  {}

  /** From inside a comment to behind its closer. */
  lemma CloserIsBlanked(comment: string, end: nat)
    requires Find(comment, CLOSER) == Some(end)
    ensures end + 3 <= |comment|
    ensures MaskXml(comment, true) == BlankAll(comment[..end + 3]) + MaskXml(comment[end + 3..], false)
  {
    hide Absent, Find, MaskXml, StartsWith, BlankAll;
    var n := end + 3;
    BlankedUpTo(comment, end);
    AtCloser(comment[end..]);
    BlankSplit(comment[..n], end);
    Subslices(comment, end, n);
    Associate(BlankAll(comment[..end]), BlankAll(comment[end..][..3]), MaskXml(comment[n..], false));
  }

  /** The opener, then everything up to the first closer, then the closer. */
  lemma ClosedComment(s: string, end: nat)
    requires StartsWith(s, OPENER) && 4 <= |s| && Find(s[4..], CLOSER) == Some(end)
    ensures 4 + end + 3 <= |s| && MaskXml(s, false) == BlankAll(s[..4 + end + 3]) + MaskXml(s[4 + end + 3..], false)
  {
    hide Absent, Find, MaskXml, StartsWith, BlankAll;
    var n := 4 + end + 3;
    AtOpener(s);
    CloserIsBlanked(s[4..], end);
    BlankSplit(s[..n], 4);
    Subslices(s, 4, n);
    Associate(BlankAll(s[..4]), BlankAll(s[4..][..end + 3]), MaskXml(s[n..], false));
  }

  lemma AbsentLess(s: string, pattern: string, n: nat)
    requires n <= |s| && Absent(s, pattern, |s| + 1)
    ensures Absent(s, pattern, n)
  {}

  lemma OpenComment(s: string)
    requires StartsWith(s, OPENER) && 4 <= |s| && Find(s[4..], CLOSER).None?
    ensures MaskXml(s, false) == BlankAll(s)
  {
    hide Absent, Find, StartsWith, BlankAll;
    var comment := s[4..];
    AtOpener(s);
    AbsentLess(comment, CLOSER, |comment|);
    BlankedUpTo(comment, |comment|);
    Whole(comment);
    BlankSplit(s, 4);
    assert MaskXml("", true) == "" && BlankAll(comment) + "" == BlankAll(comment);
  }

  lemma NoOpenerNoMask(s: string)
    requires Find(s, OPENER).None?
    ensures MaskXml(s, false) == s
  {
    hide Absent, Find, StartsWith;
    AbsentLess(s, OPENER, |s|);
    CopiedUpTo(s, |s|);
    Whole(s);
    assert MaskXml("", false) == "" && s + "" == s;
  }

  lemma OpenerFits(rest: string, start: nat)
    requires Find(rest, OPENER) == Some(start)
    ensures start + 4 <= |rest| && StartsWith(rest[start..], OPENER) && Absent(rest, OPENER, start)
  {
    hide Find, Absent, StartsWith;
  }

  /** The masked text from an opener on: its comment, and what follows its closer. */
  lemma FromOpener(rest: string, start: nat, end: nat)
    requires Find(rest, OPENER) == Some(start) && start + 4 <= |rest| && Find(rest[start + 4..], CLOSER) == Some(end)
    ensures start + 4 + end + 3 <= |rest|
    ensures MaskXml(rest[start..], false)
         == BlankAll(rest[start..start + 4 + end + 3]) + MaskXml(rest[start + 4 + end + 3..], false)
  {
    hide *;
    OpenerFits(rest, start);
    Tails(rest, start, 4);
    ClosedComment(rest[start..], end);
    Tails(rest, start, 4 + end + 3);
  }

  lemma FromLastOpener(rest: string, start: nat)
    requires Find(rest, OPENER) == Some(start) && start + 4 <= |rest| && Find(rest[start + 4..], CLOSER).None?
    ensures MaskXml(rest[start..], false) == BlankAll(rest[start..])
  {
    hide *;
    OpenerFits(rest, start);
    Tails(rest, start, 4);
    OpenComment(rest[start..]);
  }

  /** A turn that finds a closer appends the text before the opener and the blanked comment. */
  lemma TurnCloses(rest: string, start: nat, end: nat, output: string)
    requires Find(rest, OPENER) == Some(start) && start + 4 <= |rest| && Find(rest[start + 4..], CLOSER) == Some(end)
    ensures start + 4 + end + 3 <= |rest|
    ensures output + MaskXml(rest, false)
         == output + rest[..start] + BlankAll(rest[start..start + 4 + end + 3]) +
             MaskXml(rest[start + 4 + end + 3..], false)
  {
    hide *;
    FromOpener(rest, start, end);
    OpenerFits(rest, start);
    CopiedUpTo(rest, start);
    Regroup(output, rest[..start], BlankAll(rest[start..start + 4 + end + 3]),
        MaskXml(rest[start + 4 + end + 3..], false));
  }

  lemma Regroup(a: string, b: string, c: string, d: string)
    ensures a + (b + (c + d)) == a + b + c + d
  {}

  /** A turn that finds none blanks the rest of the text. */
  lemma TurnEnds(rest: string, start: nat, output: string)
    requires Find(rest, OPENER) == Some(start) && start + 4 <= |rest| && Find(rest[start + 4..], CLOSER).None?
    ensures output + MaskXml(rest, false) == output + rest[..start] + BlankAll(rest[start..])
  {
    hide *;
    FromLastOpener(rest, start);
    OpenerFits(rest, start);
    CopiedUpTo(rest, start);
    Associate(output, rest[..start], BlankAll(rest[start..]));
  }

  /** The searching form: find an opener, find its closer behind it, blank both and all between. */
  method StripXmlComments(text: string) returns (output: string)
    ensures output == MaskXml(text, false)
  {
    hide MaskXml, BlankAll, StartsWith, Absent, Find;
    output := "";
    var rest := text;
    var start := Find(rest, OPENER);
    while start.Some?
      invariant start == Find(rest, OPENER)
      invariant MaskXml(text, false) == output + MaskXml(rest, false)
      decreases |rest|
    {
      OpenerFits(rest, start.value);
      ghost var before := output;
      output := output + rest[..start.value];
      var comment := rest[start.value + 4..];
      var end := Find(comment, CLOSER);
      if end.None? {
        TurnEnds(rest, start.value, before);
        output := output + BlankAll(rest[start.value..]);
        rest := "";
        return;
      }
      TurnCloses(rest, start.value, end.value, before);
      output := output + BlankAll(rest[start.value..start.value + 4 + end.value + 3]);
      Subslices(rest, start.value + 4, start.value + 4 + end.value + 3);
      rest := comment[end.value + 3..];
      start := Find(rest, OPENER);
    }
    NoOpenerNoMask(rest);
    output := output + rest;
  }
}
