/** Masking is safe: it is idempotent, touches nothing outside comments, and keeps every line. */
module CommentMaskLaws {
  import opened CommentMask

  function LineBreaks(s: string): nat { if s == "" then 0 else (if s[0] == '\n' then 1 else 0) + LineBreaks(s[1..]) }

  lemma {:induction false} LineBreaksAppend(a: string, b: string)
    ensures LineBreaks(a + b) == LineBreaks(a) + LineBreaks(b)
  {
    if a == "" {
      assert a + b == b;
    } else {
      assert (a + b)[0] == a[0] && (a + b)[1..] == a[1..] + b;
      LineBreaksAppend(a[1..], b);
    }
  }

  lemma Pair(s: string, a: char, b: char)
    ensures StartsWith(s, [a, b]) <==> |s| >= 2 && s[0] == a && s[1] == b
  {
    if |s| >= 2 { assert s[..2] == [s[0], s[1]]; }
  }

  lemma Delimiters(s: string)
    ensures StartsWith(s, "//") <==> |s| >= 2 && s[0] == '/' && s[1] == '/'
    ensures StartsWith(s, "/*") <==> |s| >= 2 && s[0] == '/' && s[1] == '*'
    ensures StartsWith(s, "*/") <==> |s| >= 2 && s[0] == '*' && s[1] == '/'
  {
    Pair(s, '/', '/');
    Pair(s, '/', '*');
    Pair(s, '*', '/');
    assert ['/', '/'] == "//" && ['/', '*'] == "/*" && ['*', '/'] == "*/";
  }

  // ---- Go --------------------------------------------------------------------------------------

  /** Some comment starts outside literals. */
  predicate HasComment(s: string, mode: Mode)
    requires mode.Code? || mode.Literal?
    decreases |s|
  {
    s != ""
    && match mode
       case Code => StartsWith(s, "//") || StartsWith(s, "/*") || HasComment(s[1..], AfterCode(s[0]))
       case Literal(quote, escaped) => HasComment(s[1..], InLiteral(quote, escaped, s[0]))
  }

  /** The characters outside comments. */
  function Outside(s: string, mode: Mode): string
    decreases |s|, if mode.Line? then 1 else 0
  {
    if s == "" then ""
    else
      match mode
      case Block => if StartsWith(s, "*/") then Outside(s[2..], Code) else Outside(s[1..], Block)
      case Line => if s[0] == '\n' then Outside(s, Code) else Outside(s[1..], Line)
      case Literal(quote, escaped) => [s[0]] + Outside(s[1..], InLiteral(quote, escaped, s[0]))
      case Code =>
        if StartsWith(s, "//") then Outside(s[1..], Line)
        else if StartsWith(s, "/*") then Outside(s[2..], Block)
        else [s[0]] + Outside(s[1..], AfterCode(s[0]))
  }

  /** What is left of a text without spaces and line breaks. */
  function Visible(s: string): string {
    if s == "" then "" else (if s[0] == ' ' || s[0] == '\n' then "" else [s[0]]) + Visible(s[1..])
  }

  lemma {:induction false} VisibleAppend(a: string, b: string)
    ensures Visible(a + b) == Visible(a) + Visible(b)
  {
    if a == "" {
      assert a + b == b && "" + Visible(b) == Visible(b);
    } else {
      assert (a + b)[0] == a[0] && (a + b)[1..] == a[1..] + b;
      VisibleAppend(a[1..], b);
      Associate(if a[0] == ' ' || a[0] == '\n' then "" else [a[0]], Visible(a[1..]), Visible(b));
    }
  }

  lemma {:induction false} SpacesVanish(n: nat)
    ensures Visible(Spaces(n)) == "" && LineBreaks(Spaces(n)) == 0
  {
    if n > 0 {
      SpacesVanish(n - 1);
      assert (" " + Spaces(n - 1))[1..] == Spaces(n - 1);
    }
  }

  lemma SingleVisible(c: char)
    ensures Visible([c]) == (if c == ' ' || c == '\n' then "" else [c]) && LineBreaks([c]) == if c == '\n' then 1 else 0
  {
    assert [c][1..] == "";
  }

  /** Masking keeps exactly the visible text outside comments. */
  lemma {:induction false} VisibleIsOutside(s: string, mode: Mode)
    ensures Visible(MaskGo(s, mode)) == Visible(Outside(s, mode))
    decreases |s|, if mode.Line? then 1 else 0
  {
    if s != "" {
      var (emitted, read, next) := Step(s, mode);
      MaskGoStep(s, mode);
      VisibleIsOutside(s[read..], next);
      VisibleAppend(emitted, MaskGo(s[read..], next));
      OutsideStep(s, mode);
      VisibleAppend(if mode.Literal? || (mode.Code? && next != Line && next != Block) then [s[0]]
                    else "", Outside(s[read..], next));
      EmittedVisible(s, mode);
    }
  }

  lemma OutsideStep(s: string, mode: Mode)
    requires s != ""
    ensures var (_, read, next) := Step(s, mode);
      read <= |s| && Outside(s, mode)
        == (if mode.Literal? || (mode.Code? && next != Line && next != Block) then [s[0]]
            else "") + Outside(s[read..], next)
  {
    var (_, read, next) := Step(s, mode);
    MaskGoStep(s, mode);
    assert "" + Outside(s[read..], next) == Outside(s[read..], next) && s[0..] == s;
  }

  lemma EmittedVisible(s: string, mode: Mode)
    requires s != ""
    ensures var (emitted, _, next) := Step(s, mode);
      Visible(emitted) == Visible(if mode.Literal? || (mode.Code? && next != Line && next != Block) then [s[0]] else "")
  {
    SpacesVanish(Utf8Width(s[0]));
    SingleVisible(' ');
    SingleVisible(Blank(s[0]));
  }

  /** The number of line breaks is kept. */
  lemma {:induction false} GoKeepsLines(s: string, mode: Mode)
    ensures LineBreaks(MaskGo(s, mode)) == LineBreaks(s)
    decreases |s|, if mode.Line? then 1 else 0
  {
    if s != "" {
      var (emitted, read, next) := Step(s, mode);
      MaskGoStep(s, mode);
      GoKeepsLines(s[read..], next);
      LineBreaksAppend(emitted, MaskGo(s[read..], next));
      LineBreaksAppend(s[..read], s[read..]);
      assert s == s[..read] + s[read..];
      EmittedLines(s, mode);
    }
  }

  lemma EmittedLines(s: string, mode: Mode)
    requires s != "" && Step(s, mode).1 <= |s|
    ensures LineBreaks(Step(s, mode).0) == LineBreaks(s[..Step(s, mode).1])
  {
    SpacesVanish(Utf8Width(s[0]));
    SingleVisible(' ');
    SingleVisible(s[0]);
    SingleVisible(Blank(s[0]));
    assert s[..1] == [s[0]] && s[..0] == "";
    Delimiters(s);
    if |s| >= 2 {
      SingleVisible(s[1]);
      LineBreaksAppend([s[0]], [s[1]]);
      assert s[..2] == [s[0]] + [s[1]];
    }
  }

  /** A text is unchanged exactly when it has no comment. */
  lemma {:induction false} UnchangedIffNoComment(s: string, mode: Mode)
    requires mode.Code? || mode.Literal?
    ensures MaskGo(s, mode) == s <==> !HasComment(s, mode)
    decreases |s|
  {
    if s != "" {
      assert s == [s[0]] + s[1..];
      if mode.Code? && (StartsWith(s, "//") || StartsWith(s, "/*")) {
        Delimiters(s);
        assert MaskGo(s, mode)[0] == ' ' by { MaskGoStep(s, mode); }
      } else {
        var next := if mode.Code? then AfterCode(s[0]) else InLiteral(mode.quote, mode.escaped, s[0]);
        UnchangedIffNoComment(s[1..], next);
        assert MaskGo(s, mode) == [s[0]] + MaskGo(s[1..], next);
        assert MaskGo(s, mode)[1..] == MaskGo(s[1..], next);
      }
    }
  }

  /** The mode a masked text is read back in: comments are gone. */
  function ReadBack(mode: Mode): Mode { if mode.Line? || mode.Block? then Code else mode }

  lemma {:induction false} SpacesPass(n: nat, t: string)
    ensures MaskGo(Spaces(n) + t, Code) == Spaces(n) + MaskGo(t, Code)
  {
    if n == 0 {
      assert "" + t == t && "" + MaskGo(t, Code) == MaskGo(t, Code);
    } else {
      var rest := Spaces(n - 1) + t;
      assert Spaces(n) + t == " " + rest;
      PlainPasses(' ', rest);
      SpacesPass(n - 1, t);
      Associate(" ", Spaces(n - 1), MaskGo(t, Code));
    }
  }

  /** A character that does not open a comment here is copied. */
  lemma PlainPasses(c: char, t: string)
    requires c == '/' ==> t == "" || (t[0] != '/' && t[0] != '*')
    ensures MaskGo([c] + t, Code) == [c] + MaskGo(t, AfterCode(c))
  {
    var s := [c] + t;
    assert s[0] == c && s[1..] == t;
    Delimiters(s);
  }

  lemma LiteralPasses(quote: char, escaped: bool, c: char, t: string)
    ensures MaskGo([c] + t, Literal(quote, escaped)) == [c] + MaskGo(t, InLiteral(quote, escaped, c))
  {
    assert ([c] + t)[1..] == t;
  }

  /** Masked code starts as the code does, unless a comment does. */
  lemma FirstStays(s: string)
    requires s != "" && s[0] != '/'
    ensures MaskGo(s, Code) != "" && MaskGo(s, Code)[0] == s[0]
  {
    Delimiters(s);
  }

  lemma {:induction false} MaskedStays(s: string, mode: Mode)
    ensures MaskGo(MaskGo(s, mode), ReadBack(mode)) == MaskGo(s, mode)
    decreases |s|, if mode.Line? then 1 else 0
  {
    if s != "" {
      var (emitted, read, next) := Step(s, mode);
      MaskGoStep(s, mode);
      var t := MaskGo(s[read..], next);
      MaskedStays(s[read..], next);
      EmittedPasses(s, mode);
    }
  }

  lemma EmittedPasses(s: string, mode: Mode)
    requires s != ""
    ensures var (emitted, read, next) := Step(s, mode);
      read <= |s| && var t := MaskGo(s[read..], next);
          MaskGo(emitted + t, ReadBack(mode)) == emitted + MaskGo(t, ReadBack(next))
  {
    var (emitted, read, next) := Step(s, mode);
    MaskGoStep(s, mode);
    var t := MaskGo(s[read..], next);
    match mode
    case Block => PlainPasses(if StartsWith(s, "*/") then ' ' else Blank(s[0]), t);
    case Line =>
      if s[0] == '\n' {
        assert "" + t == t && "" + MaskGo(t, Code) == MaskGo(t, Code);
      } else {
        SpacesPass(Utf8Width(s[0]), t);
      }
    case Literal(quote, escaped) => LiteralPasses(quote, escaped, s[0], t);
    case Code =>
      if StartsWith(s, "//") {
        SpacesPass(Utf8Width(s[0]), t);
      } else if StartsWith(s, "/*") {
        PlainPasses(' ', t);
      } else {
        CopiedPasses(s);
      }
  }

  lemma CopiedPasses(s: string)
    requires s != "" && !StartsWith(s, "//") && !StartsWith(s, "/*")
    ensures var t := MaskGo(s[1..], AfterCode(s[0])); MaskGo([s[0]] + t, Code) == [s[0]] + MaskGo(t, AfterCode(s[0]))
  {
    var t := MaskGo(s[1..], AfterCode(s[0]));
    Delimiters(s);
    if s[0] == '/' && |s| > 1 { FirstStays(s[1..]); }
    PlainPasses(s[0], t);
  }

  /** Masking Go comments twice is masking them once. */
  lemma GoIsIdempotent(s: string)
    ensures MaskGo(MaskGo(s, Code), Code) == MaskGo(s, Code)
  {
    MaskedStays(s, Code);
  }

  // ---- XML ---------------------------------------------------------------------------------------

  lemma BlankAllAt(s: string, i: nat)
    requires i < |s|
    ensures |BlankAll(s)| == |s| && BlankAll(s)[i] == Blank(s[i])
    decreases |s|
  {
    if i > 0 { BlankAllAt(s[1..], i - 1); } else if |s| > 1 { BlankAllAt(s[1..], 0); }
  }

  lemma {:induction false} BlankAllLength(s: string)
    ensures |BlankAll(s)| == |s| && LineBreaks(BlankAll(s)) == LineBreaks(s)
  {
    if s != "" {
      BlankAllLength(s[1..]);
      LineBreaksAppend([Blank(s[0])], BlankAll(s[1..]));
      SingleVisible(Blank(s[0]));
    }
  }

  /** One step of the XML automaton: how much it reads and where it is then. */
  function XmlStep(s: string, inside: bool): (nat, bool)
    requires s != ""
  {
    if inside then if StartsWith(s, CLOSER) then (3, false) else (1, true)
    else if StartsWith(s, OPENER) then (4, true) else (1, false)
  }

  /** Whether the character at a position belongs to a comment. */
  predicate InComment(s: string, inside: bool, k: nat)
    requires k < |s|
    decreases |s|
  {
    var (read, next) := XmlStep(s, inside);
    if k < read then inside || read == 4 else InComment(s[read..], next, k - read)
  }

  lemma MaskXmlStep(s: string, inside: bool)
    requires s != ""
    ensures var (read, next) := XmlStep(s, inside);
      read <= |s| && MaskXml(s, inside) == (if inside || read == 4 then BlankAll(s[..read])
                                            else s[..read]) + MaskXml(s[read..], next)
  {
    assert s[..1] == [s[0]] && [s[0]][1..] == "" && BlankAll([s[0]]) == [Blank(s[0])];
  }

  /** Every character keeps its position: outside comments it stays, inside it becomes a space or stays a line break. */
  lemma {:induction false} XmlKeepsPositions(s: string, inside: bool, k: nat)
    requires k < |s|
    ensures |MaskXml(s, inside)| == |s|
    ensures MaskXml(s, inside)[k] == if InComment(s, inside, k) then Blank(s[k]) else s[k]
    decreases |s|
  {
    var (read, next) := XmlStep(s, inside);
    MaskXmlStep(s, inside);
    XmlKeepsLength(s, inside);
    XmlKeepsLength(s[read..], next);
    BlankAllLength(s[..read]);
    if k < read {
      BlankAllAt(s[..read], k);
    } else {
      XmlKeepsPositions(s[read..], next, k - read);
    }
  }

  lemma {:induction false} XmlKeepsLength(s: string, inside: bool)
    ensures |MaskXml(s, inside)| == |s| && LineBreaks(MaskXml(s, inside)) == LineBreaks(s)
    decreases |s|
  {
    if s != "" {
      var (read, next) := XmlStep(s, inside);
      MaskXmlStep(s, inside);
      XmlKeepsLength(s[read..], next);
      BlankAllLength(s[..read]);
      LineBreaksAppend(BlankAll(s[..read]), MaskXml(s[read..], next));
      LineBreaksAppend(s[..read], MaskXml(s[read..], next));
      LineBreaksAppend(s[..read], s[read..]);
      assert s == s[..read] + s[read..];
    }
  }

  lemma {:induction false} OpenersAreInComments(s: string, inside: bool, k: nat)
    requires k < |s| && StartsWith(s[k..], OPENER)
    ensures InComment(s, inside, k)
    decreases |s|
  {
    var (read, next) := XmlStep(s, inside);
    MaskXmlStep(s, inside);
    if k < read {
      if k == 0 { assert s[0..] == s; }
    } else {
      Tails(s, read, k - read);
      OpenersAreInComments(s[read..], next, k - read);
    }
  }

  lemma OpenerChars(s: string)
    ensures StartsWith(s, OPENER) <==> |s| >= 4 && s[0] == '<' && s[1] == '!' && s[2] == '-' && s[3] == '-'
  {
    if |s| >= 4 { assert s[..4] == [s[0], s[1], s[2], s[3]]; }
    assert OPENER == ['<', '!', '-', '-'];
  }

  /** A visible character of a masked text is the original one, outside comments. */
  lemma VisibleIsOriginal(s: string, inside: bool, k: nat, c: char)
    requires k < |s| && c != ' ' && c != '\n'
    ensures |MaskXml(s, inside)| == |s| && (MaskXml(s, inside)[k] == c ==> s[k] == c && !InComment(s, inside, k))
  {
    XmlKeepsPositions(s, inside, k);
  }

  lemma NoOpenerAt(s: string, inside: bool, k: nat)
    requires k <= |s|
    ensures |MaskXml(s, inside)| == |s| && !StartsWith(MaskXml(s, inside)[k..], OPENER)
  {
    hide MaskXml, InComment, StartsWith;
    var out := MaskXml(s, inside);
    XmlKeepsLength(s, inside);
    OpenerChars(out[k..]);
    OpenerChars(s[k..]);
    if k + 4 <= |s| {
      VisibleIsOriginal(s, inside, k, '<');
      VisibleIsOriginal(s, inside, k + 1, '!');
      VisibleIsOriginal(s, inside, k + 2, '-');
      VisibleIsOriginal(s, inside, k + 3, '-');
      if StartsWith(s[k..], OPENER) { OpenersAreInComments(s, inside, k); }
    }
  }

  /** No masked text holds a comment opener. */
  lemma NoOpenerLeft(s: string, inside: bool)
    ensures Find(MaskXml(s, inside), OPENER).None?
  {
    hide MaskXml, InComment, StartsWith, Find, Absent;
    var found := Find(MaskXml(s, inside), OPENER);
    XmlKeepsLength(s, inside);
    if found.Some? { NoOpenerAt(s, inside, found.value); }
  }

  /** Masking XML comments twice is masking them once. */
  lemma XmlIsIdempotent(s: string)
    ensures MaskXml(MaskXml(s, false), false) == MaskXml(s, false)
  {
    NoOpenerLeft(s, false);
    NoOpenerNoMask(MaskXml(s, false));
  }

  /** A text is unchanged exactly when it has no comment opener. */
  lemma XmlUnchangedIffNoOpener(s: string)
    ensures MaskXml(s, false) == s <==> Find(s, OPENER).None?
  {
    NoOpenerLeft(s, false);
    if Find(s, OPENER).None? { NoOpenerNoMask(s); }
  }
}
