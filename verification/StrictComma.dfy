/** The token pass that rejects JSONC whose sibling properties or elements lack a comma. */
module StrictComma {
  import opened Wrappers

  datatype Token =
    | OpenBrace | CloseBrace | OpenBracket | CloseBracket | Colon | Comma
    | String | Word | Boolean | Number | Null
    | CommentLine | CommentBlock
  {
    predicate IsScalar() { String? || Word? || Boolean? || Number? || Null? }
  }

  datatype Entry = Entry(token: Token, start: nat)

  datatype Frame = ObjAwaitKey | ObjAwaitColon | ObjAwaitValue | ObjAwaitComma | ArrAwaitValue | ArrAwaitComma

  datatype Container = Properties | Elements

  /** Where the comma is missing, and between what. */
  datatype Violation = Violation(offset: nat, between: Container)

  // ---- Specification -----------------------------------------------------------------

  datatype Step = Continue(stack: seq<Frame>) | Missing(between: Container)

  /** One token against the stack whose last frame is the innermost container. */
  function Advance(stack: seq<Frame>, token: Token): Step {
    if stack == [] then
      Continue(if token.OpenBrace? then [ObjAwaitKey] else if token.OpenBracket? then [ArrAwaitValue] else [])
    else
      var below := stack[..|stack| - 1];
      match stack[|stack| - 1]
      case ObjAwaitKey =>
        Continue(if token.CloseBrace? then below else if token.IsScalar() then below + [ObjAwaitColon] else stack)
      case ObjAwaitColon =>
        Continue(if token.Colon? then below + [ObjAwaitValue] else stack)
      case ObjAwaitValue =>
        Continue(if token.IsScalar() then below + [ObjAwaitComma]
                 else if token.OpenBrace? then below + [ObjAwaitComma, ObjAwaitKey]
                 else if token.OpenBracket? then below + [ObjAwaitComma, ArrAwaitValue]
                 else stack)
      case ObjAwaitComma =>
        if token.Comma? then Continue(below + [ObjAwaitKey])
        else if token.CloseBrace? then Continue(below)
        else Missing(Properties)
      case ArrAwaitValue =>
        Continue(if token.CloseBracket? then below
                 else if token.IsScalar() then below + [ArrAwaitComma]
                 else if token.OpenBrace? then below + [ArrAwaitComma, ObjAwaitKey]
                 else if token.OpenBracket? then below + [ArrAwaitComma, ArrAwaitValue]
                 else stack)
      case ArrAwaitComma =>
        if token.Comma? then Continue(below + [ArrAwaitValue])
        else if token.CloseBracket? then Continue(below)
        else Missing(Elements)
  }

  function Scan(entries: seq<Entry>, stack: seq<Frame>): Option<Violation> {
    if entries == [] then None
    else
      match Advance(stack, entries[0].token)
      case Continue(next) => Scan(entries[1..], next)
      case Missing(between) => Some(Violation(entries[0].start, between))
  }

  // ---- The pass ------------------------------------------------------------------------

  /** Walk the tokens with an explicit stack of containers. */
  method StrictCommaViolation(tokens: seq<Entry>) returns (violation: Option<Violation>)
    ensures violation == Scan(tokens, [])
  {
    var stack: seq<Frame> := [];
    for i := 0 to |tokens|
      invariant Scan(tokens, []) == Scan(tokens[i..], stack)
    {
      assert tokens[i..][0] == tokens[i] && tokens[i..][1..] == tokens[i + 1..];
      var missing;
      stack, missing := Accept(stack, tokens[i].token);
      if missing.Some? {
        return Some(Violation(tokens[i].start, missing.value));
      }
    }
    violation := None;
  }

  lemma Overwritten(stack: seq<Frame>)
    requires stack != []
    ensures forall f :: stack[|stack| - 1 := f] == stack[..|stack| - 1] + [f]
    ensures forall f, g :: stack[..|stack| - 1] + [f] + [g] == stack[..|stack| - 1] + [f, g]
  {}

  /** Push, pop or overwrite the innermost frame, unless the token needed a comma before it. */
  method Accept(start: seq<Frame>, token: Token) returns (stack: seq<Frame>, missing: Option<Container>)
    ensures Advance(start, token) == if missing.Some? then Missing(missing.value) else Continue(stack)
  {
    stack, missing := start, None;
    if stack == [] {
      if token.OpenBrace? { stack := stack + [ObjAwaitKey]; }
      else if token.OpenBracket? { stack := stack + [ArrAwaitValue]; }
      return;
    }
    var top := |stack| - 1;
    Overwritten(stack);
    match stack[top]
    case ObjAwaitKey =>
      if token.CloseBrace? { stack := stack[..top]; }
      else if token.IsScalar() { stack := stack[top := ObjAwaitColon]; }
    case ObjAwaitColon =>
      if token.Colon? { stack := stack[top := ObjAwaitValue]; }
    case ObjAwaitValue =>
      if token.IsScalar() { stack := stack[top := ObjAwaitComma]; }
      else if token.OpenBrace? { stack := stack[top := ObjAwaitComma] + [ObjAwaitKey]; }
      else if token.OpenBracket? { stack := stack[top := ObjAwaitComma] + [ArrAwaitValue]; }
    case ObjAwaitComma =>
      if token.Comma? { stack := stack[top := ObjAwaitKey]; }
      else if token.CloseBrace? { stack := stack[..top]; }
      else { missing := Some(Properties); }
    case ArrAwaitValue =>
      if token.CloseBracket? { stack := stack[..top]; }
      else if token.IsScalar() { stack := stack[top := ArrAwaitComma]; }
      else if token.OpenBrace? { stack := stack[top := ArrAwaitComma] + [ObjAwaitKey]; }
      else if token.OpenBracket? { stack := stack[top := ArrAwaitComma] + [ArrAwaitValue]; }
    case ArrAwaitComma =>
      if token.Comma? { stack := stack[top := ArrAwaitValue]; }
      else if token.CloseBracket? { stack := stack[..top]; }
      else { missing := Some(Elements); }
  }
}
