/** The grammar the token pass decides, and the proof that it does. */
module StrictCommaGrammar {
  import opened Wrappers
  import opened StrictComma

  type ScalarToken = t: Token | t.IsScalar() witness Null

  /** A JSON value with the place of every token. A sibling separator is `Some` place, or dropped. */
  datatype Value =
    | Scalar(token: ScalarToken, at: nat)
    | Object(open: nat, members: Members, close: nat)
    | Array(open: nat, items: Items, close: nat)

  /** Siblings after the first carry the comma before them; the list may end in a trailing comma. */
  datatype Members =
    | NoMember(trailing: Option<nat>)
    | Member(comma: Option<nat>, key: ScalarToken, keyAt: nat, colon: nat, value: Value, rest: Members)

  datatype Items =
    | NoItem(trailing: Option<nat>)
    | Item(comma: Option<nat>, value: Value, rest: Items)

  /** A printed token, with the separator it lacks if its sibling comma was dropped. */
  datatype Mark = Mark(entry: Entry, lacks: Option<Container>)

  function One(token: Token, at: nat): seq<Mark> { [Mark(Entry(token, at), None)] }

  function Comma(at: Option<nat>): seq<Mark> {
    if at.Some? then One(Token.Comma, at.value) else []
  }

  function Print(v: Value, lacks: Option<Container>): seq<Mark> {
    match v
    case Scalar(token, at) => [Mark(Entry(token, at), lacks)]
    case Object(open, members, close) =>
      [Mark(Entry(OpenBrace, open), lacks)] + PrintMembers(members, true) + One(CloseBrace, close)
    case Array(open, items, close) =>
      [Mark(Entry(OpenBracket, open), lacks)] + PrintItems(items, true) + One(CloseBracket, close)
  }

  function PrintMembers(ms: Members, first: bool): seq<Mark> {
    match ms
    case NoMember(trailing) => if first then [] else Comma(trailing)
    case Member(comma, key, keyAt, colon, value, rest) =>
      (if first then [] else Comma(comma))
      + [Mark(Entry(key, keyAt), if first || comma.Some? then None else Some(Properties))]
      + One(Colon, colon)
      + Print(value, None)
      + PrintMembers(rest, false)
  }

  function PrintItems(items: Items, first: bool): seq<Mark> {
    match items
    case NoItem(trailing) => if first then [] else Comma(trailing)
    case Item(comma, value, rest) =>
      (if first then [] else Comma(comma))
      + Print(value, if first || comma.Some? then None else Some(Elements))
      + PrintItems(rest, false)
  }

  /** No sibling comma was dropped, at any depth. */
  predicate CommasKept(v: Value) {
    match v
    case Scalar(_, _) => true
    case Object(_, members, _) => MemberCommasKept(members, true)
    case Array(_, items, _) => ItemCommasKept(items, true)
  }

  predicate MemberCommasKept(ms: Members, first: bool) {
    ms.Member? ==> (first || ms.comma.Some?) && CommasKept(ms.value) && MemberCommasKept(ms.rest, false)
  }

  predicate ItemCommasKept(items: Items, first: bool) {
    items.Item? ==> (first || items.comma.Some?) && CommasKept(items.value) && ItemCommasKept(items.rest, false)
  }

  function Entries(marks: seq<Mark>): (r: seq<Entry>)
    ensures |r| == |marks| && forall i :: 0 <= i < |r| ==> r[i] == marks[i].entry
  {
    seq(|marks|, i requires 0 <= i < |marks| => marks[i].entry)
  }

  /** The first printed token that lacks its comma. */
  function FirstLacking(marks: seq<Mark>): Option<Violation> {
    if marks == [] then None
    else if marks[0].lacks.Some? then Some(Violation(marks[0].entry.start, marks[0].lacks.value))
    else FirstLacking(marks[1..])
  }

  /** `FirstLacking` is none when nothing lacks a comma, and else the earliest place that does. */
  lemma {:induction false} FirstLackingIsFirst(marks: seq<Mark>)
    ensures FirstLacking(marks).None? <==> forall i :: 0 <= i < |marks| ==> marks[i].lacks.None?
    ensures FirstLacking(marks).Some? ==>
      exists i :: 0 <= i < |marks| && marks[i].lacks.Some? && (forall k :: 0 <= k < i ==> marks[k].lacks.None?)
        && FirstLacking(marks).value == Violation(marks[i].entry.start, marks[i].lacks.value)
  {
    if marks != [] && marks[0].lacks.None? {
      FirstLackingIsFirst(marks[1..]);
      if FirstLacking(marks).Some? {
        var i :| 0 <= i < |marks[1..]| && marks[1..][i].lacks.Some? &&
            (forall k :: 0 <= k < i ==> marks[1..][k].lacks.None?)
          && FirstLacking(marks[1..]).value == Violation(marks[1..][i].entry.start, marks[1..][i].lacks.value);
        assert marks[i + 1] == marks[1..][i];
        forall k | 0 <= k < i + 1 ensures marks[k].lacks.None? { if k > 0 { assert marks[k] == marks[1..][k - 1]; } }
      } else {
        forall i | 0 <= i < |marks| ensures marks[i].lacks.None? { if i > 0 { assert marks[i] == marks[1..][i - 1]; } }
      }
    }
  }

  lemma {:induction false} FirstLackingAppend(a: seq<Mark>, b: seq<Mark>)
    ensures FirstLacking(a + b) == if FirstLacking(a).Some? then FirstLacking(a) else FirstLacking(b)
  {
    if a == [] {
      assert a + b == b;
    } else {
      FirstLackingAppend(a[1..], b);
      assert (a + b)[1..] == a[1..] + b;
    }
  }

  /** From `before`, reading the marks either reports their first gap or reaches `after`. */
  ghost predicate Reads(marks: seq<Mark>, before: seq<Frame>, after: seq<Frame>) {
    forall rest: seq<Entry> :: ReadsThen(marks, before, after, rest)
  }

  ghost predicate ReadsThen(marks: seq<Mark>, before: seq<Frame>, after: seq<Frame>, rest: seq<Entry>) {
    Scan(Entries(marks) + rest, before) == if FirstLacking(marks).Some? then FirstLacking(marks) else Scan(rest, after)
  }

  lemma ReadsOne(mark: Mark, before: seq<Frame>, after: seq<Frame>)
    requires mark.lacks.None? ==> Advance(before, mark.entry.token) == Continue(after)
    requires mark.lacks.Some? ==> Advance(before, mark.entry.token) == Missing(mark.lacks.value)
    ensures Reads([mark], before, after)
  {
    forall rest: seq<Entry> ensures ReadsThen([mark], before, after, rest) {
      assert (Entries([mark]) + rest)[0] == mark.entry;
      assert (Entries([mark]) + rest)[1..] == rest;
    }
  }

  lemma ReadsNothing(stack: seq<Frame>)
    ensures Reads([], stack, stack)
  {
    forall rest: seq<Entry> ensures ReadsThen([], stack, stack, rest) {
      assert Entries([]) + rest == rest;
    }
  }

  lemma ReadsBoth(a: seq<Mark>, b: seq<Mark>, before: seq<Frame>, between: seq<Frame>, after: seq<Frame>)
    requires Reads(a, before, between)
    requires FirstLacking(a).None? ==> Reads(b, between, after)
    ensures Reads(a + b, before, after)
  {
    FirstLackingAppend(a, b);
    forall rest: seq<Entry> ensures ReadsThen(a + b, before, after, rest) {
      assert Entries(a + b) + rest == Entries(a) + (Entries(b) + rest);
      assert ReadsThen(a, before, between, Entries(b) + rest);
      if FirstLacking(a).None? { assert ReadsThen(b, between, after, rest); }
    }
  }

  /** The stack shapes around one value: at top level, as a property value, as an element. */
  ghost predicate Around(before: seq<Frame>, after: seq<Frame>) {
    || (before == [] && after == [])
    || (exists s :: before == s + [ObjAwaitValue] && after == s + [ObjAwaitComma])
    || (exists s :: before == s + [ArrAwaitValue] && after == s + [ArrAwaitComma])
  }

  lemma AroundPropertyOrElement(stack: seq<Frame>)
    ensures Around(stack + [ObjAwaitValue], stack + [ObjAwaitComma])
    ensures Around(stack + [ArrAwaitValue], stack + [ArrAwaitComma])
  {}

  lemma {:induction false} ValueReads(v: Value, before: seq<Frame>, after: seq<Frame>)
    requires Around(before, after)
    ensures Reads(Print(v, None), before, after)
  {
    hide Reads, Scan, FirstLacking;
    match v
    case Scalar(token, at) =>
      ReadsOne(Mark(Entry(token, at), None), before, after);
    case Object(open, members, close) =>
      ReadsOne(Mark(Entry(OpenBrace, open), None), before, after + [ObjAwaitKey]);
      MembersRead(members, true, close, after);
      ReadsBoth([Mark(Entry(OpenBrace, open), None)], PrintMembers(members, true) + One(CloseBrace, close),
                before, after + [ObjAwaitKey], after);
      assert Print(v, None) == [Mark(Entry(OpenBrace, open), None)] +
          (PrintMembers(members, true) + One(CloseBrace, close));
    case Array(open, items, close) =>
      ReadsOne(Mark(Entry(OpenBracket, open), None), before, after + [ArrAwaitValue]);
      ItemsRead(items, true, close, after);
      ReadsBoth([Mark(Entry(OpenBracket, open), None)], PrintItems(items, true) + One(CloseBracket, close),
                before, after + [ArrAwaitValue], after);
      assert Print(v, None) == [Mark(Entry(OpenBracket, open), None)] +
          (PrintItems(items, true) + One(CloseBracket, close));
  }

  lemma CommaReads(comma: Option<nat>, stack: seq<Frame>, from: Frame, to: Frame)
    requires (from == ObjAwaitComma && to == ObjAwaitKey) || (from == ArrAwaitComma && to == ArrAwaitValue)
    ensures Reads(Comma(comma), stack + [from], stack + [if comma.Some? then to else from])
  {
    if comma.Some? {
      ReadsOne(Mark(Entry(Token.Comma, comma.value), None), stack + [from], stack + [to]);
    } else {
      ReadsNothing(stack + [from]);
    }
  }

  lemma ReadsProperty(separator: seq<Mark>, name: seq<Mark>, colon: seq<Mark>, value: seq<Mark>, tail: seq<Mark>,
                      start: seq<Frame>, ready: seq<Frame>, stack: seq<Frame>)
    requires Reads(separator, start, ready)
    requires Reads(name, ready, stack + [ObjAwaitColon])
    requires Reads(colon, stack + [ObjAwaitColon], stack + [ObjAwaitValue])
    requires Reads(value, stack + [ObjAwaitValue], stack + [ObjAwaitComma])
    requires Reads(tail, stack + [ObjAwaitComma], stack)
    ensures Reads(separator + (name + (colon + (value + tail))), start, stack)
  {
    hide *;
    ReadsBoth(value, tail, stack + [ObjAwaitValue], stack + [ObjAwaitComma], stack);
    ReadsBoth(colon, value + tail, stack + [ObjAwaitColon], stack + [ObjAwaitValue], stack);
    ReadsBoth(name, colon + (value + tail), ready, stack + [ObjAwaitColon], stack);
    ReadsBoth(separator, name + (colon + (value + tail)), start, ready, stack);
  }

  lemma Regroup(a: seq<Mark>, b: seq<Mark>, c: seq<Mark>, d: seq<Mark>, e: seq<Mark>, f: seq<Mark>)
    ensures a + b + c + d + e + f == a + (b + (c + (d + (e + f))))
  {}

  /** The stack once the separator before the next sibling, if any, has been read. */
  function Ready(first: bool, comma: Option<nat>, stack: seq<Frame>, wanting: Frame, waiting: Frame): seq<Frame> {
    stack + [if first || comma.Some? then wanting else waiting]
  }

  lemma SeparatorReads(first: bool, comma: Option<nat>, stack: seq<Frame>, wanting: Frame, waiting: Frame)
    requires (waiting == ObjAwaitComma && wanting == ObjAwaitKey) ||
        (waiting == ArrAwaitComma && wanting == ArrAwaitValue)
    ensures Reads(if first then []
                  else Comma(comma), stack + [if first then wanting
                                              else waiting], Ready(first, comma, stack, wanting, waiting))
  {
    hide Reads;
    if first { ReadsNothing(stack + [wanting]); } else { CommaReads(comma, stack, waiting, wanting); }
  }

  lemma KeyReads(first: bool, comma: Option<nat>, key: ScalarToken, at: nat, stack: seq<Frame>)
    ensures Reads([Mark(Entry(key, at), if first || comma.Some? then None else Some(Properties))],
                  Ready(first, comma, stack, ObjAwaitKey, ObjAwaitComma), stack + [ObjAwaitColon])
  {
    hide Reads;
    ReadsOne(Mark(Entry(key, at), if first || comma.Some? then None else Some(Properties)),
             Ready(first, comma, stack, ObjAwaitKey, ObjAwaitComma), stack + [ObjAwaitColon]);
  }

  lemma {:induction false} MembersRead(ms: Members, first: bool, close: nat, stack: seq<Frame>)
    ensures Reads(PrintMembers(ms, first) + One(CloseBrace, close),
                  stack + [if first then ObjAwaitKey else ObjAwaitComma], stack)
  {
    hide Reads, Scan, FirstLacking, Around;
    AroundPropertyOrElement(stack);
    var start := stack + [if first then ObjAwaitKey else ObjAwaitComma];
    var comma := if ms.Member? then ms.comma else ms.trailing;
    var separator := if first then [] else Comma(comma);
    var ready := Ready(first, comma, stack, ObjAwaitKey, ObjAwaitComma);
    SeparatorReads(first, comma, stack, ObjAwaitKey, ObjAwaitComma);
    match ms
    case NoMember(trailing) =>
      ReadsOne(Mark(Entry(CloseBrace, close), None), ready, stack);
      ReadsBoth(separator, One(CloseBrace, close), start, ready, stack);
    case Member(_, key, keyAt, colon, value, rest) =>
      KeyReads(first, comma, key, keyAt, stack);
      ReadsOne(Mark(Entry(Colon, colon), None), stack + [ObjAwaitColon], stack + [ObjAwaitValue]);
      ValueReads(value, stack + [ObjAwaitValue], stack + [ObjAwaitComma]);
      MembersRead(rest, false, close, stack);
      hide *;
      var name := [Mark(Entry(key, keyAt), if first || comma.Some? then None else Some(Properties))];
      var tail := PrintMembers(rest, false) + One(CloseBrace, close);
      ReadsProperty(separator, name, One(Colon, colon), Print(value, None), tail, start, ready, stack);
      PrintProperty(ms, first, separator, name);
      Regroup(separator, name, One(Colon, colon), Print(value, None), PrintMembers(rest, false),
          One(CloseBrace, close));
  }

  lemma PrintProperty(ms: Members, first: bool, separator: seq<Mark>, name: seq<Mark>)
    requires ms.Member? && separator == (if first then [] else Comma(ms.comma))
    requires name == [Mark(Entry(ms.key, ms.keyAt), if first || ms.comma.Some? then None else Some(Properties))]
    ensures PrintMembers(ms, first) ==
        separator + name + One(Colon, ms.colon) + Print(ms.value, None) + PrintMembers(ms.rest, false)
  {}

  lemma {:induction false} ItemsRead(items: Items, first: bool, close: nat, stack: seq<Frame>)
    ensures Reads(PrintItems(items, first) + One(CloseBracket, close),
                  stack + [if first then ArrAwaitValue else ArrAwaitComma], stack)
  {
    hide Reads, Scan, FirstLacking, Around;
    AroundPropertyOrElement(stack);
    var start := stack + [if first then ArrAwaitValue else ArrAwaitComma];
    var comma := if items.Item? then items.comma else items.trailing;
    var separator := if first then [] else Comma(comma);
    var ready := Ready(first, comma, stack, ArrAwaitValue, ArrAwaitComma);
    SeparatorReads(first, comma, stack, ArrAwaitValue, ArrAwaitComma);
    match items
    case NoItem(trailing) =>
      ReadsOne(Mark(Entry(CloseBracket, close), None), ready, stack);
      ReadsBoth(separator, One(CloseBracket, close), start, ready, stack);
    case Item(_, value, rest) =>
      var lacks := if first || comma.Some? then None else Some(Elements);
      var tail := PrintItems(rest, false) + One(CloseBracket, close);
      if lacks.None? {
        ValueReads(value, ready, stack + [ArrAwaitComma]);
      } else {
        GapStops(value, ready, stack + [ArrAwaitComma]);
      }
      ItemsRead(rest, false, close, stack);
      PrintElement(items, first, separator, lacks);
      hide *;
      ReadsBoth(Print(value, lacks), tail, ready, stack + [ArrAwaitComma], stack);
      ReadsBoth(separator, Print(value, lacks) + tail, start, ready, stack);
      assert separator + Print(value, lacks) + PrintItems(rest, false) + One(CloseBracket, close)
          == separator + (Print(value, lacks) + tail);
  }

  lemma PrintElement(items: Items, first: bool, separator: seq<Mark>, lacks: Option<Container>)
    requires items.Item? && separator == (if first then [] else Comma(items.comma))
    requires lacks == if first || items.comma.Some? then None else Some(Elements)
    ensures PrintItems(items, first) == separator + Print(items.value, lacks) + PrintItems(items.rest, false)
  {}

  /** An element whose comma was dropped stops the scan at its first token. */
  lemma GapStops(v: Value, before: seq<Frame>, after: seq<Frame>)
    requires before != [] && before[|before| - 1] == ArrAwaitComma
    ensures Reads(Print(v, Some(Elements)), before, after)
  {
    var marks := Print(v, Some(Elements));
    ReadsOne(marks[0], before, after);
    ReadsBoth([marks[0]], marks[1..], before, after, after);
    assert marks == [marks[0]] + marks[1..];
  }

  lemma {:induction false} GapsAreDroppedCommas(v: Value)
    ensures FirstLacking(Print(v, None)).None? <==> CommasKept(v)
  {
    match v
    case Scalar(token, at) =>
    case Object(open, members, close) =>
      MemberGaps(members, true);
      FirstLackingAppend([Mark(Entry(OpenBrace, open), None)] + PrintMembers(members, true), One(CloseBrace, close));
      FirstLackingAppend([Mark(Entry(OpenBrace, open), None)], PrintMembers(members, true));
    case Array(open, items, close) =>
      ItemGaps(items, true);
      FirstLackingAppend([Mark(Entry(OpenBracket, open), None)] + PrintItems(items, true), One(CloseBracket, close));
      FirstLackingAppend([Mark(Entry(OpenBracket, open), None)], PrintItems(items, true));
  }

  lemma {:induction false} MemberGaps(ms: Members, first: bool)
    ensures FirstLacking(PrintMembers(ms, first)).None? <==> MemberCommasKept(ms, first)
  {
    if ms.Member? {
      GapsAreDroppedCommas(ms.value);
      MemberGaps(ms.rest, false);
      var separator := if first then [] else Comma(ms.comma);
      var name := [Mark(Entry(ms.key, ms.keyAt), if first || ms.comma.Some? then None else Some(Properties))];
      FirstLackingAppend(separator + name + One(Colon, ms.colon) + Print(ms.value, None), PrintMembers(ms.rest, false));
      FirstLackingAppend(separator + name + One(Colon, ms.colon), Print(ms.value, None));
      FirstLackingAppend(separator + name, One(Colon, ms.colon));
      FirstLackingAppend(separator, name);
    }
  }

  lemma {:induction false} ItemGaps(items: Items, first: bool)
    ensures FirstLacking(PrintItems(items, first)).None? <==> ItemCommasKept(items, first)
  {
    if items.Item? {
      GapsAreDroppedCommas(items.value);
      ItemGaps(items.rest, false);
      var separator := if first then [] else Comma(items.comma);
      var lacks := if first || items.comma.Some? then None else Some(Elements);
      FirstLackingAppend(separator + Print(items.value, lacks), PrintItems(items.rest, false));
      FirstLackingAppend(separator, Print(items.value, lacks));
      if lacks.Some? { assert Print(items.value, lacks)[0].lacks.Some?; }
    }
  }

  /** On every printed value the pass reports the first token whose sibling comma was dropped,
      and reports nothing exactly when none was. */
  lemma StrictCommaDecidesTheGrammar(v: Value)
    ensures Scan(Entries(Print(v, None)), []) == FirstLacking(Print(v, None))
    ensures Scan(Entries(Print(v, None)), []).None? <==> CommasKept(v)
  {
    ValueReads(v, [], []);
    GapsAreDroppedCommas(v);
    var rest: seq<Entry> := [];
    assert ReadsThen(Print(v, None), [], [], rest);
    assert Entries(Print(v, None)) + rest == Entries(Print(v, None));
    assert Scan(rest, []) == None;
  }
}
