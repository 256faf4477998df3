/** Expansion is exact or blocked: what a pattern denotes is a relation between component lists and
    paths, and a directory is found exactly when its path is related to the pattern. */
module WorkspaceGlobLaws {
  import opened Wrappers
  import opened Ordering
  import opened WorkspaceGlob

  // ---- What a pattern denotes -----------------------------------------------------------------------

  /** The path has the form the components ask for; `**` stands for any number of names. */
  predicate Matches(m: Matcher, components: seq<string>, path: seq<string>)
    decreases |components| + |path|
  {
    if components == [] then path == []
    else if components[0] == "**" then
      Matches(m, components[1..], path) || (path != [] && Proper(path[0]) && Matches(m, components, path[1..]))
    else if HasMeta(components[0]) then
      m.compiles(components[0]) && path != [] && Proper(path[0]) && m.hits(components[0], path[0]) &&
          Matches(m, components[1..], path[1..])
    else
      path != [] && path[0] == components[0] && Matches(m, components[1..], path[1..])
  }

  /** The path leads to a directory, through directories only and past no excluded name. */
  predicate DirectoryAt(node: Node, path: seq<string>)
    decreases |path|
  {
    if path == [] then node.Directory?
    else !Excluded(path[0]) && Lookup(node, path[0]).Some? && DirectoryAt(Lookup(node, path[0]).value, path[1..])
  }

  function Spell(relative: string, path: seq<string>): string
    decreases |path|
  {
    if path == [] then relative else Spell(Join(relative, path[0]), path[1..])
  }

  predicate ReachedBy(m: Matcher, node: Node, relative: string, components: seq<string>, path: seq<string>, x: string) {
    Matches(m, components, path) && DirectoryAt(node, path) && Spell(relative, path) != "" &&
        x == Slashed(Spell(relative, path))
  }

  /** A non-root directory whose path matches, as it is reported. */
  ghost predicate Reached(m: Matcher, node: Node, relative: string, components: seq<string>, x: string) {
    exists path :: ReachedBy(m, node, relative, components, path, x)
  }

  /** Names in a directory are proper and distinct. */
  ghost predicate WellFormed(node: Node) {
    match node
    case Directory(_, es) =>
      && (forall i, k :: 0 <= i < k < |es| ==> es[i].name != es[k].name)
      && (forall i :: 0 <= i < |es| ==> Proper(es[i].name) && WellFormed(es[i].node))
    case _ => true
  }

  /** The directories a wildcard may enter. */
  predicate Enterable(listing: seq<Entry>, e: Entry) { e in listing && !Excluded(e.name) && e.node.Directory? }

  lemma {:induction false} LookupFinds(node: Node, e: Entry)
    requires WellFormed(node) && node.Directory? && node.readable && e in node.listing
    ensures Lookup(node, e.name) == Some(e.node) && Proper(e.name) && WellFormed(e.node)
  {
    var es := node.listing;
    var i :| 0 <= i < |es| && es[i] == e;
    assert Proper(es[i].name);
    var found := FindEntry(es, e.name);
    var k :| 0 <= k < |es| && es[k] == found.value;
    assert k == i;
  }

  lemma LookupIsAnEntry(node: Node, name: string)
    requires WellFormed(node) && Lookup(node, name).Some? && Proper(name)
    ensures node.readable && Entry(name, Lookup(node, name).value) in node.listing
    ensures WellFormed(Lookup(node, name).value)
  {
    var e := FindEntry(node.listing, name).value;
    LookupFinds(node, e);
    assert e == Entry(name, Lookup(node, name).value);
  }

  lemma DirectoryAtIsADirectory(node: Node, path: seq<string>)
    requires DirectoryAt(node, path)
    ensures node.Directory?
  {}

  lemma Descend(m: Matcher, node: Node, relative: string, components: seq<string>, e: Entry, path: seq<string>,
                rest: seq<string>, x: string)
    requires WellFormed(node) && node.Directory? && node.readable && Enterable(node.listing, e)
    requires ReachedBy(m, e.node, Join(relative, e.name), rest, path, x)
    requires components != [] && (components[0] == "**" ==> rest == components)
    requires components[0] != "**" ==>
        HasMeta(components[0]) && m.compiles(components[0]) && m.hits(components[0], e.name) && rest == components[1..]
    ensures Reached(m, node, relative, components, x)
  {
    LookupFinds(node, e);
    var longer := [e.name] + path;
    assert longer[0] == e.name && longer[1..] == path;
    assert ReachedBy(m, node, relative, components, longer, x);
  }

  lemma Enter(m: Matcher, node: Node, relative: string, components: seq<string>, path: seq<string>, x: string)
    requires WellFormed(node) && node.Directory? && node.readable && path != [] && Proper(path[0])
    requires DirectoryAt(node, path) && Matches(m, components, path[1..])
    requires Spell(relative, path) != "" && x == Slashed(Spell(relative, path))
    ensures exists e ::
      Enterable(node.listing, e) && e.name == path[0] && Reached(m, e.node, Join(relative, e.name), components, x)
  {
    LookupIsAnEntry(node, path[0]);
    var e := Entry(path[0], Lookup(node, path[0]).value);
    DirectoryAtIsADirectory(e.node, path[1..]);
    assert ReachedBy(m, e.node, Join(relative, e.name), components, path[1..], x);
    assert Enterable(node.listing, e);
  }

  /** `**` matches here or in any enterable child. */
  lemma StarStep(m: Matcher, node: Node, relative: string, components: seq<string>, x: string)
    requires WellFormed(node) && node.Directory? && node.readable && components != [] && components[0] == "**"
    ensures Reached(m, node, relative, components, x) <==>
      (Reached(m, node, relative, components[1..], x)
       || exists e :: Enterable(node.listing, e) && Reached(m, e.node, Join(relative, e.name), components, x))
  {
    if Reached(m, node, relative, components, x) {
      var path :| ReachedBy(m, node, relative, components, path, x);
      if Matches(m, components[1..], path) {
        assert ReachedBy(m, node, relative, components[1..], path, x);
      } else {
        Enter(m, node, relative, components, path, x);
      }
    }
    if Reached(m, node, relative, components[1..], x) {
      var path :| ReachedBy(m, node, relative, components[1..], path, x);
      assert ReachedBy(m, node, relative, components, path, x);
    }
    if exists e :: Enterable(node.listing, e) && Reached(m, e.node, Join(relative, e.name), components, x) {
      var e :| Enterable(node.listing, e) && Reached(m, e.node, Join(relative, e.name), components, x);
      var path :| ReachedBy(m, e.node, Join(relative, e.name), components, path, x);
      Descend(m, node, relative, components, e, path, components, x);
    }
  }

  lemma GlobStep(m: Matcher, node: Node, relative: string, components: seq<string>, x: string)
    requires WellFormed(node) && node.Directory? && node.readable
    requires components != [] && components[0] != "**" && HasMeta(components[0]) && m.compiles(components[0])
    ensures Reached(m, node, relative, components, x) <==>
      exists e :: Enterable(node.listing, e) && m.hits(components[0], e.name)
        && Reached(m, e.node, Join(relative, e.name), components[1..], x)
  {
    if Reached(m, node, relative, components, x) {
      var path :| ReachedBy(m, node, relative, components, path, x);
      Enter(m, node, relative, components[1..], path, x);
    }
    if exists e :: Enterable(node.listing, e) && m.hits(components[0], e.name) &&
        Reached(m, e.node, Join(relative, e.name), components[1..], x) {
      var e :| Enterable(node.listing, e) && m.hits(components[0], e.name) &&
          Reached(m, e.node, Join(relative, e.name), components[1..], x);
      var path :| ReachedBy(m, e.node, Join(relative, e.name), components[1..], path, x);
      Descend(m, node, relative, components, e, path, components[1..], x);
    }
  }

  lemma LiteralStep(m: Matcher, node: Node, relative: string, components: seq<string>, x: string)
    requires node.Directory? && components != [] && components[0] != "**" && !HasMeta(components[0])
    ensures Reached(m, node, relative, components, x) <==>
      && !Excluded(components[0]) && Lookup(node, components[0]).Some?
      && Reached(m, Lookup(node, components[0]).value, Join(relative, components[0]), components[1..], x)
  {
    if Reached(m, node, relative, components, x) {
      var path :| ReachedBy(m, node, relative, components, path, x);
      assert ReachedBy(m, Lookup(node, components[0]).value, Join(relative, components[0]), components[1..], path[1..],
          x);
    }
    if !Excluded(components[0]) && Lookup(node, components[0]).Some?
       && Reached(m, Lookup(node, components[0]).value, Join(relative, components[0]), components[1..], x) {
      var path :| ReachedBy(m, Lookup(node, components[0]).value, Join(relative, components[0]), components[1..], path,
          x);
      var longer := [components[0]] + path;
      assert longer[0] == components[0] && longer[1..] == path;
      assert ReachedBy(m, node, relative, components, longer, x);
    }
  }

  lemma NothingInFiles(m: Matcher, node: Node, relative: string, components: seq<string>, x: string)
    requires !node.Directory?
    ensures !Reached(m, node, relative, components, x)
  {
    forall path ensures !ReachedBy(m, node, relative, components, path, x) {
      if DirectoryAt(node, path) { DirectoryAtIsADirectory(node, path); }
    }
  }

  lemma EndStep(m: Matcher, node: Node, relative: string, x: string)
    requires node.Directory?
    ensures Reached(m, node, relative, [], x) <==> relative != "" && x == Slashed(relative)
  {
    if relative != "" && x == Slashed(relative) { assert ReachedBy(m, node, relative, [], [], x); }
  }

  // ---- Exact or blocked --------------------------------------------------------------------------------

  /** A spent budget has blocked the plan. */
  predicate Tied(p: Progress) { p.exhausted ==> p.blocked }

  /** Blocking and failing are for good. */
  predicate Grows(p: Progress, q: Progress) {
    (Tied(p) ==> Tied(q)) && (p.blocked ==> q.blocked) && (p.failed ==> q.failed)
  }

  predicate Clean(p: Progress) { !p.blocked && !p.failed }

  lemma {:induction false} CollectIsExact(listing: seq<Entry>, p: Progress)
    requires Tied(p)
    ensures var (children, q) := Collect(listing, p);
      && Grows(p, q) && q.matches == p.matches && q.failed == p.failed
      && (Clean(q) ==> forall e :: e in children <==> Enterable(listing, e))
      && (forall e :: e in children ==> Enterable(listing, e))
  {
    if listing != [] {
      hide Excluded;
      var (ok, p1) := ConsumeEntry(p);
      var e := listing[0];
      assert listing == [e] + listing[1..];
      if ok {
        CollectIsExact(listing[1..], if !Excluded(e.name) && e.node.Symlink? then p1.(blocked := true) else p1);
      }
    }
  }

  lemma SortedHasTheSame(children: seq<Entry>)
    ensures forall e :: e in SortBy(children, ByName()) <==> e in children
  {
    forall e ensures e in SortBy(children, ByName()) <==> e in children {
      assert e in children <==> e in multiset(children);
      assert e in SortBy(children, ByName()) <==> e in multiset(SortBy(children, ByName()));
    }
  }

  lemma ChildrenAreExact(node: Node, p: Progress)
    requires node.Directory? && Tied(p)
    ensures var (children, q) := Children(node, p);
      && Grows(p, q) && q.matches == p.matches
      && (!q.failed ==> node.readable)
      && (Clean(q) ==> forall e :: e in children <==> Enterable(node.listing, e))
      && (forall e :: e in children ==> Enterable(node.listing, e))
  {
    if node.readable {
      hide Collect, Enterable;
      CollectIsExact(node.listing, p);
      SortedHasTheSame(Collect(node.listing, p).0);
    }
  }

  /** After the step the matches are those before it and what is reached, unless the plan is blocked. */
  ghost predicate Exact(m: Matcher, node: Node, relative: string, components: seq<string>, p: Progress, q: Progress) {
    Clean(q) ==> forall x :: x in q.matches <==> x in p.matches || Reached(m, node, relative, components, x)
  }

  ghost predicate ReachedByOne(m: Matcher, children: seq<Entry>, only: Option<string>, relative: string,
                               components: seq<string>, x: string) {
    exists e :: e in children && (only.None? || m.hits(only.value, e.name)) &&
        Reached(m, e.node, Join(relative, e.name), components, x)
  }

  lemma {:induction false} ExpandIsExact(m: Matcher, node: Node, relative: string, components: seq<string>, depth: nat,
                                         p: Progress)
    requires depth <= MAX_DEPTH + 1 && WellFormed(node) && node.Directory? && Tied(p)
    ensures var q := Expand(m, node, relative, components, depth, p);
        Grows(p, q) && Exact(m, node, relative, components, p, q)
    decreases MAX_DEPTH + 2 - depth, 1, 0
  {
    hide Reached, WellFormed, Excluded, HasMeta, Join, Children, Lookup, ExpandEach;
    if p.exhausted || p.failed {
    } else if components == [] {
      forall x { EndStep(m, node, relative, x); }
    } else if depth > MAX_DEPTH {
    } else if components[0] == "**" {
      StarIsExact(m, node, relative, components, depth, p);
    } else if HasMeta(components[0]) {
      GlobIsExact(m, node, relative, components, depth, p);
    } else {
      LiteralIsExact(m, node, relative, components, depth, p);
    }
  }

  lemma {:induction false} StarIsExact(m: Matcher, node: Node, relative: string, components: seq<string>, depth: nat,
                                       p: Progress)
    requires depth <= MAX_DEPTH && WellFormed(node) && node.Directory? && Tied(p) && !p.exhausted && !p.failed
    requires components != [] && components[0] == "**"
    ensures var q := Expand(m, node, relative, components, depth, p);
        Grows(p, q) && Exact(m, node, relative, components, p, q)
    decreases MAX_DEPTH + 2 - depth, 0, 0
  {
    hide Reached, Join, Children, Enterable, Expand, ExpandEach, ReachedByOne, WellFormed;
    var p1 := Expand(m, node, relative, components[1..], depth + 1, p);
    var (children, p2) := Children(node, p1);
    var q := ExpandEach(m, children, None, relative, components, depth + 1, p2);
    StarUnfolds(m, node, relative, components, depth, p);
    ExpandIsExact(m, node, relative, components[1..], depth + 1, p);
    ChildrenAreExact(node, p1);
    if !p1.failed && !p2.failed {
      EnterablesAreWellFormed(node, children);
      EachIsExact(m, children, None, relative, components, depth + 1, p2);
      if Clean(q) { StarCombines(m, node, relative, components, children, p, p1, q); }
    }
  }

  lemma StarUnfolds(m: Matcher, node: Node, relative: string, components: seq<string>, depth: nat, p: Progress)
    requires depth <= MAX_DEPTH && !p.exhausted && !p.failed && components != [] && components[0] == "**"
    ensures var p1 := Expand(m, node, relative, components[1..], depth + 1, p);
      var (children, p2) := Children(node, p1);
      Expand(m, node, relative, components, depth, p)
      == if p1.failed then p1 else if p2.failed then p2 else ExpandEach(m, children, None, relative, components,
          depth + 1, p2)
  {
    hide Children, ExpandEach;
  }

  lemma StarCombines(m: Matcher, node: Node, relative: string, components: seq<string>, children: seq<Entry>,
                     p: Progress, p1: Progress, q: Progress)
    requires WellFormed(node) && node.Directory? && node.readable && components != [] && components[0] == "**"
    requires forall e :: e in children <==> Enterable(node.listing, e)
    requires forall x :: x in p1.matches <==> x in p.matches || Reached(m, node, relative, components[1..], x)
    requires forall x :: x in q.matches <==> x in p1.matches || ReachedByOne(m, children, None, relative, components, x)
    ensures forall x :: x in q.matches <==> x in p.matches || Reached(m, node, relative, components, x)
  {
    hide Reached, Join, Enterable, WellFormed;
    forall x ensures x in q.matches <==> x in p.matches || Reached(m, node, relative, components, x) {
      StarStep(m, node, relative, components, x);
    }
  }

  lemma {:induction false} GlobIsExact(m: Matcher, node: Node, relative: string, components: seq<string>, depth: nat,
                                       p: Progress)
    requires depth <= MAX_DEPTH && WellFormed(node) && node.Directory? && Tied(p) && !p.exhausted && !p.failed
    requires components != [] && components[0] != "**" && HasMeta(components[0])
    ensures var q := Expand(m, node, relative, components, depth, p);
        Grows(p, q) && Exact(m, node, relative, components, p, q)
    decreases MAX_DEPTH + 2 - depth, 0, 0
  {
    hide Reached, Join, Children, Enterable, Expand, ExpandEach, HasMeta, ReachedByOne, WellFormed;
    GlobUnfolds(m, node, relative, components, depth, p);
    var c := components[0];
    if m.compiles(c) {
      var (children, p1) := Children(node, p);
      ChildrenAreExact(node, p);
      if !p1.failed {
        EnterablesAreWellFormed(node, children);
        EachIsExact(m, children, Some(c), relative, components[1..], depth + 1, p1);
        var q := ExpandEach(m, children, Some(c), relative, components[1..], depth + 1, p1);
        if Clean(q) { GlobCombines(m, node, relative, components, children, p, q); }
      }
    }
  }

  lemma GlobUnfolds(m: Matcher, node: Node, relative: string, components: seq<string>, depth: nat, p: Progress)
    requires depth <= MAX_DEPTH && !p.exhausted && !p.failed && components != [] && components[0] != "**"
    requires HasMeta(components[0])
    ensures var (children, p1) := Children(node, p);
      Expand(m, node, relative, components, depth, p)
      == if !m.compiles(components[0]) then p.(blocked := true)
         else if p1.failed then p1 else ExpandEach(m, children, Some(components[0]), relative, components[1..],
             depth + 1, p1)
  {
    hide Children, ExpandEach, HasMeta;
  }

  lemma GlobCombines(m: Matcher, node: Node, relative: string, components: seq<string>, children: seq<Entry>,
                     p: Progress, q: Progress)
    requires WellFormed(node) && node.Directory? && node.readable
    requires components != [] && components[0] != "**" && HasMeta(components[0]) && m.compiles(components[0])
    requires forall e :: e in children <==> Enterable(node.listing, e)
    requires forall x :: x in q.matches <==>
        x in p.matches || ReachedByOne(m, children, Some(components[0]), relative, components[1..], x)
    ensures forall x :: x in q.matches <==> x in p.matches || Reached(m, node, relative, components, x)
  {
    hide Reached, Join, Enterable, WellFormed, HasMeta;
    forall x ensures x in q.matches <==> x in p.matches || Reached(m, node, relative, components, x) {
      GlobStep(m, node, relative, components, x);
    }
  }

  lemma {:induction false} LiteralIsExact(m: Matcher, node: Node, relative: string, components: seq<string>, depth: nat,
                                          p: Progress)
    requires depth <= MAX_DEPTH && WellFormed(node) && node.Directory? && Tied(p) && !p.exhausted && !p.failed
    requires components != [] && components[0] != "**" && !HasMeta(components[0])
    ensures var q := Expand(m, node, relative, components, depth, p);
        Grows(p, q) && Exact(m, node, relative, components, p, q)
    decreases MAX_DEPTH + 2 - depth, 0, 0
  {
    var c := components[0];
    hide Reached, Join, HasMeta, Excluded;
    forall x { LiteralStep(m, node, relative, components, x); }
    var found := Lookup(node, c);
    if found.Some? {
      if Proper(c) { LookupIsAnEntry(node, c); }
      if found.value.Directory? {
        hide Lookup, WellFormed;
        ExpandIsExact(m, found.value, Join(relative, c), components[1..], depth + 1, ConsumeEntry(p).1);
      } else {
        forall x { NothingInFiles(m, found.value, Join(relative, c), components[1..], x); }
      }
    }
  }

  lemma EnterablesAreWellFormed(node: Node, children: seq<Entry>)
    requires WellFormed(node) && node.Directory? && node.readable
    requires forall e :: e in children ==> Enterable(node.listing, e)
    ensures forall e :: e in children ==> WellFormed(e.node) && e.node.Directory?
  {
    forall e | e in children ensures WellFormed(e.node) && e.node.Directory? { LookupFinds(node, e); }
  }

  lemma {:induction false} EachIsExact(m: Matcher, children: seq<Entry>, only: Option<string>, relative: string,
                                       components: seq<string>, depth: nat, p: Progress)
    requires depth <= MAX_DEPTH + 1 && Tied(p)
    requires forall e :: e in children ==> WellFormed(e.node) && e.node.Directory?
    ensures var q := ExpandEach(m, children, only, relative, components, depth, p);
      && Grows(p, q)
      && (Clean(q) ==> forall x :: x in q.matches <==>
          x in p.matches || ReachedByOne(m, children, only, relative, components, x))
    decreases MAX_DEPTH + 2 - depth, 2, |children|
  {
    hide Reached, WellFormed, Join, Expand;
    if children != [] && !p.failed {
      var e := children[0];
      var takes := only.None? || m.hits(only.value, e.name);
      var p1 := if takes then Expand(m, e.node, Join(relative, e.name), components, depth, p) else p;
      assert e in children;
      if takes { ExpandIsExact(m, e.node, Join(relative, e.name), components, depth, p); }
      assert forall c :: c in children[1..] ==> c in children;
      EachIsExact(m, children[1..], only, relative, components, depth, p1);
      var q := ExpandEach(m, children, only, relative, components, depth, p);
      assert q == ExpandEach(m, children[1..], only, relative, components, depth, p1);
      hide ExpandEach;
      if Clean(q) {
        assert children == [e] + children[1..];
        forall x
          ensures x in q.matches <==> x in p.matches || ReachedByOne(m, children, only, relative, components, x)
        {
          OneOfTheRest(m, children, only, relative, components, x);
        }
      }
    }
  }

  lemma OneOfTheRest(m: Matcher, children: seq<Entry>, only: Option<string>, relative: string, components: seq<string>,
                     x: string)
    requires children != []
    ensures ReachedByOne(m, children, only, relative, components, x) <==>
      ((only.None? || m.hits(only.value, children[0].name)) &&
          Reached(m, children[0].node, Join(relative, children[0].name), components, x))
      || ReachedByOne(m, children[1..], only, relative, components, x)
  {
    hide Reached, Join;
    assert children == [children[0]] + children[1..];
  }

  /** Exact or blocked: the list returned for a pattern is sorted without repeats, and unless the plan is
      blocked or the file system failed it holds exactly the matching directories. */
  lemma PatternIsExactOrBlocked(m: Matcher, root: Node, pattern: string, p: Progress)
    requires WellFormed(root) && root.Directory? && Tied(p)
    ensures var (found, q) := ExpandPattern(m, root, pattern, p);
      && Ascending(found) && Tied(q)
      && (Clean(q) ==> forall x :: x in found <==> Reached(m, root, "", Components(pattern), x))
  {
    hide Reached, WellFormed, Expand;
    ExpandIsExact(m, root, "", Components(pattern), 0, p.(matches := []));
  }

  // ---- Backslashes -----------------------------------------------------------------------------------------

  /** A matching directory as it is spelled on disk. */
  ghost predicate Denoted(m: Matcher, root: Node, pattern: string, y: string) {
    exists path :: DenotedBy(m, root, pattern, path, y)
  }

  predicate DenotedBy(m: Matcher, root: Node, pattern: string, path: seq<string>, y: string) {
    Matches(m, Components(pattern), path) && DirectoryAt(root, path) && y == Spell("", path) && y != ""
  }

  lemma {:induction false} SlashedIffNoBackslash(s: string)
    ensures '\\' !in Slashed(s)
    ensures Slashed(s) == s <==> '\\' !in s
  {
    if s != "" {
      SlashedIffNoBackslash(s[1..]);
      assert s == [s[0]] + s[1..];
      assert Slashed(s)[1..] == Slashed(s[1..]);
    }
  }

  lemma ReachedIsDenoted(m: Matcher, root: Node, pattern: string, x: string)
    ensures Reached(m, root, "", Components(pattern), x) <==> exists y ::
        Denoted(m, root, pattern, y) && x == Slashed(y)
  {
    hide Slashed, Matches, DirectoryAt, Spell, Components;
    if Reached(m, root, "", Components(pattern), x) {
      var path :| ReachedBy(m, root, "", Components(pattern), path, x);
      assert DenotedBy(m, root, pattern, path, Spell("", path));
      assert Denoted(m, root, pattern, Spell("", path));
    }
    if exists y :: Denoted(m, root, pattern, y) && x == Slashed(y) {
      var y :| Denoted(m, root, pattern, y) && x == Slashed(y);
      var path :| DenotedBy(m, root, pattern, path, y);
      assert ReachedBy(m, root, "", Components(pattern), path, x);
    }
  }

  /** Backslashes are reported as slashes, so the returned paths are the directories' own paths exactly
      when no matching directory has a backslash in its path. */
  lemma PathsAreTheirOwnIffNoBackslash(m: Matcher, root: Node, pattern: string, p: Progress)
    requires WellFormed(root) && root.Directory? && Tied(p) && Clean(ExpandPattern(m, root, pattern, p).1)
    ensures var found := ExpandPattern(m, root, pattern, p).0;
      (forall y :: y in found <==> Denoted(m, root, pattern, y)) <==>
          (forall y :: Denoted(m, root, pattern, y) ==> '\\' !in y)
  {
    hide Reached, WellFormed, ExpandPattern, Denoted, Slashed;
    var found := ExpandPattern(m, root, pattern, p).0;
    PatternIsExactOrBlocked(m, root, pattern, p);
    forall x { ReachedIsDenoted(m, root, pattern, x); }
    forall y { SlashedIffNoBackslash(y); }
    if forall y :: y in found <==> Denoted(m, root, pattern, y) {
      forall y | Denoted(m, root, pattern, y) ensures '\\' !in y {
        assert y in found && Reached(m, root, "", Components(pattern), y);
        var z :| Denoted(m, root, pattern, z) && y == Slashed(z);
      }
    }
    if forall y :: Denoted(m, root, pattern, y) ==> '\\' !in y {
      forall y ensures y in found <==> Denoted(m, root, pattern, y) {
        if y in found {
          var z :| Denoted(m, root, pattern, z) && y == Slashed(z);
          assert '\\' !in z;
        }
        if Denoted(m, root, pattern, y) { assert Slashed(y) == y; }
      }
    }
  }

  /** Such a directory exists in some tree: the claim without the condition is false. */
  lemma BackslashIsMisspelled(m: Matcher)
    ensures var root := Directory(true, [Entry("a\\b", Directory(true, []))]);
      var (found, q) := ExpandPattern(m, root, "a\\b", Progress([], false, false, 0, 0, false));
      Clean(q) && found == ["a/b"]
  {
    hide Components, Slashed, HasMeta, Excluded;
    LiteralName();
    OneDirectory(m, "a\\b", "a/b");
  }

  /** One directory under the root, named by a literal pattern. */
  lemma OneDirectory(m: Matcher, name: string, spelled: string)
    requires Components(name) == [name] && Slashed(name) == spelled && name != "**" && !HasMeta(name) && !Excluded(name)
    requires Proper(name)
    ensures var root := Directory(true, [Entry(name, Directory(true, []))]);
      var (found, q) := ExpandPattern(m, root, name, Progress([], false, false, 0, 0, false));
      Clean(q) && found == [spelled]
  {
    hide Components, Slashed, HasMeta, Excluded;
    var child := Directory(true, []);
    var root := Directory(true, [Entry(name, child)]);
    var p := Progress([], false, false, 0, 0, false);
    var p1 := p.(entries := 1);
    assert Lookup(root, name) == Some(child);
    assert Join("", name) == name by { assert "" + name == name; }
    assert [name][1..] == [];
    assert Expand(m, child, name, [], 1, p1) == p1.(matches := [] + [spelled], workspaces := 1);
    assert Expand(m, root, "", [name], 0, p) == Expand(m, child, name, [], 1, p1);
    assert [] + [spelled] == [spelled];
    assert SortedDistinct([spelled]) == [spelled] by { assert [spelled][1..] == []; }
  }

  lemma LiteralName()
    ensures Components("a\\b") == ["a\\b"] && Slashed("a\\b") == "a/b"
    ensures !HasMeta("a\\b") && !Excluded("a\\b") && "a\\b" != "**"
  {
    hide Components, Slashed, HasMeta, Excluded;
    OneComponent();
    NameIsSlashed();
    NameIsPlain();
  }

  lemma NameIsSlashed()
    ensures Slashed("a\\b") == "a/b"
  {
    assert "a\\b"[1..] == "\\b";
    assert "\\b"[1..] == "b" && "b"[1..] == "";
    assert Slashed("b") == "b";
    assert Slashed("\\b") == "/b";
  }

  lemma NameIsPlain()
    ensures !HasMeta("a\\b") && !Excluded("a\\b") && "a\\b" != "**"
  {
    hide HasMeta, Excluded;
    NameHasNoMeta();
    NameIsNotExcluded();
  }

  lemma NameHasNoMeta()
    ensures !HasMeta("a\\b")
  {}

  lemma NameIsNotExcluded()
    ensures !Excluded("a\\b")
  {
    hide Lower;
    LowerLength("a\\b");
    assert forall x :: x in EXCLUDED ==> |x| != 3;
  }

  lemma {:induction false} LowerLength(s: string)
    ensures |Lower(s)| == |s|
  {
    if s != "" { LowerLength(s[1..]); }
  }

  lemma OneComponent()
    ensures Components("a\\b") == ["a\\b"]
  {
    assert "a\\b"[1..] == "\\b" && "\\b"[1..] == "b" && "b"[1..] == "";
    assert [""][1..] == [] && ["b"][1..] == [] && ["\\b"][1..] == [];
    assert ['b'] + "" == "b" && ['\\'] + "b" == "\\b" && ['a'] + "\\b" == "a\\b";
    assert Components("b") == ["b"];
    assert Components("\\b") == ["\\b"];
  }

  // ---- The budget ------------------------------------------------------------------------------------------

  /** Never more than one attempt beyond each bound, and that attempt spends the budget. */
  predicate WithinBudget(p: Progress) {
    && p.entries <= MAX_ENTRIES + 1 && p.workspaces <= MAX_WORKSPACES + 1
    && (p.entries > MAX_ENTRIES || p.workspaces > MAX_WORKSPACES ==> p.exhausted)
  }

  /** The attempts that were accepted. */
  function Accepted(attempts: nat, bound: nat): nat { if attempts > bound then bound else attempts }

  /** A step that stays within the budget and pushes one match for each accepted workspace. */
  predicate Accounts(p: Progress, q: Progress) {
    && WithinBudget(q) && p.entries <= q.entries && p.workspaces <= q.workspaces
    && |q.matches| + Accepted(p.workspaces, MAX_WORKSPACES) == |p.matches| + Accepted(q.workspaces, MAX_WORKSPACES)
  }

  lemma {:induction false} CollectAccounts(listing: seq<Entry>, p: Progress)
    requires WithinBudget(p)
    ensures Accounts(p, Collect(listing, p).1)
  {
    if listing != [] {
      hide Excluded;
      var (ok, p1) := ConsumeEntry(p);
      var e := listing[0];
      if ok { CollectAccounts(listing[1..], if !Excluded(e.name) && e.node.Symlink? then p1.(blocked := true)
                                            else p1); }
    }
  }

  lemma ChildrenAccount(node: Node, p: Progress)
    requires WithinBudget(p)
    ensures Accounts(p, Children(node, p).1)
  {
    if node.Directory? && node.readable { CollectAccounts(node.listing, p); }
  }

  lemma {:induction false} ExpandAccounts(m: Matcher, node: Node, relative: string, components: seq<string>, depth: nat,
                                          p: Progress)
    requires depth <= MAX_DEPTH + 1 && WithinBudget(p)
    ensures Accounts(p, Expand(m, node, relative, components, depth, p))
    decreases MAX_DEPTH + 2 - depth, 1, 0
  {
    hide HasMeta, Excluded, Join, Slashed, Children, ExpandEach, Lookup;
    if p.exhausted || p.failed || components == [] || depth > MAX_DEPTH {
    } else if components[0] == "**" {
      StarAccounts(m, node, relative, components, depth, p);
    } else if HasMeta(components[0]) {
      ChildrenAccount(node, p);
      var (children, p1) := Children(node, p);
      EachAccounts(m, children, Some(components[0]), relative, components[1..], depth + 1, p1);
    } else if !Excluded(components[0]) {
      var found := Lookup(node, components[0]);
      if found.Some? && found.value.Directory? {
        ExpandAccounts(m, found.value, Join(relative, components[0]), components[1..], depth + 1, ConsumeEntry(p).1);
      }
    }
  }

  lemma {:induction false} StarAccounts(m: Matcher, node: Node, relative: string, components: seq<string>, depth: nat,
                                        p: Progress)
    requires depth <= MAX_DEPTH && WithinBudget(p) && !p.exhausted && !p.failed && components != []
    requires components[0] == "**"
    ensures Accounts(p, Expand(m, node, relative, components, depth, p))
    decreases MAX_DEPTH + 2 - depth, 0, 0
  {
    hide Expand, Children, ExpandEach;
    StarUnfolds(m, node, relative, components, depth, p);
    var p1 := Expand(m, node, relative, components[1..], depth + 1, p);
    ExpandAccounts(m, node, relative, components[1..], depth + 1, p);
    ChildrenAccount(node, p1);
    var (children, p2) := Children(node, p1);
    EachAccounts(m, children, None, relative, components, depth + 1, p2);
  }

  lemma {:induction false} EachAccounts(m: Matcher, children: seq<Entry>, only: Option<string>, relative: string,
                                        components: seq<string>, depth: nat, p: Progress)
    requires depth <= MAX_DEPTH + 1 && WithinBudget(p)
    ensures Accounts(p, ExpandEach(m, children, only, relative, components, depth, p))
    decreases MAX_DEPTH + 2 - depth, 2, |children|
  {
    if children != [] && !p.failed {
      hide Expand, Join;
      var e := children[0];
      ExpandAccounts(m, e.node, Join(relative, e.name), components, depth, p);
      var p1 := if only.Some? && !m.hits(only.value, e.name) then p
                else Expand(m, e.node, Join(relative, e.name), components, depth, p);
      EachAccounts(m, children[1..], only, relative, components, depth, p1);
    }
  }

  /** All patterns in turn, over one budget; the total of raw matches is kept beside the progress. */
  function ExpandAll(m: Matcher, root: Node, patterns: seq<string>, p: Progress): (nat, Progress) {
    if patterns == [] then (0, p)
    else
      var (total, p1) := ExpandAll(m, root, patterns[..|patterns| - 1], p);
      if p1.exhausted then (total, p1)
      else
        var p2 := ExpandPattern(m, root, patterns[|patterns| - 1], p1).1;
        (total + |p2.matches|, p2)
  }

  /** Across all patterns at most 4096 entries and 256 matches are accepted. */
  lemma {:induction false} BudgetIsShared(m: Matcher, root: Node, patterns: seq<string>)
    ensures var (total, q) := ExpandAll(m, root, patterns, Progress([], false, false, 0, 0, false));
      && WithinBudget(q) && total == Accepted(q.workspaces, MAX_WORKSPACES) <= 256 &&
          Accepted(q.entries, MAX_ENTRIES) <= 4096
  {
    if patterns != [] {
      hide Expand, Components;
      var front := patterns[..|patterns| - 1];
      BudgetIsShared(m, root, front);
      var (total, p1) := ExpandAll(m, root, front, Progress([], false, false, 0, 0, false));
      ExpandAccounts(m, root, "", Components(patterns[|patterns| - 1]), 0, p1.(matches := []));
    }
  }
}
