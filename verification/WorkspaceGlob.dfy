/** Expansion of declared workspace patterns over a directory tree, under one inspection budget. */
module WorkspaceGlob {
  import opened Wrappers
  import opened Ordering

  /** What a path is without following links. A directory that is not readable cannot be listed. */
  datatype Node = File | Symlink | Directory(readable: bool, listing: seq<Entry>)

  datatype Entry = Entry(name: string, node: Node)

  /** The glob library for one component. */
  datatype Matcher = Matcher(compiles: string -> bool, hits: (string, string) -> bool)

  const MAX_ENTRIES: nat := 4096
  const MAX_WORKSPACES: nat := 256
  const MAX_DEPTH: nat := 12

  const EXCLUDED: seq<string> :=
    [".git", ".nopal", ".beislid", ".cache", "node_modules", "target", "build", "dist", "vendor", "generated",
     "fixtures", "fixture", "examples", "example", "deps", "_build", "coverage"]

  function LowerChar(c: char): char { if 'A' <= c <= 'Z' then c - 'A' + 'a' else c }

  function Lower(s: string): string { if s == "" then "" else [LowerChar(s[0])] + Lower(s[1..]) }

  predicate Excluded(component: string) { Lower(component) in EXCLUDED }

  predicate HasMeta(component: string) { '*' in component || '?' in component || '[' in component }

  /** The names `.` and the empty name stay in the directory. */
  predicate Proper(name: string) { name != "" && name != "." }

  function FindEntry(entries: seq<Entry>, name: string): (r: Option<Entry>)
    ensures r.Some? ==> r.value in entries && r.value.name == name
    ensures r.None? ==> forall e :: e in entries ==> e.name != name
  {
    if entries == [] then None
    else if entries[0].name == name then Some(entries[0])
    else
      assert entries == [entries[0]] + entries[1..];
      FindEntry(entries[1..], name)
  }

  function Lookup(node: Node, name: string): Option<Node> {
    if !node.Directory? then None
    else if !Proper(name) then Some(node)
    else if !node.readable then None
    else
      var e := FindEntry(node.listing, name);
      if e.None? then None else Some(e.value.node)
  }

  /** Appending a component to a relative path. */
  function Join(relative: string, component: string): string {
    (if relative == "" || relative[|relative| - 1] == '/' then relative else relative + "/") + component
  }

  function Slashed(s: string): string { if s == "" then "" else [if s[0] == '\\' then '/' else s[0]] + Slashed(s[1..]) }

  // ---- Specification ------------------------------------------------------------------------------

  /** Matches so far, whether the plan is blocked or the file system failed, and the budget. */
  datatype Progress = Progress(matches: seq<string>, blocked: bool, failed: bool, entries: nat, workspaces: nat,
      exhausted: bool)

  function ConsumeEntry(p: Progress): (bool, Progress) {
    if p.exhausted then (false, p)
    else if p.entries + 1 > MAX_ENTRIES then (false, p.(entries := p.entries + 1, exhausted := true, blocked := true))
    else (true, p.(entries := p.entries + 1))
  }

  function ConsumeWorkspace(p: Progress): (bool, Progress) {
    if p.exhausted then (false, p)
    else if p.workspaces + 1 > MAX_WORKSPACES then (false,
        p.(workspaces := p.workspaces + 1, exhausted := true, blocked := true))
    else (true, p.(workspaces := p.workspaces + 1))
  }

  /** The directories of a listing that are not excluded, until the budget runs out. */
  function Collect(listing: seq<Entry>, p: Progress): (seq<Entry>, Progress) {
    if listing == [] then ([], p)
    else
      var (ok, p1) := ConsumeEntry(p);
      var e := listing[0];
      if !ok then ([], p1)
      else if Excluded(e.name) || e.node.File? then Collect(listing[1..], p1)
      else if e.node.Symlink? then Collect(listing[1..], p1.(blocked := true))
      else
        var (more, p2) := Collect(listing[1..], p1);
        ([e] + more, p2)
  }

  function ByName(): Entry -> Key { (e: Entry) => (e.name, "") }

  function Children(node: Node, p: Progress): (seq<Entry>, Progress) {
    if !node.Directory? || !node.readable then ([], p.(failed := true))
    else
      var (children, p1) := Collect(node.listing, p);
      (SortBy(children, ByName()), p1)
  }

  function Expand(m: Matcher, node: Node, relative: string, components: seq<string>, depth: nat, p: Progress): Progress
    requires depth <= MAX_DEPTH + 1
    decreases MAX_DEPTH + 2 - depth, 1, 0
  {
    if p.exhausted || p.failed then p
    else if components == [] then
      if relative == "" then p
      else
        var (ok, p1) := ConsumeWorkspace(p);
        if ok then p1.(matches := p1.matches + [Slashed(relative)]) else p1
    else if depth > MAX_DEPTH then p.(blocked := true)
    else
      var c := components[0];
      if c == "**" then
        var p1 := Expand(m, node, relative, components[1..], depth + 1, p);
        if p1.failed then p1
        else
          var (children, p2) := Children(node, p1);
          if p2.failed then p2 else ExpandEach(m, children, None, relative, components, depth + 1, p2)
      else if HasMeta(c) then
        if !m.compiles(c) then p.(blocked := true)
        else
          var (children, p1) := Children(node, p);
          if p1.failed then p1 else ExpandEach(m, children, Some(c), relative, components[1..], depth + 1, p1)
      else if Excluded(c) then p
      else
        var (ok, p1) := ConsumeEntry(p);
        if !ok then p1
        else
          match Lookup(node, c)
          case Some(Symlink) => p1.(blocked := true)
          case Some(Directory(readable, listing)) => Expand(m, Directory(readable, listing), Join(relative, c),
              components[1..], depth + 1, p1)
          case _ => p1
  }

  /** The children in order, all of them or those a glob hits. */
  function ExpandEach(m: Matcher, children: seq<Entry>, only: Option<string>, relative: string, components: seq<string>,
                      depth: nat, p: Progress): Progress
    requires depth <= MAX_DEPTH + 1
    decreases MAX_DEPTH + 2 - depth, 2, |children|
  {
    if children == [] || p.failed then p
    else
      var e := children[0];
      var p1 := if only.Some? && !m.hits(only.value, e.name) then p
                else Expand(m, e.node, Join(relative, e.name), components, depth, p);
      ExpandEach(m, children[1..], only, relative, components, depth, p1)
  }

  function Components(pattern: string): (r: seq<string>)
    ensures r != []
  {
    if pattern == "" then [""]
    else
      var rest := Components(pattern[1..]);
      if pattern[0] == '/' then [""] + rest else [[pattern[0]] + rest[0]] + rest[1..]
  }

  /** What callers check before expanding: the pattern is relative and never leaves its directory. */
  predicate Confined(pattern: string) { !StartsAtRoot(pattern) && ".." !in Components(pattern) }

  predicate StartsAtRoot(pattern: string) { pattern != "" && pattern[0] == '/' }

  /** One pattern from the root: its matches, sorted and without repeats, and the budget left. */
  function ExpandPattern(m: Matcher, root: Node, pattern: string, p: Progress): (seq<string>, Progress) {
    if p.exhausted then ([], p)
    else
      var after := Expand(m, root, "", Components(pattern), 0, p.(matches := []));
      (SortedDistinct(after.matches), after)
  }

  // ---- The expansion --------------------------------------------------------------------------------

  class Expansion {
    const matcher: Matcher
    var matches: seq<string>
    var blocked: bool
    var directoryEntries: nat
    var matchedWorkspaces: nat
    var exhausted: bool

    function Now(ok: bool): Progress reads this {
      Progress(matches, blocked, !ok, directoryEntries, matchedWorkspaces, exhausted)
    }

    constructor (matcher: Matcher)
      ensures this.matcher == matcher && Now(true) == Progress([], false, false, 0, 0, false)
    {
      this.matcher := matcher;
      matches, blocked, directoryEntries, matchedWorkspaces, exhausted := [], false, 0, 0, false;
    }

    method TakeEntry() returns (ok: bool)
      modifies this
      ensures (ok, Now(true)) == ConsumeEntry(old(Now(true)))
    {
      if exhausted { return false; }
      directoryEntries := directoryEntries + 1;
      if directoryEntries > MAX_ENTRIES {
        blocked, exhausted := true, true;
        return false;
      }
      ok := true;
    }

    method TakeWorkspace() returns (ok: bool)
      modifies this
      ensures (ok, Now(true)) == ConsumeWorkspace(old(Now(true)))
    {
      if exhausted { return false; }
      matchedWorkspaces := matchedWorkspaces + 1;
      if matchedWorkspaces > MAX_WORKSPACES {
        blocked, exhausted := true, true;
        return false;
      }
      ok := true;
    }

    method ConfinedChildDirectories(node: Node) returns (ok: bool, children: seq<Entry>)
      modifies this
      ensures (children, Now(ok)) == Children(node, old(Now(true)))
    {
      if !node.Directory? || !node.readable { return false, []; }
      var listing := node.listing;
      children := [];
      assert listing[0..] == listing && [] + Collect(listing, Now(true)).0 == Collect(listing, Now(true)).0;
      ghost var stopped := false;
      for i := 0 to |listing|
        invariant !stopped
        invariant var (rest, after) := Collect(listing[i..], Now(true));
          Collect(listing, old(Now(true))) == (children + rest, after)
      {
        var e := listing[i];
        assert listing[i..][0] == e && listing[i..][1..] == listing[i + 1..];
        var taken := TakeEntry();
        if !taken {
          assert children + [] == children;
          stopped := true;
          break;
        }
        if Excluded(e.name) { continue; }
        if e.node.Symlink? {
          blocked := true;
        } else if e.node.Directory? {
          ghost var rest := Collect(listing[i + 1..], Now(true)).0;
          assert children + ([e] + rest) == (children + [e]) + rest;
          children := children + [e];
        }
      }
      ok := true;
      assert !stopped ==> listing[|listing|..] == [] && children + [] == children;
      children := SortBy(children, ByName());
    }

    method ExpandComponents(node: Node, relative: string, components: seq<string>, depth: nat) returns (ok: bool)
      requires depth <= MAX_DEPTH + 1
      modifies this
      ensures Now(ok) == Expand(matcher, node, relative, components, depth, old(Now(true)))
      decreases MAX_DEPTH + 2 - depth, 1
    {
      hide Children, ExpandEach, Excluded, Join, Lookup, Slashed, HasMeta, ConsumeEntry, ConsumeWorkspace;
      ok := true;
      if exhausted { return; }
      if components == [] {
        if relative != "" {
          var taken := TakeWorkspace();
          if taken { matches := matches + [Slashed(relative)]; }
        }
        return;
      }
      if depth > MAX_DEPTH {
        blocked := true;
        return;
      }
      var component := components[0];
      if component == "**" {
        ok := ExpandComponents(node, relative, components[1..], depth + 1);
        if !ok { return; }
        var children;
        ok, children := ConfinedChildDirectories(node);
        if !ok { return; }
        ok := ExpandChildren(children, None, relative, components, depth + 1);
        return;
      }
      if HasMeta(component) {
        if !matcher.compiles(component) {
          blocked := true;
          return;
        }
        var children;
        ok, children := ConfinedChildDirectories(node);
        if !ok { return; }
        ok := ExpandChildren(children, Some(component), relative, components[1..], depth + 1);
        return;
      }
      if Excluded(component) { return; }
      var taken := TakeEntry();
      if !taken { return; }
      match Lookup(node, component) {
        case Some(Symlink) => blocked := true;
        case Some(Directory(readable, listing)) =>
          ok := ExpandComponents(Directory(readable, listing), Join(relative, component), components[1..], depth + 1);
        case _ =>
      }
    }

    method ExpandChildren(children: seq<Entry>, only: Option<string>, relative: string, components: seq<string>,
                          depth: nat) returns (ok: bool)
      requires depth <= MAX_DEPTH + 1
      modifies this
      ensures Now(ok) == ExpandEach(matcher, children, only, relative, components, depth, old(Now(true)))
      decreases MAX_DEPTH + 2 - depth, 2
    {
      hide Expand, Join;
      ok := true;
      for i := 0 to |children|
        invariant ok
        invariant ExpandEach(matcher, children, only, relative, components, depth, old(Now(true)))
               == ExpandEach(matcher, children[i..], only, relative, components, depth, Now(true))
      {
        var child := children[i];
        assert children[i..][0] == child && children[i..][1..] == children[i + 1..];
        if only.None? || matcher.hits(only.value, child.name) {
          ok := ExpandComponents(child.node, Join(relative, child.name), components, depth);
          if !ok { return; }
        }
      }
    }

    /** The budget and the plan carry over from pattern to pattern; the matches are this pattern's. */
    method ExpandWorkspacePattern(root: Node, pattern: string) returns (ok: bool, found: seq<string>)
      requires Confined(pattern)
      modifies this
      ensures (found, Now(ok)) == ExpandPattern(matcher, root, pattern, old(Now(true)))
    {
      if exhausted { return true, []; }
      matches := [];
      ok := ExpandComponents(root, "", Components(pattern), 0);
      found := SortedDistinct(matches);
    }
  }
}
