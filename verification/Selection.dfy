/** Deterministic gate selection over changed files. */
module Selection {
  import opened Wrappers
  import opened Gates
  import opened Ordering

  datatype Via = Default | BySelector(selector: string, gateSet: string)

  datatype SkipReason = StageMismatch | NotSelected | SupersededByExplicitAuthority

  datatype SelectedGate = SelectedGate(gate: Gate, via: Via)

  datatype SkippedGate = SkippedGate(id: string, stage: Stage, reason: SkipReason, via: Option<Via>)

  datatype SelectorMatch = SelectorMatch(name: string, matched: bool, files: seq<string>)

  datatype Selection = Selection(
    stage: Stage,
    changedFiles: seq<string>,
    selectors: seq<SelectorMatch>,
    selected: seq<SelectedGate>,
    skipped: seq<SkippedGate>)

  type Pull = (string, Via)

  // ---- Specification -----------------------------------------------------------------

  function MatchingFiles(globs: Globs, s: Selector, files: seq<string>): (r: seq<string>)
    ensures forall f :: f in r <==> f in files && globs.InScope(s, f)
  {
    if files == [] then []
    else
      var rest := MatchingFiles(globs, s, files[..|files| - 1]);
      var last := files[|files| - 1];
      assert files == files[..|files| - 1] + [last];
      if globs.InScope(s, last) then rest + [last] else rest
  }

  function Matches(globs: Globs, selectors: seq<Selector>, files: seq<string>): (r: seq<SelectorMatch>)
    ensures |r| == |selectors|
  {
    seq(|selectors|, i requires 0 <= i < |selectors| =>
      var found := MatchingFiles(globs, selectors[i], files);
      SelectorMatch(selectors[i].name, found != [], found))
  }

  /** Every gate reference the matching selectors make, in declaration order, repeats included. */
  function References(config: GatesConfig, globs: Globs, files: seq<string>, selectors: seq<Selector>): seq<Pull> {
    if selectors == [] then []
    else
      var last := selectors[|selectors| - 1];
      References(config, globs, files, selectors[..|selectors| - 1])
      + (if MatchingFiles(globs, last, files) == [] then [] else SetReferences(config, last.name, last.gateSets))
  }

  function SetReferences(config: GatesConfig, selector: string, sets: seq<string>): seq<Pull> {
    if sets == [] then []
    else
      var last := sets[|sets| - 1];
      SetReferences(config, selector, sets[..|sets| - 1])
      + (if last in config.gateSets then IdReferences(config.gateSets[last], BySelector(selector, last)) else [])
  }

  function IdReferences(ids: seq<string>, via: Via): (r: seq<Pull>)
    ensures |r| == |ids|
    ensures forall i :: 0 <= i < |r| ==> r[i] == (ids[i], via)
  {
    seq(|ids|, i requires 0 <= i < |ids| => (ids[i], via))
  }

  /** Whole documents pull by default; beside selectors only the generated baseline does. */
  function Defaults(gates: seq<Gate>, all: bool, generated: set<string>): seq<Pull> {
    if gates == [] then []
    else
      var last := gates[|gates| - 1];
      Defaults(gates[..|gates| - 1], all, generated)
      + (if all || last.id in generated then [(last.id, Default)] else [])
  }

  predicate Has(pulled: seq<Pull>, id: string) {
    exists i :: 0 <= i < |pulled| && pulled[i].0 == id
  }

  /** Append the references whose id is still new: each id keeps its first reference. */
  function FirstOnly(base: seq<Pull>, refs: seq<Pull>): (r: seq<Pull>)
    ensures base <= r
  {
    if refs == [] then base
    else
      var rest := FirstOnly(base, refs[..|refs| - 1]);
      if Has(rest, refs[|refs| - 1].0) then rest else rest + [refs[|refs| - 1]]
  }

  function Pulled(config: GatesConfig, globs: Globs, files: seq<string>): seq<Pull> {
    var generated := config.Generated();
    if config.selectors == [] then Defaults(config.gates, true, generated)
    else FirstOnly(Defaults(config.gates, false, generated),
                   References(config, globs, files, config.selectors))
  }

  /** The id resolves to a checked-in gate of the stage. */
  predicate ExplicitAt(config: GatesConfig, stage: Stage, id: string) {
    var found := FindGate(config.gates, id);
    found.Some? && found.value.stage == stage && found.value.id !in config.Generated()
  }

  predicate ReachesExplicit(config: GatesConfig, stage: Stage, s: Selector) {
    exists name, id :: name in s.gateSets && name in config.gateSets && id in config.gateSets[name]
      && ExplicitAt(config, stage, id)
  }

  predicate Covers(config: GatesConfig, globs: Globs, stage: Stage, files: seq<string>, pulled: seq<Pull>) {
    if config.selectors == [] then exists p :: p in pulled && ExplicitAt(config, stage, p.0)
    else
      && files != []
      && forall f :: f in files ==>
          exists s :: s in config.selectors && ReachesExplicit(config, stage, s) && globs.InScope(s, f)
  }

  function Suppressed(config: GatesConfig, globs: Globs, stage: Stage, files: seq<string>,
                      pulled: seq<Pull>): set<string> {
    if config.scaffold.Some? && Covers(config, globs, stage, files, pulled) then config.Generated() else {}
  }

  function SelectedFrom(config: GatesConfig, stage: Stage, suppressed: set<string>,
                        pulled: seq<Pull>): seq<SelectedGate> {
    if pulled == [] then []
    else
      var (id, via) := pulled[|pulled| - 1];
      var found := FindGate(config.gates, id);
      SelectedFrom(config, stage, suppressed, pulled[..|pulled| - 1])
      + (if found.Some? && found.value.id !in suppressed && found.value.stage == stage
         then [SelectedGate(found.value, via)] else [])
  }

  function SkippedFrom(config: GatesConfig, stage: Stage, suppressed: set<string>,
                       pulled: seq<Pull>): seq<SkippedGate> {
    if pulled == [] then []
    else
      var (id, via) := pulled[|pulled| - 1];
      var found := FindGate(config.gates, id);
      SkippedFrom(config, stage, suppressed, pulled[..|pulled| - 1])
      + (if found.None? then []
         else if found.value.id in suppressed
         then [SkippedGate(found.value.id, found.value.stage, SupersededByExplicitAuthority, Some(via))]
         else if found.value.stage == stage then []
         else [SkippedGate(found.value.id, found.value.stage, StageMismatch, Some(via))])
  }

  function NeverPulled(gates: seq<Gate>, suppressed: set<string>, pulled: seq<Pull>): seq<SkippedGate> {
    if gates == [] then []
    else
      var last := gates[|gates| - 1];
      NeverPulled(gates[..|gates| - 1], suppressed, pulled)
      + (if Has(pulled, last.id) then []
         else [SkippedGate(last.id, last.stage,
                           if last.id in suppressed then SupersededByExplicitAuthority else NotSelected, None)])
  }

  function SelectionOf(config: GatesConfig, globs: Globs, stage: Stage, changedFiles: seq<string>): Selection {
    var files := SortedDistinct(changedFiles);
    var pulled := Pulled(config, globs, files);
    var suppressed := Suppressed(config, globs, stage, files, pulled);
    Selection(
      stage,
      files,
      Matches(globs, config.selectors, files),
      SelectedFrom(config, stage, suppressed, pulled),
      SkippedFrom(config, stage, suppressed, pulled) + NeverPulled(config.gates, suppressed, pulled))
  }

  // ---- The selecting pass -------------------------------------------------------------

  /** Walk the selectors, then decide suppression, then filter by stage. */
  method Select(config: GatesConfig, globs: Globs, stage: Stage, changedFiles: seq<string>)
    returns (selection: Selection)
    ensures selection == SelectionOf(config, globs, stage, changedFiles)
  {
    var files := SortedDistinct(changedFiles);
    var generated := config.Generated();
    var pulled, selectors := PullGates(config, globs, files);
    var covers := CoversSelection(config, globs, stage, files, selectors, pulled);
    var suppressed := if config.scaffold.Some? && covers then generated else {};

    var selected, skipped := FilterByStage(config, stage, suppressed, pulled);
    var unpulled := ReportUnpulled(config.gates, suppressed, pulled);
    selection := Selection(stage, files, selectors, selected, skipped + unpulled);
  }

  method FilterByStage(config: GatesConfig, stage: Stage, suppressed: set<string>, pulled: seq<Pull>)
    returns (selected: seq<SelectedGate>, skipped: seq<SkippedGate>)
    ensures selected == SelectedFrom(config, stage, suppressed, pulled)
    ensures skipped == SkippedFrom(config, stage, suppressed, pulled)
  {
    selected, skipped := [], [];
    for i := 0 to |pulled|
      invariant selected == SelectedFrom(config, stage, suppressed, pulled[..i])
      invariant skipped == SkippedFrom(config, stage, suppressed, pulled[..i])
    {
      assert pulled[..i + 1][..i] == pulled[..i];
      var (id, via) := pulled[i];
      var found := FindGate(config.gates, id);
      if found.Some? {
        var gate := found.value;
        if gate.id in suppressed {
          skipped := skipped + [SkippedGate(gate.id, gate.stage, SupersededByExplicitAuthority, Some(via))];
        } else if gate.stage == stage {
          selected := selected + [SelectedGate(gate, via)];
        } else {
          skipped := skipped + [SkippedGate(gate.id, gate.stage, StageMismatch, Some(via))];
        }
      }
    }
    assert pulled[..|pulled|] == pulled;
  }

  method ReportUnpulled(gates: seq<Gate>, suppressed: set<string>, pulled: seq<Pull>)
    returns (skipped: seq<SkippedGate>)
    ensures skipped == NeverPulled(gates, suppressed, pulled)
  {
    skipped := [];
    for i := 0 to |gates|
      invariant skipped == NeverPulled(gates[..i], suppressed, pulled)
    {
      assert gates[..i + 1][..i] == gates[..i];
      if !Has(pulled, gates[i].id) {
        var reason := if gates[i].id in suppressed then SupersededByExplicitAuthority else NotSelected;
        skipped := skipped + [SkippedGate(gates[i].id, gates[i].stage, reason, None)];
      }
    }
    assert gates[..|gates|] == gates;
  }

  method PullGates(config: GatesConfig, globs: Globs, files: seq<string>)
    returns (pulled: seq<Pull>, selectors: seq<SelectorMatch>)
    ensures pulled == Pulled(config, globs, files)
    ensures selectors == Matches(globs, config.selectors, files)
  {
    hide FirstOnly, Defaults, MatchingFiles;
    var base := PullDefaults(config.gates, config.selectors == [], config.Generated());
    pulled, selectors := base, [];
    FirstOnlyNothing(base);
    if config.selectors == [] { return; }
    for i := 0 to |config.selectors|
      invariant pulled == FirstOnly(base, References(config, globs, files, config.selectors[..i]))
      invariant selectors == Matches(globs, config.selectors[..i], files)
    {
      var selector := config.selectors[i];
      assert config.selectors[..i + 1][..i] == config.selectors[..i];
      var found := MatchingFiles(globs, selector, files);
      if found != [] {
        pulled := PullSets(config, selector, base, References(config, globs, files, config.selectors[..i]), pulled);
      } else {
        assert References(config, globs, files, config.selectors[..i]) + [] ==
            References(config, globs, files, config.selectors[..i]);
      }
      selectors := selectors + [SelectorMatch(selector.name, found != [], found)];
    }
    assert config.selectors[..|config.selectors|] == config.selectors;
  }

  lemma FirstOnlyNothing(base: seq<Pull>)
    ensures FirstOnly(base, []) == base
  {}

  lemma FirstOnlyOneMore(base: seq<Pull>, refs: seq<Pull>, next: Pull)
    ensures FirstOnly(base, refs + [next])
      == FirstOnly(base, refs) + if Has(FirstOnly(base, refs), next.0) then [] else [next]
  {
    assert (refs + [next])[..|refs|] == refs;
  }

  method PullDefaults(gates: seq<Gate>, all: bool, generated: set<string>) returns (pulled: seq<Pull>)
    ensures pulled == Defaults(gates, all, generated)
  {
    pulled := [];
    for i := 0 to |gates|
      invariant pulled == Defaults(gates[..i], all, generated)
    {
      assert gates[..i + 1][..i] == gates[..i];
      if all || gates[i].id in generated {
        pulled := pulled + [(gates[i].id, Default)];
      }
    }
    assert gates[..|gates|] == gates;
  }

  method PullSets(config: GatesConfig, selector: Selector, ghost base: seq<Pull>, ghost before: seq<Pull>,
                  start: seq<Pull>)
    returns (pulled: seq<Pull>)
    requires start == FirstOnly(base, before)
    ensures pulled == FirstOnly(base, before + SetReferences(config, selector.name, selector.gateSets))
  {
    hide FirstOnly;
    pulled := start;
    assert before + [] == before;
    for j := 0 to |selector.gateSets|
      invariant pulled == FirstOnly(base, before + SetReferences(config, selector.name, selector.gateSets[..j]))
    {
      var name := selector.gateSets[j];
      ghost var earlier := SetReferences(config, selector.name, selector.gateSets[..j]);
      assert selector.gateSets[..j + 1][..j] == selector.gateSets[..j];
      if name in config.gateSets {
        var ids := config.gateSets[name];
        var via := BySelector(selector.name, name);
        assert before + earlier + IdReferences(ids[..0], via) == before + earlier;
        for k := 0 to |ids|
          invariant pulled == FirstOnly(base, before + earlier + IdReferences(ids[..k], via))
        {
          var refs := before + earlier + IdReferences(ids[..k + 1], via);
          assert refs == before + earlier + IdReferences(ids[..k], via) + [(ids[k], via)];
          FirstOnlyOneMore(base, before + earlier + IdReferences(ids[..k], via), (ids[k], via));
          if !Has(pulled, ids[k]) {
            pulled := pulled + [(ids[k], via)];
          }
        }
        assert ids[..|ids|] == ids;
        assert before + earlier + IdReferences(ids, via) == before + (earlier + IdReferences(ids, via));
      } else {
        assert earlier + [] == earlier;
      }
    }
    assert selector.gateSets[..|selector.gateSets|] == selector.gateSets;
  }

  /** Collect the files covered by selectors that reach explicit proof for the stage. */
  method CoversSelection(config: GatesConfig, globs: Globs, stage: Stage, files: seq<string>,
                         selectors: seq<SelectorMatch>, pulled: seq<Pull>)
    returns (covers: bool)
    requires selectors == Matches(globs, config.selectors, files)
    ensures covers == Covers(config, globs, stage, files, pulled)
  {
    if config.selectors == [] {
      return exists p :: p in pulled && ExplicitAt(config, stage, p.0);
    }
    if files == [] { return false; }
    var covered := CoveredFiles(config, globs, stage, files, selectors);
    covers := forall f :: f in files ==> f in covered;
  }

  /** The files whose matching selectors reach explicit authority. */
  method CoveredFiles(config: GatesConfig, globs: Globs, stage: Stage, files: seq<string>,
                      selectors: seq<SelectorMatch>)
    returns (covered: set<string>)
    requires selectors == Matches(globs, config.selectors, files)
    ensures forall f :: f in covered <==>
      f in files && exists s :: s in config.selectors && ReachesExplicit(config, stage, s) && globs.InScope(s, f)
  {
    covered := {};
    for i := 0 to |config.selectors|
      invariant forall f :: f in covered <==>
        f in files && exists s :: s in config.selectors[..i] && ReachesExplicit(config, stage, s) && globs.InScope(s, f)
    {
      var s := config.selectors[i];
      assert config.selectors[..i + 1] == config.selectors[..i] + [s];
      var reaches := ReachesAny(config, stage, s);
      hide ReachesExplicit;
      if reaches { covered := covered + (set f | f in selectors[i].files); }
    }
    assert config.selectors[..|config.selectors|] == config.selectors;
  }

  method ReachesAny(config: GatesConfig, stage: Stage, s: Selector) returns (reaches: bool)
    ensures reaches == ReachesExplicit(config, stage, s)
  {
    reaches := exists name | name in s.gateSets ::
      (name in config.gateSets && exists id | id in config.gateSets[name] :: ExplicitAt(config, stage, id));
  }
}
