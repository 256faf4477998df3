/** What gate selection promises: a partition of the declared gates, first-reference order,
    indifference to the order of the changed files, and no loss of cover. */
module SelectionLaws {
  import opened Gates
  import opened Ordering
  import opened Selection

  function SelectedIds(s: seq<SelectedGate>): (r: seq<string>)
    ensures |r| == |s| && forall i :: 0 <= i < |s| ==> r[i] == s[i].gate.id
  {
    seq(|s|, i requires 0 <= i < |s| => s[i].gate.id)
  }

  function SkippedIds(s: seq<SkippedGate>): (r: seq<string>)
    ensures |r| == |s| && forall i :: 0 <= i < |s| ==> r[i] == s[i].id
  {
    seq(|s|, i requires 0 <= i < |s| => s[i].id)
  }

  function DeclaredIds(gates: seq<Gate>): (r: seq<string>)
    ensures |r| == |gates| && forall i :: 0 <= i < |gates| ==> r[i] == gates[i].id
  {
    seq(|gates|, i requires 0 <= i < |gates| => gates[i].id)
  }

  function PulledIds(pulled: seq<Pull>): (r: seq<string>)
    ensures |r| == |pulled| && forall i :: 0 <= i < |r| ==> r[i] == pulled[i].0
  {
    seq(|pulled|, i requires 0 <= i < |pulled| => pulled[i].0)
  }

  /** Every id a gate set names is declared. */
  ghost predicate Resolved(config: GatesConfig) {
    forall name, id :: name in config.gateSets && id in config.gateSets[name] ==> FindGate(config.gates, id).Some?
  }

  ghost predicate NoRepeats(xs: seq<string>) {
    forall i, j :: 0 <= i < j < |xs| ==> xs[i] != xs[j]
  }

  lemma {:induction false} OnceEach(xs: seq<string>, x: string)
    requires NoRepeats(xs)
    ensures multiset(xs)[x] == if x in xs then 1 else 0
  {
    if xs != [] {
      assert xs == [xs[0]] + xs[1..];
      OnceEach(xs[1..], x);
    }
  }

  lemma SameElementsSameBag(xs: seq<string>, ys: seq<string>)
    requires NoRepeats(xs) && NoRepeats(ys)
    requires forall x :: x in xs <==> x in ys
    ensures multiset(xs) == multiset(ys)
  {
    forall x ensures multiset(xs)[x] == multiset(ys)[x] {
      OnceEach(xs, x);
      OnceEach(ys, x);
    }
  }

  // ---- The pulled list -------------------------------------------------------------------

  lemma {:induction false} DefaultsAreDeclared(gates: seq<Gate>, all: bool, generated: set<string>)
    requires UniqueIds(gates)
    ensures NoRepeats(PulledIds(Defaults(gates, all, generated)))
    ensures forall p :: p in Defaults(gates, all, generated) ==> p.1 == Default && exists g :: g in gates && g.id == p.0
    ensures forall g :: g in gates && (all || g.id in generated) ==> Has(Defaults(gates, all, generated), g.id)
  {
    if gates != [] {
      var n := |gates| - 1;
      DefaultsAreDeclared(gates[..n], all, generated);
      assert gates == gates[..n] + [gates[n]];
      var front, whole := Defaults(gates[..n], all, generated), Defaults(gates, all, generated);
      forall i, j | 0 <= i < j < |whole| ensures whole[i].0 != whole[j].0 {
        if j == |front| {
          assert front[i] in front;
          var g :| g in gates[..n] && g.id == front[i].0;
        } else {
          assert PulledIds(front)[i] != PulledIds(front)[j];
        }
      }
      forall g | g in gates && (all || g.id in generated) ensures Has(whole, g.id) {
        if g in gates[..n] {
          var k :| 0 <= k < |front| && front[k].0 == g.id;
          assert whole[k].0 == g.id;
        } else {
          assert whole[|front|].0 == g.id;
        }
      }
    }
  }

  lemma {:induction false} FirstOnlyIsUnique(base: seq<Pull>, refs: seq<Pull>)
    requires NoRepeats(PulledIds(base))
    ensures NoRepeats(PulledIds(FirstOnly(base, refs)))
    ensures forall id :: Has(FirstOnly(base, refs), id) <==> Has(base, id) || Has(refs, id)
  {
    if refs != [] {
      var n := |refs| - 1;
      var front, whole := FirstOnly(base, refs[..n]), FirstOnly(base, refs);
      FirstOnlyIsUnique(base, refs[..n]);
      assert refs == refs[..n] + [refs[n]];
      forall i, j | 0 <= i < j < |whole| ensures whole[i].0 != whole[j].0 {
        if j < |front| { assert PulledIds(front)[i] != PulledIds(front)[j]; }
      }
      forall id ensures Has(whole, id) <==> Has(base, id) || Has(refs, id) {
        HasAppend(front, whole[|front|..], id);
        assert front + whole[|front|..] == whole;
        HasAppend(refs[..n], [refs[n]], id);
        assert Has([refs[n]], id) <==> [refs[n]][0].0 == id;
        if whole != front { assert whole[|front|..] == [refs[n]]; }
      }
    }
  }

  lemma HasNot(pulled: seq<Pull>, id: string)
    requires !Has(pulled, id)
    ensures forall k :: 0 <= k < |pulled| ==> pulled[k].0 != id
  {}

  lemma HasAppend(a: seq<Pull>, b: seq<Pull>, id: string)
    ensures Has(a + b, id) <==> Has(a, id) || Has(b, id)
  {
    if Has(a, id) { var k :| 0 <= k < |a| && a[k].0 == id; assert (a + b)[k].0 == id; }
    if Has(b, id) { var k :| 0 <= k < |b| && b[k].0 == id; assert (a + b)[|a| + k].0 == id; }
  }

  /** A reference exists exactly when a matching selector names a set that names the id. */
  lemma {:induction false} ReferencesAreReached(config: GatesConfig, globs: Globs, files: seq<string>,
                                                selectors: seq<Selector>, id: string)
    ensures Has(References(config, globs, files, selectors), id) <==>
      exists s, name :: s in selectors && MatchingFiles(globs, s, files) != []
        && name in s.gateSets && name in config.gateSets && id in config.gateSets[name]
  {
    if selectors != [] {
      var n := |selectors| - 1;
      var last := selectors[n];
      var own := if MatchingFiles(globs, last, files) == [] then []
                 else SetReferences(config, last.name, last.gateSets);
      ReferencesAreReached(config, globs, files, selectors[..n], id);
      assert selectors == selectors[..n] + [last];
      HasAppend(References(config, globs, files, selectors[..n]), own, id);
      SetReferencesAreReached(config, last.name, last.gateSets, id);
    }
  }

  lemma {:induction false} SetReferencesAreReached(config: GatesConfig, selector: string, sets: seq<string>, id: string)
    ensures Has(SetReferences(config, selector, sets), id) <==>
      exists name :: name in sets && name in config.gateSets && id in config.gateSets[name]
  {
    if sets != [] {
      var n := |sets| - 1;
      var own := if sets[n] in config.gateSets then IdReferences(config.gateSets[sets[n]],
          BySelector(selector, sets[n])) else [];
      SetReferencesAreReached(config, selector, sets[..n], id);
      assert sets == sets[..n] + [sets[n]];
      HasAppend(SetReferences(config, selector, sets[..n]), own, id);
      assert Has(own, id) <==> sets[n] in config.gateSets && id in config.gateSets[sets[n]] by {
        if sets[n] in config.gateSets && id in config.gateSets[sets[n]] {
          var k :| 0 <= k < |config.gateSets[sets[n]]| && config.gateSets[sets[n]][k] == id;
          assert own[k].0 == id;
        }
      }
    }
  }

  lemma PulledIsUniqueAndDeclared(config: GatesConfig, globs: Globs, files: seq<string>)
    requires UniqueIds(config.gates) && Resolved(config)
    ensures NoRepeats(PulledIds(Pulled(config, globs, files)))
    ensures forall id :: Has(Pulled(config, globs, files), id) ==> FindGate(config.gates, id).Some?
  {
    var generated := config.Generated();
    var base := Defaults(config.gates, config.selectors == [], generated);
    DefaultsAreDeclared(config.gates, config.selectors == [], generated);
    var refs := References(config, globs, files, config.selectors);
    FirstOnlyIsUnique(base, refs);
    forall id | Has(Pulled(config, globs, files), id) ensures FindGate(config.gates, id).Some? {
      if config.selectors != [] && Has(refs, id) {
        ReferencesAreReached(config, globs, files, config.selectors, id);
      } else {
        var k :| 0 <= k < |base| && base[k].0 == id;
        assert base[k] in base;
      }
    }
  }

  // ---- Partition -----------------------------------------------------------------------------

  /** One more pulled gate is reported once: selected, or skipped. */
  lemma ReportStep(config: GatesConfig, stage: Stage, suppressed: set<string>, pulled: seq<Pull>)
    requires pulled != [] && FindGate(config.gates, pulled[|pulled| - 1].0).Some?
    ensures var front := pulled[..|pulled| - 1];
      var (a, a') := (SelectedFrom(config, stage, suppressed, front), SelectedFrom(config, stage, suppressed, pulled));
      var (b, b') := (SkippedFrom(config, stage, suppressed, front), SkippedFrom(config, stage, suppressed, pulled));
      (exists g :: a' == a + [g] && g.gate.id == pulled[|pulled| - 1].0 && b' == b)
      || (exists g :: b' == b + [g] && g.id == pulled[|pulled| - 1].0 && a' == a)
  {
    var front := pulled[..|pulled| - 1];
    var (a, b) := (SelectedFrom(config, stage, suppressed, front), SkippedFrom(config, stage, suppressed, front));
    assert a + [] == a && b + [] == b;
  }

  lemma {:induction false} PulledGatesAreReportedOnce(config: GatesConfig, stage: Stage, suppressed: set<string>,
                                                      pulled: seq<Pull>)
    requires forall i :: 0 <= i < |pulled| ==> FindGate(config.gates, pulled[i].0).Some?
    ensures multiset(SelectedIds(SelectedFrom(config, stage, suppressed, pulled)))
          + multiset(SkippedIds(SkippedFrom(config, stage, suppressed, pulled))) == multiset(PulledIds(pulled))
  {
    hide FindGate;
    if pulled != [] {
      var n := |pulled| - 1;
      var front := pulled[..n];
      ReportStep(config, stage, suppressed, pulled);
      hide SelectedFrom, SkippedFrom;
      PulledGatesAreReportedOnce(config, stage, suppressed, front);
      assert PulledIds(pulled) == PulledIds(front) + [pulled[n].0];
      OneMoreReported(SelectedFrom(config, stage, suppressed, front), SelectedFrom(config, stage, suppressed, pulled),
                      SkippedFrom(config, stage, suppressed, front), SkippedFrom(config, stage, suppressed, pulled),
                          pulled[n].0);
    }
  }

  lemma OneMoreReported(a: seq<SelectedGate>, a': seq<SelectedGate>, b: seq<SkippedGate>, b': seq<SkippedGate>,
                        id: string)
    requires (exists g :: a' == a + [g] && g.gate.id == id && b' == b) ||
        (exists g :: b' == b + [g] && g.id == id && a' == a)
    ensures multiset(SelectedIds(a')) + multiset(SkippedIds(b')) ==
        multiset(SelectedIds(a)) + multiset(SkippedIds(b)) + multiset{id}
  {
    if |a'| == |a| + 1 { assert SelectedIds(a') == SelectedIds(a) + [id]; }
    else { assert SkippedIds(b') == SkippedIds(b) + [id]; }
  }

  lemma {:induction false} NeverPulledIsTheRest(gates: seq<Gate>, suppressed: set<string>, pulled: seq<Pull>)
    requires UniqueIds(gates)
    ensures NoRepeats(SkippedIds(NeverPulled(gates, suppressed, pulled)))
    ensures forall id :: id in SkippedIds(NeverPulled(gates, suppressed, pulled)) <==>
      !Has(pulled, id) && id in DeclaredIds(gates)
  {
    if gates != [] {
      var n := |gates| - 1;
      NeverPulledIsTheRest(gates[..n], suppressed, pulled);
      var front, whole := NeverPulled(gates[..n], suppressed, pulled), NeverPulled(gates, suppressed, pulled);
      assert DeclaredIds(gates) == DeclaredIds(gates[..n]) + [gates[n].id];
      assert SkippedIds(whole) == SkippedIds(front) + (if Has(pulled, gates[n].id) then [] else [gates[n].id]);
      assert gates[n].id !in DeclaredIds(gates[..n]);
    }
  }

  lemma SkippedIdsAppend(a: seq<SkippedGate>, b: seq<SkippedGate>)
    ensures multiset(SkippedIds(a + b)) == multiset(SkippedIds(a)) + multiset(SkippedIds(b))
  {
    assert SkippedIds(a + b) == SkippedIds(a) + SkippedIds(b);
  }

  /** Every declared gate is reported exactly once, as selected or as skipped, and nothing else is. */
  lemma SelectionPartitions(config: GatesConfig, globs: Globs, stage: Stage, changedFiles: seq<string>)
    requires UniqueIds(config.gates) && Resolved(config)
    ensures var s := SelectionOf(config, globs, stage, changedFiles);
      multiset(SelectedIds(s.selected)) + multiset(SkippedIds(s.skipped)) == multiset(DeclaredIds(config.gates))
  {
    var s := SelectionOf(config, globs, stage, changedFiles);
    var pulled := Pulled(config, globs, s.changedFiles);
    var suppressed := Suppressed(config, globs, stage, s.changedFiles, pulled);
    var skipped, unpulled := SkippedFrom(config, stage, suppressed, pulled),
        NeverPulled(config.gates, suppressed, pulled);
    assert s.selected == SelectedFrom(config, stage, suppressed, pulled) && s.skipped == skipped + unpulled;
    hide *;
    PulledIsUniqueAndDeclared(config, globs, s.changedFiles);
    EachPulledIsDeclared(config, pulled);
    PulledGatesAreReportedOnce(config, stage, suppressed, pulled);
    NeverPulledIsTheRest(config.gates, suppressed, pulled);
    SkippedIdsAppend(skipped, unpulled);
    PulledAndRestAreDeclared(config, pulled, SkippedIds(unpulled));
  }

  lemma EachPulledIsDeclared(config: GatesConfig, pulled: seq<Pull>)
    requires forall id :: Has(pulled, id) ==> FindGate(config.gates, id).Some?
    ensures forall i :: 0 <= i < |pulled| ==> FindGate(config.gates, pulled[i].0).Some?
  {
    hide FindGate;
    forall i | 0 <= i < |pulled| ensures FindGate(config.gates, pulled[i].0).Some? { assert Has(pulled, pulled[i].0); }
  }

  lemma PulledAndRestAreDeclared(config: GatesConfig, pulled: seq<Pull>, rest: seq<string>)
    requires UniqueIds(config.gates) && NoRepeats(PulledIds(pulled)) && NoRepeats(rest)
    requires forall id :: Has(pulled, id) ==> FindGate(config.gates, id).Some?
    requires forall id :: id in rest <==> !Has(pulled, id) && id in DeclaredIds(config.gates)
    ensures multiset(PulledIds(pulled)) + multiset(rest) == multiset(DeclaredIds(config.gates))
  {
    var ids, declared := PulledIds(pulled), DeclaredIds(config.gates);
    forall id ensures id in ids <==> Has(pulled, id) {
      if Has(pulled, id) { var k :| 0 <= k < |pulled| && pulled[k].0 == id; assert ids[k] == id; }
      if id in ids { var k :| 0 <= k < |ids| && ids[k] == id; assert pulled[k].0 == id; }
    }
    forall id | Has(pulled, id) ensures id in declared {
      var g := FindGate(config.gates, id).value;
      var d :| 0 <= d < |config.gates| && config.gates[d] == g;
      assert declared[d] == id;
    }
    forall i, j | 0 <= i < j < |ids + rest| ensures (ids + rest)[i] != (ids + rest)[j] {
      if i < |ids| <= j { assert ids[i] in ids && rest[j - |ids|] in rest; }
    }
    SameElementsSameBag(ids + rest, declared);
  }

  // ---- Order ---------------------------------------------------------------------------------

  /** Everything that could pull a gate, in declaration order. */
  function AllReferences(config: GatesConfig, globs: Globs, files: seq<string>): seq<Pull> {
    Defaults(config.gates, config.selectors == [], config.Generated())
    + if config.selectors == [] then [] else References(config, globs, files, config.selectors)
  }

  /** Each selected gate sits at the position of the first reference to its id, and positions increase. */
  ghost predicate AtFirstReference(at: seq<nat>, selected: seq<SelectedGate>, all: seq<Pull>) {
    && |at| == |selected|
    && (forall i, j :: 0 <= i < j < |at| ==> at[i] < at[j])
    && (forall i :: 0 <= i < |at| ==> at[i] < |all| && all[at[i]] == (selected[i].gate.id, selected[i].via))
    && (forall i, k :: 0 <= i < |at| && 0 <= k < at[i] ==> all[k].0 != selected[i].gate.id)
  }

  ghost predicate FirstPositions(at: seq<nat>, pulled: seq<Pull>, all: seq<Pull>) {
    && |at| == |pulled|
    && (forall i, j :: 0 <= i < j < |at| ==> at[i] < at[j])
    && (forall i :: 0 <= i < |at| ==> at[i] < |all| && all[at[i]] == pulled[i])
    && (forall i, k :: 0 <= i < |at| && 0 <= k < at[i] ==> all[k].0 != pulled[i].0)
  }

  lemma {:induction false} FirstOnlyPositions(base: seq<Pull>, refs: seq<Pull>) returns (at: seq<nat>)
    requires NoRepeats(PulledIds(base))
    ensures FirstPositions(at, FirstOnly(base, refs), base + refs)
  {
    if refs == [] {
      at := seq(|base|, i => i);
      assert base + refs == base;
      forall i, k | 0 <= i < |at| && 0 <= k < at[i] ensures base[k].0 != base[i].0 {
        assert PulledIds(base)[k] != PulledIds(base)[i];
      }
    } else {
      var n := |refs| - 1;
      at := FirstOnlyPositions(base, refs[..n]);
      FirstOnlyIsUnique(base, refs[..n]);
      at := OneMorePosition(FirstOnly(base, refs[..n]), base, refs, at);
    }
  }

  lemma OneMorePosition(front: seq<Pull>, base: seq<Pull>, refs: seq<Pull>, at: seq<nat>) returns (more: seq<nat>)
    requires refs != [] && front == FirstOnly(base, refs[..|refs| - 1])
    requires FirstPositions(at, front, base + refs[..|refs| - 1])
    requires forall id :: Has(front, id) <==> Has(base, id) || Has(refs[..|refs| - 1], id)
    ensures FirstPositions(more, FirstOnly(base, refs), base + refs)
  {
    hide FirstOnly, Has;
    var n := |refs| - 1;
    var all, earlier := base + refs, base + refs[..n];
    assert refs == refs[..n] + [refs[n]] && all == earlier + [refs[n]];
    FirstOnlyOneMore(base, refs[..n], refs[n]);
    more := at;
    if !Has(front, refs[n].0) {
      HasAppend(base, refs[..n], refs[n].0);
      HasNot(earlier, refs[n].0);
      more := at + [|earlier|];
    }
  }

  lemma FrontPositions(at: seq<nat>, pulled: seq<Pull>, all: seq<Pull>)
    requires FirstPositions(at, pulled, all) && pulled != []
    ensures FirstPositions(at[..|at| - 1], pulled[..|pulled| - 1], all)
    ensures forall k :: k in at[..|at| - 1] ==> k < at[|at| - 1] && k in at
  {
    var n := |at| - 1;
    assert forall i :: 0 <= i < n ==> at[..n][i] == at[i] && pulled[..n][i] == pulled[i];
  }

  lemma NextReference(kept: seq<nat>, selected: seq<SelectedGate>, all: seq<Pull>, k: nat, g: SelectedGate)
    requires AtFirstReference(kept, selected, all) && (forall i :: 0 <= i < |kept| ==> kept[i] < k)
    requires k < |all| && all[k] == (g.gate.id, g.via) && forall j :: 0 <= j < k ==> all[j].0 != g.gate.id
    ensures AtFirstReference(kept + [k], selected + [g], all)
  {}

  lemma {:induction false} SelectedPositions(config: GatesConfig, stage: Stage, suppressed: set<string>,
                                             pulled: seq<Pull>,
                                             all: seq<Pull>, at: seq<nat>) returns (kept: seq<nat>)
    requires FirstPositions(at, pulled, all)
    ensures AtFirstReference(kept, SelectedFrom(config, stage, suppressed, pulled), all)
    ensures forall k :: k in kept ==> k in at
    ensures forall g :: g in SelectedFrom(config, stage, suppressed, pulled) ==>
        g.gate.stage == stage && g.gate in config.gates
  {
    hide FindGate, AtFirstReference;
    if pulled == [] {
      kept := [];
      assert AtFirstReference(kept, SelectedFrom(config, stage, suppressed, pulled), all) by { NothingReferenced(all); }
    } else {
      var n := |pulled| - 1;
      FrontPositions(at, pulled, all);
      assert at[n] < |all| && all[at[n]] == pulled[n] && forall j :: 0 <= j < at[n] ==> all[j].0 != pulled[n].0;
      hide FirstPositions;
      kept := SelectedPositions(config, stage, suppressed, pulled[..n], all, at[..n]);
      var found := FindGate(config.gates, pulled[n].0);
      assert SelectedFrom(config, stage, suppressed, pulled[..n]) + [] ==
          SelectedFrom(config, stage, suppressed, pulled[..n]);
      if found.Some? && found.value.id !in suppressed && found.value.stage == stage {
        forall i | 0 <= i < |kept| ensures kept[i] < at[n] { assert kept[i] in at[..n]; }
        NextReference(kept, SelectedFrom(config, stage, suppressed, pulled[..n]), all, at[n],
            SelectedGate(found.value, pulled[n].1));
        kept := kept + [at[n]];
      }
    }
  }

  lemma NothingReferenced(all: seq<Pull>)
    ensures AtFirstReference([], [], all)
  {}

  /** Selected gates match the stage and stand in the order of their first references,
      each explained by that first reference. */
  lemma FirstReferenceWins(config: GatesConfig, globs: Globs, stage: Stage, changedFiles: seq<string>)
    requires UniqueIds(config.gates)
    ensures var s := SelectionOf(config, globs, stage, changedFiles);
      && (forall g :: g in s.selected ==> g.gate.stage == stage && g.gate in config.gates)
      && exists at: seq<nat> :: AtFirstReference(at, s.selected, AllReferences(config, globs, s.changedFiles))
  {
    var s := SelectionOf(config, globs, stage, changedFiles);
    var generated := config.Generated();
    var base := Defaults(config.gates, config.selectors == [], generated);
    DefaultsAreDeclared(config.gates, config.selectors == [], generated);
    var pulled := Pulled(config, globs, s.changedFiles);
    var refs := if config.selectors == [] then [] else References(config, globs, s.changedFiles, config.selectors);
    assert pulled == FirstOnly(base, refs);
    var at := FirstOnlyPositions(base, refs);
    var kept := SelectedPositions(config, stage, Suppressed(config, globs, stage, s.changedFiles, pulled), pulled,
        base + refs, at);
    assert base + refs == AllReferences(config, globs, s.changedFiles);
  }

  /** Only the set of changed files matters. */
  lemma ChangedFilesAreASet(config: GatesConfig, globs: Globs, stage: Stage, one: seq<string>, other: seq<string>)
    requires forall f :: f in one <==> f in other
    ensures SelectionOf(config, globs, stage, one) == SelectionOf(config, globs, stage, other)
  {
    SortForgetsOrder(one, other);
  }

  // ---- Suppression ---------------------------------------------------------------------------

  /** A selected gate of the stage that was checked in, not generated. */
  ghost predicate SelectedExplicit(config: GatesConfig, s: Selection, g: SelectedGate) {
    g in s.selected && g.gate.stage == s.stage && g.gate.id !in config.Generated()
  }

  /** A selector in scope of the file names a set that names a selected explicit gate. */
  ghost predicate CoveredBySelected(config: GatesConfig, globs: Globs, s: Selection, file: string) {
    exists sel, name, g :: sel in config.selectors && globs.InScope(sel, file)
      && name in sel.gateSets && name in config.gateSets
      && SelectedExplicit(config, s, g) && g.gate.id in config.gateSets[name]
  }

  lemma {:induction false} PulledExplicitIsSelected(config: GatesConfig, stage: Stage, suppressed: set<string>,
                                                    pulled: seq<Pull>, id: string)
    requires Has(pulled, id) && ExplicitAt(config, stage, id) && suppressed <= config.Generated()
    ensures exists g ::
      g in SelectedFrom(config, stage, suppressed, pulled) && g.gate == FindGate(config.gates, id).value
  {
    var n := |pulled| - 1;
    if pulled[n].0 == id {
      assert SelectedFrom(config, stage, suppressed,
          pulled)[|SelectedFrom(config, stage, suppressed, pulled[..n])|].gate
          == FindGate(config.gates, id).value;
    } else {
      var k :| 0 <= k < |pulled| && pulled[k].0 == id;
      assert pulled[..n][k].0 == id;
      PulledExplicitIsSelected(config, stage, suppressed, pulled[..n], id);
    }
  }

  /** A generated gate is superseded only while selected explicit proof for the stage stands in
      for it; with selectors configured, that proof reaches every changed file. */
  lemma SuppressionKeepsCover(config: GatesConfig, globs: Globs, stage: Stage, changedFiles: seq<string>,
                              gone: SkippedGate)
    requires gone in SelectionOf(config, globs, stage, changedFiles).skipped
    requires gone.reason == SupersededByExplicitAuthority
    ensures var s := SelectionOf(config, globs, stage, changedFiles);
      && (exists g :: SelectedExplicit(config, s, g))
      && (config.selectors != [] ==> forall f :: f in changedFiles ==> CoveredBySelected(config, globs, s, f))
  {
    var s := SelectionOf(config, globs, stage, changedFiles);
    var pulled := Pulled(config, globs, s.changedFiles);
    var suppressed := Suppressed(config, globs, stage, s.changedFiles, pulled);
    assert suppressed != {} by {
      NothingSupersededByNothing(config, stage, pulled);
    }
    if config.selectors == [] {
      var p :| p in pulled && ExplicitAt(config, stage, p.0);
      var k :| 0 <= k < |pulled| && pulled[k] == p;
      assert Has(pulled, p.0);
      PulledExplicitIsSelected(config, stage, suppressed, pulled, p.0);
      var g :| g in s.selected && g.gate == FindGate(config.gates, p.0).value;
      assert SelectedExplicit(config, s, g);
    } else {
      forall f | f in s.changedFiles ensures CoveredBySelected(config, globs, s, f) {
        FileIsCovered(config, globs, stage, changedFiles, f);
      }
      assert s.changedFiles[0] in s.changedFiles;
      var sel, name, g :| sel in config.selectors && globs.InScope(sel, s.changedFiles[0])
        && name in sel.gateSets && name in config.gateSets && SelectedExplicit(config, s, g) &&
            g.gate.id in config.gateSets[name];
    }
  }

  lemma FileIsCovered(config: GatesConfig, globs: Globs, stage: Stage, changedFiles: seq<string>, f: string)
    requires config.selectors != []
    requires var files := SortedDistinct(changedFiles);
      f in files && Covers(config, globs, stage, files, Pulled(config, globs, files))
    ensures CoveredBySelected(config, globs, SelectionOf(config, globs, stage, changedFiles), f)
  {
    var s := SelectionOf(config, globs, stage, changedFiles);
    var pulled := Pulled(config, globs, s.changedFiles);
    var sel :| sel in config.selectors && ReachesExplicit(config, stage, sel) && globs.InScope(sel, f);
    var name, id :| name in sel.gateSets && name in config.gateSets && id in config.gateSets[name] &&
        ExplicitAt(config, stage, id);
    assert f in MatchingFiles(globs, sel, s.changedFiles);
    ReferencesAreReached(config, globs, s.changedFiles, config.selectors, id);
    FirstOnlyHas(Defaults(config.gates, false, config.Generated()),
        References(config, globs, s.changedFiles, config.selectors), id);
    PulledExplicitIsSelected(config, stage, Suppressed(config, globs, stage, s.changedFiles, pulled), pulled, id);
    var g :| g in s.selected && g.gate == FindGate(config.gates, id).value;
    assert SelectedExplicit(config, s, g);
  }

  lemma {:induction false} FirstOnlyHas(base: seq<Pull>, refs: seq<Pull>, id: string)
    requires Has(refs, id)
    ensures Has(FirstOnly(base, refs), id)
  {
    var n := |refs| - 1;
    var front, whole := FirstOnly(base, refs[..n]), FirstOnly(base, refs);
    if refs[n].0 == id {
      if Has(front, id) { var k :| 0 <= k < |front| && front[k].0 == id; assert whole[k].0 == id; }
      else { assert whole[|front|].0 == id; }
    } else {
      var k :| 0 <= k < |refs| && refs[k].0 == id;
      assert refs[..n][k].0 == id;
      FirstOnlyHas(base, refs[..n], id);
      var m :| 0 <= m < |front| && front[m].0 == id;
      assert whole[m].0 == id;
    }
  }

  lemma {:induction false} NothingSupersededByNothing(config: GatesConfig, stage: Stage, pulled: seq<Pull>)
    ensures forall g :: g in SkippedFrom(config, stage, {}, pulled) ==> g.reason != SupersededByExplicitAuthority
    ensures forall g :: g in NeverPulled(config.gates, {}, pulled) ==> g.reason != SupersededByExplicitAuthority
  {
    if pulled != [] { NothingSupersededByNothing(config, stage, pulled[..|pulled| - 1]); }
    NothingUnpulledSuperseded(config.gates, pulled);
  }

  lemma {:induction false} NothingUnpulledSuperseded(gates: seq<Gate>, pulled: seq<Pull>)
    ensures forall g :: g in NeverPulled(gates, {}, pulled) ==> g.reason != SupersededByExplicitAuthority
  {
    if gates != [] { NothingUnpulledSuperseded(gates[..|gates| - 1], pulled); }
  }
}
