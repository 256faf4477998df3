/** What composition promises across sources and stages. */
module CompositionLaws {
  import opened Wrappers
  import opened Gates
  import opened Ordering
  import opened Selection
  import opened Composition

  ghost predicate DistinctIds(entries: seq<Entry>) {
    forall i, j :: 0 <= i < j < |entries| ==> entries[i].selected.gate.id != entries[j].selected.gate.id
  }

  /** The returned gates have pairwise different ids, and every retained id is returned. */
  lemma {:induction false} ComposedIdsAreUnique(entries: seq<Entry>)
    ensures DistinctIds(FirstById(entries))
    ensures forall id :: HasId(FirstById(entries), id) <==> HasId(entries, id)
    ensures forall e :: e in FirstById(entries) ==> e in entries
  {
    if entries != [] {
      var n := |entries| - 1;
      var front := FirstById(entries[..n]);
      ComposedIdsAreUnique(entries[..n]);
      assert entries == entries[..n] + [entries[n]];
      forall id ensures HasId(FirstById(entries), id) <==> HasId(entries, id) {
        HasIdAppend(entries[..n], [entries[n]], id);
        HasIdAppend(front, [entries[n]], id);
        assert HasId([entries[n]], id) <==> [entries[n]][0].selected.gate.id == id;
      }
    }
  }

  lemma HasIdAppend(a: seq<Entry>, b: seq<Entry>, id: string)
    ensures HasId(a + b, id) <==> HasId(a, id) || HasId(b, id)
  {
    if HasId(a, id) { var k :| 0 <= k < |a| && a[k].selected.gate.id == id; assert (a + b)[k] == a[k]; }
    if HasId(b, id) { var k :| 0 <= k < |b| && b[k].selected.gate.id == id; assert (a + b)[|a| + k] == b[k]; }
  }

  /** The returned gate of the entry's id means what the entry means. */
  ghost predicate Agrees(entries: seq<Entry>, e: Entry) {
    exists r :: r in FirstById(entries) && r.selected.gate == e.selected.gate
  }

  lemma UniqueById(entries: seq<Entry>, a: Entry, b: Entry)
    requires DistinctIds(entries) && a in entries && b in entries && a.selected.gate.id == b.selected.gate.id
    ensures a == b
  {
    var i :| 0 <= i < |entries| && entries[i] == a;
    var j :| 0 <= j < |entries| && entries[j] == b;
  }

  /** No conflict is reported exactly when every retained gate means what the returned gate of its id means. */
  lemma {:induction false} NoConflictMeansAgreement(entries: seq<Entry>)
    ensures Conflicts(entries) == [] <==> forall e :: e in entries ==> Agrees(entries, e)
  {
    if entries != [] {
      hide *;
      var front, last := entries[..|entries| - 1], entries[|entries| - 1];
      assert entries == front + [last];
      NoConflictMeansAgreement(front);
      OneMoreAgrees(front, last);
    }
  }

  lemma OneMoreAgrees(front: seq<Entry>, last: Entry)
    requires Conflicts(front) == [] <==> forall e :: e in front ==> Agrees(front, e)
    ensures Conflicts(front + [last]) == [] <==> forall e :: e in front + [last] ==> Agrees(front + [last], e)
  {
    hide *;
    LastAgrees(front, last);
    var all := front + [last];
    var (before, after) := (Conflicts(front), Conflicts(all));
    assert before <= after ==> (after == [] <==> before == [] && |after| == |before|);
    forall e ensures e in all <==> e in front || e == last {}
  }

  /** One more entry changes no earlier agreement, and agrees itself unless it is reported. */
  lemma LastAgrees(front: seq<Entry>, last: Entry)
    ensures forall e :: e in front ==> (Agrees(front + [last], e) <==> Agrees(front, e))
    ensures Agrees(front + [last], last) <==> |Conflicts(front + [last])| == |Conflicts(front)|
    ensures Conflicts(front) <= Conflicts(front + [last])
  {
    var entries, kept := front + [last], FirstById(front);
    assert entries[..|front|] == front;
    ComposedIdsAreUnique(front);
    var found := Find(kept, last.selected.gate.id);
    if found.Some? {
      assert FirstById(entries) == kept;
      if r :| r in kept && r.selected.gate == last.selected.gate { UniqueById(kept, r, found.value); }
    } else {
      assert FirstById(entries) == kept + [last];
      forall e | e in front ensures Agrees(entries, e) <==> Agrees(front, e) {
        var k :| 0 <= k < |front| && front[k] == e;
        assert HasId(front, e.selected.gate.id);
      }
    }
  }

  // ---- Stages ------------------------------------------------------------------------------

  lemma {:induction false} SelectedMatchStage(config: GatesConfig, stage: Stage, suppressed: set<string>,
                                              pulled: seq<Pull>)
    ensures forall g :: g in SelectedFrom(config, stage, suppressed, pulled) ==> g.gate.stage == stage
  {
    if pulled != [] { SelectedMatchStage(config, stage, suppressed, pulled[..|pulled| - 1]); }
  }

  ghost predicate ForStage(choices: seq<Choice>, stage: Stage) {
    forall c: Choice, g: SelectedGate :: c in choices && g in c.selected ==> g.gate.stage == stage
  }

  lemma ChoicesMatchStage(globs: Globs, sources: seq<Source>, stage: Stage, files: seq<string>)
    ensures ForStage(Choices(globs, sources, stage, files), stage)
  {
    var choices := Choices(globs, sources, stage, files);
    forall c: Choice, g: SelectedGate | c in choices && g in c.selected ensures g.gate.stage == stage {
      var i :| 0 <= i < |choices| && choices[i] == c;
      var sorted := SortedDistinct(files);
      var pulled := Pulled(sources[i].config, globs, sorted);
      SelectedMatchStage(sources[i].config, stage, Suppressed(sources[i].config, globs, stage, sorted, pulled), pulled);
    }
  }

  lemma {:induction false} KeptIsSelected(source: string, generated: set<string>, explicit: bool,
                                          selected: seq<SelectedGate>)
    ensures forall e :: e in Kept(source, generated, explicit, selected) <==>
      (e.source == source && e.selected in selected && !(explicit && e.selected.gate.id in generated))
  {
    if selected != [] {
      KeptIsSelected(source, generated, explicit, selected[..|selected| - 1]);
      assert selected == selected[..|selected| - 1] + [selected[|selected| - 1]];
    }
  }

  ghost predicate KeptBy(c: Choice, explicit: bool, e: Entry) {
    e.source == c.source && e.selected in c.selected && !(explicit && e.selected.gate.id in c.generated)
  }

  lemma {:induction false} KeptFromIsSelected(choices: seq<Choice>, explicit: bool, e: Entry)
    ensures e in KeptFrom(choices, explicit) <==> exists c :: c in choices && KeptBy(c, explicit, e)
  {
    if choices != [] {
      var n := |choices| - 1;
      KeptFromIsSelected(choices[..n], explicit, e);
      KeptIsSelected(choices[n].source, choices[n].generated, explicit, choices[n].selected);
      assert e in KeptFrom(choices, explicit) <==>
          e in KeptFrom(choices[..n], explicit) || KeptBy(choices[n], explicit, e);
      assert forall c :: c in choices <==> c in choices[..n] || c == choices[n] by {
        assert choices == choices[..n] + [choices[n]];
      }
      assert choices[n] in choices;
    }
  }

  lemma RetainedMatchStage(choices: seq<Choice>, stage: Stage)
    requires ForStage(choices, stage)
    ensures forall e :: e in RetainedAt(choices) ==> e.selected.gate.stage == stage
  {
    forall e | e in RetainedAt(choices) ensures e.selected.gate.stage == stage {
      KeptFromIsSelected(choices, ExplicitSelected(choices), e);
    }
  }

  /** Dropping generated gates never empties a stage some source selected for. */
  lemma DroppingGeneratedKeepsStages(choices: seq<Choice>)
    ensures RetainedAt(choices) != [] <==> exists c :: c in choices && c.selected != []
  {
    var explicit, retained := ExplicitSelected(choices), RetainedAt(choices);
    if retained != [] {
      KeptFromIsSelected(choices, explicit, retained[0]);
    }
    if c :| c in choices && c.selected != [] {
      var from, gate := c, c.selected[0];
      if explicit {
        from, gate :| from in choices && gate in from.selected && gate.gate.id !in from.generated;
      }
      assert KeptBy(from, explicit, Entry(from.source, gate));
      KeptFromIsSelected(choices, explicit, Entry(from.source, gate));
    }
  }

  lemma {:induction false} FirstByIdAppend(a: seq<Entry>, b: seq<Entry>)
    ensures FirstById(a) <= FirstById(a + b)
    ensures forall e :: e in FirstById(a + b)[|FirstById(a)|..] ==> e in b && !HasId(a, e.selected.gate.id)
  {
    if b == [] {
      assert a + b == a;
    } else {
      var n := |b| - 1;
      FirstByIdAppend(a, b[..n]);
      assert (a + b)[..|a + b| - 1] == a + b[..n];
      ComposedIdsAreUnique(a + b[..n]);
      HasIdAppend(a, b[..n], b[n].selected.gate.id);
      assert b == b[..n] + [b[n]];
    }
  }

  ghost predicate Represented(entries: seq<Entry>, stage: Stage) {
    exists e :: e in FirstById(entries) && e.selected.gate.stage == stage
  }

  /** The middle of three runs of entries, the only one that carries the stage. */
  lemma MiddleIsRepresentedIff(early: seq<Entry>, own: seq<Entry>, late: seq<Entry>, stage: Stage)
    requires forall e :: e in early || e in late ==> e.selected.gate.stage != stage
    requires forall e :: e in own ==> e.selected.gate.stage == stage
    ensures Represented(early + own + late, stage) <==> exists e :: e in own && !HasId(early, e.selected.gate.id)
  {
    if e :| e in own && !HasId(early, e.selected.gate.id) {
      NewOwnIsRepresented(early, own, late, stage, e);
    }
    if Represented(early + own + late, stage) {
      RepresentedIsNewOwn(early, own, late, stage);
    }
  }

  lemma NewOwnIsRepresented(early: seq<Entry>, own: seq<Entry>, late: seq<Entry>, stage: Stage, e: Entry)
    requires forall e :: e in own ==> e.selected.gate.stage == stage
    requires e in own && !HasId(early, e.selected.gate.id)
    ensures Represented(early + own + late, stage)
  {
    hide FirstById, HasId;
    OwnIdIsNew(early, own, e);
    var r :| r in FirstById(early + own) && r in own;
    FirstByIdAppend(early + own, late);
    var (two, whole) := (FirstById(early + own), FirstById(early + own + late));
    assert whole == two + whole[|two|..];
    assert r in whole;
  }

  lemma RepresentedIsNewOwn(early: seq<Entry>, own: seq<Entry>, late: seq<Entry>, stage: Stage)
    requires forall e :: e in early || e in late ==> e.selected.gate.stage != stage
    requires Represented(early + own + late, stage)
    ensures exists e :: e in own && !HasId(early, e.selected.gate.id)
  {
    hide FirstById;
    var (one, two, whole) := (FirstById(early), FirstById(early + own), FirstById(early + own + late));
    var e :| e in whole && e.selected.gate.stage == stage;
    FirstByIdAppend(early, own);
    FirstByIdAppend(early + own, late);
    ComposedIdsAreUnique(early);
    assert whole == two + whole[|two|..] && two == one + two[|one|..];
    hide HasId;
    assert forall x :: x in one ==> x in early;
    assert forall x :: x in whole ==> x in one || x in two[|one|..] || x in whole[|two|..];
  }

  lemma OwnIdIsNew(early: seq<Entry>, own: seq<Entry>, e: Entry)
    requires e in own && !HasId(early, e.selected.gate.id)
    ensures exists r :: r in FirstById(early + own) && r in own
  {
    var two, id := FirstById(early + own), e.selected.gate.id;
    var k :| 0 <= k < |own| && own[k] == e;
    assert HasId(own, id);
    HasIdAppend(early, own, id);
    ComposedIdsAreUnique(early + own);
    var r := Find(two, id).value;
    assert r !in early;
  }

  lemma {:induction false} RetainedAppend(front: seq<seq<Choice>>, after: seq<seq<Choice>>)
    ensures Retained(front + after) == Retained(front) + Retained(after)
  {
    if after == [] {
      assert front + after == front;
    } else {
      var n := |after| - 1;
      RetainedAppend(front, after[..n]);
      var all := front + after;
      assert all[..|all| - 1] == front + after[..n] && all[|all| - 1] == after[n];
      assert Retained(all) == Retained(front + after[..n]) + RetainedAt(after[n]);
      assert Retained(after) == Retained(after[..n]) + RetainedAt(after[n]);
    }
  }

  lemma {:induction false} RetainedStages(globs: Globs, sources: seq<Source>, stages: seq<Stage>, files: seq<string>)
    ensures forall e :: e in Retained(Rounds(globs, sources, stages, files)) ==> e.selected.gate.stage in stages
  {
    if stages != [] {
      var n := |stages| - 1;
      RetainedStages(globs, sources, stages[..n], files);
      assert Rounds(globs, sources, stages, files)[..n] == Rounds(globs, sources, stages[..n], files);
      ChoicesMatchStage(globs, sources, stages[n], files);
      RetainedMatchStage(Choices(globs, sources, stages[n], files), stages[n]);
    }
  }

  lemma RoundsSplit(globs: Globs, sources: seq<Source>, before: seq<Stage>, stage: Stage, after: seq<Stage>,
                    files: seq<string>)
    ensures Retained(Rounds(globs, sources, before + [stage] + after, files))
      == Retained(Rounds(globs, sources, before, files)) + RetainedAt(Choices(globs, sources, stage, files))
         + Retained(Rounds(globs, sources, after, files))
  {
    var own := [Choices(globs, sources, stage, files)];
    var early, late := Rounds(globs, sources, before, files), Rounds(globs, sources, after, files);
    RoundsAppend(globs, sources, before + [stage], after, files);
    RoundsAppend(globs, sources, before, [stage], files);
    assert Rounds(globs, sources, [stage], files) == own;
    RetainedAppend(early + own, late);
    RetainedAppend(early, own);
    OneRound(own[0]);
  }

  lemma RoundsAppend(globs: Globs, sources: seq<Source>, a: seq<Stage>, b: seq<Stage>, files: seq<string>)
    ensures Rounds(globs, sources, a + b, files) == Rounds(globs, sources, a, files) + Rounds(globs, sources, b, files)
  {}

  lemma OneRound(choices: seq<Choice>)
    ensures Retained([choices]) == RetainedAt(choices)
  {
    var rounds := [choices];
    assert rounds[..0] == [];
    assert Retained(rounds) == Retained(rounds[..0]) + RetainedAt(rounds[0]);
  }

  /** A stage that occurs once is represented in the result exactly when one of the gates retained
      for it carries an id no earlier stage retained. */
  lemma StageIsRepresentedIff(globs: Globs, sources: seq<Source>, before: seq<Stage>, stage: Stage, after: seq<Stage>,
                              files: seq<string>)
    requires stage !in before && stage !in after
    ensures Represented(Retained(Rounds(globs, sources, before + [stage] + after, files)), stage) <==>
      exists e :: e in RetainedAt(Choices(globs, sources, stage, files))
        && !HasId(Retained(Rounds(globs, sources, before, files)), e.selected.gate.id)
  {
    RoundsSplit(globs, sources, before, stage, after, files);
    RetainedStages(globs, sources, before, files);
    RetainedStages(globs, sources, after, files);
    ChoicesMatchStage(globs, sources, stage, files);
    RetainedMatchStage(Choices(globs, sources, stage, files), stage);
    MiddleIsRepresentedIff(Retained(Rounds(globs, sources, before, files)),
        RetainedAt(Choices(globs, sources, stage, files)),
                           Retained(Rounds(globs, sources, after, files)), stage);
  }

  /** Without a conflict, every stage some source selected for has a returned gate. */
  lemma NoConflictKeepsStages(globs: Globs, sources: seq<Source>, before: seq<Stage>, stage: Stage, after: seq<Stage>,
                              files: seq<string>, s: Source)
    requires s in sources && SelectionOf(s.config, globs, stage, files).selected != []
    requires Conflicts(Retained(Rounds(globs, sources, before + [stage] + after, files))) == []
    ensures Represented(Retained(Rounds(globs, sources, before + [stage] + after, files)), stage)
  {
    var choices := Choices(globs, sources, stage, files);
    var all := Retained(Rounds(globs, sources, before + [stage] + after, files));
    RoundsSplit(globs, sources, before, stage, after, files);
    ChoicesMatchStage(globs, sources, stage, files);
    RetainedMatchStage(choices, stage);
    var i :| 0 <= i < |sources| && sources[i] == s;
    assert choices[i] in choices && choices[i].selected != [];
    DroppingGeneratedKeepsStages(choices);
    var e := RetainedAt(choices)[0];
    assert e in RetainedAt(choices) && e in all;
    NoConflictMeansAgreement(all);
    assert Agrees(all, e);
  }

  // ---- A stage lost to a conflict ------------------------------------------------------------

  const clash := Gate("lint", Continuous, Argv(["true"]), None, None, None, None)
  const laterClash := clash.(stage := PerEdit)
  const repositoryGates := Source("repository gates", GatesConfig(None, [clash], map[], []))
  const workflowGates := Source("workflow gates", GatesConfig(None, [laterClash], map[], []))

  lemma OnlyGateIsSelected(globs: Globs, gate: Gate, stage: Stage)
    ensures SelectionOf(GatesConfig(None, [gate], map[], []), globs, stage, []).selected
      == if gate.stage == stage then [SelectedGate(gate, Default)] else []
  {
    var config := GatesConfig(None, [gate], map[], []);
    var pulled := [(gate.id, Default)];
    assert [gate][..0] == [];
    assert Defaults([gate][..0], true, {}) == [];
    assert Defaults([gate], true, {}) == [] + pulled;
    assert SortedDistinct([]) == [];
    assert config.Generated() == {};
    assert Pulled(config, globs, []) == Defaults([gate], true, {});
    assert pulled[..0] == [];
    assert FindGate([gate], gate.id) == Some(gate);
    assert SelectedFrom(config, stage, {}, pulled[..0]) == [];
  }

  /** The guarantee needs the absence of conflicts: an id reused by a later stage empties that stage. */
  lemma ConflictEmptiesAStage(globs: Globs)
    ensures var retained := Retained(Rounds(globs, [repositoryGates, workflowGates], [Continuous, PerEdit], []));
      && SelectionOf(workflowGates.config, globs, PerEdit, []).selected != []
      && !Represented(retained, PerEdit)
      && Conflicts(retained) != []
  {
    var sources := [repositoryGates, workflowGates];
    ClashChoices(globs);
    ClashIsRetainedFirst(Choices(globs, sources, Continuous, []), Choices(globs, sources, PerEdit, []));
    assert Rounds(globs, sources, [Continuous], []) == [Choices(globs, sources, Continuous, [])];
    OneRound(Choices(globs, sources, Continuous, []));
    assert [Continuous, PerEdit] == [Continuous] + [PerEdit] + [];
    StageIsRepresentedIff(globs, sources, [Continuous], PerEdit, [], []);
    if Conflicts(Retained(Rounds(globs, sources, [Continuous, PerEdit], []))) == [] {
      NoConflictKeepsStages(globs, sources, [Continuous], PerEdit, [], [], workflowGates);
    }
  }

  lemma ClashChoices(globs: Globs)
    ensures var early := Choices(globs, [repositoryGates, workflowGates], Continuous, []);
      |early| == 2 && early[0] == Choice("repository gates", {}, [SelectedGate(clash, Default)])
    ensures var own := Choices(globs, [repositoryGates, workflowGates], PerEdit, []);
      |own| == 2 && own[0].selected == [] && own[1].selected == [SelectedGate(laterClash, Default)]
    ensures SelectionOf(workflowGates.config, globs, PerEdit, []).selected != []
  {
    OnlyGateIsSelected(globs, clash, Continuous);
    OnlyGateIsSelected(globs, clash, PerEdit);
    OnlyGateIsSelected(globs, laterClash, PerEdit);
  }

  lemma ClashIsRetainedFirst(early: seq<Choice>, own: seq<Choice>)
    requires |early| == 2 && early[0] == Choice("repository gates", {}, [SelectedGate(clash, Default)])
    requires |own| == 2 && own[0].selected == [] && own[1].selected == [SelectedGate(laterClash, Default)]
    ensures forall e :: e in RetainedAt(own) ==> HasId(RetainedAt(early), e.selected.gate.id)
  {
    var first := Entry("repository gates", SelectedGate(clash, Default));
    assert early[0] in early && KeptBy(early[0], ExplicitSelected(early), first);
    KeptFromIsSelected(early, ExplicitSelected(early), first);
    var k :| 0 <= k < |RetainedAt(early)| && RetainedAt(early)[k] == first;
    assert HasId(RetainedAt(early), "lint");
    forall e | e in RetainedAt(own) ensures e.selected.gate.id == "lint" {
      KeptFromIsSelected(own, ExplicitSelected(own), e);
    }
  }
}
