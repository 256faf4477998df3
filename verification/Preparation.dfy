/** Preparing a session: every gate its calls may select is listed, and a contract that gives one id
    two meanings is refused before anything runs. */
module Preparation {
  import opened Wrappers
  import opened Gates
  import opened Selection
  import opened Composition
  import CompositionLaws
  import Ordering
  import opened Evidence
  import opened Planning
  import opened Verification
  import opened Soundness

  /** The stages an action of a session can require. */
  predicate Protected(stage: Stage) { stage in {Continuous, PerEdit, PreCommit, PrePr} }

  datatype Preparation = Invalid | Conflicting(conflict: Conflict) | Executors(gates: seq<SelectedGate>)

  // ---- Specification ------------------------------------------------------------------------

  /** A source's gates of the protected stages. */
  function ProtectedOf(source: string, gates: seq<Gate>): seq<Entry> {
    if gates == [] then []
    else
      var last := gates[|gates| - 1];
      ProtectedOf(source, gates[..|gates| - 1]) + One(source, last)
  }

  function One(source: string, gate: Gate): seq<Entry> {
    if Protected(gate.stage) then [Entry(source, SelectedGate(gate, Default))] else []
  }

  function ProtectedEntries(sources: seq<Source>): seq<Entry> {
    if sources == [] then []
    else
      var last := sources[|sources| - 1];
      ProtectedEntries(sources[..|sources| - 1]) + ProtectedOf(last.name, last.config.gates)
  }

  function PreparationOf(authority: Authority): Preparation {
    var entries := ProtectedEntries(authority.sources);
    if authority.broken then Invalid
    else if Conflicts(entries) != [] then Conflicting(Conflicts(entries)[0])
    else Executors(GatesOf(FirstById(entries)))
  }

  // ---- The listing pass -----------------------------------------------------------------------

  /** List every protected gate once; stop at the first id with two meanings. */
  method GateExecutorRequirements(authority: Authority) returns (preparation: Preparation)
    ensures preparation == PreparationOf(authority)
  {
    if authority.broken { return Invalid; }
    var sources := authority.sources;
    var selected: seq<Entry> := [];
    assert ProtectedEntries(sources[..0]) == [] && FirstById([]) == [] && Conflicts([]) == [];
    for i := 0 to |sources|
      invariant selected == FirstById(ProtectedEntries(sources[..i])) && Conflicts(ProtectedEntries(sources[..i])) == []
    {
      var conflict;
      ghost var before := ProtectedEntries(sources[..i]);
      selected, conflict := ListSource(sources[i], before, selected);
      EntriesOneMore(sources, i);
      if conflict.Some? {
        FirstConflictStays(sources, i + 1, conflict.value);
        return Conflicting(conflict.value);
      }
    }
    assert sources[..|sources|] == sources;
    preparation := Executors(GatesOf(selected));
  }

  method ListSource(source: Source, ghost before: seq<Entry>, start: seq<Entry>)
    returns (selected: seq<Entry>, conflict: Option<Conflict>)
    requires start == FirstById(before) && Conflicts(before) == []
    ensures var all := before + ProtectedOf(source.name, source.config.gates);
      if conflict.None? then selected == FirstById(all) && Conflicts(all) == []
      else Conflicts(all) != [] && Conflicts(all)[0] == conflict.value
  {
    hide FirstById, Conflicts;
    var gates := source.config.gates;
    selected, conflict := start, None;
    assert before + [] == before;
    for k := 0 to |gates|
      invariant selected == FirstById(before + ProtectedOf(source.name, gates[..k]))
      invariant Conflicts(before + ProtectedOf(source.name, gates[..k])) == []
    {
      ghost var seen := before + ProtectedOf(source.name, gates[..k]);
      GatesOneMore(before, source.name, gates, k);
      if Protected(gates[k].stage) {
        var entry := Entry(source.name, SelectedGate(gates[k], Default));
        var conflicts;
        selected, conflicts := Offer(entry, seen, selected, []);
        if conflicts != [] {
          RestKeepsFirstConflict(before, source.name, gates, k + 1);
          return selected, Some(conflicts[0]);
        }
      }
    }
    assert gates[..|gates|] == gates;
  }

  lemma EntriesOneMore(sources: seq<Source>, i: nat)
    requires i < |sources|
    ensures ProtectedEntries(sources[..i + 1]) ==
        ProtectedEntries(sources[..i]) + ProtectedOf(sources[i].name, sources[i].config.gates)
  {
    assert sources[..i + 1][..i] == sources[..i];
  }

  lemma GatesOneMore(before: seq<Entry>, source: string, gates: seq<Gate>, k: nat)
    requires k < |gates|
    ensures before + ProtectedOf(source, gates[..k + 1]) ==
        before + ProtectedOf(source, gates[..k]) + One(source, gates[k])
    ensures !Protected(gates[k].stage) ==>
        before + ProtectedOf(source, gates[..k + 1]) == before + ProtectedOf(source, gates[..k])
  {
    assert gates[..k + 1][..k] == gates[..k];
  }

  lemma {:induction false} ConflictsExtend(a: seq<Entry>, b: seq<Entry>)
    ensures Conflicts(a) <= Conflicts(a + b)
  {
    if b == [] {
      assert a + b == a;
    } else {
      var front := a + b[..|b| - 1];
      ConflictsExtend(a, b[..|b| - 1]);
      assert (a + b)[..|a + b| - 1] == front;
    }
  }

  lemma {:induction false} RestKeepsFirstConflict(before: seq<Entry>, source: string, gates: seq<Gate>, k: nat)
    requires k <= |gates|
    ensures Conflicts(before + ProtectedOf(source, gates[..k])) <= Conflicts(before + ProtectedOf(source, gates))
    decreases |gates| - k
  {
    if k == |gates| {
      assert gates[..k] == gates;
    } else {
      hide Conflicts;
      GatesOneMore(before, source, gates, k);
      ConflictsExtend(before + ProtectedOf(source, gates[..k]), One(source, gates[k]));
      RestKeepsFirstConflict(before, source, gates, k + 1);
    }
  }

  lemma {:induction false} FirstConflictStays(sources: seq<Source>, i: nat, conflict: Conflict)
    requires i <= |sources| && Conflicts(ProtectedEntries(sources[..i])) != []
    requires Conflicts(ProtectedEntries(sources[..i]))[0] == conflict
    ensures Conflicts(ProtectedEntries(sources)) != [] && Conflicts(ProtectedEntries(sources))[0] == conflict
    decreases |sources| - i
  {
    if i == |sources| {
      assert sources[..i] == sources;
    } else {
      hide Conflicts;
      EntriesOneMore(sources, i);
      ConflictsExtend(ProtectedEntries(sources[..i]), ProtectedOf(sources[i].name, sources[i].config.gates));
      FirstConflictStays(sources, i + 1, conflict);
    }
  }

  // ---- What an accepted contract promises --------------------------------------------------------

  /** Some source declares the gate, for a protected stage. */
  ghost predicate Declared(sources: seq<Source>, gate: Gate) {
    Protected(gate.stage) && exists s :: s in sources && gate in s.config.gates
  }

  lemma {:induction false} ProtectedOfSource(source: string, gates: seq<Gate>)
    ensures forall e :: e in ProtectedOf(source, gates) <==>
      e.source == source && e.selected.via == Default && e.selected.gate in gates && Protected(e.selected.gate.stage)
  {
    if gates != [] {
      ProtectedOfSource(source, gates[..|gates| - 1]);
      assert gates == gates[..|gates| - 1] + [gates[|gates| - 1]];
    }
  }

  ghost predicate Lists(entries: seq<Entry>, gate: Gate) { exists e :: e in entries && e.selected.gate == gate }

  lemma {:induction false} EntriesListDeclared(sources: seq<Source>, gate: Gate)
    ensures Lists(ProtectedEntries(sources), gate) <==> Declared(sources, gate)
  {
    if sources != [] {
      var front, last := sources[..|sources| - 1], sources[|sources| - 1];
      EntriesListDeclared(front, gate);
      ProtectedOfSource(last.name, last.config.gates);
      assert sources == front + [last];
      if Declared(sources, gate) && !Declared(front, gate) {
        assert Entry(last.name, SelectedGate(gate, Default)) in ProtectedEntries(sources);
      }
      if Lists(ProtectedEntries(front), gate) {
        var e :| e in ProtectedEntries(front) && e.selected.gate == gate;
        assert e in ProtectedEntries(sources);
      }
    }
  }

  /** No id has two meanings among the protected gates of all sources. */
  ghost predicate OneMeaning(sources: seq<Source>) {
    forall a, b :: Declared(sources, a) && Declared(sources, b) && a.id == b.id ==> a == b
  }

  /** A contract is prepared exactly when it is valid and gives every protected id one meaning. */
  lemma PreparedIff(authority: Authority)
    ensures PreparationOf(authority).Executors? <==> !authority.broken && OneMeaning(authority.sources)
  {
    var entries := ProtectedEntries(authority.sources);
    hide ProtectedEntries, Conflicts, Declared, FirstById;
    CompositionLaws.NoConflictMeansAgreement(entries);
    CompositionLaws.ComposedIdsAreUnique(entries);
    forall gate
      ensures Lists(entries, gate) <==>
          Declared(authority.sources, gate) { EntriesListDeclared(authority.sources, gate); }
    AgreementIsOneMeaning(entries);
  }

  ghost predicate OneListed(entries: seq<Entry>) {
    forall a, b :: Lists(entries, a) && Lists(entries, b) && a.id == b.id ==> a == b
  }

  lemma AgreementIsOneMeaning(entries: seq<Entry>)
    ensures (forall e :: e in entries ==> CompositionLaws.Agrees(entries, e)) <==> OneListed(entries)
  {
    hide *;
    if forall e :: e in entries ==> CompositionLaws.Agrees(entries, e) { AgreedIsOneListed(entries); }
    if OneListed(entries) {
      forall e | e in entries ensures CompositionLaws.Agrees(entries, e) { OneListedAgrees(entries, e); }
    }
  }

  lemma AgreedIsOneListed(entries: seq<Entry>)
    requires forall e :: e in entries ==> CompositionLaws.Agrees(entries, e)
    ensures OneListed(entries)
  {
    hide CompositionLaws.Agrees;
    forall a, b | Lists(entries, a) && Lists(entries, b) && a.id == b.id ensures a == b {
      var e :| e in entries && e.selected.gate == a;
      var f :| f in entries && f.selected.gate == b;
      AgreeingAreAlike(entries, e, f);
    }
  }

  lemma AgreeingAreAlike(entries: seq<Entry>, e: Entry, f: Entry)
    requires CompositionLaws.Agrees(entries, e) && CompositionLaws.Agrees(entries, f)
    requires e.selected.gate.id == f.selected.gate.id
    ensures e.selected.gate == f.selected.gate
  {
    var kept := FirstById(entries);
    assert CompositionLaws.DistinctIds(kept) by { CompositionLaws.ComposedIdsAreUnique(entries); }
    hide FirstById;
    var r :| r in kept && r.selected.gate == e.selected.gate;
    var q :| q in kept && q.selected.gate == f.selected.gate;
    hide *;
    CompositionLaws.UniqueById(kept, r, q);
  }

  lemma OneListedAgrees(entries: seq<Entry>, e: Entry)
    requires OneListed(entries) && e in entries
    ensures CompositionLaws.Agrees(entries, e)
  {
    CompositionLaws.ComposedIdsAreUnique(entries);
    var kept := FirstById(entries);
    hide FirstById, CompositionLaws.DistinctIds;
    var k :| 0 <= k < |entries| && entries[k] == e;
    assert HasId(entries, e.selected.gate.id) && HasId(kept, e.selected.gate.id);
    var m :| 0 <= m < |kept| && kept[m].selected.gate.id == e.selected.gate.id;
    assert kept[m] in kept && kept[m] in entries;
    assert Lists(entries, kept[m].selected.gate) && Lists(entries, e.selected.gate);
  }

  // ---- Whatever is selected was prepared ------------------------------------------------------------

  lemma {:induction false} SelectedIsDeclared(config: GatesConfig, stage: Stage, suppressed: set<string>,
                                              pulled: seq<Pull>)
    ensures forall g :: g in SelectedFrom(config, stage, suppressed, pulled) ==>
        g.gate in config.gates && g.gate.stage == stage
  {
    if pulled != [] { SelectedIsDeclared(config, stage, suppressed, pulled[..|pulled| - 1]); }
  }

  lemma RetainedIsDeclared(globs: Globs, sources: seq<Source>, stage: Stage, files: seq<string>, e: Entry)
    requires Protected(stage) && e in RetainedAt(Choices(globs, sources, stage, files))
    ensures Declared(sources, e.selected.gate)
  {
    var choices := Choices(globs, sources, stage, files);
    CompositionLaws.KeptFromIsSelected(choices, ExplicitSelected(choices), e);
    var c :| c in choices && CompositionLaws.KeptBy(c, ExplicitSelected(choices), e);
    var i :| 0 <= i < |choices| && choices[i] == c;
    var sorted := Ordering.SortedDistinct(files);
    var pulled := Pulled(sources[i].config, globs, sorted);
    SelectedIsDeclared(sources[i].config, stage, Suppressed(sources[i].config, globs, stage, sorted, pulled), pulled);
    assert sources[i] in sources;
  }

  lemma RoundsSnoc(globs: Globs, sources: seq<Source>, stages: seq<Stage>, files: seq<string>)
    requires stages != []
    ensures var n := |stages| - 1;
      Retained(Rounds(globs, sources, stages, files))
      == Retained(Rounds(globs, sources, stages[..n], files)) + RetainedAt(Choices(globs, sources, stages[n], files))
  {
    hide RetainedAt, Choices;
    var rounds, n := Rounds(globs, sources, stages, files), |stages| - 1;
    assert rounds[..n] == Rounds(globs, sources, stages[..n], files);
  }

  lemma {:induction false} RetainedAreDeclared(globs: Globs, sources: seq<Source>, stages: seq<Stage>,
                                               files: seq<string>, e: Entry)
    requires forall stage :: stage in stages ==> Protected(stage)
    requires e in Retained(Rounds(globs, sources, stages, files))
    ensures Declared(sources, e.selected.gate)
  {
    assert stages == [] ==> Rounds(globs, sources, stages, files) == [];
    if stages != [] {
      hide *;
      var n := |stages| - 1;
      RoundsSnoc(globs, sources, stages, files);
      if e in RetainedAt(Choices(globs, sources, stages[n], files)) {
        RetainedIsDeclared(globs, sources, stages[n], files, e);
      } else {
        RetainedAreDeclared(globs, sources, stages[..n], files, e);
      }
    }
  }

  /** Every gate any action selects is a declared gate of a protected stage. */
  lemma RequiredAreDeclared(globs: Globs, authority: Authority, request: Request, files: seq<string>)
    ensures var required := ComposedGates(globs)(authority, RequiredStages(request.action, request.classes), files);
      forall g :: g in required.gates ==> Declared(authority.sources, g.gate)
  {
    var stages := RequiredStages(request.action, request.classes);
    var retained := Retained(Rounds(globs, authority.sources, stages, files));
    CompositionLaws.ComposedIdsAreUnique(retained);
    assert forall stage :: stage in stages ==> Protected(stage);
    hide Declared, Retained, Rounds, FirstById, RequiredStages;
    var kept := FirstById(retained);
    assert ComposedGates(globs)(authority, stages, files).gates == GatesOf(kept);
    forall g | g in GatesOf(kept) ensures Declared(authority.sources, g.gate) {
      var i :| 0 <= i < |kept| && GatesOf(kept)[i] == g;
      assert kept[i] in kept && kept[i] in retained;
      RetainedAreDeclared(globs, authority.sources, stages, files, kept[i]);
    }
  }

  lemma PlannedIsDeclared(parse: ContractDigest -> Authority, evaluate: (PolicyDoc, Request) -> (Decision, Placement),
                          globs: Globs,
                          request: Request, contract: ContractDigest, intent: Intent)
    ensures var core := StandardCore(parse, evaluate, globs);
      forall gate :: gate in Definitions(BasisFor(core, request, contract, intent, "").gates) ==>
          Declared(parse(contract).sources, gate)
  {
    var core := StandardCore(parse, evaluate, globs);
    RequiredAreDeclared(globs, parse(contract), request, intent.changedFiles);
    var gates := BasisFor(core, request, contract, intent, "").gates;
    assert gates == [] || gates ==
        ComposedGates(globs)(parse(contract), RequiredStages(request.action, request.classes),
        intent.changedFiles).gates;
    hide BasisFor, Declared, ComposedGates;
    forall gate | gate in Definitions(gates) ensures Declared(parse(contract).sources, gate) {
      var i :| 0 <= i < |gates| && Definitions(gates)[i] == gate;
      assert gates[i] in gates;
    }
  }

  /** A contract that was prepared plans one gate per id, for every call and every change set. */
  lemma PreparedContractsAreStable(parse: ContractDigest -> Authority,
                                   evaluate: (PolicyDoc, Request) -> (Decision, Placement),
                                   globs: Globs, request: Request, contract: ContractDigest)
    requires PreparationOf(parse(contract)).Executors?
    ensures StableDefinitions(StandardCore(parse, evaluate, globs), request, contract)
  {
    var core := StandardCore(parse, evaluate, globs);
    PreparedIff(parse(contract));
    hide PreparationOf, BasisFor, StandardCore, Declared;
    forall call: Intent, gate: Gate | Selectable(core, request, contract, call, gate)
      ensures Declared(parse(contract).sources, gate)
    {
      var intent: Intent :| CallOf(intent) == call && PlannedUnder(core, request, contract, intent, gate);
      PlannedIsDeclared(parse, evaluate, globs, request, contract, intent);
    }
    hide Selectable;
  }

  /** Under a contract that was prepared, every run in every session executed the definition its record names. */
  lemma PreparedContractsNeverDrift<W>(h: Host<W>, parse: ContractDigest -> Authority,
                                       evaluate: (PolicyDoc, Request) -> (Decision, Placement), globs: Globs,
                                       world: W, commands: seq<Command<W>>, run: GateRun)
    requires run in Session(h, StandardCore(parse, evaluate, globs), Start(world), commands).runs
    requires PreparationOf(parse(run.contract)).Executors?
    ensures run.executed == run.recorded
  {
    hide *;
    PreparedContractsAreStable(parse, evaluate, globs, run.request, run.contract);
    StableDefinitionsAreExecuted(h, StandardCore(parse, evaluate, globs), world, commands, run);
  }
}
