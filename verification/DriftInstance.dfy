/** A contract that drifts: two sources, one id, two meanings, and selectors on different files. */
module DriftInstance {
  import opened Wrappers
  import opened Gates
  import Ordering
  import opened Selection
  import opened Composition
  import CompositionLaws
  import opened Evidence
  import opened Planning
  import opened Verification
  import opened Soundness
  import opened Preparation
  import opened Drift

  /** One gate behind one selector on one file. */
  function OneFileSource(name: string, gate: Gate, file: string): Source {
    Source(name, GatesConfig(None, [gate], map["checks" := [gate.id]], [Selector("changed", [file], [], ["checks"])]))
  }

  const Literally := Globs((pattern: string) => true, (pattern: string, file: string) => pattern == file)

  const OwnCheck := Gate("check", Continuous, Argv(["own"]), None, None, None, None)
  const SharedCheck := Gate("check", Continuous, Argv(["shared"]), None, None, None, None)

  const TwoMeanings := Authority(
    [], [OneFileSource("repository gates", OwnCheck, "own.txt"),
        OneFileSource("workflow gates", SharedCheck, "shared.txt")], false)

  function ReadOf(file: string): Intent {
    Intent(INTENT_KIND, "launch", "session", "call", "read", "input", "target", "executor", [file], Some("workspace"),
        false)
  }

  lemma OneFileIsPulled(gate: Gate, path: string, file: string)
    ensures var config := OneFileSource("", gate, path).config;
      Pulled(config, Literally, [file]) == if file == path then [(gate.id, BySelector("changed", "checks"))] else []
  {
    var config := OneFileSource("", gate, path).config;
    var s := config.selectors[0];
    var ids := config.gateSets["checks"];
    assert config.gates[..0] == [] && config.selectors[..0] == [] && s.gateSets[..0] == [];
    assert Literally.Any(s.paths, file) <==> file == path by { assert path in s.paths; }
    assert Literally.InScope(s, file) <==> file == path;
    assert [file][..0] == [] && MatchingFiles(Literally, s, []) == [];
    assert MatchingFiles(Literally, s, [file]) == if file == path then [file] else [];
    assert SetReferences(config, "changed", []) == [];
    assert SetReferences(config, "changed", s.gateSets) == [] + IdReferences(ids, BySelector("changed", "checks"));
    assert IdReferences(ids, BySelector("changed", "checks")) == [(gate.id, BySelector("changed", "checks"))];
    assert References(config, Literally, [file], []) == [];
    var refs := References(config, Literally, [file], config.selectors);
    assert refs == if file == path then [(gate.id, BySelector("changed", "checks"))] else [];
    assert config.Generated() == {} && Defaults(config.gates[..0], false, {}) == [] &&
        Defaults(config.gates, false, {}) == [];
    if file == path { assert refs[..0] == [] && FirstOnly([], refs[..0]) == []; }
  }

  lemma OneFileSelects(gate: Gate, path: string, file: string)
    requires gate.stage == Continuous
    ensures SelectionOf(OneFileSource("", gate, path).config, Literally, Continuous, [file]).selected
      == if file == path then [SelectedGate(gate, BySelector("changed", "checks"))] else []
  {
    var config := OneFileSource("", gate, path).config;
    assert Ordering.SortedDistinct([file]) == [file] by {
      assert [file][1..] == [] && Ordering.SortedDistinct([]) == [];
    }
    OneFileIsPulled(gate, path, file);
    hide Pulled, OneFileSource;
    var pulled := Pulled(config, Literally, [file]);
    assert SelectedFrom(config, Continuous, {}, []) == [];
    if file == path { assert pulled[..0] == [] && FindGate(config.gates, gate.id) == Some(gate); }
  }

  lemma SingleIsKept(source: string, explicit: bool, g: SelectedGate)
    ensures Kept(source, {}, explicit, []) == [] && Kept(source, {}, explicit, [g]) == [Entry(source, g)]
  {
    assert [g][..0] == [] && Kept(source, {}, explicit, [g][..0]) == [];
  }

  lemma TwoChoices(own: Choice, shared: Choice)
    requires own.generated == shared.generated == {}
    ensures var explicit := ExplicitSelected([own, shared]);
      RetainedAt([own, shared]) == Kept(own.source, {}, explicit, own.selected) +
          Kept(shared.source, {}, explicit, shared.selected)
  {
    var choices, explicit := [own, shared], ExplicitSelected([own, shared]);
    hide ExplicitSelected, Kept;
    assert choices[..1] == [own] && [own][..0] == [];
    assert KeptFrom([], explicit) == [];
    assert KeptFrom([own], explicit) == [] + Kept(own.source, {}, explicit, own.selected);
  }

  lemma OneIsComposed(entry: Entry)
    ensures FirstById([entry]) == [entry] && Conflicts([entry]) == [] && GatesOf([entry]) == [entry.selected]
  {
    assert [entry][..0] == [] && FirstById([]) == [] && Conflicts([]) == [] && !HasId([], entry.selected.gate.id);
  }

  lemma OneStage(sources: seq<Source>, files: seq<string>)
    ensures Retained(Rounds(Literally, sources, [Continuous], files)) ==
        RetainedAt(Choices(Literally, sources, Continuous, files))
  {
    assert Rounds(Literally, sources, [Continuous], files) == [Choices(Literally, sources, Continuous, files)];
    CompositionLaws.OneRound(Choices(Literally, sources, Continuous, files));
  }

  function ByFile(gate: Gate): SelectedGate { SelectedGate(gate, BySelector("changed", "checks")) }

  lemma OneFileChoice(name: string, gate: Gate, path: string, file: string)
    requires gate.stage == Continuous
    ensures ChoiceOf(Literally, OneFileSource(name, gate, path), Continuous, [file])
      == Choice(name, {}, if file == path then [ByFile(gate)] else [])
  {
    OneFileSelects(gate, path, file);
    hide SelectionOf;
  }

  /** What the two sources retain when one file changed. */
  function RetainedFor(file: string): seq<Entry> {
    if file == "own.txt" then [Entry("repository gates", ByFile(OwnCheck))]
    else [Entry("workflow gates", ByFile(SharedCheck))]
  }

  lemma OneOfTwo(source: string, other: string, g: SelectedGate)
    ensures RetainedAt([Choice(source, {}, [g]), Choice(other, {}, [])]) == [Entry(source, g)]
    ensures RetainedAt([Choice(other, {}, []), Choice(source, {}, [g])]) == [Entry(source, g)]
  {
    var one, none := Choice(source, {}, [g]), Choice(other, {}, []);
    hide *;
    TwoChoices(one, none);
    TwoChoices(none, one);
    SingleIsKept(source, ExplicitSelected([one, none]), g);
    SingleIsKept(source, ExplicitSelected([none, one]), g);
    SingleIsKept(other, ExplicitSelected([one, none]), g);
    SingleIsKept(other, ExplicitSelected([none, one]), g);
  }

  lemma ChoicesOfTwo(a: Source, b: Source, file: string)
    ensures Choices(Literally, [a, b], Continuous, [file])
      == [ChoiceOf(Literally, a, Continuous, [file]), ChoiceOf(Literally, b, Continuous, [file])]
  {
    hide ChoiceOf;
  }

  lemma OneMeaningIsRetained(file: string)
    requires file == "own.txt" || file == "shared.txt"
    ensures RetainedAt(Choices(Literally, TwoMeanings.sources, Continuous, [file])) == RetainedFor(file)
  {
    var a := OneFileSource("repository gates", OwnCheck, "own.txt");
    var b := OneFileSource("workflow gates", SharedCheck, "shared.txt");
    assert TwoMeanings.sources == [a, b];
    OneFileChoice("repository gates", OwnCheck, "own.txt", file);
    OneFileChoice("workflow gates", SharedCheck, "shared.txt", file);
    ChoicesOfTwo(a, b, file);
    OneOfTwo("repository gates", "workflow gates", ByFile(OwnCheck));
    OneOfTwo("workflow gates", "repository gates", ByFile(SharedCheck));
    hide ChoiceOf, OneFileSource, RetainedAt, ByFile, Choices;
  }

  lemma OneMeaningIsSelected(file: string)
    requires file == "own.txt" || file == "shared.txt"
    ensures ComposedGates(Literally)(TwoMeanings, [Continuous], [file])
      == Required([ByFile(if file == "own.txt" then OwnCheck else SharedCheck)], [])
  {
    OneStage(TwoMeanings.sources, [file]);
    OneMeaningIsRetained(file);
    OneIsComposed(RetainedFor(file)[0]);
    hide Retained, Rounds, RetainedAt, FirstById, Conflicts, Choices, TwoMeanings, OwnCheck, SharedCheck, ByFile;
  }

  /** A contract whose two sources give one id two meanings behind disjoint selectors is not stable; some transaction
      records the success of one meaning under the other; and preparation refuses the contract. */
  lemma TwoMeaningsDrift(key: seq<char>, contract: ContractDigest) returns (h: Host<bool>, intent: Intent, run: GateRun)
    requires |key| >= MIN_KEY_LENGTH
    ensures var core := StandardCore((files: ContractDigest) => TwoMeanings,
        (p: PolicyDoc, r: Request) => (Allow, SharedUserRuntime), Literally);
      var request := Request(SupervisedAuto, "fs.read", ["read"], key);
      && !StableDefinitions(core, request, contract)
      && run in AdvanceOf(h, Task(core, request, EvidenceOnly), Start(false), intent).state.runs
      && run.exitCode == 0 && run.executed != run.recorded
    ensures PreparationOf(TwoMeanings).Conflicting?
  {
    var parse := (files: ContractDigest) => TwoMeanings;
    var evaluate := (p: PolicyDoc, r: Request) => (Allow, SharedUserRuntime);
    var core := StandardCore(parse, evaluate, Literally);
    var request := Request(SupervisedAuto, "fs.read", ["read"], key);
    var first, second := ReadOf("own.txt"), ReadOf("shared.txt");
    MeaningIsPlanned(key, contract, "own.txt");
    MeaningIsPlanned(key, contract, "shared.txt");
    StandardSelectsUniquely(parse, evaluate, Literally);
    assert CallOf(first) == CallOf(second);
    hide BasisFor, StandardCore, AdvanceOf, SelectsUniquely, PlannedUnder;
    assert Selectable(core, request, contract, CallOf(first), OwnCheck) &&
        Selectable(core, request, contract, CallOf(first), SharedCheck);
    h, intent, run := ConflictDrifts(core, request, contract, first, second, OwnCheck, SharedCheck);
    MeaningsAreRefused();
  }

  lemma MeaningsAreRefused()
    ensures PreparationOf(TwoMeanings).Conflicting?
  {
    PreparedIff(TwoMeanings);
    var sources := TwoMeanings.sources;
    assert Declared(sources, OwnCheck) by { assert sources[0] in sources && OwnCheck in sources[0].config.gates; }
    assert Declared(sources, SharedCheck) by { assert sources[1] in sources && SharedCheck in sources[1].config.gates; }
    hide Declared, ProtectedEntries, Conflicts;
    assert OwnCheck.id == SharedCheck.id && OwnCheck != SharedCheck;
  }

  lemma MeaningIsPlanned(key: seq<char>, contract: ContractDigest, file: string)
    requires file == "own.txt" || file == "shared.txt"
    ensures var core := StandardCore((files: ContractDigest) => TwoMeanings,
        (p: PolicyDoc, r: Request) => (Allow, SharedUserRuntime), Literally);
      var request := Request(SupervisedAuto, "fs.read", ["read"], key);
      PlannedUnder(core, request, contract, ReadOf(file), if file == "own.txt" then OwnCheck else SharedCheck)
      && Fits(core, request, contract, ReadOf(file))
  {
    hide *;
    var parse := (files: ContractDigest) => TwoMeanings;
    var evaluate := (p: PolicyDoc, r: Request) => (Allow, SharedUserRuntime);
    var core, request, intent := StandardCore(parse, evaluate, Literally),
        Request(SupervisedAuto, "fs.read", ["read"], key), ReadOf(file);
    CoreFields(parse, evaluate, Literally, request, intent);
    OneMeaningIsSelected(file);
    ReadIsAdmitted(file);
    TwoMeaningsFacts(file);
    assert parse(contract) == TwoMeanings;
    OneGateIsPlanned(core, request, contract, intent, if file == "own.txt" then OwnCheck else SharedCheck);
  }

  lemma TwoMeaningsFacts(file: string)
    ensures !TwoMeanings.broken && TwoMeanings.policies == []
    ensures ReadOf(file).fingerprint == Some("workspace") && ReadOf(file).changedFiles == [file]
    ensures RequiredStages("fs.read", ["read"]) == [Continuous]
  {}

  lemma CoreFields(parse: ContractDigest -> Authority, evaluate: (PolicyDoc, Request) -> (Decision, Placement),
                   globs: Globs,
                   request: Request, intent: Intent)
    ensures var core := StandardCore(parse, evaluate, globs);
      && core.parse == parse && core.required == ComposedGates(globs)
      && core.stages(request) == RequiredStages(request.action, request.classes)
      && core.admits(request, intent) == (IntentValid(intent) && ActionClassesValid(request.action, request.classes))
  {}

  lemma OneGateIsPlanned(core: Core, request: Request, contract: ContractDigest, intent: Intent, gate: Gate)
    requires !core.parse(contract).broken && core.parse(contract).policies == [] && core.admits(request, intent)
    requires core.required(core.parse(contract), core.stages(request), intent.changedFiles) ==
        Required([ByFile(gate)], [])
    requires intent.fingerprint.Some? && intent.fingerprint.value != ""
    ensures PlannedUnder(core, request, contract, intent, gate) && Fits(core, request, contract, intent)
  {
    assert Strictest(core, request, []) == (Allow, SharedUserRuntime);
    assert Definitions([ByFile(gate)]) == [gate];
  }

  lemma NotBlank(s: string)
    requires s != "" && !IsSpace(s[0])
    ensures !Blank(s)
  {
    assert s[0] in s;
  }

  lemma ReadIsAdmitted(file: string)
    requires file == "own.txt" || file == "shared.txt"
    ensures IntentValid(ReadOf(file)) && ActionClassesValid("fs.read", ["read"])
  {
    hide Blank, ConfinedFile;
    var intent := ReadOf(file);
    NotBlank(intent.launchId);
    NotBlank(intent.sessionId);
    NotBlank(intent.toolCallId);
    NotBlank(intent.toolName);
    NotBlank(intent.inputDigest);
    NotBlank(intent.targetDigest);
    NotBlank(intent.executorDigest);
    FilesAreConfined(file);
    assert ExpectedClass("fs.read") == Some("read");
  }

  lemma FilesAreConfined(file: string)
    requires file == "own.txt" || file == "shared.txt"
    ensures ConfinedFile(file)
  {
    assert forall i :: 0 <= i < |file| && file[i] == '.' ==> i == |file| - 4;
  }
}
