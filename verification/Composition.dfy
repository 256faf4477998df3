/** Composition of the gates several authority sources select over several stages. */
module Composition {
  import opened Wrappers
  import opened Gates
  import opened Selection

  datatype Source = Source(name: string, config: GatesConfig)

  /** A gate kept from one source. */
  datatype Entry = Entry(source: string, selected: SelectedGate)

  /** The diagnostic for one id with two meanings. */
  datatype Conflict = Conflict(id: string, earlier: string, later: string)

  // ---- Specification -----------------------------------------------------------------

  /** What one source selected for one stage, with the ids it generated. */
  datatype Choice = Choice(source: string, generated: set<string>, selected: seq<SelectedGate>)

  function ChoiceOf(globs: Globs, source: Source, stage: Stage, files: seq<string>): Choice {
    Choice(source.name, source.config.Generated(), SelectionOf(source.config, globs, stage, files).selected)
  }

  function Choices(globs: Globs, sources: seq<Source>, stage: Stage, files: seq<string>): (r: seq<Choice>)
    ensures |r| == |sources|
    ensures forall i :: 0 <= i < |r| ==> r[i] == ChoiceOf(globs, sources[i], stage, files)
  {
    seq(|sources|, i requires 0 <= i < |sources| => ChoiceOf(globs, sources[i], stage, files))
  }

  function Rounds(globs: Globs, sources: seq<Source>, stages: seq<Stage>, files: seq<string>): (r: seq<seq<Choice>>)
    ensures |r| == |stages|
    ensures forall i :: 0 <= i < |r| ==> r[i] == Choices(globs, sources, stages[i], files)
  {
    seq(|stages|, i requires 0 <= i < |stages| => Choices(globs, sources, stages[i], files))
  }

  predicate HasExplicit(c: Choice) {
    exists g: SelectedGate :: g in c.selected && g.gate.id !in c.generated
  }

  /** Some source selected a checked-in gate. */
  predicate ExplicitSelected(choices: seq<Choice>) {
    exists c: Choice :: c in choices && HasExplicit(c)
  }

  /** What one source keeps: generated gates give way to explicit ones. */
  function Kept(source: string, generated: set<string>, explicit: bool, selected: seq<SelectedGate>): seq<Entry> {
    if selected == [] then []
    else
      var last := selected[|selected| - 1];
      Kept(source, generated, explicit, selected[..|selected| - 1])
      + (if explicit && last.gate.id in generated then [] else [Entry(source, last)])
  }

  function KeptFrom(choices: seq<Choice>, explicit: bool): seq<Entry> {
    if choices == [] then []
    else
      var last := choices[|choices| - 1];
      KeptFrom(choices[..|choices| - 1], explicit) + Kept(last.source, last.generated, explicit, last.selected)
  }

  function RetainedAt(choices: seq<Choice>): seq<Entry> {
    KeptFrom(choices, ExplicitSelected(choices))
  }

  /** Every retained gate, stage by stage and source by source, repeats included. */
  function Retained(rounds: seq<seq<Choice>>): seq<Entry> {
    if rounds == [] then []
    else Retained(rounds[..|rounds| - 1]) + RetainedAt(rounds[|rounds| - 1])
  }

  predicate HasId(entries: seq<Entry>, id: string) {
    exists i :: 0 <= i < |entries| && entries[i].selected.gate.id == id
  }

  /** The first entry of an id. */
  function Find(entries: seq<Entry>, id: string): (r: Option<Entry>)
    ensures r.Some? <==> HasId(entries, id)
    ensures r.Some? ==> r.value in entries && r.value.selected.gate.id == id
  {
    if entries == [] then None
    else if entries[0].selected.gate.id == id then Some(entries[0])
    else
      var rest := Find(entries[1..], id);
      assert HasId(entries, id) ==> HasId(entries[1..], id) by {
        if k :| 0 <= k < |entries| && entries[k].selected.gate.id == id { assert entries[1..][k - 1] == entries[k]; }
      }
      assert HasId(entries[1..], id) ==> HasId(entries, id) by {
        if k :| 0 <= k < |entries[1..]| && entries[1..][k].selected.gate.id == id {
          assert entries[k + 1] == entries[1..][k];
        }
      }
      rest
  }

  /** Each id keeps its first entry. */
  function FirstById(entries: seq<Entry>): seq<Entry> {
    if entries == [] then []
    else
      var rest := FirstById(entries[..|entries| - 1]);
      var last := entries[|entries| - 1];
      if HasId(rest, last.selected.gate.id) then rest else rest + [last]
  }

  /** A diagnostic for every later entry whose gate differs from the one its id already has. */
  function Conflicts(entries: seq<Entry>): seq<Conflict> {
    if entries == [] then []
    else
      var last := entries[|entries| - 1];
      var found := Find(FirstById(entries[..|entries| - 1]), last.selected.gate.id);
      Conflicts(entries[..|entries| - 1])
      + (if found.Some? && found.value.selected.gate != last.selected.gate
         then [Conflict(last.selected.gate.id, found.value.source, last.source)] else [])
  }

  function GatesOf(entries: seq<Entry>): (r: seq<SelectedGate>)
    ensures |r| == |entries| && forall i :: 0 <= i < |r| ==> r[i] == entries[i].selected
  {
    seq(|entries|, i requires 0 <= i < |entries| => entries[i].selected)
  }

  // ---- The composing pass --------------------------------------------------------------

  method SelectRequiredGates(globs: Globs, stages: seq<Stage>, changedFiles: seq<string>, sources: seq<Source>)
    returns (gates: seq<SelectedGate>, conflicts: seq<Conflict>)
    ensures gates == GatesOf(FirstById(Retained(Rounds(globs, sources, stages, changedFiles))))
    ensures conflicts == Conflicts(Retained(Rounds(globs, sources, stages, changedFiles)))
  {
    hide FirstById, Conflicts, Choices, RetainedAt;
    var selected: seq<Entry> := [];
    conflicts := [];
    ghost var rounds := Rounds(globs, sources, stages, changedFiles);
    assert rounds[..0] == [] && selected == FirstById([]) && conflicts == Conflicts([]) by { NothingComposed(); }
    for i := 0 to |stages|
      invariant selected == FirstById(Retained(rounds[..i]))
      invariant conflicts == Conflicts(Retained(rounds[..i]))
    {
      assert rounds[..i + 1][..i] == rounds[..i];
      var choices := SelectEach(globs, sources, stages[i], changedFiles);
      selected, conflicts := ComposeStage(choices, Retained(rounds[..i]), selected, conflicts);
    }
    assert rounds[..|stages|] == rounds;
    gates := GatesOf(selected);
  }

  lemma NothingComposed()
    ensures FirstById([]) == [] && Conflicts([]) == []
  {}

  method SelectEach(globs: Globs, sources: seq<Source>, stage: Stage, changedFiles: seq<string>)
    returns (choices: seq<Choice>)
    ensures choices == Choices(globs, sources, stage, changedFiles)
  {
    hide SelectionOf;
    choices := [];
    for k := 0 to |sources|
      invariant |choices| == k
      invariant forall i :: 0 <= i < k ==> choices[i] == ChoiceOf(globs, sources[i], stage, changedFiles)
    {
      var s := Select(sources[k].config, globs, stage, changedFiles);
      choices := choices + [Choice(sources[k].name, sources[k].config.Generated(), s.selected)];
    }
  }

  method ComposeStage(choices: seq<Choice>, ghost before: seq<Entry>, start: seq<Entry>, startConflicts: seq<Conflict>)
    returns (selected: seq<Entry>, conflicts: seq<Conflict>)
    requires start == FirstById(before) && startConflicts == Conflicts(before)
    ensures selected == FirstById(before + RetainedAt(choices))
    ensures conflicts == Conflicts(before + RetainedAt(choices))
  {
    hide FirstById, Conflicts, ExplicitSelected;
    var explicit := ExplicitSelected(choices);
    selected, conflicts := start, startConflicts;
    ghost var seen := before;
    for j := 0 to |choices|
      invariant seen == before + KeptFrom(choices[..j], explicit)
      invariant selected == FirstById(seen) && conflicts == Conflicts(seen)
    {
      selected, conflicts := ComposeSource(choices[j], explicit, seen, selected, conflicts);
      ghost var own := Kept(choices[j].source, choices[j].generated, explicit, choices[j].selected);
      KeptFromOneMore(before, choices, j, explicit, own);
      seen := seen + own;
    }
    assert choices[..|choices|] == choices;
  }

  lemma KeptFromOneMore(before: seq<Entry>, choices: seq<Choice>, j: nat, explicit: bool, own: seq<Entry>)
    requires j < |choices| && own == Kept(choices[j].source, choices[j].generated, explicit, choices[j].selected)
    ensures before + KeptFrom(choices[..j], explicit) + own == before + KeptFrom(choices[..j + 1], explicit)
  {
    assert choices[..j + 1][..j] == choices[..j];
  }

  method ComposeSource(choice: Choice, explicit: bool, ghost before: seq<Entry>, start: seq<Entry>,
                       startConflicts: seq<Conflict>)
    returns (selected: seq<Entry>, conflicts: seq<Conflict>)
    requires start == FirstById(before) && startConflicts == Conflicts(before)
    ensures selected == FirstById(before + Kept(choice.source, choice.generated, explicit, choice.selected))
    ensures conflicts == Conflicts(before + Kept(choice.source, choice.generated, explicit, choice.selected))
  {
    hide FirstById, Conflicts;
    selected, conflicts := start, startConflicts;
    var gates := choice.selected;
    ghost var seen := before;
    for k := 0 to |gates|
      invariant seen == before + Kept(choice.source, choice.generated, explicit, gates[..k])
      invariant selected == FirstById(seen) && conflicts == Conflicts(seen)
    {
      var gate := gates[k];
      assert gates[..k + 1][..k] == gates[..k];
      if !(explicit && gate.gate.id in choice.generated) {
        selected, conflicts := Offer(Entry(choice.source, gate), seen, selected, conflicts);
        seen := seen + [Entry(choice.source, gate)];
      }
    }
    assert gates[..|gates|] == gates;
  }

  /** Take a gate whose id is new; report one whose id already means something else. */
  method Offer(entry: Entry, ghost before: seq<Entry>, start: seq<Entry>, startConflicts: seq<Conflict>)
    returns (selected: seq<Entry>, conflicts: seq<Conflict>)
    requires start == FirstById(before) && startConflicts == Conflicts(before)
    ensures selected == FirstById(before + [entry]) && conflicts == Conflicts(before + [entry])
  {
    selected, conflicts := start, startConflicts;
    assert (before + [entry])[..|before|] == before;
    var id := entry.selected.gate.id;
    var found := Find(selected, id);
    if found.Some? {
      if found.value.selected.gate != entry.selected.gate {
        conflicts := conflicts + [Conflict(id, found.value.source, entry.source)];
      }
    } else {
      selected := selected + [entry];
    }
  }
}
