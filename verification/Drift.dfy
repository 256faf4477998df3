/** When a contract plans two different gates under one id for one call, the transaction can file
    the receipt of the one it ran under the definition of the other. */
module Drift {
  import opened Wrappers
  import opened Gates
  import opened Selection
  import opened Composition
  import CompositionLaws
  import opened Evidence
  import opened Ledger
  import opened Planning
  import opened Verification
  import opened Soundness
  import opened Preparation

  // ---- Recording that succeeds -----------------------------------------------------------------

  lemma {:induction false} FirstReceipt(receipts: seq<ReceiptStatus>, i: nat)
    requires i < |receipts| && forall k :: 0 <= k < |receipts| && k != i ==> receipts[k].gateId != receipts[i].gateId
    ensures FindReceipt(receipts, receipts[i].gateId) == Some(receipts[i])
    decreases |receipts|
  {
    if i > 0 { assert receipts[0].gateId != receipts[i].gateId; FirstReceipt(receipts[1..], i - 1); }
  }

  lemma {:induction false} FirstSelected(gates: seq<SelectedGate>, i: nat)
    requires i < |gates| && forall k :: 0 <= k < |gates| && k != i ==> gates[k].gate.id != gates[i].gate.id
    ensures FindSelected(gates, gates[i].gate.id) == Some(gates[i])
    decreases |gates|
  {
    if i > 0 { assert gates[0].gate.id != gates[i].gate.id; FirstSelected(gates[1..], i - 1); }
  }

  /** Without evidence every selected gate is still required. */
  lemma {:induction false} NothingProven(j: Option<Journal>, key: seq<char>, action: string, gates: seq<SelectedGate>,
                                         binding: Binding)
    requires forall g :: g in gates ==> !Proven(j, key, action, g.gate, binding)
    ensures Unproven(j, key, action, gates, binding) == gates
  {
    if gates != [] {
      hide Proven;
      assert gates == gates[..|gates| - 1] + [gates[|gates| - 1]];
      NothingProven(j, key, action, gates[..|gates| - 1], binding);
    }
  }

  /** A finished gate's result is accepted whenever its id is planned once and its receipt is new. */
  lemma EvidenceIsAccepted(core: Core, request: Request, contract: ContractDigest, intent: Intent, exitCode: int,
                           i: nat)
    requires |request.key| >= MIN_KEY_LENGTH
    requires var basis := BasisFor(core, request, contract, intent, "");
      basis.ok && UniqueIds(Definitions(basis.gates)) && i < |basis.gates|
    ensures var p := PlanFor(core, request, None, contract, intent, "");
      var d := BasisFor(core, request, contract, intent, "").gates[i].gate;
      GateEvidence(core, request, contract, intent, "", d.id, exitCode,
          GateContext(p.contract, p.fingerprint, d, p.binding))
      == Directed(AttemptEffects(request, p, d, exitCode))
  {
    var gates := BasisFor(core, request, contract, intent, "").gates;
    var p := PlanFor(core, request, None, contract, intent, "");
    SubjectFacts(core, request, None, contract, intent);
    hide BasisFor, PlanFor, AttemptEffects;
    NothingProven(None, request.key, request.action, gates, p.binding);
    forall k | 0 <= k < |gates| && k != i ensures gates[k].gate.id != gates[i].gate.id {
      assert Definitions(gates)[k].id != Definitions(gates)[i].id;
    }
    FirstSelected(gates, i);
  }

  lemma PlannedReceipt(core: Core, request: Request, j: Option<Journal>, contract: ContractDigest, intent: Intent,
                       i: nat)
    requires var basis := BasisFor(core, request, contract, intent, "");
        UniqueIds(Definitions(basis.gates)) && i < |basis.gates|
    ensures var p := PlanFor(core, request, j, contract, intent, "");
      var d := BasisFor(core, request, contract, intent, "").gates[i].gate;
      FindReceipt(p.receipts, d.id).Some? && FindReceipt(p.receipts, d.id).value.definition == d
  {
    var gates := BasisFor(core, request, contract, intent, "").gates;
    var p := PlanFor(core, request, j, contract, intent, "");
    SubjectFacts(core, request, j, contract, intent);
    PlanFacts(core, request, j, contract, intent);
    hide BasisFor, PlanFor;
    assert |p.receipts| == |gates|;
    forall k | 0 <= k < |gates| && k != i ensures p.receipts[k].gateId != p.receipts[i].gateId {
      assert Definitions(gates)[k].id != Definitions(gates)[i].id;
    }
    FirstReceipt(p.receipts, i);
  }

  /** A successful run is recorded when the contract stands, the id is still planned and its receipt is new. */
  lemma RecordSucceeds<W>(h: Host<W>, t: Task, s: State<W>, intent: Intent, plan: Plan, gate: SelectedGate, i: nat)
    requires |t.request.key| >= MIN_KEY_LENGTH
    requires h.load(s.world).0 == Some(plan.contract) && h.load(h.load(s.world).1).0 == Some(plan.contract)
    requires var basis := BasisFor(t.core, t.request, plan.contract, intent, "");
      basis.ok && UniqueIds(Definitions(basis.gates)) && i < |basis.gates| && basis.gates[i].gate.id == gate.gate.id
    requires var path := ReceiptPath(gate.gate.id, SubjectOf(t.core, t.request, plan.contract, intent));
      path !in s.journal.files && path !in s.journal.history
    ensures var turn := RecordRun(h, t, s, intent, plan, gate, 0);
      var b := SubjectOf(t.core, t.request, plan.contract, intent);
      var d := BasisFor(t.core, t.request, plan.contract, intent, "").gates[i].gate;
      && turn.verdict == Again && turn.intent == intent && turn.state.world == h.load(h.load(s.world).1).1
      && turn.state.runs == s.runs + [GateRun(gate.gate, 0, b.fingerprint, t.request, plan.contract, d)]
      && turn.state.journal.history == s.journal.history + {ReceiptPath(gate.gate.id, b)}
      && turn.state.journal.files.Keys == s.journal.files.Keys + {ReceiptPath(gate.gate.id, b)}
  {
    hide BasisFor, PlanFor, GateEvidence, AttemptEffects, UniqueIds, SubjectOf;
    var d := BasisFor(t.core, t.request, plan.contract, intent, "").gates[i].gate;
    var post := PlanFor(t.core, t.request, Some(s.journal), plan.contract, intent, "");
    var none := PlanFor(t.core, t.request, None, plan.contract, intent, "");
    PlannedReceipt(t.core, t.request, Some(s.journal), plan.contract, intent, i);
    EvidenceIsAccepted(t.core, t.request, plan.contract, intent, 0, i);
    OneSubject(t.core, t.request, s.journal, plan.contract, intent);
    AttemptReceipts(s.journal, t.request, none, d, 0);
    AttemptIsAdmitted(s.journal, t.request, none, d, 0);
  }

  /** The plan made with the evidence and the one made without it have one subject. */
  lemma OneSubject(core: Core, request: Request, j: Journal, contract: ContractDigest, intent: Intent)
    ensures var post := PlanFor(core, request, Some(j), contract, intent, "");
      var none := PlanFor(core, request, None, contract, intent, "");
      && post.binding == none.binding == SubjectOf(core, request, contract, intent)
      && post.contract == none.contract == contract && post.fingerprint == none.fingerprint == post.binding.fingerprint
  {
    hide BasisFor;
  }

  // ---- The drift ---------------------------------------------------------------------------------

  function Seen(intent: Intent): Observation {
    Observation(if intent.fingerprint.Some? then intent.fingerprint.value else "", intent.changedFiles)
  }

  /** A workspace with two states: executing the drifting gate moves from the first to the second. */
  function Drifting(contract: ContractDigest, first: Intent, second: Intent, drifts: Gate): Host<bool> {
    Host((w: bool) => true,
         (w: bool) => (Some(Seen(if w then second else first)), w),
         (w: bool) => (Some(contract), w),
         (w: bool, g: SelectedGate) => (Some(0), w || g.gate == drifts))
  }

  lemma ObservedAs<W>(h: Host<W>, s: State<W>, intent: Intent, target: Intent)
    requires CallOf(intent) == CallOf(target) && target.fingerprint.Some? && h.observe(s.world).0 == Some(Seen(target))
    ensures Refresh(h, s, intent) == (Some(target), s.(world := h.observe(s.world).1, observed := Some(Seen(target))))
  {
    assert intent.(changedFiles := target.changedFiles, fingerprint := target.fingerprint)
        == CallOf(intent).(changedFiles := target.changedFiles, fingerprint := target.fingerprint);
    assert target == CallOf(target).(changedFiles := target.changedFiles, fingerprint := target.fingerprint);
  }

  lemma GateRunsGrow<W>(h: Host<W>, t: Task, s: State<W>, intent: Intent, plan: Plan, gate: SelectedGate)
    ensures s.runs <= RunGate(h, t, s, intent, plan, gate).state.runs
  {
    hide PlanFor, GateEvidence, Commit;
  }

  lemma {:induction false} RunsGrow<W>(h: Host<W>, t: Task, s: State<W>, intent: Intent, plan: Plan,
                                       gates: seq<SelectedGate>)
    ensures s.runs <= RunGates(h, t, s, intent, plan, gates).state.runs
    decreases |gates|
  {
    hide RunGate;
    if gates != [] {
      var turn := RunGate(h, t, s, intent, plan, gates[0]);
      GateRunsGrow(h, t, s, intent, plan, gates[0]);
      if turn.verdict.Again? { RunsGrow(h, t, turn.state, turn.intent, plan, gates[1..]); }
    }
  }

  lemma {:induction false} PassRunsGrow<W>(h: Host<W>, t: Task, s: State<W>, intent: Intent, left: nat)
    ensures s.runs <= Passes(h, t, s, intent, left).state.runs
    decreases left
  {
    hide Pass;
    if left > 0 {
      OnePassRunsGrow(h, t, s, intent);
      var turn := Pass(h, t, s, intent);
      if turn.verdict.Again? { PassRunsGrow(h, t, turn.state, turn.intent, left - 1); }
    }
  }

  lemma OnePassRunsGrow<W>(h: Host<W>, t: Task, s: State<W>, intent: Intent)
    ensures s.runs <= Pass(h, t, s, intent).state.runs
  {
    hide PlanFor, RunGates, Commit;
    var (refreshed, s1) := Refresh(h, s, intent);
    if refreshed.Some? {
      var (planned, s2) := PlanNow(h, t, s1, refreshed.value);
      if planned.Some? && Commit(s2.journal, DecisionEvidence(planned.value)).Some? {
        var s3 := s2.(journal := Commit(s2.journal, DecisionEvidence(planned.value)).value);
        RunsGrow(h, t, s3, refreshed.value, planned.value, planned.value.requiredGates);
      }
    }
  }

  /** Only the first subject has receipts so far, and only for the gates before this one. */
  ghost predicate Earlier(j: Journal, first: Binding, gates: seq<SelectedGate>, k: nat)
    requires k <= |gates|
  {
    forall p: EvidencePath :: p.ReceiptPath? && (p in j.history || p in j.files) ==>
      p.binding == first && exists m :: 0 <= m < k && gates[m].gate.id == p.gateId
  }

  ghost predicate Usable(core: Core, request: Request, contract: ContractDigest, intent: Intent) {
    var basis := BasisFor(core, request, contract, intent, "");
    basis.ok && UniqueIds(Definitions(basis.gates)) && intent.fingerprint.Some?
  }

  lemma NextIsClear(j: Journal, first: Binding, gates: seq<SelectedGate>, k: nat, b: Binding)
    requires k < |gates| && Earlier(j, first, gates, k) && UniqueIds(Definitions(gates))
    ensures ReceiptPath(gates[k].gate.id, b) !in j.history && ReceiptPath(gates[k].gate.id, b) !in j.files
  {
    DistinctIds(gates);
  }

  lemma EarlierExtends(j: Journal, first: Binding, gates: seq<SelectedGate>, k: nat, j': Journal)
    requires k < |gates| && Earlier(j, first, gates, k)
    requires j'.history == j.history + {ReceiptPath(gates[k].gate.id, first)}
    requires j'.files.Keys == j.files.Keys + {ReceiptPath(gates[k].gate.id, first)}
    ensures Earlier(j', first, gates, k + 1)
  {
    forall p: EvidencePath | p.ReceiptPath? && (p in j'.history || p in j'.files)
      ensures p.binding == first && exists m :: 0 <= m < k + 1 && gates[m].gate.id == p.gateId
    {
      assert p in j'.files ==> p in j'.files.Keys;
      if p == ReceiptPath(gates[k].gate.id, first) {
        assert gates[k].gate.id == p.gateId;
      } else {
        assert p in j.history || p in j.files.Keys;
        var m :| 0 <= m < k && gates[m].gate.id == p.gateId;
        assert gates[m].gate.id == p.gateId;
      }
    }
  }

  /** One gate of the drifting workspace: its receipt is filed under the subject it leaves behind. */
  lemma GateLands(t: Task, s: State<bool>, contract: ContractDigest, first: Intent, second: Intent, drifts: Gate,
                  plan: Plan, gate: SelectedGate, i: nat)
    requires |t.request.key| >= MIN_KEY_LENGTH && plan.contract == contract && !s.world
    requires CallOf(first) == CallOf(second) && first.fingerprint.Some? && second.fingerprint.Some?
    requires var target := if gate.gate == drifts then second else first;
      var basis := BasisFor(t.core, t.request, contract, target, "");
      var path := ReceiptPath(gate.gate.id, SubjectOf(t.core, t.request, contract, target));
      && Usable(t.core, t.request, contract, target) && i < |basis.gates| && basis.gates[i].gate.id == gate.gate.id
      && path !in s.journal.files && path !in s.journal.history
    ensures var turn := RunGate(Drifting(contract, first, second, drifts), t, s, first, plan, gate);
      var target := if gate.gate == drifts then second else first;
      var b := SubjectOf(t.core, t.request, contract, target);
      && turn.verdict == Again && turn.intent == target && turn.state.world == (gate.gate == drifts)
      && turn.state.runs == s.runs + [GateRun(gate.gate, 0, b.fingerprint, t.request, contract,
                                              BasisFor(t.core, t.request, contract, target, "").gates[i].gate)]
      && turn.state.journal.history == s.journal.history + {ReceiptPath(gate.gate.id, b)}
      && turn.state.journal.files.Keys == s.journal.files.Keys + {ReceiptPath(gate.gate.id, b)}
  {
    hide BasisFor, RecordRun, SubjectOf, UniqueIds;
    var h := Drifting(contract, first, second, drifts);
    var moved := gate.gate == drifts;
    var s1 := s.(world := moved, started := s.started + 1);
    var target := if moved then second else first;
    ObservedAs(h, s1, first, target);
    RecordSucceeds(h, t, s1.(observed := Some(Seen(target))), target, plan, gate, i);
  }

  /** Gates before the drifting one leave the workspace alone and earn their receipts;
      the drifting one is filed under the definition planned for the second state. */
  lemma {:induction false} GatesDrift(t: Task, s: State<bool>, contract: ContractDigest, first: Intent, second: Intent,
                                      plan: Plan, k: nat, a: nat, b: nat)
    requires |t.request.key| >= MIN_KEY_LENGTH && plan.contract == contract && !s.world
    requires Usable(t.core, t.request, contract, first) && Usable(t.core, t.request, contract, second)
    requires CallOf(first) == CallOf(second)
    requires k <= a < |BasisFor(t.core, t.request, contract, first, "").gates|
    requires b < |BasisFor(t.core, t.request, contract, second, "").gates|
    requires BasisFor(t.core, t.request, contract, first, "").gates[a].gate.id ==
        BasisFor(t.core, t.request, contract, second, "").gates[b].gate.id
    requires Earlier(s.journal, SubjectOf(t.core, t.request, contract, first),
        BasisFor(t.core, t.request, contract, first, "").gates, k)
    ensures var gates := BasisFor(t.core, t.request, contract, first, "").gates;
      var to := BasisFor(t.core, t.request, contract, second, "").gates[b].gate;
      exists run :: run in RunGates(Drifting(contract, first, second, gates[a].gate), t, s, first, plan,
          gates[k..]).state.runs
        && RecordedAs(run, t.request, contract, gates[a].gate, to)
    decreases a - k
  {
    var gates := BasisFor(t.core, t.request, contract, first, "").gates;
    var to := BasisFor(t.core, t.request, contract, second, "").gates[b].gate;
    var h := Drifting(contract, first, second, gates[a].gate);
    var rest := gates[k..];
    assert rest != [] && rest[0] == gates[k] && rest[1..] == gates[k + 1..];
    DistinctIds(gates);
    hide BasisFor, RunGate, SubjectOf, Drifting, UniqueIds, Earlier, Definitions;
    var turn := RunGate(h, t, s, first, plan, gates[k]);
    var b1 := SubjectOf(t.core, t.request, contract, first);
    if k == a {
      NextIsClear(s.journal, b1, gates, k, SubjectOf(t.core, t.request, contract, second));
      GateLands(t, s, contract, first, second, gates[a].gate, plan, gates[k], b);
      RunsGrow(h, t, turn.state, turn.intent, plan, gates[k + 1..]);
      var run := GateRun(gates[k].gate, 0, SubjectOf(t.core, t.request, contract, second).fingerprint, t.request,
          contract, to);
      assert run in turn.state.runs && RecordedAs(run, t.request, contract, gates[a].gate, to);
    } else {
      NextIsClear(s.journal, b1, gates, k, b1);
      GateLands(t, s, contract, first, second, gates[a].gate, plan, gates[k], k);
      EarlierExtends(s.journal, b1, gates, k, turn.state.journal);
      GatesDrift(t, turn.state, contract, first, second, plan, k + 1, a, b);
    }
  }

  /** A successful run of one gate filed under another. */
  predicate RecordedAs(run: GateRun, request: Request, contract: ContractDigest, executed: Gate, recorded: Gate) {
    run.executed == executed && run.recorded == recorded && run.exitCode == 0 && run.request == request &&
        run.contract == contract
  }

  lemma DistinctIds(gates: seq<SelectedGate>)
    requires UniqueIds(Definitions(gates))
    ensures forall i, k :: 0 <= i < |gates| && 0 <= k < |gates| && i != k ==> gates[i].gate.id != gates[k].gate.id
  {
    forall i, k | 0 <= i < |gates| && 0 <= k < |gates| && i != k ensures gates[i].gate.id != gates[k].gate.id {
      assert Definitions(gates)[i].id != Definitions(gates)[k].id;
    }
  }

  /** Gate selection never returns one id twice. */
  ghost predicate SelectsUniquely(core: Core) {
    forall authority: Authority, stages: seq<Stage>, files: seq<string> ::
        UniqueIds(Definitions(core.required(authority, stages, files).gates))
  }

  /** The selection for this change set is one a pass accepts. */
  predicate Fits(core: Core, request: Request, contract: ContractDigest, intent: Intent) {
    |BasisFor(core, request, contract, intent, "").gates| <= MAX_SELECTED_GATES
  }

  lemma StandardSelectsUniquely(parse: ContractDigest -> Authority,
                                evaluate: (PolicyDoc, Request) -> (Decision, Placement), globs: Globs)
    ensures SelectsUniquely(StandardCore(parse, evaluate, globs))
  {
    var core := StandardCore(parse, evaluate, globs);
    forall authority: Authority, stages: seq<Stage>, files: seq<string>
      ensures UniqueIds(Definitions(core.required(authority, stages, files).gates))
    {
      var retained := Composition.Retained(Composition.Rounds(globs, authority.sources, stages, files));
      hide Composition.Retained, Composition.Rounds, Composition.FirstById;
      CompositionLaws.ComposedIdsAreUnique(retained);
      assert core.required(authority, stages, files).gates == Composition.GatesOf(Composition.FirstById(retained));
    }
  }

  lemma DriftingRun(t: Task, contract: ContractDigest, first: Intent, second: Intent, a: nat, b: nat)
    requires t.request.mode == SupervisedAuto && |t.request.key| >= MIN_KEY_LENGTH
    requires Usable(t.core, t.request, contract, first) && Usable(t.core, t.request, contract, second)
    requires CallOf(first) == CallOf(second)
    requires var basis := BasisFor(t.core, t.request, contract, first, "");
      a < |basis.gates| <= MAX_SELECTED_GATES && basis.placement != Placement.Blocked
    requires b < |BasisFor(t.core, t.request, contract, second, "").gates|
    requires BasisFor(t.core, t.request, contract, first, "").gates[a].gate.id ==
        BasisFor(t.core, t.request, contract, second, "").gates[b].gate.id
    ensures var from := BasisFor(t.core, t.request, contract, first, "").gates[a].gate;
      var to := BasisFor(t.core, t.request, contract, second, "").gates[b].gate;
      exists run :: run in AdvanceOf(Drifting(contract, first, second, from), t, Start(false), CallOf(first)).state.runs
        && RecordedAs(run, t.request, contract, from, to)
  {
    hide BasisFor, PlanFor, RunGates, Pass, Drifting, Commit, Usable, DecisionEvidence, AdvanceOf;
    var gates := BasisFor(t.core, t.request, contract, first, "").gates;
    var h := Drifting(contract, first, second, gates[a].gate);
    var s: State<bool> := Start(false);
    var call := CallOf(first);
    var plan := PlanFor(t.core, t.request, Some(s.journal), contract, first, "");
    FirstPassRuns(t, s, contract, first, second, gates[a].gate, call);
    var s1 := s.(journal := Commit(s.journal, DecisionEvidence(plan)).value, observed := Some(Seen(first)));
    DecisionIsLogged(s.journal, plan);
    assert gates[0..] == gates;
    GatesDrift(t, s1, contract, first, second, plan, 0, a, b);
    FirstPassRunsStay(h, t, s, call);
  }

  lemma FirstPassRunsStay<W>(h: Host<W>, t: Task, s: State<W>, intent: Intent)
    requires t.request.mode == SupervisedAuto && h.runtimeValid(s.world)
    ensures Pass(h, t, s, intent).state.runs <= AdvanceOf(h, t, s, intent).state.runs
  {
    hide Pass;
    var turn := Pass(h, t, s, intent);
    if turn.verdict.Again? { PassRunsGrow(h, t, turn.state, turn.intent, 2); }
    assert Passes(h, t, s, intent, 3) == (if turn.verdict.Again? then Passes(h, t, turn.state, turn.intent, 2)
                                          else turn);
  }

  /** One call, two change sets, one id planned with two meanings: if either selection fits one pass, some workspace and
      gate behaviour make one fresh transaction record the success of one gate under the definition of the other. */
  lemma ConflictDrifts(core: Core, request: Request, contract: ContractDigest, first: Intent, second: Intent, ga: Gate,
                       gb: Gate)
    returns (h: Host<bool>, intent: Intent, run: GateRun)
    requires request.mode == SupervisedAuto && |request.key| >= MIN_KEY_LENGTH && SelectsUniquely(core)
    requires PlannedUnder(core, request, contract, first, ga) && PlannedUnder(core, request, contract, second, gb)
    requires CallOf(first) == CallOf(second) && ga.id == gb.id && ga != gb
    requires Fits(core, request, contract, first) || Fits(core, request, contract, second)
    decreases !Fits(core, request, contract, first)
    ensures run in AdvanceOf(h, Task(core, request, EvidenceOnly), Start(false), intent).state.runs
    ensures run.exitCode == 0 && run.request == request && run.contract == contract && run.executed != run.recorded
  {
    if !Fits(core, request, contract, first) {
      h, intent, run := ConflictDrifts(core, request, contract, second, first, gb, ga);
      return;
    }
    hide BasisFor, AdvanceOf, Drifting;
    UsableWhenPlanned(core, request, contract, first, ga);
    UsableWhenPlanned(core, request, contract, second, gb);
    var from, to := BasisFor(core, request, contract, first, "").gates,
        BasisFor(core, request, contract, second, "").gates;
    var a: nat :| a < |Definitions(from)| && Definitions(from)[a] == ga;
    var b: nat :| b < |Definitions(to)| && Definitions(to)[b] == gb;
    h, intent := Drifting(contract, first, second, ga), CallOf(first);
    DriftingRun(Task(core, request, EvidenceOnly), contract, first, second, a, b);
    run :| run in AdvanceOf(h, Task(core, request, EvidenceOnly), Start(false), intent).state.runs &&
        RecordedAs(run, request, contract, ga, gb);
  }

  lemma UsableWhenPlanned(core: Core, request: Request, contract: ContractDigest, intent: Intent, gate: Gate)
    requires SelectsUniquely(core) && PlannedUnder(core, request, contract, intent, gate)
    ensures Usable(core, request, contract, intent)
  {}

  /** Without stable definitions some transaction drifts, if the contract's selections fit one pass. */
  lemma UnstableDefinitionsDrift(core: Core, request: Request, contract: ContractDigest)
    returns (h: Host<bool>, intent: Intent, run: GateRun)
    requires request.mode == SupervisedAuto && |request.key| >= MIN_KEY_LENGTH && SelectsUniquely(core)
    requires !StableDefinitions(core, request, contract)
    requires forall intent: Intent :: Fits(core, request, contract, intent)
    ensures run in AdvanceOf(h, Task(core, request, EvidenceOnly), Start(false), intent).state.runs
    ensures run.exitCode == 0 && run.request == request && run.contract == contract && run.executed != run.recorded
  {
    hide PlannedUnder, AdvanceOf;
    var call: Intent, ga: Gate, gb: Gate :| Selectable(core, request, contract, call, ga) &&
        Selectable(core, request, contract, call, gb)
      && ga.id == gb.id && ga != gb;
    var first: Intent :| CallOf(first) == call && PlannedUnder(core, request, contract, first, ga);
    var second: Intent :| CallOf(second) == call && PlannedUnder(core, request, contract, second, gb);
    h, intent, run := ConflictDrifts(core, request, contract, first, second, ga, gb);
  }

  // ---- The core as the source assembles it -----------------------------------------------------------

  lemma {:induction false} DistinctIdsFit(gates: seq<Gate>, ids: set<string>)
    requires UniqueIds(gates) && forall g :: g in gates ==> g.id in ids
    ensures |gates| <= |ids|
  {
    if gates != [] {
      var front, last := gates[..|gates| - 1], gates[|gates| - 1];
      assert gates == front + [last];
      forall g | g in front ensures g.id in ids - {last.id} {
        var i :| 0 <= i < |front| && front[i] == g;
        assert gates[i].id != gates[|gates| - 1].id;
      }
      DistinctIdsFit(front, ids - {last.id});
    }
  }

  function IdsOf(entries: seq<Composition.Entry>): set<string> { set e | e in entries :: e.selected.gate.id }

  lemma {:induction false} IdsFit(entries: seq<Composition.Entry>)
    ensures |IdsOf(entries)| <= |entries|
  {
    if entries == [] {
      assert IdsOf(entries) == {};
    } else {
      var front, last := entries[..|entries| - 1], entries[|entries| - 1];
      assert entries == front + [last];
      assert IdsOf(entries) == IdsOf(front) + {last.selected.gate.id};
      IdsFit(front);
    }
  }

  /** A selection never holds more gates than the sources declare for the protected stages. */
  lemma SelectionsFit(parse: ContractDigest -> Authority, evaluate: (PolicyDoc, Request) -> (Decision, Placement),
                      globs: Globs,
                      request: Request, contract: ContractDigest, intent: Intent)
    ensures |BasisFor(StandardCore(parse, evaluate, globs), request, contract, intent, "").gates|
      <= |ProtectedEntries(parse(contract).sources)|
  {
    var core, entries := StandardCore(parse, evaluate, globs), ProtectedEntries(parse(contract).sources);
    var gates := Definitions(BasisFor(core, request, contract, intent, "").gates);
    StandardSelectsUniquely(parse, evaluate, globs);
    assert UniqueIds(gates);
    PlannedIsDeclared(parse, evaluate, globs, request, contract, intent);
    hide BasisFor, StandardCore, ProtectedEntries, Declared, UniqueIds, SelectsUniquely;
    forall gate | gate in gates
      ensures gate.id in IdsOf(entries) { EntriesListDeclared(parse(contract).sources, gate); }
    DistinctIdsFit(gates, IdsOf(entries));
    IdsFit(entries);
  }

  /** In every session, every run of the request under the contract executed the definition its record names. */
  ghost predicate DefinitionsHold(core: Core, request: Request, contract: ContractDigest) {
    forall h: Host<bool>, world: bool, commands: seq<Command<bool>>, run: GateRun ::
      run in Session(h, core, Start(world), commands).runs && run.request == request && run.contract == contract ==>
        run.executed == run.recorded
  }

  /** The stability condition is exact for every contract that declares at most as many protected gates as one pass
      accepts. */
  lemma StableDefinitionsAreExact(parse: ContractDigest -> Authority,
                                  evaluate: (PolicyDoc, Request) -> (Decision, Placement),
                                  globs: Globs, request: Request, contract: ContractDigest)
    requires request.mode == SupervisedAuto && |request.key| >= MIN_KEY_LENGTH
    requires |ProtectedEntries(parse(contract).sources)| <= MAX_SELECTED_GATES
    ensures var core := StandardCore(parse, evaluate, globs);
      StableDefinitions(core, request, contract) <==> DefinitionsHold(core, request, contract)
  {
    var core := StandardCore(parse, evaluate, globs);
    hide BasisFor, StandardCore, ProtectedEntries, SelectsUniquely, StableDefinitions, AdvanceOf, Session;
    if StableDefinitions(core, request, contract) {
      forall h: Host<bool>, world: bool, commands: seq<Command<bool>>, run: GateRun
        | run in Session(h, core, Start(world), commands).runs && run.request == request && run.contract == contract
        ensures run.executed == run.recorded
      {
        StableDefinitionsAreExecuted(h, core, world, commands, run);
      }
    } else {
      StandardSelectsUniquely(parse, evaluate, globs);
      forall intent: Intent ensures Fits(core, request, contract, intent) {
        SelectionsFit(parse, evaluate, globs, request, contract, intent);
      }
      var h, intent, run := UnstableDefinitionsDrift(core, request, contract);
      OneAdvance(h, core, request, intent);
      assert run in Session(h, core, Start(false), [Advance(request, EvidenceOnly, intent)]).runs;
    }
  }

  lemma OneAdvance(h: Host<bool>, core: Core, request: Request, intent: Intent)
    ensures Session(h, core, Start(false), [Advance(request, EvidenceOnly, intent)])
      == AdvanceOf(h, Task(core, request, EvidenceOnly), Start(false), intent).state
  {
    var commands := [Advance(request, EvidenceOnly, intent)];
    assert commands[..0] == [] && Session(h, core, Start(false), commands[..0]) == Start(false);
    assert Session(h, core, Start(false), commands) == Perform(h, core, Start(false), commands[0]);
    hide AdvanceOf;
  }

  /** The first pass in an empty ledger observes the first state and runs every selected gate. */
  lemma FirstPassRuns(t: Task, s: State<bool>, contract: ContractDigest, first: Intent, second: Intent, drifts: Gate,
                      intent: Intent)
    requires s == Start(false) && CallOf(intent) == CallOf(first)
    requires Usable(t.core, t.request, contract, first)
    requires var basis := BasisFor(t.core, t.request, contract, first, "");
      |basis.gates| <= MAX_SELECTED_GATES && basis.gates != [] && basis.placement != Placement.Blocked
    ensures var h := Drifting(contract, first, second, drifts);
      var plan := PlanFor(t.core, t.request, Some(s.journal), contract, first, "");
      var s1 := s.(journal := Commit(s.journal, DecisionEvidence(plan)).value, observed := Some(Seen(first)));
      Commit(s.journal, DecisionEvidence(plan)).Some? && h.runtimeValid(s.world) && plan.contract == contract
      && Pass(h, t, s, intent) == RunGates(h, t, s1, first, plan,
          BasisFor(t.core, t.request, contract, first, "").gates)
  {
    var h := Drifting(contract, first, second, drifts);
    var basis := BasisFor(t.core, t.request, contract, first, "");
    var plan := PlanFor(t.core, t.request, Some(s.journal), contract, first, "");
    DecisionIsLogged(s.journal, plan);
    ObservedAs(h, s, intent, first);
    assert basis.decision != Deny;
    assert plan.decision == basis.decision && plan.placement == basis.placement;
    SubjectFacts(t.core, t.request, Some(s.journal), contract, first);
    hide BasisFor;
    NothingProven(Some(s.journal), t.request.key, t.request.action, basis.gates, plan.binding);
    hide PlanFor, RunGates;
  }
}
