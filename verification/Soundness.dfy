/** Release soundness: what stands behind every gate of a plan that was verified or released,
    after any history of transactions, approvals, outcomes and outside edits. */
module Soundness {
  import opened Wrappers
  import opened Gates
  import opened Selection
  import opened Evidence
  import opened Ledger
  import opened Planning
  import opened Verification

  // ---- Facts about plans ---------------------------------------------------------------------

  /** A plan names its subject consistently, and a plan with nothing left to run has current receipts only. */
  lemma PlanFacts(core: Core, request: Request, j: Option<Journal>, files: ContractDigest, intent: Intent)
    ensures var p := PlanFor(core, request, j, files, intent, "");
      && p.action == request.action == p.binding.action
      && p.binding.classes == request.classes && p.binding.mode == request.mode
      && p.contract == files == p.binding.contract
      && p.fingerprint == p.binding.fingerprint
      && (intent.fingerprint.Some? ==> p.fingerprint == intent.fingerprint.value)
      && p.intent == intent == p.binding.intent
      && |p.receipts| == |p.binding.gates|
      && (forall i :: 0 <= i < |p.receipts| ==>
            p.receipts[i].definition == p.binding.gates[i] && p.receipts[i].gateId == p.binding.gates[i].id)
      && (p.ok && p.requiredGates == [] && j.Some? ==> forall i :: 0 <= i < |p.receipts| ==>
            ReceiptIsCurrent(j.value, request.key, p.action, p.receipts[i].definition, p.contract, p.fingerprint,
                p.binding))
      && (forall g :: g in p.requiredGates ==> p.ok && g.gate in p.binding.gates)
  {
    var basis := BasisFor(core, request, files, intent, "");
    var binding := BindingFor(request, intent, basis, files);
    UnprovenIsTheRest(j, request.key, request.action, basis.gates, binding);
  }

  /** The subject a call is bound to under a contract and an observation. */
  function SubjectOf(core: Core, request: Request, contract: ContractDigest, intent: Intent): Binding {
    BindingFor(request, intent, BasisFor(core, request, contract, intent, ""), contract)
  }

  lemma SubjectFacts(core: Core, request: Request, j: Option<Journal>, contract: ContractDigest, intent: Intent)
    ensures var p := PlanFor(core, request, j, contract, intent, "");
      && p.ok == BasisFor(core, request, contract, intent, "").ok
      && p.binding == SubjectOf(core, request, contract, intent)
      && p.binding.gates == Definitions(BasisFor(core, request, contract, intent, "").gates)
      && (p.ok ==>
          p.requiredGates == Unproven(j, request.key, request.action,
          BasisFor(core, request, contract, intent, "").gates, p.binding))
  {
    hide BasisFor;
  }

  lemma {:induction false} UnprovenIsTheRest(j: Option<Journal>, key: seq<char>, action: string,
                                             gates: seq<SelectedGate>, binding: Binding)
    ensures forall g :: g in Unproven(j, key, action, gates, binding) <==>
      g in gates && !Proven(j, key, action, g.gate, binding)
  {
    if gates != [] {
      hide Proven;
      UnprovenIsTheRest(j, key, action, gates[..|gates| - 1], binding);
      assert gates == gates[..|gates| - 1] + [gates[|gates| - 1]];
    }
  }

  /** The intent of a call, without what observations overwrite. */
  function CallOf(intent: Intent): Intent { intent.(changedFiles := [], fingerprint := None) }

  /** Under some change set, the contract plans this call with the gate among its gates. */
  ghost predicate Selectable(core: Core, request: Request, contract: ContractDigest, call: Intent, gate: Gate) {
    exists intent: Intent :: CallOf(intent) == call && PlannedUnder(core, request, contract, intent, gate)
  }

  ghost predicate PlannedUnder(core: Core, request: Request, contract: ContractDigest, intent: Intent, gate: Gate) {
    var basis := BasisFor(core, request, contract, intent, "");
    basis.ok && basis.placement != Placement.Blocked && intent.fingerprint.Some? && gate in Definitions(basis.gates)
  }

  lemma PlanSelects(core: Core, request: Request, j: Option<Journal>, files: ContractDigest, intent: Intent)
    ensures var p := PlanFor(core, request, j, files, intent, "");
      p.ok && p.placement != Placement.Blocked && intent.fingerprint.Some? ==>
        forall gate :: gate in p.binding.gates ==> Selectable(core, request, files, CallOf(intent), gate)
  {
    var p := PlanFor(core, request, j, files, intent, "");
    if p.ok && p.placement != Placement.Blocked && intent.fingerprint.Some? {
      hide BasisFor;
      forall gate | gate in p.binding.gates ensures Selectable(core, request, files, CallOf(intent), gate) {
        assert PlannedUnder(core, request, files, intent, gate);
      }
    }
  }

  /** The placement depends on the contract and the request, not on the change set. */
  lemma OnePlacement(core: Core, request: Request, contract: ContractDigest, intent: Intent, other: Intent)
    requires BasisFor(core, request, contract, intent, "").ok && BasisFor(core, request, contract, other, "").ok
    ensures BasisFor(core, request, contract, intent, "").placement ==
        BasisFor(core, request, contract, other, "").placement
  {}

  lemma RecordedIsSelectable(core: Core, request: Request, contract: ContractDigest, intent: Intent, executed: Gate,
                             recorded: Gate)
    requires Selectable(core, request, contract, CallOf(intent), executed) && intent.fingerprint.Some?
    requires var p := PlanFor(core, request, None, contract, intent, ""); p.ok && recorded in p.binding.gates
    ensures Selectable(core, request, contract, CallOf(intent), recorded)
  {
    hide BasisFor;
    var other: Intent :| CallOf(other) == CallOf(intent) && PlannedUnder(core, request, contract, other, executed);
    OnePlacement(core, request, contract, intent, other);
    PlanSelects(core, request, None, contract, intent);
  }

  // ---- Earned receipts -------------------------------------------------------------------------

  /** The receipt at (id, b) was earned by this run. */
  ghost predicate EarnedBy(doc: Document, id: string, b: Binding, run: GateRun) {
    && doc.ReceiptDoc?
    && doc.action == b.action == run.request.action
    && doc.contract == b.contract == run.contract
    && doc.fingerprint == b.fingerprint == run.fingerprint
    && doc.gateId == id == run.executed.id
    && doc.binding == b
    && doc.definition == run.recorded
    && doc.exitCode == 0 == run.exitCode
    && doc.signature.key == run.request.key
    && b.classes == run.request.classes && b.mode == run.request.mode
  }

  ghost predicate HasEarner(runs: seq<GateRun>, doc: Document, path: EvidencePath) {
    path.ReceiptPath? && exists run :: run in runs && EarnedBy(doc, path.gateId, path.binding, run)
  }

  ghost predicate Earned<W>(s: State<W>) {
    forall p :: p in s.journal.files && p.ReceiptPath? ==> HasEarner(s.runs, s.journal.files[p], p)
  }

  /** The executed and the recorded gate of every run were both planned for one call under the contract the run names.
      */
  ghost predicate Drawn<W>(core: Core, s: State<W>) { forall run :: run in s.runs ==> OneOrigin(core, run) }

  ghost predicate OneOrigin(core: Core, run: GateRun) {
    run.executed.id == run.recorded.id
    && exists call: Intent ::
      Selectable(core, run.request, run.contract, call, run.executed) &&
          Selectable(core, run.request, run.contract, call, run.recorded)
  }

  /** Journals that agree on receipts keep them earned. */
  lemma SameReceiptsStayEarned<W>(s: State<W>, s': State<W>)
    requires Earned(s)
    requires s.runs <= s'.runs
    requires forall p :: p in s'.journal.files && p.ReceiptPath? ==>
        p in s.journal.files && s'.journal.files[p] == s.journal.files[p]
    ensures Earned(s')
  {
    forall p | p in s'.journal.files && p.ReceiptPath? ensures HasEarner(s'.runs, s'.journal.files[p], p) {
      assert HasEarner(s.runs, s.journal.files[p], p);
      var run :| run in s.runs && EarnedBy(s.journal.files[p], p.gateId, p.binding, run);
      assert run in s'.runs;
    }
  }

  predicate NoReceiptEffect(effects: seq<Effect>) {
    forall i :: 0 <= i < |effects| ==> effects[i].AppendEvent? || !effects[i].path.ReceiptPath?
  }

  lemma OtherEvidenceKeepsReceipts(j: Journal, effects: seq<Effect>)
    requires NoReceiptEffect(effects)
    ensures forall p :: p in ApplyAll(j, effects).files && p.ReceiptPath? ==>
        p in j.files && ApplyAll(j, effects).files[p] == j.files[p]
    ensures forall p :: p in j.files && p.ReceiptPath? ==> p in ApplyAll(j, effects).files
    ensures forall p: EvidencePath :: p.ReceiptPath? ==> (p in ApplyAll(j, effects).history <==> p in j.history)
  {
    forall p: EvidencePath | p.ReceiptPath? ensures !Touches(effects, p) {}
    forall p { CommitFrame(j, effects, p); }
  }

  /** What recording an attempt does to the receipts. */
  lemma AttemptReceipts(j: Journal, request: Request, plan: Plan, gate: Gate, exitCode: int)
    ensures var after := ApplyAll(j, AttemptEffects(request, plan, gate, exitCode));
      var path := ReceiptPath(gate.id, plan.binding);
      && after.files == (if exitCode == 0 then j.files[path := ReceiptFor(request, plan, gate, exitCode)] else j.files)
      && after.history == (if exitCode == 0 then j.history + {path} else j.history)
  {
    var effects := AttemptEffects(request, plan, gate, exitCode);
    assert effects[..0] == [];
    assert ApplyAll(j, effects[..0]) == j;
    assert ApplyAll(j, effects[..1]) == ApplyOne(j, j, effects[0]) by { assert effects[..1][..0] == effects[..0]; }
    if exitCode == 0 {
      assert effects[..2][..1] == effects[..1];
      assert effects[..3] == effects && effects[..3][..2] == effects[..2];
    } else {
      assert effects[..1] == effects;
    }
  }

  /** The evidence admitted for an attempt is the attempt of exactly the expected context. */
  lemma GateEvidenceFacts(core: Core, request: Request, files: ContractDigest, intent: Intent, gateId: string,
                          exitCode: int, expected: GateContext)
    requires GateEvidence(core, request, files, intent, "", gateId, exitCode, expected).Directed?
    ensures var plan := PlanFor(core, request, None, files, intent, "");
      && plan.ok && GateContext(plan.contract, plan.fingerprint, expected.definition, plan.binding) == expected
      && expected.definition.id == gateId && expected.definition in plan.binding.gates
      && GateEvidence(core, request, files, intent, "", gateId, exitCode, expected)
         == Directed(AttemptEffects(request, plan, expected.definition, exitCode))
  {
    hide PlanFor, AttemptEffects;
    PlanFacts(core, request, None, files, intent);
  }

  // ---- One gate ------------------------------------------------------------------------------------

  lemma RecordKeepsEarned<W>(h: Host<W>, t: Task, s: State<W>, intent: Intent, plan: Plan, gate: SelectedGate,
                             exitCode: int)
    requires Earned(s) && Drawn(t.core, s)
    requires Selectable(t.core, t.request, plan.contract, CallOf(intent), gate.gate) && intent.fingerprint.Some?
    ensures var turn := RecordRun(h, t, s, intent, plan, gate, exitCode);
        Earned(turn.state) && Drawn(t.core, turn.state)
  {
    var turn := RecordRun(h, t, s, intent, plan, gate, exitCode);
    if turn.state.runs == s.runs {
      RecordTouchesOnlyOnRun(h, t, s, intent, plan, gate, exitCode);
      SameReceiptsStayEarned(s, turn.state);
    } else {
      var run, b := RecordedRun(h, t, s, intent, plan, gate, exitCode);
      hide RecordRun, Selectable;
      NewRunKeepsEarned(s, turn.state, run, b, gate.gate.id);
    }
  }

  lemma RecordTouchesOnlyOnRun<W>(h: Host<W>, t: Task, s: State<W>, intent: Intent, plan: Plan, gate: SelectedGate,
                                  exitCode: int)
    ensures var turn := RecordRun(h, t, s, intent, plan, gate, exitCode);
      turn.state.runs == s.runs ==> turn.state.journal == s.journal
  {
    hide PlanFor, GateEvidence, Commit;
    var turn := RecordRun(h, t, s, intent, plan, gate, exitCode);
    if |turn.state.runs| != |s.runs| { assert turn.state.runs != s.runs; }
  }

  /** The run a record appends, and the binding its receipt is filed under. */
  lemma RecordedRun<W>(h: Host<W>, t: Task, s: State<W>, intent: Intent, plan: Plan, gate: SelectedGate, exitCode: int)
    returns (run: GateRun, b: Binding)
    requires RecordRun(h, t, s, intent, plan, gate, exitCode).state.runs != s.runs
    ensures var after := RecordRun(h, t, s, intent, plan, gate, exitCode).state;
      && after.runs == s.runs + [run]
      && run.executed == gate.gate && run.exitCode == exitCode && run.request == t.request
      && run.recorded.id == gate.gate.id && run.recorded in b.gates
      && b.action == t.request.action && b.classes == t.request.classes && b.mode == t.request.mode
      && b.contract == run.contract == plan.contract && b.fingerprint == run.fingerprint
      && b == SubjectOf(t.core, t.request, plan.contract, intent)
      && (Selectable(t.core, t.request, plan.contract, CallOf(intent), gate.gate) && intent.fingerprint.Some? ==>
          OneOrigin(t.core, run))
      && (exitCode == 0 ==>
           && ReceiptPath(gate.gate.id, b) !in s.journal.files && ReceiptPath(gate.gate.id, b) !in s.journal.history
           && after.journal.files == s.journal.files[ReceiptPath(gate.gate.id, b) := ReceiptOf(run, b, t.request)]
           && after.journal.history == s.journal.history + {ReceiptPath(gate.gate.id, b)})
      && (exitCode != 0 ==> after.journal.files == s.journal.files && after.journal.history == s.journal.history)
  {
    var (_, s1) := PlanNow(h, t, s, intent);
    var files0 := h.load(s.world).0.value;
    var post := PlanFor(t.core, t.request, Some(s.journal), files0, intent, "");
    var receipt := FindReceipt(post.receipts, gate.gate.id).value;
    var files := h.load(s1.world).0.value;
    var context := GateContext(post.contract, post.fingerprint, receipt.definition, post.binding);
    hide PlanFor, GateEvidence, AttemptEffects, Selectable, SubjectOf;
    PlanFacts(t.core, t.request, Some(s.journal), files0, intent);
    SubjectFacts(t.core, t.request, Some(s.journal), files0, intent);
    GateEvidenceFacts(t.core, t.request, files, intent, gate.gate.id, exitCode, context);
    var plan1 := PlanFor(t.core, t.request, None, files, intent, "");
    PlanFacts(t.core, t.request, None, files, intent);
    AttemptReceipts(s.journal, t.request, plan1, receipt.definition, exitCode);
    AttemptIsAdmitted(s.journal, t.request, plan1, receipt.definition, exitCode);
    run := GateRun(gate.gate, exitCode, post.fingerprint, t.request, post.contract, receipt.definition);
    b := post.binding;
    if Selectable(t.core, t.request, plan.contract, CallOf(intent), gate.gate) && intent.fingerprint.Some? {
      RecordedIsSelectable(t.core, t.request, post.contract, intent, run.executed, run.recorded);
    }
  }

  function ReceiptOf(run: GateRun, b: Binding, request: Request): Document {
    ReceiptDoc(request.action, run.contract, 0, run.recorded.id, run.recorded, run.fingerprint, b,
      Signature(request.key, ReceiptSubject(request.action, run.contract, run.fingerprint, b, run.recorded.id,
          run.recorded, 0)))
  }

  lemma AttemptIsAdmitted(j: Journal, request: Request, plan: Plan, gate: Gate, exitCode: int)
    ensures Admitted(j, AttemptEffects(request, plan, gate, exitCode)) <==>
      (exitCode == 0 ==>
          ReceiptPath(gate.id, plan.binding) !in j.files && ReceiptPath(gate.id, plan.binding) !in j.history)
  {
    if exitCode == 0 { assert AttemptEffects(request, plan, gate, exitCode)[1].CreateJson?; }
  }

  lemma NewRunKeepsEarned<W>(s: State<W>, s': State<W>, run: GateRun, b: Binding, id: string)
    requires Earned(s) && s'.runs == s.runs + [run]
    requires run.executed.id == id == run.recorded.id
    requires b.action == run.request.action && b.classes == run.request.classes && b.mode == run.request.mode
    requires b.contract == run.contract && b.fingerprint == run.fingerprint
    requires run.exitCode == 0 ==>
        s'.journal.files == s.journal.files[ReceiptPath(id, b) := ReceiptOf(run, b, run.request)]
    requires run.exitCode != 0 ==> s'.journal.files == s.journal.files
    ensures Earned(s')
  {
    forall p | p in s'.journal.files && p.ReceiptPath? ensures HasEarner(s'.runs, s'.journal.files[p], p) {
      if run.exitCode == 0 && p == ReceiptPath(id, b) {
        assert run in s'.runs && EarnedBy(s'.journal.files[p], p.gateId, p.binding, run);
      } else {
        assert HasEarner(s.runs, s.journal.files[p], p);
        var earlier :| earlier in s.runs && EarnedBy(s.journal.files[p], p.gateId, p.binding, earlier);
        assert earlier in s'.runs;
      }
    }
  }

  // ---- Gates, passes, transactions -------------------------------------------------------------------

  /** The same evidence and history, whatever happened to the world. */
  predicate SameRecord<W>(s: State<W>, s': State<W>) { s'.journal == s.journal && s'.runs == s.runs }

  ghost predicate Sound<W>(core: Core, s: State<W>) { Earned(s) && Drawn(core, s) }

  lemma RunGateKeepsSound<W>(h: Host<W>, t: Task, s: State<W>, intent: Intent, plan: Plan, gate: SelectedGate)
    requires Sound(t.core, s) && Selectable(t.core, t.request, plan.contract, CallOf(intent), gate.gate)
    ensures Sound(t.core, RunGate(h, t, s, intent, plan, gate).state)
  {
    hide RecordRun, Selectable, HasEarner;
    var (exit, w) := h.execute(s.world, gate);
    var s1 := s.(world := w, started := s.started + 1);
    var (refreshed, s2) := Refresh(h, s1, intent);
    if exit.Some? && refreshed.Some? {
      RecordKeepsEarned(h, t, s2, refreshed.value, plan, gate, exit.value);
    }
  }

  /** A gate never changes the call its intent describes. */
  lemma RunGateKeepsCall<W>(h: Host<W>, t: Task, s: State<W>, intent: Intent, plan: Plan, gate: SelectedGate)
    ensures CallOf(RunGate(h, t, s, intent, plan, gate).intent) == CallOf(intent)
  {
    hide PlanFor, GateEvidence, Commit;
  }

  lemma {:induction false} RunGatesKeepSound<W>(h: Host<W>, t: Task, s: State<W>, intent: Intent, plan: Plan,
                                                gates: seq<SelectedGate>)
    requires Sound(t.core, s)
    requires forall g :: g in gates ==> Selectable(t.core, t.request, plan.contract, CallOf(intent), g.gate)
    ensures Sound(t.core, RunGates(h, t, s, intent, plan, gates).state)
    decreases |gates|
  {
    hide RunGate, Sound, Selectable;
    if gates != [] {
      var turn := RunGate(h, t, s, intent, plan, gates[0]);
      RunGateKeepsSound(h, t, s, intent, plan, gates[0]);
      RunGateKeepsCall(h, t, s, intent, plan, gates[0]);
      if turn.verdict.Again? {
        RunGatesKeepSound(h, t, turn.state, turn.intent, plan, gates[1..]);
      }
    }
  }

  /** What stands behind one gate of a plan: a run of that gate id that ended with 0 in the planned
      workspace under the planned contract, and its receipt for the planned subject and definition. */
  ghost predicate Backed<W>(s: State<W>, request: Request, plan: Plan, status: ReceiptStatus) {
    var path := ReceiptPath(status.gateId, plan.binding);
    && status.definition.id == status.gateId
    && path in s.journal.files
    && s.journal.files[path].ReceiptDoc?
    && s.journal.files[path].action == plan.action
    && s.journal.files[path].contract == plan.contract
    && s.journal.files[path].definition == status.definition
    && s.journal.files[path].binding == plan.binding
    && exists run :: run in s.runs && RanFor(run, request, plan, status)
  }

  ghost predicate RanFor(run: GateRun, request: Request, plan: Plan, status: ReceiptStatus) {
    && run.executed.id == status.gateId
    && run.exitCode == 0
    && run.fingerprint == plan.fingerprint
    && run.contract == plan.contract
    && run.request == request
    && run.recorded == status.definition
  }

  ghost predicate AllBacked<W>(s: State<W>, request: Request, plan: Plan) {
    forall i :: 0 <= i < |plan.receipts| ==> Backed(s, request, plan, plan.receipts[i])
  }

  lemma PlanIsBacked<W>(core: Core, request: Request, s: State<W>, files: ContractDigest, intent: Intent)
    requires Earned(s)
    requires var p := PlanFor(core, request, Some(s.journal), files, intent, ""); p.ok && p.requiredGates == []
    ensures AllBacked(s, request, PlanFor(core, request, Some(s.journal), files, intent, ""))
  {
    hide PlanFor;
    var p := PlanFor(core, request, Some(s.journal), files, intent, "");
    PlanFacts(core, request, Some(s.journal), files, intent);
    forall i | 0 <= i < |p.receipts| ensures Backed(s, request, p, p.receipts[i]) {
      var path := ReceiptPath(p.receipts[i].gateId, p.binding);
      assert ReceiptIsCurrent(s.journal, request.key, p.action, p.receipts[i].definition, p.contract, p.fingerprint,
          p.binding);
      assert HasEarner(s.runs, s.journal.files[path], path);
      var run :| run in s.runs && EarnedBy(s.journal.files[path], path.gateId, path.binding, run);
      assert RanFor(run, request, p, p.receipts[i]);
    }
  }

  /** A decision can always be logged, and logging it touches no evidence file. */
  lemma DecisionIsLogged(j: Journal, plan: Plan)
    ensures Commit(j, DecisionEvidence(plan)).Some?
    ensures var after := Commit(j, DecisionEvidence(plan)).value; after.files == j.files && after.history == j.history
  {
    var effects := DecisionEvidence(plan);
    assert effects[..0] == [] && ApplyAll(j, effects[..0]) == j;
  }

  lemma LoggingKeepsSound<W>(core: Core, s: State<W>, plan: Plan)
    requires Sound(core, s)
    ensures Commit(s.journal, DecisionEvidence(plan)).Some?
    ensures var s' := s.(journal := Commit(s.journal, DecisionEvidence(plan)).value);
      Sound(core, s') && s'.journal.files == s.journal.files
  {
    DecisionIsLogged(s.journal, plan);
    SameReceiptsStayEarned(s, s.(journal := Commit(s.journal, DecisionEvidence(plan)).value));
  }

  /** Concluding appends no run and leaves every receipt alone. */
  lemma ConcludeLeavesReceipts<W>(t: Task, s: State<W>, intent: Intent, plan: Plan)
    ensures var after := Conclude(t, s, intent, plan).state;
      && after.runs == s.runs && after.observed == s.observed
      && forall p: EvidencePath :: p.ReceiptPath? ==>
        (p in after.journal.files <==> p in s.journal.files) &&
            (p in s.journal.files ==> after.journal.files[p] == s.journal.files[p])
  {
    hide Admitted, ApplyAll;
    var directive := ReleaseEvidence(plan, t.request.key);
    if directive.Directed? { OtherEvidenceKeepsReceipts(s.journal, directive.effects); }
  }

  lemma ConcludeKeepsSound<W>(t: Task, s: State<W>, intent: Intent, plan: Plan)
    requires Sound(t.core, s)
    ensures var turn := Conclude(t, s, intent, plan);
      && Sound(t.core, turn.state) && turn.state.runs == s.runs && turn.state.observed == s.observed
      && (AllBacked(s, t.request, plan) ==> AllBacked(turn.state, t.request, plan))
  {
    hide Conclude, OneOrigin, HasEarner;
    var after := Conclude(t, s, intent, plan).state;
    ConcludeLeavesReceipts(t, s, intent, plan);
    SameReceiptsStayEarned(s, after);
    if AllBacked(s, t.request, plan) {
      forall i | 0 <= i < |plan.receipts| ensures Backed(after, t.request, plan, plan.receipts[i]) {
        assert Backed(s, t.request, plan, plan.receipts[i]);
      }
    }
  }

  /** A verified or released plan. */
  function Granted(v: Verdict): Option<Plan> {
    if v.Done? && (v.outcome.Verified? || v.outcome.Released?) then Some(v.outcome.plan) else None
  }

  /** The guarantee behind a grant: every selected gate is backed, and the workspace it was proven
      on is the one observed last. */
  ghost predicate GrantIsSound<W>(request: Request, turn: Turn<W>) {
    Granted(turn.verdict).Some? ==>
      var plan := Granted(turn.verdict).value;
      && plan.ok && plan.authorized
      && turn.state.observed.Some? && plan.fingerprint == turn.state.observed.value.fingerprint
      && AllBacked(turn.state, request, plan)
  }

  lemma {:induction false} RunGatesNeverGrant<W>(h: Host<W>, t: Task, s: State<W>, intent: Intent, plan: Plan,
                                                 gates: seq<SelectedGate>)
    ensures Granted(RunGates(h, t, s, intent, plan, gates).verdict).None?
    decreases |gates|
  {
    hide PlanFor, GateEvidence, Commit, Refresh;
    if gates != [] {
      var turn := RunGate(h, t, s, intent, plan, gates[0]);
      assert Granted(turn.verdict).None?;
      if turn.verdict.Again? { RunGatesNeverGrant(h, t, turn.state, turn.intent, plan, gates[1..]); }
    }
  }

  lemma ActOnIsSound<W>(h: Host<W>, t: Task, s: State<W>, intent: Intent, files: ContractDigest)
    requires Sound(t.core, s)
    requires s.observed.Some? && intent.fingerprint == Some(s.observed.value.fingerprint)
    ensures var turn := ActOn(h, t, s, intent, PlanFor(t.core, t.request, Some(s.journal), files, intent, ""));
      Sound(t.core, turn.state) && GrantIsSound(t.request, turn)
  {
    var plan := PlanFor(t.core, t.request, Some(s.journal), files, intent, "");
    hide PlanFor, RunGates, Conclude, Sound, Selectable, AllBacked, DecisionEvidence, Commit;
    LoggingKeepsSound(t.core, s, plan);
    var s1 := s.(journal := Commit(s.journal, DecisionEvidence(plan)).value);
    PlanFacts(t.core, t.request, Some(s.journal), files, intent);
    PlanSelects(t.core, t.request, Some(s.journal), files, intent);
    if plan.requiredGates != [] && plan.placement != Placement.Blocked {
      RunGatesKeepSound(h, t, s1, intent, plan, plan.requiredGates);
      RunGatesNeverGrant(h, t, s1, intent, plan, plan.requiredGates);
    } else if plan.ok && plan.requiredGates == [] {
      PlanIsBackedAfterLogging(t.core, t.request, s, s1, files, intent);
      ConcludeKeepsSound(t, s1, intent, plan);
      ConcludeGrantsTheAuthorized(t, s1, intent, plan);
    }
  }

  lemma PlanIsBackedAfterLogging<W>(core: Core, request: Request, s: State<W>, s1: State<W>, files: ContractDigest,
                                    intent: Intent)
    requires Sound(core, s) && s1.runs == s.runs && s1.journal.files == s.journal.files
    requires var p := PlanFor(core, request, Some(s.journal), files, intent, ""); p.ok && p.requiredGates == []
    ensures AllBacked(s1, request, PlanFor(core, request, Some(s.journal), files, intent, ""))
  {
    hide PlanFor, Earned;
    var p := PlanFor(core, request, Some(s.journal), files, intent, "");
    PlanIsBacked(core, request, s, files, intent);
    forall i | 0 <= i < |p.receipts|
      ensures Backed(s1, request, p, p.receipts[i]) { assert Backed(s, request, p, p.receipts[i]); }
  }

  lemma ConcludeGrantsTheAuthorized<W>(t: Task, s: State<W>, intent: Intent, plan: Plan)
    ensures var turn := Conclude(t, s, intent, plan);
      Granted(turn.verdict).Some? ==> Granted(turn.verdict).value == plan && plan.authorized
  {
    hide ReleaseEvidence, Commit;
  }

  lemma PassIsSound<W>(h: Host<W>, t: Task, s: State<W>, intent: Intent)
    requires Sound(t.core, s)
    ensures var turn := Pass(h, t, s, intent); Sound(t.core, turn.state) && GrantIsSound(t.request, turn)
  {
    var (refreshed, s1) := Refresh(h, s, intent);
    SameRecordStaysSound(t.core, s, s1);
    if refreshed.Some? {
      var (planned, s2) := PlanNow(h, t, s1, refreshed.value);
      SameRecordStaysSound(t.core, s1, s2);
      if planned.Some? {
        hide ActOn, Sound, PlanFor, GrantIsSound;
        ActOnIsSound(h, t, s2, refreshed.value, h.load(s1.world).0.value);
      } else {
        SameRecordStaysSound(t.core, s, s2);
      }
    }
  }

  lemma SameRecordStaysSound<W>(core: Core, s: State<W>, s': State<W>)
    requires Sound(core, s) && SameRecord(s, s')
    ensures Sound(core, s')
  {
    SameReceiptsStayEarned(s, s');
  }

  lemma {:induction false} PassesAreSound<W>(h: Host<W>, t: Task, s: State<W>, intent: Intent, left: nat)
    requires Sound(t.core, s)
    ensures var turn := Passes(h, t, s, intent, left); Sound(t.core, turn.state) && GrantIsSound(t.request, turn)
    decreases left
  {
    hide Pass, Sound, GrantIsSound;
    if left > 0 {
      PassIsSound(h, t, s, intent);
      var turn := Pass(h, t, s, intent);
      if turn.verdict.Again? { PassesAreSound(h, t, turn.state, turn.intent, left - 1); }
    } else {
      NoGrantIsSound(t.request, Passes(h, t, s, intent, left));
    }
  }

  lemma NoGrantIsSound<W>(request: Request, turn: Turn<W>)
    requires turn.verdict.Failed?
    ensures GrantIsSound(request, turn)
  {}

  // ---- Whole sessions ---------------------------------------------------------------------------------

  /** What the machine interface and the outside world can do between two transactions. */
  datatype Command<W> =
    | Advance(request: Request, purpose: Purpose, intent: Intent)
    | MakePlan(request: Request, intent: Intent)
    | Respond(request: Request, intent: Intent, binding: Binding, approved: bool, responder: string)
    | Authorize(request: Request, intent: Intent, binding: Binding)
    | Settle(action: string, binding: Binding, toolCallId: string, release: Signature, outcome: ToolOutcome,
        key: seq<char>)
    | Edit(world: W)

  /** A plan made for a single command: the workspace is observed, and named changed files take precedence. */
  function PlanOnce<W>(h: Host<W>, core: Core, s: State<W>, request: Request,
                       intent: Intent): (Option<Plan>, State<W>) {
    var (seen, w) := h.observe(s.world);
    var s1 := s.(world := w, observed := seen);
    if seen.None? then (None, s1)
    else
      var exact := intent.(changedFiles := if intent.changedFiles == [] then seen.value.changedFiles
                                           else intent.changedFiles,
                           fingerprint := Some(seen.value.fingerprint));
      PlanNow(h, Task(core, request, EvidenceOnly), s1, exact)
  }

  /** Commit a directive if there is one and the ledger admits it. */
  function Publish<W>(s: State<W>, directive: Directive): State<W> {
    if directive.Refused? || Commit(s.journal, directive.effects).None? then s
    else s.(journal := Commit(s.journal, directive.effects).value)
  }

  function Perform<W>(h: Host<W>, core: Core, s: State<W>, c: Command<W>): State<W> {
    match c
    case Advance(request, purpose, intent) => AdvanceOf(h, Task(core, request, purpose), s, intent).state
    case MakePlan(request, intent) =>
      var (plan, s1) := PlanOnce(h, core, s, request, intent);
      if plan.None? then s1 else Publish(s1, Directed(DecisionEvidence(plan.value)))
    case Respond(request, intent, binding, approved, responder) =>
      var (plan, s1) := PlanOnce(h, core, s, request, intent);
      if plan.None? || plan.value.binding != binding then s1
      else Publish(s1, ApprovalEvidence(plan.value, approved, responder, request.key))
    case Authorize(request, intent, binding) =>
      var (plan, s1) := PlanOnce(h, core, s, request, intent);
      if plan.None? || plan.value.binding != binding then s1
      else Publish(s1, ReleaseEvidence(plan.value, request.key))
    case Settle(action, binding, toolCallId, release, outcome, key) =>
      Publish(s, OutcomeEvidence(action, binding, toolCallId, release, outcome, key))
    case Edit(world) => s.(world := world)
  }

  function Session<W>(h: Host<W>, core: Core, s: State<W>, commands: seq<Command<W>>): State<W>
    decreases |commands|
  {
    if commands == [] then s
    else
      hide *;
      Perform(h, core, Session(h, core, s, commands[..|commands| - 1]), commands[|commands| - 1])
  }

  function Start<W>(world: W): State<W> { State(world, EmptyJournal, [], 0, None) }

  lemma PublishKeepsSound<W>(core: Core, s: State<W>, directive: Directive)
    requires Sound(core, s) && (directive.Directed? ==> NoReceiptEffect(directive.effects))
    ensures Sound(core, Publish(s, directive))
  {
    if directive.Directed? { OtherEvidenceKeepsReceipts(s.journal, directive.effects); }
    SameReceiptsStayEarned(s, Publish(s, directive));
  }

  lemma PlanOnceKeepsSound<W>(h: Host<W>, core: Core, s: State<W>, request: Request, intent: Intent)
    requires Sound(core, s)
    ensures Sound(core, PlanOnce(h, core, s, request, intent).1)
  {
    hide PlanFor;
    SameRecordStaysSound(core, s, PlanOnce(h, core, s, request, intent).1);
  }

  lemma AdvanceIsSound<W>(h: Host<W>, t: Task, s: State<W>, intent: Intent)
    requires Sound(t.core, s)
    ensures var turn := AdvanceOf(h, t, s, intent); Sound(t.core, turn.state) && GrantIsSound(t.request, turn)
  {
    hide Passes, Sound, GrantIsSound;
    PassesAreSound(h, t, s, intent, MAX_CONVERGENCE_PASSES);
    var turn := AdvanceOf(h, t, s, intent);
    if turn.verdict.Failed? { NoGrantIsSound(t.request, turn); }
  }

  lemma PerformKeepsSound<W>(h: Host<W>, core: Core, s: State<W>, c: Command<W>)
    requires Sound(core, s)
    ensures Sound(core, Perform(h, core, s, c))
  {
    hide Sound, PlanOnce, Publish, AdvanceOf;
    match c
    case Advance(request, purpose, intent) =>
      AdvanceIsSound(h, Task(core, request, purpose), s, intent);
    case MakePlan(request, intent) =>
      PlanOnceKeepsSound(h, core, s, request, intent);
      var (plan, s1) := PlanOnce(h, core, s, request, intent);
      if plan.Some? { PublishKeepsSound(core, s1, Directed(DecisionEvidence(plan.value))); }
    case Respond(request, intent, binding, approved, responder) =>
      PlanOnceKeepsSound(h, core, s, request, intent);
      var (plan, s1) := PlanOnce(h, core, s, request, intent);
      if plan.Some? { PublishKeepsSound(core, s1, ApprovalEvidence(plan.value, approved, responder, request.key)); }
    case Authorize(request, intent, binding) =>
      PlanOnceKeepsSound(h, core, s, request, intent);
      var (plan, s1) := PlanOnce(h, core, s, request, intent);
      if plan.Some? { PublishKeepsSound(core, s1, ReleaseEvidence(plan.value, request.key)); }
    case Settle(action, binding, toolCallId, release, outcome, key) =>
      PublishKeepsSound(core, s, OutcomeEvidence(action, binding, toolCallId, release, outcome, key));
    case Edit(world) =>
      SameRecordStaysSound(core, s, s.(world := world));
  }

  lemma {:induction false} SessionIsSound<W>(h: Host<W>, core: Core, world: W, commands: seq<Command<W>>)
    ensures Sound(core, Session(h, core, Start(world), commands))
    decreases |commands|
  {
    if commands != [] {
      hide Sound, Perform;
      var front := commands[..|commands| - 1];
      SessionIsSound(h, core, world, front);
      PerformKeepsSound(h, core, Session(h, core, Start(world), front), commands[|commands| - 1]);
    }
  }

  /** Release soundness. After any session, whenever a transaction verifies or releases, every gate
      selected in the returning pass was run under its id with exit code 0, on the workspace that is
      the last one observed and under the planned contract, and its receipt names the same action,
      contract, definition and binding. Gates may change the workspace at any time. */
  lemma ReleaseSoundness<W>(h: Host<W>, core: Core, world: W, commands: seq<Command<W>>, request: Request,
                            purpose: Purpose, intent: Intent)
    ensures var turn := AdvanceOf(h, Task(core, request, purpose), Session(h, core, Start(world), commands), intent);
      GrantIsSound(request, turn)
  {
    hide AdvanceOf, Session, GrantIsSound, Sound;
    SessionIsSound(h, core, world, commands);
    AdvanceIsSound(h, Task(core, request, purpose), Session(h, core, Start(world), commands), intent);
  }

  // ---- Definitions ---------------------------------------------------------------------------------------

  /** Over all change sets of a call, the contract never plans two different gates under one id. */
  ghost predicate StableDefinitions(core: Core, request: Request, contract: ContractDigest) {
    forall call: Intent, a: Gate, b: Gate ::
      Selectable(core, request, contract, call, a) && Selectable(core, request, contract, call, b) && a.id == b.id ==>
          a == b
  }

  /** With stable definitions, every run in every session executed the definition its record names. */
  lemma StableDefinitionsAreExecuted<W>(h: Host<W>, core: Core, world: W, commands: seq<Command<W>>, run: GateRun)
    requires run in Session(h, core, Start(world), commands).runs && StableDefinitions(core, run.request, run.contract)
    ensures run.executed == run.recorded
  {
    hide Session, Earned, Selectable;
    SessionIsSound(h, core, world, commands);
  }
}
