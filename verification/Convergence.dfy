/** Bounded convergence: how many gates one transaction can start, and when it must settle. */
module Convergence {
  import opened Wrappers
  import opened Gates
  import opened Selection
  import opened Evidence
  import opened Ledger
  import opened Planning
  import opened Verification
  import opened Soundness
  import opened Drift

  // ---- The bound ---------------------------------------------------------------------------------

  lemma {:induction false} GatesAreCounted<W>(h: Host<W>, t: Task, s: State<W>, intent: Intent, plan: Plan,
                                              gates: seq<SelectedGate>)
    ensures s.started <= RunGates(h, t, s, intent, plan, gates).state.started <= s.started + |gates|
    decreases |gates|
  {
    hide RunGate;
    if gates != [] {
      var turn := RunGate(h, t, s, intent, plan, gates[0]);
      GateIsCounted(h, t, s, intent, plan, gates[0]);
      if turn.verdict.Again? { GatesAreCounted(h, t, turn.state, turn.intent, plan, gates[1..]); }
    }
  }

  lemma GateIsCounted<W>(h: Host<W>, t: Task, s: State<W>, intent: Intent, plan: Plan, gate: SelectedGate)
    ensures RunGate(h, t, s, intent, plan, gate).state.started == s.started + 1
  {
    hide PlanFor, GateEvidence, Commit;
  }

  lemma PassIsCounted<W>(h: Host<W>, t: Task, s: State<W>, intent: Intent)
    ensures s.started <= Pass(h, t, s, intent).state.started <= s.started + MAX_SELECTED_GATES
  {
    hide PlanFor, RunGates, Commit;
    var (refreshed, s1) := Refresh(h, s, intent);
    if refreshed.Some? {
      var (planned, s2) := PlanNow(h, t, s1, refreshed.value);
      if planned.Some? && Commit(s2.journal, DecisionEvidence(planned.value)).Some? {
        var s3 := s2.(journal := Commit(s2.journal, DecisionEvidence(planned.value)).value);
        GatesAreCounted(h, t, s3, refreshed.value, planned.value, planned.value.requiredGates);
      }
    }
  }

  lemma {:induction false} PassesAreCounted<W>(h: Host<W>, t: Task, s: State<W>, intent: Intent, left: nat)
    ensures s.started <= Passes(h, t, s, intent, left).state.started <= s.started + left * MAX_SELECTED_GATES
    decreases left
  {
    hide Pass;
    if left > 0 {
      PassIsCounted(h, t, s, intent);
      var turn := Pass(h, t, s, intent);
      if turn.verdict.Again? { PassesAreCounted(h, t, turn.state, turn.intent, left - 1); }
    }
  }

  /** Whatever the gates and the workspace do, one transaction starts at most 3 times 256 gates. */
  lemma AdvanceIsBounded<W>(h: Host<W>, t: Task, s: State<W>, intent: Intent)
    ensures AdvanceOf(h, t, s, intent).state.started <= s.started + 3 * 256
  {
    hide Passes;
    PassesAreCounted(h, t, s, intent, MAX_CONVERGENCE_PASSES);
  }

  // ---- Receipts of one call ------------------------------------------------------------------------

  /** A receipt path of the call. */
  predicate OfCall(p: EvidencePath, call: Intent) { p.ReceiptPath? && CallOf(p.binding.intent) == call }

  predicate Present(j: Journal, p: EvidencePath) { p in j.history || p in j.files }

  /** The path holds a receipt that is current for its own subject. */
  ghost predicate Kept(j: Journal, request: Request, p: EvidencePath)
    requires p.ReceiptPath?
  {
    exists d :: d in p.binding.gates && d.id == p.gateId
      && ReceiptIsCurrent(j, request.key, request.action, d, p.binding.contract, p.binding.fingerprint, p.binding)
  }

  /** Every receipt path ever used by the call still holds its receipt. */
  ghost predicate Tidy(j: Journal, request: Request, call: Intent) {
    forall p: EvidencePath :: OfCall(p, call) && Present(j, p) ==> Kept(j, request, p)
  }

  /** Nothing released for the call. */
  ghost predicate Unreleased(j: Journal, call: Intent) {
    forall p: EvidencePath :: p.ReleasePath? && CallOf(p.release.subject.binding.intent) == call ==> !Present(j, p)
  }

  /** Neither a receipt nor a release for the call, ever. */
  ghost predicate Untouched(j: Journal, call: Intent) {
    Unreleased(j, call) && forall p: EvidencePath :: OfCall(p, call) ==> !Present(j, p)
  }

  /** One more receipt, nothing else. */
  ghost predicate Receipted(j: Journal, j': Journal, path: EvidencePath, doc: Document) {
    path.ReceiptPath? && !Present(j, path) && j'.history == j.history + {path} && j'.files == j.files[path := doc]
  }

  lemma ReceiptKeepsTidy(j: Journal, j': Journal, request: Request, call: Intent, path: EvidencePath, doc: Document)
    requires Tidy(j, request, call) && Receipted(j, j', path, doc) && Kept(j', request, path)
    ensures Tidy(j', request, call)
    ensures Unreleased(j, call) ==> Unreleased(j', call)
    ensures forall p :: Present(j, p) ==> Present(j', p)
  {
    forall p: EvidencePath | OfCall(p, call) && Present(j', p) ensures Kept(j', request, p) {
      if p != path {
        assert Kept(j, request, p);
        var d :| d in p.binding.gates && d.id == p.gateId
          && ReceiptIsCurrent(j, request.key, request.action, d, p.binding.contract, p.binding.fingerprint, p.binding);
        assert ReceiptIsCurrent(j', request.key, request.action, d, p.binding.contract, p.binding.fingerprint,
            p.binding);
      }
    }
  }

  lemma NewReceiptIsKept(j: Journal, request: Request, run: GateRun, b: Binding)
    requires ReceiptPath(run.recorded.id, b) in j.files
    requires j.files[ReceiptPath(run.recorded.id, b)] == ReceiptOf(run, b, request)
    requires run.recorded in b.gates && b.contract == run.contract && b.fingerprint == run.fingerprint
    ensures Kept(j, request, ReceiptPath(run.recorded.id, b))
  {
    assert ReceiptIsCurrent(j, request.key, request.action, run.recorded, b.contract, b.fingerprint, b);
  }

  // ---- One gate ---------------------------------------------------------------------------------------

  /** The ledger refuses an attempt only because the receipt path was used before. */
  lemma RefusalIsACollision<W>(h: Host<W>, t: Task, s: State<W>, intent: Intent, plan: Plan, gate: SelectedGate,
                               exitCode: int)
    requires RecordRun(h, t, s, intent, plan, gate, exitCode).verdict == Failed(LedgerRefused)
    ensures Present(s.journal, ReceiptPath(gate.gate.id, SubjectOf(t.core, t.request, plan.contract, intent)))
  {
    var (_, s1) := PlanNow(h, t, s, intent);
    var files0 := h.load(s.world).0.value;
    var post := PlanFor(t.core, t.request, Some(s.journal), files0, intent, "");
    var receipt := FindReceipt(post.receipts, gate.gate.id).value;
    var files := h.load(s1.world).0.value;
    var context := GateContext(post.contract, post.fingerprint, receipt.definition, post.binding);
    hide PlanFor, GateEvidence, AttemptEffects, SubjectOf;
    PlanFacts(t.core, t.request, Some(s.journal), files0, intent);
    SubjectFacts(t.core, t.request, Some(s.journal), files0, intent);
    GateEvidenceFacts(t.core, t.request, files, intent, gate.gate.id, exitCode, context);
    AttemptIsAdmitted(s.journal, t.request, PlanFor(t.core, t.request, None, files, intent, ""), receipt.definition,
        exitCode);
  }

  /** Recording never gives up for want of passes. */
  lemma RecordAgain<W>(h: Host<W>, t: Task, s: State<W>, intent: Intent, plan: Plan, gate: SelectedGate, exitCode: int)
    ensures var turn := RecordRun(h, t, s, intent, plan, gate, exitCode);
      && turn.intent == intent && turn.verdict != Failed(DidNotConverge)
      && (turn.verdict.Again? ==> exitCode == 0 && |turn.state.runs| == |s.runs| + 1)
  {
    hide PlanFor, GateEvidence, Commit;
  }

  /** Recording either goes on with exactly one more receipt, filed under the observed subject,
      or is refused by the ledger only because that path was used before. */
  lemma RecordCases<W>(h: Host<W>, t: Task, s: State<W>, intent: Intent, plan: Plan, gate: SelectedGate, exitCode: int)
    ensures var turn := RecordRun(h, t, s, intent, plan, gate, exitCode);
      var path := ReceiptPath(gate.gate.id, SubjectOf(t.core, t.request, plan.contract, intent));
      && turn.intent == intent && turn.verdict != Failed(DidNotConverge)
      && (turn.verdict == Failed(LedgerRefused) ==> Present(s.journal, path))
      && (turn.verdict.Again? ==>
            path in turn.state.journal.files &&
                Receipted(s.journal, turn.state.journal, path, turn.state.journal.files[path])
            && Kept(turn.state.journal, t.request, path))
  {
    hide RecordRun, SubjectOf;
    var turn := RecordRun(h, t, s, intent, plan, gate, exitCode);
    RecordAgain(h, t, s, intent, plan, gate, exitCode);
    if turn.verdict == Failed(LedgerRefused) {
      RefusalIsACollision(h, t, s, intent, plan, gate, exitCode);
    } else if turn.verdict.Again? {
      var run, b := RecordedRun(h, t, s, intent, plan, gate, exitCode);
      NewReceiptIsKept(turn.state.journal, t.request, run, b);
    }
  }

  /** One executed gate; on a refusal or a success the intent is the one observed after it. */
  lemma GateCases<W>(h: Host<W>, t: Task, s: State<W>, intent: Intent, plan: Plan, gate: SelectedGate)
    requires Tidy(s.journal, t.request, CallOf(intent))
    ensures var turn := RunGate(h, t, s, intent, plan, gate);
      var path := ReceiptPath(gate.gate.id, SubjectOf(t.core, t.request, plan.contract, turn.intent));
      && CallOf(turn.intent) == CallOf(intent) && turn.verdict != Failed(DidNotConverge)
      && (turn.verdict == Failed(LedgerRefused) ==> Present(s.journal, path))
      && (turn.verdict.Again? ==>
           && path in turn.state.journal.files &&
               Receipted(s.journal, turn.state.journal, path, turn.state.journal.files[path])
           && Tidy(turn.state.journal, t.request, CallOf(intent))
           && (Unreleased(s.journal, CallOf(intent)) ==> Unreleased(turn.state.journal, CallOf(intent))))
  {
    hide RecordRun, SubjectOf, Tidy, Unreleased, Kept;
    var (exit, w) := h.execute(s.world, gate);
    var s1 := s.(world := w, started := s.started + 1);
    var (refreshed, s2) := Refresh(h, s1, intent);
    if exit.Some? && refreshed.Some? {
      RecordCases(h, t, s2, refreshed.value, plan, gate, exit.value);
      var turn := RecordRun(h, t, s2, refreshed.value, plan, gate, exit.value);
      if turn.verdict.Again? {
        var path := ReceiptPath(gate.gate.id, SubjectOf(t.core, t.request, plan.contract, refreshed.value));
        ReceiptKeepsTidy(s.journal, turn.state.journal, t.request, CallOf(intent), path,
            turn.state.journal.files[path]);
      }
    }
  }

  // ---- The first pass ------------------------------------------------------------------------------------

  predicate Fine(v: Verdict) { v != Failed(DidNotConverge) && v != Failed(LedgerRefused) }

  ghost predicate Separate(gates: seq<SelectedGate>) {
    forall i, k :: 0 <= i < k < |gates| ==> gates[i].gate.id != gates[k].gate.id
  }

  /** No receipt of the call was ever filed for any of these gates. */
  ghost predicate FreshIds(j: Journal, call: Intent, gates: seq<SelectedGate>) {
    forall p: EvidencePath, g :: OfCall(p, call) && g in gates && g.gate.id == p.gateId ==> !Present(j, p)
  }

  /** Gates with separate and fresh ids never collide, wherever they leave the workspace. */
  lemma {:induction false} FreshGates<W>(h: Host<W>, t: Task, s: State<W>, intent: Intent, plan: Plan,
                                         gates: seq<SelectedGate>)
    requires Tidy(s.journal, t.request, CallOf(intent)) && Unreleased(s.journal, CallOf(intent))
    requires Separate(gates) && FreshIds(s.journal, CallOf(intent), gates)
    ensures var turn := RunGates(h, t, s, intent, plan, gates);
      && Fine(turn.verdict) && CallOf(turn.intent) == CallOf(intent)
      && (turn.verdict.Again? ==>
          Tidy(turn.state.journal, t.request, CallOf(intent)) && Unreleased(turn.state.journal, CallOf(intent)))
    decreases |gates|
  {
    hide RunGate, Tidy, Unreleased;
    if gates != [] {
      var turn := RunGate(h, t, s, intent, plan, gates[0]);
      GateCases(h, t, s, intent, plan, gates[0]);
      var path := ReceiptPath(gates[0].gate.id, SubjectOf(t.core, t.request, plan.contract, turn.intent));
      assert SubjectOf(t.core, t.request, plan.contract, turn.intent).intent == turn.intent;
      hide SubjectOf;
      assert OfCall(path, CallOf(intent));
      if turn.verdict.Again? {
        assert FreshIds(turn.state.journal, CallOf(intent), gates[1..]) by {
          forall p: EvidencePath, g | OfCall(p, CallOf(intent)) && g in gates[1..] && g.gate.id == p.gateId
            ensures !Present(turn.state.journal, p)
          {
            assert g in gates && !Present(s.journal, p);
            assert g.gate.id != gates[0].gate.id;
          }
        }
        FreshGates(h, t, turn.state, turn.intent, plan, gates[1..]);
      }
    }
  }

  lemma {:induction false} RequiredAreSeparate(j: Option<Journal>, key: seq<char>, action: string,
                                               gates: seq<SelectedGate>, binding: Binding)
    requires UniqueIds(Definitions(gates))
    ensures Separate(Unproven(j, key, action, gates, binding))
  {
    hide Proven;
    if gates != [] {
      var n := |gates| - 1;
      DistinctIds(gates);
      assert UniqueIds(Definitions(gates[..n])) by {
        forall i, k | 0 <= i < k < n ensures Definitions(gates[..n])[i].id != Definitions(gates[..n])[k].id {
          assert gates[i].gate.id != gates[k].gate.id;
        }
      }
      RequiredAreSeparate(j, key, action, gates[..n], binding);
      UnprovenIsTheRest(j, key, action, gates[..n], binding);
      forall g | g in Unproven(j, key, action, gates[..n], binding) ensures g.gate.id != gates[n].gate.id {
        assert g in gates[..n];
      }
    }
  }

  /** Selected once each, so required once each. */
  lemma PlanIsSeparate(core: Core, request: Request, j: Option<Journal>, contract: ContractDigest, intent: Intent)
    requires SelectsUniquely(core)
    ensures var p := PlanFor(core, request, j, contract, intent, "");
        Separate(p.requiredGates) && UniqueIds(p.binding.gates)
  {
    var basis := BasisFor(core, request, contract, intent, "");
    assert UniqueIds(Definitions(basis.gates));
    SubjectFacts(core, request, j, contract, intent);
    hide BasisFor;
    RequiredAreSeparate(j, request.key, request.action, basis.gates, SubjectOf(core, request, contract, intent));
  }

  /** A release is refused by the ledger only if the call was released before. */
  lemma ConcludeIsFine<W>(t: Task, s: State<W>, intent: Intent, plan: Plan)
    requires Unreleased(s.journal, CallOf(plan.binding.intent))
    requires plan.approvalCurrent ==> ApprovalPath(plan.binding) in s.journal.files
    ensures Fine(Conclude(t, s, intent, plan).verdict) && !Conclude(t, s, intent, plan).verdict.Again?
  {
    var directive := ReleaseEvidence(plan, t.request.key);
    if directive.Directed? {
      assert directive.effects[0].CreateJson?;
    }
  }

  lemma ApprovalIsThere(core: Core, request: Request, j: Journal, contract: ContractDigest, intent: Intent)
    ensures var p := PlanFor(core, request, Some(j), contract, intent, "");
        p.approvalCurrent ==> ApprovalPath(p.binding) in j.files
  {
    hide BasisFor;
  }

  lemma SameEvidence(j: Journal, j': Journal, request: Request, call: Intent)
    requires j'.files == j.files && j'.history == j.history
    ensures Tidy(j, request, call) ==> Tidy(j', request, call)
    ensures Unreleased(j, call) ==> Unreleased(j', call)
  {
    forall p: EvidencePath | p.ReceiptPath? && Kept(j, request, p) ensures Kept(j', request, p) {
      var d :| d in p.binding.gates && d.id == p.gateId
        && ReceiptIsCurrent(j, request.key, request.action, d, p.binding.contract, p.binding.fingerprint, p.binding);
      assert ReceiptIsCurrent(j', request.key, request.action, d, p.binding.contract, p.binding.fingerprint, p.binding);
    }
  }

  /** A turn that goes on to the next pass of the call with its evidence in order. */
  ghost predicate Continues<W>(turn: Turn<W>, request: Request, call: Intent) {
    CallOf(turn.intent) == call && Tidy(turn.state.journal, request, call) && Unreleased(turn.state.journal, call)
  }

  lemma FirstPass<W>(h: Host<W>, t: Task, s: State<W>, intent: Intent)
    requires SelectsUniquely(t.core) && Untouched(s.journal, CallOf(intent))
    ensures var turn := Pass(h, t, s, intent);
      && Fine(turn.verdict)
      && (turn.verdict.Again? ==> Continues(turn, t.request, CallOf(intent)))
  {
    hide PlanFor, RunGates, Conclude, SelectsUniquely, Commit, DecisionEvidence, Tidy, Unreleased;
    var (refreshed, s1) := Refresh(h, s, intent);
    if refreshed.Some? {
      var (planned, s2) := PlanNow(h, t, s1, refreshed.value);
      if planned.Some? {
        var files := h.load(s1.world).0.value;
        var plan := planned.value;
        DecisionIsLogged(s.journal, plan);
        var s3 := s2.(journal := Commit(s.journal, DecisionEvidence(plan)).value);
        UntouchedIsTidy(s3.journal, t.request, CallOf(intent));
        SameEvidence(s.journal, s3.journal, t.request, CallOf(intent));
        PlanIsSeparate(t.core, t.request, Some(s.journal), files, refreshed.value);
        PlanFacts(t.core, t.request, Some(s.journal), files, refreshed.value);
        ApprovalIsThere(t.core, t.request, s.journal, files, refreshed.value);
        ConcludeIsFine(t, s3, refreshed.value, plan);
        FreshGates(h, t, s3, refreshed.value, plan, plan.requiredGates);
      }
    }
  }

  lemma UntouchedIsTidy(j: Journal, request: Request, call: Intent)
    requires forall p: EvidencePath :: OfCall(p, call) ==> !Present(j, p)
    ensures Tidy(j, request, call)
  {}

  // ---- Calm passes ---------------------------------------------------------------------------------------

  /** Worlds in which every observation and every contract read come out the same, whatever is called. */
  ghost predicate Calm<W(!new)>(h: Host<W>, calm: W -> bool, seen: Observation, contract: ContractDigest) {
    forall w: W {:trigger CalmAt(h, calm, seen, contract, w)} :: calm(w) ==> CalmAt(h, calm, seen, contract, w)
  }

  ghost predicate CalmAt<W>(h: Host<W>, calm: W -> bool, seen: Observation, contract: ContractDigest, w: W) {
    && (h.observe(w).0.Some? ==> h.observe(w).0.value == seen) && calm(h.observe(w).1)
    && (h.load(w).0.Some? ==> h.load(w).0.value == contract) && calm(h.load(w).1)
    && forall gate: SelectedGate :: calm(h.execute(w, gate).1)
  }

  function Sighted(call: Intent, seen: Observation): Intent {
    call.(changedFiles := seen.changedFiles, fingerprint := Some(seen.fingerprint))
  }

  /** Recording reads the contract once or twice and touches the world in no other way. */
  lemma RecordedWorld<W>(h: Host<W>, t: Task, s: State<W>, intent: Intent, plan: Plan, gate: SelectedGate,
                         exitCode: int)
    ensures var w := RecordRun(h, t, s, intent, plan, gate, exitCode).state.world;
      w == h.load(s.world).1 || w == h.load(h.load(s.world).1).1
  {
    hide PlanFor, GateEvidence, Commit;
  }

  lemma CalmRecord<W(!new)>(h: Host<W>, t: Task, s: State<W>, intent: Intent, plan: Plan, gate: SelectedGate,
                            exitCode: int,
                            calm: W -> bool, seen: Observation, contract: ContractDigest)
    requires Calm(h, calm, seen, contract) && calm(s.world)
    ensures calm(RecordRun(h, t, s, intent, plan, gate, exitCode).state.world)
  {
    hide RecordRun;
    RecordedWorld(h, t, s, intent, plan, gate, exitCode);
    assert CalmAt(h, calm, seen, contract, s.world) && CalmAt(h, calm, seen, contract, h.load(s.world).1);
  }

  lemma CalmGate<W(!new)>(h: Host<W>, t: Task, s: State<W>, intent: Intent, plan: Plan, gate: SelectedGate,
                          calm: W -> bool, seen: Observation, contract: ContractDigest)
    requires Calm(h, calm, seen, contract) && calm(s.world)
    ensures var turn := RunGate(h, t, s, intent, plan, gate);
      && calm(turn.state.world)
      && (turn.verdict.Again? || turn.verdict == Failed(LedgerRefused) ==> turn.intent == Sighted(CallOf(intent), seen))
  {
    hide RecordRun;
    var (exit, w) := h.execute(s.world, gate);
    assert CalmAt(h, calm, seen, contract, s.world) && CalmAt(h, calm, seen, contract, w);
    hide Calm, CalmAt;
    var s1 := s.(world := w, started := s.started + 1);
    var (refreshed, s2) := Refresh(h, s1, intent);
    if exit.Some? && refreshed.Some? {
      CalmRecord(h, t, s2, refreshed.value, plan, gate, exit.value, calm, seen, contract);
      RecordAgain(h, t, s2, refreshed.value, plan, gate, exit.value);
    }
  }

  ghost predicate Grown(j: Journal, j': Journal) { forall p: EvidencePath :: Present(j, p) ==> Present(j', p) }

  /** In a calm workspace every gate of a pass files its receipt under one subject. */
  lemma {:induction false} CalmGates<W(!new)>(h: Host<W>, t: Task, s: State<W>, intent: Intent, plan: Plan,
                                              gates: seq<SelectedGate>,
                                              calm: W -> bool, seen: Observation, b: Binding)
    requires Calm(h, calm, seen, plan.contract) && calm(s.world)
    requires Tidy(s.journal, t.request, CallOf(intent)) && Unreleased(s.journal, CallOf(intent)) && Separate(gates)
    requires b == SubjectOf(t.core, t.request, plan.contract, Sighted(CallOf(intent), seen))
    requires forall g :: g in gates ==> !Present(s.journal, ReceiptPath(g.gate.id, b))
    ensures var turn := RunGates(h, t, s, intent, plan, gates);
      && Fine(turn.verdict)
      && (turn.verdict.Again? ==>
            && calm(turn.state.world) && Continues(turn, t.request, CallOf(intent)) &&
                Grown(s.journal, turn.state.journal)
            && forall g :: g in gates ==> Present(turn.state.journal, ReceiptPath(g.gate.id, b)))
    decreases |gates|
  {
    hide RunGate, Tidy, Unreleased, Calm, SubjectOf;
    if gates != [] {
      var turn := RunGate(h, t, s, intent, plan, gates[0]);
      GateCases(h, t, s, intent, plan, gates[0]);
      CalmGate(h, t, s, intent, plan, gates[0], calm, seen, plan.contract);
      if turn.verdict.Again? {
        forall g | g in gates[1..] ensures !Present(turn.state.journal, ReceiptPath(g.gate.id, b)) {
          assert g in gates && g.gate.id != gates[0].gate.id;
        }
        CalmGates(h, t, turn.state, turn.intent, plan, gates[1..], calm, seen, b);
      }
    }
  }

  /** Every gate of the subject has its receipt. */
  ghost predicate Complete(j: Journal, b: Binding) { forall d :: d in b.gates ==> Present(j, ReceiptPath(d.id, b)) }

  /** With evidence in order, a gate is required exactly when its receipt path was never used. */
  lemma RequiredAreNew(core: Core, request: Request, j: Journal, contract: ContractDigest, intent: Intent)
    requires SelectsUniquely(core) && Tidy(j, request, CallOf(intent))
    ensures var p := PlanFor(core, request, Some(j), contract, intent, "");
      p.ok ==> forall g :: g in BasisFor(core, request, contract, intent, "").gates ==>
        (g in p.requiredGates <==> !Present(j, ReceiptPath(g.gate.id, p.binding)))
    ensures var p := PlanFor(core, request, Some(j), contract, intent, "");
      p.requiredGates != [] ==> p.ok && forall g ::
          g in p.requiredGates ==> g in BasisFor(core, request, contract, intent, "").gates
  {
    var p := PlanFor(core, request, Some(j), contract, intent, "");
    var gates := BasisFor(core, request, contract, intent, "").gates;
    PlanIsSeparate(core, request, Some(j), contract, intent);
    SubjectFacts(core, request, Some(j), contract, intent);
    PlanFacts(core, request, Some(j), contract, intent);
    assert p.requiredGates != [] ==> p.requiredGates[0] in p.requiredGates;
    hide PlanFor, BasisFor, SubjectOf, SelectsUniquely;
    UnprovenIsTheRest(Some(j), request.key, request.action, gates, p.binding);
    forall g | g in gates && p.ok ensures g in p.requiredGates <==> !Present(j, ReceiptPath(g.gate.id, p.binding)) {
      var i :| 0 <= i < |gates| && gates[i] == g;
      assert p.binding.gates[i] == g.gate;
      ProvenIsPresent(j, request, p.binding, g.gate, CallOf(intent));
    }
  }

  lemma ProvenIsPresent(j: Journal, request: Request, b: Binding, gate: Gate, call: Intent)
    requires Tidy(j, request, call) && CallOf(b.intent) == call && UniqueIds(b.gates) && gate in b.gates
    ensures Proven(Some(j), request.key, request.action, gate, b) <==> Present(j, ReceiptPath(gate.id, b))
  {
    if Present(j, ReceiptPath(gate.id, b)) {
      assert OfCall(ReceiptPath(gate.id, b), call);
      var d :| d in b.gates && d.id == gate.id &&
          ReceiptIsCurrent(j, request.key, request.action, d, b.contract, b.fingerprint, b);
      assert d == gate;
    }
  }

  lemma CalmPass<W(!new)>(h: Host<W>, t: Task, s: State<W>, intent: Intent, calm: W -> bool, seen: Observation,
                          contract: ContractDigest)
    requires SelectsUniquely(t.core) && Calm(h, calm, seen, contract) && calm(s.world)
    requires Tidy(s.journal, t.request, CallOf(intent)) && Unreleased(s.journal, CallOf(intent))
    ensures var turn := Pass(h, t, s, intent);
      var b := SubjectOf(t.core, t.request, contract, Sighted(CallOf(intent), seen));
      && Fine(turn.verdict)
      && (Complete(s.journal, b) ==> !turn.verdict.Again?)
      && (turn.verdict.Again? ==>
            calm(turn.state.world) && Continues(turn, t.request, CallOf(intent)) && Complete(turn.state.journal, b))
  {
    hide PlanFor, ActOn, SelectsUniquely, Commit, DecisionEvidence, Tidy, Unreleased, SubjectOf, Continues, Complete;
    var r := Sighted(CallOf(intent), seen);
    var (refreshed, s1) := Refresh(h, s, intent);
    assert CalmAt(h, calm, seen, contract, s.world) && CalmAt(h, calm, seen, contract, s1.world);
    if refreshed.Some? {
      assert refreshed.value == r;
      var (planned, s2) := PlanNow(h, t, s1, r);
      if planned.Some? {
        hide Calm, CalmAt;
        CalmAct(h, t, s2, r, calm, seen, contract);
      }
    }
  }

  lemma CalmAct<W(!new)>(h: Host<W>, t: Task, s: State<W>, r: Intent, calm: W -> bool, seen: Observation,
                         contract: ContractDigest)
    requires SelectsUniquely(t.core) && Calm(h, calm, seen, contract) && calm(s.world)
    requires Tidy(s.journal, t.request, CallOf(r)) && Unreleased(s.journal, CallOf(r)) && r == Sighted(CallOf(r), seen)
    ensures var turn := ActOn(h, t, s, r, PlanFor(t.core, t.request, Some(s.journal), contract, r, ""));
      var b := SubjectOf(t.core, t.request, contract, r);
      && Fine(turn.verdict)
      && (Complete(s.journal, b) ==> !turn.verdict.Again?)
      && (turn.verdict.Again? ==>
          calm(turn.state.world) && Continues(turn, t.request, CallOf(r)) && Complete(turn.state.journal, b))
  {
    hide PlanFor, RunGates, Conclude, SelectsUniquely, Commit, DecisionEvidence, Tidy, Unreleased, SubjectOf, Continues,
        Complete, Calm;
    var plan := PlanFor(t.core, t.request, Some(s.journal), contract, r, "");
    DecisionIsLogged(s.journal, plan);
    var s3 := s.(journal := Commit(s.journal, DecisionEvidence(plan)).value);
    SameEvidence(s.journal, s3.journal, t.request, CallOf(r));
    ApprovalIsThere(t.core, t.request, s.journal, contract, r);
    PlanFacts(t.core, t.request, Some(s.journal), contract, r);
    ConcludeIsFine(t, s3, r, plan);
    CalmRequired(h, t, s.journal, s3, r, calm, seen, contract);
  }

  lemma CalmRequired<W(!new)>(h: Host<W>, t: Task, j: Journal, s: State<W>, r: Intent, calm: W -> bool,
                              seen: Observation, contract: ContractDigest)
    requires SelectsUniquely(t.core) && Calm(h, calm, seen, contract) && calm(s.world)
    requires Tidy(j, t.request, CallOf(r)) && Tidy(s.journal, t.request, CallOf(r)) && Unreleased(s.journal, CallOf(r))
    requires r == Sighted(CallOf(r), seen) && s.journal.files == j.files && s.journal.history == j.history
    ensures var plan := PlanFor(t.core, t.request, Some(j), contract, r, "");
      var ran := RunGates(h, t, s, r, plan, plan.requiredGates);
      var b := SubjectOf(t.core, t.request, contract, r);
      && Fine(ran.verdict)
      && (Complete(j, b) ==> plan.requiredGates == [])
      && (ran.verdict.Again? && plan.ok ==>
          calm(ran.state.world) && Continues(ran, t.request, CallOf(r)) && Complete(ran.state.journal, b))
  {
    hide PlanFor, BasisFor, RunGates, SelectsUniquely, Tidy, Unreleased, SubjectOf, Continues, Calm;
    var plan := PlanFor(t.core, t.request, Some(j), contract, r, "");
    var gates := BasisFor(t.core, t.request, contract, r, "").gates;
    var b := SubjectOf(t.core, t.request, contract, r);
    SubjectFacts(t.core, t.request, Some(j), contract, r);
    PlanFacts(t.core, t.request, Some(j), contract, r);
    PlanIsSeparate(t.core, t.request, Some(j), contract, r);
    RequiredAreNew(t.core, t.request, j, contract, r);
    CalmGates(h, t, s, r, plan, plan.requiredGates, calm, seen, b);
    SubjectIsComplete(gates, plan.requiredGates, b, j, RunGates(h, t, s, r, plan, plan.requiredGates).state.journal,
        plan.ok);
  }

  /** A subject is complete when the required gates get their receipts, and complete before only if nothing was
      required. */
  lemma SubjectIsComplete(gates: seq<SelectedGate>, required: seq<SelectedGate>, b: Binding, j: Journal, after: Journal,
                          ok: bool)
    requires b.gates == Definitions(gates)
    requires forall g :: g in required ==> g in gates && !Present(j, ReceiptPath(g.gate.id, b))
    requires ok ==> forall g :: g in gates && !Present(j, ReceiptPath(g.gate.id, b)) ==> g in required
    ensures Complete(j, b) ==> required == []
    ensures ok && Grown(j, after) && (forall g :: g in required ==> Present(after, ReceiptPath(g.gate.id, b))) ==>
        Complete(after, b)
  {
    if required != [] {
      var g := required[0];
      assert g in required && g in gates;
      var i :| 0 <= i < |gates| && gates[i] == g;
      assert b.gates[i] == g.gate;
    }
    if ok && Grown(j, after) && (forall g :: g in required ==> Present(after, ReceiptPath(g.gate.id, b))) {
      forall d | d in b.gates ensures Present(after, ReceiptPath(d.id, b)) {
        var i :| 0 <= i < |b.gates| && b.gates[i] == d;
        assert gates[i].gate == d && gates[i] in gates;
        assert Present(j, ReceiptPath(d.id, b)) || gates[i] in required;
      }
    }
  }

  // ---- Convergence ------------------------------------------------------------------------------------------

  /** A transaction that starts without receipts or release for its call, in a workspace whose observation
      and contract stand still once the first pass is over, never runs out of passes and never collides
      with evidence it filed itself: whatever the first pass's gates change, and however gates end. */
  lemma ConvergesOnceCalm<W(!new)>(h: Host<W>, t: Task, s: State<W>, intent: Intent, calm: W -> bool, seen: Observation,
                                   contract: ContractDigest)
    requires SelectsUniquely(t.core) && Untouched(s.journal, CallOf(intent))
    requires Calm(h, calm, seen, contract)
    requires Pass(h, t, s, intent).verdict.Again? ==> calm(Pass(h, t, s, intent).state.world)
    ensures AdvanceOf(h, t, s, intent).verdict != Failed(DidNotConverge)
    ensures AdvanceOf(h, t, s, intent).verdict != Failed(LedgerRefused)
  {
    hide Pass, Tidy, Unreleased, Untouched, Calm, SelectsUniquely, Complete, SubjectOf;
    FirstPass(h, t, s, intent);
    var one := Pass(h, t, s, intent);
    if one.verdict.Again? {
      CalmPass(h, t, one.state, one.intent, calm, seen, contract);
      var two := Pass(h, t, one.state, one.intent);
      if two.verdict.Again? { CalmPass(h, t, two.state, two.intent, calm, seen, contract); }
      assert Passes(h, t, one.state, one.intent, 2) == if two.verdict.Again? then Passes(h, t, two.state, two.intent, 1)
                                                       else two;
    }
    assert Passes(h, t, s, intent, 3) == if one.verdict.Again? then Passes(h, t, one.state, one.intent, 2) else one;
  }

  // ---- Settling ----------------------------------------------------------------------------------------------

  /** Everything the transaction relies on succeeds: observations, reads of one unchanged contract, and gates;
      and whatever is observed, the plan stands and selects the same ids. */
  ghost predicate Cooperative<W(!new)>(h: Host<W>, t: Task, call: Intent, contract: ContractDigest, ids: set<string>) {
    forall w: W {:trigger CooperativeAt(h, t, call, contract, ids, w)} :: CooperativeAt(h, t, call, contract, ids, w)
  }

  ghost predicate CooperativeAt<W>(h: Host<W>, t: Task, call: Intent, contract: ContractDigest, ids: set<string>,
                                   w: W) {
    && h.observe(w).0.Some? && h.load(w).0 == Some(contract)
    && (forall gate: SelectedGate :: h.execute(w, gate).0 == Some(0))
    && Stands(t.core, t.request, contract, Sighted(call, h.observe(w).0.value), ids)
  }

  ghost predicate Stands(core: Core, request: Request, contract: ContractDigest, intent: Intent, ids: set<string>) {
    var basis := BasisFor(core, request, contract, intent, "");
    && basis.ok && basis.decision != Deny && basis.placement != Placement.Blocked && |basis.gates| <= MAX_SELECTED_GATES
    && (set d | d in Definitions(basis.gates) :: d.id) == ids
  }

  predicate Settled(v: Verdict) {
    v.Done? && (v.outcome.ApprovalRequired? || v.outcome.Verified? || v.outcome.Released?)
  }

  predicate Settling(v: Verdict) { v.Again? || v == Failed(LedgerRefused) || Settled(v) }

  /** The gate's id is planned once, at some place. */
  lemma PlannedOnce(core: Core, request: Request, contract: ContractDigest, intent: Intent, ids: set<string>,
                    id: string)
    returns (i: nat)
    requires SelectsUniquely(core) && Stands(core, request, contract, intent, ids) && id in ids
    ensures var basis := BasisFor(core, request, contract, intent, "");
      basis.ok && UniqueIds(Definitions(basis.gates)) && i < |basis.gates| && basis.gates[i].gate.id == id
  {
    var gates := BasisFor(core, request, contract, intent, "").gates;
    assert UniqueIds(Definitions(gates));
    var d :| d in Definitions(gates) && d.id == id;
    i :| i < |gates| && Definitions(gates)[i] == d;
  }

  /** Recording a planned gate under an unchanged contract can fail only in the ledger. */
  lemma PlannedIsRecorded<W>(h: Host<W>, t: Task, s: State<W>, intent: Intent, plan: Plan, gate: SelectedGate, i: nat)
    requires |t.request.key| >= MIN_KEY_LENGTH
    requires h.load(s.world).0 == Some(plan.contract) && h.load(h.load(s.world).1).0 == Some(plan.contract)
    requires var basis := BasisFor(t.core, t.request, plan.contract, intent, "");
      basis.ok && UniqueIds(Definitions(basis.gates)) && i < |basis.gates| && basis.gates[i].gate.id == gate.gate.id
    ensures var turn := RecordRun(h, t, s, intent, plan, gate, 0);
      turn.intent == intent && (turn.verdict.Again? || turn.verdict == Failed(LedgerRefused))
  {
    hide BasisFor, PlanFor, GateEvidence, UniqueIds, Commit, AttemptEffects, SubjectOf;
    PlannedReceipt(t.core, t.request, Some(s.journal), plan.contract, intent, i);
    EvidenceIsAccepted(t.core, t.request, plan.contract, intent, 0, i);
    OneSubject(t.core, t.request, s.journal, plan.contract, intent);
  }

  lemma RecordSettles<W>(h: Host<W>, t: Task, s: State<W>, intent: Intent, plan: Plan, gate: SelectedGate,
                         ids: set<string>)
    requires |t.request.key| >= MIN_KEY_LENGTH && SelectsUniquely(t.core)
    requires h.load(s.world).0 == Some(plan.contract) && h.load(h.load(s.world).1).0 == Some(plan.contract)
    requires Stands(t.core, t.request, plan.contract, intent, ids) && gate.gate.id in ids
    ensures var turn := RecordRun(h, t, s, intent, plan, gate, 0);
      turn.intent == intent && (turn.verdict.Again? || turn.verdict == Failed(LedgerRefused))
  {
    hide RecordRun, BasisFor, UniqueIds, SelectsUniquely, Stands;
    var i := PlannedOnce(t.core, t.request, plan.contract, intent, ids, gate.gate.id);
    PlannedIsRecorded(h, t, s, intent, plan, gate, i);
  }

  lemma GateSettles<W(!new)>(h: Host<W>, t: Task, s: State<W>, intent: Intent, plan: Plan, gate: SelectedGate,
                             ids: set<string>)
    requires |t.request.key| >= MIN_KEY_LENGTH && SelectsUniquely(t.core)
    requires Cooperative(h, t, CallOf(intent), plan.contract, ids) && gate.gate.id in ids
    ensures var turn := RunGate(h, t, s, intent, plan, gate);
      CallOf(turn.intent) == CallOf(intent) && (turn.verdict.Again? || turn.verdict == Failed(LedgerRefused))
  {
    hide RecordRun, Stands, SelectsUniquely;
    var call := CallOf(intent);
    var (exit, w) := h.execute(s.world, gate);
    var s1 := s.(world := w, started := s.started + 1);
    var (refreshed, s2) := Refresh(h, s1, intent);
    assert CooperativeAt(h, t, call, plan.contract, ids, s.world) && CooperativeAt(h, t, call, plan.contract, ids, w);
    assert CooperativeAt(h, t, call, plan.contract, ids, s2.world) &&
        CooperativeAt(h, t, call, plan.contract, ids, h.load(s2.world).1);
    hide Cooperative, CooperativeAt;
    assert refreshed.value == Sighted(call, h.observe(w).0.value);
    RecordSettles(h, t, s2, refreshed.value, plan, gate, ids);
  }

  lemma {:induction false} GatesSettle<W(!new)>(h: Host<W>, t: Task, s: State<W>, intent: Intent, plan: Plan,
                                                gates: seq<SelectedGate>, ids: set<string>)
    requires |t.request.key| >= MIN_KEY_LENGTH && SelectsUniquely(t.core)
    requires Cooperative(h, t, CallOf(intent), plan.contract, ids) && forall g :: g in gates ==> g.gate.id in ids
    ensures var turn := RunGates(h, t, s, intent, plan, gates);
      CallOf(turn.intent) == CallOf(intent) && (turn.verdict.Again? || turn.verdict == Failed(LedgerRefused))
    decreases |gates|
  {
    hide RunGate, SelectsUniquely, Cooperative;
    if gates != [] {
      var turn := RunGate(h, t, s, intent, plan, gates[0]);
      GateSettles(h, t, s, intent, plan, gates[0], ids);
      if turn.verdict.Again? { GatesSettle(h, t, turn.state, turn.intent, plan, gates[1..], ids); }
    }
  }

  /** A plan that is allowed and has nothing left to run is authorized or waits for an approval:
      the branch for an unauthorized subject is never taken. */
  lemma NothingLeftIsAuthorized(core: Core, request: Request, j: Option<Journal>, contract: ContractDigest,
                                intent: Intent)
    ensures var p := PlanFor(core, request, j, contract, intent, "");
      p.ok && p.decision != Deny && p.placement != Placement.Blocked && p.requiredGates == [] ==>
        p.authorized || (p.decision == Ask && !p.approvalCurrent)
  {}

  lemma PassSettles<W(!new)>(h: Host<W>, t: Task, s: State<W>, intent: Intent, contract: ContractDigest,
                             ids: set<string>)
    requires |t.request.key| >= MIN_KEY_LENGTH && SelectsUniquely(t.core)
    requires Cooperative(h, t, CallOf(intent), contract, ids)
    ensures var turn := Pass(h, t, s, intent); Settling(turn.verdict) && CallOf(turn.intent) == CallOf(intent)
  {
    hide PlanFor, ActOn, SelectsUniquely, Stands;
    var (refreshed, s1) := Refresh(h, s, intent);
    assert CooperativeAt(h, t, CallOf(intent), contract, ids, s.world) &&
        CooperativeAt(h, t, CallOf(intent), contract, ids, s1.world);
    hide Cooperative, CooperativeAt;
    var r := refreshed.value;
    assert r == Sighted(CallOf(intent), h.observe(s.world).0.value);
    var (_, s2) := PlanNow(h, t, s1, r);
    ActSettles(h, t, s2, r, contract, ids);
  }

  lemma ActSettles<W(!new)>(h: Host<W>, t: Task, s: State<W>, r: Intent, contract: ContractDigest, ids: set<string>)
    requires |t.request.key| >= MIN_KEY_LENGTH && SelectsUniquely(t.core) && Cooperative(h, t, CallOf(r), contract, ids)
    requires Stands(t.core, t.request, contract, r, ids)
    ensures var turn := ActOn(h, t, s, r, PlanFor(t.core, t.request, Some(s.journal), contract, r, ""));
      Settling(turn.verdict) && CallOf(turn.intent) == CallOf(r)
  {
    var plan := PlanFor(t.core, t.request, Some(s.journal), contract, r, "");
    var gates := BasisFor(t.core, t.request, contract, r, "").gates;
    StandingPlan(t.core, t.request, s.journal, contract, r, ids);
    NothingLeftIsAuthorized(t.core, t.request, Some(s.journal), contract, r);
    PlanFacts(t.core, t.request, Some(s.journal), contract, r);
    DecisionIsLogged(s.journal, plan);
    hide PlanFor, BasisFor, RunGates, SelectsUniquely, Cooperative, Stands, DecisionEvidence, Commit;
    var s3 := s.(journal := Commit(s.journal, DecisionEvidence(plan)).value);
    if plan.requiredGates != [] { GatesSettle(h, t, s3, r, plan, plan.requiredGates, ids); }
  }

  lemma StandingPlan(core: Core, request: Request, j: Journal, contract: ContractDigest, intent: Intent,
                     ids: set<string>)
    requires Stands(core, request, contract, intent, ids)
    ensures var p := PlanFor(core, request, Some(j), contract, intent, "");
      && p.ok && p.decision != Deny && p.placement != Placement.Blocked && |p.requiredGates| <= MAX_SELECTED_GATES
      && forall g :: g in p.requiredGates ==> g.gate.id in ids
  {
    var p := PlanFor(core, request, Some(j), contract, intent, "");
    var gates := BasisFor(core, request, contract, intent, "").gates;
    assert p.decision == BasisFor(core, request, contract, intent, "").decision;
    assert p.placement == BasisFor(core, request, contract, intent, "").placement;
    SubjectFacts(core, request, Some(j), contract, intent);
    PlanFacts(core, request, Some(j), contract, intent);
    hide BasisFor, PlanFor;
    UnprovenIsShorter(Some(j), request.key, request.action, gates, p.binding);
  }

  lemma {:induction false} UnprovenIsShorter(j: Option<Journal>, key: seq<char>, action: string,
                                             gates: seq<SelectedGate>, binding: Binding)
    ensures |Unproven(j, key, action, gates, binding)| <= |gates|
  {
    hide Proven;
    if gates != [] { UnprovenIsShorter(j, key, action, gates[..|gates| - 1], binding); }
  }

  /** When moreover everything succeeds and the same gate ids stay selected, a first transaction for a call
      settles: it verifies, releases, or asks for the approval it lacks. */
  lemma SettlesWhenGatesSucceed<W(!new)>(h: Host<W>, t: Task, s: State<W>, intent: Intent, calm: W -> bool,
                                         seen: Observation,
                                         contract: ContractDigest, ids: set<string>)
    requires t.request.mode == SupervisedAuto && h.runtimeValid(s.world) && |t.request.key| >= MIN_KEY_LENGTH
    requires SelectsUniquely(t.core) && Untouched(s.journal, CallOf(intent))
    requires Calm(h, calm, seen, contract)
    requires Pass(h, t, s, intent).verdict.Again? ==> calm(Pass(h, t, s, intent).state.world)
    requires Cooperative(h, t, CallOf(intent), contract, ids)
    ensures Settled(AdvanceOf(h, t, s, intent).verdict)
  {
    ConvergesOnceCalm(h, t, s, intent, calm, seen, contract);
    hide Passes, SelectsUniquely, Untouched, Calm, Cooperative, Pass;
    PassesSettle(h, t, s, intent, contract, ids, MAX_CONVERGENCE_PASSES);
  }

  lemma {:induction false} PassesSettle<W(!new)>(h: Host<W>, t: Task, s: State<W>, intent: Intent,
                                                 contract: ContractDigest, ids: set<string>, left: nat)
    requires |t.request.key| >= MIN_KEY_LENGTH && SelectsUniquely(t.core)
    requires Cooperative(h, t, CallOf(intent), contract, ids)
    ensures var v := Passes(h, t, s, intent, left).verdict;
        Settled(v) || v == Failed(LedgerRefused) || v == Failed(DidNotConverge)
    decreases left
  {
    hide Pass, SelectsUniquely, Cooperative;
    if left > 0 {
      PassSettles(h, t, s, intent, contract, ids);
      var turn := Pass(h, t, s, intent);
      if turn.verdict.Again? { PassesSettle(h, t, turn.state, turn.intent, contract, ids, left - 1); }
    }
  }
}
