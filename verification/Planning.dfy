/** Enforcement planning: from the contract files, one call's intent and the evidence kept so far
    to the decision, the gates still required, and the directives that record what happened. */
module Planning {
  import opened Wrappers
  import opened Gates
  import opened Selection
  import opened Composition
  import opened Evidence
  import opened Ledger

  datatype PolicyDoc = PolicyDoc(source: string, text: string)

  /** What the contract files parse to; `broken` when any error was diagnosed. */
  datatype Authority = Authority(policies: seq<PolicyDoc>, sources: seq<Source>, broken: bool)

  datatype Required = Required(gates: seq<SelectedGate>, conflicts: seq<Conflict>)

  datatype Request = Request(mode: Mode, action: string, classes: seq<string>, key: seq<char>)

  /** The functions planning calls: the parsers, the policy evaluator, the admission of an intent
      and its action, the stages an action requires, and gate selection over the sources. */
  datatype Core = Core(
    parse: ContractDigest -> Authority,
    evaluate: (PolicyDoc, Request) -> (Decision, Placement),
    admits: (Request, Intent) -> bool,
    stages: Request -> seq<Stage>,
    required: (Authority, seq<Stage>, seq<string>) -> Required)

  /** The core as the source assembles it, around any parser, policy evaluator and glob library. */
  function StandardCore(parse: ContractDigest -> Authority, evaluate: (PolicyDoc, Request) -> (Decision, Placement),
                        globs: Globs): Core {
    Core(parse, evaluate,
         (request: Request, intent: Intent) => IntentValid(intent) &&
             ActionClassesValid(request.action, request.classes),
         (request: Request) => RequiredStages(request.action, request.classes),
         ComposedGates(globs))
  }

  /** Selection over every authority source, as `SelectRequiredGates` computes it. */
  function ComposedGates(globs: Globs): (Authority, seq<Stage>, seq<string>) -> Required {
    (authority: Authority, stages: seq<Stage>, files: seq<string>) =>
      var retained := Retained(Rounds(globs, authority.sources, stages, files));
      Required(GatesOf(FirstById(retained)), Conflicts(retained))
  }

  datatype ReceiptStatus = ReceiptStatus(gateId: string, current: bool, definition: Gate)

  datatype Plan = Plan(
    ok: bool,
    action: string,
    decision: Decision,
    placement: Placement,
    requiredGates: seq<SelectedGate>,
    receipts: seq<ReceiptStatus>,
    contract: ContractDigest,
    fingerprint: string,
    binding: Binding,
    approvalCurrent: bool,
    authorized: bool,
    intent: Intent)

  // ---- Intent and action checks -----------------------------------------------------------

  const INTENT_KIND := "nopal.enforcement.intent/v1"

  predicate IsSpace(c: char) {
    var n := c as int;
    9 <= n <= 13 || n == 0x20 || n == 0x85 || n == 0xA0 || n == 0x1680 || 0x2000 <= n <= 0x200A
    || n == 0x2028 || n == 0x2029 || n == 0x202F || n == 0x205F || n == 0x3000
  }

  predicate Blank(s: string) { forall c :: c in s ==> IsSpace(c) }

  /** Relative, non-empty, and without a parent component. */
  predicate ConfinedFile(path: string) {
    && path != "" && path[0] != '/'
    && !exists i :: 0 <= i <= |path| - 2 && path[i] == '.' && path[i + 1] == '.'
         && (i == 0 || path[i - 1] == '/') && (i + 2 == |path| || path[i + 2] == '/')
  }

  predicate IntentValid(intent: Intent) {
    && intent.kind == INTENT_KIND
    && !Blank(intent.launchId) && !Blank(intent.sessionId) && !Blank(intent.toolCallId) && !Blank(intent.toolName)
    && !Blank(intent.inputDigest) && !Blank(intent.targetDigest) && !Blank(intent.executorDigest)
    && forall f :: f in intent.changedFiles ==> ConfinedFile(f)
  }

  function ExpectedClass(action: string): Option<string> {
    if action == "fs.read" then Some("read")
    else if action == "fs.write" then Some("workspace_write")
    else if action in ["file.read_credential", "file.search_credential", "env.dump", "export.bare", "echo.secret_var",
                       "network.exfil_credential", "network.exfil_env"] then Some("secret_bearing")
    else if action in ["git.read", "git.add", "git.commit"] then Some("git_local")
    else if action in ["git.push", "git.push_force", "gh.pr_mutate", "gh.issue_mutate"] then Some("git_remote")
    else if action == "gh.read" then Some("network_read")
    else if action == "dependency.install" then Some("dependency_install")
    else if action in ["network.transfer", "wrangler.mutate", "terraform.mutate", "kubectl.mutate", "deploy.mutate"]
      then Some("network_write")
    else if action in ["git.reset_hard", "git.clean_force", "rm.recursive", "sudo.exec", "chmod.perm_777", "chown.exec",
                       "disk.raw_write", "system.shutdown", "find.delete", "find.exec", "nopal.enforcement_internal"]
      then Some("destructive")
    else None
  }

  predicate ActionClassesValid(action: string, classes: seq<string>) {
    ExpectedClass(action).Some? && classes == [ExpectedClass(action).value]
  }

  function RequiredStages(action: string, classes: seq<string>): seq<Stage> {
    [Continuous]
    + (if action == "fs.write" || "workspace_write" in classes then [PerEdit] else [])
    + (if action == "git.commit" then [PreCommit] else [])
    + (if action == "git.push" || action == "gh.pr_mutate" then [PrePr] else [])
  }

  // ---- Composition of decisions -------------------------------------------------------------

  function Severity(d: Decision): nat { match d case Allow => 0 case Ask => 1 case Deny => 2 }

  function Strictness(p: Placement): nat {
    match p case SharedUserRuntime => 0 case DedicatedRepoRuntime => 1 case DedicatedRunRuntime => 2 case Blocked => 3
  }

  function StricterDecision(a: Decision, b: Decision): Decision { if Severity(a) < Severity(b) then b else a }

  function StricterPlacement(a: Placement, b: Placement): Placement { if Strictness(a) < Strictness(b) then b else a }

  /** The strictest decision and the strictest placement over all policies. */
  function Strictest(core: Core, request: Request, policies: seq<PolicyDoc>): (Decision, Placement) {
    if policies == [] then (Allow, SharedUserRuntime)
    else
      var (d, p) := Strictest(core, request, policies[..|policies| - 1]);
      var (d', p') := core.evaluate(policies[|policies| - 1], request);
      (StricterDecision(d, d'), StricterPlacement(p, p'))
  }

  // ---- Evidence lookups ---------------------------------------------------------------------

  predicate ReceiptIsCurrent(j: Journal, key: seq<char>, action: string, gate: Gate, contract: ContractDigest,
                             fingerprint: string, binding: Binding) {
    && ReceiptPath(gate.id, binding) in j.files
    && var doc := j.files[ReceiptPath(gate.id, binding)];
    && doc.ReceiptDoc?
    && doc.action == action
    && doc.exitCode == 0
    && doc.contract == contract
    && doc.fingerprint == fingerprint
    && doc.definition == gate
    && doc.binding == binding
    && doc.signature == Signature(key, ReceiptSubject(action, contract, fingerprint, binding, gate.id, gate, 0))
  }

  predicate ApprovalIsCurrent(j: Journal, key: seq<char>, action: string, binding: Binding) {
    && ApprovalPath(binding) in j.files
    && var doc := j.files[ApprovalPath(binding)];
    && doc.ApprovalDoc?
    && doc.action == action
    && doc.approved
    && doc.binding == binding
    && doc.signature == Signature(key, ApprovalSubject(action, binding, true))
  }

  // ---- The plan -------------------------------------------------------------------------------

  /** Everything decided before evidence is consulted. */
  datatype Basis = Basis(ok: bool, decision: Decision, placement: Placement, gates: seq<SelectedGate>,
      fingerprint: string)

  function BasisFor(core: Core, request: Request, files: ContractDigest, intent: Intent, walked: string): Basis {
    var authority := core.parse(files);
    var contractOk := !authority.broken && core.admits(request, intent);
    var (decision, placement) := if contractOk then Strictest(core, request, authority.policies) else (Deny, Blocked);
    var required := if decision == Deny || !contractOk then Required([], [])
                    else core.required(authority, core.stages(request), intent.changedFiles);
    Basis(contractOk && required.conflicts == [] && intent.fingerprint != Some(""),
          decision, placement, required.gates,
          if intent.fingerprint.Some? then intent.fingerprint.value else walked)
  }

  function Definitions(gates: seq<SelectedGate>): (r: seq<Gate>)
    ensures |r| == |gates| && forall i :: 0 <= i < |r| ==> r[i] == gates[i].gate
  {
    seq(|gates|, i requires 0 <= i < |gates| => gates[i].gate)
  }

  function BindingFor(request: Request, intent: Intent, basis: Basis, files: ContractDigest): Binding {
    Binding(request.action, request.classes, request.mode, intent, basis.decision, basis.placement, files,
            basis.fingerprint, Definitions(basis.gates))
  }

  predicate Proven(j: Option<Journal>, key: seq<char>, action: string, gate: Gate, binding: Binding) {
    j.Some? && ReceiptIsCurrent(j.value, key, action, gate, binding.contract, binding.fingerprint, binding)
  }

  function Receipts(j: Option<Journal>, key: seq<char>, action: string, gates: seq<SelectedGate>,
                    binding: Binding): (r: seq<ReceiptStatus>)
    ensures |r| == |gates|
    ensures forall i :: 0 <= i < |r| ==>
      r[i] == ReceiptStatus(gates[i].gate.id, Proven(j, key, action, gates[i].gate, binding), gates[i].gate)
  {
    seq(|gates|, i requires 0 <= i < |gates| =>
      ReceiptStatus(gates[i].gate.id, Proven(j, key, action, gates[i].gate, binding), gates[i].gate))
  }

  /** The gates without a current receipt, in selection order. */
  function Unproven(j: Option<Journal>, key: seq<char>, action: string, gates: seq<SelectedGate>,
                    binding: Binding): seq<SelectedGate> {
    if gates == [] then []
    else
      var last := gates[|gates| - 1];
      Unproven(j, key, action, gates[..|gates| - 1], binding)
      + (if Proven(j, key, action, last.gate, binding) then [] else [last])
  }

  function PlanFor(core: Core, request: Request, j: Option<Journal>, files: ContractDigest, intent: Intent,
                   walked: string): Plan {
    var basis := BasisFor(core, request, files, intent, walked);
    var binding := BindingFor(request, intent, basis, files);
    var unproven := Unproven(j, request.key, request.action, basis.gates, binding);
    var approval := basis.decision == Ask && j.Some? &&
        ApprovalIsCurrent(j.value, request.key, request.action, binding);
    Plan(basis.ok,
         request.action,
         if basis.ok then basis.decision else Deny,
         if basis.ok then basis.placement else Blocked,
         if basis.ok then unproven else [],
         Receipts(j, request.key, request.action, basis.gates, binding),
         files,
         basis.fingerprint,
         binding,
         approval,
         basis.ok && basis.placement != Blocked && unproven == [] && (basis.decision == Allow || approval),
         intent)
  }

  /** The planning pass: fold the policies, then look every selected gate up in the evidence. */
  method PlanForIntent(core: Core, request: Request, j: Option<Journal>, files: ContractDigest, intent: Intent,
                       walked: string)
    returns (plan: Plan)
    ensures plan == PlanFor(core, request, j, files, intent, walked)
  {
    var authority := core.parse(files);
    var contractOk := !authority.broken && core.admits(request, intent);
    var decision, placement := Deny, Blocked;
    if contractOk {
      decision, placement := Allow, SharedUserRuntime;
      for i := 0 to |authority.policies|
        invariant (decision, placement) == Strictest(core, request, authority.policies[..i])
      {
        assert authority.policies[..i + 1][..i] == authority.policies[..i];
        var (d, p) := core.evaluate(authority.policies[i], request);
        decision, placement := StricterDecision(decision, d), StricterPlacement(placement, p);
      }
      assert authority.policies[..|authority.policies|] == authority.policies;
    }
    var selected := Required([], []);
    if decision != Deny && contractOk {
      selected := core.required(authority, core.stages(request), intent.changedFiles);
    }
    var ok := contractOk && selected.conflicts == [] && intent.fingerprint != Some("");
    var fingerprint := if intent.fingerprint.Some? then intent.fingerprint.value else walked;
    var basis := Basis(ok, decision, placement, selected.gates, fingerprint);
    var binding := BindingFor(request, intent, basis, files);
    var receipts, unproven := ReadReceipts(j, request.key, request.action, selected.gates, binding);
    var approval := decision == Ask && j.Some? && ApprovalIsCurrent(j.value, request.key, request.action, binding);
    plan := Plan(ok, request.action, if ok then decision else Deny, if ok then placement else Blocked,
                 if ok then unproven else [], receipts, files, fingerprint, binding, approval,
                 ok && placement != Blocked && unproven == [] && (decision == Allow || approval), intent);
  }

  method ReadReceipts(j: Option<Journal>, key: seq<char>, action: string, gates: seq<SelectedGate>, binding: Binding)
    returns (receipts: seq<ReceiptStatus>, unproven: seq<SelectedGate>)
    ensures receipts == Receipts(j, key, action, gates, binding)
    ensures unproven == Unproven(j, key, action, gates, binding)
  {
    receipts, unproven := [], [];
    for i := 0 to |gates|
      invariant receipts == Receipts(j, key, action, gates, binding)[..i]
      invariant unproven == Unproven(j, key, action, gates[..i], binding)
    {
      assert gates[..i + 1][..i] == gates[..i];
      var current := Proven(j, key, action, gates[i].gate, binding);
      receipts := receipts + [ReceiptStatus(gates[i].gate.id, current, gates[i].gate)];
      if !current { unproven := unproven + [gates[i]]; }
    }
    assert gates[..|gates|] == gates;
  }

  // ---- Directives -------------------------------------------------------------------------------

  function DecisionEvidence(plan: Plan): seq<Effect> {
    [AppendEvent(ActionDecision, DecisionDoc(plan.action, plan.decision, plan.binding))]
  }

  /** The facts a gate attempt is recorded against. */
  datatype GateContext = GateContext(contract: ContractDigest, fingerprint: string, definition: Gate, binding: Binding)

  datatype Refusal = WeakKey | InvalidContract | NotRequired | ContextChanged | NotAnAsk | NotAuthorized | WrongRelease

  datatype Directive = Directed(effects: seq<Effect>) | Refused(why: Refusal)

  function FindSelected(gates: seq<SelectedGate>, id: string): (r: Option<SelectedGate>)
    ensures r.Some? <==> exists g :: g in gates && g.gate.id == id
    ensures r.Some? ==> r.value in gates && r.value.gate.id == id
  {
    if gates == [] then None
    else if gates[0].gate.id == id then Some(gates[0])
    else
      assert gates == [gates[0]] + gates[1..];
      FindSelected(gates[1..], id)
  }

  function ReceiptFor(request: Request, plan: Plan, gate: Gate, exitCode: int): Document {
    ReceiptDoc(plan.action, plan.contract, exitCode, gate.id, gate, plan.fingerprint, plan.binding,
      Signature(request.key, ReceiptSubject(plan.action, plan.contract, plan.fingerprint, plan.binding, gate.id, gate,
          exitCode)))
  }

  /** An attempt is logged; an attempt that exited with 0 also creates the receipt. */
  function AttemptEffects(request: Request, plan: Plan, gate: Gate, exitCode: int): seq<Effect> {
    var payload := ReceiptFor(request, plan, gate, exitCode);
    [AppendEvent(GateAttempt, payload)]
    + (if exitCode == 0
       then [CreateJson(ReceiptPath(gate.id, plan.binding), payload), AppendEvent(GateReceipt, payload)]
       else [])
  }

  /** Record one gate attempt against a plan made without evidence. */
  function GateEvidence(core: Core, request: Request, files: ContractDigest, intent: Intent, walked: string,
                        gateId: string, exitCode: int, expected: GateContext): Directive {
    if |request.key| < MIN_KEY_LENGTH then Refused(WeakKey)
    else
      var plan := PlanFor(core, request, None, files, intent, walked);
      if !plan.ok then Refused(InvalidContract)
      else
        var found := FindSelected(plan.requiredGates, gateId);
        if found.None? then Refused(NotRequired)
        else if GateContext(plan.contract, plan.fingerprint, found.value.gate, plan.binding) != expected
        then Refused(ContextChanged)
        else Directed(AttemptEffects(request, plan, found.value.gate, exitCode))
  }

  function ApprovalEvidence(plan: Plan, approved: bool, responder: string, key: seq<char>): Directive {
    if !plan.ok || plan.decision != Ask then Refused(NotAnAsk)
    else if |key| < MIN_KEY_LENGTH then Refused(WeakKey)
    else
      var payload := ApprovalDoc(plan.action, approved, plan.binding, responder,
                                 Signature(key, ApprovalSubject(plan.action, plan.binding, approved)));
      Directed([if approved then WriteJson(ApprovalPath(plan.binding), payload)
                else RemoveFile(ApprovalPath(plan.binding), true),
                AppendEvent(ActionApproval, payload)])
  }

  /** Consume the authorization: one release per exact call, and the approval with it. */
  function ReleaseEvidence(plan: Plan, key: seq<char>): Directive {
    if !plan.authorized then Refused(NotAuthorized)
    else if |key| < MIN_KEY_LENGTH then Refused(WeakKey)
    else
      var id := ReleaseId(key, plan.action, plan.binding, plan.intent.toolCallId);
      var payload := ReleaseDoc(plan.action, plan.binding, plan.intent.toolCallId, id);
      Directed([CreateJson(ReleasePath(id), payload)]
        + (if plan.decision == Ask then [RemoveFile(ApprovalPath(plan.binding), false)] else [])
        + [AppendEvent(AuthorizationRelease, payload)])
  }

  function OutcomeEvidence(action: string, binding: Binding, toolCallId: string, release: Signature,
                           outcome: ToolOutcome, key: seq<char>): Directive {
    if |key| < MIN_KEY_LENGTH then Refused(WeakKey)
    else if release != ReleaseId(key, action, binding, toolCallId) then Refused(WrongRelease)
    else
      var payload := OutcomeDoc(action, binding, toolCallId, release, outcome);
      Directed([CreateJson(OutcomePath(release), payload), AppendEvent(ToolOutcomeEvent, payload)])
  }
}
