/** The verification transaction: observe, plan, run the gates still required, re-observe after
    each one, record receipts, and plan again until nothing is required or the passes run out. */
module Verification {
  import opened Wrappers
  import opened Gates
  import opened Selection
  import opened Evidence
  import opened Ledger
  import opened Planning

  const MAX_CONVERGENCE_PASSES: nat := 3
  const MAX_SELECTED_GATES: nat := 256

  datatype Observation = Observation(fingerprint: string, changedFiles: seq<string>)

  /** The host as functions on worlds. Every call returns the world it leaves behind, so a gate,
      or anything running beside the transaction, may change the workspace at any call. */
  datatype Host<!W> = Host(
    runtimeValid: W -> bool,
    observe: W -> (Option<Observation>, W),
    load: W -> (Option<ContractDigest>, W),
    execute: (W, SelectedGate) -> (Option<int>, W))

  datatype Purpose = AuthorizeProtectedAction | EvidenceOnly

  datatype Task = Task(core: Core, request: Request, purpose: Purpose)

  /** One recorded gate run: the gate that was executed, how it ended, the workspace observed
      after it, the request it served, and the contract and definition its record names. */
  datatype GateRun = GateRun(
    executed: Gate,
    exitCode: int,
    fingerprint: string,
    request: Request,
    contract: ContractDigest,
    recorded: Gate)

  /** The world and the ledger, with the history the guarantees speak about:
      recorded gate runs, how many gates were started, and the latest observation. */
  datatype State<W> = State(
    world: W,
    journal: Journal,
    runs: seq<GateRun>,
    started: nat,
    observed: Option<Observation>)

  datatype BlockReason = PlanDenied | GateFailed(gateId: string, exitCode: int) | SubjectNotAuthorized

  datatype Outcome =
    | Blocked(reason: BlockReason, plan: Plan)
    | ApprovalRequired(plan: Plan)
    | Verified(plan: Plan)
    | Released(id: Signature, plan: Plan)

  datatype Failure =
    | WrongMode | RuntimeInvalid | ObservationFailed | ContractUnreadable | TooManyGates | GateNotRun
    | GateNoLongerSelected | ContractChanged | EvidenceRefused(why: Refusal) | LedgerRefused | DidNotConverge

  datatype Verdict = Again | Done(outcome: Outcome) | Failed(failure: Failure)

  datatype Turn<W> = Turn(verdict: Verdict, state: State<W>, intent: Intent)

  // ---- Specification -----------------------------------------------------------------------

  /** Observe the workspace into the intent; none when the observation fails. */
  function Refresh<W>(h: Host<W>, s: State<W>, intent: Intent): (Option<Intent>, State<W>) {
    var (seen, w) := h.observe(s.world);
    if seen.None? then (None, s.(world := w))
    else
      (Some(intent.(changedFiles := seen.value.changedFiles, fingerprint := Some(seen.value.fingerprint))),
       s.(world := w, observed := seen))
  }

  /** Load the contract and plan against the ledger. */
  function PlanNow<W>(h: Host<W>, t: Task, s: State<W>, intent: Intent): (Option<Plan>, State<W>) {
    var (files, w) := h.load(s.world);
    (if files.None? then None
     else Some(PlanFor(t.core, t.request, Some(s.journal), files.value, intent, "")), s.(world := w))
  }

  function FindReceipt(receipts: seq<ReceiptStatus>, id: string): (r: Option<ReceiptStatus>)
    ensures r.Some? <==> exists x :: x in receipts && x.gateId == id
    ensures r.Some? ==> r.value in receipts && r.value.gateId == id
  {
    if receipts == [] then None
    else if receipts[0].gateId == id then Some(receipts[0])
    else
      assert receipts == [receipts[0]] + receipts[1..];
      FindReceipt(receipts[1..], id)
  }

  /** Bind a finished gate's result to the state it left behind and record it. */
  function RecordRun<W>(h: Host<W>, t: Task, s: State<W>, intent: Intent, plan: Plan, gate: SelectedGate,
                        exitCode: int): Turn<W> {
    var (planned, s1) := PlanNow(h, t, s, intent);
    if planned.None? then Turn(Failed(ContractUnreadable), s1, intent)
    else
      var post := planned.value;
      var receipt := FindReceipt(post.receipts, gate.gate.id);
      if receipt.None? then Turn(Failed(GateNoLongerSelected), s1, intent)
      else if post.contract != plan.contract then Turn(Failed(ContractChanged), s1, intent)
      else
        var (files, w) := h.load(s1.world);
        var s2 := s1.(world := w);
        if files.None? then Turn(Failed(ContractUnreadable), s2, intent)
        else
          var context := GateContext(post.contract, post.fingerprint, receipt.value.definition, post.binding);
          match GateEvidence(t.core, t.request, files.value, intent, "", gate.gate.id, exitCode, context)
          case Refused(why) => Turn(Failed(EvidenceRefused(why)), s2, intent)
          case Directed(effects) =>
            match Commit(s2.journal, effects)
            case None => Turn(Failed(LedgerRefused), s2, intent)
            case Some(journal) =>
              var run := GateRun(gate.gate, exitCode, post.fingerprint, t.request, post.contract,
                  receipt.value.definition);
              var s3 := s2.(journal := journal, runs := s2.runs + [run]);
              if exitCode != 0 then Turn(Done(Outcome.Blocked(GateFailed(gate.gate.id, exitCode), post)), s3, intent)
              else Turn(Again, s3, intent)
  }

  function RunGate<W>(h: Host<W>, t: Task, s: State<W>, intent: Intent, plan: Plan, gate: SelectedGate): Turn<W> {
    var (exit, w) := h.execute(s.world, gate);
    var s1 := s.(world := w, started := s.started + 1);
    if exit.None? then Turn(Failed(GateNotRun), s1, intent)
    else
      var (refreshed, s2) := Refresh(h, s1, intent);
      if refreshed.None? then Turn(Failed(ObservationFailed), s2, intent)
      else RecordRun(h, t, s2, refreshed.value, plan, gate, exit.value)
  }

  /** The gates of one pass, until one ends the transaction. */
  function RunGates<W>(h: Host<W>, t: Task, s: State<W>, intent: Intent, plan: Plan, gates: seq<SelectedGate>): Turn<W>
    decreases |gates|
  {
    if gates == [] then Turn(Again, s, intent)
    else
      hide *;
      var turn := RunGate(h, t, s, intent, plan, gates[0]);
      if turn.verdict.Again? then RunGates(h, t, turn.state, turn.intent, plan, gates[1..]) else turn
  }

  /** Nothing is required any more: ask, verify, or consume the one release. */
  function Conclude<W>(t: Task, s: State<W>, intent: Intent, plan: Plan): Turn<W> {
    if plan.decision == Ask && !plan.approvalCurrent then Turn(Done(ApprovalRequired(plan)), s, intent)
    else if !plan.authorized then Turn(Done(Outcome.Blocked(SubjectNotAuthorized, plan)), s, intent)
    else if t.purpose == EvidenceOnly then Turn(Done(Verified(plan)), s, intent)
    else
      match ReleaseEvidence(plan, t.request.key)
      case Refused(why) => Turn(Failed(EvidenceRefused(why)), s, intent)
      case Directed(effects) =>
        match Commit(s.journal, effects)
        case None => Turn(Failed(LedgerRefused), s, intent)
        case Some(journal) =>
          Turn(Done(Released(ReleaseId(t.request.key, plan.action, plan.binding, plan.intent.toolCallId), plan)),
               s.(journal := journal), intent)
  }

  /** Log the decision of a fresh plan and act on it. */
  function ActOn<W>(h: Host<W>, t: Task, s: State<W>, intent: Intent, plan: Plan): Turn<W> {
    match Commit(s.journal, DecisionEvidence(plan))
    case None => Turn(Failed(LedgerRefused), s, intent)
    case Some(journal) =>
      var s1 := s.(journal := journal);
      if !plan.ok || plan.decision == Deny || plan.placement == Placement.Blocked
      then Turn(Done(Outcome.Blocked(PlanDenied, plan)), s1, intent)
      else if |plan.requiredGates| > MAX_SELECTED_GATES then Turn(Failed(TooManyGates), s1, intent)
      else if plan.requiredGates != [] then RunGates(h, t, s1, intent, plan, plan.requiredGates)
      else Conclude(t, s1, intent, plan)
  }

  function Pass<W>(h: Host<W>, t: Task, s: State<W>, intent: Intent): Turn<W> {
    var (refreshed, s1) := Refresh(h, s, intent);
    if refreshed.None? then Turn(Failed(ObservationFailed), s1, intent)
    else
      var (planned, s2) := PlanNow(h, t, s1, refreshed.value);
      if planned.None? then Turn(Failed(ContractUnreadable), s2, refreshed.value)
      else ActOn(h, t, s2, refreshed.value, planned.value)
  }

  function Passes<W>(h: Host<W>, t: Task, s: State<W>, intent: Intent, left: nat): Turn<W>
    decreases left
  {
    if left == 0 then Turn(Failed(DidNotConverge), s, intent)
    else
      hide *;
      var turn := Pass(h, t, s, intent);
      if turn.verdict.Again? then Passes(h, t, turn.state, turn.intent, left - 1) else turn
  }

  function AdvanceOf<W>(h: Host<W>, t: Task, s: State<W>, intent: Intent): Turn<W> {
    if t.request.mode != SupervisedAuto then Turn(Failed(WrongMode), s, intent)
    else if !h.runtimeValid(s.world) then Turn(Failed(RuntimeInvalid), s, intent)
    else Passes(h, t, s, intent, MAX_CONVERGENCE_PASSES)
  }

  // ---- The transaction ------------------------------------------------------------------------

  /** One run directory beside one workspace. The intent is overwritten by every observation. */
  class Verifier<W> {
    const host: Host<W>
    const task: Task
    const ledger: RunLedger
    var world: W
    var intent: Intent
    ghost var runs: seq<GateRun>
    ghost var started: nat
    ghost var observed: Option<Observation>

    ghost function Now(): State<W> reads this, ledger {
      State(world, ledger.Contents(), runs, started, observed)
    }

    constructor (host: Host<W>, task: Task, ledger: RunLedger, world: W, intent: Intent)
      ensures this.host == host && this.task == task && this.ledger == ledger && this.intent == intent
      ensures Now() == State(world, ledger.Contents(), [], 0, None)
    {
      this.host, this.task, this.ledger, this.world, this.intent := host, task, ledger, world, intent;
      runs, started, observed := [], 0, None;
    }

    method Advance() returns (verdict: Verdict)
      modifies this, ledger
      ensures Turn(verdict, Now(), intent) == AdvanceOf(host, task, old(Now()), old(intent))
    {
      hide Pass;
      if task.request.mode != SupervisedAuto { return Failed(WrongMode); }
      if !host.runtimeValid(world) { return Failed(RuntimeInvalid); }
      for pass := 0 to MAX_CONVERGENCE_PASSES
        invariant Passes(host, task, old(Now()), old(intent), MAX_CONVERGENCE_PASSES)
               == Passes(host, task, Now(), intent, MAX_CONVERGENCE_PASSES - pass)
      {
        verdict := RunPass();
        if !verdict.Again? { return; }
      }
      verdict := Failed(DidNotConverge);
    }

    method RunPass() returns (verdict: Verdict)
      modifies this, ledger
      ensures Turn(verdict, Now(), intent) == Pass(host, task, old(Now()), old(intent))
    {
      var seen := Observe();
      if !seen { return Failed(ObservationFailed); }
      var planned := MakePlan();
      if planned.None? { return Failed(ContractUnreadable); }
      var plan := planned.value;
      var logged := ledger.CommitEffectBatch(DecisionEvidence(plan));
      if !logged { return Failed(LedgerRefused); }
      if !plan.ok || plan.decision == Deny || plan.placement == Placement.Blocked {
        return Done(Outcome.Blocked(PlanDenied, plan));
      }
      if |plan.requiredGates| > MAX_SELECTED_GATES { return Failed(TooManyGates); }
      if plan.requiredGates != [] {
        verdict := RunRequired(plan);
      } else {
        verdict := Finish(plan);
      }
    }

    method RunRequired(plan: Plan) returns (verdict: Verdict)
      modifies this, ledger
      ensures Turn(verdict, Now(), intent) == RunGates(host, task, old(Now()), old(intent), plan, plan.requiredGates)
    {
      hide RunGate;
      var gates := plan.requiredGates;
      for i := 0 to |gates|
        invariant RunGates(host, task, old(Now()), old(intent), plan, gates)
               == RunGates(host, task, Now(), intent, plan, gates[i..])
      {
        assert gates[i..][0] == gates[i] && gates[i..][1..] == gates[i + 1..];
        verdict := ExecuteGate(plan, gates[i]);
        if !verdict.Again? { return; }
      }
      verdict := Again;
    }

    method ExecuteGate(plan: Plan, gate: SelectedGate) returns (verdict: Verdict)
      modifies this, ledger
      ensures Turn(verdict, Now(), intent) == RunGate(host, task, old(Now()), old(intent), plan, gate)
    {
      hide RecordRun;
      var (exit, next) := host.execute(world, gate);
      world, started := next, started + 1;
      if exit.None? { return Failed(GateNotRun); }
      var seen := Observe();
      if !seen { return Failed(ObservationFailed); }
      verdict := Record(plan, gate, exit.value);
    }

    /** Re-plan in the state the gate left, reject a changed contract, and commit the evidence. */
    method Record(plan: Plan, gate: SelectedGate, exitCode: int) returns (verdict: Verdict)
      modifies this, ledger
      ensures Turn(verdict, Now(), intent) == RecordRun(host, task, old(Now()), old(intent), plan, gate, exitCode)
    {
      hide PlanFor, GateEvidence, Commit;
      var planned := MakePlan();
      if planned.None? { return Failed(ContractUnreadable); }
      var post := planned.value;
      var receipt := FindReceipt(post.receipts, gate.gate.id);
      if receipt.None? { return Failed(GateNoLongerSelected); }
      if post.contract != plan.contract { return Failed(ContractChanged); }
      var (files, next) := host.load(world);
      world := next;
      if files.None? { return Failed(ContractUnreadable); }
      var context := GateContext(post.contract, post.fingerprint, receipt.value.definition, post.binding);
      var directive := GateEvidence(task.core, task.request, files.value, intent, "", gate.gate.id, exitCode, context);
      if directive.Refused? { return Failed(EvidenceRefused(directive.why)); }
      var recorded := ledger.CommitEffectBatch(directive.effects);
      if !recorded { return Failed(LedgerRefused); }
      runs := runs + [GateRun(gate.gate, exitCode, post.fingerprint, task.request,
                              post.contract, receipt.value.definition)];
      if exitCode != 0 { return Done(Outcome.Blocked(GateFailed(gate.gate.id, exitCode), post)); }
      verdict := Again;
    }

    method Finish(plan: Plan) returns (verdict: Verdict)
      modifies this, ledger
      ensures Turn(verdict, Now(), intent) == Conclude(task, old(Now()), old(intent), plan)
    {
      if plan.decision == Ask && !plan.approvalCurrent { return Done(ApprovalRequired(plan)); }
      if !plan.authorized { return Done(Outcome.Blocked(SubjectNotAuthorized, plan)); }
      if task.purpose == EvidenceOnly { return Done(Verified(plan)); }
      var directive := ReleaseEvidence(plan, task.request.key);
      if directive.Refused? { return Failed(EvidenceRefused(directive.why)); }
      var released := ledger.CommitEffectBatch(directive.effects);
      if !released { return Failed(LedgerRefused); }
      verdict := Done(Released(ReleaseId(task.request.key, plan.action, plan.binding, plan.intent.toolCallId), plan));
    }

    /** Overwrite the intent's changed files and fingerprint with what is there now. */
    method Observe() returns (ok: bool)
      modifies this
      ensures var (refreshed, after) := Refresh(host, old(Now()), old(intent));
        && ok == refreshed.Some? && Now() == after && intent == (if ok then refreshed.value else old(intent))
    {
      var (seen, next) := host.observe(world);
      world := next;
      ok := seen.Some?;
      if ok {
        intent := intent.(changedFiles := seen.value.changedFiles, fingerprint := Some(seen.value.fingerprint));
        observed := seen;
      }
    }

    method MakePlan() returns (plan: Option<Plan>)
      modifies this
      ensures (plan, Now()) == PlanNow(host, task, old(Now()), old(intent)) && intent == old(intent)
    {
      var (files, next) := host.load(world);
      world := next;
      if files.None? { return None; }
      var made := PlanForIntent(task.core, task.request, Some(ledger.Contents()), files.value, intent, "");
      plan := Some(made);
    }
  }
}
