/** The facts one tool call is authorized on, and the evidence kept about them.
    Digests and keyed signatures are modelled by the values they cover, so equal
    digests mean equal content. */
module Evidence {
  import opened Wrappers
  import opened Gates

  datatype Decision = Allow | Ask | Deny

  datatype Placement = SharedUserRuntime | DedicatedRepoRuntime | DedicatedRunRuntime | Blocked

  datatype Mode = SupervisedAuto | OtherMode(name: string)

  /** One authority file as it was read: absent is not the same as empty. */
  datatype ContractFile = ContractFile(name: string, text: Option<string>)

  type ContractDigest = seq<ContractFile>

  datatype Intent = Intent(
    kind: string,
    launchId: string,
    sessionId: string,
    toolCallId: string,
    toolName: string,
    inputDigest: string,
    targetDigest: string,
    executorDigest: string,
    changedFiles: seq<string>,
    fingerprint: Option<string>,
    mutates: bool)

  /** The exact subject of an authorization. */
  datatype Binding = Binding(
    action: string,
    classes: seq<string>,
    mode: Mode,
    intent: Intent,
    decision: Decision,
    placement: Placement,
    contract: ContractDigest,
    fingerprint: string,
    gates: seq<Gate>)

  /** What a signature slot can hold; literals keep approvals and releases apart from receipts. */
  datatype Slot =
    | Contract(files: ContractDigest) | Definition(gate: Gate) | Bound(binding: Binding) | Literal(text: string)

  datatype Subject = Subject(
    action: string,
    contract: Slot,
    workspace: string,
    binding: Binding,
    gateId: string,
    definition: Slot,
    exitCode: int)

  datatype Signature = Signature(key: seq<char>, subject: Subject)

  datatype ToolOutcome = Success | Error | Cancelled | Interrupted

  datatype EvidencePath =
    | ReceiptPath(gateId: string, binding: Binding)
    | ApprovalPath(binding: Binding)
    | ReleasePath(release: Signature)
    | OutcomePath(release: Signature)

  datatype Document =
    | ReceiptDoc(action: string, contract: ContractDigest, exitCode: int, gateId: string, definition: Gate,
                 fingerprint: string, binding: Binding, signature: Signature)
    | ApprovalDoc(action: string, approved: bool, binding: Binding, responder: string, signature: Signature)
    | ReleaseDoc(action: string, binding: Binding, toolCallId: string, release: Signature)
    | OutcomeDoc(action: string, binding: Binding, toolCallId: string, release: Signature, outcome: ToolOutcome)
    | DecisionDoc(action: string, decision: Decision, binding: Binding)

  datatype EventKind =
    | ActionDecision | GateAttempt | GateReceipt | ActionApproval | AuthorizationRelease | ToolOutcomeEvent

  datatype Effect =
    | AppendEvent(event: EventKind, payload: Document)
    | WriteJson(path: EvidencePath, document: Document)
    | CreateJson(path: EvidencePath, document: Document)
    | RemoveFile(path: EvidencePath, ignoreMissing: bool)

  const MIN_KEY_LENGTH := 32

  function ReceiptSubject(action: string, contract: ContractDigest, fingerprint: string, binding: Binding,
                          gateId: string, definition: Gate, exitCode: int): Subject {
    Subject(action, Contract(contract), fingerprint, binding, gateId, Definition(definition), exitCode)
  }

  function ApprovalSubject(action: string, binding: Binding, approved: bool): Subject {
    Subject(action, Literal("approval"), if approved then "approved" else "denied", binding, "human-approval",
            Bound(binding), if approved then 1 else 0)
  }

  function ReleaseSubject(action: string, binding: Binding, toolCallId: string): Subject {
    Subject(action, Literal("authorization-release"), toolCallId, binding, "tool-release", Bound(binding), 0)
  }

  function ReleaseId(key: seq<char>, action: string, binding: Binding, toolCallId: string): Signature {
    Signature(key, ReleaseSubject(action, binding, toolCallId))
  }
}
