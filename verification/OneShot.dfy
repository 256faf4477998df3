/** One-shot evidence: whatever directives are offered and in whatever order, the ledger admits
    each release, outcome and receipt once, and an ask is released only on a standing yes. */
module OneShot {
  import opened Wrappers
  import opened Gates
  import opened Evidence
  import opened Ledger
  import opened Planning

  /** A directive offered to the ledger; plans are arbitrary values, stale or current. */
  datatype Act =
    | Decide(plan: Plan)
    | Attempt(request: Request, plan: Plan, gate: Gate, exitCode: int)
    | Approve(plan: Plan, approved: bool, responder: string, key: seq<char>)
    | Release(plan: Plan, key: seq<char>)
    | Settle(action: string, binding: Binding, toolCallId: string, release: Signature, outcome: ToolOutcome,
        key: seq<char>)

  function DirectiveOf(act: Act): Directive {
    match act
    case Decide(plan) => Directed(DecisionEvidence(plan))
    case Attempt(request, plan, gate, exitCode) => Directed(AttemptEffects(request, plan, gate, exitCode))
    case Approve(plan, approved, responder, key) => ApprovalEvidence(plan, approved, responder, key)
    case Release(plan, key) => ReleaseEvidence(plan, key)
    case Settle(action, binding, toolCallId, release, outcome, key) =>
      OutcomeEvidence(action, binding, toolCallId, release, outcome, key)
  }

  /** The journal after a sequence of offers, and the offers that were committed. */
  datatype Kept = Kept(journal: Journal, done: seq<Act>)

  function Offer(k: Kept, act: Act): Kept {
    match DirectiveOf(act)
    case Refused(_) => k
    case Directed(effects) =>
      match Commit(k.journal, effects)
      case None => k
      case Some(journal) => Kept(journal, k.done + [act])
  }

  function Replay(acts: seq<Act>): Kept {
    if acts == [] then Kept(EmptyJournal, []) else Offer(Replay(acts[..|acts| - 1]), acts[|acts| - 1])
  }

  /** The path an act creates, if it creates one. */
  function Creates(act: Act): Option<EvidencePath> {
    match act
    case Attempt(request, plan, gate, exitCode) => if exitCode == 0 then Some(ReceiptPath(gate.id, plan.binding))
                                                   else None
    case Release(plan, key) => Some(ReleasePath(ReleaseId(key, plan.action, plan.binding, plan.intent.toolCallId)))
    case Settle(_, _, _, release, _, _) => Some(OutcomePath(release))
    case _ => None
  }

  predicate Answers(act: Act, b: Binding) { act.Approve? && act.plan.binding == b }

  predicate Consumes(act: Act, b: Binding) { act.Release? && act.plan.decision == Ask && act.plan.binding == b }

  /** The latest response for the binding was a yes that nothing has consumed since. */
  ghost predicate StandingYes(done: seq<Act>, b: Binding) {
    exists m :: 0 <= m < |done| && Answers(done[m], b) && done[m].approved
      && forall k :: m < k < |done| ==> !Answers(done[k], b) && !Consumes(done[k], b)
  }

  ghost predicate Consistent(k: Kept) {
    && (forall i :: 0 <= i < |k.done| && Creates(k.done[i]).Some? ==> Creates(k.done[i]).value in k.journal.history)
    && (forall i, m :: 0 <= i < m < |k.done| && Creates(k.done[i]).Some? ==> Creates(k.done[i]) != Creates(k.done[m]))
    && (forall b :: ApprovalPath(b) in k.journal.files <==> StandingYes(k.done, b))
    && (forall m :: 0 <= m < |k.done| && k.done[m].Release? && k.done[m].plan.decision == Ask ==>
          StandingYes(k.done[..m], k.done[m].plan.binding))
  }

  lemma StandingAfter(done: seq<Act>, act: Act, b: Binding)
    ensures StandingYes(done + [act], b) <==>
      if Answers(act, b) then act.approved else StandingYes(done, b) && !Consumes(act, b)
  {
    var more := done + [act];
    if Answers(act, b) && act.approved { assert more[|done|] == act; }
    if StandingYes(done, b) && !Answers(act, b) && !Consumes(act, b) {
      var m :| 0 <= m < |done| && Answers(done[m], b) && done[m].approved
        && forall k :: m < k < |done| ==> !Answers(done[k], b) && !Consumes(done[k], b);
      assert more[m] == done[m];
      forall k | m < k < |more|
        ensures !Answers(more[k], b) && !Consumes(more[k], b) { if k < |done| { assert more[k] == done[k]; } }
    }
    if StandingYes(more, b) && !Answers(act, b) {
      var m :| 0 <= m < |more| && Answers(more[m], b) && more[m].approved
        && forall k :: m < k < |more| ==> !Answers(more[k], b) && !Consumes(more[k], b);
      assert more[|done|] == act && m < |done|;
      assert done[m] == more[m];
      forall k | m < k < |done| ensures !Answers(done[k], b) && !Consumes(done[k], b) { assert done[k] == more[k]; }
    }
  }

  /** What a committed act did to the journal. */
  lemma CommittedEffect(j: Journal, act: Act, effects: seq<Effect>, after: Journal)
    requires DirectiveOf(act) == Directed(effects) && Commit(j, effects) == Some(after)
    ensures j.history <= after.history
    ensures Creates(act).Some? ==> Creates(act).value !in j.history && Creates(act).value in after.history
    ensures forall b :: ApprovalPath(b) in after.files <==>
      if Answers(act, b) then act.approved else ApprovalPath(b) in j.files && !Consumes(act, b)
    ensures act.Release? && act.plan.decision == Ask ==> ApprovalPath(act.plan.binding) in j.files
  {
    match act
    case Decide(plan) =>
      OneEffect(j, effects);
    case Attempt(request, plan, gate, exitCode) =>
      if exitCode == 0 { ThreeEffects(j, effects); assert effects[1].CreateJson?; } else { OneEffect(j, effects); }
    case Approve(plan, approved, responder, key) =>
      TwoEffects(j, effects);
    case Release(plan, key) =>
      assert effects[0].CreateJson?;
      if plan.decision == Ask {
        ThreeEffects(j, effects);
        assert effects[1].RemoveFile?;
      } else {
        TwoEffects(j, effects);
      }
    case Settle(_, _, _, _, _, _) =>
      TwoEffects(j, effects);
      assert effects[0].CreateJson?;
  }

  lemma OneEffect(j: Journal, effects: seq<Effect>)
    requires |effects| == 1
    ensures ApplyAll(j, effects) == ApplyOne(j, j, effects[0])
  {
    assert effects[..0] == [];
    assert ApplyAll(j, effects[..0]) == j;
  }

  lemma TwoEffects(j: Journal, effects: seq<Effect>)
    requires |effects| == 2
    ensures ApplyAll(j, effects) == ApplyOne(j, ApplyOne(j, j, effects[0]), effects[1])
  {
    OneEffect(j, effects[..1]);
  }

  lemma ThreeEffects(j: Journal, effects: seq<Effect>)
    requires |effects| == 3
    ensures ApplyAll(j, effects) == ApplyOne(j, ApplyOne(j, ApplyOne(j, j, effects[0]), effects[1]), effects[2])
  {
    TwoEffects(j, effects[..2]);
  }

  lemma OfferKeepsConsistency(k: Kept, act: Act)
    requires Consistent(k)
    ensures Consistent(Offer(k, act))
  {
    var after := Offer(k, act);
    if after != k {
      CommittedEffect(k.journal, act, DirectiveOf(act).effects, after.journal);
      forall b ensures ApprovalPath(b) in after.journal.files <==> StandingYes(after.done, b) {
        StandingAfter(k.done, act, b);
      }
      forall m | 0 <= m < |after.done| && after.done[m].Release? && after.done[m].plan.decision == Ask
        ensures StandingYes(after.done[..m], after.done[m].plan.binding)
      {
        if m < |k.done| { assert after.done[..m] == k.done[..m]; } else { assert after.done[..m] == k.done; }
      }
    }
  }

  lemma {:induction false} ReplayIsConsistent(acts: seq<Act>)
    ensures Consistent(Replay(acts))
  {
    if acts != [] {
      ReplayIsConsistent(acts[..|acts| - 1]);
      OfferKeepsConsistency(Replay(acts[..|acts| - 1]), acts[|acts| - 1]);
    }
  }

  /** At most one release for an action, binding and tool call under one key. */
  lemma ReleasedOnce(acts: seq<Act>, i: nat, m: nat)
    requires i < m < |Replay(acts).done| && Replay(acts).done[i].Release? && Replay(acts).done[m].Release?
    ensures var one, other := Replay(acts).done[i], Replay(acts).done[m];
      one.key != other.key || one.plan.action != other.plan.action || one.plan.binding != other.plan.binding
      || one.plan.intent.toolCallId != other.plan.intent.toolCallId
  {
    ReplayIsConsistent(acts);
    assert Creates(Replay(acts).done[i]).Some?;
  }

  /** At most one outcome for a release, and a receipt path is created at most once. */
  lemma SettledAndReceiptedOnce(acts: seq<Act>, i: nat, m: nat)
    requires i < m < |Replay(acts).done|
    ensures var one, other := Replay(acts).done[i], Replay(acts).done[m];
      && (one.Settle? && other.Settle? ==> one.release != other.release)
      && (one.Attempt? && other.Attempt? && one.exitCode == 0 && other.exitCode == 0 ==>
            one.gate.id != other.gate.id || one.plan.binding != other.plan.binding)
  {
    ReplayIsConsistent(acts);
    assert Replay(acts).done[i].Settle? ==> Creates(Replay(acts).done[i]).Some?;
    assert Replay(acts).done[i].Attempt? && Replay(acts).done[i].exitCode == 0 ==> Creates(Replay(acts).done[i]).Some?;
  }

  /** An ask is released only while the latest response is an unconsumed yes, and the release consumes it. */
  lemma AskReleasedOnStandingYes(acts: seq<Act>, m: nat)
    requires m < |Replay(acts).done| && Replay(acts).done[m].Release? && Replay(acts).done[m].plan.decision == Ask
    ensures var done, b := Replay(acts).done, Replay(acts).done[m].plan.binding;
      StandingYes(done[..m], b) && !StandingYes(done[..m + 1], b)
  {
    ReplayIsConsistent(acts);
    var done := Replay(acts).done;
    assert done[..m + 1] == done[..m] + [done[m]];
    StandingAfter(done[..m], done[m], done[m].plan.binding);
  }
}
