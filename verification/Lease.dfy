/** The lease a tool call holds while it is authorized and while its tool runs. A handler is cut at
    its await points; each segment between two of them is one method of the guard. */
module Lease {
  import opened Wrappers

  type ReleaseId = nat

  datatype ActiveCall = ActiveCall(mutates: bool, release: Option<ReleaseId>)

  datatype LeaseState = LeaseState(
    activeCalls: map<string, ActiveCall>,
    activeMutatingCallId: Option<string>,
    concurrencyPoisoned: bool,
    shuttingDown: bool)

  const Unleased := LeaseState(map[], None, false, false)

  /** What is decided before a lease is asked for: authority, protected paths, classification. */
  datatype Screening = Unacceptable | Acceptable(mutates: bool)

  /** The answers a handler waits for. A failed, denied, misplaced or foreign answer is a refusal. */
  datatype PlanReply = PlanRefuses | PlanStands(asks: bool, gatesAllowParallelRead: bool)
  datatype AdvanceReply = AdvanceRefuses | ApprovalNeeded(hasUI: bool) | ReleasedAs(id: ReleaseId)

  /** Where a tool-call handler stands. */
  datatype Stage =
    | Planning | Advancing | Choosing | Approving(approved: bool) | Readvancing
    | Interrupting(release: ReleaseId)
    | LetThrough(release: ReleaseId)
    | Refused

  // ---- Specification of the segments ---------------------------------------------------------

  function RemoveActiveCall(s: LeaseState, id: string): LeaseState {
    if id !in s.activeCalls then s
    else
      s.(activeCalls := s.activeCalls - {id},
         activeMutatingCallId := if s.activeCalls[id].mutates && s.activeMutatingCallId == Some(id) then None
                                 else s.activeMutatingCallId)
  }

  function Give(s: LeaseState, id: string): (LeaseState, Stage) { (RemoveActiveCall(s, id), Refused) }

  function Begin(s: LeaseState, id: string, screening: Screening): (LeaseState, Stage) {
    if s.concurrencyPoisoned || s.shuttingDown || screening.Unacceptable? then (s, Refused)
    else if id in s.activeCalls || (if screening.mutates then |s.activeCalls| > 0 else s.activeMutatingCallId.Some?)
    then (s.(concurrencyPoisoned := true), Refused)
    else
      (s.(activeCalls := s.activeCalls[id := ActiveCall(screening.mutates, None)],
          activeMutatingCallId := if screening.mutates then Some(id) else s.activeMutatingCallId), Planning)
  }

  function Exclusive(mutates: bool, reply: PlanReply): bool {
    reply.PlanStands? && !mutates && (reply.asks || !reply.gatesAllowParallelRead)
  }

  function OnPlan(s: LeaseState, id: string, mutates: bool, reply: PlanReply): (LeaseState, Stage) {
    if reply.PlanRefuses? then Give(s, id)
    else if !Exclusive(mutates, reply) then (s, Advancing)
    else if id !in s.activeCalls || |s.activeCalls| != 1 || s.activeMutatingCallId.Some? then Give(s, id)
    else
      (s.(activeCalls := s.activeCalls[id := s.activeCalls[id].(mutates := true)], activeMutatingCallId := Some(id)),
          Advancing)
  }

  function OnAdvance(s: LeaseState, id: string, reply: AdvanceReply): (LeaseState, Stage) {
    match reply
    case AdvanceRefuses => Give(s, id)
    case ApprovalNeeded(hasUI) => if hasUI then (s, Choosing) else Give(s, id)
    case ReleasedAs(release) => Finish(s, id, release)
  }

  function OnApproval(s: LeaseState, id: string, approved: bool, recorded: bool): (LeaseState, Stage) {
    if recorded && approved then (s, Readvancing) else Give(s, id)
  }

  function OnReadvance(s: LeaseState, id: string, reply: AdvanceReply): (LeaseState, Stage) {
    if reply.ReleasedAs? then Finish(s, id, reply.id) else Give(s, id)
  }

  /** A durable release is in hand: tie it to the lease, and let the tool run unless the session is ending. */
  function Finish(s: LeaseState, id: string, release: ReleaseId): (LeaseState, Stage) {
    if id !in s.activeCalls then Give(s, id)
    else
      (s.(activeCalls := s.activeCalls[id := s.activeCalls[id].(release := Some(release))]),
       if s.shuttingDown then Interrupting(release) else LetThrough(release))
  }

  function OnInterrupted(s: LeaseState, id: string, recorded: bool): LeaseState {
    if recorded then RemoveActiveCall(s, id) else s.(concurrencyPoisoned := true)
  }

  /** A tool result arrives: the release whose outcome is to be recorded, if the call is known. */
  function OnResult(s: LeaseState, id: string): (LeaseState, Option<ReleaseId>) {
    if id in s.activeCalls && s.activeCalls[id].release.Some? then (s, s.activeCalls[id].release)
    else (s.(concurrencyPoisoned := true), None)
  }

  /** `closed` is true when every outcome, the cleanup and the run's end were recorded. */
  function OnShutdownEnd(s: LeaseState, closed: bool): LeaseState {
    if closed then Unleased else s.(concurrencyPoisoned := true)
  }

  // ---- The guard --------------------------------------------------------------------------------

  class PiActionGuard {
    var activeCalls: map<string, ActiveCall>
    var activeMutatingCallId: Option<string>
    var concurrencyPoisoned: bool
    var shuttingDown: bool

    function Now(): LeaseState reads this {
      LeaseState(activeCalls, activeMutatingCallId, concurrencyPoisoned, shuttingDown)
    }

    constructor ()
      ensures Now() == Unleased
    {
      activeCalls, activeMutatingCallId, concurrencyPoisoned, shuttingDown := map[], None, false, false;
    }

    method Drop(id: string)
      modifies this
      ensures Now() == RemoveActiveCall(old(Now()), id)
    {
      if id in activeCalls {
        if activeCalls[id].mutates && activeMutatingCallId == Some(id) { activeMutatingCallId := None; }
        activeCalls := activeCalls - {id};
      }
    }

    /** From the tool call to the first await: screen it and take the lease. */
    method ToolCall(id: string, screening: Screening) returns (stage: Stage)
      modifies this
      ensures (Now(), stage) == Begin(old(Now()), id, screening)
    {
      if concurrencyPoisoned || shuttingDown { return Refused; }
      if screening.Unacceptable? { return Refused; }
      var duplicate := id in activeCalls;
      var conflicts := if screening.mutates then |activeCalls| > 0 else activeMutatingCallId.Some?;
      if duplicate || conflicts {
        concurrencyPoisoned := true;
        return Refused;
      }
      activeCalls := activeCalls[id := ActiveCall(screening.mutates, None)];
      if screening.mutates { activeMutatingCallId := Some(id); }
      stage := Planning;
    }

    /** A plan that asks, or whose gates may not run beside reads, needs the lease to itself. */
    method Planned(id: string, mutates: bool, reply: PlanReply) returns (stage: Stage)
      modifies this
      ensures (Now(), stage) == OnPlan(old(Now()), id, mutates, reply)
    {
      if reply.PlanRefuses? {
        Drop(id);
        return Refused;
      }
      if !mutates && (reply.asks || !reply.gatesAllowParallelRead) {
        if id !in activeCalls || |activeCalls| != 1 || activeMutatingCallId.Some? {
          Drop(id);
          return Refused;
        }
        activeCalls := activeCalls[id := activeCalls[id].(mutates := true)];
        activeMutatingCallId := Some(id);
      }
      stage := Advancing;
    }

    method Advanced(id: string, reply: AdvanceReply) returns (stage: Stage)
      modifies this
      ensures (Now(), stage) == OnAdvance(old(Now()), id, reply)
    {
      if reply.AdvanceRefuses? || (reply.ApprovalNeeded? && !reply.hasUI) {
        Drop(id);
        return Refused;
      }
      if reply.ApprovalNeeded? { return Choosing; }
      stage := Release(id, reply.id);
    }

    method ApprovalRecorded(id: string, approved: bool, recorded: bool) returns (stage: Stage)
      modifies this
      ensures (Now(), stage) == OnApproval(old(Now()), id, approved, recorded)
    {
      if !recorded || !approved {
        Drop(id);
        return Refused;
      }
      stage := Readvancing;
    }

    method Readvanced(id: string, reply: AdvanceReply) returns (stage: Stage)
      modifies this
      ensures (Now(), stage) == OnReadvance(old(Now()), id, reply)
    {
      if !reply.ReleasedAs? {
        Drop(id);
        return Refused;
      }
      stage := Release(id, reply.id);
    }

    method Release(id: string, release: ReleaseId) returns (stage: Stage)
      modifies this
      ensures (Now(), stage) == Finish(old(Now()), id, release)
    {
      if id !in activeCalls { return Refused; }
      activeCalls := activeCalls[id := activeCalls[id].(release := Some(release))];
      if shuttingDown { return Interrupting(release); }
      stage := LetThrough(release);
    }

    method InterruptionRecorded(id: string, recorded: bool)
      modifies this
      ensures Now() == OnInterrupted(old(Now()), id, recorded)
    {
      if recorded { Drop(id); } else { concurrencyPoisoned := true; }
    }

    method ToolResult(id: string) returns (release: Option<ReleaseId>)
      modifies this
      ensures (Now(), release) == OnResult(old(Now()), id)
    {
      if id !in activeCalls || activeCalls[id].release.None? {
        concurrencyPoisoned := true;
        return None;
      }
      release := activeCalls[id].release;
    }

    method OutcomeRecorded(id: string, recorded: bool)
      modifies this
      ensures Now() == OnInterrupted(old(Now()), id, recorded)
    {
      if !recorded { concurrencyPoisoned := true; } else { Drop(id); }
    }

    /** The session ends; the run counts as interrupted when calls are active or the guard is poisoned. */
    method SessionShutdown() returns (interrupted: bool)
      modifies this
      ensures Now() == old(Now()).(shuttingDown := true)
      ensures interrupted <==> old(activeCalls) != map[] || old(concurrencyPoisoned)
    {
      shuttingDown := true;
      interrupted := |activeCalls| > 0 || concurrencyPoisoned;
    }

    method ShutdownEnded(closed: bool)
      modifies this
      ensures Now() == OnShutdownEnd(old(Now()), closed)
    {
      if closed {
        activeCalls, activeMutatingCallId, concurrencyPoisoned, shuttingDown := map[], None, false, false;
      } else {
        concurrencyPoisoned := true;
      }
    }
  }

  // ---- Mutual exclusion of leases -------------------------------------------------------------------

  /** A mutating lease is alone: the mutating id, if any, is the only entry, and only it is marked. */
  ghost predicate Excluding(s: LeaseState) {
    && (s.activeMutatingCallId.Some? ==>
          s.activeCalls.Keys == {s.activeMutatingCallId.value} && s.activeCalls[s.activeMutatingCallId.value].mutates)
    && (forall id :: id in s.activeCalls && s.activeCalls[id].mutates ==> s.activeMutatingCallId == Some(id))
  }

  lemma RemovingKeepsExclusion(s: LeaseState, id: string)
    requires Excluding(s)
    ensures Excluding(RemoveActiveCall(s, id))
  {}

  /** Every segment keeps mutating leases alone, in whatever order and for whatever ids segments run. */
  lemma SegmentsKeepExclusion(s: LeaseState, id: string, screening: Screening, mutates: bool, plan: PlanReply,
                              advance: AdvanceReply,
                              approved: bool, recorded: bool)
    requires Excluding(s)
    ensures Excluding(Begin(s, id, screening).0)
    ensures Excluding(OnPlan(s, id, mutates, plan).0)
    ensures Excluding(OnAdvance(s, id, advance).0) && Excluding(OnReadvance(s, id, advance).0)
    ensures Excluding(OnApproval(s, id, approved, recorded).0)
    ensures Excluding(OnInterrupted(s, id, recorded)) && Excluding(OnResult(s, id).0)
    ensures Excluding(OnShutdownEnd(s, recorded))
  {
    RemovingKeepsExclusion(s, id);
    BeginKeepsExclusion(s, id, screening);
    PlanKeepsExclusion(s, id, mutates, plan);
    if advance.ReleasedAs? { FinishKeepsExclusion(s, id, advance.id); }
  }

  lemma BeginKeepsExclusion(s: LeaseState, id: string, screening: Screening)
    requires Excluding(s)
    ensures Excluding(Begin(s, id, screening).0)
  {
    if screening.Acceptable? && screening.mutates && |s.activeCalls| == 0 { assert s.activeCalls == map[]; }
  }

  lemma PlanKeepsExclusion(s: LeaseState, id: string, mutates: bool, reply: PlanReply)
    requires Excluding(s)
    ensures Excluding(OnPlan(s, id, mutates, reply).0)
  {
    RemovingKeepsExclusion(s, id);
    if id in s.activeCalls && |s.activeCalls| == 1 { OnlyOne(s.activeCalls, id); }
  }

  lemma OnlyOne(m: map<string, ActiveCall>, id: string)
    requires id in m && |m| == 1
    ensures m.Keys == {id}
  {
    assert |m.Keys - {id}| == 0;
  }

  lemma FinishKeepsExclusion(s: LeaseState, id: string, release: ReleaseId)
    requires Excluding(s)
    ensures Excluding(Finish(s, id, release).0)
  {}
}
